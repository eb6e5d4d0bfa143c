/**
 * The constraint parser and validator of the `api` layer: a sentence is
 * matched against the keyword lists of three constraint definitions, the
 * matched definition's default constraint is filled in with the sentence
 * and its first number, and the result is accepted only when it matches
 * the allow-list.
 *
 * The default constraints are shared objects: parsing writes the text and
 * the number into the definition itself and hands that object back, so a
 * later sentence without a number keeps the number of an earlier one.
 */
module ApiConstraint {
  import opened Common
  import opened Text
  import opened ConstraintEval

  /** One entry of the definitions table: its default constraint and its two keyword lists. */
  datatype DefinitionSpec = DefinitionSpec(
    name: string, fn: Fn, objectType: TypeTag, prop: string, comp: Comp, result: bool,
    keywords: seq<string>, ambiguousKeywords: seq<string>)

  /** The three definitions, in table order. */
  const Definitions: seq<DefinitionSpec> := [
    DefinitionSpec("MAX_HEIGHT", FnMax, TypeName("Structure"), "height", Le, true,
      ["tall", "height", "elevation", "taller", "shorter", "above", "altitude"],
      ["bigger", "larger", "more", "exceeding", "in excess of", "less"]),
    DefinitionSpec("MAX_AREA", FnMax, TypeName("Structure"), "area", Le, true,
      ["area", "wide", "covering", "square", "sq"],
      []),
    DefinitionSpec("MAX_DIST_TO_ACCESS", FnMax, TypeName("0"), "distToAccess", Le, true,
      ["further", "farther", "from", "distance", "dist", "access", "door", "exit", "outside", "escape"],
      ["beyond"])
  ]

  /** The allow-list of the `api` layer. */
  const PossibleConstraints: seq<Possibility> := [
    Possibility(FnMax, TypeName("Structure"), "height"),
    Possibility(FnMax, TypeName("0"), "distToAccess"),
    Possibility(FnMax, TypeName("Structure"), "area")
  ]

  function Words(spec: DefinitionSpec, ambiguous: bool): seq<string>
  {
    if ambiguous then spec.ambiguousKeywords else spec.keywords
  }

  /** The last definition with a keyword (of the chosen list) in the text, or -1. */
  function LastMatch(specs: seq<DefinitionSpec>, text: string, ambiguous: bool): (r: int)
    ensures -1 <= r < |specs|
    ensures r == -1 <==> forall i :: 0 <= i < |specs| ==> !HasAny(text, Words(specs[i], ambiguous))
    ensures r >= 0 ==> HasAny(text, Words(specs[r], ambiguous))
    ensures r >= 0 ==> forall i :: r < i < |specs| ==> !HasAny(text, Words(specs[i], ambiguous))
  {
    if |specs| == 0 then -1
    else if HasAny(text, Words(specs[|specs| - 1], ambiguous)) then |specs| - 1
    else LastMatch(specs[..|specs| - 1], text, ambiguous)
  }

  /** Scanning one more definition: it wins when one of its words is in the text. */
  lemma LastMatchSnoc(specs: seq<DefinitionSpec>, text: string, ambiguous: bool, i: nat)
    requires i < |specs|
    ensures LastMatch(specs[..i + 1], text, ambiguous)
      == if HasAny(text, Words(specs[i], ambiguous)) then i else LastMatch(specs[..i], text, ambiguous)
  {
    assert specs[..i + 1][..i] == specs[..i];
    assert specs[..i + 1][i] == specs[i];
  }

  /** The definition `parseText` picks: the last hard match, else the last ambiguous match, else -1. */
  function MatchIndex(specs: seq<DefinitionSpec>, text: string): int
  {
    var hard := LastMatch(specs, text, false);
    if hard >= 0 then hard else LastMatch(specs, text, true)
  }

  /** Ambiguous keywords are consulted only when no hard keyword matched. */
  lemma HardMatchWins(specs: seq<DefinitionSpec>, text: string, i: nat)
    requires i < |specs| && HasAny(text, specs[i].keywords)
    ensures MatchIndex(specs, text) == LastMatch(specs, text, false) >= i
  {
  }

  /** A definition of the table, carrying the fields that parsing writes. */
  class Definition {
    const spec: DefinitionSpec
    var text: Option<string>
    var value: Option<int>

    constructor (spec: DefinitionSpec)
      ensures this.spec == spec && text.None? && value.None?
    {
      this.spec := spec;
      text := None;
      value := None;
    }

    /** The default constraint as data: the table's fields plus what parsing wrote. */
    function Data(): (d: ConstraintData)
      reads this
      ensures !d.removeFlag && d.value == value
    {
      ConstraintData(text.GetOr(""), Some(spec.result), Some(spec.fn), spec.objectType,
        Some(spec.prop), Some(spec.comp), value, false)
    }
  }

  function Specs(defs: seq<Definition>): (r: seq<DefinitionSpec>)
    ensures |r| == |defs|
    ensures forall i :: 0 <= i < |defs| ==> r[i] == defs[i].spec
  {
    if |defs| == 0 then [] else [defs[0].spec] + Specs(defs[1..])
  }

  predicate Distinct(defs: seq<Definition>)
  {
    forall i, j :: 0 <= i < j < |defs| ==> defs[i] != defs[j]
  }

  /** The module-level definitions table: fresh definition objects, one per table entry. */
  method NewDefinitions() returns (defs: seq<Definition>)
    ensures Specs(defs) == Definitions && Distinct(defs)
    ensures forall i :: 0 <= i < |defs| ==> fresh(defs[i]) && defs[i].text.None? && defs[i].value.None?
  {
    var height := new Definition(Definitions[0]);
    var area := new Definition(Definitions[1]);
    var access := new Definition(Definitions[2]);
    defs := [height, area, access];
  }

  /** The inner `forEach` over one definition's words: any word in the text sets the match index to `i`. */
  method ScanWords(words: seq<string>, text: string, i: int, matchIndex: int) returns (m: int)
    ensures m == if HasAny(text, words) then i else matchIndex
  {
    m := matchIndex;
    for k := 0 to |words|
      invariant m == if HasAny(text, words[..k]) then i else matchIndex
    {
      HasAnySnoc(text, words, k);
      if Contains(text, words[k]) {
        m := i;
      }
    }
    assert words[..|words|] == words;
  }

  /** One pass of `parseText` over every keyword of every definition; the last hit wins. */
  method FindMatch(defs: seq<Definition>, text: string, ambiguous: bool) returns (matchIndex: int)
    ensures matchIndex == LastMatch(Specs(defs), text, ambiguous)
  {
    ghost var specs := Specs(defs);
    matchIndex := -1;
    for i := 0 to |defs|
      invariant matchIndex == LastMatch(specs[..i], text, ambiguous)
    {
      assert defs[i].spec == specs[i];
      LastMatchSnoc(specs, text, ambiguous, i);
      matchIndex := ScanWords(Words(defs[i].spec, ambiguous), text, i, matchIndex);
    }
    assert specs[..|defs|] == specs;
  }

  /**
   * `parseText`: the matched definition receives the sentence and, when the
   * sentence has a number (`numbers`, the numbers the language library
   * finds in the lower-cased sentence), that number; it is returned itself.
   * Without a match the result is `null` and nothing changes.
   */
  method ParseText(text: string, numbers: seq<int>, defs: seq<Definition>) returns (r: Option<Definition>)
    requires Distinct(defs)
    modifies set i | 0 <= i < |defs| :: defs[i]
    ensures var m := MatchIndex(Specs(defs), ToLower(text));
      && (m == -1 <==> r.None?)
      && (m >= 0 ==> (r == Some(defs[m]) && defs[m].text == Some(text)
            && defs[m].value == (if |numbers| > 0 then Some(numbers[0]) else old(defs[m].value))))
    ensures forall i :: 0 <= i < |defs| && (r.None? || defs[i] != r.value) ==> unchanged(defs[i])
  {
    var clean := ToLower(text);
    var matchIndex := FindMatch(defs, clean, false);
    if matchIndex == -1 {
      matchIndex := FindMatch(defs, clean, true);
    }
    if matchIndex >= 0 {
      var constraint := defs[matchIndex];
      constraint.text := Some(text);
      if |numbers| > 0 {
        constraint.value := Some(numbers[0]);
      }
      return Some(constraint);
    }
    return None;
  }

  /** What `Constraint.create` returns: the string 'No text provided', a constraint, or `null`. */
  datatype Created = NoText | Made(constraint: Constraint) | NotUnderstood

  /**
   * `Constraint.create`: an empty sentence is refused with a message; a
   * parsed sentence becomes a constraint when `hasError` finds nothing wrong.
   */
  method Create(text: string, numbers: seq<int>, defs: seq<Definition>) returns (r: Created)
    requires Distinct(defs)
    modifies set i | 0 <= i < |defs| :: defs[i]
    ensures text == "" <==> r.NoText?
    ensures text == "" ==> forall i :: 0 <= i < |defs| ==> unchanged(defs[i])
    ensures text != "" ==> var m := MatchIndex(Specs(defs), ToLower(text));
      && (r.Made? <==> (m >= 0 && defs[m].value.Some?
            && Allowed(ConstraintData(text, Some(defs[m].spec.result), Some(defs[m].spec.fn), defs[m].spec.objectType,
                 Some(defs[m].spec.prop), Some(defs[m].spec.comp), defs[m].value, false), PossibleConstraints)
            && TypeTruthy(defs[m].spec.objectType) && defs[m].spec.prop != ""))
      && (r.Made? ==> r.constraint == Constraint(text, defs[m].spec.result, defs[m].spec.fn, defs[m].spec.objectType,
            defs[m].spec.prop, defs[m].spec.comp, defs[m].value.value, false))
      && (m >= 0 ==> defs[m].value == (if |numbers| > 0 then Some(numbers[0]) else old(defs[m].value)))
  {
    if text == "" {
      return NoText;
    }
    var parsed := ParseText(text, numbers, defs);
    var data := if parsed.Some? then Some(parsed.value.Data()) else None;
    var error := HasError(data, PossibleConstraints);
    if !error {
      return Made(FromData(data.value));
    }
    return NotUnderstood;
  }

  /** The values `isViolated` folds: 'Structure' reads the buildings, 'Any' every object, otherwise the objects of type `parseInt(type)`. */
  function SelectedProps(objectType: TypeTag, design: DesignView): seq<map<string, int>>
  {
    if objectType == TypeName("Structure") then design.buildings
    else if objectType == TypeName("Any") then ObjectsOf(design.objects)
    else ObjectsOf(FilterKinds(design.objects, KindsOf(ParseInt(objectType))))
  }

  /**
   * `isViolated`: `false` when no object of the type exists, otherwise
   * whether the folded value's comparison differs from the expected result,
   * together with that value.
   */
  function IsViolated(c: Constraint, design: DesignView): (r: Verdict)
    ensures r.NoObjects? <==> |SelectedProps(c.objectType, design)| == 0
    ensures r.Checked? ==> r.value == Reduce(c.fn, PropValues(SelectedProps(c.objectType, design), c.prop))
    ensures r.Checked? ==> (r.violated <==> Compare(r.value, c.comp, c.value) != c.result)
  {
    Evaluate(c.fn, c.comp, c.value, c.result, PropValues(SelectedProps(c.objectType, design), c.prop))
  }

  /** The three selections: buildings for 'Structure', every object for 'Any', one kind for a number or a digit name. */
  lemma Selection(design: DesignView, k: nat)
    ensures SelectedProps(TypeName("Structure"), design) == design.buildings
    ensures SelectedProps(TypeName("Any"), design) == ObjectsOf(design.objects)
    ensures SelectedProps(TypeNumber(k), design) == ObjectsOf(FilterKinds(design.objects, {k}))
    ensures SelectedProps(TypeName("0"), design) == ObjectsOf(FilterKinds(design.objects, {0}))
  {
    var zero := "0";
    assert |zero| == 1 && zero[0] == '0';
    assert zero != "Structure" && zero != "Any";
    assert LeadingDigits(zero, 1) == [];
    assert LeadingDigits(zero, 0) == [zero[0]] + LeadingDigits(zero, 1) == zero;
    assert DigitsValue(zero) == DigitsValue(zero[..0]) * 10 + 0 == 0;
  }
}
