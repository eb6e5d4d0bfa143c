/**
 * The keyword parser of the `sessionAPI` layer: a sentence is read by
 * substring tests against fixed word lists (negation, function, object
 * type, property, comparison) and its first run of digits becomes the
 * constraint's value.
 */
module SessionConstraint {
  import opened Common
  import opened Text
  import opened ConstraintEval

  const NoWords: seq<string> := ["no", "not"]
  const MaxWords: seq<string> := ["any", "no"]
  const SumWords: seq<string> := ["total", "all"]
  const BuildingWords: seq<string> := ["building", "structure"]
  const CubeWords: seq<string> := ["cube", "room"]
  const RoofWords: seq<string> := ["roof"]
  const TreeWords: seq<string> := ["tree"]
  const AreaWords: seq<string> := ["area", "square footage", "space", "floorspace", "size"]
  const HeightWords: seq<string> := ["tall", "height", "elevation"]
  const GroundWords: seq<string> := ["ground"]
  const GtWords: seq<string> := ["greater than", "more than"]
  const LtWords: seq<string> := ["fewer than", "less than"]

  /**
   * The constraint's `type`: the string 'building', or a list of object
   * kinds where `None` is `ObjectsEnum.TRUNK`, a key the enumeration lacks
   * (so `undefined`).
   */
  datatype ObjectSet = Building | Kinds(kinds: seq<Option<int>>)

  /** A string of decimal digits, as `/[0-9]+/` finds them. */
  type DigitString = s: string | AllDigits(s)

  /** The constraint data; `value` is the digit string the sentence contained. */
  datatype SessionConstraint = SessionConstraint(
    text: string, result: bool, fn: Fn, objectType: ObjectSet, prop: string, comp: Comp, value: DigitString)

  /** `textHas`: whether some word of the list occurs in the text. */
  method TextHas(text: string, test: seq<string>) returns (hasMatch: bool)
    ensures hasMatch <==> exists k :: 0 <= k < |test| && Contains(text, test[k])
  {
    hasMatch := false;
    for i := 0 to |test|
      invariant hasMatch == HasAny(text, test[..i])
    {
      HasAnySnoc(text, test, i);
      hasMatch := hasMatch || Contains(text, test[i]);
    }
    assert test[..|test|] == test;
  }

  /** The kinds a sentence without a building word names; the empty list falls back to cubes and roofs. */
  function KindList(cube: bool, roof: bool, tree: bool): (r: seq<Option<int>>)
    ensures |r| > 0
    ensures Some(ROOF) in r <==> !cube && !roof && !tree
    ensures Some(CUBE) in r <==> cube || roof || !tree
    ensures Some(FOLIAGE) in r <==> tree
    ensures None in r <==> tree
  {
    var pushed := (if cube then [Some(CUBE)] else []) + (if roof then [Some(CUBE)] else [])
      + (if tree then [Some(FOLIAGE), None] else []);
    if |pushed| == 0 then [Some(CUBE), Some(ROOF)] else pushed
  }

  /** The `fn` step of `parseText`: MAX for 'any' or 'no', SUM otherwise (the 'total'/'all' branch also sets SUM). */
  method ParseFn(text: string) returns (fn: Fn)
    ensures fn == FnMax <==> HasAny(text, MaxWords)
    ensures fn != FnMin
  {
    fn := FnSum;
    var isMax := TextHas(text, MaxWords);
    var isSum := TextHas(text, SumWords);
    if isMax {
      fn := FnMax;
    } else if isSum {
      fn := FnSum;
    }
  }

  /** The `type` step: 'building' when a building word occurs, else the pushed kinds or the default. */
  method ParseType(text: string) returns (objectType: ObjectSet)
    ensures objectType.Building? <==> HasAny(text, BuildingWords)
    ensures objectType.Kinds? ==>
      objectType.kinds == KindList(HasAny(text, CubeWords), HasAny(text, RoofWords), HasAny(text, TreeWords))
  {
    var isBuilding := TextHas(text, BuildingWords);
    if isBuilding {
      return Building;
    }
    var kinds: seq<Option<int>> := [];
    var isCube := TextHas(text, CubeWords);
    var isRoof := TextHas(text, RoofWords);
    var isTree := TextHas(text, TreeWords);
    if isCube {
      kinds := kinds + [Some(CUBE)];
    }
    if isRoof {
      kinds := kinds + [Some(CUBE)];
    }
    if isTree {
      kinds := kinds + [Some(FOLIAGE), None];
    }
    if |kinds| == 0 {
      kinds := [Some(CUBE), Some(ROOF)];
    }
    return Kinds(kinds);
  }

  /** The `prop` step: area before height before ground, or `null`. */
  method ParseProp(text: string) returns (prop: Option<string>)
    ensures prop.None? <==> !HasAny(text, AreaWords) && !HasAny(text, HeightWords) && !HasAny(text, GroundWords)
    ensures prop == Some("area") <==> HasAny(text, AreaWords)
    ensures prop == Some("height") <==> !HasAny(text, AreaWords) && HasAny(text, HeightWords)
    ensures prop.Some? ==> prop.value in {"area", "height", "ground"}
  {
    prop := None;
    var isArea := TextHas(text, AreaWords);
    var isHeight := TextHas(text, HeightWords);
    var isGround := TextHas(text, GroundWords);
    if isArea {
      prop := Some("area");
    } else if isHeight {
      prop := Some("height");
    } else if isGround {
      prop := Some("ground");
    }
  }

  /** The `comp` step: '>' before '<', and '===' when neither list has a word in the text. */
  method ParseComp(text: string) returns (comp: Comp)
    ensures comp == Gt <==> HasAny(text, GtWords)
    ensures comp == Lt <==> !HasAny(text, GtWords) && HasAny(text, LtWords)
    ensures comp == StrictEq <==> !HasAny(text, GtWords) && !HasAny(text, LtWords)
  {
    comp := StrictEq;
    var isGt := TextHas(text, GtWords);
    var isLt := TextHas(text, LtWords);
    if isGt {
      comp := Gt;
    } else if isLt {
      comp := Lt;
    }
  }

  /**
   * `parseText`: `null` exactly when the sentence names no property or has
   * no digit; otherwise every field is decided by the first list, in
   * priority order, that has a word in the sentence.
   */
  method ParseText(text: string) returns (r: Option<SessionConstraint>)
    ensures r.None? <==>
      (!HasAny(text, AreaWords) && !HasAny(text, HeightWords) && !HasAny(text, GroundWords))
      || FirstDigitRun(text).None?
    ensures r.Some? ==> r.value.text == text && FirstDigitRun(text).Some? && FirstDigitRun(text).value == r.value.value
    ensures r.Some? ==> (r.value.result <==> !HasAny(text, NoWords))
    ensures r.Some? ==> (r.value.fn == FnMax <==> HasAny(text, MaxWords)) && r.value.fn != FnMin
    ensures r.Some? ==> (r.value.objectType.Building? <==> HasAny(text, BuildingWords))
    ensures r.Some? && r.value.objectType.Kinds? ==>
      r.value.objectType.kinds == KindList(HasAny(text, CubeWords), HasAny(text, RoofWords), HasAny(text, TreeWords))
    ensures r.Some? ==> (r.value.prop == "area" <==> HasAny(text, AreaWords))
    ensures r.Some? ==> (r.value.prop == "height" <==> !HasAny(text, AreaWords) && HasAny(text, HeightWords))
    ensures r.Some? ==> r.value.prop in {"area", "height", "ground"}
    ensures r.Some? ==> (r.value.comp == Gt <==> HasAny(text, GtWords))
    ensures r.Some? ==> (r.value.comp == Lt <==> !HasAny(text, GtWords) && HasAny(text, LtWords))
    ensures r.Some? ==> (r.value.comp == StrictEq <==> !HasAny(text, GtWords) && !HasAny(text, LtWords))
  {
    var negated := TextHas(text, NoWords);
    var result := !negated;
    var fn := ParseFn(text);
    var objectType := ParseType(text);
    var prop := ParseProp(text);
    var comp := ParseComp(text);
    var value := FirstDigitRun(text);
    if prop.None? || value.None? {
      return None;
    }
    return Some(SessionConstraint(text, result, fn, objectType, prop.value, comp, value.value));
  }

  /** `Constraint.create`: nothing for an empty sentence, otherwise the parse of the lower-cased sentence. */
  method Create(text: string) returns (r: Option<SessionConstraint>)
    ensures text == "" ==> r.None?
    ensures text != "" ==> (r.None? <==>
      (!HasAny(ToLower(text), AreaWords) && !HasAny(ToLower(text), HeightWords) && !HasAny(ToLower(text), GroundWords))
      || FirstDigitRun(ToLower(text)).None?)
    ensures r.Some? ==> r.value.text == ToLower(text) && FirstDigitRun(ToLower(text)).Some? && FirstDigitRun(ToLower(text)).value == r.value.value
    ensures r.Some? ==> (r.value.result <==> !HasAny(ToLower(text), NoWords))
    ensures r.Some? ==> r.value.fn == (if HasAny(ToLower(text), MaxWords) then FnMax else FnSum)
  {
    if text == "" {
      return None;
    }
    r := ParseText(ToLower(text));
  }

  /** The kinds a kind list selects; `undefined` matches no object. */
  function KindSet(kinds: seq<Option<int>>): (r: set<int>)
    ensures forall k :: k in r <==> Some(k) in kinds
  {
    set i | 0 <= i < |kinds| && kinds[i].Some? :: kinds[i].value
  }

  /** The property records `isViolated` reads: the buildings, or the objects of the listed kinds. */
  function SelectedProps(objectType: ObjectSet, design: DesignView): seq<map<string, int>>
  {
    match objectType
    case Building => design.buildings
    case Kinds(kinds) => ObjectsOf(FilterKinds(design.objects, KindSet(kinds)))
  }

  /**
   * `isViolated`: `false` when nothing is selected; otherwise whether the
   * comparison of the folded values with the constraint's number differs
   * from the expected result.
   */
  function IsViolated(c: SessionConstraint, design: DesignView): (r: bool)
    ensures |SelectedProps(c.objectType, design)| == 0 ==> !r
    ensures r <==> IsViolation(Evaluate(c.fn, c.comp, DigitsValue(c.value), c.result,
      PropValues(SelectedProps(c.objectType, design), c.prop)))
  {
    var values := PropValues(SelectedProps(c.objectType, design), c.prop);
    if |values| == 0 then false
    else Compare(Reduce(c.fn, values), c.comp, DigitsValue(c.value)) != c.result
  }

  /** The sentence of the parser's unit test, written as its words joined by spaces. */
  const TestSentence: string := "No" + " " + TestTail

  /** A word without a space that none of the six words of the test sentence contains is absent from it. */
  lemma AbsentFromTestSentence(w: string)
    requires ' ' !in w
    requires !Contains("No", w) && !Contains("building", w) && !Contains("taller", w)
    requires !Contains("than", w) && !Contains("50", w) && !Contains("ft", w)
    ensures !Contains(TestSentence, w)
  {
    NotAcrossSpace("50", "ft", w);
    NotAcrossSpace("than", "50" + " " + "ft", w);
    NotAcrossSpace("taller", "than" + " " + ("50" + " " + "ft"), w);
    NotAcrossSpace("building", "taller" + " " + ("than" + " " + ("50" + " " + "ft")), w);
    NotAcrossSpace("No", TestTail, w);
  }

  const TestTail: string := "building" + " " + ("taller" + " " + ("than" + " " + ("50" + " " + "ft")))

  lemma TestSentenceNouns()
    ensures !HasAny(TestSentence, NoWords) && !HasAny(TestSentence, MaxWords)
    ensures HasAny(TestSentence, BuildingWords)
  {
    assert !Contains(TestSentence, "no") by { AbsentFromTestSentence("no"); }
    assert !Contains(TestSentence, "not") by { AbsentFromTestSentence("not"); }
    assert !Contains(TestSentence, "any") by { AbsentFromTestSentence("any"); }
    ContainsInConcat("No" + " ", TestTail, "building");
    assert Contains(TestTail, "building");
    assert Contains(TestSentence, BuildingWords[0]);
  }

  lemma TestSentenceHeight()
    ensures HasAny(TestSentence, HeightWords)
  {
    assert Contains("taller", "tall");
    ContainsInConcat("taller", " " + ("than" + " " + ("50" + " " + "ft")), "tall");
    ContainsInConcat("building" + " ", "taller" + " " + ("than" + " " + ("50" + " " + "ft")), "tall");
    ContainsInConcat("No" + " ", TestTail, "tall");
    assert Contains(TestSentence, HeightWords[0]);
  }

  lemma TestSentenceNoArea()
    ensures !HasAny(TestSentence, AreaWords)
  {
    assert !Contains(TestSentence, "area") by { AbsentFromTestSentence("area"); }
    assert !Contains(TestSentence, "square") by { AbsentFromTestSentence("square"); }
    assert "square footage"[..6] == "square";
    NotContainsPrefix(TestSentence, "square footage", 6);
    assert !Contains(TestSentence, "space") by { AbsentFromTestSentence("space"); }
    assert !Contains(TestSentence, "floorspace") by { AbsentFromTestSentence("floorspace"); }
    assert !Contains(TestSentence, "size") by { AbsentFromTestSentence("size"); }
  }

  lemma TestSentenceNoComparison()
    ensures !HasAny(TestSentence, GtWords) && !HasAny(TestSentence, LtWords)
  {
    assert !Contains(TestSentence, "greater") by { AbsentFromTestSentence("greater"); }
    assert "greater than"[..7] == "greater";
    NotContainsPrefix(TestSentence, "greater than", 7);
    assert !Contains(TestSentence, "more") by { AbsentFromTestSentence("more"); }
    assert "more than"[..4] == "more";
    NotContainsPrefix(TestSentence, "more than", 4);
    assert !Contains(TestSentence, "fewer") by { AbsentFromTestSentence("fewer"); }
    assert "fewer than"[..5] == "fewer";
    NotContainsPrefix(TestSentence, "fewer than", 5);
    assert !Contains(TestSentence, "less") by { AbsentFromTestSentence("less"); }
    assert "less than"[..4] == "less";
    NotContainsPrefix(TestSentence, "less than", 4);
  }

  lemma TestSentenceNumber()
    ensures FirstDigitRun(TestSentence) == Some("50")
  {
    FirstDigitAfterWord("No", TestTail);
    FirstDigitAfterWord("building", "taller" + " " + ("than" + " " + ("50" + " " + "ft")));
    FirstDigitAfterWord("taller", "than" + " " + ("50" + " " + "ft"));
    FirstDigitAfterWord("than", "50" + " " + "ft");
    var t := "50" + " " + "ft";
    assert DigitRunFrom(t, 2) == [];
    assert DigitRunFrom(t, 0) == "50";
  }

  /**
   * The parser's unit test: 'No building taller than 50 ft', parsed as it
   * is written (the capital N hides the negation), is an expected-true SUM
   * of building heights compared with `===` to '50'.
   */
  method ParseTestSentence() returns (r: Option<SessionConstraint>)
    ensures r == Some(SessionConstraint(TestSentence, true, FnSum, Building, "height", StrictEq, "50"))
  {
    TestSentenceNouns();
    TestSentenceHeight();
    TestSentenceNoArea();
    TestSentenceNoComparison();
    TestSentenceNumber();
    r := ParseText(TestSentence);
  }
}
