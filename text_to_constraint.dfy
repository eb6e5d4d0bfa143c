/**
 * The deterministic pieces of the sentence-to-constraint parser of the
 * design application: inverting a synonym table into a word-to-key lookup,
 * choosing the fold function from the expected result and the comparison,
 * and choosing the constraint's number from the numbers of the sentence.
 */
module TextToConstraint {
  import opened Common
  import opened ConstraintEval

  /** A synonym table: each key with its synonyms, in the order `Object.keys` lists the keys. */
  type Table = seq<(string, seq<string>)>

  /** A JavaScript object from words to keys, as its (key, value) entries in insertion order. */
  type Lookup = seq<(string, string)>

  /** `COMPS`. */
  const CompsTable: Table := [
    ("===", ["equals", "same"]),
    (">", ["greater", "more", "bigger", "taller", "larger", "above", "exceeding", "over", "further", "farther"]),
    ("<", ["fewer", "less", "smaller", "shorter", "below", "under", "lower", "beneath"]),
    (">=", ["minimum", "min", "littlest", "least", "smallest"]),
    ("<=", ["maximum", "max", "biggest", "most", "largest", "greatest"])
  ]

  /** `PROPS`. */
  const PropsTable: Table := [
    ("area", ["area", "square footage", "sf", "space", "floor", "floorspace", "size", "expanse", "breadth", "field"]),
    ("height", ["tall", "height", "elevation", "taller", "shorter", "ceiling", "peak", "stature", "crest", "tip", "zenith"]),
    ("distToAccess", ["access", "entry", "entrance", "ingress", "path", "route", "exit", "way", "door"])
  ]

  /**
   * `TYPES`. `Object.keys` lists integer-like keys first, in ascending
   * order, so the key 'Structure', written first in the source, comes last.
   */
  const TypesTable: Table := [
    ("0", ["cube", "room", "area", "cubes", "rooms", "areas", "elements"]),
    ("1", ["roof", "roofs", "rooves", "covering", "ceiling", "gable", "crown"]),
    ("2", ["tree", "plant", "bush", "trees", "plants", "bushes", "canopy"]),
    ("Structure", ["structure", "building", "structures", "buildings", "house", "home", "domicile", "complex", "design"])
  ]

  /** Reading a property of the object: the value of the entry with that key. */
  function Get(m: Lookup, k: string): (r: Option<string>)
    ensures r.None? <==> forall i :: 0 <= i < |m| ==> m[i].0 != k
  {
    if |m| == 0 then None else if m[0].0 == k then Some(m[0].1) else Get(m[1..], k)
  }

  /** Assigning a property: an existing key keeps its place and takes the new value, a new key goes last. */
  function Put(m: Lookup, k: string, v: string): (r: Lookup)
    ensures Get(r, k) == Some(v)
    ensures forall s :: s != k ==> Get(r, s) == Get(m, s)
  {
    if |m| == 0 then [(k, v)]
    else if m[0].0 == k then [(k, v)] + m[1..]
    else [m[0]] + Put(m[1..], k, v)
  }

  /** The key of the last table entry that lists the word among its synonyms. */
  function LastKeyFor(table: Table, word: string): (r: Option<string>)
    ensures r.None? <==> forall i :: 0 <= i < |table| ==> word !in table[i].1
    ensures r.Some? ==> exists i :: 0 <= i < |table| && word in table[i].1 && r.value == table[i].0
  {
    if |table| == 0 then None
    else if word in table[|table| - 1].1 then Some(table[|table| - 1].0)
    else LastKeyFor(table[..|table| - 1], word)
  }

  /**
   * `reverseMap`: every synonym maps to its key; a synonym listed under
   * several keys maps to the last of them. So the words with a value are
   * exactly the synonyms of the table.
   */
  method ReverseMap(table: Table) returns (reverse: Lookup)
    ensures forall word :: Get(reverse, word) == LastKeyFor(table, word)
  {
    reverse := [];
    for i := 0 to |table|
      invariant forall word :: Get(reverse, word) == LastKeyFor(table[..i], word)
    {
      var key := table[i].0;
      var synonyms := table[i].1;
      assert table[..i + 1][..i] == table[..i];
      for j := 0 to |synonyms|
        invariant forall word :: Get(reverse, word) == if word in synonyms[..j] then Some(key) else LastKeyFor(table[..i], word)
      {
        assert forall word :: word in synonyms[..j + 1] <==> word in synonyms[..j] || word == synonyms[j];
        reverse := Put(reverse, synonyms[j], key);
      }
      assert synonyms[..|synonyms|] == synonyms;
    }
    assert table[..|table|] == table;
  }

  /**
   * `getFn`: a constraint that must hold compares the minimum against a
   * lower bound and the maximum against an upper bound; one that must not
   * hold the other way round; `===` sums, and no comparison gives no function.
   */
  function GetFn(result: bool, comp: Option<Comp>): Option<Fn>
  {
    match comp
    case None => None
    case Some(c) =>
      match c
      case Gt => if result then Some(FnMin) else Some(FnMax)
      case Ge => if result then Some(FnMin) else Some(FnMax)
      case Lt => if result then Some(FnMax) else Some(FnMin)
      case Le => if result then Some(FnMax) else Some(FnMin)
      case StrictEq => Some(FnSum)
  }

  function Swapped(fn: Option<Fn>): Option<Fn>
  {
    match fn
    case Some(FnMax) => Some(FnMin)
    case Some(FnMin) => Some(FnMax)
    case _ => fn
  }

  /** Negating the expected result swaps MAX and MIN and keeps SUM and "none". */
  lemma GetFnDuality(result: bool, comp: Option<Comp>)
    ensures GetFn(!result, comp) == Swapped(GetFn(result, comp))
    ensures comp == Some(StrictEq) ==> GetFn(result, comp) == Some(FnSum)
    ensures comp.None? <==> GetFn(result, comp).None?
    ensures result && comp in {Some(Gt), Some(Ge)} ==> GetFn(result, comp) == Some(FnMin)
    ensures result && comp in {Some(Lt), Some(Le)} ==> GetFn(result, comp) == Some(FnMax)
  {
  }

  /**
   * `getValue`: the first number that is not zero, else the last one, or
   * `null` when the sentence has no number.
   */
  method GetValue(numbers: seq<int>) returns (value: Option<int>)
    ensures value.None? <==> |numbers| == 0
    ensures value.Some? && value.value != 0 ==>
      exists i :: 0 <= i < |numbers| && numbers[i] == value.value && forall j :: 0 <= j < i ==> numbers[j] == 0
    ensures value.Some? && value.value == 0 ==> forall j :: 0 <= j < |numbers| ==> numbers[j] == 0
  {
    value := None;
    if |numbers| > 0 {
      var i := 0;
      while numbers[i] == 0 && i < |numbers| - 1
        invariant 0 <= i < |numbers|
        invariant forall j :: 0 <= j < i ==> numbers[j] == 0
      {
        i := i + 1;
      }
      value := Some(numbers[i]);
    }
  }
}
