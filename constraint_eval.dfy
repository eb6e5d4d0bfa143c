/**
 * What the three `Constraint.isViolated` implementations share: the
 * property values of the selected objects are folded by `reduce` without
 * an initial value (SUM, MAX or MIN, skipping falsy values after the
 * first), and the folded value is compared with the constraint's value by
 * the comparison operator that `eval` applies.
 */
module ConstraintEval {
  import opened Common

  datatype Fn = FnMax | FnMin | FnSum

  /** The comparison operators a constraint can carry: `<`, `>`, `<=`, `>=`, `===`. */
  datatype Comp = Lt | Gt | Le | Ge | StrictEq

  /**
   * A folded value as JavaScript sees it: a number, `NaN` (a number
   * combined with `undefined`) or `undefined` (a missing property).
   */
  datatype JsValue = Num(n: int) | NaN | Undefined

  /** A property value read from an object: `None` is a missing property (`undefined`). */
  type PropValue = Option<int>

  /** `num ? … : acc`: zero and `undefined` are falsy. */
  predicate Truthy(v: PropValue)
  {
    v.Some? && v.value != 0
  }

  /** The first element seeds `reduce` whatever its value. */
  function Seed(v: PropValue): JsValue
  {
    if v.Some? then Num(v.value) else Undefined
  }

  /** One step of the reducer: a falsy value leaves the accumulator alone. */
  function Step(fn: Fn, acc: JsValue, v: PropValue): JsValue
  {
    if !Truthy(v) then acc
    else match acc
      case Num(a) =>
        (match fn
         case FnSum => Num(a + v.value)
         case FnMax => Num(Max(a, v.value))
         case FnMin => Num(Min(a, v.value)))
      case _ => NaN
  }

  /** `values.reduce(reducer)` with no initial value, on a non-empty list. */
  function Reduce(fn: Fn, values: seq<PropValue>): JsValue
    requires |values| > 0
  {
    if |values| == 1 then Seed(values[0])
    else Step(fn, Reduce(fn, values[..|values| - 1]), values[|values| - 1])
  }

  /** The sum of the truthy values, counted from the front. */
  function SumOfTruthy(values: seq<PropValue>): int
  {
    if |values| == 0 then 0
    else (if Truthy(values[0]) then values[0].value else 0) + SumOfTruthy(values[1..])
  }

  lemma {:induction false} SumOfTruthyAppend(values: seq<PropValue>, v: PropValue)
    ensures SumOfTruthy(values + [v]) == SumOfTruthy(values) + (if Truthy(v) then v.value else 0)
  {
    if |values| > 0 {
      assert (values + [v])[1..] == values[1..] + [v];
      SumOfTruthyAppend(values[1..], v);
    }
  }

  /** SUM from a defined first value is that value plus every later truthy value. */
  lemma {:induction false} ReduceSum(values: seq<PropValue>)
    requires |values| > 0 && values[0].Some?
    ensures Reduce(FnSum, values) == Num(values[0].value + SumOfTruthy(values[1..]))
  {
    if |values| > 1 {
      var init := values[..|values| - 1];
      ReduceSum(init);
      assert init[1..] + [values[|values| - 1]] == values[1..];
      SumOfTruthyAppend(init[1..], values[|values| - 1]);
    }
  }

  /**
   * MAX (and dually MIN) from a defined first value is a number at least
   * (at most) the first value and every later truthy value, and is one of them.
   */
  lemma {:induction false} ReduceMax(values: seq<PropValue>)
    requires |values| > 0 && values[0].Some?
    ensures Reduce(FnMax, values).Num?
    ensures Reduce(FnMax, values).n >= values[0].value
    ensures forall i :: 1 <= i < |values| && Truthy(values[i]) ==> Reduce(FnMax, values).n >= values[i].value
    ensures Reduce(FnMax, values).n == values[0].value
      || exists i :: 1 <= i < |values| && Truthy(values[i]) && Reduce(FnMax, values).n == values[i].value
  {
    if |values| > 1 {
      ReduceMax(values[..|values| - 1]);
    }
  }

  lemma {:induction false} ReduceMin(values: seq<PropValue>)
    requires |values| > 0 && values[0].Some?
    ensures Reduce(FnMin, values).Num?
    ensures Reduce(FnMin, values).n <= values[0].value
    ensures forall i :: 1 <= i < |values| && Truthy(values[i]) ==> Reduce(FnMin, values).n <= values[i].value
    ensures Reduce(FnMin, values).n == values[0].value
      || exists i :: 1 <= i < |values| && Truthy(values[i]) && Reduce(FnMin, values).n == values[i].value
  {
    if |values| > 1 {
      ReduceMin(values[..|values| - 1]);
    }
  }

  /**
   * A missing first value stays `undefined` when nothing truthy follows and
   * becomes `NaN` as soon as a truthy value is combined with it.
   */
  lemma {:induction false} ReduceUndefinedSeed(fn: Fn, values: seq<PropValue>)
    requires |values| > 0 && values[0].None?
    ensures Reduce(fn, values) == if exists i :: 1 <= i < |values| && Truthy(values[i]) then NaN else Undefined
  {
    if |values| > 1 {
      var init := values[..|values| - 1];
      ReduceUndefinedSeed(fn, init);
      if exists i :: 1 <= i < |init| && Truthy(init[i]) {
        var i :| 1 <= i < |init| && Truthy(init[i]);
        assert values[i] == init[i];
      }
    }
  }

  /** Falsy values after the first never change the result. */
  lemma ReduceSkipsFalsy(fn: Fn, values: seq<PropValue>, v: PropValue)
    requires |values| > 0 && !Truthy(v)
    ensures Reduce(fn, values + [v]) == Reduce(fn, values)
  {
    assert (values + [v])[..|values|] == values;
  }

  /**
   * `eval(`${value} ${comp} ${bound}`)`: `undefined` and `NaN` compare false
   * with every operator.
   */
  function Compare(v: JsValue, comp: Comp, bound: int): (r: bool)
    ensures r ==> v.Num?
  {
    match v
    case Num(n) =>
      (match comp
       case Lt => n < bound
       case Gt => n > bound
       case Le => n <= bound
       case Ge => n >= bound
       case StrictEq => n == bound)
    case _ => false
  }

  /** `${value}`: how a folded value is written into a message. */
  function JsValueText(v: JsValue): string
  {
    match v
    case Num(n) => IntToString(n)
    case NaN => "NaN"
    case Undefined => "undefined"
  }

  /** An object of the design as `getObjects` lists it: its type and its properties. */
  datatype Item = Item(kind: int, props: map<string, int>)

  /**
   * What `isViolated` reads from a design: the list of `getObjects()` and
   * the list of `getBuildings()`, each object as its named properties.
   */
  datatype DesignView = DesignView(objects: seq<Item>, buildings: seq<map<string, int>>)

  /** `objects.map(item => item[prop])`. */
  function PropValues(objects: seq<map<string, int>>, prop: string): (r: seq<PropValue>)
    ensures |r| == |objects|
    ensures forall i :: 0 <= i < |objects| ==> r[i] == (if prop in objects[i] then Some(objects[i][prop]) else None)
  {
    if |objects| == 0 then []
    else [if prop in objects[0] then Some(objects[0][prop]) else None] + PropValues(objects[1..], prop)
  }

  /** `items.map(item => item.object)`. */
  function ObjectsOf(items: seq<Item>): (r: seq<map<string, int>>)
    ensures |r| == |items|
    ensures forall i :: 0 <= i < |items| ==> r[i] == items[i].props
  {
    if |items| == 0 then [] else [items[0].props] + ObjectsOf(items[1..])
  }

  /** `items.filter(item => keep(item.type))`, in order. */
  function FilterKinds(items: seq<Item>, keep: set<int>): (r: seq<Item>)
    ensures |r| <= |items|
    ensures forall i :: 0 <= i < |r| ==> r[i] in items && r[i].kind in keep
    ensures forall i :: 0 <= i < |items| && items[i].kind in keep ==> items[i] in r
  {
    if |items| == 0 then []
    else if items[0].kind in keep then [items[0]] + FilterKinds(items[1..], keep)
    else FilterKinds(items[1..], keep)
  }

  /** What `isViolated` returns: `false` when no object has the type, otherwise the verdict and the folded value. */
  datatype Verdict = NoObjects | Checked(violated: bool, value: JsValue)

  /** `isViolated(design).result`, which is `undefined`, so falsy, for `false`. */
  predicate IsViolation(v: Verdict)
  {
    v.Checked? && v.violated
  }

  /**
   * The fold and the comparison: no values give `NoObjects`; otherwise the
   * constraint is violated when the comparison differs from the expected result.
   */
  function Evaluate(fn: Fn, comp: Comp, bound: int, expected: bool, values: seq<PropValue>): (r: Verdict)
    ensures r.NoObjects? <==> |values| == 0
    ensures r.Checked? ==> r.value == Reduce(fn, values)
    ensures r.Checked? ==> (r.violated <==> Compare(Reduce(fn, values), comp, bound) != expected)
  {
    if |values| == 0 then NoObjects
    else
      var calculated := Reduce(fn, values);
      Checked(Compare(calculated, comp, bound) != expected, calculated)
  }

  /** A constraint expecting `true` is violated by a folded value that is not a number. */
  lemma NonNumberViolatesExpectedTrue(fn: Fn, comp: Comp, bound: int, values: seq<PropValue>)
    requires |values| > 0 && !Reduce(fn, values).Num?
    ensures Evaluate(fn, comp, bound, true, values) == Checked(true, Reduce(fn, values))
    ensures Evaluate(fn, comp, bound, false, values) == Checked(false, Reduce(fn, values))
  {
  }

  /** A constraint's `type`: a name such as 'Structure' or '0', or a number such as `1`. */
  datatype TypeTag = TypeName(name: string) | TypeNumber(number: int)

  /** `!type`: the empty string and `0` are falsy. */
  predicate TypeTruthy(t: TypeTag)
  {
    match t
    case TypeName(s) => s != ""
    case TypeNumber(n) => n != 0
  }

  /**
   * A parsed constraint before validation, as `hasError` receives it. An
   * absent field is `None`; for `result`, `None` is `null`. The `value` is
   * the number whose `toString()` the parser stored.
   */
  datatype ConstraintData = ConstraintData(
    text: string, result: Option<bool>, fn: Option<Fn>, objectType: TypeTag,
    prop: Option<string>, comp: Option<Comp>, value: Option<int>, removeFlag: bool)

  /** A constraint object: the fields `new Constraint(data)` copies, all present. */
  datatype Constraint = Constraint(
    text: string, result: bool, fn: Fn, objectType: TypeTag,
    prop: string, comp: Comp, value: int, removeFlag: bool)

  /** An entry of an allow-list of constraints (`possibleConstraints`). */
  datatype Possibility = Possibility(fn: Fn, objectType: TypeTag, prop: string)

  /** None of fn, type, prop, value and comp is falsy, and `result` is not null. */
  predicate Complete(d: ConstraintData)
  {
    d.fn.Some? && TypeTruthy(d.objectType) && d.prop.Some? && d.prop.value != ""
      && d.value.Some? && d.comp.Some? && d.result.Some?
  }

  predicate Matches(p: Possibility, d: ConstraintData)
  {
    d.fn == Some(p.fn) && d.objectType == p.objectType && d.prop == Some(p.prop)
  }

  /** Some allow-list entry matches the data's fn, type and prop. */
  predicate Allowed(d: ConstraintData, possible: seq<Possibility>)
  {
    exists i :: 0 <= i < |possible| && Matches(possible[i], d)
  }

  /**
   * `hasError`: missing data is an error, a remove request never is, and
   * otherwise the data must be complete and match an allow-list entry.
   */
  method HasError(data: Option<ConstraintData>, possible: seq<Possibility>) returns (error: bool)
    ensures data.None? ==> error
    ensures data.Some? && data.value.removeFlag ==> !error
    ensures data.Some? && !data.value.removeFlag ==>
      (error <==> !Complete(data.value) || !Allowed(data.value, possible))
  {
    if data.None? {
      return true;
    }
    var d := data.value;
    if d.removeFlag {
      return false;
    }
    if !Complete(d) {
      return true;
    }
    var hasMatch := false;
    for i := 0 to |possible|
      invariant hasMatch <==> exists j :: 0 <= j < i && Matches(possible[j], d)
    {
      if Matches(possible[i], d) {
        hasMatch := true;
      }
    }
    return !hasMatch;
  }

  /** `new Constraint(data)` on complete data. */
  function FromData(d: ConstraintData): (c: Constraint)
    requires Complete(d)
    ensures c.text == d.text && Some(c.result) == d.result && Some(c.fn) == d.fn
    ensures c.objectType == d.objectType && Some(c.prop) == d.prop && Some(c.comp) == d.comp
    ensures Some(c.value) == d.value && c.removeFlag == d.removeFlag
  {
    Constraint(d.text, d.result.value, d.fn.value, d.objectType, d.prop.value, d.comp.value, d.value.value, d.removeFlag)
  }

  /** `isSameType`: equal JSON of the type and equal prop. */
  predicate SameType(a: Constraint, b: Constraint)
  {
    a.objectType == b.objectType && a.prop == b.prop
  }

  /** `isSameType` is an equivalence relation. */
  lemma SameTypeEquivalence(a: Constraint, b: Constraint, c: Constraint)
    ensures SameType(a, a)
    ensures SameType(a, b) ==> SameType(b, a)
    ensures SameType(a, b) && SameType(b, c) ==> SameType(a, c)
  {
  }

  /** `parseInt(type)`: a number is itself, a name is the value of its leading digits, or `NaN`. */
  function ParseInt(t: TypeTag): (r: Option<int>)
    ensures t.TypeNumber? ==> r == Some(t.number)
    ensures t.TypeName? && |t.name| > 0 && !IsDigit(t.name[0]) ==> r.None?
  {
    match t
    case TypeNumber(n) => Some(n)
    case TypeName(s) =>
      var digits := LeadingDigits(s, 0);
      if |digits| == 0 then None else Some(DigitsValue(digits))
  }

  /** The digits at the start of `s` from position `i`. */
  function LeadingDigits(s: string, i: nat): (d: string)
    ensures AllDigits(d)
    ensures i < |s| && !IsDigit(s[i]) ==> d == []
    decreases |s| - i
  {
    if i < |s| && IsDigit(s[i]) then [s[i]] + LeadingDigits(s, i + 1) else []
  }

  /** The kinds `parseInt(type) === item.type` keeps: one kind, or none for `NaN`. */
  function KindsOf(k: Option<int>): set<int>
  {
    if k.Some? then {k.value} else {}
  }

  /** The objects of one kind, as `filter` then `map(item => item.object)` select them. */
  lemma ObjectsOfKind(items: seq<Item>, k: int)
    ensures forall m :: m in ObjectsOf(FilterKinds(items, {k})) <==> exists i :: 0 <= i < |items| && items[i].kind == k && items[i].props == m
  {
    var r := FilterKinds(items, {k});
    forall m
      ensures m in ObjectsOf(r) <==> exists i :: 0 <= i < |items| && items[i].kind == k && items[i].props == m
    {
      if m in ObjectsOf(r) {
        var j :| 0 <= j < |r| && ObjectsOf(r)[j] == m;
        assert r[j] in items;
        var i :| 0 <= i < |items| && items[i] == r[j];
      }
      if exists i :: 0 <= i < |items| && items[i].kind == k && items[i].props == m {
        var i :| 0 <= i < |items| && items[i].kind == k && items[i].props == m;
        assert items[i] in r;
        var j :| 0 <= j < |r| && r[j] == items[i];
        assert ObjectsOf(r)[j] == m;
      }
    }
  }
}
