/**
 * The constraint class of the design application: validation against a
 * five-entry allow-list, same-type comparison, violation checking, and
 * creation from a parsed sentence.
 */
module DataConstraint {
  import opened Common
  import opened ConstraintEval

  /** The allow-list: MAX and MIN of height and of area for structures, MAX distance to access for cubes. */
  const PossibleConstraints: seq<Possibility> := [
    Possibility(FnMax, TypeName("Structure"), "height"),
    Possibility(FnMin, TypeName("Structure"), "height"),
    Possibility(FnMax, TypeName("0"), "distToAccess"),
    Possibility(FnMax, TypeName("Structure"), "area"),
    Possibility(FnMin, TypeName("Structure"), "area")
  ]

  /** Exactly the five allowed combinations pass the allow-list test. */
  lemma AllowList(d: ConstraintData)
    ensures Allowed(d, PossibleConstraints) <==>
      (d.objectType == TypeName("Structure") && d.fn in {Some(FnMax), Some(FnMin)} && d.prop in {Some("height"), Some("area")})
      || (d.objectType == TypeName("0") && d.fn == Some(FnMax) && d.prop == Some("distToAccess"))
  {
    if d.objectType == TypeName("Structure") && d.fn in {Some(FnMax), Some(FnMin)} && d.prop in {Some("height"), Some("area")} {
      if d.fn == Some(FnMax) && d.prop == Some("height") {
        assert Matches(PossibleConstraints[0], d);
      } else if d.fn == Some(FnMin) && d.prop == Some("height") {
        assert Matches(PossibleConstraints[1], d);
      } else if d.fn == Some(FnMax) {
        assert Matches(PossibleConstraints[3], d);
      } else {
        assert Matches(PossibleConstraints[4], d);
      }
    }
    if d.objectType == TypeName("0") && d.fn == Some(FnMax) && d.prop == Some("distToAccess") {
      assert Matches(PossibleConstraints[2], d);
    }
  }

  /** 'Structure' reads the buildings; any other type the objects whose type is `parseInt(type)`. */
  function SelectedProps(objectType: TypeTag, design: DesignView): seq<map<string, int>>
  {
    if objectType == TypeName("Structure") then design.buildings
    else ObjectsOf(FilterKinds(design.objects, KindsOf(ParseInt(objectType))))
  }

  /** A name that is not a number, such as 'Any', selects nothing here. */
  lemma NonNumericTypeSelectsNothing(name: string, design: DesignView)
    requires name != "Structure" && |name| > 0 && !IsDigit(name[0])
    ensures SelectedProps(TypeName(name), design) == []
  {
  }

  /** `isViolated`: `false` for an empty selection, otherwise the verdict of the comparison and the folded value. */
  function IsViolated(c: Constraint, design: DesignView): (r: Verdict)
    ensures r.NoObjects? <==> |SelectedProps(c.objectType, design)| == 0
    ensures r.Checked? ==> r.value == Reduce(c.fn, PropValues(SelectedProps(c.objectType, design), c.prop))
    ensures r.Checked? ==> (r.violated <==> Compare(r.value, c.comp, c.value) != c.result)
  {
    Evaluate(c.fn, c.comp, c.value, c.result, PropValues(SelectedProps(c.objectType, design), c.prop))
  }

  /** What `Constraint.create` returns: the string 'No text provided', a constraint, or `null`. */
  datatype Created = NoText | Made(constraint: Constraint) | NotUnderstood

  /**
   * `Constraint.create`: an empty sentence is refused with a message; the
   * parse of any other sentence (`parsed`, what the sentence parser
   * returns) becomes a constraint exactly when it is complete and allowed.
   */
  method Create(text: string, parsed: Option<ConstraintData>) returns (r: Created)
    requires parsed.Some? ==> !parsed.value.removeFlag
    ensures text == "" <==> r.NoText?
    ensures text != "" ==>
      (r.Made? <==> parsed.Some? && Complete(parsed.value) && Allowed(parsed.value, PossibleConstraints))
    ensures r.Made? ==> r.constraint == FromData(parsed.value)
  {
    if text == "" {
      return NoText;
    }
    var error := HasError(parsed, PossibleConstraints);
    if !error {
      return Made(FromData(parsed.value));
    }
    return NotUnderstood;
  }
}
