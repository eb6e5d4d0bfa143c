/**
 * The monitor of the `sessionAPI` layer: the designer's constraints, three
 * built-in system constraints, and the messages of the last action. The
 * same-type test it calls on constraints (`isSameConstraintType`) is not
 * defined by this layer's constraint class: as written, adding to a non-empty
 * list raises a `TypeError` (`AddConstraintAsWritten`); `AddConstraint` takes
 * the test as a parameter and gives the replacement the loop is written for.
 */
module SessionMonitor {
  import opened Common
  import opened Text
  import opened ConstraintEval
  import opened MonitorLists
  import opened SessionConstraint

  /** A message of the list, by the sentence it shows (`Render`). */
  datatype Message =
    | Added(constraint: SessionConstraint)
    | ViolatedConstraint(said: string)
    | ManyConflicts

  const HexDigits: string := "0123456789abcdef"

  /** One character as `JSON.stringify` writes it inside a string. */
  function JsonChar(c: char): string
  {
    if c == '"' then "\\\""
    else if c == '\\' then "\\\\"
    else if c == '\n' then "\\n"
    else if c == '\r' then "\\r"
    else if c == '\t' then "\\t"
    else if c as int == 8 then "\\b"
    else if c as int == 12 then "\\f"
    else if c as int < 32 then "\\u00" + [HexDigits[c as int / 16], HexDigits[c as int % 16]]
    else [c]
  }

  function JsonString(s: string): string
  {
    "\"" + JsonBody(s) + "\""
  }

  function JsonBody(s: string): string
  {
    if |s| == 0 then "" else JsonChar(s[0]) + JsonBody(s[1..])
  }

  function FnName(fn: Fn): string
  {
    match fn
    case FnMax => "MAX"
    case FnMin => "MIN"
    case FnSum => "SUM"
  }

  function CompText(comp: Comp): string
  {
    match comp
    case Lt => "<"
    case Gt => ">"
    case Le => "<="
    case Ge => ">="
    case StrictEq => "==="
  }

  /** A kind list as JSON; `undefined` in an array is written `null`. */
  function JsonKinds(kinds: seq<Option<int>>): string
  {
    if |kinds| == 0 then ""
    else
      (match kinds[0] case Some(k) => IntToString(k) case None => "null")
        + (if |kinds| > 1 then "," + JsonKinds(kinds[1..]) else "")
  }

  function JsonType(t: ObjectSet): string
  {
    match t
    case Building => JsonString("building")
    case Kinds(kinds) => "[" + JsonKinds(kinds) + "]"
  }

  /** `JSON.stringify(constraint)`: the data fields in constructor order; the method-valued field is skipped. */
  function ConstraintJson(c: SessionConstraint): string
  {
    "{\"text\":" + JsonString(c.text)
      + ",\"result\":" + (if c.result then "true" else "false")
      + ",\"fn\":" + JsonString(FnName(c.fn))
      + ",\"type\":" + JsonType(c.objectType)
      + ",\"prop\":" + JsonString(c.prop)
      + ",\"comp\":" + JsonString(CompText(c.comp))
      + ",\"value\":" + JsonString(c.value) + "}"
  }

  /** The text of a message. */
  function Render(m: Message): string
  {
    match m
    case Added(c) => "Added constraint: " + ConstraintJson(c)
    case ViolatedConstraint(said) => "Violated constraint: " + said
    case ManyConflicts => "Ted, many conflicts are occurring."
  }

  /** Nothing below ground, no roof without a base, no floating building. */
  const SystemConstraints: seq<SessionConstraint> := [
    SessionConstraint("no building below ground", false, FnMin, Building, "ground", Lt, "0"),
    SessionConstraint("no roof without base", false, FnSum, Kinds([Some(ROOF)]), "noBase", Gt, "0"),
    SessionConstraint("no building floating", false, FnSum, Building, "floating", Gt, "0")
  ]

  /** `constraint => constraint.isViolated(design)`. */
  function CheckOn(design: DesignView): SessionConstraint -> bool
  {
    (c: SessionConstraint) => IsViolated(c, design)
  }

  /** The constraints of the list that the check reports, in order. */
  function ViolatedOf(cs: seq<SessionConstraint>, check: SessionConstraint -> bool): (r: seq<SessionConstraint>)
    ensures |r| <= |cs|
  {
    if |cs| == 0 then []
    else ViolatedOf(cs[..|cs| - 1], check) + (if check(cs[|cs| - 1]) then [cs[|cs| - 1]] else [])
  }

  /** A constraint is reported exactly when it is in the list and the check finds it violated. */
  lemma {:induction false} ViolatedOfMembers(cs: seq<SessionConstraint>, check: SessionConstraint -> bool)
    ensures forall c :: c in ViolatedOf(cs, check) <==> c in cs && check(c)
  {
    if |cs| > 0 {
      ViolatedOfMembers(cs[..|cs| - 1], check);
      assert cs == cs[..|cs| - 1] + [cs[|cs| - 1]];
    }
  }

  /** Checking two lists one after the other reports the first list's conflicts, then the second's. */
  lemma {:induction false} ViolatedOfAppend(a: seq<SessionConstraint>, b: seq<SessionConstraint>, check: SessionConstraint -> bool)
    ensures ViolatedOf(a + b, check) == ViolatedOf(a, check) + ViolatedOf(b, check)
    decreases |b|
  {
    if |b| > 0 {
      assert (a + b)[..|a + b| - 1] == a + b[..|b| - 1];
      assert (a + b)[|a + b| - 1] == b[|b| - 1];
      ViolatedOfAppend(a, b[..|b| - 1], check);
    } else {
      assert a + b == a;
    }
  }

  /** One 'Violated constraint' line per conflict, in order. */
  function ViolationLines(found: seq<SessionConstraint>): (r: seq<Message>)
    ensures |r| == |found|
    ensures forall i :: 0 <= i < |found| ==> r[i] == ViolatedConstraint(found[i].text)
  {
    if |found| == 0 then [] else ViolationLines(found[..|found| - 1]) + [ViolatedConstraint(found[|found| - 1].text)]
  }

  /** The messages `checkConflicts` leaves: one line for more than three conflicts, else one per conflict. */
  function ConflictReport(found: seq<SessionConstraint>): seq<Message>
  {
    if |found| > 3 then [ManyConflicts] else ViolationLines(found)
  }

  /** The violation test of `checkConflicts`, one list at a time. */
  method CollectViolated(cs: seq<SessionConstraint>, design: DesignView) returns (found: seq<SessionConstraint>)
    ensures found == ViolatedOf(cs, CheckOn(design))
  {
    found := [];
    for i := 0 to |cs|
      invariant found == ViolatedOf(cs[..i], CheckOn(design))
    {
      assert cs[..i + 1][..i] == cs[..i];
      if IsViolated(cs[i], design) {
        found := found + [cs[i]];
      }
    }
    assert cs[..|cs|] == cs;
  }

  /** The message loop of `checkConflicts`. */
  method ListViolations(found: seq<SessionConstraint>) returns (lines: seq<Message>)
    ensures lines == ViolationLines(found)
  {
    lines := [];
    for i := 0 to |found|
      invariant lines == ViolationLines(found[..i])
    {
      assert found[..i + 1][..i] == found[..i];
      lines := lines + [ViolatedConstraint(found[i].text)];
    }
    assert found[..|found|] == found;
  }

  /** `Constraint.create` understands the sentence: it names a property and holds a number. */
  predicate Understood(text: string)
  {
    text != "" && (HasAny(ToLower(text), AreaWords) || HasAny(ToLower(text), HeightWords)
      || HasAny(ToLower(text), GroundWords)) && FirstDigitRun(ToLower(text)).Some?
  }

  /** How `addConstraint` ends as written: refused, accepted, or a `TypeError`. */
  datatype AddOutcome = Refused | Accepted | TypeErrorRaised

  /**
   * `addConstraint` as written, once `Constraint.create` has answered: the
   * loop calls `isSameConstraintType`, which the session constraint does not
   * define, on the first listed constraint, so a created constraint is taken
   * only into an empty list. The outcome and the list that stays.
   */
  function AddedAsWritten(listed: seq<SessionConstraint>, created: Option<SessionConstraint>): (r: (AddOutcome, seq<SessionConstraint>))
    ensures r.0 == Refused <==> created.None?
    ensures r.0 == TypeErrorRaised <==> created.Some? && |listed| > 0
    ensures r.0 != Accepted ==> r.1 == listed
    ensures r.0 == Accepted ==> created.Some? && r.1 == [created.value]
  {
    match created
    case None => (Refused, listed)
    case Some(c) => if |listed| > 0 then (TypeErrorRaised, listed) else (Accepted, [c])
  }

  /**
   * As written, the second constraint ever created raises, where the
   * replacement `AddCreated` states takes it and keeps it last.
   */
  lemma SecondAddRaises(c1: SessionConstraint, c2: SessionConstraint, same: (SessionConstraint, SessionConstraint) -> bool)
    ensures AddedAsWritten([], Some(c1)) == (Accepted, [c1])
    ensures AddedAsWritten([c1], Some(c2)).0 == TypeErrorRaised
    ensures AddedAsWritten([c1], Some(c2)).1 == [c1]
    ensures (c1 in Others([c1], c2, same) <==> !same(c1, c2)) && c2 in Others([c1], c2, same) + [c2]
  {
    assert [c1][..0] == [];
  }

  class Monitor {
    var constraints: seq<SessionConstraint>
    var systemConstraints: seq<SessionConstraint>
    var conflicts: seq<SessionConstraint>
    var incompatibilities: seq<SessionConstraint>
    var messages: seq<Message>

    constructor ()
      ensures constraints == [] && systemConstraints == SystemConstraints
      ensures conflicts == [] && incompatibilities == [] && messages == []
    {
      constraints := [];
      systemConstraints := SystemConstraints;
      conflicts := [];
      incompatibilities := [];
      messages := [];
    }

    /**
     * The effect of `addConstraint` once `Constraint.create` has answered:
     * no constraint changes nothing; a constraint replaces those of its type,
     * goes last, and becomes the only message.
     */
    method AddCreated(created: Option<SessionConstraint>, same: (SessionConstraint, SessionConstraint) -> bool) returns (ok: bool)
      modifies this
      ensures ok <==> created.Some?
      ensures created.None? ==> constraints == old(constraints) && messages == old(messages)
      ensures created.Some? ==> constraints == Others(old(constraints), created.value, same) + [created.value]
      ensures created.Some? ==> messages == [Added(created.value)]
      ensures systemConstraints == old(systemConstraints)
      ensures conflicts == old(conflicts) && incompatibilities == old(incompatibilities)
      ensures old(OnePerType(constraints, same)) ==> OnePerType(constraints, same)
    {
      if created.Some? {
        var c := created.value;
        var newConstraints := [];
        for i := 0 to |constraints|
          invariant newConstraints == Others(constraints[..i], c, same)
        {
          assert constraints[..i + 1][..i] == constraints[..i];
          if !same(constraints[i], c) {
            newConstraints := newConstraints + [constraints[i]];
          }
        }
        assert constraints[..|constraints|] == constraints;
        if OnePerType(constraints, same) {
          ReplaceKeepsOnePerType(constraints, c, same);
        }
        newConstraints := newConstraints + [c];
        constraints := newConstraints;
        messages := [Added(c)];
        return true;
      }
      return false;
    }

    /**
     * `addConstraint`: an understood sentence (lower-cased by `create`)
     * ends the list, replacing the constraints of its type, and is announced
     * in the only message; anything else leaves the monitor as it was.
     */
    method AddConstraint(text: string, same: (SessionConstraint, SessionConstraint) -> bool) returns (ok: bool)
      modifies this
      ensures text == "" ==> !ok
      ensures !ok ==> constraints == old(constraints) && messages == old(messages)
      ensures ok ==> (|constraints| > 0 && constraints[|constraints| - 1].text == ToLower(text)
        && constraints == Others(old(constraints), constraints[|constraints| - 1], same) + [constraints[|constraints| - 1]]
        && messages == [Added(constraints[|constraints| - 1])])
      ensures ok <==> Understood(text)
      ensures systemConstraints == old(systemConstraints)
      ensures conflicts == old(conflicts) && incompatibilities == old(incompatibilities)
      ensures old(OnePerType(constraints, same)) ==> OnePerType(constraints, same)
    {
      var created := Create(text);
      ok := AddCreated(created, same);
    }

    /**
     * `addConstraint` as written, once `Constraint.create` has answered: a
     * created constraint is listed and announced when the list is empty;
     * otherwise the undefined same-type test raises before anything is
     * assigned.
     */
    method AddCreatedAsWritten(created: Option<SessionConstraint>) returns (r: AddOutcome)
      modifies this
      ensures (r, constraints) == AddedAsWritten(old(constraints), created)
      ensures r == Accepted ==> messages == [Added(created.value)]
      ensures r != Accepted ==> messages == old(messages)
      ensures systemConstraints == old(systemConstraints)
      ensures conflicts == old(conflicts) && incompatibilities == old(incompatibilities)
    {
      if created.None? {
        return Refused;
      }
      var c := created.value;
      if |constraints| > 0 {
        // the first `old.isSameConstraintType(constraint)` call throws
        return TypeErrorRaised;
      }
      constraints := [c];
      messages := [Added(c)];
      return Accepted;
    }

    /**
     * `addConstraint` exactly as written: refused exactly when `create`
     * does not understand the sentence, raising exactly when it does and a
     * constraint is already listed, and otherwise the list of that one
     * constraint.
     */
    method AddConstraintAsWritten(text: string) returns (r: AddOutcome)
      modifies this
      ensures r == Refused <==> !Understood(text)
      ensures r == TypeErrorRaised <==> Understood(text) && |old(constraints)| > 0
      ensures r == Accepted ==> (|constraints| == 1 && constraints[0].text == ToLower(text)
        && messages == [Added(constraints[0])])
      ensures r != Accepted ==> constraints == old(constraints) && messages == old(messages)
      ensures systemConstraints == old(systemConstraints)
      ensures conflicts == old(conflicts) && incompatibilities == old(incompatibilities)
    {
      var created := Create(text);
      r := AddCreatedAsWritten(created);
    }

    /**
     * `checkConflicts`: the messages become the report on the violated
     * designer constraints followed by the violated system constraints.
     */
    method CheckConflicts(design: DesignView)
      modifies this
      ensures messages == ConflictReport(ViolatedOf(constraints + systemConstraints, CheckOn(design)))
      ensures constraints == old(constraints) && systemConstraints == old(systemConstraints)
      ensures conflicts == old(conflicts) && incompatibilities == old(incompatibilities)
    {
      messages := [];
      var found := CollectViolated(constraints, design);
      var system := CollectViolated(systemConstraints, design);
      ViolatedOfAppend(constraints, systemConstraints, CheckOn(design));
      found := found + system;
      if |found| > 3 {
        messages := [ManyConflicts];
      } else if |found| > 0 {
        var lines := ListViolations(found);
        messages := lines;
      }
    }
  }

  /** A report names each conflict when there are at most three, and is empty exactly when there are none. */
  lemma ReportLadder(found: seq<SessionConstraint>)
    ensures |found| > 3 ==> ConflictReport(found) == [ManyConflicts]
    ensures |found| <= 3 ==> (|ConflictReport(found)| == |found|
      && forall i :: 0 <= i < |found| ==> ConflictReport(found)[i] == ViolatedConstraint(found[i].text))
    ensures ConflictReport(found) == [] <==> found == []
  {
  }

  /** A design without objects or buildings breaks no constraint. */
  lemma EmptyDesignBreaksNothing(cs: seq<SessionConstraint>)
    ensures ViolatedOf(cs, CheckOn(DesignView([], []))) == []
  {
    var check := CheckOn(DesignView([], []));
    ViolatedOfMembers(cs, check);
    var r := ViolatedOf(cs, check);
    assert forall c :: !check(c);
    assert forall i :: 0 <= i < |r| ==> r[i] in r;
  }
}
