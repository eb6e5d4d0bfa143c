/**
 * The monitor of the `api` layer: it keeps the designer's constraints (at
 * most one per type and property), four built-in system constraints, the
 * conflicts and incompatibilities found by the last check, and the message
 * list the interface shows.
 */
module ApiMonitor {
  import opened Common
  import opened ConstraintEval
  import opened MonitorLists
  import ApiConstraint

  /** A violated constraint and the value its fold produced. */
  datatype Conflict = Conflict(constraint: Constraint, value: JsValue)

  /** `isSameType` as a function value. */
  const Same: (Constraint, Constraint) -> bool := (a: Constraint, b: Constraint) => SameType(a, b)

  /** The system constraints: nothing below ground, no roof without a base, no floating building, no floating tree. */
  const SystemConstraints: seq<Constraint> := [
    Constraint("no object below ground", false, FnMin, TypeName("Any"), "ground", Lt, 0, false),
    Constraint("no roof without base", false, FnSum, TypeNumber(1), "noBase", Gt, 0, false),
    Constraint("no building floating", false, FnSum, TypeName("Structure"), "floating", Gt, 0, false),
    Constraint("no tree floating", false, FnMin, TypeNumber(2), "ground", Gt, 0, false)
  ]

  /** `constraint => constraint.isViolated(design)`. */
  function CheckOn(design: DesignView): Constraint -> Verdict
  {
    (c: Constraint) => ApiConstraint.IsViolated(c, design)
  }

  /** The constraints of the list whose check reports a violation, each with its value, in list order. */
  function Violations(cs: seq<Constraint>, check: Constraint -> Verdict): (r: seq<Conflict>)
    ensures |r| <= |cs|
  {
    if |cs| == 0 then []
    else
      var c := cs[|cs| - 1];
      Violations(cs[..|cs| - 1], check)
        + (if IsViolation(check(c)) then [Conflict(c, check(c).value)] else [])
  }

  /** The `k`-th conflict names a constraint of the list that its check finds violated, with the check's value. */
  predicate ViolationAt(r: seq<Conflict>, k: int, cs: seq<Constraint>, check: Constraint -> Verdict)
    requires 0 <= k < |r|
  {
    r[k].constraint in cs && IsViolation(check(r[k].constraint)) && r[k].value == check(r[k].constraint).value
  }

  /** Every conflict is a violated constraint of the list, with the value its check computed. */
  lemma {:induction false} ViolationsAreViolated(cs: seq<Constraint>, check: Constraint -> Verdict)
    ensures forall k :: 0 <= k < |Violations(cs, check)| ==> ViolationAt(Violations(cs, check), k, cs, check)
  {
    if |cs| > 0 {
      var init := cs[..|cs| - 1];
      var c := cs[|cs| - 1];
      ViolationsAreViolated(init, check);
      var ri := Violations(init, check);
      var tail := if IsViolation(check(c)) then [Conflict(c, check(c).value)] else [];
      var r := ri + tail;
      assert r == Violations(cs, check);
      forall k | 0 <= k < |r|
        ensures ViolationAt(r, k, cs, check)
      {
        if k < |ri| {
          assert r[k] == ri[k];
          assert ViolationAt(ri, k, init, check);
        } else {
          assert r[k] == tail[0];
        }
      }
    }
  }

  /** Every violated constraint of the list is reported, with its value. */
  lemma {:induction false} ViolatedAreViolations(cs: seq<Constraint>, check: Constraint -> Verdict)
    ensures forall i :: 0 <= i < |cs| && IsViolation(check(cs[i])) ==> Conflict(cs[i], check(cs[i]).value) in Violations(cs, check)
  {
    if |cs| > 0 {
      var init := cs[..|cs| - 1];
      ViolatedAreViolations(init, check);
      assert forall i :: 0 <= i < |init| ==> init[i] == cs[i];
    }
  }

  /** No conflict is reported exactly when no constraint of the list is violated. */
  lemma {:induction false} NoViolations(cs: seq<Constraint>, check: Constraint -> Verdict)
    ensures Violations(cs, check) == [] <==> forall i :: 0 <= i < |cs| ==> !IsViolation(check(cs[i]))
  {
    if |cs| > 0 {
      var init := cs[..|cs| - 1];
      NoViolations(init, check);
      assert forall i :: 0 <= i < |init| ==> init[i] == cs[i];
    }
  }

  /** The loop shared by `checkConflicts` and `checkIncompatibilities`. */
  method CollectViolations(cs: seq<Constraint>, design: DesignView) returns (found: seq<Conflict>)
    ensures found == Violations(cs, CheckOn(design))
  {
    found := [];
    for i := 0 to |cs|
      invariant found == Violations(cs[..i], CheckOn(design))
    {
      assert cs[..i + 1][..i] == cs[..i];
      var verdict := ApiConstraint.IsViolated(cs[i], design);
      if verdict.Checked? && verdict.violated {
        found := found + [Conflict(cs[i], verdict.value)];
      }
    }
    assert cs[..|cs|] == cs;
  }

  /** A message of the monitor's list, by the sentence it shows (`Render`). */
  datatype Message =
    | Echo(said: string)
    | Understood(said: string)
    | RemovedConstraint(said: string)
    | NotUnderstood
    | Cleared
    | Stop(userName: string)
    | ManyConflicts(userName: string)
    | OneConflict(userName: string, said: string, value: JsValue)
    | ConflictsResolved
    | NotPossible
    | IncompatibilitiesResolved

  /** The text of a message. */
  function Render(m: Message): string
  {
    match m
    case Echo(said) => said
    case Understood(said) => "I have understood. The constraint: '" + said + "' was added."
    case RemovedConstraint(said) => "Removed the constraint: '" + said + "'"
    case NotUnderstood => "I am sorry I do not understand."
    case Cleared => "Cleared constraints"
    case Stop(userName) => "Don't you think you should stop, " + userName + "?"
    case ManyConflicts(userName) => userName + ", many conflicts are occurring."
    case OneConflict(userName, said, value) =>
      userName + ", a conflict has occurred, you said: " + said + ". The present status is " + JsValueText(value) + "."
    case ConflictsResolved => "Conflicts were resolved."
    case NotPossible => "Not structurally possible at this time."
    case IncompatibilitiesResolved => "Incompatibilities were resolved."
  }

  /** The conflict part of `checkDesign`'s messages. */
  function ConflictMessages(found: seq<Conflict>, previous: nat, userName: string): seq<Message>
  {
    if |found| > 2 then [Stop(userName)]
    else if |found| > 1 then [ManyConflicts(userName)]
    else if |found| > 0 then [OneConflict(userName, found[0].constraint.text, found[0].value)]
    else if previous > 0 then [ConflictsResolved]
    else []
  }

  /** The incompatibility part of `checkDesign`'s messages. */
  function IncompatibilityMessages(found: seq<Conflict>, previous: nat): seq<Message>
  {
    if |found| > 0 then [NotPossible]
    else if previous > 0 then [IncompatibilitiesResolved]
    else []
  }

  /**
   * A check reports at most one line about conflicts and one about
   * incompatibilities, and stays silent exactly when there is nothing now
   * and there was nothing before.
   */
  lemma MessageLadder(found: seq<Conflict>, previous: nat, incompatible: seq<Conflict>, previousIncompatible: nat, userName: string)
    ensures |ConflictMessages(found, previous, userName)| <= 1
    ensures |ConflictMessages(found, previous, userName)| == 0 <==> |found| == 0 && previous == 0
    ensures |IncompatibilityMessages(incompatible, previousIncompatible)| == 0 <==> |incompatible| == 0 && previousIncompatible == 0
    ensures |found| == 1 ==> ConflictMessages(found, previous, userName) == [OneConflict(userName, found[0].constraint.text, found[0].value)]
    ensures |found| >= 3 ==> ConflictMessages(found, previous, userName) == [Stop(userName)]
    ensures |found| == 0 ==> ConflictMessages(found, previous, userName) == (if previous > 0 then [ConflictsResolved] else [])
  {
  }

  /** The message `addConstraint` adds after the echoed text when the sentence was understood. */
  function AddedMessage(c: Constraint, removed: Option<Constraint>): seq<Message>
  {
    if !c.removeFlag then [Understood(c.text)]
    else if removed.Some? then [RemovedConstraint(removed.value.text)]
    else []
  }

  /** A design without objects or buildings triggers no system constraint. */
  lemma EmptyDesignIsCompatible()
    ensures Violations(SystemConstraints, CheckOn(DesignView([], []))) == []
  {
    var design := DesignView([], []);
    forall i | 0 <= i < |SystemConstraints|
      ensures !IsViolation(CheckOn(design)(SystemConstraints[i]))
    {
      assert ApiConstraint.SelectedProps(SystemConstraints[i].objectType, design) == [];
    }
    NoViolations(SystemConstraints, CheckOn(design));
  }

  /** A single building with a positive `floating` measure breaks 'no building floating'. */
  lemma FloatingBuildingIsIncompatible(objects: seq<Item>, building: map<string, int>)
    requires "floating" in building && building["floating"] > 0
    ensures Conflict(SystemConstraints[2], Num(building["floating"])) in Violations(SystemConstraints, CheckOn(DesignView(objects, [building])))
  {
    var design := DesignView(objects, [building]);
    var values := PropValues([building], "floating");
    assert values == [Some(building["floating"])];
    assert Reduce(FnSum, values) == Num(building["floating"]);
    assert ApiConstraint.IsViolated(SystemConstraints[2], design) == Checked(true, Num(building["floating"]));
    ViolatedAreViolations(SystemConstraints, CheckOn(design));
  }

  /** The `forEach` of `addConstraint`: the constraints of other types, in order, and the last one of the same type. */
  method SplitByType(cs: seq<Constraint>, c: Constraint) returns (kept: seq<Constraint>, removed: Option<Constraint>)
    ensures kept == Others(cs, c, Same) && removed == LastSame(cs, c, Same)
  {
    kept := [];
    removed := None;
    for i := 0 to |cs|
      invariant kept == Others(cs[..i], c, Same)
      invariant removed == LastSame(cs[..i], c, Same)
    {
      assert cs[..i + 1][..i] == cs[..i];
      if !SameType(cs[i], c) {
        kept := kept + [cs[i]];
      } else {
        removed := Some(cs[i]);
      }
    }
    assert cs[..|cs|] == cs;
  }

  class Monitor {
    var constraints: seq<Constraint>
    var systemConstraints: seq<Constraint>
    var conflicts: seq<Conflict>
    var incompatibilities: seq<Conflict>
    var messages: seq<Message>

    constructor ()
      ensures constraints == [] && systemConstraints == SystemConstraints
      ensures conflicts == [] && incompatibilities == [] && messages == []
    {
      constraints := [];
      systemConstraints := SystemConstraints;
      conflicts := [];
      incompatibilities := [];
      messages := [];
    }

    /**
     * The effect of `addConstraint` once `Constraint.create` has answered:
     * the text is echoed; a constraint replaces those of its type (and is
     * itself added unless it only asks for removal); anything else is
     * apologised for and changes no constraint.
     */
    method AddCreated(text: string, created: ApiConstraint.Created) returns (ok: bool)
      modifies this
      ensures ok <==> created.Made?
      ensures !created.Made? ==>
        constraints == old(constraints) && messages == old(messages) + [Echo(text), NotUnderstood]
      ensures created.Made? ==>
        constraints == Others(old(constraints), created.constraint, Same)
          + (if created.constraint.removeFlag then [] else [created.constraint])
      ensures created.Made? ==>
        messages == old(messages) + [Echo(text)] + AddedMessage(created.constraint, LastSame(old(constraints), created.constraint, Same))
      ensures systemConstraints == old(systemConstraints)
      ensures conflicts == old(conflicts) && incompatibilities == old(incompatibilities)
      ensures old(OnePerType(constraints, Same)) ==> OnePerType(constraints, Same)
    {
      messages := messages + [Echo(text)];
      if created.Made? {
        var c := created.constraint;
        var newConstraints, removed := SplitByType(constraints, c);
        if OnePerType(constraints, Same) {
          ReplaceKeepsOnePerType(constraints, c, Same);
          OthersKeepsOnePerType(constraints, c, Same);
        }
        if !c.removeFlag {
          newConstraints := newConstraints + [c];
          messages := messages + [Understood(c.text)];
        } else if removed.Some? {
          messages := messages + [RemovedConstraint(removed.value.text)];
        }
        constraints := newConstraints;
        return true;
      }
      messages := messages + [NotUnderstood];
      return false;
    }

    /**
     * `addConstraint`: `Constraint.create` on the shared definitions, then
     * the update above. An accepted sentence ends the list, with its text.
     */
    method AddConstraint(text: string, numbers: seq<int>, defs: seq<ApiConstraint.Definition>) returns (ok: bool)
      requires ApiConstraint.Distinct(defs)
      modifies this, set i | 0 <= i < |defs| :: defs[i]
      ensures text == "" ==> !ok
      ensures !ok ==> constraints == old(constraints) && messages == old(messages) + [Echo(text), NotUnderstood]
      ensures ok ==> (|constraints| > 0 && constraints[|constraints| - 1].text == text
        && constraints == Others(old(constraints), constraints[|constraints| - 1], Same) + [constraints[|constraints| - 1]]
        && messages == old(messages) + [Echo(text), Understood(text)])
      ensures systemConstraints == old(systemConstraints)
      ensures conflicts == old(conflicts) && incompatibilities == old(incompatibilities)
      ensures old(OnePerType(constraints, Same)) ==> OnePerType(constraints, Same)
    {
      var created := ApiConstraint.Create(text, numbers, defs);
      ok := AddCreated(text, created);
    }

    /** `clearConstraints`. */
    method ClearConstraints()
      modifies this
      ensures constraints == [] && messages == old(messages) + [Cleared]
      ensures systemConstraints == old(systemConstraints)
      ensures conflicts == old(conflicts) && incompatibilities == old(incompatibilities)
    {
      constraints := [];
      messages := messages + [Cleared];
    }

    /** `checkConflicts`: the designer's constraints the design violates. */
    method CheckConflicts(design: DesignView) returns (found: seq<Conflict>)
      ensures found == Violations(constraints, CheckOn(design))
    {
      found := CollectViolations(constraints, design);
    }

    /** `checkIncompatibilities`: the system constraints the design violates. */
    method CheckIncompatibilities(design: DesignView) returns (found: seq<Conflict>)
      ensures found == Violations(systemConstraints, CheckOn(design))
    {
      found := CollectViolations(systemConstraints, design);
    }

    /**
     * The second half of `checkDesign`, once both checks have run: the
     * messages are replaced by the two ladders, the new lists are stored,
     * and the answer is whether either list grew.
     */
    method Report(found: seq<Conflict>, incompatible: seq<Conflict>, userName: string) returns (newProblems: bool)
      modifies this
      ensures messages == ConflictMessages(found, |old(conflicts)|, userName)
        + IncompatibilityMessages(incompatible, |old(incompatibilities)|)
      ensures newProblems <==> |found| > |old(conflicts)| || |incompatible| > |old(incompatibilities)|
      ensures conflicts == found && incompatibilities == incompatible
      ensures constraints == old(constraints) && systemConstraints == old(systemConstraints)
    {
      var newMessages: seq<Message> := [];
      if |found| > 2 {
        newMessages := newMessages + [Stop(userName)];
      } else if |found| > 1 {
        newMessages := newMessages + [ManyConflicts(userName)];
      } else if |found| > 0 {
        newMessages := newMessages + [OneConflict(userName, found[0].constraint.text, found[0].value)];
      } else if |found| == 0 && |conflicts| > 0 {
        newMessages := newMessages + [ConflictsResolved];
      }
      if |incompatible| > 0 {
        newMessages := newMessages + [NotPossible];
      } else if |incompatible| == 0 && |incompatibilities| > 0 {
        newMessages := newMessages + [IncompatibilitiesResolved];
      }
      messages := newMessages;
      newProblems := false;
      if |found| > |conflicts| || |incompatible| > |incompatibilities| {
        newProblems := true;
      }
      conflicts := found;
      incompatibilities := incompatible;
    }

    /**
     * `checkDesign`: both checks, the messages replaced by the two ladders,
     * the new lists stored, and `true` exactly when either list grew.
     */
    method CheckDesign(design: DesignView, userName: string) returns (newProblems: bool)
      modifies this
      ensures conflicts == Violations(constraints, CheckOn(design))
      ensures incompatibilities == Violations(systemConstraints, CheckOn(design))
      ensures messages == ConflictMessages(conflicts, |old(conflicts)|, userName)
        + IncompatibilityMessages(incompatibilities, |old(incompatibilities)|)
      ensures newProblems <==> |conflicts| > |old(conflicts)| || |incompatibilities| > |old(incompatibilities)|
      ensures constraints == old(constraints) && systemConstraints == old(systemConstraints)
    {
      var found := CheckConflicts(design);
      var incompatible := CheckIncompatibilities(design);
      newProblems := Report(found, incompatible, userName);
    }
  }
}
