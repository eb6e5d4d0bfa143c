/**
 * The universal id counter: every call hands out the next integer,
 * starting from 0.
 */
module IdCounter {
  /** The ids handed out by the first n calls, in order. */
  function Issued(n: nat): (r: seq<int>)
    ensures |r| == n
    ensures forall i :: 0 <= i < n ==> r[i] == i
  {
    if n == 0 then [] else Issued(n - 1) + [n - 1]
  }

  /** Ids are handed out in strictly increasing order, so none repeats. */
  lemma {:induction false} IssuedIncreasing(n: nat)
    ensures forall i, j :: 0 <= i < j < n ==> Issued(n)[i] < Issued(n)[j]
    ensures forall k :: k in Issued(n) <==> 0 <= k < n
  {
    if n > 0 {
      IssuedIncreasing(n - 1);
      assert Issued(n) == Issued(n - 1) + [n - 1];
    }
  }

  class ID {
    var nextId: int
    /** The ids handed out so far. */
    ghost var issued: seq<int>

    ghost predicate Valid()
      reads this
    {
      nextId == |issued| - 1 && issued == Issued(|issued|)
    }

    constructor ()
      ensures Valid() && nextId == -1 && issued == []
    {
      nextId := -1;
      issued := [];
    }

    /** `getNextID`: one more than the last id, which it also remembers. */
    method GetNextID() returns (id: int)
      requires Valid()
      modifies this
      ensures Valid()
      ensures id == old(nextId) + 1 && nextId == id
      ensures issued == old(issued) + [id]
      ensures forall k :: k in old(issued) ==> k < id
    {
      IssuedIncreasing(|issued|);
      nextId := nextId + 1;
      issued := issued + [nextId];
      id := nextId;
    }
  }
}

/**
 * The action log through which all user actions pass: each action is
 * stamped with the next id, recorded, and handed to every listener that
 * has an `onAction` method.
 */
module ActionLog {
  import opened Common
  import opened IdCounter
  import opened MonitorLists

  /** A registered listener; only some listeners define `onAction`. */
  class Listener {
    const hasOnAction: bool

    constructor (hasOnAction: bool)
      ensures this.hasOnAction == hasOnAction
    {
      this.hasOnAction := hasOnAction;
    }
  }

  datatype ActionEvent = ActionEvent(id: string, action: string, metadata: string)

  /** The id of the n-th action. */
  function ActionId(n: nat): string
  {
    "action_" + IntToString(n)
  }

  /** Different actions get different ids. */
  lemma ActionIdInjective(m: nat, n: nat)
    requires ActionId(m) == ActionId(n)
    ensures m == n
  {
    var p := "action_";
    assert IntToString(m) == ActionId(m)[|p|..];
    assert IntToString(n) == ActionId(n)[|p|..];
    NatToStringInjective(m, n);
  }

  /** The listeners that receive an event, in registration order. */
  function Responders(ls: seq<Listener>): (r: seq<Listener>)
    ensures |r| <= |ls|
    ensures forall i :: 0 <= i < |r| ==> r[i] in ls && r[i].hasOnAction
    ensures forall i :: 0 <= i < |ls| && ls[i].hasOnAction ==> ls[i] in r
  {
    if |ls| == 0 then []
    else Responders(ls[..|ls| - 1]) + (if ls[|ls| - 1].hasOnAction then [ls[|ls| - 1]] else [])
  }

  class ActionsAPI {
    var listeners: seq<Listener>
    var actionsHistory: seq<ActionEvent>
    const actionsID: ID

    /** The counter has handed out exactly one id per recorded action, and the i-th action carries the i-th id. */
    ghost predicate Valid()
      reads this, actionsID
    {
      actionsID.Valid() && actionsID.nextId == |actionsHistory| - 1
      && forall i :: 0 <= i < |actionsHistory| ==> actionsHistory[i].id == ActionId(i)
    }

    constructor ()
      ensures Valid() && fresh(actionsID)
      ensures listeners == [] && actionsHistory == []
    {
      listeners := [];
      actionsHistory := [];
      actionsID := new ID();
    }

    /** `addListener`: the listener goes last; the new number of listeners is returned, as `push` does. */
    method AddListener(listener: Listener) returns (length: int)
      modifies this
      ensures listeners == old(listeners) + [listener]
      ensures actionsHistory == old(actionsHistory)
      ensures length == |listeners|
    {
      listeners := listeners + [listener];
      length := |listeners|;
    }

    /**
     * `removeListener`: the registered listeners other than the given one,
     * in order. The registered list itself is left as it is.
     */
    method RemoveListener(toRemove: Listener) returns (rest: seq<Listener>)
      ensures rest == Others(listeners, toRemove, (a: Listener, b: Listener) => a == b)
      ensures forall l :: l in rest <==> l in listeners && l != toRemove
    {
      var same := (a: Listener, b: Listener) => a == b;
      rest := [];
      for i := 0 to |listeners|
        invariant rest == Others(listeners[..i], toRemove, same)
      {
        assert listeners[..i + 1][..i] == listeners[..i];
        if listeners[i] != toRemove {
          rest := rest + [listeners[i]];
        }
      }
      assert listeners[..|listeners|] == listeners;
    }

    /**
     * `onAction`: the action is recorded under the next id, and the
     * listeners with an `onAction` method are called with it, in order;
     * `called` lists them.
     */
    method OnAction(action: string, metadata: string) returns (called: seq<Listener>)
      requires Valid()
      modifies this, actionsID
      ensures Valid()
      ensures actionsHistory == old(actionsHistory) + [ActionEvent(ActionId(|old(actionsHistory)|), action, metadata)]
      ensures listeners == old(listeners)
      ensures called == Responders(listeners)
    {
      var n := actionsID.GetNextID();
      var event := ActionEvent("action_" + IntToString(n), action, metadata);
      actionsHistory := actionsHistory + [event];
      called := [];
      for i := 0 to |listeners|
        invariant called == Responders(listeners[..i])
      {
        assert listeners[..i + 1][..i] == listeners[..i];
        if listeners[i].hasOnAction {
          called := called + [listeners[i]];
        }
      }
      assert listeners[..|listeners|] == listeners;
    }
  }

  /** No two recorded actions share an id. */
  lemma HistoryIdsDistinct(history: seq<ActionEvent>)
    requires forall i :: 0 <= i < |history| ==> history[i].id == ActionId(i)
    ensures forall i, j :: 0 <= i < j < |history| ==> history[i].id != history[j].id
  {
    forall i, j | 0 <= i < j < |history|
      ensures history[i].id != history[j].id
    {
      if history[i].id == history[j].id {
        ActionIdInjective(i, j);
      }
    }
  }
}
