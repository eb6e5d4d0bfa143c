/**
 * The session factory: it keeps, in the browser's key-value storage, the
 * comma-separated list of session ids (most recent last) and a counter
 * from which new ids are made. Storage is a map from keys to texts; a
 * missing key reads as `null`.
 */
module SessionFactory {
  import opened Common
  import ConstraintEval
  import opened MonitorLists

  type Storage = map<string, string>

  const IDListKey: string := "U5SessionIDList"
  const CountKey: string := "U5SessionIDCount"
  const IdPrefix: string := "U5Session_"

  /** Whether `getItem(key)` is truthy: present and not the empty text. */
  predicate Truthy(storage: Storage, key: string)
  {
    key in storage && storage[key] != ""
  }

  predicate NoComma(parts: seq<string>)
  {
    forall i :: 0 <= i < |parts| ==> ',' !in parts[i]
  }

  // ---------------------------------------------------------------------
  // The stored list

  /** An array written to storage: its elements joined by commas. */
  function Join(parts: seq<string>): string
  {
    if |parts| == 0 then "" else if |parts| == 1 then parts[0] else parts[0] + "," + Join(parts[1..])
  }

  /** `split(',')`: the pieces between commas; the empty text is one empty piece. */
  function Split(s: string): (r: seq<string>)
    ensures |r| > 0 && NoComma(r)
  {
    if |s| == 0 then [""]
    else
      var rest := Split(s[1..]);
      if s[0] == ',' then [""] + rest else [[s[0]] + rest[0]] + rest[1..]
  }

  /** Joining the pieces of a text gives the text back. */
  lemma {:induction false} SplitJoin(s: string)
    ensures Join(Split(s)) == s
  {
    if |s| > 0 {
      var rest := Split(s[1..]);
      SplitJoin(s[1..]);
      if s[0] != ',' && |rest| > 1 {
        assert Join(rest) == rest[0] + "," + Join(rest[1..]);
        assert Join(Split(s)) == ([s[0]] + rest[0]) + "," + Join(rest[1..]);
      }
      assert s == [s[0]] + s[1..];
    }
  }

  /** Splitting a text that starts with a comma-free piece. */
  lemma {:induction false} SplitAfterPiece(a: string, t: string)
    requires ',' !in a
    ensures Split(a + t) == [a + Split(t)[0]] + Split(t)[1..]
  {
    if |a| > 0 {
      SplitAfterPiece(a[1..], t);
      assert (a + t)[1..] == a[1..] + t;
      assert [a[0]] + (a[1..] + Split(t)[0]) == a + Split(t)[0];
    } else {
      assert a + t == t;
      assert a + Split(t)[0] == Split(t)[0];
      assert [Split(t)[0]] + Split(t)[1..] == Split(t);
    }
  }

  /** Splitting a joined list of comma-free pieces gives the list back. */
  lemma {:induction false} JoinSplit(parts: seq<string>)
    requires |parts| > 0 && NoComma(parts)
    ensures Split(Join(parts)) == parts
  {
    if |parts| == 1 {
      SplitAfterPiece(parts[0], "");
      assert parts[0] + "" == parts[0];
    } else {
      var rest := parts[1..];
      JoinSplit(rest);
      assert Split("," + Join(rest)) == [""] + Split(Join(rest));
      SplitAfterPiece(parts[0], "," + Join(rest));
      assert parts[0] + "," + Join(rest) == parts[0] + ("," + Join(rest));
      assert parts[0] + "" == parts[0];
      assert parts == [parts[0]] + rest;
    }
  }

  /** The ids the list text names, before filtering: none when the key is missing or empty. */
  function StoredIDs(storage: Storage): seq<string>
  {
    if Truthy(storage, IDListKey) then Split(storage[IDListKey]) else []
  }

  /** The ids of the list whose sessions have data, in order. */
  function Saved(storage: Storage, ids: seq<string>): (r: seq<string>)
    ensures |r| <= |ids|
    ensures forall i :: 0 <= i < |r| ==> r[i] in ids && Truthy(storage, r[i])
    ensures forall i :: 0 <= i < |ids| && Truthy(storage, ids[i]) ==> ids[i] in r
  {
    if |ids| == 0 then []
    else Saved(storage, ids[..|ids| - 1]) + (if Truthy(storage, ids[|ids| - 1]) then [ids[|ids| - 1]] else [])
  }

  /** `getIDList`. */
  function Listed(storage: Storage): seq<string>
  {
    Saved(storage, StoredIDs(storage))
  }

  /**
   * The list as `getIDList` reads it: empty without a list, else exactly
   * the listed ids that have data, none of them holding a comma.
   */
  lemma ListedIds(storage: Storage)
    ensures !Truthy(storage, IDListKey) ==> Listed(storage) == []
    ensures forall i :: 0 <= i < |Listed(storage)| ==>
      Listed(storage)[i] in StoredIDs(storage) && Truthy(storage, Listed(storage)[i]) && ',' !in Listed(storage)[i]
    ensures forall i :: 0 <= i < |StoredIDs(storage)| && Truthy(storage, StoredIDs(storage)[i]) ==>
      StoredIDs(storage)[i] in Listed(storage)
  {
    var ids := StoredIDs(storage);
    var r := Listed(storage);
    forall i | 0 <= i < |r|
      ensures ',' !in r[i]
    {
      var k :| 0 <= k < |ids| && ids[k] == r[i];
    }
  }

  /** No listed id is the empty text. */
  predicate NoEmptyIds(storage: Storage)
  {
    forall i :: 0 <= i < |StoredIDs(storage)| ==> StoredIDs(storage)[i] != ""
  }

  /** Writing a list of comma-free ids and reading it back gives the same ids. */
  lemma StoredAfterSet(storage: Storage, ids: seq<string>)
    requires NoComma(ids) && ids != [""]
    ensures StoredIDs(storage[IDListKey := Join(ids)]) == ids
  {
    if |ids| > 0 {
      JoinSplit(ids);
      if |ids| > 1 {
        assert ',' in Join(ids);
      }
    }
  }

  // ---------------------------------------------------------------------
  // The counter

  /** The counter's new text: the stored number plus one, from 0 when it is missing; `NaN` stays `NaN`. */
  function NextCount(storage: Storage): string
  {
    var current := if Truthy(storage, CountKey) then ConstraintEval.ParseInt(ConstraintEval.TypeName(storage[CountKey])) else Some(0);
    match current
    case Some(n) => IntToString(n + 1)
    case None => "NaN"
  }

  /** The id `_getNextID` hands out. */
  function NextId(storage: Storage): string
  {
    IdPrefix + NextCount(storage)
  }

  lemma {:induction false} LeadingDigitsOfDigits(s: string, i: nat)
    requires AllDigits(s) && i <= |s|
    ensures ConstraintEval.LeadingDigits(s, i) == s[i..]
    decreases |s| - i
  {
    if i < |s| {
      LeadingDigitsOfDigits(s, i + 1);
      assert s[i..] == [s[i]] + s[i + 1..];
    }
  }

  /** A counter written as n (or missing, as 0) advances to n + 1. */
  lemma CounterAdvances(storage: Storage, n: nat)
    requires (CountKey in storage && storage[CountKey] == NatToString(n)) || (n == 0 && !Truthy(storage, CountKey))
    ensures NextCount(storage) == NatToString(n + 1)
  {
    if Truthy(storage, CountKey) {
      DigitsValueOfNatToString(n);
      LeadingDigitsOfDigits(NatToString(n), 0);
      assert NatToString(n)[0..] == NatToString(n);
    }
  }

  /** Counters that differ give ids that differ, and no id is one of the factory's own keys. */
  lemma IdsDistinct(m: nat, n: nat)
    ensures m != n ==> IdPrefix + NatToString(m) != IdPrefix + NatToString(n)
    ensures IdPrefix + NatToString(m) != IDListKey && IdPrefix + NatToString(m) != CountKey
  {
    var a := IdPrefix + NatToString(m);
    var b := IdPrefix + NatToString(n);
    if m != n && a == b {
      assert NatToString(m) == a[|IdPrefix|..];
      assert NatToString(n) == b[|IdPrefix|..];
      NatToStringInjective(m, n);
    }
    assert a[9] == '_';
    assert IDListKey[9] == 'I' && CountKey[9] == 'I';
  }

  /** An id never contains a comma, so it survives the round trip through the list text. */
  lemma NextIdHasNoComma(storage: Storage)
    ensures ',' !in NextId(storage) && NextId(storage) != ""
  {
    var current := if Truthy(storage, CountKey) then ConstraintEval.ParseInt(ConstraintEval.TypeName(storage[CountKey])) else Some(0);
    if current.Some? {
      var n: nat := current.value + 1;
      DigitsValueOfNatToString(n);
      assert forall k :: 0 <= k < |NatToString(n)| ==> IsDigit(NatToString(n)[k]);
    }
  }

  // ---------------------------------------------------------------------
  // The factory

  /** What a factory call hands back: a new session, or a stored one to thaw. */
  datatype Opened = Created(id: string) | Restored(id: string, data: Option<string>)

  const SameId := (a: string, b: string) => a == b

  /** The storage after `newSession`: the counter advanced, then the new id appended to the list read at that point. */
  function AfterNew(storage: Storage): Storage
  {
    var counted := storage[CountKey := NextCount(storage)];
    counted[IDListKey := Join(Listed(counted) + [NextId(storage)])]
  }

  /** The stored data of a key, as `getItem` returns it. */
  function GetItem(storage: Storage, key: string): Option<string>
  {
    if key in storage then Some(storage[key]) else None
  }

  class U5SessionFactory {
    var storage: Storage

    constructor (storage: Storage)
      ensures this.storage == storage
    {
      this.storage := storage;
    }

    /** `_setIDList`. */
    method SetIDList(ids: seq<string>)
      modifies this
      ensures storage == old(storage)[IDListKey := Join(ids)]
    {
      storage := storage[IDListKey := Join(ids)];
    }

    /** `_getNextID`: the counter advances and the id is made from its new value. */
    method GetNextID() returns (id: string)
      modifies this
      ensures id == NextId(old(storage))
      ensures storage == old(storage)[CountKey := NextCount(old(storage))]
    {
      var current: Option<int> := Some(0);
      if Truthy(storage, CountKey) {
        current := ConstraintEval.ParseInt(ConstraintEval.TypeName(storage[CountKey]));
      }
      var next := if current.Some? then IntToString(current.value + 1) else "NaN";
      storage := storage[CountKey := next];
      id := IdPrefix + next;
    }

    /** `get`: the stored session, which also becomes the most recent one in the list. */
    method Get(id: string) returns (session: Opened)
      modifies this
      ensures session == Restored(id, GetItem(old(storage), id))
      ensures storage == old(storage)[IDListKey := Join(Others(Listed(old(storage)), id, SameId) + [id])]
    {
      session := Restored(id, GetItem(storage, id));
      var ids := Listed(storage);
      ids := Others(ids, id, SameId);
      ids := ids + [id];
      SetIDList(ids);
    }

    /** `remove`: the list without the id. */
    method Remove(id: string) returns (ids: seq<string>)
      modifies this
      ensures ids == Others(Listed(old(storage)), id, SameId)
      ensures storage == old(storage)[IDListKey := Join(ids)]
    {
      ids := Listed(storage);
      ids := Others(ids, id, SameId);
      SetIDList(ids);
    }

    /** `newSession`: a fresh id, appended to the list. */
    method NewSession() returns (session: Opened)
      modifies this
      ensures session == Created(NextId(old(storage)))
      ensures storage == AfterNew(old(storage))
    {
      var id := GetNextID();
      var ids := Listed(storage);
      ids := ids + [id];
      SetIDList(ids);
      session := Created(id);
    }

    /** `last`: the most recent stored session, or a new one when the list is empty. */
    method Last() returns (session: Opened)
      modifies this
      ensures var ids := Listed(old(storage));
        if ids == [] || ids[|ids| - 1] == "" then session == Created(NextId(old(storage))) && storage == AfterNew(old(storage))
        else session == Restored(ids[|ids| - 1], GetItem(old(storage), ids[|ids| - 1])) && storage == old(storage)
    {
      var ids := Listed(storage);
      if ids == [] || ids[|ids| - 1] == "" {
        session := NewSession();
      } else {
        var id := ids[|ids| - 1];
        session := Restored(id, GetItem(storage, id));
      }
    }
  }

  // ---------------------------------------------------------------------
  // What the list operations promise

  /** The ids of a list other than one id stay comma-free and non-empty. */
  lemma OthersOfListed(storage: Storage, id: string)
    requires NoEmptyIds(storage)
    ensures NoComma(Others(Listed(storage), id, SameId))
    ensures forall i :: 0 <= i < |Others(Listed(storage), id, SameId)| ==> Others(Listed(storage), id, SameId)[i] != ""
  {
    ListedIds(storage);
    var ls := Listed(storage);
    var r := Others(ls, id, SameId);
    forall i | 0 <= i < |r|
      ensures ',' !in r[i] && r[i] != ""
    {
      var k :| 0 <= k < |ls| && ls[k] == r[i];
      var j :| 0 <= j < |StoredIDs(storage)| && StoredIDs(storage)[j] == ls[k];
    }
  }

  /** A list of ids other than `id`, then `id`, read back from storage. */
  lemma MostRecentList(storage: Storage, others: seq<string>, id: string)
    requires NoComma(others) && id != "" && ',' !in id
    requires forall i :: 0 <= i < |others| ==> others[i] != id
    ensures var ids := StoredIDs(storage[IDListKey := Join(others + [id])]);
      ids == others + [id] && ids[|ids| - 1] == id && forall i :: 0 <= i < |ids| - 1 ==> ids[i] != id
  {
    var ids := others + [id];
    assert ids[|others|] == id;
    StoredAfterSet(storage, ids);
  }

  /** After `get(id)` the list names every other listed id in its old order, then the id itself, once. */
  lemma GetMakesMostRecent(storage: Storage, id: string)
    requires NoEmptyIds(storage) && id != "" && ',' !in id
    ensures var others := Others(Listed(storage), id, SameId);
      var ids := StoredIDs(storage[IDListKey := Join(others + [id])]);
      ids == others + [id] && ids[|ids| - 1] == id && forall i :: 0 <= i < |ids| - 1 ==> ids[i] != id
  {
    var others := Others(Listed(storage), id, SameId);
    OthersOfListed(storage, id);
    assert forall i :: 0 <= i < |others| ==> !SameId(others[i], id);
    MostRecentList(storage, others, id);
  }

  /** After `remove(id)` the list names every other listed id in its old order, and not the id. */
  lemma RemoveDeletesEvery(storage: Storage, id: string)
    requires NoEmptyIds(storage)
    ensures var others := Others(Listed(storage), id, SameId);
      StoredIDs(storage[IDListKey := Join(others)]) == others && id !in others
  {
    var others := Others(Listed(storage), id, SameId);
    OthersOfListed(storage, id);
    if |others| == 1 {
      assert others[0] != "";
    }
    StoredAfterSet(storage, others);
  }

  /** After `newSession` the list names the listed ids, in order, then the new id. */
  lemma NewSessionAppends(storage: Storage)
    requires NoEmptyIds(storage) && IDListKey != CountKey
    ensures var counted := storage[CountKey := NextCount(storage)];
      StoredIDs(AfterNew(storage)) == Listed(counted) + [NextId(storage)]
  {
    var counted := storage[CountKey := NextCount(storage)];
    assert StoredIDs(counted) == StoredIDs(storage);
    ListedIds(counted);
    NextIdHasNoComma(storage);
    var ids := Listed(counted) + [NextId(storage)];
    assert NoComma(ids);
    assert ids[|ids| - 1] == NextId(storage);
    StoredAfterSet(counted, ids);
  }
}
