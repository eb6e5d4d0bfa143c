/**
 * The list surgery both monitors perform when a constraint is added: the
 * old constraints of the new one's type are dropped, in order, and the
 * last of them is remembered.
 */
module MonitorLists {
  import opened Common

  /** The old constraints that are not of `c`'s type, in their order. */
  function Others<C>(cs: seq<C>, c: C, same: (C, C) -> bool): (r: seq<C>)
    ensures |r| <= |cs|
    ensures forall i :: 0 <= i < |r| ==> r[i] in cs && !same(r[i], c)
    ensures forall i :: 0 <= i < |cs| && !same(cs[i], c) ==> cs[i] in r
  {
    if |cs| == 0 then []
    else Others(cs[..|cs| - 1], c, same) + (if same(cs[|cs| - 1], c) then [] else [cs[|cs| - 1]])
  }

  /** The last old constraint of `c`'s type, if any. */
  function LastSame<C>(cs: seq<C>, c: C, same: (C, C) -> bool): (r: Option<C>)
    ensures r.None? <==> forall i :: 0 <= i < |cs| ==> !same(cs[i], c)
    ensures r.Some? ==> exists i :: (0 <= i < |cs| && cs[i] == r.value && same(r.value, c)
      && forall j :: i < j < |cs| ==> !same(cs[j], c))
  {
    if |cs| == 0 then None
    else if same(cs[|cs| - 1], c) then Some(cs[|cs| - 1])
    else LastSame(cs[..|cs| - 1], c, same)
  }

  /** No constraint of the list has the type of a later one. */
  predicate OnePerType<C>(cs: seq<C>, same: (C, C) -> bool)
  {
    forall i, j :: 0 <= i < j < |cs| ==> !same(cs[i], cs[j])
  }

  lemma {:induction false} OthersKeepsOnePerType<C>(cs: seq<C>, c: C, same: (C, C) -> bool)
    requires OnePerType(cs, same)
    ensures OnePerType(Others(cs, c, same), same)
  {
    if |cs| > 0 {
      var init := cs[..|cs| - 1];
      var x := cs[|cs| - 1];
      assert OnePerType(init, same);
      OthersKeepsOnePerType(init, c, same);
      var r := Others(init, c, same);
      forall k | 0 <= k < |r|
        ensures !same(r[k], x)
      {
        var i :| 0 <= i < |init| && init[i] == r[k];
        assert cs[i] == r[k];
      }
    }
  }

  /**
   * Replacing by type keeps the list free of type clashes: the kept
   * constraints followed by the new one have distinct types.
   */
  lemma ReplaceKeepsOnePerType<C>(cs: seq<C>, c: C, same: (C, C) -> bool)
    requires OnePerType(cs, same)
    ensures OnePerType(Others(cs, c, same) + [c], same)
  {
    OthersKeepsOnePerType(cs, c, same);
  }
}
