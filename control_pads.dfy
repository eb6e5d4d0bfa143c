/**
 * Rising-edge detection for a USB control pad, shared by both control pad
 * classes: a button's press fires once, on the pass where it is down and
 * was not remembered as down, and each pass remembers every button's state.
 */
module PadEdges {
  import opened Common

  /** A gamepad as `navigator.getGamepads()` lists it; `buttons` may be missing. */
  datatype Pad = Pad(buttons: Option<seq<bool>>)

  /** Whether the cache remembers button i as down; a missing entry is `undefined`, which is falsy. */
  predicate WasDown(cache: map<int, bool>, i: int)
  {
    i in cache && cache[i]
  }

  /** The buttons whose press fires on one pass: those down now and not remembered as down. */
  function Fired(cache: map<int, bool>, buttons: seq<bool>): (r: seq<int>)
    ensures forall k :: k in r <==> 0 <= k < |buttons| && buttons[k] && !WasDown(cache, k)
  {
    if |buttons| == 0 then []
    else
      var i := |buttons| - 1;
      assert forall k :: 0 <= k < i ==> buttons[..i][k] == buttons[k];
      Fired(cache, buttons[..i]) + (if buttons[i] && !WasDown(cache, i) then [i] else [])
  }

  /** The presses fire in index order, each at most once. */
  lemma {:induction false} FiredInOrder(cache: map<int, bool>, buttons: seq<bool>)
    ensures forall i, j :: 0 <= i < j < |Fired(cache, buttons)| ==> Fired(cache, buttons)[i] < Fired(cache, buttons)[j]
  {
    if |buttons| > 0 {
      var n := |buttons| - 1;
      var before := Fired(cache, buttons[..n]);
      FiredInOrder(cache, buttons[..n]);
      var r := Fired(cache, buttons);
      assert r == before + (if buttons[n] && !WasDown(cache, n) then [n] else []);
      forall i, j | 0 <= i < j < |r|
        ensures r[i] < r[j]
      {
        if j >= |before| {
          assert before[i] in before;
        }
      }
    }
  }

  /** The cache after a pass: every scanned button's current state, other entries as they were. */
  function Remembered(cache: map<int, bool>, buttons: seq<bool>): (r: map<int, bool>)
    ensures forall i :: 0 <= i < |buttons| ==> i in r && r[i] == buttons[i]
    ensures forall k :: !(0 <= k < |buttons|) ==> (k in r <==> k in cache) && (k in cache ==> r[k] == cache[k])
  {
    if |buttons| == 0 then cache
    else
      var i := |buttons| - 1;
      Remembered(cache, buttons[..i])[i := buttons[i]]
  }

  /**
   * Over two passes a button fires on the second exactly when it went from
   * up to down in between; in particular a button held down fires once.
   */
  lemma FiresOnTransition(cache: map<int, bool>, before: seq<bool>, now: seq<bool>)
    requires |now| <= |before|
    ensures forall k :: k in Fired(Remembered(cache, before), now) <==> 0 <= k < |now| && now[k] && !before[k]
    ensures now == before ==> Fired(Remembered(cache, before), now) == []
  {
    var m := Remembered(cache, before);
    var r := Fired(m, now);
    assert forall k :: 0 <= k < |now| ==> (WasDown(m, k) <==> before[k]);
    if now == before {
      NoneFiredWhenHeld(m, now);
    }
  }

  /** Nothing fires when every button that is down is remembered as down. */
  lemma {:induction false} NoneFiredWhenHeld(cache: map<int, bool>, buttons: seq<bool>)
    requires forall k :: 0 <= k < |buttons| && buttons[k] ==> WasDown(cache, k)
    ensures Fired(cache, buttons) == []
  {
    if |buttons| > 0 {
      var n := |buttons| - 1;
      assert forall k :: 0 <= k < n && buttons[..n][k] ==> WasDown(cache, k);
      NoneFiredWhenHeld(cache, buttons[..n]);
    }
  }

  /** Scanning one more button: the state of that button is read from the cache as it was before the pass. */
  lemma RememberedStep(cache: map<int, bool>, buttons: seq<bool>, i: int)
    requires 0 <= i < |buttons|
    ensures Remembered(cache, buttons[..i + 1]) == Remembered(cache, buttons[..i])[i := buttons[i]]
    ensures WasDown(Remembered(cache, buttons[..i]), i) == WasDown(cache, i)
    ensures Fired(cache, buttons[..i + 1]) == Fired(cache, buttons[..i]) + (if buttons[i] && !WasDown(cache, i) then [i] else [])
  {
    assert buttons[..i + 1][..i] == buttons[..i];
  }
}

/**
 * The control pad of the `src/helpers` layer: on each pass it scans the
 * buttons of the first gamepad, when there is one with buttons.
 */
module ControlPad {
  import opened Common
  import opened PadEdges

  /** The buttons `_loop` scans: those of the first gamepad, if the list, the pad and its buttons all exist. */
  function ScannedButtons(gamepads: Option<seq<Option<Pad>>>): (r: Option<seq<bool>>)
    ensures r.Some? <==> (gamepads.Some? && |gamepads.value| > 0 && gamepads.value[0].Some?
      && gamepads.value[0].value.buttons.Some?)
  {
    if gamepads.Some? && |gamepads.value| > 0 && gamepads.value[0].Some? then gamepads.value[0].value.buttons
    else None
  }

  class ControlPad {
    var buttonCache: map<int, bool>

    constructor ()
      ensures buttonCache == map[]
    {
      buttonCache := map[];
    }

    /**
     * One pass of `_loop`. `pressed` lists the `onButtonPress` calls; the
     * cache then holds every scanned button's state.
     */
    method Loop(gamepads: Option<seq<Option<Pad>>>) returns (pressed: seq<int>)
      modifies this
      ensures ScannedButtons(gamepads).None? ==> pressed == [] && buttonCache == old(buttonCache)
      ensures ScannedButtons(gamepads).Some? ==>
        pressed == Fired(old(buttonCache), ScannedButtons(gamepads).value)
        && buttonCache == Remembered(old(buttonCache), ScannedButtons(gamepads).value)
    {
      pressed := [];
      var scanned := ScannedButtons(gamepads);
      if scanned.Some? {
        var buttons := scanned.value;
        ghost var cache := buttonCache;
        for i := 0 to |buttons|
          invariant buttonCache == Remembered(cache, buttons[..i])
          invariant pressed == Fired(cache, buttons[..i])
        {
          RememberedStep(cache, buttons, i);
          if buttons[i] && !(i in buttonCache && buttonCache[i]) {
            pressed := pressed + [i];
          }
          buttonCache := buttonCache[i := buttons[i]];
        }
        assert buttons[..|buttons|] == buttons;
      }
    }
  }
}

/**
 * The control pad of the `src/js` layer. Its guard reads the first pad's
 * buttons without testing that the pad exists, so a list whose first slot
 * is empty raises a TypeError before any button is scanned.
 */
module LegacyControlPad {
  import opened Common
  import opened PadEdges

  datatype Pass = Scanned(buttons: seq<bool>) | Skipped | TypeError

  /** What `_inputLoop`'s guard decides. */
  function Guard(gamepads: Option<seq<Option<Pad>>>): (r: Pass)
    ensures r.TypeError? <==> gamepads.Some? && |gamepads.value| > 0 && gamepads.value[0].None?
    ensures r.Scanned? <==> (gamepads.Some? && |gamepads.value| > 0 && gamepads.value[0].Some?
      && gamepads.value[0].value.buttons.Some?)
  {
    if gamepads.None? || |gamepads.value| == 0 then Skipped
    else match gamepads.value[0]
      case None => TypeError
      case Some(pad) => if pad.buttons.Some? then Scanned(pad.buttons.value) else Skipped
  }

  class ControlPad {
    var controlPadButtonPressMap: map<int, bool>

    constructor ()
      ensures controlPadButtonPressMap == map[]
    {
      controlPadButtonPressMap := map[];
    }

    /**
     * One pass of `_inputLoop`. `pressed` lists the `onButtonPress` calls;
     * `ok` is false when the pass raised.
     */
    method InputLoop(gamepads: Option<seq<Option<Pad>>>) returns (ok: bool, pressed: seq<int>)
      modifies this
      ensures ok <==> !Guard(gamepads).TypeError?
      ensures !Guard(gamepads).Scanned? ==> pressed == [] && controlPadButtonPressMap == old(controlPadButtonPressMap)
      ensures Guard(gamepads).Scanned? ==>
        pressed == Fired(old(controlPadButtonPressMap), Guard(gamepads).buttons)
        && controlPadButtonPressMap == Remembered(old(controlPadButtonPressMap), Guard(gamepads).buttons)
    {
      pressed := [];
      ok := true;
      var pass := Guard(gamepads);
      if pass.TypeError? {
        ok := false;
      } else if pass.Scanned? {
        var buttons := pass.buttons;
        ghost var before := controlPadButtonPressMap;
        var i := 0;
        while i < |buttons|
          invariant 0 <= i <= |buttons|
          invariant controlPadButtonPressMap == Remembered(before, buttons[..i])
          invariant pressed == Fired(before, buttons[..i])
        {
          RememberedStep(before, buttons, i);
          var isPressed := buttons[i];
          if isPressed && !(i in controlPadButtonPressMap && controlPadButtonPressMap[i]) {
            pressed := pressed + [i];
          }
          controlPadButtonPressMap := controlPadButtonPressMap[i := isPressed];
          i := i + 1;
        }
        assert buttons[..|buttons|] == buttons;
      }
    }
  }
}
