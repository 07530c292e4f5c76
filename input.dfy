/**
 * Keyboard state kept by the runtime: the keys currently held and the
 * press/release edges seen since the last tick boundary. The runtime's key
 * handler applies `Press` or `Release`; the redraw handler applies `EndTick`.
 */
module Input {
  import opened Types

  datatype Keys = Keys(pressed: set<KeyCode>, justPressed: set<KeyCode>, justReleased: set<KeyCode>)

  /** No key held and no edge recorded, as at start-up. */
  const NoKeys: Keys := Keys({}, {}, {})

  /** A press records an edge only when the key was not already held. */
  function Press(k: Keys, key: KeyCode): Keys {
    if key !in k.pressed then
      k.(pressed := k.pressed + {key}, justPressed := k.justPressed + {key})
    else
      k
  }

  /** A release records an edge only when the key was held. */
  function Release(k: Keys, key: KeyCode): Keys {
    if key in k.pressed then
      k.(pressed := k.pressed - {key}, justReleased := k.justReleased + {key})
    else
      k
  }

  /** The tick-end reset: both edge sets are emptied, held keys are kept. */
  function EndTick(k: Keys): Keys {
    k.(justPressed := {}, justReleased := {})
  }

  datatype KeyEvent = KeyEvent(key: KeyCode, pressed: bool)

  function ApplyEvent(k: Keys, e: KeyEvent): Keys {
    if e.pressed then Press(k, e.key) else Release(k, e.key)
  }

  /** The key state after a sequence of key events, oldest first. */
  function ApplyEvents(k: Keys, evs: seq<KeyEvent>): Keys
    decreases |evs|
  {
    if evs == [] then k else ApplyEvent(ApplyEvents(k, evs[..|evs| - 1]), evs[|evs| - 1])
  }

  /** Some event in `evs` concerns `key`. */
  ghost predicate Mentions(evs: seq<KeyEvent>, key: KeyCode) {
    exists i :: 0 <= i < |evs| && evs[i].key == key
  }

  /** The latest event in `evs` that concerns `key` is a press. */
  ghost predicate LastIsPress(evs: seq<KeyEvent>, key: KeyCode) {
    exists i :: 0 <= i < |evs| && evs[i] == KeyEvent(key, true) &&
      forall j :: i < j < |evs| ==> evs[j].key != key
  }

  /** Some event in `evs` pressed `key` while it was not held. */
  ghost predicate PressEdge(k: Keys, evs: seq<KeyEvent>, key: KeyCode) {
    exists i :: 0 <= i < |evs| && evs[i] == KeyEvent(key, true) && key !in ApplyEvents(k, evs[..i]).pressed
  }

  /** Some event in `evs` released `key` while it was held. */
  ghost predicate ReleaseEdge(k: Keys, evs: seq<KeyEvent>, key: KeyCode) {
    exists i :: 0 <= i < |evs| && evs[i] == KeyEvent(key, false) && key in ApplyEvents(k, evs[..i]).pressed
  }

  /** Redundant events are no-ops: a press of a held key, a release of a key not held. */
  lemma RedundantEventsChangeNothing(k: Keys, key: KeyCode)
    ensures key in k.pressed ==> Press(k, key) == k
    ensures key !in k.pressed ==> Release(k, key) == k
  {
  }

  /** Press and release are idempotent. */
  lemma EdgesAreIdempotent(k: Keys, key: KeyCode)
    ensures Press(Press(k, key), key) == Press(k, key)
    ensures Release(Release(k, key), key) == Release(k, key)
  {
  }

  /** An edge is recorded for a key exactly when it changes held state. */
  lemma EdgeOnlyOnTransition(k: Keys, key: KeyCode)
    ensures key in Press(k, key).pressed
    ensures key in Press(k, key).justPressed - k.justPressed <==> key !in k.pressed && key !in k.justPressed
    ensures key !in Release(k, key).pressed
    ensures key in Release(k, key).justReleased - k.justReleased <==> key in k.pressed && key !in k.justReleased
  {
  }

  /** The tick-end reset keeps held keys and empties both edge sets. */
  lemma EndTickKeepsHeld(k: Keys)
    ensures EndTick(k).pressed == k.pressed
    ensures EndTick(k).justPressed == {} && EndTick(k).justReleased == {}
  {
  }

  /**
   * After any sequence of key events, a key is held exactly when the latest
   * event for it was a press, or, if there was none, when it was held before.
   */
  lemma {:induction false} HeldIffLastEventWasPress(k: Keys, evs: seq<KeyEvent>, key: KeyCode)
    ensures key in ApplyEvents(k, evs).pressed <==>
      LastIsPress(evs, key) || (!Mentions(evs, key) && key in k.pressed)
    decreases |evs|
  {
    if evs != [] {
      var n := |evs| - 1;
      var init, e := evs[..n], evs[n];
      HeldIffLastEventWasPress(k, init, key);
      assert forall i :: 0 <= i < n ==> evs[i] == init[i];
      if e.key == key {
        assert Mentions(evs, key);
        if e.pressed {
          assert LastIsPress(evs, key);
        } else {
          assert !LastIsPress(evs, key) by {
            forall i | 0 <= i < |evs| && evs[i] == KeyEvent(key, true)
              ensures exists j :: i < j < |evs| && evs[j].key == key
            {
              assert i < n && evs[n].key == key;
            }
          }
        }
      } else {
        assert Mentions(evs, key) <==> Mentions(init, key);
        assert LastIsPress(evs, key) <==> LastIsPress(init, key) by {
          if LastIsPress(evs, key) {
            var i :| 0 <= i < |evs| && evs[i] == KeyEvent(key, true) &&
              forall j :: i < j < |evs| ==> evs[j].key != key;
            assert i < n;
            assert forall j :: i < j < n ==> init[j].key != key;
          }
          if LastIsPress(init, key) {
            var i :| 0 <= i < n && init[i] == KeyEvent(key, true) &&
              forall j :: i < j < n ==> init[j].key != key;
            assert forall j :: i < j < |evs| ==> evs[j].key != key;
          }
        }
      }
    }
  }

  /**
   * Within a run of events, a key enters `justPressed` exactly when some event
   * pressed it while it was not held, and `justReleased` exactly when some
   * event released it while it was held (or it was already there).
   */
  lemma {:induction false} EdgesAreTransitions(k: Keys, evs: seq<KeyEvent>, key: KeyCode)
    ensures key in ApplyEvents(k, evs).justPressed <==> key in k.justPressed || PressEdge(k, evs, key)
    ensures key in ApplyEvents(k, evs).justReleased <==> key in k.justReleased || ReleaseEdge(k, evs, key)
    decreases |evs|
  {
    if evs != [] {
      var n := |evs| - 1;
      var init, e := evs[..n], evs[n];
      EdgesAreTransitions(k, init, key);
      assert evs[..n] == init;
      assert forall i :: 0 <= i <= n ==> evs[..i] == init[..i];
      assert PressEdge(k, evs, key) <==>
        PressEdge(k, init, key) || (e == KeyEvent(key, true) && key !in ApplyEvents(k, init).pressed)
      by {
        if PressEdge(k, evs, key) {
          var i :| 0 <= i < |evs| && evs[i] == KeyEvent(key, true) && key !in ApplyEvents(k, evs[..i]).pressed;
          if i < n {
            assert init[i] == evs[i] && init[..i] == evs[..i];
          }
        }
        if PressEdge(k, init, key) {
          var i :| 0 <= i < n && init[i] == KeyEvent(key, true) && key !in ApplyEvents(k, init[..i]).pressed;
          assert evs[i] == init[i] && evs[..i] == init[..i];
        }
      }
      assert ReleaseEdge(k, evs, key) <==>
        ReleaseEdge(k, init, key) || (e == KeyEvent(key, false) && key in ApplyEvents(k, init).pressed)
      by {
        if ReleaseEdge(k, evs, key) {
          var i :| 0 <= i < |evs| && evs[i] == KeyEvent(key, false) && key in ApplyEvents(k, evs[..i]).pressed;
          if i < n {
            assert init[i] == evs[i] && init[..i] == evs[..i];
          }
        }
        if ReleaseEdge(k, init, key) {
          var i :| 0 <= i < n && init[i] == KeyEvent(key, false) && key in ApplyEvents(k, init[..i]).pressed;
          assert evs[i] == init[i] && evs[..i] == init[..i];
        }
      }
    }
  }

  /**
   * Edges live for one tick: after the tick-end reset, a key is reported as
   * just pressed (just released) only if an event of the new tick pressed
   * (released) it across a held-state change.
   */
  lemma EdgesOnlyFromCurrentTick(k: Keys, evs: seq<KeyEvent>, key: KeyCode)
    ensures key in ApplyEvents(EndTick(k), evs).justPressed <==> PressEdge(EndTick(k), evs, key)
    ensures key in ApplyEvents(EndTick(k), evs).justReleased <==> ReleaseEdge(EndTick(k), evs, key)
  {
    EdgesAreTransitions(EndTick(k), evs, key);
  }
}
