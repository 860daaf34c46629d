/**
 * Sequences of key presses while the keyboard is locked: the unlock chord
 * fires exactly on the press that completes {ctrl, alt, u}, whatever the
 * order of the presses.
 */
module Chord {
  import opened Wrappers
  import opened KeyNames
  import opened LockSpec

  /** The state after pressing the keys of `ks` in order, with no releases. */
  function PressAll(s: Devices, ks: seq<RawKey>): Devices
    decreases |ks|
  {
    if ks == [] then s else Press(PressAll(s, ks[..|ks| - 1]), ks[|ks| - 1])
  }

  /** The names the presses of `ks` record, in the order of the presses. */
  function Names(ks: seq<RawKey>): set<string>
    decreases |ks|
  {
    if ks == [] then {} else Names(ks[..|ks| - 1]) + OptionSet(PressedName(ks[|ks| - 1]))
  }

  /** A name is recorded by a sequence of presses exactly when one of its
      keys records it. */
  lemma {:induction false} NamesMembers(ks: seq<RawKey>, n: string)
    ensures n in Names(ks) <==> exists i :: 0 <= i < |ks| && PressedName(ks[i]) == Some(n)
    decreases |ks|
  {
    if ks != [] {
      var init := ks[..|ks| - 1];
      NamesMembers(init, n);
      assert forall i :: 0 <= i < |init| ==> init[i] == ks[i];
      if PressedName(ks[|ks| - 1]) == Some(n) {
        assert n in Names(ks);
      }
    }
  }

  lemma {:induction false} NamesOfPrefix(ks: seq<RawKey>, i: nat)
    requires i <= |ks|
    ensures Names(ks[..i]) <= Names(ks)
    decreases |ks|
  {
    if i < |ks| {
      var init := ks[..|ks| - 1];
      assert init[..i] == ks[..i];
      NamesOfPrefix(init, i);
    } else {
      assert ks[..i] == ks;
    }
  }

  /** Presses that do not, all together, hold the chord never fire it: the
      locks stay as they were and every recorded name accumulates. */
  lemma {:induction false} NoChordNoChange(s: Devices, ks: seq<RawKey>)
    requires !ChordHeld(s.pressed + Names(ks))
    ensures PressAll(s, ks) == s.(pressed := s.pressed + Names(ks))
    decreases |ks|
  {
    if ks != [] {
      var init := ks[..|ks| - 1];
      NamesOfPrefix(ks, |ks| - 1);
      NoChordNoChange(s, init);
      var before := s.(pressed := s.pressed + Names(init));
      assert Held(before, ks[|ks| - 1]) == s.pressed + Names(ks);
    }
  }

  /** The last press of `ks`, when the presses before it do not hold the
      chord, fires exactly when all of `ks` holds it; it then leaves both
      devices unlocked and the pressed set empty, and otherwise only the
      recorded names have changed. */
  lemma {:induction false} ChordCompletes(s: Devices, ks: seq<RawKey>)
    requires |ks| > 0
    requires !ChordHeld(s.pressed + Names(ks[..|ks| - 1]))
    ensures Fires(PressAll(s, ks[..|ks| - 1]), ks[|ks| - 1]) <==> ChordHeld(s.pressed + Names(ks))
    ensures ChordHeld(s.pressed + Names(ks)) ==> PressAll(s, ks) == UnlockBoth(s).(pressed := {})
    ensures !ChordHeld(s.pressed + Names(ks)) ==> PressAll(s, ks) == s.(pressed := s.pressed + Names(ks))
  {
    var init := ks[..|ks| - 1];
    NoChordNoChange(s, init);
    var before := s.(pressed := s.pressed + Names(init));
    assert Held(before, ks[|ks| - 1]) == s.pressed + Names(ks);
    assert UnlockBoth(before).(pressed := {}) == UnlockBoth(s).(pressed := {});
  }

  /** In any sequence of presses, the press at position `i` is the one that
      unlocks when the presses before it did not hold the chord and the
      presses up to it do: until then the locks are untouched. */
  lemma {:induction false} FiresOnCompletingPress(s: Devices, ks: seq<RawKey>, i: nat)
    requires i < |ks|
    requires !ChordHeld(s.pressed + Names(ks[..i]))
    ensures PressAll(s, ks[..i]) == s.(pressed := s.pressed + Names(ks[..i]))
    ensures Fires(PressAll(s, ks[..i]), ks[i]) <==> ChordHeld(s.pressed + Names(ks[..i + 1]))
  {
    NoChordNoChange(s, ks[..i]);
    var pre := ks[..i + 1];
    assert pre[..i] == ks[..i];
    assert Names(pre) == Names(ks[..i]) + OptionSet(PressedName(ks[i]));
    assert Held(s.(pressed := s.pressed + Names(ks[..i])), ks[i]) == s.pressed + Names(pre);
  }

  /** Three names that make up {ctrl, alt, u} are pairwise different. */
  lemma {:induction false} ChordNamesDistinct(x: string, y: string, z: string)
    requires {x, y, z} == {"ctrl", "alt", "u"}
    ensures x != y && x != z && y != z
  {
  }

  /** Pressing keys for ctrl, alt and u in any of the six orders, starting
      with the last of them not held, fires exactly on the third press and
      ends with both devices unlocked and nothing pressed. */
  lemma {:induction false} ChordAnyOrder(s: Devices, a: RawKey, b: RawKey, c: RawKey)
    requires PressedName(a).Some? && PressedName(b).Some? && PressedName(c).Some?
    requires {PressedName(a).value, PressedName(b).value, PressedName(c).value} == {"ctrl", "alt", "u"}
    requires PressedName(c).value !in s.pressed
    ensures !Fires(s, a) && !Fires(Press(s, a), b) && Fires(Press(Press(s, a), b), c)
    ensures Press(Press(Press(s, a), b), c) == UnlockBoth(s).(pressed := {})
  {
    ChordNamesDistinct(PressedName(a).value, PressedName(b).value, PressedName(c).value);
  }

  /** The representation fallback is a plain search for the letter u, so a
      named key with no normalised name, such as the Up arrow whose
      representation reads `<Key.up: <65362>>`, counts as u: holding ctrl
      and alt and pressing Up unlocks both devices. */
  lemma {:induction false} UpArrowCompletesChord(s: Devices, ctrlRepr: string, altRepr: string)
    requires "u" !in s.pressed
    ensures var up := Named(OtherNamed("up"), "<Key.up: <65362>>");
      PressedName(up) == Some("u") &&
      Press(Press(Press(s, Named(Ctrl, ctrlRepr)), Named(Alt, altRepr)), up) == UnlockBoth(s).(pressed := {})
  {
    var up := Named(OtherNamed("up"), "<Key.up: <65362>>");
    assert Lower(up.repr)[5] == 'u';
    assert PressedName(up) == Some("u");
    ChordAnyOrder(s, Named(Ctrl, ctrlRepr), Named(Alt, altRepr), up);
  }

  /** Once the chord has fired, a release followed by any single press never
      fires it again. */
  lemma {:induction false} NoRetrigger(s: Devices, k: RawKey, r: RawKey, k2: RawKey)
    requires Fires(s, k)
    ensures Press(s, k).pressed == {}
    ensures !Fires(Press(s, k), k2)
    ensures !Fires(Release(Press(s, k), r), k2)
  {
  }
}
