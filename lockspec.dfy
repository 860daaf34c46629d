/**
 * The lock state machine as values: the four pieces of module state of the
 * kiosk lock script, and one function per operation that changes them.
 * The class in KioskLock is proved to follow these functions step by step.
 */
module LockSpec {
  import opened Wrappers
  import opened KeyNames

  /** How long the auto-unlock timer armed by a keyboard lock waits, in seconds. */
  const AutoUnlockSeconds: nat := 30

  /** The module state. `mouseListener` and `keyboardListener` say whether a
      suppressing listener handle is held; `timer` is the armed auto-unlock
      timer (its duration), if any; `pressed` is the set of held key names. */
  datatype Devices = Devices(
    mouseListener: bool,
    keyboardListener: bool,
    timer: Option<nat>,
    pressed: set<string>)

  /** The state at start-up: nothing locked, no timer, nothing pressed. */
  function Initial(): (s: Devices)
    ensures !s.mouseListener && !s.keyboardListener && s.timer.None? && s.pressed == {}
  {
    Devices(false, false, None, {})
  }

  /** A timer is armed exactly while the keyboard listener is held, and an
      armed timer runs for the configured duration. */
  predicate TimerMatchesListener(s: Devices)
  {
    s.timer == (if s.keyboardListener then Some(AutoUnlockSeconds) else None)
  }

  lemma InitialTimerMatchesListener()
    ensures TimerMatchesListener(Initial())
  {
  }

  // ---------------------------------------------------------------- mouse

  /** Lock the mouse: afterwards a listener is held; nothing else changes,
      and on a locked mouse nothing changes at all. */
  function LockMouse(s: Devices): (t: Devices)
    ensures t.mouseListener
    ensures t.(mouseListener := s.mouseListener) == s
    ensures s.mouseListener ==> t == s
  {
    if !s.mouseListener then s.(mouseListener := true) else s
  }

  /** Unlock the mouse: afterwards no listener is held; nothing else changes,
      and on an unlocked mouse nothing changes at all. */
  function UnlockMouse(s: Devices): (t: Devices)
    ensures !t.mouseListener
    ensures t.(mouseListener := s.mouseListener) == s
    ensures !s.mouseListener ==> t == s
  {
    if s.mouseListener then s.(mouseListener := false) else s
  }

  // ------------------------------------------------------------- keyboard

  /** Lock the keyboard: on an unlocked keyboard, empty the pressed set, take
      the listener and arm the timer; on a locked keyboard change nothing,
      not even the pressed set. The mouse is never touched. */
  function LockKeyboard(s: Devices): (t: Devices)
    ensures t.keyboardListener && t.mouseListener == s.mouseListener
    ensures !s.keyboardListener ==> t.pressed == {} && t.timer == Some(AutoUnlockSeconds)
    ensures s.keyboardListener ==> t == s
    ensures TimerMatchesListener(s) ==> TimerMatchesListener(t)
  {
    if !s.keyboardListener then
      s.(pressed := {}, keyboardListener := true, timer := Some(AutoUnlockSeconds))
    else s
  }

  /** Unlock the keyboard: on a locked keyboard, cancel and drop the timer and
      drop the listener; on an unlocked keyboard change nothing. The pressed
      set and the mouse are never touched. */
  function UnlockKeyboard(s: Devices): (t: Devices)
    ensures !t.keyboardListener
    ensures t.mouseListener == s.mouseListener && t.pressed == s.pressed
    ensures s.keyboardListener ==> t.timer.None?
    ensures !s.keyboardListener ==> t == s
    ensures TimerMatchesListener(s) ==> TimerMatchesListener(t) && t.timer.None?
  {
    // An armed timer is cancelled and dropped; with none armed there is nothing to drop.
    if s.keyboardListener then s.(timer := None, keyboardListener := false)
    else s
  }

  // ---------------------------------------------------------------- both

  /** Lock both devices: the mouse first, then the keyboard. */
  function LockBoth(s: Devices): (t: Devices)
    ensures t.mouseListener && t.keyboardListener
    ensures t.pressed == (if s.keyboardListener then s.pressed else {})
    ensures t.timer == (if s.keyboardListener then s.timer else Some(AutoUnlockSeconds))
    ensures TimerMatchesListener(s) ==> TimerMatchesListener(t) && t.timer.Some?
  {
    LockKeyboard(LockMouse(s))
  }

  /** Unlock both devices: the mouse first, then the keyboard. Safe in every
      state; the pressed set is kept. */
  function UnlockBoth(s: Devices): (t: Devices)
    ensures !t.mouseListener && !t.keyboardListener && t.pressed == s.pressed
    ensures TimerMatchesListener(s) ==> TimerMatchesListener(t) && t.timer.None?
  {
    UnlockKeyboard(UnlockMouse(s))
  }

  /** The armed auto-unlock timer expires and runs unlock-both; a timer that
      was cancelled (none armed) never runs. */
  function TimerFires(s: Devices): (t: Devices)
    ensures s.timer.Some? ==> !t.mouseListener && !t.keyboardListener && t.pressed == s.pressed
    ensures s.timer.None? ==> t == s
    ensures TimerMatchesListener(s) ==> TimerMatchesListener(t) && t.timer.None?
  {
    if s.timer.Some? then UnlockBoth(s) else s
  }

  // ----------------------------------------------------------- key events

  /** The name a key press adds to the pressed set: its normalised name, or,
      when it has none, "u" if its lowercased representation mentions u. */
  function PressedName(k: RawKey): (r: Option<string>)
    ensures KeyName(k).Some? ==> r == KeyName(k)
    ensures KeyName(k).None? ==> (r.Some? <==> 'u' in Lower(k.repr)) && (r.Some? ==> r.value == "u")
  {
    var name := KeyName(k);
    if name.Some? then name
    else
      ReprMentionsUIffLetter(Lower(k.repr));
      if ReprMentionsU(Lower(k.repr)) then Some("u") else None
  }

  /** The unlock chord: ctrl, alt and u are all held. */
  predicate ChordHeld(p: set<string>)
  {
    "ctrl" in p && "alt" in p && "u" in p
  }

  /** The pressed set after the press of `k` has been recorded. */
  function Held(s: Devices, k: RawKey): (p: set<string>)
    ensures forall n :: n in p <==> n in s.pressed || PressedName(k) == Some(n)
  {
    s.pressed + OptionSet(PressedName(k))
  }

  /** Whether pressing `k` in state `s` completes the unlock chord. */
  predicate Fires(s: Devices, k: RawKey)
  {
    ChordHeld(Held(s, k))
  }

  /** A key press: record the key's name; if the chord is then held, unlock
      both devices and empty the pressed set, otherwise leave the locks as
      they are. */
  function Press(s: Devices, k: RawKey): (t: Devices)
    ensures Fires(s, k) ==> !t.mouseListener && !t.keyboardListener && t.pressed == {}
    ensures Fires(s, k) ==> t == UnlockBoth(s).(pressed := {})
    ensures !Fires(s, k) ==> t == s.(pressed := Held(s, k))
    ensures TimerMatchesListener(s) ==> TimerMatchesListener(t)
  {
    var recorded := s.(pressed := Held(s, k));
    if ChordHeld(recorded.pressed) then UnlockBoth(recorded).(pressed := {}) else recorded
  }

  /** A key release: remove the key's normalised name if it is held. The locks
      and the timer are never touched, and a key without a normalised name
      changes nothing. */
  function Release(s: Devices, k: RawKey): (t: Devices)
    ensures t.(pressed := s.pressed) == s
    ensures KeyName(k).None? ==> t == s
    ensures KeyName(k).Some? ==> t.pressed == s.pressed - {KeyName(k).value}
  {
    var name := KeyName(k);
    if name.Some? && name.value in s.pressed then s.(pressed := s.pressed - {name.value})
    else s
  }

  // -------------------------------------------------------------- lemmas

  /** Every operation keeps the timer in step with the keyboard listener. */
  lemma TimerInvariantPreserved(s: Devices, k: RawKey)
    requires TimerMatchesListener(s)
    ensures TimerMatchesListener(LockMouse(s)) && TimerMatchesListener(UnlockMouse(s))
    ensures TimerMatchesListener(LockKeyboard(s)) && TimerMatchesListener(UnlockKeyboard(s))
    ensures TimerMatchesListener(LockBoth(s)) && TimerMatchesListener(UnlockBoth(s))
    ensures TimerMatchesListener(TimerFires(s))
    ensures TimerMatchesListener(Press(s, k)) && TimerMatchesListener(Release(s, k))
  {
  }

  /** Repeating any lock or unlock operation changes nothing more. */
  lemma Idempotent(s: Devices)
    ensures LockMouse(LockMouse(s)) == LockMouse(s)
    ensures UnlockMouse(UnlockMouse(s)) == UnlockMouse(s)
    ensures LockKeyboard(LockKeyboard(s)) == LockKeyboard(s)
    ensures UnlockKeyboard(UnlockKeyboard(s)) == UnlockKeyboard(s)
    ensures LockBoth(LockBoth(s)) == LockBoth(s)
    ensures UnlockBoth(UnlockBoth(s)) == UnlockBoth(s)
  {
  }

  /** Locking both devices and letting the timer run out leaves both unlocked
      with no timer armed. */
  lemma AutoUnlock(s: Devices)
    requires TimerMatchesListener(s)
    ensures var t := TimerFires(LockBoth(s));
      !t.mouseListener && !t.keyboardListener && t.timer.None?
  {
  }

  /** A manual unlock disarms the timer: its expiry afterwards changes
      nothing, so no second unlock happens. */
  lemma ManualUnlockCancelsTimer(s: Devices)
    requires TimerMatchesListener(s)
    ensures TimerFires(UnlockBoth(s)) == UnlockBoth(s)
    ensures TimerFires(UnlockKeyboard(s)) == UnlockKeyboard(s)
  {
  }

  /** A key with no normalised name whose representation mentions u records
      "u" on press, and releasing the same key does not remove it. */
  lemma {:induction false} FallbackUOutlivesRelease(s: Devices, k: RawKey)
    requires KeyName(k).None? && 'u' in Lower(k.repr)
    requires !Fires(s, k)
    ensures "u" in Press(s, k).pressed
    ensures Release(Press(s, k), k) == Press(s, k)
  {
  }
}
