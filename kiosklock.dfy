/**
 * The kiosk lock's module state and the functions that change it in place:
 * one object holding the two listener handles, the auto-unlock timer and the
 * set of held key names. Each method is proved to change the state exactly
 * as the corresponding function of LockSpec says.
 */
module KioskLock {
  import opened Wrappers
  import opened KeyNames
  import opened LockSpec

  class Locker {
    /** Whether a mouse listener that suppresses input is held. */
    var mouseLockListener: bool
    /** Whether a keyboard listener that suppresses input is held. */
    var keyboardLockListener: bool
    /** The armed auto-unlock timer (its duration in seconds), if any. */
    var keyboardAutoUnlockTimer: Option<nat>
    /** The names of the keys currently held down. */
    var keyboardPressed: set<string>

    function State(): Devices
      reads this
    {
      Devices(mouseLockListener, keyboardLockListener, keyboardAutoUnlockTimer, keyboardPressed)
    }

    ghost predicate Valid()
      reads this
    {
      TimerMatchesListener(State())
    }

    constructor ()
      ensures State() == Initial() && Valid()
    {
      mouseLockListener := false;
      keyboardLockListener := false;
      keyboardAutoUnlockTimer := None;
      keyboardPressed := {};
    }

    method LockMouse()
      modifies this
      ensures State() == LockSpec.LockMouse(old(State()))
      ensures old(Valid()) ==> Valid()
    {
      if !mouseLockListener {
        mouseLockListener := true;
      }
    }

    method UnlockMouse()
      modifies this
      ensures State() == LockSpec.UnlockMouse(old(State()))
      ensures old(Valid()) ==> Valid()
    {
      if mouseLockListener {
        mouseLockListener := false;
      }
    }

    method LockKeyboard()
      modifies this
      ensures State() == LockSpec.LockKeyboard(old(State()))
      ensures old(Valid()) ==> Valid()
    {
      if !keyboardLockListener {
        keyboardPressed := {};
        keyboardLockListener := true;
        keyboardAutoUnlockTimer := Some(AutoUnlockSeconds);
      }
    }

    method UnlockKeyboard()
      modifies this
      ensures State() == LockSpec.UnlockKeyboard(old(State()))
      ensures old(Valid()) ==> Valid()
    {
      if keyboardLockListener {
        if keyboardAutoUnlockTimer.Some? {
          keyboardAutoUnlockTimer := None;
        }
        keyboardLockListener := false;
      }
    }

    method UnlockBoth()
      modifies this
      ensures State() == LockSpec.UnlockBoth(old(State()))
      ensures old(Valid()) ==> Valid()
    {
      UnlockMouse();
      UnlockKeyboard();
    }

    method LockBoth()
      modifies this
      ensures State() == LockSpec.LockBoth(old(State()))
      ensures old(Valid()) ==> Valid()
    {
      LockMouse();
      LockKeyboard();
    }

    /** The auto-unlock timer's expiry: an armed timer runs unlock-both; a
        cancelled one never runs. */
    method TimerFires()
      modifies this
      ensures State() == LockSpec.TimerFires(old(State()))
      ensures old(Valid()) ==> Valid()
    {
      if keyboardAutoUnlockTimer.Some? {
        UnlockBoth();
      }
    }

    /** The keyboard listener's key-down callback. */
    method OnKeyPress(key: RawKey)
      modifies this
      ensures State() == LockSpec.Press(old(State()), key)
      ensures old(Valid()) ==> Valid()
    {
      var name := KeyName(key);
      if name.Some? {
        keyboardPressed := keyboardPressed + {name.value};
      } else {
        var reprLower := Lower(key.repr);
        if ReprMentionsU(reprLower) {
          keyboardPressed := keyboardPressed + {"u"};
        }
      }
      if "ctrl" in keyboardPressed && "alt" in keyboardPressed && "u" in keyboardPressed {
        UnlockBoth();
        keyboardPressed := {};
      }
    }

    /** The keyboard listener's key-up callback. */
    method OnKeyRelease(key: RawKey)
      modifies this
      ensures State() == LockSpec.Release(old(State()), key)
      ensures old(Valid()) ==> Valid()
    {
      var name := KeyName(key);
      if name.Some? && name.value in keyboardPressed {
        keyboardPressed := keyboardPressed - {name.value};
      }
    }
  }
}
