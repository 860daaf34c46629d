# Kiosk lock: a Dafny model of the lock state machine

The modelled program is a small keyboard and mouse "kiosk lock". A global hotkey
(ctrl+alt+L) starts listeners that suppress all mouse and keyboard input. While the
keyboard is suppressed, the program watches key presses for the unlock chord
ctrl+alt+U. A 30-second auto-unlock timer releases both devices if nobody does.

The model covers the whole state machine behind this:

- `KeyNames` (keynames.dfy): key normalisation (`_key_name`). It maps a raw key to
  "ctrl", "alt", a lowercased character, a lowercase ASCII letter taken from a
  virtual-key code, or nothing. It also holds the substring test used by the
  representation fallback.
- `LockSpec` (lockspec.dfy): the module state as a value `Devices`. It has two
  listener handles (booleans), the auto-unlock timer (`Option<nat>` holding its
  duration) and the set of held key names. There is one function per operation:
  lock and unlock of each device, both together, the timer's expiry, a key press and
  a key release. The lemmas prove idempotency, the timer invariant, auto-unlock and
  timer cancellation.
- `Chord` (chord.dfy): sequences of key presses. The chord fires exactly on the press
  that completes {ctrl, alt, u}, in whatever order the keys come, and it does not
  fire again right after.
- `KioskLock` (kiosklock.dfy): class `Locker`, whose fields are the script's four
  module-level variables. Its methods are the script's functions. They test and
  reassign those fields in place, and each is proved to change the state exactly as
  the matching `LockSpec` function says.
- `Wrappers` (wrappers.dfy): `Option`, standing for Python's `None`.

The listener and timer objects of the input library become "handle present" flags.
The timer's expiry is an explicit event, `TimerFires`. It runs unlock-both when a
timer is armed. A timer that `unlock_keyboard` cancelled (none armed) never runs.

Facts about the code that the model keeps:

- Unlocking never empties the pressed set. The code clears it only on keyboard lock
  (main.py:124) and after the chord fires (main.py:106). Both unlock functions keep
  the set.
- The representation fallback (main.py:89-95) lowercases the key's representation
  and then tests `"'u'" in s or "u" in s`. The first test is subsumed by the second
  (`ReprMentionsUIffLetter`). So any u of either case, in any key's representation,
  counts. This includes named keys such as the Up arrow (`UpArrowCompletesChord`).
- A key code's character is accepted whenever it is non-empty (main.py:60-61). No
  check that it is printable is made.
- No lock guards the check-then-act sequences on the module variables. So the model
  is sequential. The invariant proved is "a timer is armed exactly while the keyboard
  listener is held". It holds in the sequential model, and it is stronger than "timer
  implies listener".

## Model

| member | source | states |
|---|---|---|
| `KeyNames.Lower` | main.py:61 | lowercasing keeps the length, turns each upper-case ASCII letter into its lower-case partner (code + 32) and leaves every other character as it was |
| `KeyNames.KeyName` | main.py:42-78 | a normalised name is never empty and has no upper-case letter; a named key gives only "ctrl", "alt" or nothing; a key code with no character gives a single lowercase letter or nothing |
| `KeyNames.ModifierNames` | main.py:49-55 | ctrl, ctrl_l and ctrl_r, and only they, give "ctrl"; alt, alt_l, alt_r and alt_gr, and only they, give "alt"; every other named key gives nothing (each in both directions) |
| `KeyNames.CharBeforeVk` | main.py:58-63 | a key code with a non-empty character gives that character lowercased, whatever its virtual-key code |
| `KeyNames.VkFallback` | main.py:65-78 | with no character (or an empty one): a code in 65..90 gives the letter of code+32, a code in 97..122 gives that letter, anything else or no code gives nothing |
| `KeyNames.VkCaseAgnostic` | main.py:65-74 | the upper- and lower-case codes of one letter normalise alike, and code 85 gives "u" |
| `KeyNames.ReprMentionsUIffLetter` | main.py:93 | the two-part representation test holds exactly when the letter u occurs in the lowercased representation |
| `LockSpec.Initial` | main.py:36-38 | at start-up nothing is locked, no timer is armed and nothing is pressed (mouse handle from line 8) |
| `LockSpec.InitialTimerMatchesListener` | main.py:36-37 | the start-up state satisfies the timer invariant |
| `LockSpec.LockMouse` | main.py:10-20 | afterwards the mouse handle is held and nothing else has changed; on a locked mouse nothing changes at all |
| `LockSpec.UnlockMouse` | main.py:23-33 | afterwards no mouse handle is held and nothing else has changed; on an unlocked mouse nothing changes at all |
| `LockSpec.LockKeyboard` | main.py:119-140 | afterwards the keyboard handle is held and the mouse is untouched; from unlocked, the pressed set is empty and a 30-second timer is armed; when already locked nothing changes, not even the pressed set; keeps the timer invariant |
| `LockSpec.UnlockKeyboard` | main.py:143-165 | afterwards no keyboard handle is held; from locked, no timer is armed; the mouse and the pressed set are untouched; when already unlocked nothing changes; keeps the timer invariant |
| `LockSpec.LockBoth` | main.py:172-174 | the mouse lock followed by the keyboard lock: both handles held; if the keyboard was unlocked the pressed set is emptied and a 30-second timer armed, otherwise the pressed set and timer are kept |
| `LockSpec.UnlockBoth` | main.py:168-170 | the mouse unlock followed by the keyboard unlock: safe in any state, both handles released, pressed set kept, and under the invariant no timer left |
| `LockSpec.TimerFires` | main.py:131-133 | an armed timer's expiry unlocks both devices and keeps the pressed set; with no timer armed nothing changes |
| `LockSpec.PressedName` | main.py:82-95 | a press records the key's normalised name when it has one; otherwise it records "u" exactly when the lowercased representation contains u, and nothing else |
| `LockSpec.Held` | main.py:85-95 | after recording a press, a name is held exactly when it was held before or it is the name the press records (the normalised name, or the fallback "u") |
| `LockSpec.Press` | main.py:81-106 | if the chord is then held, both devices end unlocked and the pressed set empty; otherwise the locks and timer are unchanged and only the pressed set grew; keeps the timer invariant |
| `LockSpec.Release` | main.py:109-116 | a release removes only the key's normalised name; it never touches locks or timer; a key with no normalised name changes nothing |
| `LockSpec.TimerInvariantPreserved` | main.py:119-174 | "timer armed exactly while the keyboard handle is held" is preserved by every lock, unlock, expiry, press and release |
| `LockSpec.Idempotent` | main.py:10-174 | applying any lock or unlock operation twice is the same as applying it once, unlock-both included |
| `LockSpec.AutoUnlock` | main.py:130-133 | locking both and letting the timer expire leaves both devices unlocked and no timer armed |
| `LockSpec.ManualUnlockCancelsTimer` | main.py:147-150 | after a manual unlock the timer's expiry changes nothing, so no second unlock happens |
| `LockSpec.FallbackUOutlivesRelease` | main.py:88-114 | a key with no normalised name but a u in its representation records "u" on press, and its release does not remove it |
| `Chord.NamesMembers` | main.py:85-95 | a name is recorded by a sequence of presses exactly when one of the keys records it |
| `Chord.NoChordNoChange` | main.py:100-106 | presses that never hold the whole chord leave the locks and timer as they were and only accumulate names |
| `Chord.ChordCompletes` | main.py:100-106 | when the earlier presses do not hold the chord, the last press fires exactly when the whole sequence does, and then both devices end unlocked with nothing pressed |
| `Chord.FiresOnCompletingPress` | main.py:81-106 | in any press sequence the locks are untouched until the press that completes the chord, and that press is the one that fires |
| `Chord.ChordAnyOrder` | main.py:100-106 | ctrl, alt and u pressed in any of the six orders fire on the third press and not before, ending with both devices unlocked and nothing pressed |
| `Chord.UpArrowCompletesChord` | main.py:88-95 | the Up arrow (representation `<Key.up: <65362>>`) records "u", so ctrl, alt, Up unlocks both devices |
| `Chord.NoRetrigger` | main.py:104-106 | after the chord fires the pressed set is empty, and a release followed by any single press does not fire it again |
| `KioskLock.Locker.constructor` | main.py:8-38 | a new object is in the start-up state and satisfies the timer invariant |
| `KioskLock.Locker.LockMouse` | main.py:10-20 | changes the state exactly as `LockSpec.LockMouse`; keeps the invariant |
| `KioskLock.Locker.UnlockMouse` | main.py:23-33 | changes the state exactly as `LockSpec.UnlockMouse`; keeps the invariant |
| `KioskLock.Locker.LockKeyboard` | main.py:119-140 | changes the state exactly as `LockSpec.LockKeyboard`; keeps the invariant |
| `KioskLock.Locker.UnlockKeyboard` | main.py:143-165 | changes the state exactly as `LockSpec.UnlockKeyboard`; keeps the invariant |
| `KioskLock.Locker.UnlockBoth` | main.py:168-170 | calls the mouse unlock and then the keyboard unlock; changes the state exactly as `LockSpec.UnlockBoth` |
| `KioskLock.Locker.LockBoth` | main.py:172-174 | calls the mouse lock and then the keyboard lock; changes the state exactly as `LockSpec.LockBoth` |
| `KioskLock.Locker.TimerFires` | main.py:131-133 | the timer's action calls unlock-both; changes the state exactly as `LockSpec.TimerFires` |
| `KioskLock.Locker.OnKeyPress` | main.py:81-106 | updates the pressed set in place and calls unlock-both when the chord is held; changes the state exactly as `LockSpec.Press` |
| `KioskLock.Locker.OnKeyRelease` | main.py:109-116 | removes the key's name in place; changes the state exactly as `LockSpec.Release` |

## Left out

- The input library's listener objects and their start, stop and join calls (main.py:15-16, 28, 125-126, 153-160). Actual input suppression is also left out. Each listener is a "handle present" flag.
- Real-time scheduling of the auto-unlock timer and its daemon thread (main.py:131-133). Expiry is the explicit event `TimerFires`; the 30-second duration is only recorded.
- Concurrency between the hotkey, chord and timer paths. The script has no lock, so the model is sequential and claims no atomicity.
- The global hotkey table and its listener (main.py:176-187). These are external bindings of ctrl+alt+L to lock-both and ctrl+alt+U to unlock-both.
- The KeyboardInterrupt cleanup block (main.py:188-203). It is process-lifecycle code, and its effect matches unlock-both.
- Debug tracing and the commented-out user messages (main.py:83-98, 111-116, 127-135, and the print in the timer's action at line 131).
- The exception handlers in `_key_name` (main.py:58-63, 67-76). Neither guarded step can raise on the inputs modelled.
- KeyNames.Lower: lowercases ASCII letters only. Python's `str.lower` also maps non-ASCII letters, and can change a string's length.
- KeyNames.KeyName: treats `alt_gr` as always present in the named-key enumeration. The script looks it up with `getattr` and skips it on platforms that lack it.
- The raw key's debug representation is an arbitrary string. The model does not derive it from the key's other fields.
