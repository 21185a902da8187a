/**
 Output side of the keymap: the key codes its handlers send and the calls
 they make into the host firmware, recorded as an event log.
 */
module Codes {

  /** The HID keys named by the tap-dance handlers, treated as opaque values. */
  datatype KeyName =
    | Q | W | E | R | T | Y | U | I | O | P | L | M | Comm | Dot | H | S
    | N1 | N2 | N3 | N4 | N5 | N6 | N7 | N8 | N9 | N0
    | Slsh | Scln | Quot | Mins | Grv

  /** A key code as sent to the host: a plain key, or the key with left shift
      applied (`LSFT(kc)`, of which `S(kc)` is an alias). */
  datatype Code = Plain(key: KeyName) | Shifted(key: KeyName)

  /** One call into the host. `tap_code` and `tap_code16` both become `Tap`. */
  datatype Event =
    | Tap(code: Code)
    | Register(code: Code)
    | Unregister(code: Code)
    | BootloaderJump

  /** How one event changes the number of times `c` is held down. */
  function HoldDelta(e: Event, c: Code): int
  {
    match e
    case Register(c') => if c' == c then 1 else 0
    case Unregister(c') => if c' == c then -1 else 0
    case _ => 0
  }

  /** Registrations of `c` in `log` minus its unregistrations: the number of
      times the log leaves `c` held. */
  function NetHeld(log: seq<Event>, c: Code): int
  {
    if |log| == 0 then 0 else HoldDelta(log[0], c) + NetHeld(log[1..], c)
  }

  /** A log made only of taps and the bootloader hook holds nothing. */
  lemma {:induction false} NetHeldWithoutHolds(log: seq<Event>, c: Code)
    requires forall i :: 0 <= i < |log| ==> !log[i].Register? && !log[i].Unregister?
    ensures NetHeld(log, c) == 0
  {
    if |log| > 0 {
      NetHeldWithoutHolds(log[1..], c);
    }
  }

  /** The held count of a concatenation is the sum of the parts' counts. */
  lemma {:induction false} NetHeldAppend(a: seq<Event>, b: seq<Event>, c: Code)
    ensures NetHeld(a + b, c) == NetHeld(a, c) + NetHeld(b, c)
  {
    if |a| == 0 {
      assert a + b == b;
    } else {
      assert (a + b)[0] == a[0];
      assert (a + b)[1..] == a[1..] + b;
      NetHeldAppend(a[1..], b, c);
    }
  }
}
