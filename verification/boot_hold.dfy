/**
 The BOOT_HOLD key of `process_record_user`: held for at least five seconds
 and released, it jumps to the bootloader. The host's millisecond timer is an
 input; the bootloader jump is recorded as an event.
 */
module BootHold {
  import opened Codes

  /** The timer is a 16-bit counter; `boot_hold_timer` is a `uint16_t`. */
  const TimerModulus: nat := 0x1_0000

  /** A reading of the host's 16-bit millisecond timer. */
  type Timer16 = x: int | 0 <= x < TimerModulus

  /** How long BOOT_HOLD must be held, in milliseconds. */
  const HoldThreshold: nat := 5000

  /** `boot_hold_timer` is a zero-initialised static. */
  const PowerOnTimer: Timer16 := 0

  /** A keycode reaching `process_record_user`: BOOT_HOLD, or any other. */
  datatype Keycode = BootHoldKey | OtherKey(id: nat)

  /** The host's `timer_elapsed(start)` read at `now`: milliseconds from
      `start` to `now` on the wrapping 16-bit timer. */
  function TimerElapsed(now: Timer16, start: Timer16): (r: Timer16)
    ensures (start + r) % TimerModulus == now
  {
    (now - start) % TimerModulus
  }

  /** What `process_record_user` leaves behind: the stored press time,
      whether QMK should go on processing the key, and the hooks it fired. */
  datatype RecordResult = RecordResult(timer: Timer16, passOn: bool, events: seq<Event>)

  /** `process_record_user` for one key event at timer reading `now`. */
  function ProcessRecordUser(timer: Timer16, keycode: Keycode, pressed: bool, now: Timer16): (r: RecordResult)
    ensures keycode != BootHoldKey ==> r == RecordResult(timer, true, [])
    ensures keycode == BootHoldKey ==> !r.passOn
    ensures keycode == BootHoldKey && pressed ==> r.timer == now && r.events == []
    ensures keycode == BootHoldKey && !pressed ==> r.timer == timer
    ensures keycode == BootHoldKey && !pressed ==>
              (r.events == [BootloaderJump] <==> TimerElapsed(now, timer) >= HoldThreshold)
    ensures r.events == [] || r.events == [BootloaderJump]
  {
    match keycode
    case BootHoldKey =>
      if pressed then RecordResult(now, false, [])
      else if TimerElapsed(now, timer) >= HoldThreshold then RecordResult(timer, false, [BootloaderJump])
      else RecordResult(timer, false, [])
    case OtherKey(_) => RecordResult(timer, true, [])
  }

  /** The timer reading at real time `t` (milliseconds since power-on). */
  function ReadTimer(t: nat): Timer16
  {
    t % TimerModulus
  }

  /** Readings `t0 <= t1` less than one timer period apart are measured exactly. */
  lemma ElapsedMeasuresRealTime(t0: nat, t1: nat)
    requires t0 <= t1 < t0 + TimerModulus
    ensures TimerElapsed(ReadTimer(t1), ReadTimer(t0)) == t1 - t0
  {
    var q0, q1 := t0 / TimerModulus, t1 / TimerModulus;
    assert t0 == q0 * TimerModulus + ReadTimer(t0);
    assert t1 == q1 * TimerModulus + ReadTimer(t1);
    var diff := ReadTimer(t1) - ReadTimer(t0);
    assert diff == (t1 - t0) - (q1 - q0) * TimerModulus;
    assert -(TimerModulus as int) < diff < TimerModulus;
    if diff >= 0 {
      assert q1 == q0;
    } else {
      assert q1 == q0 + 1;
    }
  }

  /** BOOT_HOLD pressed at real time `t0` and released at `t1`, less than one
      timer period later: the release jumps to the bootloader exactly when the
      key was held for at least the threshold, and both events are consumed. */
  lemma PressThenRelease(timer: Timer16, t0: nat, t1: nat)
    requires t0 <= t1 < t0 + TimerModulus
    ensures var p := ProcessRecordUser(timer, BootHoldKey, true, ReadTimer(t0));
            var q := ProcessRecordUser(p.timer, BootHoldKey, false, ReadTimer(t1));
            && !p.passOn && !q.passOn && p.events == []
            && (q.events == [BootloaderJump] <==> t1 - t0 >= HoldThreshold)
  {
    ElapsedMeasuresRealTime(t0, t1);
  }

  /** Held from 0 ms to 5200 ms: the bootloader hook fires once. */
  lemma ReleaseAfter5200Fires()
    ensures ProcessRecordUser(ProcessRecordUser(PowerOnTimer, BootHoldKey, true, 0).timer,
                              BootHoldKey, false, 5200).events == [BootloaderJump]
  {
  }

  /** Held from 0 ms to 3000 ms: nothing fires. */
  lemma ReleaseAfter3000DoesNotFire()
    ensures ProcessRecordUser(ProcessRecordUser(PowerOnTimer, BootHoldKey, true, 0).timer,
                              BootHoldKey, false, 3000).events == []
  {
  }
}
