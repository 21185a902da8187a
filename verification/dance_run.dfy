/**
 The layout's handlers driven by the QMK tap-dance engine: any interleaving of
 finished and reset calls across the sixteen keys, in which a key's finished
 handler runs only while that key is idle (the engine resets a key before it
 resolves the key's next burst).
 */
module DanceRun {
  import opened Codes
  import opened Classify
  import opened TapDance

  /** A call the QMK tap-dance engine makes into the layout's action table. */
  datatype HostCall = ResolveBurst(dance: Dance, burst: Burst) | ResetDance(target: Dance)

  /** Dispatch one call through `tap_dance_actions`. */
  function Dispatch(ks: KeyStates, call: HostCall): LayoutResult
  {
    match call
    case ResolveBurst(d, b) => DanceFinished(ks, d, b)
    case ResetDance(d) => DanceReset(ks, d)
  }

  /** The engine's alternation: a key's burst is resolved only while the key
      is idle. A reset is harmless at any time. */
  predicate Allowed(ks: KeyStates, call: HostCall)
  {
    call.ResolveBurst? ==> ks[call.dance].state == TdNone
  }

  /** A sequence of calls that respects the alternation at every step. */
  predicate ValidRun(ks: KeyStates, calls: seq<HostCall>)
    decreases |calls|
  {
    |calls| == 0 || (Allowed(ks, calls[0]) && ValidRun(Dispatch(ks, calls[0]).states, calls[1..]))
  }

  /** The key states after `calls`, and everything they sent to the host. */
  function RunCalls(ks: KeyStates, calls: seq<HostCall>): LayoutResult
    decreases |calls|
  {
    if |calls| == 0 then LayoutResult(ks, [])
    else
      var first := Dispatch(ks, calls[0]);
      var rest := RunCalls(first.states, calls[1..]);
      LayoutResult(rest.states, first.events + rest.events)
  }

  /** How many times the key states say `c` is held: once if `c` is the base
      of a key in the double-single-tap state, otherwise not at all. */
  function Held(ks: KeyStates, c: Code): (n: nat)
    ensures n <= 1
  {
    match BaseOwner(c)
    case OwnedBy(d) => if ks[d].state == TdDoubleSingleTap then 1 else 0
    case NoOwner => 0
  }

  /** The host holds every code exactly as often as the key states say. */
  ghost predicate InSync(ks: KeyStates, log: seq<Event>)
  {
    forall c: Code :: NetHeld(log, c) == Held(ks, c)
  }

  /** A key's handler changes the held count only of that key's base code. */
  lemma HeldElsewhere(ks: KeyStates, ks': KeyStates, d: Dance, c: Code)
    requires c != KeyOf(d).base
    requires forall e: Dance :: e != d ==> ks'[e] == ks[e]
    ensures Held(ks', c) == Held(ks, c)
  {
    var owner := BaseOwner(c);
    if owner.OwnedBy? {
      assert owner.d != d;
    }
  }

  /** Resolving a burst on an idle key keeps the count of one code in line
      with the key states. */
  lemma FinishSyncAt(ks: KeyStates, log: seq<Event>, d: Dance, b: Burst, c: Code)
    requires ks[d].state == TdNone
    requires NetHeld(log, c) == Held(ks, c)
    ensures NetHeld(log + DanceFinished(ks, d, b).events, c) == Held(DanceFinished(ks, d, b).states, c)
  {
    var r := DanceFinished(ks, d, b);
    var f := Finished(KeyOf(d), b);
    assert r.events == f.events && r.states[d] == f.tap;
    NetHeldAppend(log, r.events, c);
    if c == KeyOf(d).base {
      OwnerOfBase(d);
      assert Held(ks, c) == 0;
      assert Held(r.states, c) == (if f.tap.state == TdDoubleSingleTap then 1 else 0);
    } else {
      HeldElsewhere(ks, r.states, d, c);
    }
  }

  /** Resetting a key keeps the count of one code in line with the key states. */
  lemma ResetSyncAt(ks: KeyStates, log: seq<Event>, d: Dance, c: Code)
    requires NetHeld(log, c) == Held(ks, c)
    ensures NetHeld(log + DanceReset(ks, d).events, c) == Held(DanceReset(ks, d).states, c)
  {
    var r := DanceReset(ks, d);
    var z := Reset(KeyOf(d), ks[d]);
    assert r.events == z.events && r.states[d] == z.tap;
    NetHeldAppend(log, r.events, c);
    if c == KeyOf(d).base {
      OwnerOfBase(d);
      assert Held(r.states, c) == 0;
    } else {
      HeldElsewhere(ks, r.states, d, c);
    }
  }

  /** One allowed call keeps the host's held keys in line with the key states. */
  lemma StepKeepsSync(ks: KeyStates, log: seq<Event>, call: HostCall)
    requires Allowed(ks, call)
    requires InSync(ks, log)
    ensures InSync(Dispatch(ks, call).states, log + Dispatch(ks, call).events)
  {
    var r := Dispatch(ks, call);
    forall c: Code
      ensures NetHeld(log + r.events, c) == Held(r.states, c)
    {
      match call
      case ResolveBurst(d, b) => FinishSyncAt(ks, log, d, b, c);
      case ResetDance(d) => ResetSyncAt(ks, log, d, c);
    }
  }

  /** Every allowed run keeps the host's held keys in line with the key states. */
  lemma {:induction false} RunKeepsSync(ks: KeyStates, log: seq<Event>, calls: seq<HostCall>)
    requires ValidRun(ks, calls)
    requires InSync(ks, log)
    ensures InSync(RunCalls(ks, calls).states, log + RunCalls(ks, calls).events)
    decreases |calls|
  {
    if |calls| == 0 {
      assert log + RunCalls(ks, calls).events == log;
    } else {
      var first := Dispatch(ks, calls[0]);
      var rest := RunCalls(first.states, calls[1..]);
      StepKeepsSync(ks, log, calls[0]);
      RunKeepsSync(first.states, log + first.events, calls[1..]);
      assert log + first.events + rest.events == log + (first.events + rest.events);
    }
  }

  /** From power-on (`AllIdle`), or any moment at which every key is idle,
      an allowed run ends with each code held at most once and none released
      more often than registered; once every key is idle again, nothing is
      left held. */
  lemma RunFromPowerOn(ks: KeyStates, calls: seq<HostCall>, c: Code)
    requires forall d: Dance :: ks[d].state == TdNone
    requires ValidRun(ks, calls)
    ensures 0 <= NetHeld(RunCalls(ks, calls).events, c) <= 1
    ensures (forall d: Dance :: RunCalls(ks, calls).states[d].state == TdNone)
            ==> NetHeld(RunCalls(ks, calls).events, c) == 0
  {
    assert [] + RunCalls(ks, calls).events == RunCalls(ks, calls).events;
    RunKeepsSync(ks, [], calls);
  }

  /** Stopping an allowed run early leaves an allowed run. */
  lemma {:induction false} ValidRunPrefix(ks: KeyStates, calls: seq<HostCall>, k: nat)
    requires ValidRun(ks, calls)
    requires k <= |calls|
    ensures ValidRun(ks, calls[..k])
    decreases k
  {
    if k > 0 {
      var prefix := calls[..k];
      var next := Dispatch(ks, calls[0]).states;
      assert prefix[0] == calls[0];
      assert prefix[1..] == calls[1..][..k - 1];
      ValidRunPrefix(next, calls[1..], k - 1);
      assert ValidRun(next, prefix[1..]);
    }
  }

  /** At every call boundary of an allowed run from power-on, no code has been
      released more often than it was registered, and none is held twice. */
  lemma NeverReleasedUnheld(ks: KeyStates, calls: seq<HostCall>, k: nat, c: Code)
    requires forall d: Dance :: ks[d].state == TdNone
    requires ValidRun(ks, calls)
    requires k <= |calls|
    ensures 0 <= NetHeld(RunCalls(ks, calls[..k]).events, c) <= 1
  {
    ValidRunPrefix(ks, calls, k);
    RunFromPowerOn(ks, calls[..k], c);
  }
}
