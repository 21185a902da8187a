/**
 The sixteen tap-dance keys of the layout. Every `<key>_finished` /
 `<key>_reset` pair of the keymap is the same handler applied to one row of
 the key table; the per-key `td_tap_t` statics are one sequence indexed by key.
 */
module TapDance {
  import opened Codes
  import opened Classify

  /** A tap-dance key: its value in the tap-dance enum, which is also its
      index into `tap_dance_actions` and into the per-key states. */
  newtype Dance = i: int | 0 <= i < DanceCount

  const DanceCount := 16

  const QExclam: Dance := 0
  const WAt: Dance := 1
  const EHash: Dance := 2
  const RDollar: Dance := 3
  const TPercent: Dance := 4
  const YCaret: Dance := 5
  const UAmpr: Dance := 6
  const IAstr: Dance := 7
  const OLprn: Dance := 8
  const PRprn: Dance := 9
  const LQuestion: Dance := 10
  const MSlash: Dance := 11
  const CommColon: Dance := 12
  const DotQuote: Dance := 13
  const HMinus: Dance := 14
  const STilde: Dance := 15

  /** What distinguishes one handler pair from another: the key it types on a
      tap, and the symbol it types on a hold. */
  datatype DanceKey = DanceKey(base: Code, hold: Code)

  /** The key table, one row per handler pair, in enum order. */
  const KeyTable: seq<DanceKey> := [
    DanceKey(Plain(Q), Shifted(N1)),
    DanceKey(Plain(W), Shifted(N2)),
    DanceKey(Plain(E), Shifted(N3)),
    DanceKey(Plain(R), Shifted(N4)),
    DanceKey(Plain(T), Shifted(N5)),
    DanceKey(Plain(Y), Shifted(N6)),
    DanceKey(Plain(U), Shifted(N7)),
    DanceKey(Plain(I), Shifted(N8)),
    DanceKey(Plain(O), Shifted(N9)),
    DanceKey(Plain(P), Shifted(N0)),
    DanceKey(Plain(L), Shifted(Slsh)),
    DanceKey(Plain(M), Plain(Slsh)),
    DanceKey(Plain(Comm), Shifted(Scln)),
    DanceKey(Plain(Dot), Shifted(Quot)),
    DanceKey(Plain(H), Plain(Mins)),
    DanceKey(Plain(S), Shifted(Grv))
  ]

  /** The row of key `d`. */
  function KeyOf(d: Dance): DanceKey
  {
    KeyTable[d]
  }

  /** No two keys share a base code, so one key's register can never be
      released by another key's reset. */
  lemma BasesDistinct(d: Dance, e: Dance)
    ensures KeyOf(d).base == KeyOf(e).base <==> d == e
  {
  }

  /** Which tap-dance key, if any, has a given code as its base. */
  datatype Owner = NoOwner | OwnedBy(d: Dance)

  /** The first key at or after enum position `i` whose base is `c`. */
  function OwnerFrom(c: Code, i: nat): (r: Owner)
    requires i <= DanceCount
    ensures r.OwnedBy? ==> KeyOf(r.d).base == c && i <= r.d as int
    ensures r.NoOwner? ==> forall d: Dance :: i <= d as int ==> KeyOf(d).base != c
    decreases DanceCount - i
  {
    if i == DanceCount then NoOwner
    else if KeyOf(i as Dance).base == c then OwnedBy(i as Dance)
    else OwnerFrom(c, i + 1)
  }

  /** The key table read backwards: the key whose base is `c`, if any. Since
      no two keys share a base, the owner is the one key with that base. */
  function BaseOwner(c: Code): (r: Owner)
    ensures forall d: Dance :: KeyOf(d).base == c <==> r == OwnedBy(d)
    ensures r.NoOwner? <==> forall d: Dance :: KeyOf(d).base != c
  {
    var r := OwnerFrom(c, 0);
    assert forall d: Dance :: KeyOf(d).base == c ==> r == OwnedBy(d) by {
      forall d: Dance | KeyOf(d).base == c
        ensures r == OwnedBy(d)
      {
        OwnerFromFinds(d, 0);
      }
    }
    r
  }

  /** The search from any position up to a key's own finds that key. */
  lemma {:induction false} OwnerFromFinds(d: Dance, i: nat)
    requires i <= d as int
    ensures OwnerFrom(KeyOf(d).base, i) == OwnedBy(d)
    decreases d as int - i
  {
    var e := i as Dance;
    if KeyOf(e).base == KeyOf(d).base {
      BasesDistinct(d, e);
    } else {
      OwnerFromFinds(d, i + 1);
    }
  }

  /** Reading the table backwards from a key's base gives back the key. */
  lemma OwnerOfBase(d: Dance)
    ensures BaseOwner(KeyOf(d).base) == OwnedBy(d)
  {
    OwnerFromFinds(d, 0);
  }

  /** `td_tap_t`, without the `is_press_action` flag nothing reads. */
  datatype TdTap = TdTap(state: TdState)

  /** What one handler call leaves behind: the key's new state and the calls
      it made into the host, in order. */
  datatype HandlerResult = HandlerResult(tap: TdTap, events: seq<Event>)

  /** Output of a finished handler once the burst is classified as `s`. */
  function ResolvedOutput(key: DanceKey, s: TdState): seq<Event>
  {
    match s
    case TdSingleTap => [Tap(key.base)]
    case TdSingleHold => [Tap(key.hold)]
    case TdDoubleTap => [Tap(key.base), Tap(key.base)]
    case TdDoubleSingleTap => [Tap(key.base), Register(key.base)]
    case _ => []
  }

  /** `<key>_finished`: classify the burst, store the classification in the
      key's state and type what it stands for. */
  function Finished(key: DanceKey, b: Burst): (r: HandlerResult)
    ensures r.tap.state == CurDance(b) && r.tap.state != TdNone
    ensures b.count == 1 && Released(b) ==> r.events == [Tap(key.base)]
    ensures b.count == 1 && !Released(b) ==> r.events == [Tap(key.hold)]
    ensures b.count == 2 && !b.interrupted && !b.pressed ==> r.events == [Tap(key.base), Tap(key.base)]
    ensures b.count == 2 && b.interrupted ==> r.events == [Tap(key.base), Register(key.base)]
    ensures b.count == 2 && !b.interrupted && b.pressed ==> r.events == []
    ensures b.count != 1 && b.count != 2 ==> r.events == []
    ensures forall i :: 0 <= i < |r.events| ==> !r.events[i].Unregister? && !r.events[i].BootloaderJump?
    ensures forall c :: NetHeld(r.events, c) == (if c == key.base && r.tap.state == TdDoubleSingleTap then 1 else 0)
  {
    var s := CurDance(b);
    var out := ResolvedOutput(key, s);
    assert forall c :: NetHeld(out, c) == (if c == key.base && s == TdDoubleSingleTap then 1 else 0) by {
      forall c ensures NetHeld(out, c) == (if c == key.base && s == TdDoubleSingleTap then 1 else 0) {
        if s == TdDoubleSingleTap {
          assert out[1..] == [Register(key.base)];
          assert out[1..][1..] == [];
          assert NetHeld(out[1..], c) == HoldDelta(Register(key.base), c);
        } else {
          NetHeldWithoutHolds(out, c);
        }
      }
    }
    HandlerResult(TdTap(s), out)
  }

  /** `<key>_reset`: release the base key if the finished handler left it
      registered, then return the key to the idle state. */
  function Reset(key: DanceKey, tap: TdTap): (r: HandlerResult)
    ensures r.tap.state == TdNone
    ensures r.events == (if tap.state == TdDoubleSingleTap then [Unregister(key.base)] else [])
    ensures forall c :: NetHeld(r.events, c) == (if c == key.base && tap.state == TdDoubleSingleTap then -1 else 0)
  {
    var out := if tap.state == TdDoubleSingleTap then [Unregister(key.base)] else [];
    assert forall c :: NetHeld(out, c) == (if c == key.base && tap.state == TdDoubleSingleTap then -1 else 0) by {
      forall c ensures NetHeld(out, c) == (if c == key.base && tap.state == TdDoubleSingleTap then -1 else 0) {
        if tap.state == TdDoubleSingleTap {
          assert out[1..] == [];
        }
      }
    }
    HandlerResult(TdTap(TdNone), out)
  }

  /** One burst, resolved and then reset: whatever the finished handler
      registered the reset handler releases, never before it was registered,
      and the key is idle again. */
  lemma FinishedThenResetBalanced(key: DanceKey, b: Burst, c: Code)
    ensures var f := Finished(key, b);
            var z := Reset(key, f.tap);
            && NetHeld(f.events + z.events, c) == 0
            && NetHeld(f.events, c) >= 0
            && z.tap.state == TdNone
  {
    var f := Finished(key, b);
    var z := Reset(key, f.tap);
    NetHeldAppend(f.events, z.events, c);
  }

  /** The per-key statics: one state for every tap-dance key, indexed by
      the key's enum value. */
  type KeyStates = s: seq<TdTap> | |s| == DanceCount
    witness AllIdle()

  /** Every key idle, as at power-on. */
  function AllIdle(): (s: seq<TdTap>)
    ensures |s| == DanceCount
    ensures forall d: Dance :: s[d].state == TdNone
  {
    seq(DanceCount, _ => TdTap(TdNone))
  }

  /** The result of a handler of the layout: all keys' states and the output. */
  datatype LayoutResult = LayoutResult(states: KeyStates, events: seq<Event>)

  /** The finished handler registered for key `d`. It changes only `d`'s state. */
  function DanceFinished(ks: KeyStates, d: Dance, b: Burst): (r: LayoutResult)
    ensures r.states[d].state == CurDance(b)
    ensures r.events == ResolvedOutput(KeyOf(d), CurDance(b))
    ensures forall e: Dance :: e != d ==> r.states[e] == ks[e]
  {
    var h := Finished(KeyOf(d), b);
    LayoutResult(ks[d := h.tap], h.events)
  }

  /** The reset handler registered for key `d`. It changes only `d`'s state. */
  function DanceReset(ks: KeyStates, d: Dance): (r: LayoutResult)
    ensures r.states[d].state == TdNone
    ensures r.events == (if ks[d].state == TdDoubleSingleTap then [Unregister(KeyOf(d).base)] else [])
    ensures forall e: Dance :: e != d ==> r.states[e] == ks[e]
  {
    var h := Reset(KeyOf(d), ks[d]);
    LayoutResult(ks[d := h.tap], h.events)
  }
}
