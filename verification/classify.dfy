/**
 Gesture classification: the decision table `cur_dance` applies to the burst
 summary the QMK tap-dance engine hands to every handler.
 */
module Classify {

  /** `td_state_t`: the resolved gesture of one burst, or `TdNone` between bursts. */
  datatype TdState =
    | TdNone
    | TdUnknown
    | TdSingleTap
    | TdSingleHold
    | TdDoubleTap
    | TdDoubleHold
    | TdDoubleSingleTap  // a tap, then the key pressed again and interrupted
    | TdTripleTap
    | TdTripleHold

  /** The fields of the engine's `tap_dance_state_t` that the classifier reads:
      presses in the burst, whether another key interrupted it, and whether the
      key is still down when the burst is resolved. */
  datatype Burst = Burst(count: nat, interrupted: bool, pressed: bool)

  /** True when the burst ended as taps: it was interrupted or the key is up. */
  predicate Released(b: Burst)
  {
    b.interrupted || !b.pressed
  }

  /** The gesture table, one row per state, independent of how `CurDance`
      orders its tests: which bursts each state stands for. */
  predicate Describes(s: TdState, b: Burst)
  {
    match s
    case TdNone => false
    case TdUnknown => b.count != 1 && b.count != 2 && b.count != 3
    case TdSingleTap => b.count == 1 && Released(b)
    case TdSingleHold => b.count == 1 && !Released(b)
    case TdDoubleSingleTap => b.count == 2 && b.interrupted
    case TdDoubleHold => b.count == 2 && !b.interrupted && b.pressed
    case TdDoubleTap => b.count == 2 && !b.interrupted && !b.pressed
    case TdTripleTap => b.count == 3 && Released(b)
    case TdTripleHold => b.count == 3 && !Released(b)
  }

  /** `cur_dance`: classify a burst. Total; never yields the idle state. */
  function CurDance(b: Burst): (r: TdState)
    ensures Describes(r, b)
    ensures r != TdNone
    ensures r == TdUnknown <==> b.count == 0 || b.count >= 4
    ensures b.count == 2 && b.interrupted ==> r == TdDoubleSingleTap
  {
    if b.count == 1 then
      if b.interrupted || !b.pressed then TdSingleTap else TdSingleHold
    else if b.count == 2 then
      if b.interrupted then TdDoubleSingleTap
      else if b.pressed then TdDoubleHold
      else TdDoubleTap
    else if b.count == 3 then
      if b.interrupted || !b.pressed then TdTripleTap else TdTripleHold
    else TdUnknown
  }

  /** The table rows do not overlap: a burst is described by one state at most. */
  lemma DescribesFunctional(s: TdState, t: TdState, b: Burst)
    requires Describes(s, b) && Describes(t, b)
    ensures s == t
  {
  }

  /** `CurDance` picks exactly the table's row: both directions. */
  lemma CurDanceExact(b: Burst, s: TdState)
    ensures CurDance(b) == s <==> Describes(s, b)
  {
    if Describes(s, b) {
      DescribesFunctional(s, CurDance(b), b);
    }
  }

  /** Whether a classification is the "hold" variant of its press count. */
  predicate IsHold(s: TdState)
  {
    s == TdSingleHold || s == TdDoubleHold || s == TdTripleHold
  }

  /** For one and three presses the tap and hold variants split exactly on
      `interrupted || !pressed`; `pressed` alone never makes a hold once the
      burst was interrupted. */
  lemma TapOrHold(b: Burst)
    requires b.count == 1 || b.count == 3
    ensures IsHold(CurDance(b)) <==> !Released(b)
    ensures b.interrupted ==> !IsHold(CurDance(b))
  {
  }
}
