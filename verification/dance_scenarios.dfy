/**
 Worked bursts on individual keys of the layout.
 */
module DanceScenarios {
  import opened Codes
  import opened Classify
  import opened TapDance

  /** Q pressed and released once within the tapping term, uninterrupted:
      one tap of Q, and the reset emits nothing. */
  lemma QSingleTap(ks: KeyStates)
    ensures var f := DanceFinished(ks, QExclam, Burst(1, false, false));
            && f.states[QExclam].state == TdSingleTap
            && f.events == [Tap(Plain(Q))]
            && DanceReset(f.states, QExclam).events == []
  {
  }

  /** Q held past the tapping term: one `!` (shifted 1). */
  lemma QSingleHold(ks: KeyStates)
    ensures DanceFinished(ks, QExclam, Burst(1, false, true)).events == [Tap(Shifted(N1))]
  {
  }

  /** Q tapped, then pressed again and still down when resolved: double hold,
      which this layout leaves without output. */
  lemma QDoubleHoldIsSilent(ks: KeyStates)
    ensures var f := DanceFinished(ks, QExclam, Burst(2, false, true));
            && f.states[QExclam].state == TdDoubleHold
            && f.events == []
            && DanceReset(f.states, QExclam).events == []
  {
  }

  /** Q tapped, then pressed again and interrupted by another key: Q is typed
      and then held, and the reset releases it. */
  lemma QDoubleSingleTap(ks: KeyStates)
    ensures var f := DanceFinished(ks, QExclam, Burst(2, true, true));
            var z := DanceReset(f.states, QExclam);
            && f.events == [Tap(Plain(Q)), Register(Plain(Q))]
            && z.events == [Unregister(Plain(Q))]
            && z.states[QExclam].state == TdNone
  {
  }

  /** Four presses in one burst are not classified and type nothing. */
  lemma FourPressesSwallowed(ks: KeyStates, d: Dance, interrupted: bool, pressed: bool)
    ensures var f := DanceFinished(ks, d, Burst(4, interrupted, pressed));
            && f.states[d].state == TdUnknown
            && f.events == []
            && DanceReset(f.states, d).events == []
  {
  }

  /** M and H type their hold symbols unshifted; L's `?` is shifted slash. */
  lemma UnshiftedHoldSymbols(ks: KeyStates)
    ensures DanceFinished(ks, MSlash, Burst(1, false, true)).events == [Tap(Plain(Slsh))]
    ensures DanceFinished(ks, HMinus, Burst(1, false, true)).events == [Tap(Plain(Mins))]
    ensures DanceFinished(ks, LQuestion, Burst(1, false, true)).events == [Tap(Shifted(Slsh))]
  {
  }
}
