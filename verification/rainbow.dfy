/** The rainbow animation: a phase machine over rainbowMode (-1 start,
    0 red to green, 1 green to blue, 2 blue to red) that moves 5 units of
    intensity per tick between a pair of channels. */
module RainbowAnimation {
  import opened IrCommand
  import opened LedState
  import opened Controller

  /** Which guard ends phase 2: the code compares blueValue with the
      threshold; the comment describing the phases implies redValue. */
  datatype Reading = AsWritten | Intended

  /** The channel compared with the threshold when phase 2 ends. */
  function Phase2Watched(t: State, rd: Reading): int
  {
    match rd
    case AsWritten => t.blueValue
    case Intended => t.redValue
  }

  /** The state the first tick from phase -1 produces: all channels enabled,
      pure red, phase 0. */
  function Started(s: State): State
  {
    s.(redEnabled := true, greenEnabled := true, blueEnabled := true,
       redValue := 255, greenValue := 0, blueValue := 0, rainbowMode := 0)
  }

  /** Outcome of one call of Rainbow: the new globals and the triple written
      to the pins, if any. */
  datatype Tick = Tick(state: State, out: Option<Rgb>)

  /** One call of Rainbow. A pending command goes to Reset and ends the call.
      Otherwise phase -1 enables all channels and starts from pure red, and
      phases 0, 1, 2 move 5 units along their channel pair, write the output,
      and advance when the rising (phase 2 as written: the falling) channel
      reaches 255 - brightnesLimit. Any other phase does nothing. */
  function RainbowTick(s: State, cmd: Option<Code>, rd: Reading): (r: Tick)
    ensures cmd.Some? ==> r.state == Reset(s, cmd).state && r.out == Reset(s, cmd).out
    ensures cmd.None? && s.rainbowMode == -1 ==>
              r.state == Started(s) &&
              r.out == Some(Rgb(255, 0, 0))
    ensures cmd.None? && s.rainbowMode in {0, 1, 2} ==>
              r.state == s.(redValue := r.state.redValue, greenValue := r.state.greenValue,
                            blueValue := r.state.blueValue, rainbowMode := r.state.rainbowMode) &&
              r.state.ChannelSum() == s.ChannelSum() &&
              r.out == Some(Output(r.state))
    ensures cmd.None? && s.rainbowMode == 0 ==>
              r.state.redValue == s.redValue - 5 && r.state.greenValue == s.greenValue + 5 &&
              (r.state.rainbowMode == 1 <==> r.state.greenValue >= 255 - s.brightnesLimit) &&
              (r.state.rainbowMode == 0 <==> r.state.greenValue < 255 - s.brightnesLimit)
    ensures cmd.None? && s.rainbowMode == 1 ==>
              r.state.greenValue == s.greenValue - 5 && r.state.blueValue == s.blueValue + 5 &&
              (r.state.rainbowMode == 2 <==> r.state.blueValue >= 255 - s.brightnesLimit) &&
              (r.state.rainbowMode == 1 <==> r.state.blueValue < 255 - s.brightnesLimit)
    ensures cmd.None? && s.rainbowMode == 2 ==>
              r.state.blueValue == s.blueValue - 5 && r.state.redValue == s.redValue + 5 &&
              (r.state.rainbowMode == 0 <==> Phase2Watched(r.state, rd) >= 255 - s.brightnesLimit) &&
              (r.state.rainbowMode == 2 <==> Phase2Watched(r.state, rd) < 255 - s.brightnesLimit)
    ensures cmd.None? && s.rainbowMode !in {-1, 0, 1, 2} ==> r.state == s && r.out == None
  {
    var reset := Reset(s, cmd);
    if reset.received then Tick(reset.state, reset.out)
    else if s.rainbowMode == -1 then
      var enabled := s.(redEnabled := true, greenEnabled := true, blueEnabled := true);
      var w := SetRGBColor(enabled, 255, 0, 0);
      Tick(w.state.(rainbowMode := 0), Some(w.out))
    else if s.rainbowMode == 0 then
      var t := s.(redValue := s.redValue - 5, greenValue := s.greenValue + 5);
      var next := if t.greenValue >= 255 - t.brightnesLimit then 1 else 0;
      Tick(t.(rainbowMode := next), Some(Output(t)))
    else if s.rainbowMode == 1 then
      var t := s.(greenValue := s.greenValue - 5, blueValue := s.blueValue + 5);
      var next := if t.blueValue >= 255 - t.brightnesLimit then 2 else 1;
      Tick(t.(rainbowMode := next), Some(Output(t)))
    else if s.rainbowMode == 2 then
      var t := s.(blueValue := s.blueValue - 5, redValue := s.redValue + 5);
      var next := if Phase2Watched(t, rd) >= 255 - t.brightnesLimit then 0 else 2;
      Tick(t.(rainbowMode := next), Some(Output(t)))
    else
      Tick(s, None)
  }


  /** n calls of the animation with no command pending. */
  function Run(s: State, n: nat, rd: Reading): State
    decreases n
  {
    if n == 0 then s else Run(RainbowTick(s, None, rd).state, n - 1, rd)
  }

  /** Running a + b ticks is running a ticks, then b more. */
  lemma {:induction false} RunAdditive(s: State, a: nat, b: nat, rd: Reading)
    ensures Run(s, a + b, rd) == Run(Run(s, a, rd), b, rd)
    decreases a
  {
    if a > 0 {
      RunAdditive(RainbowTick(s, None, rd).state, a - 1, b, rd);
    }
  }

  /** While the animation is in one of its three moving phases it stays in
      them, keeps the channel sum, and touches nothing but the channel values
      and the phase, for any number of ticks. */
  lemma {:induction false} RunPreservesSum(s: State, n: nat, rd: Reading)
    requires s.rainbowMode in {0, 1, 2}
    ensures var t := Run(s, n, rd);
            t.ChannelSum() == s.ChannelSum() && t.rainbowMode in {0, 1, 2} &&
            t == s.(redValue := t.redValue, greenValue := t.greenValue,
                    blueValue := t.blueValue, rainbowMode := t.rainbowMode)
    decreases n
  {
    if n > 0 {
      RunPreservesSum(RainbowTick(s, None, rd).state, n - 1, rd);
    }
  }

  /** Phase 0 from (255 - 5k, 5k, 0) with no brightness offset reaches pure
      green and phase 1 after 51 - k ticks, on either reading. */
  lemma {:induction false} Phase0Sweep(s: State, k: nat, rd: Reading)
    requires s.rainbowMode == 0 && s.brightnesLimit == 0 && k < 51
    requires s.Colors() == Rgb(255 - 5 * k, 5 * k, 0)
    ensures Run(s, 51 - k, rd) == s.(redValue := 0, greenValue := 255, rainbowMode := 1)
    decreases 51 - k
  {
    var t := RainbowTick(s, None, rd).state;
    if k < 50 {
      assert t == s.(redValue := 255 - 5 * (k + 1), greenValue := 5 * (k + 1));
      Phase0Sweep(t, k + 1, rd);
    }
  }

  /** Phase 1 from (0, 255 - 5k, 5k) reaches pure blue and phase 2 after
      51 - k ticks, on either reading. */
  lemma {:induction false} Phase1Sweep(s: State, k: nat, rd: Reading)
    requires s.rainbowMode == 1 && s.brightnesLimit == 0 && k < 51
    requires s.Colors() == Rgb(0, 255 - 5 * k, 5 * k)
    ensures Run(s, 51 - k, rd) == s.(greenValue := 0, blueValue := 255, rainbowMode := 2)
    decreases 51 - k
  {
    var t := RainbowTick(s, None, rd).state;
    if k < 50 {
      assert t == s.(greenValue := 255 - 5 * (k + 1), blueValue := 5 * (k + 1));
      Phase1Sweep(t, k + 1, rd);
    }
  }

  /** Corrected phase 2 from (5k, 0, 255 - 5k) reaches pure red and phase 0
      after 51 - k ticks. */
  lemma {:induction false} Phase2SweepIntended(s: State, k: nat)
    requires s.rainbowMode == 2 && s.brightnesLimit == 0 && k < 51
    requires s.Colors() == Rgb(5 * k, 0, 255 - 5 * k)
    ensures Run(s, 51 - k, Intended) == s.(redValue := 255, blueValue := 0, rainbowMode := 0)
    decreases 51 - k
  {
    var t := RainbowTick(s, None, Intended).state;
    if k < 50 {
      assert t == s.(redValue := 5 * (k + 1), blueValue := 255 - 5 * (k + 1));
      Phase2SweepIntended(t, k + 1);
    }
  }

  /** As written, once phase 2 is entered below the threshold it is never
      left: blue falls and red rises by 5 per tick without bound. */
  lemma {:induction false} AsWrittenPhase2NeverEnds(s: State, n: nat)
    requires s.rainbowMode == 2 && s.blueValue < 260 - s.brightnesLimit
    ensures Run(s, n, AsWritten) ==
            s.(redValue := s.redValue + 5 * n, blueValue := s.blueValue - 5 * n)
    decreases n
  {
    if n > 0 {
      var t := RainbowTick(s, None, AsWritten).state;
      assert t == s.(redValue := s.redValue + 5, blueValue := s.blueValue - 5);
      AsWrittenPhase2NeverEnds(t, n - 1);
    }
  }

  /** The first tick from phase -1 is the start of the cycle. */
  lemma RunFromSentinel(s: State, n: nat, rd: Reading)
    requires s.rainbowMode == -1
    ensures Run(s, n + 1, rd) == Run(Started(s), n, rd)
  {
    assert RainbowTick(s, None, rd).state == Started(s);
  }

  /** Phases 0 and 1 in sequence: 102 ticks from pure red reach pure blue
      in phase 2, on either reading. */
  lemma {:induction false} RedToBlue(s: State, rd: Reading)
    requires s.rainbowMode == 0 && s.brightnesLimit == 0 && s.Colors() == Rgb(255, 0, 0)
    ensures Run(s, 102, rd) == s.(redValue := 0, blueValue := 255, rainbowMode := 2)
  {
    RunAdditive(s, 51, 51, rd);
    Phase0Sweep(s, 0, rd);
    Phase1Sweep(s.(redValue := 0, greenValue := 255, rainbowMode := 1), 0, rd);
  }

  /** Counterexample to the as-written rainbow: starting from phase -1 with
      no brightness offset, after 1 + 102 + 52 ticks the animation is still
      in phase 2 and blue has gone negative. */
  lemma {:induction false} AsWrittenRainbowLeavesRange(s: State)
    requires s.rainbowMode == -1 && s.brightnesLimit == 0
    ensures Run(s, 155, AsWritten).rainbowMode == 2
    ensures Run(s, 155, AsWritten).Colors() == Rgb(260, 0, -5)
  {
    var s0 := Started(s);
    RunFromSentinel(s, 154, AsWritten);
    RunAdditive(s0, 102, 52, AsWritten);
    RedToBlue(s0, AsWritten);
    AsWrittenPhase2NeverEnds(s0.(redValue := 0, blueValue := 255, rainbowMode := 2), 52);
  }

  /** Corrected rainbow: from phase -1 with no brightness offset, the first
      tick lands on pure red in phase 0, and every 153 ticks after that the
      state returns exactly to it. */
  lemma {:induction false} IntendedRainbowCycles(s: State)
    requires s.rainbowMode == -1 && s.brightnesLimit == 0
    ensures Run(s, 1, Intended) == Started(s)
    ensures Run(Started(s), 153, Intended) == Started(s)
  {
    var s0 := Started(s);
    RunFromSentinel(s, 0, Intended);
    RunAdditive(s0, 102, 51, Intended);
    RedToBlue(s0, Intended);
    Phase2SweepIntended(s0.(redValue := 0, blueValue := 255, rainbowMode := 2), 0);
  }
}
