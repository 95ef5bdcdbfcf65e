/** Command handling: ModeSelect, SetBrightness and Reset over the globals. */
module Controller {
  import opened IrCommand
  import opened LedState

  /** ModeSelect: a channel code selects that channel's mode number and
      negates that channel's enabled flag; any other code changes nothing. */
  function ModeSelect(s: State, c: Code): (t: State)
    ensures t.Colors() == s.Colors()
    ensures t == s.(mode := t.mode, redEnabled := t.redEnabled,
                    greenEnabled := t.greenEnabled, blueEnabled := t.blueEnabled)
    ensures t.redEnabled == (s.redEnabled != (c == RedCode))
    ensures t.greenEnabled == (s.greenEnabled != (c == GreenCode))
    ensures t.blueEnabled == (s.blueEnabled != (c == BlueCode))
    ensures c == RedCode ==> t.mode == 0
    ensures c == GreenCode ==> t.mode == 1
    ensures c == BlueCode ==> t.mode == 2
    ensures c !in {RedCode, GreenCode, BlueCode} ==> t == s
  {
    match ChannelOf(c)
    case Some(Red) => s.(mode := ModeNumber(Red), redEnabled := !s.redEnabled)
    case Some(Green) => s.(mode := ModeNumber(Green), greenEnabled := !s.greenEnabled)
    case Some(Blue) => s.(mode := ModeNumber(Blue), blueEnabled := !s.blueEnabled)
    case None => s
  }

  /** Selecting with the same code twice gives every enabled flag back its
      original value, and leaves the mode where one selection puts it. */
  lemma ModeSelectTwice(s: State, c: Code)
    ensures var t := ModeSelect(ModeSelect(s, c), c);
            t.redEnabled == s.redEnabled && t.greenEnabled == s.greenEnabled &&
            t.blueEnabled == s.blueEnabled && t.Colors() == s.Colors()
    ensures ModeSelect(ModeSelect(s, c), c).mode == ModeSelect(s, c).mode
  {
  }

  /** As written, the green and blue codes have no visible effect: the flag
      they negate gates nothing. */
  lemma ChannelCodesLeaveOutputUnchanged(s: State)
    ensures Output(ModeSelect(s, GreenCode)) == Output(s)
    ensures Output(ModeSelect(s, BlueCode)) == Output(s)
  {
  }

  /** With the corrected gating, each channel code switches exactly its own
      channel's output between off and the stored value. */
  lemma ChannelCodeTogglesOwnIntendedOutput(s: State)
    ensures var o, p := OutputIntended(s), OutputIntended(ModeSelect(s, RedCode));
            p == o.(red := if s.redEnabled then 0 else s.redValue)
    ensures var o, p := OutputIntended(s), OutputIntended(ModeSelect(s, GreenCode));
            p == o.(green := if s.greenEnabled then 0 else s.greenValue)
    ensures var o, p := OutputIntended(s), OutputIntended(ModeSelect(s, BlueCode));
            p == o.(blue := if s.blueEnabled then 0 else s.blueValue)
  {
  }

  /** Two selections in either order leave the same flags; only the mode,
      which the later one sets, can differ. */
  lemma ModeSelectFlagsCommute(s: State, c: Code, d: Code)
    ensures ModeSelect(ModeSelect(s, c), d) ==
            ModeSelect(ModeSelect(s, d), c).(mode := ModeSelect(ModeSelect(s, c), d).mode)
  {
  }

  /** SetBrightness: the up code adds 25 to brightnesLimit, the down code
      subtracts 25, with no clamping; nothing else changes. */
  function SetBrightness(s: State, c: Code): (t: State)
    ensures t == s.(brightnesLimit := t.brightnesLimit)
    ensures c == BrightnessUpCode ==> t.brightnesLimit == s.brightnesLimit + 25
    ensures c == BrightnessDownCode ==> t.brightnesLimit == s.brightnesLimit - 25
    ensures c != BrightnessUpCode && c != BrightnessDownCode ==> t == s
  {
    if c == BrightnessUpCode then s.(brightnesLimit := s.brightnesLimit + 25)
    else if c == BrightnessDownCode then s.(brightnesLimit := s.brightnesLimit - 25)
    else s
  }

  /** Up followed by down, or down followed by up, is the identity. */
  lemma BrightnessUpDownCancel(s: State)
    ensures SetBrightness(SetBrightness(s, BrightnessUpCode), BrightnessDownCode) == s
    ensures SetBrightness(SetBrightness(s, BrightnessDownCode), BrightnessUpCode) == s
  {
  }

  /** The same brightness code received n times in a row. */
  function RepeatBrightness(s: State, c: Code, n: nat): State
    decreases n
  {
    if n == 0 then s else RepeatBrightness(SetBrightness(s, c), c, n - 1)
  }

  /** No clamping: n up codes raise the limit by 25 n and n down codes lower
      it by 25 n, whatever the starting value. */
  lemma {:induction false} RepeatedBrightnessIsUnclamped(s: State, n: nat)
    ensures RepeatBrightness(s, BrightnessUpCode, n) == s.(brightnesLimit := s.brightnesLimit + 25 * n)
    ensures RepeatBrightness(s, BrightnessDownCode, n) == s.(brightnesLimit := s.brightnesLimit - 25 * n)
    decreases n
  {
    if n > 0 {
      RepeatedBrightnessIsUnclamped(SetBrightness(s, BrightnessUpCode), n - 1);
      RepeatedBrightnessIsUnclamped(SetBrightness(s, BrightnessDownCode), n - 1);
    }
  }

  /** Outcome of Reset: whether a command was pending, the new globals, and
      the triple written to the pins if any. */
  datatype ResetResult = ResetResult(received: bool, state: State, out: Option<Rgb>)

  /** The baseline Reset restores, for a given mode: full white, all flags
      off, no brightness offset, fade value 0, rainbow phase -1. */
  function Baseline(mode: int): State
  {
    State(mode, 0, 0, false, false, false, 255, 255, 255, -1)
  }

  /** Reset: with no pending command, report false and change nothing.
      With one, store full white (writing it gated by the OLD redEnabled),
      clear the flags, brightness, fade value and rainbow phase, keep the
      mode, then hand the command to ModeSelect. */
  function Reset(s: State, cmd: Option<Code>): (r: ResetResult)
    ensures r.received <==> cmd.Some?
    ensures cmd.None? ==> r.state == s && r.out == None
    ensures cmd.Some? ==> r.out == Some(if s.redEnabled then Rgb(255, 255, 255) else Rgb(0, 0, 0))
    ensures cmd.Some? ==>
              r.state.Colors() == Rgb(255, 255, 255) && r.state.brightnesLimit == 0 &&
              r.state.fadeValue == 0 && r.state.rainbowMode == -1
    ensures cmd.Some? ==>
              r.state.redEnabled == (cmd.value == RedCode) &&
              r.state.greenEnabled == (cmd.value == GreenCode) &&
              r.state.blueEnabled == (cmd.value == BlueCode)
    ensures cmd.Some? && cmd.value !in {RedCode, GreenCode, BlueCode} ==> r.state.mode == s.mode
    ensures cmd.Some? ==> r.state == ModeSelect(Baseline(s.mode), cmd.value)
  {
    match cmd
    case None => ResetResult(false, s, None)
    case Some(c) =>
      var w := SetRGBColor(s, 255, 255, 255);
      ResetResult(true, ModeSelect(Baseline(w.state.mode), c), Some(w.out))
  }

  /** Reset forgets everything but the mode: two states with the same mode
      reset to the same state under the same command. */
  lemma ResetForgetsHistory(s1: State, s2: State, c: Code)
    requires s1.mode == s2.mode
    ensures Reset(s1, Some(c)).state == Reset(s2, Some(c)).state
  {
  }

  /** Resetting twice with the same command gives the state one reset gives. */
  lemma ResetIdempotent(s: State, c: Code)
    ensures Reset(Reset(s, Some(c)).state, Some(c)).state == Reset(s, Some(c)).state
  {
  }
}
