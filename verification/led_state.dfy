/** The sketch's global variables as one immutable record, and the two
    SetRGBColor overloads that turn it into the triple handed to analogWrite. */
module LedState {

  /** One value per colour channel; used both for the stored channel values
      and for the values written to the three PWM pins. */
  datatype Rgb = Rgb(red: int, green: int, blue: int)

  /** The global variables of the sketch (the pacing delay is left out).
      Field names follow the source, including its spelling of brightnesLimit. */
  datatype State = State(
    mode: int,
    fadeValue: int,
    brightnesLimit: int,
    redEnabled: bool,
    greenEnabled: bool,
    blueEnabled: bool,
    redValue: int,
    greenValue: int,
    blueValue: int,
    rainbowMode: int)
  {
    /** The stored channel values. */
    function Colors(): Rgb {
      Rgb(redValue, greenValue, blueValue)
    }

    /** Total intensity over the three channels. */
    function ChannelSum(): int {
      redValue + greenValue + blueValue
    }
  }

  /** The values the globals hold at power-up. */
  const Initial: State := State(0, 0, 0, false, false, false, 255, 255, 255, 0)

  /** `value * flag` in C++: the bool operand is promoted to 0 or 1. */
  function Gate(value: int, flag: bool): (w: int)
    ensures flag ==> w == value
    ensures !flag ==> w == 0
  {
    value * (if flag then 1 else 0)
  }

  /** What the no-argument SetRGBColor overload writes: every channel,
      including green and blue, is multiplied by redEnabled. */
  function Output(s: State): (o: Rgb)
    ensures s.redEnabled ==> o == s.Colors()
    ensures !s.redEnabled ==> o == Rgb(0, 0, 0)
  {
    Rgb(Gate(s.redValue, s.redEnabled),
        Gate(s.greenValue, s.redEnabled),
        Gate(s.blueValue, s.redEnabled))
  }

  /** The new globals and the triple written to the pins. */
  datatype Written = Written(state: State, out: Rgb)

  /** The three-argument SetRGBColor overload: store the channel values, then
      write them gated as in Output. */
  function SetRGBColor(s: State, red: int, green: int, blue: int): (w: Written)
    ensures w.state.Colors() == Rgb(red, green, blue)
    ensures w.state == s.(redValue := w.state.redValue,
                          greenValue := w.state.greenValue,
                          blueValue := w.state.blueValue)
    ensures w.out == (if s.redEnabled then Rgb(red, green, blue) else Rgb(0, 0, 0))
  {
    var t := s.(redValue := red, greenValue := green, blueValue := blue);
    Written(t, Output(t))
  }

  /** LedOn: store full white on every channel. The LEDs are lit only if
      redEnabled holds; otherwise the pins receive (0,0,0). */
  function LedOn(s: State): (w: Written)
    ensures w.state.Colors() == Rgb(255, 255, 255)
    ensures w.state == s.(redValue := w.state.redValue,
                          greenValue := w.state.greenValue,
                          blueValue := w.state.blueValue)
    ensures s.redEnabled ==> w.out == Rgb(255, 255, 255)
    ensures !s.redEnabled ==> w.out == Rgb(0, 0, 0)
  {
    SetRGBColor(s, 255, 255, 255)
  }

  /** The triple SetRGBColor writes is the one the no-argument overload
      would write for the state it leaves behind, and storing values twice
      keeps only the second. */
  lemma SetRGBColorThenOutput(s: State, r1: int, g1: int, b1: int, r2: int, g2: int, b2: int)
    ensures SetRGBColor(s, r1, g1, b1).out == Output(SetRGBColor(s, r1, g1, b1).state)
    ensures SetRGBColor(SetRGBColor(s, r1, g1, b1).state, r2, g2, b2) == SetRGBColor(s, r2, g2, b2)
  {
  }

  /** Neither greenEnabled nor blueEnabled has any influence on what is
      written: only redEnabled gates the output. */
  lemma OutputIgnoresGreenAndBlueFlags(s: State, green: bool, blue: bool)
    ensures Output(s.(greenEnabled := green, blueEnabled := blue)) == Output(s)
  {
  }

  /** A concrete state showing the gating quirk: green is enabled and at full
      intensity, yet the green pin receives 0. */
  lemma GreenFlagIgnored()
    ensures var s := Initial.(greenEnabled := true);
            s.greenValue == 255 && Output(s).green == 0
  {
  }

  /** The evidently intended output: each channel gated by its own flag. */
  function OutputIntended(s: State): (o: Rgb)
    ensures o.red == (if s.redEnabled then s.redValue else 0)
    ensures o.green == (if s.greenEnabled then s.greenValue else 0)
    ensures o.blue == (if s.blueEnabled then s.blueValue else 0)
  {
    Rgb(Gate(s.redValue, s.redEnabled),
        Gate(s.greenValue, s.greenEnabled),
        Gate(s.blueValue, s.blueEnabled))
  }

  /** The two gatings agree exactly when the flags would not tell them apart:
      whenever green and blue are enabled iff red is, or the values they gate
      are zero anyway. */
  lemma OutputAgreesWithIntended(s: State)
    ensures Output(s) == OutputIntended(s) <==>
            (s.greenEnabled == s.redEnabled || s.greenValue == 0) &&
            (s.blueEnabled == s.redEnabled || s.blueValue == 0)
  {
  }
}
