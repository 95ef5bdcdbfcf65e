# RGB LED strip IR controller — Dafny model

This project models the integer state machine of the Arduino sketch
`src/RgbLedStripIRController.cpp`, which drives a three-channel LED strip
from an infrared remote. The sketch keeps its state in global variables:
`mode`, `fadeValue`, `brightnesLimit`, the flags `redEnabled`,
`greenEnabled` and `blueEnabled`, the channel values `redValue`,
`greenValue` and `blueValue`, and the rainbow phase `rainbowMode`. The
model turns these into one immutable record, `LedState.State`. Each
operation of the sketch becomes a pure function from the old record to the
new one:

- `ModeSelect`: a channel code picks mode 0, 1 or 2 and negates that channel's enabled flag.
- `SetBrightness`: moves `brightnesLimit` up or down by 25, with no clamping.
- `Reset`: restores the baseline (full white, flags off, phase -1, zero brightness offset and fade value, mode kept), then hands the pending command to `ModeSelect`.
- `RainbowTick`: the rainbow animation. It has a start phase -1 and three phases that each move 5 units of intensity from one channel to the next.
- `SetRGBColor`, `Output` and `LedOn`: the triple written to the three PWM pins.

Inputs and outputs become values:

- A decoded IR command is an `Option<Code>` argument. `None` means nothing was decoded.
- What `analogWrite` would receive is returned as an `Rgb` triple.
- Integers are unbounded.

Modules:

- `IrCommand`: command codes.
- `LedState`: the state record and the output.
- `Controller`: `ModeSelect`, `SetBrightness` and `Reset`.
- `RainbowAnimation`: the phase machine.

The sketch does not compile as written. The model follows its evident intent:

- `case 1;` in `Rainbow` is read as `case 1:`.
- The assignment to the undeclared `speed` in `Reset` is dropped. It only sets pacing.

The model keeps the code's quirks:

- All three outputs are multiplied by `redEnabled`.
- Phase 2 of the rainbow ends on a test of `blueValue`.
- No channel value or brightness is ever clamped.

`RainbowTick` takes a `Reading` argument:

- `AsWritten`: the sketch's phase-2 guard.
- `Intended`: the corrected guard, which tests red. See Findings.

Every other part of the model is the same for both readings.

## Model

| member | source | states |
|---|---|---|
| IrCommand.ChannelOf | src/RgbLedStripIRController.cpp:78-97 | exactly the codes 0xEF1010EF, 0xEF108877 and 0xEF1048B7 name the red, green and blue channel; every other code names none |
| LedState.Output | src/RgbLedStripIRController.cpp:103-108 | the no-argument SetRGBColor writes the stored triple when redEnabled holds and (0,0,0) otherwise, whatever greenEnabled and blueEnabled are |
| LedState.SetRGBColor | src/RgbLedStripIRController.cpp:111-120 | the three-argument overload stores exactly the given values, changes no other global, and writes them, or (0,0,0) when redEnabled is false |
| LedState.LedOn | src/RgbLedStripIRController.cpp:153-157 | LedOn stores full white and changes nothing else; despite "always on", it writes full white only when redEnabled holds and (0,0,0) otherwise |
| LedState.SetRGBColorThenOutput | src/RgbLedStripIRController.cpp:103-120 | the two overloads agree: what the three-argument form writes is what the no-argument form writes for the state it leaves, and a second store overrides the first |
| LedState.OutputIgnoresGreenAndBlueFlags | src/RgbLedStripIRController.cpp:105-107 | changing greenEnabled or blueEnabled never changes the written triple |
| LedState.GreenFlagIgnored | src/RgbLedStripIRController.cpp:105-107 | a state with green enabled at 255 but red disabled writes 0 to the green pin |
| LedState.OutputIntended | src/RgbLedStripIRController.cpp:103-108 | corrected output: each channel is gated by its own enabled flag |
| LedState.OutputAgreesWithIntended | src/RgbLedStripIRController.cpp:103-108 | written and corrected outputs agree iff green and blue are each enabled exactly when red is, or hold 0 |
| Controller.ModeSelect | src/RgbLedStripIRController.cpp:76-101 | the red, green and blue codes set mode 0, 1 and 2 and negate only their own flag; colours, brightness, fade value and phase never change; any other code changes nothing |
| Controller.ModeSelectTwice | src/RgbLedStripIRController.cpp:80-93 | the same code twice restores every flag (an involution on flags) and leaves the mode one selection sets |
| Controller.ChannelCodesLeaveOutputUnchanged | src/RgbLedStripIRController.cpp:85-93 | as written, the green and blue codes never change the written triple, because their flags gate nothing |
| Controller.ChannelCodeTogglesOwnIntendedOutput | src/RgbLedStripIRController.cpp:80-93 | with the corrected gating, each channel code switches its own channel's output between off and its stored value and leaves the other two channels as they were |
| Controller.ModeSelectFlagsCommute | src/RgbLedStripIRController.cpp:80-93 | two selections in either order give the same state apart from the mode |
| Controller.SetBrightness | src/RgbLedStripIRController.cpp:160-170 | the up code adds 25, the down code subtracts 25, any other code changes nothing, and no other global changes |
| Controller.BrightnessUpDownCancel | src/RgbLedStripIRController.cpp:164-168 | up then down, and down then up, are the identity |
| Controller.RepeatedBrightnessIsUnclamped | src/RgbLedStripIRController.cpp:164-168 | n up codes add exactly 25 n and n down codes subtract exactly 25 n, from any start, so the limit has no bound |
| Controller.Reset | src/RgbLedStripIRController.cpp:128-151 | with no command: returns false and changes nothing. With a command: returns true and leaves colours (255,255,255), brightness 0, fade 0 and phase -1. Exactly the flag of the command's channel is set. An unrecognised code keeps the mode. The new state is ModeSelect applied to the baseline that keeps the current mode. The write is gated by the OLD redEnabled |
| Controller.ResetForgetsHistory | src/RgbLedStripIRController.cpp:132-143 | states that share a mode reset to the same state under the same command |
| Controller.ResetIdempotent | src/RgbLedStripIRController.cpp:128-151 | resetting twice with the same command equals resetting once |
| RainbowAnimation.RainbowTick | src/RgbLedStripIRController.cpp:175-224 | a pending command delegates to Reset. Phase -1 enables all flags, stores and writes (255,0,0), and moves to phase 0. Phases 0, 1 and 2 move 5 between their channel pair, keep the channel sum and all other globals, and advance iff the guarded channel reaches 255 - brightnesLimit. Any other phase changes nothing and writes nothing |
| RainbowAnimation.RunPreservesSum | src/RgbLedStripIRController.cpp:196-221 | over any number of ticks in phases 0-2 the channel sum and every non-channel global except the phase stay fixed, and the phase stays in 0-2 |
| RainbowAnimation.RunFromSentinel | src/RgbLedStripIRController.cpp:187-194 | the first tick from phase -1 lands on all flags on, pure red, phase 0 |
| RainbowAnimation.Phase0Sweep | src/RgbLedStripIRController.cpp:196-204 | phase 0 with no brightness offset reaches pure green and phase 1 after the exact number of 5-unit steps left |
| RainbowAnimation.Phase1Sweep | src/RgbLedStripIRController.cpp:206-212 | phase 1 reaches pure blue and phase 2 after the exact number of steps left |
| RainbowAnimation.RedToBlue | src/RgbLedStripIRController.cpp:196-212 | 102 ticks from pure red in phase 0 reach pure blue in phase 2 |
| RainbowAnimation.AsWrittenPhase2NeverEnds | src/RgbLedStripIRController.cpp:213-221 | as written, phase 2 entered below the threshold never ends: red rises and blue falls by 5 per tick without bound |
| RainbowAnimation.AsWrittenRainbowLeavesRange | src/RgbLedStripIRController.cpp:187-221 | as written, 155 ticks from phase -1 are still in phase 2 with colours (260, 0, -5) |
| RainbowAnimation.Phase2SweepIntended | src/RgbLedStripIRController.cpp:213-221 | with the corrected guard, phase 2 reaches pure red and phase 0 after the exact number of steps left |
| RainbowAnimation.IntendedRainbowCycles | src/RgbLedStripIRController.cpp:172-221 | with the corrected guard, the animation returns exactly to pure red in phase 0 every 153 ticks |

## Left out

- `setup` and `loop`, `pinMode`, `Serial.begin` and `Serial.println` (including the "Undefined" message in ModeSelect), and `irrecv.enableIRIn`, `irrecv.decode` and `irrecv.resume` are hardware and IR-library I/O. A decode becomes the `Option<Code>` argument. `loop` itself calls only ModeSelect.
- `analogWrite` is a hardware side effect. Only the value passed to it is modelled. How the Arduino core treats values outside 0..255 is not part of this model.
- `delaySpeed` and the undeclared `speed` only set pacing and are dropped.
- `Play` has an empty body, so there is nothing to model.
- The `fadeValue` global is kept, but the sketch has no fade animation. Only Reset writes it.
- RainbowTick and SetBrightness: integers are unbounded. On an 8-bit AVR board `int` is 16 bits, and signed overflow is undefined behaviour in C++. That can happen after thousands of as-written phase-2 ticks or about 1300 brightness presses in one direction.
- The rainbow cycle lemmas cover a brightness offset of 0, the value Reset installs. With other offsets the phases end at different thresholds, and only the one-tick guards in RainbowTick describe them.

## Findings

| source | as written | input that shows it | evidently intended | confidence | as-written member | corrected member |
|---|---|---|---|---|---|---|
| src/RgbLedStripIRController.cpp:217 | phase 2 (blue falls, red rises) ends when blueValue reaches 255 - brightnesLimit | enter phase 2 at (0,0,255) with brightnesLimit 0: blue falls below the threshold at once, so the phase never ends, and after 52 ticks blue is -5 | end phase 2 when redValue reaches the threshold, returning to phase 0 | high, not executed | RainbowAnimation.AsWrittenRainbowLeavesRange | RainbowAnimation.IntendedRainbowCycles |
| src/RgbLedStripIRController.cpp:105-107 | every channel's output is multiplied by redEnabled | redEnabled false, greenEnabled true, greenValue 255: the green pin gets 0 | each channel multiplied by its own enabled flag | medium, not executed | LedState.GreenFlagIgnored | LedState.OutputIntended |

The main model keeps the as-written behaviour, because that is what the firmware does. The corrected definitions sit beside it: the `Intended` reading of `RainbowTick`, and `OutputIntended`. The intended property of each is proved.
