/** Remote-control commands as the sketch sees them: the 32-bit value the IR
    decoder reports, and "no command" when nothing was decoded this time. */
module IrCommand {

  /** A decode that may or may not have produced a command. */
  datatype Option<+T> = None | Some(value: T)

  /** The value field of a decode result: an unsigned 32-bit integer. */
  type Code = c: int | 0 <= c < 0x1_0000_0000

  /** Mode-selection codes, one per colour channel. */
  const RedCode: Code := 0xEF10_10EF
  const GreenCode: Code := 0xEF10_8877
  const BlueCode: Code := 0xEF10_48B7

  /** Brightness codes. */
  const BrightnessUpCode: Code := 0xEF11_20EF
  const BrightnessDownCode: Code := 0xCF10_10DF

  datatype Channel = Red | Green | Blue

  /** The channel a mode-selection code refers to, if it is one. */
  function ChannelOf(c: Code): (ch: Option<Channel>)
    ensures ch == Some(Red) <==> c == RedCode
    ensures ch == Some(Green) <==> c == GreenCode
    ensures ch == Some(Blue) <==> c == BlueCode
  {
    if c == RedCode then Some(Red)
    else if c == GreenCode then Some(Green)
    else if c == BlueCode then Some(Blue)
    else None
  }

  /** The mode number a channel's code selects. */
  function ModeNumber(ch: Channel): int
  {
    match ch
    case Red => 0
    case Green => 1
    case Blue => 2
  }
}
