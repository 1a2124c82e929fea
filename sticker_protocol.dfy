/**
 * The frame parser of the joysticker package: a message from the console becomes a response
 * holding its subcommand and everything from the subcommand byte on, or an error.
 */
module StickerProtocol {
  import opened Wrappers
  import SR = StickerReport
  import LO = LegacyOutput

  /** `responseDataLength`: the shortest message the parser accepts. */
  const ResponseDataLength: nat := 50

  datatype Error = ErrBadLengthData | ErrMalformedData | ErrUnknownSubcommand

  /** `SwitchResponse`: the subcommand and the message from the subcommand byte on. */
  datatype SwitchResponse = SwitchResponse(cmd: bv8, data: seq<bv8>)

  /**
   * `NewSwitchResponse`: a short message, then a bad header, then an undeclared subcommand are
   * errors, with no response; any longer message is accepted, and byte 1 is never looked at.
   */
  function NewSwitchResponse(msg: seq<bv8>): (r: Result<SwitchResponse, Error>)
    ensures r == Failure(ErrBadLengthData) <==> |msg| < ResponseDataLength
    ensures r == Failure(ErrMalformedData) <==> |msg| >= ResponseDataLength && msg[0] != 0xA2
    ensures r == Failure(ErrUnknownSubcommand) <==>
      |msg| >= ResponseDataLength && msg[0] == 0xA2 && msg[11] !in SR.Subcommands
    ensures r.Success? <==> |msg| >= ResponseDataLength && msg[0] == 0xA2 && msg[11] in SR.Subcommands
    ensures r.Success? ==>
      && |r.value.data| == |msg| - 11 && msg[..11] + r.value.data == msg
      && r.value.cmd == msg[11] && r.value.data[0] == r.value.cmd
  {
    if |msg| < ResponseDataLength then Failure(ErrBadLengthData)
    else if msg[0] != 0xA2 then Failure(ErrMalformedData)
    else
      var cmd := msg[11];
      match cmd
      case 0x02 | 0x03 | 0x04 | 0x08 | 0x10 | 0x21 | 0x22 | 0x30 | 0x40 | 0x48 =>
        Success(SwitchResponse(cmd, msg[11..]))
      case _ => Failure(ErrUnknownSubcommand)
  }

  /** The report id in byte 1 does not affect the outcome or the response. */
  lemma ReportIdIgnored(msg: seq<bv8>, id: bv8)
    requires |msg| > 1
    ensures NewSwitchResponse(msg[1 := id]) == NewSwitchResponse(msg)
  {
    var m := msg[1 := id];
    if |msg| >= ResponseDataLength {
      assert m[11..] == msg[11..];
    }
  }

  /** Bytes past the fiftieth change only the response's data, never whether the message is accepted. */
  lemma TrailingBytesOnlyExtendData(msg: seq<bv8>, extra: seq<bv8>)
    requires |msg| >= ResponseDataLength
    ensures NewSwitchResponse(msg + extra).Success? <==> NewSwitchResponse(msg).Success?
    ensures NewSwitchResponse(msg).Success? ==>
      NewSwitchResponse(msg + extra).value.data == NewSwitchResponse(msg).value.data + extra
  {
    var m := msg + extra;
    assert m[0] == msg[0] && m[11] == msg[11];
    assert m[11..] == msg[11..] + extra;
  }

  /**
   * A `RumbleAndSubcommand` frame the package-root joycontrol parser accepts yields a response
   * whose data is the subcommand byte followed by that parser's subcommand data.
   */
  lemma LegacyFramesRespond(o: seq<bv8>)
    requires LO.Validate(o) == Pass && o[1] == LO.RumbleAndSubcommand
    ensures NewSwitchResponse(o) == Success(SwitchResponse(LO.GetSubcommand(o), [o[11]] + LO.GetSubcommandData(o)))
  {
    assert o[11..] == [o[11]] + o[12..];
  }
}
