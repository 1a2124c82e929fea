/**
 * The output-report parser of the package-root generation of joycontrol: four ordered
 * checks, the last of which looks at the subcommand of a `RumbleAndSubcommand` frame, and
 * the read-only getters.
 */
module LegacyOutput {
  import opened Wrappers
  import opened LegacyInput
  import RO = ReportOutput

  // Output report ids of this generation; 0x12 is not among them.
  const RumbleAndSubcommand: bv8 := 0x01
  const UpdateNFCPacket: bv8 := 0x03
  const RumbleOnly: bv8 := 0x10
  const RequestNFCData: bv8 := 0x11

  const OutputReportHeader: bv8 := 0xA2
  const OutputReportLength: nat := 50

  datatype Error = ErrBadLengthData | ErrMalformedData | ErrUnknownOutputId | ErrUnknownSubcommand

  /** `validate`: length, header, report id, then for `RumbleAndSubcommand` the subcommand. */
  function Validate(o: seq<bv8>): (r: Outcome<Error>)
    ensures r == Fail(ErrBadLengthData) <==> |o| != OutputReportLength
    ensures r == Fail(ErrMalformedData) <==> |o| == OutputReportLength && o[0] != OutputReportHeader
    ensures r == Fail(ErrUnknownOutputId) <==>
      |o| == OutputReportLength && o[0] == OutputReportHeader && o[1] !in {0x01, 0x03, 0x10, 0x11}
    ensures r == Fail(ErrUnknownSubcommand) <==>
      |o| == OutputReportLength && o[0] == OutputReportHeader && o[1] == 0x01 && o[11] !in Subcommands
    ensures r == Pass <==>
      && |o| == OutputReportLength && o[0] == OutputReportHeader && o[1] in {0x01, 0x03, 0x10, 0x11}
      && (o[1] == 0x01 ==> o[11] in Subcommands)
  {
    if |o| != OutputReportLength then Fail(ErrBadLengthData)
    else if o[0] != OutputReportHeader then Fail(ErrMalformedData)
    else
      var id := GetId(o);
      if id != RumbleAndSubcommand && id != RumbleOnly && id != RequestNFCData && id != UpdateNFCPacket then
        Fail(ErrUnknownOutputId)
      else if id == RumbleAndSubcommand && GetSubcommand(o) !in Subcommands then
        Fail(ErrUnknownSubcommand)
      else Pass
  }

  function GetId(o: seq<bv8>): (id: bv8)
    requires |o| > 1
    ensures id == o[1]
  {
    o[1]
  }

  function GetSubcommand(o: seq<bv8>): (s: bv8)
    requires |o| > 11
    ensures s == o[11]
  {
    o[11]
  }

  /** Everything after the subcommand byte. */
  function GetSubcommandData(o: seq<bv8>): (data: seq<bv8>)
    requires |o| >= 12
    ensures o[..12] + data == o
  {
    o[12..]
  }

  /** Only `RumbleAndSubcommand` frames have their subcommand checked: the other ids pass whatever byte 11 is. */
  lemma SubcommandCheckedOnlyForRumbleAndSubcommand(o: seq<bv8>, s: bv8)
    requires |o| == OutputReportLength && o[0] == OutputReportHeader && o[1] in {0x03, 0x10, 0x11}
    ensures Validate(o[11 := s]) == Pass
  {
  }

  /** The header is checked before the id and the subcommand, whatever bytes 1 and 11 hold. */
  lemma HeaderCheckedFirst(o: seq<bv8>, id: bv8, s: bv8)
    requires |o| == OutputReportLength && o[0] != OutputReportHeader
    ensures Validate(o[1 := id][11 := s]) == Fail(ErrMalformedData)
  {
  }

  /**
   * Every frame this parser accepts the current parser accepts too; the converse fails for
   * report id 0x12 and for a `RumbleAndSubcommand` frame with an unknown subcommand.
   */
  lemma StricterThanCurrent(o: seq<bv8>)
    ensures Validate(o) == Pass ==> RO.Validate(o) == Pass
    ensures |o| == OutputReportLength && o[0] == OutputReportHeader && o[1] == 0x12 ==>
      RO.Validate(o) == Pass && Validate(o) == Fail(ErrUnknownOutputId)
    ensures |o| == OutputReportLength && o[0] == OutputReportHeader && o[1] == 0x01 && o[11] !in Subcommands ==>
      RO.Validate(o) == Pass && Validate(o) == Fail(ErrUnknownSubcommand)
  {
  }
}
