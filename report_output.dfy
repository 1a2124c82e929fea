/**
 * The current output-report parser: `Validate` and the read-only accessors. An output
 * report is a byte slice the accessors only read, so it is a sequence here and every
 * operation leaves it unchanged by construction.
 */
module ReportOutput {
  import opened Wrappers
  import opened Report

  const OutputReportHeader: bv8 := 0xA2
  const OutputReportLength: nat := 50

  /** The ids `Validate` accepts; unlike the older parser this list includes 0x12. */
  const outputReportIds: seq<bv8> :=
    [RumbleAndSubcommand, UpdateNfcPacket, RumbleOnly, RequestNfcData, UnknownOutputType]

  datatype Error = ErrBadLengthData | ErrMalformedData | ErrUnknownOutputId

  /** The checks in their order: length, then header, then report id; there is no subcommand check. */
  function Validate(o: seq<bv8>): (r: Outcome<Error>)
    ensures r == Fail(ErrBadLengthData) <==> |o| != OutputReportLength
    ensures r == Fail(ErrMalformedData) <==> |o| == OutputReportLength && o[0] != OutputReportHeader
    ensures r == Fail(ErrUnknownOutputId) <==>
      |o| == OutputReportLength && o[0] == OutputReportHeader && o[1] !in {0x01, 0x03, 0x10, 0x11, 0x12}
    ensures r == Pass <==>
      |o| == OutputReportLength && o[0] == OutputReportHeader && o[1] in {0x01, 0x03, 0x10, 0x11, 0x12}
  {
    if |o| != OutputReportLength then Fail(ErrBadLengthData)
    else if o[0] != OutputReportHeader then Fail(ErrMalformedData)
    else if Id(o) !in outputReportIds then Fail(ErrUnknownOutputId)
    else Pass
  }

  function Id(o: seq<bv8>): (id: bv8)
    requires |o| > 1
    ensures id == o[1]
  {
    o[1]
  }

  function Subcommand(o: seq<bv8>): (s: bv8)
    requires |o| > 11
    ensures s == o[11]
  {
    o[11]
  }

  /** Everything after the subcommand byte. */
  function SubcommandArgs(o: seq<bv8>): (args: seq<bv8>)
    requires |o| >= 12
    ensures o[..12] + args == o
  {
    o[12..]
  }

  /** Byte 11 carries a nested MCU command: a `RumbleAndSubcommand` frame whose subcommand is `SetNfcMcuConfig`. */
  predicate NestedMcuCommand(o: seq<bv8>)
    requires |o| > 11
  {
    Id(o) == RumbleAndSubcommand && Subcommand(o) == SetNfcMcuConfig
  }

  /** What `McuCommand` reads: byte 11, and byte 12 when the command is nested. */
  predicate McuCommandReadable(o: seq<bv8>) {
    |o| > 11 && (NestedMcuCommand(o) ==> |o| > 12)
  }

  function McuCommand(o: seq<bv8>): (m: bv8)
    requires McuCommandReadable(o)
    ensures NestedMcuCommand(o) ==> m == SubcommandArgs(o)[0]
    ensures !NestedMcuCommand(o) ==> m == Subcommand(o)
  {
    if Id(o) == RumbleAndSubcommand && Subcommand(o) == SetNfcMcuConfig then o[12] else o[11]
  }

  function McuCommandArgs(o: seq<bv8>): (args: seq<bv8>)
    requires McuCommandReadable(o)
    ensures NestedMcuCommand(o) ==> [McuCommand(o)] + args == SubcommandArgs(o)
    ensures !NestedMcuCommand(o) ==> args == SubcommandArgs(o)
  {
    if Id(o) == RumbleAndSubcommand && Subcommand(o) == SetNfcMcuConfig then o[13..] else o[12..]
  }

  /** A frame `Validate` accepts can be read by every accessor, and its arguments are 38 bytes. */
  lemma ValidFrameReadable(o: seq<bv8>)
    requires Validate(o) == Pass
    ensures McuCommandReadable(o) && |SubcommandArgs(o)| == 38
    ensures |McuCommandArgs(o)| == (if NestedMcuCommand(o) then 37 else 38)
  {
  }

  /** The header is checked before the id: a bad header is reported whatever byte 1 holds. */
  lemma HeaderCheckedBeforeId(o: seq<bv8>, id: bv8)
    requires |o| == OutputReportLength && o[0] != OutputReportHeader
    ensures Validate(o[1 := id]) == Fail(ErrMalformedData)
  {
  }

  /** `Validate` never looks at the subcommand byte. */
  lemma NoSubcommandCheck(o: seq<bv8>, s: bv8)
    requires |o| > 11
    ensures Validate(o[11 := s]) == Validate(o)
  {
  }

  /** An id passes the id check exactly when `OutputReportId.String` knows its name. */
  lemma AcceptedIdsAreNamed(o: seq<bv8>)
    requires |o| == OutputReportLength && o[0] == OutputReportHeader
    ensures Validate(o) == Pass <==> OutputReportIdName(o[1]) != Unknown
  {
  }
}
