/**
 * The identifiers of the current report package: output report ids, input report ids and
 * modes, the ten subcommands and the four MCU commands, their names, and `replaceSlice`,
 * the fill loop every generation of the SPI-flash emulation uses.
 */
module Report {

  // Output report ids (peer to controller).
  const RumbleAndSubcommand: bv8 := 0x01
  const UpdateNfcPacket: bv8 := 0x03
  const RumbleOnly: bv8 := 0x10
  const RequestNfcData: bv8 := 0x11
  const UnknownOutputType: bv8 := 0x12

  // Input report ids (controller to peer).
  const SimpleHidId: bv8 := 0x3F
  const SubcommandReplies: bv8 := 0x21
  const StandardFullModeId: bv8 := 0x30
  const NfcMcuModeId: bv8 := 0x31

  // Input report modes.
  const StandFullMode: bv8 := 0x30
  const NfcMode: bv8 := 0x31
  const SimpleHidMode: bv8 := 0x3F

  // Subcommands.
  const RequestDeviceInfo: bv8 := 0x02
  const SetInputReportMode: bv8 := 0x03
  const TriggerButtonsElapsedTime: bv8 := 0x04
  const SetShipmentLowPowerState: bv8 := 0x08
  const SpiFlashRead: bv8 := 0x10
  const SetNfcMcuConfig: bv8 := 0x21
  const SetNfcMcuState: bv8 := 0x22
  const SetPlayerLights: bv8 := 0x30
  const EnableImu: bv8 := 0x40
  const EnableVibration: bv8 := 0x48

  // MCU commands.
  const SetMcuMode: bv8 := 0x21
  const RequestMcuStatus: bv8 := 0x01
  const RequestNfcDataReport: bv8 := 0x02
  const RequestIrDataReport: bv8 := 0x03

  /** The declared output report ids, in declaration order. */
  const OutputReportIds: seq<bv8> :=
    [RumbleAndSubcommand, UpdateNfcPacket, RumbleOnly, RequestNfcData, UnknownOutputType]

  /** The declared subcommands, in declaration order. */
  const Subcommands: seq<bv8> :=
    [RequestDeviceInfo, SetInputReportMode, TriggerButtonsElapsedTime, SetShipmentLowPowerState,
     SpiFlashRead, SetNfcMcuConfig, SetNfcMcuState, SetPlayerLights, EnableImu, EnableVibration]

  /** The declared MCU commands, in declaration order. */
  const McuCommands: seq<bv8> :=
    [SetMcuMode, RequestMcuStatus, RequestNfcDataReport, RequestIrDataReport]

  const Unknown: string := "UNKNOWN"

  /** `OutputReportId.String`. */
  function OutputReportIdName(o: bv8): (name: string)
    ensures name != Unknown <==> o in OutputReportIds
  {
    match o
    case 0x01 => "RumbleAndSubcommand"
    case 0x03 => "UpdateNfcPacket"
    case 0x10 => "RumbleOnly"
    case 0x11 => "RequestNfcData"
    case 0x12 => "UnknownOutputType"
    case _ => Unknown
  }

  /** `Subcommand.String`. */
  function SubcommandName(s: bv8): (name: string)
    ensures name != Unknown <==> s in Subcommands
  {
    match s
    case 0x02 => "RequestDeviceInfo"
    case 0x03 => "SetInputReportMode"
    case 0x04 => "TriggerButtonsElapsedTime"
    case 0x08 => "SetShipmentLowPowerState"
    case 0x10 => "SpiFlashRead"
    case 0x21 => "SetNfcMcuConfig"
    case 0x22 => "SetNfcMcuState"
    case 0x30 => "SetPlayerLights"
    case 0x40 => "EnableImu"
    case 0x48 => "EnableVibration"
    case _ => Unknown
  }

  /** `McuCommand.String`. */
  function McuCommandName(m: bv8): (name: string)
    ensures name != Unknown <==> m in McuCommands
  {
    match m
    case 0x21 => "SetMcuMode"
    case 0x01 => "RequestMcuStatus"
    case 0x02 => "RequestNfcDataReport"
    case 0x03 => "RequestIrDataReport"
    case _ => Unknown
  }

  /** No two subcommand codes coincide, so a switch on them is unambiguous. */
  lemma SubcommandsDistinct()
    ensures |Subcommands| == 10
    ensures forall i, j :: 0 <= i < j < |Subcommands| ==> Subcommands[i] != Subcommands[j]
  {
  }

  /** Distinct recognised subcommands have distinct names, so a name identifies its code. */
  lemma SubcommandNameInjective(a: bv8, b: bv8)
    requires a in Subcommands && b in Subcommands && SubcommandName(a) == SubcommandName(b)
    ensures a == b
  {
  }

  /** Distinct recognised output report ids have distinct names. */
  lemma OutputReportIdNameInjective(a: bv8, b: bv8)
    requires a in OutputReportIds && b in OutputReportIds && OutputReportIdName(a) == OutputReportIdName(b)
    ensures a == b
  {
  }

  /** Distinct recognised MCU commands have distinct names. */
  lemma McuCommandNameInjective(a: bv8, b: bv8)
    requires a in McuCommands && b in McuCommands && McuCommandName(a) == McuCommandName(b)
    ensures a == b
  {
  }

  /** The frame `s` after `replaceSlice(s, start, end, v)`. */
  function Filled(s: seq<bv8>, start: int, end: int, v: bv8): (r: seq<bv8>)
    requires end <= start || 0 <= start <= end <= |s|
    ensures |r| == |s|
    ensures forall k :: 0 <= k < |s| ==> r[k] == (if start <= k < end then v else s[k])
  {
    if end <= start then s else s[..start] + seq(end - start, _ => v) + s[end..]
  }

  /** An empty or reversed range leaves the frame as it was. */
  lemma FilledEmptyRange(s: seq<bv8>, start: int, end: int, v: bv8)
    requires end <= start
    ensures Filled(s, start, end, v) == s
  {
  }

  /**
   * `replaceSlice`: overwrite the indices start .. end-1 with `replacement`. The Go loop
   * indexes the slice on every iteration, so a non-empty range must lie inside it.
   */
  method ReplaceSlice(slice: array<bv8>, start: int, end: int, replacement: bv8)
    requires end <= start || 0 <= start <= end <= slice.Length
    modifies slice
    ensures slice[..] == Filled(old(slice[..]), start, end, replacement)
  {
    var i := start;
    while i < end
      invariant start < end ==> start <= i <= end
      invariant end <= start ==> i == start
      invariant forall k :: 0 <= k < slice.Length ==>
        slice[k] == (if start <= k < i then replacement else old(slice[k]))
    {
      slice[i] := replacement;
      i := i + 1;
    }
  }
}
