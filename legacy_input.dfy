/**
 * The input-report codec of the package-root generation of joycontrol. Where a setter writes
 * the same bytes as the current codec it is specified by the current codec's transformer;
 * where it differs (stick bytes, button bytes, the calibration section, the fixed MCU
 * configuration reply) it has a transformer of its own and a lemma stating the difference.
 */
module LegacyInput {
  import opened GoBuiltins
  import R = Report
  import RI = ReportInput

  // Input report ids of this generation.
  const ButtonAction: bv8 := 0x3F
  const SubcommandReplies: bv8 := 0x21
  const UpdateNFCReport: bv8 := 0x23
  const StandardFullMode: bv8 := 0x30
  const NFCMode: bv8 := 0x31

  const InputReportHeader: bv8 := 0xA1
  const InputReportLength: nat := 50

  // Subcommands.
  const RequestDeviceInfo: bv8 := 0x02
  const SetInputReportMode: bv8 := 0x03
  const TriggerButtonsElapsedTime: bv8 := 0x04
  const SetShipmentLowPowerState: bv8 := 0x08
  const SpiFlashRead: bv8 := 0x10
  const SetNfcMcuConfig: bv8 := 0x21
  const SetNfcMcuState: bv8 := 0x22
  const SetPlayerLights: bv8 := 0x30
  const EnableImu: bv8 := 0x40
  const EnableVibration: bv8 := 0x48

  /** The declared subcommands, in declaration order. */
  const Subcommands: seq<bv8> :=
    [RequestDeviceInfo, SetInputReportMode, TriggerButtonsElapsedTime, SetShipmentLowPowerState,
     SpiFlashRead, SetNfcMcuConfig, SetNfcMcuState, SetPlayerLights, EnableImu, EnableVibration]

  /** `Subcommand.String`. */
  function SubcommandName(s: bv8): (name: string)
    ensures name != R.Unknown <==> s in Subcommands
  {
    match s
    case 0x02 => "RequestDeviceInfo"
    case 0x03 => "SetInputReportMode"
    case 0x04 => "TriggerButtonsElapsedTime"
    case 0x08 => "SetShipmentLowPowerState"
    case 0x10 => "SpiFlashRead"
    case 0x21 => "SetNfcMcuConfig"
    case 0x22 => "SetNfcMcuState"
    case 0x30 => "SetPlayerLights"
    case 0x40 => "EnableImu"
    case 0x48 => "EnableVibration"
    case _ => R.Unknown
  }

  /** Both generations declare the same ten subcommands under the same names. */
  lemma SubcommandsAgree(s: bv8)
    ensures Subcommands == R.Subcommands
    ensures SubcommandName(s) == R.SubcommandName(s)
  {
  }

  /** The canned IMU block, laid out ten bytes to a line in this generation. */
  const ImuSample: seq<bv8> := [
    0x75, 0xFD, 0xFD, 0xFF, 0x09, 0x10, 0x21, 0x00, 0xD5, 0xFF,
    0xE0, 0xFF, 0x72, 0xFD, 0xF9, 0xFF, 0x0A, 0x10, 0x22, 0x00,
    0xD5, 0xFF, 0xE0, 0xFF, 0x76, 0xFD, 0xFC, 0xFF, 0x09, 0x10,
    0x23, 0x00, 0xD5, 0xFF, 0xE0, 0xFF]

  /** Bytes 3..13 with device info requested: battery/connection, zero buttons, neutral sticks, vibrator. */
  const DeviceInfoTelemetry: seq<bv8> := [0x90, 0x00, 0x00, 0x00, 0x6F, 0xC8, 0x77, 0x16, 0xD8, 0x7D, 0x80]

  /** The factory stick calibration the (0x3D, 0x60) section answers with. */
  const LeftCalibration: seq<bv8> := [0xBA, 0xF5, 0x62, 0x6F, 0xC8, 0x77, 0xED, 0x95, 0x5B]
  const RightCalibration: seq<bv8> := [0x16, 0xD8, 0x7D, 0xF2, 0xB5, 0x5F, 0x86, 0x65, 0x5E]

  /** The fixed MCU status this generation answers `SetNfcMcuConfig` with, bytes 16..49. */
  const NfcMcuConfigData: seq<bv8> := [
    0x01, 0x00, 0xFF, 0x00, 0x08, 0x00,
    0x1B, 0x01, 0x00, 0x00, 0x00, 0x00,
    0x00, 0x00, 0x00, 0x00, 0x00, 0x00,
    0x00, 0x00, 0x00, 0x00, 0x00, 0x00,
    0x00, 0x00, 0x00, 0x00, 0x00, 0x00,
    0x00, 0x00, 0x00, 0xC8]

  // ---------------------------------------------------------------- frame transformers

  /** `fillStandardData` of this generation: the same as the current one but with neutral stick bytes. */
  function WithStandardData(s: seq<bv8>, elapsed: int, queryDeviceInfo: bool): (r: seq<bv8>)
    requires |s| > 2 && (queryDeviceInfo ==> |s| > 13)
    ensures |r| == |s| && r[2] == LowByte(elapsed)
    ensures !queryDeviceInfo ==> forall k :: 0 <= k < |s| && k != 2 ==> r[k] == s[k]
    ensures queryDeviceInfo ==> r[3..14] == DeviceInfoTelemetry
    ensures queryDeviceInfo ==> r[..2] == s[..2] && r[14..] == s[14..]
  {
    var t := s[2 := LowByte(elapsed)];
    if queryDeviceInfo then t[..3] + DeviceInfoTelemetry + t[14..] else t
  }

  /** `setButtonState` of this generation copies into `i[4:6]`: two bytes at most. */
  function WithButtonState(s: seq<bv8>, data: seq<bv8>): (r: seq<bv8>)
    requires |s| >= 6
    ensures |r| == |s|
    ensures forall k :: 4 <= k < 4 + Min(2, |data|) ==> r[k] == data[k - 4]
    ensures forall k :: 0 <= k < |s| && !(4 <= k < 4 + Min(2, |data|)) ==> r[k] == s[k]
  {
    Copied(s, 4, 6, data)
  }

  /** What `ackSpiFlashRead` of this generation indexes and slices for the range it is asked for. */
  predicate SpiFlashReadArgsOk(s: seq<bv8>, args: seq<bv8>) {
    && |args| >= 5 && |s| >= 21
    && (args[0] == 0x3D && args[1] == 0x60 ==> |s| >= 39 && (args[4] > 18 ==> 21 + args[4] as int <= |s|))
    && (RI.KnownSpiRange(args[0], args[1]) && !(args[0] == 0x3D && args[1] == 0x60) ==>
          21 + args[4] as int <= |s|)
  }

  /** The ACK pair and the echoed address and length every SPI-flash reply starts with. */
  function SpiReadHeader(s: seq<bv8>, args: seq<bv8>): (t: seq<bv8>)
    requires |args| >= 5 && |s| >= 21
    ensures |t| == |s| && t[14] == 0x90 && t[15] == SpiFlashRead
    ensures t[16] == args[0] && t[17] == args[1] && t[20] == args[4]
    ensures forall k :: 0 <= k < |s| && !(14 <= k < 18 || k == 20) ==> t[k] == s[k]
  {
    RI.WithAck(s, 0x90, SpiFlashRead)[16 := args[0]][17 := args[1]][20 := args[4]]
  }

  /** The (0x3D, 0x60) section: the two calibration blocks at 21..38, then 0xFF up to byte 21 + n - 1. */
  function WithCalibration(t: seq<bv8>, n: int): (r: seq<bv8>)
    requires |t| >= 39 && (n > 18 ==> 21 + n <= |t|)
    ensures |r| == |t| && forall k :: 0 <= k < 21 ==> r[k] == t[k]
    ensures r[21..30] == LeftCalibration && r[30..39] == RightCalibration
    ensures forall k :: 39 <= k < 21 + n ==> r[k] == 0xFF
    ensures forall k :: Max(39, 21 + n) <= k < |t| ==> r[k] == t[k]
  {
    var c := Copied(Copied(t, 21, 30, LeftCalibration), 30, 39, RightCalibration);
    assert c[21..30] == LeftCalibration && c[30..39] == RightCalibration;
    R.Filled(c, 39, 39 + n - |LeftCalibration| - |RightCalibration|, 0xFF)
  }

  /** Any other known section: 0xFF from byte 21 up to byte 21 + n - 1. */
  function WithFiller(t: seq<bv8>, n: int): (r: seq<bv8>)
    requires |t| >= 21 && 21 + n <= |t|
    ensures |r| == |t| && forall k :: 0 <= k < 21 ==> r[k] == t[k]
    ensures forall k :: 21 <= k < 21 + n ==> r[k] == 0xFF
    ensures forall k :: Max(21, 21 + n) <= k < |t| ==> r[k] == t[k]
  {
    R.Filled(t, 21, 21 + n, 0xFF)
  }

  /**
   * `ackSpiFlashRead` of this generation: (0x3D, 0x60) answers with the stick calibration at
   * 21..38 and pads with 0xFF only past 18 bytes; the other six known sections are all 0xFF.
   */
  function WithSpiFlashRead(s: seq<bv8>, args: seq<bv8>): (r: seq<bv8>)
    requires SpiFlashReadArgsOk(s, args)
    ensures |r| == |s|
    ensures r[14] == 0x90 && r[15] == SpiFlashRead
    ensures r[16] == args[0] && r[17] == args[1] && r[20] == args[4]
    ensures r[..14] == s[..14] && r[18] == s[18] && r[19] == s[19]
    ensures args[0] == 0x3D && args[1] == 0x60 ==>
      && r[21..30] == LeftCalibration && r[30..39] == RightCalibration
      && (forall k :: 39 <= k < 21 + args[4] as int ==> r[k] == 0xFF)
      && (forall k :: Max(39, 21 + args[4] as int) <= k < |s| ==> r[k] == s[k])
    ensures RI.KnownSpiRange(args[0], args[1]) && !(args[0] == 0x3D && args[1] == 0x60) ==>
      && (forall k :: 21 <= k < 21 + args[4] as int ==> r[k] == 0xFF)
      && (forall k :: 21 + args[4] as int <= k < |s| ==> r[k] == s[k])
    ensures !RI.KnownSpiRange(args[0], args[1]) ==> r[21..] == s[21..]
  {
    var t := SpiReadHeader(s, args);
    var n := args[4] as int;
    if args[0] == 0x3D && args[1] == 0x60 then WithCalibration(t, n)
    else if RI.KnownSpiRange(args[0], args[1]) then WithFiller(t, n)
    else t
  }

  /** `ackSetNfcMcuConfig` of this generation: the ACK pair and the fixed status block over 16..49. */
  function WithNfcMcuConfig(s: seq<bv8>): (r: seq<bv8>)
    requires |s| >= 50
    ensures |r| == |s| && r[14] == 0xA0 && r[15] == SetNfcMcuConfig
    ensures r[16..50] == NfcMcuConfigData && r[49] == 0xC8
    ensures r[..14] == s[..14] && r[50..] == s[50..]
  {
    Copied(RI.WithAck(s, 0xA0, SetNfcMcuConfig), 16, 16 + |NfcMcuConfigData|, NfcMcuConfigData)
  }

  // ---------------------------------------------------------------- differences from the current codec

  /** The IMU block is the same in both generations. */
  lemma ImuSampleAgrees()
    ensures ImuSample == RI.ImuSample
  {
  }

  /** With device info requested the two generations differ in exactly the stick bytes 7..12. */
  lemma StandardDataDiffersInSticks(s: seq<bv8>, elapsed: int, q: bool)
    requires |s| > 13
    ensures var legacy, current := WithStandardData(s, elapsed, q), RI.WithStandardData(s, elapsed, q);
      && (forall k :: 0 <= k < |s| && !(q && 7 <= k < 13) ==> legacy[k] == current[k])
      && (q ==> legacy[7..13] == [0x6F, 0xC8, 0x77, 0x16, 0xD8, 0x7D] && current[7..13] == [0, 0, 0, 0, 0, 0])
  {
    var legacy, current := WithStandardData(s, elapsed, q), RI.WithStandardData(s, elapsed, q);
    if q {
      forall k | 3 <= k < 14
        ensures legacy[k] == DeviceInfoTelemetry[k - 3] && current[k] == RI.DeviceInfoTelemetry[k - 3]
      {
        assert legacy[k] == legacy[3..14][k - 3];
        assert current[k] == current[3..14][k - 3];
      }
      forall k | 0 <= k < |s| && !(3 <= k < 14)
        ensures legacy[k] == current[k]
      {
        if k < 2 {
          assert legacy[k] == legacy[..2][k] && current[k] == current[..2][k];
        } else if k >= 14 {
          assert legacy[k] == legacy[14..][k - 14] && current[k] == current[14..][k - 14];
        }
      }
    }
  }

  /** This generation never writes byte 6; the current one copies the third button byte there. */
  lemma ButtonStateSkipsByteSix(s: seq<bv8>, data: seq<bv8>)
    requires |s| >= 7 && |data| >= 3
    ensures WithButtonState(s, data)[6] == s[6]
    ensures RI.WithButtonState(s, data)[6] == data[2]
    ensures WithButtonState(s, data)[4..6] == RI.WithButtonState(s, data)[4..6]
  {
  }

  /** Outside the calibration section both generations answer an SPI-flash read identically. */
  lemma SpiFlashReadAgreesOutsideCalibration(s: seq<bv8>, args: seq<bv8>)
    requires SpiFlashReadArgsOk(s, args) && RI.SpiFlashReadArgsOk(s, args)
    requires !(args[0] == 0x3D && args[1] == 0x60)
    ensures WithSpiFlashRead(s, args) == RI.WithSpiFlashRead(s, args)
  {
  }

  // ---------------------------------------------------------------- setters

  method SetReportId(i: array<bv8>, id: bv8)
    requires i.Length > 1
    modifies i
    ensures i[..] == RI.WithReportId(old(i[..]), id)
  {
    i[1] := id;
  }

  method SetImuData(i: array<bv8>, enabled: bool)
    requires enabled ==> i.Length >= 50
    modifies i
    ensures i[..] == RI.WithImuData(old(i[..]), enabled)
  {
    if !enabled {
      return;
    }
    ImuSampleAgrees();
    CopyInto(i, 14, 14 + |ImuSample|, ImuSample);
  }

  method FillStandardData(i: array<bv8>, elapsed: int, queryDeviceInfo: bool)
    requires i.Length > 2 && (queryDeviceInfo ==> i.Length > 13)
    modifies i
    ensures i[..] == WithStandardData(old(i[..]), elapsed, queryDeviceInfo)
  {
    i[2] := LowByte(elapsed);
    ghost var t := i[..];
    if queryDeviceInfo {
      i[3] := 0x90;
      i[4], i[5], i[6] := 0x00, 0x00, 0x00;
      i[7], i[8], i[9] := 0x6F, 0xC8, 0x77;
      i[10], i[11], i[12] := 0x16, 0xD8, 0x7D;
      i[13] := 0x80;
      assert i[3..14] == DeviceInfoTelemetry;
      assert i[..3] == t[..3] && i[14..] == t[14..];
      assert i[..] == t[..3] + DeviceInfoTelemetry + t[14..];
    }
  }

  method SetButtonState(i: array<bv8>, data: seq<bv8>)
    requires i.Length >= 6
    modifies i
    ensures i[..] == WithButtonState(old(i[..]), data)
  {
    CopyInto(i, 4, 6, data);
  }

  method AckSetInputReportMode(i: array<bv8>)
    requires i.Length > 15
    modifies i
    ensures i[..] == RI.WithAck(old(i[..]), 0x80, SetInputReportMode)
  {
    i[14] := 0x80;
    i[15] := SetInputReportMode;
  }

  method AckDeviceInfo(i: array<bv8>, mac: seq<bv8>)
    requires i.Length >= 28
    modifies i
    ensures i[..] == RI.WithDeviceInfo(old(i[..]), mac)
  {
    i[14] := 0x82;
    i[15] := RequestDeviceInfo;
    i[16] := 0x03;
    i[17] := 0x8B;
    i[18] := 0x03;
    i[19] := 0x02;
    CopyInto(i, 20, 26, mac);
    i[26] := 0x01;
    i[27] := 0x01;
  }

  method AckTriggerButtonsElapsedTime(i: array<bv8>)
    requires i.Length > 15
    modifies i
    ensures i[..] == RI.WithAck(old(i[..]), 0x83, TriggerButtonsElapsedTime)
  {
    i[14] := 0x83;
    i[15] := TriggerButtonsElapsedTime;
  }

  method AckSetShipmentLowPowerState(i: array<bv8>)
    requires i.Length > 15
    modifies i
    ensures i[..] == RI.WithAck(old(i[..]), 0x80, SetShipmentLowPowerState)
  {
    i[14] := 0x80;
    i[15] := SetShipmentLowPowerState;
  }

  method AckSpiFlashRead(i: array<bv8>, data: seq<bv8>)
    requires SpiFlashReadArgsOk(i[..], data)
    modifies i
    ensures i[..] == WithSpiFlashRead(old(i[..]), data)
  {
    var lowEnd, highEnd, sectionRange := data[0], data[1], data[4];
    i[14] := 0x90;
    i[15] := SpiFlashRead;
    i[16] := lowEnd;
    i[17] := highEnd;
    i[20] := sectionRange;
    var end := 21 + sectionRange as int;
    if lowEnd == 0x00 && highEnd == 0x60 {
      R.ReplaceSlice(i, 21, end, 0xFF);
    } else if lowEnd == 0x50 && highEnd == 0x60 {
      R.ReplaceSlice(i, 21, end, 0xFF);
    } else if lowEnd == 0x80 && highEnd == 0x60 {
      R.ReplaceSlice(i, 21, end, 0xFF);
    } else if lowEnd == 0x98 && highEnd == 0x60 {
      R.ReplaceSlice(i, 21, end, 0xFF);
    } else if lowEnd == 0x10 && highEnd == 0x80 {
      R.ReplaceSlice(i, 21, end, 0xFF);
    } else if lowEnd == 0x3D && highEnd == 0x60 {
      FillCalibration(i, sectionRange as int);
    } else if lowEnd == 0x20 && highEnd == 0x60 {
      R.ReplaceSlice(i, 21, end, 0xFF);
    }
  }

  /** The (0x3D, 0x60) section of `ackSpiFlashRead`: the two calibration blocks, then the 0xFF filler past 18 bytes. */
  method FillCalibration(i: array<bv8>, n: int)
    requires i.Length >= 39 && (n > 18 ==> 21 + n <= i.Length)
    modifies i
    ensures i[..] == WithCalibration(old(i[..]), n)
  {
    CopyInto(i, 21, 30, LeftCalibration);
    CopyInto(i, 30, 39, RightCalibration);
    R.ReplaceSlice(i, 39, 39 + n - |LeftCalibration| - |RightCalibration|, 0xFF);
  }

  method AckSetNfcMcuConfig(i: array<bv8>)
    requires i.Length >= 50
    modifies i
    ensures i[..] == WithNfcMcuConfig(old(i[..]))
  {
    i[14] := 0xA0;
    i[15] := SetNfcMcuConfig;
    CopyInto(i, 16, 16 + |NfcMcuConfigData|, NfcMcuConfigData);
  }

  method AckSetNfcMcuState(i: array<bv8>)
    requires i.Length > 15
    modifies i
    ensures i[..] == RI.WithAck(old(i[..]), 0x80, SetNfcMcuState)
  {
    i[14] := 0x80;
    i[15] := SetNfcMcuState;
  }

  method AckSetPlayerLights(i: array<bv8>)
    requires i.Length > 15
    modifies i
    ensures i[..] == RI.WithAck(old(i[..]), 0x80, SetPlayerLights)
  {
    i[14] := 0x80;
    i[15] := SetPlayerLights;
  }

  method AckEnableImu(i: array<bv8>)
    requires i.Length > 15
    modifies i
    ensures i[..] == RI.WithAck(old(i[..]), 0x80, EnableImu)
  {
    i[14] := 0x80;
    i[15] := EnableImu;
  }

  method AckEnableVibration(i: array<bv8>)
    requires i.Length > 15
    modifies i
    ensures i[..] == RI.WithAck(old(i[..]), 0x82, EnableVibration)
  {
    i[14] := 0x82;
    i[15] := EnableVibration;
  }
}
