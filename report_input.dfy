/**
 * The current input-report codec: in-place setters on an input report frame (a Go byte
 * slice, here an array). Each setter `M` is specified by the frame transformer `WithM`,
 * whose contract says which bytes become what and that every other byte is unchanged.
 * A setter indexes the frame directly, so a frame too short for it is a precondition.
 */
module ReportInput {
  import opened GoBuiltins
  import opened Report

  const InputReportHeader: bv8 := 0xA1
  const InputReportLength: nat := 50

  /** The canned accelerometer/gyroscope block `SetImuData` copies into bytes 14..49. */
  const ImuSample: seq<bv8> := [
    0x75, 0xFD, 0xFD, 0xFF, 0x09, 0x10, 0x21, 0x00, 0xD5,
    0xFF, 0xE0, 0xFF, 0x72, 0xFD, 0xF9, 0xFF, 0x0A, 0x10,
    0x22, 0x00, 0xD5, 0xFF, 0xE0, 0xFF, 0x76, 0xFD, 0xFC,
    0xFF, 0x09, 0x10, 0x23, 0x00, 0xD5, 0xFF, 0xE0, 0xFF]

  /** Bytes 3..13 written when device info has been requested: battery/connection, zero buttons, zero sticks, vibrator. */
  const DeviceInfoTelemetry: seq<bv8> := [0x90, 0x00, 0x00, 0x00, 0x00, 0x00, 0x00, 0x00, 0x00, 0x00, 0x80]

  /** The seven SPI-flash (low, high) address pairs the emulation recognises. */
  predicate KnownSpiRange(low: bv8, high: bv8) {
    || (low == 0x00 && high == 0x60)
    || (low == 0x50 && high == 0x60)
    || (low == 0x80 && high == 0x60)
    || (low == 0x98 && high == 0x60)
    || (low == 0x10 && high == 0x80)
    || (low == 0x3D && high == 0x60)
    || (low == 0x20 && high == 0x60)
  }

  // ---------------------------------------------------------------- frame transformers

  function WithReportId(s: seq<bv8>, id: bv8): (r: seq<bv8>)
    requires |s| > 1
    ensures |r| == |s| && r[1] == id
    ensures forall k :: 0 <= k < |s| && k != 1 ==> r[k] == s[k]
  {
    s[1 := id]
  }

  function WithImuData(s: seq<bv8>, enabled: bool): (r: seq<bv8>)
    requires enabled ==> |s| >= 50
    ensures |r| == |s|
    ensures !enabled ==> r == s
    ensures enabled ==> r[14..50] == ImuSample && r[..14] == s[..14] && r[50..] == s[50..]
  {
    if enabled then s[..14] + ImuSample + s[50..] else s
  }

  function WithStandardData(s: seq<bv8>, elapsed: int, queryDeviceInfo: bool): (r: seq<bv8>)
    requires |s| > 2 && (queryDeviceInfo ==> |s| > 13)
    ensures |r| == |s| && r[2] == LowByte(elapsed)
    ensures !queryDeviceInfo ==> forall k :: 0 <= k < |s| && k != 2 ==> r[k] == s[k]
    ensures queryDeviceInfo ==> r[3..14] == DeviceInfoTelemetry
    ensures queryDeviceInfo ==> r[..2] == s[..2] && r[14..] == s[14..]
  {
    var t := s[2 := LowByte(elapsed)];
    if queryDeviceInfo then t[..3] + DeviceInfoTelemetry + t[14..] else t
  }

  function WithButtonState(s: seq<bv8>, data: seq<bv8>): (r: seq<bv8>)
    requires |s| >= 7
    ensures |r| == |s|
    ensures forall k :: 4 <= k < 4 + Min(3, |data|) ==> r[k] == data[k - 4]
    ensures forall k :: 0 <= k < |s| && !(4 <= k < 4 + Min(3, |data|)) ==> r[k] == s[k]
    ensures |data| >= 3 ==> r[4..7] == data[..3]
  {
    Copied(s, 4, 7, data)
  }

  /** The ACK-type byte and the echoed subcommand id of a subcommand reply. */
  function WithAck(s: seq<bv8>, ack: bv8, subcommand: bv8): (r: seq<bv8>)
    requires |s| > 15
    ensures |r| == |s| && r[14] == ack && r[15] == subcommand
    ensures forall k :: 0 <= k < |s| && k != 14 && k != 15 ==> r[k] == s[k]
  {
    s[14 := ack][15 := subcommand]
  }

  function WithDeviceInfo(s: seq<bv8>, mac: seq<bv8>): (r: seq<bv8>)
    requires |s| >= 28
    ensures |r| == |s|
    ensures r[14..20] == [0x82, RequestDeviceInfo, 0x03, 0x8B, 0x03, 0x02]
    ensures forall k :: 20 <= k < 20 + Min(6, |mac|) ==> r[k] == mac[k - 20]
    ensures forall k :: 20 + Min(6, |mac|) <= k < 26 ==> r[k] == s[k]
    ensures r[26] == 0x01 && r[27] == 0x01
    ensures r[..14] == s[..14] && r[28..] == s[28..]
    ensures |mac| >= 6 ==> r[20..26] == mac[..6]
  {
    var t := WithAck(s, 0x82, RequestDeviceInfo)[16 := 0x03][17 := 0x8B][18 := 0x03][19 := 0x02];
    Copied(t, 20, 26, mac)[26 := 0x01][27 := 0x01]
  }

  /** What `AckSpiFlashRead` indexes: five argument bytes, and room in the frame for a recognised section. */
  predicate SpiFlashReadArgsOk(s: seq<bv8>, args: seq<bv8>) {
    |args| >= 5 && |s| >= 21 && (KnownSpiRange(args[0], args[1]) ==> 21 + args[4] as int <= |s|)
  }

  function WithSpiFlashRead(s: seq<bv8>, args: seq<bv8>): (r: seq<bv8>)
    requires SpiFlashReadArgsOk(s, args)
    ensures |r| == |s|
    ensures r[14] == 0x90 && r[15] == SpiFlashRead
    ensures r[16] == args[0] && r[17] == args[1] && r[20] == args[4]
    ensures r[..14] == s[..14] && r[18] == s[18] && r[19] == s[19]
    ensures KnownSpiRange(args[0], args[1]) ==> forall k :: 21 <= k < 21 + args[4] as int ==> r[k] == 0xFF
    ensures KnownSpiRange(args[0], args[1]) ==> forall k :: 21 + args[4] as int <= k < |s| ==> r[k] == s[k]
    ensures !KnownSpiRange(args[0], args[1]) ==> r[21..] == s[21..]
  {
    var t := WithAck(s, 0x90, SpiFlashRead)[16 := args[0]][17 := args[1]][20 := args[4]];
    if KnownSpiRange(args[0], args[1]) then Filled(t, 21, 21 + args[4] as int, 0xFF) else t
  }

  function WithNfcMcuConfig(s: seq<bv8>, data: seq<bv8>): (r: seq<bv8>)
    requires 16 + |data| <= |s|
    ensures |r| == |s| && r[14] == 0xA0 && r[15] == SetNfcMcuConfig
    ensures r[16..16 + |data|] == data
    ensures r[..14] == s[..14] && r[16 + |data|..] == s[16 + |data|..]
  {
    Copied(WithAck(s, 0xA0, SetNfcMcuConfig), 16, 16 + |data|, data)
  }

  function WithChecksum(s: seq<bv8>, checksum: bv8): (r: seq<bv8>)
    requires |s| >= 1
    ensures |r| == |s| && r[|s| - 1] == checksum && r[..|s| - 1] == s[..|s| - 1]
  {
    s[|s| - 1 := checksum]
  }

  // ---------------------------------------------------------------- setters

  method SetReportId(i: array<bv8>, id: bv8)
    requires i.Length > 1
    modifies i
    ensures i[..] == WithReportId(old(i[..]), id)
  {
    i[1] := id;
  }

  method SetImuData(i: array<bv8>, enabled: bool)
    requires enabled ==> i.Length >= 50
    modifies i
    ensures i[..] == WithImuData(old(i[..]), enabled)
  {
    if !enabled {
      return;
    }
    CopyInto(i, 14, 50, ImuSample);
  }

  method FillStandardData(i: array<bv8>, elapsed: int, queryDeviceInfo: bool)
    requires i.Length > 2 && (queryDeviceInfo ==> i.Length > 13)
    modifies i
    ensures i[..] == WithStandardData(old(i[..]), elapsed, queryDeviceInfo)
  {
    i[2] := LowByte(elapsed);
    ghost var t := i[..];
    if queryDeviceInfo {
      i[3] := 0x90;
      i[4], i[5], i[6] := 0x00, 0x00, 0x00;
      i[7], i[8], i[9] := 0x00, 0x00, 0x00;
      i[10], i[11], i[12] := 0x00, 0x00, 0x00;
      i[13] := 0x80;
      assert i[3..14] == DeviceInfoTelemetry;
      assert i[..3] == t[..3] && i[14..] == t[14..];
      assert i[..] == t[..3] + DeviceInfoTelemetry + t[14..];
    }
  }

  method SetButtonState(i: array<bv8>, data: seq<bv8>)
    requires i.Length >= 7
    modifies i
    ensures i[..] == WithButtonState(old(i[..]), data)
  {
    CopyInto(i, 4, 7, data);
  }

  method AckSetInputReportMode(i: array<bv8>)
    requires i.Length > 15
    modifies i
    ensures i[..] == WithAck(old(i[..]), 0x80, SetInputReportMode)
  {
    i[14] := 0x80;
    i[15] := SetInputReportMode;
  }

  method AckDeviceInfo(i: array<bv8>, mac: seq<bv8>)
    requires i.Length >= 28
    modifies i
    ensures i[..] == WithDeviceInfo(old(i[..]), mac)
  {
    i[14] := 0x82;
    i[15] := RequestDeviceInfo;
    i[16] := 0x03;
    i[17] := 0x8B;
    i[18] := 0x03;
    i[19] := 0x02;
    CopyInto(i, 20, 26, mac);
    i[26] := 0x01;
    i[27] := 0x01;
  }

  method AckTriggerButtonsElapsedTime(i: array<bv8>)
    requires i.Length > 15
    modifies i
    ensures i[..] == WithAck(old(i[..]), 0x83, TriggerButtonsElapsedTime)
  {
    i[14] := 0x83;
    i[15] := TriggerButtonsElapsedTime;
  }

  method AckSetShipmentLowPowerState(i: array<bv8>)
    requires i.Length > 15
    modifies i
    ensures i[..] == WithAck(old(i[..]), 0x80, SetShipmentLowPowerState)
  {
    i[14] := 0x80;
    i[15] := SetShipmentLowPowerState;
  }

  method AckSpiFlashRead(i: array<bv8>, args: seq<bv8>)
    requires SpiFlashReadArgsOk(i[..], args)
    modifies i
    ensures i[..] == WithSpiFlashRead(old(i[..]), args)
  {
    var lowEnd, highEnd, sectionRange := args[0], args[1], args[4];
    i[14] := 0x90;
    i[15] := SpiFlashRead;
    i[16] := lowEnd;
    i[17] := highEnd;
    i[20] := sectionRange;
    var end := 21 + sectionRange as int;
    if lowEnd == 0x00 && highEnd == 0x60 {
      ReplaceSlice(i, 21, end, 0xFF);
    } else if lowEnd == 0x50 && highEnd == 0x60 {
      ReplaceSlice(i, 21, end, 0xFF);
    } else if lowEnd == 0x80 && highEnd == 0x60 {
      ReplaceSlice(i, 21, end, 0xFF);
    } else if lowEnd == 0x98 && highEnd == 0x60 {
      ReplaceSlice(i, 21, end, 0xFF);
    } else if lowEnd == 0x10 && highEnd == 0x80 {
      ReplaceSlice(i, 21, end, 0xFF);
    } else if lowEnd == 0x3D && highEnd == 0x60 {
      ReplaceSlice(i, 21, end, 0xFF);
    } else if lowEnd == 0x20 && highEnd == 0x60 {
      ReplaceSlice(i, 21, end, 0xFF);
    }
  }

  method AckSetNfcMcuConfig(i: array<bv8>, data: seq<bv8>)
    requires 16 + |data| <= i.Length
    modifies i
    ensures i[..] == WithNfcMcuConfig(old(i[..]), data)
  {
    i[14] := 0xA0;
    i[15] := SetNfcMcuConfig;
    CopyInto(i, 16, 16 + |data|, data);
  }

  method AckSetNfcMcuState(i: array<bv8>)
    requires i.Length > 15
    modifies i
    ensures i[..] == WithAck(old(i[..]), 0x80, SetNfcMcuState)
  {
    i[14] := 0x80;
    i[15] := SetNfcMcuState;
  }

  method AckSetPlayerLights(i: array<bv8>)
    requires i.Length > 15
    modifies i
    ensures i[..] == WithAck(old(i[..]), 0x80, SetPlayerLights)
  {
    i[14] := 0x80;
    i[15] := SetPlayerLights;
  }

  method AckEnableImu(i: array<bv8>)
    requires i.Length > 15
    modifies i
    ensures i[..] == WithAck(old(i[..]), 0x80, EnableImu)
  {
    i[14] := 0x80;
    i[15] := EnableImu;
  }

  method AckEnableVibration(i: array<bv8>)
    requires i.Length > 15
    modifies i
    ensures i[..] == WithAck(old(i[..]), 0x82, EnableVibration)
  {
    i[14] := 0x82;
    i[15] := EnableVibration;
  }

  method UpdateChecksum(i: array<bv8>, checksum: bv8)
    requires i.Length >= 1
    modifies i
    ensures i[..] == WithChecksum(old(i[..]), checksum)
  {
    i[i.Length - 1] := checksum;
  }
}
