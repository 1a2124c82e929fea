/**
 * The report codec of the joysticker package: a fixed 50-byte input report written in place
 * by its setters, and a fixed 50-byte output report filled by a read and then checked. Where
 * a setter writes the same bytes as a joycontrol codec it is specified by that codec's
 * transformer, and the lemmas at the end say which generation each part follows.
 */
module StickerReport {
  import opened Wrappers
  import opened GoBuiltins
  import Pool
  import R = Report
  import RI = ReportInput
  import RO = ReportOutput
  import LI = LegacyInput
  import LO = LegacyOutput

  // Input report ids.
  const ButtonAction: bv8 := 0x3F
  const SubcommandReplies: bv8 := 0x21
  const UpdateNFCReport: bv8 := 0x23
  const StandardFullMode: bv8 := 0x30
  const NFCMode: bv8 := 0x31

  const InputReportHeader: bv8 := 0xA1
  const InputReportLength: nat := 50

  // Output report ids; 0x12 is not among them.
  const RumbleAndSubcommand: bv8 := 0x01
  const UpdateNFCPacket: bv8 := 0x03
  const RumbleOnly: bv8 := 0x10
  const RequestNFCData: bv8 := 0x11

  const OutputReportHeader: bv8 := 0xA2
  const OutputReportLength: nat := 50

  // Subcommands.
  const RequestDeviceInfo: bv8 := 0x02
  const SetInputReportMode: bv8 := 0x03
  const TriggerButtonsElapsedTime: bv8 := 0x04
  const SetShipmentLowPowerState: bv8 := 0x08
  const SpiFlashRead: bv8 := 0x10
  const SetNfcMcuConfig: bv8 := 0x21
  const SetNfcMcuState: bv8 := 0x22
  const SetPlayerLights: bv8 := 0x30
  const EnableImu: bv8 := 0x40
  const EnableVibration: bv8 := 0x48

  /** The declared subcommands, in declaration order. */
  const Subcommands: seq<bv8> :=
    [RequestDeviceInfo, SetInputReportMode, TriggerButtonsElapsedTime, SetShipmentLowPowerState,
     SpiFlashRead, SetNfcMcuConfig, SetNfcMcuState, SetPlayerLights, EnableImu, EnableVibration]

  /** The output report ids `load` accepts, in the order it lists them. */
  const OutputReportIds: seq<bv8> := [RumbleAndSubcommand, UpdateNFCPacket, RumbleOnly, RequestNFCData]

  /** `emptyInputReport`: the input-report header followed by 49 zeros. */
  const EmptyInputReport: seq<bv8> := [InputReportHeader] + Pool.Zeros(InputReportLength - 1)

  /** The ten subcommands are those of joycontrol. */
  lemma SubcommandsAgree()
    ensures Subcommands == R.Subcommands
  {
  }

  /** Resetting this report gives the frame a standard buffer of the joycontrol pool is handed out with. */
  lemma EmptyReportIsPoolTemplate()
    ensures |EmptyInputReport| == InputReportLength
    ensures EmptyInputReport == Pool.Template(Pool.StandardSize)
  {
    var t := Pool.Template(Pool.StandardSize);
    forall k | 0 <= k < InputReportLength
      ensures EmptyInputReport[k] == t[k]
    {
    }
  }

  /** What `ackSpiFlashRead` indexes and slices on this report's 50 bytes, for the range it is asked for. */
  predicate SpiFlashReadArgsOk(args: seq<bv8>) {
    LI.SpiFlashReadArgsOk(Pool.Zeros(InputReportLength), args)
  }

  /** The bound depends only on the arguments and the frame's length, not on its contents. */
  lemma SpiFlashReadArgsOkOnFrame(s: seq<bv8>, args: seq<bv8>)
    requires |s| == InputReportLength
    ensures SpiFlashReadArgsOk(args) <==> LI.SpiFlashReadArgsOk(s, args)
    ensures SpiFlashReadArgsOk(args) <==>
      && |args| >= 5
      && (args[0] == 0x3D && args[1] == 0x60 ==> args[4] <= 29)
      && (RI.KnownSpiRange(args[0], args[1]) && !(args[0] == 0x3D && args[1] == 0x60) ==> args[4] <= 29)
  {
  }

  // ---------------------------------------------------------------- the input report

  /** `InputReport`: a report sent from the controller to the console, a fixed array of 50 bytes. */
  class InputReport {
    const data: array<bv8>

    ghost predicate Valid()
      reads this
    {
      data.Length == InputReportLength
    }

    /** The zero value of the struct: 50 zero bytes. */
    constructor ()
      ensures Valid() && fresh(data) && data[..] == Pool.Zeros(InputReportLength)
    {
      data := new bv8[InputReportLength](_ => 0x00);
    }

    /** `reset`: the header and zeros, whatever the frame held. */
    method Reset()
      requires Valid()
      modifies data
      ensures data[..] == EmptyInputReport
    {
      CopyInto(data, 0, data.Length, EmptyInputReport);
      assert data[..] == EmptyInputReport;
    }

    method SetReportId(id: bv8)
      requires Valid()
      modifies data
      ensures data[..] == RI.WithReportId(old(data[..]), id)
    {
      data[1] := id;
    }

    /** `fillStandardData`: the stick bytes stay zero, as in the current joycontrol codec. */
    method FillStandardData(elapsed: int, queryDeviceInfo: bool)
      requires Valid()
      modifies data
      ensures data[..] == RI.WithStandardData(old(data[..]), elapsed, queryDeviceInfo)
    {
      data[2] := LowByte(elapsed);
      ghost var t := data[..];
      if queryDeviceInfo {
        data[3] := 0x90;
        data[4], data[5], data[6] := 0x00, 0x00, 0x00;
        data[7], data[8], data[9] := 0x00, 0x00, 0x00;
        data[10], data[11], data[12] := 0x00, 0x00, 0x00;
        data[13] := 0x80;
        assert data[3..14] == RI.DeviceInfoTelemetry;
        assert data[..3] == t[..3] && data[14..] == t[14..];
        assert data[..] == t[..3] + RI.DeviceInfoTelemetry + t[14..];
      }
    }

    method AckSetInputReportMode()
      requires Valid()
      modifies data
      ensures data[..] == RI.WithAck(old(data[..]), 0x80, SetInputReportMode)
    {
      data[14] := 0x80;
      data[15] := SetInputReportMode;
    }

    method AckDeviceInfo(mac: seq<bv8>)
      requires Valid()
      modifies data
      ensures data[..] == RI.WithDeviceInfo(old(data[..]), mac)
    {
      data[14] := 0x82;
      data[15] := RequestDeviceInfo;
      data[16] := 0x03;
      data[17] := 0x8B;
      data[18] := 0x03;
      data[19] := 0x02;
      CopyInto(data, 20, 26, mac);
      data[26] := 0x01;
      data[27] := 0x01;
    }

    method AckTriggerButtonsElapsedTime()
      requires Valid()
      modifies data
      ensures data[..] == RI.WithAck(old(data[..]), 0x83, TriggerButtonsElapsedTime)
    {
      data[14] := 0x83;
      data[15] := TriggerButtonsElapsedTime;
    }

    method AckSetShipmentLowPowerState()
      requires Valid()
      modifies data
      ensures data[..] == RI.WithAck(old(data[..]), 0x80, SetShipmentLowPowerState)
    {
      data[14] := 0x80;
      data[15] := SetShipmentLowPowerState;
    }

    /** `ackSpiFlashRead`: answers as the package-root joycontrol codec does, calibration included. */
    method AckSpiFlashRead(args: seq<bv8>)
      requires Valid() && SpiFlashReadArgsOk(args)
      modifies data
      ensures data[..] == LI.WithSpiFlashRead(old(data[..]), args)
    {
      SpiFlashReadArgsOkOnFrame(data[..], args);
      var lowEnd, highEnd, sectionRange := args[0], args[1], args[4];
      data[14] := 0x90;
      data[15] := SpiFlashRead;
      data[16] := lowEnd;
      data[17] := highEnd;
      data[20] := sectionRange;
      ghost var t := data[..];
      assert t == LI.SpiReadHeader(old(data[..]), args);
      var end := 21 + sectionRange as int;
      if lowEnd == 0x00 && highEnd == 0x60 {
        R.ReplaceSlice(data, 21, end, 0xFF);
      } else if lowEnd == 0x50 && highEnd == 0x60 {
        R.ReplaceSlice(data, 21, end, 0xFF);
      } else if lowEnd == 0x80 && highEnd == 0x60 {
        R.ReplaceSlice(data, 21, end, 0xFF);
      } else if lowEnd == 0x98 && highEnd == 0x60 {
        R.ReplaceSlice(data, 21, end, 0xFF);
      } else if lowEnd == 0x10 && highEnd == 0x80 {
        R.ReplaceSlice(data, 21, end, 0xFF);
      } else if lowEnd == 0x3D && highEnd == 0x60 {
        // the calibration section: both stick calibrations, then filler
        CopyInto(data, 21, 30, LI.LeftCalibration);
        CopyInto(data, 30, 39, LI.RightCalibration);
        R.ReplaceSlice(data, 39, 39 + sectionRange as int - |LI.LeftCalibration| - |LI.RightCalibration|, 0xFF);
      } else if lowEnd == 0x20 && highEnd == 0x60 {
        R.ReplaceSlice(data, 21, end, 0xFF);
      }
    }

    /** `ackSetNfcMcuConfig`: the fixed status block of the package-root joycontrol codec over 16..49. */
    method AckSetNfcMcuConfig()
      requires Valid()
      modifies data
      ensures data[..] == LI.WithNfcMcuConfig(old(data[..]))
    {
      data[14] := 0xA0;
      data[15] := SetNfcMcuConfig;
      CopyInto(data, 16, 16 + |LI.NfcMcuConfigData|, LI.NfcMcuConfigData);
    }

    method AckSetNfcMcuState()
      requires Valid()
      modifies data
      ensures data[..] == RI.WithAck(old(data[..]), 0x80, SetNfcMcuState)
    {
      data[14] := 0x80;
      data[15] := SetNfcMcuState;
    }

    method AckSetPlayerLights()
      requires Valid()
      modifies data
      ensures data[..] == RI.WithAck(old(data[..]), 0x80, SetPlayerLights)
    {
      data[14] := 0x80;
      data[15] := SetPlayerLights;
    }

    method AckEnableImu()
      requires Valid()
      modifies data
      ensures data[..] == RI.WithAck(old(data[..]), 0x80, EnableImu)
    {
      data[14] := 0x80;
      data[15] := EnableImu;
    }

    method AckEnableVibration()
      requires Valid()
      modifies data
      ensures data[..] == RI.WithAck(old(data[..]), 0x82, EnableVibration)
    {
      data[14] := 0x82;
      data[15] := EnableVibration;
    }
  }

  // ---------------------------------------------------------------- the output report

  /** What the read from the socket gives: an error number, or the bytes it placed in the buffer. */
  datatype ReadOutcome = ReadFailed(errno: int) | ReadBytes(bytes: seq<bv8>)

  /** The errors of `load`; an unknown report id is reported as an unknown subcommand. */
  datatype LoadError = ReadError(errno: int) | ErrBadLengthData | ErrMalformedData | ErrUnknownSubcommand

  /** A read never returns more bytes than the 50-byte buffer holds. */
  predicate Fits(read: ReadOutcome) {
    read.ReadBytes? ==> |read.bytes| <= OutputReportLength
  }

  /** The verdict of `load` on a read: the read error, then length, header and report id, in that order. */
  function LoadOutcome(read: ReadOutcome): (r: Outcome<LoadError>)
    requires Fits(read)
    ensures read.ReadFailed? ==> r == Fail(ReadError(read.errno))
    ensures read.ReadBytes? ==>
      && (r == Fail(ErrBadLengthData) <==> |read.bytes| != OutputReportLength)
      && (r == Fail(ErrMalformedData) <==>
            |read.bytes| == OutputReportLength && read.bytes[0] != OutputReportHeader)
      && (r == Fail(ErrUnknownSubcommand) <==>
            |read.bytes| == OutputReportLength && read.bytes[0] == OutputReportHeader
            && read.bytes[1] !in {0x01, 0x03, 0x10, 0x11})
      && (r == Pass <==>
            |read.bytes| == OutputReportLength && read.bytes[0] == OutputReportHeader
            && read.bytes[1] in {0x01, 0x03, 0x10, 0x11})
  {
    match read
    case ReadFailed(errno) => Fail(ReadError(errno))
    case ReadBytes(bytes) =>
      if |bytes| != OutputReportLength then Fail(ErrBadLengthData)
      else if bytes[0] != OutputReportHeader then Fail(ErrMalformedData)
      else if bytes[1] !in OutputReportIds then Fail(ErrUnknownSubcommand)
      else Pass
  }

  /** `OutputReport`: a report sent from the console to the controller, with the id of the last good load. */
  class OutputReport {
    var id: bv8
    const data: array<bv8>

    ghost predicate Valid()
      reads this
    {
      data.Length == OutputReportLength
    }

    /** The zero value of the struct. */
    constructor ()
      ensures Valid() && fresh(data) && id == 0x00 && data[..] == Pool.Zeros(OutputReportLength)
    {
      id := 0x00;
      data := new bv8[OutputReportLength](_ => 0x00);
    }

    /**
     * `load`, after the read: the bytes read overwrite the front of the buffer, and `id` takes
     * byte 1 only when every check passes.
     */
    method Load(read: ReadOutcome) returns (err: Outcome<LoadError>)
      requires Valid() && Fits(read)
      modifies this, data
      ensures Valid() && err == LoadOutcome(read)
      ensures data[..] == if read.ReadBytes? then Copied(old(data[..]), 0, OutputReportLength, read.bytes) else old(data[..])
      ensures id == if err == Pass then read.bytes[1] else old(id)
      ensures err == Pass ==> data[..] == read.bytes && GetSubcommand() == read.bytes[11]
      ensures err == Pass ==> GetSubcommandData() == read.bytes[12..]
    {
      if read.ReadFailed? {
        return Fail(ReadError(read.errno));
      }
      CopyInto(data, 0, data.Length, read.bytes);
      var n := |read.bytes|;
      if n != OutputReportLength {
        return Fail(ErrBadLengthData);
      }
      assert data[..] == read.bytes;
      if data[0] != OutputReportHeader {
        return Fail(ErrMalformedData);
      }
      var typeSlice := OutputReportIds;
      var reportId := data[1];
      if reportId !in typeSlice {
        return Fail(ErrUnknownSubcommand);
      }
      id := reportId;
      return Pass;
    }

    /** `getSubcommand`: byte 11. */
    function GetSubcommand(): (s: bv8)
      requires Valid()
      reads this, data
      ensures s == RO.Subcommand(data[..])
    {
      data[11]
    }

    /** `getSubcommandData`: the 38 bytes after the subcommand byte. */
    function GetSubcommandData(): (args: seq<bv8>)
      requires Valid()
      reads this, data
      ensures |args| == OutputReportLength - 12 && data[..12] + args == data[..]
    {
      data[12..]
    }
  }

  // ---------------------------------------------------------------- against the joycontrol parsers

  /**
   * A 50-byte frame passes `load` exactly when the current joycontrol parser accepts it with a
   * report id other than 0x12.
   */
  lemma LoadIsCurrentWithout0x12(b: seq<bv8>)
    requires |b| <= OutputReportLength
    ensures LoadOutcome(ReadBytes(b)) == Pass <==> RO.Validate(b) == Pass && b[1] != 0x12
  {
  }

  /**
   * Every frame the package-root joycontrol parser accepts passes `load`; a
   * `RumbleAndSubcommand` frame with an unknown subcommand passes `load` but not that parser.
   */
  lemma LegacyAcceptedLoads(b: seq<bv8>)
    requires |b| <= OutputReportLength
    ensures LO.Validate(b) == Pass ==> LoadOutcome(ReadBytes(b)) == Pass
    ensures |b| == OutputReportLength && b[0] == OutputReportHeader && b[1] == 0x01 && b[11] !in Subcommands ==>
      LoadOutcome(ReadBytes(b)) == Pass && LO.Validate(b) == Fail(LO.ErrUnknownSubcommand)
  {
  }
}
