/**
 * The subcommand engine of the current generation: it advances an 8-bit timer, dispatches
 * on the subcommand byte of an output report, updates the controller and its MCU, and
 * builds the reply in a buffer taken from the pool.
 *
 * The wall clock enters as microsecond durations and the CRC-8 routine as a function
 * value given to the protocol object. The reply each path produces is specified by
 * `Reply`, the controller state it leaves by `NextFlags`.
 */
module Protocol {
  import opened Wrappers
  import opened GoBuiltins
  import opened Report
  import opened ReportInput
  import opened ReportOutput
  import opened Mcu
  import opened Pool
  import C = Controller

  // ---------------------------------------------------------------- timer

  /** `updateTimer`: four ticks per microsecond, kept to its low eight bits. */
  function Tick(elapsed: int, micros: int): (e: int)
    ensures 0 <= e < 256
    ensures (e - elapsed - 4 * micros) % 256 == 0
  {
    (elapsed + micros * 4) % 256
  }

  /** Two timer updates advance it by the sum of their durations. */
  lemma TickAdditive(elapsed: int, a: int, b: int)
    ensures Tick(Tick(elapsed, a), b) == Tick(elapsed, a + b)
  {
    var x := elapsed + a * 4;
    assert Tick(elapsed, a) == x % 256;
    assert x == 256 * (x / 256) + x % 256;
    assert Tick(elapsed, a) + b * 4 == (elapsed + (a + b) * 4) - 256 * (x / 256);
    ModShift(elapsed + (a + b) * 4, x / 256);
  }

  /** Shifting by a multiple of 256 does not change the low byte. */
  lemma ModShift(y: int, q: int)
    ensures (y - 256 * q) % 256 == y % 256
  {
    assert y - 256 * q == 256 * (y / 256 - q) + y % 256;
  }

  // ---------------------------------------------------------------- what a handler may read

  /** What the `SetMcuMode` branch of `answerSetNfcMcuConfig` reads from the MCU arguments. */
  predicate McuConfigReadable(o: seq<bv8>) {
    && McuCommandReadable(o)
    && (McuCommand(o) == SetMcuMode ==>
          |McuCommandArgs(o)| >= 1 && (McuCommandArgs(o)[0] == 0x00 ==> |McuCommandArgs(o)| >= 2))
  }

  /** The bytes the handler for the frame's subcommand indexes: the Go code panics without them. */
  predicate Answerable(o: seq<bv8>) {
    && |o| > 11
    && (Subcommand(o) in {SetInputReportMode, SetNfcMcuState, EnableImu} ==> |SubcommandArgs(o)| >= 1)
    && (Subcommand(o) == SpiFlashRead ==>
          |SubcommandArgs(o)| >= 5 &&
          (KnownSpiRange(SubcommandArgs(o)[0], SubcommandArgs(o)[1]) ==>
             21 + SubcommandArgs(o)[4] as int <= StandardSize))
    && (Subcommand(o) == SetNfcMcuConfig ==> McuConfigReadable(o))
  }

  /** A frame the parser accepts can be answered unless it asks for more of a known SPI section than the reply holds. */
  lemma ValidFrameAnswerable(o: seq<bv8>)
    requires Validate(o) == Pass
    requires Subcommand(o) == SpiFlashRead && KnownSpiRange(o[12], o[13]) ==> o[16] as int <= 29
    ensures Answerable(o)
  {
    ValidFrameReadable(o);
    assert SubcommandArgs(o) == o[12..];
  }

  // ---------------------------------------------------------------- state transition

  /** The MCU mode after `answerSetNfcMcuConfig`: set only by `SetMcuMode` with sub-command 0 and a known mode. */
  function NextMcuMode(mode: bv8, o: seq<bv8>): (next: bv8)
    requires McuConfigReadable(o)
    ensures next == mode || next == McuStandby || next == McuNfc
    ensures McuCommand(o) != SetMcuMode || McuCommandArgs(o)[0] != 0x00 ==> next == mode
    ensures McuCommand(o) == SetMcuMode && McuCommandArgs(o)[0] == 0x00 ==>
      next == (if McuCommandArgs(o)[1] == 0x00 then McuStandby
               else if McuCommandArgs(o)[1] == 0x04 then McuNfc
               else mode)
  {
    if McuCommand(o) == SetMcuMode && McuCommandArgs(o)[0] == 0x00 then
      if McuCommandArgs(o)[1] == 0x00 then McuStandby
      else if McuCommandArgs(o)[1] == 0x04 then McuNfc
      else mode
    else mode
  }

  /** The controller state `processSubcommandReport` leaves. */
  function NextFlags(f: C.Flags, o: seq<bv8>): (g: C.Flags)
    requires Answerable(o)
    ensures g.dirty == f.dirty
    ensures g.deviceInfoRequired == (f.deviceInfoRequired || Subcommand(o) == RequestDeviceInfo)
    ensures g.playerNumber == (f.playerNumber || Subcommand(o) == SetPlayerLights)
    ensures g.vibrationEnabled == (f.vibrationEnabled || Subcommand(o) == EnableVibration)
    ensures Subcommand(o) != SetInputReportMode ==> g.mode == f.mode
    ensures Subcommand(o) != EnableImu ==> g.imuEnabled == f.imuEnabled
    ensures Subcommand(o) != SetNfcMcuConfig ==> g.mcuMode == f.mcuMode
    ensures Subcommand(o) != SetNfcMcuState ==> g.mcuPower == f.mcuPower
    ensures Subcommand(o) !in Subcommands ==> g == f
  {
    var sub := Subcommand(o);
    if sub == RequestDeviceInfo then f.(deviceInfoRequired := true)
    else if sub == SetInputReportMode then f.(mode := SubcommandArgs(o)[0])
    else if sub == SetNfcMcuConfig then f.(mcuMode := NextMcuMode(f.mcuMode, o))
    else if sub == SetNfcMcuState then f.(mcuPower := PowerStateFor(SubcommandArgs(o)[0] == 0x01))
    else if sub == SetPlayerLights then f.(playerNumber := true)
    else if sub == EnableImu then f.(imuEnabled := SubcommandArgs(o)[0] == 0x01)
    else if sub == EnableVibration then f.(vibrationEnabled := true)
    else f
  }

  // ---------------------------------------------------------------- reply frames

  /** A reset standard buffer with the report id and the standard data written: where every reply starts. */
  function ReplyBase(id: bv8, elapsed: int, deviceInfo: bool): (r: seq<bv8>)
    ensures |r| == StandardSize && r[0] == InputReportHeader && r[1] == id && r[2] == LowByte(elapsed)
    ensures deviceInfo ==> r[3..14] == DeviceInfoTelemetry
    ensures !deviceInfo ==> forall k :: 3 <= k < 14 ==> r[k] == 0x00
    ensures forall k :: 14 <= k < StandardSize ==> r[k] == 0x00
  {
    WithStandardData(WithReportId(Template(StandardSize), id), elapsed, deviceInfo)
  }

  /** `generateStandardReport`: a full-mode report with the IMU block when the IMU is enabled. */
  function StandardReport(elapsed: int, deviceInfo: bool, imu: bool): (r: seq<bv8>)
    ensures |r| == StandardSize && r[0] == InputReportHeader && r[1] == StandardFullModeId
    ensures r[2] == LowByte(elapsed)
    ensures imu ==> r[14..] == ImuSample
    ensures !imu ==> forall k :: 14 <= k < StandardSize ==> r[k] == 0x00
  {
    WithImuData(ReplyBase(StandardFullModeId, elapsed, deviceInfo), imu)
  }

  /** The `answerSetNfcMcuConfig` reply: the MCU status at 16, then the CRC of bytes 16.. in the last byte. */
  function NfcConfigReply(base: seq<bv8>, state: seq<bv8>, crc8: seq<bv8> -> bv8): (r: seq<bv8>)
    requires |base| == StandardSize && |state| <= 34
    ensures |r| == StandardSize && r[..14] == base[..14] && r[14] == 0xA0 && r[15] == SetNfcMcuConfig
    ensures |state| < 34 ==> r[16..16 + |state|] == state && r[16 + |state|..49] == base[16 + |state|..49]
    ensures |state| < 34 ==> r[49] == crc8(r[16..49] + [base[49]])
    ensures |state| == 34 ==> r[16..49] == state[..33] && r[49] == crc8(state)
  {
    var t := WithNfcMcuConfig(base, state);
    var r := WithChecksum(t, crc8(t[16..]));
    assert r[16..49] == t[16..49] && t[16..] == t[16..49] + [t[49]];
    assert |state| < 34 ==> t[49] == base[49];
    assert |state| == 34 ==> t[16..] == state;
    r
  }

  /** The ACK byte the reply to each known subcommand carries at byte 14. */
  function AckByte(sub: bv8): bv8 {
    if sub == RequestDeviceInfo || sub == EnableVibration then 0x82
    else if sub == TriggerButtonsElapsedTime then 0x83
    else if sub == SpiFlashRead then 0x90
    else if sub == SetNfcMcuConfig then 0xA0
    else 0x80
  }

  /**
   * The reply `processSubcommandReport` builds for `o` from the state `f` it found, with the
   * timer at `elapsed` after its own update; an unknown subcommand is answered with a
   * standard report whose timer has advanced by a further `standardMicros`.
   */
  function Reply(f: C.Flags, elapsed: int, mac: seq<bv8>, crc8: seq<bv8> -> bv8, o: seq<bv8>, standardMicros: int): (r: seq<bv8>)
    requires Answerable(o)
    ensures |r| == StandardSize
  {
    var sub := Subcommand(o);
    var base := ReplyBase(SubcommandReplies, elapsed, NextFlags(f, o).deviceInfoRequired);
    if sub == RequestDeviceInfo then WithDeviceInfo(base, mac)
    else if sub == SetInputReportMode then WithAck(base, 0x80, SetInputReportMode)
    else if sub == TriggerButtonsElapsedTime then WithAck(base, 0x83, TriggerButtonsElapsedTime)
    else if sub == SetShipmentLowPowerState then WithAck(base, 0x80, SetShipmentLowPowerState)
    else if sub == SpiFlashRead then WithSpiFlashRead(base, SubcommandArgs(o))
    else if sub == SetNfcMcuConfig then NfcConfigReply(base, StatusPrefix + [f.mcuMode], crc8)
    else if sub == SetNfcMcuState then WithAck(base, 0x80, SetNfcMcuState)
    else if sub == SetPlayerLights then WithAck(base, 0x80, SetPlayerLights)
    else if sub == EnableImu then WithAck(base, 0x80, EnableImu)
    else if sub == EnableVibration then WithAck(base, 0x82, EnableVibration)
    else StandardReport(Tick(elapsed, standardMicros), f.deviceInfoRequired, f.imuEnabled)
  }

  // ---------------------------------------------------------------- properties of the engine

  /** Every known subcommand is answered with a subcommand reply carrying the timer and its ACK pair. */
  lemma KnownSubcommandReply(f: C.Flags, elapsed: int, mac: seq<bv8>, crc8: seq<bv8> -> bv8, o: seq<bv8>, m: int)
    requires Answerable(o) && Subcommand(o) in Subcommands
    ensures var r := Reply(f, elapsed, mac, crc8, o, m);
      && r[0] == InputReportHeader && r[1] == SubcommandReplies && r[2] == LowByte(elapsed)
      && r[14] == AckByte(Subcommand(o)) && r[15] == Subcommand(o)
  {
    var r := Reply(f, elapsed, mac, crc8, o, m);
    var sub := Subcommand(o);
    var base := ReplyBase(SubcommandReplies, elapsed, NextFlags(f, o).deviceInfoRequired);
    if sub == SetNfcMcuConfig {
      var t := WithNfcMcuConfig(base, StatusPrefix + [f.mcuMode]);
      assert r == WithChecksum(t, crc8(t[16..]));
      assert r[..49] == t[..49];
      assert r[0] == t[0] && r[1] == t[1] && r[2] == t[2] && r[14] == t[14] && r[15] == t[15];
    } else if sub == RequestDeviceInfo {
    } else if sub == SpiFlashRead {
    } else if sub == SetInputReportMode {
    } else if sub == TriggerButtonsElapsedTime {
    } else if sub == SetShipmentLowPowerState {
    } else if sub == SetNfcMcuState {
    } else if sub == SetPlayerLights {
    } else if sub == EnableImu {
    } else {
      assert sub == EnableVibration;
    }
  }

  /** Any other subcommand byte is answered with a standard full-mode report and changes no state. */
  lemma UnknownSubcommandReply(f: C.Flags, elapsed: int, mac: seq<bv8>, crc8: seq<bv8> -> bv8, o: seq<bv8>, m: int)
    requires |o| > 11 && Subcommand(o) !in Subcommands
    ensures Answerable(o) && NextFlags(f, o) == f
    ensures var r := Reply(f, elapsed, mac, crc8, o, m);
      && r[0] == InputReportHeader && r[1] == StandardFullModeId && r[2] == LowByte(Tick(elapsed, m))
      && r[14..] == (if f.imuEnabled then ImuSample else Zeros(36))
  {
    var r := Reply(f, elapsed, mac, crc8, o, m);
    if !f.imuEnabled {
      assert r[14..] == Zeros(36);
    }
  }

  /** `answerDeviceInfo` sets the flag before filling, so its reply carries the device-info telemetry and the MAC. */
  lemma DeviceInfoReply(f: C.Flags, elapsed: int, mac: seq<bv8>, crc8: seq<bv8> -> bv8, o: seq<bv8>, m: int)
    requires |o| > 11 && Subcommand(o) == RequestDeviceInfo
    ensures Answerable(o) && NextFlags(f, o) == f.(deviceInfoRequired := true)
    ensures var r := Reply(f, elapsed, mac, crc8, o, m);
      && r[3] == 0x90 && r[3..14] == DeviceInfoTelemetry && r[13] == 0x80
      && (|mac| >= 6 ==> r[20..26] == mac[..6])
  {
    var r := Reply(f, elapsed, mac, crc8, o, m);
    var base := ReplyBase(SubcommandReplies, elapsed, true);
    assert r == WithDeviceInfo(base, mac);
    assert r[..14] == base[..14];
    assert r[3..14] == base[3..14];
  }

  /** The handlers that only answer leave the controller as it was. */
  lemma AnswerOnlyHandlers(f: C.Flags, o: seq<bv8>)
    requires Answerable(o)
    requires Subcommand(o) in {TriggerButtonsElapsedTime, SetShipmentLowPowerState, SpiFlashRead}
    ensures NextFlags(f, o) == f
  {
  }

  /** `answerEnableImu` enables the IMU exactly when the argument is 1, so it can also disable it; nothing else changes. */
  lemma EnableImuFollowsArgument(f: C.Flags, o: seq<bv8>)
    requires Answerable(o) && Subcommand(o) == EnableImu
    ensures NextFlags(f, o).imuEnabled <==> o[12] == 0x01
    ensures NextFlags(f, o).(imuEnabled := f.imuEnabled) == f
  {
    assert SubcommandArgs(o)[0] == o[12];
  }

  /** `answerSetNfcMcuState` resumes the MCU exactly when the argument is 1 and suspends it otherwise. */
  lemma NfcMcuStateFollowsArgument(f: C.Flags, o: seq<bv8>)
    requires Answerable(o) && Subcommand(o) == SetNfcMcuState
    ensures NextFlags(f, o).mcuPower == McuResume <==> o[12] == 0x01
    ensures NextFlags(f, o).mcuPower == McuSuspend <==> o[12] != 0x01
    ensures NextFlags(f, o).(mcuPower := f.mcuPower) == f
  {
    assert SubcommandArgs(o)[0] == o[12];
  }

  /** `answerSetMode` stores the argument as the report mode; the light and vibration handlers set their flags. */
  lemma FlagSetters(f: C.Flags, o: seq<bv8>)
    requires Answerable(o)
    ensures Subcommand(o) == SetInputReportMode ==> NextFlags(f, o) == f.(mode := o[12])
    ensures Subcommand(o) == SetPlayerLights ==> NextFlags(f, o) == f.(playerNumber := true)
    ensures Subcommand(o) == EnableVibration ==> NextFlags(f, o) == f.(vibrationEnabled := true)
  {
    if Subcommand(o) == SetInputReportMode {
      assert SubcommandArgs(o)[0] == o[12];
    }
  }

  /**
   * `answerSetNfcMcuConfig` changes only the MCU mode, and only under `SetMcuMode` with
   * sub-command 0: mode argument 0 selects standby, 4 selects NFC, anything else is ignored.
   */
  lemma McuConfigRules(f: C.Flags, o: seq<bv8>)
    requires Answerable(o) && Subcommand(o) == SetNfcMcuConfig
    ensures NextFlags(f, o).(mcuMode := f.mcuMode) == f
    ensures NextFlags(f, o).mcuMode != f.mcuMode ==>
      McuCommand(o) == SetMcuMode && McuCommandArgs(o)[0] == 0x00 && McuCommandArgs(o)[1] in {0x00, 0x04}
    ensures McuCommand(o) == SetMcuMode && McuCommandArgs(o)[0] == 0x00 && McuCommandArgs(o)[1] == 0x00 ==>
      NextFlags(f, o).mcuMode == McuStandby
    ensures McuCommand(o) == SetMcuMode && McuCommandArgs(o)[0] == 0x00 && McuCommandArgs(o)[1] == 0x04 ==>
      NextFlags(f, o).mcuMode == McuNfc
  {
  }

  /**
   * Byte 11 is the MCU command unless the frame nests one: a frame with another report id
   * whose subcommand is `SetNfcMcuConfig` is read as `SetMcuMode` with its arguments from byte 12.
   */
  lemma McuCommandOfConfigFrame(o: seq<bv8>)
    requires |o| > 12 && Subcommand(o) == SetNfcMcuConfig && Id(o) != RumbleAndSubcommand
    ensures McuCommandReadable(o) && McuCommand(o) == SetMcuMode && McuCommandArgs(o) == o[12..]
  {
  }

  /**
   * The `answerSetNfcMcuConfig` reply carries the MCU status captured before the update, so
   * byte 23 is the old mode, and its last byte is the CRC of bytes 16.. with that byte still zero.
   */
  lemma NfcConfigReplyContents(f: C.Flags, elapsed: int, mac: seq<bv8>, crc8: seq<bv8> -> bv8, o: seq<bv8>, m: int)
    requires Answerable(o) && Subcommand(o) == SetNfcMcuConfig
    ensures var r := Reply(f, elapsed, mac, crc8, o, m);
      && r[16..23] == StatusPrefix && r[23] == f.mcuMode
      && r[24..49] == Zeros(25)
      && r[49] == crc8(r[16..49] + [0x00])
  {
    var r := Reply(f, elapsed, mac, crc8, o, m);
    var base := ReplyBase(SubcommandReplies, elapsed, f.deviceInfoRequired);
    var state := StatusPrefix + [f.mcuMode];
    var t := WithNfcMcuConfig(base, state);
    assert r == WithChecksum(t, crc8(t[16..]));
    assert t[16..24] == state;
    assert t[24..] == base[24..];
    assert t[49] == t[24..][25] == base[49] == 0x00;
    assert t[16..] == t[16..49] + [t[49]];
    assert r[..49] == t[..49];
    assert r[16..49] == t[16..49];
    assert r[16..23] == state[..7];
    assert r[24..49] == Zeros(25);
  }

  /** The SPI-flash reply echoes the address and length, fills a known section with 0xFF and leaves the rest zero. */
  lemma SpiFlashReadReply(f: C.Flags, elapsed: int, mac: seq<bv8>, crc8: seq<bv8> -> bv8, o: seq<bv8>, m: int)
    requires Answerable(o) && Subcommand(o) == SpiFlashRead
    ensures var r := Reply(f, elapsed, mac, crc8, o, m);
      && r[16] == o[12] && r[17] == o[13] && r[18] == 0x00 && r[19] == 0x00 && r[20] == o[16]
      && (KnownSpiRange(o[12], o[13]) ==> forall k :: 21 <= k < 21 + o[16] as int ==> r[k] == 0xFF)
      && (!KnownSpiRange(o[12], o[13]) ==> forall k :: 21 <= k < StandardSize ==> r[k] == 0x00)
  {
    var args := SubcommandArgs(o);
    assert args[0] == o[12] && args[1] == o[13] && args[4] == o[16];
    var base := ReplyBase(SubcommandReplies, elapsed, f.deviceInfoRequired);
    var r := Reply(f, elapsed, mac, crc8, o, m);
    assert r == WithSpiFlashRead(base, args);
    if !KnownSpiRange(o[12], o[13]) {
      forall k | 21 <= k < StandardSize
        ensures r[k] == 0x00
      {
        assert r[k] == r[21..][k - 21] == base[21..][k - 21];
      }
    }
  }

  // ---------------------------------------------------------------- the protocol object

  class Protocol {
    /** The 8-bit timer; `lastTime` is replaced by the durations passed in. */
    var elapsed: int
    const mac: seq<bv8>
    /** `crc8Checksum`, which is not part of this model. */
    const crc8: seq<bv8> -> bv8

    ghost predicate Valid()
      reads this
    {
      0 <= elapsed < 256
    }

    /** `NewProtocol`. */
    constructor (mac: seq<bv8>, crc8: seq<bv8> -> bv8)
      ensures Valid() && elapsed == 0 && this.mac == mac && this.crc8 == crc8
    {
      elapsed := 0;
      this.mac := mac;
      this.crc8 := crc8;
    }

    /** `updateTimer`, given the microseconds since the last update. */
    method UpdateTimer(micros: int)
      modifies this`elapsed
      ensures Valid() && elapsed == Tick(old(elapsed), micros)
    {
      elapsed := (elapsed + micros * 4) % 256;
    }

    /**
     * `generateStandardReport`. Its receiver is a copy, so the timer update it makes is
     * seen by this report only and the stored timer does not move.
     */
    method GenerateStandardReport(ctrl: C.Controller, pool: ReportPool, micros: int) returns (input: array<bv8>)
      requires pool.Valid()
      modifies pool, Top(pool.standard)
      ensures pool.Valid() && pool.nfc == old(pool.nfc)
      ensures HandedOut(old(pool.standard), pool.standard, input) && (old(pool.standard) == [] ==> fresh(input))
      ensures input[..] == StandardReport(Tick(elapsed, micros), ctrl.DeviceInfoRequired, ctrl.ImuEnabled)
    {
      var copyElapsed := Tick(elapsed, micros);
      input := pool.AllocStandardReport();
      SetReportId(input, StandardFullModeId);
      FillStandardData(input, copyElapsed, ctrl.DeviceInfoRequired);
      SetImuData(input, ctrl.ImuEnabled);
    }

    method AnswerSetMode(ctrl: C.Controller, o: seq<bv8>, pool: ReportPool) returns (input: array<bv8>)
      requires pool.Valid() && |o| > 12
      modifies ctrl, pool, Top(pool.standard)
      ensures ctrl.Snapshot() == old(ctrl.Snapshot()).(mode := SubcommandArgs(o)[0])
      ensures pool.Valid() && pool.nfc == old(pool.nfc)
      ensures HandedOut(old(pool.standard), pool.standard, input) && (old(pool.standard) == [] ==> fresh(input))
      ensures input[..] == WithAck(ReplyBase(SubcommandReplies, elapsed, ctrl.DeviceInfoRequired), 0x80, SetInputReportMode)
    {
      ctrl.Mode := SubcommandArgs(o)[0];
      input := pool.AllocStandardReport();
      SetReportId(input, SubcommandReplies);
      FillStandardData(input, elapsed, ctrl.DeviceInfoRequired);
      AckSetInputReportMode(input);
    }

    method AnswerTriggerButtonsElapsedTime(ctrl: C.Controller, pool: ReportPool) returns (input: array<bv8>)
      requires pool.Valid()
      modifies pool, Top(pool.standard)
      ensures pool.Valid() && pool.nfc == old(pool.nfc)
      ensures HandedOut(old(pool.standard), pool.standard, input) && (old(pool.standard) == [] ==> fresh(input))
      ensures input[..] == WithAck(ReplyBase(SubcommandReplies, elapsed, ctrl.DeviceInfoRequired), 0x83, TriggerButtonsElapsedTime)
    {
      input := pool.AllocStandardReport();
      SetReportId(input, SubcommandReplies);
      FillStandardData(input, elapsed, ctrl.DeviceInfoRequired);
      AckTriggerButtonsElapsedTime(input);
    }

    method AnswerDeviceInfo(ctrl: C.Controller, pool: ReportPool) returns (input: array<bv8>)
      requires pool.Valid()
      modifies ctrl, pool, Top(pool.standard)
      ensures ctrl.Snapshot() == old(ctrl.Snapshot()).(deviceInfoRequired := true)
      ensures pool.Valid() && pool.nfc == old(pool.nfc)
      ensures HandedOut(old(pool.standard), pool.standard, input) && (old(pool.standard) == [] ==> fresh(input))
      ensures input[..] == WithDeviceInfo(ReplyBase(SubcommandReplies, elapsed, true), mac)
    {
      ctrl.DeviceInfoRequired := true;
      input := pool.AllocStandardReport();
      SetReportId(input, SubcommandReplies);
      FillStandardData(input, elapsed, ctrl.DeviceInfoRequired);
      AckDeviceInfo(input, mac);
    }

    method AnswerSetShipmentState(ctrl: C.Controller, pool: ReportPool) returns (input: array<bv8>)
      requires pool.Valid()
      modifies pool, Top(pool.standard)
      ensures pool.Valid() && pool.nfc == old(pool.nfc)
      ensures HandedOut(old(pool.standard), pool.standard, input) && (old(pool.standard) == [] ==> fresh(input))
      ensures input[..] == WithAck(ReplyBase(SubcommandReplies, elapsed, ctrl.DeviceInfoRequired), 0x80, SetShipmentLowPowerState)
    {
      input := pool.AllocStandardReport();
      SetReportId(input, SubcommandReplies);
      FillStandardData(input, elapsed, ctrl.DeviceInfoRequired);
      AckSetShipmentLowPowerState(input);
    }

    method AnswerSpiRead(ctrl: C.Controller, o: seq<bv8>, pool: ReportPool) returns (input: array<bv8>)
      requires pool.Valid() && |o| > 11
      requires SpiFlashReadArgsOk(Template(StandardSize), SubcommandArgs(o))
      modifies pool, Top(pool.standard)
      ensures pool.Valid() && pool.nfc == old(pool.nfc)
      ensures HandedOut(old(pool.standard), pool.standard, input) && (old(pool.standard) == [] ==> fresh(input))
      ensures input[..] == WithSpiFlashRead(ReplyBase(SubcommandReplies, elapsed, ctrl.DeviceInfoRequired), SubcommandArgs(o))
    {
      var args := SubcommandArgs(o);
      input := pool.AllocStandardReport();
      SetReportId(input, SubcommandReplies);
      FillStandardData(input, elapsed, ctrl.DeviceInfoRequired);
      AckSpiFlashRead(input, args);
    }

    /** The MCU part of `answerSetNfcMcuConfig`: a `SetMcuMode` command to mode 0 or 4 switches the MCU mode. */
    method ApplyMcuConfig(ctrl: C.Controller, o: seq<bv8>)
      requires McuConfigReadable(o)
      modifies ctrl.mcu
      ensures ctrl.Snapshot() == old(ctrl.Snapshot()).(mcuMode := NextMcuMode(old(ctrl.mcu.mode), o))
    {
      if McuCommand(o) == SetMcuMode {
        var args := McuCommandArgs(o);
        var subcmd := args[0];
        if subcmd == 0x00 {
          if args[1] == 0x00 {
            ctrl.SetMcuState(McuStandby);
          } else if args[1] == 0x04 {
            ctrl.SetMcuState(McuNfc);
          }
          // any other mode is only logged
        }
        // any other sub-command is only logged
      }
      // any other MCU command is only logged
    }

    method AnswerSetNfcMcuConfig(ctrl: C.Controller, o: seq<bv8>, pool: ReportPool) returns (input: array<bv8>)
      requires pool.Valid() && McuConfigReadable(o)
      modifies ctrl.mcu, pool, Top(pool.standard)
      ensures ctrl.Snapshot() == old(ctrl.Snapshot()).(mcuMode := NextMcuMode(old(ctrl.mcu.mode), o))
      ensures pool.Valid() && pool.nfc == old(pool.nfc)
      ensures HandedOut(old(pool.standard), pool.standard, input) && (old(pool.standard) == [] ==> fresh(input))
      ensures input[..] == NfcConfigReply(ReplyBase(SubcommandReplies, elapsed, ctrl.DeviceInfoRequired),
                                          StatusPrefix + [old(ctrl.mcu.mode)], crc8)
    {
      var state := ctrl.McuState();
      assert state == StatusPrefix + [old(ctrl.mcu.mode)];
      ApplyMcuConfig(ctrl, o);
      input := BuildNfcConfigReply(pool, ctrl.DeviceInfoRequired, state);
    }

    /** The reply part of `answerSetNfcMcuConfig`: the MCU status read before the command, then its checksum. */
    method BuildNfcConfigReply(pool: ReportPool, deviceInfoRequired: bool, state: seq<bv8>) returns (input: array<bv8>)
      requires pool.Valid() && |state| <= 34
      modifies pool, Top(pool.standard)
      ensures pool.Valid() && pool.nfc == old(pool.nfc)
      ensures HandedOut(old(pool.standard), pool.standard, input) && (old(pool.standard) == [] ==> fresh(input))
      ensures input[..] == NfcConfigReply(ReplyBase(SubcommandReplies, elapsed, deviceInfoRequired), state, crc8)
    {
      input := pool.AllocStandardReport();
      SetReportId(input, SubcommandReplies);
      FillStandardData(input, elapsed, deviceInfoRequired);
      ghost var base := input[..];
      assert base == ReplyBase(SubcommandReplies, elapsed, deviceInfoRequired);
      AckSetNfcMcuConfig(input, state);
      ghost var t := input[..];
      assert t == WithNfcMcuConfig(base, state);
      UpdateChecksum(input, crc8(input[16..]));
    }

    method AnswerSetNfcMcuState(ctrl: C.Controller, o: seq<bv8>, pool: ReportPool) returns (input: array<bv8>)
      requires pool.Valid() && |o| > 12
      modifies ctrl.mcu, pool, Top(pool.standard)
      ensures ctrl.Snapshot() == old(ctrl.Snapshot()).(mcuPower := PowerStateFor(SubcommandArgs(o)[0] == 0x01))
      ensures pool.Valid() && pool.nfc == old(pool.nfc)
      ensures HandedOut(old(pool.standard), pool.standard, input) && (old(pool.standard) == [] ==> fresh(input))
      ensures input[..] == WithAck(ReplyBase(SubcommandReplies, elapsed, ctrl.DeviceInfoRequired), 0x80, SetNfcMcuState)
    {
      var args := SubcommandArgs(o);
      ctrl.ToggleMcuPower(args[0] == 0x01);
      input := pool.AllocStandardReport();
      SetReportId(input, SubcommandReplies);
      FillStandardData(input, elapsed, ctrl.DeviceInfoRequired);
      AckSetNfcMcuState(input);
    }

    method AnswerSetPlayerLights(ctrl: C.Controller, pool: ReportPool) returns (input: array<bv8>)
      requires pool.Valid()
      modifies ctrl, pool, Top(pool.standard)
      ensures ctrl.Snapshot() == old(ctrl.Snapshot()).(playerNumber := true)
      ensures pool.Valid() && pool.nfc == old(pool.nfc)
      ensures HandedOut(old(pool.standard), pool.standard, input) && (old(pool.standard) == [] ==> fresh(input))
      ensures input[..] == WithAck(ReplyBase(SubcommandReplies, elapsed, ctrl.DeviceInfoRequired), 0x80, SetPlayerLights)
    {
      ctrl.PlayerNumber := true;
      input := pool.AllocStandardReport();
      SetReportId(input, SubcommandReplies);
      FillStandardData(input, elapsed, ctrl.DeviceInfoRequired);
      AckSetPlayerLights(input);
    }

    method AnswerEnableImu(ctrl: C.Controller, o: seq<bv8>, pool: ReportPool) returns (input: array<bv8>)
      requires pool.Valid() && |o| > 12
      modifies ctrl, pool, Top(pool.standard)
      ensures ctrl.Snapshot() == old(ctrl.Snapshot()).(imuEnabled := SubcommandArgs(o)[0] == 0x01)
      ensures pool.Valid() && pool.nfc == old(pool.nfc)
      ensures HandedOut(old(pool.standard), pool.standard, input) && (old(pool.standard) == [] ==> fresh(input))
      ensures input[..] == WithAck(ReplyBase(SubcommandReplies, elapsed, ctrl.DeviceInfoRequired), 0x80, EnableImu)
    {
      var args := SubcommandArgs(o);
      ctrl.ImuEnabled := args[0] == 0x01;
      input := pool.AllocStandardReport();
      SetReportId(input, SubcommandReplies);
      FillStandardData(input, elapsed, ctrl.DeviceInfoRequired);
      AckEnableImu(input);
    }

    method AnswerEnableVibration(ctrl: C.Controller, pool: ReportPool) returns (input: array<bv8>)
      requires pool.Valid()
      modifies ctrl, pool, Top(pool.standard)
      ensures ctrl.Snapshot() == old(ctrl.Snapshot()).(vibrationEnabled := true)
      ensures pool.Valid() && pool.nfc == old(pool.nfc)
      ensures HandedOut(old(pool.standard), pool.standard, input) && (old(pool.standard) == [] ==> fresh(input))
      ensures input[..] == WithAck(ReplyBase(SubcommandReplies, elapsed, ctrl.DeviceInfoRequired), 0x82, EnableVibration)
    {
      ctrl.VibrationEnabled := true;
      input := pool.AllocStandardReport();
      SetReportId(input, SubcommandReplies);
      FillStandardData(input, elapsed, ctrl.DeviceInfoRequired);
      AckEnableVibration(input);
    }

    /**
     * `processSubcommandReport`: advance the timer by `micros`, then answer the subcommand.
     * `standardMicros` is the time the standard report for an unknown subcommand measures
     * on its own copy of the protocol.
     */
    method ProcessSubcommandReport(ctrl: C.Controller, o: seq<bv8>, pool: ReportPool, micros: int, standardMicros: int)
      returns (input: array<bv8>)
      requires ctrl.Valid() && pool.Valid() && Answerable(o)
      modifies this`elapsed, ctrl, ctrl.mcu, pool, Top(pool.standard)
      ensures Valid() && elapsed == Tick(old(elapsed), micros)
      ensures ctrl.Snapshot() == NextFlags(old(ctrl.Snapshot()), o)
      ensures ctrl.bs.data[..] == old(ctrl.bs.data[..])
      ensures pool.Valid() && pool.nfc == old(pool.nfc)
      ensures HandedOut(old(pool.standard), pool.standard, input) && (old(pool.standard) == [] ==> fresh(input))
      ensures input[..] == Reply(old(ctrl.Snapshot()), elapsed, mac, crc8, o, standardMicros)
    {
      assert ctrl.bs.data !in Top(pool.standard);
      UpdateTimer(micros);
      var subcommand := Subcommand(o);
      if subcommand == RequestDeviceInfo {
        input := AnswerDeviceInfo(ctrl, pool);
      } else if subcommand == SetInputReportMode {
        input := AnswerSetMode(ctrl, o, pool);
      } else if subcommand == TriggerButtonsElapsedTime {
        input := AnswerTriggerButtonsElapsedTime(ctrl, pool);
      } else if subcommand == SetShipmentLowPowerState {
        input := AnswerSetShipmentState(ctrl, pool);
      } else if subcommand == SpiFlashRead {
        input := AnswerSpiRead(ctrl, o, pool);
      } else if subcommand == SetNfcMcuConfig {
        input := AnswerSetNfcMcuConfig(ctrl, o, pool);
      } else if subcommand == SetNfcMcuState {
        input := AnswerSetNfcMcuState(ctrl, o, pool);
      } else if subcommand == SetPlayerLights {
        input := AnswerSetPlayerLights(ctrl, pool);
      } else if subcommand == EnableImu {
        input := AnswerEnableImu(ctrl, o, pool);
      } else if subcommand == EnableVibration {
        input := AnswerEnableVibration(ctrl, pool);
      } else {
        // unknown subcommands are ignored: the peer gets a standard report, not a NACK
        input := GenerateStandardReport(ctrl, pool, standardMicros);
      }
    }
  }
}
