# go-joycontrol core, modelled in Dafny

go-joycontrol emulates a Nintendo Switch Pro Controller over Bluetooth HID. The console sends
50-byte output reports, and the controller answers with input reports. These are 50-byte standard
reports or 363-byte NFC reports. This project models the byte-level core of three generations of
that code, kept apart because they really differ:

- **joycontrol, current** (`joycontrol/report`, `joycontrol/controller`, `protocol.go`, `pool.go`):
  - the output-report parser and its accessors (including the nested MCU command);
  - the input-report setters, the constant tables and their names;
  - the report pool;
  - the controller with its button bitmap and NFC micro-controller;
  - the protocol engine that answers each subcommand.
- **joycontrol, older** (`input.go`, `output.go`, `state.go`): the input setters, the stricter
  output parser and the controller state. They are kept as they are and compared with the current
  code by lemmas.
- **joysticker** (`joysticker/report.go`, `joysticker/protocol.go`):
  - the third copy of the input setters, with a `reset`;
  - the output-report `load` from a file descriptor read;
  - the `NewSwitchResponse` frame parser.

Bytes are `bv8`. The modelling is split as follows:

- Each Go setter on an input-report slice is a method on an `array<bv8>`. It ensures that the new
  contents are a pure transformer `WithX(old contents, …)`. That transformer states, byte by byte,
  what is written and that nothing else changes.
- Objects whose fields Go updates are classes: button state, controller, MCU, pool, protocol and
  the joysticker reports.
- Parsers are functions returning an `Outcome` or a `Result`, with one if-and-only-if clause per
  error.
- A Go index-out-of-range panic becomes a `requires`.
- Go's `copy` is `GoBuiltins.Copied`. Go's `byte(x)` conversion is `GoBuiltins.LowByte`.
- Where two generations write identical bytes, the later module reuses the earlier transformer.
  Where they differ, a lemma states the difference.

## Model

| member | source | states |
|---|---|---|
| Bits.FlipClear | joycontrol/controller/controller.go:99-109 | xor-ing the mask of a clear bit sets that bit, as `press` relies on |
| Bits.FlipSet | joycontrol/controller/controller.go:111-121 | xor-ing the mask of a set bit clears that bit, as `release` relies on |
| Bits.MaskNoChange | joycontrol/controller/controller.go:99-121 | setting a set bit or clearing a clear bit is the identity, so the guarded flips equal unconditional set/clear |
| Bits.IsSetByMask | joycontrol/controller/controller.go:103 | the shift-and-test `(b >> bit) & 1 == 1` is the same as testing against the mask |
| Bits.MasksDisjoint | joycontrol/controller/controller.go:99-121 | masks of distinct bits share no bit, and no mask is zero |
| Bits.MaskBits | joycontrol/controller/controller.go:99-121 | after or-ing or clearing bit x, bit y is unchanged unless y is x |
| Bits.ClearBoth | joycontrol/controller/controller.go:111-121 | two successive clears are one clear of the union |
| Bits.OrBoth | joycontrol/controller/controller.go:99-109 | two successive sets are one set of the union; or-ing in zero changes nothing |
| Buttons.Lookup | joycontrol/controller/controller.go:100-102 | a position is found exactly for the names in the map, and it is the mapped one |
| Buttons.SetAt | joycontrol/controller/controller.go:104-106 | setting a bit keeps the bitmap three bytes long |
| Buttons.ClearAt | joycontrol/controller/controller.go:116-118 | clearing a bit keeps the bitmap three bytes long |
| Buttons.PressButton | joycontrol/controller/controller.go:99-109 | an unknown name leaves the bitmap unchanged; a known one sets its position whatever it held |
| Buttons.ReleaseButton | joycontrol/controller/controller.go:111-121 | an unknown name leaves the bitmap unchanged; a known one clears its position whatever it held |
| Buttons.PressAll | joycontrol/controller/controller.go:99-109 | pressing a list of names keeps the bitmap three bytes long |
| Buttons.ReleaseAll | joycontrol/controller/controller.go:111-121 | releasing a list of names keeps the bitmap three bytes long |
| Buttons.SetAtBits | joycontrol/controller/controller.go:104-106 | after setting q, position p is held exactly when p is q or p was already held |
| Buttons.ClearAtBits | joycontrol/controller/controller.go:116-118 | after clearing q, position p is held exactly when p is not q and p was held |
| Buttons.PressButtonBits | joycontrol/controller/controller.go:99-109 | pressing a known button holds its bit and moves no other bit; an unknown name moves nothing |
| Buttons.ReleaseButtonBits | joycontrol/controller/controller.go:111-121 | releasing a known button frees its bit and moves no other bit; an unknown name moves nothing |
| Buttons.PressThenRelease | joycontrol/controller/controller.go:99-121 | pressing a button that was not held and then releasing it restores the bitmap |
| Buttons.ReleaseThenPress | joycontrol/controller/controller.go:99-121 | releasing a held button and then pressing it restores the bitmap |
| Buttons.SetAtByte | joycontrol/controller/controller.go:104-106 | setting a position ors its mask into the byte it lives in and no other byte |
| Buttons.ClearAtByte | joycontrol/controller/controller.go:116-118 | clearing a position removes its mask from its byte and no other byte |
| Buttons.PressButtonOrsMask | joycontrol/controller/controller.go:99-109 | pressing one name ors that name's mask into each byte |
| Buttons.ReleaseButtonClearsMask | joycontrol/controller/controller.go:111-121 | releasing one name clears that name's mask from each byte |
| Buttons.PressAllOrsMask | joycontrol/controller/controller.go:99-109 | pressing a list ors the union of its masks into each byte, whatever the order |
| Buttons.ReleaseAllClearsMask | joycontrol/controller/controller.go:111-121 | releasing a list clears the union of its masks from each byte, whatever the order |
| Buttons.PressAllIdempotent | joycontrol/controller/controller.go:99-109 | pressing the same names twice is the same as once |
| Buttons.ReleaseAllIdempotent | joycontrol/controller/controller.go:111-121 | releasing the same names twice is the same as once |
| Buttons.PressAllThenReleaseAll | joycontrol/controller/controller.go:99-121 | pressing and then releasing names none of which was held restores the bitmap |
| GoBuiltins.Copied | joycontrol/report/input.go:58-60 | Go's `copy(s[lo:hi], src)`: the first min(hi - lo, len(src)) bytes of the window take the source and every other byte stays |
| GoBuiltins.CopyInto | joycontrol/input.go:143-144 | the array becomes `Copied` of its old contents, as Go's in-place `copy` into a sub-slice leaves it |
| Controller.ButtonMapInjective | joycontrol/controller/controller.go:66-93 | no two button names share a bit position |
| Controller.ButtonState.constructor | joycontrol/controller/controller.go:22-32 | a new bitmap is three zero bytes |
| Controller.ButtonState.Press | joycontrol/controller/controller.go:99-109 | the bitmap becomes the one obtained by pressing the names in order over the current table |
| Controller.ButtonState.Release | joycontrol/controller/controller.go:111-121 | the bitmap becomes the one obtained by releasing the names in order |
| Controller.Controller.constructor | joycontrol/controller/controller.go:22-32 | every flag is zero or false, the MCU is in standby and suspended, and no button is held |
| Controller.Controller.Press | joycontrol/controller/controller.go:34-37 | the buttons are pressed, the dirty flag is set, and no other flag changes |
| Controller.Controller.Release | joycontrol/controller/controller.go:39-42 | the buttons are released, the dirty flag is set, and no other flag changes |
| Controller.Controller.SetMcuState | joycontrol/controller/controller.go:44-46 | only the MCU mode changes, to the given one |
| Controller.Controller.ToggleMcuPower | joycontrol/controller/controller.go:48-50 | only the MCU power changes: resume when on, suspend when off |
| Controller.Controller.McuState | joycontrol/controller/controller.go:52-54 | the 8-byte status: the fixed prefix, then the current MCU mode |
| Controller.Controller.Dump | joycontrol/controller/controller.go:56-59 | returns the current bitmap and clears the dirty flag, changing nothing else |
| Mcu.PowerStateFor | joycontrol/controller/mcu.go:27-33 | resume exactly when on, suspend exactly when off |
| Mcu.MicroControllerUnit.constructor | joycontrol/controller/controller.go:22-32 | the unit holds the given mode and power state |
| Mcu.MicroControllerUnit.SetState | joycontrol/controller/mcu.go:23-25 | the mode becomes the given one and the power state stays |
| Mcu.MicroControllerUnit.TogglePowerState | joycontrol/controller/mcu.go:27-33 | the power state follows the argument and the mode stays; the new power state does not depend on the old one, so a second toggle with the same argument changes nothing |
| Mcu.MicroControllerUnit.StateData | joycontrol/controller/mcu.go:35-44 | eight bytes: report id 1, two unknown bytes, firmware 0x0008/0x001B, then the mode |
| Mcu.StateDataDeterminesMode | joycontrol/controller/mcu.go:35-44 | two units report equal status exactly when their modes are equal |
| Pool.Zeros | joycontrol/pool.go:21 | n bytes, all zero, as the unset elements of the array literal |
| Pool.Template | joycontrol/pool.go:21-28 | a handed-out buffer holds 0xA1 at byte 0 and zero elsewhere |
| Pool.ResetIsTemplate | joycontrol/pool.go:24-28 | copying `emptyInputReport` over any buffer of either size yields the template, whatever the buffer held |
| Pool.ReportPool.constructor | joycontrol/pool.go:8-20 | both free lists start empty |
| Pool.ReportPool.AllocStandardReport | joycontrol/pool.go:24-28 | hands out the last free standard buffer, or a fresh one, reset to the 50-byte template; the NFC list is untouched |
| Pool.ReportPool.AllocNfcReport | joycontrol/pool.go:30-34 | hands out the last free NFC buffer, or a fresh one, reset to the 363-byte template; the standard list is untouched |
| Pool.ReportPool.FreeReport | joycontrol/pool.go:36-43 | a 50-byte buffer joins the standard list, a 363-byte one the NFC list, and any other size is dropped |
| Pool.ReuseStandardReport | joycontrol/pool.go:24-43 | a standard buffer that was written, freed and allocated again comes back as the template |
| Pool.ReuseNfcReport | joycontrol/pool.go:30-43 | an NFC buffer that was written, freed and allocated again comes back as the template |
| Report.OutputReportIdName | joycontrol/report/report.go:13-28 | the name is not "UNKNOWN" exactly for the declared output report ids |
| Report.SubcommandName | joycontrol/report/report.go:65-90 | the name is not "UNKNOWN" exactly for the ten declared subcommands |
| Report.McuCommandName | joycontrol/report/report.go:101-114 | the name is not "UNKNOWN" exactly for the declared MCU commands |
| Report.SubcommandsDistinct | joycontrol/report/report.go:52-63 | the ten subcommand codes are pairwise distinct, so the dispatch switch is unambiguous |
| Report.SubcommandNameInjective | joycontrol/report/report.go:65-90 | distinct declared subcommands have distinct names |
| Report.OutputReportIdNameInjective | joycontrol/report/report.go:13-28 | distinct declared output ids have distinct names |
| Report.McuCommandNameInjective | joycontrol/report/report.go:101-114 | distinct declared MCU commands have distinct names |
| Report.Filled | joycontrol/report/report.go:116-120 | bytes in [start, end) become the value and all others stay; an empty or reversed range is allowed |
| Report.FilledEmptyRange | joycontrol/report/report.go:116-120 | an empty or reversed range changes nothing, as Go's empty loop does |
| Report.ReplaceSlice | joycontrol/report/report.go:116-120 | the slice becomes the filled frame |
| ReportInput.WithReportId | joycontrol/report/input.go:19-21 | byte 1 becomes the id and every other byte stays |
| ReportInput.WithImuData | joycontrol/report/input.go:23-34 | when enabled, bytes 14..49 become the canned IMU block and the rest stays; when disabled, nothing changes |
| ReportInput.WithStandardData | joycontrol/report/input.go:36-56 | byte 2 is the low byte of the timer; with device info, bytes 3..13 are the telemetry block; nothing else changes |
| ReportInput.WithButtonState | joycontrol/report/input.go:58-60 | bytes 4..6 take as much of the bitmap as Go's `copy` moves, and the rest stays |
| ReportInput.WithAck | joycontrol/report/input.go:62-65 | byte 14 is the ACK type and byte 15 the echoed subcommand; every other byte stays |
| ReportInput.WithDeviceInfo | joycontrol/report/input.go:67-82 | ACK header and firmware at 14..19, the MAC (as much as is given) at 20..25, and 1, 1 at 26..27; the rest stays |
| ReportInput.WithSpiFlashRead | joycontrol/report/input.go:95-131 | echoes address and length; a known section gets `length` bytes of 0xFF from byte 21; an unknown one leaves 21.. alone |
| ReportInput.WithNfcMcuConfig | joycontrol/report/input.go:133-138 | ACK A0/21, the status bytes from 16 on, and nothing else changes |
| ReportInput.WithChecksum | joycontrol/report/input.go:160-162 | the last byte is the checksum and every other byte stays |
| ReportInput.SetReportId | joycontrol/report/input.go:19-21 | the buffer becomes `WithReportId` of its old contents |
| ReportInput.SetImuData | joycontrol/report/input.go:23-34 | the buffer becomes `WithImuData` of its old contents |
| ReportInput.FillStandardData | joycontrol/report/input.go:36-56 | the buffer becomes `WithStandardData` of its old contents |
| ReportInput.SetButtonState | joycontrol/report/input.go:58-60 | the buffer becomes `WithButtonState` of its old contents |
| ReportInput.AckSetInputReportMode | joycontrol/report/input.go:62-65 | the buffer gets ACK 0x80 for `SetInputReportMode` |
| ReportInput.AckDeviceInfo | joycontrol/report/input.go:67-82 | the buffer becomes `WithDeviceInfo` of its old contents |
| ReportInput.AckTriggerButtonsElapsedTime | joycontrol/report/input.go:84-87 | the buffer gets ACK 0x83 for `TriggerButtonsElapsedTime` |
| ReportInput.AckSetShipmentLowPowerState | joycontrol/report/input.go:89-92 | the buffer gets ACK 0x80 for `SetShipmentLowPowerState` |
| ReportInput.AckSpiFlashRead | joycontrol/report/input.go:95-131 | the buffer becomes `WithSpiFlashRead` of its old contents |
| ReportInput.AckSetNfcMcuConfig | joycontrol/report/input.go:133-138 | the buffer becomes `WithNfcMcuConfig` of its old contents and the given status |
| ReportInput.AckSetNfcMcuState | joycontrol/report/input.go:140-143 | the buffer gets ACK 0x80 for `SetNfcMcuState` |
| ReportInput.AckSetPlayerLights | joycontrol/report/input.go:145-148 | the buffer gets ACK 0x80 for `SetPlayerLights` |
| ReportInput.AckEnableImu | joycontrol/report/input.go:150-153 | the buffer gets ACK 0x80 for `EnableImu` |
| ReportInput.AckEnableVibration | joycontrol/report/input.go:155-158 | the buffer gets ACK 0x82 for `EnableVibration` |
| ReportInput.UpdateChecksum | joycontrol/report/input.go:160-162 | the last byte becomes the given checksum and every other byte stays |
| ReportOutput.Validate | joycontrol/report/output.go:27-40 | one if-and-only-if per outcome: wrong length, then bad header, then an id outside the five declared (0x12 included); otherwise pass |
| ReportOutput.Id | joycontrol/report/output.go:42-44 | the id is byte 1 |
| ReportOutput.Subcommand | joycontrol/report/output.go:46-49 | the subcommand is byte 11 |
| ReportOutput.SubcommandArgs | joycontrol/report/output.go:51-53 | the arguments are everything after the first twelve bytes |
| ReportOutput.McuCommand | joycontrol/report/output.go:55-62 | byte 12 for a `RumbleAndSubcommand` frame with subcommand `SetNfcMcuConfig`, otherwise byte 11 |
| ReportOutput.McuCommandArgs | joycontrol/report/output.go:64-69 | in the nested case, the subcommand arguments after the MCU command byte; otherwise all subcommand arguments |
| ReportOutput.ValidFrameReadable | joycontrol/report/output.go:27-69 | every accessor can read an accepted frame; its arguments are 38 bytes, or 37 for the MCU command's when nested |
| ReportOutput.HeaderCheckedBeforeId | joycontrol/report/output.go:27-40 | a bad header is reported whatever byte 1 holds |
| ReportOutput.NoSubcommandCheck | joycontrol/report/output.go:27-40 | the verdict does not depend on byte 11 |
| ReportOutput.AcceptedIdsAreNamed | joycontrol/report/output.go:16 | a framed report passes exactly when `OutputReportId.String` knows its id |
| Protocol.Tick | joycontrol/protocol.go:193-198 | the timer stays in 0..255 and advances by four per microsecond modulo 256 |
| Protocol.TickAdditive | joycontrol/protocol.go:193-198 | two updates advance the timer by the sum of their durations |
| Protocol.ValidFrameAnswerable | joycontrol/protocol.go:35-68 | every frame the parser accepts can be answered without a panic, except an SPI read longer than a known section's reply room |
| Protocol.NextMcuMode | joycontrol/protocol.go:119-137 | the mode becomes standby for `SetMcuMode` 0/0x00 and NFC for 0/0x04; any other command, sub-command or mode leaves it, so it is never anything else |
| Protocol.NextFlags | joycontrol/protocol.go:70-187 | the device-info, player-light and vibration flags only ever get set, each by its own subcommand; mode, IMU, MCU mode and MCU power change only under their own subcommand; dirty never changes; an unknown subcommand changes nothing |
| Protocol.ReplyBase | joycontrol/protocol.go:70-78 | a subcommand reply starts as header, id, timer byte, telemetry when device info is on, and zeros from 14 on |
| Protocol.StandardReport | joycontrol/protocol.go:25-33 | header, full-mode id 0x30, timer byte; the IMU block from 14 when enabled, zeros otherwise |
| Protocol.NfcConfigReply | joycontrol/protocol.go:139-144 | the base up to byte 13, ACK A0/21, the status from byte 16, and a last byte that is the CRC of bytes 16..49 as they stood before it was written |
| Protocol.Reply | joycontrol/protocol.go:35-68 | the dispatched reply is always one 50-byte standard report |
| Protocol.KnownSubcommandReply | joycontrol/protocol.go:39-59 | every known subcommand gets id 0x21, the timer after the update, and its ACK byte and echoed code at 14..15 |
| Protocol.UnknownSubcommandReply | joycontrol/protocol.go:60-65 | an unknown subcommand gets a standard full-mode report (header 0xA1, id 0x30, the advanced timer, the IMU block or zeros from 14) and changes no controller state |
| Protocol.DeviceInfoReply | joycontrol/protocol.go:88-96 | the flag is set before filling, so the reply carries the device-info telemetry, firmware and MAC |
| Protocol.AnswerOnlyHandlers | joycontrol/protocol.go:80-114 | the trigger-time, shipment and SPI-read handlers leave the controller state unchanged |
| Protocol.EnableImuFollowsArgument | joycontrol/protocol.go:168-177 | the IMU is enabled exactly when the argument is 1, so it can be disabled; nothing else changes |
| Protocol.NfcMcuStateFollowsArgument | joycontrol/protocol.go:147-156 | the MCU resumes exactly when the argument is 1 and is suspended otherwise; nothing else changes |
| Protocol.FlagSetters | joycontrol/protocol.go:70-187 | set-mode stores the argument; player lights and vibration set their flags; each changes only its own field |
| Protocol.McuConfigRules | joycontrol/protocol.go:116-138 | only the MCU mode can change; it changes only by `SetMcuMode` with sub-command 0 to standby (0x00) or NFC (0x04) |
| Protocol.McuCommandOfConfigFrame | joycontrol/protocol.go:119-122 | a config frame whose id is not `RumbleAndSubcommand` reads its MCU command from byte 11, which equals `SetMcuMode` by code |
| Protocol.NfcConfigReplyContents | joycontrol/protocol.go:139-144 | the reply carries ACK A0/21, the MCU status as it was before the update from byte 16, and the CRC in the last byte |
| Protocol.SpiFlashReadReply | joycontrol/protocol.go:106-114 | the reply echoes address and length, fills a known section with 0xFF, and leaves the rest zero |
| Protocol.Protocol.constructor | joycontrol/protocol.go:19-23 | a new engine has timer 0 and the given MAC and checksum |
| Protocol.Protocol.UpdateTimer | joycontrol/protocol.go:193-198 | the timer advances by `Tick` |
| Protocol.Protocol.GenerateStandardReport | joycontrol/protocol.go:25-33 | a pool buffer holding the standard report for the advanced timer; the engine keeps its own timer |
| Protocol.Protocol.AnswerSetMode | joycontrol/protocol.go:70-78 | the mode becomes argument 0 and the reply is ACK 0x80 over the reply base |
| Protocol.Protocol.AnswerTriggerButtonsElapsedTime | joycontrol/protocol.go:80-86 | the reply is ACK 0x83 over the reply base and no state changes |
| Protocol.Protocol.AnswerDeviceInfo | joycontrol/protocol.go:88-96 | device info is set, and the reply is the device-info reply over a base with telemetry |
| Protocol.Protocol.AnswerSetShipmentState | joycontrol/protocol.go:98-104 | the reply is ACK 0x80 over the reply base and no state changes |
| Protocol.Protocol.AnswerSpiRead | joycontrol/protocol.go:106-114 | the reply is `WithSpiFlashRead` of the reply base and the arguments |
| Protocol.Protocol.ApplyMcuConfig | joycontrol/protocol.go:119-138 | the MCU mode becomes `NextMcuMode` of the old mode and the frame; nothing else changes |
| Protocol.Protocol.AnswerSetNfcMcuConfig | joycontrol/protocol.go:116-145 | the MCU mode is updated, and the reply carries the status read before the update and the checksum |
| Protocol.Protocol.BuildNfcConfigReply | joycontrol/protocol.go:139-144 | a pool buffer holding `NfcConfigReply` of the reply base, the status and the checksum |
| Protocol.Protocol.AnswerSetNfcMcuState | joycontrol/protocol.go:147-156 | the MCU power follows argument 0 and the reply is ACK 0x80 |
| Protocol.Protocol.AnswerSetPlayerLights | joycontrol/protocol.go:158-166 | the player-number flag is set and the reply is ACK 0x80 |
| Protocol.Protocol.AnswerEnableImu | joycontrol/protocol.go:168-177 | the IMU flag follows argument 0 and the reply is ACK 0x80 |
| Protocol.Protocol.AnswerEnableVibration | joycontrol/protocol.go:179-187 | the vibration flag is set and the reply is ACK 0x82 |
| Protocol.Protocol.ProcessSubcommandReport | joycontrol/protocol.go:35-68 | the timer advances, the controller goes to `NextFlags`, and the buffer holds `Reply`, with the button bitmap untouched |
| LegacyInput.SubcommandName | joycontrol/input.go:221-246 | the name is not "UNKNOWN" exactly for the ten subcommands of this generation |
| LegacyInput.SubcommandsAgree | joycontrol/input.go:208-246 | both generations declare the same subcommands in the same order under the same names |
| LegacyInput.WithStandardData | joycontrol/input.go:45-65 | byte 2 is the timer; with device info, bytes 3..13 are this generation's telemetry with neutral sticks; nothing else changes |
| LegacyInput.WithButtonState | joycontrol/input.go:67-69 | only bytes 4..5 take the bitmap, as much as `copy` into `i[4:6]` moves |
| LegacyInput.SpiReadHeader | joycontrol/input.go:104-114 | ACK 0x90/0x10 and the echoed address and length; nothing else changes |
| LegacyInput.WithCalibration | joycontrol/input.go:133-145 | section 0x3D/0x60: left and right calibration at 21..38, then 0xFF up to byte 20 + length; the rest stays |
| LegacyInput.WithFiller | joycontrol/input.go:116-132 | any other known section: 0xFF at 21..20 + length; the rest stays |
| LegacyInput.WithSpiFlashRead | joycontrol/input.go:104-150 | the header, then the calibration section, another known section's filler, or, for an unknown address, nothing past byte 20 |
| LegacyInput.WithNfcMcuConfig | joycontrol/input.go:152-164 | ACK A0/21 and the fixed 34-byte status block at 16..49 (ending 0xC8); nothing else changes |
| LegacyInput.ImuSampleAgrees | joycontrol/input.go:32-43 | the IMU block is the same as the current generation's |
| LegacyInput.StandardDataDiffersInSticks | joycontrol/input.go:45-65 | with device info on, the two generations differ exactly in the stick bytes 7..12; otherwise they agree |
| LegacyInput.ButtonStateSkipsByteSix | joycontrol/input.go:67-69 | this generation never writes byte 6, the current one copies the third bitmap byte there, and both agree on 4..5 |
| LegacyInput.SpiFlashReadAgreesOutsideCalibration | joycontrol/input.go:104-150 | outside section 0x3D/0x60 both generations write the same SPI reply |
| LegacyInput.SetReportId | joycontrol/input.go:28-30 | the buffer becomes `WithReportId` of its old contents |
| LegacyInput.SetImuData | joycontrol/input.go:32-43 | the buffer becomes `WithImuData` of its old contents |
| LegacyInput.FillStandardData | joycontrol/input.go:45-65 | the buffer becomes this generation's `WithStandardData` |
| LegacyInput.SetButtonState | joycontrol/input.go:67-69 | the buffer becomes this generation's `WithButtonState` |
| LegacyInput.AckSetInputReportMode | joycontrol/input.go:71-74 | the buffer gets ACK 0x80 for `SetInputReportMode` |
| LegacyInput.AckDeviceInfo | joycontrol/input.go:76-91 | the buffer becomes `WithDeviceInfo` of its old contents |
| LegacyInput.AckTriggerButtonsElapsedTime | joycontrol/input.go:93-96 | the buffer gets ACK 0x83 |
| LegacyInput.AckSetShipmentLowPowerState | joycontrol/input.go:98-101 | the buffer gets ACK 0x80 |
| LegacyInput.AckSpiFlashRead | joycontrol/input.go:104-150 | the buffer becomes this generation's `WithSpiFlashRead` |
| LegacyInput.FillCalibration | joycontrol/input.go:133-145 | the buffer becomes `WithCalibration` of its old contents |
| LegacyInput.AckSetNfcMcuConfig | joycontrol/input.go:152-164 | the buffer becomes this generation's `WithNfcMcuConfig` |
| LegacyInput.AckSetNfcMcuState | joycontrol/input.go:166-169 | the buffer gets ACK 0x80 |
| LegacyInput.AckSetPlayerLights | joycontrol/input.go:171-174 | the buffer gets ACK 0x80 |
| LegacyInput.AckEnableImu | joycontrol/input.go:176-180 | the buffer gets ACK 0x80 |
| LegacyInput.AckEnableVibration | joycontrol/input.go:182-185 | the buffer gets ACK 0x82 |
| LegacyOutput.Validate | joycontrol/output.go:32-64 | one if-and-only-if per outcome: length, header, id among the four of this generation, and the subcommand of a `RumbleAndSubcommand` frame |
| LegacyOutput.GetId | joycontrol/output.go:66-68 | the id is byte 1 |
| LegacyOutput.GetSubcommand | joycontrol/output.go:70-73 | the subcommand is byte 11 |
| LegacyOutput.GetSubcommandData | joycontrol/output.go:75-77 | the data is everything after the first twelve bytes |
| LegacyOutput.SubcommandCheckedOnlyForRumbleAndSubcommand | joycontrol/output.go:47-61 | frames with the other three ids pass whatever byte 11 holds |
| LegacyOutput.HeaderCheckedFirst | joycontrol/output.go:33-38 | a bad header is reported whatever bytes 1 and 11 hold |
| LegacyOutput.StricterThanCurrent | joycontrol/output.go:32-64 | whatever this parser accepts the current one accepts; id 0x12 and an unknown subcommand show the converse fails |
| LegacyState.ButtonMapInjective | joycontrol/state.go:38-65 | no two names of this generation's table share a position |
| LegacyState.UpperCaseDpadIgnored | joycontrol/state.go:57-60 | the current generation's upper-case D-pad names are unknown here, so pressing them changes nothing |
| LegacyState.SameNamesButDpad | joycontrol/state.go:38-65 | the two tables know the same names apart from the D-pad spelling |
| LegacyState.CommonNamesAgree | joycontrol/state.go:38-65 | every name both tables know maps to the same position |
| LegacyState.DpadRenamed | joycontrol/state.go:57-60 | the mixed-case D-pad names of this generation sit where the current upper-case ones do |
| LegacyState.ButtonState.constructor | joycontrol/state.go:10-16 | a new bitmap is three zero bytes |
| LegacyState.ButtonState.Press | joycontrol/state.go:71-81 | the bitmap becomes the one obtained by pressing the names in order over this generation's table |
| LegacyState.ButtonState.Release | joycontrol/state.go:83-93 | the bitmap becomes the one obtained by releasing the names in order |
| LegacyState.ControllerState.constructor | joycontrol/state.go:10-16 | nothing is dirty and no button is held |
| LegacyState.ControllerState.Press | joycontrol/state.go:18-21 | the buttons are pressed and the state is marked dirty |
| LegacyState.ControllerState.Release | joycontrol/state.go:23-26 | the buttons are released and the state is marked dirty |
| LegacyState.ControllerState.Dump | joycontrol/state.go:28-31 | returns the bitmap and clears the dirty flag |
| StickerReport.SubcommandsAgree | joysticker/report.go:216-227 | joysticker's subcommand list is the current joycontrol one |
| StickerReport.EmptyReportIsPoolTemplate | joysticker/report.go:29 | the empty input report is the 50-byte pool template: 0xA1 and zeros |
| StickerReport.SpiFlashReadArgsOkOnFrame | joysticker/report.go:99-143 | on a 50-byte report the SPI precondition is the older one, and holds exactly when a known section's length is at most 29 |
| StickerReport.InputReport.constructor | joysticker/report.go:29 | a new report is 50 zero bytes |
| StickerReport.InputReport.Reset | joysticker/report.go:36-38 | the report becomes the empty input report whatever it held |
| StickerReport.InputReport.SetReportId | joysticker/report.go:40-42 | byte 1 becomes the id, as in `WithReportId` |
| StickerReport.InputReport.FillStandardData | joysticker/report.go:44-64 | the report becomes the current generation's `WithStandardData` |
| StickerReport.InputReport.AckSetInputReportMode | joysticker/report.go:66-69 | ACK 0x80 for `SetInputReportMode` |
| StickerReport.InputReport.AckDeviceInfo | joysticker/report.go:71-86 | the report becomes `WithDeviceInfo` of its old contents |
| StickerReport.InputReport.AckTriggerButtonsElapsedTime | joysticker/report.go:88-91 | ACK 0x83 |
| StickerReport.InputReport.AckSetShipmentLowPowerState | joysticker/report.go:93-96 | ACK 0x80 |
| StickerReport.InputReport.AckSpiFlashRead | joysticker/report.go:99-143 | the report becomes the older generation's `WithSpiFlashRead`, calibration section included |
| StickerReport.InputReport.AckSetNfcMcuConfig | joysticker/report.go:145-157 | the report becomes the older generation's `WithNfcMcuConfig` |
| StickerReport.InputReport.AckSetNfcMcuState | joysticker/report.go:159-162 | ACK 0x80 |
| StickerReport.InputReport.AckSetPlayerLights | joysticker/report.go:164-167 | ACK 0x80 |
| StickerReport.InputReport.AckEnableImu | joysticker/report.go:169-173 | ACK 0x80 |
| StickerReport.InputReport.AckEnableVibration | joysticker/report.go:175-178 | ACK 0x82 |
| StickerReport.LoadOutcome | joysticker/report.go:235-254 | one if-and-only-if per outcome: a read error, then a length other than 50, then a bad header, then an id outside the four (reported as `errUnknownSubcommand`); otherwise pass |
| StickerReport.OutputReport.constructor | joysticker/report.go:230-233 | a new report has id 0 and 50 zero bytes |
| StickerReport.OutputReport.Load | joysticker/report.go:235-254 | the verdict is `LoadOutcome`; the bytes read are copied in; the id is byte 1 only on success |
| StickerReport.OutputReport.GetSubcommand | joysticker/report.go:256-259 | the subcommand is byte 11 |
| StickerReport.OutputReport.GetSubcommandData | joysticker/report.go:261-263 | the 38 bytes after the first twelve |
| StickerReport.LoadIsCurrentWithout0x12 | joysticker/report.go:235-254 | a 50-byte read loads exactly when the current parser accepts it and its id is not 0x12 |
| StickerReport.LegacyAcceptedLoads | joysticker/report.go:235-254 | whatever the older parser accepts loads; an unknown subcommand loads although the older parser refuses it |
| StickerProtocol.NewSwitchResponse | joysticker/protocol.go:36-56 | one if-and-only-if per outcome: shorter than 50, then a bad header, then an undeclared subcommand; a response is byte 11 and the message from byte 11 on |
| StickerProtocol.ReportIdIgnored | joysticker/protocol.go:36-56 | byte 1 has no effect on the outcome or the response |
| StickerProtocol.TrailingBytesOnlyExtendData | joysticker/protocol.go:36-56 | trailing bytes never change acceptance and only extend the response data |
| StickerProtocol.LegacyFramesRespond | joysticker/protocol.go:36-56 | a `RumbleAndSubcommand` frame the older parser accepts yields the subcommand followed by that parser's subcommand data |

## Left out

- Bluetooth, D-Bus, systemd, sockets, `server.go` and the device and server code of joysticker are not part of this model. They are I/O and event loops with no byte logic of their own.
- `unix.Read` is the parameter `ReadOutcome`: either an errno or the bytes read.
- `sync.Pool` concurrency is not modelled. The pool is two LIFO free lists, whereas Go's pool gives no order and may drop buffers.
- Wall-clock time is not modelled: `updateTimer` takes the microseconds since the last update as a parameter, and `lastTime` is dropped.
- The engine's checksum is a function parameter of the constructor, because the body of the CRC-8 routine is not part of this model.
- `processNfcDataReport` has an empty body and is not modelled. `amiibo.go` is a stub and is not part of this model.
- The `String()` dumps, logging and settings are not modelled.
- GoBuiltins.LowByte: Go's `byte(x)` conversion is written out as the Euclidean low byte and carries no contract of its own.
- Controller.Controller.Dump: returns a copy of the bitmap, whereas Go returns a slice that aliases the bitmap.
- LegacyState.ControllerState.Dump: returns a copy of the bitmap, whereas Go returns a slice that aliases the bitmap.
- Buffers are fixed-length arrays, so a slice's capacity is its length. `FreeReport` routes by that length.
- StickerReport.OutputReport.Load: a failed read leaves the buffer unchanged. A short read places its bytes in the buffer before the length check rejects it, as the read itself places them; `Copied` only states the result.
- joysticker's `errEmptyData` is declared but never returned, so it has no case.
- joysticker's `report.go` and `protocol.go` both declare the subcommand constants in one package. The model keeps one list, `StickerReport.Subcommands`, and proves it equal to the current list.
- `protocol.go` calls the `report` package's setters on buffers that `pool.go` types as the package's own `InputReport`. The model uses the `report` package's setters, since the pool's buffers have the same layout.
- `replaceSlice` is called by the older `joycontrol` package (joycontrol/input.go) and by joysticker (joysticker/report.go), but its definition for those packages is not part of this model. The only definition in the source is unexported in the `report` package (joycontrol/report/report.go:116-120). The model takes both callers' `replaceSlice` to be that loop, `Report.ReplaceSlice`, so the SPI-read contracts of LegacyInput and StickerReport, and LegacyInput.SpiFlashReadAgreesOutsideCalibration, rest on that assumption.
- Protocol.Protocol.AnswerSpiRead and every `AckSpiFlashRead` require that a known section's length fit in the reply (at most 29 bytes). A longer one causes an index-out-of-range panic at the element assignment inside `replaceSlice`'s loop (joycontrol/report/report.go:118), and a panic is not a reply.
- The comment table above the map in `state.go` puts `-` at bit 0 and `+` at bit 1 of the shared byte, but the map does the opposite. The model follows the map.
- Protocol.Protocol.ApplyMcuConfig and Protocol.Protocol.BuildNfcConfigReply are the two halves of `answerSetNfcMcuConfig`, split so each can be proved on its own. LegacyInput.FillCalibration is likewise the calibration branch of `ackSpiFlashRead`. Together they do what the Go functions do.
