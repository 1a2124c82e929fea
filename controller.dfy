/**
 * The current controller: input report mode, the handshake flags, a dirty flag, the
 * three-byte button bitmap and the MCU sub-state.
 */
module Controller {
  import opened Buttons
  import opened Mcu

  /** `buttonMap`; the D-pad names are upper case in this version. */
  const buttonMap: ButtonMap := map[
    "Y" := Position(0, 0),
    "X" := Position(0, 1),
    "B" := Position(0, 2),
    "A" := Position(0, 3),
    "R" := Position(0, 6),
    "ZR" := Position(0, 7),
    "+" := Position(1, 0),
    "-" := Position(1, 1),
    "Home" := Position(1, 4),
    "Capture" := Position(1, 5),
    "ChargingGrip" := Position(1, 7),
    "DOWN" := Position(2, 0),
    "UP" := Position(2, 1),
    "RIGHT" := Position(2, 2),
    "LEFT" := Position(2, 3),
    "L" := Position(2, 6),
    "ZL" := Position(2, 7)
  ]

  /** No two names share a position (and, by their types, every position is in bytes 0..2, bits 0..7). */
  lemma ButtonMapInjective(a: string, b: string)
    requires a in buttonMap && b in buttonMap && a != b
    ensures buttonMap[a] != buttonMap[b]
  {
  }

  // ---------------------------------------------------------------- objects

  class ButtonState {
    const data: array<bv8>

    constructor ()
      ensures fresh(data) && data.Length == 3 && data[..] == [0, 0, 0]
    {
      data := new bv8[3](_ => 0);
    }

    method Press(buttons: seq<string>)
      requires data.Length == 3
      modifies data
      ensures data[..] == PressAll(buttonMap, old(data[..]), buttons)
    {
      for i := 0 to |buttons|
        invariant data[..] == PressAll(buttonMap, old(data[..]), buttons[..i])
      {
        var button := buttons[i];
        if button in buttonMap {
          var info := buttonMap[button];
          // check whether the button is already pressed
          if (data[info.index] >> info.bit) & 1 != 1 {
            data[info.index] := data[info.index] ^ (1 << info.bit);
          }
        }
        assert buttons[..i + 1][..i] == buttons[..i];
      }
      assert buttons[..|buttons|] == buttons;
    }

    method Release(buttons: seq<string>)
      requires data.Length == 3
      modifies data
      ensures data[..] == ReleaseAll(buttonMap, old(data[..]), buttons)
    {
      for i := 0 to |buttons|
        invariant data[..] == ReleaseAll(buttonMap, old(data[..]), buttons[..i])
      {
        var button := buttons[i];
        if button in buttonMap {
          var info := buttonMap[button];
          // only a held button is flipped back
          if (data[info.index] >> info.bit) & 1 == 1 {
            data[info.index] := data[info.index] ^ (1 << info.bit);
          }
        }
        assert buttons[..i + 1][..i] == buttons[..i];
      }
      assert buttons[..|buttons|] == buttons;
    }
  }

  /** The scalar state of a controller, including its MCU, at one moment. */
  datatype Flags = Flags(
    mode: bv8,
    deviceInfoRequired: bool,
    imuEnabled: bool,
    vibrationEnabled: bool,
    playerNumber: bool,
    dirty: bool,
    mcuMode: bv8,
    mcuPower: bv8)

  /** The flags of a new controller: everything zero or false, the MCU in standby and suspended. */
  const InitialFlags: Flags := Flags(0x00, false, false, false, false, false, McuStandby, McuSuspend)

  class Controller {
    var Mode: bv8
    var DeviceInfoRequired: bool
    var ImuEnabled: bool
    var VibrationEnabled: bool
    var PlayerNumber: bool
    var Dirty: bool
    const bs: ButtonState
    const mcu: MicroControllerUnit

    ghost predicate Valid() {
      bs.data.Length == 3
    }

    function Snapshot(): Flags
      reads this, mcu
    {
      Flags(Mode, DeviceInfoRequired, ImuEnabled, VibrationEnabled, PlayerNumber, Dirty,
            mcu.mode, mcu.powerState)
    }

    /** `NewController`. */
    constructor ()
      ensures Valid() && fresh(bs) && fresh(bs.data) && fresh(mcu)
      ensures Snapshot() == InitialFlags && bs.data[..] == [0, 0, 0]
    {
      Mode := 0x00;
      DeviceInfoRequired, ImuEnabled, VibrationEnabled, PlayerNumber, Dirty := false, false, false, false, false;
      bs := new ButtonState();
      mcu := new MicroControllerUnit(McuStandby, McuSuspend);
    }

    method Press(buttons: seq<string>)
      requires Valid()
      modifies this`Dirty, bs.data
      ensures Dirty && bs.data[..] == PressAll(buttonMap, old(bs.data[..]), buttons)
      ensures Snapshot() == old(Snapshot()).(dirty := true)
    {
      Dirty := true;
      bs.Press(buttons);
    }

    method Release(buttons: seq<string>)
      requires Valid()
      modifies this`Dirty, bs.data
      ensures Dirty && bs.data[..] == ReleaseAll(buttonMap, old(bs.data[..]), buttons)
      ensures Snapshot() == old(Snapshot()).(dirty := true)
    {
      Dirty := true;
      bs.Release(buttons);
    }

    method SetMcuState(state: bv8)
      modifies mcu
      ensures Snapshot() == old(Snapshot()).(mcuMode := state)
    {
      mcu.SetState(state);
    }

    method ToggleMcuPower(on: bool)
      modifies mcu
      ensures Snapshot() == old(Snapshot()).(mcuPower := PowerStateFor(on))
    {
      mcu.TogglePowerState(on);
    }

    function McuState(): (data: seq<bv8>)
      reads mcu
      ensures |data| == 8 && data[..7] == StatusPrefix && StatusMode(data) == mcu.mode
    {
      mcu.StateData()
    }

    /** Clears the dirty flag and hands out the bitmap (a copy here; Go hands out an alias). */
    method Dump() returns (data: seq<bv8>)
      requires Valid()
      modifies this`Dirty
      ensures data == bs.data[..] && |data| == 3
      ensures Snapshot() == old(Snapshot()).(dirty := false)
    {
      Dirty := false;
      data := bs.data[..];
    }
  }
}
