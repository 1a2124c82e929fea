/** The NFC micro-controller: a mode/power pair and its 8-byte status encoding. */
module Mcu {

  // MCU modes.
  const McuStandby: bv8 := 0x01
  const McuNfc: bv8 := 0x04
  const McuBusy: bv8 := 0x06

  // MCU power states.
  const McuSuspend: bv8 := 0x00
  const McuResume: bv8 := 0x01

  /** The status bytes that precede the mode: report id, two unknown bytes, major and minor firmware. */
  const StatusPrefix: seq<bv8> := [0x01, 0x00, 0x00, 0x00, 0x08, 0x00, 0x1B]

  /** The power state `TogglePowerState(on)` selects. */
  function PowerStateFor(on: bool): (p: bv8)
    ensures p == McuResume <==> on
    ensures p == McuSuspend <==> !on
  {
    if on then McuResume else McuSuspend
  }

  /** The mode recorded in a status frame. */
  function StatusMode(data: seq<bv8>): bv8
    requires |data| == 8
  {
    data[7]
  }

  class MicroControllerUnit {
    var mode: bv8
    var powerState: bv8

    constructor (mode: bv8, powerState: bv8)
      ensures this.mode == mode && this.powerState == powerState
    {
      this.mode := mode;
      this.powerState := powerState;
    }

    method SetState(state: bv8)
      modifies this
      ensures mode == state && powerState == old(powerState)
    {
      mode := state;
    }

    method TogglePowerState(on: bool)
      modifies this
      ensures powerState == PowerStateFor(on) && mode == old(mode)
    {
      if on {
        powerState := McuResume;
      } else {
        powerState := McuSuspend;
      }
    }

    /** A fresh 8-byte status frame built from the mode; the unit itself is only read. */
    function StateData(): (data: seq<bv8>)
      reads this
      ensures |data| == 8 && data[..7] == StatusPrefix && StatusMode(data) == mode
    {
      [0x01, 0x00, 0x00, 0x00, 0x08, 0x00, 0x1B, mode]
    }
  }

  /** Two units report the same status exactly when they are in the same mode. */
  lemma StateDataDeterminesMode(a: MicroControllerUnit, b: MicroControllerUnit)
    ensures a.StateData() == b.StateData() <==> a.mode == b.mode
  {
    if a.StateData() == b.StateData() {
      assert StatusMode(a.StateData()) == StatusMode(b.StateData());
    }
  }
}
