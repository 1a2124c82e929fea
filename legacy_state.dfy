/**
 * The controller state of the package-root generation of joycontrol: a dirty flag over the
 * three-byte button bitmap, whose name table spells the D-pad in mixed case.
 */
module LegacyState {
  import opened Buttons
  import C = Controller

  /** `buttonMap`; the D-pad names are "Down", "Up", "Right" and "Left" in this version. */
  const buttonMap: ButtonMap := map[
    "Y" := Position(0, 0),
    "X" := Position(0, 1),
    "B" := Position(0, 2),
    "A" := Position(0, 3),
    "R" := Position(0, 6),
    "ZR" := Position(0, 7),
    "+" := Position(1, 0),
    "-" := Position(1, 1),
    "Home" := Position(1, 4),
    "Capture" := Position(1, 5),
    "ChargingGrip" := Position(1, 7),
    "Down" := Position(2, 0),
    "Up" := Position(2, 1),
    "Right" := Position(2, 2),
    "Left" := Position(2, 3),
    "L" := Position(2, 6),
    "ZL" := Position(2, 7)
  ]

  /** No two names share a position. */
  lemma ButtonMapInjective(a: string, b: string)
    requires a in buttonMap && b in buttonMap && a != b
    ensures buttonMap[a] != buttonMap[b]
  {
  }

  /** The upper-case D-pad names of the newer generation are unknown here, so they move no bit. */
  lemma UpperCaseDpadIgnored(data: seq<bv8>)
    requires |data| == 3
    ensures forall b :: b in ["DOWN", "UP", "RIGHT", "LEFT"] ==>
      PressButton(buttonMap, data, b) == data && ReleaseButton(buttonMap, data, b) == data
  {
  }

  /** The two generations name the same buttons, except that the D-pad names here are in mixed case. */
  lemma SameNamesButDpad()
    ensures buttonMap.Keys - {"Down", "Up", "Right", "Left"} == C.buttonMap.Keys - {"DOWN", "UP", "RIGHT", "LEFT"}
  {
  }

  /** Every name both generations know sits at the same position in both. */
  lemma CommonNamesAgree()
    ensures forall b :: b in buttonMap && b in C.buttonMap ==> buttonMap[b] == C.buttonMap[b]
  {
    forall b | b in buttonMap && b in C.buttonMap
      ensures buttonMap[b] == C.buttonMap[b]
    {
      if b == "Down" || b == "Up" || b == "Right" || b == "Left" {
        assert false;
      }
    }
  }

  /** The mixed-case D-pad names here sit at the positions of the newer upper-case ones. */
  lemma DpadRenamed()
    ensures buttonMap["Down"] == C.buttonMap["DOWN"] && buttonMap["Up"] == C.buttonMap["UP"]
    ensures buttonMap["Right"] == C.buttonMap["RIGHT"] && buttonMap["Left"] == C.buttonMap["LEFT"]
  {
  }

  // ---------------------------------------------------------------- objects

  class ButtonState {
    const data: array<bv8>

    constructor ()
      ensures fresh(data) && data.Length == 3 && data[..] == [0, 0, 0]
    {
      data := new bv8[3](_ => 0);
    }

    method Press(buttons: seq<string>)
      requires data.Length == 3
      modifies data
      ensures data[..] == PressAll(buttonMap, old(data[..]), buttons)
    {
      for i := 0 to |buttons|
        invariant data[..] == PressAll(buttonMap, old(data[..]), buttons[..i])
      {
        var button := buttons[i];
        if button in buttonMap {
          var info := buttonMap[button];
          // check whether the button is already pressed
          if (data[info.index] >> info.bit) & 1 != 1 {
            data[info.index] := data[info.index] ^ (1 << info.bit);
          }
        }
        assert buttons[..i + 1][..i] == buttons[..i];
      }
      assert buttons[..|buttons|] == buttons;
    }

    method Release(buttons: seq<string>)
      requires data.Length == 3
      modifies data
      ensures data[..] == ReleaseAll(buttonMap, old(data[..]), buttons)
    {
      for i := 0 to |buttons|
        invariant data[..] == ReleaseAll(buttonMap, old(data[..]), buttons[..i])
      {
        var button := buttons[i];
        if button in buttonMap {
          var info := buttonMap[button];
          // only a held button is flipped back
          if (data[info.index] >> info.bit) & 1 == 1 {
            data[info.index] := data[info.index] ^ (1 << info.bit);
          }
        }
        assert buttons[..i + 1][..i] == buttons[..i];
      }
      assert buttons[..|buttons|] == buttons;
    }
  }

  class ControllerState {
    var dirty: bool
    const bs: ButtonState

    ghost predicate Valid() {
      bs.data.Length == 3
    }

    /** `NewControllerState`. */
    constructor ()
      ensures Valid() && fresh(bs) && fresh(bs.data)
      ensures !dirty && bs.data[..] == [0, 0, 0]
    {
      dirty := false;
      bs := new ButtonState();
    }

    /** Marks the state dirty even when no bit changes. */
    method Press(buttons: seq<string>)
      requires Valid()
      modifies this`dirty, bs.data
      ensures dirty && bs.data[..] == PressAll(buttonMap, old(bs.data[..]), buttons)
    {
      dirty := true;
      bs.Press(buttons);
    }

    /** Marks the state dirty even when no bit changes. */
    method Release(buttons: seq<string>)
      requires Valid()
      modifies this`dirty, bs.data
      ensures dirty && bs.data[..] == ReleaseAll(buttonMap, old(bs.data[..]), buttons)
    {
      dirty := true;
      bs.Release(buttons);
    }

    /** Clears the dirty flag and hands out the bitmap (a copy here; Go hands out an alias). */
    method Dump() returns (data: seq<bv8>)
      requires Valid()
      modifies this`dirty
      ensures !dirty && data == bs.data[..] && |data| == 3
    {
      dirty := false;
      data := bs.data[..];
    }
  }
}
