/**
 * The three-byte button bitmap both controller generations keep, over the name table of
 * each: pressing sets the named bit, releasing clears it, unknown names are ignored.
 */
module Buttons {
  import opened Bits
  import opened Wrappers

  type ByteIndex = i: nat | i < 3

  /** Where a button lives in the bitmap: byte `index` (0 right, 1 shared, 2 left), bit `bit`. */
  datatype Position = Position(index: ByteIndex, bit: BitIndex)

  /** A `buttonMap`: the position of every button name a generation knows. */
  type ButtonMap = map<string, Position>

  /** Whether the button at `p` is held in the bitmap. */
  predicate Held(data: seq<bv8>, p: Position)
    requires |data| == 3
  {
    IsSet(data[p.index], p.bit)
  }

  /** The position `button` names, if any. */
  function Lookup(m: ButtonMap, button: string): (p: Option<Position>)
    ensures p.Some? <==> button in m
    ensures p.Some? ==> p.value == m[button]
  {
    if button in m then Some(m[button]) else None
  }

  /** The bitmap with the bit at `p` set, however it was before. */
  function SetAt(data: seq<bv8>, p: Position): (r: seq<bv8>)
    requires |data| == 3
    ensures |r| == 3
  {
    data[p.index := data[p.index] | Mask(p.bit)]
  }

  /** The bitmap with the bit at `p` cleared, however it was before. */
  function ClearAt(data: seq<bv8>, p: Position): (r: seq<bv8>)
    requires |data| == 3
    ensures |r| == 3
  {
    data[p.index := data[p.index] & !Mask(p.bit)]
  }

  /** `ButtonState.press` for one name: flip its bit if it is not already set. */
  function PressButton(m: ButtonMap, data: seq<bv8>, button: string): (r: seq<bv8>)
    requires |data| == 3
    ensures Lookup(m, button).None? ==> r == data
    ensures Lookup(m, button).Some? ==> r == SetAt(data, Lookup(m, button).value)
  {
    match Lookup(m, button)
    case None => data
    case Some(info) =>
      if !IsSet(data[info.index], info.bit) then
        FlipClear(data[info.index], info.bit);
        data[info.index := data[info.index] ^ Mask(info.bit)]
      else
        MaskNoChange(data[info.index], info.bit);
        data
  }

  /** `ButtonState.release` for one name: flip its bit only if it is set. */
  function ReleaseButton(m: ButtonMap, data: seq<bv8>, button: string): (r: seq<bv8>)
    requires |data| == 3
    ensures Lookup(m, button).None? ==> r == data
    ensures Lookup(m, button).Some? ==> r == ClearAt(data, Lookup(m, button).value)
  {
    match Lookup(m, button)
    case None => data
    case Some(info) =>
      if IsSet(data[info.index], info.bit) then
        FlipSet(data[info.index], info.bit);
        data[info.index := data[info.index] ^ Mask(info.bit)]
      else
        MaskNoChange(data[info.index], info.bit);
        data
  }

  /** `ButtonState.press(buttons...)`: the names in order. */
  function PressAll(m: ButtonMap, data: seq<bv8>, buttons: seq<string>): (r: seq<bv8>)
    requires |data| == 3
    ensures |r| == 3
    decreases |buttons|
  {
    if buttons == [] then data
    else PressButton(m, PressAll(m, data, buttons[..|buttons| - 1]), buttons[|buttons| - 1])
  }

  /** `ButtonState.release(buttons...)`: the names in order. */
  function ReleaseAll(m: ButtonMap, data: seq<bv8>, buttons: seq<string>): (r: seq<bv8>)
    requires |data| == 3
    ensures |r| == 3
    decreases |buttons|
  {
    if buttons == [] then data
    else ReleaseButton(m, ReleaseAll(m, data, buttons[..|buttons| - 1]), buttons[|buttons| - 1])
  }

  /** The bits of byte `j` that `button` names: its mask if it is known and lives in byte `j`. */
  function ButtonMask(m: ButtonMap, button: string, j: ByteIndex): bv8 {
    match Lookup(m, button)
    case Some(p) => MaskAt(p, j)
    case None => 0
  }

  /** The bits of byte `j` that the names in `buttons` cover. */
  function MaskOf(m: ButtonMap, buttons: seq<string>, j: ByteIndex): bv8
    decreases |buttons|
  {
    if buttons == [] then 0
    else MaskOf(m, buttons[..|buttons| - 1], j) | ButtonMask(m, buttons[|buttons| - 1], j)
  }

  // ---------------------------------------------------------------- properties of the bitmap

  /** Setting the bit at `q` sets it and moves no other bit. */
  lemma SetAtBits(data: seq<bv8>, q: Position, p: Position)
    requires |data| == 3
    ensures Held(SetAt(data, q), p) == (p == q || Held(data, p))
  {
    if p.index == q.index {
      MaskBits(data[q.index], q.bit, p.bit);
    }
  }

  /** Clearing the bit at `q` clears it and moves no other bit. */
  lemma ClearAtBits(data: seq<bv8>, q: Position, p: Position)
    requires |data| == 3
    ensures Held(ClearAt(data, q), p) == (p != q && Held(data, p))
  {
    if p.index == q.index {
      MaskBits(data[q.index], q.bit, p.bit);
    }
  }

  /** Pressing a known button sets its bit and no other bit moves; an unknown name changes nothing. */
  lemma PressButtonBits(m: ButtonMap, data: seq<bv8>, button: string, p: Position)
    requires |data| == 3
    ensures Held(PressButton(m, data, button), p) ==
      ((button in m && p == m[button]) || Held(data, p))
  {
    if Lookup(m, button).Some? {
      SetAtBits(data, Lookup(m, button).value, p);
    }
  }

  /** Releasing a known button clears its bit and no other bit moves; an unknown name changes nothing. */
  lemma ReleaseButtonBits(m: ButtonMap, data: seq<bv8>, button: string, p: Position)
    requires |data| == 3
    ensures Held(ReleaseButton(m, data, button), p) ==
      (!(button in m && p == m[button]) && Held(data, p))
  {
    if Lookup(m, button).Some? {
      ClearAtBits(data, Lookup(m, button).value, p);
    }
  }

  /** Pressing a button whose bit is clear and then releasing it restores the bitmap. */
  lemma PressThenRelease(m: ButtonMap, data: seq<bv8>, button: string)
    requires |data| == 3
    requires button in m ==> !Held(data, m[button])
    ensures ReleaseButton(m, PressButton(m, data, button), button) == data
  {
    if Lookup(m, button).Some? {
      var p := Lookup(m, button).value;
      FlipClear(data[p.index], p.bit);
      assert (data[p.index] ^ Mask(p.bit)) ^ Mask(p.bit) == data[p.index];
    }
  }

  /** Releasing a held button and then pressing it restores the bitmap. */
  lemma ReleaseThenPress(m: ButtonMap, data: seq<bv8>, button: string)
    requires |data| == 3
    requires button in m ==> Held(data, m[button])
    ensures PressButton(m, ReleaseButton(m, data, button), button) == data
  {
    if Lookup(m, button).Some? {
      var p := Lookup(m, button).value;
      FlipSet(data[p.index], p.bit);
      assert (data[p.index] ^ Mask(p.bit)) ^ Mask(p.bit) == data[p.index];
    }
  }

  /** The mask that the position `p` contributes to byte `j`. */
  function MaskAt(p: Position, j: ByteIndex): bv8 {
    if p.index == j then Mask(p.bit) else 0
  }

  /** Setting the bit at `p` ors its mask into each byte. */
  lemma SetAtByte(data: seq<bv8>, p: Position, j: ByteIndex)
    requires |data| == 3
    ensures SetAt(data, p)[j] == data[j] | MaskAt(p, j)
  {
    if p.index != j {
      OrBoth(data[j], 0, 0);
    }
  }

  /** Clearing the bit at `p` clears its mask from each byte. */
  lemma ClearAtByte(data: seq<bv8>, p: Position, j: ByteIndex)
    requires |data| == 3
    ensures ClearAt(data, p)[j] == data[j] & !MaskAt(p, j)
  {
    if p.index != j {
      OrBoth(data[j], 0, 0);
    }
  }

  /** Pressing one name ors its mask into each byte. */
  lemma PressButtonOrsMask(m: ButtonMap, data: seq<bv8>, button: string, j: ByteIndex)
    requires |data| == 3
    ensures PressButton(m, data, button)[j] == data[j] | ButtonMask(m, button, j)
  {
    match Lookup(m, button)
    case None =>
      OrBoth(data[j], 0, 0);
    case Some(p) =>
      SetAtByte(data, p, j);
  }

  /** Releasing one name clears its mask from each byte. */
  lemma ReleaseButtonClearsMask(m: ButtonMap, data: seq<bv8>, button: string, j: ByteIndex)
    requires |data| == 3
    ensures ReleaseButton(m, data, button)[j] == data[j] & !ButtonMask(m, button, j)
  {
    match Lookup(m, button)
    case None =>
      OrBoth(data[j], 0, 0);
    case Some(p) =>
      ClearAtByte(data, p, j);
  }

  /** Pressing the names in order ors their masks into the bitmap. */
  lemma {:induction false} PressAllOrsMask(m: ButtonMap, data: seq<bv8>, buttons: seq<string>, j: ByteIndex)
    requires |data| == 3
    ensures PressAll(m, data, buttons)[j] == data[j] | MaskOf(m, buttons, j)
    decreases |buttons|
  {
    if buttons != [] {
      var init, last := buttons[..|buttons| - 1], buttons[|buttons| - 1];
      PressAllOrsMask(m, data, init, j);
      PressButtonOrsMask(m, PressAll(m, data, init), last, j);
      OrBoth(data[j], MaskOf(m, init, j), ButtonMask(m, last, j));
    } else {
      OrBoth(data[j], 0, 0);
    }
  }

  /** Releasing the names in order clears their masks from the bitmap. */
  lemma {:induction false} ReleaseAllClearsMask(m: ButtonMap, data: seq<bv8>, buttons: seq<string>, j: ByteIndex)
    requires |data| == 3
    ensures ReleaseAll(m, data, buttons)[j] == data[j] & !MaskOf(m, buttons, j)
    decreases |buttons|
  {
    if buttons != [] {
      var init, last := buttons[..|buttons| - 1], buttons[|buttons| - 1];
      ReleaseAllClearsMask(m, data, init, j);
      ReleaseButtonClearsMask(m, ReleaseAll(m, data, init), last, j);
      ClearBoth(data[j], MaskOf(m, init, j), ButtonMask(m, last, j));
    } else {
      ClearBoth(data[j], 0, 0);
    }
  }

  /** Pressing the same names twice is pressing them once. */
  lemma PressAllIdempotent(m: ButtonMap, data: seq<bv8>, buttons: seq<string>)
    requires |data| == 3
    ensures PressAll(m, PressAll(m, data, buttons), buttons) == PressAll(m, data, buttons)
  {
    var once := PressAll(m, data, buttons);
    forall j: ByteIndex
      ensures PressAll(m, once, buttons)[j] == once[j]
    {
      PressAllOrsMask(m, once, buttons, j);
      PressAllOrsMask(m, data, buttons, j);
    }
  }

  /** Releasing the same names twice is releasing them once. */
  lemma ReleaseAllIdempotent(m: ButtonMap, data: seq<bv8>, buttons: seq<string>)
    requires |data| == 3
    ensures ReleaseAll(m, ReleaseAll(m, data, buttons), buttons) == ReleaseAll(m, data, buttons)
  {
    var once := ReleaseAll(m, data, buttons);
    forall j: ByteIndex
      ensures ReleaseAll(m, once, buttons)[j] == once[j]
    {
      ReleaseAllClearsMask(m, once, buttons, j);
      ReleaseAllClearsMask(m, data, buttons, j);
    }
  }

  /** Pressing and then releasing names none of which was held restores the bitmap. */
  lemma PressAllThenReleaseAll(m: ButtonMap, data: seq<bv8>, buttons: seq<string>)
    requires |data| == 3
    requires forall j: ByteIndex :: data[j] & MaskOf(m, buttons, j) == 0
    ensures ReleaseAll(m, PressAll(m, data, buttons), buttons) == data
  {
    var pressed := PressAll(m, data, buttons);
    forall j: ByteIndex
      ensures ReleaseAll(m, pressed, buttons)[j] == data[j]
    {
      PressAllOrsMask(m, data, buttons, j);
      ReleaseAllClearsMask(m, pressed, buttons, j);
    }
  }
}
