/**
 * display/stat.go: the LCD status register. Bits 0-1 hold the mode, bit 2
 * the LY = LYC coincidence, bits 3-6 the four interrupt enables. The picture
 * processor sets bits 0-2; a bus write only reaches bits 3-7.
 */
module Stat {
  import opened Bits

  const ModeHBlank: u8 := 0
  const ModeVBlank: u8 := 1
  const ModeOAM: u8 := 2
  const ModeTransfer: u8 := 3

  /** coincidenceInterruptEnabled: bit 6. */
  predicate CoincidenceInterruptEnabled(s: u8) { (s / 0x40) % 2 == 1 }

  /** oamInterruptEnabled: bit 5. */
  predicate OamInterruptEnabled(s: u8) { (s / 0x20) % 2 == 1 }

  /** vblankInterruptEnabled: bit 4. */
  predicate VBlankInterruptEnabled(s: u8) { (s / 0x10) % 2 == 1 }

  /** hblankInterruptEnabled: bit 3. */
  predicate HBlankInterruptEnabled(s: u8) { (s / 0x08) % 2 == 1 }

  /** coincidenceFlag: bit 2. */
  predicate CoincidenceFlag(s: u8) { (s / 0x04) % 2 == 1 }

  /** modeFlag: `s & 0x03`. */
  function ModeFlag(s: u8): (m: u8)
    ensures m < 4
  {
    s % 4
  }

  /** setModeFlag: `(s & 0xFC) | mode` for a mode below 4, else no change. */
  function WithMode(s: u8, mode: u8): u8
  {
    if mode < 4 then 4 * (s / 4) + mode else s
  }

  /** setCoincidenceFlag: `s | 0x04` to set bit 2, `s & 0xFB` to clear it. */
  function WithCoincidence(s: u8, state: bool): u8
  {
    if state then (if CoincidenceFlag(s) then s else s + 4)
    else (if CoincidenceFlag(s) then s - 4 else s)
  }

  /** Write: `(s & 0x07) | (data & 0xF8)`. */
  function Written(s: u8, d: u8): u8
  {
    s % 8 + 8 * (d / 8)
  }

  /** The flags and enables sit at bits 2 to 6. */
  lemma FieldBits(s: u8)
    ensures CoincidenceInterruptEnabled(s) <==> Bit(s, 6)
    ensures OamInterruptEnabled(s) <==> Bit(s, 5)
    ensures VBlankInterruptEnabled(s) <==> Bit(s, 4)
    ensures HBlankInterruptEnabled(s) <==> Bit(s, 3)
    ensures CoincidenceFlag(s) <==> Bit(s, 2)
  {
    Pow2Table();
  }

  /** Setting a mode below 4 changes bits 0-1 only and makes them the mode; 4 and above change nothing. */
  lemma {:induction false} WithModeBits(s: u8, mode: u8)
    ensures mode < 4 ==> ModeFlag(WithMode(s, mode)) == mode && WithMode(s, mode) / 4 == s / 4
    ensures mode >= 4 ==> WithMode(s, mode) == s
  {
    if mode < 4 {
      DivUnique(WithMode(s, mode), 4, s / 4, mode);
    }
  }

  /** A byte is its bits 3-7, its bit 2 and its bits 0-1. */
  lemma Split(s: u8)
    ensures s == 8 * (s / 8) + 4 * ((s / 4) % 2) + s % 4
  {
    DivUnique(s, 4, 2 * (s / 8) + (s % 8) / 4, s % 4);
  }

  /** The coincidence setter changes bit 2 only. */
  lemma {:induction false} WithCoincidenceBits(s: u8, state: bool)
    ensures CoincidenceFlag(WithCoincidence(s, state)) == state
    ensures WithCoincidence(s, state) % 4 == s % 4
    ensures WithCoincidence(s, state) / 8 == s / 8
  {
    Split(s);
    var b := if state then 1 else 0;
    var r := WithCoincidence(s, state);
    assert r == 8 * (s / 8) + 4 * b + s % 4;
    DivUnique(r, 8, s / 8, 4 * b + s % 4);
    DivUnique(r, 4, 2 * (s / 8) + b, s % 4);
  }

  /** Bits 3-7 seen from bit 3 and bit 2 up. */
  lemma {:induction false} HighBits(s: u8)
    ensures s / 0x10 == (s / 8) / 2 && s / 0x20 == (s / 8) / 4 && s / 0x40 == (s / 8) / 8
    ensures s / 8 == (s / 4) / 2
  {
    DivUnique(s, 0x10, (s / 8) / 2, 8 * ((s / 8) % 2) + s % 8);
    DivUnique(s, 0x20, (s / 8) / 4, 8 * ((s / 8) % 4) + s % 8);
    DivUnique(s, 0x40, (s / 8) / 8, 8 * ((s / 8) % 8) + s % 8);
    DivUnique(s, 8, (s / 4) / 2, 4 * ((s / 4) % 2) + s % 4);
  }

  /** Two values that agree on bits 3-7 have the same interrupt enables. */
  lemma {:induction false} SameEnables(s: u8, r: u8)
    requires s / 8 == r / 8
    ensures (CoincidenceInterruptEnabled(s) <==> CoincidenceInterruptEnabled(r))
    ensures (OamInterruptEnabled(s) <==> OamInterruptEnabled(r))
    ensures (VBlankInterruptEnabled(s) <==> VBlankInterruptEnabled(r))
    ensures (HBlankInterruptEnabled(s) <==> HBlankInterruptEnabled(r))
  {
    HighBits(s);
    HighBits(r);
  }

  /** A bus write keeps the mode and coincidence bits and takes bits 3-7 from the data. */
  lemma {:induction false} WrittenBits(s: u8, d: u8)
    ensures Written(s, d) % 8 == s % 8 && Written(s, d) / 8 == d / 8
    ensures ModeFlag(Written(s, d)) == ModeFlag(s) && (CoincidenceFlag(Written(s, d)) <==> CoincidenceFlag(s))
  {
    DivUnique(Written(s, d), 8, d / 8, s % 8);
    DivUnique(Written(s, d), 4, 2 * (d / 8) + (s % 8) / 4, s % 4);
    DivUnique(s, 4, 2 * (s / 8) + (s % 8) / 4, s % 4);
  }

  /** The register itself (`type STAT byte`). */
  class STAT {
    var data: u8

    constructor (d: u8)
      ensures data == d
    {
      data := d;
    }

    /** Read ignores the address and never fails. */
    function Read(addr: u16): (r: u8)
      reads this
      ensures r == data
    {
      data
    }

    method Write(addr: u16, d: u8)
      modifies this
      ensures data == Written(old(data), d)
    {
      data := data % 8 + 8 * (d / 8);
    }

    method SetModeFlag(mode: u8)
      modifies this
      ensures data == WithMode(old(data), mode)
    {
      if mode < 4 {
        data := 4 * (data / 4) + mode;
      }
    }

    method SetCoincidenceFlag(state: bool)
      modifies this
      ensures data == WithCoincidence(old(data), state)
    {
      data := WithCoincidence(data, state);
    }
  }
}
