/**
 * display/palette.go: the shades a pixel can take, and the palette registers
 * BGP, OBP0 and OBP1 that map a 2-bit colour code to a shade.
 */
module Palette {
  import opened Bits

  const ColorWhite: u8 := 0
  const ColorLightGray: u8 := 1
  const ColorDarkGray: u8 := 2
  const ColorBlack: u8 := 3
  /** Only the window and sprite layers hold it: no pixel drawn there. */
  const ColorTransparent: u8 := 4

  /**
   * toColor: `(p << (8 - ((code + 1) * 2))) >> 6` in byte arithmetic. The
   * shift amount wraps like every byte, and a shift of 8 or more clears the
   * byte.
   */
  function ToColor(p: u8, code: u8): (c: u8)
    ensures c < 4
  {
    var shift := ShiftAmount(code);
    if shift >= 8 then 0 else ((p * Pow2(shift)) % 0x100) / 0x40
  }

  /** `8 - ((code + 1) * 2)` in byte arithmetic. */
  function ShiftAmount(code: u8): u8
  {
    (8 - ((code + 1) * 2) % 0x100) % 0x100
  }

  /** The shifts of the four codes proper: 6, 4, 2 and 0. */
  lemma SmallShifts()
    ensures ShiftAmount(0) == 6 && ShiftAmount(1) == 4 && ShiftAmount(2) == 2 && ShiftAmount(3) == 0
  {
  }

  /** Two bits of `p`, the pair starting at bit `2k`. */
  function Field(p: u8, k: nat): nat
    requires k < 4
  {
    (p / [1, 4, 0x10, 0x40][k]) % 4
  }

  /** `((x << 6) >> 6)`: bits 0-1. */
  lemma Pair0(x: u8)
    ensures ((x * 0x40) % 0x100) / 0x40 == x % 4
  {
    var q := x / 4;
    assert x * 0x40 == 0x100 * q + 0x40 * (x % 4);
    DivUnique(x * 0x40, 0x100, q, 0x40 * (x % 4));
  }

  /** `((x << 4) >> 6)`: bits 2-3. */
  lemma Pair1(x: u8)
    ensures ((x * 0x10) % 0x100) / 0x40 == (x / 4) % 4
  {
    var q, r := x / 0x10, x % 0x10;
    assert x * 0x10 == 0x100 * q + 0x10 * r;
    DivUnique(x * 0x10, 0x100, q, 0x10 * r);
    assert 0x10 * r == 0x40 * (r / 4) + 0x10 * (r % 4);
    DivUnique(0x10 * r, 0x40, r / 4, 0x10 * (r % 4));
    DivUnique(x, 4, 4 * q + r / 4, r % 4);
  }

  /** `((x << 2) >> 6)`: bits 4-5. */
  lemma Pair2(x: u8)
    ensures ((x * 4) % 0x100) / 0x40 == (x / 0x10) % 4
  {
    var q, r := x / 0x40, x % 0x40;
    assert x * 4 == 0x100 * q + 4 * r;
    DivUnique(x * 4, 0x100, q, 4 * r);
    assert 4 * r == 0x40 * (r / 0x10) + 4 * (r % 0x10);
    DivUnique(4 * r, 0x40, r / 0x10, 4 * (r % 0x10));
    DivUnique(x, 0x10, 4 * q + r / 0x10, r % 0x10);
  }

  /** For a 2-bit code c the shade is bits 2c and 2c+1 of the palette: `(p >> 2c) & 3`. */
  lemma {:induction false} ToColorIsField(p: u8, code: u8)
    requires code < 4
    ensures ToColor(p, code) == Field(p, code)
  {
    Pow2Table();
    SmallShifts();
    if code == 0 {
      Pair0(p);
    } else if code == 1 {
      Pair1(p);
    } else if code == 2 {
      Pair2(p);
    }
  }

  /** No palette lookup gives the transparent shade. */
  lemma NeverTransparent(p: u8, code: u8)
    ensures ToColor(p, code) != ColorTransparent
  {
  }

  /** The palette 0xE4 (binary 11 10 01 00) maps each code to itself. */
  lemma {:induction false} IdentityPalette(code: u8)
    requires code < 4
    ensures ToColor(0xE4, code) == code
  {
    Pow2Table();
    SmallShifts();
    if code == 0 {
      assert 0xE4 * Pow2(6) == 0x3900 && 0x3900 % 0x100 == 0;
    } else if code == 1 {
      assert 0xE4 * Pow2(4) == 0xE40 && 0xE40 % 0x100 == 0x40;
    } else if code == 2 {
      assert 0xE4 * Pow2(2) == 0x390 && 0x390 % 0x100 == 0x90 && 0x90 / 0x40 == 2;
    } else {
      assert 0xE4 * Pow2(0) == 0xE4 && 0xE4 / 0x40 == 3;
    }
  }

  /**
   * Only the two low bits of the code take part, except that the byte
   * arithmetic lets codes 128-131 through as 0-3; every other code gives white.
   */
  lemma {:induction false} WideCodes(p: u8, code: u8)
    ensures 4 <= code < 128 || 132 <= code ==> ToColor(p, code) == ColorWhite
    ensures 128 <= code < 132 ==> ToColor(p, code) == ToColor(p, code - 128)
  {
    WideShift(code);
  }

  /** The shift amount: 8 or more for codes 4-127 and 132-255, and the same for c and c + 128 below 132. */
  lemma {:induction false} WideShift(code: u8)
    ensures 4 <= code < 128 || 132 <= code ==> ShiftAmount(code) >= 8
    ensures 128 <= code < 132 ==> ShiftAmount(code) == ShiftAmount(code - 128)
  {
    var m := (code + 1) * 2;
    if code < 4 {
    } else if code < 127 {
      ModUnique(m, 0x100, 0, m);
      ModUnique(8 - m, 0x100, -1, 0x108 - m);
    } else if code == 127 || code == 255 {
      ModUnique(m, 0x100, m / 0x100, 0);
    } else {
      ModUnique(m, 0x100, 1, m - 0x100);
      if code < 132 {
        ModUnique(m - 0x100, 0x100, 0, m - 0x100);
      } else {
        ModUnique(8 - (m - 0x100), 0x100, -1, 0x208 - m);
      }
    }
  }

  /** A palette register (`type Palette byte`). */
  class Palette {
    var data: u8

    constructor (d: u8)
      ensures data == d
    {
      data := d;
    }

    /** Read ignores the address and never fails. */
    function Read(addr: u16): (r: u8)
      reads this
      ensures r == data
    {
      data
    }

    /** Write replaces the byte, so it is read back. */
    method Write(addr: u16, d: u8)
      modifies this
      ensures data == d && Read(addr) == d
    {
      data := d;
    }
  }
}
