/**
 * cpu/register8.go and cpu/register16.go: the CPU's byte registers and the
 * register pairs built from two of them.
 *
 * A `Register16` owns its two halves; `High()` and `Low()` hand out the very
 * objects, so a write through `A` is a write to the high byte of `AF`, as the
 * references that Go's `high()`/`low()` return are.
 */
module Registers {
  import opened Bits

  /** One increment with byte wrap-around. */
  function Inc8(x: u8): (r: u8)
    ensures (r - x - 1) % 0x100 == 0
    ensures x < 0xFF ==> r == x + 1
  {
    if x == 0xFF then 0 else x + 1
  }

  /** One decrement with byte wrap-around. */
  function Dec8(x: u8): (r: u8)
    ensures (r - x + 1) % 0x100 == 0
    ensures x > 0 ==> r == x - 1
  {
    if x == 0 then 0xFF else x - 1
  }

  function Inc16(x: u16): (r: u16)
    ensures (r - x - 1) % 0x1_0000 == 0
    ensures x < 0xFFFF ==> r == x + 1
  {
    (x + 1) % 0x1_0000
  }

  function Dec16(x: u16): (r: u16)
    ensures (r - x + 1) % 0x1_0000 == 0
    ensures x > 0 ==> r == x - 1
  {
    (x - 1) % 0x1_0000
  }

  lemma IncDec8Inverse(x: u8)
    ensures Dec8(Inc8(x)) == x && Inc8(Dec8(x)) == x
  {
  }

  lemma IncDec16Inverse(x: u16)
    ensures Dec16(Inc16(x)) == x && Inc16(Dec16(x)) == x
  {
  }

  /**
   * Go's `(d << 1) | (d >> 7)` on a byte: the shift drops bit 7 and the low
   * bit it frees is filled with the old bit 7, i.e. 2·(d mod 128) + d div 128.
   */
  function RotL8(x: u8): (r: u8)
  {
    2 * (x % 0x80) + x / 0x80
  }

  /** Go's `(d >> 1) | (d << 7)` on a byte. */
  function RotR8(x: u8): (r: u8)
  {
    x / 2 + 0x80 * (x % 2)
  }

  /** The two halves of a left rotation: bit 0 is the old bit 7, the rest is the old low seven bits. */
  lemma RotL8Parts(x: u8)
    ensures RotL8(x) % 2 == x / 0x80 && RotL8(x) / 2 == x % 0x80
  {
    ModUnique(RotL8(x), 2, x % 0x80, x / 0x80);
    DivUnique(RotL8(x), 2, x % 0x80, x / 0x80);
  }

  /** The two halves of a right rotation: bit 7 is the old bit 0, the rest is the old high seven bits. */
  lemma RotR8Parts(x: u8)
    ensures RotR8(x) / 0x80 == x % 2 && RotR8(x) % 0x80 == x / 2
  {
    DivUnique(RotR8(x), 0x80, x % 2, x / 2);
    ModUnique(RotR8(x), 0x80, x % 2, x / 2);
  }

  lemma RotateInverse(x: u8)
    ensures RotR8(RotL8(x)) == x && RotL8(RotR8(x)) == x
  {
    var r, b := x % 0x80, x / 0x80;
    DivUnique(RotL8(x), 2, r, b);
    ModUnique(RotL8(x), 2, r, b);
    var h, l := x / 2, x % 2;
    DivUnique(RotR8(x), 0x80, l, h);
    ModUnique(RotR8(x), 0x80, l, h);
  }

  /** A byte's value from its high bit and its seven low bits. */
  lemma RotL8Split(b7: int, rest: int)
    requires 0 <= b7 < 2 && 0 <= rest < 0x80
    ensures RotL8(0x80 * b7 + rest) == 2 * rest + b7
  {
    DivUnique(0x80 * b7 + rest, 0x80, b7, rest);
    ModUnique(0x80 * b7 + rest, 0x80, b7, rest);
  }

  /** The four bits of a nibble. */
  lemma NibbleBits(n: int)
    requires 0 <= n < 16
    ensures n == 8 * (n / 8) + 4 * ((n / 4) % 2) + 2 * ((n / 2) % 2) + n % 2
  {
    PeelBit(n, 8);
    PeelBit(n, 4);
    PeelBit(n, 2);
    ModUnique(n, 16, 0, n);
  }

  lemma RotL8Nibbles(h3: int, h2: int, h1: int, h0: int, lo: int)
    requires 0 <= h3 < 2 && 0 <= h2 < 2 && 0 <= h1 < 2 && 0 <= h0 < 2 && 0 <= lo < 16
    ensures RotL8(RotL8(RotL8(RotL8(128 * h3 + 64 * h2 + 32 * h1 + 16 * h0 + lo)))) ==
            16 * lo + 8 * h3 + 4 * h2 + 2 * h1 + h0
  {
    var v0 := 128 * h3 + 64 * h2 + 32 * h1 + 16 * h0 + lo;
    var v1 := 128 * h2 + 64 * h1 + 32 * h0 + 2 * lo + h3;
    var v2 := 128 * h1 + 64 * h0 + 4 * lo + 2 * h3 + h2;
    var v3 := 128 * h0 + 8 * lo + 4 * h3 + 2 * h2 + h1;
    RotL8Split(h3, v0 - 128 * h3);
    RotL8Split(h2, v1 - 128 * h2);
    RotL8Split(h1, v2 - 128 * h1);
    RotL8Split(h0, v3 - 128 * h0);
    assert RotL8(v0) == v1 && RotL8(v1) == v2 && RotL8(v2) == v3;
  }

  /** Exchange the two nibbles of a byte, as the CPU's SWAP does. */
  function SwapNibbles(x: u8): (r: u8)
  {
    16 * (x % 16) + x / 16
  }

  lemma SwapNibblesInvolution(x: u8)
    ensures SwapNibbles(SwapNibbles(x)) == x
  {
    var lo, hi := x % 16, x / 16;
    ModUnique(SwapNibbles(x), 16, lo, hi);
    DivUnique(SwapNibbles(x), 16, lo, hi);
  }

  /** Four single rotations exchange the nibbles. */
  lemma {:induction false} RotateFour(x: u8)
    ensures RotL8(RotL8(RotL8(RotL8(x)))) == SwapNibbles(x)
  {
    var hi := x / 16;
    NibbleBits(hi);
    RotL8Nibbles(hi / 8, (hi / 4) % 2, (hi / 2) % 2, hi % 2, x % 16);
  }

  /** Eight left rotations restore the original byte. */
  lemma RotateEight(x: u8)
    ensures RotL8(RotL8(RotL8(RotL8(RotL8(RotL8(RotL8(RotL8(x)))))))) == x
  {
    RotateFour(x);
    RotateFour(RotL8(RotL8(RotL8(RotL8(x)))));
    SwapNibblesInvolution(x);
  }

  /** A true 16-bit rotation: bit 15 comes round to bit 0. */
  function RotL16(w: u16): (r: u16)
  {
    2 * (w % 0x8000) + w / 0x8000
  }

  /** A true 16-bit right rotation: bit 0 comes round to bit 15. */
  function RotR16(w: u16): (r: u16)
  {
    w / 2 + 0x8000 * (w % 2)
  }

  lemma Rotate16Inverse(w: u16)
    ensures RotR16(RotL16(w)) == w && RotL16(RotR16(w)) == w
  {
    var q, b := w % 0x8000, w / 0x8000;
    DivUnique(RotL16(w), 2, q, b);
    ModUnique(RotL16(w), 2, q, b);
    var h, l := w / 2, w % 2;
    DivUnique(RotR16(w), 0x8000, l, h);
    ModUnique(RotR16(w), 0x8000, l, h);
  }

  /** Go's `b ^ 0x01`: flip bit 0. */
  function FlipBit0(x: u8): u8
  {
    if x % 2 == 1 then x - 1 else x + 1
  }

  /** Go's `b ^ 0x80`: flip bit 7. */
  function FlipBit7(x: u8): u8
  {
    if x >= 0x80 then x - 0x80 else x + 0x80
  }

  /**
   * register16.go rotateLeft: both halves rotate left on their own, after
   * which each holds the other's old top bit in the wrong place; swapping the
   * two bit 0s when they differ completes the 16-bit rotation
   * (`PairRotLIsRotation`).
   */
  function PairRotL(hi: u8, lo: u8): (u8, u8)
  {
    var h, l := RotL8(hi), RotL8(lo);
    if h % 2 != l % 2 then (FlipBit0(h), FlipBit0(l)) else (h, l)
  }

  /** register16.go rotateRight, the mirror image on bit 7. */
  function PairRotR(hi: u8, lo: u8): (u8, u8)
  {
    var h, l := RotR8(hi), RotR8(lo);
    if (h >= 0x80) != (l >= 0x80) then (FlipBit7(h), FlipBit7(l)) else (h, l)
  }

  /** Each half after rotateLeft: its own low 7 bits over the other's top bit. */
  lemma PairRotLParts(hi: u8, lo: u8)
    ensures PairRotL(hi, lo) == (2 * (hi % 0x80) + lo / 0x80, 2 * (lo % 0x80) + hi / 0x80)
  {
    ModUnique(RotL8(hi), 2, hi % 0x80, hi / 0x80);
    ModUnique(RotL8(lo), 2, lo % 0x80, lo / 0x80);
  }

  lemma PairRotLIsRotation(hi: u8, lo: u8)
    ensures Word(PairRotL(hi, lo).0, PairRotL(hi, lo).1) == RotL16(Word(hi, lo))
  {
    var h7, hr, l7, lr := hi / 0x80, hi % 0x80, lo / 0x80, lo % 0x80;
    PairRotLParts(hi, lo);
    var w := Word(hi, lo);
    var rest := 0x100 * hr + 0x80 * l7 + lr;
    assert w == 0x8000 * h7 + rest;
    DivUnique(w, 0x8000, h7, rest);
    ModUnique(w, 0x8000, h7, rest);
  }

  lemma PairRotRIsRotation(hi: u8, lo: u8)
    ensures Word(PairRotR(hi, lo).0, PairRotR(hi, lo).1) == RotR16(Word(hi, lo))
  {
    var h0, hr, l0, lr := hi % 2, hi / 2, lo % 2, lo / 2;
    assert PairRotR(hi, lo) == (hr + 0x80 * l0, lr + 0x80 * h0);
    var w := Word(hi, lo);
    var rest := 0x100 * hr + 0x80 * h0 + lr;
    assert w == 2 * rest + l0;
    DivUnique(w, 2, rest, l0);
  }

  class Register8 {
    var data: u8

    constructor ()
      ensures data == 0
    {
      data := 0;
    }

    function Get(): u8
      reads this
    {
      data
    }

    method Set(d: u8)
      modifies this
      ensures data == d && Get() == d
    {
      data := d;
    }

    method Increment()
      modifies this
      ensures data == Inc8(old(data))
    {
      data := Inc8(data);
    }

    method Decrement()
      modifies this
      ensures data == Dec8(old(data))
    {
      data := Dec8(data);
    }

    method RotateLeft()
      modifies this
      ensures data == RotL8(old(data))
    {
      data := RotL8(data);
    }

    method RotateRight()
      modifies this
      ensures data == RotR8(old(data))
    {
      data := RotR8(data);
    }
  }

  class Register16 {
    const h: Register8
    const l: Register8

    ghost predicate Valid()
    {
      h != l
    }

    constructor ()
      ensures Valid() && fresh(h) && fresh(l)
      ensures h.data == 0 && l.data == 0
    {
      h := new Register8();
      l := new Register8();
    }

    /** 256·high + low. */
    function Get(): (r: u16)
      reads h, l
      ensures Hi(r) == h.data && Lo(r) == l.data
    {
      Word(h.data, l.data)
    }

    method Set(d: u16)
      requires Valid()
      modifies h, l
      ensures l.data == Lo(d) && h.data == Hi(d)
      ensures Get() == d
    {
      l.Set(Lo(d));
      h.Set(Hi(d));
      WordOfHalves(d);
    }

    method Increment()
      requires Valid()
      modifies h, l
      ensures Get() == Inc16(old(Get()))
    {
      Set(Inc16(Get()));
    }

    method Decrement()
      requires Valid()
      modifies h, l
      ensures Get() == Dec16(old(Get()))
    {
      Set(Dec16(Get()));
    }

    method SetHigh(d: u8)
      modifies h
      ensures h.data == d
    {
      h.Set(d);
    }

    method SetLow(d: u8)
      modifies l
      ensures l.data == d
    {
      l.Set(d);
    }

    method IncrementHigh()
      modifies h
      ensures h.data == Inc8(old(h.data))
    {
      h.Increment();
    }

    method DecrementHigh()
      modifies h
      ensures h.data == Dec8(old(h.data))
    {
      h.Decrement();
    }

    method IncrementLow()
      modifies l
      ensures l.data == Inc8(old(l.data))
    {
      l.Increment();
    }

    method DecrementLow()
      modifies l
      ensures l.data == Dec8(old(l.data))
    {
      l.Decrement();
    }

    /** The high half itself, so writes through it change this pair. */
    function High(): (r: Register8)
      ensures r == h
    {
      h
    }

    function Low(): (r: Register8)
      ensures r == l
    {
      l
    }

    function HighByte(): u8
      reads h
    {
      h.data
    }

    function LowByte(): u8
      reads l
    {
      l.data
    }

    method RotateLeft()
      requires Valid()
      modifies h, l
      ensures Get() == RotL16(old(Get()))
    {
      ghost var pair := PairRotL(h.data, l.data);
      PairRotLIsRotation(h.data, l.data);
      h.RotateLeft();
      l.RotateLeft();
      if h.data % 2 != l.data % 2 {
        h.Set(FlipBit0(h.data));
        l.Set(FlipBit0(l.data));
      }
      assert (h.data, l.data) == pair;
    }

    method RotateRight()
      requires Valid()
      modifies h, l
      ensures Get() == RotR16(old(Get()))
    {
      ghost var pair := PairRotR(h.data, l.data);
      PairRotRIsRotation(h.data, l.data);
      h.RotateRight();
      l.RotateRight();
      if (h.data >= 0x80) != (l.data >= 0x80) {
        h.Set(FlipBit7(h.data));
        l.Set(FlipBit7(l.data));
      }
      assert (h.data, l.data) == pair;
    }
  }
}
