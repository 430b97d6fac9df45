/**
 * cpu/flags.go, the pure half: where Z, N, H and C live in the F register, what
 * each flag setter does to F, and the carry and half-carry tests the ALU
 * templates feed into the setters. The core stores the F these leave
 * (`Cpu.Core.AluOn`, `Cpu.Core.IncDecR` and the other instruction methods).
 */
module Flags {
  import opened Bits

  /** `f & 0x80 == 0x80` */
  predicate Zero(f: u8) { (f / 0x80) % 2 == 1 }
  /** `f & 0x40 == 0x40` */
  predicate Subtract(f: u8) { (f / 0x40) % 2 == 1 }
  /** `f & 0x20 == 0x20` */
  predicate HalfCarry(f: u8) { (f / 0x20) % 2 == 1 }
  /** `f & 0x10 == 0x10` */
  predicate Carry(f: u8) { (f / 0x10) % 2 == 1 }

  function B2I(b: bool): int { if b then 1 else 0 }

  /** The F byte with the given four flags over the given low nibble. */
  function Pack(z: bool, n: bool, h: bool, c: bool, low: int): (f: u8)
    requires 0 <= low < 0x10
    ensures Zero(f) == z && Subtract(f) == n && HalfCarry(f) == h && Carry(f) == c
    ensures f % 0x10 == low
  {
    0x80 * B2I(z) + 0x40 * B2I(n) + 0x20 * B2I(h) + 0x10 * B2I(c) + low
  }

  /** Every F byte is its four flags over its low nibble. */
  lemma Unpack(f: u8)
    ensures f == Pack(Zero(f), Subtract(f), HalfCarry(f), Carry(f), f % 0x10)
  {
    ModUnique(f, 0x100, 0, f);
    PeelBit(f, 0x80);
    PeelBit(f, 0x40);
    PeelBit(f, 0x20);
    PeelBit(f, 0x10);
  }

  /** Z, N, H and C are bits 7, 6, 5 and 4 of F. */
  lemma FlagPositions(f: u8)
    ensures Zero(f) == Bit(f, 7) && Subtract(f) == Bit(f, 6)
    ensures HalfCarry(f) == Bit(f, 5) && Carry(f) == Bit(f, 4)
  {
    assert Pow2(4) == 0x10 && Pow2(5) == 0x20 && Pow2(6) == 0x40 && Pow2(7) == 0x80;
  }

  /** setZeroFlag: `f | 0x80` or `f & 0x7F`. */
  function WithZero(f: u8, state: bool): (r: u8)
    ensures r == Pack(state, Subtract(f), HalfCarry(f), Carry(f), f % 0x10)
  {
    Unpack(f);
    ModUnique(f, 0x80, B2I(Zero(f)), f - 0x80 * B2I(Zero(f)));
    f % 0x80 + 0x80 * B2I(state)
  }

  /** setSubtractFlag: `f | 0x40` or `f & 0xBF`. */
  function WithSubtract(f: u8, state: bool): (r: u8)
    ensures r == Pack(Zero(f), state, HalfCarry(f), Carry(f), f % 0x10)
  {
    Unpack(f);
    f - 0x40 * B2I(Subtract(f)) + 0x40 * B2I(state)
  }

  /** setHalfCarryFlag: `f | 0x20` or `f & 0xDF`. */
  function WithHalfCarry(f: u8, state: bool): (r: u8)
    ensures r == Pack(Zero(f), Subtract(f), state, Carry(f), f % 0x10)
  {
    Unpack(f);
    f - 0x20 * B2I(HalfCarry(f)) + 0x20 * B2I(state)
  }

  /** setCarryFlag: `f | 0x10` or `f & 0xEF`. */
  function WithCarry(f: u8, state: bool): (r: u8)
    ensures r == Pack(Zero(f), Subtract(f), HalfCarry(f), state, f % 0x10)
  {
    Unpack(f);
    f - 0x10 * B2I(Carry(f)) + 0x10 * B2I(state)
  }

  /** No sequence of flag updates changes F's low nibble. */
  lemma SettersKeepLowNibble(f: u8, s: bool)
    ensures WithZero(f, s) % 0x10 == f % 0x10 && WithSubtract(f, s) % 0x10 == f % 0x10
    ensures WithHalfCarry(f, s) % 0x10 == f % 0x10 && WithCarry(f, s) % 0x10 == f % 0x10
  {
  }

  // ---- carry and half-carry predicates (each line is Go's expression) ----

  /** `((x&0x0F)+(y&0x0F))&0x10 == 0x10`: a carry out of bit 3. */
  function HalfCarryAdd8(x: u8, y: u8): (r: bool)
    ensures r <==> x % 0x10 + y % 0x10 >= 0x10
  {
    ((x % 0x10 + y % 0x10) / 0x10) % 2 == 1
  }

  /** The nibble carry of x + y, or of (x + y) + z. */
  function HalfCarryTripleAdd8(x: u8, y: u8, z: u8): (r: bool)
    ensures r <==> x % 0x10 + y % 0x10 + z % 0x10 >= 0x10
  {
    LowOfWrap(x, y, 0x10, 0x10);
    HalfCarryAdd8(x, y) || HalfCarryAdd8((x + y) % 0x100, z)
  }

  /** The low bits of a wrapped sum are those of the sum of the low bits. */
  lemma LowOfWrap(x: nat, y: nat, m: nat, k: nat)
    requires m > 0 && k > 0
    ensures ((x + y) % (k * m)) % m == (x % m + y % m) % m
  {
    var a, b := x / m, y / m;
    var c, s0 := (x % m + y % m) / m, (x % m + y % m) % m;
    var t, w := (x + y) / (k * m), (x + y) % (k * m);
    assert x + y == (a + b + c) * m + s0;
    assert x + y == t * (k * m) + w;
    assert w == (a + b + c - t * k) * m + s0;
    ModUnique(w, m, a + b + c - t * k, s0);
  }

  /** The low bits of a wrapped difference are those of the difference of the low bits. */
  lemma LowOfWrapSub(x: nat, y: nat, m: nat, k: nat)
    requires m > 0 && k > 0
    ensures ((x - y) % (k * m)) % m == (x % m - y % m) % m
  {
    var a, b := x / m, y / m;
    var c, s0 := (x % m - y % m) / m, (x % m - y % m) % m;
    var t, w := (x - y) / (k * m), (x - y) % (k * m);
    assert x - y == (a - b + c) * m + s0;
    assert x - y == t * (k * m) + w;
    assert w == (a - b + c - t * k) * m + s0;
    ModUnique(w, m, a - b + c - t * k, s0);
  }

  /** `(x & 0x0F) < (y & 0x0F)`: the nibble difference wraps, a borrow into bit 3. */
  function HalfCarrySub8(x: u8, y: u8): (r: bool)
    ensures r <==> (x % 0x10 - y % 0x10) % 0x10 != x % 0x10 - y % 0x10
  {
    x % 0x10 < y % 0x10
  }

  function HalfCarryTripleSub8(x: u8, y: u8, z: u8): (r: bool)
    ensures r <==> x % 0x10 < y % 0x10 + z % 0x10
  {
    LowOfWrapSub(x, y, 0x10, 0x10);
    HalfCarrySub8(x, y) || HalfCarrySub8((x - y) % 0x100, z)
  }

  /** `((x&0x0FFF)+(y&0x0FFF))&0x1000 == 0x1000`: a carry out of bit 11. */
  function HalfCarryAdd16(x: u16, y: u16): (r: bool)
    ensures r <==> x % 0x1000 + y % 0x1000 >= 0x1000
  {
    ((x % 0x1000 + y % 0x1000) / 0x1000) % 2 == 1
  }

  function HalfCarryTripleAdd16(x: u16, y: u16, z: u16): (r: bool)
    ensures r <==> x % 0x1000 + y % 0x1000 + z % 0x1000 >= 0x1000
  {
    LowOfWrap(x, y, 0x1000, 0x10);
    HalfCarryAdd16(x, y) || HalfCarryAdd16((x + y) % 0x1_0000, z)
  }

  function HalfCarrySub16(x: u16, y: u16): (r: bool)
    ensures r <==> (x % 0x1000 - y % 0x1000) % 0x1000 != x % 0x1000 - y % 0x1000
  {
    x % 0x1000 < y % 0x1000
  }

  function HalfCarryTripleSub16(x: u16, y: u16, z: u16): (r: bool)
    ensures r <==> x % 0x1000 < y % 0x1000 + z % 0x1000
  {
    LowOfWrapSub(x, y, 0x1000, 0x10);
    HalfCarrySub16(x, y) || HalfCarrySub16((x - y) % 0x1_0000, z)
  }

  /** `x > 0xFF - y`: the byte sum wraps. */
  function CarryAdd8(x: u8, y: u8): (r: bool)
    ensures r <==> x + y >= 0x100
    ensures r <==> (x + y) % 0x100 < x
  {
    x > 0xFF - y
  }

  function CarryTripleAdd8(x: u8, y: u8, z: u8): (r: bool)
    ensures r <==> x + y + z >= 0x100
  {
    CarryAdd8(x, y) || CarryAdd8((x + y) % 0x100, z)
  }

  /** `x < y`: the byte difference borrows. */
  function CarrySub8(x: u8, y: u8): (r: bool)
    ensures r <==> (x - y) % 0x100 != x - y
  {
    x < y
  }

  function CarryTripleSub8(x: u8, y: u8, z: u8): (r: bool)
    ensures r <==> x < y + z
  {
    CarrySub8(x, y) || CarrySub8((x - y) % 0x100, z)
  }

  function CarryAdd16(x: u16, y: u16): (r: bool)
    ensures r <==> x + y >= 0x1_0000
  {
    x > 0xFFFF - y
  }

  function CarryTripleAdd16(x: u16, y: u16, z: u16): (r: bool)
    ensures r <==> x + y + z >= 0x1_0000
  {
    CarryAdd16(x, y) || CarryAdd16((x + y) % 0x1_0000, z)
  }

  function CarrySub16(x: u16, y: u16): (r: bool)
    ensures r <==> (x - y) % 0x1_0000 != x - y
  {
    x < y
  }

  function CarryTripleSub16(x: u16, y: u16, z: u16): (r: bool)
    ensures r <==> x < y + z
  {
    CarrySub16(x, y) || CarrySub16((x - y) % 0x1_0000, z)
  }

  /** 0x0F + 0x01 carries out of the nibble only; 0xFF + 0x01 out of both. */
  lemma AddCarryExamples()
    ensures HalfCarryAdd8(0x0F, 0x01) && !CarryAdd8(0x0F, 0x01)
    ensures CarryAdd8(0xFF, 0x01) && HalfCarryAdd8(0xFF, 0x01)
  {
    assert 0x0F % 0x10 + 0x01 % 0x10 == 0x10 && 0xFF % 0x10 + 0x01 % 0x10 == 0x10;
  }

  /** 0x00 - 0x01 borrows on both; 0x10 - 0x01 only on the nibble. */
  lemma SubCarryExamples()
    ensures HalfCarrySub8(0x00, 0x01) && CarrySub8(0x00, 0x01)
    ensures HalfCarrySub8(0x10, 0x01) && !CarrySub8(0x10, 0x01)
  {
  }
}
