/**
 * cpu/instructiontemplates.go, cpu/instructions.go and cpu/instructionscb.go:
 * what the arithmetic, logic, shift and bit templates compute from their
 * operands and the F register. Each function runs the template's flag setters
 * in the order Go calls them (the `Flags.WithX` updates); its contract says
 * what the result and each flag mean. `Cpu.Core` applies these to its
 * registers in place.
 */
module Alu {
  import opened Bits
  import opened Flags
  import opened Registers

  /** A byte result and the F register the template leaves. */
  datatype Flagged = Flagged(v: u8, f: u8)

  /** A word result and the F register the template leaves. */
  datatype Flagged16 = Flagged16(w: u16, f: u8)

  // ---- arithmetic on A ----

  /** AddAn: A + n with Z from the result, N clear, H and C from the nibble and byte carries. */
  function Add(a: u8, f: u8, n: u8): (r: Flagged)
    ensures r.v == (a + n) % 0x100
    ensures r.f == Pack(r.v == 0, false, a % 0x10 + n % 0x10 >= 0x10, a + n >= 0x100, f % 0x10)
  {
    var f1 := WithCarry(WithHalfCarry(WithSubtract(f, false), HalfCarryAdd8(a, n)), CarryAdd8(a, n));
    var v := (a + n) % 0x100;
    Flagged(v, WithZero(f1, v == 0))
  }

  /** AdcAn: A + n + C, the carries taken over all three. */
  function Adc(a: u8, f: u8, n: u8): (r: Flagged)
    ensures r.v == (a + n + B2I(Carry(f))) % 0x100
    ensures r.f == Pack(r.v == 0, false, a % 0x10 + n % 0x10 + B2I(Carry(f)) >= 0x10,
                        a + n + B2I(Carry(f)) >= 0x100, f % 0x10)
  {
    var cy := B2I(Carry(f));
    var f1 := WithCarry(WithHalfCarry(WithSubtract(f, false), HalfCarryTripleAdd8(a, n, cy)),
                        CarryTripleAdd8(a, n, cy));
    var v := (a + n + cy) % 0x100;
    Flagged(v, WithZero(f1, v == 0))
  }

  /** SubN: A - n with N set, H and C from the nibble and byte borrows. */
  function Sub(a: u8, f: u8, n: u8): (r: Flagged)
    ensures r.v == (a - n) % 0x100
    ensures r.f == Pack(r.v == 0, true, a % 0x10 < n % 0x10, a < n, f % 0x10)
  {
    var f1 := WithCarry(WithHalfCarry(WithSubtract(f, true), HalfCarrySub8(a, n)), CarrySub8(a, n));
    var v := (a - n) % 0x100;
    Flagged(v, WithZero(f1, v == 0))
  }

  /** SbcAn: A - n - C, the borrows taken over n and the carry together. */
  function Sbc(a: u8, f: u8, n: u8): (r: Flagged)
    ensures r.v == (a - n - B2I(Carry(f))) % 0x100
    ensures r.f == Pack(r.v == 0, true, a % 0x10 < n % 0x10 + B2I(Carry(f)), a < n + B2I(Carry(f)), f % 0x10)
  {
    var cy := B2I(Carry(f));
    var f1 := WithCarry(WithHalfCarry(WithSubtract(f, true), HalfCarryTripleSub8(a, n, cy)),
                        CarryTripleSub8(a, n, cy));
    var v := (a - n - cy) % 0x100;
    Flagged(v, WithZero(f1, v == 0))
  }

  /** AndN: H set, N and C clear. */
  function And(a: u8, f: u8, n: u8): (r: Flagged)
    ensures forall i :: 0 <= i < 8 ==> (Bit(r.v, i) <==> Bit(a, i) && Bit(n, i))
    ensures r.f == Pack(r.v == 0, false, true, false, f % 0x10)
  {
    forall i | 0 <= i < 8
      ensures Bit(And8(a, n), i) <==> Bit(a, i) && Bit(n, i)
    {
      AndBit(a, n, i);
    }
    var v := And8(a, n);
    Flagged(v, WithZero(WithCarry(WithHalfCarry(WithSubtract(f, false), true), false), v == 0))
  }

  /** XorN: N, H and C clear. */
  function Xor(a: u8, f: u8, n: u8): (r: Flagged)
    ensures forall i :: 0 <= i < 8 ==> (Bit(r.v, i) <==> Bit(a, i) != Bit(n, i))
    ensures r.f == Pack(r.v == 0, false, false, false, f % 0x10)
  {
    forall i | 0 <= i < 8
      ensures Bit(Xor8(a, n), i) <==> Bit(a, i) != Bit(n, i)
    {
      XorBit(a, n, i);
    }
    var v := Xor8(a, n);
    Flagged(v, WithZero(WithCarry(WithHalfCarry(WithSubtract(f, false), false), false), v == 0))
  }

  /** OrN: N, H and C clear. */
  function Or(a: u8, f: u8, n: u8): (r: Flagged)
    ensures forall i :: 0 <= i < 8 ==> (Bit(r.v, i) <==> Bit(a, i) || Bit(n, i))
    ensures r.f == Pack(r.v == 0, false, false, false, f % 0x10)
  {
    forall i | 0 <= i < 8
      ensures Bit(Or8(a, n), i) <==> Bit(a, i) || Bit(n, i)
    {
      OrBit(a, n, i);
    }
    var v := Or8(a, n);
    Flagged(v, WithZero(WithCarry(WithHalfCarry(WithSubtract(f, false), false), false), v == 0))
  }

  /** CpN: the flags of A - n; A itself is left alone. Z says A equals n. */
  function Cp(a: u8, f: u8, n: u8): (r: Flagged)
    ensures r.v == a
    ensures r.f == Pack(a == n, true, a % 0x10 < n % 0x10, a < n, f % 0x10)
  {
    var f1 := WithCarry(WithHalfCarry(WithSubtract(f, true), HalfCarrySub8(a, n)), CarrySub8(a, n));
    var z := (a - n) % 0x100 == 0;
    assert z == (a == n) by {
      if a < n {
        ModUnique(a - n, 0x100, -1, a - n + 0x100);
      } else {
        ModUnique(a - n, 0x100, 0, a - n);
      }
    }
    Flagged(a, WithZero(f1, z))
  }

  // ---- increments ----

  /** IncR: one up with wrap-around; H from the nibble carry, N clear, C untouched. */
  function Inc(x: u8, f: u8): (r: Flagged)
    ensures r.v == (x + 1) % 0x100
    ensures r.f == Pack(r.v == 0, false, x % 0x10 == 0x0F, Carry(f), f % 0x10)
  {
    var f1 := WithHalfCarry(WithSubtract(f, false), HalfCarryAdd8(x, 1));
    var v := Inc8(x);
    assert v == (x + 1) % 0x100 by {
      if x == 0xFF {
        ModUnique(x + 1, 0x100, 1, 0);
      } else {
        ModUnique(x + 1, 0x100, 0, x + 1);
      }
    }
    Flagged(v, WithZero(f1, v == 0))
  }

  /** DecR: one down with wrap-around; H from the nibble borrow, N set, C untouched. */
  function Dec(x: u8, f: u8): (r: Flagged)
    ensures r.v == (x - 1) % 0x100
    ensures r.f == Pack(r.v == 0, true, x % 0x10 == 0, Carry(f), f % 0x10)
  {
    var v := Dec8(x);
    DecWraps(x);
    DecFlags(f, HalfCarrySub8(x, 1), v == 0);
    DecHalfBorrow(x);
    Flagged(v, WithZero(WithHalfCarry(WithSubtract(f, true), HalfCarrySub8(x, 1)), v == 0))
  }

  lemma DecWraps(x: u8)
    ensures Dec8(x) == (x - 1) % 0x100
  {
    if x == 0 {
      ModUnique(x - 1, 0x100, -1, 0xFF);
    } else {
      ModUnique(x - 1, 0x100, 0, x - 1);
    }
  }

  lemma DecHalfBorrow(x: u8)
    ensures HalfCarrySub8(x, 1) == (x % 0x10 == 0)
  {
    if x % 0x10 == 0 {
      ModUnique(x % 0x10 - 1, 0x10, -1, 0x0F);
    } else {
      ModUnique(x % 0x10 - 1, 0x10, 0, x % 0x10 - 1);
    }
  }

  lemma DecFlags(f: u8, h: bool, z: bool)
    ensures WithZero(WithHalfCarry(WithSubtract(f, true), h), z) == Pack(z, true, h, Carry(f), f % 0x10)
  {
    var f0 := WithSubtract(f, true);
    assert Carry(f0) == Carry(f) && f0 % 0x10 == f % 0x10;
    var f1 := WithHalfCarry(f0, h);
    assert Subtract(f1) && Carry(f1) == Carry(f) && f1 % 0x10 == f % 0x10;
  }

  /** AddHlRr: HL + rr; N clear, H from bit 11, C from bit 15, Z untouched. */
  function AddWords(hl: u16, f: u8, rr: u16): (r: Flagged16)
    ensures r.w == (hl + rr) % 0x1_0000
    ensures r.f == Pack(Zero(f), false, hl % 0x1000 + rr % 0x1000 >= 0x1000, hl + rr >= 0x1_0000, f % 0x10)
  {
    var f1 := WithCarry(WithHalfCarry(WithSubtract(f, false), HalfCarryAdd16(hl, rr)), CarryAdd16(hl, rr));
    Flagged16((hl + rr) % 0x1_0000, f1)
  }

  /**
   * ADD SP,r8 (0xE8) and LD HL,SP+r8 (0xF8): SP plus the signed byte, with Z
   * and N clear and H and C taken from the unsigned add of SP's low byte and
   * the byte.
   */
  function AddOffset(sp: u16, f: u8, e: u8): (r: Flagged16)
    ensures r.w == (sp + Signed8(e)) % 0x1_0000
    ensures r.f == Pack(false, false, sp % 0x10 + e % 0x10 >= 0x10, sp % 0x100 + e >= 0x100, f % 0x10)
  {
    assert Lo(sp) % 0x10 == sp % 0x10 by {
      ModUnique(sp, 0x10, 0x10 * (sp / 0x100) + (sp % 0x100) / 0x10, (sp % 0x100) % 0x10);
    }
    var f1 := WithZero(WithSubtract(f, false), false);
    var f2 := WithHalfCarry(WithCarry(f1, CarryAdd8(Lo(sp), e)), HalfCarryAdd8(Lo(sp), e));
    Flagged16((sp + Signed8(e)) % 0x1_0000, f2)
  }

  // ---- DAA, CPL, SCF, CCF ----

  /**
   * DAA: after an addition (N clear) add 0x06 if H is set or the low nibble
   * is above 9, then 0x60 if C is set or the value is above 0x9F; after a
   * subtraction subtract 0x06 if H is set and 0x60 if C is set. The sum is
   * formed in 16 bits; bit 8 of it sets C, which DAA never clears.
   */
  function DaaSum(a: u8, f: u8): (t: int)
  {
    if !Subtract(f) then
      var t1 := if HalfCarry(f) || a % 0x10 > 9 then a + 0x06 else a;
      if Carry(f) || t1 > 0x9F then t1 + 0x60 else t1
    else
      var t1 := if HalfCarry(f) then (a - 6) % 0x100 else a;
      if Carry(f) then (t1 - 0x60) % 0x1_0000 else t1
  }

  function Daa(a: u8, f: u8): (r: Flagged)
    ensures r.v == DaaSum(a, f) % 0x100
    ensures Zero(r.f) == (r.v == 0) && Subtract(r.f) == Subtract(f) && !HalfCarry(r.f)
    ensures Carry(r.f) == (Carry(f) || (DaaSum(a, f) / 0x100) % 2 == 1)
    ensures r.f % 0x10 == f % 0x10
  {
    var t := DaaSum(a, f);
    var f1 := if (t / 0x100) % 2 == 1 then WithCarry(f, true) else f;
    var v := t % 0x100;
    Flagged(v, WithZero(WithHalfCarry(f1, false), v == 0))
  }

  /** CPL: `^A`, the bitwise complement, with N and H set. */
  function Cpl(a: u8, f: u8): (r: Flagged)
    ensures r.v == 0xFF - a
    ensures r.f == Pack(Zero(f), true, true, Carry(f), f % 0x10)
  {
    Flagged(0xFF - a, WithSubtract(WithHalfCarry(f, true), true))
  }

  /** SCF: C set, N and H clear. */
  function Scf(f: u8): (r: u8)
    ensures r == Pack(Zero(f), false, false, true, f % 0x10)
  {
    WithCarry(WithHalfCarry(WithSubtract(f, false), false), true)
  }

  /** CCF: C flipped, N and H clear. */
  function Ccf(f: u8): (r: u8)
    ensures r == Pack(Zero(f), false, false, !Carry(f), f % 0x10)
  {
    WithCarry(WithHalfCarry(WithSubtract(f, false), false), !Carry(f))
  }

  // ---- shifts and rotations ----

  /** The flag sequence every shift and rotation runs: H and N cleared, C and then Z set as given. */
  lemma ShiftFlags(f: u8, c: bool, z: bool)
    ensures WithZero(WithCarry(WithSubtract(WithHalfCarry(f, false), false), c), z) == Pack(z, false, false, c, f % 0x10)
  {
    var f1 := WithHalfCarry(f, false);
    var f2 := WithSubtract(f1, false);
    assert Zero(f2) == Zero(f) && f2 % 0x10 == f % 0x10;
    var f3 := WithCarry(f2, c);
    assert !Subtract(f3) && !HalfCarry(f3) && f3 % 0x10 == f % 0x10;
  }

  /** RlcR: C takes bit 7, the byte rotates left; Z only when `cb`. */
  function Rlc(x: u8, f: u8, cb: bool): (r: Flagged)
    ensures r.v == RotL8(x)
    ensures r.f == Pack(cb && r.v == 0, false, false, x >= 0x80, f % 0x10)
  {
    ShiftFlags(f, x / 0x80 == 1, cb && RotL8(x) == 0);
    var f1 := WithCarry(WithSubtract(WithHalfCarry(f, false), false), x / 0x80 == 1);
    Flagged(RotL8(x), WithZero(f1, cb && RotL8(x) == 0))
  }

  /** RrcR: the byte rotates right and C takes the bit that came round to bit 7. */
  function Rrc(x: u8, f: u8, cb: bool): (r: Flagged)
    ensures r.v == RotR8(x)
    ensures r.f == Pack(cb && r.v == 0, false, false, x % 2 == 1, f % 0x10)
  {
    var v := RotR8(x);
    RotR8Parts(x);
    ShiftFlags(f, v / 0x80 == 1, cb && v == 0);
    var f1 := WithCarry(WithSubtract(WithHalfCarry(f, false), false), v / 0x80 == 1);
    Flagged(v, WithZero(f1, cb && v == 0))
  }

  /** RlR: rotate left through the carry: bit 7 goes to C and the old C into bit 0. */
  function Rl(x: u8, f: u8, cb: bool): (r: Flagged)
    ensures r.v == 2 * (x % 0x80) + B2I(Carry(f))
    ensures r.f == Pack(cb && r.v == 0, false, false, x >= 0x80, f % 0x10)
  {
    var t := RotL8(x);
    RotL8Parts(x);
    var carry := Carry(f);
    var f1 := WithCarry(WithSubtract(WithHalfCarry(f, false), false), t % 2 == 1);
    var v := if carry then t - t % 2 + 1 else t - t % 2;
    ShiftFlags(f, t % 2 == 1, cb && v == 0);
    Flagged(v, WithZero(f1, cb && v == 0))
  }

  /** RrR: rotate right through the carry: bit 0 goes to C and the old C into bit 7. */
  function Rr(x: u8, f: u8, cb: bool): (r: Flagged)
    ensures r.v == x / 2 + 0x80 * B2I(Carry(f))
    ensures r.f == Pack(cb && r.v == 0, false, false, x % 2 == 1, f % 0x10)
  {
    var t := RotR8(x);
    RotR8Parts(x);
    var carry := Carry(f);
    var f1 := WithCarry(WithSubtract(WithHalfCarry(f, false), false), t / 0x80 == 1);
    var v := if carry then t % 0x80 + 0x80 else t % 0x80;
    ShiftFlags(f, t / 0x80 == 1, cb && v == 0);
    Flagged(v, WithZero(f1, cb && v == 0))
  }

  /** SlaR: shift left; bit 7 goes to C and bit 0 becomes 0. */
  function Sla(x: u8, f: u8): (r: Flagged)
    ensures r.v == 2 * (x % 0x80)
    ensures r.f == Pack(r.v == 0, false, false, x >= 0x80, f % 0x10)
  {
    var t := RotL8(x);
    RotL8Parts(x);
    var f1 := WithCarry(WithSubtract(WithHalfCarry(f, false), false), t % 2 == 1);
    var v := t - t % 2;
    ShiftFlags(f, t % 2 == 1, v == 0);
    Flagged(v, WithZero(f1, v == 0))
  }

  /** SraR: shift right keeping bit 7; bit 0 goes to C. */
  function Sra(x: u8, f: u8): (r: Flagged)
    ensures r.v == x / 2 + 0x80 * (x / 0x80)
    ensures r.f == Pack(r.v == 0, false, false, x % 2 == 1, f % 0x10)
  {
    var t := RotR8(x);
    RotR8Parts(x);
    SraTopBit(x);
    var f1 := WithCarry(WithSubtract(WithHalfCarry(f, false), false), t / 0x80 == 1);
    var v := t % 0x80 + 0x80 * ((t / 0x40) % 2);
    ShiftFlags(f, t / 0x80 == 1, v == 0);
    Flagged(v, WithZero(f1, v == 0))
  }

  lemma SraTopBit(x: u8)
    ensures (RotR8(x) / 0x40) % 2 == x / 0x80
  {
    var t := RotR8(x);
    RotR8Parts(x);
    assert x / 2 == 0x40 * (x / 0x80) + (x / 2) % 0x40;
    DivUnique(t, 0x40, 2 * (x % 2) + x / 0x80, (x / 2) % 0x40);
    ModUnique(2 * (x % 2) + x / 0x80, 2, x % 2, x / 0x80);
  }

  /** SwapR: exchange the nibbles; N, H and C clear. */
  function Swap(x: u8, f: u8): (r: Flagged)
    ensures r.v == SwapNibbles(x)
    ensures r.f == Pack(r.v == 0, false, false, false, f % 0x10)
  {
    var f1 := WithCarry(WithSubtract(WithHalfCarry(f, false), false), false);
    assert (x * 0x10) % 0x100 == 0x10 * (x % 0x10) by {
      assert x * 0x10 == 0x100 * (x / 0x10) + 0x10 * (x % 0x10);
      ModUnique(x * 0x10, 0x100, x / 0x10, 0x10 * (x % 0x10));
    }
    var v := (x * 0x10) % 0x100 + x / 0x10;
    Flagged(v, WithZero(f1, v == 0))
  }

  /** SrlR: shift right; bit 0 goes to C and bit 7 becomes 0. */
  function Srl(x: u8, f: u8): (r: Flagged)
    ensures r.v == x / 2
    ensures r.f == Pack(r.v == 0, false, false, x % 2 == 1, f % 0x10)
  {
    var t := RotR8(x);
    RotR8Parts(x);
    var f1 := WithSubtract(WithHalfCarry(f, false), false);
    var f2 := WithCarry(f1, t / 0x80 == 1);
    var v := t % 0x80;
    ShiftFlags(f, t / 0x80 == 1, v == 0);
    Flagged(v, WithZero(f2, v == 0))
  }

  // ---- single bits ----

  /** Every bit of 0xFF below 8 is set. */
  lemma AllOnes(i: nat)
    requires i < 8
    ensures Bit(0xFF, i)
  {
    Pow2Table();
  }

  /** SetNr: `dst | (1 << n)`. */
  function SetBit(n: nat, x: u8): (r: u8)
    requires n < 8
    ensures forall i :: 0 <= i < 8 ==> (Bit(r, i) <==> i == n || Bit(x, i))
  {
    Pow2Table();
    forall i | 0 <= i < 8
      ensures Bit(Or8(x, Pow2(n)), i) <==> i == n || Bit(x, i)
    {
      OrBit(x, Pow2(n), i);
      Pow2Bit(n, i);
    }
    Or8(x, Pow2(n))
  }

  /** ResNr: `dst & ^(1 << n)`. */
  function ResetBit(n: nat, x: u8): (r: u8)
    requires n < 8
    ensures forall i :: 0 <= i < 8 ==> (Bit(r, i) <==> i != n && Bit(x, i))
  {
    Pow2Table();
    var mask := Xor8(0xFF, Pow2(n));
    forall i | 0 <= i < 8
      ensures Bit(And8(x, mask), i) <==> i != n && Bit(x, i)
    {
      AndBit(x, mask, i);
      XorBit(0xFF, Pow2(n), i);
      AllOnes(i);
      Pow2Bit(n, i);
    }
    And8(x, mask)
  }

  /** BitNr: Z says bit n is clear; H set, N clear, C untouched. */
  function TestBit(n: nat, x: u8, f: u8): (r: u8)
    requires n < 8
    ensures r == Pack(!Bit(x, n), false, true, Carry(f), f % 0x10)
  {
    Pow2Table();
    var tested := And8(x, Pow2(n));
    assert (tested == 0) == !Bit(x, n) by {
      forall i | 0 <= i < 8
        ensures Bit(tested, i) <==> i == n && Bit(x, n)
      {
        AndBit(x, Pow2(n), i);
        Pow2Bit(n, i);
      }
      ZeroIffNoBit(tested);
      if Bit(x, n) {
        assert Bit(tested, n);
      }
    }
    WithZero(WithSubtract(WithHalfCarry(f, true), false), tested == 0)
  }

  // ---- what the templates promise together ----

  /** CP sets exactly the flags SUB sets and leaves A alone. */
  lemma CompareIsSubtractFlags(a: u8, f: u8, n: u8)
    ensures Cp(a, f, n).f == Sub(a, f, n).f && Cp(a, f, n).v == a
  {
  }

  // Each of these restates one template's contract as a ground fact, so that
  // a lemma about two templates does not have to instantiate both contracts.

  lemma AddFacts(a: u8, f: u8, n: u8)
    ensures Add(a, f, n) == Flagged((a + n) % 0x100,
      Pack((a + n) % 0x100 == 0, false, a % 0x10 + n % 0x10 >= 0x10, a + n >= 0x100, f % 0x10))
  {
  }

  lemma AdcFacts(a: u8, f: u8, n: u8)
    ensures var c := B2I(Carry(f));
      Adc(a, f, n) == Flagged((a + n + c) % 0x100,
        Pack((a + n + c) % 0x100 == 0, false, a % 0x10 + n % 0x10 + c >= 0x10, a + n + c >= 0x100, f % 0x10))
  {
  }

  lemma SubFacts(a: u8, f: u8, n: u8)
    ensures Sub(a, f, n) == Flagged((a - n) % 0x100,
      Pack((a - n) % 0x100 == 0, true, a % 0x10 < n % 0x10, a < n, f % 0x10))
  {
  }

  lemma SbcFacts(a: u8, f: u8, n: u8)
    ensures var c := B2I(Carry(f));
      Sbc(a, f, n) == Flagged((a - n - c) % 0x100,
        Pack((a - n - c) % 0x100 == 0, true, a % 0x10 < n % 0x10 + c, a < n + c, f % 0x10))
  {
  }

  /** Without a carry in, ADC is ADD and SBC is SUB. */
  lemma CarryFreeForms(a: u8, f: u8, n: u8)
    requires !Carry(f)
    ensures Adc(a, f, n) == Add(a, f, n) && Sbc(a, f, n) == Sub(a, f, n)
  {
    CarryFreeAdd(a, f, n);
    CarryFreeSub(a, f, n);
  }

  lemma CarryFreeAdd(a: u8, f: u8, n: u8)
    requires !Carry(f)
    ensures Adc(a, f, n) == Add(a, f, n)
  {
    assert B2I(Carry(f)) == 0;
    AddFacts(a, f, n);
    AdcFacts(a, f, n);
  }

  lemma CarryFreeSub(a: u8, f: u8, n: u8)
    requires !Carry(f)
    ensures Sbc(a, f, n) == Sub(a, f, n)
  {
    assert B2I(Carry(f)) == 0;
    SubFacts(a, f, n);
    SbcFacts(a, f, n);
  }

  /** SUB n undoes ADD n on A. */
  lemma SubtractUndoesAdd(a: u8, f: u8, g: u8, n: u8)
    ensures Sub(Add(a, f, n).v, g, n).v == a
  {
    AddFacts(a, f, n);
    var s := Add(a, f, n).v;
    SubFacts(s, g, n);
    WrapUndone(a, n, s);
  }

  /** Subtracting n from the wrapped sum a + n gives a back. */
  lemma WrapUndone(a: u8, n: u8, s: int)
    requires s == (a + n) % 0x100
    ensures (s - n) % 0x100 == a
  {
    if a + n >= 0x100 {
      ModUnique(a + n, 0x100, 1, a + n - 0x100);
      ModUnique(s - n, 0x100, -1, a);
    } else {
      ModUnique(a + n, 0x100, 0, a + n);
      ModUnique(s - n, 0x100, 0, a);
    }
  }

  /** XOR A with itself clears A and sets only Z. */
  lemma XorSelfClears(a: u8, f: u8)
    ensures Xor(a, f, a) == Flagged(0, Pack(true, false, false, false, f % 0x10))
  {
    forall i | 0 <= i < 8
      ensures !Bit(Xor(a, f, a).v, i)
    {
    }
    ZeroIffNoBit(Xor(a, f, a).v);
  }

  /** DEC undoes INC, and neither touches C. */
  lemma DecUndoesInc(x: u8, f: u8)
    ensures Dec(Inc(x, f).v, Inc(x, f).f).v == x
    ensures Carry(Inc(x, f).f) == Carry(f) && Carry(Dec(x, f).f) == Carry(f)
  {
  }

  /** RR undoes RL, carry included, and RRC undoes RLC. */
  lemma RotationsInvert(x: u8, f: u8, cb: bool)
    ensures Rr(Rl(x, f, cb).v, Rl(x, f, cb).f, cb).v == x
    ensures Carry(Rr(Rl(x, f, cb).v, Rl(x, f, cb).f, cb).f) == Carry(f)
    ensures Rrc(Rlc(x, f, cb).v, Rlc(x, f, cb).f, cb).v == x
  {
    var rl := Rl(x, f, cb);
    assert rl.v / 2 == x % 0x80 by {
      DivUnique(rl.v, 2, x % 0x80, B2I(Carry(f)));
    }
    assert Carry(rl.f) == (x / 0x80 == 1);
    var rr := Rr(rl.v, rl.f, cb);
    assert rr.v == x % 0x80 + 0x80 * (x / 0x80);
    assert Carry(rr.f) == (rl.v % 2 == 1);
    ModUnique(rl.v, 2, x % 0x80, B2I(Carry(f)));
    RotateInverse(x);
  }

  /**
   * The accumulator rotations RLCA, RRCA, RLA and RRA (cb false) always
   * clear Z, even when the result is 0.
   */
  lemma AccumulatorRotationsClearZero(x: u8, f: u8)
    ensures !Zero(Rlc(x, f, false).f) && !Zero(Rrc(x, f, false).f)
    ensures !Zero(Rl(x, f, false).f) && !Zero(Rr(x, f, false).f)
  {
  }

  /** SRA keeps the sign bit; SRL clears it. */
  lemma ShiftRightSign(x: u8, f: u8)
    ensures (Sra(x, f).v >= 0x80) == (x >= 0x80) && Srl(x, f).v < 0x80
  {
    var sra, srl := Sra(x, f).v, Srl(x, f).v;
    assert x / 2 < 0x80 && (x >= 0x80) == (x / 0x80 == 1);
    assert sra == x / 2 + 0x80 * (x / 0x80) && srl == x / 2;
  }

  /** SWAP twice restores the byte. */
  lemma SwapTwice(x: u8, f: u8, g: u8)
    ensures Swap(Swap(x, f).v, g).v == x
  {
    SwapNibblesInvolution(x);
  }

  /** SET then BIT reports the bit set; RES then BIT reports it clear; neither SET nor RES touches F. */
  lemma BitAfterSetAndReset(n: nat, x: u8, f: u8)
    requires n < 8
    ensures !Zero(TestBit(n, SetBit(n, x), f)) && Zero(TestBit(n, ResetBit(n, x), f))
  {
  }

  /** A byte holding two decimal digits, one per nibble. */
  predicate IsBcd(x: u8)
  {
    x % 0x10 <= 9 && x / 0x10 <= 9
  }

  /** The number a packed-decimal byte stands for. */
  function Decimal(x: u8): (d: nat)
    requires IsBcd(x)
    ensures d < 100
  {
    10 * (x / 0x10) + x % 0x10
  }

  /** The packed-decimal byte for a number below 100. */
  function ToBcd(d: nat): (x: u8)
    requires d < 100
    ensures IsBcd(x) && Decimal(x) == d
  {
    0x10 * (d / 10) + d % 10
  }

  /**
   * DAA after ADD of two packed-decimal bytes gives the packed-decimal sum
   * modulo 100, with C saying the decimal sum reached 100: the adjustment
   * does what decimal addition needs.
   */
  lemma DaaAfterAdd(x: u8, y: u8, f: u8)
    requires IsBcd(x) && IsBcd(y)
    ensures Daa(Add(x, f, y).v, Add(x, f, y).f).v == ToBcd((Decimal(x) + Decimal(y)) % 100)
    ensures Carry(Daa(Add(x, f, y).v, Add(x, f, y).f).f) == (Decimal(x) + Decimal(y) >= 100)
  {
    AddFacts(x, f, y);
    var sum := Add(x, f, y);
    DaaFacts(sum.v, sum.f);
    var lo, hi := x % 0x10 + y % 0x10, x / 0x10 + y / 0x10;
    DigitSums(x, y);
    DaaSumOfDigits(hi, lo, x + y, sum.v, sum.f);
    DecimalSumOfDigits(x, y);
  }

  lemma DigitSums(x: u8, y: u8)
    requires IsBcd(x) && IsBcd(y)
    ensures x + y == 0x10 * (x / 0x10 + y / 0x10) + (x % 0x10 + y % 0x10)
    ensures 0 <= x / 0x10 + y / 0x10 <= 18 && 0 <= x % 0x10 + y % 0x10 <= 18
  {
  }

  lemma DaaFacts(a: u8, f: u8)
    ensures Daa(a, f).v == DaaSum(a, f) % 0x100
    ensures Carry(Daa(a, f).f) == (Carry(f) || (DaaSum(a, f) / 0x100) % 2 == 1)
  {
  }

  /** The decimal side of `DaaAfterAdd`: the same digit sums, read as numbers. */
  lemma DecimalSumOfDigits(x: u8, y: u8)
    requires IsBcd(x) && IsBcd(y)
    ensures var lo, hi := x % 0x10 + y % 0x10, x / 0x10 + y / 0x10;
            var low := if lo >= 10 then lo - 10 else lo;
            var high := if lo >= 10 then hi + 1 else hi;
            var digit := if high >= 10 then high - 10 else high;
            ToBcd((Decimal(x) + Decimal(y)) % 100) == 0x10 * digit + low &&
            (Decimal(x) + Decimal(y) >= 100) == (high >= 10)
  {
    var lo, hi := x % 0x10 + y % 0x10, x / 0x10 + y / 0x10;
    var low := if lo >= 10 then lo - 10 else lo;
    var high := if lo >= 10 then hi + 1 else hi;
    var digit := if high >= 10 then high - 10 else high;
    assert Decimal(x) + Decimal(y) == 10 * high + low;
    assert (Decimal(x) + Decimal(y)) % 100 == 10 * digit + low by {
      ModUnique(Decimal(x) + Decimal(y), 100, if high >= 10 then 1 else 0, 10 * digit + low);
    }
    assert ToBcd(10 * digit + low) == 0x10 * digit + low by {
      DivUnique(10 * digit + low, 10, digit, low);
      ModUnique(10 * digit + low, 10, digit, low);
    }
  }

  /**
   * The arithmetic behind `DaaAfterAdd`, on the digit sums: `lo` is the sum of
   * the low digits, `hi` of the high ones, `sum` the whole sum, and `a`, `f`
   * the byte and flags ADD left.
   */
  lemma DaaSumOfDigits(hi: int, lo: int, sum: int, a: u8, f: u8)
    requires 0 <= hi <= 18 && 0 <= lo <= 18 && sum == 0x10 * hi + lo
    requires !Subtract(f) && Carry(f) == (sum >= 0x100) && HalfCarry(f) == (lo >= 0x10)
    requires a == sum % 0x100
    ensures var low := if lo >= 10 then lo - 10 else lo;
            var high := if lo >= 10 then hi + 1 else hi;
            DaaSum(a, f) % 0x100 == 0x10 * (if high >= 10 then high - 10 else high) + low &&
            (Carry(f) || (DaaSum(a, f) / 0x100) % 2 == 1) == (high >= 10)
  {
    var h, c, t := HalfCarry(f), Carry(f), DaaSum(a, f);
    var low := if lo >= 10 then lo - 10 else lo;
    var high := if lo >= 10 then hi + 1 else hi;
    assert a == 0x10 * hi + lo - (if c then 0x100 else 0) by {
      ModUnique(0x10 * hi + lo, 0x100, if c then 1 else 0, 0x10 * hi + lo - (if c then 0x100 else 0));
    }
    var t1 := if h || a % 0x10 > 9 then a + 0x06 else a;
    assert t1 == 0x10 * high + low - (if c then 0x100 else 0) by {
      if lo < 0x10 {
        ModUnique(a, 0x10, hi - (if c then 0x10 else 0), lo);
      }
    }
    if high >= 10 {
      var q := if c then 0 else 1;
      assert t == 0x10 * (high - 10) + low + 0x100 * q;
      ModUnique(t, 0x100, q, 0x10 * (high - 10) + low);
      DivUnique(t, 0x100, q, 0x10 * (high - 10) + low);
    } else {
      assert !c && t == 0x10 * high + low;
      ModUnique(t, 0x100, 0, t);
      DivUnique(t, 0x100, 0, t);
    }
  }
}
