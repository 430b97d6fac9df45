/**
 * Unsigned machine integers and the bit-level operations the emulator uses.
 *
 * Bytes and words are integers in range; wrap-around is always written out
 * explicitly (`% 0x100`, `% 0x1_0000`). Bitwise AND/OR/XOR of two variables
 * are defined bit by bit and characterised by the `...Bit` lemmas.
 */
module Bits {

  type u8 = x: int | 0 <= x < 0x100
  type u16 = x: int | 0 <= x < 0x1_0000

  function Pow2(n: nat): (r: nat)
    ensures r >= 1
  {
    if n == 0 then 1 else 2 * Pow2(n - 1)
  }

  /** `x / d` on naturals. */
  function Quotient(x: nat, d: nat): (q: nat)
    requires d >= 1
    ensures q * d <= x < (q + 1) * d
    ensures q <= x && (d >= 2 ==> 2 * q <= x)
  {
    var q := x / d;
    assert x == q * d + x % d;
    MulMonotone(1, d, q);
    MulMonotone(if d >= 2 then 2 else 1, d, q);
    q
  }

  /** Bit `i` of `x` (bit 0 is the least significant). */
  predicate Bit(x: nat, i: nat)
  {
    (x / Pow2(i)) % 2 == 1
  }

  function AndN(x: nat, y: nat): (r: nat)
    ensures r <= x && r <= y
    decreases x
  {
    if x == 0 || y == 0 then 0
    else 2 * AndN(x / 2, y / 2) + (if x % 2 == 1 && y % 2 == 1 then 1 else 0)
  }

  function OrN(x: nat, y: nat): (r: nat)
    decreases x + y
  {
    if x == 0 then y
    else if y == 0 then x
    else 2 * OrN(x / 2, y / 2) + (if x % 2 == 1 || y % 2 == 1 then 1 else 0)
  }

  function XorN(x: nat, y: nat): (r: nat)
    decreases x + y
  {
    if x == 0 then y
    else if y == 0 then x
    else 2 * XorN(x / 2, y / 2) + (if x % 2 != y % 2 then 1 else 0)
  }

  lemma {:induction false} OrBound(x: nat, y: nat, n: nat)
    requires x < Pow2(n) && y < Pow2(n)
    ensures OrN(x, y) < Pow2(n)
    decreases n
  {
    if x != 0 && y != 0 {
      OrBound(x / 2, y / 2, n - 1);
    }
  }

  lemma {:induction false} XorBound(x: nat, y: nat, n: nat)
    requires x < Pow2(n) && y < Pow2(n)
    ensures XorN(x, y) < Pow2(n)
    decreases n
  {
    if x != 0 && y != 0 {
      XorBound(x / 2, y / 2, n - 1);
    }
  }

  lemma Pow2Of8()
    ensures Pow2(8) == 0x100
  {
  }

  /**
   * `(l << k) >> 7` on a byte, written with `m = 2^k` and `p = 2^(7-k)`: bit
   * 7 of the shifted byte is bit `7 - k` of `l`.
   */
  lemma ShiftIsolates(l: u8, m: nat, p: nat)
    requires m * p == 0x80 && 1 <= p
    ensures ((l * m) % 0x100) / 0x80 == (l / p) % 2
  {
    ShiftLow(l, m, p);
    ShiftHigh(l % (2 * p), m, p);
    ModHalf(l, p);
  }

  /** Shifting by `m` keeps, of the low byte, the bits of `l mod 2p`. */
  lemma ShiftLow(l: nat, m: nat, p: nat)
    requires m * p == 0x80 && 1 <= p
    ensures (l * m) % 0x100 == (l % (2 * p)) * m
  {
    var q, r := l / (2 * p), l % (2 * p);
    assert l * m == q * 0x100 + r * m by {
      assert l == q * (2 * p) + r;
      MulSplit(q, 2 * p, r, m);
    }
    assert r * m < 0x100 by {
      MulLess(r, 2 * p, m);
    }
    ModUnique(l * m, 0x100, q, r * m);
  }

  /** Of `r < 2p` shifted by `m`, bit 7 is `r / p`. */
  lemma ShiftHigh(r: nat, m: nat, p: nat)
    requires m * p == 0x80 && 1 <= p && r < 2 * p
    ensures (r * m) / 0x80 == r / p
  {
    var r1, r0 := r / p, r % p;
    assert r * m == r1 * 0x80 + r0 * m by {
      assert r == r1 * p + r0;
      MulSplit(r1, p, r0, m);
    }
    assert r0 * m < 0x80 by {
      MulLess(r0, p, m);
    }
    DivUnique(r * m, 0x80, r1, r0 * m);
  }

  /** Below `k p`, the quotient by `p` is below `k`. */
  lemma QuotientBelow(x: nat, p: nat, k: nat)
    requires 1 <= p && x < k * p
    ensures x / p < k
  {
    var q := x / p;
    assert x == q * p + x % p;
    if q >= k {
      MulMonotone(k, q, p);
    }
  }

  lemma MulMonotone(a: nat, b: nat, p: nat)
    requires a <= b
    ensures a * p <= b * p
  {
    assert b * p - a * p == (b - a) * p;
  }

  /** `x mod 2m` is bit 0 of `x / m`, times `m`, over `x mod m`. */
  lemma PeelBit(x: nat, m: nat)
    requires m > 0
    ensures x % (2 * m) == m * ((x / m) % 2) + x % m
  {
    var q, r := x / (2 * m), x % (2 * m);
    var r1, r0 := r / m, r % m;
    assert x == (2 * q + r1) * m + r0 by {
      assert x == q * (2 * m) + r;
      assert r == r1 * m + r0;
      assert q * (2 * m) == 2 * q * m;
    }
    DivUnique(x, m, 2 * q + r1, r0);
    ModUnique(x, m, 2 * q + r1, r0);
    assert r1 < 2 by {
      QuotientBelow(r, m, 2);
    }
    ModUnique(2 * q + r1, 2, q, r1);
  }

  /** `(l mod 2p) / p` is bit 0 of `l / p`. */
  lemma ModHalf(l: nat, p: nat)
    requires 1 <= p
    ensures (l % (2 * p)) / p == (l / p) % 2
  {
    var q, r := l / (2 * p), l % (2 * p);
    var r1, r0 := r / p, r % p;
    assert l == (2 * q + r1) * p + r0 by {
      assert l == q * (2 * p) + r;
      assert r == r1 * p + r0;
      assert q * (2 * p) == 2 * q * p;
    }
    DivUnique(l, p, 2 * q + r1, r0);
    assert r1 < 2 by {
      QuotientBelow(r, p, 2);
    }
    ModUnique(2 * q + r1, 2, q, r1);
  }

  /** `a mod 2m` is `a mod 2` under twice `(a / 2) mod m`. */
  lemma ModLowBit(a: nat, m: nat)
    requires m > 0
    ensures a % (2 * m) == 2 * ((a / 2) % m) + a % 2
  {
    var q, r := (a / 2) / m, (a / 2) % m;
    assert a == q * (2 * m) + (2 * r + a % 2) by {
      assert a / 2 == q * m + r;
      assert q * (2 * m) == 2 * (q * m);
    }
    ModUnique(a, 2 * m, q, 2 * r + a % 2);
  }

  /** The bits of `a mod 2^k + x 2^k`: those of `a` below k, then `x` at bit k, then none. */
  lemma {:induction false} PlaceBit(a: nat, x: nat, k: nat, i: nat)
    requires x < 2
    ensures Bit(a % Pow2(k) + x * Pow2(k), i) <==> if i < k then Bit(a, i) else i == k && x == 1
    decreases k
  {
    var v := a % Pow2(k) + x * Pow2(k);
    if k == 0 {
      assert v == x;
      if i > 0 {
        HighBitsClear(x, 1, i);
      }
    } else {
      var m := Pow2(k - 1);
      ModLowBit(a, m);
      var r := (a / 2) % m + x * m;
      assert v == 2 * r + a % 2;
      BitStep(v, r, a % 2, i);
      if i > 0 {
        PlaceBit(a / 2, x, k - 1, i - 1);
        BitHalf(a, i - 1);
      }
    }
  }

  lemma {:induction false} Pow2Add(a: nat, b: nat)
    ensures Pow2(a + b) == Pow2(a) * Pow2(b)
    decreases a
  {
    if a > 0 {
      Pow2Add(a - 1, b);
    }
  }

  /** The powers of two up to a byte's width. */
  lemma Pow2Table()
    ensures Pow2(0) == 1 && Pow2(1) == 2 && Pow2(2) == 4 && Pow2(3) == 8
    ensures Pow2(4) == 0x10 && Pow2(5) == 0x20 && Pow2(6) == 0x40 && Pow2(7) == 0x80
    ensures Pow2(8) == 0x100
  {
  }

  function And8(x: u8, y: u8): (r: u8)
  {
    AndN(x, y)
  }

  function Or8(x: u8, y: u8): (r: u8)
  {
    Pow2Of8();
    OrBound(x, y, 8);
    OrN(x, y)
  }

  function Xor8(x: u8, y: u8): (r: u8)
  {
    Pow2Of8();
    XorBound(x, y, 8);
    XorN(x, y)
  }

  /** Shifting down by one moves bit i+1 to bit i. */
  lemma BitHalf(x: nat, i: nat)
    ensures Bit(x, i + 1) == Bit(x / 2, i)
  {
    DivHalf(x, Pow2(i));
  }

  lemma MulAtLeast(d: int, m: int)
    requires d >= 1 && m > 0
    ensures d * m >= m
  {
    if d > 1 {
      MulAtLeast(d - 1, m);
      assert d * m == (d - 1) * m + m;
    }
  }

  /** `(q d + r) m == q (d m) + r m` */
  lemma MulSplit(q: int, d: int, r: int, m: int)
    ensures (q * d + r) * m == q * (d * m) + r * m
  {
  }

  lemma MulLess(r: nat, d: nat, m: nat)
    requires r < d
    ensures r * m <= d * m - m
  {
    assert d * m - r * m == (d - r) * m;
    if m > 0 {
      MulAtLeast(d - r, m);
    }
  }

  lemma ModUnique(x: int, m: int, q: int, s: int)
    requires m > 0 && x == q * m + s && 0 <= s < m
    ensures x % m == s
  {
    DivUnique(x, m, q, s);
  }

  lemma DivUnique(x: int, m: int, q: int, s: int)
    requires m > 0 && x == q * m + s && 0 <= s < m
    ensures x / m == q
  {
    var q', s' := x / m, x % m;
    var d := q' - q;
    assert d * m == s - s' by {
      assert q' * m + s' == q * m + s;
      assert (q' - q) * m == q' * m - q * m;
    }
    if d >= 1 {
      MulAtLeast(d, m);
    }
    if d <= -1 {
      MulAtLeast(-d, m);
    }
  }

  lemma DivHalf(x: nat, p: nat)
    requires p > 0
    ensures x / (2 * p) == (x / 2) / p
  {
    var q := (x / 2) / p;
    var r := (x / 2) % p;
    assert x / 2 == q * p + r;
    assert x == q * (2 * p) + (2 * r + x % 2);
    DivUnique(x, 2 * p, q, 2 * r + x % 2);
  }

  /** The bits of `2 r + b`: bit 0 is `b`, bit i+1 is bit i of `r`. */
  lemma BitStep(z: nat, r: nat, b: nat, i: nat)
    requires b < 2 && z == 2 * r + b
    ensures i == 0 ==> (Bit(z, i) <==> b == 1)
    ensures i > 0 ==> (Bit(z, i) <==> Bit(r, i - 1))
  {
    if i > 0 {
      BitHalf(z, i - 1);
      assert z / 2 == r;
    }
  }

  lemma {:induction false} AndBit(x: nat, y: nat, i: nat)
    ensures Bit(AndN(x, y), i) <==> Bit(x, i) && Bit(y, i)
    decreases i
  {
    if x == 0 || y == 0 {
      ZeroBit(i);
    } else {
      BitStep(AndN(x, y), AndN(x / 2, y / 2), if x % 2 == 1 && y % 2 == 1 then 1 else 0, i);
      BitStep(x, x / 2, x % 2, i);
      BitStep(y, y / 2, y % 2, i);
      if i > 0 {
        AndBit(x / 2, y / 2, i - 1);
      }
    }
  }

  lemma {:induction false} OrBit(x: nat, y: nat, i: nat)
    ensures Bit(OrN(x, y), i) <==> Bit(x, i) || Bit(y, i)
    decreases i
  {
    if x == 0 || y == 0 {
      ZeroBit(i);
    } else {
      BitStep(OrN(x, y), OrN(x / 2, y / 2), if x % 2 == 1 || y % 2 == 1 then 1 else 0, i);
      BitStep(x, x / 2, x % 2, i);
      BitStep(y, y / 2, y % 2, i);
      if i > 0 {
        OrBit(x / 2, y / 2, i - 1);
      }
    }
  }

  lemma {:induction false} XorBit(x: nat, y: nat, i: nat)
    ensures Bit(XorN(x, y), i) <==> Bit(x, i) != Bit(y, i)
    decreases i
  {
    if x == 0 || y == 0 {
      ZeroBit(i);
    } else {
      BitStep(XorN(x, y), XorN(x / 2, y / 2), if x % 2 != y % 2 then 1 else 0, i);
      BitStep(x, x / 2, x % 2, i);
      BitStep(y, y / 2, y % 2, i);
      if i > 0 {
        XorBit(x / 2, y / 2, i - 1);
      }
    }
  }

  lemma ZeroBit(i: nat)
    ensures !Bit(0, i)
  {
  }

  /** Only bit `n` is set in `Pow2(n)`. */
  lemma {:induction false} Pow2Bit(n: nat, i: nat)
    ensures Bit(Pow2(n), i) <==> i == n
    decreases n
  {
    if n == 0 {
      if i > 0 {
        BitHalf(1, i - 1);
        ZeroBit(i - 1);
      }
    } else if i == 0 {
    } else {
      BitHalf(Pow2(n), i - 1);
      Pow2Bit(n - 1, i - 1);
    }
  }

  /** A number below 2^n has no bit at or above n. */
  lemma {:induction false} HighBitsClear(x: nat, n: nat, i: nat)
    requires x < Pow2(n) && i >= n
    ensures !Bit(x, i)
    decreases n
  {
    if n == 0 {
      ZeroBit(i);
    } else {
      BitHalf(x, i - 1);
      HighBitsClear(x / 2, n - 1, i - 1);
    }
  }

  /** Two numbers below 2^n with the same n low bits are equal. */
  lemma {:induction false} BitsExt(x: nat, y: nat, n: nat)
    requires x < Pow2(n) && y < Pow2(n)
    requires forall i :: 0 <= i < n ==> (Bit(x, i) <==> Bit(y, i))
    ensures x == y
    decreases n
  {
    if n > 0 {
      forall i | 0 <= i < n - 1
        ensures Bit(x / 2, i) <==> Bit(y / 2, i)
      {
        BitHalf(x, i);
        BitHalf(y, i);
      }
      BitsExt(x / 2, y / 2, n - 1);
      assert Bit(x, 0) <==> Bit(y, 0);
    }
  }

  /** Two bytes are equal when their eight bits are. */
  lemma ByteExt(x: u8, y: u8)
    requires forall i :: 0 <= i < 8 ==> (Bit(x, i) <==> Bit(y, i))
    ensures x == y
  {
    Pow2Of8();
    BitsExt(x, y, 8);
  }

  /** A byte is 0 exactly when none of its eight bits is set. */
  lemma ZeroIffNoBit(x: u8)
    ensures x == 0 <==> forall i :: 0 <= i < 8 ==> !Bit(x, i)
  {
    if forall i :: 0 <= i < 8 ==> !Bit(x, i) {
      forall i | 0 <= i < 8
        ensures Bit(x, i) <==> Bit(0, i)
      {
        ZeroBit(i);
      }
      ByteExt(x, 0);
    }
  }

  /** Low and high byte of a word, and the word they form. */
  function Lo(w: u16): u8 { w % 0x100 }
  function Hi(w: u16): u8 { w / 0x100 }
  function Word(hi: u8, lo: u8): (w: u16)
    ensures Hi(w) == hi && Lo(w) == lo
  {
    hi * 0x100 + lo
  }

  lemma WordOfHalves(w: u16)
    ensures Word(Hi(w), Lo(w)) == w
  {
  }

  /** Go's int8(b): the two's-complement value of a byte. */
  function Signed8(b: u8): (r: int)
    ensures -128 <= r < 128
    ensures (r - b) % 0x100 == 0
  {
    if b < 0x80 then b else b - 0x100
  }
}
