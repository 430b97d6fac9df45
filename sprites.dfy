/**
 * display/spriteattr.go: the four bytes of an object-attribute (OAM) entry,
 * the drawing order of the sprites found on a line, and the sort the picture
 * processor applies to them.
 *
 * An attribute is copied out of OAM and never changed, so it is a value here.
 */
module Sprites {
  import opened Bits

  const SpriteAboveBackground: u8 := 0
  const SpriteBelowBackground: u8 := 1
  const ObjPalette0: u8 := 0
  const ObjPalette1: u8 := 1

  /** `SpriteAttr [4]byte`: bytes 0 to 3 in that order. */
  datatype SpriteAttr = SpriteAttr(b0: u8, b1: u8, b2: u8, b3: u8)
  {
    function CoordinateY(): u8 { b0 }
    function CoordinateX(): u8 { b1 }
    function TileID(): u8 { b2 }

    /** `s[3] >> 7`. */
    function Priority(): (p: u8)
      ensures p < 2
    {
      b3 / 0x80
    }

    /** `s[3] & 0x40 == 0x40`. */
    predicate FlipY() { (b3 / 0x40) % 2 == 1 }

    /** `s[3] & 0x20 == 0x20`. */
    predicate FlipX() { (b3 / 0x20) % 2 == 1 }

    /** `(s[3] << 3) >> 7` on a byte. */
    function Palette(): u8 { ((b3 * 8) % 0x100) / 0x80 }
  }

  /** The bytes in OAM order. */
  function Bytes(s: SpriteAttr): (r: seq<u8>)
    ensures |r| == 4
  {
    [s.b0, s.b1, s.b2, s.b3]
  }

  /** Y, X and tile are bytes 0, 1 and 2; the flags live in byte 3. */
  lemma {:induction false} Layout(s: SpriteAttr)
    ensures s.CoordinateY() == Bytes(s)[0] && s.CoordinateX() == Bytes(s)[1] && s.TileID() == Bytes(s)[2]
    ensures s.Priority() == (if Bit(Bytes(s)[3], 7) then 1 else 0)
    ensures s.FlipY() <==> Bit(Bytes(s)[3], 6)
    ensures s.FlipX() <==> Bit(Bytes(s)[3], 5)
    ensures s.Palette() == (if Bit(Bytes(s)[3], 4) then 1 else 0)
  {
    Pow2Table();
    var b: nat := s.b3;
    var q, r := b / 0x20, b % 0x20;
    assert b * 8 == 0x100 * q + 8 * r;
    DivUnique(b * 8, 0x100, q, 8 * r);
    DivUnique(8 * r, 0x80, r / 0x10, 8 * (r % 0x10));
    DivUnique(b, 0x10, 2 * q + r / 0x10, r % 0x10);
  }

  /** SpriteAttrs.Less: by X, and by tile number between equal X. */
  predicate Less(a: SpriteAttr, b: SpriteAttr)
  {
    a.CoordinateX() < b.CoordinateX() ||
    (a.CoordinateX() == b.CoordinateX() && a.TileID() < b.TileID())
  }

  lemma LessIrreflexive(a: SpriteAttr)
    ensures !Less(a, a)
  {
  }

  lemma LessTransitive(a: SpriteAttr, b: SpriteAttr, c: SpriteAttr)
    requires Less(a, b) && Less(b, c)
    ensures Less(a, c)
  {
  }

  /**
   * Two attributes neither of which is less than the other share X and tile,
   * whatever their Y and flags: the OAM index never breaks a tie.
   */
  lemma LessTies(a: SpriteAttr, b: SpriteAttr)
    ensures !Less(a, b) && !Less(b, a) <==> a.CoordinateX() == b.CoordinateX() && a.TileID() == b.TileID()
  {
  }

  /** SpriteAttrs.Swap: exchange entries i and j and nothing else. */
  method Swap(s: array<SpriteAttr>, i: nat, j: nat)
    requires i < s.Length && j < s.Length
    modifies s
    ensures s[..] == old(s[..])[i := old(s[j])][j := old(s[i])]
  {
    s[i], s[j] := s[j], s[i];
  }

  /** No entry is less than one before it. */
  predicate Sorted(s: seq<SpriteAttr>)
  {
    forall i, j :: 0 <= i < j < |s| ==> !Less(s[j], s[i])
  }

  /** Place `x` before the first entry it is less than. */
  function Insert(x: SpriteAttr, s: seq<SpriteAttr>): (r: seq<SpriteAttr>)
    ensures |r| == |s| + 1
  {
    if s == [] then [x]
    else if Less(x, s[0]) then [x] + s
    else [s[0]] + Insert(x, s[1..])
  }

  /**
   * The order `sort.Sort` gives the sprites of a line. The library sort is
   * not shown; it is taken to be any sort by `Less`, and an insertion sort
   * stands for it.
   */
  function SortByLess(s: seq<SpriteAttr>): (r: seq<SpriteAttr>)
    ensures |r| == |s|
  {
    if s == [] then [] else Insert(s[|s| - 1], SortByLess(s[..|s| - 1]))
  }

  lemma {:induction false} InsertPermutes(x: SpriteAttr, s: seq<SpriteAttr>)
    ensures multiset(Insert(x, s)) == multiset(s) + multiset{x}
  {
    if s != [] && !Less(x, s[0]) {
      InsertPermutes(x, s[1..]);
      assert s == [s[0]] + s[1..];
    }
  }

  lemma {:induction false} InsertSorted(x: SpriteAttr, s: seq<SpriteAttr>)
    requires Sorted(s)
    ensures Sorted(Insert(x, s))
  {
    if s != [] && !Less(x, s[0]) {
      var t := s[1..];
      assert Sorted(t);
      InsertSorted(x, t);
      InsertPermutes(x, t);
      var r := Insert(x, s);
      assert r == [s[0]] + Insert(x, t);
      forall i, j | 0 <= i < j < |r|
        ensures !Less(r[j], r[i])
      {
        if i == 0 {
          assert r[j] in multiset(Insert(x, t));
          assert r[j] == x || r[j] in multiset(t);
          if r[j] != x {
            var k :| 0 <= k < |t| && t[k] == r[j];
            assert s[k + 1] == r[j];
          }
        }
      }
    }
  }

  /** The sorted line is in `Less` order and holds the same sprites. */
  lemma {:induction false} SortByLessCorrect(s: seq<SpriteAttr>)
    ensures Sorted(SortByLess(s))
    ensures multiset(SortByLess(s)) == multiset(s)
  {
    if s != [] {
      var init := s[..|s| - 1];
      SortByLessCorrect(init);
      InsertSorted(s[|s| - 1], SortByLess(init));
      InsertPermutes(s[|s| - 1], SortByLess(init));
      assert s == init + [s[|s| - 1]];
    }
  }
}
