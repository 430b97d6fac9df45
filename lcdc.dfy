/**
 * display/lcdc.go: the LCD control register. Reads and writes take the whole
 * byte; the picture processor decodes its fields with the functions below.
 */
module Lcdc {
  import opened Bits

  /** displayEnabled: bit 7. */
  predicate DisplayEnabled(l: u8) { l / 0x80 == 1 }

  /** windowEnabled: bit 5. */
  predicate WindowEnabled(l: u8) { (l / 0x20) % 2 == 1 }

  /** spritesEnabled: bit 1. */
  predicate SpritesEnabled(l: u8) { (l / 0x02) % 2 == 1 }

  /** backgroundEnabled: bit 0. */
  predicate BackgroundEnabled(l: u8) { l % 2 == 1 }

  /** spriteWidth: sprites are 16 rows tall when bit 2 is set, else 8. */
  function SpriteWidth(l: u8): (w: u8)
    ensures w == 8 || w == 16
  {
    if (l / 0x04) % 2 == 1 then 16 else 8
  }

  /** `(l << 3) >> 7` on a byte. */
  function Tileset(l: u8): u8 { ((l * 0x08) % 0x100) / 0x80 }

  /** `(l << 4) >> 7` on a byte. */
  function BackgroundMap(l: u8): u8 { ((l * 0x10) % 0x100) / 0x80 }

  /** `(l << 1) >> 7` on a byte. */
  function WindowMap(l: u8): u8 { ((l * 0x02) % 0x100) / 0x80 }

  /** The enables are bits 7, 5, 1 and 0, and the sprite width is bit 2. */
  lemma EnableBits(l: u8)
    ensures DisplayEnabled(l) <==> Bit(l, 7)
    ensures WindowEnabled(l) <==> Bit(l, 5)
    ensures SpritesEnabled(l) <==> Bit(l, 1)
    ensures BackgroundEnabled(l) <==> Bit(l, 0)
    ensures SpriteWidth(l) == 16 <==> Bit(l, 2)
  {
    Pow2Table();
  }

  /** The shifts isolate one bit each: the tile set is bit 4, the maps bits 3 and 6. */
  lemma {:induction false} MapBits(l: u8)
    ensures Tileset(l) == (l / 0x10) % 2
    ensures BackgroundMap(l) == (l / 0x08) % 2
    ensures WindowMap(l) == (l / 0x40) % 2
    ensures Tileset(l) < 2 && BackgroundMap(l) < 2 && WindowMap(l) < 2
  {
    ShiftIsolates(l, 0x08, 0x10);
    ShiftIsolates(l, 0x10, 0x08);
    ShiftIsolates(l, 0x02, 0x40);
  }

  /** The register itself (`type LCDC byte`). */
  class LCDC {
    var data: u8

    constructor (d: u8)
      ensures data == d
    {
      data := d;
    }

    /** Read ignores the address and never fails. */
    function Read(addr: u16): (r: u8)
      reads this
      ensures r == data
    {
      data
    }

    /** Write replaces the whole byte. */
    method Write(addr: u16, d: u8)
      modifies this
      ensures data == d && Read(addr) == d
    {
      data := d;
    }
  }
}
