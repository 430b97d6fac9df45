/**
 * The pure arithmetic of display/gpu.go: where a sprite lands and how much of
 * it is clipped (`offScreen`, `calcCoords`), where tiles and tile maps live in
 * video RAM (`getTileAddr`), how a pixel's colour code is pulled out of a
 * tile row, what colour the background, window and sprite layers get at a
 * pixel, and how the layers merge into a frame (`createFrame`).
 *
 * Video RAM is the 8 KiB at 0x8000-0x9FFF, given here as its contents. The
 * picture processor owns that range on the bus, so Go's `mmu.Read` of a tile
 * byte is exactly a lookup in it (`VramAt`).
 */
module Screen {
  import opened Bits
  import opened Errors
  import opened Lcdc
  import opened Palette
  import opened Sprites

  const ScreenWidth: nat := 160
  const ScreenHeight: nat := 144
  const PixelWhite: u8 := 0

  const VramBase: nat := 0x8000
  const VramSize: nat := 0x2000

  /** Byte arithmetic: the value modulo 256. */
  function Wrap8(x: int): u8 { x % 0x100 }

  function Min(a: int, b: int): int { if a <= b then a else b }
  function Max(a: int, b: int): int { if a <= b then b else a }

  // ---- sprite placement ----

  /** offScreen: `max+off < i || i <= off-len`, in bytes. */
  predicate OffScreen(i: u8, off: u8, len: u8, max: u8)
  {
    Wrap8(max + off) < i || i <= Wrap8(off - len)
  }

  /** The visible columns (or rows) start..end on screen, and the first visible pixel of the sprite. */
  datatype Coords = Coords(start: u8, end: u8, spr: u8)

  /**
   * calcCoords: the three placements (clipped at 0, whole, clipped at max),
   * in byte arithmetic; `None` is Go's panic for a sprite off screen.
   */
  function CalcCoords(i: u8, off: u8, len: u8, max: u8): Option<Coords>
  {
    if Wrap8(off - len) < i && i < off then
      Some(Coords(0, Wrap8(len - Wrap8(off - i) - 1), Wrap8(off - i)))
    else if off <= i && i <= Wrap8(max + off - len + 1) then
      Some(Coords(Wrap8(i - off), Wrap8(i - off + len - 1), 0))
    else if Wrap8(max + off - len + 2) <= i && i <= Wrap8(max + off) then
      Some(Coords(Wrap8(i - off), max, 0))
    else None
  }

  /** The placements the picture processor asks for: X as (8, 8, 159), Y as (16, width, 143). */
  predicate Placement(off: u8, len: u8, max: u8)
  {
    (off == 8 && len == 8 && max == 159) || (off == 16 && (len == 8 || len == 16) && max == 143)
  }

  /**
   * For those placements, a sprite whose `len` pixels start at screen position
   * `i - off` is off screen exactly when none of them falls in 0..max.
   */
  lemma OffScreenMeansInvisible(i: u8, off: u8, len: u8, max: u8)
    requires Placement(off, len, max)
    ensures OffScreen(i, off, len, max) <==> i - off + len - 1 < 0 || max < i - off
  {
  }

  /**
   * Every sprite that is not off screen hits one of the three cases, so the
   * panic cannot happen; the visible range is the sprite's span cut to
   * 0..max, and `spr` counts the pixels cut off on the left (or top).
   */
  lemma {:induction false} CoordsTotal(i: u8, off: u8, len: u8, max: u8)
    requires Placement(off, len, max) && !OffScreen(i, off, len, max)
    ensures CalcCoords(i, off, len, max).Some?
    ensures var c := CalcCoords(i, off, len, max).value;
            c.start <= c.end <= max &&
            c.start == Max(0, i - off) && c.end == Min(max, i - off + len - 1) &&
            c.spr == c.start - (i - off) && c.spr + (c.end - c.start) < len
  {
    var lo, mid := Wrap8(off - len), Wrap8(max + off - len + 1);
    if off == 8 {
      assert lo == 0 && mid == 160 && Wrap8(max + off - len + 2) == 161;
    } else if len == 8 {
      assert lo == 8 && mid == 152 && Wrap8(max + off - len + 2) == 153;
    } else {
      assert lo == 0 && mid == 144 && Wrap8(max + off - len + 2) == 145;
    }
    assert Wrap8(max + off) == max + off;
    if lo < i < off {
      assert Wrap8(off - i) == off - i && Wrap8(len - (off - i) - 1) == len - (off - i) - 1;
    } else if off <= i <= mid {
      assert Wrap8(i - off) == i - off && Wrap8(i - off + len - 1) == i - off + len - 1;
    } else {
      assert Wrap8(i - off) == i - off;
    }
  }

  // ---- tiles ----

  /** The byte of video RAM at `addr`. */
  function VramAt(vram: seq<u8>, addr: int): u8
    requires |vram| == VramSize && VramBase <= addr < VramBase + VramSize
  {
    vram[addr - VramBase]
  }

  /**
   * getTileAddr: set 1 numbers its 256 tiles from 0x8000; set 0 numbers them
   * from 0x9000 with the id read as signed, written in Go as
   * `0x8800 + 16 * uint16(id + 128)` for the negative half.
   */
  function TileAddr(tileset: u8, id: u8): u16
  {
    if tileset == 0 then
      if id < 0x80 then 0x9000 + 16 * id else 0x8800 + 16 * Wrap8(id + 128)
    else 0x8000 + 16 * id
  }

  /** The three tile numberings; every tile's 16 bytes lie in 0x8000-0x97FF. */
  lemma TileAddrTable(tileset: u8, id: u8)
    ensures tileset != 0 ==> TileAddr(tileset, id) == 0x8000 + 16 * id
    ensures tileset == 0 && id < 0x80 ==> TileAddr(tileset, id) == 0x9000 + 16 * id
    ensures tileset == 0 && id >= 0x80 ==> TileAddr(tileset, id) == 0x8800 + 16 * (id - 0x80)
    ensures tileset == 0 ==> TileAddr(tileset, id) == 0x9000 + 16 * Signed8(id)
    ensures 0x8000 <= TileAddr(tileset, id) && TileAddr(tileset, id) + 16 <= 0x9800
  {
  }

  /** Tiles 128-255 are shared: both sets give the same address. */
  lemma SharedTiles(id: u8)
    requires id >= 0x80
    ensures TileAddr(0, id) == TileAddr(1, id)
  {
  }

  /** The tile map at 0x9800 or at 0x9C00, each 32 by 32 tile numbers. */
  function MapBase(mapN: u8): (a: u16)
    ensures a + 0x400 <= VramBase + VramSize
  {
    if mapN == 0 then 0x9800 else 0x9C00
  }

  /** `(b << px) >> 7` on a byte. */
  function ShiftBit(b: u8, px: nat): (r: u8)
    ensures r < 2
  {
    ((b * Pow2(px)) % 0x100) / 0x80
  }

  /** For px in 0..7 the shift picks bit 7 - px, so pixel 0 is the top bit; a larger shift clears the byte. */
  lemma {:induction false} ShiftBitIsBit(b: u8, px: nat)
    ensures px < 8 ==> (ShiftBit(b, px) == 1 <==> Bit(b, 7 - px))
    ensures px >= 8 ==> ShiftBit(b, px) == 0
  {
    Pow2Table();
    if px < 8 {
      Pow2Add(px, 7 - px);
      ShiftIsolates(b, Pow2(px), Pow2(7 - px));
    } else {
      Pow2Add(8, px - 8);
      assert b * Pow2(px) == 0x100 * (b * Pow2(px - 8));
    }
  }

  /** The colour code of pixel `px` of a tile row: `lo` gives bit 0, `hi` bit 1 (`r1 | r2 << 1`, on disjoint bits). */
  function ColorCode(lo: u8, hi: u8, px: nat): (c: u8)
    ensures c < 4
  {
    ShiftBit(lo, px) + 2 * ShiftBit(hi, px)
  }

  /**
   * The colour code at pixel (px, py) of the tile at (tx, ty) in map `mapN`:
   * the tile number from the map, then the row's two bytes at `2 py`.
   */
  function TileCode(vram: seq<u8>, tileset: u8, mapN: u8, tx: nat, ty: nat, px: nat, py: nat): (c: u8)
    requires |vram| == VramSize && tx < 32 && ty < 32 && py < 8
    ensures c < 4
  {
    var id := VramAt(vram, MapBase(mapN) + tx + ty * 32);
    TileAddrTable(tileset, id);
    var row := TileAddr(tileset, id) + py * 2;
    ColorCode(VramAt(vram, row), VramAt(vram, row + 1), px)
  }

  /**
   * renderBackgroundPixel: white when the background is off, else the BGP
   * shade of the map pixel at (x + scx, y + scy), which wraps round the 256 by
   * 256 map.
   */
  function BackgroundPixel(vram: seq<u8>, lcdc: u8, scx: u8, scy: u8, bgp: u8, enabled: bool, x: u8, y: u8): (c: u8)
    requires |vram| == VramSize
    ensures c < ColorTransparent
  {
    if !enabled then ColorWhite
    else
      var sx, sy := Wrap8(x + scx), Wrap8(y + scy);
      ToColor(bgp, TileCode(vram, Tileset(lcdc), BackgroundMap(lcdc), sx / 8, sy / 8, sx % 8, sy % 8))
  }

  /**
   * renderWindowPixel: transparent when the window is off or the pixel is
   * left of WX-7 or above WY, else the BGP shade of the window map pixel.
   * With WX below 7 the pixel is left as it was (`None`).
   */
  function WindowPixel(vram: seq<u8>, lcdc: u8, wx: u8, wy: u8, bgp: u8, x: u8, y: u8): (c: Option<u8>)
    requires |vram| == VramSize
    ensures c.Some? ==> c.value <= ColorTransparent
  {
    if !WindowEnabled(lcdc) then Some(ColorTransparent)
    else if wx < 7 then None
    else if x < wx - 7 || y < wy then Some(ColorTransparent)
    else
      var wxs, wys := x - (wx - 7), y - wy;
      Some(ToColor(bgp, TileCode(vram, Tileset(lcdc), WindowMap(lcdc), wxs / 8, wys / 8, wxs % 8, wys % 8)))
  }

  /** The window covers exactly the pixels right of WX-7 and below WY, when it is on and WX >= 7. */
  lemma WindowCovers(vram: seq<u8>, lcdc: u8, wx: u8, wy: u8, bgp: u8, x: u8, y: u8)
    requires |vram| == VramSize && WindowEnabled(lcdc) && wx >= 7
    ensures WindowPixel(vram, lcdc, wx, wy, bgp, x, y).Some?
    ensures WindowPixel(vram, lcdc, wx, wy, bgp, x, y).value != ColorTransparent <==> x + 7 >= wx && y >= wy
  {
  }

  // ---- sprite pixels ----

  /**
   * The address of row `y` of a sprite's tile: for 8-pixel sprites the tile
   * itself; for 16-pixel ones the even tile (`id & 0xFE`) holds rows 0-7 and
   * the odd one (`id | 0x01`) rows 8-15.
   */
  function SpriteRowAddr(id: u8, width: u8, y: u8): (a: nat)
    ensures VramBase <= a && a + 1 < VramBase + VramSize
  {
    if width == 8 then VramBase + (id * 16 + y * 2)
    else if y < 8 then VramBase + ((id - id % 2) * 16 + y * 2)
    else VramBase + ((id - id % 2 + 1) * 16 + (y - 8) * 2)
  }

  /** spriteColorCode: the colour code at (x, y) of the sprite, after the flips (in byte arithmetic). */
  function SpriteColorCode(vram: seq<u8>, id: u8, width: u8, x: u8, y: u8, flipX: bool, flipY: bool): (c: u8)
    requires |vram| == VramSize
    ensures c < 4
  {
    var x' := if flipX then Wrap8(7 - x) else x;
    var y' := if flipY then Wrap8(Wrap8(width - y) - 1) else y;
    var a := SpriteRowAddr(id, width, y');
    ColorCode(VramAt(vram, a), VramAt(vram, a + 1), x')
  }

  /** Flipping twice reads the same pixel, for pixels inside the sprite. */
  lemma FlipInvolution(x: u8, y: u8, width: u8)
    requires x < 8 && y < width
    ensures Wrap8(7 - Wrap8(7 - x)) == x
    ensures Wrap8(Wrap8(width - Wrap8(Wrap8(width - y) - 1)) - 1) == y
  {
    ModUnique(7 - x, 0x100, 0, 7 - x);
    ModUnique(x, 0x100, 0, x);
    var d := width - y;
    ModUnique(d, 0x100, 0, d);
    ModUnique(d - 1, 0x100, 0, d - 1);
    ModUnique(y + 1, 0x100, 0, y + 1);
    ModUnique(y, 0x100, 0, y);
  }

  /**
   * Where renderSprite draws a sprite on line `ly`: columns xs..xe, starting
   * at sprite column `spx`, from sprite row `spy + (ly - ys)`. `None` is
   * `calcCoords`' panic.
   */
  datatype Span = Span(xs: u8, xe: u8, spx: u8, row: u8)

  function SpriteSpan(attr: SpriteAttr, width: u8, ly: u8): Option<Span>
  {
    var cx := CalcCoords(attr.CoordinateX(), 8, 8, 159);
    var cy := CalcCoords(attr.CoordinateY(), 16, width, 143);
    if cx.None? || cy.None? then None
    else Some(Span(cx.value.start, cx.value.end, cx.value.spr, Wrap8(cy.value.spr + Wrap8(ly - cy.value.start))))
  }

  /** A span is a non-empty range of columns on screen. */
  lemma SpanOnScreen(attr: SpriteAttr, width: u8, ly: u8)
    requires SpriteSpan(attr, width, ly).Some?
    ensures SpriteSpan(attr, width, ly).value.xs <= SpriteSpan(attr, width, ly).value.xe < ScreenWidth
  {
    ColumnsOnScreen(attr.CoordinateX());
  }

  /** The horizontal placement keeps a non-empty range of columns within 0..159. */
  lemma ColumnsOnScreen(i: u8)
    requires CalcCoords(i, 8, 8, 159).Some?
    ensures CalcCoords(i, 8, 8, 159).value.start <= CalcCoords(i, 8, 8, 159).value.end <= 159
  {
    var c := CalcCoords(i, 8, 8, 159);
    assert Wrap8(8 - 8) == 0 && Wrap8(159 + 8 - 8 + 1) == 160 && Wrap8(159 + 8 - 8 + 2) == 161 && Wrap8(159 + 8) == 167;
    if 0 < i < 8 {
      assert Wrap8(8 - i) == 8 - i;
      assert c.value == Coords(0, Wrap8(8 - (8 - i) - 1), 8 - i);
    } else if 8 <= i <= 160 {
      assert Wrap8(i - 8) == i - 8;
      assert c.value == Coords(i - 8, Wrap8(i - 8 + 8 - 1), 0);
    } else {
      assert 161 <= i <= 167 && Wrap8(i - 8) == i - 8;
    }
  }

  /**
   * The colour codes renderSprite reads for each column x of the span: sprite
   * column `spx + (x - xs)` (the loop's `spx++`) of sprite row `row`.
   */
  function SpriteCodes(vram: seq<u8>, attr: SpriteAttr, width: u8, span: Span): (r: seq<u8>)
    requires |vram| == VramSize
    ensures |r| == ScreenWidth
  {
    seq<u8>(ScreenWidth, x requires 0 <= x < ScreenWidth =>
      SpriteColorCode(vram, attr.TileID(), width, Wrap8(span.spx + (x - span.xs)), span.row, attr.FlipX(), attr.FlipY()))
  }

  /**
   * A line of a sprite layer after the codes are painted over the span with
   * palette `pal`: a pixel is painted only where the layer is still
   * transparent and the code is not 0, so an earlier sprite stays on top.
   */
  function PaintCodes(line: seq<u8>, codes: seq<u8>, pal: u8, span: Span): (r: seq<u8>)
    requires |line| == ScreenWidth && |codes| == ScreenWidth
    ensures |r| == ScreenWidth
  {
    seq(ScreenWidth, x requires 0 <= x < ScreenWidth =>
      if span.xs <= x <= span.xe && line[x] == ColorTransparent && codes[x] != 0 then ToColor(pal, codes[x]) else line[x])
  }

  /** The line of one sprite layer after renderSprite draws `attr` over it. */
  function PaintSprite(line: seq<u8>, vram: seq<u8>, attr: SpriteAttr, width: u8, pal: u8, span: Span): (r: seq<u8>)
    requires |line| == ScreenWidth && |vram| == VramSize
    ensures |r| == ScreenWidth
  {
    PaintCodes(line, SpriteCodes(vram, attr, width, span), pal, span)
  }

  /** Painting never touches a pixel that is already drawn, and never leaves a transparent pixel that code 0 would not. */
  lemma {:induction false} PaintKeepsDrawn(line: seq<u8>, vram: seq<u8>, attr: SpriteAttr, width: u8, pal: u8, span: Span, x: nat)
    requires |line| == ScreenWidth && |vram| == VramSize && x < ScreenWidth
    ensures line[x] != ColorTransparent ==> PaintSprite(line, vram, attr, width, pal, span)[x] == line[x]
    ensures (x < span.xs || span.xe < x) ==> PaintSprite(line, vram, attr, width, pal, span)[x] == line[x]
    ensures PaintSprite(line, vram, attr, width, pal, span)[x] != line[x] ==> PaintSprite(line, vram, attr, width, pal, span)[x] < ColorTransparent
  {
  }

  // ---- frames ----

  /**
   * createFrame at one pixel: the window where it is drawn, else the
   * background; then a drawn above-background sprite pixel, or a drawn
   * below-background sprite pixel where that result is white.
   */
  function MergePixel(win: u8, bg: u8, above: u8, below: u8): u8
  {
    var f := if win == ColorTransparent then bg else win;
    if above != ColorTransparent then above
    else if f == PixelWhite && below != ColorTransparent then below
    else f
  }

  /**
   * The frame pixel is one of the four layer pixels; it is opaque whenever the
   * background is (which renderBackgroundPixel always makes it), and a sprite
   * below the background shows only through white.
   */
  lemma MergeProperties(win: u8, bg: u8, above: u8, below: u8)
    ensures MergePixel(win, bg, above, below) in {win, bg, above, below}
    ensures bg < ColorTransparent && win <= ColorTransparent && above <= ColorTransparent && below <= ColorTransparent
            ==> MergePixel(win, bg, above, below) < ColorTransparent
    ensures above != ColorTransparent ==> MergePixel(win, bg, above, below) == above
    ensures MergePixel(win, bg, above, below) == below && below != above && below != win && below != bg
            ==> below != ColorTransparent && (if win == ColorTransparent then bg else win) == PixelWhite
  {
  }
}
