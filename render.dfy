/** Frame rendering (src/render/mod.rs): the background drawn from the
    first nametable and its attribute table, then the 64 OAM sprites, each
    tile decoded from its two bit planes in CHR ROM.

    The frame is abstract: `Frame::set_pixel` is not part of this model,
    and neither is the system palette `SYSTEM_PALLETE` that turns a palette
    entry into RGB.  A frame here records, for every point written, the
    palette entry whose system colour the source draws there.  The pattern
    table banks, which `ControlRegister::background_pattern_addr` and
    `sprite_pattern_addr` choose, are given as numbers (0 or 0x1000).

    The loops of `render` are the methods at the end.  Each is proved to
    leave the frame as the point-wise functions `BackgroundColour` and
    `Layered` say, so the facts proved about those functions are facts
    about the frame that `render` draws. */
module Render {
  import opened Bits
  import opened Outcomes
  import opened Ppu

  /** A frame coordinate: column, then row. */
  type Point = (int, int)

  /** The frame `render` draws into. */
  class Frame {
    var pixels: map<Point, U8>

    constructor()
      ensures pixels == map[]
    {
      pixels := map[];
    }

    /** `set_pixel`: the point shows the colour. */
    method SetPixel(x: int, y: int, colour: U8)
      modifies this
      ensures pixels == old(pixels)[(x, y) := colour]
    {
      pixels := pixels[(x, y) := colour];
    }
  }

  /** The colour of a point, if it has been drawn. */
  function Lookup(pixels: map<Point, U8>, p: Point): Option<U8> {
    if p in pixels then Some(pixels[p]) else None
  }

  /** `b >> n`. */
  function Shifted(b: U8, n: nat): (r: U8)
    ensures r <= b
  {
    if n == 0 then b else Shifted(b, n - 1) / 2
  }

  /** Bit `n` of `b`: `b >> n & 1`. */
  function BitOf(b: U8, n: nat): int {
    Shifted(b, n) % 2
  }

  /** One more shift peels bit `n` off `b >> n`. */
  lemma {:induction false} ShiftedSplits(b: U8, n: nat)
    ensures Shifted(b, n) == BitOf(b, n) + 2 * Shifted(b, n + 1)
  {
  }

  /** Shifting a byte right eight times leaves nothing. */
  lemma {:induction false} ShiftedOut(b: U8, n: nat)
    requires n >= 8
    ensures Shifted(b, n) == 0
  {
    if n > 8 {
      ShiftedOut(b, n - 1);
    } else {
      assert Shifted(b, 1) < 0x80;
      assert Shifted(b, 2) < 0x40;
      assert Shifted(b, 3) < 0x20;
      assert Shifted(b, 4) < 0x10;
      assert Shifted(b, 5) < 0x8;
      assert Shifted(b, 6) < 0x4;
      assert Shifted(b, 7) < 0x2;
    }
  }

  /** `2^n`. */
  function Pow2(n: nat): nat {
    if n == 0 then 1 else 2 * Pow2(n - 1)
  }

  /** The bits of `b` below bit `n`, bit `k` weighing `2^k`. */
  function LowBits(b: U8, n: nat): int {
    if n == 0 then 0 else LowBits(b, n - 1) + BitOf(b, n - 1) * Pow2(n - 1)
  }

  /** After `n` shifts, the bits shifted out and what is left make up the
      byte again. */
  lemma {:induction false} ShiftedRemainder(b: U8, n: nat)
    ensures b == LowBits(b, n) + Pow2(n) * Shifted(b, n)
  {
    if n > 0 {
      ShiftedRemainder(b, n - 1);
      ShiftedSplits(b, n - 1);
      Regroup(b, LowBits(b, n - 1), Pow2(n - 1), BitOf(b, n - 1), Shifted(b, n));
    }
  }

  /** `low + weight * (bit + 2 * rest)` regrouped as the low bits with
      `bit` added, plus twice the weight times the rest. */
  lemma Regroup(b: int, low: int, weight: int, bit: int, rest: int)
    requires b == low + weight * (bit + 2 * rest)
    ensures b == (low + bit * weight) + (2 * weight) * rest
  {
  }

  /** A byte is the sum of its eight bits, bit `n` weighing `2^n`: the
      eight shifts of a tile row see every bit of it, and each bit is 0
      or 1. */
  lemma ByteOfBits(b: U8)
    ensures b == LowBits(b, 8)
    ensures forall n :: 0 <= BitOf(b, n) <= 1
  {
    ShiftedRemainder(b, 8);
    ShiftedOut(b, 8);
  }

  /** The colour number of pixel (`x`, `y`) of a 16-byte tile: bit `7 - x`
      of row `y` of the second bit plane (bytes 8-15) is its high bit, the
      same bit of row `y` of the first plane (bytes 0-7) its low bit.
      Column 0 is the most significant bit. */
  function PixelValue(tile: seq<U8>, x: nat, y: nat): (v: int)
    requires |tile| == 16 && x < 8 && y < 8
    ensures 0 <= v < 4
    ensures v == 0 <==> BitOf(tile[y], 7 - x) == 0 && BitOf(tile[y + 8], 7 - x) == 0
  {
    2 * BitOf(tile[y + 8], 7 - x) + BitOf(tile[y], 7 - x)
  }

  /** The row of the attribute table that governs a tile: eight attribute
      bytes per four tile rows, one per four tile columns, after the 0x3C0
      tile bytes of the nametable. */
  function AttributeIndex(tileColumn: nat, tileRow: nat): nat {
    0x3C0 + tileRow / 4 * 8 + tileColumn / 4
  }

  /** Every tile of the 32 x 30 screen takes its attribute byte from the 64
      bytes 0x3C0-0x3FF, and the 2 x 2 blocks of tiles of one 4 x 4 block
      share it. */
  lemma AttributeTableBounds(tileColumn: nat, tileRow: nat)
    requires tileColumn < 32 && tileRow < 30
    ensures 0x3C0 <= AttributeIndex(tileColumn, tileRow) < 0x400
  {
  }

  /** Which quarter of its 4 x 4 tile block a tile lies in: 0 top left,
      1 top right, 2 bottom left, 3 bottom right. */
  function Quadrant(tileColumn: nat, tileRow: nat): (q: nat)
    ensures q < 4
  {
    2 * (tileRow % 4 / 2) + tileColumn % 4 / 2
  }

  /** The `match` of `bg_pallette` on the quadrant: bits 0-1 of the
      attribute byte for the top left quarter, 2-3 top right, 4-5 bottom
      left, 6-7 bottom right. */
  function PaletteNumber(attrByte: U8, tileColumn: nat, tileRow: nat): (p: int)
    ensures 0 <= p < 4
  {
    match (tileColumn % 4 / 2, tileRow % 4 / 2)
    case (0, 0) => attrByte % 4
    case (1, 0) => (attrByte / 4) % 4
    case (0, 1) => (attrByte / 16) % 4
    case (1, 1) => (attrByte / 64) % 4
    case _ => assert false; 0
  }

  /** The quadrant's palette number is the pair of bits `2q` and `2q + 1`
      of the attribute byte, read as a two-bit number. */
  lemma PaletteNumberBits(attrByte: U8, tileColumn: nat, tileRow: nat)
    ensures var q := Quadrant(tileColumn, tileRow);
            PaletteNumber(attrByte, tileColumn, tileRow) == BitOf(attrByte, 2 * q) + 2 * BitOf(attrByte, 2 * q + 1)
  {
    var q := Quadrant(tileColumn, tileRow);
    var c := Shifted(attrByte, 2 * q);
    assert Shifted(attrByte, 2 * q + 1) == c / 2;
    assert c % 4 == c % 2 + 2 * (c / 2 % 2);
    assert Shifted(attrByte, 1) == attrByte / 2;
    if q == 0 {
    } else if q == 1 {
      assert c == attrByte / 4;
    } else if q == 2 {
      assert Shifted(attrByte, 3) == attrByte / 8;
      assert c == attrByte / 16;
    } else {
      assert Shifted(attrByte, 3) == attrByte / 8;
      assert Shifted(attrByte, 5) == attrByte / 32;
      assert c == attrByte / 64;
    }
  }

  /** `bg_pallette`: the universal background colour `palette[0]`, then
      the three entries of the background palette the attribute table
      gives the tile.  Background palettes lie within `palette[0..16]`. */
  function BgPalette(vram: seq<U8>, palette: seq<U8>, tileColumn: nat, tileRow: nat): (colours: seq<U8>)
    requires |vram| == 0x800 && |palette| == 32 && AttributeIndex(tileColumn, tileRow) < 0x800
    ensures |colours| == 4 && colours[0] == palette[0]
    ensures var p := PaletteNumber(vram[AttributeIndex(tileColumn, tileRow)], tileColumn, tileRow);
            forall k :: 1 <= k < 4 ==> 4 * p + k < 16 && colours[k] == palette[4 * p + k]
  {
    var attrByte := vram[AttributeIndex(tileColumn, tileRow)];
    var start := 1 + PaletteNumber(attrByte, tileColumn, tileRow) * 4;
    [palette[0], palette[start], palette[start + 1], palette[start + 2]]
  }

  /** The four tiles of a 2 x 2 block (16 x 16 pixels) share their
      palette. */
  lemma BlockSharesPalette(vram: seq<U8>, palette: seq<U8>, c1: nat, r1: nat, c2: nat, r2: nat)
    requires |vram| == 0x800 && |palette| == 32
    requires c1 < 32 && r1 < 30 && c2 < 32 && r2 < 30
    requires c1 / 2 == c2 / 2 && r1 / 2 == r2 / 2
    ensures AttributeIndex(c1, r1) < 0x800 && AttributeIndex(c2, r2) < 0x800
    ensures BgPalette(vram, palette, c1, r1) == BgPalette(vram, palette, c2, r2)
  {
    SameBlock(c1, c2);
    SameBlock(r1, r2);
    AttributeTableBounds(c1, r1);
    AttributeTableBounds(c2, r2);
    var attrByte := vram[AttributeIndex(c1, r1)];
    assert PaletteNumber(attrByte, c1, r1) == PaletteNumber(attrByte, c2, r2);
  }

  /** Two coordinates in the same pair of tiles lie in the same 4-tile
      block and in the same half of it. */
  lemma SameBlock(a: nat, b: nat)
    requires a / 2 == b / 2
    ensures a / 4 == b / 4 && a % 4 / 2 == b % 4 / 2
  {
    Halves(a);
    Halves(b);
  }

  /** Quarters and the halves of the remainder, through halving twice. */
  lemma Halves(a: nat)
    ensures a / 4 == a / 2 / 2 && a % 4 / 2 == a / 2 % 2
  {
    var q := a / 2;
    assert a == 4 * (q / 2) + 2 * (q % 2) + a % 2;
  }

  /** `sprite_palette`: colour 0 (transparent, never drawn), then the three
      entries of sprite palette `paletteIndex`, which lie within
      `palette[0x11..0x20]`.  `palette_i * 4` is `u8` arithmetic and the
      slice index must stay below 32, so the index must be below 4. */
  function SpritePalette(palette: seq<U8>, paletteIndex: U8): (colours: seq<U8>)
    requires |palette| == 32 && paletteIndex < 4
    ensures |colours| == 4 && colours[0] == 0
    ensures forall k :: 1 <= k < 4 ==>
              (0x10 < 0x10 + 4 * paletteIndex + k < 32 && colours[k] == palette[0x10 + 4 * paletteIndex + k])
  {
    var start := 0x11 + paletteIndex * 4;
    [0, palette[start], palette[start + 1], palette[start + 2]]
  }

  /** The PPU memory `render` reads, and the two pattern table banks. */
  datatype PpuMemory = PpuMemory(
    chrRom: seq<U8>,
    vram: seq<U8>,
    palette: seq<U8>,
    oam: seq<U8>,
    backgroundBank: int,
    spriteBank: int)

  /** Tile `tile` of a bank is inside CHR ROM (the source panics on a
      slice past its end). */
  predicate TileInRom(chrRom: seq<U8>, bank: int, tile: U8) {
    0 <= bank && bank + tile * 16 + 16 <= |chrRom|
  }

  /** The arrays have the PPU's sizes, the banks are the two pattern tables
      and every tile the nametable or OAM names is in CHR ROM. */
  predicate Drawable(m: PpuMemory) {
    && |m.vram| == 0x800 && |m.palette| == 32 && |m.oam| == 0x100
    && (m.backgroundBank == 0 || m.backgroundBank == 0x1000)
    && (m.spriteBank == 0 || m.spriteBank == 0x1000)
    && (forall i :: 0 <= i < 0x3C0 ==> TileInRom(m.chrRom, m.backgroundBank, m.vram[i]))
    && (forall s :: 0 <= s < 64 ==> TileInRom(m.chrRom, m.spriteBank, m.oam[4 * s + 1]))
  }

  /** The 16 bytes of a tile: `chr_rom[bank + tile * 16 ..= bank + tile * 16 + 15]`. */
  function TileBytes(chrRom: seq<U8>, bank: int, tile: U8): (bytes: seq<U8>)
    requires TileInRom(chrRom, bank, tile)
    ensures |bytes| == 16
  {
    chrRom[bank + tile * 16 .. bank + tile * 16 + 16]
  }

  /** The 256 x 240 points the background covers. */
  predicate OnScreen(p: Point) {
    0 <= p.0 < 256 && 0 <= p.1 < 240
  }

  /** The nametable index of the tile a point of the screen lies in. */
  function TileAt(p: Point): (i: int)
    requires OnScreen(p)
    ensures 0 <= i < 0x3C0
  {
    p.1 / 8 * 32 + p.0 / 8
  }

  /** The background colour of a point of the screen: the pixel of its
      tile at the point's offset inside the tile, through the palette the
      attribute table gives the tile. */
  function BackgroundColour(m: PpuMemory, p: Point): (r: U8)
    requires Drawable(m) && OnScreen(p)
    ensures var i := TileAt(p);
            AttributeIndex(i % 32, i / 32) < 0x800 &&
            r in BgPalette(m.vram, m.palette, i % 32, i / 32)
    ensures PixelValue(TileBytes(m.chrRom, m.backgroundBank, m.vram[TileAt(p)]), p.0 % 8, p.1 % 8) == 0
            ==> r == m.palette[0]
  {
    var i := TileAt(p);
    AttributeTableBounds(i % 32, i / 32);
    var colours := BgPalette(m.vram, m.palette, i % 32, i / 32);
    colours[PixelValue(TileBytes(m.chrRom, m.backgroundBank, m.vram[i]), p.0 % 8, p.1 % 8)]
  }

  /** Background tile `i` occupies the 8 x 8 square whose top-left corner
      is (8 * (i % 32), 8 * (i / 32)): its pixel (x, y) is the background
      colour of the point that far from the corner, and no other tile's
      pixel lands there. */
  lemma TilePlacement(m: PpuMemory, i: int, x: int, y: int)
    requires Drawable(m) && 0 <= i < 0x3C0 && 0 <= x < 8 && 0 <= y < 8
    ensures var p := (8 * (i % 32) + x, 8 * (i / 32) + y);
            OnScreen(p) && TileAt(p) == i && p.0 % 8 == x && p.1 % 8 == y
            && AttributeIndex(i % 32, i / 32) < 0x800
            && BackgroundColour(m, p)
               == BgPalette(m.vram, m.palette, i % 32, i / 32)
                    [PixelValue(TileBytes(m.chrRom, m.backgroundBank, m.vram[i]), x, y)]
  {
    var p := (8 * (i % 32) + x, 8 * (i / 32) + y);
    assert p.0 / 8 == i % 32 && p.0 % 8 == x;
    assert p.1 / 8 == i / 32 && p.1 % 8 == y;
    AttributeTableBounds(i % 32, i / 32);
  }

  /** Whether a point lies in the 8 x 8 square of background tile `i`. */
  predicate InTileSquare(i: int, p: Point) {
    8 * (i % 32) <= p.0 < 8 * (i % 32) + 8 && 8 * (i / 32) <= p.1 < 8 * (i / 32) + 8
  }

  /** The points of the screen lying in tile `i`'s square are those whose
      `TileAt` is `i`, and each shows the pixel of tile `i` at its offset
      from the square's corner. */
  lemma TileSquarePoint(m: PpuMemory, i: int, p: Point)
    requires Drawable(m) && 0 <= i < 0x3C0
    ensures InTileSquare(i, p) <==> OnScreen(p) && TileAt(p) == i
    ensures InTileSquare(i, p) ==>
              AttributeIndex(i % 32, i / 32) < 0x800
              && BackgroundColour(m, p)
                 == BgPalette(m.vram, m.palette, i % 32, i / 32)
                      [PixelValue(TileBytes(m.chrRom, m.backgroundBank, m.vram[i]), p.0 - 8 * (i % 32), p.1 - 8 * (i / 32))]
  {
    if OnScreen(p) && TileAt(p) == i {
      assert p.0 / 8 == i % 32 && p.1 / 8 == i / 32;
    }
    if InTileSquare(i, p) {
      TilePlacement(m, i, p.0 - 8 * (i % 32), p.1 - 8 * (i / 32));
    }
  }

  /** Bit 7 of a sprite's attribute byte: flip the tile vertically. */
  predicate FlipVertical(attributes: U8) {
    (attributes / 128) % 2 == 1
  }

  /** Bit 6 of a sprite's attribute byte: flip the tile horizontally. */
  predicate FlipHorizontal(attributes: U8) {
    (attributes / 64) % 2 == 1
  }

  /** The colour a sprite whose tile is `tile`, whose palette is `colours`
      and whose top-left corner is (`left`, `top`) gives point `p`, if it
      covers it with a pixel of non-zero value (zero is transparent).  A
      horizontal flip shows tile column 7 - x at column x of the sprite, a
      vertical flip tile row 7 - y at row y. */
  function SpritePixel(tile: seq<U8>, colours: seq<U8>, left: int, top: int,
                       flipH: bool, flipV: bool, p: Point): (c: Option<U8>)
    requires |tile| == 16 && |colours| == 4
    ensures c.Some? ==> left <= p.0 < left + 8 && top <= p.1 < top + 8
    ensures c.Some? ==> c.value in colours[1..]
  {
    var dx := p.0 - left;
    var dy := p.1 - top;
    if 0 <= dx < 8 && 0 <= dy < 8 then
      var v := PixelValue(tile, if flipH then 7 - dx else dx, if flipV then 7 - dy else dy);
      if v == 0 then None else Some(colours[v])
    else None
  }

  /** Flipping horizontally mirrors the sprite about its vertical axis, and
      flipping vertically about its horizontal axis. */
  lemma FlipMirrors(tile: seq<U8>, colours: seq<U8>, left: int, top: int, flipH: bool, flipV: bool, dx: int, dy: int)
    requires |tile| == 16 && |colours| == 4 && 0 <= dx < 8 && 0 <= dy < 8
    ensures SpritePixel(tile, colours, left, top, !flipH, flipV, (left + dx, top + dy))
            == SpritePixel(tile, colours, left, top, flipH, flipV, (left + 7 - dx, top + dy))
    ensures SpritePixel(tile, colours, left, top, flipH, !flipV, (left + dx, top + dy))
            == SpritePixel(tile, colours, left, top, flipH, flipV, (left + dx, top + 7 - dy))
  {
  }

  /** The colour sprite `s` (OAM bytes `4s` to `4s + 3`: y, tile, attributes,
      x) gives point `p`, if it covers it with a non-transparent pixel. */
  function SpriteColour(m: PpuMemory, s: int, p: Point): (c: Option<U8>)
    requires Drawable(m) && 0 <= s < 64
    ensures c.Some? ==> m.oam[4 * s + 3] <= p.0 < m.oam[4 * s + 3] as int + 8 &&
                        m.oam[4 * s] <= p.1 < m.oam[4 * s] as int + 8
    ensures c.Some? ==> var first := 0x11 + 4 * (m.oam[4 * s + 2] % 4);
                        c.value in m.palette[first..first + 3]
  {
    var attributes := m.oam[4 * s + 2];
    SpritePixel(TileBytes(m.chrRom, m.spriteBank, m.oam[4 * s + 1]),
                SpritePalette(m.palette, attributes % 4),
                m.oam[4 * s + 3], m.oam[4 * s],
                FlipHorizontal(attributes), FlipVertical(attributes), p)
  }

  /** `c` is what `p` showed before the sprites, or the colour one of
      sprites `s` to 63 gives it. */
  predicate ShownBy(under: Option<U8>, m: PpuMemory, s: nat, p: Point, c: Option<U8>)
    requires Drawable(m)
  {
    c == under || exists t :: s <= t < 64 && SpriteColour(m, t, p) == c
  }

  /** What point `p` shows once sprites 63 down to `s` have been drawn
      over `under`, what it showed before: sprite `s`, drawn last, wins
      where it is not transparent. */
  function Layered(under: Option<U8>, m: PpuMemory, s: nat, p: Point): (r: Option<U8>)
    requires Drawable(m) && s <= 64
    ensures ShownBy(under, m, s, p, r)
    decreases 64 - s
  {
    if s == 64 then under
    else match SpriteColour(m, s, p)
      case Some(c) => Some(c)
      case None => Layered(under, m, s + 1, p)
  }

  /** Where several sprites cover a point, the one with the lowest OAM
      number shows: its colour is what the point ends with. */
  lemma {:induction false} LowestSpriteWins(under: Option<U8>, m: PpuMemory, from: nat, s: nat, p: Point)
    requires Drawable(m) && from <= s < 64
    requires SpriteColour(m, s, p).Some?
    requires forall t :: from <= t < s ==> SpriteColour(m, t, p).None?
    ensures Layered(under, m, from, p) == SpriteColour(m, s, p)
    decreases s - from
  {
    if from < s {
      LowestSpriteWins(under, m, from + 1, s, p);
    }
  }

  /** A point no sprite covers with a non-transparent pixel keeps what the
      background gave it. */
  lemma {:induction false} TransparentSprites(under: Option<U8>, m: PpuMemory, from: nat, p: Point)
    requires Drawable(m) && from <= 64
    requires forall t :: from <= t < 64 ==> SpriteColour(m, t, p).None?
    ensures Layered(under, m, from, p) == under
    decreases 64 - from
  {
    if from < 64 {
      TransparentSprites(under, m, from + 1, p);
    }
  }

  /** The screen row of a sprite's tile row `y`, flipped or not. */
  function SpriteRow(top: int, flipV: bool, y: int): int {
    top + (if flipV then 7 - y else y)
  }

  /** The tile column that screen column `px` of a sprite shows. */
  function TileColumn(left: int, flipH: bool, px: int): int {
    if flipH then 7 - (px - left) else px - left
  }

  /** The tile row that screen row `py` of a sprite shows. */
  function TileRow(top: int, flipV: bool, py: int): int {
    if flipV then 7 - (py - top) else py - top
  }

  /** Pixel (`x`, `y`) of a sprite's tile lands at the screen point whose
      tile column and row are `x` and `y`, and gives it the pixel's colour
      unless its value is 0. */
  lemma SpritePixelLands(tile: seq<U8>, colours: seq<U8>, left: int, top: int,
                         flipH: bool, flipV: bool, x: int, y: int)
    requires |tile| == 16 && |colours| == 4 && 0 <= x < 8 && 0 <= y < 8
    ensures var p := (if flipH then left + 7 - x else left + x, SpriteRow(top, flipV, y));
            var v := PixelValue(tile, x, y);
            TileColumn(left, flipH, p.0) == x && TileRow(top, flipV, p.1) == y
            && SpritePixel(tile, colours, left, top, flipH, flipV, p) == if v == 0 then None else Some(colours[v])
  {
  }

  /** The innermost loop for a background tile: row `y`, columns 7 down
      to 0, each pixel's colour number taken from the low bits of the two
      bit-plane bytes, which shift right once per column. */
  method DrawBackgroundRow(frame: Frame, tile: seq<U8>, colours: seq<U8>, tileX: int, tileY: int, y: int)
    requires |tile| == 16 && |colours| == 4 && 0 <= y < 8
    modifies frame
    ensures forall p :: Lookup(frame.pixels, p)
              == if p.1 == tileY * 8 + y && tileX * 8 <= p.0 < tileX * 8 + 8
                 then Some(colours[PixelValue(tile, p.0 - tileX * 8, y)])
                 else Lookup(old(frame.pixels), p)
  {
    ghost var before := frame.pixels;
    var upper := tile[y];
    var lower := tile[y + 8];
    for k := 0 to 8
      invariant upper == Shifted(tile[y], k) && lower == Shifted(tile[y + 8], k)
      invariant forall p :: Lookup(frame.pixels, p)
                  == if p.1 == tileY * 8 + y && tileX * 8 + 8 - k <= p.0 < tileX * 8 + 8
                     then Some(colours[PixelValue(tile, p.0 - tileX * 8, y)])
                     else Lookup(before, p)
    {
      var x := 7 - k;
      var value := (lower % 2) * 2 + upper % 2;
      upper := upper / 2;
      lower := lower / 2;
      frame.SetPixel(tileX * 8 + x, tileY * 8 + y, colours[value]);
    }
  }

  /** The loop over the eight rows of a background tile. */
  method DrawBackgroundTile(frame: Frame, tile: seq<U8>, colours: seq<U8>, tileX: int, tileY: int)
    requires |tile| == 16 && |colours| == 4
    modifies frame
    ensures forall p :: Lookup(frame.pixels, p)
              == if tileX * 8 <= p.0 < tileX * 8 + 8 && tileY * 8 <= p.1 < tileY * 8 + 8
                 then Some(colours[PixelValue(tile, p.0 - tileX * 8, p.1 - tileY * 8)])
                 else Lookup(old(frame.pixels), p)
  {
    ghost var before := frame.pixels;
    for y := 0 to 8
      invariant forall p :: Lookup(frame.pixels, p)
                  == if tileX * 8 <= p.0 < tileX * 8 + 8 && tileY * 8 <= p.1 < tileY * 8 + y
                     then Some(colours[PixelValue(tile, p.0 - tileX * 8, p.1 - tileY * 8)])
                     else Lookup(before, p)
    {
      DrawBackgroundRow(frame, tile, colours, tileX, tileY, y);
    }
  }

  /** The first loop of `render`: the 0x3C0 tiles of the first nametable,
      after which every point of the screen shows its background colour
      and no other point has changed. */
  method RenderBackground(frame: Frame, m: PpuMemory)
    requires Drawable(m)
    modifies frame
    ensures forall p :: Lookup(frame.pixels, p)
              == if OnScreen(p) then Some(BackgroundColour(m, p)) else Lookup(old(frame.pixels), p)
  {
    ghost var before := frame.pixels;
    for i := 0 to 0x3C0
      invariant forall p :: Lookup(frame.pixels, p)
                  == if OnScreen(p) && TileAt(p) < i then Some(BackgroundColour(m, p)) else Lookup(before, p)
    {
      var tileX := i % 32;
      var tileY := i / 32;
      var tile := TileBytes(m.chrRom, m.backgroundBank, m.vram[i]);
      AttributeTableBounds(tileX, tileY);
      var colours := BgPalette(m.vram, m.palette, tileX, tileY);
      ghost var drawn := frame.pixels;
      DrawBackgroundTile(frame, tile, colours, tileX, tileY);
      forall p
        ensures Lookup(frame.pixels, p)
                == if OnScreen(p) && TileAt(p) < i + 1 then Some(BackgroundColour(m, p)) else Lookup(before, p)
      {
        TileSquarePoint(m, i, p);
      }
    }
  }

  /** The innermost loop for a sprite: tile row `y`, columns 7 down to 0,
      each non-zero pixel drawn at its flipped or unflipped place. */
  method DrawSpriteRow(frame: Frame, tile: seq<U8>, colours: seq<U8>, tileX: int, tileY: int,
                       flipH: bool, flipV: bool, y: int)
    requires |tile| == 16 && |colours| == 4 && 0 <= y < 8
    modifies frame
    ensures forall p :: Lookup(frame.pixels, p)
              == if p.1 == SpriteRow(tileY, flipV, y) && SpritePixel(tile, colours, tileX, tileY, flipH, flipV, p).Some?
                 then SpritePixel(tile, colours, tileX, tileY, flipH, flipV, p)
                 else Lookup(old(frame.pixels), p)
  {
    ghost var before := frame.pixels;
    var upper := tile[y];
    var lower := tile[y + 8];
    for k := 0 to 8
      invariant upper == Shifted(tile[y], k) && lower == Shifted(tile[y + 8], k)
      invariant forall p :: Lookup(frame.pixels, p)
                  == if p.1 == SpriteRow(tileY, flipV, y) && 8 - k <= TileColumn(tileX, flipH, p.0)
                        && SpritePixel(tile, colours, tileX, tileY, flipH, flipV, p).Some?
                     then SpritePixel(tile, colours, tileX, tileY, flipH, flipV, p)
                     else Lookup(before, p)
    {
      var x := 7 - k;
      var value := (lower % 2) * 2 + upper % 2;
      upper := upper / 2;
      lower := lower / 2;
      SpritePixelLands(tile, colours, tileX, tileY, flipH, flipV, x, y);
      if value != 0 {
        var px := if flipH then tileX + 7 - x else tileX + x;
        frame.SetPixel(px, SpriteRow(tileY, flipV, y), colours[value]);
      }
    }
  }

  /** The loop over the eight rows of a sprite's tile. */
  method DrawSprite(frame: Frame, tile: seq<U8>, colours: seq<U8>, tileX: int, tileY: int,
                    flipH: bool, flipV: bool)
    requires |tile| == 16 && |colours| == 4
    modifies frame
    ensures forall p :: Lookup(frame.pixels, p)
              == match SpritePixel(tile, colours, tileX, tileY, flipH, flipV, p)
                 case Some(c) => Some(c)
                 case None => Lookup(old(frame.pixels), p)
  {
    ghost var before := frame.pixels;
    for y := 0 to 8
      invariant forall p :: Lookup(frame.pixels, p)
                  == if TileRow(tileY, flipV, p.1) < y
                        && SpritePixel(tile, colours, tileX, tileY, flipH, flipV, p).Some?
                     then SpritePixel(tile, colours, tileX, tileY, flipH, flipV, p)
                     else Lookup(before, p)
    {
      DrawSpriteRow(frame, tile, colours, tileX, tileY, flipH, flipV, y);
    }
  }

  /** The second loop of `render`: OAM entries 63 down to 0, each drawn
      over what the previous ones left, so the frame ends as `Layered`
      describes. */
  method RenderSprites(frame: Frame, m: PpuMemory)
    requires Drawable(m)
    modifies frame
    ensures forall p :: Lookup(frame.pixels, p) == Layered(Lookup(old(frame.pixels), p), m, 0, p)
  {
    ghost var before := frame.pixels;
    var s := 64;
    while s > 0
      invariant 0 <= s <= 64
      invariant forall p :: Lookup(frame.pixels, p) == Layered(Lookup(before, p), m, s, p)
    {
      s := s - 1;
      var i := 4 * s;
      var tileIndex := m.oam[i + 1];
      var tileX := m.oam[i + 3];
      var tileY := m.oam[i];
      var flipVertical := (m.oam[i + 2] / 128) % 2 == 1;
      var flipHorizontal := (m.oam[i + 2] / 64) % 2 == 1;
      var paletteIndex := m.oam[i + 2] % 4;
      var colours := SpritePalette(m.palette, paletteIndex);
      var tile := TileBytes(m.chrRom, m.spriteBank, tileIndex);
      DrawSprite(frame, tile, colours, tileX, tileY, flipHorizontal, flipVertical);
    }
  }

  /** `render`: the background, then the sprites over it.  Every point
      shows the lowest-numbered sprite that covers it with a
      non-transparent pixel, or else its background colour; points off the
      screen that no sprite covers keep what they showed. */
  method Render<A, S>(ppu: PPU<A, S>, frame: Frame, backgroundBank: int, spriteBank: int)
    requires ppu.Valid()
    requires Drawable(PpuMemory(ppu.chrRom, ppu.vram[..], ppu.palette[..], ppu.oamData[..], backgroundBank, spriteBank))
    modifies frame
    ensures var m := PpuMemory(ppu.chrRom, ppu.vram[..], ppu.palette[..], ppu.oamData[..], backgroundBank, spriteBank);
            forall p :: Lookup(frame.pixels, p)
              == Layered(if OnScreen(p) then Some(BackgroundColour(m, p)) else Lookup(old(frame.pixels), p), m, 0, p)
  {
    var m := PpuMemory(ppu.chrRom, ppu.vram[..], ppu.palette[..], ppu.oamData[..], backgroundBank, spriteBank);
    RenderBackground(frame, m);
    RenderSprites(frame, m);
  }
}
