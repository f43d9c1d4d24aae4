/** Drawing one line: what a pixel shows, and the source's tile-at-a-time renderer.
  */
module PpuTiles {
  import opened Common
  import opened PpuTypes

  // ------------------------------------------------------- a direct pixel lookup

  /** Where on the 512-dot-wide nametable row the leftmost tile of v starts. */
  function Column(v: Vram): (col: nat)
    requires ValidVram(v)
    ensures col < 512 && col % 8 == 0
  {
    256 * v.ntX + 8 * v.tileX
  }

  /** Two-bit colour of a background dot: 0 is transparent. */
  function BgColor(mem: Mem, table: nat, v: Vram, col: nat): (c: nat)
    requires ValidMem(mem) && ValidVram(v) && table < 2 && col < 512
    ensures c < 4
  {
    var tx := col % 256 / 8;
    var tile := mem.names[2 * v.ntY + col / 256][32 * v.tileY + tx];
    var at := 16 * tile + v.fineY;
    Bit(mem.patterns[table][at], 7 - col % 8) + 2 * Bit(mem.patterns[table][at + 8], 7 - col % 8)
  }

  /** Palette of a background dot: one attribute byte serves 4 x 4 tiles, two bits each quadrant. */
  function BgPalette(mem: Mem, v: Vram, col: nat): (p: nat)
    requires ValidMem(mem) && ValidVram(v) && col < 512
    ensures p < 4
  {
    var tx, ty := col % 256 / 8, v.tileY;
    var attr := mem.names[2 * v.ntY + col / 256][960 + 8 * (ty / 4) + tx / 4];
    attr / [1, 4, 16, 64][2 * (ty % 4 / 2) + tx % 4 / 2] % 4
  }

  function Shown(mem: Mem, index: nat, greyscale: bool): u8
    requires ValidMem(mem) && index < 32
  {
    var c := mem.palette[index];
    if greyscale then c / 16 % 4 * 16 else c % 64
  }

  function Backdrop(p: Ppu, mem: Mem): u8
    requires ValidMem(mem)
  {
    Shown(mem, 0, p.reg.greyscale)
  }

  /** A sprite pixel is a byte: colour, palette, "belongs to sprite 0", "in front"; 0 is empty. */
  function SpriteColor(byte: u8): (c: nat) ensures c < 4 { byte % 4 }

  function SpritePalette(byte: u8): (p: nat) ensures p < 4 { byte / 4 % 4 }

  predicate SpriteIsZero(byte: u8) { byte / 16 % 2 == 1 }

  predicate SpriteInFront(byte: u8) { byte / 32 % 2 == 1 }

  predicate BgVisible(p: Ppu, x: nat) { p.BgOn() && (x >= 8 || p.BgLeft()) }

  predicate SpVisible(p: Ppu, x: nat) { p.SpOn() && (x >= 8 || p.SpLeft()) }

  /** The sprite byte that takes part at x. */
  function SpriteAt(p: Ppu, x: nat): u8
    requires ValidPpu(p) && x < LINE_WIDTH
  {
    if SpVisible(p, x) then p.lineSprites[x] else 0
  }

  /** The background colour that takes part at x, the scroll column being given. */
  function BgAt(p: Ppu, mem: Mem, x: nat, col: nat): (c: nat)
    requires ValidMem(mem) && ValidPpu(p) && col < 512
    ensures c < 4
  {
    if BgVisible(p, x) then BgColor(mem, p.BackgroundPattern(), p.cur, col) else 0
  }

  /** What the screen shows at x when the dot's background column is col. */
  function Pixel(p: Ppu, mem: Mem, x: nat, col: nat): u8
    requires ValidMem(mem) && ValidPpu(p) && x < LINE_WIDTH && col < 512
  {
    var sp, bg := SpriteAt(p, x), BgAt(p, mem, x, col);
    if sp != 0 && (bg == 0 || SpriteInFront(sp)) then
      Shown(mem, 16 + 4 * SpritePalette(sp) + SpriteColor(sp), p.reg.greyscale)
    else if bg == 0 then Backdrop(p, mem)
    else Shown(mem, 4 * BgPalette(mem, p.cur, col) + bg, p.reg.greyscale)
  }

  /** Sprite 0 and the background are both opaque here; the last column never counts. */
  predicate HitAt(p: Ppu, mem: Mem, x: nat, col: nat)
    requires ValidMem(mem) && ValidPpu(p) && x < LINE_WIDTH && col < 512
  {
    x != 255 && SpriteIsZero(SpriteAt(p, x)) && BgAt(p, mem, x, col) != 0
  }

  // ------------------------------------------------------------ reference: drawing

  function ScreenIndex(p: Ppu, x: nat): (i: nat)
    requires p.scanLine < FRAME_HEIGHT && x < LINE_WIDTH
    ensures i < LINE_WIDTH * FRAME_HEIGHT
  {
    LINE_WIDTH * p.scanLine + x
  }

  function PutPixel(p: Ppu, x: nat, color: u8): (q: Ppu)
    requires ValidPpu(p) && p.scanLine < FRAME_HEIGHT && x < LINE_WIDTH
    ensures ValidPpu(q)
  {
    p.(screen := p.screen[ScreenIndex(p, x) := color])
  }

  /** Draw one dot of the tile the scroll register points at, and notice the first sprite-0 hit. */
  function DrawDot(p: Ppu, mem: Mem, x: nat, col: nat): (q: Ppu)
    requires ValidMem(mem) && ValidPpu(p) && p.scanLine < FRAME_HEIGHT && x < LINE_WIDTH && col < 512
    ensures ValidPpu(q)
    ensures q == p.(screen := q.screen, sp0 := q.sp0)
  {
    PutPixel(p, x, Pixel(p, mem, x, col)).(
      sp0 := if HitAt(p, mem, x, col) && !p.sp0.hit && !p.status.sprite0 then SpriteZero(true, x) else p.sp0)
  }

  /** The background column behind screen dot x, the scroll register pointing at tile lastTileX. */
  function ColumnAt(p: Ppu, x: nat): (col: nat)
    requires ValidPpu(p)
    ensures col < 512
  {
    (Column(p.cur) + p.reg.fineX + x + 512 - 8 * p.lastTileX) % 512
  }

  /** The first dots of the current tile. */
  function DrawDots(p: Ppu, mem: Mem, dots: nat): (q: Ppu)
    requires ValidMem(mem) && ValidPpu(p) && p.scanLine < FRAME_HEIGHT
    requires p.lastTileX < LINE_TILES && dots <= 8
    ensures ValidPpu(q)
    ensures q == p.(screen := q.screen, sp0 := q.sp0)
  {
    if dots == 0 then p
    else
      var x := 8 * p.lastTileX + dots - 1;
      DrawDot(DrawDots(p, mem, dots - 1), mem, x, ColumnAt(p, x))
  }

  function IncX(v: Vram): (w: Vram)
    requires ValidVram(v)
    ensures ValidVram(w) && Column(w) == (Column(v) + 8) % 512
    ensures w == v.(tileX := w.tileX, ntX := w.ntX)
  {
    if v.tileX == 31 then v.(tileX := 0, ntX := 1 - v.ntX) else v.(tileX := v.tileX + 1)
  }

  function IncY(v: Vram): (w: Vram)
    requires ValidVram(v)
    ensures ValidVram(w)
  {
    if v.fineY < 7 then v.(fineY := v.fineY + 1)
    else if v.tileY == 29 then v.(fineY := 0, tileY := 0, ntY := 1 - v.ntY)
    else v.(fineY := 0, tileY := (v.tileY + 1) % 32)
  }

  function DrawTile(p: Ppu, mem: Mem): (q: Ppu)
    requires ValidMem(mem) && ValidPpu(p) && p.scanLine < FRAME_HEIGHT && p.lastTileX < LINE_TILES
    ensures ValidPpu(q)
    ensures q == p.(screen := q.screen, sp0 := q.sp0, cur := q.cur, lastTileX := p.lastTileX + 1)
  {
    var d := DrawDots(p, mem, 8);
    d.(cur := IncX(p.cur), lastTileX := p.lastTileX + 1)
  }

  /** Draw every tile still missing before endTileX. */
  function DrawTiles(p: Ppu, mem: Mem, endTileX: nat): (q: Ppu)
    requires ValidMem(mem) && ValidPpu(p) && p.scanLine < FRAME_HEIGHT && endTileX <= LINE_TILES
    ensures ValidPpu(q)
    ensures q == p.(screen := q.screen, sp0 := q.sp0, cur := q.cur, lastTileX := q.lastTileX)
    ensures q.lastTileX == if p.lastTileX < endTileX then endTileX else p.lastTileX
    decreases endTileX - p.lastTileX
  {
    if p.lastTileX < endTileX then DrawTiles(DrawTile(p, mem), mem, endTileX) else p
  }

  /** However a line is cut into chunks, the tiles drawn are the same. */
  lemma {:induction false} DrawTilesAdds(p: Ppu, mem: Mem, mid: nat, end: nat)
    requires ValidMem(mem) && ValidPpu(p) && p.scanLine < FRAME_HEIGHT && mid <= end <= LINE_TILES
    ensures DrawTiles(DrawTiles(p, mem, mid), mem, end) == DrawTiles(p, mem, end)
    decreases mid - p.lastTileX
  {
    hide DrawTile, ValidMem;
    if p.lastTileX < mid {
      DrawTilesAdds(DrawTile(p, mem), mem, mid, end);
    }
  }
}
