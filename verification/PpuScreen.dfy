/** What the dots of a picture are, in the bytes of the memories: pattern bits, palette entries and the four bytes of a
  * sprite.  Nothing of the way the unit finds them out appears here.
  */
module PpuScreen {
  import opened Common
  import opened PpuTypes
  import opened PpuTiles
  import opened PpuLine
  import opened PpuSprites
  import opened PpuReference
  import opened PpuBatch
  import opened PpuPicture

  // ------------------------------------------------------------ tiles and palettes

  /** A palette entry on the screen: six bits, of which grey keeps the upper two. */
  function Paint(mem: Mem, grey: bool, entry: nat): u8
    requires ValidMem(mem) && entry < 32
  {
    if grey then mem.palette[entry] / 16 % 4 * 16 else mem.palette[entry] % 64
  }

  /** A dot of a tile: one bit of each plane, the leftmost dot highest. */
  function TileColor(mem: Mem, table: nat, tile: nat, row: nat, column: nat): (c: nat)
    requires ValidMem(mem) && table < 2 && tile < 256 && row < 8 && column < 8
    ensures c < 4
  {
    var low, high := mem.patterns[table][16 * tile + row], mem.patterns[table][16 * tile + row + 8];
    var weight := [128, 64, 32, 16, 8, 4, 2, 1][column];
    low / weight % 2 + 2 * (high / weight % 2)
  }

  /** The background of one of the four screens, 256 dots wide and 240 high, the attribute bytes below. */
  function Background(mem: Mem, table: nat, screen: nat, line: nat, column: nat): (c: nat)
    requires ValidMem(mem) && table < 2 && screen < 4 && line < 256 && column < 256
    ensures c < 4
  {
    TileColor(mem, table, mem.names[screen][32 * (line / 8) + column / 8], line % 8, column % 8)
  }

  /** Its palette: two bits for a square of 16 dots, a byte for four of them. */
  function BackgroundPalette(mem: Mem, screen: nat, line: nat, column: nat): (p: nat)
    requires ValidMem(mem) && screen < 4 && line < 256 && column < 256
    ensures p < 4
  {
    mem.names[screen][960 + 8 * (line / 32) + column / 32]
    / [1, 4, 16, 64][2 * (line / 16 % 2) + column / 16 % 2] % 4
  }

  lemma BitWeight(b: u8, column: nat)
    requires column < 8
    ensures Bit(b, 7 - column) == b / [128, 64, 32, 16, 8, 4, 2, 1][column] % 2
  {
  }

  lemma TileColorIs(mem: Mem, table: nat, tile: nat, row: nat, column: nat)
    requires ValidMem(mem) && table < 2 && tile < 256 && row < 8 && column < 8
    ensures TileColor(mem, table, tile, row, column) ==
            Bit(mem.patterns[table][16 * tile + row], 7 - column) +
            2 * Bit(mem.patterns[table][16 * tile + row + 8], 7 - column)
  {
    hide Bit;
    BitWeight(mem.patterns[table][16 * tile + row], column);
    BitWeight(mem.patterns[table][16 * tile + row + 8], column);
  }

  lemma BackgroundIs(mem: Mem, table: nat, v: Vram, col: nat)
    requires ValidMem(mem) && ValidVram(v) && table < 2 && col < 512
    ensures BgColor(mem, table, v, col) ==
            Background(mem, table, 2 * v.ntY + col / 256, 8 * v.tileY + v.fineY, col % 256)
  {
    hide Bit, TileColor;
    LineParts(v.tileY, v.fineY);
    assert col % 256 % 8 == col % 8;
    TileColorIs(mem, table, mem.names[2 * v.ntY + col / 256][32 * v.tileY + col % 256 / 8], v.fineY, col % 8);
  }

  lemma PaletteIs(mem: Mem, v: Vram, col: nat)
    requires ValidMem(mem) && ValidVram(v) && col < 512
    ensures BgPalette(mem, v, col) == BackgroundPalette(mem, 2 * v.ntY + col / 256, 8 * v.tileY + v.fineY, col % 256)
  {
    LineParts(v.tileY, v.fineY);
    ColumnParts(col % 256);
  }

  lemma LineParts(tileY: nat, fineY: nat)
    requires tileY < 32 && fineY < 8
    ensures var line := 8 * tileY + fineY;
            line / 8 == tileY && line % 8 == fineY && line / 32 == tileY / 4 && line / 16 % 2 == tileY % 4 / 2
  {
  }

  lemma ColumnParts(column: nat)
    requires column < 256
    ensures column / 8 / 4 == column / 32 && column / 8 % 4 / 2 == column / 16 % 2
  {
  }

  // ----------------------------------------------------------------------- sprites

  /** Sprite i has a row on the line; its Y is that of the line above its first. */
  predicate Covers(mem: Mem, tall: bool, i: nat, line: int)
    requires ValidMem(mem) && i < 64
  {
    mem.oam[4 * i] < 240 && mem.oam[4 * i] <= line <= mem.oam[4 * i] + if tall then 15 else 7
  }

  /** The colour sprite i has at dot x of the line after the given one; 0 is transparent. */
  function SpriteDot(mem: Mem, tall: bool, table: nat, i: nat, x: nat, line: int): (c: nat)
    requires ValidMem(mem) && table < 2 && i < 64
    ensures c < 4
  {
    if !Covers(mem, tall, i, line) || x < mem.oam[4 * i + 3] || x - mem.oam[4 * i + 3] >= 8 then 0
    else
      var tile, attr := mem.oam[4 * i + 1], mem.oam[4 * i + 2];
      var down, right := line - mem.oam[4 * i], x - mem.oam[4 * i + 3];
      var row := if attr < 128 then down else if tall then 15 - down else 7 - down;
      var column := if attr / 64 % 2 == 0 then right else 7 - right;
      if tall then TileColor(mem, tile % 2, tile / 2 * 2 + row / 8, row % 8, column)
      else TileColor(mem, table, tile, row, column)
  }

  function RowOf(attr: u8, tall: bool, down: nat): (row: nat)
    requires down <= if tall then 15 else 7
    ensures row <= if tall then 15 else 7
  {
    if attr < 128 then down else if tall then 15 - down else 7 - down
  }

  /** Sprites before the i-th that have a row on the line. */
  function CoveringBefore(mem: Mem, tall: bool, i: nat, line: int): nat
    requires ValidMem(mem) && i <= 64
  {
    if i == 0 then 0 else CoveringBefore(mem, tall, i - 1, line) + if Covers(mem, tall, i - 1, line) then 1 else 0
  }

  /** Sprite i is one of the first eight on the line, unless there is no limit, and opaque at x. */
  predicate Opaque(mem: Mem, tall: bool, table: nat, i: nat, x: nat, line: int)
    requires ValidMem(mem) && table < 2 && i < 64
  {
    SpriteDot(mem, tall, table, i, x, line) != 0 && (mem.noSpriteLimit || CoveringBefore(mem, tall, i, line) < 8)
  }

  lemma {:induction false} CountIs(s: LineSetup, mem: Mem, n: nat)
    requires ValidMem(mem) && s.Valid() && s.first == 0 && n <= 64
    ensures InRangeBefore(s, mem, n) == CoveringBefore(mem, s.tall, n, s.y)
  {
    if n > 0 {
      CountIs(s, mem, n - 1);
    }
  }

  /** What the line buffer keeps of a sprite dot: its colour, its palette, whether it is sprite 0, and whether its
    * priority bit is clear.
    */
  lemma SpriteByteIs(s: LineSetup, mem: Mem, i: nat, x: nat)
    requires ValidMem(mem) && s.Valid() && s.first == 0 && i < 64 && x < LINE_WIDTH
    ensures var b, c := SpriteByte(s, mem, i, x), SpriteDot(mem, s.tall, s.table, i, x, s.y);
            && (b == 0 <==> c == 0)
            && (c != 0 ==>
                  && b % 4 == c && b / 4 % 4 == mem.oam[4 * i + 2] % 4
                  && (b / 16 % 2 == 1 <==> i == 0) && (b / 32 % 2 == 1 <==> mem.oam[4 * i + 2] / 32 % 2 == 0))
  {
    hide DotByte, TileColor, PatternAt;
    var sprite := SpriteOf(mem, i);
    if InRange(s, sprite) && sprite.x <= x < sprite.x + 8 {
      var at := PatternAt(s, sprite);
      PatternIs(s, mem, i);
      var right := x - sprite.x;
      DotByteIs(sprite, mem.patterns[at.0][at.1 + 8], mem.patterns[at.0][at.1], i == 0, right);
      var row := RowOf(sprite.attr, s.tall, s.y - sprite.y);
      var column := if sprite.attr / 64 % 2 == 0 then right else 7 - right;
      if s.tall {
        TileColorIs(mem, sprite.tile % 2, sprite.tile / 2 * 2 + row / 8, row % 8, column);
      } else {
        TileColorIs(mem, s.table, sprite.tile, row, column);
      }
    }
  }

  lemma DotByteIs(sprite: Sprite, high: u8, low: u8, isZero: bool, right: nat)
    requires right < 8
    ensures var b := DotByte(sprite, high, low, isZero, right);
            var bit := if sprite.attr / 64 % 2 == 0 then 7 - right else right;
            var c := Bit(low, bit) + 2 * Bit(high, bit);
            && (b == 0 <==> c == 0)
            && (c != 0 ==>
                  && b % 4 == c && b / 4 % 4 == sprite.attr % 4
                  && (b / 16 % 2 == 1 <==> isZero) && (b / 32 % 2 == 1 <==> sprite.attr / 32 % 2 == 0))
  {
    hide Bit, PixelByte;
  }

  lemma PatternIs(s: LineSetup, mem: Mem, i: nat)
    requires ValidMem(mem) && s.Valid() && i < 64 && InRange(s, SpriteOf(mem, i))
    ensures var sprite := SpriteOf(mem, i);
            var row := RowOf(sprite.attr, s.tall, s.y - sprite.y);
            PatternAt(s, sprite) ==
            if s.tall then (sprite.tile % 2, 16 * (sprite.tile / 2 * 2 + row / 8) + row % 8)
            else (s.table, 16 * sprite.tile + row)
  {
  }

  lemma OpaqueIs(s: LineSetup, mem: Mem, i: nat, x: nat)
    requires ValidMem(mem) && s.Valid() && s.unlimited == mem.noSpriteLimit && s.first == 0 && i < 64 && x < LINE_WIDTH
    ensures Opaque(mem, s.tall, s.table, i, x, s.y) <==> Taken(s, mem, i) && SpriteByte(s, mem, i, x) != 0
  {
    hide SpriteDot, InRange;
    CountIs(s, mem, i);
    SpriteByteIs(s, mem, i, x);
    InRangeIs(s, mem, i, x);
  }

  lemma InRangeIs(s: LineSetup, mem: Mem, i: nat, x: nat)
    requires ValidMem(mem) && s.Valid() && i < 64
    ensures InRange(s, SpriteOf(mem, i)) == Covers(mem, s.tall, i, s.y)
    ensures SpriteDot(mem, s.tall, s.table, i, x, s.y) != 0 ==> Covers(mem, s.tall, i, s.y)
  {
    hide TileColor;
  }

  /** The line buffer holds at each dot the lowest-numbered sprite that is opaque there, and nothing if none is. */
  lemma LineBuffer(s: LineSetup, mem: Mem, x: nat)
    requires ValidMem(mem) && s.Valid() && s.unlimited == mem.noSpriteLimit && s.first == 0 && x < LINE_WIDTH
    ensures var b := SpriteLine(s, mem)[x];
            && (b == 0 <==> forall i | 0 <= i < 64 :: !Opaque(mem, s.tall, s.table, i, x, s.y))
            && forall i | 0 <= i < 64 && Topmost(mem, s.tall, s.table, i, x, s.y) ::
                 && b != 0 && b % 4 == SpriteDot(mem, s.tall, s.table, i, x, s.y) && b / 4 % 4 == mem.oam[4 * i + 2] % 4
                 && (b / 16 % 2 == 1 <==> i == 0) && (b / 32 % 2 == 1 <==> mem.oam[4 * i + 2] / 32 % 2 == 0)
  {
    hide SpriteByte, Taken, SpriteDot, Opaque, Layered;
    LayeredIsTopmost(s, mem, SPRITES, x);
    forall i | 0 <= i < 64
      ensures Opaque(mem, s.tall, s.table, i, x, s.y) <==> Taken(s, mem, i) && SpriteByte(s, mem, i, x) != 0
    {
      OpaqueIs(s, mem, i, x);
    }
    forall i | 0 <= i < 64 && Topmost(mem, s.tall, s.table, i, x, s.y)
      ensures SpriteLine(s, mem)[x] == SpriteByte(s, mem, i, x) != 0
    {
      TopmostOne(s, mem, i, x);
    }
    forall i | 0 <= i < 64 && Topmost(mem, s.tall, s.table, i, x, s.y)
      ensures var b := SpriteByte(s, mem, i, x);
              && b % 4 == SpriteDot(mem, s.tall, s.table, i, x, s.y) && b / 4 % 4 == mem.oam[4 * i + 2] % 4
              && (b / 16 % 2 == 1 <==> i == 0) && (b / 32 % 2 == 1 <==> mem.oam[4 * i + 2] / 32 % 2 == 0)
    {
      TopmostByte(s, mem, i, x);
    }
  }

  /** The sprite of a dot. */
  ghost predicate Topmost(mem: Mem, tall: bool, table: nat, i: nat, x: nat, line: int)
    requires ValidMem(mem) && table < 2 && i < 64
  {
    Opaque(mem, tall, table, i, x, line) && forall j | 0 <= j < i :: !Opaque(mem, tall, table, j, x, line)
  }

  lemma TopmostOne(s: LineSetup, mem: Mem, i: nat, x: nat)
    requires ValidMem(mem) && s.Valid() && s.unlimited == mem.noSpriteLimit && s.first == 0 && i < 64 && x < LINE_WIDTH
    requires Topmost(mem, s.tall, s.table, i, x, s.y)
    ensures SpriteLine(s, mem)[x] == SpriteByte(s, mem, i, x) != 0
  {
    hide SpriteByte, Taken, SpriteDot, Opaque, Layered;
    LayeredIsTopmost(s, mem, SPRITES, x);
    OpaqueIs(s, mem, i, x);
    var b := Layered(s, mem, SPRITES, x);
    var k :| 0 <= k < 64 && TopmostAt(s, mem, SPRITES, k, x) && b == SpriteByte(s, mem, k, x);
    OpaqueIs(s, mem, k, x);
    assert k <= i;
  }

  lemma TopmostByte(s: LineSetup, mem: Mem, i: nat, x: nat)
    requires ValidMem(mem) && s.Valid() && s.unlimited == mem.noSpriteLimit && s.first == 0 && i < 64 && x < LINE_WIDTH
    requires Topmost(mem, s.tall, s.table, i, x, s.y)
    ensures var b := SpriteByte(s, mem, i, x);
            && b % 4 == SpriteDot(mem, s.tall, s.table, i, x, s.y) && b / 4 % 4 == mem.oam[4 * i + 2] % 4
            && (b / 16 % 2 == 1 <==> i == 0) && (b / 32 % 2 == 1 <==> mem.oam[4 * i + 2] / 32 % 2 == 0)
  {
    hide SpriteByte, SpriteDot;
    SpriteByteIs(s, mem, i, x);
  }

  // ---------------------------------------------------------------------- one dot

  /** Where the background of screen line y comes from: one line further down for every line, from the 240th of one
    * screen to the first of the other; a position in the attribute bytes runs to their end first.
    */
  function LineAt(v: Vram, y: nat): (at: (nat, nat))
    requires ValidVram(v)
    ensures at.0 < 2 && at.1 < 256
  {
    var start := 8 * v.tileY + v.fineY;
    if start < 240 then ((240 * v.ntY + start + y) % 480 / 240, (start + y) % 240)
    else if start + y < 256 then (v.ntY, start + y)
    else ((240 * v.ntY + start + y - 256) % 480 / 240, (start + y - 256) % 240)
  }

  lemma RowParts(w: Vram, r: nat, nt: nat, down: nat)
    requires ValidVram(w) && w.tileY < 30 && r == 240 * nt + down && Row(w) == r % 480
    ensures w.ntY == r % 480 / 240 && 8 * w.tileY + w.fineY == down % 240
  {
    DivModUnique(r % 480, 240, w.ntY, 8 * w.tileY + w.fineY);
    var q := r / 480;
    assert r == 480 * q + r % 480;
    assert down == 240 * (2 * q + w.ntY - nt) + (8 * w.tileY + w.fineY);
    DivModUnique(down, 240, 2 * q + w.ntY - nt, 8 * w.tileY + w.fineY);
  }

  lemma BelowIs(v: Vram, w: Vram, y: nat)
    requires ValidVram(v) && ValidVram(w) && Below(v, w, y)
    ensures w.ntY == LineAt(v, y).0 && 8 * w.tileY + w.fineY == LineAt(v, y).1
  {
    hide Row;
    var start := 8 * v.tileY + v.fineY;
    if start < 240 {
      RowOf480(v);
      RowParts(w, Row(v) + y, v.ntY, start + y);
    } else if start + y >= 256 {
      RowParts(w, 240 * v.ntY + (y - (256 - start)), v.ntY, start + y - 256);
    }
  }

  lemma RowOf480(v: Vram)
    requires ValidVram(v) && v.tileY < 30
    ensures Row(v) == 240 * v.ntY + (8 * v.tileY + v.fineY)
  {
  }

  /** What a dot is made of: the background there, if it takes part, and the topmost sprite, if any takes part, in front
    * of it unless its priority bit is set and the background is opaque; the backdrop if neither is.
    */
  ghost predicate DotShows(mem: Mem, reg: Regs, dot: u8, screen: nat, line: nat, column: nat, x: nat, above: int)
    requires ValidMem(mem) && screen < 4 && line < 256 && column < 256
  {
    var tall, table := reg.ctrl / 32 % 2 == 1, reg.ctrl / 8 % 2;
    var bg := if reg.mask / 8 % 2 == 1 && (x >= 8 || reg.mask / 2 % 2 == 1)
              then Background(mem, reg.ctrl / 16 % 2, screen, line, column) else 0;
    var behind := Paint(mem, reg.greyscale,
                        if bg == 0 then 0 else 4 * BackgroundPalette(mem, screen, line, column) + bg);
    var sprites := reg.mask / 16 % 2 == 1 && (x >= 8 || reg.mask / 4 % 2 == 1);
    && (!sprites || (forall i | 0 <= i < 64 :: !Opaque(mem, tall, table, i, x, above)) ==> dot == behind)
    && (sprites ==> forall i | 0 <= i < 64 && Topmost(mem, tall, table, i, x, above) ::
          dot == if bg == 0 || mem.oam[4 * i + 2] / 32 % 2 == 0
                 then Paint(mem, reg.greyscale,
                            16 + 4 * (mem.oam[4 * i + 2] % 4) + SpriteDot(mem, tall, table, i, x, above))
                 else behind)
  }

  /** A dot of a line whose sprites were prepared on the line above. */
  lemma PixelShows(p: Ppu, mem: Mem, s: LineSetup, x: nat, col: nat)
    requires ValidMem(mem) && ValidPpu(p) && s.Valid() && x < LINE_WIDTH && col < 512
    requires s.unlimited == mem.noSpriteLimit && s.first == 0
    requires s.tall == p.TallSprites() && s.table == p.SpritePattern()
    requires p.lineSprites == SpriteLine(s, mem)
    ensures DotShows(mem, p.reg, Pixel(p, mem, x, col), 2 * p.cur.ntY + col / 256, 8 * p.cur.tileY + p.cur.fineY,
                     col % 256, x, s.y)
  {
    hide BgColor, BgPalette, Background, BackgroundPalette, SpriteLine, Opaque, SpriteDot, Topmost;
    BackgroundIs(mem, p.BackgroundPattern(), p.cur, col);
    PaletteIs(mem, p.cur, col);
    LineBuffer(s, mem, x);
  }

  /** The first line has no sprites. */
  lemma PixelBare(p: Ppu, mem: Mem, x: nat, col: nat)
    requires ValidMem(mem) && ValidPpu(p) && x < LINE_WIDTH && col < 512 && p.lineSprites == EmptyLine()
    ensures DotShows(mem, p.reg, Pixel(p, mem, x, col), 2 * p.cur.ntY + col / 256, 8 * p.cur.tileY + p.cur.fineY,
                     col % 256, x, -1)
  {
    hide BgColor, BgPalette, Background, BackgroundPalette;
    BackgroundIs(mem, p.BackgroundPattern(), p.cur, col);
    PaletteIs(mem, p.cur, col);
  }

  /** With rendering on, every dot of the frame the backend gets: the background that lies y lines below and x dots to
    * the right of the scroll position written before, with the sprites whose Y is that of a line above; on the first
    * line there are none.
    */
  lemma FrameDots(q: Ppu, mem: Mem, x: nat, y: nat)
    requires ValidMem(mem) && FrameStart(q) && x < 256 && y < 240
    ensures var frames := Dots(q, mem, (if q.oddFrame then 340 else 341) + 341 * 240 + 1).frames;
            var column := (256 * q.reg.tmp.ntX + 8 * q.reg.tmp.tileX + q.reg.fineX + x) % 512;
            && |frames| == |q.frames| + 1 && |frames[|q.frames|]| == 256 * 240
            && DotShows(mem, q.reg, frames[|q.frames|][256 * y + x],
                        2 * LineAt(q.reg.tmp, y).0 + column / 256, LineAt(q.reg.tmp, y).1, column % 256, x, y - 1)
  {
    hide Dots, ValidMem, Pixel, Below, DotShows, LineAt, ValidVram, SpriteLine;
    FrameIsPicture(q, mem, x, y);
    PreRenderDone(q, mem);
    var p := FirstLine(q, mem);
    PictureIsLookup(p, mem, x, y);
    var r := AtLine(p, mem, y);
    BelowIs(q.reg.tmp, r.cur, y);
    var column := (256 * q.reg.tmp.ntX + 8 * q.reg.tmp.tileX + q.reg.fineX + x) % 512;
    if y == 0 {
      PixelBare(r, mem, x, column);
    } else {
      SetupAbove(p, mem, y);
      PixelShows(r, mem, Setup(AtLine(p, mem, y - 1), mem), x, column);
    }
  }

  /** The sprites of a line are looked for on the line above, from the first one on. */
  lemma SetupAbove(p: Ppu, mem: Mem, y: nat)
    requires ValidMem(mem) && LineStart(p) && p.scanLine == 0 && p.oamAddr == 0 && 0 < y < FRAME_HEIGHT
    ensures AtLine(p, mem, y - 1).scanLine == y - 1
    ensures Setup(AtLine(p, mem, y - 1), mem) ==
            LineSetup(y - 1, p.TallSprites(), p.SpritePattern(), 0, mem.noSpriteLimit)
  {
    hide Dots, ValidMem, Below, ValidVram;
    LinesDone(p, mem, y - 1);
  }

  // ------------------------------------------------------------------- in the dark

  /** With rendering off a line shows palette entry 0 from one end to the other. */
  lemma DarkLine(p: Ppu, mem: Mem, x: nat)
    requires ValidMem(mem) && AtRest(p) && p.scanLine < FRAME_HEIGHT && p.dot == 0 && p.rendToggleDot == 0
    requires p.reg.mask / 8 % 4 == 0 && x < 256
    ensures Dots(p, mem, 256).screen[256 * p.scanLine + x] == Paint(mem, p.reg.greyscale, 0)
  {
    hide DrawTiles, ValidMem, Dot, BackdropRun;
    StretchDots(p, mem, 256);
    BackdropDots(p, mem, 256, x);
  }

  lemma {:induction false} BackdropDots(p: Ppu, mem: Mem, hi: nat, x: nat)
    requires ValidMem(mem) && ValidPpu(p) && p.scanLine < FRAME_HEIGHT && x < hi <= LINE_WIDTH
    ensures BackdropRun(p, mem, 0, hi).screen[LINE_WIDTH * p.scanLine + x] == Paint(mem, p.reg.greyscale, 0)
  {
    if x < hi - 1 {
      BackdropDots(p, mem, hi - 1, x);
    }
  }

  // ----------------------------------------------------------- while the line is drawn

  /** n dots into a line its tiles are on the screen up to two beyond the dot, from where a register written now will
    * show, and nothing further.
    */
  lemma DrawnAhead(p: Ppu, mem: Mem, n: nat, i: nat)
    requires ValidMem(mem) && LineStart(p) && p.scanLine < FRAME_HEIGHT && 0 < n <= 256 && i < 256 * 240
    ensures var q, drawn := Dots(p, mem, n), 8 * Min((n + 7) / 8 + 2, 32);
            q.screen[i] == if 256 * p.scanLine <= i < 256 * p.scanLine + drawn
                           then LineDot(p, mem, i - 256 * p.scanLine) else p.screen[i]
  {
    hide DrawTiles, Pixel, HitAt, ColumnAt, Dot, ValidMem;
    StretchDots(p, mem, n);
    TilesDrawn(p, mem, TilesBy(n));
    var x := i - 256 * p.scanLine;
    if 0 <= x < 8 * TilesBy(n) {
      LeftEdgeColumn(p, x);
      assert DrawTiles(p, mem, TilesBy(n)).screen[ScreenIndex(p, x)] == Pixel(p, mem, x, ColumnAt(p, x));
    }
  }

  /** When the scroll register and OAMADDR change, rendering on and nothing on its way: on a visible line dot 256 takes
    * the register one row down and dot 257 reloads its column; on the pre-render line dot 257 reloads the column and
    * dots 280 to 304 the row; on both OAMADDR is 0 from dot 257 on.
    */
  lemma ScrollTimes(p: Ppu, mem: Mem)
    requires ValidMem(mem) && AtRest(p) && p.Enabled() && p.rendToggleDot == 0
    requires p.scanLine == 261 || (p.scanLine < 240 && p.dot >= 256)
    ensures var v, t, w := p.cur, p.reg.tmp, Dot(p, mem).cur;
            var down, column, row := p.scanLine < 240 && p.dot == 256, p.dot == 257,
                                     p.scanLine == 261 && 280 <= p.dot <= 304;
            && (w.tileX, w.ntX) == (if column then (t.tileX, t.ntX) else (v.tileX, v.ntX))
            && (w.fineY, w.tileY, w.ntY) ==
               (if row then (t.fineY, t.tileY, t.ntY)
                else if !down then (v.fineY, v.tileY, v.ntY)
                else if v.fineY < 7 then (v.fineY + 1, v.tileY, v.ntY)
                else if v.tileY == 29 then (0, 0, 1 - v.ntY)
                else (0, (v.tileY + 1) % 32, v.ntY))
            && Dot(p, mem).oamAddr == if 257 <= p.dot <= 320 then 0 else p.oamAddr
  {
    hide DrawTiles, SpriteLine, Overflows, Setup, ValidMem, EmptyLine;
  }
}
