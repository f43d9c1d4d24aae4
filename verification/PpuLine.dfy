/** Addressing inside a nametable as the source computes it, and what a whole line then shows.
  */
module PpuLine {
  import opened Common
  import opened PpuTypes
  import opened PpuTiles

  /** render.c:237. */
  function NameIndex(v: Vram): (i: nat)
    requires ValidVram(v)
    ensures i < 1024
  {
    v.tileY * 32 + v.tileX
  }

  /** render.c:92-101. */
  function AttrIndex(ntIdx: nat): (i: nat)
    requires ntIdx < 1024
    ensures i < 64
  {
    ntIdx / 128 * 128 / 16 + ntIdx % 32 / 4
  }

  /** render.c:103-117. */
  function PaletteFromAttr(attr: u8, ntIdx: nat): (p: nat)
    requires ntIdx < 1024
    ensures p < 4
  {
    var metaTile := ntIdx % 128 / 64 * 2 + ntIdx % 4 / 2;
    attr / [1, 4, 16, 64][metaTile] % 4
  }

  /** The nametable tile a dot of the current tile falls in: the next one past the fine-X crossing. */
  function TileOf(v: Vram, fineX: nat, k: nat): (w: Vram)
    requires ValidVram(v) && fineX < 8 && k < 8
    ensures ValidVram(w)
  {
    if fineX + k < 8 then v else IncX(v)
  }

  lemma ColumnParts(v: Vram, s: nat)
    requires ValidVram(v) && s < 8
    ensures ColumnOf(v, s, Column(v) + s)
  {
  }

  /** The nametable column of a dot, its tile and its place in the tile. */
  ghost predicate ColumnOf(w: Vram, place: nat, col: nat) {
    col < 512 && col / 256 == w.ntX && col % 256 / 8 == w.tileX && col % 8 == place
  }

  lemma DotColumn(v: Vram, fineX: nat, k: nat)
    requires ValidVram(v) && fineX < 8 && k < 8
    ensures var w := TileOf(v, fineX, k);
            && ColumnOf(w, (fineX + k) % 8, (Column(v) + fineX + k) % 512)
            && w.tileY == v.tileY && w.ntY == v.ntY && w.fineY == v.fineY
  {
    hide Column, IncX, ColumnOf;
    var c, s := Column(v), fineX + k;
    if s < 8 {
      ColumnParts(v, s);
      SameTile(c, s);
      assert s % 8 == s;
    } else {
      ColumnParts(IncX(v), s - 8);
      NextTile(c, s);
      assert s % 8 == s - 8;
    }
  }

  lemma SameTile(c: nat, s: nat)
    requires c < 512 && c % 8 == 0 && s < 8
    ensures (c + s) % 512 == c + s
  {
    assert c <= 504;
  }

  lemma NextTile(c: nat, s: nat)
    requires c < 512 && c % 8 == 0 && 8 <= s < 16
    ensures (c + s) % 512 == (c + 8) % 512 + (s - 8)
  {
    assert c <= 504;
    if c == 504 {
    } else {
      assert c + 15 < 512;
    }
  }

  lemma TileBlock(tileX: nat, tileY: nat)
    requires tileX < 32 && tileY < 32
    ensures var i := tileY * 32 + tileX;
            i / 128 == tileY / 4 && i % 32 == tileX && i % 128 == 32 * (tileY % 4) + tileX
  {
  }

  lemma TileAddress(v: Vram)
    requires ValidVram(v)
    ensures AttrIndex(NameIndex(v)) == 8 * (v.tileY / 4) + v.tileX / 4
    ensures NameIndex(v) % 128 / 64 == v.tileY % 4 / 2 && NameIndex(v) % 4 == v.tileX % 4
    ensures NameIndex(v) == 32 * v.tileY + v.tileX
  {
    TileBlock(v.tileX, v.tileY);
    assert NameIndex(v) % 4 == NameIndex(v) % 32 % 4;
  }

  /** The source's table lookups find what the direct lookup finds, in whichever tile the dot is. */
  lemma TileLookup(mem: Mem, table: nat, v: Vram, col: nat, w: Vram)
    requires ValidMem(mem) && ValidVram(v) && ValidVram(w) && table < 2
    requires ColumnOf(w, col % 8, col)
    requires w.tileY == v.tileY && w.ntY == v.ntY && w.fineY == v.fineY
    ensures var nt := mem.names[2 * w.ntY + w.ntX];
            var at := 16 * nt[NameIndex(w)] + w.fineY;
            var shift := 7 - col % 8;
            && BgColor(mem, table, v, col) ==
               Bit(mem.patterns[table][at], shift) + 2 * Bit(mem.patterns[table][at + 8], shift)
            && BgPalette(mem, v, col) == PaletteFromAttr(nt[960 + AttrIndex(NameIndex(w))], NameIndex(w))
  {
    hide AttrIndex, NameIndex, Bit;
    TileAddress(w);
  }

  // ------------------------------------------------------------- a whole line

  /** Two states that agree on everything a pixel of the current row depends on. */
  ghost predicate SameLine(p: Ppu, q: Ppu) {
    q == p.(screen := q.screen, sp0 := q.sp0, lastTileX := q.lastTileX, status := q.status,
            dot := q.dot, lastDot := q.lastDot,
            cur := p.cur.(tileX := q.cur.tileX, ntX := q.cur.ntX))
  }

  lemma PixelOfLine(p: Ppu, q: Ppu, mem: Mem, x: nat, col: nat)
    requires ValidMem(mem) && ValidPpu(p) && ValidPpu(q) && SameLine(p, q) && x < LINE_WIDTH && col < 512
    ensures Pixel(p, mem, x, col) == Pixel(q, mem, x, col)
    ensures HitAt(p, mem, x, col) == HitAt(q, mem, x, col)
  {
    hide ValidMem;
  }

  lemma ModShift(c: nat, r: nat, t: nat)
    requires t < 64
    ensures ((c + 8) % 512 + r + 512 - 8 * (t + 1)) % 512 == (c + r + 512 - 8 * t) % 512
  {
    var q := (c + 8) / 512;
    assert c + 8 == 512 * q + (c + 8) % 512;
    assert c + r + 512 - 8 * t == ((c + 8) % 512 + r + 512 - 8 * (t + 1)) + 512 * q;
  }

  lemma TileKeepsColumns(p: Ppu, mem: Mem, x: nat)
    requires ValidMem(mem) && ValidPpu(p) && p.scanLine < FRAME_HEIGHT && p.lastTileX < LINE_TILES
    ensures ColumnAt(DrawTile(p, mem), x) == ColumnAt(p, x) && SameLine(p, DrawTile(p, mem))
  {
    hide DrawDots, Column, IncX, ValidMem;
    ModShift(Column(p.cur), p.reg.fineX + x, p.lastTileX);
  }

  /** Screen dots from lo up to hi show what direct lookup says, the rest of the screen is untouched,
    * and the recorded sprite-0 hit is the leftmost one unless there was one already.
    */
  ghost predicate LineDrawn(p: Ppu, q: Ppu, mem: Mem, lo: nat, hi: nat)
    requires ValidMem(mem) && ValidPpu(p) && ValidPpu(q) && p.scanLine < FRAME_HEIGHT && hi <= LINE_WIDTH
  {
    && (forall x {:trigger ScreenIndex(p, x)} | lo <= x < hi ::
          q.screen[ScreenIndex(p, x)] == Pixel(p, mem, x, ColumnAt(p, x)))
    && (forall i | 0 <= i < |p.screen| ::
          !(ScreenIndex(p, 0) + lo <= i < ScreenIndex(p, 0) + hi) ==> q.screen[i] == p.screen[i])
    && (p.sp0.hit || p.status.sprite0 ==> q.sp0 == p.sp0)
    && (!p.sp0.hit && !p.status.sprite0 ==>
          && (q.sp0.hit ==>
                && lo <= q.sp0.x < hi && HitAt(p, mem, q.sp0.x, ColumnAt(p, q.sp0.x))
                && (forall x | lo <= x < q.sp0.x :: !HitAt(p, mem, x, ColumnAt(p, x))))
          && (!q.sp0.hit ==>
                && q.sp0 == p.sp0
                && (forall x | lo <= x < hi :: !HitAt(p, mem, x, ColumnAt(p, x)))))
  }

  lemma {:induction false} DotsDrawn(p: Ppu, mem: Mem, dots: nat)
    requires ValidMem(mem) && ValidPpu(p) && p.scanLine < FRAME_HEIGHT
    requires p.lastTileX < LINE_TILES && dots <= 8
    ensures LineDrawn(p, DrawDots(p, mem, dots), mem, 8 * p.lastTileX, 8 * p.lastTileX + dots)
  {
    hide ColumnAt, Pixel, HitAt;
    if dots > 0 {
      DotsDrawn(p, mem, dots - 1);
      var q, x := DrawDots(p, mem, dots - 1), 8 * p.lastTileX + dots - 1;
      PixelOfLine(p, q, mem, x, ColumnAt(p, x));
    }
  }

  lemma LineDrawnAdds(p: Ppu, q: Ppu, r: Ppu, mem: Mem, lo: nat, mid: nat, hi: nat)
    requires ValidMem(mem) && ValidPpu(p) && ValidPpu(q) && ValidPpu(r) && p.scanLine < FRAME_HEIGHT
    requires lo <= mid <= hi <= LINE_WIDTH
    requires SameLine(p, q) && q.status == p.status && (forall x: nat :: ColumnAt(q, x) == ColumnAt(p, x))
    requires LineDrawn(p, q, mem, lo, mid) && LineDrawn(q, r, mem, mid, hi)
    ensures LineDrawn(p, r, mem, lo, hi)
  {
    hide ColumnAt, Pixel, HitAt;
    forall x: nat | lo <= x < hi
      ensures Pixel(p, mem, x, ColumnAt(p, x)) == Pixel(q, mem, x, ColumnAt(q, x))
      ensures HitAt(p, mem, x, ColumnAt(p, x)) == HitAt(q, mem, x, ColumnAt(q, x))
    {
      PixelOfLine(p, q, mem, x, ColumnAt(p, x));
    }
    forall x: nat | lo <= x < hi
      ensures r.screen[ScreenIndex(p, x)] == Pixel(p, mem, x, ColumnAt(p, x))
    {
      assert ScreenIndex(p, x) == ScreenIndex(q, x);
    }
  }

  /** Whatever chunk is drawn, each of its dots is the direct lookup at its scroll column. */
  lemma {:induction false} TilesDrawn(p: Ppu, mem: Mem, endTileX: nat)
    requires ValidMem(mem) && ValidPpu(p) && p.scanLine < FRAME_HEIGHT
    requires p.lastTileX <= endTileX <= LINE_TILES
    ensures LineDrawn(p, DrawTiles(p, mem, endTileX), mem, 8 * p.lastTileX, 8 * endTileX)
    decreases endTileX - p.lastTileX
  {
    hide ColumnAt, Pixel, HitAt, LineDrawn, DrawDots;
    if p.lastTileX == endTileX {
      NothingDrawn(p, mem, 8 * endTileX);
    } else {
      var d, q := DrawDots(p, mem, 8), DrawTile(p, mem);
      DotsDrawn(p, mem, 8);
      OnlyScreenMatters(p, d, q, mem, 8 * p.lastTileX, 8 * p.lastTileX + 8);
      TilesDrawn(q, mem, endTileX);
      forall x: nat ensures ColumnAt(q, x) == ColumnAt(p, x) {
        TileKeepsColumns(p, mem, x);
      }
      TileKeepsColumns(p, mem, 0);
      LineDrawnAdds(p, q, DrawTiles(q, mem, endTileX), mem, 8 * p.lastTileX, 8 * q.lastTileX, 8 * endTileX);
    }
  }

  lemma NothingDrawn(p: Ppu, mem: Mem, at: nat)
    requires ValidMem(mem) && ValidPpu(p) && p.scanLine < FRAME_HEIGHT && at <= LINE_WIDTH
    ensures LineDrawn(p, p, mem, at, at)
  {
  }

  lemma OnlyScreenMatters(p: Ppu, d: Ppu, q: Ppu, mem: Mem, lo: nat, hi: nat)
    requires ValidMem(mem) && ValidPpu(p) && ValidPpu(d) && ValidPpu(q)
    requires p.scanLine < FRAME_HEIGHT && hi <= LINE_WIDTH
    requires d.screen == q.screen && d.sp0 == q.sp0 && LineDrawn(p, d, mem, lo, hi)
    ensures LineDrawn(p, q, mem, lo, hi)
  {
    hide ColumnAt, Pixel, HitAt;
  }

  /** A line begun at its left edge: the pixel at x is the nametable row at column
    * (256*ntX + 8*tileX + fineX + x) mod 512, combined with the sprite line.
    */
  lemma LineIsLookup(p: Ppu, mem: Mem, x: nat)
    requires ValidMem(mem) && ValidPpu(p) && p.scanLine < FRAME_HEIGHT
    requires p.lastTileX == 0 && x < LINE_WIDTH
    ensures DrawTiles(p, mem, LINE_TILES).screen[LINE_WIDTH * p.scanLine + x] ==
            Pixel(p, mem, x, (256 * p.cur.ntX + 8 * p.cur.tileX + p.reg.fineX + x) % 512)
  {
    hide Pixel, HitAt, DrawTiles, ColumnAt;
    TilesDrawn(p, mem, LINE_TILES);
    LeftEdgeColumn(p, x);
    assert ScreenIndex(p, x) == LINE_WIDTH * p.scanLine + x;
  }

  lemma LeftEdgeColumn(p: Ppu, x: nat)
    requires ValidPpu(p) && p.lastTileX == 0
    ensures ColumnAt(p, x) == (256 * p.cur.ntX + 8 * p.cur.tileX + p.reg.fineX + x) % 512
  {
    var c := 256 * p.cur.ntX + 8 * p.cur.tileX + p.reg.fineX + x;
    assert (c + 512) % 512 == c % 512;
  }
}
