/** A whole picture: what every dot of a frame shows when nobody touches the registers while it is drawn.
  */
module PpuPicture {
  import opened Common
  import opened PpuTypes
  import opened PpuTiles
  import opened PpuLine
  import opened PpuSprites
  import opened PpuReference
  import opened PpuBatch

  /** The picture unit at the left edge of a line, rendering on for good. */
  ghost predicate LineStart(p: Ppu) {
    AtRest(p) && p.dot == 0 && p.lastTileX == 0 && p.rendToggleDot == 0 && p.Enabled()
  }

  /** The scroll register at the left edge of the next line: one row down, the column reloaded. */
  function NextLine(p: Ppu): (v: Vram)
    requires ValidPpu(p)
    ensures ValidVram(v)
  {
    var w := IncY(p.cur);
    w.(tileX := p.reg.tmp.tileX, ntX := p.reg.tmp.ntX)
  }

  /** What a dot of the line shows, seen from the line's left edge. */
  function LineDot(p: Ppu, mem: Mem, x: nat): u8
    requires ValidMem(mem) && ValidPpu(p) && x < LINE_WIDTH
  {
    Pixel(p, mem, x, (256 * p.cur.ntX + 8 * p.cur.tileX + p.reg.fineX + x) % 512)
  }

  /** One line's own row of the screen is its dots and the other rows stay. */
  ghost predicate RowShown(p: Ppu, q: Ppu, mem: Mem)
    requires ValidMem(mem) && ValidPpu(p) && ValidPpu(q) && p.scanLine < FRAME_HEIGHT
  {
    && (forall x | 0 <= x < LINE_WIDTH :: q.screen[ScreenIndex(p, x)] == LineDot(p, mem, x))
    && (forall i | 0 <= i < |p.screen| ::
          !(ScreenIndex(p, 0) <= i < ScreenIndex(p, 0) + LINE_WIDTH) ==> q.screen[i] == p.screen[i])
  }

  // ------------------------------------------------------------------- one line

  /** The 256 dots of pixels. */
  lemma PixelsDone(p: Ppu, mem: Mem)
    requires ValidMem(mem) && LineStart(p) && p.scanLine < FRAME_HEIGHT
    ensures var q := Dots(p, mem, 256);
            && q == p.(screen := q.screen, sp0 := q.sp0, cur := q.cur, lastTileX := q.lastTileX, status := q.status,
                       dot := 256, lastDot := 256)
            && RowShown(p, q, mem)
            && ValidVram(q.cur) && q.cur == p.cur.(tileX := q.cur.tileX, ntX := q.cur.ntX)
  {
    hide DrawTiles, Pixel, HitAt, ColumnAt, Dot, ValidMem;
    StretchDots(p, mem, 256);
    WholeLine(p, mem);
    TilesKeepRow(p, mem, LINE_TILES);
  }

  lemma WholeLine(p: Ppu, mem: Mem)
    requires ValidMem(mem) && ValidPpu(p) && p.scanLine < FRAME_HEIGHT && p.lastTileX == 0
    ensures RowShown(p, DrawTiles(p, mem, LINE_TILES), mem)
  {
    hide Pixel, HitAt, DrawTiles, ColumnAt;
    TilesDrawn(p, mem, LINE_TILES);
    forall x | 0 <= x < LINE_WIDTH
      ensures DrawTiles(p, mem, LINE_TILES).screen[ScreenIndex(p, x)] == LineDot(p, mem, x)
    {
      LineIsLookup(p, mem, x);
    }
  }

  /** Drawing moves the scroll register along the row only. */
  lemma {:induction false} TilesKeepRow(p: Ppu, mem: Mem, end: nat)
    requires ValidMem(mem) && ValidPpu(p) && p.scanLine < FRAME_HEIGHT && end <= LINE_TILES
    ensures var c := DrawTiles(p, mem, end).cur; c == p.cur.(tileX := c.tileX, ntX := c.ntX)
    decreases end - p.lastTileX
  {
    hide DrawDots, ValidMem;
    if p.lastTileX < end {
      TilesKeepRow(DrawTile(p, mem), mem, end);
    }
  }

  /** Dots 256 and 257: the next line's sprites, one row down, and the column reloaded. */
  lemma TurnDone(q: Ppu, mem: Mem)
    requires ValidMem(mem) && AtRest(q) && q.scanLine < FRAME_HEIGHT && q.dot == 256
    requires q.rendToggleDot == 0 && q.Enabled()
    ensures var r := Dots(q, mem, 2);
            r == q.(lineSprites := SpriteLine(Setup(q, mem), mem), status := r.status, cur := NextLine(q), oamAddr := 0,
                    lastTileX := 0, sp0 := r.sp0, dot := 258, lastDot := 258)
  {
    hide SpriteLine, Overflows, ValidMem, Dot, EndPixels, VisibleDot;
    DotsAdd(q, mem, 1, 1);
    OneDot(q, mem);
    DotOnVisibleLine(q, mem);
    EndOfPixels(q, mem);
    var s := Dots(q, mem, 1);
    OneDot(s, mem);
    DotOnVisibleLine(s, mem);
    ColumnReload(s, mem);
  }

  lemma EndOfPixels(q: Ppu, mem: Mem)
    requires ValidMem(mem) && ValidPpu(q) && q.scanLine < FRAME_HEIGHT && q.rendToggleDot == 0 && q.Enabled()
    ensures var e := VisibleDot(q, mem, 256);
            e == q.(lineSprites := SpriteLine(Setup(q, mem), mem), status := e.status, cur := IncY(q.cur),
                    lastTileX := 0, sp0 := e.sp0)
  {
    hide SpriteLine, Overflows, Setup, IncY, ValidMem;
  }

  lemma ColumnReload(s: Ppu, mem: Mem)
    requires ValidMem(mem) && ValidPpu(s) && s.scanLine < FRAME_HEIGHT && s.rendToggleDot == 0 && s.Enabled()
    ensures VisibleDot(s, mem, 257) ==
            s.(cur := s.cur.(tileX := s.reg.tmp.tileX, ntX := s.reg.tmp.ntX), oamAddr := 0)
  {
    hide EndPixels, DrawTiles, ValidMem;
  }

  /** The rest of the line changes nothing any more. */
  lemma RestDone(r: Ppu, mem: Mem)
    requires ValidMem(mem) && AtRest(r) && r.scanLine < FRAME_HEIGHT && r.dot == 258 && r.oamAddr == 0
    ensures Dots(r, mem, 83) == r.(scanLine := r.scanLine + 1, dot := 0, lastDot := 0, rendToggleDot := 0)
  {
    hide Dot, ValidMem, ValidVram;
    SteadyDots(r, mem, ClearsOam, 321);
    var s := Dots(r, mem, 63);
    assert s == r.(dot := 321, lastDot := 321);
    SteadyDots(s, mem, Nothing, 341);
    DotsAdd(r, mem, 63, 20);
  }

  /** A line from its left edge to the next. */
  lemma OneLine(p: Ppu, mem: Mem)
    requires ValidMem(mem) && LineStart(p) && p.scanLine < FRAME_HEIGHT
    ensures var q := Dots(p, mem, DOTS_PER_LINE);
            && LineStart(q) && q.scanLine == p.scanLine + 1 && q.oamAddr == 0
            && q.reg == p.reg && q.frames == p.frames && q.cur == NextLine(p)
            && q.lineSprites == SpriteLine(Setup(p, mem), mem)
            && RowShown(p, q, mem)
  {
    hide Dots, ValidMem, RowShown, SpriteLine, IncY, ValidVram;
    PixelsDone(p, mem);
    var a := Dots(p, mem, 256);
    TurnDone(a, mem);
    var b := Dots(a, mem, 2);
    RestDone(b, mem);
    DotsAdd(a, mem, 2, 83);
    DotsAdd(p, mem, 256, 85);
    SameTurn(p, a);
    ScreenOnly(p, a, Dots(b, mem, 83), mem);
  }

  lemma SameTurn(p: Ppu, a: Ppu)
    requires ValidPpu(p) && ValidPpu(a) && a.reg == p.reg && a.cur == p.cur.(tileX := a.cur.tileX, ntX := a.cur.ntX)
    ensures NextLine(a) == NextLine(p)
  {
  }

  lemma ScreenOnly(p: Ppu, a: Ppu, q: Ppu, mem: Mem)
    requires ValidMem(mem) && ValidPpu(p) && ValidPpu(a) && ValidPpu(q) && p.scanLine < FRAME_HEIGHT
    requires RowShown(p, a, mem) && q.screen == a.screen
    ensures RowShown(p, q, mem)
  {
    hide LineDot;
  }

  // ---------------------------------------------------------------- the picture

  /** The state at the left edge of line y, from that of line 0. */
  ghost function AtLine(p: Ppu, mem: Mem, y: nat): (q: Ppu)
    requires ValidMem(mem) && AtRest(p)
    ensures AtRest(q)
  {
    Dots(p, mem, DOTS_PER_LINE * y)
  }

  /** The row of the four-screen plane a scroll register points at. */
  function Row(v: Vram): nat { 240 * v.ntY + 8 * v.tileY + v.fineY }

  /** w points y lines below v: one row a line, from the last row of one nametable to the first of the other.  A
    * register in tile row 30 or 31 first runs through the attribute bytes to the top of its own nametable.
    */
  predicate Below(v: Vram, w: Vram, y: nat) {
    if v.tileY < 30 then w.tileY < 30 && Row(w) == (Row(v) + y) % 480
    else
      var left := 256 - (8 * v.tileY + v.fineY);
      if y < left then w.tileY >= 30 && w.ntY == v.ntY && 8 * w.tileY + w.fineY == 8 * v.tileY + v.fineY + y
      else w.tileY < 30 && Row(w) == (240 * v.ntY + (y - left)) % 480
  }

  lemma BelowItself(v: Vram)
    requires ValidVram(v)
    ensures Below(v, v, 0)
  {
  }

  /** One line down is one row down. */
  lemma NextLineIsNextRow(p: Ppu, v: Vram, y: nat)
    requires ValidPpu(p) && ValidVram(v) && Below(v, p.cur, y)
    ensures Below(v, NextLine(p), y + 1)
  {
    hide NextLine, ValidPpu, Row;
    NextRow(p);
    if v.tileY < 30 {
      RowOn(Row(v) + y);
    } else if y >= 256 - (8 * v.tileY + v.fineY) {
      RowOn(240 * v.ntY + (y - (256 - (8 * v.tileY + v.fineY))));
    } else {
      RowTop(NextLine(p), v.ntY);
    }
  }

  lemma NextRow(p: Ppu)
    requires ValidPpu(p)
    ensures var v, w := p.cur, NextLine(p);
            && (v.tileY < 30 ==> w.tileY < 30 && Row(w) == (Row(v) + 1) % 480)
            && (v.tileY >= 30 && 8 * v.tileY + v.fineY < 255 ==>
                  w.tileY >= 30 && w.ntY == v.ntY && 8 * w.tileY + w.fineY == 8 * v.tileY + v.fineY + 1)
            && (8 * v.tileY + v.fineY == 255 ==> w.tileY == 0 && w.fineY == 0 && w.ntY == v.ntY)
  {
  }

  lemma RowTop(w: Vram, nt: nat)
    requires nt < 2
    ensures w.tileY == 0 && w.fineY == 0 && w.ntY == nt ==> Row(w) == 240 * nt % 480
  {
  }

  lemma RowOn(r: nat)
    ensures (r % 480 + 1) % 480 == (r + 1) % 480
  {
  }

  lemma {:induction false} LinesDone(p: Ppu, mem: Mem, y: nat)
    requires ValidMem(mem) && LineStart(p) && p.scanLine == 0 && y <= FRAME_HEIGHT
    ensures var q := AtLine(p, mem, y);
            && LineStart(q) && q.scanLine == y && q.reg == p.reg && q.frames == p.frames
            && (y == 0 ==> q == p)
            && (y > 0 ==> q.cur.tileX == p.reg.tmp.tileX && q.cur.ntX == p.reg.tmp.ntX && q.oamAddr == 0)
            && Below(p.cur, q.cur, y)
  {
    hide Dots, ValidMem, RowShown, SpriteLine, IncY, ValidVram, Below;
    if y == 0 {
      DotsNone(p, mem);
      BelowItself(p.cur);
    } else {
      LinesDone(p, mem, y - 1);
      var q := AtLine(p, mem, y - 1);
      OneLine(q, mem);
      DotsAdd(p, mem, DOTS_PER_LINE * (y - 1), DOTS_PER_LINE);
      NextLineIsNextRow(q, p.cur, y - 1);
    }
  }

  lemma DotsNone(p: Ppu, mem: Mem)
    requires ValidMem(mem) && AtRest(p)
    ensures Dots(p, mem, 0) == p
  {
  }

  /** Rows once shown stay until the next frame. */
  lemma {:induction false} RowStays(p: Ppu, mem: Mem, y: nat, z: nat, x: nat)
    requires ValidMem(mem) && LineStart(p) && p.scanLine == 0 && y < z <= FRAME_HEIGHT && x < LINE_WIDTH
    ensures LineStart(AtLine(p, mem, y)) && AtLine(p, mem, y).scanLine == y
    ensures AtLine(p, mem, z).screen[LINE_WIDTH * y + x] == LineDot(AtLine(p, mem, y), mem, x)
    decreases z
  {
    hide Dots, ValidMem, SpriteLine, LineDot, IncY, ValidVram, Below;
    LinesDone(p, mem, y);
    LinesDone(p, mem, z - 1);
    var q := AtLine(p, mem, z - 1);
    OneLine(q, mem);
    DotsAdd(p, mem, DOTS_PER_LINE * (z - 1), DOTS_PER_LINE);
    if y == z - 1 {
      assert ScreenIndex(q, x) == LINE_WIDTH * y + x;
    } else {
      RowStays(p, mem, y, z - 1, x);
      assert LINE_WIDTH * y + x < LINE_WIDTH * (z - 1);
    }
  }

  /** The scroll register a line starts with: the first line has its own column, every other one reloads it. */
  function LineScroll(p: Ppu, y: nat): Vram { if y == 0 then p.cur else p.reg.tmp }

  /** With rendering on from the left edge of line 0, the finished picture shows at (x, y) the background
    * y rows below the scroll register and x dots to the right of the scroll column, under or over the topmost
    * sprite of the line above it.
    */
  lemma PictureIsLookup(p: Ppu, mem: Mem, x: nat, y: nat)
    requires ValidMem(mem) && LineStart(p) && p.scanLine == 0 && x < LINE_WIDTH && y < FRAME_HEIGHT
    ensures var q, v := AtLine(p, mem, y), LineScroll(p, y);
            && LineStart(q) && Below(p.cur, q.cur, y) && q.reg == p.reg
            && (y == 0 ==> q.lineSprites == p.lineSprites)
            && (y > 0 ==> AtLine(p, mem, y - 1).scanLine == y - 1
                          && q.lineSprites == SpriteLine(Setup(AtLine(p, mem, y - 1), mem), mem))
            && AtLine(p, mem, FRAME_HEIGHT).screen[LINE_WIDTH * y + x] ==
               Pixel(q, mem, x, (256 * v.ntX + 8 * v.tileX + p.reg.fineX + x) % 512)
  {
    hide Dots, ValidMem, SpriteLine, Pixel, IncY, ValidVram, Below;
    LinesDone(p, mem, y);
    RowStays(p, mem, y, FRAME_HEIGHT, x);
    if y > 0 {
      LinesDone(p, mem, y - 1);
      OneLine(AtLine(p, mem, y - 1), mem);
      DotsAdd(p, mem, DOTS_PER_LINE * (y - 1), DOTS_PER_LINE);
    }
  }

  /** With the first dot after the last line the picture is handed to the backend. */
  lemma PictureHandedOver(p: Ppu, mem: Mem)
    requires ValidMem(mem) && LineStart(p) && p.scanLine == 0
    ensures Dots(p, mem, DOTS_PER_LINE * FRAME_HEIGHT + 1).frames == p.frames + [AtLine(p, mem, FRAME_HEIGHT).screen]
  {
    hide Dots, ValidMem, ValidVram, Below, VisibleDot, PreRenderDot;
    LinesDone(p, mem, FRAME_HEIGHT);
    DotsAdd(p, mem, DOTS_PER_LINE * FRAME_HEIGHT, 1);
    OneDot(AtLine(p, mem, FRAME_HEIGHT), mem);
  }

  // ------------------------------------------------------------ the pre-render line

  /** The picture unit at the left edge of the pre-render line, rendering on. */
  ghost predicate FrameStart(q: Ppu) {
    && AtRest(q) && q.scanLine == PRE_RENDER_LINE && q.dot == 0
    && q.lastTileX == 0 && q.rendToggleDot == 0 && q.Enabled()
  }

  function AtDot(p: Ppu, d: nat): (q: Ppu)
    ensures ValidPpu(p) ==> ValidPpu(q)
  {
    p.(dot := d, lastDot := d)
  }

  /** The first 257 dots clear the flags and the sprite line. */
  lemma FlagsCleared(q: Ppu, mem: Mem)
    requires ValidMem(mem) && FrameStart(q)
    ensures Dots(q, mem, 257) ==
            AtDot(q, 257).(status := q.status.(vblank := false, sprite0 := false, overflow := false),
                           lineSprites := EmptyLine())
  {
    hide Dots, ValidMem, ValidVram, VisibleDot;
    SteadyDots(q, mem, Nothing, 1);
    var r := Dots(q, mem, 1);
    OneDot(r, mem);
    DotsAdd(q, mem, 1, 1);
    var s := Dots(q, mem, 2);
    SteadyDots(s, mem, Nothing, 257);
    DotsAdd(q, mem, 2, 255);
  }

  /** The next 64 load the scroll register: column first, rows later. */
  lemma ScrollLoaded(r: Ppu, mem: Mem)
    requires ValidMem(mem) && AtRest(r) && r.scanLine == PRE_RENDER_LINE && r.dot == 257 && r.Enabled()
    ensures Dots(r, mem, 64) == AtDot(r, 321).(cur := r.reg.tmp, oamAddr := 0)
  {
    hide Dots, ValidMem, ValidVram, VisibleDot;
    OneDot(r, mem);
    var s := Dots(r, mem, 1);
    SteadyDots(s, mem, ClearsOam, 280);
    DotsAdd(r, mem, 1, 22);
    var t := Dots(r, mem, 23);
    SteadyDots(t, mem, CopiesY, 305);
    DotsAdd(r, mem, 23, 25);
    var u := Dots(r, mem, 48);
    SteadyDots(u, mem, ClearsOam, 321);
    DotsAdd(r, mem, 48, 16);
  }

  /** Dots of the pre-render line. */
  function PreRenderDots(q: Ppu): nat { if q.oddFrame then DOTS_PER_LINE - 1 else DOTS_PER_LINE }

  lemma LineEnded(r: Ppu, mem: Mem)
    requires ValidMem(mem) && AtRest(r) && r.scanLine == PRE_RENDER_LINE && r.dot == 321 && r.Enabled()
    requires r.rendToggleDot == 0
    ensures Dots(r, mem, PreRenderDots(r) - 321) == AtDot(r, 0).(scanLine := VBLANK_END)
  {
    hide Dots, ValidMem, ValidVram, VisibleDot;
    SteadyDots(r, mem, Nothing, 338);
    var s := Dots(r, mem, 17);
    OneDot(s, mem);
    DotsAdd(r, mem, 17, 1);
    var t := Dots(r, mem, 18);
    SteadyDots(t, mem, Nothing, DOTS_PER_LINE);
    DotsAdd(r, mem, 18, DOTS_PER_LINE - t.dot);
  }

  /** The picture unit at the left edge of line 0, from that of the pre-render line. */
  ghost function FirstLine(q: Ppu, mem: Mem): Ppu
    requires ValidMem(mem) && AtRest(q)
  {
    NewFrame(Dots(q, mem, PreRenderDots(q)))
  }

  /** With rendering on the pre-render line ends with the scroll position loaded and no sprites. */
  lemma PreRenderDone(q: Ppu, mem: Mem)
    requires ValidMem(mem) && FrameStart(q)
    ensures var p := FirstLine(q, mem);
            && LineStart(p) && p.scanLine == 0 && p.cur == q.reg.tmp && p.reg == q.reg && p.oamAddr == 0
            && p.lineSprites == EmptyLine() && p.frames == q.frames
    ensures Dots(q, mem, PreRenderDots(q)) == FirstLine(q, mem).(scanLine := VBLANK_END, oddFrame := q.oddFrame)
  {
    hide Dots, ValidMem, ValidVram;
    FlagsCleared(q, mem);
    var r := Dots(q, mem, 257);
    ScrollLoaded(r, mem);
    DotsAdd(q, mem, 257, 64);
    var s := Dots(q, mem, 321);
    LineEnded(s, mem);
    DotsAdd(q, mem, 321, PreRenderDots(q) - 321);
  }

  /** The end of the pre-render line and the left edge of line 0 are one place. */
  lemma {:induction false} SamePlaceOn(r: Ppu, mem: Mem, k: nat)
    requires ValidMem(mem) && AtRest(r) && AtRest(NewFrame(r)) && k > 0
    ensures Dots(r, mem, k) == Dots(NewFrame(r), mem, k)
  {
    hide Act, ValidMem, ValidPpu;
    if k == 1 {
      DotsNone(r, mem);
      DotsNone(NewFrame(r), mem);
    } else {
      SamePlaceOn(r, mem, k - 1);
    }
  }

  /** From the left edge of the pre-render line to the frame the backend gets: at (x, y) it shows the background y rows
    * below and x dots to the right of the scroll position written before, with the sprites of the line above.
    */
  lemma FrameIsPicture(q: Ppu, mem: Mem, x: nat, y: nat)
    requires ValidMem(mem) && FrameStart(q) && x < LINE_WIDTH && y < FRAME_HEIGHT
    ensures var p := FirstLine(q, mem);
            var r := AtLine(p, mem, y);
            var frames := Dots(q, mem, PreRenderDots(q) + (DOTS_PER_LINE * FRAME_HEIGHT + 1)).frames;
            && LineStart(p) && LineStart(r) && Below(q.reg.tmp, r.cur, y)
            && |frames| == |q.frames| + 1 && q.frames == frames[..|q.frames|]
            && |frames[|q.frames|]| == LINE_WIDTH * FRAME_HEIGHT
            && frames[|q.frames|][LINE_WIDTH * y + x] ==
               Pixel(r, mem, x, (256 * q.reg.tmp.ntX + 8 * q.reg.tmp.tileX + q.reg.fineX + x) % 512)
  {
    hide Dots, ValidMem, Pixel, ValidVram, Below;
    PreRenderDone(q, mem);
    var p, n := FirstLine(q, mem), PreRenderDots(q);
    PictureIsLookup(p, mem, x, y);
    PictureHandedOver(p, mem);
    DotsAdd(q, mem, n, DOTS_PER_LINE * FRAME_HEIGHT + 1);
    SamePlaceOn(Dots(q, mem, n), mem, DOTS_PER_LINE * FRAME_HEIGHT + 1);
  }
}
