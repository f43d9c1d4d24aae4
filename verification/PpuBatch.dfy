/** Why the picture unit may take a stage of a line at once.
  */
module PpuBatch {
  import opened Common
  import opened PpuTypes
  import opened PpuTiles
  import opened PpuLine
  import opened PpuSprites
  import opened PpuReference

  // --------------------------------------------------- catching up with the counter

  /** The source's state while it catches up: the counter is ahead of the dots carried out. */
  ghost predicate Behind(v: Ppu) {
    && ValidPpu(v) && v.scanLine <= VBLANK_END && v.lastDot <= v.dot
    && (v.lastDot >= DOTS_PER_LINE ==> v.lastDot == v.dot && v.scanLine < VBLANK_END)
    && (v.scanLine == VBLANK_END ==> v.lastDot == 0)
  }

  /** The picture unit as far as it has got. */
  ghost function Norm(v: Ppu): (p: Ppu)
    requires Behind(v)
    ensures AtRest(p)
  {
    hide ValidPpu;
    MoveTo(v, v.lastDot)
  }

  /** The dots it still owes. */
  ghost function Left(v: Ppu): nat
    requires Behind(v)
  {
    if v.lastDot < DOTS_PER_LINE then v.dot - v.lastDot else v.dot - DOTS_PER_LINE
  }

  /** Where it will be when it has caught up; every step of the loops keeps this. */
  ghost function Goal(v: Ppu, mem: Mem): Ppu
    requires ValidMem(mem) && Behind(v)
  {
    Dots(Norm(v), mem, Left(v))
  }

  /** Carrying out the dots from lastDot to some later one keeps the goal. */
  lemma StagePaid(v: Ppu, w: Ppu, mem: Mem)
    requires ValidMem(mem) && Behind(v) && Behind(w) && v.lastDot < DOTS_PER_LINE
    requires Left(w) <= Left(v)
    requires Norm(w) == Dots(Norm(v), mem, Left(v) - Left(w))
    ensures Goal(w, mem) == Goal(v, mem)
  {
    hide Norm, Left, Behind, ValidMem, AtRest, Dot;
    DotsAdd(Norm(v), mem, Left(v) - Left(w), Left(w));
  }

  // ------------------------------------------------------------- steady stretches

  /** Dots whose action is the same for the whole stretch and can be repeated at no cost. */
  datatype Steady = Nothing | ClearsOam | CopiesY | Single

  function Kind(scanLine: nat, d: nat): Steady {
    if scanLine < FRAME_HEIGHT then
      if 258 <= d <= 320 then ClearsOam else if d > 320 then Nothing else Single
    else if scanLine == POST_RENDER_LINE then
      if d == 0 then Single else Nothing
    else if scanLine == VBLANK_LINE then
      if d == 1 then Single else Nothing
    else if scanLine == PRE_RENDER_LINE then
      if d == 1 || d == 257 || d == 338 then Single
      else if 280 <= d <= 304 then CopiesY
      else if 258 <= d <= 320 then ClearsOam
      else Nothing
    else Nothing
  }

  function Apply(kind: Steady, p: Ppu): (q: Ppu)
    ensures q == p.(cur := q.cur, oamAddr := q.oamAddr)
  {
    match kind
    case ClearsOam => ClearOamAddr(p)
    case CopiesY => AssignY(p, p.Enabled())
    case _ => p
  }

  lemma SteadyVisible(p: Ppu, mem: Mem, d: nat)
    requires ValidMem(mem) && ValidPpu(p) && p.scanLine < FRAME_HEIGHT && 258 <= d < DOTS_PER_LINE
    ensures VisibleDot(p, mem, d) == Apply(Kind(p.scanLine, d), p)
  {
    hide DrawTiles, SpriteLine, Overflows, Backdrop, Setup, ValidMem;
  }

  lemma SteadyPreRender(p: Ppu, d: nat)
    requires ValidPpu(p) && p.scanLine == PRE_RENDER_LINE && d < DOTS_PER_LINE
    requires Kind(p.scanLine, d) != Single
    ensures PreRenderDot(p, d) == Apply(Kind(p.scanLine, d), p)
  {
  }

  lemma SteadyAct(p: Ppu, mem: Mem)
    requires ValidMem(mem) && AtRest(p) && p.scanLine < VBLANK_END
    requires Kind(p.scanLine, p.dot) != Single
    ensures Act(p, mem) == Apply(Kind(p.scanLine, p.dot), p)
  {
    hide VisibleDot, PreRenderDot, ValidMem;
    if p.scanLine < FRAME_HEIGHT {
      SteadyVisible(p, mem, p.dot);
    } else if p.scanLine == PRE_RENDER_LINE {
      SteadyPreRender(p, p.dot);
    }
  }

  lemma SteadyDot(p: Ppu, mem: Mem)
    requires ValidMem(mem) && AtRest(p) && p.scanLine < VBLANK_END
    requires Kind(p.scanLine, p.dot) != Single
    ensures Dot(p, mem) == MoveTo(Apply(Kind(p.scanLine, p.dot), p), p.dot + 1)
  {
    hide Act, Apply, ValidMem;
    SteadyAct(p, mem);
  }

  lemma ApplyMoves(kind: Steady, p: Ppu, d: nat)
    requires d < DOTS_PER_LINE
    ensures Apply(kind, MoveTo(p, d)) == MoveTo(Apply(kind, p), d)
  {
    match kind
    case ClearsOam =>
    case CopiesY =>
    case _ =>
  }

  lemma ApplyTwice(kind: Steady, p: Ppu)
    ensures Apply(kind, Apply(kind, p)) == Apply(kind, p)
  {
  }

  lemma ApplyValid(kind: Steady, p: Ppu)
    requires ValidPpu(p)
    ensures ValidPpu(Apply(kind, p))
  {
  }

  /** A stretch of one kind, carried out at once. */
  lemma {:induction false} SteadyDots(p: Ppu, mem: Mem, kind: Steady, hi: nat)
    requires ValidMem(mem) && AtRest(p) && p.scanLine < VBLANK_END && kind != Single
    requires p.dot < hi <= DOTS_PER_LINE
    requires forall d | p.dot <= d < hi :: Kind(p.scanLine, d) == kind
    ensures Dots(p, mem, hi - p.dot) == MoveTo(Apply(kind, p), hi)
    decreases hi
  {
    hide Dot, Apply, Kind, ValidMem, ValidVram;
    if hi == p.dot + 1 {
      SteadyDot(p, mem);
      assert Dots(p, mem, 0) == p;
    } else {
      SteadyDots(p, mem, kind, hi - 1);
      ApplyValid(kind, p);
      ApplyTwice(kind, p);
      var q := MoveTo(Apply(kind, p), hi - 1);
      SteadyDot(q, mem);
      ApplyMoves(kind, Apply(kind, p), hi - 1);
      MoveTwice(Apply(kind, p), hi - 1, hi);
    }
  }

  lemma MoveTwice(p: Ppu, d: nat, e: nat)
    requires d < DOTS_PER_LINE
    ensures MoveTo(MoveTo(p, d), e) == MoveTo(p, e)
  {
  }

  lemma OneDot(p: Ppu, mem: Mem)
    requires ValidMem(mem) && AtRest(p)
    ensures Dots(p, mem, 1) == Dot(p, mem)
  {
    hide Dot;
    assert Dots(p, mem, 0) == p;
  }

  // ------------------------------------------------------------ the visible pixels

  lemma {:induction false} TilesKeepHit(p: Ppu, mem: Mem, end: nat)
    requires ValidMem(mem) && ValidPpu(p) && p.scanLine < FRAME_HEIGHT && end <= LINE_TILES
    requires p.sp0.hit
    ensures var q := DrawTiles(p, mem, end);
            && q.sp0 == p.sp0
            && DrawTiles(p.WithSprite0(), mem, end) == q.WithSprite0()
    decreases end - p.lastTileX
  {
    hide DrawDots, ValidMem;
    if p.lastTileX < end {
      DotsKeepHit(p, mem, 8);
      TilesKeepHit(DrawTile(p, mem), mem, end);
    }
  }

  lemma {:induction false} DotsKeepHit(p: Ppu, mem: Mem, dots: nat)
    requires ValidMem(mem) && ValidPpu(p) && p.scanLine < FRAME_HEIGHT
    requires p.lastTileX < LINE_TILES && dots <= 8 && p.sp0.hit
    ensures var q := DrawDots(p, mem, dots);
            && q.sp0 == p.sp0
            && DrawDots(p.WithSprite0(), mem, dots) == q.WithSprite0()
  {
    hide DrawDot, ColumnAt, ValidMem;
    if dots > 0 {
      DotsKeepHit(p, mem, dots - 1);
      var x := 8 * p.lastTileX + dots - 1;
      ColumnIgnoresFlag(p, x);
      DotIgnoresFlag(DrawDots(p, mem, dots - 1), mem, x, ColumnAt(p, x));
    }
  }

  lemma ColumnIgnoresFlag(p: Ppu, x: nat)
    requires ValidPpu(p)
    ensures ColumnAt(p.WithSprite0(), x) == ColumnAt(p, x)
  {
  }

  lemma DotIgnoresFlag(p: Ppu, mem: Mem, x: nat, col: nat)
    requires ValidMem(mem) && ValidPpu(p) && p.scanLine < FRAME_HEIGHT && x < LINE_WIDTH && col < 512
    requires p.sp0.hit
    ensures DrawDot(p.WithSprite0(), mem, x, col) == DrawDot(p, mem, x, col).WithSprite0()
    ensures DrawDot(p, mem, x, col).sp0 == p.sp0
  {
    hide Pixel, HitAt, ValidMem;
    PixelOfLine(p, p.WithSprite0(), mem, x, col);
  }

  /** A new hit lies in a tile that was still to be drawn. */
  lemma TilesHitAhead(p: Ppu, mem: Mem, end: nat)
    requires ValidMem(mem) && ValidPpu(p) && p.scanLine < FRAME_HEIGHT && end <= LINE_TILES
    requires !p.sp0.hit && DrawTiles(p, mem, end).sp0.hit
    ensures p.lastTileX < end && 8 * p.lastTileX <= DrawTiles(p, mem, end).sp0.x
  {
    hide HitAt, Pixel, ColumnAt;
    if p.lastTileX < end {
      TilesDrawn(p, mem, end);
    }
  }

  lemma {:induction false} DotsDrawnAnywhere(p: Ppu, mem: Mem, dots: nat, d: nat)
    requires ValidMem(mem) && ValidPpu(p) && p.scanLine < FRAME_HEIGHT && d < DOTS_PER_LINE
    requires p.lastTileX < LINE_TILES && dots <= 8
    ensures DrawDots(MoveTo(p, d), mem, dots) == MoveTo(DrawDots(p, mem, dots), d)
  {
    hide ColumnAt, DrawDot, ValidMem;
    if dots > 0 {
      var x := 8 * p.lastTileX + dots - 1;
      DotsDrawnAnywhere(p, mem, dots - 1, d);
      ColumnAnywhere(p, x, d);
      DotDrawnAnywhere(DrawDots(p, mem, dots - 1), mem, x, ColumnAt(p, x), d);
    }
  }

  lemma ColumnAnywhere(p: Ppu, x: nat, d: nat)
    requires ValidPpu(p) && d < DOTS_PER_LINE
    ensures ColumnAt(MoveTo(p, d), x) == ColumnAt(p, x)
  {
  }

  lemma DotDrawnAnywhere(p: Ppu, mem: Mem, x: nat, col: nat, d: nat)
    requires ValidMem(mem) && ValidPpu(p) && p.scanLine < FRAME_HEIGHT
    requires x < LINE_WIDTH && col < 512 && d < DOTS_PER_LINE
    ensures DrawDot(MoveTo(p, d), mem, x, col) == MoveTo(DrawDot(p, mem, x, col), d)
  {
    hide Pixel, HitAt, ValidMem;
    PixelOfLine(p, MoveTo(p, d), mem, x, col);
  }

  lemma {:induction false} TilesDrawnAnywhere(p: Ppu, mem: Mem, end: nat, d: nat)
    requires ValidMem(mem) && ValidPpu(p) && p.scanLine < FRAME_HEIGHT && end <= LINE_TILES && d < DOTS_PER_LINE
    ensures DrawTiles(MoveTo(p, d), mem, end) == MoveTo(DrawTiles(p, mem, end), d)
    decreases end - p.lastTileX
  {
    hide DrawDots, ValidMem;
    if p.lastTileX < end {
      DotsDrawnAnywhere(p, mem, 8, d);
      TilesDrawnAnywhere(DrawTile(p, mem), mem, end, d);
    }
  }

  /** With rendering off the line shows the backdrop. */
  function BackdropRun(p: Ppu, mem: Mem, lo: nat, hi: nat): (q: Ppu)
    requires ValidMem(mem) && ValidPpu(p) && p.scanLine < FRAME_HEIGHT && lo <= hi <= LINE_WIDTH
    ensures ValidPpu(q) && q == p.(screen := q.screen)
    decreases hi
  {
    if lo == hi then p
    else PutPixel(BackdropRun(p, mem, lo, hi - 1), hi - 1, Backdrop(p, mem))
  }

  /** render.c:464-482: a stretch of visible dots drawn at once, tiles two ahead. */
  function Stretch(p: Ppu, mem: Mem, lo: nat, hi: nat): (q: Ppu)
    requires ValidMem(mem) && ValidPpu(p) && p.scanLine < FRAME_HEIGHT && lo <= hi <= LINE_WIDTH
    ensures ValidPpu(q)
    ensures q == p.(screen := q.screen, sp0 := q.sp0, cur := q.cur, lastTileX := q.lastTileX, status := q.status)
  {
    hide DrawTiles, BackdropRun, NoteHit;
    NoteHit(if p.RenderingAt(lo) then DrawTiles(p, mem, TilesBy(hi)) else BackdropRun(p, mem, lo, hi),
            lo, hi)
  }

  lemma StretchTiles(p: Ppu, mem: Mem, lo: nat, hi: nat)
    requires ValidMem(mem) && ValidPpu(p) && p.scanLine < FRAME_HEIGHT && lo < hi < LINE_WIDTH
    requires p.RenderingAt(lo)
    ensures NoteHit(DrawTiles(Stretch(p, mem, lo, hi), mem, TilesBy(hi + 1)), hi, hi + 1)
            == NoteHit(DrawTiles(p, mem, TilesBy(hi + 1)), lo, hi + 1)
  {
    hide DrawTiles, ValidMem;
    var e, e' := TilesBy(hi), TilesBy(hi + 1);
    var q := DrawTiles(p, mem, e);
    var r := DrawTiles(p, mem, e');
    DrawTilesAdds(p, mem, e, e');
    if q.sp0.hit {
      TilesKeepHit(q, mem, e');
    } else if r.sp0.hit {
      TilesHitAhead(q, mem, e');
      assert 8 * e >= hi;
    }
  }

  /** Dot by dot the stretch comes out the same. */
  lemma {:induction false} StretchDots(p: Ppu, mem: Mem, hi: nat)
    requires ValidMem(mem) && AtRest(p) && p.scanLine < FRAME_HEIGHT && p.dot < hi <= LINE_WIDTH
    requires forall d | p.dot <= d < hi :: p.RenderingAt(d) == p.RenderingAt(p.dot)
    ensures Dots(p, mem, hi - p.dot) == MoveTo(Stretch(p, mem, p.dot, hi), hi)
    decreases hi
  {
    hide DrawTiles, ValidMem, Dot, BackdropRun, NoteHit;
    var lo := p.dot;
    if hi == lo + 1 {
      OneDot(p, mem);
      StretchOfOne(p, mem);
    } else {
      StretchDots(p, mem, hi - 1);
      StretchGrows(p, mem, lo, hi - 1);
    }
  }

  lemma StretchOfOne(p: Ppu, mem: Mem)
    requires ValidMem(mem) && AtRest(p) && p.scanLine < FRAME_HEIGHT && p.dot < LINE_WIDTH
    ensures Dot(p, mem) == MoveTo(Stretch(p, mem, p.dot, p.dot + 1), p.dot + 1)
  {
    hide DrawTiles, ValidMem, Backdrop, VisibleDot, Dot, NoteHit, PutPixel;
    DotOnVisibleLine(p, mem);
    VisiblePixel(p, mem, p.dot);
    assert BackdropRun(p, mem, p.dot, p.dot) == p;
  }

  lemma StretchGrows(p: Ppu, mem: Mem, lo: nat, hi: nat)
    requires ValidMem(mem) && ValidPpu(p) && p.scanLine < FRAME_HEIGHT && lo < hi < LINE_WIDTH
    requires p.RenderingAt(hi) == p.RenderingAt(lo)
    ensures Dot(MoveTo(Stretch(p, mem, lo, hi), hi), mem) == MoveTo(Stretch(p, mem, lo, hi + 1), hi + 1)
  {
    hide DrawTiles, ValidMem, Backdrop, PutPixel, NoteHit, Stretch, VisibleDot, Dot;
    StretchKeepsToggle(p, mem, lo, hi);
    var q := MoveTo(Stretch(p, mem, lo, hi), hi);
    if p.RenderingAt(lo) {
      StretchRendered(p, mem, lo, hi);
    } else {
      StretchBackdrop(p, mem, lo, hi);
    }
    VisiblePixel(q, mem, hi);
    DotOnVisibleLine(q, mem);
    MoveTwice(Stretch(p, mem, lo, hi + 1), hi, hi + 1);
  }

  lemma VisiblePixel(p: Ppu, mem: Mem, d: nat)
    requires ValidMem(mem) && ValidPpu(p) && p.scanLine < FRAME_HEIGHT && d < LINE_WIDTH
    ensures VisibleDot(p, mem, d) ==
            NoteHit(if p.RenderingAt(d) then DrawTiles(p, mem, TilesBy(d + 1)) else PutPixel(p, d, Backdrop(p, mem)),
                    d, d + 1)
  {
    hide DrawTiles, SpriteLine, Overflows, Backdrop, PutPixel, NoteHit;
  }

  lemma StretchKeepsToggle(p: Ppu, mem: Mem, lo: nat, hi: nat)
    requires ValidMem(mem) && ValidPpu(p) && p.scanLine < FRAME_HEIGHT && lo < hi < LINE_WIDTH
    ensures forall d: nat :: MoveTo(Stretch(p, mem, lo, hi), hi).RenderingAt(d) == p.RenderingAt(d)
    ensures Stretch(p, mem, lo, hi).scanLine == p.scanLine
  {
    hide Stretch, ValidPpu, ValidMem;
  }

  lemma StretchRendered(p: Ppu, mem: Mem, lo: nat, hi: nat)
    requires ValidMem(mem) && ValidPpu(p) && p.scanLine < FRAME_HEIGHT && lo < hi < LINE_WIDTH
    requires p.RenderingAt(lo)
    ensures var q := MoveTo(Stretch(p, mem, lo, hi), hi);
            NoteHit(DrawTiles(q, mem, TilesBy(hi + 1)), hi, hi + 1) == MoveTo(Stretch(p, mem, lo, hi + 1), hi)
  {
    hide DrawTiles, ValidMem, TilesBy;
    var s := Stretch(p, mem, lo, hi);
    StretchTiles(p, mem, lo, hi);
    TilesDrawnAnywhere(s, mem, TilesBy(hi + 1), hi);
  }

  lemma StretchBackdrop(p: Ppu, mem: Mem, lo: nat, hi: nat)
    requires ValidMem(mem) && ValidPpu(p) && p.scanLine < FRAME_HEIGHT && lo < hi < LINE_WIDTH
    requires !p.RenderingAt(lo)
    ensures var q := MoveTo(Stretch(p, mem, lo, hi), hi);
            NoteHit(PutPixel(q, hi, Backdrop(q, mem)), hi, hi + 1) == MoveTo(Stretch(p, mem, lo, hi + 1), hi)
  {
    hide ValidMem, Shown, NoteHit, PutPixel;
    var b := BackdropRun(p, mem, lo, hi);
    assert Stretch(p, mem, lo, hi) == NoteHit(b, lo, hi);
    NoteHitSplits(b, Backdrop(p, mem), lo, hi);
    BackdropSame(p, MoveTo(NoteHit(b, lo, hi), hi), mem);
  }

  lemma NoteHitSplits(b: Ppu, color: u8, lo: nat, hi: nat)
    requires ValidPpu(b) && b.scanLine < FRAME_HEIGHT && lo < hi < LINE_WIDTH
    ensures ValidPpu(NoteHit(b, lo, hi)) && NoteHit(b, lo, hi).reg.greyscale == b.reg.greyscale
    ensures NoteHit(PutPixel(MoveTo(NoteHit(b, lo, hi), hi), hi, color), hi, hi + 1)
            == MoveTo(NoteHit(PutPixel(b, hi, color), lo, hi + 1), hi)
  {
  }

  lemma BackdropSame(p: Ppu, q: Ppu, mem: Mem)
    requires ValidMem(mem) && q.reg.greyscale == p.reg.greyscale
    ensures Backdrop(q, mem) == Backdrop(p, mem)
  {
  }
}
