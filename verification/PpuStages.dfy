/** Each stage of the source's line loops pays for exactly the dots it passes.
  *
  * v is the object before a stage and w after it; in both the dot counter is ahead of lastDot.
  */
module PpuStages {
  import opened Common
  import opened PpuTypes
  import opened PpuTiles
  import opened PpuSprites
  import opened PpuReference
  import opened PpuBatch

  /** The stage is behind its counter and keeps the goal. */
  ghost predicate Paid(v: Ppu, w: Ppu, mem: Mem)
    requires ValidMem(mem) && Behind(v)
  {
    Behind(w) && Left(w) < Left(v) && Goal(w, mem) == Goal(v, mem)
  }

  lemma PaidTwice(u: Ppu, v: Ppu, w: Ppu, mem: Mem)
    requires ValidMem(mem) && Behind(u) && Paid(u, v, mem) && Paid(v, w, mem)
    ensures Paid(u, w, mem)
  {
  }

  /** Where a stage that ends at dot hi leaves lastDot: the end of the line is passed in one go. */
  ghost predicate Reaches(w: Ppu, hi: nat) {
    if hi < DOTS_PER_LINE then w.lastDot == hi <= w.dot
    else hi == DOTS_PER_LINE <= w.dot && w.lastDot == w.dot && w.scanLine < VBLANK_END
  }

  lemma StagePays(v: Ppu, w: Ppu, mem: Mem, hi: nat)
    requires ValidMem(mem) && Behind(v) && ValidPpu(w) && Reaches(w, hi)
    requires v.lastDot < hi && w.dot == v.dot && w.scanLine < VBLANK_END
    requires Dots(Norm(v), mem, hi - v.lastDot) == MoveTo(w, hi)
    ensures Paid(v, w, mem)
  {
    hide ValidPpu, ValidMem, Dots;
    assert MoveTo(w, hi) == Norm(w);
    StagePaid(v, w, mem);
  }

  lemma SteadyStage(v: Ppu, w: Ppu, mem: Mem, kind: Steady, hi: nat)
    requires ValidMem(mem) && Behind(v) && v.scanLine < VBLANK_END && kind != Single
    requires v.lastDot < hi <= DOTS_PER_LINE && Reaches(w, hi)
    requires forall d | v.lastDot <= d < hi :: Kind(v.scanLine, d) == kind
    requires w == Apply(kind, v).(lastDot := w.lastDot)
    ensures Paid(v, w, mem)
  {
    hide ValidMem, Apply, Kind, Dots, Paid, ValidPpu;
    SteadyDots(Norm(v), mem, kind, hi);
    ApplyMoves(kind, v, v.lastDot);
    ApplyValid(kind, v);
    StillValid(Apply(kind, v), w);
    MoveTwice(Apply(kind, v), v.lastDot, hi);
    MoveIgnoresPosition(Apply(kind, v), w, hi);
    StagePays(v, w, mem, hi);
  }

  lemma StillValid(p: Ppu, w: Ppu)
    requires ValidPpu(p) && w == p.(lastDot := w.lastDot)
    ensures ValidPpu(w)
  {
  }

  lemma MoveIgnoresPosition(p: Ppu, w: Ppu, hi: nat)
    requires w == p.(lastDot := w.lastDot)
    requires hi < DOTS_PER_LINE || hi == DOTS_PER_LINE
    ensures MoveTo(w, hi) == MoveTo(p, hi)
  {
  }

  // --------------------------------------------------------------- visible lines

  lemma StretchAnywhere(p: Ppu, mem: Mem, lo: nat, hi: nat, d: nat)
    requires ValidMem(mem) && ValidPpu(p) && p.scanLine < FRAME_HEIGHT && lo <= hi <= LINE_WIDTH
    requires d < DOTS_PER_LINE
    ensures Stretch(MoveTo(p, d), mem, lo, hi) == MoveTo(Stretch(p, mem, lo, hi), d)
  {
    hide DrawTiles, BackdropRun, ValidMem, TilesBy, NoteHit;
    TilesDrawnAnywhere(p, mem, TilesBy(hi), d);
    BackdropAnywhere(p, mem, lo, hi, d);
    NoteHitAnywhere(if p.RenderingAt(lo) then DrawTiles(p, mem, TilesBy(hi)) else BackdropRun(p, mem, lo, hi),
                    lo, hi, d);
  }

  lemma NoteHitAnywhere(p: Ppu, lo: nat, hi: nat, d: nat)
    requires d < DOTS_PER_LINE
    ensures NoteHit(MoveTo(p, d), lo, hi) == MoveTo(NoteHit(p, lo, hi), d)
  {
  }

  lemma {:induction false} BackdropAnywhere(p: Ppu, mem: Mem, lo: nat, hi: nat, d: nat)
    requires ValidMem(mem) && ValidPpu(p) && p.scanLine < FRAME_HEIGHT && lo <= hi <= LINE_WIDTH
    requires d < DOTS_PER_LINE
    ensures BackdropRun(MoveTo(p, d), mem, lo, hi) == MoveTo(BackdropRun(p, mem, lo, hi), d)
    decreases hi
  {
    hide ValidMem, Shown;
    if lo < hi {
      BackdropAnywhere(p, mem, lo, hi - 1, d);
    }
  }

  /** render.c:464-483. */
  lemma PixelStage(v: Ppu, w: Ppu, mem: Mem, hi: nat)
    requires ValidMem(mem) && Behind(v) && v.scanLine < FRAME_HEIGHT
    requires v.lastDot < hi <= LINE_WIDTH && hi <= v.dot
    requires v.rendToggleDot == 0 || v.lastDot >= v.rendToggleDot + TOGGLE_DELAY
             || hi <= v.rendToggleDot + TOGGLE_DELAY
    requires w == Stretch(v, mem, v.lastDot, hi).(lastDot := hi)
    ensures Paid(v, w, mem)
  {
    hide ValidMem, Stretch, Dots, Paid, ValidPpu, Goal, Left, Norm, MoveTo;
    var lo := v.lastDot;
    NormOnLine(v, hi);
    StretchDots(Norm(v), mem, hi);
    StretchAnywhere(v, mem, lo, hi, lo);
    MoveTwice(Stretch(v, mem, lo, hi), lo, hi);
    StillValid(Stretch(v, mem, lo, hi), w);
    MoveIgnoresPosition(Stretch(v, mem, lo, hi), w, hi);
    StagePays(v, w, mem, hi);
  }

  lemma NormOnLine(v: Ppu, hi: nat)
    requires Behind(v) && v.lastDot < DOTS_PER_LINE && v.scanLine < FRAME_HEIGHT
    requires v.rendToggleDot == 0 || v.lastDot >= v.rendToggleDot + TOGGLE_DELAY
             || hi <= v.rendToggleDot + TOGGLE_DELAY
    ensures var p := Norm(v);
            && p == MoveTo(v, v.lastDot) && p.dot == v.lastDot && p.scanLine == v.scanLine && AtRest(p)
            && forall d | v.lastDot <= d < hi :: p.RenderingAt(d) == p.RenderingAt(v.lastDot)
  {
    hide ValidPpu;
  }

  lemma EndPixelsAnywhere(p: Ppu, q: Ppu, mem: Mem)
    requires ValidMem(mem) && ValidPpu(p) && ValidPpu(q) && p.scanLine < FRAME_HEIGHT
    requires q == p.(dot := q.dot, lastDot := q.lastDot)
    ensures EndPixels(q, mem) == EndPixels(p, mem).(dot := q.dot, lastDot := q.lastDot)
  {
    hide SpriteLine, Overflows, ValidMem, IncY, ValidVram;
    assert Setup(q, mem) == Setup(p, mem);
  }

  lemma SingleDotAnywhere(p: Ppu, mem: Mem, d: nat)
    requires ValidMem(mem) && ValidPpu(p) && p.scanLine < FRAME_HEIGHT && 256 <= d <= 257
    ensures VisibleDot(MoveTo(p, d), mem, d) == MoveTo(VisibleDot(p, mem, d), d)
  {
    hide EndPixels, ValidMem, ValidVram;
    if d == 256 {
      EndPixelsAnywhere(p, MoveTo(p, d), mem);
    }
  }

  /** render.c:485-505: the two dots between the pixels and the sprite fetches. */
  lemma TurnStage(v: Ppu, w: Ppu, mem: Mem)
    requires ValidMem(mem) && Behind(v) && v.scanLine < FRAME_HEIGHT
    requires 256 <= v.lastDot <= 257 && v.lastDot < v.dot
    requires w == VisibleDot(v, mem, v.lastDot).(lastDot := v.lastDot + 1)
    requires w.dot == v.dot
    ensures Paid(v, w, mem)
  {
    hide ValidMem, VisibleDot, Dot, Dots, Paid, ValidPpu, Goal, Left;
    var d := v.lastDot;
    OneDot(Norm(v), mem);
    DotOnVisibleLine(Norm(v), mem);
    SingleDotAnywhere(v, mem, d);
    MoveTwice(VisibleDot(v, mem, d), d, d + 1);
    StillValid(VisibleDot(v, mem, d), w);
    MoveIgnoresPosition(VisibleDot(v, mem, d), w, d + 1);
    StagePays(v, w, mem, d + 1);
  }

  /** A stretch in which OAMADDR is held at zero up to dot 320. */
  lemma ClearStage(v: Ppu, w: Ppu, mem: Mem, hi: nat)
    requires ValidMem(mem) && Behind(v) && v.scanLine < VBLANK_END
    requires v.lastDot < hi <= DOTS_PER_LINE && Reaches(w, hi)
    requires forall d | v.lastDot <= d < hi :: Kind(v.scanLine, d) == if d <= 320 then ClearsOam else Nothing
    requires w == (if v.lastDot <= 320 then ClearOamAddr(v) else v).(lastDot := w.lastDot)
    ensures Paid(v, w, mem)
  {
    hide ValidMem, ValidPpu, Paid, Kind, Goal, Left;
    if v.lastDot > 320 {
      SteadyStage(v, w, mem, Nothing, hi);
    } else if hi <= 321 {
      SteadyStage(v, w, mem, ClearsOam, hi);
    } else {
      var u := ClearOamAddr(v).(lastDot := 321);
      SteadyStage(v, u, mem, ClearsOam, 321);
      PaidIsBehind(v, u, mem);
      SteadyStage(u, w, mem, Nothing, hi);
      PaidTwice(v, u, w, mem);
    }
  }

  /** render.c:506-514: the rest of the line, whatever is left of it. */
  lemma FetchStage(v: Ppu, w: Ppu, mem: Mem)
    requires ValidMem(mem) && Behind(v) && v.scanLine < FRAME_HEIGHT
    requires 258 <= v.lastDot < DOTS_PER_LINE && v.lastDot < v.dot
    requires w == (if v.lastDot <= 320 then ClearOamAddr(v) else v).(lastDot := v.dot)
    ensures Paid(v, w, mem)
  {
    hide ValidMem, ValidPpu, Paid, Goal, Left;
    ClearStage(v, w, mem, Min(v.dot, DOTS_PER_LINE));
  }

  lemma PaidIsBehind(v: Ppu, w: Ppu, mem: Mem)
    requires ValidMem(mem) && Behind(v) && Paid(v, w, mem)
    ensures Behind(w)
  {
  }

  // ------------------------------------------------------------------ other lines

  /** A single dot outside the visible lines. */
  lemma EventStage(v: Ppu, w: Ppu, mem: Mem)
    requires ValidMem(mem) && Behind(v) && FRAME_HEIGHT <= v.scanLine < VBLANK_END
    requires v.lastDot < DOTS_PER_LINE - 1 && v.lastDot < v.dot && !SkipsDot(Norm(v))
    requires ValidPpu(w) && w.dot == v.dot && w.lastDot == v.lastDot + 1 && w.scanLine == v.scanLine
    requires MoveTo(w, v.lastDot) == Act(Norm(v), mem)
    ensures Paid(v, w, mem)
  {
    hide ValidMem, Act, Dots, Paid, ValidPpu, Goal, Left;
    OneDot(Norm(v), mem);
    MoveTwice(w, v.lastDot, v.lastDot + 1);
    StagePays(v, w, mem, v.lastDot + 1);
  }

  /** ppu.c:81-87. */
  lemma PostRenderStage(v: Ppu, w: Ppu, mem: Mem)
    requires ValidMem(mem) && Behind(v) && v.scanLine == POST_RENDER_LINE && v.lastDot < v.dot
    requires v.lastDot < DOTS_PER_LINE
    requires w == v.(frames := if v.lastDot == 0 then v.frames + [v.screen] else v.frames, lastDot := v.dot)
    ensures Paid(v, w, mem)
  {
    hide ValidMem, Paid;
    if v.lastDot == 0 {
      var u := v.(frames := v.frames + [v.screen], lastDot := 1);
      EventStage(v, u, mem);
      if v.dot > 1 {
        PaidIsBehind(v, u, mem);
        SteadyStage(u, w, mem, Nothing, Min(v.dot, DOTS_PER_LINE));
        PaidTwice(v, u, w, mem);
      }
    } else {
      SteadyStage(v, w, mem, Nothing, Min(v.dot, DOTS_PER_LINE));
    }
  }

  /** ppu.c:88-103. */
  lemma VblankStage(v: Ppu, w: Ppu, mem: Mem)
    requires ValidMem(mem) && Behind(v) && v.scanLine == VBLANK_LINE && v.lastDot < v.dot
    requires v.lastDot < DOTS_PER_LINE
    requires w == (if v.lastDot <= 1 && v.dot > 1 then VblankDot(v, 1) else v).(lastDot := v.dot)
    ensures Paid(v, w, mem)
  {
    hide ValidMem, Paid, Goal, Left, ValidPpu, VblankDot;
    if v.lastDot <= 1 && v.dot > 1 {
      if v.lastDot == 0 {
        var t := v.(lastDot := 1);
        SteadyStage(v, t, mem, Nothing, 1);
        PaidIsBehind(v, t, mem);
        VblankDotAnywhere(v, t);
        VblankRest(t, w, mem);
        PaidTwice(v, t, w, mem);
      } else {
        VblankRest(v, w, mem);
      }
    } else {
      SteadyStage(v, w, mem, Nothing, Min(v.dot, DOTS_PER_LINE));
    }
  }

  lemma VblankDotAnywhere(v: Ppu, t: Ppu)
    requires t == v.(lastDot := t.lastDot)
    ensures VblankDot(t, 1) == VblankDot(v, 1).(lastDot := t.lastDot)
    ensures ValidPpu(v) ==> ValidPpu(VblankDot(v, 1))
  {
  }

  lemma VblankRest(t: Ppu, w: Ppu, mem: Mem)
    requires ValidMem(mem) && Behind(t) && t.scanLine == VBLANK_LINE && t.lastDot == 1 < t.dot
    requires w == VblankDot(t, 1).(lastDot := t.dot)
    ensures Paid(t, w, mem)
  {
    hide ValidMem, Paid, Goal, Left, ValidPpu;
    var u := VblankDot(t, 1).(lastDot := 2);
    VblankEvent(t, u, mem);
    if t.dot > 2 {
      PaidIsBehind(t, u, mem);
      SteadyStage(u, w, mem, Nothing, Min(t.dot, DOTS_PER_LINE));
      PaidTwice(t, u, w, mem);
    }
  }

  lemma VblankEvent(t: Ppu, u: Ppu, mem: Mem)
    requires ValidMem(mem) && Behind(t) && t.scanLine == VBLANK_LINE && t.lastDot == 1 < t.dot
    requires u == VblankDot(t, 1).(lastDot := 2)
    ensures Paid(t, u, mem)
  {
    hide ValidMem, Paid, VisibleDot, PreRenderDot;
    EventStage(t, u, mem);
  }

  /** ppu.c:104-106. */
  lemma IdleStage(v: Ppu, w: Ppu, mem: Mem)
    requires ValidMem(mem) && Behind(v) && VBLANK_LINE < v.scanLine < PRE_RENDER_LINE && v.lastDot < v.dot
    requires v.lastDot < DOTS_PER_LINE && w == v.(lastDot := v.dot)
    ensures Paid(v, w, mem)
  {
    hide ValidMem, Paid;
    SteadyStage(v, w, mem, Nothing, Min(v.dot, DOTS_PER_LINE));
  }

  /** render.c:542-549 and 553-560: the two single dots of the pre-render line. */
  lemma PreRenderAnywhere(p: Ppu, d: nat, at: nat)
    requires ValidPpu(p) && (d == 1 || d == 257)
    ensures PreRenderDot(p.(dot := at, lastDot := at), d) == PreRenderDot(p, d).(dot := at, lastDot := at)
    ensures PreRenderDot(p, d).dot == p.dot
  {
  }

  lemma PreRenderEvent(v: Ppu, w: Ppu, mem: Mem)
    requires ValidMem(mem) && Behind(v) && v.scanLine == PRE_RENDER_LINE
    requires (v.lastDot == 1 || v.lastDot == 257) && v.lastDot < v.dot
    requires w == PreRenderDot(v, v.lastDot).(lastDot := v.lastDot + 1)
    ensures Paid(v, w, mem)
  {
    hide ValidMem, Paid, VisibleDot, Goal, Left, ValidVram, PreRenderDot;
    PreRenderAnywhere(v, v.lastDot, v.lastDot);
    EventStage(v, w, mem);
  }

  /** render.c:574-582. */
  lemma PreRenderFetch(v: Ppu, w: Ppu, mem: Mem)
    requires ValidMem(mem) && Behind(v) && v.scanLine == PRE_RENDER_LINE
    requires 305 <= v.lastDot < 338 && v.lastDot < v.dot
    requires w == (if v.lastDot <= 320 then ClearOamAddr(v) else v).(lastDot := Min(338, v.dot))
    ensures Paid(v, w, mem)
  {
    hide ValidMem, ValidPpu, Paid, Goal, Left;
    ClearStage(v, w, mem, Min(338, v.dot));
  }

  /** render.c:583-589: on odd frames a dot is left out while rendering, and the counter runs on. */
  lemma SkipStage(v: Ppu, w: Ppu, mem: Mem)
    requires ValidMem(mem) && Behind(v) && v.scanLine == PRE_RENDER_LINE
    requires v.lastDot == 338 < v.dot
    requires var dot := if v.oddFrame && v.Enabled() then v.dot + 1 else v.dot;
             w == v.(dot := dot, lastDot := dot)
    ensures Paid(v, w, mem)
  {
    hide ValidMem, Paid;
    if !(v.oddFrame && v.Enabled()) {
      var u := v.(lastDot := 339);
      EventStage(v, u, mem);
      if v.dot > 339 {
        PaidIsBehind(v, u, mem);
        SteadyStage(u, w, mem, Nothing, Min(v.dot, DOTS_PER_LINE));
        PaidTwice(v, u, w, mem);
      }
    } else {
      var u := v.(dot := v.dot + 1, lastDot := 340);
      SkippedDot(v, u, mem);
      if v.dot > 339 {
        PaidIsBehind(v, u, mem);
        SteadyStage(u, w, mem, Nothing, DOTS_PER_LINE);
        PaidTwice(v, u, w, mem);
      }
    }
  }

  lemma SkippedDot(v: Ppu, u: Ppu, mem: Mem)
    requires ValidMem(mem) && Behind(v) && v.scanLine == PRE_RENDER_LINE
    requires v.lastDot == 338 < v.dot && v.oddFrame && v.Enabled()
    requires u == v.(dot := v.dot + 1, lastDot := 340)
    ensures Paid(v, u, mem)
  {
    hide ValidMem, Dots, VisibleDot;
    OneDot(Norm(v), mem);
    assert Dot(Norm(v), mem) == Norm(u);
    StagePaid(v, u, mem);
  }

  lemma DummyStage(v: Ppu, w: Ppu, mem: Mem)
    requires ValidMem(mem) && Behind(v) && v.scanLine == PRE_RENDER_LINE
    requires 338 < v.lastDot < DOTS_PER_LINE && v.lastDot < v.dot && w == v.(lastDot := v.dot)
    ensures Paid(v, w, mem)
  {
    hide ValidMem, Paid;
    SteadyStage(v, w, mem, Nothing, Min(v.dot, DOTS_PER_LINE));
  }

  // -------------------------------------------------------------- ends of lines

  /** ppu.c:119-125: moving to the next line owes and pays nothing. */
  lemma WrapStage(v: Ppu, w: Ppu, mem: Mem)
    requires ValidMem(mem) && Behind(v) && v.lastDot == v.dot >= DOTS_PER_LINE
    requires w == v.(scanLine := v.scanLine + 1, dot := v.dot - DOTS_PER_LINE, lastDot := 0, rendToggleDot := 0)
    ensures Behind(w) && Left(w) == Left(v) && Goal(w, mem) == Goal(v, mem)
  {
    hide Dots;
  }

  /** ppu.c:110-114. */
  lemma NewFrameStage(v: Ppu, w: Ppu, mem: Mem)
    requires ValidMem(mem) && Behind(v) && v.scanLine == VBLANK_END && v.lastDot < v.dot
    requires w == v.(scanLine := 0, oddFrame := !v.oddFrame)
    ensures Behind(w) && Left(w) == Left(v) && Goal(w, mem) == Goal(v, mem)
  {
    hide ValidMem, Act, Dots;
    assert Dot(Norm(v), mem) == Dot(Norm(w), mem);
    OneDot(Norm(v), mem);
    OneDot(Norm(w), mem);
    DotsAdd(Norm(v), mem, 1, Left(v) - 1);
    DotsAdd(Norm(w), mem, 1, Left(v) - 1);
  }

  /** Having caught up, the object is where it was to get. */
  lemma CaughtUp(v: Ppu, mem: Mem)
    requires ValidMem(mem) && Behind(v) && v.lastDot == v.dot < DOTS_PER_LINE
    ensures AtRest(v) && Goal(v, mem) == v
  {
  }

  /** ppu.c:74: the counter runs ahead by the dots of the call. */
  lemma Owes(p: Ppu, v: Ppu, mem: Mem, dots: nat)
    requires ValidMem(mem) && AtRest(p) && v == p.(dot := p.dot + dots)
    ensures Behind(v) && Left(v) == dots && Goal(v, mem) == Dots(p, mem, dots)
  {
    hide Dots;
    assert MoveTo(v, v.lastDot) == p;
  }
}
