/** The NMI bit as an output of the picture unit: set by the vertical blank, read by nothing else.
  */
module PpuNmi {
  import opened Common
  import opened PpuTypes
  import opened PpuTiles
  import opened PpuLine
  import opened PpuSprites
  import opened PpuReference
  import opened PpuTheorems

  /** p with its NMI bit set to b. */
  function Nmi(p: Ppu, b: bool): (q: Ppu)
    ensures ValidPpu(p) ==> ValidPpu(q)
    ensures AtRest(p) ==> AtRest(q)
  {
    p.(status := p.status.(nmi := b))
  }

  /** p with the NMI bit left out of consideration. */
  function Calm(p: Ppu): (q: Ppu)
    ensures AtRest(p) ==> AtRest(q)
  {
    Nmi(p, false)
  }

  /** The next dot starts a vertical blank that raises an NMI. */
  predicate Raises(p: Ppu) {
    Position(p) == VBLANK_AT - 1 && !p.status.readRace && p.NmiEnabled()
  }

  // ------------------------------------------------------------ nothing reads the bit

  lemma DotNmi(p: Ppu, mem: Mem, x: nat, col: nat, b: bool)
    requires ValidMem(mem) && ValidPpu(p) && p.scanLine < FRAME_HEIGHT && x < LINE_WIDTH && col < 512
    ensures DrawDot(Nmi(p, b), mem, x, col) == Nmi(DrawDot(p, mem, x, col), b)
  {
    hide Pixel, HitAt, ValidMem;
    PixelOfLine(p, Nmi(p, b), mem, x, col);
  }

  lemma ColumnNmi(p: Ppu, x: nat, b: bool)
    requires ValidPpu(p)
    ensures ColumnAt(Nmi(p, b), x) == ColumnAt(p, x)
  {
  }

  lemma {:induction false} DotsOfTileNmi(p: Ppu, mem: Mem, dots: nat, b: bool)
    requires ValidMem(mem) && ValidPpu(p) && p.scanLine < FRAME_HEIGHT
    requires p.lastTileX < LINE_TILES && dots <= 8
    ensures DrawDots(Nmi(p, b), mem, dots) == Nmi(DrawDots(p, mem, dots), b)
  {
    hide ColumnAt, DrawDot, ValidMem;
    if dots > 0 {
      var x := 8 * p.lastTileX + dots - 1;
      DotsOfTileNmi(p, mem, dots - 1, b);
      ColumnNmi(p, x, b);
      DotNmi(DrawDots(p, mem, dots - 1), mem, x, ColumnAt(p, x), b);
    }
  }

  lemma {:induction false} TilesNmi(p: Ppu, mem: Mem, end: nat, b: bool)
    requires ValidMem(mem) && ValidPpu(p) && p.scanLine < FRAME_HEIGHT && end <= LINE_TILES
    ensures DrawTiles(Nmi(p, b), mem, end) == Nmi(DrawTiles(p, mem, end), b)
    decreases end - p.lastTileX
  {
    hide DrawDots, ValidMem;
    if p.lastTileX < end {
      DotsOfTileNmi(p, mem, 8, b);
      TilesNmi(DrawTile(p, mem), mem, end, b);
    }
  }

  lemma PixelDotNmi(p: Ppu, mem: Mem, d: nat, b: bool)
    requires ValidMem(mem) && ValidPpu(p) && p.scanLine < FRAME_HEIGHT && d < LINE_WIDTH
    ensures VisibleDot(Nmi(p, b), mem, d) == Nmi(VisibleDot(p, mem, d), b)
  {
    hide DrawTiles, ValidMem, EndPixels, Backdrop, PutPixel, NoteHit, Nmi;
    TilesNmi(p, mem, TilesBy(d + 1), b);
    PlainDotNmi(p, mem, d, b);
    HitNmi(if p.RenderingAt(d) then DrawTiles(p, mem, TilesBy(d + 1)) else PutPixel(p, d, Backdrop(p, mem)), d, b);
    SameRendering(p, d, b);
  }

  lemma PlainDotNmi(p: Ppu, mem: Mem, d: nat, b: bool)
    requires ValidMem(mem) && ValidPpu(p) && p.scanLine < FRAME_HEIGHT && d < LINE_WIDTH
    ensures Backdrop(Nmi(p, b), mem) == Backdrop(p, mem)
    ensures PutPixel(Nmi(p, b), d, Backdrop(p, mem)) == Nmi(PutPixel(p, d, Backdrop(p, mem)), b)
  {
    hide ValidMem, Shown;
  }

  lemma HitNmi(p: Ppu, d: nat, b: bool)
    ensures NoteHit(Nmi(p, b), d, d + 1) == Nmi(NoteHit(p, d, d + 1), b)
  {
  }

  lemma SameRendering(p: Ppu, d: nat, b: bool)
    ensures var q := Nmi(p, b);
            && q.RenderingAt(d) == p.RenderingAt(d) && q.scanLine == p.scanLine && q.lastTileX == p.lastTileX
            && (ValidPpu(p) ==> ValidPpu(q))
  {
  }

  lemma EndPixelsNmi(p: Ppu, mem: Mem, b: bool)
    requires ValidMem(mem) && ValidPpu(p) && p.scanLine < FRAME_HEIGHT
    ensures EndPixels(Nmi(p, b), mem) == Nmi(EndPixels(p, mem), b)
  {
    hide SpriteLine, Overflows, IncY, ValidMem;
    assert Setup(Nmi(p, b), mem) == Setup(p, mem);
  }

  lemma VisibleDotNmi(p: Ppu, mem: Mem, d: nat, b: bool)
    requires ValidMem(mem) && ValidPpu(p) && p.scanLine < FRAME_HEIGHT && d < DOTS_PER_LINE
    ensures VisibleDot(Nmi(p, b), mem, d) == Nmi(VisibleDot(p, mem, d), b)
  {
    hide VisibleDot, EndPixels, ValidMem, ValidPpu;
    if d < LINE_WIDTH {
      PixelDotNmi(p, mem, d, b);
    } else if d == 256 {
      EndPixelsNmi(p, mem, b);
      EndDot(p, mem);
      EndDot(Nmi(p, b), mem);
    } else {
      BorderDotNmi(p, mem, d, b);
    }
  }

  lemma EndDot(p: Ppu, mem: Mem)
    requires ValidMem(mem) && ValidPpu(p) && p.scanLine < FRAME_HEIGHT
    ensures VisibleDot(p, mem, 256) == EndPixels(p, mem)
  {
    hide DrawTiles, EndPixels, ValidMem, ValidPpu, Backdrop, PutPixel, NoteHit;
  }

  lemma BorderDotNmi(p: Ppu, mem: Mem, d: nat, b: bool)
    requires ValidMem(mem) && ValidPpu(p) && p.scanLine < FRAME_HEIGHT && 256 < d < DOTS_PER_LINE
    ensures VisibleDot(Nmi(p, b), mem, d) == Nmi(VisibleDot(p, mem, d), b)
  {
    hide DrawTiles, EndPixels, ValidMem, ValidPpu, Backdrop, PutPixel, NoteHit, AssignX, ClearOamAddr;
    ScrollNmi(p, p.RenderingAt(d), b);
  }

  lemma PreRenderDotNmi(p: Ppu, d: nat, b: bool)
    requires ValidPpu(p)
    ensures PreRenderDot(Nmi(p, b), d) == Nmi(PreRenderDot(p, d), b)
  {
    hide ValidPpu, AssignX, AssignY, ClearOamAddr, EmptyLine;
    ScrollNmi(p, p.Enabled(), b);
  }

  lemma ScrollNmi(p: Ppu, on: bool, b: bool)
    ensures AssignX(Nmi(p, b), on) == Nmi(AssignX(p, on), b)
    ensures AssignY(Nmi(p, b), on) == Nmi(AssignY(p, on), b)
    ensures ClearOamAddr(Nmi(p, b)) == Nmi(ClearOamAddr(p), b)
  {
  }

  lemma ActNmi(p: Ppu, mem: Mem, b: bool)
    requires ValidMem(mem) && ValidPpu(p) && p.scanLine < VBLANK_END && p.dot < DOTS_PER_LINE
    ensures Act(Nmi(p, b), mem) == Nmi(Act(p, mem), b || Raises(p))
    ensures Act(p, mem).status.nmi == (p.status.nmi || Raises(p))
  {
    hide Act, ValidMem, ValidPpu;
    if p.scanLine < FRAME_HEIGHT || p.scanLine == PRE_RENDER_LINE {
      CalmActNmi(p, mem, b);
      CalmActNmi(p, mem, p.status.nmi);
      assert Nmi(p, p.status.nmi) == p;
    } else {
      BlankActNmi(p, mem, b);
    }
  }

  lemma CalmActNmi(p: Ppu, mem: Mem, b: bool)
    requires ValidMem(mem) && ValidPpu(p) && p.scanLine < VBLANK_END && p.dot < DOTS_PER_LINE
    requires p.scanLine < FRAME_HEIGHT || p.scanLine == PRE_RENDER_LINE
    ensures Act(Nmi(p, b), mem) == Nmi(Act(p, mem), b)
  {
    hide VisibleDot, PreRenderDot, ValidMem, ValidPpu;
    if p.scanLine < FRAME_HEIGHT {
      VisibleDotNmi(p, mem, p.dot, b);
    } else {
      PreRenderDotNmi(p, p.dot, b);
    }
  }

  lemma BlankActNmi(p: Ppu, mem: Mem, b: bool)
    requires ValidMem(mem) && ValidPpu(p) && POST_RENDER_LINE <= p.scanLine < VBLANK_END && p.dot < DOTS_PER_LINE
    requires p.scanLine != PRE_RENDER_LINE
    ensures Act(Nmi(p, b), mem) == Nmi(Act(p, mem), b || Raises(p))
    ensures Act(p, mem).status.nmi == (p.status.nmi || Raises(p))
  {
    hide VisibleDot, PreRenderDot, ValidMem, ValidPpu, Raises, VblankDot;
    RaisesHere(p);
    VblankDotNmi(p, b);
  }

  lemma RaisesHere(p: Ppu)
    requires p.dot < DOTS_PER_LINE
    ensures Raises(p) == (p.scanLine == VBLANK_LINE && p.dot == 1 && !p.status.readRace && p.NmiEnabled())
  {
  }

  lemma VblankDotNmi(p: Ppu, b: bool)
    ensures VblankDot(Nmi(p, b), p.dot) ==
            Nmi(VblankDot(p, p.dot), b || (p.dot == 1 && !p.status.readRace && p.NmiEnabled()))
    ensures VblankDot(p, p.dot).status.nmi ==
            (p.status.nmi || (p.dot == 1 && !p.status.readRace && p.NmiEnabled()))
  {
  }

  lemma StepNmi(p: Ppu, mem: Mem, b: bool)
    requires ValidMem(mem) && AtRest(p)
    ensures Dot(Nmi(p, b), mem) == Nmi(Dot(p, mem), b || Raises(p))
    ensures Dot(p, mem).status.nmi == (p.status.nmi || Raises(p))
  {
    hide Act, ValidMem;
    ActNmi(NewFrame(p), mem, b);
  }

  // --------------------------------------------------------------- over stretches

  /** Leaving the bit out commutes with running. */
  lemma {:induction false} CalmDots(p: Ppu, mem: Mem, n: nat)
    requires ValidMem(mem) && AtRest(p)
    ensures Calm(Dots(Calm(p), mem, n)) == Calm(Dots(p, mem, n))
  {
    hide Dot, ValidMem, ValidPpu;
    if n == 0 {
      assert Dots(Calm(p), mem, 0) == Calm(p) && Dots(p, mem, 0) == p;
    } else {
      CalmDots(p, mem, n - 1);
      StepNmi(Dots(p, mem, n - 1), mem, false);
      StepNmi(Dots(Calm(p), mem, n - 1), mem, false);
    }
  }

  /** Up to the next vertical blank the bit rises exactly when the blank begins with NMIs enabled and the
    * flag not read in that very dot.
    */
  lemma {:induction false} NmiAfter(p: Ppu, mem: Mem, n: nat)
    requires ValidMem(mem) && AtRest(p) && n <= DotsToVblank(p) && DotsToVblank(p) > 0
    ensures var q := Dots(p, mem, n);
            && q.status.nmi == (p.status.nmi || (VblankBy(p, mem, n) && !p.status.readRace && p.NmiEnabled()))
            && q.reg == p.reg
            && (!VblankBy(p, mem, n) ==> q.status.readRace == p.status.readRace)
  {
    hide Dot, ValidMem, ValidPpu, Dots;
    if n == 0 {
      NothingYet(p, mem);
    } else {
      NmiAfter(p, mem, n - 1);
      var q := Dots(p, mem, n - 1);
      DotsStep(p, mem, n);
      StepNmi(q, mem, false);
      StepKeeps(q, mem);
      VblankStep(p, mem, n);
    }
  }

  lemma NothingYet(p: Ppu, mem: Mem)
    requires ValidMem(mem) && AtRest(p)
    ensures Dots(p, mem, 0) == p && !VblankBy(p, mem, 0)
  {
  }

  lemma DotsStep(p: Ppu, mem: Mem, n: nat)
    requires ValidMem(mem) && AtRest(p) && n > 0
    ensures Dots(p, mem, n) == Dot(Dots(p, mem, n - 1), mem)
  {
  }

  /** One more dot starts the blank if it stands before it; a blank is not started twice. */
  lemma VblankStep(p: Ppu, mem: Mem, n: nat)
    requires ValidMem(mem) && AtRest(p) && 0 < n <= DotsToVblank(p)
    ensures VblankBy(p, mem, n) <==>
              VblankBy(p, mem, n - 1) || Position(Dots(p, mem, n - 1)) == VBLANK_AT - 1
    ensures VblankBy(p, mem, n - 1) ==> Position(Dots(p, mem, n - 1)) != VBLANK_AT - 1
  {
    hide Dots, ValidMem;
    var first := DotsToVblank(p) - SkipBeforeVblank(p) - 1;
    VblankExact(p, mem, n - 1);
    Track(p, mem, n - 1);
    if first >= 0 {
      Track(p, mem, first);
    }
  }

  /** Registers are changed by accesses only, and the suppressed flag by the vertical blank only. */
  lemma StepKeeps(p: Ppu, mem: Mem)
    requires ValidMem(mem) && AtRest(p)
    ensures Dot(p, mem).reg == p.reg
    ensures Position(p) != VBLANK_AT - 1 ==> Dot(p, mem).status.readRace == p.status.readRace
  {
    hide VisibleDot, PreRenderDot, ValidMem, ValidVram;
    var f := NewFrame(p);
    if f.scanLine < FRAME_HEIGHT {
      VisibleKeeps(f, mem, f.dot);
    } else if f.scanLine == PRE_RENDER_LINE {
      PreRenderKeeps(f, f.dot);
    }
  }

  /** A dot counts an NMI exactly when it starts a vertical blank that raises one. */
  lemma DotCounts(p: Ppu, mem: Mem)
    requires ValidMem(mem) && AtRest(p)
    ensures Dot(p, mem).nmis.raised == p.nmis.raised + if Raises(p) then 1 else 0
  {
    hide VisibleDot, PreRenderDot, ValidMem, ValidVram;
    var f := NewFrame(p);
    if f.scanLine < FRAME_HEIGHT {
      VisibleKeeps(f, mem, f.dot);
    } else if f.scanLine == PRE_RENDER_LINE {
      PreRenderKeeps(f, f.dot);
    }
  }

  lemma {:induction false} RaisedGrows(p: Ppu, mem: Mem, n: nat)
    requires ValidMem(mem) && AtRest(p)
    ensures Dots(p, mem, n).nmis.raised >= p.nmis.raised
  {
    hide Dot, ValidMem, ValidPpu;
    if n > 0 {
      RaisedGrows(p, mem, n - 1);
      DotCounts(Dots(p, mem, n - 1), mem);
    }
  }

  lemma VisibleKeeps(p: Ppu, mem: Mem, d: nat)
    requires ValidMem(mem) && ValidPpu(p) && p.scanLine < FRAME_HEIGHT && d < DOTS_PER_LINE
    ensures VisibleDot(p, mem, d).reg == p.reg && VisibleDot(p, mem, d).status.readRace == p.status.readRace
    ensures VisibleDot(p, mem, d).nmis == p.nmis
  {
    hide DrawTiles, ValidMem, Backdrop, SpriteLine, Overflows, IncY, Setup;
  }

  lemma PreRenderKeeps(p: Ppu, d: nat)
    requires ValidPpu(p)
    ensures PreRenderDot(p, d).reg == p.reg && PreRenderDot(p, d).status.readRace == p.status.readRace
    ensures PreRenderDot(p, d).nmis == p.nmis
  {
  }

  /** When the flags change: dot 1 of line 241 begins the vertical blank, unless the flag was read in that very dot, and
    * raises an NMI if bit 7 of $2000 is set; dot 1 of line 261 takes back all three flags; no other dot touches the
    * blank's flag or raises an NMI.
    */
  lemma FlagTimes(p: Ppu, mem: Mem)
    requires ValidMem(mem) && AtRest(p) && p.scanLine < 262
    ensures var s, t := p.status, Dot(p, mem).status;
            var begins, ends := p.scanLine == 241 && p.dot == 1, p.scanLine == 261 && p.dot == 1;
            && t.vblank == (if begins then s.vblank || !s.readRace else if ends then false else s.vblank)
            && t.nmi == (s.nmi || (begins && !s.readRace && p.reg.ctrl >= 128))
            && t.readRace == (s.readRace && !begins)
            && (ends ==> !t.sprite0 && !t.overflow)
            && (p.scanLine >= 240 && !ends ==> t.sprite0 == s.sprite0 && t.overflow == s.overflow)
  {
    hide VisibleDot, PreRenderDot, ValidMem, ValidPpu;
    if p.scanLine < FRAME_HEIGHT {
      VisibleFlags(p, mem, p.dot);
    } else if p.scanLine == PRE_RENDER_LINE {
      PreRenderFlags(p, p.dot);
    }
  }

  lemma VisibleFlags(p: Ppu, mem: Mem, d: nat)
    requires ValidMem(mem) && ValidPpu(p) && p.scanLine < FRAME_HEIGHT && d < DOTS_PER_LINE
    ensures var t := VisibleDot(p, mem, d).status;
            t.vblank == p.status.vblank && t.nmi == p.status.nmi && t.readRace == p.status.readRace
  {
    hide DrawTiles, ValidMem, Backdrop, SpriteLine, Overflows, IncY, Setup;
  }

  lemma PreRenderFlags(p: Ppu, d: nat)
    requires ValidPpu(p)
    ensures var s, t := p.status, PreRenderDot(p, d).status;
            t == if d == 1 then s.(vblank := false, sprite0 := false, overflow := false) else s
  {
    hide ValidPpu, EmptyLine;
  }
}
