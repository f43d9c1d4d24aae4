/** When a change of the two rendering bits of the mask register is seen by the pixels (ppu.c:280-294,
  * render.c:142-161, ppu.c:119-125).
  */
module PpuToggle {
  import opened Common
  import opened PpuTypes
  import opened PpuTiles
  import opened PpuSprites
  import opened PpuReference
  import opened PpuRegisters
  import opened PpuScreen

  /** k dots from here lie on this line, a skipped dot counted. */
  predicate OnSameLine(p: Ppu, k: nat) {
    p.dot + k + SkippedBy(p, k) < DOTS_PER_LINE
  }

  function SkippedBy(p: Ppu, k: nat): nat {
    if p.scanLine == PRE_RENDER_LINE && p.dot <= 338 < p.dot + k && p.oddFrame && p.Enabled() then 1 else 0
  }

  lemma ToggleStep(p: Ppu, mem: Mem)
    requires ValidMem(mem) && AtRest(p) && p.scanLine < VBLANK_END
    ensures var q, next := Dot(p, mem), p.dot + (if SkipsDot(p) then 2 else 1);
            && q.reg.mask == p.reg.mask && q.oddFrame == p.oddFrame
            && if next < DOTS_PER_LINE then
                 q.dot == next && q.scanLine == p.scanLine && q.rendToggleDot == p.rendToggleDot
               else q.rendToggleDot == 0
  {
    hide VisibleDot, PreRenderDot, ValidMem, ValidVram;
    if p.scanLine < FRAME_HEIGHT {
      VisibleKeepsToggle(p, mem, p.dot);
    } else if p.scanLine == PRE_RENDER_LINE {
      PreRenderKeepsToggle(p, p.dot);
    }
  }

  lemma VisibleKeepsToggle(p: Ppu, mem: Mem, d: nat)
    requires ValidMem(mem) && ValidPpu(p) && p.scanLine < FRAME_HEIGHT && d < DOTS_PER_LINE
    ensures VisibleDot(p, mem, d).rendToggleDot == p.rendToggleDot && VisibleDot(p, mem, d).dot == p.dot
  {
    hide DrawTiles, ValidMem, Backdrop, SpriteLine, Overflows, IncY, Setup;
  }

  lemma PreRenderKeepsToggle(p: Ppu, d: nat)
    requires ValidPpu(p)
    ensures PreRenderDot(p, d).rendToggleDot == p.rendToggleDot && PreRenderDot(p, d).dot == p.dot
  {
  }

  /** No dot starts a toggle. */
  lemma {:induction false} NoToggle(p: Ppu, mem: Mem, n: nat)
    requires ValidMem(mem) && AtRest(p) && p.rendToggleDot == 0
    ensures Dots(p, mem, n).rendToggleDot == 0 && Dots(p, mem, n).reg.mask == p.reg.mask
  {
    hide Dot, ValidMem, ValidPpu;
    if n > 0 {
      NoToggle(p, mem, n - 1);
      var q := Dots(p, mem, n - 1);
      NewFrameFirst(q, mem);
      ToggleStep(NewFrame(q), mem);
    }
  }

  lemma NewFrameFirst(p: Ppu, mem: Mem)
    requires ValidMem(mem) && AtRest(p)
    ensures AtRest(NewFrame(p)) && NewFrame(p).scanLine < VBLANK_END
    ensures Dot(NewFrame(p), mem) == Dot(p, mem)
  {
    hide Act, ValidMem;
  }

  /** A toggle stays on its way along the line and is forgotten at its end. */
  lemma {:induction false} ToggleCarried(p: Ppu, mem: Mem, n: nat)
    requires ValidMem(mem) && AtRest(p) && p.scanLine < VBLANK_END
    ensures var q := Dots(p, mem, n);
            && q.reg.mask == p.reg.mask
            && if OnSameLine(p, n) then
                 q.dot == p.dot + n + SkippedBy(p, n) && q.scanLine == p.scanLine && q.oddFrame == p.oddFrame
                 && q.rendToggleDot == p.rendToggleDot
               else q.rendToggleDot == 0
  {
    hide Dot, ValidMem, ValidPpu;
    if n > 0 {
      ToggleCarried(p, mem, n - 1);
      var q := Dots(p, mem, n - 1);
      if OnSameLine(p, n - 1) {
        ToggleStep(q, mem);
      } else {
        NoToggle(q, mem, 1);
        DotsAdd(p, mem, n - 1, 1);
      }
    }
  }

  /** What the pixels see of the enable bits in the k-th dot after a write of the mask. */
  ghost predicate Seen(p: Ppu, val: u8, mem: Mem, k: nat)
    requires ValidMem(mem) && AtRest(p)
  {
    var q := Dots(WriteMask(p, val), mem, k);
    q.RenderingAt(q.dot)
  }

  /** The write is on its way in the k-th dot: the source takes dot 0 for no toggle, and forgets one at the
    * end of the line.
    */
  predicate OnItsWay(p: Ppu, val: u8, k: nat) {
    var q := WriteMask(p, val);
    p.dot > 0 && k < 3 && OnSameLine(q, k) && k + SkippedBy(q, k) < 3
  }

  predicate Switches(p: Ppu, val: u8) { WriteMask(p, val).Enabled() != p.Enabled() }

  /** Dot by dot: while the write is on its way the opposite of the new setting is seen, then the new one. */
  lemma SeenExact(p: Ppu, val: u8, mem: Mem, k: nat)
    requires ValidMem(mem) && AtRest(p) && val / 8 % 4 != p.reg.mask / 8 % 4
    ensures Seen(p, val, mem, k) <==> WriteMask(p, val).Enabled() != OnItsWay(p, val, k)
  {
    hide Dots, ValidMem, ValidPpu;
    var q := WriteMask(p, val);
    DotOnLine(p);
    if p.dot == 0 {
      NoToggle(q, mem, k);
    } else {
      ToggleCarried(q, mem, k);
    }
  }

  /** A change of the two enable bits is meant to reach the pixels three dots late.  The three dots after the
    * write show the old setting exactly when rendering as a whole was switched, not in dot 0 and with three
    * dots of the line to come; or when it was not switched, in dot 0.  From the fourth dot on all show the new.
    */
  lemma ToggleDelay(p: Ppu, val: u8, mem: Mem)
    requires ValidMem(mem) && AtRest(p) && val / 8 % 4 != p.reg.mask / 8 % 4
    ensures forall k: nat | k >= 3 :: Seen(p, val, mem, k) == WriteMask(p, val).Enabled()
    ensures (forall k: nat | k < 3 :: Seen(p, val, mem, k) == p.Enabled())
            <==> if Switches(p, val) then OnItsWay(p, val, 2) else p.dot == 0
  {
    hide Seen, AtRest, ValidMem;
    forall k: nat
      ensures Seen(p, val, mem, k) <==> WriteMask(p, val).Enabled() != OnItsWay(p, val, k)
    {
      SeenExact(p, val, mem, k);
    }
    assert !OnItsWay(p, val, 0) <==> p.dot == 0 by {
      DotOnLine(p);
    }
    if OnItsWay(p, val, 2) {
      assert OnItsWay(p, val, 1) && OnItsWay(p, val, 0);
    }
    assert Seen(p, val, mem, 0) == p.Enabled() ==> Switches(p, val) == OnItsWay(p, val, 0);
    assert Seen(p, val, mem, 2) == p.Enabled() ==> Switches(p, val) == OnItsWay(p, val, 2);
  }

  lemma DotOnLine(p: Ppu)
    requires AtRest(p)
    ensures p.dot < DOTS_PER_LINE && (p.dot > 0 ==> p.scanLine < VBLANK_END)
  {
  }

  /** Rendering as a whole is switched by the two enable bits only. */
  lemma EnableBits(p: Ppu, val: u8)
    ensures Switches(p, val) ==> val / 8 % 4 != p.reg.mask / 8 % 4
  {
    TwoBits(val);
    TwoBits(p.reg.mask);
  }

  lemma TwoBits(m: u8)
    ensures m / 8 % 2 == m / 8 % 4 % 2 && m / 16 % 2 == m / 8 % 4 / 2
  {
    var h := m / 8;
    assert m / 16 == h / 2;
    assert h == 4 * (h / 4) + h % 4;
  }

  /** Switched in dot 0 the change is seen at once. */
  lemma NoDelayInDotZero(p: Ppu, val: u8, mem: Mem)
    requires ValidMem(mem) && AtRest(p) && p.dot == 0 && Switches(p, val)
    ensures val / 8 % 4 != p.reg.mask / 8 % 4
    ensures forall k: nat :: Seen(p, val, mem, k) != p.Enabled()
  {
    hide Seen, ValidPpu, ValidMem, WriteMask;
    EnableBits(p, val);
    forall k: nat
      ensures Seen(p, val, mem, k) != p.Enabled()
    {
      SeenExact(p, val, mem, k);
    }
  }

  /** Switched in the last two dots of a line the change is seen from the next line's first dot on. */
  lemma DelayLostAtLineEnd(p: Ppu, val: u8, mem: Mem)
    requires ValidMem(mem) && AtRest(p) && p.dot >= 339 && Switches(p, val)
    ensures val / 8 % 4 != p.reg.mask / 8 % 4
    ensures Seen(p, val, mem, 0) == p.Enabled() && Seen(p, val, mem, 2) != p.Enabled()
  {
    hide Seen, ValidPpu, ValidMem;
    EnableBits(p, val);
    SeenExact(p, val, mem, 0);
    SeenExact(p, val, mem, 2);
  }

  // ------------------------------------------------------------------- on the screen

  /** The tile the source draws next, n dots into a line drawn so far. */
  function TilesAt(before: nat, n: nat): nat {
    if before < Min((n + 7) / 8 + 2, 32) then Min((n + 7) / 8 + 2, 32) else before
  }

  lemma PixelStep(q: Ppu, mem: Mem)
    requires ValidMem(mem) && AtRest(q) && q.scanLine < 240 && q.dot < 256
    ensures var r, at := Dot(q, mem), 256 * q.scanLine + q.dot;
            && r.dot == q.dot + 1 && r.scanLine == q.scanLine && r.rendToggleDot == q.rendToggleDot && r.reg == q.reg
            && at < |q.screen| == |r.screen|
            && (if q.RenderingAt(q.dot) then r.lastTileX == TilesAt(q.lastTileX, q.dot + 1)
                else r.lastTileX == q.lastTileX && r.screen == q.screen[at := Paint(mem, q.reg.greyscale, 0)])
  {
    hide DrawTiles, ValidMem, ValidVram;
  }

  lemma EnabledBits(p: Ppu)
    ensures p.Enabled() <==> p.reg.mask / 8 % 4 != 0
  {
    TwoBits(p.reg.mask);
  }

  /** Rendering switched on in a visible line: three more dots show palette entry 0 and no tile is drawn; from the
    * fourth on every tile up to two beyond the dot is.
    */
  lemma {:induction false} SwitchedOn(p: Ppu, val: u8, mem: Mem, k: nat)
    requires ValidMem(mem) && AtRest(p) && p.scanLine < 240 && p.dot > 0 && p.dot + k <= 256
    requires p.reg.mask / 8 % 4 == 0 && val / 8 % 4 != 0
    ensures var q := Dots(WriteMask(p, val), mem, k);
            && q.dot == p.dot + k && q.scanLine == p.scanLine && q.rendToggleDot == p.dot
            && q.reg == WriteMask(p, val).reg && |q.screen| == |p.screen| == 256 * 240
            && q.lastTileX == (if k <= 3 then p.lastTileX else TilesAt(p.lastTileX, p.dot + k))
            && (k <= 3 ==> forall i | 0 <= i < 256 * 240 ::
                  q.screen[i] == if 0 <= i - (256 * p.scanLine + p.dot) < k then Paint(mem, q.reg.greyscale, 0)
                                 else p.screen[i])
  {
    hide Dot, ValidMem, ValidVram, Paint;
    if k > 0 {
      SwitchedOn(p, val, mem, k - 1);
      var q := Dots(WriteMask(p, val), mem, k - 1);
      EnabledBits(q);
      PixelStep(q, mem);
    }
  }

  /** Rendering switched off in a visible line: for three more dots the tiles up to two beyond the dot are drawn, then
    * no more, and from the fourth dot on palette entry 0 is shown.
    */
  lemma {:induction false} SwitchedOff(p: Ppu, val: u8, mem: Mem, k: nat)
    requires ValidMem(mem) && AtRest(p) && p.scanLine < 240 && p.dot > 0 && p.dot + k <= 256
    requires p.reg.mask / 8 % 4 != 0 && val / 8 % 4 == 0
    ensures var q := Dots(WriteMask(p, val), mem, k);
            && q.dot == p.dot + k && q.scanLine == p.scanLine && q.rendToggleDot == p.dot
            && q.reg == WriteMask(p, val).reg && |q.screen| == 256 * 240
            && q.lastTileX == (if k == 0 then p.lastTileX else TilesAt(p.lastTileX, p.dot + Min(k, 3)))
            && forall i | 3 <= i - (256 * p.scanLine + p.dot) < k :: q.screen[i] == Paint(mem, q.reg.greyscale, 0)
  {
    hide Dot, ValidMem, ValidVram, Paint;
    if k > 0 {
      SwitchedOff(p, val, mem, k - 1);
      var q := Dots(WriteMask(p, val), mem, k - 1);
      EnabledBits(q);
      PixelStep(q, mem);
    }
  }
}
