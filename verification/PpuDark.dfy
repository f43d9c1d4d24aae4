/** With rendering off, and in the vertical blank, the picture unit neither reads OAM nor moves OAMADDR, so OAM can
  * be filled meanwhile.
  */
module PpuDark {
  import opened Common
  import opened PpuTypes
  import opened PpuTiles
  import opened PpuSprites
  import opened PpuReference
  import opened PpuTheorems

  /** Rendering is off and no toggle is still on its way to the pixels. */
  predicate Dark(p: Ppu) {
    !p.Enabled() && (p.rendToggleDot == 0 || p.dot >= p.rendToggleDot + TOGGLE_DELAY)
  }

  function OamAt(p: Ppu, a: u8): (q: Ppu)
    ensures ValidPpu(p) ==> ValidPpu(q)
    ensures AtRest(p) ==> AtRest(q)
  {
    p.(oamAddr := a)
  }

  function Filled(mem: Mem, oam: seq<u8>): (m: Mem)
    ensures ValidMem(mem) && |oam| == 256 ==> ValidMem(m)
  {
    mem.(oam := oam)
  }

  lemma DarkVisible(p: Ppu, mem: Mem, oam: seq<u8>, a: u8)
    requires ValidMem(mem) && |oam| == 256
    requires ValidPpu(p) && p.scanLine < FRAME_HEIGHT && p.dot < DOTS_PER_LINE && Dark(p)
    ensures VisibleDot(OamAt(p, a), Filled(mem, oam), p.dot) == OamAt(VisibleDot(p, mem, p.dot), a)
    ensures VisibleDot(p, mem, p.dot) == p.(screen := VisibleDot(p, mem, p.dot).screen,
                                            status := VisibleDot(p, mem, p.dot).status,
                                            lastTileX := VisibleDot(p, mem, p.dot).lastTileX,
                                            sp0 := VisibleDot(p, mem, p.dot).sp0)
  {
    hide DrawTiles, SpriteLine, Overflows, Setup, IncY;
  }

  lemma DarkPreRender(p: Ppu, d: nat, a: u8)
    requires ValidPpu(p) && !p.Enabled()
    ensures PreRenderDot(OamAt(p, a), d) == OamAt(PreRenderDot(p, d), a)
    ensures PreRenderDot(p, d).rendToggleDot == p.rendToggleDot
  {
  }

  lemma DarkAct(p: Ppu, mem: Mem, oam: seq<u8>, a: u8)
    requires ValidMem(mem) && |oam| == 256
    requires ValidPpu(p) && p.scanLine < VBLANK_END && p.dot < DOTS_PER_LINE && Dark(p)
    ensures Act(OamAt(p, a), Filled(mem, oam)) == OamAt(Act(p, mem), a)
    ensures Act(p, mem).rendToggleDot == p.rendToggleDot && Act(p, mem).dot == p.dot
    ensures !Act(p, mem).Enabled()
  {
    hide VisibleDot, PreRenderDot, ValidMem, ValidVram;
    if p.scanLine < FRAME_HEIGHT {
      DarkVisible(p, mem, oam, a);
    } else if p.scanLine == PRE_RENDER_LINE {
      DarkPreRender(p, p.dot, a);
      PreRenderStays(p, p.dot);
    }
  }

  lemma PreRenderStays(p: Ppu, d: nat)
    requires ValidPpu(p)
    ensures PreRenderDot(p, d).dot == p.dot
  {
  }

  lemma DarkDot(p: Ppu, mem: Mem, oam: seq<u8>, a: u8)
    requires ValidMem(mem) && |oam| == 256 && AtRest(p) && Dark(p)
    ensures Dot(OamAt(p, a), Filled(mem, oam)) == OamAt(Dot(p, mem), a)
    ensures Dark(Dot(p, mem))
  {
    hide Act, ValidMem, ValidVram;
    DarkAct(NewFrame(p), mem, oam, a);
  }

  /** The n dots to come use no sprite memory: rendering is off, or they lie between the last visible line and the
    * sprite fetches of the pre-render line.
    */
  predicate Resting(p: Ppu, n: nat) {
    || Dark(p)
    || (POST_RENDER_LINE <= p.scanLine < VBLANK_END && Position(p) + n <= PRE_RENDER_LINE * DOTS_PER_LINE + 257)
  }

  lemma BlankAct(p: Ppu, mem: Mem, oam: seq<u8>, a: u8)
    requires ValidMem(mem) && |oam| == 256
    requires ValidPpu(p) && POST_RENDER_LINE <= p.scanLine < VBLANK_END
    requires p.dot < DOTS_PER_LINE && Position(p) < PRE_RENDER_LINE * DOTS_PER_LINE + 257
    ensures Act(OamAt(p, a), Filled(mem, oam)) == OamAt(Act(p, mem), a)
  {
    hide VisibleDot, ValidMem, ValidVram;
  }

  lemma RestingDot(p: Ppu, mem: Mem, oam: seq<u8>, a: u8, n: nat)
    requires ValidMem(mem) && |oam| == 256 && AtRest(p) && Resting(p, n + 1)
    ensures Dot(OamAt(p, a), Filled(mem, oam)) == OamAt(Dot(p, mem), a)
    ensures Resting(Dot(p, mem), n)
  {
    hide Act, ValidMem, ValidVram;
    if Dark(p) {
      DarkDot(p, mem, oam, a);
    } else {
      BlankAct(p, mem, oam, a);
      DotMoves(p, mem);
    }
  }

  /** A resting stretch of dots commutes with filling OAM and moving its address. */
  lemma {:induction false} RestingDots(p: Ppu, mem: Mem, oam: seq<u8>, a: u8, n: nat, left: nat)
    requires ValidMem(mem) && |oam| == 256 && AtRest(p) && Resting(p, n + left)
    ensures Dots(OamAt(p, a), Filled(mem, oam), n) == OamAt(Dots(p, mem, n), a)
    ensures Resting(Dots(p, mem, n), left) && Dots(p, mem, n).oamAddr == p.oamAddr
  {
    hide Dot, ValidPpu, Resting;
    if n == 0 {
      assert Dots(p, mem, 0) == p && Dots(OamAt(p, a), Filled(mem, oam), 0) == OamAt(p, a);
    } else {
      RestingDots(p, mem, oam, a, n - 1, left + 1);
      RestingDot(Dots(p, mem, n - 1), mem, oam, a, left);
      RestingDot(Dots(p, mem, n - 1), mem, mem.oam, p.oamAddr, left);
      assert Filled(mem, mem.oam) == mem;
      assert OamAt(Dots(p, mem, n - 1), p.oamAddr) == Dots(p, mem, n - 1);
    }
  }

  /** A shorter stretch rests as well. */
  lemma RestingShorter(p: Ppu, n: nat, m: nat)
    requires Resting(p, n) && m <= n
    ensures Resting(p, m)
  {
  }
}
