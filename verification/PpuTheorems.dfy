/** What the picture unit's dots amount to, over whole calls and whole frames.
  */
module PpuTheorems {
  import opened Common
  import opened PpuTypes
  import opened PpuTiles
  import opened PpuSprites
  import opened PpuReference

  const FRAME_DOTS := VBLANK_END * DOTS_PER_LINE
  const SKIP_AT := PRE_RENDER_LINE * DOTS_PER_LINE + 338
  const VBLANK_AT := VBLANK_LINE * DOTS_PER_LINE + 2

  // -------------------------------------------------------- batching is invisible

  /** A sequence of calls, each by the contract of TicksExecute. */
  ghost function Calls(p: Ppu, mem: Mem, batches: seq<nat>): (q: Ppu)
    requires ValidMem(mem) && AtRest(p)
    ensures AtRest(q)
    decreases |batches|
  {
    if batches == [] then p else Calls(Dots(p, mem, 3 * batches[0]), mem, batches[1..])
  }

  /** However the cycles are cut into calls: screen, flags, scroll registers and frames agree. */
  lemma {:induction false} AnyBatching(p: Ppu, mem: Mem, batches: seq<nat>)
    requires ValidMem(mem) && AtRest(p)
    ensures Calls(p, mem, batches) == Dots(p, mem, 3 * Total(batches))
    decreases |batches|
  {
    hide Dot, AtRest, ValidMem;
    if batches == [] {
      assert Dots(p, mem, 0) == p;
    } else {
      AnyBatching(Dots(p, mem, 3 * batches[0]), mem, batches[1..]);
      DotsAdd(p, mem, 3 * batches[0], 3 * Total(batches[1..]));
    }
  }

  // ------------------------------------------------------------------- position

  function Position(p: Ppu): nat { p.scanLine * DOTS_PER_LINE + p.dot }

  /** The end of the pre-render line and the start of the frame are one place. */
  predicate AtFrameEnd(p: Ppu) { p.scanLine == VBLANK_END }

  /** One dot moves one place on, two where a dot is skipped; only the frame end changes parity. */
  lemma DotMoves(p: Ppu, mem: Mem)
    requires ValidMem(mem) && AtRest(p)
    ensures var f, q := NewFrame(p), Dot(p, mem);
            && Position(q) == Position(f) + (if SkipsDot(f) then 2 else 1)
            && q.oddFrame == f.oddFrame && q.reg.mask == f.reg.mask
            && |q.frames| == |p.frames| + (if Position(f) == POST_RENDER_LINE * DOTS_PER_LINE then 1 else 0)
  {
    hide Act, ValidMem, ValidVram;
  }

  /** Dots skipped, and frames begun, by the next n dots. */
  ghost function Skips(p: Ppu, mem: Mem, n: nat): nat
    requires ValidMem(mem) && AtRest(p)
  {
    if n == 0 then 0 else Skips(p, mem, n - 1) + (if SkipsDot(NewFrame(Dots(p, mem, n - 1))) then 1 else 0)
  }

  ghost function FramesBegun(p: Ppu, mem: Mem, n: nat): nat
    requires ValidMem(mem) && AtRest(p)
  {
    if n == 0 then 0 else FramesBegun(p, mem, n - 1) + (if AtFrameEnd(Dots(p, mem, n - 1)) then 1 else 0)
  }

  /** The position law: three places per CPU cycle and one more per skipped dot, frame after frame. */
  lemma {:induction false} PositionLaw(p: Ppu, mem: Mem, n: nat)
    requires ValidMem(mem) && AtRest(p)
    ensures FRAME_DOTS * FramesBegun(p, mem, n) + Position(Dots(p, mem, n)) == Position(p) + n + Skips(p, mem, n)
  {
    hide Dot, ValidMem, ValidPpu;
    if n > 0 {
      PositionLaw(p, mem, n - 1);
      DotMoves(Dots(p, mem, n - 1), mem);
    }
  }

  // -------------------------------------------------------- the way through a frame

  /** 1 when the dot to be skipped in this frame still lies ahead. */
  function SkipAhead(p: Ppu): nat {
    if Position(p) <= SKIP_AT && p.oddFrame && p.Enabled() then 1 else 0
  }

  /** Dots left in the frame. */
  function ToFrameEnd(p: Ppu): nat
    requires AtRest(p)
  {
    FRAME_DOTS - Position(p) - SkipAhead(p)
  }

  /** The place reached after n dots, up to the next frame's own skip. */
  function PlaceAfter(p: Ppu, n: nat): nat
    requires AtRest(p)
  {
    if n > ToFrameEnd(p) then n - ToFrameEnd(p)
    else if Position(p) + n <= SKIP_AT then Position(p) + n
    else Position(p) + n + SkipAhead(p)
  }

  lemma {:induction false} Track(p: Ppu, mem: Mem, n: nat)
    requires ValidMem(mem) && AtRest(p) && n <= ToFrameEnd(p) + SKIP_AT
    ensures var q := Dots(p, mem, n);
            && Position(q) == PlaceAfter(p, n) && q.reg.mask == p.reg.mask
            && q.oddFrame == if n > ToFrameEnd(p) then !p.oddFrame else p.oddFrame
  {
    hide Dot, ValidMem, ValidPpu;
    if n > 0 {
      Track(p, mem, n - 1);
      var q := Dots(p, mem, n - 1);
      DotMoves(q, mem);
      PlaceGiven(q);
    }
  }

  /** Line and dot can be read off the position. */
  lemma PlaceGiven(q: Ppu)
    requires AtRest(q)
    ensures Position(q) <= FRAME_DOTS
    ensures AtFrameEnd(q) <==> Position(q) == FRAME_DOTS
    ensures Position(q) == SKIP_AT <==> q.scanLine == PRE_RENDER_LINE && q.dot == 338
    ensures Position(q) == VBLANK_AT - 1 <==> q.scanLine == VBLANK_LINE && q.dot == 1
    ensures Position(q) == VBLANK_AT <==> q.scanLine == VBLANK_LINE && q.dot == 2
  {
  }

  lemma {:induction false} FramesShown(p: Ppu, mem: Mem, n: nat)
    requires ValidMem(mem) && AtRest(p) && Position(p) == 0 && n <= ToFrameEnd(p)
    ensures |Dots(p, mem, n).frames| == |p.frames| + (if n > POST_RENDER_LINE * DOTS_PER_LINE then 1 else 0)
  {
    hide Dot, ValidMem, ValidPpu;
    if n > 0 {
      FramesShown(p, mem, n - 1);
      Track(p, mem, n - 1);
      DotMoves(Dots(p, mem, n - 1), mem);
      PlaceGiven(Dots(p, mem, n - 1));
    }
  }

  /** A frame takes 89342 dots, one fewer on odd frames with rendering on, and shows one picture. */
  lemma FrameLength(p: Ppu, mem: Mem, n: nat)
    requires ValidMem(mem) && AtRest(p) && Position(p) == 0
    requires n == if p.oddFrame && p.Enabled() then FRAME_DOTS - 1 else FRAME_DOTS
    ensures AtFrameEnd(Dots(p, mem, n)) && forall k | 0 < k < n :: !AtFrameEnd(Dots(p, mem, k))
    ensures Dots(p, mem, n).oddFrame == p.oddFrame
    ensures |Dots(p, mem, n).frames| == |p.frames| + 1
  {
    hide Dots, ValidMem;
    forall k: nat | 0 < k <= n
      ensures AtFrameEnd(Dots(p, mem, k)) <==> k == n
    {
      Track(p, mem, k);
      PlaceGiven(Dots(p, mem, k));
    }
    Track(p, mem, n);
    FramesShown(p, mem, n);
  }

  // ----------------------------------------------------------- vblank prediction

  /** Dots to dot 2 of the vertical-blank line, the skip not considered (ppu.c:133-140). */
  function DotsToVblank(p: Ppu): (d: nat)
    requires AtRest(p)
    ensures d < FRAME_DOTS
  {
    if Position(p) <= VBLANK_AT then VBLANK_AT - Position(p) else VBLANK_AT - Position(p) + FRAME_DOTS
  }

  /** ppu.c:129-142. */
  function CyclesToNmi(p: Ppu): nat
    requires AtRest(p)
  {
    (DotsToVblank(p) + 2) / 3
  }

  /** Some dot before the n-th has started the vertical blank. */
  ghost predicate VblankBy(p: Ppu, mem: Mem, n: nat)
    requires ValidMem(mem) && AtRest(p)
  {
    exists j: nat :: j < n && Position(Dots(p, mem, j)) == VBLANK_AT - 1
  }

  /** Starting the vertical blank sets its flag and raises the NMI, unless the flag was just read. */
  lemma VblankSetsFlag(p: Ppu, mem: Mem)
    requires ValidMem(mem) && AtRest(p) && Position(p) == VBLANK_AT - 1
    ensures var q := Dot(p, mem);
            && Position(q) == VBLANK_AT
            && q.status.vblank == (p.status.vblank || !p.status.readRace)
            && q.status.nmi == (p.status.nmi || (!p.status.readRace && p.NmiEnabled()))
  {
    hide VisibleDot, PreRenderDot, ValidMem, ValidPpu;
    PlaceGiven(p);
  }

  /** A skip between here and the next vertical blank. */
  function SkipBeforeVblank(p: Ppu): nat {
    if Position(p) > VBLANK_AT then SkipAhead(p) else 0
  }

  /** The vertical blank starts with exactly the predicted dot, one earlier past a skipped dot. */
  lemma VblankExact(p: Ppu, mem: Mem, n: nat)
    requires ValidMem(mem) && AtRest(p) && DotsToVblank(p) > 0 && n <= DotsToVblank(p)
    ensures VblankBy(p, mem, n) <==> n >= DotsToVblank(p) - SkipBeforeVblank(p)
  {
    hide Dots, ValidMem;
    var first := DotsToVblank(p) - SkipBeforeVblank(p) - 1;
    forall j: nat | j < n
      ensures Position(Dots(p, mem, j)) == VBLANK_AT - 1 <==> j == first
    {
      Track(p, mem, j);
    }
    if first < n {
      assert Position(Dots(p, mem, first)) == VBLANK_AT - 1;
    }
  }

  lemma VblankByGrows(p: Ppu, mem: Mem, m: nat, n: nat)
    requires ValidMem(mem) && AtRest(p) && m <= n && VblankBy(p, mem, m)
    ensures VblankBy(p, mem, n)
  {
  }

  /** In CPU cycles: the prediction is met, and without a skip no earlier cycle meets it; with one,
    * the blank starts in the predicted cycle or in the one before.
    */
  lemma PredictionExact(p: Ppu, mem: Mem)
    requires ValidMem(mem) && AtRest(p) && CyclesToNmi(p) > 0
    ensures var d := CyclesToNmi(p);
            && VblankBy(p, mem, 3 * d)
            && (SkipBeforeVblank(p) == 0 ==> !VblankBy(p, mem, 3 * (d - 1)))
            && (SkipBeforeVblank(p) == 1 ==>
                  && (VblankBy(p, mem, 3 * (d - 1)) <==> DotsToVblank(p) % 3 == 1)
                  && (d > 1 ==> !VblankBy(p, mem, 3 * (d - 2))))
  {
    hide Dots, ValidMem, VblankBy, AtRest;
    var d, dots := CyclesToNmi(p), DotsToVblank(p);
    VblankExact(p, mem, dots);
    VblankByGrows(p, mem, dots, 3 * d);
    VblankExact(p, mem, 3 * (d - 1));
    if d > 1 {
      VblankExact(p, mem, 3 * (d - 2));
    }
  }
}
