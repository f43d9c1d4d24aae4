/** The reference picture unit: one dot at a time.
  *
  * No batches, no stages of a line and no position that lags behind appear here; PpuDevice.dfy proves
  * that the source's nested loops compute what Dots computes.
  */
module PpuReference {
  import opened Common
  import opened PpuTypes
  import opened PpuTiles
  import opened PpuSprites

  function Setup(p: Ppu, mem: Mem): (s: LineSetup)
    requires ValidPpu(p) && p.scanLine < FRAME_HEIGHT
    ensures s.Valid()
  {
    LineSetup(p.scanLine, p.TallSprites(), p.SpritePattern(), p.oamAddr / 4, mem.noSpriteLimit)
  }

  /** With rendering on the horizontal scroll is reloaded and OAMADDR cleared. */
  function AssignX(p: Ppu, on: bool): Ppu {
    p.(cur := if on then p.cur.(tileX := p.reg.tmp.tileX, ntX := p.reg.tmp.ntX) else p.cur,
       oamAddr := if on then 0 else p.oamAddr)
  }

  /** With rendering on the vertical scroll is reloaded and OAMADDR cleared. */
  function AssignY(p: Ppu, on: bool): Ppu {
    p.(cur := if on then p.cur.(tileY := p.reg.tmp.tileY, ntY := p.reg.tmp.ntY, fineY := p.reg.tmp.fineY) else p.cur,
       oamAddr := if on then 0 else p.oamAddr)
  }

  /** Rendering keeps OAMADDR at zero during the sprite fetches. */
  function ClearOamAddr(p: Ppu): Ppu { p.(oamAddr := if p.Enabled() then 0 else p.oamAddr) }

  /** Tiles that must have been drawn when the given dot is reached: two are fetched ahead. */
  function TilesBy(dot: nat): (t: nat)
    ensures t <= LINE_TILES
  {
    Min((dot + 7) / 8 + 2, LINE_TILES)
  }

  /** The sprite-0 flag goes up when the line has been shown past the dot of the hit. */
  function NoteHit(p: Ppu, lo: nat, hi: nat): (q: Ppu)
    ensures q == p.(status := q.status)
  {
    if p.sp0.hit && lo <= p.sp0.x < hi then p.WithSprite0() else p
  }

  /** What no action of a dot changes but the handing over of a finished picture. */
  predicate SamePlace(p: Ppu, q: Ppu) {
    q.scanLine == p.scanLine && q.oddFrame == p.oddFrame && q.reg.mask == p.reg.mask && q.frames == p.frames
  }

  /** Dot 256: the sprites of the next line are prepared and the scroll register goes down a row. */
  function EndPixels(p: Ppu, mem: Mem): (q: Ppu)
    requires ValidMem(mem) && ValidPpu(p) && p.scanLine < FRAME_HEIGHT
    ensures ValidPpu(q)
    ensures q == p.(lineSprites := q.lineSprites, status := q.status, cur := q.cur,
                    lastTileX := 0, sp0 := p.sp0.(hit := false))
  {
    hide SpriteLine, Overflows, IncY, Setup, ValidVram;
    var on := p.RenderingAt(256);
    p.(lineSprites := if on then SpriteLine(Setup(p, mem), mem) else p.lineSprites,
       status := p.status.(overflow := p.status.overflow || (on && Overflows(Setup(p, mem), mem))),
       cur := if on then IncY(p.cur) else p.cur,
       lastTileX := 0, sp0 := p.sp0.(hit := false))
  }

  function VisibleDot(p: Ppu, mem: Mem, d: nat): (q: Ppu)
    requires ValidMem(mem) && ValidPpu(p) && p.scanLine < FRAME_HEIGHT && d < DOTS_PER_LINE
    ensures ValidPpu(q) && SamePlace(p, q)
  {
    hide DrawTiles, Backdrop, EndPixels;
    if d < LINE_WIDTH then
      NoteHit(if p.RenderingAt(d) then DrawTiles(p, mem, TilesBy(d + 1)) else PutPixel(p, d, Backdrop(p, mem)),
              d, d + 1)
    else if d == 256 then EndPixels(p, mem)
    else if d == 257 then AssignX(p, p.RenderingAt(d))
    else if d <= 320 then ClearOamAddr(p)
    else p
  }

  function EmptyLine(): (line: seq<u8>)
    ensures |line| == LINE_WIDTH
  {
    seq(LINE_WIDTH, _ => 0)
  }

  function PreRenderDot(p: Ppu, d: nat): (q: Ppu)
    requires ValidPpu(p)
    ensures ValidPpu(q) && SamePlace(p, q)
  {
    if d == 1 then
      p.(status := p.status.(vblank := false, sprite0 := false, overflow := false), lineSprites := EmptyLine())
    else if d == 257 then AssignX(p, p.Enabled())
    else if 280 <= d <= 304 then AssignY(p, p.Enabled())
    else if 258 <= d <= 320 then ClearOamAddr(p)
    else p
  }

  function BlankLogged(log: NmiLog, raises: bool): NmiLog { NmiLog(log.raised + if raises then 1 else 0, raises) }

  /** The vertical blank begins at dot 1 of its line unless the flag was read in that very dot. */
  function VblankDot(p: Ppu, d: nat): (q: Ppu)
    ensures ValidPpu(p) ==> ValidPpu(q)
  {
    if d != 1 then p
    else p.(status := p.status.(
                    readRace := false, vblank := p.status.vblank || !p.status.readRace,
                    nmi := p.status.nmi || (!p.status.readRace && p.NmiEnabled())),
            nmis := BlankLogged(p.nmis, !p.status.readRace && p.NmiEnabled()))
  }

  function Act(p: Ppu, mem: Mem): (q: Ppu)
    requires ValidMem(mem) && ValidPpu(p) && p.scanLine < VBLANK_END && p.dot < DOTS_PER_LINE
    ensures ValidPpu(q)
    ensures SamePlace(p, q.(frames := p.frames))
    ensures q.frames == if p.scanLine == POST_RENDER_LINE && p.dot == 0 then p.frames + [p.screen] else p.frames
  {
    hide VisibleDot, PreRenderDot, ValidVram;
    if p.scanLine < FRAME_HEIGHT then VisibleDot(p, mem, p.dot)
    else if p.scanLine == POST_RENDER_LINE then
      p.(frames := if p.dot == 0 then p.frames + [p.screen] else p.frames)
    else if p.scanLine == VBLANK_LINE then VblankDot(p, p.dot)
    else if p.scanLine == PRE_RENDER_LINE then PreRenderDot(p, p.dot)
    else p
  }

  predicate SkipsDot(p: Ppu) {
    p.scanLine == PRE_RENDER_LINE && p.dot == 338 && p.oddFrame && p.Enabled()
  }

  /** Move to another dot of the line, or past its end to the next line. */
  function MoveTo(p: Ppu, dot: nat): (q: Ppu)
    ensures ValidPpu(p) && (dot < DOTS_PER_LINE || p.scanLine < VBLANK_END) ==> ValidPpu(q)
  {
    var stays := dot < DOTS_PER_LINE;
    p.(scanLine := if stays then p.scanLine else p.scanLine + 1,
       dot := if stays then dot else 0, lastDot := if stays then dot else 0,
       rendToggleDot := if stays then p.rendToggleDot else 0)
  }

  /** The end of the pre-render line is only noticed when the next dot begins. */
  function NewFrame(p: Ppu): Ppu {
    if p.scanLine == VBLANK_END then p.(scanLine := 0, oddFrame := !p.oddFrame) else p
  }

  function Dot(p: Ppu, mem: Mem): (q: Ppu)
    requires ValidMem(mem) && AtRest(p)
    ensures AtRest(q)
  {
    hide Act;
    var f := NewFrame(p);
    MoveTo(Act(f, mem), f.dot + (if SkipsDot(f) then 2 else 1))
  }

  lemma DotOnVisibleLine(p: Ppu, mem: Mem)
    requires ValidMem(mem) && AtRest(p) && p.scanLine < FRAME_HEIGHT
    ensures Dot(p, mem) == MoveTo(VisibleDot(p, mem, p.dot), p.dot + 1)
  {
    hide VisibleDot, MoveTo, ValidMem, ValidPpu;
  }

  ghost function Dots(p: Ppu, mem: Mem, n: nat): (q: Ppu)
    requires ValidMem(mem) && AtRest(p)
    ensures AtRest(q)
  {
    if n == 0 then p else Dot(Dots(p, mem, n - 1), mem)
  }

  lemma {:induction false} DotsAdd(p: Ppu, mem: Mem, m: nat, n: nat)
    requires ValidMem(mem) && AtRest(p)
    ensures Dots(Dots(p, mem, m), mem, n) == Dots(p, mem, m + n)
  {
    hide Dot, AtRest, ValidMem;
    if n > 0 {
      DotsAdd(p, mem, m, n - 1);
    }
  }
}
