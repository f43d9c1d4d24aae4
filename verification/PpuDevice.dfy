/** The picture unit as the source has it: one object, updated in place, caught up in stages.
  */
module PpuDevice {
  import opened Common
  import opened PpuTypes
  import opened PpuTiles
  import opened PpuLine
  import opened PpuSprites
  import opened PpuReference
  import opened PpuBatch
  import opened PpuStages
  import opened PpuRegisters
  import opened PpuPending
  import PpuNmi
  import PpuTheorems

  /** The pattern bytes and the palette of one background tile row (render.c:234-248). */
  datatype TileRow = TileRow(high: u8, low: u8, palette: nat)

  function BgTileData(mem: Mem, table: nat, v: Vram): (t: TileRow)
    requires ValidMem(mem) && ValidVram(v) && table < 2
    ensures t.palette < 4
  {
    var nt := mem.names[2 * v.ntY + v.ntX];
    var ntIdx := NameIndex(v);
    var at := 16 * nt[ntIdx] + v.fineY;
    TileRow(mem.patterns[table][at + 8], mem.patterns[table][at],
            PaletteFromAttr(nt[960 + AttrIndex(ntIdx)], ntIdx))
  }

  class Device {
    var ctrl: u8
    var mask: u8
    /** The status byte but for its bit 1. */
    var status: Status
    /** Bit 1 of the status byte: an NMI is pending but not latched. */
    var nmiPending: bool
    /** The latch inside PpuNmiEdgeSet. */
    var nmiSignal: bool
    var oamAddr: u8
    var cur: Vram
    var tmp: Vram
    var fineX: nat
    var secondWrite: bool
    var scanLine: nat
    var dot: nat
    var oddFrame: bool
    var lastDot: nat
    var rendToggleDot: nat
    var greyscale: bool
    const lineSprites: array<u8>
    var lastTileX: nat
    var sp0: SpriteZero
    const screen: array<u8>
    /** The video backend: every frame flushed so far. */
    var frames: seq<seq<u8>>
    /** NMIs raised so far. */
    ghost var nmis: NmiLog

    ghost predicate Wf()
      reads this
    {
      lineSprites != screen && lineSprites.Length == LINE_WIDTH && screen.Length == LINE_WIDTH * FRAME_HEIGHT
    }

    ghost function View(): Ppu
      reads this, lineSprites, screen
    {
      Ppu(Regs(ctrl, mask, tmp, fineX, secondWrite, greyscale), status.(nmi := nmiPending || nmiSignal), oamAddr, cur,
          scanLine, dot, oddFrame, lastDot, rendToggleDot, lineSprites[..], lastTileX, sp0, screen[..], frames,
          nmis)
    }

    /** The status byte with its bit 1. */
    function Flags(): Status
      reads `status, `nmiPending
    {
      status.(nmi := nmiPending)
    }

    /** NMIs raised and not taken yet. */
    ghost function Held(): nat
      reads `nmiPending, `nmiSignal
    {
      (if nmiPending then 1 else 0) + (if nmiSignal then 1 else 0)
    }

    /** ppu.c:485-492, 586-603: power-on, one line before the pre-render line. */
    constructor Init()
      ensures Wf() && fresh(lineSprites) && fresh(screen)
      ensures AtRest(View()) && scanLine == PRE_RENDER_LINE - 1 && dot == 0
      ensures status == Status(true, false, true, false, false) && !nmiPending && !nmiSignal
      ensures ctrl == 0 && mask == 0 && frames == [] && nmis == NmiLog(0, false)
      ensures oamAddr == 0 && cur == tmp == Vram(0, 0, 0, 0, 0) && fineX == 0 && !secondWrite && !oddFrame
      ensures rendToggleDot == 0 && !greyscale && lastTileX == 0 && !sp0.hit
      ensures forall x | 0 <= x < LINE_WIDTH :: lineSprites[x] == 0
    {
      ctrl, mask, oamAddr := 0, 0, 0;
      status, nmiPending, nmiSignal := Status(true, false, true, false, false), false, false;
      cur, tmp, fineX, secondWrite := Vram(0, 0, 0, 0, 0), Vram(0, 0, 0, 0, 0), 0, false;
      scanLine, dot, oddFrame := PRE_RENDER_LINE - 1, 0, false;
      lastDot, rendToggleDot, greyscale, lastTileX, sp0 := 0, 0, false, 0, SpriteZero(false, 0);
      lineSprites := new u8[LINE_WIDTH](_ => 0);
      screen := new u8[LINE_WIDTH * FRAME_HEIGHT];
      frames, nmis := [], NmiLog(0, false);
    }

    function BgEnabled(): bool
      reads this
    {
      mask / 8 % 2 == 1
    }

    function SpEnabled(): bool
      reads this
    {
      mask / 16 % 2 == 1
    }

    /** render.c:150-161. */
    function RenderingEnabled(): bool
      reads this
    {
      var enabled := BgEnabled() || SpEnabled();
      if rendToggleDot == 0 || lastDot >= rendToggleDot + TOGGLE_DELAY then enabled else !enabled
    }

    method VideoSetPixel(x: nat, color: u8)
      requires Wf() && ValidPpu(View()) && scanLine < FRAME_HEIGHT && x < LINE_WIDTH
      modifies screen
      ensures View() == PutPixel(old(View()), x, color)
    {
      screen[LINE_WIDTH * scanLine + x] := color;
    }

    /** render.c:163-183. */
    method SpriteZeroHitUpdate(x: nat)
      requires x < LINE_WIDTH
      modifies `sp0
      ensures sp0 == if !old(sp0.hit) && !status.sprite0 && x != 255 then SpriteZero(true, x) else old(sp0)
    {
      if sp0.hit || status.sprite0 {
        return;
      }
      if x == 255 {
        return;
      }
      sp0 := SpriteZero(true, x);
    }

    /** render.c:250-254. */
    method RenderBackDropTile(mem: Mem, x: nat)
      requires ValidMem(mem) && Wf() && ValidPpu(View()) && scanLine < FRAME_HEIGHT
      requires lastTileX < LINE_TILES && x == 8 * lastTileX
      requires forall at | x <= at < x + 8 :: PlainDot(View(), mem, at)
      modifies screen
      ensures View() == DrawDots(old(View()), mem, 8)
    {
      for offs := 0 to 8
        invariant View() == DrawDots(old(View()), mem, offs)
      {
        hide DrawDots, PlainDot, ValidMem;
        DrawBackDropColor(mem, x, offs, old(View()));
      }
    }

    /** render.c:229-232. */
    method DrawBackDropColor(mem: Mem, x: nat, offs: nat, ghost p: Ppu)
      requires ValidMem(mem) && Wf() && ValidPpu(p) && scanLine < FRAME_HEIGHT && p.scanLine == scanLine
      requires p.lastTileX < LINE_TILES && x == 8 * p.lastTileX && offs < 8
      requires View() == DrawDots(p, mem, offs) && PlainDot(p, mem, x + offs)
      modifies screen
      ensures View() == DrawDots(p, mem, offs + 1)
    {
      hide Shown, Pixel, HitAt, ColumnAt, ValidMem, SameLine, ValidVram, PlainDot;
      DotsSameLine(p, mem, offs);
      PlainDotDrawn(p, View(), mem, x + offs);
      VideoSetPixel(x + offs, Shown(mem, 0, greyscale));
    }

    /** render.c:256-292. */
    method RenderBgTile(mem: Mem, x: nat, spEnabled: bool)
      requires ValidMem(mem) && Wf() && ValidPpu(View()) && scanLine < FRAME_HEIGHT
      requires lastTileX < LINE_TILES && x == 8 * lastTileX && BgVisible(View(), x)
      requires forall at | x <= at < x + 8 :: SpriteAt(View(), at) == if spEnabled then lineSprites[at] else 0
      modifies `sp0, screen
      ensures View() == DrawDots(old(View()), mem, 8)
    {
      hide Shown, Pixel, HitAt, ColumnAt, BgTileData, ValidMem, SpriteAt, BgAt, BgVisible, DrawDot, DotColor,
           SameLine, IncX, Bit, BgPalette, ValidVram;
      ghost var p := View();
      var table := ctrl / 16 % 2;
      var crossAt := if fineX != 0 then 8 - fineX else 8;
      var row := BgTileData(mem, table, cur);
      if row.high == 0 && row.low == 0 && !spEnabled && crossAt == 8 {
        EmptyTile(p, mem);
        RenderBackDropTile(mem, x);
        return;
      }
      for offs := 0 to 8
        invariant View() == DrawDots(p, mem, offs)
        invariant row == BgTileData(mem, table, if offs <= crossAt then cur else IncX(cur))
      {
        if offs == crossAt {
          row := BgTileData(mem, table, IncX(cur));
        }
        RenderBgColumn(mem, x, offs, row, spEnabled, p);
      }
    }

    /** render.c:276-290: the next dot of a background tile, its tile row being at hand. */
    method RenderBgColumn(mem: Mem, x: nat, offs: nat, row: TileRow, spEnabled: bool, ghost p: Ppu)
      requires ValidMem(mem) && Wf() && ValidPpu(p) && scanLine < FRAME_HEIGHT && p.scanLine == scanLine
      requires p.lastTileX < LINE_TILES && x == 8 * p.lastTileX && BgVisible(p, x) && offs < 8
      requires View() == DrawDots(p, mem, offs)
      requires row == BgTileData(mem, p.BackgroundPattern(), TileOf(p.cur, p.reg.fineX, offs))
      requires SpriteAt(p, x + offs) == if spEnabled then lineSprites[x + offs] else 0
      modifies `sp0, screen
      ensures View() == DrawDots(p, mem, offs + 1)
    {
      hide Shown, Pixel, HitAt, ColumnAt, BgTileData, ValidMem, SpriteAt, BgAt, BgVisible, DrawDot, DotColor,
           IncX, Bit, BgPalette, ValidVram;
      var shift := 7 - (fineX + x + offs) % 8;
      var bgColorIdx := 2 * Bit(row.high, shift) + Bit(row.low, shift);
      var spPixel := if spEnabled then lineSprites[x + offs] else 0;
      DotsSameLine(p, mem, offs);
      BgDot(p, View(), mem, offs, row);
      DotColors(p, View(), mem, offs, row, bgColorIdx, spPixel);
      RenderBgDot(mem, x + offs, row, bgColorIdx, spPixel, ColumnAt(p, x + offs));
    }

    /** render.c:278-290: one dot of a background tile. */
    method RenderBgDot(mem: Mem, x: nat, row: TileRow, bgColorIdx: nat, spPixel: u8, ghost col: nat)
      requires ValidMem(mem) && Wf() && ValidPpu(View()) && scanLine < FRAME_HEIGHT
      requires x < LINE_WIDTH && col < 512 && row.palette < 4 && bgColorIdx < 4
      requires Pixel(View(), mem, x, col) == DotColor(mem, row, bgColorIdx, spPixel, greyscale)
      requires HitAt(View(), mem, x, col) <==> x != 255 && SpriteIsZero(spPixel) && bgColorIdx != 0
      modifies `sp0, screen
      ensures View() == DrawDot(old(View()), mem, x, col)
    {
      hide Pixel, HitAt, Shown;
      if spPixel != 0 {
        if SpriteIsZero(spPixel) && bgColorIdx != 0 {
          SpriteZeroHitUpdate(x);
        }
        if bgColorIdx == 0 || SpriteInFront(spPixel) {
          VideoSetPixel(x, Shown(mem, 16 + 4 * SpritePalette(spPixel) + SpriteColor(spPixel), greyscale));
          return;
        }
      }
      VideoSetPixel(x, Shown(mem, if bgColorIdx == 0 then 0 else 4 * row.palette + bgColorIdx, greyscale));
    }

    /** render.c:294-303. */
    method RenderSpTile(mem: Mem, x: nat)
      requires ValidMem(mem) && Wf() && ValidPpu(View()) && scanLine < FRAME_HEIGHT
      requires lastTileX < LINE_TILES && x == 8 * lastTileX && !BgVisible(View(), x)
      requires forall at | x <= at < x + 8 :: SpriteAt(View(), at) == lineSprites[at]
      modifies `sp0, screen
      ensures View() == DrawDots(old(View()), mem, 8)
    {
      hide Shown, Pixel, HitAt, ColumnAt, ValidMem, SpriteAt, BgAt, BgVisible, DrawDot, DotColor;
      ghost var p := View();
      for offs := 0 to 8
        invariant View() == DrawDots(p, mem, offs)
      {
        NoBackground(p, View(), mem, offs);
        var spPixel := lineSprites[x + offs];
        DotColors(p, View(), mem, offs, TileRow(0, 0, 0), 0, spPixel);
        RenderBgDot(mem, x + offs, TileRow(0, 0, 0), 0, spPixel, ColumnAt(p, x + offs));
      }
    }

    /** render.c:305-310. */
    function HasSpriteTileData(x: nat): bool
      requires x + 8 <= lineSprites.Length
      reads this, lineSprites
    {
      exists k :: x <= k < x + 8 && lineSprites[k] != 0
    }

    /** render.c:312-335. */
    method RenderTiles(mem: Mem, endTileX: nat)
      requires ValidMem(mem) && Wf() && ValidPpu(View()) && scanLine < FRAME_HEIGHT && endTileX <= LINE_TILES
      modifies `sp0, `cur, `lastTileX, screen
      ensures View() == DrawTiles(old(View()), mem, endTileX)
    {
      hide ValidMem, DrawTile;
      while lastTileX < endTileX
        invariant Wf() && ValidPpu(View()) && scanLine < FRAME_HEIGHT
        invariant DrawTiles(View(), mem, endTileX) == DrawTiles(old(View()), mem, endTileX)
        decreases endTileX - lastTileX
      {
        RenderTile(mem);
      }
    }

    /** render.c:319-333: the next tile. */
    method RenderTile(mem: Mem)
      requires ValidMem(mem) && Wf() && ValidPpu(View()) && scanLine < FRAME_HEIGHT && lastTileX < LINE_TILES
      modifies `sp0, `cur, `lastTileX, screen
      ensures View() == DrawTile(old(View()), mem)
    {
      hide Pixel, HitAt, ColumnAt, ValidMem, DrawDots, IncX, BgVisible, SpVisible, SpriteAt;
      ghost var p := View();
      var x := 8 * lastTileX;
      var bgEnabled := BgEnabled() && (lastTileX != 0 || mask / 2 % 2 == 1);
      var spEnabled := SpEnabled() && (lastTileX != 0 || mask / 4 % 2 == 1);
      TileVisible(p);
      if spEnabled {
        spEnabled := HasSpriteTileData(x);
      }
      if bgEnabled {
        RenderBgTile(mem, x, spEnabled);
      } else if spEnabled {
        RenderSpTile(mem, x);
      } else {
        PlainTile(p, mem);
        RenderBackDropTile(mem, x);
      }
      cur := IncX(cur);
      lastTileX := lastTileX + 1;
    }

    /** render.c:432-440. */
    method ScanLineNoRender(mem: Mem, endX: nat)
      requires ValidMem(mem) && Wf() && ValidPpu(View()) && scanLine < FRAME_HEIGHT
      requires lastDot <= endX <= LINE_WIDTH
      modifies screen
      ensures View() == BackdropRun(old(View()), mem, lastDot, endX)
    {
      hide Shown, ValidMem;
      var x := lastDot;
      while x < endX
        invariant lastDot <= x <= endX && ValidPpu(View())
        invariant View() == BackdropRun(old(View()), mem, lastDot, x)
      {
        VideoSetPixel(x, Shown(mem, 0, greyscale));
        x := x + 1;
      }
    }

    /** render.c:471-481: show the line up to a dot. */
    method ShowUpTo(mem: Mem, nextCycleStage: nat)
      requires ValidMem(mem) && Wf() && ValidPpu(View()) && scanLine < FRAME_HEIGHT
      requires lastDot <= nextCycleStage <= LINE_WIDTH
      modifies `status, `cur, `lastTileX, `sp0, screen
      ensures View() == Stretch(old(View()), mem, lastDot, nextCycleStage)
    {
      hide DrawTiles, BackdropRun, ValidMem, ValidPpu;
      if RenderingEnabled() {
        var endTileX := (nextCycleStage + 7) / 8;
        RenderTiles(mem, Min(endTileX + 2, LINE_TILES));
      } else {
        ScanLineNoRender(mem, nextCycleStage);
      }
      if sp0.hit && lastDot <= sp0.x < nextCycleStage {
        status := status.(sprite0 := true);
      }
    }

    /** render.c:465-469. */
    function NextCycleStage(): (stage: nat)
      reads this
      requires lastDot < LINE_WIDTH && lastDot < dot
      ensures lastDot < stage <= LINE_WIDTH && stage <= dot
      ensures rendToggleDot == 0 || lastDot >= rendToggleDot + TOGGLE_DELAY || stage <= rendToggleDot + TOGGLE_DELAY
    {
      if rendToggleDot != 0 && lastDot < rendToggleDot + TOGGLE_DELAY
      then Min(Min(LINE_WIDTH, dot), rendToggleDot + TOGGLE_DELAY)
      else Min(LINE_WIDTH, dot)
    }

    /** render.c:464-483: a stretch of pixels. */
    method RenderPixels(mem: Mem)
      requires ValidMem(mem) && Wf() && Behind(View()) && scanLine < FRAME_HEIGHT
      requires lastDot < LINE_WIDTH && lastDot < dot
      modifies `status, `cur, `lastDot, `lastTileX, `sp0, screen
      ensures old(Behind(View())) && Paid(old(View()), View(), mem)
      ensures lastDot <= dot && old(lastDot) < lastDot <= LINE_WIDTH
    {
      hide Stretch, ValidMem, Goal, Left, Norm, Paid, ValidPpu, Dots;
      ghost var v := View();
      var nextCycleStage := NextCycleStage();
      ShowUpTo(mem, nextCycleStage);
      lastDot := nextCycleStage;
      PixelStage(v, View(), mem, nextCycleStage);
    }

    /** render.c:490-493: the sprites of the line are evaluated and the scroll goes down a row. */
    method EvaluateSprites(mem: Mem)
      requires ValidMem(mem) && Wf() && ValidPpu(View()) && scanLine < FRAME_HEIGHT
      modifies `status, `cur, lineSprites
      ensures var p := old(View());
              View() == p.(lineSprites := SpriteLine(Setup(p, mem), mem),
                           status := p.status.(overflow := p.status.overflow || Overflows(Setup(p, mem), mem)),
                           cur := IncY(p.cur))
    {
      hide ValidMem, SpriteLine, Overflows, IncY;
      var setup := LineSetup(scanLine, ctrl / 32 % 2 == 1, ctrl / 8 % 2, oamAddr / 4, mem.noSpriteLimit);
      var over := PreRenderSpriteLine(lineSprites, setup, mem);
      status := status.(overflow := status.overflow || over);
      cur := IncY(cur);
    }

    /** render.c:485-497: dot 256. */
    method FinishPixels(mem: Mem)
      requires ValidMem(mem) && Wf() && Behind(View()) && scanLine < FRAME_HEIGHT && lastDot == 256 < dot
      modifies `status, `cur, `lastDot, `lastTileX, `sp0, lineSprites
      ensures old(Behind(View())) && Paid(old(View()), View(), mem) && lastDot == 257
    {
      hide ValidMem, SpriteLine, Overflows, IncY, Goal, Left, Norm, Paid;
      ghost var v := View();
      if RenderingEnabled() {
        EvaluateSprites(mem);
      }
      lastTileX := 0;
      sp0 := sp0.(hit := false);
      lastDot := lastDot + 1;
      TurnStage(v, View(), mem);
    }

    /** render.c:498-505: dot 257. */
    method ReloadX(mem: Mem)
      requires ValidMem(mem) && Wf() && Behind(View()) && scanLine < FRAME_HEIGHT && lastDot == 257 < dot
      modifies `oamAddr, `cur, `lastDot
      ensures old(Behind(View())) && Paid(old(View()), View(), mem) && lastDot == 258
    {
      hide ValidMem, Goal, Left, Norm;
      ghost var v := View();
      if RenderingEnabled() {
        cur := cur.(tileX := tmp.tileX);
        cur := cur.(ntX := tmp.ntX);
        oamAddr := 0;
      }
      lastDot := lastDot + 1;
      TurnStage(v, View(), mem);
    }

    /** render.c:442-446. */
    method ResetOamAddr()
      modifies `oamAddr
      ensures View() == ClearOamAddr(old(View()))
    {
      if BgEnabled() || SpEnabled() {
        oamAddr := 0;
      }
    }

    /** render.c:506-514: the sprite fetches and the rest of the line. */
    method FetchSprites(mem: Mem)
      requires ValidMem(mem) && Wf() && Behind(View()) && scanLine < FRAME_HEIGHT
      requires 258 <= lastDot < DOTS_PER_LINE && lastDot < dot
      modifies `oamAddr, `lastDot
      ensures lastDot == dot
      ensures old(Behind(View())) && Paid(old(View()), View(), mem)
    {
      hide ValidMem, Goal, Left, Norm, ValidPpu, Paid;
      ghost var v := View();
      if lastDot <= 320 {
        ResetOamAddr();
      }
      lastDot := dot;
      FetchStage(v, View(), mem);
    }

    /** render.c:455-519. */
    method VisibleLineRender(mem: Mem)
      requires ValidMem(mem) && Wf() && Behind(View()) && scanLine < FRAME_HEIGHT
      requires lastDot < DOTS_PER_LINE && lastDot < dot
      modifies `status, `oamAddr, `cur, `lastDot, `lastTileX, `sp0, lineSprites, screen
      ensures lastDot == dot
      ensures old(Behind(View())) && Paid(old(View()), View(), mem)
    {
      hide ValidMem, Goal, Left, Norm, ValidPpu;
      ghost var start := View();
      while lastDot != dot
        invariant Wf() && Behind(View()) && (lastDot < DOTS_PER_LINE || lastDot == dot)
        invariant (View() == start && lastDot < dot) || Paid(start, View(), mem)
        decreases dot - lastDot
      {
        ghost var v := View();
        if lastDot <= 255 {
          RenderPixels(mem);
        } else if lastDot == 256 {
          FinishPixels(mem);
        } else if lastDot == 257 {
          ReloadX(mem);
        } else {
          FetchSprites(mem);
        }
        if v != start {
          PaidTwice(start, v, View(), mem);
        }
      }
    }

    /** render.c:542-549. */
    method ClearFlags()
      requires Wf()
      modifies `status, lineSprites
      ensures View() == old(View()).(
                          status := old(View()).status.(vblank := false, sprite0 := false, overflow := false),
                          lineSprites := EmptyLine())
    {
      status := status.(vblank := false);
      status := status.(sprite0 := false);
      status := status.(overflow := false);
      forall i | 0 <= i < lineSprites.Length { lineSprites[i] := 0; }
      assert lineSprites[..] == EmptyLine();
    }

    /** render.c:554-558. */
    method AssignXNow()
      modifies `cur, `oamAddr
      ensures View() == AssignX(old(View()), old(View()).Enabled())
    {
      if BgEnabled() || SpEnabled() {
        cur := cur.(tileX := tmp.tileX);
        cur := cur.(ntX := tmp.ntX);
        oamAddr := 0;
      }
    }

    /** render.c:566-571. */
    method AssignYNow()
      modifies `cur, `oamAddr
      ensures View() == AssignY(old(View()), old(View()).Enabled())
    {
      if BgEnabled() || SpEnabled() {
        cur := cur.(tileY := tmp.tileY);
        cur := cur.(ntY := tmp.ntY);
        cur := cur.(fineY := tmp.fineY);
        oamAddr := 0;
      }
    }

    /** render.c:539-560: one pass of the pre-render loop, up to the horizontal reload. */
    method PreRenderEarly(mem: Mem)
      requires ValidMem(mem) && Wf() && Behind(View()) && scanLine == PRE_RENDER_LINE
      requires lastDot <= 257 && lastDot < dot
      modifies `status, `oamAddr, `cur, `lastDot, lineSprites
      ensures old(Behind(View())) && Paid(old(View()), View(), mem)
      ensures lastDot < DOTS_PER_LINE
    {
      hide ValidMem, Goal, Left, Norm, Paid, ValidPpu, Dots, AssignX, AssignY, ClearOamAddr;
      ghost var v := View();
      if lastDot == 0 {
        lastDot := lastDot + 1;
        SteadyStage(v, View(), mem, Nothing, 1);
      } else if lastDot == 1 {
        ClearFlags();
        lastDot := lastDot + 1;
        PreRenderEvent(v, View(), mem);
      } else if lastDot <= 256 {
        lastDot := Min(257, dot);
        SteadyStage(v, View(), mem, Nothing, lastDot);
      } else {
        AssignXNow();
        lastDot := lastDot + 1;
        PreRenderEvent(v, View(), mem);
      }
    }

    /** render.c:561-564. */
    method HoldOamAddr(mem: Mem)
      requires ValidMem(mem) && Wf() && Behind(View()) && scanLine == PRE_RENDER_LINE
      requires 258 <= lastDot <= 279 && lastDot < dot
      modifies `oamAddr, `cur, `lastDot
      ensures old(Behind(View())) && Paid(old(View()), View(), mem)
      ensures lastDot < DOTS_PER_LINE
    {
      hide ValidMem, Goal, Left, Norm, Paid, ValidPpu, Dots, ClearOamAddr;
      ghost var v := View();
      lastDot := Min(280, dot);
      ResetOamAddr();
      ClearLater(v, lastDot);
      SteadyStage(v, View(), mem, ClearsOam, lastDot);
    }

    /** render.c:565-573. */
    method ReloadY(mem: Mem)
      requires ValidMem(mem) && Wf() && Behind(View()) && scanLine == PRE_RENDER_LINE
      requires 280 <= lastDot <= 304 && lastDot < dot
      modifies `oamAddr, `cur, `lastDot
      ensures old(Behind(View())) && Paid(old(View()), View(), mem)
      ensures lastDot < DOTS_PER_LINE
    {
      hide ValidMem, Goal, Left, Norm, Paid, ValidPpu, Dots, AssignY;
      ghost var v := View();
      AssignYNow();
      lastDot := Min(305, dot);
      SteadyStage(v, View(), mem, CopiesY, lastDot);
    }

    /** render.c:574-582. */
    method PreRenderFetches(mem: Mem)
      requires ValidMem(mem) && Wf() && Behind(View()) && scanLine == PRE_RENDER_LINE
      requires 305 <= lastDot <= 337 && lastDot < dot
      modifies `oamAddr, `cur, `lastDot
      ensures old(Behind(View())) && Paid(old(View()), View(), mem)
      ensures lastDot < DOTS_PER_LINE
    {
      hide ValidMem, Goal, Left, Norm, Paid, ValidPpu, Dots, ClearOamAddr;
      ghost var v := View();
      if lastDot <= 320 {
        ResetOamAddr();
      }
      lastDot := Min(338, dot);
      PreRenderFetch(v, View(), mem);
    }

    /** render.c:583-589. */
    method PreRenderEnd(mem: Mem)
      requires ValidMem(mem) && Wf() && Behind(View()) && scanLine == PRE_RENDER_LINE
      requires 338 <= lastDot < DOTS_PER_LINE && lastDot < dot
      modifies `lastDot, `dot
      ensures old(Behind(View())) && Paid(old(View()), View(), mem)
      ensures lastDot == dot
    {
      hide ValidMem, Goal, Left, Norm, Paid, ValidPpu, Dots;
      ghost var v := View();
      if lastDot == 338 {
        if oddFrame && (BgEnabled() || SpEnabled()) {
          dot := dot + 1;
        }
        lastDot := dot;
        SkipStage(v, View(), mem);
      } else {
        lastDot := dot;
        DummyStage(v, View(), mem);
      }
    }

    /** render.c:533-594. */
    method PreRenderLine(mem: Mem)
      requires ValidMem(mem) && Wf() && Behind(View()) && scanLine == PRE_RENDER_LINE
      requires lastDot < DOTS_PER_LINE && lastDot < dot
      modifies `status, `oamAddr, `cur, `lastDot, `dot, lineSprites
      ensures lastDot == dot
      ensures old(Behind(View())) && Paid(old(View()), View(), mem)
    {
      hide ValidMem, Goal, Left, Norm, ValidPpu;
      ghost var start := View();
      while lastDot != dot
        invariant Wf() && Behind(View()) && (lastDot < DOTS_PER_LINE || lastDot == dot)
        invariant (View() == start && lastDot < dot) || Paid(start, View(), mem)
        decreases Left(View())
      {
        ghost var v := View();
        if lastDot <= 257 {
          PreRenderEarly(mem);
        } else if lastDot <= 279 {
          HoldOamAddr(mem);
        } else if lastDot <= 304 {
          ReloadY(mem);
        } else if lastDot <= 337 {
          PreRenderFetches(mem);
        } else {
          PreRenderEnd(mem);
        }
        if v != start {
          PaidTwice(start, v, View(), mem);
        }
      }
    }

    /** ppu.c:24-33. */
    method NmiEdgeSet(val: bool) returns (fire: bool)
      modifies `nmiSignal
      ensures nmiSignal == val && fire == old(nmiSignal)
    {
      if val != nmiSignal {
        nmiSignal := val;
        return !val;
      }
      return val;
    }

    /** ppu.c:35-42.  An NMI on its way moves one place along: pending, latched, taken. */
    method CheckNmi() returns (fire: bool)
      modifies `nmiPending, `nmiSignal
      ensures fire == old(nmiSignal) && nmiSignal == old(nmiPending) && !nmiPending
    {
      if nmiPending {
        nmiPending := false;
        fire := NmiEdgeSet(true);
      } else {
        fire := NmiEdgeSet(false);
      }
    }

    /** What running does with the NMI bits: the pending one rises if the given call or line ends where it should,
      * the latch does not fall, and no bit rises without an NMI raised.
      */
    twostate predicate NmiMoves(lands: bool)
      reads `nmiPending, `nmiSignal, `nmis
    {
      && nmiPending == (old(nmiPending) || lands)
      && (old(nmiSignal) ==> nmiSignal) && Held() + old(nmis.raised) <= old(Held()) + nmis.raised
    }

    /** ppu.c:93-98. */
    method RaiseNmi()
      modifies `nmiPending, `nmiSignal, `nmis
      ensures nmiSignal == (old(nmiSignal) || dot > 3) && nmiPending == (old(nmiPending) || dot <= 3)
      ensures nmis == NmiLog(old(nmis.raised) + 1, true)
    {
      if dot > 3 {
        var _ := NmiEdgeSet(true);
      } else {
        nmiPending := true;
      }
      nmis := NmiLog(nmis.raised + 1, true);
    }

    /** The vertical blank as it begins: latched at once when the call runs past dot 3. */
    method BeginVblank()
      requires dot > 1
      modifies `status, `nmiPending, `nmiSignal, `nmis
      ensures View() == VblankDot(old(View()), 1) && NmiMoves(dot <= 3 && nmis.blank)
    {
      hide VblankDot, BlankLogged;
      SetVblankFlags();
      IsVblankDot(old(View()), View());
    }

    method SetVblankFlags()
      requires dot > 1
      modifies `status, `nmiPending, `nmiSignal, `nmis
      ensures status == old(status).(readRace := false, vblank := old(status.vblank || !status.readRace))
      ensures nmis == BlankLogged(old(nmis), old(!status.readRace && ctrl / 128 == 1))
      ensures (nmiPending || nmiSignal) == (old(nmiPending || nmiSignal) || nmis.blank)
      ensures NmiMoves(dot <= 3 && nmis.blank)
    {
      nmis := nmis.(blank := false);
      if status.readRace {
        status := status.(readRace := false);
      } else {
        status := status.(vblank := true);
        if ctrl / 128 == 1 {
          RaiseNmi();
        }
      }
    }

    /** ppu.c:88-103. */
    method VblankLine(mem: Mem)
      requires ValidMem(mem) && Wf() && Behind(View()) && scanLine == VBLANK_LINE
      requires lastDot < DOTS_PER_LINE && lastDot < dot
      modifies `status, `nmiPending, `nmiSignal, `nmis, `lastDot
      ensures lastDot == dot
      ensures NmiMoves(old(lastDot) <= 1 < dot <= 3 && nmis.blank)
      ensures old(Behind(View())) && Paid(old(View()), View(), mem)
    {
      hide ValidMem, Goal, Left, Norm, ValidPpu, Paid, VblankDot;
      ghost var v := View();
      if lastDot <= 1 && dot > 1 {
        BeginVblank();
      }
      lastDot := dot;
      VblankStage(v, View(), mem);
    }

    /** The calls that leave an NMI pending. */
    ghost predicate Landed()
      reads this, lineSprites, screen
      ensures Landed() <==> Lands(View())
    {
      scanLine == VBLANK_LINE && 2 <= dot <= 3 && nmis.blank
    }

    /** ppu.c:70-127.  The dots of the call are those of the reference, run one by one. */
    method TicksExecute(mem: Mem, cpuCycles: nat)
      requires ValidMem(mem) && Wf() && AtRest(View()) && cpuCycles >= 1
      modifies `status, `nmiPending, `nmiSignal, `nmis, `oamAddr, `cur, `scanLine, `dot,
               `oddFrame, `lastDot, `rendToggleDot, `lastTileX, `sp0, `frames, lineSprites, screen
      ensures View() == old(Dots(View(), mem, 3 * cpuCycles))
      ensures AtRest(View())
      ensures NmiMoves(Lands(View()))
    {
      hide ValidMem, Goal, Left, Norm, ValidPpu;
      ghost var start := View();
      dot := dot + 3 * cpuCycles;
      Owes(start, View(), mem, 3 * cpuCycles);
      ghost var owed := View();
      while lastDot != dot
        invariant Wf() && Behind(View()) && lastDot < DOTS_PER_LINE
        invariant Goal(View(), mem) == Goal(owed, mem)
        invariant lastDot == 0 || lastDot == dot || dot >= lastDot + 3
        invariant NmiMoves(lastDot == dot && scanLine == VBLANK_LINE && 2 <= dot <= 3 && nmis.blank)
        decreases Left(View()), if scanLine == VBLANK_END then 1 else 0
      {
        if scanLine == VBLANK_END {
          BeginFrame(mem);
        } else {
          LineAndNext(mem);
        }
      }
      CaughtUp(View(), mem);
    }

    /** ppu.c:76-125 for a line that is not the end of the frame. */
    method LineAndNext(mem: Mem)
      requires ValidMem(mem) && Wf() && Behind(View()) && scanLine < VBLANK_END
      requires lastDot < DOTS_PER_LINE && lastDot < dot && (lastDot == 0 || dot >= lastDot + 3)
      modifies `status, `nmiPending, `nmiSignal, `nmis, `oamAddr, `cur, `scanLine, `dot,
               `lastDot, `rendToggleDot, `lastTileX, `sp0, `frames, lineSprites, screen
      ensures old(Behind(View())) && Behind(View()) && Left(View()) < old(Left(View()))
      ensures Goal(View(), mem) == old(Goal(View(), mem))
      ensures lastDot < DOTS_PER_LINE && (lastDot == 0 || lastDot == dot)
      ensures NmiMoves(lastDot == dot && scanLine == VBLANK_LINE && 2 <= dot <= 3 && nmis.blank)
    {
      hide ValidMem, Goal, Left, Norm, ValidPpu;
      Line(mem);
      if dot >= DOTS_PER_LINE {
        NextLine(mem);
      }
    }

    /** ppu.c:110-114. */
    method BeginFrame(mem: Mem)
      requires ValidMem(mem) && Behind(View()) && scanLine == VBLANK_END && lastDot < dot
      modifies `scanLine, `oddFrame
      ensures scanLine == 0 && old(Behind(View())) && Behind(View())
      ensures Left(View()) == old(Left(View())) && Goal(View(), mem) == old(Goal(View(), mem))
    {
      hide ValidMem, Goal, Left, Norm, ValidPpu;
      ghost var v := View();
      scanLine := 0;
      oddFrame := !oddFrame;
      NewFrameStage(v, View(), mem);
    }

    /** ppu.c:119-125. */
    method NextLine(mem: Mem)
      requires ValidMem(mem) && Behind(View()) && lastDot == dot >= DOTS_PER_LINE
      modifies `scanLine, `dot, `lastDot, `rendToggleDot
      ensures lastDot == 0 && old(Behind(View())) && Behind(View())
      ensures Left(View()) == old(Left(View())) && Goal(View(), mem) == old(Goal(View(), mem))
    {
      hide ValidMem, Goal, Left, Norm, ValidPpu;
      ghost var v := View();
      scanLine := scanLine + 1;
      dot := dot - DOTS_PER_LINE;
      lastDot := 0;
      rendToggleDot := 0;
      WrapStage(v, View(), mem);
    }

    /** ppu.c:81-87. */
    method PostRenderLine(mem: Mem)
      requires ValidMem(mem) && Wf() && Behind(View()) && scanLine == POST_RENDER_LINE
      requires lastDot < DOTS_PER_LINE && lastDot < dot
      modifies `lastDot, `frames
      ensures lastDot == dot
      ensures old(Behind(View())) && Paid(old(View()), View(), mem)
    {
      hide ValidMem, Goal, Left, Norm, ValidPpu, Paid;
      ghost var v := View();
      if lastDot == 0 {
        frames := frames + [screen[..]];
      }
      lastDot := dot;
      PostRenderStage(v, View(), mem);
    }

    /** ppu.c:104-106. */
    method IdleLine(mem: Mem)
      requires ValidMem(mem) && Wf() && Behind(View()) && VBLANK_LINE < scanLine < PRE_RENDER_LINE
      requires lastDot < DOTS_PER_LINE && lastDot < dot
      modifies `lastDot
      ensures lastDot == dot
      ensures old(Behind(View())) && Paid(old(View()), View(), mem)
    {
      hide ValidMem, Goal, Left, Norm, ValidPpu, Paid;
      ghost var v := View();
      lastDot := dot;
      IdleStage(v, View(), mem);
    }

    /** ppu.c:77-117: the dots of one line. */
    method Line(mem: Mem)
      requires ValidMem(mem) && Wf() && Behind(View()) && scanLine < VBLANK_END
      requires lastDot < DOTS_PER_LINE && lastDot < dot
      modifies `status, `nmiPending, `nmiSignal, `nmis, `oamAddr, `cur, `dot,
               `lastDot, `lastTileX, `sp0, `frames, lineSprites, screen
      ensures lastDot == dot
      ensures NmiMoves(scanLine == VBLANK_LINE && old(lastDot) <= 1 < dot <= 3 && nmis.blank)
      ensures scanLine == VBLANK_LINE ==> dot == old(dot)
      ensures old(Behind(View())) && Paid(old(View()), View(), mem)
    {
      hide ValidMem, Goal, Left, Norm, ValidPpu, Paid, Behind;
      if scanLine < FRAME_HEIGHT {
        VisibleLineRender(mem);
      } else if scanLine == POST_RENDER_LINE {
        PostRenderLine(mem);
      } else if scanLine == VBLANK_LINE {
        VblankLine(mem);
      } else if scanLine < PRE_RENDER_LINE {
        IdleLine(mem);
      } else {
        PreRenderLine(mem);
      }
    }

    /** ppu.c:129-142. */
    method CyclesToNMI() returns (cycles: nat)
      requires AtRest(View())
      ensures cycles == PpuTheorems.CyclesToNmi(View())
    {
      var curr := scanLine * DOTS_PER_LINE + dot;
      var vblankDot := VBLANK_LINE * DOTS_PER_LINE + 2;
      var dist := vblankDot - curr;
      if dist < 0 {
        dist := dist + VBLANK_END * DOTS_PER_LINE;
      }
      cycles := (dist + 2) / 3;
    }

    /** ppu.c:45-68.  Bit 1 of the result, the pending NMI, tells how the cycles were batched. */
    method ReadStatus() returns (result: u8)
      modifies `status, `nmiPending, `secondWrite
      ensures result == StatusByte(old(status)) + (if old(nmiPending) then 2 else 0)
      ensures Flags() == FlagsRead(old(Flags()), scanLine, dot)
      ensures View() == PpuNmi.Nmi(StatusRead(old(View())), View().status.nmi)
      ensures StatusRead(old(View())).status.nmi ==> View().status.nmi
    {
      hide FlagsRead, StatusByte, StatusRead, PpuNmi.Nmi;
      ghost var p, s := View(), Flags();
      result := StatusByte(status) + (if nmiPending then 2 else 0);
      TakeFlags();
      ResetWrite();
      ReadFollows(p, View(), s, nmiSignal);
    }

    method ResetWrite()
      modifies `secondWrite
      ensures !secondWrite
    {
      if secondWrite {
        secondWrite := false;
      }
    }

    /** ppu.c:56, 61-65. */
    method TakeFlags()
      modifies `status, `nmiPending
      ensures Flags() == FlagsRead(old(Flags()), scanLine, dot)
    {
      status := status.(vblank := false);
      if scanLine == VBLANK_LINE && dot == 1 {
        status := status.(readRace := true);
      }
      if scanLine == VBLANK_LINE && (dot == 2 || dot == 3) {
        nmiPending := false;
      }
    }

    /** ppu.c:255-279. */
    method WriteCtrlReg(val: u8)
      modifies `status, `nmiPending, `nmis, `ctrl, `tmp
      ensures Flags() == CtrlFlags(old(Flags()), old(ctrl), val, scanLine, dot)
      ensures Held() + old(nmis.raised) <= old(Held()) + nmis.raised
      ensures View() == PpuNmi.Nmi(WriteCtrl(old(View()), val), View().status.nmi)
      ensures WriteCtrl(old(View()), val).status.nmi ==> View().status.nmi
    {
      hide CtrlFlags, CtrlRaises, CtrlLogged, WriteCtrl, PpuNmi.Nmi;
      CtrlChangesFlags(val);
      ctrl := val;
      tmp := tmp.(ntX := val % 2, ntY := val / 2 % 2);
      CtrlFollows(old(View()), View(), old(Flags()), nmiSignal, val);
    }

    /** ppu.c:262-275. */
    method CtrlChangesFlags(val: u8)
      modifies `status, `nmiPending, `nmis
      ensures Flags() == CtrlFlags(old(Flags()), ctrl, val, scanLine, dot)
      ensures nmis == CtrlLogged(old(nmis), CtrlRaises(old(Flags()), ctrl, val, scanLine, dot))
      ensures Held() + old(nmis.raised) <= old(Held()) + nmis.raised
    {
      if scanLine == PRE_RENDER_LINE && dot == 1 {
        status := status.(vblank := false);
      }
      if ctrl / 128 != val / 128 {
        if val / 128 == 1 && status.vblank {
          nmiPending, nmis := true, nmis.(raised := nmis.raised + 1);
        } else if nmiPending {
          nmiPending := false;
        }
      }
    }

    /** ppu.c:280-300. */
    method WriteMaskReg(val: u8)
      modifies `rendToggleDot, `greyscale, `mask
      ensures View() == WriteMask(old(View()), val)
    {
      if val / 8 % 4 != mask / 8 % 4 {
        rendToggleDot := dot;
      }
      if val % 2 != mask % 2 {
        greyscale := val % 2 == 1;
      }
      mask := val;
    }

    /** ppu.c:337-368. */
    method WriteScrollReg(val: u8)
      modifies `secondWrite, `tmp, `fineX
      ensures View() == WriteScroll(old(View()), val)
    {
      secondWrite := !secondWrite;
      if secondWrite {
        tmp := tmp.(tileX := val / 8);
        fineX := val % 8;
      } else {
        tmp := tmp.(tileY := val / 8);
        tmp := tmp.(fineY := val % 8);
      }
    }

    /** ppu.c:369-383. */
    method WriteAddrReg(val: u8)
      requires tmp.tileY < 32
      modifies `secondWrite, `tmp, `cur
      ensures View() == WriteAddr(old(View()), val)
    {
      secondWrite := !secondWrite;
      if secondWrite {
        tmp := tmp.(tileY := tmp.tileY % 8 + 8 * (val % 4), ntX := val / 4 % 2, ntY := val / 8 % 2,
                    fineY := val / 16 % 4);
      } else {
        tmp := tmp.(tileX := val % 32, tileY := tmp.tileY / 8 * 8 + val / 32);
        cur := tmp;
      }
    }
  }

  lemma IsVblankDot(p: Ppu, q: Ppu)
    requires q == p.(status := q.status, nmis := q.nmis)
    requires q.nmis == BlankLogged(p.nmis, !p.status.readRace && p.NmiEnabled())
    requires q.status == p.status.(readRace := false, vblank := p.status.vblank || !p.status.readRace,
                                   nmi := p.status.nmi || q.nmis.blank)
    ensures q == VblankDot(p, 1)
  {
  }

  /** The colour of a dot where a background colour and a sprite byte meet. */
  function DotColor(mem: Mem, row: TileRow, bg: nat, sp: u8, greyscale: bool): u8
    requires ValidMem(mem) && row.palette < 4 && bg < 4
  {
    if sp != 0 && (bg == 0 || SpriteInFront(sp))
    then Shown(mem, 16 + 4 * SpritePalette(sp) + SpriteColor(sp), greyscale)
    else Shown(mem, if bg == 0 then 0 else 4 * row.palette + bg, greyscale)
  }

  /** Neither a background nor a sprite pixel takes part at x. */
  ghost predicate PlainDot(p: Ppu, mem: Mem, x: nat)
    requires ValidMem(mem) && ValidPpu(p)
  {
    x < LINE_WIDTH && SpriteAt(p, x) == 0 && BgAt(p, mem, x, ColumnAt(p, x)) == 0
  }

  lemma PlainDotDrawn(p: Ppu, q: Ppu, mem: Mem, x: nat)
    requires ValidMem(mem) && ValidPpu(p) && ValidPpu(q) && SameLine(p, q) && p.scanLine < FRAME_HEIGHT
    requires PlainDot(p, mem, x)
    ensures x < LINE_WIDTH
    ensures Pixel(q, mem, x, ColumnAt(p, x)) == Backdrop(q, mem)
    ensures !HitAt(q, mem, x, ColumnAt(p, x))
  {
    PixelOfLine(p, q, mem, x, ColumnAt(p, x));
  }

  lemma DotsSameLine(p: Ppu, mem: Mem, dots: nat)
    requires ValidMem(mem) && ValidPpu(p) && p.scanLine < FRAME_HEIGHT
    requires p.lastTileX < LINE_TILES && dots <= 8
    ensures SameLine(p, DrawDots(p, mem, dots))
  {
  }

  /** The tile row fetched for a dot gives its background colour and palette. */
  lemma BgDot(p: Ppu, q: Ppu, mem: Mem, k: nat, row: TileRow)
    requires ValidMem(mem) && ValidPpu(p) && ValidPpu(q) && SameLine(p, q) && k < 8 && p.lastTileX < LINE_TILES
    requires BgVisible(p, 8 * p.lastTileX)
    requires row == BgTileData(mem, p.BackgroundPattern(), TileOf(p.cur, p.reg.fineX, k))
    ensures var x := 8 * p.lastTileX + k;
            var shift := 7 - (p.reg.fineX + x) % 8;
            && BgAt(q, mem, x, ColumnAt(p, x)) == 2 * Bit(row.high, shift) + Bit(row.low, shift)
            && BgPalette(mem, q.cur, ColumnAt(p, x)) == row.palette
  {
    hide Bit, NameIndex, AttrIndex, PaletteFromAttr, TileOf, BgColor, BgPalette;
    var x := 8 * p.lastTileX + k;
    var w := TileOf(p.cur, p.reg.fineX, k);
    DotColumn(p.cur, p.reg.fineX, k);
    TileColumn(p, k);
    TileLookup(mem, p.BackgroundPattern(), p.cur, ColumnAt(p, x), w);
    SameRow(mem, p.BackgroundPattern(), p.cur, q.cur, ColumnAt(p, x));
  }

  lemma TileColumn(p: Ppu, k: nat)
    requires ValidPpu(p) && k < 8 && p.lastTileX < LINE_TILES
    ensures var x := 8 * p.lastTileX + k;
            && ColumnAt(p, x) == (Column(p.cur) + p.reg.fineX + k) % 512
            && (p.reg.fineX + x) % 8 == (p.reg.fineX + k) % 8
  {
    var c := Column(p.cur) + p.reg.fineX + k;
    assert (c + 512) % 512 == c % 512;
  }

  lemma SameRow(mem: Mem, table: nat, v: Vram, w: Vram, col: nat)
    requires ValidMem(mem) && ValidVram(v) && ValidVram(w) && table < 2 && col < 512
    requires w == v.(tileX := w.tileX, ntX := w.ntX)
    ensures BgColor(mem, table, v, col) == BgColor(mem, table, w, col)
    ensures BgPalette(mem, v, col) == BgPalette(mem, w, col)
  {
    hide Bit;
  }

  /** What DrawDot does at a dot, from the colours the source has in hand. */
  lemma DotColors(p: Ppu, q: Ppu, mem: Mem, k: nat, row: TileRow, bg: nat, sp: u8)
    requires ValidMem(mem) && ValidPpu(p) && ValidPpu(q) && SameLine(p, q) && k < 8
    requires p.lastTileX < LINE_TILES && row.palette < 4 && bg < 4
    requires var x := 8 * p.lastTileX + k;
             && BgAt(q, mem, x, ColumnAt(p, x)) == bg
             && (bg != 0 ==> BgPalette(mem, q.cur, ColumnAt(p, x)) == row.palette)
             && SpriteAt(p, x) == sp
    ensures var x := 8 * p.lastTileX + k;
            && Pixel(q, mem, x, ColumnAt(p, x)) == DotColor(mem, row, bg, sp, q.reg.greyscale)
            && (HitAt(q, mem, x, ColumnAt(p, x)) <==> x != 255 && SpriteIsZero(sp) && bg != 0)
  {
    hide ColumnAt, BgAt, BgPalette, Shown;
    assert SpriteAt(q, 8 * p.lastTileX + k) == sp;
  }

  lemma EmptyTile(p: Ppu, mem: Mem)
    requires ValidMem(mem) && ValidPpu(p) && p.lastTileX < LINE_TILES && p.reg.fineX == 0
    requires BgVisible(p, 8 * p.lastTileX)
    requires var row := BgTileData(mem, p.BackgroundPattern(), p.cur); row.high == 0 && row.low == 0
    requires forall at | 8 * p.lastTileX <= at < 8 * p.lastTileX + 8 :: SpriteAt(p, at) == 0
    ensures forall at | 8 * p.lastTileX <= at < 8 * p.lastTileX + 8 :: PlainDot(p, mem, at)
  {
    hide ColumnAt, BgAt, BgVisible, SpriteAt, BgTileData;
    forall at | 8 * p.lastTileX <= at < 8 * p.lastTileX + 8
      ensures PlainDot(p, mem, at)
    {
      var k := at - 8 * p.lastTileX;
      BgDot(p, p, mem, k, BgTileData(mem, p.BackgroundPattern(), p.cur));
      NoBits((7 - (p.reg.fineX + at) % 8));
    }
  }

  lemma NoBits(shift: nat)
    requires shift < 8
    ensures Bit(0, shift) == 0
  {
  }

  lemma NoBackground(p: Ppu, q: Ppu, mem: Mem, k: nat)
    requires ValidMem(mem) && ValidPpu(p) && ValidPpu(q) && SameLine(p, q) && k < 8 && p.lastTileX < LINE_TILES
    requires !BgVisible(p, 8 * p.lastTileX)
    ensures BgAt(q, mem, 8 * p.lastTileX + k, ColumnAt(p, 8 * p.lastTileX + k)) == 0
  {
    hide ColumnAt;
  }

  /** The enable bits of a tile are those of each of its dots. */
  lemma TileVisible(p: Ppu)
    requires ValidPpu(p) && p.lastTileX < LINE_TILES
    ensures var x := 8 * p.lastTileX;
            && BgVisible(p, x) == (p.BgOn() && (p.lastTileX != 0 || p.BgLeft()))
            && (forall at | x <= at < x + 8 :: BgVisible(p, at) == BgVisible(p, x))
            && (forall at | x <= at < x + 8 ::
                  SpriteAt(p, at) == if p.SpOn() && (p.lastTileX != 0 || p.SpLeft()) then p.lineSprites[at] else 0)
  {
  }

  lemma PlainTile(p: Ppu, mem: Mem)
    requires ValidMem(mem) && ValidPpu(p) && p.lastTileX < LINE_TILES
    requires !BgVisible(p, 8 * p.lastTileX)
    requires forall at | 8 * p.lastTileX <= at < 8 * p.lastTileX + 8 :: SpriteAt(p, at) == 0
    ensures forall at | 8 * p.lastTileX <= at < 8 * p.lastTileX + 8 :: PlainDot(p, mem, at)
  {
    hide ColumnAt, BgAt, SpriteAt, BgVisible;
    forall at | 8 * p.lastTileX <= at < 8 * p.lastTileX + 8
      ensures PlainDot(p, mem, at)
    {
      NoBackground(p, p, mem, at - 8 * p.lastTileX);
    }
  }

  lemma ClearLater(v: Ppu, at: nat)
    ensures ClearOamAddr(v.(lastDot := at)) == ClearOamAddr(v).(lastDot := at)
  {
  }
}
