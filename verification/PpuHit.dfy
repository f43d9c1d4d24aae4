/** The sprite-0 flag: from dot to dot of a frame it says whether sprite 0 has met the background yet.
  */
module PpuHit {
  import opened Common
  import opened PpuTypes
  import opened PpuTiles
  import opened PpuLine
  import opened PpuSprites
  import opened PpuReference
  import opened PpuBatch
  import opened PpuPicture
  import opened PpuScreen

  // ------------------------------------------------------------------------ a line

  /** The column behind dot x, from the left edge of the line. */
  function Behind(p: Ppu, x: nat): (col: nat)
    ensures col < 512
  {
    (256 * p.cur.ntX + 8 * p.cur.tileX + p.reg.fineX + x) % 512
  }

  ghost predicate HitBefore(p: Ppu, mem: Mem, n: nat)
    requires ValidMem(mem) && ValidPpu(p)
  {
    exists x :: 0 <= x < n && x < LINE_WIDTH && HitAt(p, mem, x, Behind(p, x))
  }

  /** After n dots of a line the flag is up if it was before or one of them is a hit. */
  lemma FlagAfter(p: Ppu, mem: Mem, n: nat)
    requires ValidMem(mem) && LineStart(p) && p.scanLine < FRAME_HEIGHT && !p.sp0.hit && 0 < n <= LINE_WIDTH
    ensures Dots(p, mem, n).status.sprite0 == (p.status.sprite0 || HitBefore(p, mem, n))
  {
    hide DrawTiles, Pixel, HitAt, ColumnAt, Dot, ValidMem, HitBefore;
    StretchDots(p, mem, n);
    var end := TilesBy(n);
    TilesDrawn(p, mem, end);
    HitOfTiles(p, DrawTiles(p, mem, end), mem, n, 8 * end);
  }

  lemma HitOfTiles(p: Ppu, q: Ppu, mem: Mem, n: nat, end: nat)
    requires ValidMem(mem) && ValidPpu(p) && ValidPpu(q) && p.scanLine < FRAME_HEIGHT && p.lastTileX == 0 && !p.sp0.hit
    requires n <= end <= LINE_WIDTH && LineDrawn(p, q, mem, 0, end)
    ensures !p.status.sprite0 ==> ((q.sp0.hit && q.sp0.x < n) <==> HitBefore(p, mem, n))
  {
    hide Pixel, HitAt, ColumnAt;
    forall x: nat | x < LINE_WIDTH
      ensures ColumnAt(p, x) == Behind(p, x)
    {
      LeftEdgeColumn(p, x);
    }
  }

  /** The end of a line keeps the flag and forgets the place of the hit. */
  lemma FlagAtEnd(p: Ppu, mem: Mem)
    requires ValidMem(mem) && LineStart(p) && p.scanLine < FRAME_HEIGHT && !p.sp0.hit
    ensures var q := Dots(p, mem, DOTS_PER_LINE);
            !q.sp0.hit && q.status.sprite0 == (p.status.sprite0 || HitBefore(p, mem, LINE_WIDTH))
  {
    hide Dots, ValidMem, RowShown, HitBefore, SpriteLine;
    FlagAfter(p, mem, LINE_WIDTH);
    PixelsDone(p, mem);
    var a := Dots(p, mem, 256);
    TurnDone(a, mem);
    TurnFlag(a, mem);
    var b := Dots(a, mem, 2);
    RestDone(b, mem);
    DotsAdd(a, mem, 2, 83);
    DotsAdd(p, mem, 256, 85);
  }

  lemma TurnFlag(q: Ppu, mem: Mem)
    requires ValidMem(mem) && AtRest(q) && q.scanLine < FRAME_HEIGHT && q.dot == 256
    requires q.rendToggleDot == 0 && q.Enabled()
    ensures var r := Dots(q, mem, 2); !r.sp0.hit && r.status.sprite0 == q.status.sprite0
  {
    hide ValidMem, Dot, EndPixels, VisibleDot;
    DotsAdd(q, mem, 1, 1);
    OneDot(q, mem);
    DotOnVisibleLine(q, mem);
    EndFlag(q, mem);
    var s := Dots(q, mem, 1);
    OneDot(s, mem);
    DotOnVisibleLine(s, mem);
    EndFlag(s, mem);
  }

  lemma EndFlag(q: Ppu, mem: Mem)
    requires ValidMem(mem) && ValidPpu(q) && q.scanLine < FRAME_HEIGHT
    ensures var e := VisibleDot(q, mem, 256); !e.sp0.hit && e.status.sprite0 == q.status.sprite0
    ensures var e := VisibleDot(q, mem, 257); e.sp0 == q.sp0 && e.status == q.status
  {
    hide SpriteLine, Overflows, Setup, IncY, ValidMem;
  }

  // ----------------------------------------------------------------------- a frame

  /** Some dot of line y is a hit. */
  ghost predicate LineHits(p: Ppu, mem: Mem, y: nat)
    requires ValidMem(mem) && AtRest(p)
  {
    HitBefore(AtLine(p, mem, y), mem, LINE_WIDTH)
  }

  lemma {:induction false} FlagAtLine(p: Ppu, mem: Mem, y: nat)
    requires ValidMem(mem) && LineStart(p) && p.scanLine == 0 && !p.sp0.hit && !p.status.sprite0 && y <= FRAME_HEIGHT
    ensures var q := AtLine(p, mem, y);
            !q.sp0.hit && (q.status.sprite0 <==> exists z :: 0 <= z < y && LineHits(p, mem, z))
  {
    hide Dots, ValidMem, HitBefore, Below, ValidVram;
    if y == 0 {
      DotsNone(p, mem);
    } else {
      FlagAtLine(p, mem, y - 1);
      LinesDone(p, mem, y - 1);
      FlagAtEnd(AtLine(p, mem, y - 1), mem);
      DotsAdd(p, mem, DOTS_PER_LINE * (y - 1), DOTS_PER_LINE);
      assert LineHits(p, mem, y - 1) == HitBefore(AtLine(p, mem, y - 1), mem, LINE_WIDTH);
    }
  }

  // --------------------------------------------------------------- what a hit is

  /** At dot x sprite 0, one of whose rows belongs here, is opaque over opaque background, both taking part; the last
    * column never counts.
    */
  ghost predicate Touches(mem: Mem, reg: Regs, screen: nat, line: nat, column: nat, x: nat, above: int)
    requires ValidMem(mem) && screen < 4 && line < 256 && column < 256
  {
    && x < 255
    && reg.mask / 16 % 2 == 1 && (x >= 8 || reg.mask / 4 % 2 == 1)
    && reg.mask / 8 % 2 == 1 && (x >= 8 || reg.mask / 2 % 2 == 1)
    && SpriteDot(mem, reg.ctrl / 32 % 2 == 1, reg.ctrl / 8 % 2, 0, x, above) != 0
    && Background(mem, reg.ctrl / 16 % 2, screen, line, column) != 0
  }

  lemma HitIs(p: Ppu, mem: Mem, s: LineSetup, x: nat, col: nat)
    requires ValidMem(mem) && ValidPpu(p) && s.Valid() && x < LINE_WIDTH && col < 512
    requires s.unlimited == mem.noSpriteLimit && s.first == 0
    requires s.tall == p.TallSprites() && s.table == p.SpritePattern()
    requires p.lineSprites == SpriteLine(s, mem)
    ensures HitAt(p, mem, x, col) <==>
            Touches(mem, p.reg, 2 * p.cur.ntY + col / 256, 8 * p.cur.tileY + p.cur.fineY, col % 256, x, s.y)
  {
    hide BgColor, Background, SpriteLine, SpriteDot;
    BackgroundIs(mem, p.BackgroundPattern(), p.cur, col);
    ZeroInLine(s, mem, x);
  }

  /** Sprite 0 lies over all others. */
  lemma ZeroInLine(s: LineSetup, mem: Mem, x: nat)
    requires ValidMem(mem) && s.Valid() && s.unlimited == mem.noSpriteLimit && s.first == 0 && x < LINE_WIDTH
    ensures SpriteIsZero(SpriteLine(s, mem)[x]) <==> SpriteDot(mem, s.tall, s.table, 0, x, s.y) != 0
  {
    hide SpriteLine, SpriteDot;
    LineBuffer(s, mem, x);
    var b := SpriteLine(s, mem)[x];
    if SpriteDot(mem, s.tall, s.table, 0, x, s.y) != 0 {
      assert Topmost(mem, s.tall, s.table, 0, x, s.y);
    } else if b != 0 {
      var i := FirstOpaque(mem, s.tall, s.table, x, s.y);
      assert Topmost(mem, s.tall, s.table, i, x, s.y) && i != 0;
    }
  }

  /** The topmost sprite, if there is one. */
  ghost function FirstOpaque(mem: Mem, tall: bool, table: nat, x: nat, line: int): (i: nat)
    requires ValidMem(mem) && table < 2
    requires exists i :: 0 <= i < 64 && Opaque(mem, tall, table, i, x, line)
    ensures i < 64 && Topmost(mem, tall, table, i, x, line)
  {
    hide SpriteDot;
    LeastOpaque(mem, tall, table, x, line, 0)
  }

  ghost function LeastOpaque(mem: Mem, tall: bool, table: nat, x: nat, line: int, from: nat): (i: nat)
    requires ValidMem(mem) && table < 2 && from < 64
    requires exists i :: from <= i < 64 && Opaque(mem, tall, table, i, x, line)
    requires forall j | 0 <= j < from :: !Opaque(mem, tall, table, j, x, line)
    ensures i < 64 && Topmost(mem, tall, table, i, x, line)
    decreases 64 - from
  {
    hide SpriteDot;
    if Opaque(mem, tall, table, from, x, line) then from else LeastOpaque(mem, tall, table, x, line, from + 1)
  }

  lemma NoHitBare(p: Ppu, mem: Mem, x: nat, col: nat)
    requires ValidMem(mem) && ValidPpu(p) && x < LINE_WIDTH && col < 512 && p.lineSprites == EmptyLine()
    ensures !HitAt(p, mem, x, col)
  {
    hide BgColor;
  }

  /** The dot (x, y) of the frame that follows q is a hit. */
  ghost predicate Meets(q: Ppu, mem: Mem, x: nat, y: nat)
    requires ValidMem(mem) && AtRest(q)
  {
    var column := (256 * q.reg.tmp.ntX + 8 * q.reg.tmp.tileX + q.reg.fineX + x) % 512;
    Touches(mem, q.reg, 2 * LineAt(q.reg.tmp, y).0 + column / 256, LineAt(q.reg.tmp, y).1, column % 256, x, y - 1)
  }

  lemma HitMeets(q: Ppu, mem: Mem, x: nat, y: nat)
    requires ValidMem(mem) && FrameStart(q) && x < LINE_WIDTH && y < FRAME_HEIGHT
    ensures var r := AtLine(FirstLine(q, mem), mem, y); HitAt(r, mem, x, Behind(r, x)) <==> Meets(q, mem, x, y)
  {
    hide Dots, ValidMem, HitAt, Below, Touches, LineAt, ValidVram, SpriteLine;
    PreRenderDone(q, mem);
    var p := FirstLine(q, mem);
    LinesDone(p, mem, y);
    PictureIsLookup(p, mem, x, y);
    var r := AtLine(p, mem, y);
    BelowIs(q.reg.tmp, r.cur, y);
    if y == 0 {
      NoHitBare(r, mem, x, Behind(r, x));
      NothingAbove(q, mem, x);
    } else {
      SetupAbove(p, mem, y);
      HitIs(r, mem, Setup(AtLine(p, mem, y - 1), mem), x, Behind(r, x));
    }
  }

  lemma NothingAbove(q: Ppu, mem: Mem, x: nat)
    requires ValidMem(mem) && AtRest(q)
    ensures !Meets(q, mem, x, 0)
  {
    hide Background;
  }

  /** The pre-render line takes the flag back. */
  lemma FlagCleared(q: Ppu, mem: Mem)
    requires ValidMem(mem) && FrameStart(q)
    ensures var p := FirstLine(q, mem); !p.status.sprite0 && p.sp0 == q.sp0
  {
    hide Dots, ValidMem, ValidVram;
    FlagsCleared(q, mem);
    var r := Dots(q, mem, 257);
    ScrollLoaded(r, mem);
    DotsAdd(q, mem, 257, 64);
    var s := Dots(q, mem, 321);
    LineEnded(s, mem);
    DotsAdd(q, mem, 321, PreRenderDots(q) - 321);
  }

  /** With rendering on, n dots into line y of a frame the flag is up exactly if sprite 0 has met the background at a
    * dot already shown, on a line above or further left on this one.
    */
  lemma FlagExact(q: Ppu, mem: Mem, y: nat, n: nat)
    requires ValidMem(mem) && FrameStart(q) && !q.sp0.hit && y < 240 && 0 < n <= 256
    ensures Dots(q, mem, (if q.oddFrame then 340 else 341) + 341 * y + n).status.sprite0 <==>
            exists x', y' :: 0 <= x' < 256 && 0 <= y' && (y' < y || (y' == y && x' < n)) && Meets(q, mem, x', y')
  {
    hide Dots, ValidMem, HitAt, Below, Meets, ValidVram;
    PreRenderDone(q, mem);
    FlagCleared(q, mem);
    var p := FirstLine(q, mem);
    FlagAtLine(p, mem, y);
    LinesDone(p, mem, y);
    FlagAfter(AtLine(p, mem, y), mem, n);
    DotsAdd(p, mem, 341 * y, n);
    DotsAdd(q, mem, PreRenderDots(q), 341 * y + n);
    SamePlaceOn(Dots(q, mem, PreRenderDots(q)), mem, 341 * y + n);
    HitsMeet(q, mem, y, n);
  }

  lemma HitsMeet(q: Ppu, mem: Mem, y: nat, n: nat)
    requires ValidMem(mem) && FrameStart(q) && y < FRAME_HEIGHT && n <= LINE_WIDTH
    ensures AtRest(FirstLine(q, mem))
    ensures ((exists z :: 0 <= z < y && LineHits(FirstLine(q, mem), mem, z))
             || HitBefore(AtLine(FirstLine(q, mem), mem, y), mem, n)) <==>
            exists x', y' :: 0 <= x' < 256 && 0 <= y' && (y' < y || (y' == y && x' < n)) && Meets(q, mem, x', y')
  {
    hide Dots, ValidMem, HitAt, Below, Meets, ValidVram, AtLine;
    PreRenderDone(q, mem);
    var p := FirstLine(q, mem);
    forall x: nat, z: nat | x < LINE_WIDTH && z <= y
      ensures HitAt(AtLine(p, mem, z), mem, x, Behind(AtLine(p, mem, z), x)) <==> Meets(q, mem, x, z)
    {
      HitMeets(q, mem, x, z);
    }
    if z :| 0 <= z < y && LineHits(p, mem, z) {
      var r := AtLine(p, mem, z);
      var x :| 0 <= x < LINE_WIDTH && HitAt(r, mem, x, Behind(r, x));
      assert Meets(q, mem, x, z);
    } else if HitBefore(AtLine(p, mem, y), mem, n) {
      var r := AtLine(p, mem, y);
      var x :| 0 <= x < n && HitAt(r, mem, x, Behind(r, x));
      assert Meets(q, mem, x, y);
    }
    forall x', y' | 0 <= x' < 256 && 0 <= y' && (y' < y || (y' == y && x' < n)) && Meets(q, mem, x', y')
      ensures (exists z :: 0 <= z < y && LineHits(p, mem, z)) || HitBefore(AtLine(p, mem, y), mem, n)
    {
      MeetHits(q, mem, y, n, x', y');
    }
  }

  lemma MeetHits(q: Ppu, mem: Mem, y: nat, n: nat, x': nat, y': nat)
    requires ValidMem(mem) && FrameStart(q) && y < FRAME_HEIGHT && n <= LINE_WIDTH && AtRest(FirstLine(q, mem))
    requires x' < LINE_WIDTH && (y' < y || (y' == y && x' < n)) && Meets(q, mem, x', y')
    ensures (exists z :: 0 <= z < y && LineHits(FirstLine(q, mem), mem, z))
            || HitBefore(AtLine(FirstLine(q, mem), mem, y), mem, n)
  {
    hide Dots, ValidMem, HitAt, Below, Meets, ValidVram, AtLine;
    HitMeets(q, mem, x', y');
    var r := AtLine(FirstLine(q, mem), mem, y');
    assert HitAt(r, mem, x', Behind(r, x'));
    assert HitBefore(r, mem, if y' < y then LINE_WIDTH else n);
    assert y' < y ==> LineHits(FirstLine(q, mem), mem, y');
  }

  // --------------------------------------------------------------------- overflow

  /** A line raises the overflow flag exactly if more than eight sprites have a row on the next one. */
  lemma OverflowOfLine(p: Ppu, mem: Mem)
    requires ValidMem(mem) && LineStart(p) && p.scanLine < FRAME_HEIGHT && p.oamAddr == 0
    ensures Dots(p, mem, 341).status.overflow ==
            (p.status.overflow || CoveringBefore(mem, p.reg.ctrl / 32 % 2 == 1, 64, p.scanLine) > 8)
  {
    hide Dots, ValidMem, RowShown, SpriteLine, HitBefore;
    StretchStatus(p, mem);
    PixelsDone(p, mem);
    var a := Dots(p, mem, 256);
    TurnDone(a, mem);
    TurnOverflow(a, mem);
    var b := Dots(a, mem, 2);
    RestDone(b, mem);
    DotsAdd(a, mem, 2, 83);
    DotsAdd(p, mem, 256, 85);
  }

  lemma StretchStatus(p: Ppu, mem: Mem)
    requires ValidMem(mem) && LineStart(p) && p.scanLine < FRAME_HEIGHT
    ensures Dots(p, mem, 256).status.overflow == p.status.overflow
  {
    hide DrawTiles, ValidMem, Dot, ColumnAt;
    StretchDots(p, mem, 256);
  }

  lemma TurnOverflow(q: Ppu, mem: Mem)
    requires ValidMem(mem) && AtRest(q) && q.scanLine < FRAME_HEIGHT && q.dot == 256
    requires q.rendToggleDot == 0 && q.Enabled() && q.oamAddr == 0
    ensures Dots(q, mem, 2).status.overflow ==
            (q.status.overflow || CoveringBefore(mem, q.reg.ctrl / 32 % 2 == 1, 64, q.scanLine) > 8)
  {
    hide ValidMem, Dot, EndPixels, VisibleDot, CoveringBefore;
    DotsAdd(q, mem, 1, 1);
    OneDot(q, mem);
    DotOnVisibleLine(q, mem);
    EndOverflow(q, mem);
    var s := Dots(q, mem, 1);
    OneDot(s, mem);
    DotOnVisibleLine(s, mem);
    EndFlag(s, mem);
  }

  lemma EndOverflow(q: Ppu, mem: Mem)
    requires ValidMem(mem) && ValidPpu(q) && q.scanLine < FRAME_HEIGHT
    requires q.rendToggleDot == 0 && q.Enabled() && q.oamAddr == 0
    ensures VisibleDot(q, mem, 256).status.overflow ==
            (q.status.overflow || CoveringBefore(mem, q.reg.ctrl / 32 % 2 == 1, 64, q.scanLine) > 8)
  {
    hide SpriteLine, IncY, ValidMem, CoveringBefore, InRangeBefore;
    CountIs(Setup(q, mem), mem, 64);
  }
}
