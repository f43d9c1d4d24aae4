/** Which sprite pixel a line shows at each dot, and the source's loops that prepare it.
  */
module PpuSprites {
  import opened Common
  import opened PpuTypes

  const SPRITES := 64
  const SPRITES_PER_LINE := 8

  /** The four bytes of a sprite. */
  datatype Sprite = Sprite(y: u8, tile: u8, attr: u8, x: u8) {
    function Palette(): (p: nat) ensures p < 4 { attr % 4 }
    predicate InFront() { attr / 32 % 2 == 0 }
    predicate FlipH() { attr / 64 % 2 == 1 }
    predicate FlipV() { attr / 128 == 1 }
  }

  function SpriteOf(mem: Mem, i: nat): Sprite
    requires ValidMem(mem) && i < SPRITES
  {
    Sprite(mem.oam[4 * i], mem.oam[4 * i + 1], mem.oam[4 * i + 2], mem.oam[4 * i + 3])
  }

  /** What the sprite unit takes from the registers for one line. */
  datatype LineSetup = LineSetup(y: nat, tall: bool, table: nat, first: nat, unlimited: bool) {
    /** Rows a sprite has below its top row. */
    function Height(): nat { if tall then 15 else 7 }
    ghost predicate Valid() { y < FRAME_HEIGHT && table < 2 && first < SPRITES }
  }

  predicate InRange(s: LineSetup, sprite: Sprite) {
    sprite.y < FRAME_HEIGHT && sprite.y <= s.y <= sprite.y + s.Height()
  }

  /** Address of a sprite's pattern byte for the line: table and offset of the low bit plane. */
  function PatternAt(s: LineSetup, sprite: Sprite): (r: (nat, nat))
    requires s.Valid() && InRange(s, sprite)
    ensures r.0 < 2 && r.1 + 8 < 4096
  {
    var row := if sprite.FlipV() then s.Height() - (s.y - sprite.y) else s.y - sprite.y;
    if s.tall then (sprite.tile % 2, 16 * (sprite.tile / 2 * 2 + row / 8) + row % 8)
    else (s.table, 16 * sprite.tile + row)
  }

  /** The bit-field the line buffer keeps of an opaque sprite dot. */
  function PixelByte(color: nat, palette: nat, zero: nat, front: nat): (b: u8)
    requires color < 4 && palette < 4 && zero < 2 && front < 2
    ensures b % 4 == color && b / 4 % 4 == palette && b / 16 % 2 == zero && b / 32 == front
  {
    color + 4 * palette + 16 * zero + 32 * front
  }

  /** One of the eight dots of a pattern row as the line buffer keeps it; 0 if transparent. */
  function DotByte(sprite: Sprite, high: u8, low: u8, isZero: bool, dx: nat): (b: u8)
    requires dx < 8
    ensures b == 0 || b % 4 != 0
  {
    hide PixelByte;
    var bit := if sprite.FlipH() then dx else 7 - dx;
    var color := Bit(low, bit) + 2 * Bit(high, bit);
    if color == 0 then 0
    else PixelByte(color, sprite.Palette(), if isZero then 1 else 0, if sprite.InFront() then 1 else 0)
  }

  /** What a sprite contributes at screen dot x of its line. */
  function SpriteByte(s: LineSetup, mem: Mem, i: nat, x: nat): (b: u8)
    requires ValidMem(mem) && s.Valid() && s.first <= i < SPRITES && x < LINE_WIDTH
  {
    var sprite := SpriteOf(mem, i);
    if !InRange(s, sprite) || x < sprite.x || x >= sprite.x + 8 then 0
    else
      var at := PatternAt(s, sprite);
      DotByte(sprite, mem.patterns[at.0][at.1 + 8], mem.patterns[at.0][at.1], i == s.first, x - sprite.x)
  }

  /** Sprites in range among those before n, in OAM order. */
  function InRangeBefore(s: LineSetup, mem: Mem, n: nat): (count: nat)
    requires ValidMem(mem) && s.Valid() && s.first <= n <= SPRITES
    decreases n
  {
    if n == s.first then 0
    else InRangeBefore(s, mem, n - 1) + (if InRange(s, SpriteOf(mem, n - 1)) then 1 else 0)
  }

  /** The line shows the first eight sprites in range, or all of them with the limit off. */
  predicate Taken(s: LineSetup, mem: Mem, i: nat)
    requires ValidMem(mem) && s.Valid() && s.first <= i < SPRITES
  {
    InRange(s, SpriteOf(mem, i)) && (s.unlimited || InRangeBefore(s, mem, i) < SPRITES_PER_LINE)
  }

  predicate Overflows(s: LineSetup, mem: Mem)
    requires ValidMem(mem) && s.Valid()
  {
    InRangeBefore(s, mem, SPRITES) > SPRITES_PER_LINE
  }

  /** The dot at x after the sprites before n have been laid down, earlier ones staying on top. */
  function Layered(s: LineSetup, mem: Mem, n: nat, x: nat): (b: u8)
    requires ValidMem(mem) && s.Valid() && s.first <= n <= SPRITES && x < LINE_WIDTH
    decreases n
  {
    if n == s.first then 0
    else
      var b := Layered(s, mem, n - 1, x);
      if b != 0 then b
      else if Taken(s, mem, n - 1) then SpriteByte(s, mem, n - 1, x)
      else 0
  }

  function SpriteLine(s: LineSetup, mem: Mem): (line: seq<u8>)
    requires ValidMem(mem) && s.Valid()
    ensures |line| == LINE_WIDTH
  {
    seq(LINE_WIDTH, x requires 0 <= x < LINE_WIDTH => Layered(s, mem, SPRITES, x))
  }

  // ------------------------------------------------------ what the layering means

  /** Sprite i is the lowest-numbered one that is taken and opaque at x. */
  ghost predicate TopmostAt(s: LineSetup, mem: Mem, n: nat, i: nat, x: nat)
    requires ValidMem(mem) && s.Valid() && s.first <= i < n <= SPRITES && x < LINE_WIDTH
  {
    && Taken(s, mem, i) && SpriteByte(s, mem, i, x) != 0
    && forall j | s.first <= j < i :: !Taken(s, mem, j) || SpriteByte(s, mem, j, x) == 0
  }

  /** Each dot holds the pixel of the topmost sprite there, and 0 exactly if there is none. */
  lemma {:induction false} LayeredIsTopmost(s: LineSetup, mem: Mem, n: nat, x: nat)
    requires ValidMem(mem) && s.Valid() && s.first <= n <= SPRITES && x < LINE_WIDTH
    ensures Layered(s, mem, n, x) == 0 ==>
              forall i | s.first <= i < n :: !Taken(s, mem, i) || SpriteByte(s, mem, i, x) == 0
    ensures Layered(s, mem, n, x) != 0 ==>
              exists i :: s.first <= i < n && TopmostAt(s, mem, n, i, x)
                          && Layered(s, mem, n, x) == SpriteByte(s, mem, i, x)
    decreases n
  {
    hide SpriteByte, Taken;
    if n > s.first {
      LayeredIsTopmost(s, mem, n - 1, x);
      if Layered(s, mem, n - 1, x) != 0 {
        var i :| s.first <= i < n - 1 && TopmostAt(s, mem, n - 1, i, x)
                 && Layered(s, mem, n - 1, x) == SpriteByte(s, mem, i, x);
        assert TopmostAt(s, mem, n, i, x);
      } else if Layered(s, mem, n, x) != 0 {
        assert TopmostAt(s, mem, n, n - 1, x);
      }
    }
  }

  lemma {:induction false} RangeCountGrows(s: LineSetup, mem: Mem, m: nat, n: nat)
    requires ValidMem(mem) && s.Valid() && s.first <= m <= n <= SPRITES
    ensures InRangeBefore(s, mem, m) <= InRangeBefore(s, mem, n)
    decreases n
  {
    hide InRange;
    if m < n {
      RangeCountGrows(s, mem, m, n - 1);
    }
  }

  /** Once the limit is passed no further sprite can show. */
  lemma {:induction false} NothingAfterLimit(s: LineSetup, mem: Mem, m: nat, n: nat, x: nat)
    requires ValidMem(mem) && s.Valid() && s.first <= m <= n <= SPRITES && x < LINE_WIDTH
    requires !s.unlimited && InRangeBefore(s, mem, m) >= SPRITES_PER_LINE
    ensures Layered(s, mem, n, x) == Layered(s, mem, m, x)
    decreases n
  {
    hide InRange, SpriteByte;
    if m < n {
      NothingAfterLimit(s, mem, m, n - 1, x);
      RangeCountGrows(s, mem, m, n - 1);
    }
  }

  // ---------------------------------------------------------------- the loops

  /** render.c:337-362. */
  method PreRenderSpriteTile(line: array<u8>, sprite: Sprite, high: u8, low: u8, sp0: bool)
    requires line.Length == LINE_WIDTH
    modifies line
    ensures forall x | 0 <= x < LINE_WIDTH ::
              line[x] == if old(line[x]) == 0 && sprite.x <= x < sprite.x + 8
                         then DotByte(sprite, high, low, sp0, x - sprite.x) else old(line[x])
  {
    hide Bit, PixelByte;
    var x := 0;
    while x < 8 && sprite.x + x < LINE_WIDTH
      invariant 0 <= x <= 8 && sprite.x + x <= LINE_WIDTH
      invariant forall k | 0 <= k < LINE_WIDTH ::
                  line[k] == if old(line[k]) == 0 && sprite.x <= k < sprite.x + x
                             then DotByte(sprite, high, low, sp0, k - sprite.x) else old(line[k])
    {
      var tileX := if sprite.FlipH() then x else 7 - x;
      var colorIdx := Bit(high, tileX) * 2 + Bit(low, tileX);
      if colorIdx != 0 && line[sprite.x + x] == 0 {
        var pixel := PixelByte(colorIdx, sprite.Palette(), if sp0 then 1 else 0, if sprite.InFront() then 1 else 0);
        line[sprite.x + x] := pixel;
      }
      x := x + 1;
    }
  }

  /** render.c:364-424.  Returns whether the overflow bit is to be set. */
  method PreRenderSpriteLine(line: array<u8>, s: LineSetup, mem: Mem) returns (overflow: bool)
    requires ValidMem(mem) && s.Valid() && line.Length == LINE_WIDTH
    modifies line
    ensures line[..] == SpriteLine(s, mem)
    ensures overflow == Overflows(s, mem)
  {
    hide Bit, DotByte, PixelByte, PatternAt;
    var spritesNum := 0;
    overflow := false;
    forall x | 0 <= x < LINE_WIDTH { line[x] := 0; }
    var spIdx := 0;
    while spIdx < SPRITES - s.first
      invariant 0 <= spIdx <= SPRITES - s.first
      invariant spritesNum == InRangeBefore(s, mem, s.first + spIdx)
      invariant overflow == (spritesNum > SPRITES_PER_LINE)
      invariant overflow ==> s.unlimited
      invariant forall x | 0 <= x < LINE_WIDTH :: line[x] == Layered(s, mem, s.first + spIdx, x)
    {
      var n := s.first + spIdx;
      var sprite := SpriteOf(mem, n);
      spIdx := spIdx + 1;
      if sprite.y >= FRAME_HEIGHT {
        continue;
      }
      if s.y > sprite.y + s.Height() || s.y < sprite.y {
        continue;
      }
      spritesNum := spritesNum + 1;
      if spritesNum == SPRITES_PER_LINE + 1 {
        overflow := true;
        if !s.unlimited {
          LimitReached(s, mem, n);
          assert forall x | 0 <= x < LINE_WIDTH :: line[x] == Layered(s, mem, SPRITES, x);
          return;
        }
      }
      var high, low := PatternRow(s, mem, sprite);
      if high != 0 || low != 0 {
        PreRenderSpriteTile(line, sprite, high, low, n == s.first);
      } else {
        EmptyRow(sprite, n == s.first);
      }
    }
  }

  /** render.c:400-419. */
  method PatternRow(s: LineSetup, mem: Mem, sprite: Sprite) returns (high: u8, low: u8)
    requires ValidMem(mem) && s.Valid() && InRange(s, sprite)
    ensures var at := PatternAt(s, sprite);
            high == mem.patterns[at.0][at.1 + 8] && low == mem.patterns[at.0][at.1]
  {
    var tileY := s.y - sprite.y;
    if sprite.FlipV() {
      tileY := s.Height() - tileY;
    }
    if s.tall {
      var table := mem.patterns[sprite.tile % 2];
      var tile := sprite.tile / 2 * 2 + tileY / 8;
      tileY := tileY % 8;
      low, high := table[16 * tile + tileY], table[16 * tile + 8 + tileY];
    } else {
      var table := mem.patterns[s.table];
      low, high := table[16 * sprite.tile + tileY], table[16 * sprite.tile + 8 + tileY];
    }
  }

  /** The ninth sprite in range ends the search: nothing after it can show. */
  lemma LimitReached(s: LineSetup, mem: Mem, n: nat)
    requires ValidMem(mem) && s.Valid() && s.first <= n < SPRITES && !s.unlimited
    requires InRange(s, SpriteOf(mem, n)) && InRangeBefore(s, mem, n) == SPRITES_PER_LINE
    ensures Overflows(s, mem)
    ensures forall x | 0 <= x < LINE_WIDTH :: Layered(s, mem, SPRITES, x) == Layered(s, mem, n, x)
  {
    RangeCountGrows(s, mem, n + 1, SPRITES);
    forall x | 0 <= x < LINE_WIDTH
      ensures Layered(s, mem, SPRITES, x) == Layered(s, mem, n, x)
    {
      NothingAfterLimit(s, mem, n, SPRITES, x);
    }
  }

  lemma EmptyRow(sprite: Sprite, isZero: bool)
    ensures forall dx | 0 <= dx < 8 :: DotByte(sprite, 0, 0, isZero, dx) == 0
  {
  }
}
