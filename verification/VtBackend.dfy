/** The terminal backend (video/vt_backend.c): the console's pixels, eight to a character.
  */
module VtBackend {
  import opened Common
  import opened VtTerminal
  import opened VtStencil
  import opened VtCanvas

  const FRAME_WIDTH := 256
  const FRAME_HEIGHT := 240

  /** A row for each of the console's four brightnesses. */
  const COLOR_MAP: seq<seq<u8>> :=
    [[244, 25, 19, 54, 125, 160, 124, 88, 52, 22, 22, 22, 23, 0, 0, 0],
     [251, 33, 27, 99, 199, 197, 196, 166, 166, 64, 28, 29, 32, 234, 0, 0],
     [231, 45, 75, 177, 207, 210, 209, 214, 214, 148, 47, 49, 51, 240, 0, 0],
     [231, 159, 159, 183, 219, 217, 223, 229, 229, 186, 157, 158, 159, 253, 0, 0]]

  /** The terminal's colour for one of the console's; 0 is black. */
  function ColorMapped(color: u8): (c: u8)
    requires color < 64
    ensures c < 254 && (c == 0 <==> color in {13, 14, 15, 30, 31, 46, 47, 62, 63})
  {
    COLOR_MAP[color / 16][color % 16]
  }

  // -------------------------------------------------------------- a dot on the screen

  /** Cells of a canvas are counted row by row. */
  lemma CellPlace(cols: nat, row: nat, col: nat)
    requires col < cols
    ensures (row * cols + col) / cols == row && (row * cols + col) % cols == col
  {
    DivModUnique(row * cols + col, cols, row, col);
  }

  lemma DotPlace(rows: nat, cols: nat, x: nat, y: nat)
    requires x < 2 * cols && y < 4 * rows
    ensures y / 4 * cols + x / 2 < rows * cols
    ensures (y / 4 * cols + x / 2) / cols == y / 4 && (y / 4 * cols + x / 2) % cols == x / 2
  {
    DotInside(rows, cols, x, y);
    CellPlace(cols, y / 4, x / 2);
  }

  /** A dot of the canvas is lit in the character the terminal shows, dots 1, 2, 3 and 7 down its left column and 4, 5,
    * 6 and 8 down its right.
    */
  lemma LitDot(f: Frame, i: nat, x: nat, y: nat)
    requires i < |f.buffer| == |f.colors| == |f.text| && f.text[i] == 0
    ensures 0x2800 <= ShownCell(f, i).code < 0x2900
    ensures (ShownCell(f, i).code - 0x2800) / [1, 8, 2, 16, 4, 32, 64, 128][2 * (y % 4) + x % 2] % 2 ==
            Bit(f.buffer[i], y % 4 + 4 * (x % 2))
  {
    hide BrailleMask, Bit;
    MaskShowsDots(f.buffer[i], x % 2, y % 4);
    BitsByDivision(BrailleMask(f.buffer[i]));
  }

  /** A dot rendered on a frame and the frame sent: the terminal's cell at a quarter of y and half of x shows that dot
    * lit and takes its colour, its other seven dots are as they would have been, and so is every other cell.
    */
  lemma DotOnScreen(f: Frame, rows: nat, cols: nat, x: nat, y: nat, fgc: u8, cells: seq<Cell>,
                    x': nat, y': nat, at: nat, i: nat)
    requires VtStencil.ValidFrame(f, rows * cols) && x < 2 * cols && y < 4 * rows && x' < 2 * cols && y' < 4 * rows
    requires at == y / 4 * cols + x / 2 && at < rows * cols && i == y' / 4 * cols + x' / 2
    requires Shows(cells, DotRendered(f, at, x % 2, y % 4, fgc))
    ensures i < rows * cols == |cells|
    ensures x' / 2 != x / 2 || y' / 4 != y / 4 || f.text[i] != 0 ==> cells[i] == ShownCell(f, i)
    ensures x' / 2 == x / 2 && y' / 4 == y / 4 && f.text[i] == 0 ==>
              && 0x2800 <= cells[i].code < 0x2900 && 0x2800 <= ShownCell(f, i).code < 0x2900
              && cells[i].color == ColorOf(fgc)
              && var dot := [1, 8, 2, 16, 4, 32, 64, 128][2 * (y' % 4) + x' % 2];
                 (cells[i].code - 0x2800) / dot % 2 ==
                 if x' == x && y' == y then 1 else (ShownCell(f, i).code - 0x2800) / dot % 2
  {
    hide ShownCell, SetBit, BrailleMask, Bit;
    DotPlace(rows, cols, x, y);
    DotPlace(rows, cols, x', y');
    var g := DotRendered(f, at, x % 2, y % 4, fgc);
    if i != at || f.text[i] != 0 {
      SameCell(f, g, i);
    } else {
      LitDot(f, i, x', y');
      LitDot(g, i, x', y');
      DotAppears(f, i, x % 2, y % 4, fgc, x' % 2, y' % 4);
      SetBitSets(f.buffer[i], StencilBit(x % 2, y % 4), StencilBit(x' % 2, y' % 4));
    }
  }

  lemma SameCell(f: Frame, g: Frame, i: nat)
    requires i < |f.buffer| == |f.colors| == |f.text| && |g.buffer| == |g.colors| == |g.text| == |f.buffer|
    requires g.text[i] == f.text[i]
    requires f.text[i] != 0 || (g.buffer[i] == f.buffer[i] && g.colors[i] == f.colors[i])
    ensures ShownCell(g, i) == ShownCell(f, i)
  {
  }

  /** A text laid over a frame and the frame sent: its characters stand side by side from their row and column on, up to
    * the right edge, in the default colour, and every other cell is as it would have been.
    */
  lemma TextOnScreen(f: Frame, g: Frame, rows: nat, cols: nat, row: nat, col: nat, str: seq<u8>, cells: seq<Cell>,
                     r: nat, c: nat, i: nat)
    requires VtStencil.ValidFrame(f, rows * cols) && VtStencil.ValidFrame(g, rows * cols) && g == f.(text := g.text)
    requires row < rows && col < cols && r < rows && c < cols && i == r * cols + c < rows * cols
    requires forall k | 0 <= k < |str| :: Printable(str[k])
    requires forall k | 0 <= k < rows * cols ::
               g.text[k] == if row * cols + col <= k < row * cols + Min(col + |str|, cols)
                            then str[k - (row * cols + col)] else f.text[k]
    requires Shows(cells, g)
    ensures |cells| == rows * cols
    ensures cells[i] == if r == row && col <= c < col + |str| then Cell(str[c - col], Default) else ShownCell(f, i)
  {
    CellPlace(cols, r, c);
    if r != row {
      RowApart(cols, r, row, c, col);
    }
    if !(r == row && col <= c < col + |str|) {
      SameCell(f, g, i);
    }
  }

  /** Cells of different rows are not in the same stretch. */
  lemma RowApart(cols: nat, r: nat, row: nat, c: nat, col: nat)
    requires r != row && c < cols && col < cols
    ensures !(row * cols + col <= r * cols + c < row * cols + cols)
  {
    if r < row {
      assert (r + 1) * cols <= row * cols;
    } else {
      assert (row + 1) * cols <= r * cols;
    }
  }

  // ------------------------------------------------------------ the colour of a character

  /** How often a colour occurs. */
  function Votes(cell: seq<u8>, color: u8): nat { multiset(cell)[color] }

  lemma {:induction false} VotesSplit(cell: seq<u8>, i: nat, color: u8)
    requires i <= |cell|
    ensures Votes(cell, color) == Votes(cell[..i], color) + Votes(cell[i..], color)
  {
    assert cell == cell[..i] + cell[i..];
  }

  lemma VotesPush(cell: seq<u8>, i: nat, j: nat, color: u8)
    requires i <= j < |cell|
    ensures Votes(cell[i..j + 1], color) == Votes(cell[i..j], color) + if cell[j] == color then 1 else 0
  {
    assert cell[i..j + 1] == cell[i..j] + [cell[j]];
  }

  lemma NoVotes(cell: seq<u8>, color: u8)
    requires color !in cell
    ensures Votes(cell, color) == 0
  {
  }

  /** The colour of a character: of the colours other than black the one that occurs most, the first of several. */
  ghost predicate Dominant(cell: seq<u8>, color: u8) {
    && color in cell && color != 0
    && (forall j | 0 <= j < |cell| && cell[j] != 0 :: multiset(cell)[cell[j]] <= multiset(cell)[color])
    && (forall j | 0 <= j < |cell| && cell[j] != 0 && color !in cell[..j] ::
          cell[j] == color || multiset(cell)[cell[j]] < multiset(cell)[color])
  }

  /** The best of the first i colours. */
  ghost predicate Leading(cell: seq<u8>, i: nat, dominant: u8, maxVotes: nat)
    requires i <= |cell|
  {
    && (dominant == 0 ==> maxVotes == 0 && forall j | 0 <= j < i :: cell[j] == 0)
    && (dominant != 0 ==> dominant in cell[..i] && maxVotes == Votes(cell, dominant) > 0)
    && (forall j | 0 <= j < i && cell[j] != 0 :: Votes(cell, cell[j]) <= maxVotes)
    && (forall j | 0 <= j < i && cell[j] != 0 && dominant !in cell[..j] ::
          cell[j] == dominant || Votes(cell, cell[j]) < maxVotes)
  }

  /** vt_backend.c:28-45. */
  method DominantColor(cell: seq<u8>) returns (color: u8)
    requires forall i | 0 <= i < |cell| :: cell[i] < 254
    ensures color >= 1 && (color == 1 <==> forall i | 0 <= i < |cell| :: cell[i] == 0)
    ensures color > 1 ==> Dominant(cell, color - 1)
  {
    var dominant: u8, maxVotes := 0, 0;
    for i := 0 to |cell|
      invariant Leading(cell, i, dominant, maxVotes)
    {
      var c := cell[i];
      if c != dominant && c != 0 {
        ghost var was, most := dominant, maxVotes;
        var count := 0;
        for j := i to |cell|
          invariant count == Votes(cell[i..j], c)
          invariant if count > most then dominant == c && maxVotes == count else dominant == was && maxVotes == most
        {
          VotesPush(cell, i, j, c);
          if c == cell[j] {
            count := count + 1;
            if count > maxVotes {
              maxVotes, dominant := count, c;
            }
          }
        }
        OneVoted(cell, i, was, most);
      } else {
        OnePassed(cell, i, dominant, maxVotes);
      }
    }
    assert cell[..|cell|] == cell;
    color := dominant + 1;
  }

  lemma OnePassed(cell: seq<u8>, i: nat, dominant: u8, maxVotes: nat)
    requires i < |cell| && Leading(cell, i, dominant, maxVotes) && (cell[i] == dominant || cell[i] == 0)
    ensures Leading(cell, i + 1, dominant, maxVotes)
  {
    assert cell[..i + 1] == cell[..i] + [cell[i]];
  }

  /** A colour counted from its i-th place wins exactly if it is new and occurs more often. */
  lemma OneVoted(cell: seq<u8>, i: nat, dominant: u8, maxVotes: nat)
    requires i < |cell| && Leading(cell, i, dominant, maxVotes) && cell[i] != dominant && cell[i] != 0
    ensures var count := Votes(cell[i..|cell|], cell[i]);
            if count > maxVotes then Leading(cell, i + 1, cell[i], count)
            else Leading(cell, i + 1, dominant, maxVotes)
  {
    var c := cell[i];
    var count := Votes(cell[i..|cell|], c);
    assert cell[i..|cell|] == cell[i..];
    VotesSplit(cell, i, c);
    assert cell[..i + 1] == cell[..i] + [c];
    if c in cell[..i] {
      var j :| 0 <= j < i && cell[j] == c;
      assert Votes(cell, cell[j]) <= maxVotes;
    } else {
      NoVotes(cell[..i], c);
      assert Votes(cell, c) == count;
      assert cell[i..] == [c] + cell[i + 1..];
    }
  }

  // --------------------------------------------------------------- characters of pixels

  /** A pixel in the terminal's colours. */
  function Shade(pixels: seq<u8>, width: nat, x: nat, y: nat): (c: u8)
    ensures c < 254
  {
    if y * width + x < |pixels| && pixels[y * width + x] < 64 then ColorMapped(pixels[y * width + x]) else 0
  }

  /** The eight pixels of a character, row by row. */
  function Shades(pixels: seq<u8>, width: nat, x: nat, y: nat): (cell: seq<u8>)
    ensures |cell| == 8 && forall k | 0 <= k < 8 :: cell[k] == Shade(pixels, width, x + k % 2, y + k / 2) < 254
  {
    seq(8, k requires 0 <= k < 8 => Shade(pixels, width, x + k % 2, y + k / 2))
  }

  /** The first n of eight dots rendered where they are not black. */
  function DotsOn(f: Frame, at: nat, cell: seq<u8>, n: nat, fgc: u8): (g: Frame)
    requires at < |f.buffer| == |f.colors| == |f.text| && n <= 8 == |cell|
    ensures |g.buffer| == |g.colors| == |g.text| == |f.text| && g.text == f.text
    ensures forall i | 0 <= i < |f.buffer| && i != at :: g.buffer[i] == f.buffer[i] && g.colors[i] == f.colors[i]
  {
    if n == 0 then f
    else
      var g := DotsOn(f, at, cell, n - 1, fgc);
      if cell[n - 1] == 0 then g else DotRendered(g, at, (n - 1) % 2, (n - 1) / 2, fgc)
  }

  /** A character of eight pixels: empty if they are black, else its dots in their dominant colour. */
  ghost predicate Painted(f: Frame, at: nat, cell: seq<u8>)
    requires at < |f.buffer| == |f.colors| == |f.text| && |cell| == 8
  {
    && f.text[at] == 0
    && (forall k | 0 <= k < 8 :: Bit(f.buffer[at], BitPlace(k)) == if cell[k] == 0 then 0 else 1)
    && (if forall k | 0 <= k < 8 :: cell[k] == 0 then f.colors[at] == 0
        else f.colors[at] > 1 && Dominant(cell, f.colors[at] - 1))
  }

  ghost predicate Blank(f: Frame, at: nat)
    requires at < |f.buffer| == |f.colors| == |f.text|
  {
    f.buffer[at] == 0 && f.colors[at] == 0 && f.text[at] == 0
  }

  /** The stencil's bit for the k-th dot, row by row. */
  function BitPlace(k: nat): (bit: nat)
    requires k < 8
    ensures bit < 8
  {
    k / 2 + 4 * (k % 2)
  }

  /** Of the first n dots those not black are set, and no other. */
  ghost predicate LitUpTo(b: u8, cell: seq<u8>, n: nat)
    requires |cell| == 8
  {
    forall k | 0 <= k < 8 :: Bit(b, BitPlace(k)) == if k < n && cell[k] != 0 then 1 else 0
  }

  lemma NoneLit(cell: seq<u8>)
    requires |cell| == 8
    ensures LitUpTo(0, cell, 0)
  {
  }

  lemma OneLit(b: u8, cell: seq<u8>, n: nat)
    requires |cell| == 8 && n < 8 && LitUpTo(b, cell, n)
    ensures LitUpTo(if cell[n] == 0 then b else SetBit(b, BitPlace(n)), cell, n + 1)
  {
    hide Bit, SetBit, BitPlace;
    forall k | 0 <= k < 8
      ensures Bit(SetBit(b, BitPlace(n)), BitPlace(k)) == if k == n then 1 else Bit(b, BitPlace(k))
    {
      SetBitSets(b, BitPlace(n), BitPlace(k));
      PlacesDiffer(n, k);
    }
  }

  lemma PlacesDiffer(n: nat, k: nat)
    requires n < 8 && k < 8
    ensures BitPlace(n) == BitPlace(k) ==> n == k
  {
  }

  lemma {:induction false} DotsLit(f: Frame, at: nat, cell: seq<u8>, n: nat, fgc: u8)
    requires at < |f.buffer| == |f.colors| == |f.text| && n <= 8 == |cell| && f.buffer[at] == 0
    ensures LitUpTo(DotsOn(f, at, cell, n, fgc).buffer[at], cell, n)
  {
    hide Bit, SetBit, LitUpTo;
    if n == 0 {
      NoneLit(cell);
    } else {
      DotsLit(f, at, cell, n - 1, fgc);
      OneLit(DotsOn(f, at, cell, n - 1, fgc).buffer[at], cell, n - 1);
    }
  }

  lemma {:induction false} DotsColored(f: Frame, at: nat, cell: seq<u8>, n: nat, fgc: u8)
    requires at < |f.buffer| == |f.colors| == |f.text| && n <= 8 == |cell|
    ensures (forall k | 0 <= k < n :: cell[k] == 0) ==> DotsOn(f, at, cell, n, fgc) == f
    ensures !(forall k | 0 <= k < n :: cell[k] == 0) ==> DotsOn(f, at, cell, n, fgc).colors[at] == fgc
  {
    hide SetBit;
    if n > 0 {
      DotsColored(f, at, cell, n - 1, fgc);
    }
  }

  lemma CellPainted(f: Frame, at: nat, cell: seq<u8>, fgc: u8)
    requires at < |f.buffer| == |f.colors| == |f.text| && |cell| == 8 && Blank(f, at)
    requires fgc > 1 ==> Dominant(cell, fgc - 1)
    requires fgc >= 1 && (fgc == 1 <==> forall k | 0 <= k < 8 :: cell[k] == 0)
    ensures Painted(DotsOn(f, at, cell, 8, fgc), at, cell)
    ensures fgc == 1 ==> DotsOn(f, at, cell, 8, fgc) == f
  {
    hide Bit, Dominant, DotsOn;
    DotsLit(f, at, cell, 8, fgc);
    DotsColored(f, at, cell, 8, fgc);
  }

  /** A character cell when the loops stand at pixel (cx, cy). */
  ghost predicate DrawnAt(f: Frame, pixels: seq<u8>, cols: nat, width: nat, cx: nat, cy: nat, row: nat, col: nat) {
    var at := row * cols + col;
    && at < |f.buffer| == |f.colors| == |f.text|
    && if 2 * col < width && (4 * row < cy || (4 * row == cy && 2 * col < cx))
       then Painted(f, at, Shades(pixels, width, 2 * col, 4 * row))
       else Blank(f, at)
  }

  ghost predicate Drawn(f: Frame, pixels: seq<u8>, rows: nat, cols: nat, width: nat, cx: nat, cy: nat) {
    forall row, col | 0 <= row < rows && 0 <= col < cols :: DrawnAt(f, pixels, cols, width, cx, cy, row, col)
  }

  /** What the terminal shows of pixels: the character of their eight dots, in their dominant colour. */
  ghost predicate ShowsPixels(cell: Cell, pixels: seq<u8>, width: nat, x: nat, y: nat) {
    var lit := (dx: nat, dy: nat) => if Shade(pixels, width, x + dx, y + dy) == 0 then 0 else 1;
    && cell.code == 0x2800 + lit(0, 0) + 2 * lit(0, 1) + 4 * lit(0, 2) + 64 * lit(0, 3)
                    + 8 * lit(1, 0) + 16 * lit(1, 1) + 32 * lit(1, 2) + 128 * lit(1, 3)
    && (if cell.code == 0x2800 then cell.color == Default
        else cell.color.Indexed? && 0 <= cell.color.n < 256 &&
             Dominant(Shades(pixels, width, x, y), cell.color.n))
  }

  function Dot(shade: u8): (d: nat) ensures d <= 1 { if shade == 0 then 0 else 1 }

  /** The braille mask of eight dots given row by row. */
  lemma MaskOfDots(b: u8, d0: nat, d1: nat, d2: nat, d3: nat, d4: nat, d5: nat, d6: nat, d7: nat)
    requires d0 < 2 && d1 < 2 && d2 < 2 && d3 < 2 && d4 < 2 && d5 < 2 && d6 < 2 && d7 < 2
    requires Bit(b, 0) == d0 && Bit(b, 1) == d2 && Bit(b, 2) == d4 && Bit(b, 3) == d6
    requires Bit(b, 4) == d1 && Bit(b, 5) == d3 && Bit(b, 6) == d5 && Bit(b, 7) == d7
    ensures BrailleMask(b) == d0 + 2 * d2 + 4 * d4 + 64 * d6 + 8 * d1 + 16 * d3 + 32 * d5 + 128 * d7
  {
    hide Bit, BrailleMask;
    ByteOfBits(b);
    MaskOfByte(d0, d2, d4, d6, d1, d3, d5, d7);
  }

  lemma DotsOfCell(f: Frame, at: nat, cell: seq<u8>)
    requires at < |f.buffer| == |f.colors| == |f.text| && |cell| == 8 && Painted(f, at, cell)
    ensures var b := f.buffer[at];
            && Bit(b, 0) == Dot(cell[0]) && Bit(b, 1) == Dot(cell[2]) && Bit(b, 2) == Dot(cell[4])
            && Bit(b, 3) == Dot(cell[6]) && Bit(b, 4) == Dot(cell[1]) && Bit(b, 5) == Dot(cell[3])
            && Bit(b, 6) == Dot(cell[5]) && Bit(b, 7) == Dot(cell[7])
  {
    hide Bit, Dominant;
    var b := f.buffer[at];
    assert Bit(b, BitPlace(0)) == Dot(cell[0]) && Bit(b, BitPlace(1)) == Dot(cell[1]);
    assert Bit(b, BitPlace(2)) == Dot(cell[2]) && Bit(b, BitPlace(3)) == Dot(cell[3]);
    assert Bit(b, BitPlace(4)) == Dot(cell[4]) && Bit(b, BitPlace(5)) == Dot(cell[5]);
    assert Bit(b, BitPlace(6)) == Dot(cell[6]) && Bit(b, BitPlace(7)) == Dot(cell[7]);
  }

  lemma PaintedShows(f: Frame, at: nat, pixels: seq<u8>, width: nat, x: nat, y: nat)
    requires at < |f.buffer| == |f.colors| == |f.text| && Painted(f, at, Shades(pixels, width, x, y))
    ensures ShowsPixels(ShownCell(f, at), pixels, width, x, y)
  {
    hide Bit, Dominant, BrailleMask, Shade;
    var c, b := Shades(pixels, width, x, y), f.buffer[at];
    DotsOfCell(f, at, c);
    MaskOfDots(b, Dot(c[0]), Dot(c[1]), Dot(c[2]), Dot(c[3]), Dot(c[4]), Dot(c[5]), Dot(c[6]), Dot(c[7]));
  }

  lemma NothingDrawn(pixels: seq<u8>, rows: nat, cols: nat, width: nat)
    ensures Drawn(EmptyFrame(rows * cols), pixels, rows, cols, width, 0, 0)
  {
    hide DrawnAt;
    var f := EmptyFrame(rows * cols);
    forall row, col | 0 <= row < rows && 0 <= col < cols
      ensures DrawnAt(f, pixels, cols, width, 0, 0, row, col)
    {
      BlankAt(pixels, rows, cols, width, row, col);
    }
  }

  lemma BlankAt(pixels: seq<u8>, rows: nat, cols: nat, width: nat, row: nat, col: nat)
    requires row < rows && col < cols
    ensures DrawnAt(EmptyFrame(rows * cols), pixels, cols, width, 0, 0, row, col)
  {
    hide Painted;
    CellInside(rows, cols, row + 1, col + 1);
  }

  /** One cell more. */
  lemma CellMore(f: Frame, g: Frame, pixels: seq<u8>, rows: nat, cols: nat, width: nat, cx: nat, cy: nat, at: nat)
    requires Drawn(f, pixels, rows, cols, width, cx, cy) && Covered(f, g, pixels, width, cx, cy, at)
    requires cx % 2 == 0 && cy % 4 == 0 && cx < width && at == cy / 4 * cols + cx / 2 && cx / 2 < cols
    ensures Drawn(g, pixels, rows, cols, width, cx + 2, cy)
  {
    hide DrawnAt, Covered;
    var next := cx + 2;
    forall row, col | 0 <= row < rows && 0 <= col < cols
      ensures DrawnAt(g, pixels, cols, width, next, cy, row, col)
    {
      assert DrawnAt(f, pixels, cols, width, cx, cy, row, col);
      CellMoreAt(f, g, pixels, cols, width, cx, cy, at, row, col);
    }
  }

  /** Nothing but one cell's dots and colour. */
  ghost predicate Changed(f: Frame, g: Frame, at: nat) {
    && at < |f.buffer| == |f.colors| == |f.text| == |g.buffer| == |g.colors| && g.text == f.text
    && forall i | 0 <= i < |f.buffer| && i != at :: g.buffer[i] == f.buffer[i] && g.colors[i] == f.colors[i]
  }

  /** The cell at has been drawn from its pixels, if it was empty. */
  ghost predicate Covered(f: Frame, g: Frame, pixels: seq<u8>, width: nat, cx: nat, cy: nat, at: nat) {
    Changed(f, g, at) && (Blank(f, at) ==> Painted(g, at, Shades(pixels, width, cx, cy)))
  }

  lemma DotsCover(f: Frame, at: nat, pixels: seq<u8>, width: nat, cx: nat, cy: nat, fgc: u8)
    requires at < |f.buffer| == |f.colors| == |f.text|
    requires var cell := Shades(pixels, width, cx, cy);
             && (fgc > 1 ==> Dominant(cell, fgc - 1))
             && fgc >= 1 && (fgc == 1 <==> forall k | 0 <= k < 8 :: cell[k] == 0)
    ensures Covered(f, DotsOn(f, at, Shades(pixels, width, cx, cy), 8, fgc), pixels, width, cx, cy, at)
    ensures fgc == 1 ==> Covered(f, f, pixels, width, cx, cy, at)
  {
    hide DotsOn, Painted, Dominant, Blank, Shades;
    if Blank(f, at) {
      CellPainted(f, at, Shades(pixels, width, cx, cy), fgc);
    }
  }

  lemma PlacesApart(cols: nat, row: nat, col: nat, row': nat, col': nat)
    requires col < cols && col' < cols && row * cols + col == row' * cols + col'
    ensures row == row' && col == col'
  {
    CellPlace(cols, row, col);
    CellPlace(cols, row', col');
  }

  lemma OthersStay(f: Frame, g: Frame, at: nat, i: nat, cell: seq<u8>)
    requires Changed(f, g, at) && i < |f.buffer| && i != at && |cell| == 8
    ensures Painted(g, i, cell) == Painted(f, i, cell) && Blank(g, i) == Blank(f, i)
  {
    hide Dominant, Bit;
  }

  lemma OtherCellAt(f: Frame, g: Frame, pixels: seq<u8>, cols: nat, width: nat, cx: nat, cy: nat, at: nat,
                    row: nat, col: nat)
    requires DrawnAt(f, pixels, cols, width, cx, cy, row, col) && Changed(f, g, at) && row * cols + col != at
    requires cx % 2 == 0 && cy % 4 == 0 && (row != cy / 4 || col != cx / 2)
    ensures DrawnAt(g, pixels, cols, width, cx + 2, cy, row, col)
  {
    hide Shades, Painted, Blank;
    OthersStay(f, g, at, row * cols + col, Shades(pixels, width, 2 * col, 4 * row));
  }

  lemma ThisCellAt(f: Frame, g: Frame, pixels: seq<u8>, cols: nat, width: nat, cx: nat, cy: nat, at: nat,
                   row: nat, col: nat)
    requires DrawnAt(f, pixels, cols, width, cx, cy, row, col) && Covered(f, g, pixels, width, cx, cy, at)
    requires cx == 2 * col && cy == 4 * row && cx < width && at == row * cols + col
    ensures DrawnAt(g, pixels, cols, width, cx + 2, cy, row, col)
  {
    hide Shades, Painted, Blank;
  }

  lemma CellMoreAt(f: Frame, g: Frame, pixels: seq<u8>, cols: nat, width: nat, cx: nat, cy: nat, at: nat,
                   row: nat, col: nat)
    requires DrawnAt(f, pixels, cols, width, cx, cy, row, col) && Covered(f, g, pixels, width, cx, cy, at)
    requires cx % 2 == 0 && cy % 4 == 0 && cx < width && at == cy / 4 * cols + cx / 2 && cx / 2 < cols && col < cols
    ensures DrawnAt(g, pixels, cols, width, cx + 2, cy, row, col)
  {
    hide Shades, Painted, Blank, DrawnAt, Changed;
    if row == cy / 4 && col == cx / 2 {
      ThisCellAt(f, g, pixels, cols, width, cx, cy, at, row, col);
    } else {
      if row * cols + col == at {
        PlacesApart(cols, row, col, cy / 4, cx / 2);
      }
      OtherCellAt(f, g, pixels, cols, width, cx, cy, at, row, col);
    }
  }

  lemma RowDone(f: Frame, pixels: seq<u8>, rows: nat, cols: nat, width: nat, cx: nat, cy: nat)
    requires Drawn(f, pixels, rows, cols, width, cx, cy) && cx >= width && cy % 4 == 0
    ensures Drawn(f, pixels, rows, cols, width, 0, cy + 4)
  {
    hide Painted, Blank, Shades;
    var next := cy + 4;
    forall row, col | 0 <= row < rows && 0 <= col < cols
      ensures DrawnAt(f, pixels, cols, width, 0, next, row, col)
    {
      assert DrawnAt(f, pixels, cols, width, cx, cy, row, col);
    }
  }

  /** A cell of the terminal shows the pixels it covers, or nothing where there are none. */
  ghost predicate CellShown(cells: seq<Cell>, pixels: seq<u8>, cols: nat, width: nat, height: nat, row: nat, col: nat) {
    var i := row * cols + col;
    && 0 <= i < |cells|
    && if 2 * col < width && 4 * row < height then ShowsPixels(cells[i], pixels, width, 2 * col, 4 * row)
       else cells[i] == Cell(0x2800, Default)
  }

  lemma CellShows(cells: seq<Cell>, f: Frame, pixels: seq<u8>, rows: nat, cols: nat, width: nat, height: nat,
                  row: nat, col: nat)
    requires Drawn(f, pixels, rows, cols, width, 0, height) && row < rows && col < cols && height % 4 == 0
    requires |f.buffer| == |f.colors| == |f.text| && Shows(cells, f)
    ensures CellShown(cells, pixels, cols, width, height, row, col)
  {
    hide Drawn, ShownCell, ShowsPixels;
    CellOfDrawn(f, pixels, rows, cols, width, height, row, col);
  }

  lemma CellOfDrawn(f: Frame, pixels: seq<u8>, rows: nat, cols: nat, width: nat, height: nat, row: nat, col: nat)
    requires Drawn(f, pixels, rows, cols, width, 0, height) && row < rows && col < cols && height % 4 == 0
    ensures row * cols + col < |f.buffer| == |f.colors| == |f.text|
    ensures var c := ShownCell(f, row * cols + col);
            if 2 * col < width && 4 * row < height then ShowsPixels(c, pixels, width, 2 * col, 4 * row)
            else c == Cell(0x2800, Default)
  {
    hide Painted, Shades, ShowsPixels, Bit, Dominant;
    assert DrawnAt(f, pixels, cols, width, 0, height, row, col);
    if 2 * col < width && 4 * row < height {
      PaintedShows(f, row * cols + col, pixels, width, 2 * col, 4 * row);
    }
  }

  // --------------------------------------------------------------------- the backend

  /** The character cell of a pixel. */
  function CellAt(cols: nat, cx: nat, cy: nat): nat { cy / 4 * cols + cx / 2 }

  lemma DotInCell(cx: nat, cy: nat, dx: nat, dy: nat)
    requires cx % 2 == 0 && cy % 4 == 0 && dx < 2 && dy < 4
    ensures (cy + dy) / 4 == cy / 4 && (cy + dy) % 4 == dy && (cx + dx) / 2 == cx / 2 && (cx + dx) % 2 == dx
  {
  }

  lemma DotIndex(dx: nat, dy: nat)
    requires dx < 2 && dy < 4
    ensures (2 * dy + dx) % 2 == dx && (2 * dy + dx) / 2 == dy
  {
  }

  lemma PixelInside(width: nat, x: nat, y: nat)
    requires width <= FRAME_WIDTH && x < FRAME_WIDTH && y < FRAME_HEIGHT
    ensures y * width + x < FRAME_WIDTH * FRAME_HEIGHT
  {
    assert y * width <= y * FRAME_WIDTH;
  }

  /** Pictures and canvases are made of whole characters. */
  lemma WholeCell(rows: nat, cols: nat, cx: nat, cy: nat)
    requires cx % 2 == 0 && cy % 4 == 0 && cx < Min(FRAME_WIDTH, 2 * cols) && cy < Min(FRAME_HEIGHT, 4 * rows)
    ensures cx + 2 <= Min(FRAME_WIDTH, 2 * cols) && cy + 4 <= Min(FRAME_HEIGHT, 4 * rows)
    ensures cy / 4 * cols + cx / 2 < rows * cols
  {
    DotInside(rows, cols, cx, cy);
  }

  class Backend {
    const vt: Canvas
    const width: nat
    const height: nat
    const vbuf: array<u8>

    ghost function Screens(): set<array<u8>> { vt.sb0.Arrays() + vt.sb1.Arrays() }

    ghost predicate Valid()
      reads vt, vbuf, Screens()
    {
      && vt.Valid() && width == Min(FRAME_WIDTH, 2 * vt.ncols) && height == Min(FRAME_HEIGHT, 4 * vt.nrows)
      && vbuf.Length == FRAME_WIDTH * FRAME_HEIGHT && vbuf !in Screens() && vbuf != vt.seqlist
      && forall i | 0 <= i < vbuf.Length :: vbuf[i] < 64
    }

    /** vt_backend.c:104-128. */
    constructor (vt: Canvas)
      requires vt.Valid()
      ensures Valid() && this.vt == vt && fresh(vbuf)
    {
      this.vt := vt;
      width, height := Min(FRAME_WIDTH, 2 * vt.ncols), Min(FRAME_HEIGHT, 4 * vt.nrows);
      vbuf := new u8[FRAME_WIDTH * FRAME_HEIGHT](_ => 63);
    }

    /** vt_backend.c:23-26. */
    method SetPixel(y: nat, x: nat, color: u8)
      requires Valid() && y < FRAME_HEIGHT && x < FRAME_WIDTH && color < 64
      modifies vbuf
      ensures Valid() && y * width + x < vbuf.Length && vbuf[..] == old(vbuf[..])[y * width + x := color]
    {
      PixelInside(width, x, y);
      vbuf[y * width + x] := color;
    }

    /** vt_backend.c:66-70. */
    function ReadShade(x: nat, y: nat): (shade: u8)
      requires Valid() && x < width && y < height
      reads vt, vbuf, Screens()
      ensures shade == Shade(vbuf[..], width, x, y)
    {
      ShadeOf(x, y);
      ColorMapped(vbuf[y * width + x])
    }

    /** vt_backend.c:61-72. */
    method Gather(cx: nat, cy: nat) returns (cell: seq<u8>)
      requires Valid() && cx + 2 <= width && cy + 4 <= height
      ensures cell == Shades(vbuf[..], width, cx, cy)
    {
      hide Shade, ReadShade, Valid;
      ghost var all := Shades(vbuf[..], width, cx, cy);
      cell := [];
      var dy := 0;
      while dy < 4 && cy + dy < height
        invariant Valid() && dy <= 4 && cell == all[..2 * dy]
      {
        var dx := 0;
        while dx < 2 && cx + dx < width
          invariant Valid() && dx <= 2 && cell == all[..2 * dy + dx]
        {
          DotIndex(dx, dy);
          assert all[..2 * dy + dx + 1] == all[..2 * dy + dx] + [all[2 * dy + dx]];
          cell := cell + [ReadShade(cx + dx, cy + dy)];
          dx := dx + 1;
        }
        dy := dy + 1;
      }
    }

    lemma ShadeOf(x: nat, y: nat)
      requires Valid() && x < width && y < height
      ensures y * width + x < vbuf.Length && vbuf[y * width + x] < 64
      ensures ColorMapped(vbuf[y * width + x]) == Shade(vbuf[..], width, x, y)
    {
      hide ColorMapped;
      PixelInside(width, x, y);
      assert vbuf[..][y * width + x] == vbuf[y * width + x];
    }

    /** vt_backend.c:83. */
    method DrawDot(cx: nat, cy: nat, dx: nat, dy: nat, dominant: u8)
      requires Valid() && cx % 2 == 0 && cy % 4 == 0 && cx + 2 <= width && cy + 4 <= height && dx < 2 && dy < 4
      modifies vt.curSb.buffer, vt.curSb.fgcolors
      ensures Valid() && CellAt(vt.ncols, cx, cy) < vt.Cells()
      ensures vt.curSb.View() == DotRendered(old(vt.curSb.View()), CellAt(vt.ncols, cx, cy), dx, dy, dominant)
    {
      hide Interpret, ValidTerm, ShownCell, SetBit, DotRendered, Shows, VtStencil.ValidFrame;
      DotInCell(cx, cy, dx, dy);
      vt.RenderDot(cx + dx, cy + dy, dominant);
    }

    /** vt_backend.c:78-86. */
    method DrawDots(cx: nat, cy: nat, cell: seq<u8>, dominant: u8)
      requires Valid() && |cell| == 8 && cx % 2 == 0 && cy % 4 == 0 && cx + 2 <= width && cy + 4 <= height
      modifies vt.curSb.buffer, vt.curSb.fgcolors
      ensures Valid() && CellAt(vt.ncols, cx, cy) < vt.Cells()
      ensures vt.curSb.View() == DotsOn(old(vt.curSb.View()), CellAt(vt.ncols, cx, cy), cell, 8, dominant)
    {
      hide Interpret, ValidTerm, ShownCell, SetBit, DotRendered, Shows, VtStencil.ValidFrame;
      ghost var f, at := vt.curSb.View(), CellAt(vt.ncols, cx, cy);
      DotInside(vt.nrows, vt.ncols, cx, cy);
      for dy := 0 to 4
        invariant Valid() && vt.curSb.View() == DotsOn(f, at, cell, 2 * dy, dominant)
      {
        for dx := 0 to 2
          invariant Valid() && vt.curSb.View() == DotsOn(f, at, cell, 2 * dy + dx, dominant)
        {
          DotIndex(dx, dy);
          if cell[2 * dy + dx] != 0 {
            DrawDot(cx, cy, dx, dy, dominant);
          }
        }
      }
    }

    /** The terminal's cell shows the pixels it covers, or nothing where there are none. */
    ghost predicate ShowsFrameAt(row: nat, col: nat)
      reads vt, vbuf
    {
      var i := row * vt.ncols + col;
      && 0 <= i < |vt.term.cells|
      && if 2 * col < width && 4 * row < height
         then ShowsPixels(vt.term.cells[i], vbuf[..], width, 2 * col, 4 * row)
         else vt.term.cells[i] == Cell(0x2800, Default)
    }

    lemma AllShown(f: Frame)
      requires Valid() && Drawn(f, vbuf[..], vt.nrows, vt.ncols, width, 0, height)
      requires |f.buffer| == |f.colors| == |f.text| && Shows(vt.term.cells, f)
      ensures forall row, col | 0 <= row < vt.nrows && 0 <= col < vt.ncols :: ShowsFrameAt(row, col)
    {
      hide Drawn, ShownCell, ShowsPixels, ShowsFrameAt, Shows, Valid;
      assert height % 4 == 0 by { WholeHeight(); }
      forall row, col | 0 <= row < vt.nrows && 0 <= col < vt.ncols
        ensures ShowsFrameAt(row, col)
      {
        CellShows(vt.term.cells, f, vbuf[..], vt.nrows, vt.ncols, width, height, row, col);
        OneShown(row, col);
      }
    }

    lemma WholeHeight()
      requires Valid()
      ensures height % 4 == 0
    {
    }

    lemma OneShown(row: nat, col: nat)
      requires CellShown(vt.term.cells, vbuf[..], vt.ncols, width, height, row, col)
      ensures ShowsFrameAt(row, col)
    {
      hide ShowsPixels;
    }

    /** vt_backend.c:61-87: a character of eight pixels; a black one is left out. */
    method DrawPixels(cx: nat, cy: nat)
      requires Valid() && cx % 2 == 0 && cy % 4 == 0 && cx < width && cy < height
      modifies vt.curSb.buffer, vt.curSb.fgcolors
      ensures Valid()
      ensures Covered(old(vt.curSb.View()), vt.curSb.View(), vbuf[..], width, cx, cy, CellAt(vt.ncols, cx, cy))
    {
      hide Interpret, ValidTerm, ShownCell, SetBit, DotsOn, Shows, Covered, Dominant, Shades;
      ghost var f, at := vt.curSb.View(), CellAt(vt.ncols, cx, cy);
      WholeCell(vt.nrows, vt.ncols, cx, cy);
      var cell := Gather(cx, cy);
      var dominant := DominantColor(cell);
      DotsCover(f, at, vbuf[..], width, cx, cy, dominant);
      if dominant == 1 {
        return;
      }
      DrawDots(cx, cy, cell, dominant);
    }

    /** vt_backend.c:60-87: a row of characters. */
    method DrawRow(cy: nat)
      requires Valid() && cy % 4 == 0 && cy < height
      modifies vt.curSb.buffer, vt.curSb.fgcolors
      ensures Valid()
      ensures old(Drawn(vt.curSb.View(), vbuf[..], vt.nrows, vt.ncols, width, 0, cy)) ==>
                Drawn(vt.curSb.View(), vbuf[..], vt.nrows, vt.ncols, width, 0, cy + 4)
    {
      hide Interpret, ValidTerm, ShownCell, Shows, Covered, Shades, Drawn, VtStencil.ValidFrame;
      ghost var empty := Drawn(vt.curSb.View(), vbuf[..], vt.nrows, vt.ncols, width, 0, cy);
      var cx := 0;
      while cx < width
        invariant Valid() && cx <= width && cx % 2 == 0
        invariant empty ==> Drawn(vt.curSb.View(), vbuf[..], vt.nrows, vt.ncols, width, cx, cy)
      {
        ghost var f := vt.curSb.View();
        DrawPixels(cx, cy);
        if empty {
          CellMore(f, vt.curSb.View(), vbuf[..], vt.nrows, vt.ncols, width, cx, cy, CellAt(vt.ncols, cx, cy));
        }
        cx := cx + 2;
      }
      if empty {
        RowDone(vt.curSb.View(), vbuf[..], vt.nrows, vt.ncols, width, cx, cy);
      }
    }

    /** vt_backend.c:59-88: all rows. */
    method DrawFrame()
      requires Valid()
      modifies vt.curSb.buffer, vt.curSb.fgcolors
      ensures Valid()
      ensures old(vt.curSb.View() == EmptyFrame(vt.Cells())) ==>
                Drawn(vt.curSb.View(), vbuf[..], vt.nrows, vt.ncols, width, 0, height)
    {
      hide Interpret, ValidTerm, ShownCell, Shows, Drawn, EmptyFrame, VtStencil.ValidFrame;
      ghost var empty := vt.curSb.View() == EmptyFrame(vt.Cells());
      NothingDrawn(vbuf[..], vt.nrows, vt.ncols, width);
      var cy := 0;
      while cy < height
        invariant Valid() && cy <= height && cy % 4 == 0
        invariant empty ==> Drawn(vt.curSb.View(), vbuf[..], vt.nrows, vt.ncols, width, 0, cy)
      {
        DrawRow(cy);
        cy := cy + 4;
      }
    }

    /** vt_backend.c:47-90: the picture becomes a frame of characters and is sent.  Afterwards every cell of the
      * terminal that covers pixels shows them, and any other is empty.
      */
    method FrameFlush(memory: nat) returns (ok: bool, ghost sent: seq<u8>)
      requires Valid()
      modifies vt, vt.seqlist, Screens()
      ensures Valid() && vbuf[..] == old(vbuf[..]) && vt.term == Interpret(old(vt.term), sent)
      ensures ok ==> vt.curSb.View() == EmptyFrame(vt.Cells())
      ensures ok && old(vt.curSb.View() == EmptyFrame(vt.Cells())) ==>
                forall row, col | 0 <= row < vt.nrows && 0 <= col < vt.ncols :: ShowsFrameAt(row, col)
    {
      hide Interpret, ValidTerm, ShownCell, Shows, Drawn, ShowsFrameAt, EmptyFrame, VtStencil.ValidFrame;
      ghost var empty := vt.curSb.View() == EmptyFrame(vt.Cells());
      DrawFrame();
      ghost var f := vt.curSb.View();
      ok, sent := vt.SwapBuffers(memory);
      if ok && empty {
        AllShown(f);
      }
    }
  }

  // ------------------------------------------------------------- a picture cut to size

  /** The place in the buffer of the pixel (x, y). */
  function Slot(width: nat, x: nat, y: nat): nat { y * width + x }

  lemma SlotInside(width: nat, x: nat, y: nat)
    requires width <= FRAME_WIDTH && x < FRAME_WIDTH && y < FRAME_HEIGHT
    ensures Slot(width, x, y) < FRAME_WIDTH * FRAME_HEIGHT
  {
    PixelInside(width, x, y);
  }

  /** The buffer after the first n pixels of a picture have been set, row by row (SetPixel). */
  function Written(pixels: seq<u8>, width: nat, picture: seq<u8>, n: nat): (buf: seq<u8>)
    requires |pixels| == |picture| == FRAME_WIDTH * FRAME_HEIGHT && width <= FRAME_WIDTH && n <= |picture|
    ensures |buf| == |pixels|
  {
    if n == 0 then pixels
    else
      SlotInside(width, (n - 1) % FRAME_WIDTH, (n - 1) / FRAME_WIDTH);
      var at := Slot(width, (n - 1) % FRAME_WIDTH, (n - 1) / FRAME_WIDTH);
      Written(pixels, width, picture, n - 1)[at := picture[n - 1]]
  }

  /** No later pixel of the picture is set in the place of one that is kept. */
  lemma LaterPixel(width: nat, x: nat, y: nat, m: nat)
    requires x < width <= FRAME_WIDTH && FRAME_WIDTH * y + x < m
    ensures Slot(width, m % FRAME_WIDTH, m / FRAME_WIDTH) != Slot(width, x, y)
  {
    var q, r := m / FRAME_WIDTH, m % FRAME_WIDTH;
    assert m == FRAME_WIDTH * q + r;
    if q > y {
      MultipleAtLeast(q - y, width);
      assert (q - y) * width == q * width - y * width;
    }
  }

  lemma {:induction false} SlotKept(pixels: seq<u8>, width: nat, picture: seq<u8>, n: nat, x: nat, y: nat)
    requires |pixels| == |picture| == FRAME_WIDTH * FRAME_HEIGHT && width <= FRAME_WIDTH && n <= |picture|
    requires x < width && FRAME_WIDTH * y + x < n
    ensures Slot(width, x, y) < |pixels|
    ensures Written(pixels, width, picture, n)[Slot(width, x, y)] == picture[FRAME_WIDTH * y + x]
  {
    hide Slot;
    SlotInside(width, x, y);
    if FRAME_WIDTH * y + x < n - 1 {
      SlotKept(pixels, width, picture, n - 1, x, y);
      LaterPixel(width, x, y, n - 1);
    }
  }

  /** On a terminal narrower than the picture the end of each row is overwritten by the next one, and what is left is
    * the picture cut at the right edge.
    */
  lemma PictureCropped(pixels: seq<u8>, width: nat, picture: seq<u8>, n: nat, x: nat, y: nat)
    requires |pixels| == |picture| == FRAME_WIDTH * FRAME_HEIGHT && width <= FRAME_WIDTH && n <= |picture|
    requires x < width && FRAME_WIDTH * y + x < n
    ensures y * width + x < |pixels|
    ensures Written(pixels, width, picture, n)[y * width + x] == picture[FRAME_WIDTH * y + x]
  {
    hide Written;
    SlotKept(pixels, width, picture, n, x, y);
  }
}
