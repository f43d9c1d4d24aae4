/** A small terminal: what a screen shows after a stream of bytes.
  *
  * It understands cursor position and colour sequences (CUP and SGR, sections 8.3.14 and 8.3.117 of
  * ECMA-48), three-byte characters (section 3 of RFC 3629) and printable ASCII.  Writing a character
  * moves the cursor on in row-major order.  A cleared cell is an empty braille character.
  */
module VtTerminal {
  import opened Common

  const ESC: u8 := 0x1B
  const BRAILLE := 0x2800

  datatype Color = Default | Indexed(n: nat)

  datatype Cell = Cell(code: nat, color: Color)

  datatype Parse = Ground | Escape | Csi(params: seq<nat>) | Second(high: nat) | Third(high: nat)

  datatype Term = Term(rows: nat, cols: nat, cells: seq<Cell>, cursor: nat, color: Color, parse: Parse)

  ghost predicate ValidTerm(t: Term) {
    |t.cells| == t.rows * t.cols && (t.parse.Csi? ==> t.parse.params != [])
  }

  /** A character appears under the cursor, which moves on. */
  function Put(t: Term, code: nat): (u: Term)
    ensures ValidTerm(t) ==> ValidTerm(u)
  {
    if t.cursor < |t.cells| then
      t.(cells := t.cells[t.cursor := Cell(code, t.color)], cursor := t.cursor + 1, parse := Ground)
    else t.(parse := Ground)
  }

  /** A coordinate counts from one; a missing one is one, one too large the last. */
  function Coordinate(params: seq<nat>, i: nat, limit: nat): nat {
    var given := if i < |params| && params[i] > 0 then params[i] else 1;
    Min(given, limit)
  }

  function MoveCursor(t: Term, params: seq<nat>): (u: Term)
    ensures ValidTerm(t) ==> ValidTerm(u)
  {
    var row, col := Coordinate(params, 0, t.rows), Coordinate(params, 1, t.cols);
    t.(cursor := if row == 0 || col == 0 then t.cursor else (row - 1) * t.cols + col - 1, parse := Ground)
  }

  function Rendition(color: Color, params: seq<nat>): Color
    decreases |params|
  {
    if params == [] then color
    else if params[0] == 38 && |params| >= 3 && params[1] == 5 then Rendition(Indexed(params[2]), params[3..])
    else if params[0] == 0 || params[0] == 39 then Rendition(Default, params[1..])
    else Rendition(color, params[1..])
  }

  function OneByte(t: Term, b: u8): (u: Term)
    requires ValidTerm(t)
    ensures ValidTerm(u)
  {
    match t.parse
    case Ground =>
      if b == ESC then t.(parse := Escape)
      else if 0x20 <= b < 0x7F then Put(t, b)
      else if 0xE0 <= b < 0xF0 then t.(parse := Second(b % 0x10))
      else t
    case Escape => t.(parse := if b == '[' as int then Csi([0]) else Ground)
    case Csi(params) =>
      var last := |params| - 1;
      if '0' as int <= b <= '9' as int then
        t.(parse := Csi(params[last := 10 * params[last] + b - '0' as int]))
      else if b == ';' as int then t.(parse := Csi(params + [0]))
      else if b == 'H' as int then MoveCursor(t, params)
      else if b == 'm' as int then t.(color := Rendition(t.color, params), parse := Ground)
      else t.(parse := Ground)
    case Second(high) => t.(parse := if 0x80 <= b < 0xC0 then Third(0x40 * high + b % 0x40) else Ground)
    case Third(high) => if 0x80 <= b < 0xC0 then Put(t, 0x40 * high + b % 0x40) else t.(parse := Ground)
  }

  /** What the terminal shows after some bytes. */
  function Interpret(t: Term, bytes: seq<u8>): (u: Term)
    requires ValidTerm(t)
    ensures ValidTerm(u)
    decreases |bytes|
  {
    if bytes == [] then t else OneByte(Interpret(t, bytes[..|bytes| - 1]), bytes[|bytes| - 1])
  }

  lemma {:induction false} InterpretAppends(t: Term, a: seq<u8>, b: seq<u8>)
    requires ValidTerm(t)
    ensures Interpret(t, a + b) == Interpret(Interpret(t, a), b)
    decreases |b|
  {
    hide OneByte, ValidTerm;
    if b == [] {
      assert a + b == a;
    } else {
      var c := b[..|b| - 1];
      assert (a + b)[..|a + b| - 1] == a + c;
      InterpretAppends(t, a, c);
    }
  }

  lemma InterpretOne(t: Term, b: u8)
    requires ValidTerm(t)
    ensures Interpret(t, [b]) == OneByte(t, b)
  {
    hide OneByte, ValidTerm;
    assert [b][..0] == [];
    assert Interpret(t, []) == t;
  }

  // ------------------------------------------------------------------- sequences

  function Digit(d: nat): u8
    requires d < 10
  {
    '0' as int + d
  }

  /** A number in decimal, without leading zeros. */
  function Decimal(n: nat): (digits: seq<u8>)
    ensures |digits| >= 1
  {
    if n < 10 then [Digit(n)] else Decimal(n / 10) + [Digit(n % 10)]
  }

  /** The terminal reads back the number that was written. */
  lemma {:induction false} DecimalRead(t: Term, params: seq<nat>, n: nat)
    requires ValidTerm(t) && t.parse == Csi(params + [0])
    ensures Interpret(t, Decimal(n)) == t.(parse := Csi(params + [n]))
  {
    if n < 10 {
      InterpretOne(t, Digit(n));
      assert (params + [0])[|params| := n] == params + [n];
    } else {
      DecimalRead(t, params, n / 10);
      InterpretAppends(t, Decimal(n / 10), [Digit(n % 10)]);
      var u := t.(parse := Csi(params + [n / 10]));
      InterpretOne(u, Digit(n % 10));
      assert 10 * (n / 10) + n % 10 == n;
      assert (params + [n / 10])[|params| := n] == params + [n];
    }
  }

  /** ESC [ row ; col H */
  function Cup(row: nat, col: nat): seq<u8> {
    [ESC, '[' as int] + Decimal(row) + [';' as int] + Decimal(col) + ['H' as int]
  }

  /** ESC [ 39 m, or ESC [ 38 ; 5 ; n m for colour n + 1. */
  function Sgr(fgc: u8): seq<u8> {
    if fgc == 0 then [ESC, '[' as int, '3' as int, '9' as int, 'm' as int]
    else ColorPrefix() + Decimal(fgc - 1) + ['m' as int]
  }

  function ColorPrefix(): (s: seq<u8>)
    ensures |s| == 7
  {
    [ESC, '[' as int, '3' as int, '8' as int, ';' as int, '5' as int, ';' as int]
  }

  lemma SgrParts(fgc: u8)
    ensures fgc == 0 ==> |Sgr(fgc)| == 5
    ensures fgc > 0 ==> Sgr(fgc) == ColorPrefix() + Decimal(fgc - 1) + ['m' as int]
  {
  }

  /** A braille character by its eight dots. */
  function Glyph(mask: u8): seq<u8> { [0xE2, 0xA0 + mask / 0x40, 0x80 + mask % 0x40] }

  function ColorOf(fgc: u8): Color { if fgc == 0 then Default else Indexed(fgc - 1) }

  lemma Opened(t: Term)
    requires ValidTerm(t) && t.parse == Ground
    ensures Interpret(t, [ESC, '[' as int]) == t.(parse := Csi([0]))
  {
    InterpretOne(t, ESC);
    InterpretOne(t.(parse := Escape), '[' as int);
    InterpretAppends(t, [ESC], ['[' as int]);
    assert [ESC] + ['[' as int] == [ESC, '[' as int];
  }

  /** A number inside a control sequence, then the byte after it. */
  lemma NumberThen(t: Term, params: seq<nat>, n: nat, b: u8)
    requires ValidTerm(t) && t.parse == Csi(params + [0])
    ensures Interpret(t, Decimal(n) + [b]) == OneByte(t.(parse := Csi(params + [n])), b)
  {
    hide OneByte;
    DecimalRead(t, params, n);
    InterpretAppends(t, Decimal(n), [b]);
    InterpretOne(t.(parse := Csi(params + [n])), b);
  }

  lemma NumberAndNext(t: Term, params: seq<nat>, n: nat)
    requires ValidTerm(t) && t.parse == Csi(params + [0])
    ensures Interpret(t, Decimal(n) + [';' as int]) == t.(parse := Csi((params + [n]) + [0]))
  {
    hide Decimal, Interpret, ValidTerm;
    NumberThen(t, params, n, ';' as int);
  }

  lemma NumberAndMove(t: Term, row: nat, col: nat)
    requires ValidTerm(t) && t.parse == Csi([row] + [0]) && 1 <= row <= t.rows && 1 <= col <= t.cols
    ensures Interpret(t, Decimal(col) + ['H' as int]) == t.(cursor := (row - 1) * t.cols + col - 1, parse := Ground)
  {
    hide Decimal, Interpret, ValidTerm;
    NumberThen(t, [row], col, 'H' as int);
    assert ([row] + [col])[0] == row && ([row] + [col])[1] == col;
  }

  lemma CupMoves(t: Term, row: nat, col: nat)
    requires ValidTerm(t) && t.parse == Ground && 1 <= row <= t.rows && 1 <= col <= t.cols
    ensures Interpret(t, Cup(row, col)) == t.(cursor := (row - 1) * t.cols + col - 1)
  {
    hide Decimal, Interpret;
    var open, rows, cols: seq<u8> := [ESC, '[' as int], Decimal(row) + [';' as int], Decimal(col) + ['H' as int];
    assert Cup(row, col) == open + (rows + cols);
    Opened(t);
    assert [] + [0] == [0] && [] + [row] == [row];
    NumberAndNext(t.(parse := Csi([0])), [], row);
    NumberAndMove(t.(parse := Csi([row] + [0])), row, col);
    InterpretAppends(t.(parse := Csi([0])), rows, cols);
    InterpretAppends(t, open, rows + cols);
  }

  lemma SgrDefault(t: Term)
    requires ValidTerm(t) && t.parse == Ground
    ensures Interpret(t, Sgr(0)) == t.(color := Default)
  {
    hide Decimal, Interpret;
    Opened(t);
    SmallNumbers();
    assert [] + [0] == [0] && [] + [39] == [39];
    NumberThen(t.(parse := Csi([0])), [], 39, 'm' as int);
    assert Rendition(t.color, [39]) == Rendition(Default, [39][1..]);
    InterpretAppends(t, [ESC, '[' as int], Decimal(39) + ['m' as int]);
    assert Sgr(0) == [ESC, '[' as int] + (Decimal(39) + ['m' as int]);
  }

  lemma SmallNumbers()
    ensures Decimal(5) == [Digit(5)] && Decimal(38) == [Digit(3), Digit(8)] && Decimal(39) == [Digit(3), Digit(9)]
  {
    assert Decimal(3) == [Digit(3)];
    assert Decimal(38) == [Digit(3)] + [Digit(8)];
    assert Decimal(39) == [Digit(3)] + [Digit(9)];
  }

  lemma PrefixRead(t: Term)
    requires ValidTerm(t) && t.parse == Ground
    ensures Interpret(t, ColorPrefix()) == t.(parse := Csi([38, 5] + [0]))
  {
    hide Decimal, Interpret;
    Opened(t);
    SmallNumbers();
    assert [] + [0] == [0] && [] + [38] == [38] && [38] + [5] == [38, 5];
    NumberAndNext(t.(parse := Csi([0])), [], 38);
    NumberAndNext(t.(parse := Csi([38] + [0])), [38], 5);
    var a, b: seq<u8> := Decimal(38) + [';' as int], Decimal(5) + [';' as int];
    InterpretAppends(t.(parse := Csi([0])), a, b);
    InterpretAppends(t, [ESC, '[' as int], a + b);
    assert ColorPrefix() == [ESC, '[' as int] + (a + b);
  }

  lemma SgrColors(t: Term, fgc: u8)
    requires ValidTerm(t) && t.parse == Ground
    ensures Interpret(t, Sgr(fgc)) == t.(color := ColorOf(fgc))
  {
    hide Sgr, ColorPrefix, Decimal, Interpret;
    if fgc == 0 {
      SgrDefault(t);
    } else {
      SgrParts(fgc);
      PrefixRead(t);
      var u := t.(parse := Csi([38, 5] + [0]));
      var number := Decimal(fgc - 1) + ['m' as int];
      NumberThen(u, [38, 5], fgc - 1, 'm' as int);
      InterpretAppends(t, ColorPrefix(), number);
      assert Sgr(fgc) == ColorPrefix() + number;
      OneColor(t.color, fgc - 1);
    }
  }

  lemma OneColor(color: Color, n: nat)
    ensures Rendition(color, [38, 5] + [n]) == Indexed(n)
  {
    assert ([38, 5] + [n])[3..] == [];
  }

  lemma GlyphBytes(mask: u8)
    ensures mask / 0x40 < 4
    ensures 0x40 * 2 + (0xA0 + mask / 0x40) % 0x40 == 0xA0 + mask / 0x40
    ensures 0x40 * (0xA0 + mask / 0x40) + (0x80 + mask % 0x40) % 0x40 == BRAILLE + mask
  {
  }

  lemma CharacterBytes(t: Term, middle: u8, last: u8)
    requires ValidTerm(t) && t.parse == Ground && 0x80 <= middle < 0xC0 && 0x80 <= last < 0xC0
    ensures OneByte(t, 0xE2) == t.(parse := Second(2))
    ensures OneByte(t.(parse := Second(2)), middle) == t.(parse := Third(0x40 * 2 + middle % 0x40))
    ensures OneByte(t.(parse := Third(0x40 * 2 + middle % 0x40)), last) ==
            Put(t, 0x40 * (0x40 * 2 + middle % 0x40) + last % 0x40)
  {
  }

  lemma GlyphDrawn(t: Term, mask: u8)
    requires ValidTerm(t) && t.parse == Ground
    ensures Interpret(t, Glyph(mask)) == Put(t, BRAILLE + mask)
  {
    hide Interpret, OneByte, Put;
    GlyphBytes(mask);
    var middle: u8, last: u8 := 0xA0 + mask / 0x40, 0x80 + mask % 0x40;
    CharacterBytes(t, middle, last);
    InterpretOne(t, 0xE2);
    InterpretOne(t.(parse := Second(2)), middle);
    InterpretOne(t.(parse := Third(0x40 * 2 + middle % 0x40)), last);
    InterpretAppends(t, [0xE2], [middle]);
    InterpretAppends(t, [0xE2] + [middle], [last]);
    assert Glyph(mask) == [0xE2] + [middle] + [last];
  }

  lemma CharDrawn(t: Term, chr: u8)
    requires ValidTerm(t) && t.parse == Ground && 0x20 <= chr < 0x7F
    ensures Interpret(t, [chr]) == Put(t, chr)
  {
    InterpretOne(t, chr);
  }

  /** As bytes: "ESC [ 2 ; 3 H" is the third cell of the second row. */
  lemma CursorBytes(t: Term)
    requires ValidTerm(t) && t.parse == Ground && t.rows >= 2 && t.cols >= 3
    ensures Interpret(t, [0x1B, 0x5B, 0x32, 0x3B, 0x33, 0x48]) == t.(cursor := t.cols + 2)
  {
    hide Interpret, Cup, ValidTerm;
    WrittenOut();
    CursorMoved(t, [0x1B, 0x5B, 0x32, 0x3B, 0x33, 0x48]);
  }

  lemma CursorMoved(t: Term, bytes: seq<u8>)
    requires ValidTerm(t) && t.parse == Ground && t.rows >= 2 && t.cols >= 3 && bytes == Cup(2, 3)
    ensures Interpret(t, bytes) == t.(cursor := t.cols + 2)
  {
    hide Interpret, Cup, ValidTerm;
    CupMoves(t, 2, 3);
  }

  /** "ESC [ 38 ; 5 ; 17 m" is colour 17, "ESC [ 39 m" the default colour. */
  lemma ColorBytes(t: Term)
    requires ValidTerm(t) && t.parse == Ground
    ensures Interpret(t, [0x1B, 0x5B, 0x33, 0x38, 0x3B, 0x35, 0x3B, 0x31, 0x37, 0x6D]) == t.(color := Indexed(17))
    ensures Interpret(t, [0x1B, 0x5B, 0x33, 0x39, 0x6D]) == t.(color := Default)
  {
    hide Interpret, Sgr;
    SgrColors(t, 18);
    SgrColors(t, 0);
    WrittenOut();
  }

  /** E2 A1 80 is the braille character with its seventh dot alone. */
  lemma DotBytes(t: Term)
    requires ValidTerm(t) && t.parse == Ground && t.cursor < |t.cells|
    ensures Interpret(t, [0xE2, 0xA1, 0x80]) ==
            t.(cells := t.cells[t.cursor := Cell(0x2840, t.color)], cursor := t.cursor + 1)
  {
    hide Interpret, Glyph;
    GlyphDrawn(t, 0x40);
    WrittenOut();
  }

  lemma WrittenOut()
    ensures Cup(2, 3) == [0x1B, 0x5B, 0x32, 0x3B, 0x33, 0x48]
    ensures Sgr(18) == [0x1B, 0x5B, 0x33, 0x38, 0x3B, 0x35, 0x3B, 0x31, 0x37, 0x6D]
    ensures Sgr(0) == [0x1B, 0x5B, 0x33, 0x39, 0x6D] && Glyph(0x40) == [0xE2, 0xA1, 0x80]
  {
    hide Decimal;
    ShortNumbers();
  }

  lemma ShortNumbers()
    ensures Decimal(2) == [0x32] && Decimal(3) == [0x33] && Decimal(17) == [0x31, 0x37]
  {
    assert Decimal(1) == [0x31];
  }
}
