/** Frames of eight-dot cells and what they look like on a terminal.
  */
module VtStencil {
  import opened Common
  import opened VtTerminal

  const CELL_XDOTS := 2
  const CELL_YDOTS := 4

  /** One stencil buffer: dots and colour of every cell, and the text laid over them. */
  datatype Frame = Frame(buffer: seq<u8>, colors: seq<u8>, text: seq<u8>)

  predicate Printable(chr: u8) { 0x20 <= chr < 0x7F }

  ghost predicate ValidFrame(f: Frame, cells: nat) {
    && |f.buffer| == cells && |f.colors| == cells && |f.text| == cells
    && forall i | 0 <= i < cells :: f.text[i] == 0 || Printable(f.text[i])
  }

  /** vtrenderlib.c:502-516.  The stencil counts its bits down each column; braille adds the fourth row last. */
  function BrailleMask(stencil: u8): (mask: u8)
  {
    stencil % 8 + 64 * (stencil / 8 % 2) + 8 * (stencil / 16 % 8) + 128 * (stencil / 128)
  }

  /** The stencil's bit for a dot of the cell. */
  function StencilBit(x: nat, y: nat): (bit: nat)
    requires x < CELL_XDOTS && y < CELL_YDOTS
    ensures bit < 8
  {
    y + 4 * x
  }

  /** The bit of a braille character for a dot: dots 1 to 6 down the two columns, then dots 7 and 8 below. */
  function BrailleBit(x: nat, y: nat): (bit: nat)
    requires x < CELL_XDOTS && y < CELL_YDOTS
    ensures bit < 8
  {
    if y == 3 then 6 + x else y + 3 * x
  }

  /** A byte from its eight bits. */
  function Byte(b0: nat, b1: nat, b2: nat, b3: nat, b4: nat, b5: nat, b6: nat, b7: nat): (b: u8)
    requires b0 < 2 && b1 < 2 && b2 < 2 && b3 < 2 && b4 < 2 && b5 < 2 && b6 < 2 && b7 < 2
  {
    b0 + 2 * b1 + 4 * b2 + 8 * b3 + 16 * b4 + 32 * b5 + 64 * b6 + 128 * b7
  }

  lemma BitsOfByte(b0: nat, b1: nat, b2: nat, b3: nat, b4: nat, b5: nat, b6: nat, b7: nat)
    requires b0 < 2 && b1 < 2 && b2 < 2 && b3 < 2 && b4 < 2 && b5 < 2 && b6 < 2 && b7 < 2
    ensures var b := Byte(b0, b1, b2, b3, b4, b5, b6, b7);
            && Bit(b, 0) == b0 && Bit(b, 1) == b1 && Bit(b, 2) == b2 && Bit(b, 3) == b3
            && Bit(b, 4) == b4 && Bit(b, 5) == b5 && Bit(b, 6) == b6 && Bit(b, 7) == b7
  {
    var b := Byte(b0, b1, b2, b3, b4, b5, b6, b7);
    assert b / 2 == b1 + 2 * b2 + 4 * b3 + 8 * b4 + 16 * b5 + 32 * b6 + 64 * b7;
    assert b / 4 == b2 + 2 * b3 + 4 * b4 + 8 * b5 + 16 * b6 + 32 * b7;
    assert b / 8 == b3 + 2 * b4 + 4 * b5 + 8 * b6 + 16 * b7;
    assert b / 16 == b4 + 2 * b5 + 4 * b6 + 8 * b7;
    assert b / 32 == b5 + 2 * b6 + 4 * b7;
    assert b / 64 == b6 + 2 * b7;
    assert b / 128 == b7;
  }

  lemma BitsByDivision(b: u8)
    ensures Bit(b, 0) == b % 2 && Bit(b, 1) == b / 2 % 2 && Bit(b, 2) == b / 4 % 2 && Bit(b, 3) == b / 8 % 2
    ensures Bit(b, 4) == b / 16 % 2 && Bit(b, 5) == b / 32 % 2 && Bit(b, 6) == b / 64 % 2 && Bit(b, 7) == b / 128 % 2
  {
  }

  lemma Halving(b: nat)
    ensures b / 4 == b / 2 / 2 && b / 8 == b / 4 / 2 && b / 16 == b / 8 / 2
    ensures b / 32 == b / 16 / 2 && b / 64 == b / 32 / 2 && b / 128 == b / 64 / 2
  {
    assert b / 4 == b / 2 / 2;
    assert b / 8 == b / 4 / 2;
    assert b / 16 == b / 8 / 2;
    assert b / 32 == b / 16 / 2;
    assert b / 64 == b / 32 / 2;
    assert b / 128 == b / 64 / 2;
  }

  lemma HalfAndRest(q: nat)
    ensures q == 2 * (q / 2) + q % 2
  {
  }

  lemma ByteOfBits(b: u8)
    ensures b == Byte(Bit(b, 0), Bit(b, 1), Bit(b, 2), Bit(b, 3), Bit(b, 4), Bit(b, 5), Bit(b, 6), Bit(b, 7))
  {
    hide Bit, Byte;
    BitsByDivision(b);
    Halving(b);
    HalfAndRest(b);
    HalfAndRest(b / 2);
    HalfAndRest(b / 4);
    HalfAndRest(b / 8);
    HalfAndRest(b / 16);
    HalfAndRest(b / 32);
    HalfAndRest(b / 64);
    Collected(b, b / 2, b / 4, b / 8, b / 16, b / 32, b / 64, b / 128,
              b % 2, b / 2 % 2, b / 4 % 2, b / 8 % 2, b / 16 % 2, b / 32 % 2, b / 64 % 2);
  }

  lemma Collected(b: u8, q1: nat, q2: nat, q3: nat, q4: nat, q5: nat, q6: nat, q7: nat,
                  r0: nat, r1: nat, r2: nat, r3: nat, r4: nat, r5: nat, r6: nat)
    requires b == 2 * q1 + r0 && q1 == 2 * q2 + r1 && q2 == 2 * q3 + r2 && q3 == 2 * q4 + r3
    requires q4 == 2 * q5 + r4 && q5 == 2 * q6 + r5 && q6 == 2 * q7 + r6 && q7 < 2
    requires r0 < 2 && r1 < 2 && r2 < 2 && r3 < 2 && r4 < 2 && r5 < 2 && r6 < 2
    ensures b == Byte(r0, r1, r2, r3, r4, r5, r6, q7) && q7 % 2 == q7
  {
  }

  lemma MaskOfByte(b0: nat, b1: nat, b2: nat, b3: nat, b4: nat, b5: nat, b6: nat, b7: nat)
    requires b0 < 2 && b1 < 2 && b2 < 2 && b3 < 2 && b4 < 2 && b5 < 2 && b6 < 2 && b7 < 2
    ensures BrailleMask(Byte(b0, b1, b2, b3, b4, b5, b6, b7)) == Byte(b0, b1, b2, b4, b5, b6, b3, b7)
  {
    var b := Byte(b0, b1, b2, b3, b4, b5, b6, b7);
    assert b % 8 == b0 + 2 * b1 + 4 * b2;
    assert b / 8 == b3 + 2 * b4 + 4 * b5 + 8 * b6 + 16 * b7;
    assert b / 16 == b4 + 2 * b5 + 4 * b6 + 8 * b7;
    assert b / 128 == b7;
  }

  lemma MaskBits(s: u8)
    ensures var m := BrailleMask(s);
            && Bit(m, 0) == Bit(s, 0) && Bit(m, 1) == Bit(s, 1) && Bit(m, 2) == Bit(s, 2) && Bit(m, 6) == Bit(s, 3)
            && Bit(m, 3) == Bit(s, 4) && Bit(m, 4) == Bit(s, 5) && Bit(m, 5) == Bit(s, 6) && Bit(m, 7) == Bit(s, 7)
  {
    hide Bit, Byte, BrailleMask;
    ByteOfBits(s);
    MaskOfByte(Bit(s, 0), Bit(s, 1), Bit(s, 2), Bit(s, 3), Bit(s, 4), Bit(s, 5), Bit(s, 6), Bit(s, 7));
    BitsOfByte(Bit(s, 0), Bit(s, 1), Bit(s, 2), Bit(s, 4), Bit(s, 5), Bit(s, 6), Bit(s, 3), Bit(s, 7));
  }

  /** Every dot of the stencil appears in its place of the character, and no other does. */
  lemma MaskShowsDots(stencil: u8, x: nat, y: nat)
    requires x < CELL_XDOTS && y < CELL_YDOTS
    ensures Bit(BrailleMask(stencil), BrailleBit(x, y)) == Bit(stencil, StencilBit(x, y))
  {
    hide Bit, BrailleMask;
    MaskBits(stencil);
  }

  /** No two stencils look the same. */
  lemma MaskInjective(a: u8, b: u8)
    ensures BrailleMask(a) == BrailleMask(b) ==> a == b
  {
    hide Bit, Byte, BrailleMask;
    ByteOfBits(a);
    ByteOfBits(b);
    MaskBits(a);
    MaskBits(b);
  }

  /** What a cell looks like: the text over it, or its dots in its colour. */
  function ShownCell(f: Frame, i: nat): Cell
    requires i < |f.buffer| && i < |f.colors| && i < |f.text|
  {
    if f.text[i] != 0 then Cell(f.text[i], Default) else Cell(BRAILLE + BrailleMask(f.buffer[i]), ColorOf(f.colors[i]))
  }

  ghost predicate Shows(cells: seq<Cell>, f: Frame)
    requires |f.colors| == |f.buffer| && |f.text| == |f.buffer|
  {
    |cells| == |f.buffer| && forall i | 0 <= i < |cells| :: cells[i] == ShownCell(f, i)
  }

  function Zeros(n: nat): (s: seq<u8>)
    ensures |s| == n && forall i | 0 <= i < n :: s[i] == 0
  {
    seq(n, _ => 0)
  }

  function EmptyFrame(cells: nat): (f: Frame)
    ensures ValidFrame(f, cells)
  {
    Frame(Zeros(cells), Zeros(cells), Zeros(cells))
  }

  /** A cleared terminal shows the empty frame. */
  lemma ClearedShowsEmpty(cells: seq<Cell>, n: nat)
    requires |cells| == n && forall i | 0 <= i < n :: cells[i] == Cell(BRAILLE, Default)
    ensures Shows(cells, EmptyFrame(n))
  {
  }

  /** A byte with its bit k set. */
  function SetBit(b: u8, k: nat): (r: u8)
    requires k < 8
  {
    Byte(if k == 0 then 1 else Bit(b, 0), if k == 1 then 1 else Bit(b, 1), if k == 2 then 1 else Bit(b, 2),
         if k == 3 then 1 else Bit(b, 3), if k == 4 then 1 else Bit(b, 4), if k == 5 then 1 else Bit(b, 5),
         if k == 6 then 1 else Bit(b, 6), if k == 7 then 1 else Bit(b, 7))
  }

  /** Setting a bit sets that bit and no other. */
  lemma SetBitSets(b: u8, k: nat, i: nat)
    requires k < 8 && i < 8
    ensures Bit(SetBit(b, k), i) == if i == k then 1 else Bit(b, i)
  {
    hide Bit, Byte;
    BitsOfByte(if k == 0 then 1 else Bit(b, 0), if k == 1 then 1 else Bit(b, 1), if k == 2 then 1 else Bit(b, 2),
               if k == 3 then 1 else Bit(b, 3), if k == 4 then 1 else Bit(b, 4), if k == 5 then 1 else Bit(b, 5),
               if k == 6 then 1 else Bit(b, 6), if k == 7 then 1 else Bit(b, 7));
  }
}
