/** The differential renderer (video/vtrenderlib/vtrenderlib.c): only cells that changed are sent.
  */
module VtCanvas {
  import opened Common
  import opened VtTerminal
  import opened VtStencil

  /** Room that is always left for one more cell. */
  const SLACK := 64
  const CELL_SEQS_MAX := 14

  /** Beyond these the 16-bit dot dimensions wrap. */
  const MAX_ROWS := 0x3FFF
  const MAX_COLS := 0x7FFF

  class Stencil {
    const buffer: array<u8>
    const fgcolors: array<u8>
    const textoverlay: array<u8>

    ghost function View(): Frame
      reads buffer, fgcolors, textoverlay
    {
      Frame(buffer[..], fgcolors[..], textoverlay[..])
    }

    ghost predicate Wf(cells: nat) {
      && buffer.Length == cells && fgcolors.Length == cells && textoverlay.Length == cells
      && buffer != fgcolors && buffer != textoverlay && fgcolors != textoverlay
    }

    ghost function Arrays(): set<array<u8>> { {buffer, fgcolors, textoverlay} }

    /** vtrenderlib.c:163-192. */
    constructor (cells: nat)
      ensures Wf(cells) && View() == EmptyFrame(cells)
      ensures fresh(buffer) && fresh(fgcolors) && fresh(textoverlay)
    {
      buffer, fgcolors, textoverlay := new u8[cells](_ => 0), new u8[cells](_ => 0), new u8[cells](_ => 0);
    }

    /** vtrenderlib.c:536-538. */
    method Clear()
      requires Wf(buffer.Length)
      modifies buffer, fgcolors, textoverlay
      ensures View() == EmptyFrame(buffer.Length)
    {
      forall i | 0 <= i < buffer.Length { buffer[i] := 0; }
      forall i | 0 <= i < fgcolors.Length { fgcolors[i] := 0; }
      forall i | 0 <= i < textoverlay.Length { textoverlay[i] := 0; }
    }
  }

  class Canvas {
    const nrows: nat
    const ncols: nat
    const sb0: Stencil
    const sb1: Stencil
    var curSb: Stencil
    var seqlist: array<u8>
    /** The terminal at the other end, after every byte sent so far. */
    ghost var term: Term

    ghost function Cells(): nat { nrows * ncols }

    ghost predicate Wf()
      reads `curSb, `seqlist
    {
      && nrows <= MAX_ROWS && ncols <= MAX_COLS
      && sb0 != sb1 && sb0.Wf(Cells()) && sb1.Wf(Cells()) && sb0.Arrays() !! sb1.Arrays()
      && (curSb == sb0 || curSb == sb1)
      && seqlist !in sb0.Arrays() && seqlist !in sb1.Arrays() && seqlist.Length >= SLACK
    }

    ghost function Prev(): Stencil
      reads `curSb
    {
      if curSb == sb0 then sb1 else sb0
    }

    /** The terminal shows the buffer that was swapped out last. */
    ghost predicate Valid()
      reads this, sb0.Arrays(), sb1.Arrays()
    {
      && Wf() && VtStencil.ValidFrame(curSb.View(), Cells()) && VtStencil.ValidFrame(Prev().View(), Cells())
      && ValidTerm(term) && term.parse == Ground && term.rows == nrows && term.cols == ncols
      && Shows(term.cells, Prev().View())
    }

    /** vtrenderlib.c:205-246, on a terminal just cleared. */
    constructor (rows: nat, cols: nat, ghost cleared: Term)
      requires rows <= MAX_ROWS && cols <= MAX_COLS
      requires ValidTerm(cleared) && cleared.parse == Ground && cleared.rows == rows && cleared.cols == cols
      requires forall i | 0 <= i < |cleared.cells| :: cleared.cells[i] == Cell(BRAILLE, Default)
      ensures Valid() && curSb.View() == EmptyFrame(rows * cols) && term == cleared
      ensures nrows == rows && ncols == cols
    {
      nrows, ncols, term := rows, cols, cleared;
      sb0 := new Stencil(rows * cols);
      sb1 := new Stencil(rows * cols);
      var seqcap := ((rows + 1) * cols + 1) * CELL_SEQS_MAX;
      seqlist := new u8[if seqcap < SLACK then SLACK else seqcap];
      curSb := sb0;
      new;
      ClearedShowsEmpty(cleared.cells, rows * cols);
    }

    // ------------------------------------------------------------ emitting bytes

    /** memcpy to the sequence list. */
    method Emit(at: nat, bytes: seq<u8>)
      requires at + |bytes| <= seqlist.Length
      modifies seqlist
      ensures seqlist[..at + |bytes|] == old(seqlist[..at]) + bytes
    {
      for i := 0 to |bytes|
        invariant seqlist[..at + i] == old(seqlist[..at]) + bytes[..i]
      {
        seqlist[at + i] := bytes[i];
      }
    }

    /** vtrenderlib.c:386-401.  Doubles the sequence list, unless that takes more memory than there is. */
    method ExtendSeqBuf(memory: nat) returns (ok: bool)
      requires Wf()
      modifies `seqlist
      ensures Wf() && ok == (2 * old(seqlist.Length) <= memory)
      ensures !ok ==> seqlist == old(seqlist)
      ensures ok ==> fresh(seqlist) && seqlist.Length == 2 * old(seqlist.Length)
                     && seqlist[..old(seqlist.Length)] == old(seqlist[..])
    {
      var seqcap := 2 * seqlist.Length;
      if seqcap > memory {
        return false;
      }
      var was := seqlist;
      var grown := new u8[seqcap];
      forall i | 0 <= i < was.Length { grown[i] := was[i]; }
      seqlist := grown;
      assert seqlist[..was.Length] == was[..];
      return true;
    }

    /** vtrenderlib.c:403-409. */
    method SetPosS(at: nat, row: nat, col: nat) returns (n: nat)
      requires row <= 0xFFFF && col <= 0xFFFF && at + 14 < seqlist.Length
      modifies seqlist
      ensures n == |Cup(row, col)| <= 14 && seqlist[..at + n] == old(seqlist[..at]) + Cup(row, col)
    {
      CupLength(row, col);
      Emit(at, Cup(row, col));
      n := |Cup(row, col)|;
    }

    /** vtrenderlib.c:411-420. */
    method DrawCellS(at: nat, mask: u8) returns (n: nat)
      requires at + 3 <= seqlist.Length
      modifies seqlist
      ensures n == 3 && seqlist[..at + n] == old(seqlist[..at]) + Glyph(mask)
    {
      seqlist[at] := 0xE2;
      seqlist[at + 1] := 0xA0 + mask / 0x40;
      seqlist[at + 2] := 0x80 + mask % 0x40;
      n := 3;
    }

    /** vtrenderlib.c:422-437. */
    method U8ToDec(at: nat, v: u8) returns (n: nat)
      requires at + 3 <= seqlist.Length
      modifies seqlist
      ensures n == |Decimal(v)| <= 3 && seqlist[..at + n] == old(seqlist[..at]) + Decimal(v)
    {
      ByteDigits(v);
      if v >= 100 {
        seqlist[at] := Digit(v / 100);
        seqlist[at + 1] := Digit(v / 10 % 10);
        seqlist[at + 2] := Digit(v % 10);
        return 3;
      }
      if v >= 10 {
        seqlist[at] := Digit(v / 10);
        seqlist[at + 1] := Digit(v % 10);
        return 2;
      }
      seqlist[at] := Digit(v);
      return 1;
    }

    /** vtrenderlib.c:439-456. */
    method SetForegroundColorS(at: nat, fgc: u8) returns (n: nat)
      requires at + 11 <= seqlist.Length
      modifies seqlist
      ensures n == |Sgr(fgc)| <= 11 && seqlist[..at + n] == old(seqlist[..at]) + Sgr(fgc)
    {
      hide Decimal, Sgr, ColorPrefix;
      SgrParts(fgc);
      if fgc == 0 {
        Emit(at, Sgr(0));
        return 5;
      }
      Emit(at, ColorPrefix());
      var digits := U8ToDec(at + 7, fgc - 1);
      seqlist[at + 7 + digits] := 'm' as int;
      n := 7 + digits + 1;
      assert seqlist[..at + n] == seqlist[..at + 7 + digits] + ['m' as int];
    }

    /** vtrenderlib.c:458-463. */
    method PutCharS(at: nat, chr: u8) returns (n: nat)
      requires at < seqlist.Length
      modifies seqlist
      ensures n == 1 && seqlist[..at + n] == old(seqlist[..at]) + [chr]
    {
      seqlist[at] := chr;
      n := 1;
    }

    // ---------------------------------------------------------------- one frame

    /** vtrenderlib.c:515-524: a cell of dots, in its colour. */
    method DrawBraille(at: nat, stencil: u8, fgc: u8, curFgc: u8, ghost t: Term) returns (n: nat, fgc': u8)
      requires at + 14 <= seqlist.Length
      requires ValidTerm(t) && Interpret(t, seqlist[..at]).parse == Ground
      requires Interpret(t, seqlist[..at]).color == ColorOf(curFgc)
      modifies seqlist
      ensures at <= n <= at + 14 && fgc' == fgc
      ensures Interpret(t, seqlist[..n]) ==
              Put(old(Interpret(t, seqlist[..at])).(color := ColorOf(fgc)), BRAILLE + BrailleMask(stencil))
    {
      hide Interpret, Sgr, Glyph, ValidTerm, BrailleMask, Put;
      n, fgc' := at, curFgc;
      ghost var u := Interpret(t, seqlist[..at]);
      if fgc != curFgc {
        var k := SetForegroundColorS(at, fgc);
        SgrColors(u, fgc);
        InterpretAppends(t, old(seqlist[..at]), Sgr(fgc));
        n, fgc' := at + k, fgc;
      }
      ghost var sent := seqlist[..n];
      assert Interpret(t, sent) == u.(color := ColorOf(fgc));
      var k := DrawCellS(n, BrailleMask(stencil));
      GlyphDrawn(Interpret(t, sent), BrailleMask(stencil));
      InterpretAppends(t, sent, Glyph(BrailleMask(stencil)));
      n := n + k;
    }

    /** vtrenderlib.c:525-532: a character of text, in the default colour. */
    method DrawText(at: nat, chr: u8, curFgc: u8, ghost t: Term) returns (n: nat, fgc': u8)
      requires at + 12 <= seqlist.Length && Printable(chr)
      requires ValidTerm(t) && Interpret(t, seqlist[..at]).parse == Ground
      requires Interpret(t, seqlist[..at]).color == ColorOf(curFgc)
      modifies seqlist
      ensures at <= n <= at + 12 && fgc' == 0
      ensures Interpret(t, seqlist[..n]) == Put(old(Interpret(t, seqlist[..at])).(color := Default), chr)
    {
      hide Interpret, Sgr, ValidTerm, Put;
      n, fgc' := at, curFgc;
      ghost var u := Interpret(t, seqlist[..at]);
      if curFgc != 0 {
        var k := SetForegroundColorS(at, 0);
        SgrColors(u, 0);
        InterpretAppends(t, old(seqlist[..at]), Sgr(0));
        n, fgc' := at + k, 0;
      }
      ghost var sent := seqlist[..n];
      assert Interpret(t, sent) == u.(color := Default);
      var k := PutCharS(n, chr);
      CharDrawn(Interpret(t, sent), chr);
      InterpretAppends(t, sent, [chr]);
      n := n + k;
    }

    /** vtrenderlib.c:495-498: the cursor is moved only after cells that were left alone. */
    method MoveTo(at: nat, row: nat, col: nat, skipped: bool, ghost t: Term) returns (n: nat)
      requires row <= 0xFFFF && col <= 0xFFFF && at + 14 < seqlist.Length
      requires ValidTerm(t) && Interpret(t, seqlist[..at]).parse == Ground
      requires 1 <= row <= t.rows && 1 <= col <= t.cols
      modifies seqlist
      ensures at <= n <= at + 14
      ensures var u := old(Interpret(t, seqlist[..at]));
              Interpret(t, seqlist[..n]) == if skipped then u.(cursor := (row - 1) * t.cols + col - 1) else u
    {
      hide Cup;
      n := at;
      if skipped {
        InterpretKeepsSize(t, seqlist[..at]);
        var k := SetPosS(at, row, col);
        CupMoves(Interpret(t, old(seqlist[..at])), row, col);
        InterpretAppends(t, old(seqlist[..at]), Cup(row, col));
        n := at + k;
      }
    }

    /** vtrenderlib.c:495-532: a cell that looks different, with room enough for its bytes. */
    method DrawChanged(row: nat, col: nat, idx: nat, at: nat, curFgc: u8, skipped: bool) returns (n: nat, fgc': u8)
      requires Valid() && 1 <= row <= nrows && 1 <= col <= ncols && idx == (row - 1) * ncols + col - 1 < Cells()
      requires at + 28 < seqlist.Length
      requires Sent(Interpret(term, seqlist[..at]), curSb.View(), Prev().View(), idx, curFgc, skipped)
      modifies seqlist
      ensures Valid() && n <= seqlist.Length
      ensures Sent(Interpret(term, seqlist[..n]), curSb.View(), Prev().View(), idx + 1, fgc', false)
    {
      hide Interpret, ValidTerm, ShownCell, Shows, Put, BrailleMask;
      ghost var cur, prev, u := curSb.View(), Prev().View(), Interpret(term, seqlist[..at]);
      InterpretKeepsSize(term, seqlist[..at]);
      ShownEither(cur, idx);
      n := MoveTo(at, row, col, skipped, term);
      ghost var v := Interpret(term, seqlist[..n]);
      if curSb.textoverlay[idx] == 0 {
        n, fgc' := DrawBraille(n, curSb.buffer[idx], curSb.fgcolors[idx], curFgc, term);
        CellDrawn(u, v, cur, prev, idx, curFgc, skipped, BRAILLE + BrailleMask(cur.buffer[idx]), cur.colors[idx]);
      } else {
        n, fgc' := DrawText(n, curSb.textoverlay[idx], curFgc, term);
        CellDrawn(u, v, cur, prev, idx, curFgc, skipped, cur.text[idx], 0);
      }
    }

    /** vtrenderlib.c:478-486.  A cell is left alone exactly when it looks the same as before. */
    method LooksSame(idx: nat) returns (same: bool)
      requires Wf() && VtStencil.ValidFrame(curSb.View(), Cells()) && VtStencil.ValidFrame(Prev().View(), Cells())
      requires idx < Cells()
      ensures same == (ShownCell(curSb.View(), idx) == ShownCell(Prev().View(), idx))
    {
      hide ShownCell;
      LookEqual(curSb.View(), Prev().View(), idx);
      var prevSb := if curSb == sb0 then sb1 else sb0;
      var isOverlaid := curSb.textoverlay[idx] != 0;
      var isTextDiff := curSb.textoverlay[idx] != prevSb.textoverlay[idx];
      var isCellDiff := curSb.buffer[idx] != prevSb.buffer[idx] || curSb.fgcolors[idx] != prevSb.fgcolors[idx];
      same := !isTextDiff && (isOverlaid || !isCellDiff);
    }

    /** vtrenderlib.c:478-533: one cell. */
    method DrawCell(row: nat, col: nat, idx: nat, at: nat, curFgc: u8, skipped: bool, memory: nat)
      returns (ok: bool, n: nat, fgc': u8, skipped': bool)
      requires Valid() && 1 <= row <= nrows && 1 <= col <= ncols && idx == (row - 1) * ncols + col - 1 < Cells()
      requires at <= seqlist.Length
      requires Sent(Interpret(term, seqlist[..at]), curSb.View(), Prev().View(), idx, curFgc, skipped)
      modifies `seqlist, seqlist
      ensures Valid() && (seqlist == old(seqlist) || fresh(seqlist))
      ensures !ok ==> memory < 2 * old(seqlist.Length)
      ensures ShownCell(curSb.View(), idx) == ShownCell(Prev().View(), idx) ==>
                ok && n == at && seqlist == old(seqlist) && seqlist[..] == old(seqlist[..])
      ensures ok ==> n <= seqlist.Length
                     && Sent(Interpret(term, seqlist[..n]), curSb.View(), Prev().View(), idx + 1, fgc', skipped')
    {
      hide Interpret, ValidTerm, ShownCell, Shows, Sent;
      ok, n, fgc', skipped' := true, at, curFgc, skipped;
      var same := LooksSame(idx);
      if same {
        skipped' := true;
        CellLeft(Interpret(term, seqlist[..at]), curSb.View(), Prev().View(), idx, curFgc, skipped);
        return;
      }
      if seqlist.Length - at <= SLACK {
        ghost var before := seqlist[..];
        ok := ExtendSeqBuf(memory);
        if !ok {
          return;
        }
        assert seqlist[..at] == before[..at];
      }
      n, fgc' := DrawChanged(row, col, idx, at, curFgc, skipped);
      skipped' := false;
    }

    /** vtrenderlib.c:476-534: all cells, row by row. */
    method DrawCells(at: nat, memory: nat) returns (ok: bool, seqlen: nat)
      requires Valid() && at <= seqlist.Length
      requires Sent(Interpret(term, seqlist[..at]), curSb.View(), Prev().View(), 0, 0, true)
      modifies `seqlist, seqlist
      ensures Valid() && (seqlist == old(seqlist) || fresh(seqlist))
      ensures LooksAlike(curSb.View(), Prev().View()) ==>
                ok && seqlen == at && seqlist == old(seqlist) && seqlist[..] == old(seqlist[..])
      ensures ok ==> seqlen <= seqlist.Length && exists fgc: u8, skipped: bool ::
                Sent(Interpret(term, seqlist[..seqlen]), curSb.View(), Prev().View(), Cells(), fgc, skipped)
    {
      hide Interpret, ValidTerm, ShownCell, Shows, Sent;
      var cellIdx, cellSkipped := 0, true;
      var curFgc: u8 := 0;
      seqlen := at;
      var row := 1;
      while row <= nrows
        invariant 1 <= row <= nrows + 1 && cellIdx == (row - 1) * ncols
        invariant Valid() && (seqlist == old(seqlist) || fresh(seqlist)) && seqlen <= seqlist.Length
        invariant Sent(Interpret(term, seqlist[..seqlen]), curSb.View(), Prev().View(), cellIdx, curFgc, cellSkipped)
        invariant LooksAlike(curSb.View(), Prev().View()) ==>
                    seqlen == at && seqlist == old(seqlist) && seqlist[..] == old(seqlist[..])
      {
        var col := 1;
        while col <= ncols
          invariant 1 <= col <= ncols + 1 && cellIdx == (row - 1) * ncols + col - 1
          invariant Valid() && (seqlist == old(seqlist) || fresh(seqlist)) && seqlen <= seqlist.Length
          invariant Sent(Interpret(term, seqlist[..seqlen]), curSb.View(), Prev().View(), cellIdx, curFgc, cellSkipped)
          invariant LooksAlike(curSb.View(), Prev().View()) ==>
                      seqlen == at && seqlist == old(seqlist) && seqlist[..] == old(seqlist[..])
        {
          CellInside(nrows, ncols, row, col);
          ok, seqlen, curFgc, cellSkipped := DrawCell(row, col, cellIdx, seqlen, curFgc, cellSkipped, memory);
          if !ok {
            return;
          }
          col, cellIdx := col + 1, cellIdx + 1;
        }
        row := row + 1;
      }
      ok := true;
    }

    /** vtrenderlib.c:465-542.  Afterwards the terminal shows exactly the frame that was current, and an
      * empty frame is; when memory runs out nothing has happened.
      */
    method SwapBuffers(memory: nat) returns (ok: bool, ghost sent: seq<u8>)
      requires Valid()
      modifies this, seqlist, curSb.buffer, curSb.fgcolors, curSb.textoverlay,
               Prev().buffer, Prev().fgcolors, Prev().textoverlay
      ensures Valid() && (seqlist == old(seqlist) || fresh(seqlist))
      ensures term == Interpret(old(term), sent)
      ensures old(LooksAlike(curSb.View(), Prev().View())) ==> ok && sent == Sgr(0)
      ensures ok ==>
                && Shows(term.cells, old(curSb.View())) && Prev() == old(curSb) && Prev().View() == old(curSb.View())
                && curSb == old(Prev()) && curSb.View() == EmptyFrame(Cells())
      ensures !ok ==>
                && sent == [] && curSb == old(curSb)
                && curSb.View() == old(curSb.View()) && Prev().View() == old(Prev().View())
    {
      hide Interpret, ValidTerm, ShownCell, Sgr;
      var prevSb := if curSb == sb0 then sb1 else sb0;
      sent := [];
      NothingSent(term);
      var seqlen := SetForegroundColorS(0, 0);
      SgrColors(term, 0);
      assert seqlist[..seqlen] == Sgr(0);
      ok, seqlen := DrawCells(seqlen, memory);
      if !ok {
        return;
      }
      sent := seqlist[..seqlen];
      ghost var shown := Interpret(term, seqlist[..seqlen]);
      InterpretKeepsSize(term, seqlist[..seqlen]);
      prevSb.Clear();
      term := shown;
      curSb := prevSb;
    }

    // -------------------------------------------------------------------- drawing

    /** vtrenderlib.c:544-555, 563-578.  A dot outside the canvas is ignored. */
    method RenderDot(x: int, y: int, fgc: u8)
      requires Valid()
      modifies curSb.buffer, curSb.fgcolors
      ensures Valid()
      ensures 0 <= x < 2 * ncols && 0 <= y < 4 * nrows ==>
                && y / 4 * ncols + x / 2 < Cells()
                && curSb.View() == DotRendered(old(curSb.View()), y / 4 * ncols + x / 2, x % 2, y % 4, fgc)
      ensures !(0 <= x < 2 * ncols && 0 <= y < 4 * nrows) ==> curSb.View() == old(curSb.View())
    {
      hide Interpret, ValidTerm, ShownCell, SetBit;
      if 0 <= x < CELL_XDOTS * ncols && 0 <= y < CELL_YDOTS * nrows {
        var at := CellOf(nrows, ncols, x, y);
        curSb.buffer[at] := SetBit(curSb.buffer[at], y % CELL_YDOTS + 4 * (x % CELL_XDOTS));
        curSb.fgcolors[at] := fgc;
      }
    }

    /** vtrenderlib.c:557-561. */
    method PrintChar(at: nat, chr: u8)
      requires Valid() && at < Cells() && Printable(chr)
      modifies curSb.textoverlay
      ensures Valid() && curSb.View() == old(curSb.View().(text := curSb.View().text[at := chr]))
    {
      hide Interpret, ValidTerm, ShownCell, Shows;
      curSb.textoverlay[at] := chr;
    }

    /** vtrenderlib.c:809-825.  Text is cut at the right edge; outside the canvas it is refused. */
    method PrintText(row: nat, col: nat, str: seq<u8>) returns (ok: bool)
      requires Valid() && forall i | 0 <= i < |str| :: Printable(str[i])
      modifies curSb.textoverlay
      ensures Valid() && ok == (row < nrows && col < ncols)
      ensures curSb.View() == old(curSb.View()).(text := curSb.View().text)
      ensures forall i | 0 <= i < Cells() :: curSb.View().text[i] ==
                if ok && row * ncols + col <= i < row * ncols + Min(col + |str|, ncols)
                then str[i - (row * ncols + col)] else old(curSb.View().text[i])
    {
      hide Interpret, ValidTerm, ShownCell, Shows, TextPrinted, VtStencil.ValidFrame;
      OverlaySize(curSb.View(), Cells());
      if row >= nrows || col >= ncols {
        return false;
      }
      var at := TextStart(nrows, ncols, row, col);
      var i := 0;
      NothingPrinted(curSb.View(), at, str);
      while col + i < ncols && i < |str|
        invariant 0 <= i <= Min(|str|, ncols - col)
        invariant Valid() && curSb.View() == TextPrinted(old(curSb.View()), at, str[..i])
      {
        OneCharMore(old(curSb.View()), at, str, i);
        PrintChar(at + i, str[i]);
        i := i + 1;
      }
      PrintedAt(old(curSb.View()), at, str[..i]);
      return true;
    }
  }

  /** The cells before idx are up to date, the others still the previous frame's; colour and cursor are known. */
  ghost predicate Sent(t: Term, cur: Frame, prev: Frame, idx: nat, fgc: u8, skipped: bool)
    requires |cur.colors| == |cur.buffer| && |cur.text| == |cur.buffer|
    requires |prev.colors| == |prev.buffer| && |prev.text| == |prev.buffer|
  {
    && ValidTerm(t) && t.parse == Ground && t.color == ColorOf(fgc) && idx <= |t.cells|
    && |t.cells| == |cur.buffer| == |prev.buffer|
    && (!skipped ==> t.cursor == idx)
    && (forall k | 0 <= k < idx :: t.cells[k] == ShownCell(cur, k))
    && (forall k | idx <= k < |t.cells| :: t.cells[k] == ShownCell(prev, k))
  }

  /** Nothing is to be seen of the new frame. */
  ghost predicate LooksAlike(cur: Frame, prev: Frame)
    requires |cur.buffer| == |cur.colors| == |cur.text| == |prev.buffer| == |prev.colors| == |prev.text|
  {
    forall i | 0 <= i < |cur.buffer| :: ShownCell(cur, i) == ShownCell(prev, i)
  }

  /** The three comparisons of the source amount to comparing what is seen. */
  lemma LookEqual(cur: Frame, prev: Frame, i: nat)
    requires ValidFrame(cur, |cur.buffer|) && ValidFrame(prev, |prev.buffer|) && i < |cur.buffer| == |prev.buffer|
    ensures ShownCell(cur, i) == ShownCell(prev, i) <==>
              && cur.text[i] == prev.text[i]
              && (cur.text[i] != 0 || (cur.buffer[i] == prev.buffer[i] && cur.colors[i] == prev.colors[i]))
  {
    hide BrailleMask;
    MaskInjective(cur.buffer[i], prev.buffer[i]);
  }

  lemma NothingSent(t: Term)
    requires ValidTerm(t)
    ensures Interpret(t, []) == t
  {
  }

  /** A cell that looks the same may be left alone. */
  lemma CellLeft(t: Term, cur: Frame, prev: Frame, idx: nat, fgc: u8, skipped: bool)
    requires ValidFrame(cur, |cur.buffer|) && ValidFrame(prev, |prev.buffer|)
    requires idx < |cur.buffer| == |prev.buffer| && Sent(t, cur, prev, idx, fgc, skipped)
    requires ShownCell(cur, idx) == ShownCell(prev, idx)
    ensures Sent(t, cur, prev, idx + 1, fgc, true)
  {
    hide ShownCell, ValidTerm;
  }

  /** A cell that was drawn under the cursor. */
  lemma CellDrawn(u: Term, v: Term, cur: Frame, prev: Frame, idx: nat, fgc: u8, skipped: bool, code: nat, fgc': u8)
    requires ValidFrame(cur, |cur.buffer|) && ValidFrame(prev, |prev.buffer|)
    requires Sent(u, cur, prev, idx, fgc, skipped) && idx < |u.cells|
    requires v == if skipped then u.(cursor := idx) else u
    requires ShownCell(cur, idx) == Cell(code, ColorOf(fgc'))
    ensures Sent(Put(v.(color := ColorOf(fgc')), code), cur, prev, idx + 1, fgc', false)
  {
    hide ShownCell;
  }

  /** The cell a dot lies in. */
  function CellOf(rows: nat, cols: nat, x: nat, y: nat): (i: nat)
    requires x < CELL_XDOTS * cols && y < CELL_YDOTS * rows
    ensures i < rows * cols
  {
    DotInside(rows, cols, x, y);
    y / CELL_YDOTS * cols + x / CELL_XDOTS
  }

  /** One dot more in cell i, which takes the dot's colour. */
  function DotRendered(f: Frame, i: nat, x: nat, y: nat, fgc: u8): (g: Frame)
    requires i < |f.buffer| == |f.colors| && x < CELL_XDOTS && y < CELL_YDOTS
  {
    f.(buffer := f.buffer[i := SetBit(f.buffer[i], StencilBit(x, y))], colors := f.colors[i := fgc])
  }

  /** Where a row's text starts, with room for the rest of the row. */
  function TextStart(rows: nat, cols: nat, row: nat, col: nat): (at: nat)
    requires row < rows && col < cols
    ensures at + (cols - col) <= rows * cols
  {
    RowInside(rows, cols, row);
    row * cols + col
  }

  function TextPrinted(f: Frame, at: nat, str: seq<u8>): (g: Frame)
    requires at + |str| <= |f.text|
  {
    f.(text := f.text[..at] + str + f.text[at + |str|..])
  }

  lemma OverlaySize(f: Frame, cells: nat)
    requires ValidFrame(f, cells)
    ensures |f.text| == cells
  {
  }

  lemma PrintedAt(f: Frame, at: nat, str: seq<u8>)
    requires at + |str| <= |f.text|
    ensures |TextPrinted(f, at, str).text| == |f.text|
    ensures forall i | 0 <= i < |f.text| ::
              TextPrinted(f, at, str).text[i] == if at <= i < at + |str| then str[i - at] else f.text[i]
  {
  }

  lemma NothingPrinted(f: Frame, at: nat, str: seq<u8>)
    requires at <= |f.text|
    ensures TextPrinted(f, at, str[..0]) == f
  {
    assert f.text[..at] + str[..0] + f.text[at..] == f.text;
  }

  lemma OneCharMore(f: Frame, at: nat, str: seq<u8>, i: nat)
    requires i < |str| && at + i < |f.text|
    ensures |TextPrinted(f, at, str[..i]).text| == |f.text|
    ensures var g := TextPrinted(f, at, str[..i]);
            TextPrinted(f, at, str[..i + 1]) == g.(text := g.text[at + i := str[i]])
  {
    var g := TextPrinted(f, at, str[..i]).text;
    assert TextPrinted(f, at, str[..i + 1]).text == g[at + i := str[i]];
  }

  /** A dot that was rendered is lit in the character that will be sent, whatever else the cell holds. */
  lemma DotAppears(f: Frame, i: nat, x: nat, y: nat, fgc: u8, dx: nat, dy: nat)
    requires i < |f.buffer| == |f.colors| == |f.text| && x < CELL_XDOTS && y < CELL_YDOTS
    requires dx < CELL_XDOTS && dy < CELL_YDOTS && f.text[i] == 0
    ensures var g := DotRendered(f, i, x, y, fgc);
            && ShownCell(g, i) == Cell(BRAILLE + BrailleMask(g.buffer[i]), ColorOf(fgc))
            && Bit(BrailleMask(g.buffer[i]), BrailleBit(dx, dy)) ==
               if dx == x && dy == y then 1 else Bit(BrailleMask(f.buffer[i]), BrailleBit(dx, dy))
  {
    hide SetBit, BrailleMask, Bit;
    var g := DotRendered(f, i, x, y, fgc);
    MaskShowsDots(g.buffer[i], dx, dy);
    MaskShowsDots(f.buffer[i], dx, dy);
    SetBitSets(f.buffer[i], StencilBit(x, y), StencilBit(dx, dy));
  }

  lemma DotInside(rows: nat, cols: nat, x: nat, y: nat)
    requires x < CELL_XDOTS * cols && y < CELL_YDOTS * rows
    ensures y / CELL_YDOTS * cols + x / CELL_XDOTS < rows * cols
  {
    CellInside(rows, cols, y / CELL_YDOTS + 1, x / CELL_XDOTS + 1);
  }

  lemma RowInside(rows: nat, cols: nat, row: nat)
    requires row < rows
    ensures row * cols + cols <= rows * cols
  {
    assert (row + 1) * cols <= rows * cols;
  }

  lemma ShownEither(f: Frame, i: nat)
    requires ValidFrame(f, |f.buffer|) && i < |f.buffer|
    ensures f.text[i] == 0 ==> ShownCell(f, i) == Cell(BRAILLE + BrailleMask(f.buffer[i]), ColorOf(f.colors[i]))
    ensures f.text[i] != 0 ==> ShownCell(f, i) == Cell(f.text[i], ColorOf(0)) && Printable(f.text[i])
  {
  }

  lemma CellInside(rows: nat, cols: nat, row: nat, col: nat)
    requires 1 <= row <= rows && 1 <= col <= cols
    ensures 0 <= (row - 1) * cols + col - 1 < rows * cols
  {
    assert (row - 1) * cols <= (rows - 1) * cols;
    assert rows * cols == (rows - 1) * cols + cols;
  }

  lemma {:induction false} InterpretKeepsSize(t: Term, bytes: seq<u8>)
    requires ValidTerm(t)
    ensures var u := Interpret(t, bytes); u.rows == t.rows && u.cols == t.cols && |u.cells| == |t.cells|
    decreases |bytes|
  {
    if bytes != [] {
      InterpretKeepsSize(t, bytes[..|bytes| - 1]);
    }
  }

  lemma {:induction false} DecimalLength(n: nat, digits: nat)
    requires digits >= 1 && n < Power10(digits)
    ensures |Decimal(n)| <= digits
    decreases digits
  {
    if n >= 10 {
      assert digits > 1 by { assert Power10(1) == 10; }
      DecimalLength(n / 10, digits - 1);
    }
  }

  function Power10(k: nat): nat { if k == 0 then 1 else 10 * Power10(k - 1) }

  lemma CupLength(row: nat, col: nat)
    requires row <= 0xFFFF && col <= 0xFFFF
    ensures |Cup(row, col)| <= 14
  {
    assert Power10(5) == 100000 by { assert Power10(2) == 100 && Power10(4) == 10000; }
    DecimalLength(row, 5);
    DecimalLength(col, 5);
  }

  lemma ByteDigits(v: u8)
    ensures v < 10 ==> Decimal(v) == [Digit(v)]
    ensures 10 <= v < 100 ==> Decimal(v) == [Digit(v / 10), Digit(v % 10)]
    ensures 100 <= v ==> Decimal(v) == [Digit(v / 100), Digit(v / 10 % 10), Digit(v % 10)]
  {
    if v >= 100 {
      assert Decimal(v / 100) == [Digit(v / 100)];
      assert v / 10 / 10 == v / 100;
    } else if v >= 10 {
      assert Decimal(v / 10) == [Digit(v / 10)];
    }
  }
}
