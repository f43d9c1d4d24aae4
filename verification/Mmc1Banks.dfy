/** What a program gets from an MMC1 cartridge: after it has loaded the registers bit by bit, which byte of the
  * memories it reads at an address.
  */
module Mmc1Banks {
  import opened Common
  import opened CpuReference
  import opened Mmc1

  /** A value as a program sends it: five writes to one address, the lowest bit first. */
  function Serial(addr: nat, v: nat): (five: seq<BankWrite>)
    requires v < 32
    ensures |five| == 5
  {
    [BankWrite(addr, v % 2), BankWrite(addr, v / 2 % 2), BankWrite(addr, v / 4 % 2), BankWrite(addr, v / 8 % 2),
     BankWrite(addr, v / 16)]
  }

  /** The memories of a cartridge. */
  datatype Board = Board(rom: seq<u8>, chr: seq<u8>, blocks: seq<seq<u8>>, prgBits: nat, chrBits: nat, vertical: bool)

  ghost predicate ValidBoard(b: Board) {
    && b.prgBits >= 15 && b.chrBits >= 13 && |b.rom| == Pow2(b.prgBits) && |b.chr| == Pow2(b.chrBits)
    && |b.blocks| == 2 && |b.blocks[0]| == KB && |b.blocks[1]| == KB
  }

  /** What the cartridge shows after the writes. */
  ghost function Showing(b: Board, writes: seq<BankWrite>): (w: Windows)
    requires ValidBoard(b)
    ensures ValidWindows(w)
  {
    hide Pow2;
    CartOf(b.rom, b.chr, b.blocks, b.prgBits, b.chrBits, b.vertical)(writes)
  }

  // -------------------------------------------------------------- bytes of a window

  lemma OffsetInside(base: nat, off: nat, size: nat)
    requires size > 0 && base % size + off < size
    ensures (base + off) % size == base % size + off
  {
    assert base == base / size * size + base % size;
    DivModUnique(base + off, size, base / size, base % size + off);
  }

  /** A byte of a masked bank is the byte as far beyond the bank's place, around the end of the memory. */
  lemma BankByte(bank: nat, unit: nat, size: nat, off: nat)
    requires unit <= size && off < Pow2(unit)
    ensures And(bank * Pow2(unit), Pow2(size) - 1) + off == (bank * Pow2(unit) + off) % Pow2(size) < Pow2(size)
  {
    hide Pow2, And;
    BankInside(bank, unit, size);
    MaskIsRemainder(bank * Pow2(unit), size);
    OffsetInside(bank * Pow2(unit), off, Pow2(size));
  }

  lemma WindowAt(r: Regs, k: nat, addr: nat)
    requires k >= 15 && 0x8000 <= addr < 0x10000
    ensures var at := PrgMap(r, k)[addr / 0x2000 % 4] + addr % 0x2000;
            at == if r.prgMode < 2 then And((r.prg / 2 % 8) * Pow2(15), Pow2(k) - 1) + (addr - 0x8000)
                  else if (r.prgMode == 2) == (addr >= 0xC000) then
                    And((r.prg % 16) * Pow2(14), Pow2(k) - 1) + (addr - 0x8000) % 0x4000
                  else if addr < 0xC000 then addr - 0x8000
                  else Pow2(k) - 0x10000 + addr
  {
    hide Pow2, And;
    var window := addr / 0x2000 % 4;
    assert window == addr / 0x2000 - 4 && addr == 0x8000 + 0x2000 * window + addr % 0x2000;
  }

  lemma ShownAt(b: Board, r: Regs, addr: nat)
    requires ValidBoard(b) && ValidRegs(r) && 0x8000 <= addr < 0x10000
    ensures var at := PrgMap(r, b.prgBits)[addr / 0x2000 % 4] + addr % 0x2000;
            && at < |b.rom| && |b.rom| >= 0x8000
            && Shown(b.rom, b.chr, b.blocks, b.prgBits, b.chrBits, r).prg[addr - 0x8000] == b.rom[at]
  {
    hide Pow2, And, Shown, PrgMap;
    PowersOfTwo();
    PowersGrow(15, b.prgBits);
    ResolveReadsWindow(b.rom, b.chr, b.blocks, b.prgBits, b.chrBits, r, addr);
  }

  /** A switched bank of 32 KB. */
  lemma WideBank(b: Board, r: Regs, addr: nat)
    requires ValidBoard(b) && ValidRegs(r) && 0x8000 <= addr < 0x10000 && r.prgMode < 2
    ensures |b.rom| > 0
    ensures Shown(b.rom, b.chr, b.blocks, b.prgBits, b.chrBits, r).prg[addr - 0x8000] ==
            b.rom[(r.prg / 2 % 8 * 0x8000 + (addr - 0x8000)) % |b.rom|]
  {
    hide Pow2, And, Shown, PrgMap;
    PowersOfTwo();
    ShownAt(b, r, addr);
    WindowAt(r, b.prgBits, addr);
    BankByte(r.prg / 2 % 8, 15, b.prgBits, addr - 0x8000);
  }

  /** A switched bank of 16 KB, in the upper half of the addresses in mode 2 and in the lower half in mode 3. */
  lemma SwitchedBank(b: Board, r: Regs, addr: nat)
    requires ValidBoard(b) && ValidRegs(r) && 0x8000 <= addr < 0x10000
    requires r.prgMode >= 2 && (r.prgMode == 2) == (addr >= 0xC000)
    ensures |b.rom| > 0
    ensures Shown(b.rom, b.chr, b.blocks, b.prgBits, b.chrBits, r).prg[addr - 0x8000] ==
            b.rom[(r.prg % 16 * 0x4000 + addr % 0x4000) % |b.rom|]
  {
    hide Pow2, And, Shown, PrgMap;
    PowersOfTwo();
    ShownAt(b, r, addr);
    WindowAt(r, b.prgBits, addr);
    BankByte(r.prg % 16, 14, b.prgBits, addr % 0x4000);
  }

  /** The bank that stays: the first one below $C000 in mode 2, the last one from $C000 in mode 3. */
  lemma FixedBank(b: Board, r: Regs, addr: nat)
    requires ValidBoard(b) && ValidRegs(r) && 0x8000 <= addr < 0x10000
    requires r.prgMode >= 2 && (r.prgMode == 2) == (addr < 0xC000)
    ensures |b.rom| >= 0x8000
    ensures Shown(b.rom, b.chr, b.blocks, b.prgBits, b.chrBits, r).prg[addr - 0x8000] ==
            b.rom[if addr < 0xC000 then addr - 0x8000 else |b.rom| - 0x10000 + addr]
  {
    hide Pow2, And, Shown, PrgMap;
    ShownAt(b, r, addr);
    WindowAt(r, b.prgBits, addr);
  }

  // ------------------------------------------------------------- what a program loads

  lemma ResetEmpties(vertical: bool, writes: seq<BankWrite>, reset: BankWrite)
    requires reset.val >= 0x80
    ensures After(vertical, writes + [reset]) == Loading([], After(vertical, writes).regs.(prgMode := 3))
  {
    hide After, Commit;
    OneWriteMore(vertical, writes, reset);
  }

  lemma SerialCommits(vertical: bool, writes: seq<BankWrite>, addr: nat, v: nat)
    requires After(vertical, writes).bits == [] && v < 32
    ensures After(vertical, writes + Serial(addr, v)) ==
            Loading([], Commit(After(vertical, writes).regs, addr, v))
  {
    hide After, Commit, Serial;
    SerialBits(addr, v);
    FiveWritesCommit(vertical, writes, Serial(addr, v));
  }

  lemma SerialBits(addr: nat, v: nat)
    requires v < 32
    ensures var five := Serial(addr, v);
            && (forall i | 0 <= i < 5 :: five[i].val < 2) && five[4].addr == addr
            && v == five[0].val % 2 + 2 * (five[1].val % 2) + 4 * (five[2].val % 2) + 8 * (five[3].val % 2)
                    + 16 * (five[4].val % 2)
  {
    FiveBits(v);
    SmallBit(v % 2);
    SmallBit(v / 2 % 2);
    SmallBit(v / 4 % 2);
    SmallBit(v / 8 % 2);
    SmallBit(v / 16);
  }

  lemma SmallBit(b: nat)
    requires b < 2
    ensures b % 2 == b
  {
  }

  lemma FiveBits(v: nat)
    requires v < 32
    ensures v == v % 2 + 2 * (v / 2 % 2) + 4 * (v / 4 % 2) + 8 * (v / 8 % 2) + 16 * (v / 16) && v / 16 < 2
  {
    HalvesOf(v);
    Halved(v);
    Halved(v / 2);
    Halved(v / 4);
    Halved(v / 8);
  }

  lemma HalvesOf(v: nat)
    ensures v / 4 == v / 2 / 2 && v / 8 == v / 4 / 2 && v / 16 == v / 8 / 2
  {
  }

  lemma Halved(v: nat)
    ensures v == v % 2 + 2 * (v / 2)
  {
  }

  lemma ShowingNow(b: Board, writes: seq<BankWrite>, r: Regs)
    requires ValidBoard(b) && ValidRegs(r) && After(b.vertical, writes).regs == r
    ensures Showing(b, writes) == Shown(b.rom, b.chr, b.blocks, b.prgBits, b.chrBits, r)
  {
    hide After, Shown, Pow2;
  }

  lemma ControlAndBank(vertical: bool, writes: seq<BankWrite>, reset: BankWrite, control: nat, prg: nat)
    requires reset.val >= 0x80 && control < 32 && prg < 32
    ensures var r := After(vertical, writes + [reset] + Serial(0x8000, control) + Serial(0xE000, prg)).regs;
            r.prgMode == control / 4 % 4 && r.prg == prg
  {
    hide After, Serial;
    ResetEmpties(vertical, writes, reset);
    SerialCommits(vertical, writes + [reset], 0x8000, control);
    SerialCommits(vertical, writes + [reset] + Serial(0x8000, control), 0xE000, prg);
  }

  /** Whatever was written before, a program that resets the mapper and loads the control register and the bank
    * register reads: in modes 0 and 1 the 32 KB bank; in mode 2 the first 16 KB and the bank above them; in mode 3
    * the bank and the last 16 KB above it.
    */
  lemma ProgramBytes(b: Board, writes: seq<BankWrite>, reset: BankWrite, control: nat, prg: nat, addr: nat)
    requires ValidBoard(b) && reset.val >= 0x80 && control < 32 && prg < 32 && 0x8000 <= addr < 0x10000
    ensures |b.rom| >= 0x8000
    ensures Showing(b, writes + [reset] + Serial(0x8000, control) + Serial(0xE000, prg)).prg[addr - 0x8000] ==
            b.rom[if control / 4 % 4 <= 1 then (prg / 2 % 8 * 0x8000 + addr - 0x8000) % |b.rom|
                  else if control / 4 % 4 == 2 && addr < 0xC000 then addr - 0x8000
                  else if control / 4 % 4 == 2 then (prg % 16 * 0x4000 + addr - 0xC000) % |b.rom|
                  else if addr < 0xC000 then (prg % 16 * 0x4000 + addr - 0x8000) % |b.rom|
                  else |b.rom| - 0x10000 + addr]
  {
    hide After, Serial, Shown, Showing, ValidBoard;
    var all := writes + [reset] + Serial(0x8000, control) + Serial(0xE000, prg);
    var r := After(b.vertical, all).regs;
    ControlAndBank(b.vertical, writes, reset, control, prg);
    ShowingNow(b, all, r);
    RegisterBytes(b, r, addr);
  }

  /** The byte at an address by the registers. */
  lemma RegisterBytes(b: Board, r: Regs, addr: nat)
    requires ValidBoard(b) && ValidRegs(r) && 0x8000 <= addr < 0x10000
    ensures |b.rom| >= 0x8000
    ensures Shown(b.rom, b.chr, b.blocks, b.prgBits, b.chrBits, r).prg[addr - 0x8000] ==
            b.rom[if r.prgMode <= 1 then (r.prg / 2 % 8 * 0x8000 + addr - 0x8000) % |b.rom|
                  else if r.prgMode == 2 && addr < 0xC000 then addr - 0x8000
                  else if r.prgMode == 2 then (r.prg % 16 * 0x4000 + addr - 0xC000) % |b.rom|
                  else if addr < 0xC000 then (r.prg % 16 * 0x4000 + addr - 0x8000) % |b.rom|
                  else |b.rom| - 0x10000 + addr]
  {
    hide Shown, Pow2, PrgMap;
    ShownAt(b, r, addr);
    if r.prgMode < 2 {
      WideBank(b, r, addr);
    } else if (r.prgMode == 2) == (addr >= 0xC000) {
      SwitchedBank(b, r, addr);
    } else {
      FixedBank(b, r, addr);
    }
  }

  /** At power-on the first 16 KB stand at $8000, and then and after every reset the last ones at $C000, where the
    * vectors are.
    */
  lemma LastBankAtReset(b: Board, writes: seq<BankWrite>, reset: BankWrite, addr: nat)
    requires ValidBoard(b) && reset.val >= 0x80 && 0xC000 <= addr < 0x10000
    ensures |b.rom| >= 0x8000
    ensures Showing(b, []).prg[addr - 0x8000] == b.rom[|b.rom| - 0x10000 + addr]
    ensures Showing(b, writes + [reset]).prg[addr - 0x8000] == b.rom[|b.rom| - 0x10000 + addr]
    ensures Showing(b, []).prg[addr - 0xC000] == b.rom[addr - 0xC000]
  {
    hide Shown, Showing, ValidBoard, After;
    ResetEmpties(b.vertical, writes, reset);
    LastBankShows(b, writes + [reset], addr);
    NothingWritten(b.vertical);
    LastBankShows(b, [], addr);
    FirstBankShows(b, [], addr - 0x4000);
  }

  lemma NothingWritten(vertical: bool)
    ensures After(vertical, []).regs == PowerOn(vertical)
  {
  }

  lemma LastBankShows(b: Board, writes: seq<BankWrite>, addr: nat)
    requires ValidBoard(b) && 0xC000 <= addr < 0x10000 && After(b.vertical, writes).regs.prgMode == 3
    ensures |b.rom| >= 0x8000
    ensures Showing(b, writes).prg[addr - 0x8000] == b.rom[|b.rom| - 0x10000 + addr]
  {
    hide Shown, Showing, ValidBoard, After;
    var r := After(b.vertical, writes).regs;
    ShowingNow(b, writes, r);
    RegisterBytes(b, r, addr);
  }

  lemma FirstBankShows(b: Board, writes: seq<BankWrite>, addr: nat)
    requires ValidBoard(b) && 0x8000 <= addr < 0xC000 && After(b.vertical, writes).regs == PowerOn(b.vertical)
    ensures |b.rom| >= 0x8000
    ensures Showing(b, writes).prg[addr - 0x8000] == b.rom[addr - 0x8000]
  {
    hide Shown, Showing, ValidBoard, After;
    var r := After(b.vertical, writes).regs;
    ShowingNow(b, writes, r);
    RegisterBytes(b, r, addr);
    SmallerThan(addr - 0x8000, |b.rom|);
  }

  lemma SmallerThan(x: nat, d: nat)
    requires x < d
    ensures x % d == x
  {
    DivModUnique(x, d, 0, x);
  }

  // -------------------------------------------------------------- patterns and screens

  lemma PatternAt(b: Board, r: Regs, i: nat, j: nat)
    requires ValidBoard(b) && ValidRegs(r) && i < 2 && j < 0x1000
    ensures ChrMap(r, b.chrBits)[i] + j < |b.chr|
    ensures Shown(b.rom, b.chr, b.blocks, b.prgBits, b.chrBits, r).patterns[i][j] == b.chr[ChrMap(r, b.chrBits)[i] + j]
  {
    hide Pow2, And, PrgMap, ChrMap, NameMap;
    WindowsInside(r, b.prgBits, b.chrBits);
  }

  lemma PatternBank(r: Regs, k: nat, i: nat)
    requires i < 2
    ensures ChrMap(r, k)[i] == if r.chrMode4K then And((if i == 0 then r.chr0 else r.chr1) * Pow2(12), Pow2(k) - 1)
                               else And((r.chr0 / 2 % 16) * Pow2(13), Pow2(k) - 1) + 0x1000 * i
  {
    hide Pow2, And;
  }

  lemma SmallBank(b: Board, r: Regs, i: nat, j: nat)
    requires ValidBoard(b) && ValidRegs(r) && i < 2 && j < 0x1000 && r.chrMode4K
    ensures |b.chr| > 0
    ensures Shown(b.rom, b.chr, b.blocks, b.prgBits, b.chrBits, r).patterns[i][j] ==
            b.chr[((if i == 0 then r.chr0 else r.chr1) * 0x1000 + j) % |b.chr|]
  {
    hide Pow2, And, Shown, ChrMap;
    PowersOfTwo();
    PatternAt(b, r, i, j);
    PatternBank(r, b.chrBits, i);
    BankByte(if i == 0 then r.chr0 else r.chr1, 12, b.chrBits, j);
  }

  lemma LargeBank(b: Board, r: Regs, i: nat, j: nat)
    requires ValidBoard(b) && ValidRegs(r) && i < 2 && j < 0x1000 && !r.chrMode4K
    ensures |b.chr| > 0
    ensures Shown(b.rom, b.chr, b.blocks, b.prgBits, b.chrBits, r).patterns[i][j] ==
            b.chr[(r.chr0 / 2 * 0x2000 + (0x1000 * i + j)) % |b.chr|]
  {
    hide Pow2, And, Shown, ChrMap;
    PowersOfTwo();
    PatternAt(b, r, i, j);
    PatternBank(r, b.chrBits, i);
    BankByte(r.chr0 / 2 % 16, 13, b.chrBits, 0x1000 * i + j);
  }

  lemma PatternsShown(b: Board, r: Regs, i: nat, j: nat)
    requires ValidBoard(b) && ValidRegs(r) && i < 2 && j < 0x1000
    ensures |b.chr| > 0
    ensures Shown(b.rom, b.chr, b.blocks, b.prgBits, b.chrBits, r).patterns[i][j] ==
            b.chr[if r.chrMode4K then ((if i == 0 then r.chr0 else r.chr1) * 0x1000 + j) % |b.chr|
                  else (r.chr0 / 2 * 0x2000 + 0x1000 * i + j) % |b.chr|]
  {
    hide ValidBoard, Shown;
    if r.chrMode4K {
      SmallBank(b, r, i, j);
    } else {
      LargeBank(b, r, i, j);
    }
  }

  lemma ControlAndPatterns(vertical: bool, writes: seq<BankWrite>, reset: BankWrite, control: nat, lo: nat, hi: nat)
    requires reset.val >= 0x80 && control < 32 && lo < 32 && hi < 32
    ensures var r := After(vertical, writes + [reset] + Serial(0x8000, control) + Serial(0xA000, lo) +
                                     Serial(0xC000, hi)).regs;
            r.chrMode4K == (control >= 16) && r.chr0 == lo && r.chr1 == hi && r.nameTab == control % 4
  {
    hide After, Serial;
    ResetEmpties(vertical, writes, reset);
    SerialCommits(vertical, writes + [reset], 0x8000, control);
    SerialCommits(vertical, writes + [reset] + Serial(0x8000, control), 0xA000, lo);
    SerialCommits(vertical, writes + [reset] + Serial(0x8000, control) + Serial(0xA000, lo), 0xC000, hi);
  }

  /** The same for the patterns: two banks of 4 KB or one of 8 KB; and for the four screens, which show one block or
    * the two of them side by side or one above the other.
    */
  lemma PictureBytes(b: Board, writes: seq<BankWrite>, reset: BankWrite, control: nat, lo: nat, hi: nat)
    requires ValidBoard(b) && reset.val >= 0x80 && control < 32 && lo < 32 && hi < 32
    ensures |b.chr| > 0
    ensures var w := Showing(b, writes + [reset] + Serial(0x8000, control) + Serial(0xA000, lo) + Serial(0xC000, hi));
            && (forall j | 0 <= j < 0x1000 ::
                  && w.patterns[0][j] ==
                     b.chr[((if control >= 16 then lo * 0x1000 else lo / 2 * 0x2000) + j) % |b.chr|]
                  && w.patterns[1][j] ==
                     b.chr[((if control >= 16 then hi * 0x1000 else lo / 2 * 0x2000 + 0x1000) + j) % |b.chr|])
            && (control % 4 == 0 ==> w.names == [b.blocks[0], b.blocks[0], b.blocks[0], b.blocks[0]])
            && (control % 4 == 1 ==> w.names == [b.blocks[1], b.blocks[1], b.blocks[1], b.blocks[1]])
            && (control % 4 == 2 ==> w.names == [b.blocks[0], b.blocks[1], b.blocks[0], b.blocks[1]])
            && (control % 4 == 3 ==> w.names == [b.blocks[0], b.blocks[0], b.blocks[1], b.blocks[1]])
  {
    hide After, Serial, Shown, Showing, Pow2;
    var all := writes + [reset] + Serial(0x8000, control) + Serial(0xA000, lo) + Serial(0xC000, hi);
    var r := After(b.vertical, all).regs;
    ControlAndPatterns(b.vertical, writes, reset, control, lo, hi);
    ShowingNow(b, all, r);
    PatternsShown(b, r, 0, 0);
    forall j | 0 <= j < 0x1000
      ensures Showing(b, all).patterns[0][j] ==
              b.chr[((if control >= 16 then lo * 0x1000 else lo / 2 * 0x2000) + j) % |b.chr|]
      ensures Showing(b, all).patterns[1][j] ==
              b.chr[((if control >= 16 then hi * 0x1000 else lo / 2 * 0x2000 + 0x1000) + j) % |b.chr|]
    {
      PatternsShown(b, r, 0, j);
      PatternsShown(b, r, 1, j);
    }
    ScreensShown(b, r);
  }

  lemma ScreensShown(b: Board, r: Regs)
    requires ValidBoard(b) && ValidRegs(r)
    ensures Shown(b.rom, b.chr, b.blocks, b.prgBits, b.chrBits, r).names ==
            [b.blocks[if r.nameTab == 1 then 1 else 0],
             b.blocks[if r.nameTab == 1 || r.nameTab == 2 then 1 else 0],
             b.blocks[if r.nameTab == 1 || r.nameTab == 3 then 1 else 0],
             b.blocks[if r.nameTab == 0 then 0 else 1]]
  {
    hide Pow2, And, PrgMap, ChrMap;
  }

  /** Until the control register is loaded the screens stand as the header says. */
  lemma HeaderScreens(b: Board)
    requires ValidBoard(b)
    ensures Showing(b, []).names == if b.vertical then [b.blocks[0], b.blocks[1], b.blocks[0], b.blocks[1]]
                                    else [b.blocks[0], b.blocks[0], b.blocks[1], b.blocks[1]]
  {
    hide Shown, Showing, Pow2;
    ShowingNow(b, [], PowerOn(b.vertical));
    ScreensShown(b, PowerOn(b.vertical));
  }

  // ---------------------------------------------------------------- the mapper itself

  /** The tables of the mapper lead to these bytes. */
  lemma TablesShow(m: Mapper, b: Board, addr: nat, i: nat, j: nat, n: nat)
    requires m.Valid() && ValidBoard(b) && b.prgBits == m.prgBits && b.chrBits == m.chrBits && b.vertical == m.vertical
    requires 0x8000 <= addr < 0x10000 && i < 2 && j < 0x1000 && n < 4
    ensures 0 <= m.Resolved(addr) < |b.rom| && m.ptMirrTable[i] + j < |b.chr| && m.nameMirrTable[n] < 2
    ensures var w := Showing(b, m.writes);
            && w.prg[addr - 0x8000] == b.rom[m.Resolved(addr)]
            && w.patterns[i][j] == b.chr[m.ptMirrTable[i] + j]
            && w.names[n] == b.blocks[m.nameMirrTable[n]]
  {
    hide Pow2, And, PrgMap, ChrMap, NameMap, After;
    var r := m.Registers();
    ShowingNow(b, m.writes, r);
    ShownAt(b, r, addr);
    WindowsInside(r, b.prgBits, b.chrBits);
    assert m.prgBankTable[..][addr / 0x2000 % 4] == m.prgBankTable[addr / 0x2000 % 4];
    assert m.ptMirrTable[..][i] == m.ptMirrTable[i] && m.nameMirrTable[..][n] == m.nameMirrTable[n];
  }
}
