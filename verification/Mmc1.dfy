/** The MMC1 mapper (mapper/mmc1.c): registers loaded one bit at a time, and the windows they choose.
  */
module Mmc1 {
  import opened Common
  import opened CpuReference

  const SR_RESET := 0x10
  const KB := 1024

  // ------------------------------------------------------ sizes and masks in C's way

  /** Bitwise and. */
  function And(a: nat, b: nat): nat
    decreases a + b
  {
    if a == 0 || b == 0 then 0 else (a % 2) * (b % 2) + 2 * And(a / 2, b / 2)
  }

  /** Masking with a power of two less one is taking the remainder. */
  lemma {:induction false} MaskIsRemainder(x: nat, k: nat)
    ensures And(x, Pow2(k) - 1) == x % Pow2(k)
  {
    if k > 0 {
      var half := Pow2(k - 1);
      assert (2 * half - 1) / 2 == half - 1 && (2 * half - 1) % 2 == 1;
      MaskIsRemainder(x / 2, k - 1);
      RemainderHalves(x, half);
      if x > 0 {
        assert And(x, 2 * half - 1) == x % 2 + 2 * And(x / 2, half - 1);
      } else {
        assert 0 % (2 * half) == 0;
      }
    }
  }

  lemma RemainderHalves(x: nat, half: nat)
    requires half >= 1
    ensures x % (2 * half) == x % 2 + 2 * (x / 2 % half)
  {
    var q, r := x / 2 / half, x / 2 % half;
    assert x / 2 == q * half + r;
    assert x == q * (2 * half) + (2 * r + x % 2);
    DivModUnique(x, 2 * half, q, 2 * r + x % 2);
  }

  /** A bank number scaled and masked is a whole number of banks inside the memory. */
  lemma BankInside(bank: nat, unit: nat, size: nat)
    requires unit <= size
    ensures And(bank * Pow2(unit), Pow2(size) - 1) + Pow2(unit) <= Pow2(size)
    ensures And(bank * Pow2(unit), Pow2(size) - 1) % Pow2(unit) == 0
  {
    hide Pow2, And;
    MaskIsRemainder(bank * Pow2(unit), size);
    PowersDivide(unit, size);
    RemainderScaled(bank, Pow2(unit), Pow2(size - unit));
    WholeBank(bank % Pow2(size - unit), Pow2(unit), Pow2(size - unit));
  }

  lemma WholeBank(b: nat, u: nat, banks: nat)
    requires u >= 1 && b < banks
    ensures b * u + u <= banks * u && (b * u) % u == 0
  {
    DivModUnique(b * u, u, b, 0);
    assert b * u + u == (b + 1) * u;
    MultipleAtMost(b + 1, banks, u);
  }

  lemma MultipleAtMost(x: nat, y: nat, u: nat)
    requires x <= y
    ensures x * u <= y * u
  {
  }

  lemma {:induction false} PowersDivide(unit: nat, size: nat)
    requires unit <= size
    ensures Pow2(size) == Pow2(size - unit) * Pow2(unit)
    decreases size
  {
    hide Pow2;
    if unit < size {
      PowersDivide(unit, size - 1);
      Doubled(size);
      Doubled(size - unit);
      DoubledProduct(Pow2(size - 1 - unit), Pow2(unit));
    } else {
      Doubled(1);
    }
  }

  lemma Doubled(n: nat)
    requires n > 0
    ensures Pow2(n) == 2 * Pow2(n - 1) && Pow2(0) == 1
  {
  }

  lemma DoubledProduct(x: nat, y: nat)
    ensures 2 * (x * y) == 2 * x * y
  {
  }

  lemma RemainderScaled(x: nat, u: nat, n: nat)
    requires u >= 1 && n >= 1
    ensures n * u >= 1 && (x * u) % (n * u) == (x % n) * u
  {
    var q, r := x / n, x % n;
    assert x == q * n + r;
    assert x * u == q * (n * u) + r * u;
    WholeBank(r, u, n);
    DivModUnique(x * u, n * u, q, r * u);
  }

  // ----------------------------------------------------------------- the registers

  datatype Regs = Regs(nameTab: nat, prgMode: nat, chrMode4K: bool, chr0: nat, chr1: nat, prg: nat)

  ghost predicate ValidRegs(r: Regs) {
    r.nameTab < 4 && r.prgMode < 4 && r.chr0 < 32 && r.chr1 < 32 && r.prg < 32
  }

  /** Five bits loaded so far, the first one least significant. */
  function Value(bits: seq<nat>): nat
    decreases |bits|
  {
    if bits == [] then 0 else bits[0] + 2 * Value(bits[1..])
  }

  /** What the protocol has in hand: the bits since the last reset or commit, and the registers. */
  datatype Loading = Loading(bits: seq<nat>, regs: Regs)

  ghost predicate ValidLoading(l: Loading) {
    |l.bits| < 5 && (forall i | 0 <= i < |l.bits| :: l.bits[i] < 2) && ValidRegs(l.regs)
  }

  lemma {:induction false} ValueFits(bits: seq<nat>)
    requires forall i | 0 <= i < |bits| :: bits[i] < 2
    ensures Value(bits) < Pow2(|bits|)
    decreases |bits|
  {
    if bits != [] {
      ValueFits(bits[1..]);
    }
  }

  function Commit(r: Regs, addr: nat, v: nat): (s: Regs)
    requires v < 32
    ensures ValidRegs(r) ==> ValidRegs(s)
  {
    match addr / 0x2000 % 4
    case 0 => r.(nameTab := v % 4, prgMode := v / 4 % 4, chrMode4K := v / 16 == 1)
    case 1 => r.(chr0 := v)
    case 2 => r.(chr1 := v)
    case _ => r.(prg := v)
  }

  /** One write: bit 7 starts over, anything else adds a bit, and the fifth bit commits. */
  function Loaded(l: Loading, w: BankWrite): (m: Loading)
    requires ValidLoading(l)
    ensures ValidLoading(m)
  {
    if w.val >= 0x80 then Loading([], l.regs.(prgMode := 3))
    else
      var bits := l.bits + [w.val % 2];
      if |bits| < 5 then Loading(bits, l.regs)
      else
        ValueFits(bits);
        SmallPowers();
        Loading([], Commit(l.regs, w.addr, Value(bits)))
  }

  function PowerOn(vertical: bool): (r: Regs)
    ensures ValidRegs(r)
  {
    Regs(if vertical then 2 else 3, 3, false, 0, 0, 0)
  }

  /** The protocol over a whole history of writes. */
  function After(vertical: bool, writes: seq<BankWrite>): (l: Loading)
    ensures ValidLoading(l)
    decreases |writes|
  {
    if writes == [] then Loading([], PowerOn(vertical))
    else
      var last := |writes| - 1;
      Loaded(After(vertical, writes[..last]), writes[last])
  }

  // ------------------------------------------------------------------- the windows

  /** Offsets of the four 8 KB windows at $8000, for a ROM of 2^k bytes (mmc1.c:81-105). */
  function PrgMap(r: Regs, k: nat): (map4: seq<nat>)
    requires k >= 15
    ensures |map4| == 4
  {
    PowersGrow(14, k);
    var size, bank16 := Pow2(k), And((r.prg % 16) * Pow2(14), Pow2(k) - 1);
    assert Pow2(14) == 16 * KB by { PowersOfTwo(); }
    if r.prgMode < 2 then
      var at := And((r.prg / 2 % 8) * Pow2(15), size - 1);
      [at, at + 8 * KB, at + 16 * KB, at + 24 * KB]
    else if r.prgMode == 2 then [0, 8 * KB, bank16, bank16 + 8 * KB]
    else [bank16, bank16 + 8 * KB, size - 16 * KB, size - 16 * KB + 8 * KB]
  }

  /** Offsets of the two 4 KB pattern windows, for a memory of 2^k bytes (mmc1.c:125-139). */
  function ChrMap(r: Regs, k: nat): (map2: seq<nat>)
    ensures |map2| == 2
  {
    if r.chrMode4K then [And(r.chr0 * Pow2(12), Pow2(k) - 1), And(r.chr1 * Pow2(12), Pow2(k) - 1)]
    else
      var at := And((r.chr0 / 2 % 16) * Pow2(13), Pow2(k) - 1);
      [at, at + 4 * KB]
  }

  /** Which of the two nametable blocks each of the four screens shows (mmc1.c:107-123, mapper.c:29-46). */
  function NameMap(r: Regs): (map4: seq<nat>)
    ensures |map4| == 4 && forall i | 0 <= i < 4 :: map4[i] < 2
  {
    match r.nameTab
    case 0 => [0, 0, 0, 0]
    case 1 => [1, 1, 1, 1]
    case 2 => [0, 1, 0, 1]
    case _ => [0, 0, 1, 1]
  }

  lemma PowersOfTwo()
    ensures Pow2(12) == 4 * KB && Pow2(13) == 8 * KB && Pow2(14) == 16 * KB && Pow2(15) == 32 * KB
  {
    assert Pow2(2) == 4 && Pow2(4) == 16 && Pow2(6) == 64 && Pow2(8) == 256 && Pow2(10) == 1024;
    assert Pow2(12) == 4096 && Pow2(13) == 8192 && Pow2(14) == 16384 && Pow2(15) == 32768;
  }

  lemma {:induction false} PowersGrow(j: nat, k: nat)
    requires j <= k
    ensures Pow2(j) <= Pow2(k)
    decreases k
  {
    if j < k {
      PowersGrow(j, k - 1);
    }
  }

  /** Every PRG window lies inside a ROM of 32 KB or more, every pattern window inside 8 KB or more. */
  lemma WindowsInside(r: Regs, prgBits: nat, chrBits: nat)
    requires ValidRegs(r) && prgBits >= 15 && chrBits >= 13
    ensures forall i | 0 <= i < 4 :: PrgMap(r, prgBits)[i] + 8 * KB <= Pow2(prgBits)
    ensures forall i | 0 <= i < 2 :: ChrMap(r, chrBits)[i] + 4 * KB <= Pow2(chrBits)
  {
    hide Pow2, And;
    PowersOfTwo();
    PowersGrow(15, prgBits);
    BankInside(r.prg % 16, 14, prgBits);
    BankInside(r.prg / 2 % 8, 15, prgBits);
    BankInside(r.chr0, 12, chrBits);
    BankInside(r.chr1, 12, chrBits);
    BankInside(r.chr0 / 2 % 16, 13, chrBits);
  }

  // --------------------------------------------------------------- the shift register

  /** n bits worth v, from the top of five places down, with a marker one below the lowest. */
  function Code(n: nat, v: nat): nat
    requires n < 5
  {
    match n
    case 0 => 16 + 32 * v
    case 1 => 8 + 16 * v
    case 2 => 4 + 8 * v
    case 3 => 2 + 4 * v
    case 4 => 1 + 2 * v
  }

  function Coded(bits: seq<nat>): nat
    requires |bits| < 5
  {
    Code(|bits|, Value(bits))
  }

  lemma {:induction false} ValueGrows(bits: seq<nat>, b: nat)
    ensures Value(bits + [b]) == Value(bits) + Pow2(|bits|) * b
    decreases |bits|
  {
    if bits == [] {
      assert [b][1..] == [];
      assert Value([b]) == b + 2 * Value([]);
    } else {
      ValueGrows(bits[1..], b);
      assert (bits + [b])[1..] == bits[1..] + [b];
      assert 2 * (Pow2(|bits| - 1) * b) == (2 * Pow2(|bits| - 1)) * b;
    }
  }

  lemma SmallPowers()
    ensures Pow2(0) == 1 && Pow2(1) == 2 && Pow2(2) == 4 && Pow2(3) == 8 && Pow2(4) == 16 && Pow2(5) == 32
  {
    assert Pow2(2) == 4 && Pow2(4) == 16;
  }

  /** Shifting a bit in keeps the code, and the marker falls out with the fifth bit, leaving its value. */
  lemma ShiftIn(bits: seq<nat>, b: nat)
    requires |bits| < 5 && b < 2 && forall i | 0 <= i < |bits| :: bits[i] < 2
    ensures Coded(bits) % 2 == 1 <==> |bits| == 4
    ensures Coded(bits) / 2 + 16 * b == if |bits| < 4 then Coded(bits + [b]) else Value(bits + [b])
    ensures |bits| == 4 ==> Value(bits + [b]) < 32
  {
    hide Pow2, Value;
    SmallPowers();
    ValueGrows(bits, b);
    ValueFits(bits + [b]);
  }

  // ------------------------------------------------------------------------ the mapper

  class Mapper {
    const prgBits: nat
    const chrBits: nat
    var shiftReg: nat
    var nameTab: nat
    var prgMode: nat
    var chrMode4K: bool
    var chrBank0: nat
    var chrBank1: nat
    var prg: nat
    /** The windows: offsets into PRG memory, CHR memory and the two nametable blocks. */
    const prgBankTable: array<nat>
    const ptMirrTable: array<nat>
    const nameMirrTable: array<nat>
    ghost const vertical: bool
    /** Every write the mapper has received. */
    ghost var writes: seq<BankWrite>

    ghost function Registers(): Regs
      reads this
    {
      Regs(nameTab, prgMode, chrMode4K, chrBank0, chrBank1, prg)
    }

    ghost predicate Wf()
    {
      && prgBits >= 15 && chrBits >= 13
      && prgBankTable.Length == 4 && ptMirrTable.Length == 2 && nameMirrTable.Length == 4
      && prgBankTable != ptMirrTable && prgBankTable != nameMirrTable && ptMirrTable != nameMirrTable
    }

    /** The registers are what the protocol makes of the writes, and the windows what the registers say. */
    ghost predicate Valid()
      reads this, prgBankTable, ptMirrTable, nameMirrTable
    {
      && Wf() && Holds(Registers(), Registers(), Registers())
      && Registers() == After(vertical, writes).regs && shiftReg == Coded(After(vertical, writes).bits)
    }

    /** The three tables, each by the registers it was computed from last. */
    ghost predicate Holds(p: Regs, c: Regs, n: Regs)
      requires Wf()
      reads prgBankTable, ptMirrTable, nameMirrTable
    {
      prgBankTable[..] == PrgMap(p, prgBits) && ptMirrTable[..] == ChrMap(c, chrBits) && nameMirrTable[..] == NameMap(n)
    }

    /** mmc1.c:205-214 with the two table initialisations (mmc1.c:141-154). */
    constructor (prgBits: nat, chrBits: nat, vertical: bool)
      requires prgBits >= 15 && chrBits >= 13
      ensures Valid() && writes == [] && this.vertical == vertical
      ensures this.prgBits == prgBits && this.chrBits == chrBits
    {
      hide Pow2, And;
      this.prgBits, this.chrBits, this.vertical, writes := prgBits, chrBits, vertical, [];
      shiftReg, prgMode, chrMode4K, chrBank0, chrBank1, prg := SR_RESET, 3, false, 0, 0, 0;
      nameTab := if vertical then 2 else 3;
      prgBankTable := new nat[4];
      ptMirrTable := new nat[2];
      nameMirrTable := new nat[4];
      new;
      UpdatePrgMap();
      UpdateMirroring();
      UpdateChr();
      assert After(vertical, []) == Loading([], PowerOn(vertical));
    }

    /** mmap.h:27-31: the offset in the program ROM that an address reads. */
    function Resolved(addr: nat): int
      requires prgBankTable.Length == 4
      reads prgBankTable
    {
      prgBankTable[addr / 0x2000 % 4] + addr % 0x2000
    }

    /** mapper.c:156-163. */
    method PrgSet16K(window: nat, at: nat)
      requires Wf() && (window == 0 || window == 2)
      modifies prgBankTable
      ensures prgBankTable[..] == old(prgBankTable[..])[window := at][window + 1 := at + 8 * KB]
      ensures forall addr: nat | 0x8000 <= addr < 0x10000 ::
                Resolved(addr) == var base := 0x8000 + 0x2000 * window;
                                  if base <= addr < base + 0x4000 then at + (addr - base) else old(Resolved(addr))
    {
      prgBankTable[window] := at;
      prgBankTable[window + 1] := at + 8 * KB;
    }

    /** mapper.c:165-173, without a mask. */
    method PrgSet32K(at: nat)
      requires Wf()
      modifies prgBankTable
      ensures prgBankTable[..] == [at, at + 8 * KB, at + 16 * KB, at + 24 * KB]
      ensures forall addr: nat | 0x8000 <= addr < 0x10000 :: Resolved(addr) == at + (addr - 0x8000)
    {
      prgBankTable[0] := at;
      prgBankTable[1] := at + 8 * KB;
      prgBankTable[2] := at + 16 * KB;
      prgBankTable[3] := at + 24 * KB;
    }

    /** mmc1.c:81-105. */
    method UpdatePrgMap()
      requires Wf()
      modifies prgBankTable
      ensures prgBankTable[..] == PrgMap(Registers(), prgBits)
    {
      hide Pow2, And;
      PowersOfTwo();
      PowersGrow(14, prgBits);
      var size := Pow2(prgBits);
      var mask := size - 1;
      if prgMode < 2 {
        PrgSet32K(And((prg / 2 % 8) * Pow2(15), mask));
      } else if prgMode == 2 {
        PrgSet16K(0, 0);
        PrgSet16K(2, And((prg % 16) * Pow2(14), mask));
      } else {
        PrgSet16K(0, And((prg % 16) * Pow2(14), mask));
        PrgSet16K(2, size - 16 * KB);
      }
    }

    /** mmc1.c:107-123. */
    method UpdateMirroring()
      requires Wf()
      modifies nameMirrTable
      ensures nameMirrTable[..] == NameMap(Registers())
    {
      match nameTab {
        case 0 => NameTableSingleScreenSwitch(0);
        case 1 => NameTableSingleScreenSwitch(1);
        case 2 => NameTableMirrorSwitch(true);
        case _ => NameTableMirrorSwitch(false);
      }
    }

    /** mapper.c:29-39. */
    method NameTableMirrorSwitch(vertical: bool)
      requires Wf()
      modifies nameMirrTable
      ensures nameMirrTable[..] == if vertical then [0, 1, 0, 1] else [0, 0, 1, 1]
    {
      if vertical {
        nameMirrTable[0], nameMirrTable[2] := 0, 0;
        nameMirrTable[1], nameMirrTable[3] := 1, 1;
      } else {
        nameMirrTable[0], nameMirrTable[1] := 0, 0;
        nameMirrTable[2], nameMirrTable[3] := 1, 1;
      }
    }

    /** mapper.c:41-46. */
    method NameTableSingleScreenSwitch(block: nat)
      requires Wf()
      modifies nameMirrTable
      ensures nameMirrTable[..] == [block, block, block, block]
    {
      nameMirrTable[0], nameMirrTable[1], nameMirrTable[2], nameMirrTable[3] := block, block, block, block;
    }

    /** mmc1.c:125-139. */
    method UpdateChr()
      requires Wf()
      modifies ptMirrTable
      ensures ptMirrTable[..] == ChrMap(Registers(), chrBits)
    {
      hide Pow2, And;
      var mask := Pow2(chrBits) - 1;
      if chrMode4K {
        ptMirrTable[0] := And(chrBank0 * Pow2(12), mask);
        ptMirrTable[1] := And(chrBank1 * Pow2(12), mask);
      } else {
        ptMirrTable[0] := And((chrBank0 / 2 % 16) * Pow2(13), mask);
        ptMirrTable[1] := ptMirrTable[0] + 4 * KB;
      }
    }

    /** mmc1.c:161-203. */
    method BankSwitch(addr: nat, val: u8)
      requires Valid()
      modifies this, prgBankTable, ptMirrTable, nameMirrTable
      ensures Valid() && writes == old(writes) + [BankWrite(addr, val)]
    {
      hide Pow2, And, Value, Coded, PrgMap, ChrMap, NameMap, After;
      ghost var l := After(vertical, writes);
      OneWriteMore(vertical, writes, BankWrite(addr, val));
      writes := writes + [BankWrite(addr, val)];
      if val >= 0x80 {
        shiftReg := SR_RESET;
        prgMode := 3;
        ModeOnly(l.regs, chrBits);
        UpdatePrgMap();
        EmptyCode();
        return;
      }
      ShiftIn(l.bits, val % 2);
      var filled := shiftReg % 2 == 1;
      shiftReg := shiftReg / 2 + 16 * (val % 2);
      if !filled {
        return;
      }
      CommitReg(addr, l.regs);
      shiftReg := SR_RESET;
      EmptyCode();
    }

    /** mmc1.c:180-199. */
    method CommitReg(addr: nat, ghost before: Regs)
      requires Wf() && shiftReg < 32 && Registers() == before && Holds(before, before, before)
      modifies `nameTab, `prgMode, `chrMode4K, `chrBank0, `chrBank1, `prg, prgBankTable, ptMirrTable, nameMirrTable
      ensures Registers() == Commit(before, addr, shiftReg)
      ensures Holds(Registers(), Registers(), Registers())
    {
      hide Pow2, And, PrgMap, ChrMap, NameMap;
      BankOnly(before, shiftReg, prgBits, chrBits);
      match addr / 0x2000 % 4 {
        case 0 =>
          nameTab, prgMode, chrMode4K := shiftReg % 4, shiftReg / 4 % 4, shiftReg / 16 == 1;
          UpdateMirroring();
          UpdateChr();
          UpdatePrgMap();
        case 1 =>
          chrBank0 := shiftReg;
          UpdateChr();
        case 2 =>
          chrBank1 := shiftReg;
          UpdateChr();
        case _ =>
          prg := shiftReg;
          UpdatePrgMap();
      }
    }
  }

  lemma EmptyCode()
    ensures Coded([]) == SR_RESET
  {
  }

  lemma OneWriteMore(vertical: bool, writes: seq<BankWrite>, w: BankWrite)
    ensures After(vertical, writes + [w]) == Loaded(After(vertical, writes), w)
  {
    hide Loaded, ValidLoading;
    assert (writes + [w])[..|writes|] == writes;
  }

  /** A reset changes nothing the other two tables are made of. */
  lemma ModeOnly(r: Regs, chrBits: nat)
    ensures ChrMap(r.(prgMode := 3), chrBits) == ChrMap(r, chrBits)
    ensures NameMap(r.(prgMode := 3)) == NameMap(r)
  {
    hide Pow2, And;
  }

  /** A bank register changes only the windows of its own memory. */
  lemma BankOnly(r: Regs, v: nat, prgBits: nat, chrBits: nat)
    requires prgBits >= 15
    ensures PrgMap(r.(chr0 := v), prgBits) == PrgMap(r, prgBits) == PrgMap(r.(chr1 := v), prgBits)
    ensures ChrMap(r.(prg := v), chrBits) == ChrMap(r, chrBits)
    ensures NameMap(r.(chr0 := v)) == NameMap(r) == NameMap(r.(chr1 := v)) == NameMap(r.(prg := v))
  {
    hide Pow2, And;
  }

  // --------------------------------------------------- the protocol, said without a history

  /** Five writes after a reset or commit load one register with their bits, the first lowest, and the
    * address of the fifth alone decides which.
    */
  lemma FiveWritesCommit(vertical: bool, writes: seq<BankWrite>, five: seq<BankWrite>)
    requires After(vertical, writes).bits == []
    requires |five| == 5 && forall i | 0 <= i < 5 :: five[i].val < 0x80
    ensures var v := five[0].val % 2 + 2 * (five[1].val % 2) + 4 * (five[2].val % 2) + 8 * (five[3].val % 2)
                     + 16 * (five[4].val % 2);
            After(vertical, writes + five) == Loading([], Commit(After(vertical, writes).regs, five[4].addr, v))
    ensures forall n | 0 < n < 5 ::
              After(vertical, writes + five[..n]).regs == After(vertical, writes).regs
  {
    hide After, Loaded, Commit, Value, Bits;
    forall n | 0 < n < 5
      ensures After(vertical, writes + five[..n]).regs == After(vertical, writes).regs
    {
      BitsLoaded(vertical, writes, five, n);
    }
    BitsLoaded(vertical, writes, five, 4);
    OneWriteMore(vertical, writes + five[..4], five[4]);
    assert (writes + five[..4]) + [five[4]] == writes + five;
    FifthWrite(After(vertical, writes).regs, five);
  }

  lemma FifthWrite(r: Regs, five: seq<BankWrite>)
    requires |five| == 5 && (forall i | 0 <= i < 5 :: five[i].val < 0x80) && ValidRegs(r)
    ensures ValidLoading(Loading(Bits(five, 4), r))
    ensures var v := five[0].val % 2 + 2 * (five[1].val % 2) + 4 * (five[2].val % 2) + 8 * (five[3].val % 2)
                     + 16 * (five[4].val % 2);
            v < 32 && Loaded(Loading(Bits(five, 4), r), five[4]) == Loading([], Commit(r, five[4].addr, v))
  {
    hide Commit, Value;
    assert Bits(five, 4) + [five[4].val % 2] == Bits(five, 5);
    FiveBits(Bits(five, 5));
  }

  function Bits(five: seq<BankWrite>, n: nat): (bits: seq<nat>)
    requires n <= |five|
    ensures |bits| == n
  {
    seq(n, i requires 0 <= i < n => five[i].val % 2)
  }

  lemma {:induction false} BitsLoaded(vertical: bool, writes: seq<BankWrite>, five: seq<BankWrite>, n: nat)
    requires After(vertical, writes).bits == [] && n <= 4 <= |five|
    requires forall i | 0 <= i < |five| :: five[i].val < 0x80
    ensures After(vertical, writes + five[..n]) == Loading(Bits(five, n), After(vertical, writes).regs)
  {
    hide After, Commit, Value;
    if n == 0 {
      assert writes + five[..0] == writes && Bits(five, 0) == [];
    } else {
      BitsLoaded(vertical, writes, five, n - 1);
      OneWriteMore(vertical, writes + five[..n - 1], five[n - 1]);
      assert (writes + five[..n - 1]) + [five[n - 1]] == writes + five[..n];
      assert Bits(five, n - 1) + [five[n - 1].val % 2] == Bits(five, n);
    }
  }

  lemma FiveBits(b: seq<nat>)
    requires |b| == 5
    ensures Value(b) == b[0] + 2 * b[1] + 4 * b[2] + 8 * b[3] + 16 * b[4]
  {
    var c, d, e, f := b[1..], b[2..], b[3..], b[4..];
    assert c[1..] == d && d[1..] == e && e[1..] == f && f[1..] == [];
    assert Value(f) == b[4] && Value(e) == b[3] + 2 * Value(f) && Value(d) == b[2] + 2 * Value(e);
    assert Value(c) == b[1] + 2 * Value(d);
  }

  // --------------------------------------------------------------- as a cartridge

  /** What a cartridge with an MMC1 shows of its memories after some writes. */
  function Shown(rom: seq<u8>, chr: seq<u8>, blocks: seq<seq<u8>>, prgBits: nat, chrBits: nat, r: Regs): (w: Windows)
    requires ValidRegs(r) && prgBits >= 15 && chrBits >= 13
    requires |rom| == Pow2(prgBits) && |chr| == Pow2(chrBits)
    requires |blocks| == 2 && |blocks[0]| == KB && |blocks[1]| == KB
    ensures ValidWindows(w)
  {
    hide PrgMap, ChrMap, NameMap;
    WindowsInside(r, prgBits, chrBits);
    var p, c, n := PrgMap(r, prgBits), ChrMap(r, chrBits), NameMap(r);
    Windows(rom[p[0]..p[0] + 8 * KB] + rom[p[1]..p[1] + 8 * KB] + rom[p[2]..p[2] + 8 * KB] + rom[p[3]..p[3] + 8 * KB],
            [chr[c[0]..c[0] + 4 * KB], chr[c[1]..c[1] + 4 * KB]],
            [blocks[n[0]], blocks[n[1]], blocks[n[2]], blocks[n[3]]])
  }

  /** An address reads the byte its window shows: mmap.h:27-31 against the map. */
  lemma ResolveReadsWindow(rom: seq<u8>, chr: seq<u8>, blocks: seq<seq<u8>>, prgBits: nat, chrBits: nat, r: Regs,
                           addr: nat)
    requires ValidRegs(r) && prgBits >= 15 && chrBits >= 13
    requires |rom| == Pow2(prgBits) && |chr| == Pow2(chrBits)
    requires |blocks| == 2 && |blocks[0]| == KB && |blocks[1]| == KB
    requires 0x8000 <= addr < 0x10000
    ensures var at := PrgMap(r, prgBits)[addr / 0x2000 % 4] + addr % 0x2000;
            at < |rom| && Shown(rom, chr, blocks, prgBits, chrBits, r).prg[addr - 0x8000] == rom[at]
  {
    hide PrgMap, ChrMap, NameMap, Pow2;
    WindowsInside(r, prgBits, chrBits);
    var window := addr / 0x2000 % 4;
    assert addr - 0x8000 == 8 * KB * window + addr % 0x2000;
  }

  /** The cartridge as the machine sees it: a function of the writes alone. */
  function CartOf(rom: seq<u8>, chr: seq<u8>, blocks: seq<seq<u8>>, prgBits: nat, chrBits: nat, vertical: bool)
    : (cart: Cart)
    requires prgBits >= 15 && chrBits >= 13 && |rom| == Pow2(prgBits) && |chr| == Pow2(chrBits)
    requires |blocks| == 2 && |blocks[0]| == KB && |blocks[1]| == KB
    ensures ValidCart(cart)
  {
    hide Pow2, Shown;
    var cart := (writes: seq<BankWrite>) =>
      Shown(rom, chr, blocks, prgBits, chrBits, After(vertical, writes).regs);
    assert forall writes: seq<BankWrite> :: ValidWindows(cart(writes));
    cart
  }
}
