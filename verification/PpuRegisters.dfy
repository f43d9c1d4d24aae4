/** What an access to $2000-$2006 does to the picture unit (ppu.c:45-68, 248-382).
  */
module PpuRegisters {
  import opened Common
  import opened PpuTypes
  import opened PpuReference
  import opened PpuTheorems
  import opened PpuNmi

  predicate InVblank(p: Ppu) { POST_RENDER_LINE < p.scanLine < PRE_RENDER_LINE }

  /** The read clears the vblank flag; in the dot before it rises it suppresses it, and in the two dots
    * after it takes back the NMI.
    */
  function FlagsRead(s: Status, scanLine: nat, dot: nat): Status {
    s.(vblank := false, readRace := s.readRace || (scanLine == VBLANK_LINE && dot == 1),
       nmi := s.nmi && !(scanLine == VBLANK_LINE && 2 <= dot <= 3))
  }

  /** ppu.c:45-68. */
  function StatusRead(p: Ppu): (q: Ppu)
    ensures AtRest(p) ==> AtRest(q)
    ensures q.status.nmi ==> p.status.nmi
  {
    p.(status := FlagsRead(p.status, p.scanLine, p.dot), reg := p.reg.(secondWrite := false))
  }

  /** The bits a read of $2002 returns, but for the invented bit of a pending NMI. */
  function StatusByte(s: Status): (r: u8)
    ensures r <= 0xE1 && r / 2 % 2 == 0
  {
    (if s.readRace then 1 else 0) + (if s.overflow then 32 else 0) +
    (if s.sprite0 then 64 else 0) + (if s.vblank then 128 else 0)
  }

  /** Enabling the NMI while the vblank flag is up raises one at once; disabling it takes one back. */
  function CtrlFlags(s: Status, before: u8, val: u8, scanLine: nat, dot: nat): Status {
    var up := s.vblank && !(scanLine == PRE_RENDER_LINE && dot == 1);
    s.(vblank := up, nmi := if val / 128 == before / 128 then s.nmi else val / 128 == 1 && up)
  }

  predicate CtrlRaises(s: Status, before: u8, val: u8, scanLine: nat, dot: nat) {
    val / 128 == 1 && before / 128 == 0 && CtrlFlags(s, before, val, scanLine, dot).vblank
  }

  function CtrlLogged(log: NmiLog, raises: bool): NmiLog { log.(raised := log.raised + if raises then 1 else 0) }

  /** ppu.c:255-279. */
  function WriteCtrl(p: Ppu, val: u8): (q: Ppu)
    ensures AtRest(p) ==> AtRest(q)
  {
    p.(status := CtrlFlags(p.status, p.reg.ctrl, val, p.scanLine, p.dot),
       nmis := CtrlLogged(p.nmis, CtrlRaises(p.status, p.reg.ctrl, val, p.scanLine, p.dot)),
       reg := p.reg.(ctrl := val, tmp := p.reg.tmp.(ntX := val % 2, ntY := val / 2 % 2)))
  }

  /** ppu.c:280-300.  Rendering follows three dots later. */
  function WriteMask(p: Ppu, val: u8): (q: Ppu)
    ensures AtRest(p) ==> AtRest(q)
  {
    p.(rendToggleDot := if val / 8 % 4 != p.reg.mask / 8 % 4 then p.dot else p.rendToggleDot,
       reg := p.reg.(mask := val,
                     greyscale := if val % 2 != p.reg.mask % 2 then val % 2 == 1 else p.reg.greyscale))
  }

  /** ppu.c:337-368. */
  function WriteScroll(p: Ppu, val: u8): (q: Ppu)
    ensures AtRest(p) ==> AtRest(q)
  {
    if !p.reg.secondWrite then
      p.(reg := p.reg.(secondWrite := true, fineX := val % 8, tmp := p.reg.tmp.(tileX := val / 8)))
    else
      p.(reg := p.reg.(secondWrite := false, tmp := p.reg.tmp.(tileY := val / 8, fineY := val % 8)))
  }

  /** ppu.c:369-383.  The halves of the address lie across the scroll fields. */
  function WriteAddr(p: Ppu, val: u8): (q: Ppu)
    ensures AtRest(p) ==> AtRest(q)
  {
    var t := p.reg.tmp;
    if !p.reg.secondWrite then
      p.(reg := p.reg.(secondWrite := true,
                       tmp := Vram(t.tileX, t.tileY % 8 + 8 * (val % 4), val / 4 % 2, val / 8 % 2, val / 16 % 4)))
    else
      var t' := t.(tileX := val % 32, tileY := t.tileY / 8 * 8 + val / 32);
      p.(reg := p.reg.(secondWrite := false, tmp := t'), cur := t')
  }

  /** The 15-bit address the scroll fields spell. */
  function Address(v: Vram): nat {
    v.tileX + 32 * v.tileY + 0x400 * v.ntX + 0x800 * v.ntY + 0x1000 * v.fineY
  }

  /** The pending bit s.nmi is taken back; a latched NMI stays. */
  lemma ReadFollows(p: Ppu, q: Ppu, s: Status, latch: bool)
    requires s == p.status.(nmi := s.nmi) && p.status.nmi == (s.nmi || latch)
    requires q == p.(status := q.status, reg := p.reg.(secondWrite := false))
    requires var f := FlagsRead(s, p.scanLine, p.dot); q.status == f.(nmi := f.nmi || latch)
    ensures q == Nmi(StatusRead(p), q.status.nmi) && (StatusRead(p).status.nmi ==> q.status.nmi)
  {
  }

  lemma ByteIgnoresNmi(s: Status, b: bool)
    ensures StatusByte(s.(nmi := b)) == StatusByte(s)
  {
  }

  lemma WritesIgnoreNmi(p: Ppu, b: bool, val: u8)
    ensures WriteMask(Nmi(p, b), val) == Nmi(WriteMask(p, val), b)
    ensures WriteScroll(Nmi(p, b), val) == Nmi(WriteScroll(p, val), b)
    ensures WriteAddr(Nmi(p, b), val) == Nmi(WriteAddr(p, val), b)
  {
  }

  lemma CtrlFollows(p: Ppu, q: Ppu, s: Status, latch: bool, val: u8)
    requires s == p.status.(nmi := s.nmi) && p.status.nmi == (s.nmi || latch)
    requires q == p.(status := q.status,
                     nmis := CtrlLogged(p.nmis, CtrlRaises(s, p.reg.ctrl, val, p.scanLine, p.dot)),
                     reg := p.reg.(ctrl := val, tmp := p.reg.tmp.(ntX := val % 2, ntY := val / 2 % 2)))
    requires var f := CtrlFlags(s, p.reg.ctrl, val, p.scanLine, p.dot); q.status == f.(nmi := f.nmi || latch)
    ensures q == Nmi(WriteCtrl(p, val), q.status.nmi) && (WriteCtrl(p, val).status.nmi ==> q.status.nmi)
  {
  }

  /** Two writes to $2006 set the address, the high byte first, its top two bits dropped. */
  lemma AddressWritten(p: Ppu, high: u8, low: u8)
    requires AtRest(p) && !p.reg.secondWrite
    ensures var q := WriteAddr(WriteAddr(p, high), low);
            Address(q.cur) == 0x100 * (high % 64) + low && !q.reg.secondWrite
  {
    hide Address;
    var t := p.reg.tmp;
    assert (t.tileY % 8 + 8 * (high % 4)) / 8 == high % 4;
    AddressOf(Vram(low % 32, 8 * (high % 4) + low / 32, high / 4 % 2, high / 8 % 2, high / 16 % 4), high, low);
  }

  lemma AddressOf(v: Vram, high: u8, low: u8)
    requires v == Vram(low % 32, 8 * (high % 4) + low / 32, high / 4 % 2, high / 8 % 2, high / 16 % 4)
    ensures Address(v) == 0x100 * (high % 64) + low
  {
    HighBits(high);
  }

  lemma HighBits(high: u8)
    ensures high % 64 == high % 4 + 4 * (high / 4 % 2) + 8 * (high / 8 % 2) + 16 * (high / 16 % 4)
  {
    var a, b, c := high / 4, high / 8, high / 16;
    Halved(high);
    assert high == high % 4 + 4 * a && a == a % 2 + 2 * b && b == b % 2 + 2 * c && c == c % 4 + 4 * (c / 4);
    DivModUnique(high, 64, c / 4, high % 4 + 4 * (a % 2) + 8 * (b % 2) + 16 * (c % 4));
  }

  lemma Halved(high: u8)
    ensures high / 8 == high / 4 / 2 && high / 16 == high / 8 / 2
  {
  }

  /** Two writes to $2005 set the scroll position, X first. */
  lemma ScrollWritten(p: Ppu, x: u8, y: u8)
    requires AtRest(p) && !p.reg.secondWrite
    ensures var q := WriteScroll(WriteScroll(p, x), y);
            && 8 * q.reg.tmp.tileX + q.reg.fineX == x && 8 * q.reg.tmp.tileY + q.reg.tmp.fineY == y
            && q.cur == p.cur && !q.reg.secondWrite
  {
  }

  /** No register access moves the beam, so the vblank prediction, which takes no account of the skipped dot,
    * stands.
    */
  lemma AccessKeepsPrediction(p: Ppu, val: u8)
    requires AtRest(p)
    ensures forall q | q in {StatusRead(p), WriteCtrl(p, val), WriteMask(p, val), WriteScroll(p, val),
                             WriteAddr(p, val), p.(oamAddr := val)} ::
              AtRest(q) && Position(q) == Position(p) && CyclesToNmi(q) == CyclesToNmi(p)
  {
  }
}
