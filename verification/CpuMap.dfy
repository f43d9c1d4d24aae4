/** What each address of the processor's bus is for, said in addresses and bytes.
  */
module CpuMap {
  import opened Common
  import opened CpuReference
  import ApuTypes
  import ApuChannels
  import ApuReference
  import ApuRegisters
  import ApuClocks
  import ApuSweep
  import PpuTypes
  import PpuReference
  import PpuRegisters
  import PpuDark

  // -------------------------------------------------------------------------- memory

  /** A byte stored below $2000 is loaded again from all four copies of its place, and from nowhere else. */
  lemma RamReadBack(w: World, cart: Cart, addr: nat, val: u8, addr': nat)
    requires ValidWorld(w) && ValidCart(cart) && addr < 0x2000 && addr' < 0x2000
    ensures CanStore(w, addr, val) && CanLoad(addr')
    ensures Load(Store(w, cart, addr, val), addr').val ==
            if addr' % 0x800 == addr % 0x800 then val else Load(w, addr').val
  {
    hide ApuReference.Inv, ApuReference.Mix, ApuTypes.ValidEnv, PpuTypes.AtRest, PpuTypes.ValidMem, ValidCart;
  }

  /** From $8000 on the cartridge's bytes are loaded, low byte first where two are wanted; a store there is the
    * cartridge's to make something of.
    */
  lemma CartridgeBytes(w: World, cart: Cart, addr: nat, val: u8)
    requires ValidWorld(w) && ValidCart(cart) && 0x8000 <= addr < 0x10000
    ensures CanLoad(addr) && CanStore(w, addr, val) && |w.env.prg| == 0x8000
    ensures Load(w, addr) == Loaded(w, w.env.prg[addr - 0x8000])
    ensures addr < 0xFFFF ==> CanLoad16(addr) && PairAt(w, addr) == w.env.prg[addr - 0x8000..addr - 0x7FFE]
    ensures var v := Store(w, cart, addr, val);
            && v.banks == w.banks + [BankWrite(addr, val)] && v.env.prg == cart(v.banks).prg
            && v.mem.patterns == cart(v.banks).patterns && v.mem.names == cart(v.banks).names
            && v.apu == w.apu && v.ppu == w.ppu && v.ram == w.ram && v.mem.oam == w.mem.oam
            && v.mem.palette == w.mem.palette
  {
    hide ApuReference.Inv, ApuReference.Mix, PpuTypes.AtRest, ValidCart;
  }

  // ------------------------------------------------------------- the picture registers

  /** $2000, $2001, $2003 and $2004, repeated every eight bytes up to $3FFF. */
  lemma PictureStores(w: World, cart: Cart, addr: nat, val: u8)
    requires ValidWorld(w) && ValidCart(cart) && 0x2000 <= addr < 0x4000 && CanStore(w, addr, val)
    ensures |w.mem.oam| == 256
    ensures var v := Store(w, cart, addr, val);
            && v.apu == w.apu && v.ram == w.ram && v.env == w.env && v.banks == w.banks
            && v.ppu.reg.ctrl == (if addr % 8 == 0 then val else w.ppu.reg.ctrl)
            && v.ppu.reg.mask == (if addr % 8 == 1 then val else w.ppu.reg.mask)
            && v.ppu.oamAddr == (if addr % 8 == 3 then val
                                 else if addr % 8 == 4 then (w.ppu.oamAddr + 1) % 256 else w.ppu.oamAddr)
            && v.mem == w.mem.(oam := if addr % 8 == 4 then w.mem.oam[w.ppu.oamAddr := val] else w.mem.oam)
            && (addr % 8 != 5 && addr % 8 != 6 ==>
                  && v.ppu.cur == w.ppu.cur && v.ppu.reg.fineX == w.ppu.reg.fineX
                  && v.ppu.reg.secondWrite == w.ppu.reg.secondWrite
                  && v.ppu.reg.tmp == if addr % 8 == 0 then w.ppu.reg.tmp.(ntX := val % 2, ntY := val / 2 % 2)
                                      else w.ppu.reg.tmp)
  {
    hide ApuReference.Inv, ApuReference.Mix, ApuTypes.ValidEnv, PpuTypes.AtRest, ValidCart, PpuRegisters.CtrlFlags,
         PpuRegisters.CtrlRaises;
  }

  /** Two stores to $2006, or a mirror of it, set the address, the high byte first; two to $2005 the scroll position, X
    * first.
    */
  lemma AddressAndScroll(w: World, cart: Cart, addr: nat, addr': nat, first: u8, second: u8)
    requires ValidWorld(w) && ValidCart(cart) && !w.ppu.reg.secondWrite
    requires 0x2000 <= addr < 0x4000 && 0x2000 <= addr' < 0x4000 && addr % 8 == addr' % 8 && addr % 8 in {5, 6}
    ensures CanStore(w, addr, first) && CanStore(Store(w, cart, addr, first), addr', second)
    ensures var p := Store(Store(w, cart, addr, first), cart, addr', second).ppu;
            && !p.reg.secondWrite
            && (addr % 8 == 6 ==>
                  && p.cur == p.reg.tmp
                  && p.cur.tileX + 32 * p.cur.tileY + 0x400 * p.cur.ntX + 0x800 * p.cur.ntY + 0x1000 * p.cur.fineY ==
                     0x100 * (first % 64) + second)
            && (addr % 8 == 5 ==>
                  && p.cur == w.ppu.cur
                  && 8 * p.reg.tmp.tileX + p.reg.fineX == first && 8 * p.reg.tmp.tileY + p.reg.tmp.fineY == second)
  {
    hide ApuReference.Inv, ApuReference.Mix, ApuTypes.ValidEnv, PpuTypes.AtRest, PpuTypes.ValidMem, ValidCart,
         PpuRegisters.WriteAddr, PpuRegisters.WriteScroll;
    PpuRegisters.AddressWritten(w.ppu, first, second);
    PpuRegisters.ScrollWritten(w.ppu, first, second);
    AddressCurrent(w.ppu, first, second);
  }

  lemma AddressCurrent(p: PpuTypes.Ppu, first: u8, second: u8)
    requires !p.reg.secondWrite
    ensures var q := PpuRegisters.WriteAddr(PpuRegisters.WriteAddr(p, first), second); q.cur == q.reg.tmp
  {
  }

  /** $2002, in every mirror, tells of the vertical blank, the sprite-0 hit and the overflow, ends the blank's flag and
    * makes the next write of an address or a scroll position the first.
    */
  lemma StatusLoaded(w: World, addr: nat)
    requires ValidWorld(w) && 0x2000 <= addr < 0x4000 && addr % 8 == 2
    ensures CanLoad(addr)
    ensures var l := Load(w, addr);
            && l.val / 128 == (if w.ppu.status.vblank then 1 else 0)
            && l.val / 64 % 2 == (if w.ppu.status.sprite0 then 1 else 0)
            && l.val / 32 % 2 == (if w.ppu.status.overflow then 1 else 0)
            && !l.world.ppu.status.vblank && !l.world.ppu.reg.secondWrite
            && l.val % 32 == (if w.ppu.status.readRace then 1 else 0)
            && l.world.ppu.status.nmi == (w.ppu.status.nmi && !(w.ppu.scanLine == 241 && w.ppu.dot in {2, 3}))
            && l.world.ppu.status.readRace == (w.ppu.status.readRace || (w.ppu.scanLine == 241 && w.ppu.dot == 1))
            && l.world.ppu.status.sprite0 == w.ppu.status.sprite0
            && l.world.ppu.status.overflow == w.ppu.status.overflow
            && l.world == w.(ppu := w.ppu.(status := l.world.ppu.status, reg := l.world.ppu.reg))
            && l.world.ppu.reg == w.ppu.reg.(secondWrite := false)
  {
    hide ApuReference.Inv, ApuReference.Mix, ApuTypes.ValidEnv, PpuTypes.AtRest, PpuTypes.ValidMem;
  }

  /** The NMI enable bit of $2000: switched on while the vertical blank's flag is up it raises an NMI, switched off it
    * takes one back; and the grey bit of $2001.
    */
  lemma NmiAndGreyStored(w: World, cart: Cart, addr: nat, val: u8)
    requires ValidWorld(w) && ValidCart(cart) && 0x2000 <= addr < 0x4000 && addr % 8 < 2
    ensures CanStore(w, addr, val)
    ensures var v, s := Store(w, cart, addr, val).ppu, w.ppu.status;
            var up := s.vblank && !(w.ppu.scanLine == 261 && w.ppu.dot == 1);
            if addr % 8 == 0 then
              && v.status == s.(vblank := up, nmi := if val / 128 == w.ppu.reg.ctrl / 128 then s.nmi
                                                     else val >= 128 && up)
              && v.nmis.raised == w.ppu.nmis.raised + if val >= 128 && w.ppu.reg.ctrl < 128 && up then 1 else 0
            else
              && v.status == s && v.nmis == w.ppu.nmis
              && v.reg.greyscale == if val % 2 != w.ppu.reg.mask % 2 then val % 2 == 1 else w.ppu.reg.greyscale
  {
    hide ApuReference.Inv, ApuReference.Mix, ApuTypes.ValidEnv, PpuTypes.AtRest, PpuTypes.ValidMem, ValidCart;
  }

  // --------------------------------------------------------------- the audio registers

  lemma AudioStore(w: World, cart: Cart, addr: nat, val: u8, offs: nat)
    requires ValidWorld(w) && ValidCart(cart) && IsApu(addr)
    requires offs == if addr == 0x4017 then 0x18 else addr - 0x4000
    ensures CanStore(w, addr, val) && ApuReference.ValidChannels(w.apu) && ApuRegisters.IsRegister(offs)
    ensures var v := Store(w, cart, addr, val);
            && v == w.(apu := v.apu)
            && v.apu == ApuReference.Refresh(ApuRegisters.Write(w.apu, offs, val), w.env)
  {
    hide ApuReference.Core, ApuReference.Mix, ApuTypes.ValidEnv, PpuTypes.AtRest, PpuTypes.ValidMem, ValidCart,
         ApuReference.Refresh, ApuRegisters.Write;
    ApuChannelsValid(w.apu);
  }

  /** $4000 to $4013 keep the byte in the place of their address, $4009 and $400D none. */
  lemma AudioRegisters(w: World, cart: Cart, addr: nat, val: u8)
    requires ValidWorld(w) && ValidCart(cart) && 0x4000 <= addr <= 0x4013
    ensures CanStore(w, addr, val)
    ensures var v, r, s := Store(w, cart, addr, val), w.apu.reg, Store(w, cart, addr, val).apu.reg;
            && v == w.(apu := v.apu)
            && s.pulse1.r0 == (if addr == 0x4000 then val else r.pulse1.r0)
            && s.pulse1.r1 == (if addr == 0x4001 then val else r.pulse1.r1)
            && s.pulse1.r2 == (if addr == 0x4002 then val else r.pulse1.r2)
            && s.pulse1.r3 == (if addr == 0x4003 then val else r.pulse1.r3)
            && s.pulse2.r0 == (if addr == 0x4004 then val else r.pulse2.r0)
            && s.pulse2.r1 == (if addr == 0x4005 then val else r.pulse2.r1)
            && s.pulse2.r2 == (if addr == 0x4006 then val else r.pulse2.r2)
            && s.pulse2.r3 == (if addr == 0x4007 then val else r.pulse2.r3)
            && s.triangle.r0 == (if addr == 0x4008 then val else r.triangle.r0)
            && s.triangle.r2 == (if addr == 0x400A then val else r.triangle.r2)
            && s.triangle.r3 == (if addr == 0x400B then val else r.triangle.r3)
            && s.noise.r0 == (if addr == 0x400C then val else r.noise.r0)
            && s.noise.r2 == (if addr == 0x400E then val else r.noise.r2)
            && s.noise.r3 == (if addr == 0x400F then val else r.noise.r3)
            && s.dmc.r0 == (if addr == 0x4010 then val else r.dmc.r0)
            && s.dmc.r1 == (if addr == 0x4011 then val else r.dmc.r1)
            && s.dmc.sampleAddr == (if addr == 0x4012 then val else r.dmc.sampleAddr)
            && s.dmc.sampleLen == (if addr == 0x4013 then val else r.dmc.sampleLen)
            && s.frame == r.frame
            && s.status == r.status.(dmcIrq := r.status.dmcIrq && !(addr == 0x4010 && val < 128))
  {
    hide ApuReference.Inv, ApuReference.Mix, ApuTypes.ValidEnv, PpuTypes.AtRest, PpuTypes.ValidMem, ValidCart,
         ApuReference.Refresh, ApuRegisters.Write;
    AudioStore(w, cart, addr, val, addr - 0x4000);
    RefreshKeepsRegisters(ApuRegisters.Write(w.apu, addr - 0x4000, val), w.env);
    RegisterWritten(w.apu, addr - 0x4000, val);
  }

  lemma RefreshKeepsRegisters(a: ApuTypes.Apu, env: ApuTypes.Env)
    requires ApuTypes.ValidEnv(env) && ApuReference.ValidChannels(a)
    ensures var b := ApuReference.Refresh(a, env);
            && b.reg == a.reg && b.irq == a.irq && b.frame == a.frame && b.dmc == a.dmc && b.cycles2x == a.cycles2x
            && b.pulse1 == a.pulse1.(output := b.pulse1.output) && b.pulse2 == a.pulse2.(output := b.pulse2.output)
            && b.triangle == a.triangle.(output := b.triangle.output) && b.noise == a.noise.(output := b.noise.output)
  {
    hide ApuReference.ValidChannels, ApuReference.Mix, ApuReference.CachesAgree;
  }

  /** The register file after a write. */
  ghost predicate Stored(r: ApuTypes.Regs, s: ApuTypes.Regs, offs: nat, val: u8) {
    && s.pulse1 == (if offs == 0 then r.pulse1.(r0 := val) else if offs == 1 then r.pulse1.(r1 := val)
                    else if offs == 2 then r.pulse1.(r2 := val) else if offs == 3 then r.pulse1.(r3 := val)
                    else r.pulse1)
    && s.pulse2 == (if offs == 4 then r.pulse2.(r0 := val) else if offs == 5 then r.pulse2.(r1 := val)
                    else if offs == 6 then r.pulse2.(r2 := val) else if offs == 7 then r.pulse2.(r3 := val)
                    else r.pulse2)
    && s.triangle == (if offs == 8 then r.triangle.(r0 := val) else if offs == 10 then r.triangle.(r2 := val)
                      else if offs == 11 then r.triangle.(r3 := val) else r.triangle)
    && s.noise == (if offs == 12 then r.noise.(r0 := val) else if offs == 14 then r.noise.(r2 := val)
                   else if offs == 15 then r.noise.(r3 := val) else r.noise)
    && s.dmc == (if offs == 16 then r.dmc.(r0 := val) else if offs == 17 then r.dmc.(r1 := val)
                 else if offs == 18 then r.dmc.(sampleAddr := val) else if offs == 19 then r.dmc.(sampleLen := val)
                 else r.dmc)
    && s.frame == r.frame
    && s.status == r.status.(dmcIrq := r.status.dmcIrq && !(offs == 16 && val < 128))
  }

  lemma RegisterWritten(a: ApuTypes.Apu, offs: nat, val: u8)
    requires ApuReference.ValidChannels(a) && offs <= 19
    ensures Stored(a.reg, ApuRegisters.Write(a, offs, val).reg, offs, val)
  {
    hide ApuChannels.ValidPulse, ApuChannels.ValidTriangle, ApuChannels.ValidNoise, ApuChannels.ValidDmc,
         ApuReference.Flush, ApuReference.SweepTarget;
    if offs < 8 {
      PulseWritten(a, offs >= 4, offs % 4, val);
    }
  }

  lemma PulseWritten(a: ApuTypes.Apu, second: bool, r: nat, val: u8)
    requires ApuReference.ValidChannels(a) && r < 4
    ensures Stored(a.reg, ApuRegisters.WritePulse(a, second, r, val).reg, if second then r + 4 else r, val)
  {
    hide ApuChannels.ValidPulse, ApuChannels.ValidTriangle, ApuChannels.ValidNoise, ApuChannels.ValidDmc,
         ApuReference.Flush, ApuReference.SweepTarget;
  }

  /** $4015 switches the channels: one whose bit is clear is cut off, the DMC starts its sample over if it is at its
    * end, and the DMC's interrupt is taken back.
    */
  lemma ChannelsSwitched(w: World, cart: Cart, val: u8)
    requires ValidWorld(w) && ValidCart(cart)
    ensures CanStore(w, 0x4015, val)
    ensures var v, a, b := Store(w, cart, 0x4015, val), w.apu, Store(w, cart, 0x4015, val).apu;
            && v == w.(apu := b)
            && b.pulse1.lengthCounter == (if val % 2 == 0 then 0 else a.pulse1.lengthCounter)
            && b.pulse2.lengthCounter == (if val / 2 % 2 == 0 then 0 else a.pulse2.lengthCounter)
            && b.triangle.lengthCounter == (if val / 4 % 2 == 0 then 0 else a.triangle.lengthCounter)
            && b.noise.lengthCounter == (if val / 8 % 2 == 0 then 0 else a.noise.lengthCounter)
            && b.dmc.bytesRemaining == (if val / 16 % 2 == 0 then 0
                                        else if a.dmc.bytesRemaining > 0 then a.dmc.bytesRemaining
                                        else 16 * a.reg.dmc.sampleLen + 1)
            && b.dmc.currAddr == (if val / 16 % 2 == 1 && a.dmc.bytesRemaining == 0
                                  then 0xC000 + 64 * a.reg.dmc.sampleAddr - 0x8000 else a.dmc.currAddr)
            && b.reg.status.pulse1 == (val % 2 == 1) && b.reg.status.pulse2 == (val / 2 % 2 == 1)
            && b.reg.status.triangle == (val / 4 % 2 == 1) && b.reg.status.noise == (val / 8 % 2 == 1)
            && b.reg.status.dmc == (val / 16 % 2 == 1)
            && b.reg.status.frameIrq == a.reg.status.frameIrq && !b.reg.status.dmcIrq
            && b.irq == a.reg.status.frameIrq
            && b.reg == a.reg.(status := b.reg.status) && b.frame == a.frame
  {
    hide ApuReference.Inv, ApuReference.Mix, ApuTypes.ValidEnv, PpuTypes.AtRest, PpuTypes.ValidMem, ValidCart,
         ApuReference.Refresh, ApuRegisters.WritePulse, ApuRegisters.WriteTriangle, ApuRegisters.WriteNoise,
         ApuRegisters.WriteDmc, ApuReference.ValidChannels;
    AudioStore(w, cart, 0x4015, val, 0x15);
    RefreshKeepsRegisters(ApuRegisters.Write(w.apu, 0x15, val), w.env);
  }

  /** $4017 sets the mode of the sequencer, restarts it three or four cycles later and may take back the interrupt. */
  lemma SequencerSet(w: World, cart: Cart, val: u8)
    requires ValidWorld(w) && ValidCart(cart)
    ensures CanStore(w, 0x4017, val)
    ensures var v, a, b := Store(w, cart, 0x4017, val), w.apu, Store(w, cart, 0x4017, val).apu;
            && v == w.(apu := b)
            && b.reg == a.reg.(frame := ApuTypes.FrameReg(val), status := b.reg.status)
            && b.frame == a.frame.(resetDelay := if a.cycles2x % 2 == 1 then 3 else 4)
            && b.reg.status == a.reg.status.(frameIrq := a.reg.status.frameIrq && val / 64 % 2 == 0)
            && b.irq == (if val / 64 % 2 == 0 then a.irq else a.reg.status.dmcIrq)
            && b.pulse1.lengthCounter == a.pulse1.lengthCounter && b.pulse2.lengthCounter == a.pulse2.lengthCounter
            && b.triangle.lengthCounter == a.triangle.lengthCounter && b.noise.lengthCounter == a.noise.lengthCounter
  {
    hide ApuReference.Inv, ApuReference.Mix, ApuTypes.ValidEnv, PpuTypes.AtRest, PpuTypes.ValidMem, ValidCart,
         ApuReference.Refresh, ApuRegisters.WritePulse, ApuRegisters.WriteTriangle, ApuRegisters.WriteNoise,
         ApuRegisters.WriteDmc, ApuRegisters.WriteStatus, ApuReference.ValidChannels;
    AudioStore(w, cart, 0x4017, val, 0x18);
    RefreshKeepsRegisters(ApuRegisters.Write(w.apu, 0x18, val), w.env);
  }

  /** $4015 loaded tells which channels have something left to play and which interrupts are up, and takes back the one
    * of the sequencer.
    */
  lemma ChannelsTold(w: World)
    requires ValidWorld(w)
    ensures CanLoad(0x4015)
    ensures var l, a := Load(w, 0x4015), w.apu;
            && (l.val % 2 == 1 <==> a.pulse1.lengthCounter > 0) && (l.val / 2 % 2 == 1 <==> a.pulse2.lengthCounter > 0)
            && (l.val / 4 % 2 == 1 <==> a.triangle.lengthCounter > 0)
            && (l.val / 8 % 2 == 1 <==> a.noise.lengthCounter > 0)
            && (l.val / 16 % 2 == 1 <==> a.dmc.bytesRemaining > 0)
            && (l.val / 64 % 2 == 1 <==> a.reg.status.frameIrq) && (l.val / 128 == 1 <==> a.reg.status.dmcIrq)
            && l.world == w.(apu := l.world.apu)
            && l.world.apu == a.(reg := a.reg.(status := a.reg.status.(frameIrq := false)),
                                 irq := a.reg.status.dmcIrq)
  {
    hide ApuReference.Inv, ApuReference.Mix, ApuTypes.ValidEnv, PpuTypes.AtRest, PpuTypes.ValidMem,
         ApuTypes.Status.Byte;
    var a := w.apu;
    BitsTold(a.reg.status.(pulse1 := a.pulse1.lengthCounter != 0, pulse2 := a.pulse2.lengthCounter != 0,
                           triangle := a.triangle.lengthCounter != 0, noise := a.noise.lengthCounter != 0,
                           dmc := a.dmc.bytesRemaining != 0));
  }

  lemma BitsTold(s: ApuTypes.Status)
    ensures var b := s.Byte();
            && (b % 2 == 1 <==> s.pulse1) && (b / 2 % 2 == 1 <==> s.pulse2) && (b / 4 % 2 == 1 <==> s.triangle)
            && (b / 8 % 2 == 1 <==> s.noise) && (b / 16 % 2 == 1 <==> s.dmc)
            && (b / 64 % 2 == 1 <==> s.frameIrq) && (b / 128 == 1 <==> s.dmcIrq)
  {
    EightBits(if s.pulse1 then 1 else 0, if s.pulse2 then 1 else 0, if s.triangle then 1 else 0,
              if s.noise then 1 else 0, if s.dmc then 1 else 0, if s.unused then 1 else 0,
              if s.frameIrq then 1 else 0, if s.dmcIrq then 1 else 0);
  }

  lemma EightBits(b0: nat, b1: nat, b2: nat, b3: nat, b4: nat, b5: nat, b6: nat, b7: nat)
    requires b0 < 2 && b1 < 2 && b2 < 2 && b3 < 2 && b4 < 2 && b5 < 2 && b6 < 2 && b7 < 2
    ensures var b := b0 + 2 * b1 + 4 * b2 + 8 * b3 + 16 * b4 + 32 * b5 + 64 * b6 + 128 * b7;
            && b % 2 == b0 && b / 2 % 2 == b1 && b / 4 % 2 == b2 && b / 8 % 2 == b3 && b / 16 % 2 == b4
            && b / 64 % 2 == b6 && b / 128 == b7
  {
    var b := b0 + 2 * b1 + 4 * b2 + 8 * b3 + 16 * b4 + 32 * b5 + 64 * b6 + 128 * b7;
    assert b / 2 == b1 + 2 * b2 + 4 * b3 + 8 * b4 + 16 * b5 + 32 * b6 + 64 * b7;
    assert b / 4 == b2 + 2 * b3 + 4 * b4 + 8 * b5 + 16 * b6 + 32 * b7;
    assert b / 8 == b3 + 2 * b4 + 4 * b5 + 8 * b6 + 16 * b7;
    assert b / 16 == b4 + 2 * b5 + 4 * b6 + 8 * b7;
    assert b / 64 == b6 + 2 * b7;
  }

  // ------------------------------------------------------------------ notes and timers

  /** The length of a note by the upper five bits of $4003, $4007, $400B or $400F. */
  const NOTE_LENGTHS: seq<nat> :=
    [10, 254, 20, 2, 40, 4, 80, 6, 160, 8, 60, 10, 14, 12, 26, 14,
     12, 16, 24, 18, 48, 20, 96, 22, 192, 24, 72, 26, 16, 28, 32, 30]

  /** Its byte begins a note on a channel that is switched on: the length is that of the table, and the envelope starts
    * or the linear counter is reloaded; on a channel that is off only the latter happens.  No clock is waiting here.
    */
  lemma NoteBegins(w: World, cart: Cart, addr: nat, val: u8)
    requires ValidWorld(w) && ValidCart(cart) && addr in {0x4003, 0x4007, 0x400B, 0x400F}
    requires !w.apu.frame.pendingQuarter && !w.apu.frame.pendingHalf
    ensures CanStore(w, addr, val) && val / 8 < 32
    ensures var a, b, on, length := w.apu, Store(w, cart, addr, val).apu, w.apu.reg.status, NOTE_LENGTHS[val / 8];
            && b.pulse1.lengthCounter ==
               (if addr == 0x4003 && on.pulse1 then length else a.pulse1.lengthCounter)
            && b.pulse2.lengthCounter ==
               (if addr == 0x4007 && on.pulse2 then length else a.pulse2.lengthCounter)
            && b.triangle.lengthCounter ==
               (if addr == 0x400B && on.triangle then length else a.triangle.lengthCounter)
            && b.noise.lengthCounter ==
               (if addr == 0x400F && on.noise then length else a.noise.lengthCounter)
            && b.pulse1.envelope.startFlag == (addr == 0x4003 || a.pulse1.envelope.startFlag)
            && b.pulse2.envelope.startFlag == (addr == 0x4007 || a.pulse2.envelope.startFlag)
            && b.noise.envelope.startFlag == (addr == 0x400F || a.noise.envelope.startFlag)
            && b.triangle.linearReload == (addr == 0x400B || a.triangle.linearReload)
            && b.pulse1.dutyIdx == (if addr == 0x4003 then 0 else a.pulse1.dutyIdx)
            && b.pulse2.dutyIdx == (if addr == 0x4007 then 0 else a.pulse2.dutyIdx)
  {
    hide ApuReference.Inv, ApuReference.Mix, ApuTypes.ValidEnv, PpuTypes.AtRest, PpuTypes.ValidMem, ValidCart,
         ApuReference.Refresh, ApuReference.ValidChannels, ApuRegisters.WritePulse, ApuRegisters.WriteTriangle,
         ApuRegisters.WriteNoise, ApuRegisters.WriteDmc;
    AudioStore(w, cart, addr, val, addr - 0x4000);
    RefreshKeepsRegisters(ApuRegisters.Write(w.apu, addr - 0x4000, val), w.env);
    if addr == 0x4003 || addr == 0x4007 {
      PulseBegins(w.apu, addr == 0x4007, val);
    } else {
      OthersBegin(w.apu, val);
    }
  }

  lemma TableOfLengths(i: nat)
    requires i < 32
    ensures ApuRegisters.Length(i) == NOTE_LENGTHS[i]
  {
  }

  lemma NothingWaits(a: ApuTypes.Apu)
    requires ApuReference.ValidChannels(a) && !a.frame.pendingQuarter && !a.frame.pendingHalf
    ensures ApuReference.Flush(a) == a
  {
    hide ApuReference.ValidChannels, ApuReference.QuarterFrame, ApuReference.HalfFrame;
  }

  lemma AimKeeps(p: ApuTypes.Pulse, reg: ApuTypes.PulseReg, isPulse1: bool)
    requires ApuChannels.ValidPulse(p)
    ensures ApuReference.SweepTarget(p, reg, isPulse1) ==
            p.(sweep := ApuReference.SweepTarget(p, reg, isPulse1).sweep)
  {
  }

  lemma PulseBegins(a: ApuTypes.Apu, second: bool, val: u8)
    requires ApuReference.ValidChannels(a) && !a.frame.pendingQuarter && !a.frame.pendingHalf
    ensures val / 8 < 32
    ensures var b := ApuRegisters.WritePulse(a, second, 3, val);
            var p, q := ApuRegisters.PulseOf(a, second), ApuRegisters.PulseOf(b, second);
            && q == p.(lengthCounter := if (if second then a.reg.status.pulse2 else a.reg.status.pulse1)
                                        then NOTE_LENGTHS[val / 8] else p.lengthCounter,
                       envelope := p.envelope.(startFlag := true), dutyIdx := 0,
                       timer := q.timer, sweep := q.sweep)
            && ApuRegisters.PulseOf(b, !second) == ApuRegisters.PulseOf(a, !second)
            && b.triangle == a.triangle && b.noise == a.noise
  {
    hide ApuChannels.ValidTriangle, ApuChannels.ValidNoise, ApuChannels.ValidDmc, ApuReference.Flush,
         ApuReference.SweepTarget, ApuRegisters.Length;
    TableOfLengths(val / 8);
    var reg := ApuRegisters.PulseRegOf(a, second).(r3 := val);
    var p := ApuRegisters.Retimed(ApuRegisters.PulseOf(a, second), reg).(dutyIdx := 0);
    var b := ApuRegisters.SetPulse(ApuRegisters.SetPulseReg(a, second, reg), second, p);
    NothingWaits(b);
    var on := if second then a.reg.status.pulse2 else a.reg.status.pulse1;
    AimKeeps(p.(lengthCounter := if on then NOTE_LENGTHS[val / 8] else p.lengthCounter,
                envelope := p.envelope.(startFlag := true)), reg, !second);
  }

  lemma OthersBegin(a: ApuTypes.Apu, val: u8)
    requires ApuReference.ValidChannels(a) && !a.frame.pendingQuarter && !a.frame.pendingHalf
    ensures val / 8 < 32
    ensures var b, t := ApuRegisters.WriteTriangle(a, 3, val), a.triangle;
            && b.triangle == t.(lengthCounter := if a.reg.status.triangle then NOTE_LENGTHS[val / 8]
                                                 else t.lengthCounter,
                                linearReload := true, timer := b.triangle.timer)
            && b.pulse1 == a.pulse1 && b.pulse2 == a.pulse2 && b.noise == a.noise
    ensures var b, n := ApuRegisters.WriteNoise(a, 3, val), a.noise;
            && b.noise == n.(lengthCounter := if a.reg.status.noise then NOTE_LENGTHS[val / 8] else n.lengthCounter,
                             envelope := n.envelope.(startFlag := true))
            && b.pulse1 == a.pulse1 && b.pulse2 == a.pulse2 && b.triangle == a.triangle
  {
    hide ApuChannels.ValidPulse, ApuChannels.ValidNoise, ApuChannels.ValidDmc, ApuReference.Flush, ApuRegisters.Length;
    TableOfLengths(val / 8);
    var reg := a.reg.triangle.(r3 := val);
    NothingWaits(a.(reg := a.reg.(triangle := reg),
                    triangle := a.triangle.(timer := a.triangle.timer.(period := reg.TimerPeriod()))));
    NothingWaits(a.(reg := a.reg.(noise := a.reg.noise.(r3 := val))));
  }

  /** A half clock that waits when a note begins: if it has something to count down it comes after the note and the
    * note is lost, otherwise the note stands.
    */
  lemma NoteMeetsClock(w: World, cart: Cart, addr: nat, val: u8)
    requires ValidWorld(w) && ValidCart(cart) && addr in {0x4003, 0x4007, 0x400B, 0x400F}
    ensures CanStore(w, addr, val) && val / 8 < 32
    ensures var a, b, length := w.apu, Store(w, cart, addr, val).apu, NOTE_LENGTHS[val / 8];
            && (addr == 0x4003 && a.reg.status.pulse1 ==>
                  b.pulse1.lengthCounter ==
                  Met(a.pulse1.lengthCounter, a.frame.pendingHalf && a.reg.pulse1.r0 / 32 % 2 == 0, length))
            && (addr == 0x4007 && a.reg.status.pulse2 ==>
                  b.pulse2.lengthCounter ==
                  Met(a.pulse2.lengthCounter, a.frame.pendingHalf && a.reg.pulse2.r0 / 32 % 2 == 0, length))
            && (addr == 0x400B && a.reg.status.triangle ==>
                  b.triangle.lengthCounter ==
                  Met(a.triangle.lengthCounter, a.frame.pendingHalf && a.reg.triangle.r0 < 128, length))
            && (addr == 0x400F && a.reg.status.noise ==>
                  b.noise.lengthCounter ==
                  Met(a.noise.lengthCounter, a.frame.pendingHalf && a.reg.noise.r0 / 32 % 2 == 0, length))
  {
    hide ApuReference.Inv, ApuReference.Mix, ApuTypes.ValidEnv, PpuTypes.AtRest, PpuTypes.ValidMem, ValidCart,
         ApuReference.Refresh, ApuReference.ValidChannels, ApuRegisters.WritePulse, ApuRegisters.WriteTriangle,
         ApuRegisters.WriteNoise, ApuRegisters.WriteDmc;
    AudioStore(w, cart, addr, val, addr - 0x4000);
    RefreshKeepsRegisters(ApuRegisters.Write(w.apu, addr - 0x4000, val), w.env);
    if addr == 0x4003 || addr == 0x4007 {
      PulseMeets(w.apu, addr == 0x4007, val);
    } else {
      OthersMeet(w.apu, val);
    }
  }

  function Met(before: nat, counts: bool, length: nat): nat {
    if counts && before > 0 then before - 1 else length
  }

  lemma PulseMeets(a: ApuTypes.Apu, second: bool, val: u8)
    requires ApuReference.ValidChannels(a)
    ensures val / 8 < 32
    ensures var p, b := ApuRegisters.PulseOf(a, second), ApuRegisters.WritePulse(a, second, 3, val);
            var q := ApuRegisters.PulseOf(b, second);
            (if second then a.reg.status.pulse2 else a.reg.status.pulse1) ==>
              q.lengthCounter ==
              Met(p.lengthCounter, a.frame.pendingHalf && ApuRegisters.PulseRegOf(a, second).r0 / 32 % 2 == 0,
                  NOTE_LENGTHS[val / 8])
  {
    hide ApuChannels.ValidTriangle, ApuChannels.ValidNoise, ApuChannels.ValidDmc, ApuReference.Flush,
         ApuReference.SweepTarget, ApuRegisters.Length;
    TableOfLengths(val / 8);
    var reg := ApuRegisters.PulseRegOf(a, second).(r3 := val);
    var p := ApuRegisters.Retimed(ApuRegisters.PulseOf(a, second), reg).(dutyIdx := 0);
    var b := ApuRegisters.SetPulse(ApuRegisters.SetPulseReg(a, second, reg), second, p);
    ApuClocks.FlushLengths(b);
    var q := ApuRegisters.PulseOf(ApuReference.Flush(b), second);
    var length := ApuRegisters.Reloaded(ApuRegisters.PulseOf(a, second).lengthCounter, q.lengthCounter,
                                        NOTE_LENGTHS[val / 8]);
    AimKeeps(q.(lengthCounter := length, envelope := q.envelope.(startFlag := true)), reg, !second);
  }

  lemma OthersMeet(a: ApuTypes.Apu, val: u8)
    requires ApuReference.ValidChannels(a)
    ensures val / 8 < 32
    ensures a.reg.status.triangle ==>
              ApuRegisters.WriteTriangle(a, 3, val).triangle.lengthCounter ==
              Met(a.triangle.lengthCounter, a.frame.pendingHalf && a.reg.triangle.r0 < 128, NOTE_LENGTHS[val / 8])
    ensures a.reg.status.noise ==>
              ApuRegisters.WriteNoise(a, 3, val).noise.lengthCounter ==
              Met(a.noise.lengthCounter, a.frame.pendingHalf && a.reg.noise.r0 / 32 % 2 == 0, NOTE_LENGTHS[val / 8])
  {
    hide ApuChannels.ValidPulse, ApuChannels.ValidNoise, ApuChannels.ValidDmc, ApuReference.Flush, ApuRegisters.Length;
    TableOfLengths(val / 8);
    var reg := a.reg.triangle.(r3 := val);
    ApuClocks.FlushLengths(a.(reg := a.reg.(triangle := reg),
                              triangle := a.triangle.(timer := a.triangle.timer.(period := reg.TimerPeriod()))));
    ApuClocks.FlushLengths(a.(reg := a.reg.(noise := a.reg.noise.(r3 := val))));
  }

  /** A clock that waits when the halt bit is stored ($4000, $4004, $4008, $400C) still goes by the old bit. */
  lemma HaltMeetsClock(w: World, cart: Cart, addr: nat, val: u8)
    requires ValidWorld(w) && ValidCart(cart) && addr in {0x4000, 0x4004, 0x4008, 0x400C}
    ensures CanStore(w, addr, val)
    ensures var a, b, half := w.apu, Store(w, cart, addr, val).apu, w.apu.frame.pendingHalf;
            && b.pulse1.lengthCounter == Counted(a.pulse1.lengthCounter, half && a.reg.pulse1.r0 / 32 % 2 == 0)
            && b.pulse2.lengthCounter == Counted(a.pulse2.lengthCounter, half && a.reg.pulse2.r0 / 32 % 2 == 0)
            && b.triangle.lengthCounter == Counted(a.triangle.lengthCounter, half && a.reg.triangle.r0 < 128)
            && b.noise.lengthCounter == Counted(a.noise.lengthCounter, half && a.reg.noise.r0 / 32 % 2 == 0)
            && !b.frame.pendingHalf && !b.frame.pendingQuarter
  {
    hide ApuReference.Inv, ApuReference.Mix, ApuTypes.ValidEnv, PpuTypes.AtRest, PpuTypes.ValidMem, ValidCart,
         ApuReference.Refresh, ApuReference.ValidChannels, ApuReference.Flush;
    AudioStore(w, cart, addr, val, addr - 0x4000);
    RefreshKeepsRegisters(ApuRegisters.Write(w.apu, addr - 0x4000, val), w.env);
    ApuClocks.FlushLengths(w.apu);
  }

  function Counted(length: nat, counts: bool): nat { if counts && length > 0 then length - 1 else length }

  /** The rates of the noise channel and of the DMC by the low four bits of $400E and $4010, in cycles of the unit. */
  const NOISE_RATES: seq<nat> := [2, 4, 8, 16, 32, 48, 64, 80, 101, 127, 190, 254, 381, 508, 1017, 2034]
  const SAMPLE_RATES: seq<nat> := [214, 190, 170, 160, 143, 127, 113, 107, 95, 80, 71, 64, 53, 42, 36, 27]

  /** The periods: 11 bits from two registers each for the pulses and the triangle, from a table for the noise and the
    * DMC, whose level $4011 sets directly.  No clock is waiting here.
    */
  lemma PeriodsStored(w: World, cart: Cart, addr: nat, val: u8)
    requires ValidWorld(w) && ValidCart(cart) && 0x4000 <= addr <= 0x4013
    requires !w.apu.frame.pendingQuarter && !w.apu.frame.pendingHalf
    ensures CanStore(w, addr, val)
    ensures var a, b, r := w.apu, Store(w, cart, addr, val).apu, w.apu.reg;
            && b.pulse1.timer.period == (if addr == 0x4002 then r.pulse1.r3 % 8 * 256 + val
                                         else if addr == 0x4003 then val % 8 * 256 + r.pulse1.r2
                                         else a.pulse1.timer.period)
            && b.pulse2.timer.period == (if addr == 0x4006 then r.pulse2.r3 % 8 * 256 + val
                                         else if addr == 0x4007 then val % 8 * 256 + r.pulse2.r2
                                         else a.pulse2.timer.period)
            && b.triangle.timer.period == (if addr == 0x400A then r.triangle.r3 % 8 * 256 + val
                                           else if addr == 0x400B then val % 8 * 256 + r.triangle.r2
                                           else a.triangle.timer.period)
            && b.noise.timer.period == (if addr == 0x400E then NOISE_RATES[val % 16] else a.noise.timer.period)
            && b.dmc.timer.period == (if addr == 0x4010 then SAMPLE_RATES[val % 16] else a.dmc.timer.period)
            && b.dmc.outputLevel == (if addr == 0x4011 then val % 128 else a.dmc.outputLevel)
  {
    hide ApuReference.Inv, ApuReference.Mix, ApuTypes.ValidEnv, PpuTypes.AtRest, PpuTypes.ValidMem, ValidCart,
         ApuReference.Refresh, ApuReference.ValidChannels, ApuRegisters.Write;
    AudioStore(w, cart, addr, val, addr - 0x4000);
    RefreshKeepsRegisters(ApuRegisters.Write(w.apu, addr - 0x4000, val), w.env);
    PeriodsWritten(w.apu, addr - 0x4000, val);
  }

  ghost predicate Retimed(a: ApuTypes.Apu, b: ApuTypes.Apu, offs: nat, val: u8) {
    var r := a.reg;
    && b.pulse1.timer.period == (if offs == 2 then r.pulse1.r3 % 8 * 256 + val
                                 else if offs == 3 then val % 8 * 256 + r.pulse1.r2 else a.pulse1.timer.period)
    && b.pulse2.timer.period == (if offs == 6 then r.pulse2.r3 % 8 * 256 + val
                                 else if offs == 7 then val % 8 * 256 + r.pulse2.r2 else a.pulse2.timer.period)
    && b.triangle.timer.period == (if offs == 10 then r.triangle.r3 % 8 * 256 + val
                                   else if offs == 11 then val % 8 * 256 + r.triangle.r2
                                   else a.triangle.timer.period)
    && b.noise.timer.period == (if offs == 14 then NOISE_RATES[val % 16] else a.noise.timer.period)
    && b.dmc.timer.period == (if offs == 16 then SAMPLE_RATES[val % 16] else a.dmc.timer.period)
    && b.dmc.outputLevel == (if offs == 17 then val % 128 else a.dmc.outputLevel)
  }

  lemma PeriodsWritten(a: ApuTypes.Apu, offs: nat, val: u8)
    requires ApuReference.ValidChannels(a) && offs < 20 && !a.frame.pendingQuarter && !a.frame.pendingHalf
    ensures Retimed(a, ApuRegisters.Write(a, offs, val), offs, val)
  {
    hide ApuReference.ValidChannels, ApuRegisters.WritePulse, ApuRegisters.WriteTriangle, ApuRegisters.WriteNoise,
         ApuRegisters.WriteDmc;
    if offs < 8 {
      PulsePeriod(a, offs >= 4, offs % 4, val);
    } else {
      OtherPeriods(a, offs % 4, val);
    }
  }

  lemma PulsePeriod(a: ApuTypes.Apu, second: bool, r: nat, val: u8)
    requires ApuReference.ValidChannels(a) && r < 4 && !a.frame.pendingQuarter && !a.frame.pendingHalf
    ensures var b, reg := ApuRegisters.WritePulse(a, second, r, val), ApuRegisters.PulseRegOf(a, second);
            && ApuRegisters.PulseOf(b, second).timer.period ==
               (if r == 2 then reg.r3 % 8 * 256 + val else if r == 3 then val % 8 * 256 + reg.r2
                else ApuRegisters.PulseOf(a, second).timer.period)
            && ApuRegisters.PulseOf(b, !second) == ApuRegisters.PulseOf(a, !second)
            && b.triangle == a.triangle && b.noise == a.noise && b.dmc == a.dmc
  {
    hide ApuChannels.ValidTriangle, ApuChannels.ValidNoise, ApuChannels.ValidDmc, ApuReference.Flush,
         ApuReference.SweepTarget, ApuRegisters.Length;
    NothingWaits(a);
    var p, reg := ApuRegisters.PulseOf(a, second), ApuRegisters.PulseRegOf(a, second);
    if r == 1 {
      AimKeeps(p.(sweep := p.sweep.(reload := true)), reg.(r1 := val), !second);
    } else if r == 2 {
      AimKeeps(ApuRegisters.Retimed(p, reg.(r2 := val)), reg.(r2 := val), !second);
    } else if r == 3 {
      PulseTimed(a, second, val);
    }
  }

  lemma PulseTimed(a: ApuTypes.Apu, second: bool, val: u8)
    requires ApuReference.ValidChannels(a) && !a.frame.pendingQuarter && !a.frame.pendingHalf
    ensures var b, reg := ApuRegisters.WritePulse(a, second, 3, val), ApuRegisters.PulseRegOf(a, second);
            && ApuRegisters.PulseOf(b, second).timer.period == val % 8 * 256 + reg.r2
            && ApuRegisters.PulseOf(b, !second) == ApuRegisters.PulseOf(a, !second)
            && b.triangle == a.triangle && b.noise == a.noise && b.dmc == a.dmc
  {
    hide ApuChannels.ValidTriangle, ApuChannels.ValidNoise, ApuChannels.ValidDmc, ApuReference.Flush,
         ApuReference.SweepTarget, ApuRegisters.Length;
    var reg := ApuRegisters.PulseRegOf(a, second).(r3 := val);
    var p := ApuRegisters.Retimed(ApuRegisters.PulseOf(a, second), reg).(dutyIdx := 0);
    NothingWaits(ApuRegisters.SetPulse(ApuRegisters.SetPulseReg(a, second, reg), second, p));
    var on := if second then a.reg.status.pulse2 else a.reg.status.pulse1;
    AimKeeps(p.(lengthCounter := if on then ApuRegisters.Length(reg.LengthIndex()) else p.lengthCounter,
                envelope := p.envelope.(startFlag := true)), reg, !second);
  }

  lemma OtherPeriods(a: ApuTypes.Apu, r: nat, val: u8)
    requires ApuReference.ValidChannels(a) && r < 4 && !a.frame.pendingQuarter && !a.frame.pendingHalf
    ensures var b := ApuRegisters.WriteTriangle(a, r, val);
            && b.triangle.timer.period == (if r == 2 then a.reg.triangle.r3 % 8 * 256 + val
                                           else if r == 3 then val % 8 * 256 + a.reg.triangle.r2
                                           else a.triangle.timer.period)
            && b.pulse1 == a.pulse1 && b.pulse2 == a.pulse2 && b.noise == a.noise && b.dmc == a.dmc
    ensures var b := ApuRegisters.WriteNoise(a, r, val);
            && b.noise.timer.period == (if r == 2 then NOISE_RATES[val % 16] else a.noise.timer.period)
            && b.pulse1 == a.pulse1 && b.pulse2 == a.pulse2 && b.triangle == a.triangle && b.dmc == a.dmc
    ensures var b := ApuRegisters.WriteDmc(a, r, val);
            && b.dmc.timer.period == (if r == 0 then SAMPLE_RATES[val % 16] else a.dmc.timer.period)
            && b.dmc.outputLevel == (if r == 1 then val % 128 else a.dmc.outputLevel)
            && b.pulse1 == a.pulse1 && b.pulse2 == a.pulse2 && b.triangle == a.triangle && b.noise == a.noise
  {
    hide ApuChannels.ValidPulse, ApuChannels.ValidNoise, ApuReference.Flush, ApuRegisters.Length,
         ApuRegisters.NoisePeriod, ApuRegisters.DmcRate;
    TableOfRates(val % 16);
    NothingWaits(a);
    var reg := a.reg.triangle.(r3 := val);
    NothingWaits(a.(reg := a.reg.(triangle := reg),
                    triangle := a.triangle.(timer := a.triangle.timer.(period := reg.TimerPeriod()))));
    NothingWaits(a.(reg := a.reg.(noise := a.reg.noise.(r3 := val))));
  }

  lemma TableOfRates(i: nat)
    requires i < 16
    ensures ApuRegisters.NoisePeriod(i) == NOISE_RATES[i] && ApuRegisters.DmcRate(i) == SAMPLE_RATES[i]
  {
  }

  /** The sweep of a pulse aims at the period and its 2^s-th part more, or less if bit 3 is set, the first pulse then
    * one below that; the pulse is mute if its period is below 8 or the aim above 11 bits.
    */
  lemma SweepAims(w: World, cart: Cart, addr: nat, val: u8)
    requires ValidWorld(w) && ValidCart(cart) && addr in {0x4001, 0x4002, 0x4003, 0x4005, 0x4006, 0x4007}
    ensures CanStore(w, addr, val)
    ensures var b := Store(w, cart, addr, val).apu;
            var p, r1 := if addr < 0x4004 then b.pulse1 else b.pulse2,
                         if addr < 0x4004 then b.reg.pulse1.r1 else b.reg.pulse2.r1;
            var part := p.timer.period / [1, 2, 4, 8, 16, 32, 64, 128][r1 % 8];
            var aim := if r1 / 8 % 2 == 0 then p.timer.period + part
                       else if addr < 0x4004 then p.timer.period - part - 1 else p.timer.period - part;
            && p.sweep.targetPeriod == (if aim < 0 then 0 else aim)
            && (p.sweep.mute <==> p.timer.period < 8 || aim > 0x7FF)
            && (addr % 4 == 1 ==> p.sweep.reload)
  {
    hide ApuReference.Inv, ApuReference.Mix, ApuTypes.ValidEnv, PpuTypes.AtRest, PpuTypes.ValidMem, ValidCart,
         ApuReference.Refresh, ApuReference.ValidChannels, ApuRegisters.WritePulse, ApuRegisters.WriteTriangle,
         ApuRegisters.WriteNoise, ApuRegisters.WriteDmc;
    AudioStore(w, cart, addr, val, addr - 0x4000);
    RefreshKeepsRegisters(ApuRegisters.Write(w.apu, addr - 0x4000, val), w.env);
    PulseAims(w.apu, addr >= 0x4004, addr % 4, val);
  }

  lemma PulseAims(a: ApuTypes.Apu, second: bool, r: nat, val: u8)
    requires ApuReference.ValidChannels(a) && 0 < r < 4
    ensures var b := ApuRegisters.WritePulse(a, second, r, val);
            var p := ApuRegisters.PulseOf(b, second);
            && ApuSweep.Aimed(p, ApuRegisters.PulseRegOf(b, second).r1, !second) && (r == 1 ==> p.sweep.reload)
  {
    hide ApuChannels.ValidTriangle, ApuChannels.ValidNoise, ApuChannels.ValidDmc, ApuReference.Flush,
         ApuReference.SweepTarget, ApuRegisters.Length, ApuSweep.Aimed;
    var p, reg := ApuRegisters.PulseOf(a, second), ApuRegisters.PulseRegOf(a, second);
    if r == 1 {
      ApuSweep.Aims(p.(sweep := p.sweep.(reload := true)), reg.(r1 := val), !second);
    } else if r == 2 {
      ApuSweep.Aims(ApuRegisters.Retimed(p, reg.(r2 := val)), reg.(r2 := val), !second);
    } else {
      NoteAims(a, second, val);
    }
  }

  lemma NoteAims(a: ApuTypes.Apu, second: bool, val: u8)
    requires ApuReference.ValidChannels(a)
    ensures var b := ApuRegisters.WritePulse(a, second, 3, val);
            ApuSweep.Aimed(ApuRegisters.PulseOf(b, second), ApuRegisters.PulseRegOf(b, second).r1, !second)
  {
    hide ApuChannels.ValidTriangle, ApuChannels.ValidNoise, ApuChannels.ValidDmc, ApuReference.Flush,
         ApuReference.SweepTarget, ApuRegisters.Length, ApuSweep.Aimed;
    var p, reg := ApuRegisters.PulseOf(a, second), ApuRegisters.PulseRegOf(a, second).(r3 := val);
    var b := ApuRegisters.SetPulse(ApuRegisters.SetPulseReg(a, second, reg), second,
                                   ApuRegisters.Retimed(p, reg).(dutyIdx := 0));
    var on := if second then a.reg.status.pulse2 else a.reg.status.pulse1;
    var c := if on then ApuReference.Flush(b) else b;
    var q := ApuRegisters.PulseOf(c, second);
    var length := if on then ApuRegisters.Reloaded(p.lengthCounter, q.lengthCounter,
                                                   ApuRegisters.Length(reg.LengthIndex()))
                  else q.lengthCounter;
    ApuSweep.Aims(q.(lengthCounter := length, envelope := q.envelope.(startFlag := true)), reg, !second);
  }
}
