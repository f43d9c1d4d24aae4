/** The eager machine: every cycle of the processor reaches both devices before the next one begins.
  *
  * There is no debt of cycles, no deadline and no catching up here.  CpuDevice.dfy proves that the
  * source's lazy synchronisation computes what this machine computes.
  */
module CpuReference {
  import opened Common
  import ApuTypes
  import ApuReference
  import ApuRegisters
  import PpuTypes
  import PpuReference
  import PpuRegisters
  import PpuDark

  const RAM_SIZE := 0x800
  const PRG_ADDR := 0x8000
  const PRG_BANK := 0x2000
  const OAM_SIZE := 0x100

  // --------------------------------------------------------------- the cartridge

  datatype BankWrite = BankWrite(addr: nat, val: u8)

  /** What the cartridge shows of its memory. */
  datatype Windows = Windows(prg: seq<u8>, patterns: seq<seq<u8>>, names: seq<seq<u8>>)

  ghost predicate ValidWindows(w: Windows) {
    && |w.prg| == 0x8000
    && |w.patterns| == 2 && (forall i :: 0 <= i < 2 ==> |w.patterns[i]| == 4096)
    && |w.names| == 4 && (forall i :: 0 <= i < 4 ==> |w.names[i]| == 1024)
  }

  /** A mapper is a function of the writes it has received. */
  type Cart = seq<BankWrite> -> Windows

  ghost predicate ValidCart(cart: Cart) { forall banks: seq<BankWrite> :: ValidWindows(cart(banks)) }

  // ----------------------------------------------------------------- the machine

  /** Both devices, the memory around them and the time.
    *
    * The NMI bit of the picture unit is one line here, up from the moment an NMI is raised until it is taken
    * back or taken.
    */
  datatype World = World(apu: ApuTypes.Apu, ppu: PpuTypes.Ppu, env: ApuTypes.Env, mem: PpuTypes.Mem,
                         ram: seq<u8>, banks: seq<BankWrite>, cycles: nat, dots: nat)

  ghost predicate ValidWorld(w: World) {
    && ApuTypes.ValidEnv(w.env) && PpuTypes.ValidMem(w.mem) && |w.ram| == RAM_SIZE
    && ApuReference.Inv(w.apu) && w.apu.outputMix == ApuReference.Mix(w.apu, w.env)
    && PpuTypes.AtRest(w.ppu)
  }

  /** What time alone does not change. */
  ghost predicate Around(w: World, v: World) { v.env == w.env && v.ram == w.ram && v.banks == w.banks }

  /** Cycles in which the processor leaves the bus alone. */
  ghost function Idle(w: World, k: nat): (v: World)
    requires ValidWorld(w)
    ensures ValidWorld(v)
    ensures v.mem == w.mem && Around(w, v) && v.cycles == w.cycles + k && v.dots == w.dots + 3 * k
  {
    hide ApuReference.Core, ApuReference.Mix, ApuTypes.ValidEnv, PpuTypes.ValidMem, PpuTypes.ValidPpu;
    w.(apu := ApuReference.Run(w.apu, w.env, k),
       ppu := PpuReference.Dots(w.ppu, w.mem, 3 * k),
       cycles := w.cycles + k, dots := w.dots + 3 * k)
  }

  lemma IdleAdds(w: World, m: nat, n: nat)
    requires ValidWorld(w)
    ensures Idle(Idle(w, m), n) == Idle(w, m + n)
  {
    hide ApuReference.Core, ApuReference.Mix, ApuTypes.ValidEnv, PpuTypes.ValidMem, PpuTypes.ValidPpu,
         ApuReference.Run, PpuReference.Dots;
    ApuReference.RunAdds(w.apu, w.env, m, n);
    PpuReference.DotsAdd(w.ppu, w.mem, 3 * m, 3 * n);
  }

  lemma NoIdle(w: World)
    requires ValidWorld(w)
    ensures Idle(w, 0) == w
  {
    hide ApuReference.Core, ApuReference.Mix, ApuTypes.ValidEnv, PpuTypes.ValidMem, PpuTypes.ValidPpu;
    assert ApuReference.Run(w.apu, w.env, 0) == w.apu;
    assert PpuReference.Dots(w.ppu, w.mem, 0) == w.ppu;
  }

  // ------------------------------------------------------------------------ loads

  predicate IsRam(addr: nat) { addr < 0x2000 }
  predicate IsPpu(addr: nat) { 0x2000 <= addr < 0x4000 }
  predicate IsPrg(addr: nat) { PRG_ADDR <= addr < 0x10000 }

  /** Addresses a program may load from: memory and the two status registers. */
  predicate CanLoad(addr: nat) {
    IsRam(addr) || (IsPpu(addr) && addr % 8 == 2) || addr == 0x4015 || IsPrg(addr)
  }

  datatype Loaded = Loaded(world: World, val: u8)

  function ApuStatus(a: ApuTypes.Apu): u8 {
    a.reg.status.(pulse1 := a.pulse1.lengthCounter != 0, pulse2 := a.pulse2.lengthCounter != 0,
                  triangle := a.triangle.lengthCounter != 0, noise := a.noise.lengthCounter != 0,
                  dmc := a.dmc.bytesRemaining != 0).Byte()
  }

  function Acknowledged(a: ApuTypes.Apu): ApuTypes.Apu {
    a.(reg := a.reg.(status := a.reg.status.(frameIrq := false)), irq := a.reg.status.dmcIrq)
  }

  lemma AcknowledgedInv(a: ApuTypes.Apu, env: ApuTypes.Env)
    requires ApuTypes.ValidEnv(env) && ApuReference.Inv(a)
    ensures ApuReference.Inv(Acknowledged(a))
    ensures ApuReference.Mix(Acknowledged(a), env) == ApuReference.Mix(a, env)
  {
  }

  /** What RAM and cartridge hold, RAM being seen four times over. */
  ghost function PlainByte(w: World, addr: nat): u8
    requires ValidWorld(w) && (IsRam(addr) || IsPrg(addr))
  {
    hide ApuReference.Inv, ApuReference.Mix, PpuTypes.AtRest, PpuTypes.ValidMem;
    if IsRam(addr) then w.ram[addr % RAM_SIZE] else w.env.prg[addr - PRG_ADDR]
  }

  /** The access itself, without its cycle. */
  ghost function Load(w: World, addr: nat): (l: Loaded)
    requires ValidWorld(w) && CanLoad(addr)
    ensures ValidWorld(l.world)
    ensures l.world == w.(apu := l.world.apu, ppu := l.world.ppu)
  {
    hide ApuReference.Core, ApuReference.Mix, PpuTypes.ValidMem, PpuTypes.ValidPpu;
    if IsRam(addr) || IsPrg(addr) then Loaded(w, PlainByte(w, addr))
    else if IsPpu(addr) then
      Loaded(w.(ppu := PpuRegisters.StatusRead(w.ppu)), PpuRegisters.StatusByte(w.ppu.status))
    else
      AcknowledgedInv(w.apu, w.env);
      Loaded(w.(apu := Acknowledged(w.apu)), ApuStatus(w.apu))
  }

  /** Two bytes from plain memory; the source lets the pair run past the end of RAM, a program does not. */
  predicate CanLoad16(addr: nat) {
    (IsRam(addr) && addr % RAM_SIZE != RAM_SIZE - 1) || IsPrg(addr)
  }

  ghost function PairAt(w: World, addr: nat): (pair: seq<u8>)
    requires ValidWorld(w) && CanLoad16(addr)
    ensures |pair| == 2
  {
    hide ValidWorld, PlainByte;
    [PlainByte(w, addr), PlainByte(w, Next(addr))]
  }

  /** Cycles a 16-bit load is charged: a pair that lies across two banks is counted twice over. */
  function Load16Cost(addr: nat): nat {
    if IsPrg(addr) && addr % PRG_BANK == PRG_BANK - 1 then 4 else 2
  }

  /** The address of the second byte. */
  function Next(addr: nat): nat { (addr + 1) % 0x10000 }

  // ----------------------------------------------------------------------- stores

  /** The register of the audio unit an address selects. */
  function ApuOffset(addr: nat): nat { if addr == 0x4017 then 0x18 else if addr >= 0x4000 then addr - 0x4000 else 0 }

  predicate IsApu(addr: nat) { 0x4000 <= addr <= 0x4013 || addr == 0x4015 || addr == 0x4017 }

  /** Stores a program may make: all but PPUDATA, sprite data while it is in use, and a transfer during which
    * the picture unit would move the address.
    */
  predicate CanStore(w: World, addr: nat, val: u8) {
    || IsRam(addr) || IsApu(addr) || IsPrg(addr)
    || (IsPpu(addr) && addr % 8 != 7 && (addr % 8 == 4 ==> !w.ppu.Enabled() || PpuRegisters.InVblank(w.ppu)))
    || (addr == 0x4014 && val < 8 && w.ppu.oamAddr == 0 && PpuDark.Resting(w.ppu, 3 * DmaCycles(w)))
  }

  function NextOamAddr(p: PpuTypes.Ppu): (q: PpuTypes.Ppu)
    ensures PpuTypes.AtRest(p) ==> PpuTypes.AtRest(q)
    ensures q.status == p.status
  {
    p.(oamAddr := (p.oamAddr + 1) % OAM_SIZE)
  }

  function OamStored(mem: PpuTypes.Mem, at: u8, val: u8): (m: PpuTypes.Mem)
    requires PpuTypes.ValidMem(mem)
    ensures PpuTypes.ValidMem(m) && |mem.oam| == OAM_SIZE
  {
    mem.(oam := mem.oam[at := val])
  }

  function StorePpu(w: World, reg: nat, val: u8): (v: World)
    requires PpuTypes.ValidMem(w.mem) && reg < 7
    ensures PpuTypes.AtRest(w.ppu) ==> PpuTypes.AtRest(v.ppu)
    ensures PpuTypes.ValidMem(v.mem) && v == w.(ppu := v.ppu, mem := v.mem)
  {
    match reg
    case 0 => w.(ppu := PpuRegisters.WriteCtrl(w.ppu, val))
    case 1 => w.(ppu := PpuRegisters.WriteMask(w.ppu, val))
    case 2 => w
    case 3 => w.(ppu := PpuDark.OamAt(w.ppu, val))
    case 4 => w.(mem := OamStored(w.mem, w.ppu.oamAddr, val), ppu := NextOamAddr(w.ppu))
    case 5 => w.(ppu := PpuRegisters.WriteScroll(w.ppu, val))
    case _ => w.(ppu := PpuRegisters.WriteAddr(w.ppu, val))
  }

  /** The byte at OAMADDR copied from a page of the RAM. */
  ghost function OamGiven(w: World, page: nat): (v: World)
    requires ValidWorld(w) && page < 8
    ensures ValidWorld(v)
  {
    hide ApuReference.Inv, ApuReference.Mix, PpuTypes.AtRest;
    w.(mem := OamStored(w.mem, w.ppu.oamAddr, w.ram[OAM_SIZE * page + w.ppu.oamAddr]))
  }

  /** One byte of a sprite page goes to OAM, in two cycles. */
  ghost function DmaStep(w: World, page: nat): (v: World)
    requires ValidWorld(w) && page < 8
    ensures ValidWorld(v)
    ensures Around(w, v) && v.cycles == w.cycles + 2 && v.dots == w.dots + 6
  {
    hide ApuReference.Inv, ApuReference.Mix, ApuTypes.ValidEnv, PpuTypes.AtRest, PpuTypes.ValidMem, OamStored,
         Idle;
    var t := Idle(OamGiven(w, page), 2);
    t.(ppu := NextOamAddr(t.ppu))
  }

  /** The first n bytes of the page copied. */
  ghost function DmaCopied(w: World, page: nat, n: nat): (v: World)
    requires ValidWorld(w) && page < 8 && n <= OAM_SIZE
    ensures ValidWorld(v)
    ensures Around(w, v) && v.cycles == w.cycles + 2 * n && v.dots == w.dots + 6 * n
  {
    hide ValidWorld, DmaStep;
    if n == 0 then w else DmaStep(DmaCopied(w, page, n - 1), page)
  }

  /** ppu.c:432-462: 513 cycles, or 514 when it starts in an odd one. */
  ghost function Dma(w: World, page: nat): (v: World)
    requires ValidWorld(w) && page < 8
    ensures ValidWorld(v)
    ensures Around(w, v) && v.cycles == w.cycles + DmaCycles(w) && v.dots == w.dots + 3 * DmaCycles(w)
  {
    hide ValidWorld, DmaCopied, Idle;
    Idle(DmaCopied(w, page, OAM_SIZE), 1 + w.cycles % 2)
  }

  function DmaCycles(w: World): nat { 513 + w.cycles % 2 }

  ghost function Bank(w: World, cart: Cart, addr: nat, val: u8): (v: World)
    requires ValidWorld(w) && ValidCart(cart)
    ensures ValidWorld(v)
  {
    hide ApuReference.Inv;
    var banks := w.banks + [BankWrite(addr, val)];
    var windows := cart(banks);
    w.(banks := banks, env := w.env.(prg := windows.prg),
       mem := w.mem.(patterns := windows.patterns, names := windows.names))
  }

  /** The access itself, without its cycle. */
  ghost function Store(w: World, cart: Cart, addr: nat, val: u8): (v: World)
    requires ValidWorld(w) && ValidCart(cart) && CanStore(w, addr, val)
    ensures ValidWorld(v)
    ensures addr != 0x4014 ==> v.cycles == w.cycles && v.dots == w.dots
  {
    hide ApuReference.Inv, ApuReference.Mix, ApuReference.Refresh, ApuRegisters.Write, ApuTypes.ValidEnv,
         PpuTypes.ValidPpu, PpuTypes.ValidMem, Dma, StorePpu;
    if IsRam(addr) then w.(ram := w.ram[addr % RAM_SIZE := val])
    else if IsPpu(addr) then StorePpu(w, addr % 8, val)
    else if addr == 0x4014 then Dma(w, val)
    else if IsApu(addr) then
      ApuRegisters.WriteKeepsInv(w.apu, w.env, ApuOffset(addr), val);
      ApuChannelsValid(w.apu);
      w.(apu := ApuReference.Refresh(ApuRegisters.Write(w.apu, ApuOffset(addr), val), w.env))
    else Bank(w, cart, addr, val)
  }

  lemma ApuChannelsValid(a: ApuTypes.Apu)
    requires ApuReference.Inv(a)
    ensures ApuReference.ValidChannels(a)
  {
  }
}
