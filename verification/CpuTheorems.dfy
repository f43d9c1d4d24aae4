/** What the lazy synchronisation may be relied on for.
  */
module CpuTheorems {
  import opened Common
  import opened CpuReference
  import opened CpuProgram
  import ApuTypes
  import ApuReference
  import ApuRegisters
  import ApuTheorems
  import PpuTypes
  import PpuReference
  import PpuDark
  import CpuDevice

  // -------------------------------------------------------------------- lockstep

  /** Cycles the audio unit has carried out and dots the picture unit has been given keep step with the
    * processor's count.
    */
  ghost predicate InStep(v: World, w: World) {
    && w.cycles - v.cycles == w.apu.cycles2x - v.apu.cycles2x
    && 3 * (w.cycles - v.cycles) == w.dots - v.dots
  }

  lemma IdleInStep(w: World, k: nat)
    requires ValidWorld(w)
    ensures InStep(w, Idle(w, k))
  {
    hide ApuReference.Core, ApuReference.Mix, ApuTypes.ValidEnv, PpuTypes.AtRest, PpuTypes.ValidMem,
         ApuReference.Run, PpuReference.Dots;
    ApuTheorems.SampleRateExact(w.apu, w.env, k);
  }

  lemma {:induction false} DmaInStep(w: World, page: nat, n: nat)
    requires ValidWorld(w) && page < 8 && n <= OAM_SIZE
    ensures InStep(w, DmaCopied(w, page, n))
  {
    hide ValidWorld, Idle, OamStored;
    if n > 0 {
      DmaInStep(w, page, n - 1);
      GivenInStep(DmaCopied(w, page, n - 1), page);
    }
  }

  lemma GivenInStep(w: World, page: nat)
    requires ValidWorld(w) && page < 8
    ensures InStep(w, DmaStep(w, page))
  {
    hide ValidWorld, Idle, OamStored;
    GivenSameTime(w, page);
    IdleInStep(OamGiven(w, page), 2);
  }

  lemma GivenSameTime(w: World, page: nat)
    requires ValidWorld(w) && page < 8
    ensures ValidWorld(OamGiven(w, page)) && InStep(w, OamGiven(w, page))
  {
    hide ApuReference.Inv, ApuReference.Mix, PpuTypes.AtRest;
  }

  lemma LoadInStep(w: World, addr: nat)
    requires ValidWorld(w) && CanLoad(addr)
    ensures InStep(w, Load(w, addr).world)
  {
    hide ApuReference.Core, ApuReference.Mix, ApuTypes.ValidEnv, PpuTypes.AtRest, PpuTypes.ValidMem;
  }

  lemma StoreInStep(w: World, cart: Cart, addr: nat, val: u8)
    requires ValidWorld(w) && ValidCart(cart) && CanStore(w, addr, val)
    ensures InStep(w, Store(w, cart, addr, val))
  {
    hide ApuReference.Core, ApuReference.Mix, ApuReference.Refresh, ApuRegisters.Write, ApuTypes.ValidEnv,
         PpuTypes.AtRest, PpuTypes.ValidMem, Dma;
    if addr == 0x4014 {
      CpuDevice.StoreIsDma(w, cart, val);
      WholeDmaInStep(w, val);
    } else if IsApu(addr) {
      ApuRegisters.WriteKeepsInv(w.apu, w.env, ApuOffset(addr), val);
    }
  }

  lemma WholeDmaInStep(w: World, page: nat)
    requires ValidWorld(w) && page < 8
    ensures InStep(w, Dma(w, page))
  {
    hide ValidWorld, Idle, DmaCopied;
    DmaInStep(w, page, OAM_SIZE);
    IdleInStep(DmaCopied(w, page, OAM_SIZE), 1 + w.cycles % 2);
  }

  lemma EffectInStep(w: World, log: seq<u8>, d: Debt, cart: Cart, acc: Access)
    requires ValidWorld(w) && ValidDebt(d) && ValidCart(cart) && Admits(w, acc)
    ensures InStep(w, Effect(w, log, d, cart, acc).world)
  {
    hide ApuReference.Inv, ApuReference.Mix, PpuTypes.AtRest, PpuTypes.ValidMem, ValidCart, CanStore, Load, Store,
         ValidDebt, DebtAfter;
    match acc
    case Read(addr) => LoadInStep(w, addr);
    case Write(addr, val) => StoreInStep(w, cart, addr, val);
    case _ =>
  }

  /** Both machines of a run stand, and keep step. */
  ghost predicate Together(o: Run, p: Run) { o.Going? && p.Going? && InStep(o.world, p.world) }

  lemma TouchInStep(o: Run, cart: Cart, acc: Access)
    requires ValidRun(o) && ValidCart(cart)
    ensures Touch(o, cart, acc).Going? ==> Together(o, Touch(o, cart, acc))
    ensures QuietTouch(o, cart, acc).Going? ==> Together(o, QuietTouch(o, cart, acc))
  {
    hide ValidWorld, ValidDebt, ValidCart, Effect, Idle, Spending;
    if o.Going? {
      IdleInStep(o.world, Cost(acc));
      var w := Idle(o.world, Cost(acc));
      if Admits(w, acc) {
        EffectInStep(w, o.log, Spending(o.debt, Cost(acc)), cart, acc);
      }
      if IsQuiet(acc) {
        EffectInStep(o.world, o.log, o.debt, cart, acc);
      }
    }
  }

  lemma {:induction false} BodyInStep(o: Run, cart: Cart, body: Body, n: nat)
    requires ValidRun(o) && ValidCart(cart)
    ensures Touched(o, cart, body, n).Going? ==> Together(o, Touched(o, cart, body, n))
    ensures QuietlyTouched(o, cart, body, n).Going? ==> Together(o, QuietlyTouched(o, cart, body, n))
  {
    hide ValidRun, ValidCart, Touch, QuietTouch;
    if n > 0 {
      BodyInStep(o, cart, body, n - 1);
      var p, q := Touched(o, cart, body, n - 1), QuietlyTouched(o, cart, body, n - 1);
      if p.Going? {
        TouchInStep(p, cart, body(n - 1, p.log));
      }
      if q.Going? {
        TouchInStep(q, cart, body(n - 1, q.log));
      }
    }
  }

  lemma InsnInStep(o: Run, cart: Cart, insn: Insn)
    requires ValidRun(o) && ValidCart(cart)
    ensures Execute(o, cart, insn).Going? ==> Together(o, Execute(o, cart, insn))
  {
    hide ValidWorld, ValidDebt, ValidCart, Touched, QuietlyTouched, Idle, Ticked;
    BodyInStep(o, cart, insn.body, insn.count);
    if insn.Fixed? {
      var p := QuietlyTouched(o, cart, insn.body, insn.count);
      if p.Going? {
        IdleInStep(p.world, insn.cycles(p.log));
      }
    }
  }

  lemma ServedInStep(o: Run)
    requires ValidRun(o)
    ensures o.Going? ==> Together(o, Served(o))
  {
    hide ValidWorld, ValidDebt;
  }

  lemma PassInStep(o: Run, cart: Cart, prog: Program, i: nat, poll: Poll)
    requires ValidRun(o) && ValidCart(cart)
    ensures Iterate(o, cart, prog, i, poll).Going? ==> Together(o, Iterate(o, cart, prog, i, poll))
  {
    hide ValidRun, ValidCart, Execute, Served;
    ServedInStep(o);
    InsnInStep(Served(o), cart, prog.nmi);
    var p := AtIrqPoll(o, cart, prog, poll.nmi);
    InsnInStep(p, cart, prog.irq);
    var q := TakeIf(p, cart, poll.irq, prog.irq);
    if q.Going? {
      InsnInStep(q, cart, prog.insn(i, q.log));
    }
  }

  /** Over every run both devices execute exactly the cycles the processor counts, DMA included. */
  lemma {:induction false} RunInStep(o: Run, cart: Cart, prog: Program, polls: seq<Poll>)
    requires ValidRun(o) && ValidCart(cart)
    ensures Iterated(o, cart, prog, polls).Going? ==> Together(o, Iterated(o, cart, prog, polls))
    decreases |polls|
  {
    hide ValidRun, ValidCart, Iterate;
    if polls != [] {
      var last := |polls| - 1;
      RunInStep(o, cart, prog, polls[..last]);
      PassInStep(Iterated(o, cart, prog, polls[..last]), cart, prog, last, polls[last]);
    }
  }

  /** The cycles an instruction spends: one an access, two a pair, and a sprite transfer's own. */
  ghost function Spent(o: Run, cart: Cart, body: Body, n: nat): nat
    requires ValidRun(o) && ValidCart(cart)
  {
    if n == 0 then 0
    else
      var p := Touched(o, cart, body, n - 1);
      Spent(o, cart, body, n - 1) + if p.Going? then Charged(p, body(n - 1, p.log)) else 0
  }

  ghost function Charged(p: Run, acc: Access): nat
    requires p.Going?
  {
    Cost(acc) + if acc.Write? && acc.addr == 0x4014 then 513 + (p.world.cycles + 1) % 2 else 0
  }

  lemma TouchTakes(p: Run, cart: Cart, acc: Access)
    requires ValidRun(p) && ValidCart(cart) && Touch(p, cart, acc).Going?
    ensures Touch(p, cart, acc).world.cycles == p.world.cycles + Charged(p, acc)
  {
    hide ApuReference.Inv, ApuReference.Mix, PpuTypes.AtRest, PpuTypes.ValidMem, ValidCart, Idle, CanStore, Load,
         Store, ValidDebt, Spending, DebtAfter;
    var w := Idle(p.world, Cost(acc));
    if acc.Write? && acc.addr == 0x4014 {
      CpuDevice.StoreIsDma(w, cart, acc.val);
    }
  }

  /** What one access takes: nothing, one cycle, two for a pair, four for a pair across two program banks, and for a
    * store to $4014 its own cycle and 513 more, or 514 if the transfer begins in an odd one.
    */
  lemma AccessTakes(p: Run, cart: Cart, acc: Access)
    requires ValidRun(p) && ValidCart(cart) && Touch(p, cart, acc).Going?
    ensures Touch(p, cart, acc).world.cycles - p.world.cycles ==
            match acc
            case Rest => 0
            case Read16(addr) => if addr in {0x9FFF, 0xBFFF, 0xDFFF, 0xFFFF} then 4 else 2
            case Write(addr, val) => if addr == 0x4014 then 514 + (p.world.cycles + 1) % 2 else 1
            case _ => 1
  {
    hide ValidRun, ValidCart, Touch;
    TouchTakes(p, cart, acc);
    if acc.Read16? {
      BankEnds(p, cart, acc.addr);
    }
  }

  lemma BankEnds(p: Run, cart: Cart, addr: nat)
    requires ValidRun(p) && ValidCart(cart) && Touch(p, cart, Read16(addr)).Going?
    ensures Load16Cost(addr) == if addr in {0x9FFF, 0xBFFF, 0xDFFF, 0xFFFF} then 4 else 2
  {
    hide ValidWorld, ValidDebt, ValidCart, Effect, Idle, Spending;
  }

  /** Wherever inside it the devices caught up, an IORW instruction takes the cycles of its accesses. */
  lemma {:induction false} IorwTakes(o: Run, cart: Cart, body: Body, n: nat)
    requires ValidRun(o) && ValidCart(cart) && Touched(o, cart, body, n).Going?
    ensures Touched(o, cart, body, n).world.cycles == o.world.cycles + Spent(o, cart, body, n)
  {
    hide ValidRun, ValidCart, Touch, Cost;
    if n > 0 {
      IorwTakes(o, cart, body, n - 1);
      var p := Touched(o, cart, body, n - 1);
      TouchTakes(p, cart, body(n - 1, p.log));
    }
  }

  // ------------------------------------------------------------ the sprite transfer

  /** OAM with its first n bytes taken from a page of the RAM. */
  function PageOver(oam: seq<u8>, ram: seq<u8>, page: nat, n: nat): (o: seq<u8>)
    requires |oam| == OAM_SIZE && |ram| == RAM_SIZE && page < 8 && n <= OAM_SIZE
    ensures |o| == OAM_SIZE
  {
    ram[OAM_SIZE * page..OAM_SIZE * page + n] + oam[n..]
  }

  /** w with OAM filled and its address moved. */
  ghost function Placed(w: World, oam: seq<u8>, a: u8): (v: World)
    requires ValidWorld(w) && |oam| == OAM_SIZE
    ensures ValidWorld(v)
  {
    hide ApuReference.Inv, ApuReference.Mix, PpuTypes.AtRest;
    w.(mem := PpuDark.Filled(w.mem, oam), ppu := PpuDark.OamAt(w.ppu, a))
  }

  /** While the picture unit rests time and OAM do not touch each other. */
  lemma IdleResting(w: World, oam: seq<u8>, a: u8, k: nat, left: nat)
    requires ValidWorld(w) && |oam| == OAM_SIZE && PpuDark.Resting(w.ppu, 3 * k + left)
    ensures Idle(Placed(w, oam, a), k) == Placed(Idle(w, k), oam, a)
    ensures PpuDark.Resting(Idle(w, k).ppu, left) && Idle(w, k).ppu.oamAddr == w.ppu.oamAddr
  {
    hide ApuReference.Inv, ApuReference.Mix, ApuTypes.ValidEnv, PpuTypes.ValidPpu, ApuReference.Run,
         PpuReference.Dots;
    PpuDark.RestingDots(w.ppu, w.mem, oam, a, 3 * k, left);
    RunIgnoresOam(w, oam, a, k);
  }

  lemma RunIgnoresOam(w: World, oam: seq<u8>, a: u8, k: nat)
    requires ValidWorld(w) && |oam| == OAM_SIZE
    ensures Idle(Placed(w, oam, a), k).apu == Idle(w, k).apu
  {
    hide ApuReference.Inv, ApuReference.Mix, ApuTypes.ValidEnv, PpuTypes.AtRest, PpuTypes.ValidMem,
         ApuReference.Run, PpuReference.Dots;
  }

  lemma GivenPlaced(w: World, oam: seq<u8>, page: nat, n: nat)
    requires ValidWorld(w) && |oam| == OAM_SIZE && page < 8 && n < OAM_SIZE
    ensures OamGiven(Placed(w, PageOver(oam, w.ram, page, n), n), page) ==
            Placed(w, PageOver(oam, w.ram, page, n + 1), n)
  {
    hide ApuReference.Inv, ApuReference.Mix, ApuTypes.ValidEnv, PpuTypes.AtRest;
    var before, after := PageOver(oam, w.ram, page, n), PageOver(oam, w.ram, page, n + 1);
    assert before[n := w.ram[OAM_SIZE * page + n]] == after;
  }

  /** The machine that idled as long, with n bytes of the page in OAM. */
  ghost function Copied(w: World, page: nat, n: nat): (v: World)
    requires ValidWorld(w) && page < 8 && n <= OAM_SIZE
    ensures ValidWorld(v)
  {
    hide ApuReference.Inv, ApuReference.Mix, ApuTypes.ValidEnv, PpuTypes.AtRest, Idle, Placed, PageOver;
    Placed(Idle(w, 2 * n), PageOver(w.mem.oam, w.ram, page, n), n % OAM_SIZE)
  }

  lemma {:induction false} CopiedIsPlaced(w: World, page: nat, n: nat)
    requires ValidWorld(w) && page < 8 && n <= OAM_SIZE && w.ppu.oamAddr == 0
    requires PpuDark.Resting(w.ppu, 6 * n)
    ensures DmaCopied(w, page, n) == Copied(w, page, n)
  {
    hide ValidWorld, Idle, PpuDark.Resting, Copied, DmaStep;
    if n == 0 {
      NoneCopied(w, page);
    } else {
      PpuDark.RestingShorter(w.ppu, 6 * n, 6 * (n - 1));
      CopiedIsPlaced(w, page, n - 1);
      OneMoreCopied(w, page, n - 1);
    }
  }

  lemma NoneCopied(w: World, page: nat)
    requires ValidWorld(w) && page < 8 && w.ppu.oamAddr == 0
    ensures Copied(w, page, 0) == w
  {
    hide ApuReference.Inv, ApuReference.Mix, ApuTypes.ValidEnv, PpuTypes.AtRest, Idle, Placed, PageOver;
    NoIdle(w);
    NothingPlaced(w, page);
  }

  lemma OneMoreCopied(w: World, page: nat, n: nat)
    requires ValidWorld(w) && page < 8 && n < OAM_SIZE && w.ppu.oamAddr == 0
    requires PpuDark.Resting(w.ppu, 6 * (n + 1))
    ensures DmaStep(Copied(w, page, n), page) == Copied(w, page, n + 1)
  {
    hide ApuReference.Inv, ApuReference.Mix, ApuTypes.ValidEnv, PpuTypes.AtRest, Idle, Placed, PageOver,
         PpuDark.Resting, DmaStep;
    IdleResting(w, w.mem.oam, 0, 2 * n, 6);
    IdleAdds(w, 2 * n, 2);
    OneByteMore(Idle(w, 2 * n), w.mem.oam, page, n);
  }

  lemma NothingPlaced(w: World, page: nat)
    requires ValidWorld(w) && page < 8 && w.ppu.oamAddr == 0
    ensures |w.mem.oam| == OAM_SIZE && |w.ram| == RAM_SIZE
    ensures Placed(w, PageOver(w.mem.oam, w.ram, page, 0), 0) == w
  {
    hide ApuReference.Inv, ApuReference.Mix, ApuTypes.ValidEnv, PpuTypes.AtRest;
    assert PageOver(w.mem.oam, w.ram, page, 0) == w.mem.oam;
  }

  lemma OneByteMore(w: World, oam: seq<u8>, page: nat, n: nat)
    requires ValidWorld(w) && |oam| == OAM_SIZE && page < 8 && n < OAM_SIZE && PpuDark.Resting(w.ppu, 6)
    ensures |w.ram| == RAM_SIZE
    ensures DmaStep(Placed(w, PageOver(oam, w.ram, page, n), n), page) ==
            Placed(Idle(w, 2), PageOver(oam, w.ram, page, n + 1), (n + 1) % OAM_SIZE)
  {
    hide ApuReference.Inv, ApuReference.Mix, ApuTypes.ValidEnv, PpuTypes.AtRest, PpuTypes.ValidMem, Idle, PageOver,
         PpuDark.Resting;
    GivenPlaced(w, oam, page, n);
    IdleResting(w, PageOver(oam, w.ram, page, n + 1), n, 2, 0);
  }

  ghost function PageOf(w: World, page: nat): (copy: seq<u8>)
    requires ValidWorld(w) && page < 8
    ensures |copy| == OAM_SIZE
  {
    w.ram[OAM_SIZE * page..OAM_SIZE * page + OAM_SIZE]
  }

  /** With rendering off, or in the vertical blank, a sprite transfer is a copy of the whole page followed by 513 or
    * 514 idle cycles.
    */
  lemma DmaIsCopy(w: World, page: nat)
    requires ValidWorld(w) && page < 8 && w.ppu.oamAddr == 0 && PpuDark.Resting(w.ppu, 3 * DmaCycles(w))
    ensures Dma(w, page) == Idle(Placed(w, PageOf(w, page), 0), DmaCycles(w))
  {
    hide ValidWorld, Idle, DmaCopied, PpuDark.Resting, Copied, PageOf, Placed;
    var copy := PageOf(w, page);
    PpuDark.RestingShorter(w.ppu, 3 * DmaCycles(w), 6 * OAM_SIZE);
    CopiedIsPlaced(w, page, OAM_SIZE);
    AllCopied(w, page);
    IdleResting(w, copy, 0, DmaCycles(w), 0);
    IdleResting(w, copy, 0, 2 * OAM_SIZE, 3 * (1 + w.cycles % 2));
    IdleResting(Idle(w, 2 * OAM_SIZE), copy, 0, 1 + w.cycles % 2, 0);
    IdleAdds(w, 2 * OAM_SIZE, 1 + w.cycles % 2);
  }

  lemma AllCopied(w: World, page: nat)
    requires ValidWorld(w) && page < 8
    ensures Copied(w, page, OAM_SIZE) == Placed(Idle(w, 2 * OAM_SIZE), PageOf(w, page), 0)
  {
    hide ApuReference.Inv, ApuReference.Mix, ApuTypes.ValidEnv, PpuTypes.AtRest, Idle, Placed;
    assert PageOver(w.mem.oam, w.ram, page, OAM_SIZE) == PageOf(w, page);
  }

  /** A store to $4014 a program may make fills the sprite memory with the page of RAM it names and takes 513 cycles,
    * 514 from an odd one.
    */
  lemma TransferFills(w: World, cart: Cart, page: u8)
    requires ValidWorld(w) && ValidCart(cart) && CanStore(w, 0x4014, page)
    ensures page < 8 && |w.ram| == 0x800
    ensures var v := Store(w, cart, 0x4014, page);
            && v.mem.oam == w.ram[256 * page..256 * page + 256] && v.ppu.oamAddr == 0
            && v.cycles == w.cycles + 513 + w.cycles % 2 && v.ram == w.ram
  {
    hide ApuReference.Inv, ApuReference.Mix, ApuTypes.ValidEnv, PpuTypes.AtRest, ValidCart, Idle, Dma,
         PpuDark.Resting;
    CpuDevice.StoreIsDma(w, cart, page);
    DmaIsCopy(w, page);
    PpuDark.RestingShorter(w.ppu, 3 * DmaCycles(w), 3 * DmaCycles(w));
    IdleResting(w, w.mem.oam, 0, DmaCycles(w), 0);
    IdleResting(w, PageOf(w, page), 0, DmaCycles(w), 0);
  }

  // ------------------------------------------------------------ the order of a pass

  /** An instruction that loads one byte. */
  function LoadOnce(addr: nat): Insn { Iorw((n: nat, log: seq<u8>) => Read(addr), 1) }

  lemma LoadedOnce(o: Run, cart: Cart, addr: nat)
    requires ValidRun(o) && ValidCart(cart) && o.Going? && addr < RAM_SIZE
    ensures |o.world.ram| == RAM_SIZE
    ensures var p := Execute(o, cart, LoadOnce(addr));
            p.Going? && p.log == o.log + [o.world.ram[addr]] && p.world.ram == o.world.ram
  {
    hide ValidWorld, ValidDebt, ValidCart, Idle, Load, Spending, Ticked;
    var body := (n: nat, log: seq<u8>) => Read(addr);
    CpuDevice.PlainLoad(o.world, 1, addr);
    CpuDevice.MemoryStays(o.world, 1);
    assert Touched(o, cart, body, 0) == o;
    assert Touched(o, cart, body, 1) == Touch(o, cart, Read(addr));
  }

  /** In one pass the NMI sequence comes first, then that of the interrupt request, then the instruction: three programs
    * that load a byte each are told apart by the order of what was loaded.
    */
  lemma PassOrder(o: Run, cart: Cart, masked: (nat, seq<u8>) -> bool, i: nat, a: nat, b: nat, c: nat, poll: Poll)
    requires ValidRun(o) && ValidCart(cart) && o.Going? && a < RAM_SIZE && b < RAM_SIZE && c < RAM_SIZE
    ensures |o.world.ram| == RAM_SIZE
    ensures var prog := Program((n: nat, log: seq<u8>) => LoadOnce(c), masked, LoadOnce(a), LoadOnce(b));
            var p, ram := Iterate(o, cart, prog, i, poll), o.world.ram;
            p.Going? && p.log == o.log + (if poll.nmi then [ram[a]] else []) + (if poll.irq then [ram[b]] else [])
                                 + [ram[c]]
  {
    hide ValidRun, ValidCart, Execute, LoadOnce;
    var prog := Program((n: nat, log: seq<u8>) => LoadOnce(c), masked, LoadOnce(a), LoadOnce(b));
    RamHeld(o);
    if poll.nmi {
      LoadedOnce(Served(o), cart, a);
    }
    var p := AtIrqPoll(o, cart, prog, poll.nmi);
    if poll.irq {
      LoadedOnce(p, cart, b);
    }
    LoadedOnce(TakeIf(p, cart, poll.irq, prog.irq), cart, c);
  }

  lemma RamHeld(o: Run)
    requires ValidRun(o) && o.Going?
    ensures |o.world.ram| == RAM_SIZE
  {
  }
}
