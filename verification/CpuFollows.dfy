/** How the lazy machine may differ from the eager one: its NMI line may hold an NMI that has been taken back, and
  * from power-on its first audio sample may differ.  Neither is seen by any access, so both machines go on alike.
  */
module CpuFollows {
  import opened Common
  import opened CpuReference
  import opened CpuPolls
  import opened CpuProgram
  import ApuTypes
  import ApuReference
  import ApuRegisters
  import ApuHeard
  import ApuIrq
  import PpuTypes
  import PpuReference
  import PpuRegisters
  import PpuNmi
  import PpuDark
  import PpuTheorems

  /** v does what w does, with every NMI of w and perhaps one more; with sound, to the last sample. */
  ghost predicate Follows(v: World, w: World, sound: bool) {
    && v == w.(apu := v.apu, ppu := v.ppu)
    && FollowsPpu(v.ppu, w.ppu)
    && ApuHeard.Alike(v.apu, w.apu) && (sound ==> v.apu == w.apu)
  }

  predicate FollowsPpu(p: PpuTypes.Ppu, q: PpuTypes.Ppu) {
    p == PpuNmi.Nmi(q, p.status.nmi) && (q.status.nmi ==> p.status.nmi)
  }

  lemma FollowsItself(w: World, sound: bool)
    ensures Follows(w, w, sound)
  {
  }

  lemma FollowsOn(u: World, v: World, w: World, s: bool, t: bool)
    requires Follows(u, v, s) && Follows(v, w, t)
    ensures Follows(u, w, s && t)
  {
  }

  lemma KeepsLess(v: World, w: World, s: bool, t: bool)
    requires Follows(v, w, s) && (t ==> s)
    ensures Follows(v, w, t)
  {
  }

  lemma FollowsValid(v: World, w: World)
    requires ValidWorld(w) && Follows(v, w, true)
    ensures ValidWorld(v)
  {
    hide ApuReference.Inv, ApuReference.Mix, ApuTypes.ValidEnv, PpuTypes.ValidPpu, PpuTypes.ValidMem;
  }

  // ------------------------------------------------------------------------ time

  lemma {:induction false} DotsFollow(p: PpuTypes.Ppu, q: PpuTypes.Ppu, mem: PpuTypes.Mem, n: nat)
    requires PpuTypes.ValidMem(mem) && PpuTypes.AtRest(p) && PpuTypes.AtRest(q) && FollowsPpu(p, q)
    ensures FollowsPpu(PpuReference.Dots(p, mem, n), PpuReference.Dots(q, mem, n))
  {
    hide PpuReference.Dot, PpuTypes.ValidMem, PpuTypes.ValidPpu;
    if n > 0 {
      DotsFollow(p, q, mem, n - 1);
      var r := PpuReference.Dots(q, mem, n - 1);
      PpuNmi.StepNmi(r, mem, PpuReference.Dots(p, mem, n - 1).status.nmi);
    } else {
      assert PpuReference.Dots(p, mem, 0) == p && PpuReference.Dots(q, mem, 0) == q;
    }
  }

  lemma IdleFollows(v: World, w: World, k: nat, sound: bool)
    requires ValidWorld(v) && ValidWorld(w) && Follows(v, w, sound)
    ensures Follows(Idle(v, k), Idle(w, k), sound)
  {
    hide ApuReference.Core, ApuReference.Mix, ApuTypes.ValidEnv, PpuTypes.ValidPpu, PpuTypes.ValidMem,
         ApuReference.Run, PpuReference.Dots, FollowsPpu, ApuHeard.Alike;
    DotsFollow(v.ppu, w.ppu, w.mem, 3 * k);
    RunAlikes(v.apu, w.apu, w.env, k);
  }

  lemma RunAlikes(a: ApuTypes.Apu, b: ApuTypes.Apu, env: ApuTypes.Env, n: nat)
    requires ApuTypes.ValidEnv(env) && ApuReference.Inv(a) && ApuReference.Inv(b) && ApuHeard.Alike(a, b)
    ensures ApuHeard.Alike(ApuReference.Run(a, env, n), ApuReference.Run(b, env, n))
  {
    hide ApuReference.Inv, ApuTypes.ValidEnv, ApuReference.Run;
    ApuHeard.RunAlike(a, b, env, n);
  }

  // -------------------------------------------------------------------- accesses

  lemma LoadFollows(v: World, w: World, addr: nat, sound: bool)
    requires ValidWorld(v) && ValidWorld(w) && Follows(v, w, sound) && CanLoad(addr)
    ensures Follows(Load(v, addr).world, Load(w, addr).world, sound) && Load(v, addr).val == Load(w, addr).val
  {
    hide ApuReference.Core, ApuReference.Mix, ApuTypes.ValidEnv, PpuTypes.ValidPpu, PpuTypes.ValidMem;
  }

  lemma WritesFollow(p: PpuTypes.Ppu, q: PpuTypes.Ppu, val: u8)
    requires FollowsPpu(p, q)
    ensures FollowsPpu(PpuRegisters.WriteCtrl(p, val), PpuRegisters.WriteCtrl(q, val))
    ensures FollowsPpu(PpuRegisters.WriteMask(p, val), PpuRegisters.WriteMask(q, val))
    ensures FollowsPpu(PpuRegisters.WriteScroll(p, val), PpuRegisters.WriteScroll(q, val))
    ensures FollowsPpu(PpuRegisters.WriteAddr(p, val), PpuRegisters.WriteAddr(q, val))
    ensures FollowsPpu(PpuDark.OamAt(p, val), PpuDark.OamAt(q, val))
    ensures FollowsPpu(NextOamAddr(p), NextOamAddr(q))
  {
    PpuRegisters.WritesIgnoreNmi(q, p.status.nmi, val);
  }

  lemma StorePpuFollows(v: World, w: World, reg: nat, val: u8, sound: bool)
    requires PpuTypes.ValidMem(v.mem) && Follows(v, w, sound) && reg < 7
    ensures Follows(StorePpu(v, reg, val), StorePpu(w, reg, val), sound)
  {
    hide PpuTypes.ValidMem, PpuTypes.AtRest, ApuHeard.Alike, PpuRegisters.WriteCtrl, PpuRegisters.WriteMask,
         PpuRegisters.WriteScroll, PpuRegisters.WriteAddr, PpuDark.OamAt, NextOamAddr, FollowsPpu;
    WritesFollow(v.ppu, w.ppu, val);
    assert v.mem == w.mem && v.ppu.oamAddr == w.ppu.oamAddr by { SameOamAddr(v, w, sound); }
  }

  lemma SameOamAddr(v: World, w: World, sound: bool)
    requires Follows(v, w, sound)
    ensures v.mem == w.mem && v.ppu.oamAddr == w.ppu.oamAddr
  {
  }

  /** Whether an access is admitted does not depend on the difference. */
  lemma AdmitsAlike(v: World, w: World, addr: nat, val: u8, sound: bool)
    requires Follows(v, w, sound)
    ensures CanStore(v, addr, val) == CanStore(w, addr, val)
  {
  }

  lemma GivenFollows(v: World, w: World, page: nat, sound: bool)
    requires ValidWorld(v) && ValidWorld(w) && Follows(v, w, sound) && page < 8
    ensures Follows(OamGiven(v, page), OamGiven(w, page), sound)
  {
    hide ApuReference.Inv, ApuReference.Mix, PpuTypes.AtRest, ApuHeard.Alike;
  }

  lemma StepFollows(v: World, w: World, page: nat, sound: bool)
    requires ValidWorld(v) && ValidWorld(w) && Follows(v, w, sound) && page < 8
    ensures Follows(DmaStep(v, page), DmaStep(w, page), sound)
  {
    hide ApuReference.Inv, ApuReference.Mix, ApuTypes.ValidEnv, PpuTypes.AtRest, PpuTypes.ValidMem, OamGiven, Idle,
         ApuHeard.Alike;
    GivenFollows(v, w, page, sound);
    IdleFollows(OamGiven(v, page), OamGiven(w, page), 2, sound);
  }

  lemma {:induction false} CopiedFollows(v: World, w: World, page: nat, n: nat, sound: bool)
    requires ValidWorld(v) && ValidWorld(w) && Follows(v, w, sound) && page < 8 && n <= OAM_SIZE
    ensures Follows(DmaCopied(v, page, n), DmaCopied(w, page, n), sound)
  {
    hide ValidWorld, DmaStep, Follows;
    if n > 0 {
      CopiedFollows(v, w, page, n - 1, sound);
      StepFollows(DmaCopied(v, page, n - 1), DmaCopied(w, page, n - 1), page, sound);
    }
  }

  lemma DmaFollows(v: World, w: World, page: nat, sound: bool)
    requires ValidWorld(v) && ValidWorld(w) && Follows(v, w, sound) && page < 8
    ensures Follows(Dma(v, page), Dma(w, page), sound)
  {
    hide ValidWorld, DmaCopied, Idle;
    CopiedFollows(v, w, page, OAM_SIZE, sound);
    IdleFollows(DmaCopied(v, page, OAM_SIZE), DmaCopied(w, page, OAM_SIZE), 1 + w.cycles % 2, sound);
  }

  lemma StoreApuFollows(v: World, w: World, addr: nat, val: u8, sound: bool)
    requires ValidWorld(v) && ValidWorld(w) && Follows(v, w, sound) && IsApu(addr)
    ensures ApuReference.ValidChannels(v.apu) && ApuReference.ValidChannels(w.apu)
    ensures ApuHeard.Alike(ApuReference.Refresh(ApuRegisters.Write(v.apu, ApuOffset(addr), val), v.env),
                           ApuReference.Refresh(ApuRegisters.Write(w.apu, ApuOffset(addr), val), w.env))
  {
    hide ApuReference.Core, ApuReference.Mix, ApuTypes.ValidEnv, PpuTypes.AtRest, PpuTypes.ValidMem,
         ApuReference.Refresh, ApuRegisters.Write, ApuHeard.Alike;
    ApuHeard.WriteAlike(v.apu, w.apu, w.env, ApuOffset(addr), val);
  }

  lemma StoreFollows(v: World, w: World, cart: Cart, addr: nat, val: u8, sound: bool)
    requires ValidWorld(v) && ValidWorld(w) && Follows(v, w, sound) && ValidCart(cart)
    requires CanStore(v, addr, val) && CanStore(w, addr, val)
    ensures Follows(Store(v, cart, addr, val), Store(w, cart, addr, val), sound)
  {
    hide ApuReference.Inv, ApuReference.Mix, ApuReference.Refresh, ApuRegisters.Write, ApuTypes.ValidEnv,
         PpuTypes.AtRest, PpuTypes.ValidMem, Dma, StorePpu, ApuHeard.Alike, FollowsPpu;
    if IsRam(addr) {
    } else if IsPpu(addr) {
      StorePpuFollows(v, w, addr % 8, val, sound);
    } else if addr == 0x4014 {
      DmaFollows(v, w, val, sound);
    } else if IsApu(addr) {
      StoreApuFollows(v, w, addr, val, sound);
    }
  }

  // ------------------------------------------------------------------------- debts

  /** Sound has no part in the audio prediction. */
  lemma IrqPredictedAlike(a: ApuTypes.Apu, b: ApuTypes.Apu)
    requires ApuReference.Core(a) && ApuReference.Core(b) && ApuHeard.SameUnit(a, b)
    ensures ApuIrq.CyclesToIrq(a) == ApuIrq.CyclesToIrq(b) && a.irq == b.irq
    ensures forall n: nat :: IrqLate(a, n) == IrqLate(b, n)
  {
    hide ApuReference.ValidChannels, ApuReference.CachesAgree, ApuIrq.TicksToLastFetch;
  }

  /** The NMI line has no part in the vertical blank prediction. */
  lemma NmiPredictedAlike(p: PpuTypes.Ppu, q: PpuTypes.Ppu)
    requires PpuTypes.AtRest(p) && PpuTypes.AtRest(q) && FollowsPpu(p, q)
    ensures PpuTheorems.CyclesToNmi(p) == PpuTheorems.CyclesToNmi(q)
    ensures forall n: nat :: NmiLate(p, n) ==> NmiLate(q, n)
  {
  }

  lemma PredictedAlike(a: ApuTypes.Apu, p: PpuTypes.Ppu, b: ApuTypes.Apu, q: PpuTypes.Ppu)
    requires ApuReference.Core(a) && ApuReference.Core(b) && ApuHeard.Alike(a, b)
    requires PpuTypes.AtRest(p) && PpuTypes.AtRest(q) && FollowsPpu(p, q)
    ensures Predicted(a, p) == Predicted(b, q)
  {
    hide ApuReference.Core, PpuTypes.ValidPpu, FollowsPpu, IrqLate, NmiLate;
    IrqPredictedAlike(a, b);
    NmiPredictedAlike(p, q);
  }

  /** The same debt, up to the same differences. */
  ghost predicate DebtFollows(d: Debt, e: Debt) {
    && ApuHeard.Alike(d.apu, e.apu) && FollowsPpu(d.ppu, e.ppu)
    && d.owed == e.owed && d.spent == e.spent && d.deadline == e.deadline
  }

  lemma DebtFollowsOn(c: Debt, d: Debt, e: Debt)
    requires DebtFollows(c, d) && DebtFollows(d, e)
    ensures DebtFollows(c, e)
  {
  }

  lemma CaughtFollows(v: World, w: World, sound: bool)
    requires ValidWorld(v) && ValidWorld(w) && Follows(v, w, sound)
    ensures DebtFollows(Caught(v), Caught(w))
  {
    hide ApuReference.Core, ApuReference.Mix, ApuTypes.ValidEnv, PpuTypes.ValidPpu, PpuTypes.ValidMem, ApuHeard.Alike,
         FollowsPpu, Predicted;
    PredictedAlike(v.apu, v.ppu, w.apu, w.ppu);
  }

  lemma DebtAfterFollows(d: Debt, e: Debt, acc: Access, v: World, w: World, sound: bool)
    requires ValidDebt(d) && ValidDebt(e) && DebtFollows(d, e)
    requires ValidWorld(v) && ValidWorld(w) && Follows(v, w, sound)
    ensures DebtFollows(DebtAfter(d, acc, v), DebtAfter(e, acc, w))
  {
    hide ApuReference.Core, PpuTypes.ValidPpu, ValidWorld, ApuHeard.Alike, FollowsPpu, Predicted, Caught, Follows;
    if ReachesDevice(acc) {
      CaughtFollows(v, w, sound);
    } else {
      PredictedAlike(d.apu, d.ppu, e.apu, e.ppu);
    }
  }

  // ------------------------------------------------------------------------- runs

  /** Both stuck, or both going on with the same bytes read and the same debt. */
  ghost predicate Tracks(o: Run, p: Run, sound: bool) {
    && o.Going? == p.Going?
    && (o.Going? ==> o.log == p.log && Follows(o.world, p.world, sound) && DebtFollows(o.debt, p.debt))
  }

  lemma TracksOn(o: Run, p: Run, q: Run, s: bool, t: bool)
    requires Tracks(o, p, s) && Tracks(p, q, t)
    ensures Tracks(o, q, s && t)
  {
    hide Follows, DebtFollows;
    if o.Going? {
      FollowsOn(o.world, p.world, q.world, s, t);
      DebtFollowsOn(o.debt, p.debt, q.debt);
    }
  }

  lemma TracksItself(o: Run, sound: bool)
    ensures Tracks(o, o, sound)
  {
  }

  lemma TracksLess(o: Run, p: Run, s: bool, t: bool)
    requires Tracks(o, p, s) && (t ==> s)
    ensures Tracks(o, p, t)
  {
  }

  lemma EffectTracks(v: World, w: World, log: seq<u8>, d: Debt, e: Debt, cart: Cart, acc: Access, sound: bool)
    requires ValidWorld(v) && ValidWorld(w) && ValidCart(cart) && Follows(v, w, sound)
    requires ValidDebt(d) && ValidDebt(e) && DebtFollows(d, e) && Admits(v, acc) && Admits(w, acc)
    ensures Tracks(Effect(v, log, d, cart, acc), Effect(w, log, e, cart, acc), sound)
  {
    hide ApuReference.Inv, ApuReference.Mix, PpuTypes.AtRest, PpuTypes.ValidMem, ValidCart, CanStore, Load, Store,
         ApuHeard.Alike, FollowsPpu, ValidDebt, DebtAfter, DebtFollows;
    match acc
    case Read(addr) =>
      LoadFollows(v, w, addr, sound);
      DebtAfterFollows(d, e, acc, Load(v, addr).world, Load(w, addr).world, sound);
    case Read16(addr) =>
    case Write(addr, val) =>
      StoreFollows(v, w, cart, addr, val, sound);
      DebtAfterFollows(d, e, acc, Store(v, cart, addr, val), Store(w, cart, addr, val), sound);
    case _ =>
  }

  lemma AccessAdmitted(v: World, w: World, acc: Access, sound: bool)
    requires Follows(v, w, sound)
    ensures Admits(v, acc) == Admits(w, acc)
  {
    hide Follows, CanStore;
    if acc.Write? {
      AdmitsAlike(v, w, acc.addr, acc.val, sound);
    }
  }

  lemma SpendingFollows(d: Debt, e: Debt, cycles: nat)
    requires DebtFollows(d, e)
    ensures DebtFollows(Spending(d, cycles), Spending(e, cycles))
  {
  }

  lemma TouchTracks(o: Run, p: Run, cart: Cart, acc: Access, sound: bool)
    requires ValidRun(o) && ValidRun(p) && ValidCart(cart) && Tracks(o, p, sound)
    ensures Tracks(Touch(o, cart, acc), Touch(p, cart, acc), sound)
    ensures Tracks(QuietTouch(o, cart, acc), QuietTouch(p, cart, acc), sound)
  {
    hide ValidWorld, ValidDebt, ValidCart, Effect, Admits, Idle, Follows, DebtFollows, Spending;
    if o.Going? {
      IdleFollows(o.world, p.world, Cost(acc), sound);
      SpendingFollows(o.debt, p.debt, Cost(acc));
      var v, w := Idle(o.world, Cost(acc)), Idle(p.world, Cost(acc));
      AccessAdmitted(v, w, acc, sound);
      if Admits(v, acc) {
        EffectTracks(v, w, o.log, Spending(o.debt, Cost(acc)), Spending(p.debt, Cost(acc)), cart, acc, sound);
      }
      if IsQuiet(acc) {
        QuietAdmitted(o.world, acc);
        QuietAdmitted(p.world, acc);
        EffectTracks(o.world, p.world, o.log, o.debt, p.debt, cart, acc, sound);
      }
    }
  }

  lemma QuietAdmitted(w: World, acc: Access)
    requires IsQuiet(acc)
    ensures Admits(w, acc)
  {
  }

  lemma {:induction false} BodyTracks(o: Run, p: Run, cart: Cart, body: Body, n: nat, sound: bool)
    requires ValidRun(o) && ValidRun(p) && ValidCart(cart) && Tracks(o, p, sound)
    ensures Tracks(Touched(o, cart, body, n), Touched(p, cart, body, n), sound)
    ensures Tracks(QuietlyTouched(o, cart, body, n), QuietlyTouched(p, cart, body, n), sound)
  {
    hide ValidRun, ValidCart, Touch, QuietTouch, Follows, DebtFollows;
    if n > 0 {
      BodyTracks(o, p, cart, body, n - 1, sound);
      var q, r := Touched(o, cart, body, n - 1), Touched(p, cart, body, n - 1);
      if q.Going? {
        TouchTracks(q, r, cart, body(n - 1, q.log), sound);
      }
      var s, t := QuietlyTouched(o, cart, body, n - 1), QuietlyTouched(p, cart, body, n - 1);
      if s.Going? {
        TouchTracks(s, t, cart, body(n - 1, s.log), sound);
      }
    }
  }

  lemma TickTracks(o: Run, p: Run, cycles: nat, sound: bool)
    requires ValidRun(o) && ValidRun(p) && Tracks(o, p, sound)
    ensures Tracks(Ticked(o, cycles), Ticked(p, cycles), sound)
  {
    hide ValidWorld, ValidDebt, Follows, Caught, FollowsPpu, ApuHeard.Alike;
    if o.Going? {
      CaughtFollows(o.world, p.world, sound);
    }
  }

  lemma PassTracks(o: Run, p: Run, cycles: nat, sound: bool)
    requires ValidRun(o) && ValidRun(p) && Tracks(o, p, sound)
    ensures Tracks(Ticked(Pass(o, cycles), cycles), Ticked(Pass(p, cycles), cycles), sound)
  {
    hide ValidWorld, ValidDebt, Follows, DebtFollows, Idle, Ticked;
    if o.Going? {
      IdleFollows(o.world, p.world, cycles, sound);
    }
    TickTracks(Pass(o, cycles), Pass(p, cycles), cycles, sound);
  }

  lemma SameSpent(o: Run, p: Run, sound: bool)
    requires Tracks(o, p, sound)
    ensures o.Going? ==> o.debt.spent == p.debt.spent && o.debt.owed == p.debt.owed
  {
  }

  /** Machines that differ so execute any instruction alike. */
  lemma ExecuteTracks(o: Run, p: Run, cart: Cart, insn: Insn, sound: bool)
    requires ValidRun(o) && ValidRun(p) && ValidCart(cart) && Tracks(o, p, sound)
    ensures Tracks(Execute(o, cart, insn), Execute(p, cart, insn), sound)
  {
    hide ValidRun, ValidCart, Touched, QuietlyTouched, Idle, Follows, DebtFollows, Ticked, Pass;
    BodyTracks(o, p, cart, insn.body, insn.count, sound);
    match insn
    case Iorw(body, count) =>
      var q, r := Touched(o, cart, body, count), Touched(p, cart, body, count);
      SameSpent(q, r, sound);
      if q.Going? {
        TickTracks(q, r, q.debt.spent, sound);
      }
    case Fixed(body, count, cycles) =>
      var q, r := QuietlyTouched(o, cart, body, count), QuietlyTouched(p, cart, body, count);
      if q.Going? {
        PassTracks(q, r, cycles(q.log), sound);
      }
  }

  lemma ServedTracks(o: Run, p: Run, sound: bool)
    requires ValidRun(o) && ValidRun(p) && Tracks(o, p, sound)
    ensures Tracks(Served(o), Served(p), sound)
  {
    hide ApuReference.Inv, ApuReference.Mix, PpuTypes.ValidPpu, ApuHeard.Alike, Predicted;
  }

  lemma AtIrqPollTracks(o: Run, p: Run, cart: Cart, prog: Program, nmi: bool, sound: bool)
    requires ValidRun(o) && ValidRun(p) && ValidCart(cart) && Tracks(o, p, sound)
    ensures Tracks(AtIrqPoll(o, cart, prog, nmi), AtIrqPoll(p, cart, prog, nmi), sound)
  {
    hide ValidRun, ValidCart, Execute, Follows, DebtFollows, Served;
    if nmi {
      ServedTracks(o, p, sound);
      ExecuteTracks(Served(o), Served(p), cart, prog.nmi, sound);
    }
  }

  lemma IterateTracks(o: Run, p: Run, cart: Cart, prog: Program, i: nat, poll: Poll, sound: bool)
    requires ValidRun(o) && ValidRun(p) && ValidCart(cart) && Tracks(o, p, sound)
    ensures Tracks(Iterate(o, cart, prog, i, poll), Iterate(p, cart, prog, i, poll), sound)
  {
    hide ValidRun, ValidCart, Execute, Follows, DebtFollows, AtIrqPoll;
    AtIrqPollTracks(o, p, cart, prog, poll.nmi, sound);
    var q, r := AtIrqPoll(o, cart, prog, poll.nmi), AtIrqPoll(p, cart, prog, poll.nmi);
    ExecuteTracks(q, r, cart, prog.irq, sound);
    var s, t := TakeIf(q, cart, poll.irq, prog.irq), TakeIf(r, cart, poll.irq, prog.irq);
    if s.Going? {
      ExecuteTracks(s, t, cart, prog.insn(i, s.log), sound);
    }
  }
}
