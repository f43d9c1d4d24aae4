/** Which interrupts the polls of a run should take, said of the eager machine alone: of its lines and of the debt
  * it carries along.
  */
module CpuInterrupts {
  import opened Common
  import opened CpuReference
  import opened CpuPolls
  import opened CpuProgram
  import opened CpuFollows
  import ApuTypes
  import ApuReference
  import ApuHeard
  import PpuTypes
  import PpuReference
  import PpuNmi

  // --------------------------------------------------------------- right polls

  /** An interrupt request is taken exactly when the line is up, unmasked and not late. */
  ghost predicate IrqRight(o: Run, masked: bool, taken: bool)
    requires ValidRun(o)
  {
    o.Going? ==> taken == (!masked && o.world.apu.irq && !IrqLate(o.debt.apu, o.debt.owed))
  }

  /** The k-th pass polled the interrupt request line right. */
  ghost predicate PassRight(start: Run, cart: Cart, prog: Program, polls: seq<Poll>, k: nat)
    requires ValidRun(start) && ValidCart(cart) && k < |polls|
  {
    var o := Iterated(start, cart, prog, polls[..k]);
    o.Going? && IrqRight(AtIrqPoll(o, cart, prog, polls[k].nmi), prog.masked(k, o.log), polls[k].irq)
  }

  /** An NMI on the line in the k-th pass is taken there or in the next, if it is not late; after the last pass it may
    * still be to be taken.
    */
  ghost predicate NmiRight(start: Run, cart: Cart, prog: Program, polls: seq<Poll>, k: nat, last: bool)
    requires ValidRun(start) && ValidCart(cart) && k < |polls|
  {
    var o := Iterated(start, cart, prog, polls[..k]);
    var next := if k == |polls| - 1 then last else polls[k + 1].nmi;
    o.Going? && (o.world.ppu.status.nmi && !NmiLate(o.debt.ppu, o.debt.owed) ==> polls[k].nmi || next)
  }

  /** Every pass polled right; last says whether an NMI seen in the last pass is still to be taken. */
  ghost predicate PolledRight(start: Run, cart: Cart, prog: Program, polls: seq<Poll>, last: bool)
    requires ValidRun(start) && ValidCart(cart)
  {
    && (forall k | 0 <= k < |polls| :: PassRight(start, cart, prog, polls, k))
    && (forall k | 0 <= k < |polls| :: NmiRight(start, cart, prog, polls, k, last))
  }

  /** NMIs taken. */
  function Taken(polls: seq<Poll>): nat {
    if polls == [] then 0 else Taken(polls[..|polls| - 1]) + if polls[|polls| - 1].nmi then 1 else 0
  }

  // ------------------------------------------------------------- recording a pass

  /** What is right of one machine is right of every machine it tracks. */
  lemma IrqRightOn(o: Run, p: Run, masked: bool, taken: bool, sound: bool)
    requires ValidRun(o) && ValidRun(p) && Tracks(o, p, sound) && IrqRight(o, masked, taken)
    ensures IrqRight(p, masked, taken)
  {
    hide ApuReference.Core, PpuTypes.ValidPpu, IrqLate, FollowsPpu;
    if o.Going? {
      IrqPredictedAlike(o.debt.apu, p.debt.apu);
    }
  }

  lemma NothingPolled(start: Run, cart: Cart, prog: Program, last: bool)
    requires ValidRun(start) && ValidCart(cart)
    ensures PolledRight(start, cart, prog, [], last)
  {
  }

  /** One pass more: the passes before stay right, and their last NMI is taken when it was promised. */
  lemma PassPolled(start: Run, cart: Cart, prog: Program, polls: seq<Poll>, poll: Poll, o: Run,
                   kept: bool, promised: bool, sound: bool)
    requires ValidRun(start) && ValidCart(cart) && (kept ==> poll.nmi)
    requires PolledRight(start, cart, prog, polls, kept)
    requires ValidRun(o) && o.Going? && Tracks(o, Iterated(start, cart, prog, polls), sound)
    requires IrqRight(AtIrqPoll(o, cart, prog, poll.nmi), prog.masked(|polls|, o.log), poll.irq)
    requires o.world.ppu.status.nmi && !poll.nmi ==> promised || NmiLate(o.debt.ppu, o.debt.owed)
    ensures PolledRight(start, cart, prog, polls + [poll], promised)
  {
    hide ValidRun, ValidCart, Iterated, IrqRight, NmiLate, AtIrqPoll, Tracks, PassRight, NmiRight;
    ThisPass(start, cart, prog, polls, poll, o, promised, sound);
    var more, n := polls + [poll], |polls|;
    forall k | 0 <= k < n
      ensures PassRight(start, cart, prog, more, k) && NmiRight(start, cart, prog, more, k, promised)
    {
      StaysPolled(start, cart, prog, polls, poll, k, kept, promised);
    }
  }

  lemma StaysPolled(start: Run, cart: Cart, prog: Program, polls: seq<Poll>, poll: Poll, k: nat,
                    kept: bool, promised: bool)
    requires ValidRun(start) && ValidCart(cart) && k < |polls| && (kept ==> poll.nmi)
    requires PassRight(start, cart, prog, polls, k) && NmiRight(start, cart, prog, polls, k, kept)
    ensures PassRight(start, cart, prog, polls + [poll], k)
    ensures NmiRight(start, cart, prog, polls + [poll], k, promised)
  {
    hide ValidWorld, ValidDebt, ValidCart, Iterated, IrqRight, NmiLate, AtIrqPoll;
    assert (polls + [poll])[..k] == polls[..k] && (polls + [poll])[k] == polls[k];
  }

  /** The pass just made, against the eager machine. */
  lemma ThisPass(start: Run, cart: Cart, prog: Program, polls: seq<Poll>, poll: Poll, o: Run,
                 promised: bool, sound: bool)
    requires ValidRun(start) && ValidCart(cart) && ValidRun(o) && o.Going?
    requires Tracks(o, Iterated(start, cart, prog, polls), sound)
    requires IrqRight(AtIrqPoll(o, cart, prog, poll.nmi), prog.masked(|polls|, o.log), poll.irq)
    requires o.world.ppu.status.nmi && !poll.nmi ==> promised || NmiLate(o.debt.ppu, o.debt.owed)
    ensures PassRight(start, cart, prog, polls + [poll], |polls|)
    ensures NmiRight(start, cart, prog, polls + [poll], |polls|, promised)
  {
    hide ApuReference.Inv, PpuTypes.ValidPpu, Predicted, ValidCart, Iterated, IrqRight, NmiLate, AtIrqPoll,
         ApuHeard.Alike;
    var p := Iterated(start, cart, prog, polls);
    assert (polls + [poll])[..|polls|] == polls;
    AtIrqPollTracks(o, p, cart, prog, poll.nmi, sound);
    IrqRightOn(AtIrqPoll(o, cart, prog, poll.nmi), AtIrqPoll(p, cart, prog, poll.nmi),
               prog.masked(|polls|, o.log), poll.irq, sound);
    NmiPredictedAlike(o.debt.ppu, p.debt.ppu);
  }

  // ------------------------------------------------------------ what the debt is

  /** The debt leads to where the machine is, but for an NMI that was taken on the way. */
  ghost predicate Behind(o: Run)
    requires ValidRun(o)
  {
    o.Going? ==>
      var n := o.debt.owed + o.debt.spent;
      && o.world.apu == ApuReference.Run(o.debt.apu, o.world.env, n)
      && FollowsPpu(PpuReference.Dots(o.debt.ppu, o.world.mem, 3 * n), o.world.ppu)
      && (o.debt.ppu.status.nmi ==> o.world.ppu.status.nmi)
  }

  /** The same between instructions. */
  ghost predicate Indebted(o: Run)
    requires ValidRun(o)
  {
    Behind(o) && (o.Going? ==> o.debt.spent == 0)
  }

  lemma CaughtBehind(o: Run)
    requires ValidRun(o)
    ensures o.Going? && o.debt == Caught(o.world) ==> Behind(o)
  {
    hide ApuReference.Inv, ApuReference.Mix, ApuTypes.ValidEnv, PpuTypes.ValidPpu, Predicted;
    if o.Going? && o.debt == Caught(o.world) {
      assert ApuReference.Run(o.debt.apu, o.world.env, 0) == o.debt.apu;
      assert PpuReference.Dots(o.debt.ppu, o.world.mem, 0) == o.debt.ppu;
    }
  }

  /** Time passes for the machine and is added to the debt. */
  lemma IdleBehind(o: Run, cycles: nat)
    requires ValidRun(o) && Behind(o) && o.Going?
    ensures Behind(Going(Idle(o.world, cycles), o.log, Spending(o.debt, cycles)))
  {
    hide ApuReference.Core, ApuReference.Mix, ApuTypes.ValidEnv, PpuTypes.ValidPpu, PpuTypes.ValidMem, Predicted,
         ApuReference.Run, PpuReference.Dots, FollowsPpu;
    var n := o.debt.owed + o.debt.spent;
    ApuReference.RunAdds(o.debt.apu, o.world.env, n, cycles);
    PpuReference.DotsAdd(o.debt.ppu, o.world.mem, 3 * n, 3 * cycles);
    DotsFollow(PpuReference.Dots(o.debt.ppu, o.world.mem, 3 * n), o.world.ppu, o.world.mem, 3 * cycles);
    NmiStays(o.world.ppu, o.world.mem, 3 * cycles);
  }

  /** Time alone takes back no NMI. */
  lemma {:induction false} NmiStays(p: PpuTypes.Ppu, mem: PpuTypes.Mem, n: nat)
    requires PpuTypes.ValidMem(mem) && PpuTypes.AtRest(p)
    ensures p.status.nmi ==> PpuReference.Dots(p, mem, n).status.nmi
  {
    hide PpuReference.Dot, PpuTypes.ValidMem, PpuTypes.ValidPpu;
    if n > 0 {
      NmiStays(p, mem, n - 1);
      PpuNmi.StepNmi(PpuReference.Dots(p, mem, n - 1), mem, false);
    } else {
      assert PpuReference.Dots(p, mem, 0) == p;
    }
  }

  lemma EffectBehind(o: Run, cart: Cart, acc: Access)
    requires ValidRun(o) && ValidCart(cart) && o.Going? && Behind(o) && Admits(o.world, acc)
    ensures Behind(Effect(o.world, o.log, o.debt, cart, acc))
    ensures IsQuiet(acc) ==> Effect(o.world, o.log, o.debt, cart, acc).debt == o.debt
  {
    hide ApuReference.Inv, ApuReference.Mix, ApuTypes.ValidEnv, PpuTypes.AtRest, PpuTypes.ValidMem, ValidCart,
         ApuReference.Run, PpuReference.Dots, Predicted, Caught;
    CaughtBehind(Effect(o.world, o.log, o.debt, cart, acc));
  }

  lemma TouchBehind(o: Run, cart: Cart, acc: Access)
    requires ValidRun(o) && ValidCart(cart) && Behind(o)
    ensures Behind(Touch(o, cart, acc))
    ensures o.Going? && QuietTouch(o, cart, acc).Going? ==> QuietTouch(o, cart, acc).debt == o.debt
    ensures Behind(QuietTouch(o, cart, acc))
  {
    hide ValidWorld, ValidDebt, ValidCart, Effect, Admits, Idle, Spending, Behind;
    if o.Going? {
      IdleBehind(o, Cost(acc));
      var p := Going(Idle(o.world, Cost(acc)), o.log, Spending(o.debt, Cost(acc)));
      if Admits(p.world, acc) {
        EffectBehind(p, cart, acc);
      }
      if IsQuiet(acc) {
        QuietAdmitted(o.world, acc);
        EffectBehind(o, cart, acc);
      }
    }
    assert Behind(Stuck) by { StuckBehind(); }
  }

  lemma StuckBehind()
    ensures ValidRun(Stuck) && Behind(Stuck) && Indebted(Stuck)
  {
  }

  lemma {:induction false} BodyBehind(o: Run, cart: Cart, body: Body, n: nat)
    requires ValidRun(o) && ValidCart(cart) && Behind(o)
    ensures Behind(Touched(o, cart, body, n)) && Behind(QuietlyTouched(o, cart, body, n))
    ensures o.Going? && QuietlyTouched(o, cart, body, n).Going? ==> QuietlyTouched(o, cart, body, n).debt == o.debt
  {
    hide ValidRun, ValidCart, Touch, QuietTouch, Behind;
    if n > 0 {
      BodyBehind(o, cart, body, n - 1);
      StuckBehind();
      var p, q := Touched(o, cart, body, n - 1), QuietlyTouched(o, cart, body, n - 1);
      if p.Going? {
        TouchBehind(p, cart, body(n - 1, p.log));
      }
      if q.Going? {
        TouchBehind(q, cart, body(n - 1, q.log));
      }
    }
  }

  lemma TickBehind(o: Run)
    requires ValidRun(o) && Behind(o) && o.Going?
    ensures Indebted(Ticked(o, o.debt.spent))
  {
    hide ValidWorld, ValidDebt, Caught, ApuReference.Run, PpuReference.Dots;
    if o.debt.spent > 0 {
      CaughtBehind(Ticked(o, o.debt.spent));
    }
  }

  /** cycles of an instruction without a debt of its own. */
  lemma PassBehind(o: Run, cycles: nat)
    requires ValidRun(o) && Indebted(o) && o.Going? && cycles > 0
    ensures Indebted(Ticked(Pass(o, cycles), cycles))
  {
    hide ValidWorld, ValidDebt, Idle, Behind, Caught;
    IdleBehind(o, cycles);
    var p := Going(Idle(o.world, cycles), o.log, Spending(o.debt, cycles));
    TickBehind(p);
    assert Ticked(Pass(o, cycles), cycles) == Ticked(p, cycles) by { SpendingTicked(Pass(o, cycles), p, cycles); }
  }

  lemma SpendingTicked(o: Run, p: Run, cycles: nat)
    requires ValidRun(o) && ValidRun(p) && o.Going? && p.Going? && cycles > 0
    requires p == o.(debt := o.debt.(spent := p.debt.spent))
    ensures Ticked(o, cycles) == Ticked(p, cycles)
  {
    hide ValidWorld, ValidDebt, Caught;
  }

  lemma ExecuteBehind(o: Run, cart: Cart, insn: Insn)
    requires ValidRun(o) && ValidCart(cart) && Indebted(o)
    ensures Indebted(Execute(o, cart, insn))
  {
    hide ValidRun, ValidCart, Touched, QuietlyTouched, Pass, Ticked, Behind;
    StuckBehind();
    BodyBehind(o, cart, insn.body, insn.count);
    match insn
    case Iorw(body, count) =>
      var p := Touched(o, cart, body, count);
      if p.Going? {
        TickBehind(p);
      }
    case Fixed(body, count, cycles) =>
      var p := QuietlyTouched(o, cart, body, count);
      if p.Going? && cycles(p.log) > 0 {
        PassBehind(p, cycles(p.log));
      }
  }

  lemma ServedBehind(o: Run)
    requires ValidRun(o) && Indebted(o)
    ensures Indebted(Served(o))
  {
    hide ApuReference.Core, ApuReference.Mix, PpuTypes.ValidPpu, Predicted, ApuReference.Run, PpuReference.Dots;
    if o.Going? {
      PpuNmi.CalmDots(o.debt.ppu, o.world.mem, 3 * o.debt.owed);
    }
  }

  lemma AtIrqPollBehind(o: Run, cart: Cart, prog: Program, nmi: bool)
    requires ValidRun(o) && ValidCart(cart) && Indebted(o)
    ensures Indebted(AtIrqPoll(o, cart, prog, nmi))
  {
    hide ValidRun, ValidCart, Execute, Served, Behind;
    if nmi {
      ServedBehind(o);
      ExecuteBehind(Served(o), cart, prog.nmi);
    }
  }

  lemma IterateBehind(o: Run, cart: Cart, prog: Program, i: nat, poll: Poll)
    requires ValidRun(o) && ValidCart(cart) && Indebted(o)
    ensures Indebted(Iterate(o, cart, prog, i, poll))
  {
    hide ValidRun, ValidCart, Execute, AtIrqPoll, Indebted;
    StuckBehind();
    AtIrqPollBehind(o, cart, prog, poll.nmi);
    var p := AtIrqPoll(o, cart, prog, poll.nmi);
    ExecuteBehind(p, cart, prog.irq);
    var q := TakeIf(p, cart, poll.irq, prog.irq);
    if q.Going? {
      ExecuteBehind(q, cart, prog.insn(i, q.log));
    }
  }

  /** In every run the debt leads from where both devices last caught up to where the machine is. */
  lemma {:induction false} RunBehind(o: Run, cart: Cart, prog: Program, polls: seq<Poll>)
    requires ValidRun(o) && ValidCart(cart) && Indebted(o)
    ensures Indebted(Iterated(o, cart, prog, polls))
    decreases |polls|
  {
    hide ValidRun, ValidCart, Iterate, Indebted;
    if polls != [] {
      var last := |polls| - 1;
      RunBehind(o, cart, prog, polls[..last]);
      IterateBehind(Iterated(o, cart, prog, polls[..last]), cart, prog, last, polls[last]);
    }
  }

  // ------------------------------------------------------- when a late one is taken

  /** A line that is up and not late is the line as it was when the devices last caught up, less than a frame ago. */
  lemma LineAtDebt(o: Run)
    requires ValidRun(o) && Indebted(o) && o.Going?
    ensures o.world.apu.irq && !IrqLate(o.debt.apu, o.debt.owed) <==> o.debt.apu.irq
    ensures o.world.ppu.status.nmi && !NmiLate(o.debt.ppu, o.debt.owed) <==> o.debt.ppu.status.nmi
    ensures o.debt.owed <= 29780 && o.world.apu == ApuReference.Run(o.debt.apu, o.world.env, o.debt.owed)
  {
    hide ApuReference.Core, ApuReference.Mix, ApuTypes.ValidEnv, PpuTypes.ValidPpu, PpuTypes.ValidMem, IrqLate,
         NmiLate, ApuReference.Run, PpuReference.Dots;
    DeadlineFits(o.debt.apu, o.debt.ppu);
    IrqPoll(o.debt.apu, o.world.env, o.debt.ppu, o.debt.owed);
    NmiPoll(o.debt.ppu, o.world.mem, o.debt.owed);
    CalmLate(o.debt.ppu, o.debt.owed);
  }

  lemma CalmLate(p: PpuTypes.Ppu, n: nat)
    requires PpuTypes.AtRest(p)
    ensures NmiLate(p, n) ==> !p.status.nmi
  {
  }

  /** So in every pass of a run that polls right, an unmasked request is taken exactly if its line was up when the
    * devices last caught up, at most 29780 cycles before; one that is missed has come since then.
    */
  lemma OldRequestIsTaken(start: Run, cart: Cart, prog: Program, polls: seq<Poll>, k: nat)
    requires ValidRun(start) && ValidCart(cart) && Indebted(start) && k < |polls|
    requires PassRight(start, cart, prog, polls, k)
    ensures var o := Iterated(start, cart, prog, polls[..k]);
            var p := AtIrqPoll(o, cart, prog, polls[k].nmi);
            o.Going? && (p.Going? ==>
                           && polls[k].irq == (!prog.masked(k, o.log) && p.debt.apu.irq)
                           && p.debt.owed <= 29780
                           && p.world.apu == ApuReference.Run(p.debt.apu, p.world.env, p.debt.owed))
  {
    hide ApuReference.Inv, ApuReference.Mix, ApuTypes.ValidEnv, PpuTypes.ValidPpu, PpuTypes.ValidMem, IrqLate,
         ApuReference.Run, PpuReference.Dots, Iterated, AtIrqPoll, ValidCart, Predicted, Behind;
    RunBehind(start, cart, prog, polls[..k]);
    var o := Iterated(start, cart, prog, polls[..k]);
    AtIrqPollBehind(o, cart, prog, polls[k].nmi);
    var p := AtIrqPoll(o, cart, prog, polls[k].nmi);
    if p.Going? {
      LineAtDebt(p);
    }
  }

  /** And an NMI that was on the line when the devices last caught up is taken in that pass or the next. */
  lemma OldNmiIsTaken(start: Run, cart: Cart, prog: Program, polls: seq<Poll>, k: nat, last: bool)
    requires ValidRun(start) && ValidCart(cart) && Indebted(start) && k < |polls|
    requires NmiRight(start, cart, prog, polls, k, last)
    ensures var o := Iterated(start, cart, prog, polls[..k]);
            && o.Going? && o.debt.owed <= 29780
            && (o.debt.ppu.status.nmi ==> polls[k].nmi || if k == |polls| - 1 then last else polls[k + 1].nmi)
  {
    hide ApuReference.Inv, PpuTypes.ValidPpu, ValidCart, Iterated, NmiLate, IrqLate, Predicted, Behind;
    RunBehind(start, cart, prog, polls[..k]);
    LineAtDebt(Iterated(start, cart, prog, polls[..k]));
  }

  /** A late NMI is not late for long: with the next cycle the devices catch up and the line stands in the debt. */
  lemma LateNmiIsPaid(o: Run, cycles: nat)
    requires ValidRun(o) && o.Going? && NmiLate(o.debt.ppu, o.debt.owed) && cycles > 0
    ensures Ticked(o, cycles).debt == Caught(o.world)
    ensures o.world.ppu.status.nmi ==> Ticked(o, cycles).debt.ppu.status.nmi
  {
    hide ValidWorld, ApuReference.Inv, PpuTypes.AtRest;
  }
}
