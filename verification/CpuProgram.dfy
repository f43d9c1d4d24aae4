/** Programs for the eager machine: accesses, instructions, and whole runs of the main loop.
  *
  * A program may choose its next step by everything it has read so far, so two machines that agree on
  * every run cannot be told apart by any program.
  */
module CpuProgram {
  import opened Common
  import opened CpuReference
  import opened CpuPolls
  import ApuTypes
  import ApuReference
  import PpuTypes
  import PpuNmi

  /** One access, or none any more. */
  datatype Access = Rest | Dummy | Read(addr: nat) | Read16(addr: nat) | Write(addr: nat, val: u8)

  /** The n-th access of an instruction, given what was read before it. */
  type Body = (nat, seq<u8>) -> Access

  /** An instruction of at most so many accesses that pays for each as it goes, or one charged a number of cycles
    * that depends on what it read.
    */
  datatype Insn = Iorw(body: Body, count: nat) | Fixed(body: Body, count: nat, cycles: seq<u8> -> nat)

  // ------------------------------------------------------------ the last catching-up

  /** What the source would have its devices lag behind by: both devices where they last caught up, the cycles of
    * finished instructions since then, those of the instruction under way, and the deadline (cpu.c:114-147).
    */
  datatype Debt = Debt(apu: ApuTypes.Apu, ppu: PpuTypes.Ppu, owed: nat, spent: nat, deadline: nat)

  /** What is owed is short of the deadline, which is the prediction made at the last catching-up; at power-on it
    * has passed and nothing is owed.
    */
  ghost predicate ValidDebt(d: Debt) {
    && ApuReference.Inv(d.apu) && PpuTypes.AtRest(d.ppu) && (d.owed == 0 || d.owed < d.deadline)
    && (d.deadline == Predicted(d.apu, d.ppu) || (d.deadline == 0 && d.owed == 0))
  }

  /** Both devices have caught up. */
  ghost function Caught(w: World): (d: Debt)
    requires ValidWorld(w)
    ensures ValidDebt(d) && d.spent == 0
  {
    hide ApuReference.Core, PpuTypes.ValidPpu, Predicted;
    Debt(w.apu, w.ppu, 0, 0, Predicted(w.apu, w.ppu))
  }

  /** A machine under way with what it has read and the debt it would have, or one that has left the modelled
    * accesses.
    */
  datatype Run = Going(world: World, log: seq<u8>, debt: Debt) | Stuck

  ghost predicate ValidRun(o: Run) { o.Going? ==> ValidWorld(o.world) && ValidDebt(o.debt) }

  // -------------------------------------------------------------------- accesses

  function Cost(acc: Access): nat {
    if acc.Rest? then 0 else if acc.Read16? then Load16Cost(acc.addr) else 1
  }

  predicate Admits(w: World, acc: Access) {
    match acc
    case Read(addr) => CanLoad(addr)
    case Read16(addr) => CanLoad16(addr)
    case Write(addr, val) => CanStore(w, addr, val)
    case _ => true
  }

  /** The devices have to catch up for this access. */
  predicate ReachesDevice(acc: Access) {
    (acc.Read? && !IsRam(acc.addr) && !IsPrg(acc.addr)) || (acc.Write? && !IsRam(acc.addr))
  }

  /** A store to a copy of the RAM but the first has the deadline computed anew (cpu.c:293-302). */
  predicate RenewsDeadline(acc: Access) { acc.Write? && RAM_SIZE <= acc.addr && IsRam(acc.addr) }

  ghost function DebtAfter(d: Debt, acc: Access, w: World): (d': Debt)
    requires ValidDebt(d) && ValidWorld(w)
    ensures ValidDebt(d')
  {
    hide ApuReference.Core, PpuTypes.ValidPpu, Predicted, ValidWorld;
    if ReachesDevice(acc) then Caught(w)
    else if RenewsDeadline(acc) then d.(deadline := Predicted(d.apu, d.ppu))
    else d
  }

  /** What an access does once its cycles have passed. */
  ghost function Effect(w: World, log: seq<u8>, d: Debt, cart: Cart, acc: Access): (o: Run)
    requires ValidWorld(w) && ValidDebt(d) && ValidCart(cart) && Admits(w, acc)
    ensures o.Going? && ValidRun(o)
  {
    hide ApuReference.Inv, ApuReference.Mix, PpuTypes.AtRest, PpuTypes.ValidMem, ValidCart, CanStore, Load, Store,
         ValidDebt, DebtAfter;
    match acc
    case Read(addr) => var l := Load(w, addr); Going(l.world, log + [l.val], DebtAfter(d, acc, l.world))
    case Read16(addr) => Going(w, log + PairAt(w, addr), d)
    case Write(addr, val) => var v := Store(w, cart, addr, val); Going(v, log, DebtAfter(d, acc, v))
    case _ => Going(w, log, d)
  }

  ghost function Spending(d: Debt, cycles: nat): (d': Debt)
    ensures ValidDebt(d) ==> ValidDebt(d')
  {
    d.(spent := d.spent + cycles)
  }

  /** An access of an instruction that pays as it goes. */
  ghost function Touch(o: Run, cart: Cart, acc: Access): (o': Run)
    requires ValidRun(o) && ValidCart(cart)
    ensures ValidRun(o') && (o'.Going? ==> o.Going?)
  {
    hide ValidWorld, ValidCart, Effect, Admits, Idle, ValidDebt, Spending;
    if o.Stuck? then Stuck
    else
      var w := Idle(o.world, Cost(acc));
      if Admits(w, acc) then Effect(w, o.log, Spending(o.debt, Cost(acc)), cart, acc) else Stuck
  }

  /** Accesses an instruction of fixed length makes: none of them reaches a device. */
  predicate IsQuiet(acc: Access) {
    match acc
    case Read(addr) => IsRam(addr) || IsPrg(addr)
    case Read16(addr) => CanLoad16(addr)
    case Write(addr, val) => addr < RAM_SIZE
    case _ => true
  }

  ghost function QuietTouch(o: Run, cart: Cart, acc: Access): (o': Run)
    requires ValidRun(o) && ValidCart(cart)
    ensures ValidRun(o') && (o'.Going? ==> o.Going?)
  {
    hide ValidWorld, ValidCart, Effect, ValidDebt;
    if o.Going? && IsQuiet(acc) then Effect(o.world, o.log, o.debt, cart, acc) else Stuck
  }

  // ---------------------------------------------------------------- instructions

  ghost function Touched(o: Run, cart: Cart, body: Body, n: nat): (o': Run)
    requires ValidRun(o) && ValidCart(cart)
    ensures ValidRun(o') && (o'.Going? ==> o.Going?)
  {
    hide ValidRun, ValidCart, Touch;
    if n == 0 then o
    else
      var p := Touched(o, cart, body, n - 1);
      if p.Going? then Touch(p, cart, body(n - 1, p.log)) else Stuck
  }

  ghost function QuietlyTouched(o: Run, cart: Cart, body: Body, n: nat): (o': Run)
    requires ValidRun(o) && ValidCart(cart)
    ensures ValidRun(o') && (o'.Going? ==> o.Going?)
  {
    hide ValidRun, ValidCart, QuietTouch;
    if n == 0 then o
    else
      var p := QuietlyTouched(o, cart, body, n - 1);
      if p.Going? then QuietTouch(p, cart, body(n - 1, p.log)) else Stuck
  }

  ghost function Pass(o: Run, cycles: nat): (o': Run)
    requires ValidRun(o)
    ensures ValidRun(o') && o'.Going? == o.Going?
  {
    hide ValidWorld, Idle, ValidDebt;
    if o.Going? then o.(world := Idle(o.world, cycles)) else Stuck
  }

  /** cpu.c:135-147: the cycles of the instruction are owed, or the devices catch up. */
  ghost function Ticked(o: Run, cycles: nat): (o': Run)
    requires ValidRun(o)
    ensures ValidRun(o') && o'.Going? == o.Going?
    ensures o.Going? ==> o'.world == o.world && o'.log == o.log
  {
    hide ValidWorld, Predicted;
    if o.Stuck? || cycles == 0 then o
    else if o.debt.owed + cycles < o.debt.deadline then
      o.(debt := o.debt.(owed := o.debt.owed + cycles, spent := 0))
    else o.(debt := Caught(o.world))
  }

  ghost function Execute(o: Run, cart: Cart, insn: Insn): (o': Run)
    requires ValidRun(o) && ValidCart(cart)
    ensures ValidRun(o') && (o'.Going? ==> o.Going?)
  {
    hide ValidWorld, ValidDebt, ValidCart, Touched, QuietlyTouched, Pass, Ticked;
    match insn
    case Iorw(body, count) =>
      var p := Touched(o, cart, body, count);
      if p.Going? then Ticked(p, p.debt.spent) else Stuck
    case Fixed(body, count, cycles) =>
      var p := QuietlyTouched(o, cart, body, count);
      if p.Going? && cycles(p.log) > 0 then Ticked(Pass(p, cycles(p.log)), cycles(p.log)) else Stuck
  }

  // ----------------------------------------------------------------- the main loop

  /** The interrupts taken before one instruction. */
  datatype Poll = Poll(nmi: bool, irq: bool)

  /** A program: its instructions, when it masks interrupts, and the two interrupt sequences. */
  datatype Program = Program(insn: (nat, seq<u8>) -> Insn, masked: (nat, seq<u8>) -> bool, nmi: Insn, irq: Insn)

  /** An NMI that is taken leaves the line. */
  ghost function Served(o: Run): (o': Run)
    requires ValidRun(o)
    ensures ValidRun(o') && o'.Going? == o.Going?
  {
    hide ApuReference.Inv, ApuReference.Mix, ApuReference.Core, PpuTypes.ValidPpu;
    if o.Going? then
      o.(world := o.world.(ppu := PpuNmi.Calm(o.world.ppu)), debt := o.debt.(ppu := PpuNmi.Calm(o.debt.ppu)))
    else o
  }

  ghost function TakeIf(o: Run, cart: Cart, taken: bool, insn: Insn): (o': Run)
    requires ValidRun(o) && ValidCart(cart)
    ensures ValidRun(o') && (o'.Going? ==> o.Going?)
  {
    hide ValidRun, ValidCart, Execute;
    if taken then Execute(o, cart, insn) else o
  }

  /** The machine where the loop polls the interrupt request line: after the NMI sequence, if one was taken. */
  ghost function AtIrqPoll(o: Run, cart: Cart, prog: Program, nmi: bool): (o': Run)
    requires ValidRun(o) && ValidCart(cart)
    ensures ValidRun(o') && (o'.Going? ==> o.Going?)
  {
    hide ValidRun, ValidCart, Execute;
    TakeIf(if nmi then Served(o) else o, cart, nmi, prog.nmi)
  }

  /** The rest of a pass: the interrupt request sequence, if one is taken, and the instruction. */
  ghost function PassFrom(o: Run, cart: Cart, prog: Program, i: nat, irq: bool): (o': Run)
    requires ValidRun(o) && ValidCart(cart)
    ensures ValidRun(o') && (o'.Going? ==> o.Going?)
  {
    hide ValidRun, ValidCart, TakeIf, Execute;
    var p := TakeIf(o, cart, irq, prog.irq);
    if p.Going? then Execute(p, cart, prog.insn(i, p.log)) else Stuck
  }

  /** One pass of the loop. */
  ghost function Iterate(o: Run, cart: Cart, prog: Program, i: nat, poll: Poll): (o': Run)
    requires ValidRun(o) && ValidCart(cart)
    ensures ValidRun(o') && (o'.Going? ==> o.Going?)
  {
    hide ValidRun, ValidCart, PassFrom, AtIrqPoll;
    PassFrom(AtIrqPoll(o, cart, prog, poll.nmi), cart, prog, i, poll.irq)
  }

  ghost function Iterated(o: Run, cart: Cart, prog: Program, polls: seq<Poll>): (o': Run)
    requires ValidRun(o) && ValidCart(cart)
    ensures ValidRun(o') && (o'.Going? ==> o.Going?)
    decreases |polls|
  {
    hide ValidRun, ValidCart, Iterate;
    if polls == [] then o
    else
      var last := |polls| - 1;
      Iterate(Iterated(o, cart, prog, polls[..last]), cart, prog, last, polls[last])
  }
}
