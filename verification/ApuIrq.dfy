/** The closed-form interrupt predictions, against the cycle-by-cycle reference.
  *
  * Both predictions are countdowns: one CPU cycle lowers each by exactly one until it is spent.
  */
module ApuIrq {
  import opened Common
  import opened ApuTypes
  import opened ApuChannels
  import opened ApuReference
  import opened ApuRegisters
  import opened ApuFlags
  import opened ApuBatch

  /** apu.c:912-925. */
  function CyclesToFrameIrq(a: Apu): (cycles: nat)
    requires Core(a)
    ensures 2 <= cycles <= 29831 || cycles == UINT32_MAX
  {
    if !a.reg.frame.FiveStep() && a.frame.step <= 3 && !a.reg.frame.IrqDisable() then
      2 * (14914 - a.frame.countdown + 1) + (1 - a.HalfPhase())
    else UINT32_MAX
  }

  /** A DMC IRQ can only come from a sample that runs out. */
  predicate DmcCanInterrupt(a: Apu) {
    a.reg.dmc.IrqEnabled() && !a.reg.dmc.Loop() && a.dmc.bytesRemaining != 0
  }

  /** APU ticks until the last byte of the sample is fetched, from a full buffer. */
  function TicksToLastFetch(d: Dmc): (ticks: nat)
    requires ValidDmc(d) && d.bytesRemaining > 0
    ensures 1 <= ticks < 0x1000_0000
  {
    var clocks := d.bitsRemaining + (d.bytesRemaining - 1) * 8;
    LastFetchFits(clocks - 1, d.timer.period);
    d.timer.countdown + (clocks - 1) * d.timer.period
  }

  lemma LastFetchFits(clocks: nat, period: nat)
    requires clocks <= 8 + 4080 * 8 && period <= 214
    ensures 0 <= clocks * period <= 214 * (8 + 4080 * 8)
  {
    MulMonotone(clocks, period, 214);
  }

  lemma MulMonotone(k: nat, x: nat, y: nat)
    requires x <= y
    ensures k * x <= k * y
  {
  }

  /** apu.c:927-942. */
  function CyclesToDmcIrq(a: Apu): (cycles: nat)
    requires Core(a)
    ensures cycles >= 2
  {
    if !DmcCanInterrupt(a) then UINT32_MAX
    else if a.dmc.bufferEmpty then 2
    else 2 * TicksToLastFetch(a.dmc)
  }

  /** apu.c:944-950. */
  function CyclesToIrq(a: Apu): (cycles: nat)
    requires Core(a)
    ensures cycles >= 2
  {
    Min(CyclesToFrameIrq(a), CyclesToDmcIrq(a))
  }

  /** No flag is up and none is about to be raised again. */
  predicate NoIrqYet(a: Apu) {
    !a.IrqFlags() && !a.frame.pendingIrq && a.frame.resetDelay == 0
  }

  /** The flag of the sequencer is about to be raised a second or third time. */
  predicate Repeats(a: Apu) { a.frame.pendingIrq && !a.reg.frame.IrqDisable() }

  /** A prediction of this many cycles and more is out of reach of any debt: a sequencer just reset has it. */
  const FRESH_FRAME := 29800

  // --------------------------------------------- what one cycle does to each unit

  lemma CycleDmc(a: Apu, env: Env)
    requires ValidEnv(env) && Inv(a)
    ensures var b := Cycle(a, env);
            && b.reg.dmc == a.reg.dmc && b.cycles2x == a.cycles2x + 1
            && DmcUnit(b.dmc, b.reg.status.dmcIrq) ==
               if a.HalfPhase() == 1
               then DmcTick(DmcUnit(a.dmc, a.reg.status.dmcIrq), a.reg.dmc, env.prg)
               else DmcUnit(a.dmc, a.reg.status.dmcIrq)
  {
    hide Signals, Refresh, Accumulate, ValidPulse, ValidTriangle, ValidNoise, ValidDmc, ValidFrame, CachesAgree,
         DmcTick, FrameTick, PulseTick, NoiseTick, TriangleTick, Mix;
  }

  /** What the frame signals do to the sequencer and its flag, a repeat and a delayed reset included. */
  lemma SignalsFrame(a: Apu)
    requires ValidChannels(a)
    ensures Signals(a).reg == a.reg.(status := a.reg.status.(frameIrq := a.reg.status.frameIrq || Repeats(a)))
    ensures var resets := a.frame.resetDelay == 1;
            Signals(a).frame ==
            FrameCounter(if resets then 0 else a.frame.countdown, if resets then 0 else a.frame.step,
                         if a.frame.resetDelay > 0 then a.frame.resetDelay - 1 else 0,
                         false, false, a.frame.pendingIrq && a.HalfPhase() == 0)
  {
    hide QuarterFrame, HalfFrame, ValidPulse, ValidTriangle, ValidNoise, ValidDmc;
  }

  lemma CycleFrame(a: Apu, env: Env)
    requires ValidEnv(env) && Inv(a)
    ensures var b, s := Cycle(a, env), Signals(a);
            && b.reg.frame == a.reg.frame && s.reg.frame == a.reg.frame && ValidFrame(s.frame, a.reg.frame)
            && FrameUnit(b.frame, b.reg.status.frameIrq) ==
               if a.HalfPhase() == 1
               then FrameTick(FrameUnit(s.frame, s.reg.status.frameIrq), a.reg.frame)
               else FrameUnit(s.frame, s.reg.status.frameIrq)
  {
    hide Signals, Refresh, Accumulate, ValidPulse, ValidTriangle, ValidNoise, ValidDmc, ValidFrame, CachesAgree,
         DmcTick, FrameTick, PulseTick, NoiseTick, TriangleTick, Mix;
  }

  // ------------------------------------------------------- frame counter IRQ

  /** The frame prediction one cycle later, while no flag rises.  A reset starts it afresh; under way to one,
    * a sequencer left on the fifth step by a change of mode may start afresh as well.
    */
  predicate FrameCountsOn(a: Apu, b: Apu)
    requires Core(a) && Core(b)
  {
    var c, d := CyclesToFrameIrq(a), CyclesToFrameIrq(b);
    if a.frame.resetDelay == 0 then d == if c == UINT32_MAX then UINT32_MAX else c - 1
    else if a.frame.resetDelay == 1 || c == UINT32_MAX then d > FRESH_FRAME
    else d == c - 1
  }

  /** One cycle raises the flag exactly if it is repeated or the prediction is spent and no reset comes
    * first; otherwise the prediction counts on.
    */
  lemma FrameIrqCountdown(a: Apu, env: Env)
    requires ValidEnv(env) && Inv(a) && !a.reg.status.frameIrq
    ensures var b := Cycle(a, env);
            && (b.reg.status.frameIrq <==> Repeats(a) || (CyclesToFrameIrq(a) == 2 && a.frame.resetDelay != 1))
            && (!b.reg.status.frameIrq ==>
                  && !Repeats(b) && FrameCountsOn(a, b)
                  && b.frame.resetDelay == if a.frame.resetDelay == 0 then 0 else a.frame.resetDelay - 1)
  {
    hide Cycle, ValidChannels, CachesAgree, Signals;
    CycleDmc(a, env);
    CycleFrame(a, env);
    SignalsFrame(a);
  }

  // ----------------------------------------------------------------- DMC IRQ

  /** CPU cycles to the DMC interrupt, exactly: the returned prediction less the half-phase bit. */
  function ExactDmcIrq(a: Apu): (cycles: nat)
    requires Core(a) && DmcCanInterrupt(a) && !a.dmc.bufferEmpty
    ensures cycles >= 1
  {
    CyclesToDmcIrq(a) - a.HalfPhase()
  }

  /** One tick lowers the closed form by one; the last byte is fetched by the tick that spends it. */
  lemma LastFetchCountdown(u: DmcUnit, reg: DmcReg, prg: seq<u8>)
    requires |prg| == DMC_ADDR_SPACE && ValidDmc(u.dmc) && !u.irq
    requires reg.IrqEnabled() && !reg.Loop() && u.dmc.bytesRemaining > 0 && !u.dmc.bufferEmpty
    ensures var v := DmcTick(u, reg, prg);
            && (TicksToLastFetch(u.dmc) == 1 <==> v.irq)
            && (!v.irq ==> v.dmc.bytesRemaining > 0 && !v.dmc.bufferEmpty &&
                           TicksToLastFetch(v.dmc) == TicksToLastFetch(u.dmc) - 1)
  {
    var d := u.dmc;
    var clocks := d.bitsRemaining + (d.bytesRemaining - 1) * 8;
    if clocks > 1 {
      assert (clocks - 1) * d.timer.period == (clocks - 2) * d.timer.period + d.timer.period;
      LastFetchFits(clocks - 2, d.timer.period);
    }
  }

  lemma DmcIrqCountdown(a: Apu, env: Env)
    requires ValidEnv(env) && Inv(a) && !a.reg.status.dmcIrq
    requires DmcCanInterrupt(a) && !a.dmc.bufferEmpty
    ensures var b := Cycle(a, env);
            && (ExactDmcIrq(a) == 1 <==> b.reg.status.dmcIrq)
            && (ExactDmcIrq(a) > 1 ==> DmcCanInterrupt(b) && !b.dmc.bufferEmpty &&
                                       ExactDmcIrq(b) == ExactDmcIrq(a) - 1)
  {
    hide Cycle, ValidPulse, ValidTriangle, ValidNoise, ValidFrame, CachesAgree, TicksToLastFetch, DmcTick;
    CycleDmc(a, env);
    LastFetchCountdown(DmcUnit(a.dmc, a.reg.status.dmcIrq), a.reg.dmc, env.prg);
  }

  /** A sample that is over, loops or may not interrupt never will. */
  lemma NoDmcIrq(a: Apu, env: Env)
    requires ValidEnv(env) && Inv(a) && !a.reg.status.dmcIrq && !DmcCanInterrupt(a)
    ensures !Cycle(a, env).reg.status.dmcIrq && !DmcCanInterrupt(Cycle(a, env))
  {
    hide Cycle, ValidPulse, ValidTriangle, ValidNoise, ValidFrame, CachesAgree;
    CycleDmc(a, env);
  }

  // ------------------------------------------------------------ whole stretches

  lemma RunFirst(a: Apu, env: Env, n: nat)
    requires ValidEnv(env) && Inv(a) && n > 0
    ensures Run(a, env, n) == Run(Cycle(a, env), env, n - 1)
  {
    hide Cycle, Inv, ValidEnv, Mix;
    RunAdds(a, env, 1, n - 1);
    assert Run(a, env, 0) == a;
    assert Run(a, env, 1) == Cycle(a, env);
  }

  /** From a full buffer the DMC flag rises in exactly the predicted cycle and not before. */
  lemma {:induction false} DmcIrqExact(a: Apu, env: Env, n: nat)
    requires ValidEnv(env) && Inv(a) && !a.reg.status.dmcIrq
    requires DmcCanInterrupt(a) && !a.dmc.bufferEmpty && n <= ExactDmcIrq(a)
    ensures Run(a, env, n).reg.status.dmcIrq <==> n == ExactDmcIrq(a)
    decreases n
  {
    hide Cycle, Core, ValidEnv, Mix, ExactDmcIrq, DmcCanInterrupt;
    if n > 0 {
      DmcIrqCountdown(a, env);
      RunFirst(a, env, n);
      if ExactDmcIrq(a) > 1 {
        DmcIrqExact(Cycle(a, env), env, n - 1);
      }
    }
  }

  /** Exactly when the frame flag is up after n cycles, up to the prediction: it is repeated, or the
    * prediction is one cycle away and no reset came first.
    */
  predicate FrameIrqAfter(a: Apu, n: nat)
    requires Core(a)
  {
    n > 0 && (Repeats(a) || (n + 1 == CyclesToFrameIrq(a) && CyclesToFrameIrq(a) != UINT32_MAX
                             && (a.frame.resetDelay == 0 || n < a.frame.resetDelay)))
  }

  lemma {:induction false} FrameIrqExact(a: Apu, env: Env, n: nat)
    requires ValidEnv(env) && Inv(a) && !a.reg.status.frameIrq
    requires n < CyclesToFrameIrq(a) || CyclesToFrameIrq(a) == UINT32_MAX
    requires a.frame.resetDelay != 0 ==> n < FRESH_FRAME
    ensures Run(a, env, n).reg.status.frameIrq <==> FrameIrqAfter(a, n)
    decreases n
  {
    hide Cycle, Core, ValidEnv, Mix, CyclesToFrameIrq, Repeats;
    if n > 0 {
      FrameIrqCountdown(a, env);
      RunFirst(a, env, n);
      if Cycle(a, env).reg.status.frameIrq {
        FrameFlagStays(Cycle(a, env), env, n - 1);
      } else {
        FrameIrqExact(Cycle(a, env), env, n - 1);
      }
    }
  }

  lemma {:induction false} FrameFlagStays(a: Apu, env: Env, n: nat)
    requires ValidEnv(env) && Inv(a) && a.reg.status.frameIrq
    ensures Run(a, env, n).reg.status.frameIrq
  {
    hide Cycle, Inv, ValidEnv, Mix;
    if n > 0 {
      FrameFlagStays(a, env, n - 1);
      CycleKeepsFlags(Run(a, env, n - 1), env);
    }
  }

  lemma {:induction false} NoDmcIrqEver(a: Apu, env: Env, n: nat)
    requires ValidEnv(env) && Inv(a) && !a.reg.status.dmcIrq && !DmcCanInterrupt(a)
    ensures !Run(a, env, n).reg.status.dmcIrq && !DmcCanInterrupt(Run(a, env, n))
    decreases n
  {
    hide Cycle, Inv, ValidEnv, Mix, DmcCanInterrupt;
    if n > 0 {
      NoDmcIrq(a, env);
      RunFirst(a, env, n);
      NoDmcIrqEver(Cycle(a, env), env, n - 1);
    }
  }

  /** A byte is fetched into an empty buffer by the next APU tick; the last one raises the flag. */
  lemma EmptyBufferFetch(a: Apu, env: Env)
    requires ValidEnv(env) && Inv(a) && !a.reg.status.dmcIrq && DmcCanInterrupt(a) && a.dmc.bufferEmpty
    ensures Cycle(a, env).reg.status.dmcIrq <==> a.HalfPhase() == 1 && a.dmc.bytesRemaining == 1
  {
    hide Cycle, ValidPulse, ValidTriangle, ValidNoise, ValidFrame, CachesAgree;
    CycleDmc(a, env);
  }

  predicate DmcIrqAfter(a: Apu, n: nat)
    requires Core(a)
  {
    && n + 1 == CyclesToDmcIrq(a) && DmcCanInterrupt(a) && a.HalfPhase() == 1
    && (a.dmc.bufferEmpty ==> a.dmc.bytesRemaining == 1)
  }

  /** Short of its prediction the DMC can only interrupt by the half-phase bit. */
  lemma DmcIrqShort(a: Apu, env: Env, n: nat)
    requires ValidEnv(env) && Inv(a) && !a.reg.status.dmcIrq
    requires 0 < n < CyclesToDmcIrq(a)
    ensures Run(a, env, n).reg.status.dmcIrq <==> DmcIrqAfter(a, n)
  {
    hide Cycle, Core, ValidEnv, Mix, Run, TicksToLastFetch;
    if !DmcCanInterrupt(a) {
      NoDmcIrqEver(a, env, n);
    } else if !a.dmc.bufferEmpty {
      if n <= ExactDmcIrq(a) {
        DmcIrqExact(a, env, n);
      }
    } else {
      EmptyBufferFetch(a, env);
      RunOnce(a, env);
    }
  }

  lemma RunOnce(a: Apu, env: Env)
    requires ValidEnv(env) && Inv(a)
    ensures Run(a, env, 1) == Cycle(a, env)
  {
    hide Cycle, Inv;
    assert Run(a, env, 0) == a;
  }

  /** Exactly when a flag is up after n cycles short of the prediction, whatever is pending: the sequencer's
    * flag is repeated, or the prediction is one cycle away and holds to the cycle.
    */
  lemma IrqExact(a: Apu, env: Env, n: nat)
    requires ValidEnv(env) && Inv(a) && !a.IrqFlags()
    requires 0 < n < CyclesToIrq(a) && n < FRESH_FRAME
    ensures Run(a, env, n).IrqFlags() <==> FrameIrqAfter(a, n) || DmcIrqAfter(a, n)
  {
    hide Cycle, Core, ValidEnv, Mix, Run, CyclesToFrameIrq, CyclesToDmcIrq, FrameIrqAfter, DmcIrqAfter;
    FrameIrqExact(a, env, n);
    DmcIrqShort(a, env, n);
  }

  /** Up to its last two cycles the frame prediction counts down cycle by cycle. */
  lemma {:induction false} FrameCountdown(a: Apu, env: Env, n: nat)
    requires ValidEnv(env) && Inv(a)
    requires !a.reg.status.frameIrq && !a.frame.pendingIrq && a.frame.resetDelay == 0
    requires CyclesToFrameIrq(a) != UINT32_MAX && n + 2 <= CyclesToFrameIrq(a)
    ensures var b := Run(a, env, n);
            && !b.reg.status.frameIrq && !b.frame.pendingIrq && b.frame.resetDelay == 0
            && CyclesToFrameIrq(b) == CyclesToFrameIrq(a) - n
  {
    hide Cycle, ValidChannels, CachesAgree, ValidEnv, Mix, CyclesToFrameIrq;
    if n > 0 {
      FrameCountdown(a, env, n - 1);
      FrameIrqCountdown(Run(a, env, n - 1), env);
      NothingPends(Run(a, env, n - 1), env);
    }
  }

  /** The flag is pending to be raised again only after it has been raised. */
  lemma NothingPends(a: Apu, env: Env)
    requires ValidEnv(env) && Inv(a) && !a.frame.pendingIrq && a.frame.resetDelay == 0
    ensures Cycle(a, env).frame.pendingIrq ==> Cycle(a, env).reg.status.frameIrq
  {
    hide Cycle, ValidChannels, CachesAgree, Signals;
    CycleFrame(a, env);
    SignalsFrame(a);
  }

  /** No interrupt is missed: none is raised before the prediction less two cycles. */
  lemma PredictionIsSound(a: Apu, env: Env, n: nat)
    requires ValidEnv(env) && Inv(a) && NoIrqYet(a)
    requires n + 2 <= CyclesToIrq(a)
    ensures !Run(a, env, n).IrqFlags()
  {
    hide Cycle, ValidChannels, CachesAgree, Run;
    FrameIrqExact(a, env, n);
    if !DmcCanInterrupt(a) {
      NoDmcIrqEver(a, env, n);
    } else if !a.dmc.bufferEmpty {
      DmcIrqExact(a, env, n);
    } else {
      RunNothing(a, env, n);
    }
  }

  lemma RunNothing(a: Apu, env: Env, n: nat)
    requires ValidEnv(env) && Inv(a) && n == 0
    ensures Run(a, env, n) == a
  {
  }

  /** When the frame counter gives the minimum, its flag is up one cycle before the prediction. */
  lemma PredictionIsTight(a: Apu, env: Env)
    requires ValidEnv(env) && Inv(a) && NoIrqYet(a)
    requires CyclesToFrameIrq(a) <= CyclesToDmcIrq(a) && CyclesToFrameIrq(a) < UINT32_MAX
    ensures Run(a, env, CyclesToIrq(a) - 1).reg.status.frameIrq
  {
    hide Cycle, ValidChannels, CachesAgree, Run;
    FrameIrqExact(a, env, CyclesToFrameIrq(a) - 1);
  }

  // ------------------------------------------------------- restarting the sequencer

  /** A reset under way comes in the cycle its delay says. */
  lemma {:induction false} ResetComes(a: Apu, env: Env, n: nat)
    requires ValidEnv(env) && Inv(a) && 0 < n <= a.frame.resetDelay
    ensures var b := Run(a, env, n);
            && b.frame.resetDelay == a.frame.resetDelay - n && b.cycles2x == a.cycles2x + n
            && (b.frame.resetDelay == 0 ==>
                  b.frame.step == 0 && b.frame.countdown == if (a.cycles2x + n - 1) % 2 == 1 then 1 else 0)
  {
    hide Cycle, ValidChannels, CachesAgree, Signals, Mix;
    var b := if n == 1 then a else Run(a, env, n - 1);
    if n > 1 {
      ResetComes(a, env, n - 1);
    } else {
      assert Run(a, env, 0) == a;
    }
    CycleDmc(b, env);
    CycleFrame(b, env);
    SignalsFrame(b);
  }

  /** A write to $4017 restarts the sequencer: after three cycles from the middle of an APU cycle, after four from its
    * start, it has made its first tick.
    */
  lemma SequencerRestarts(a: Apu, env: Env, val: u8)
    requires ValidEnv(env) && Inv(a)
    ensures var w := Refresh(Write(a, 0x18, val), env);
            && Inv(w) && w.reg.frame == FrameReg(val)
            && var b := Run(w, env, if a.HalfPhase() == 1 then 3 else 4);
               b.frame.resetDelay == 0 && b.frame.step == 0 && b.frame.countdown == 1
  {
    hide Cycle, Run, Mix, ValidPulse, ValidTriangle, ValidNoise, ValidDmc, ValidFrame, CachesAgree, PulseOutput,
         TriangleOutput, NoiseOutput, Refresh;
    WriteKeepsInv(a, env, 0x18, val);
    var w := Refresh(Write(a, 0x18, val), env);
    ResetComes(w, env, if a.HalfPhase() == 1 then 3 else 4);
  }
}
