/** When the sequencer clocks the slow units, and what the clocks do: every length, envelope and linear counter after
  * any number of cycles, said in ticks.
  */
module ApuClocks {
  import opened Common
  import opened ApuTypes
  import opened ApuChannels
  import opened ApuReference
  import opened ApuIrq

  // --------------------------------------------------------------- the times of the clocks

  /** Ticks of a whole round. */
  function Round(five: bool): (r: nat) ensures r >= 14915 { if five then 18641 else 14915 }

  /** The step of the sequencer by its tick. */
  function StepOf(tick: nat): (step: nat)
    ensures step <= 4
  {
    if tick < 3729 then 0 else if tick < 7457 then 1 else if tick < 11186 then 2 else if tick < 14915 then 3 else 4
  }

  /** Quarter clocks up to a tick: four in every round, with ticks 3729, 7457, 11186 and the last. */
  function Quarters(five: bool, tick: nat): nat {
    4 * (tick / Round(five)) +
    var m := tick % Round(five); if m < 3729 then 0 else if m < 7457 then 1 else if m < 11186 then 2 else 3
  }

  /** Half clocks up to a tick: two in every round, with tick 7457 and the last. */
  function Halves(five: bool, tick: nat): nat {
    2 * (tick / Round(five)) + if tick % Round(five) < 7457 then 0 else 1
  }

  /** The sequencer stands on the step its tick belongs to, with nothing waiting and no restart under way. */
  ghost predicate OnBeat(a: Apu) {
    && a.frame.countdown < Round(a.reg.frame.FiveStep()) && a.frame.step == StepOf(a.frame.countdown)
    && a.frame.resetDelay == 0 && !a.frame.pendingQuarter && !a.frame.pendingHalf
  }

  /** The same after so many ticks of the sequencer, the clocks of the last one perhaps waiting. */
  ghost predicate AtTick(b: Apu, five: bool, tick: nat, ticked: bool) {
    && b.reg.frame.FiveStep() == five && b.frame.resetDelay == 0
    && b.frame.countdown == tick % Round(five) && b.frame.step == StepOf(tick % Round(five))
    && b.frame.pendingQuarter == (ticked && tick > 0 && Quarters(five, tick) > Quarters(five, tick - 1))
    && b.frame.pendingHalf == (ticked && tick > 0 && Halves(five, tick) > Halves(five, tick - 1))
  }

  lemma NextTick(five: bool, tick: nat)
    ensures var m := tick % Round(five);
            if m + 1 < Round(five) then
              (tick + 1) % Round(five) == m + 1 && (tick + 1) / Round(five) == tick / Round(five)
            else (tick + 1) % Round(five) == 0 && (tick + 1) / Round(five) == tick / Round(five) + 1
  {
    DivModStep(tick, Round(five));
  }

  /** The clocks come one at a time, and with these ticks only. */
  lemma ClocksCome(five: bool, tick: nat)
    requires tick > 0
    ensures var m := tick % (if five then 18641 else 14915);
            && Quarters(five, tick) == Quarters(five, tick - 1) + (if m in {3729, 7457, 11186, 0} then 1 else 0)
            && Halves(five, tick) == Halves(five, tick - 1) + (if m in {7457, 0} then 1 else 0)
  {
    NextTick(five, tick - 1);
  }

  lemma NoClocksYet(five: bool)
    ensures Quarters(five, 0) == 0 && Halves(five, 0) == 0
  {
  }

  /** One tick of the sequencer. */
  lemma TickComes(u: FrameUnit, reg: FrameReg, tick: nat)
    requires ValidFrame(u.frame, reg) && !u.frame.pendingQuarter && !u.frame.pendingHalf
    requires var m := tick % Round(reg.FiveStep()); u.frame.countdown == m && u.frame.step == StepOf(m)
    ensures var f, five := FrameTick(u, reg).frame, reg.FiveStep();
            && f.resetDelay == u.frame.resetDelay
            && f.countdown == (tick + 1) % Round(five) && f.step == StepOf((tick + 1) % Round(five))
            && f.pendingQuarter == (Quarters(five, tick + 1) > Quarters(five, tick))
            && f.pendingHalf == (Halves(five, tick + 1) > Halves(five, tick))
  {
    hide Quarters, Halves, Round;
    RoundIs(reg.FiveStep());
    ClocksCome(reg.FiveStep(), tick + 1);
    NextTick(reg.FiveStep(), tick);
  }

  lemma RoundIs(five: bool)
    ensures Round(five) == if five then 18641 else 14915
  {
  }

  /** One cycle of the sequencer. */
  lemma CycleTicks(a: Apu, env: Env, tick: nat, ticked: bool)
    requires ValidEnv(env) && Inv(a) && AtTick(a, a.reg.frame.FiveStep(), tick, ticked)
    ensures AtTick(Cycle(a, env), a.reg.frame.FiveStep(), tick + a.HalfPhase(), a.HalfPhase() == 1)
    ensures Cycle(a, env).cycles2x == a.cycles2x + 1
  {
    hide Cycle, Quarters, Halves, Signals, FrameTick, ValidPulse, ValidTriangle, ValidNoise, ValidDmc, CachesAgree, Mix,
         ValidFrame;
    CycleDmc(a, env);
    SignalsFrame(a);
    CycleFrame(a, env);
    if a.HalfPhase() == 1 {
      TickComes(FrameUnit(Signals(a).frame, Signals(a).reg.status.frameIrq), a.reg.frame, tick);
    }
  }

  /** Ticks after n cycles. */
  function TickAfter(a: Apu, n: nat): nat { a.frame.countdown + (n + a.cycles2x % 2) / 2 }

  lemma {:induction false} RunTicks(a: Apu, env: Env, n: nat)
    requires ValidEnv(env) && Inv(a) && OnBeat(a)
    ensures var b := Run(a, env, n);
            && AtTick(b, a.reg.frame.FiveStep(), TickAfter(a, n), n > 0 && b.HalfPhase() == 0)
            && b.cycles2x == a.cycles2x + n
  {
    hide Cycle, Inv, Mix, ValidEnv, AtTick;
    if n == 0 {
      assert Run(a, env, 0) == a;
      StandsAt(a);
    } else {
      RunTicks(a, env, n - 1);
      var b := Run(a, env, n - 1);
      ModeStays(b, a.reg.frame.FiveStep(), TickAfter(a, n - 1), n > 1 && b.HalfPhase() == 0);
      CycleTicks(b, env, TickAfter(a, n - 1), n > 1 && b.HalfPhase() == 0);
      HalfSteps(a, n);
    }
  }

  lemma StandsAt(a: Apu)
    requires OnBeat(a)
    ensures AtTick(a, a.reg.frame.FiveStep(), TickAfter(a, 0), false)
  {
    hide Quarters, Halves;
    DivModUnique(a.frame.countdown, Round(a.reg.frame.FiveStep()), 0, a.frame.countdown);
  }

  lemma ModeStays(b: Apu, five: bool, tick: nat, ticked: bool)
    requires AtTick(b, five, tick, ticked)
    ensures b.reg.frame.FiveStep() == five
  {
  }

  lemma HalfSteps(a: Apu, n: nat)
    requires n > 0
    ensures TickAfter(a, n) == TickAfter(a, n - 1) + (a.cycles2x + n - 1) % 2
    ensures (a.cycles2x + n) % 2 == 0 <==> (a.cycles2x + n - 1) % 2 == 1
  {
  }

  /** From a restart a quarter clock comes with ticks 3729, 7457, 11186 and 14915, or 18641 in the five-step mode, of
    * every round, and a half clock with 7457 and the last; each waits until the next cycle, and none comes at any other
    * time.
    */
  lemma ClockTimes(a: Apu, env: Env, n: nat)
    requires ValidEnv(env) && Inv(a) && OnBeat(a) && n > 0
    ensures var b := Run(a, env, n);
            var tick := (a.frame.countdown + (n + a.cycles2x % 2) / 2) % if a.reg.frame.v >= 128 then 18641 else 14915;
            && b.frame.countdown == tick
            && (b.frame.pendingQuarter <==> (n + a.cycles2x) % 2 == 0 && tick in {3729, 7457, 11186, 0})
            && (b.frame.pendingHalf <==> (n + a.cycles2x) % 2 == 0 && tick in {7457, 0})
  {
    hide Run, Inv, Mix, ValidEnv, Quarters, Halves;
    RunTicks(a, env, n);
    var t := TickAfter(a, n);
    if (n + a.cycles2x) % 2 == 0 {
      HalfSteps(a, n);
      ClocksCome(a.reg.frame.FiveStep(), t);
    }
  }

  // ---------------------------------------------------------------------- what they do

  /** The frame interrupt comes with the last of the four steps, 14915 ticks after the restart, unless the frame
    * register forbids it or asks for five steps; and it stays until it is taken back.
    */
  lemma InterruptTimes(a: Apu, env: Env, n: nat)
    requires ValidEnv(env) && Inv(a) && OnBeat(a) && !a.reg.status.frameIrq && !a.frame.pendingIrq
    ensures Run(a, env, n).reg.status.frameIrq <==>
            a.reg.frame.v < 64 && a.frame.countdown + (n + a.cycles2x % 2) / 2 >= 14915
  {
    hide Inv, Run, ValidEnv, OnBeat;
    InterruptComes(a, env, n);
  }

  predicate LastStepBy(a: Apu, n: nat) {
    a.reg.frame.v < 64 && a.frame.countdown + (n + a.cycles2x % 2) / 2 >= 14915
  }

  lemma InterruptComes(a: Apu, env: Env, n: nat)
    requires ValidEnv(env) && Inv(a) && OnBeat(a) && !a.reg.status.frameIrq && !a.frame.pendingIrq
    ensures Run(a, env, n).reg.status.frameIrq <==> LastStepBy(a, n)
  {
    hide Inv, Run, Core, ValidEnv, OnBeat, FrameIrqAfter, CyclesToFrameIrq, LastStepBy, UINT32_MAX;
    CoreOf(a);
    var due := CyclesToFrameIrq(a);
    InterruptDue(a, n);
    assert a.frame.resetDelay == 0 by { StandsAt(a); }
    if due == UINT32_MAX || n < due {
      FrameIrqExact(a, env, n);
    } else {
      InterruptDue(a, due - 1);
      FrameIrqExact(a, env, due - 1);
      FrameFlagStays(Run(a, env, due - 1), env, n - (due - 1));
      RunAdds(a, env, due - 1, n - (due - 1));
    }
  }

  lemma CoreOf(a: Apu)
    requires Inv(a)
    ensures Core(a)
  {
  }

  lemma InterruptDue(a: Apu, n: nat)
    requires Core(a) && OnBeat(a) && !a.frame.pendingIrq
    ensures var due := CyclesToFrameIrq(a);
            && (due == UINT32_MAX || n < due ==> (FrameIrqAfter(a, n) <==> LastStepBy(a, n)))
            && (due != UINT32_MAX && n + 1 >= due ==> LastStepBy(a, n))
  {
    hide Core, CyclesToFrameIrq, OnBeat;
    assert a.frame.resetDelay == 0 && a.frame.countdown < Round(a.reg.frame.v >= 128) by { StandsAt(a); }
    PredictedFrom(a);
  }

  lemma PredictedFrom(a: Apu)
    requires Core(a) && OnBeat(a)
    ensures CyclesToFrameIrq(a) == if a.reg.frame.v < 64 then 2 * (14915 - a.frame.countdown) + 1 - a.cycles2x % 2
                                   else UINT32_MAX
  {
  }

  /** A length after one half clock. */
  function Shorter(length: nat, r0: u8, haltBit: nat): nat
    requires haltBit == 5 || haltBit == 7
  {
    if length > 0 && r0 / (if haltBit == 5 then 32 else 128) % 2 == 0 then length - 1 else length
  }

  /** The length counters after the signals that wait. */
  lemma SignalsLengths(a: Apu)
    requires ValidChannels(a) && a.frame.resetDelay == 0
    ensures var b, half := Signals(a), a.frame.pendingHalf;
            && b.pulse1.lengthCounter ==
               (if half then Shorter(a.pulse1.lengthCounter, a.reg.pulse1.r0, 5) else a.pulse1.lengthCounter)
            && b.pulse2.lengthCounter ==
               (if half then Shorter(a.pulse2.lengthCounter, a.reg.pulse2.r0, 5) else a.pulse2.lengthCounter)
            && b.triangle.lengthCounter ==
               (if half then Shorter(a.triangle.lengthCounter, a.reg.triangle.r0, 7) else a.triangle.lengthCounter)
            && b.noise.lengthCounter ==
               (if half then Shorter(a.noise.lengthCounter, a.reg.noise.r0, 5) else a.noise.lengthCounter)
  {
    hide EnvelopeTick, ValidPulse, ValidTriangle, ValidNoise, ValidDmc;
  }

  /** The length counters after the clocks that wait, carried out by a write. */
  lemma FlushLengths(a: Apu)
    requires ValidChannels(a)
    ensures var b, half := Flush(a), a.frame.pendingHalf;
            && b.pulse1.lengthCounter ==
               (if half then Shorter(a.pulse1.lengthCounter, a.reg.pulse1.r0, 5) else a.pulse1.lengthCounter)
            && b.pulse2.lengthCounter ==
               (if half then Shorter(a.pulse2.lengthCounter, a.reg.pulse2.r0, 5) else a.pulse2.lengthCounter)
            && b.triangle.lengthCounter ==
               (if half then Shorter(a.triangle.lengthCounter, a.reg.triangle.r0, 7) else a.triangle.lengthCounter)
            && b.noise.lengthCounter ==
               (if half then Shorter(a.noise.lengthCounter, a.reg.noise.r0, 5) else a.noise.lengthCounter)
            && !b.frame.pendingHalf && !b.frame.pendingQuarter
  {
    hide EnvelopeTick, ValidPulse, ValidTriangle, ValidNoise, ValidDmc;
  }

  /** The envelopes and the linear counter after the signals that wait. */
  lemma SignalsLevels(a: Apu)
    requires ValidChannels(a) && a.frame.resetDelay == 0
    ensures var b, quarter := Signals(a), a.frame.pendingQuarter;
            && b.pulse1.envelope == (if quarter then Fading(a.pulse1.envelope, a.reg.pulse1.r0) else a.pulse1.envelope)
            && b.pulse2.envelope == (if quarter then Fading(a.pulse2.envelope, a.reg.pulse2.r0) else a.pulse2.envelope)
            && b.noise.envelope == (if quarter then Fading(a.noise.envelope, a.reg.noise.r0) else a.noise.envelope)
            && b.triangle.linearCounter ==
               (if !quarter then a.triangle.linearCounter
                else if a.triangle.linearReload then a.reg.triangle.r0 % 128
                else if a.triangle.linearCounter > 0 then a.triangle.linearCounter - 1 else 0)
            && b.triangle.linearReload ==
               (a.triangle.linearReload && !(quarter && a.reg.triangle.r0 < 128))
  {
    hide HalfFrame, QuarterFrame, ValidPulse, ValidTriangle, ValidNoise, ValidDmc;
    var r := RepeatFrameIrq(a);
    var q := r.(frame := r.frame.(pendingQuarter := false));
    QuarterLevels(q);
    SweepLeaves(QuarterFrame(q).(frame := QuarterFrame(q).frame.(pendingHalf := false)));
    SweepLeaves(r.(frame := r.frame.(pendingHalf := false)));
  }

  lemma QuarterLevels(a: Apu)
    requires ValidChannels(a)
    ensures var b := QuarterFrame(a);
            && b.pulse1.envelope == Fading(a.pulse1.envelope, a.reg.pulse1.r0)
            && b.pulse2.envelope == Fading(a.pulse2.envelope, a.reg.pulse2.r0)
            && b.noise.envelope == Fading(a.noise.envelope, a.reg.noise.r0)
            && b.triangle.linearCounter ==
               (if a.triangle.linearReload then a.reg.triangle.r0 % 128
                else if a.triangle.linearCounter > 0 then a.triangle.linearCounter - 1 else 0)
            && b.triangle.linearReload == (a.triangle.linearReload && a.reg.triangle.r0 >= 128)
  {
    hide ValidPulse, ValidTriangle, ValidNoise, ValidDmc;
  }

  /** An envelope after one quarter clock: started at 15, then one less every so many clocks. */
  function Fading(e: Envelope, r0: u8): Envelope {
    if e.startFlag then Envelope(false, r0 % 16, 15)
    else if e.divider > 0 then Envelope(false, e.divider - 1, e.decay)
    else Envelope(false, r0 % 16, if e.decay > 0 then e.decay - 1 else if r0 / 32 % 2 == 1 then 15 else 0)
  }

  lemma SweepLeaves(a: Apu)
    requires ValidChannels(a)
    ensures var h := HalfFrame(a);
            && h.pulse1.envelope == a.pulse1.envelope && h.pulse2.envelope == a.pulse2.envelope
            && h.noise.envelope == a.noise.envelope
            && h.triangle == a.triangle.(lengthCounter := h.triangle.lengthCounter)
  {
    hide ValidTriangle, ValidNoise, ValidDmc, LengthTick;
  }

  /** The rest of a cycle changes none of them. */
  lemma CycleSlow(a: Apu, env: Env)
    requires ValidEnv(env) && Inv(a)
    ensures var b, s := Cycle(a, env), Signals(a);
            && b.pulse1.lengthCounter == s.pulse1.lengthCounter && b.pulse2.lengthCounter == s.pulse2.lengthCounter
            && b.triangle.lengthCounter == s.triangle.lengthCounter && b.noise.lengthCounter == s.noise.lengthCounter
            && b.pulse1.envelope == s.pulse1.envelope && b.pulse2.envelope == s.pulse2.envelope
            && b.noise.envelope == s.noise.envelope
            && b.triangle.linearCounter == s.triangle.linearCounter
            && b.triangle.linearReload == s.triangle.linearReload
            && b.pulse1.sweep == s.pulse1.sweep && b.pulse2.sweep == s.pulse2.sweep
            && b.pulse1.timer.period == s.pulse1.timer.period && b.pulse2.timer.period == s.pulse2.timer.period
            && b.reg == s.reg.(status := b.reg.status) && s.reg == a.reg.(status := s.reg.status)
  {
    hide Signals, Accumulate, ValidPulse, ValidTriangle, ValidNoise, ValidDmc, ValidFrame, CachesAgree,
         DmcTick, FrameTick, Mix, PulseOutput, TriangleOutput, NoiseOutput;
  }

  // ----------------------------------------------------------------------- whole notes

  /** Half clocks carried out in the first n cycles: those whose tick came in the cycles before the last. */
  ghost function HalvesIn(a: Apu, n: nat): (h: int)
  {
    var five := a.reg.frame.FiveStep();
    if n == 0 then 0 else Halves(five, TickAfter(a, n - 1)) - Halves(five, a.frame.countdown)
  }

  ghost function QuartersIn(a: Apu, n: nat): (q: int)
  {
    var five := a.reg.frame.FiveStep();
    if n == 0 then 0 else Quarters(five, TickAfter(a, n - 1)) - Quarters(five, a.frame.countdown)
  }

  /** A clock is carried out exactly in the cycle after its tick. */
  lemma ClocksIn(a: Apu, env: Env, n: nat)
    requires ValidEnv(env) && Inv(a) && OnBeat(a)
    ensures var b := Run(a, env, n);
            && HalvesIn(a, n + 1) == HalvesIn(a, n) + (if b.frame.pendingHalf then 1 else 0)
            && QuartersIn(a, n + 1) == QuartersIn(a, n) + (if b.frame.pendingQuarter then 1 else 0)
    ensures HalvesIn(a, n) >= 0 && QuartersIn(a, n) >= 0
    ensures Run(a, env, n).frame.resetDelay == 0
    decreases n
  {
    hide Run, Inv, Mix, ValidEnv, Quarters, Halves, Round;
    RunTicks(a, env, n);
    if n == 0 {
      NoneAtStart(a, env);
    } else {
      ClocksIn(a, env, n - 1);
      HalfSteps(a, n);
      if TickAfter(a, n) > 0 {
        ClocksCome(a.reg.frame.FiveStep(), TickAfter(a, n));
      }
    }
  }

  lemma NoneAtStart(a: Apu, env: Env)
    requires ValidEnv(env) && Inv(a) && OnBeat(a)
    ensures TickAfter(a, 0) == a.frame.countdown && Run(a, env, 0) == a
  {
    hide Cycle, Inv, Mix, ValidEnv;
  }

  /** What is left of a note after some half clocks. */
  function Left(length: nat, halted: bool, clocks: int): nat {
    if halted || clocks <= 0 then length else if length > clocks then length - clocks else 0
  }

  /** A note of length L that is not halted is over with the L-th half clock, and a halted one keeps its length: on all
    * four channels, after any number of cycles.
    */
  lemma {:induction false} NoteLengths(a: Apu, env: Env, n: nat)
    requires ValidEnv(env) && Inv(a) && OnBeat(a)
    ensures var b, h := Run(a, env, n), HalvesIn(a, n);
            && b.pulse1.lengthCounter == Left(a.pulse1.lengthCounter, a.reg.pulse1.r0 / 32 % 2 == 1, h)
            && b.pulse2.lengthCounter == Left(a.pulse2.lengthCounter, a.reg.pulse2.r0 / 32 % 2 == 1, h)
            && b.triangle.lengthCounter == Left(a.triangle.lengthCounter, a.reg.triangle.r0 >= 128, h)
            && b.noise.lengthCounter == Left(a.noise.lengthCounter, a.reg.noise.r0 / 32 % 2 == 1, h)
            && b.reg == a.reg.(status := b.reg.status)
  {
    hide Cycle, Inv, Mix, ValidEnv, Signals, HalvesIn, OnBeat, Left, Shorter;
    NoClocksIn(a);
    if n == 0 {
      NoneAtStart(a, env);
      NothingGone(a);
    } else {
      NoteLengths(a, env, n - 1);
      ClocksIn(a, env, n - 1);
      var b, h := Run(a, env, n - 1), HalvesIn(a, n - 1);
      ChannelsValid(b);
      SignalsLengths(b);
      CycleSlow(b, env);
      OneGone(a.pulse1.lengthCounter, a.reg.pulse1.r0, 5, h);
      OneGone(a.pulse2.lengthCounter, a.reg.pulse2.r0, 5, h);
      OneGone(a.triangle.lengthCounter, a.reg.triangle.r0, 7, h);
      OneGone(a.noise.lengthCounter, a.reg.noise.r0, 5, h);
    }
  }

  lemma NoClocksIn(a: Apu)
    ensures HalvesIn(a, 0) == 0 && QuartersIn(a, 0) == 0
  {
  }

  lemma NothingGone(a: Apu)
    ensures forall halted | halted == true || halted == false ::
              && Left(a.pulse1.lengthCounter, halted, 0) == a.pulse1.lengthCounter
              && Left(a.pulse2.lengthCounter, halted, 0) == a.pulse2.lengthCounter
              && Left(a.triangle.lengthCounter, halted, 0) == a.triangle.lengthCounter
              && Left(a.noise.lengthCounter, halted, 0) == a.noise.lengthCounter
  {
  }

  lemma OneGone(length: nat, r0: u8, haltBit: nat, h: int)
    requires (haltBit == 5 || haltBit == 7) && h >= 0
    ensures var halted := r0 / (if haltBit == 5 then 32 else 128) % 2 == 1;
            Left(length, halted, h + 1) == Shorter(Left(length, halted, h), r0, haltBit)
  {
  }

  lemma ChannelsValid(a: Apu)
    requires Inv(a)
    ensures ValidChannels(a)
  {
  }

  /** An envelope q quarter clocks after it was started: 15 with the first, then one less after every V + 1 clocks, V
    * being the low four bits of its register, down to 0, from where bit 5 takes it up to 15 again.
    */
  function EnvelopeAt(r0: u8, q: nat): (e: Envelope)
    requires q > 0
  {
    var v := r0 % 16;
    var down := (q - 1) / (v + 1);
    Envelope(false, v - (q - 1) % (v + 1),
             if r0 / 32 % 2 == 1 then 15 - down % 16 else if down < 15 then 15 - down else 0)
  }

  lemma EnvelopeOn(r0: u8, q: nat)
    requires q > 0
    ensures Fading(EnvelopeAt(r0, q), r0) == EnvelopeAt(r0, q + 1)
  {
    var v := r0 % 16;
    DivModStep(q - 1, v + 1);
    var down := (q - 1) / (v + 1);
    assert down % 16 == 15 ==> (down + 1) % 16 == 0;
    assert down % 16 < 15 ==> (down + 1) % 16 == down % 16 + 1;
  }

  lemma EnvelopeStarts(e: Envelope, r0: u8)
    requires e.startFlag
    ensures Fading(e, r0) == EnvelopeAt(r0, 1)
  {
  }

  /** The envelope of a channel that was started, before and after its first clock. */
  function Faded(e: Envelope, r0: u8, q: int): Envelope { if q <= 0 then e else EnvelopeAt(r0, q) }

  lemma OneFaded(e: Envelope, r0: u8, q: int)
    requires q >= 0
    ensures e.startFlag ==> Faded(e, r0, q + 1) == Fading(Faded(e, r0, q), r0)
  {
    hide EnvelopeAt;
    if q == 0 {
      if e.startFlag {
        EnvelopeStarts(e, r0);
      }
    } else {
      EnvelopeOn(r0, q);
    }
  }

  /** Every envelope that was started, after any number of cycles. */
  lemma {:induction false} EnvelopesFade(a: Apu, env: Env, n: nat)
    requires ValidEnv(env) && Inv(a) && OnBeat(a)
    ensures var b, q := Run(a, env, n), QuartersIn(a, n);
            && (a.pulse1.envelope.startFlag ==> b.pulse1.envelope == Faded(a.pulse1.envelope, a.reg.pulse1.r0, q))
            && (a.pulse2.envelope.startFlag ==> b.pulse2.envelope == Faded(a.pulse2.envelope, a.reg.pulse2.r0, q))
            && (a.noise.envelope.startFlag ==> b.noise.envelope == Faded(a.noise.envelope, a.reg.noise.r0, q))
            && b.reg == a.reg.(status := b.reg.status)
  {
    hide Cycle, Inv, Mix, ValidEnv, Signals, QuartersIn, OnBeat, Faded, Fading;
    NoClocksIn(a);
    if n == 0 {
      NoneAtStart(a, env);
      NotFaded(a);
    } else {
      EnvelopesFade(a, env, n - 1);
      ClocksIn(a, env, n - 1);
      var b, q := Run(a, env, n - 1), QuartersIn(a, n - 1);
      ChannelsValid(b);
      SignalsLevels(b);
      CycleSlow(b, env);
      OneFaded(a.pulse1.envelope, a.reg.pulse1.r0, q);
      OneFaded(a.pulse2.envelope, a.reg.pulse2.r0, q);
      OneFaded(a.noise.envelope, a.reg.noise.r0, q);
    }
  }

  lemma NotFaded(a: Apu)
    ensures Faded(a.pulse1.envelope, a.reg.pulse1.r0, 0) == a.pulse1.envelope
    ensures Faded(a.pulse2.envelope, a.reg.pulse2.r0, 0) == a.pulse2.envelope
    ensures Faded(a.noise.envelope, a.reg.noise.r0, 0) == a.noise.envelope
  {
  }

  /** The linear counter of the triangle after a reload was asked for: it is loaded with the first quarter clock, again
    * with every one if the control bit is set, and otherwise runs down to 0.
    */
  lemma {:induction false} LinearRunsDown(a: Apu, env: Env, n: nat)
    requires ValidEnv(env) && Inv(a) && OnBeat(a) && a.triangle.linearReload
    ensures var b, q, load := Run(a, env, n), QuartersIn(a, n), a.reg.triangle.r0 % 128;
            && b.triangle.linearCounter ==
               (if q <= 0 then a.triangle.linearCounter
                else if a.reg.triangle.r0 >= 128 || q == 1 then load
                else if load > q - 1 then load - (q - 1) else 0)
            && b.triangle.linearReload == (q <= 0 || a.reg.triangle.r0 >= 128)
            && b.reg == a.reg.(status := b.reg.status)
  {
    hide Cycle, Inv, Mix, ValidEnv, Signals, QuartersIn, OnBeat;
    NoClocksIn(a);
    if n == 0 {
      NoneAtStart(a, env);
    } else {
      LinearRunsDown(a, env, n - 1);
      ClocksIn(a, env, n - 1);
      var b := Run(a, env, n - 1);
      ChannelsValid(b);
      SignalsLevels(b);
      CycleSlow(b, env);
    }
  }
}
