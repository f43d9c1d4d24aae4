/** The sweep units: where they aim, when they move the period, and the restart that clocks everything at once.
  */
module ApuSweep {
  import opened Common
  import opened ApuTypes
  import opened ApuChannels
  import opened ApuReference
  import opened ApuIrq
  import opened ApuClocks

  /** The sweep aims at the period and its 2^s-th part more, or less if bit 3 is set, the first pulse then one below
    * that; the pulse is mute if its period is below 8 or the aim above 11 bits.
    */
  ghost predicate Aimed(p: Pulse, r1: u8, first: bool) {
    var part := p.timer.period / [1, 2, 4, 8, 16, 32, 64, 128][r1 % 8];
    var aim := if r1 / 8 % 2 == 0 then p.timer.period + part
               else if first then p.timer.period - part - 1 else p.timer.period - part;
    p.sweep.targetPeriod == (if aim < 0 then 0 else aim) && (p.sweep.mute <==> p.timer.period < 8 || aim > 0x7FF)
  }

  lemma PartOf(shift: nat)
    requires shift < 8
    ensures Pow2(shift) == [1, 2, 4, 8, 16, 32, 64, 128][shift]
  {
    assert Pow2(1) == 2 && Pow2(2) == 4 && Pow2(3) == 8 && Pow2(4) == 16;
    assert Pow2(5) == 32 && Pow2(6) == 64 && Pow2(7) == 128;
  }

  lemma Aims(p: Pulse, reg: PulseReg, first: bool)
    requires ValidPulse(p)
    ensures var q := SweepTarget(p, reg, first);
            Aimed(q, reg.r1, first) && q == p.(sweep := q.sweep) && q.sweep.reload == p.sweep.reload
  {
    hide Pow2;
    PartOf(reg.r1 % 8);
  }

  /** The period is to move with the next half clock. */
  predicate Moves(p: Pulse, r1: u8) { p.sweep.divider == 0 && r1 >= 128 && r1 % 8 != 0 && !p.sweep.mute }

  /** One half clock of a sweep: if the divider has run out, the sweep is on and the pulse not mute, the period becomes
    * what was aimed at and the sweep aims anew; the divider starts over or goes down.
    */
  ghost predicate Swept(p: Pulse, q: Pulse, r1: u8, first: bool) {
    && q.timer.period == (if Moves(p, r1) then p.sweep.targetPeriod else p.timer.period)
    && (if Moves(p, r1) then Aimed(q, r1, first)
        else q.sweep.targetPeriod == p.sweep.targetPeriod && q.sweep.mute == p.sweep.mute)
    && q.sweep.divider == (if p.sweep.divider == 0 || p.sweep.reload then r1 / 16 % 8 else p.sweep.divider - 1)
    && !q.sweep.reload
  }

  lemma SweepTicks(p: Pulse, reg: PulseReg, first: bool)
    requires ValidPulse(p)
    ensures Swept(p, SweepTick(p, reg, first), reg.r1, first)
  {
    hide SweepTarget, Aimed;
    if Moves(p, reg.r1) {
      Aims(p.(timer := p.timer.(period := p.sweep.targetPeriod)), reg, first);
      AimedBySweep(SweepTarget(p.(timer := p.timer.(period := p.sweep.targetPeriod)), reg, first),
                   SweepTick(p, reg, first), reg.r1, first);
    }
  }

  /** Only the aim matters. */
  lemma AimedBySweep(p: Pulse, q: Pulse, r1: u8, first: bool)
    requires Aimed(p, r1, first) && q.timer == p.timer
    requires q.sweep.targetPeriod == p.sweep.targetPeriod && q.sweep.mute == p.sweep.mute
    ensures Aimed(q, r1, first)
  {
  }

  /** In a cycle without a restart both sweeps are clocked exactly if a half clock waits. */
  lemma CycleSweeps(a: Apu, env: Env)
    requires ValidEnv(env) && Inv(a) && a.frame.resetDelay == 0
    ensures var b := Cycle(a, env);
            if a.frame.pendingHalf then
              && Swept(a.pulse1, b.pulse1, a.reg.pulse1.r1, true) && Swept(a.pulse2, b.pulse2, a.reg.pulse2.r1, false)
            else
              && b.pulse1.sweep == a.pulse1.sweep && b.pulse2.sweep == a.pulse2.sweep
              && b.pulse1.timer.period == a.pulse1.timer.period && b.pulse2.timer.period == a.pulse2.timer.period
  {
    hide Cycle, Signals, Core, Mix, Swept;
    ChannelsValid(a);
    SignalsSweep(a);
    CycleSlow(a, env);
    var s, b := Signals(a), Cycle(a, env);
    if a.frame.pendingHalf {
      SweptSame(a.pulse1, s.pulse1, b.pulse1, a.reg.pulse1.r1, true);
      SweptSame(a.pulse2, s.pulse2, b.pulse2, a.reg.pulse2.r1, false);
    }
  }

  lemma SweptSame(p: Pulse, q: Pulse, r: Pulse, r1: u8, first: bool)
    requires Swept(p, q, r1, first) && r.sweep == q.sweep && r.timer.period == q.timer.period
    ensures Swept(p, r, r1, first)
  {
  }

  lemma SweptFrom(o: Pulse, p: Pulse, q: Pulse, r1: u8, first: bool)
    requires Swept(p, q, r1, first) && o.sweep == p.sweep && o.timer == p.timer
    ensures Swept(o, q, r1, first)
  {
  }

  lemma SignalsSweep(a: Apu)
    requires ValidChannels(a) && a.frame.resetDelay == 0
    ensures var b := Signals(a);
            if a.frame.pendingHalf then
              && Swept(a.pulse1, b.pulse1, a.reg.pulse1.r1, true) && Swept(a.pulse2, b.pulse2, a.reg.pulse2.r1, false)
            else
              && b.pulse1.sweep == a.pulse1.sweep && b.pulse2.sweep == a.pulse2.sweep
              && b.pulse1.timer == a.pulse1.timer && b.pulse2.timer == a.pulse2.timer
  {
    hide HalfFrame, QuarterFrame, ValidPulse, ValidTriangle, ValidNoise, ValidDmc, Swept;
    var r := RepeatFrameIrq(a);
    var q := r.(frame := r.frame.(pendingQuarter := false));
    QuarterLeaves(q);
    HalfSweeps(QuarterFrame(q).(frame := QuarterFrame(q).frame.(pendingHalf := false)), a);
    HalfSweeps(r.(frame := r.frame.(pendingHalf := false)), a);
  }

  lemma QuarterLeaves(a: Apu)
    requires ValidChannels(a)
    ensures var b := QuarterFrame(a);
            && b.pulse1 == a.pulse1.(envelope := b.pulse1.envelope)
            && b.pulse2 == a.pulse2.(envelope := b.pulse2.envelope)
  {
    hide ValidPulse, ValidTriangle, ValidNoise, ValidDmc, EnvelopeTick;
  }

  lemma HalfSweeps(h: Apu, a: Apu)
    requires ValidChannels(h) && ValidChannels(a)
    requires h.pulse1 == a.pulse1.(envelope := h.pulse1.envelope)
    requires h.pulse2 == a.pulse2.(envelope := h.pulse2.envelope)
    requires h.reg.pulse1 == a.reg.pulse1 && h.reg.pulse2 == a.reg.pulse2
    ensures Swept(a.pulse1, HalfFrame(h).pulse1, a.reg.pulse1.r1, true)
    ensures Swept(a.pulse2, HalfFrame(h).pulse2, a.reg.pulse2.r1, false)
  {
    hide ValidTriangle, ValidNoise, ValidDmc, SweepTick, Swept;
    var p := h.pulse1.(lengthCounter := LengthTick(h.pulse1.lengthCounter, h.reg.pulse1.Halt()));
    var q := h.pulse2.(lengthCounter := LengthTick(h.pulse2.lengthCounter, h.reg.pulse2.Halt()));
    SweepTicks(p, h.reg.pulse1, true);
    SweepTicks(q, h.reg.pulse2, false);
    SweptFrom(a.pulse1, p, SweepTick(p, h.reg.pulse1, true), a.reg.pulse1.r1, true);
    SweptFrom(a.pulse2, q, SweepTick(q, h.reg.pulse2, false), a.reg.pulse2.r1, false);
  }

  // -------------------------------------------------------------------- over a run

  /** The divider of a sweep h half clocks after a write to its register: it comes to 0, and with it the next move, once
    * in P + 1 clocks.
    */
  function DividerAt(divider: nat, r1: u8, h: int): int {
    var p := r1 / 16 % 8;
    if h <= 0 then divider else p - (h - 1) % (p + 1)
  }

  lemma OneDivided(divider: nat, r1: u8, h: int)
    requires h >= 0
    ensures var d := DividerAt(divider, r1, h);
            DividerAt(divider, r1, h + 1) == if d == 0 || h == 0 then r1 / 16 % 8 else d - 1
  {
    if h > 0 {
      DivModStep(h - 1, r1 / 16 % 8 + 1);
    }
  }

  lemma {:induction false} SweepDivides(a: Apu, env: Env, n: nat)
    requires ValidEnv(env) && Inv(a) && OnBeat(a)
    ensures var b, h := Run(a, env, n), HalvesIn(a, n);
            && (a.pulse1.sweep.reload ==>
                  && b.pulse1.sweep.divider == DividerAt(a.pulse1.sweep.divider, a.reg.pulse1.r1, h)
                  && b.pulse1.sweep.reload == (h <= 0))
            && (a.pulse2.sweep.reload ==>
                  && b.pulse2.sweep.divider == DividerAt(a.pulse2.sweep.divider, a.reg.pulse2.r1, h)
                  && b.pulse2.sweep.reload == (h <= 0))
            && b.reg == a.reg.(status := b.reg.status)
  {
    hide Cycle, Inv, Mix, ValidEnv, HalvesIn, OnBeat, DividerAt, Aimed;
    NoClocksIn(a);
    if n == 0 {
      NoneAtStart(a, env);
      Undivided(a);
    } else {
      SweepDivides(a, env, n - 1);
      ClocksIn(a, env, n - 1);
      var b, h := Run(a, env, n - 1), HalvesIn(a, n - 1);
      CycleSweeps(b, env);
      RegistersStay(b, env);
      OneDivided(a.pulse1.sweep.divider, a.reg.pulse1.r1, h);
      OneDivided(a.pulse2.sweep.divider, a.reg.pulse2.r1, h);
    }
  }

  lemma Undivided(a: Apu)
    ensures DividerAt(a.pulse1.sweep.divider, a.reg.pulse1.r1, 0) == a.pulse1.sweep.divider
    ensures DividerAt(a.pulse2.sweep.divider, a.reg.pulse2.r1, 0) == a.pulse2.sweep.divider
  {
  }

  lemma RegistersStay(b: Apu, env: Env)
    requires ValidEnv(env) && Inv(b)
    ensures Cycle(b, env).reg == b.reg.(status := Cycle(b, env).reg.status)
  {
    hide Cycle, Signals, Core, Mix;
    CycleSlow(b, env);
  }

  /** A sweep that is off leaves the period alone. */
  lemma {:induction false} PeriodStays(a: Apu, env: Env, n: nat)
    requires ValidEnv(env) && Inv(a) && OnBeat(a)
    ensures var b := Run(a, env, n);
            && (a.reg.pulse1.r1 < 128 || a.reg.pulse1.r1 % 8 == 0 ==>
                  b.pulse1.timer.period == a.pulse1.timer.period && b.pulse1.sweep.mute == a.pulse1.sweep.mute)
            && (a.reg.pulse2.r1 < 128 || a.reg.pulse2.r1 % 8 == 0 ==>
                  b.pulse2.timer.period == a.pulse2.timer.period && b.pulse2.sweep.mute == a.pulse2.sweep.mute)
            && b.reg == a.reg.(status := b.reg.status)
  {
    hide Cycle, Inv, Mix, ValidEnv, OnBeat, Aimed;
    if n == 0 {
      NoneAtStart(a, env);
    } else {
      PeriodStays(a, env, n - 1);
      ClocksIn(a, env, n - 1);
      var b := Run(a, env, n - 1);
      CycleSweeps(b, env);
      RegistersStay(b, env);
    }
  }

  // -------------------------------------------------------------------- the restart

  /** The restart after a write to $4017 clocks every slow unit at once in the five-step mode, and none in the other. */
  lemma RestartClocks(a: Apu, env: Env)
    requires ValidEnv(env) && Inv(a) && a.frame.resetDelay == 1 && !a.frame.pendingQuarter && !a.frame.pendingHalf
    ensures var b, five := Cycle(a, env), a.reg.frame.v >= 128;
            && b.pulse1.lengthCounter ==
               (if five then Shorter(a.pulse1.lengthCounter, a.reg.pulse1.r0, 5) else a.pulse1.lengthCounter)
            && b.pulse2.lengthCounter ==
               (if five then Shorter(a.pulse2.lengthCounter, a.reg.pulse2.r0, 5) else a.pulse2.lengthCounter)
            && b.triangle.lengthCounter ==
               (if five then Shorter(a.triangle.lengthCounter, a.reg.triangle.r0, 7) else a.triangle.lengthCounter)
            && b.noise.lengthCounter ==
               (if five then Shorter(a.noise.lengthCounter, a.reg.noise.r0, 5) else a.noise.lengthCounter)
            && b.pulse1.envelope == (if five then Fading(a.pulse1.envelope, a.reg.pulse1.r0) else a.pulse1.envelope)
            && b.pulse2.envelope == (if five then Fading(a.pulse2.envelope, a.reg.pulse2.r0) else a.pulse2.envelope)
            && b.noise.envelope == (if five then Fading(a.noise.envelope, a.reg.noise.r0) else a.noise.envelope)
  {
    hide Cycle, Signals, Core, Mix;
    ChannelsValid(a);
    CycleSlow(a, env);
    RestartSignals(a);
  }

  lemma RestartSignals(a: Apu)
    requires ValidChannels(a) && a.frame.resetDelay == 1 && !a.frame.pendingQuarter && !a.frame.pendingHalf
    ensures var s := Signals(a);
            if a.reg.frame.v < 128 then
              && s.pulse1 == a.pulse1 && s.pulse2 == a.pulse2 && s.triangle == a.triangle && s.noise == a.noise
            else
              && s.pulse1.lengthCounter == Shorter(a.pulse1.lengthCounter, a.reg.pulse1.r0, 5)
              && s.pulse2.lengthCounter == Shorter(a.pulse2.lengthCounter, a.reg.pulse2.r0, 5)
              && s.triangle.lengthCounter == Shorter(a.triangle.lengthCounter, a.reg.triangle.r0, 7)
              && s.noise.lengthCounter == Shorter(a.noise.lengthCounter, a.reg.noise.r0, 5)
              && s.pulse1.envelope == Fading(a.pulse1.envelope, a.reg.pulse1.r0)
              && s.pulse2.envelope == Fading(a.pulse2.envelope, a.reg.pulse2.r0)
              && s.noise.envelope == Fading(a.noise.envelope, a.reg.noise.r0)
  {
    hide HalfFrame, QuarterFrame, ValidPulse, ValidTriangle, ValidNoise, ValidDmc, Fading, Shorter;
    var r := RepeatFrameIrq(a);
    var b := r.(frame := r.frame.(resetDelay := 0, countdown := 0, step := 0));
    QuarterLevels(b);
    QuarterKeepsLengths(b);
    SweepLeaves(QuarterFrame(b));
    HalfLengths(QuarterFrame(b));
  }

  lemma QuarterKeepsLengths(a: Apu)
    requires ValidChannels(a)
    ensures var b := QuarterFrame(a);
            && b.pulse1.lengthCounter == a.pulse1.lengthCounter && b.pulse2.lengthCounter == a.pulse2.lengthCounter
            && b.triangle.lengthCounter == a.triangle.lengthCounter && b.noise.lengthCounter == a.noise.lengthCounter
  {
    hide ValidPulse, ValidTriangle, ValidNoise, ValidDmc, EnvelopeTick;
  }

  lemma HalfLengths(a: Apu)
    requires ValidChannels(a)
    ensures var b := HalfFrame(a);
            && b.pulse1.lengthCounter == Shorter(a.pulse1.lengthCounter, a.reg.pulse1.r0, 5)
            && b.pulse2.lengthCounter == Shorter(a.pulse2.lengthCounter, a.reg.pulse2.r0, 5)
            && b.triangle.lengthCounter == Shorter(a.triangle.lengthCounter, a.reg.triangle.r0, 7)
            && b.noise.lengthCounter == Shorter(a.noise.lengthCounter, a.reg.noise.r0, 5)
  {
    hide ValidTriangle, ValidNoise, ValidDmc;
  }
}
