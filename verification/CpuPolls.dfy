/** When the devices have to catch up, and what the processor sees of their interrupt lines meanwhile.
  */
module CpuPolls {
  import opened Common
  import ApuTypes
  import ApuReference
  import ApuIrq
  import ApuFlags
  import ApuDevice
  import ApuTheorems
  import CpuReference
  import PpuTypes
  import PpuReference
  import PpuTheorems
  import PpuNmi

  /** The earlier of the two predictions. */
  function Predicted(a: ApuTypes.Apu, p: PpuTypes.Ppu): nat
    requires ApuReference.Core(a) && PpuTypes.AtRest(p)
  {
    Min(PpuTheorems.CyclesToNmi(p), ApuIrq.CyclesToIrq(a))
  }

  /** Time alone lowers no interrupt flag. */
  lemma FlagsStay(a: ApuTypes.Apu, env: ApuTypes.Env)
    requires ApuTypes.ValidEnv(env) && ApuReference.Inv(a) && a.irq
    ensures ApuReference.Cycle(a, env).irq
  {
    hide ApuReference.Cycle, ApuReference.ValidChannels, ApuReference.CachesAgree;
    ApuFlags.CycleKeepsFlags(a, env);
  }

  lemma {:induction false} IrqStays(a: ApuTypes.Apu, env: ApuTypes.Env, n: nat)
    requires ApuTypes.ValidEnv(env) && ApuReference.Inv(a) && a.irq
    ensures ApuReference.Run(a, env, n).irq
  {
    hide ApuReference.Cycle, ApuReference.Inv, ApuReference.Mix, ApuTypes.ValidEnv;
    if n > 0 {
      IrqStays(a, env, n - 1);
      FlagsStay(ApuReference.Run(a, env, n - 1), env);
    }
  }

  /** The line n cycles after a sync that found it down, as long as n is short of the deadline: it is up if the
    * sequencer raises its flag again, or in the last cycle before a prediction that is exact.
    */
  predicate IrqLate(a: ApuTypes.Apu, n: nat)
    requires ApuReference.Core(a)
  {
    !a.irq && (ApuIrq.FrameIrqAfter(a, n) || ApuIrq.DmcIrqAfter(a, n))
  }

  /** Between two syncs the processor polls a line some cycles old.  It never sees an interrupt that is not
    * there, and exactly in the late states it does not see one that is.
    */
  lemma IrqPoll(a: ApuTypes.Apu, env: ApuTypes.Env, p: PpuTypes.Ppu, pending: nat)
    requires ApuTypes.ValidEnv(env) && ApuReference.Inv(a) && PpuTypes.AtRest(p)
    requires pending == 0 || pending < Predicted(a, p)
    ensures a.irq <==> ApuReference.Run(a, env, pending).irq && !IrqLate(a, pending)
  {
    hide ApuReference.Cycle, ApuReference.Core, ApuReference.Mix, ApuTypes.ValidEnv, ApuReference.Run,
         ApuIrq.FrameIrqAfter, ApuIrq.DmcIrqAfter;
    if a.irq {
      IrqStays(a, env, pending);
    } else if pending == 0 {
      ApuIrq.RunNothing(a, env, 0);
    } else {
      DeadlineFits(a, p);
      ApuIrq.IrqExact(a, env, pending);
    }
  }

  /** With nothing to be repeated the poll misses an interrupt in the last cycle before the deadline only. */
  lemma LateIsLastCycle(a: ApuTypes.Apu, p: PpuTypes.Ppu, pending: nat)
    requires ApuReference.Core(a) && PpuTypes.AtRest(p) && 0 < pending < Predicted(a, p)
    ensures IrqLate(a, pending) && !ApuIrq.Repeats(a) ==> pending + 1 == Predicted(a, p)
  {
    hide ApuReference.Core;
  }

  /** A flag raised by the sequencer and acknowledged before it is repeated: the repetition comes one cycle later,
    * a frame ahead of the fresh prediction, so the poll sees nothing of it.
    */
  lemma RepeatIsMissed(c: ApuTypes.Apu, env: ApuTypes.Env)
    requires ApuTypes.ValidEnv(env) && ApuReference.Inv(c) && ApuIrq.NoIrqYet(c)
    requires ApuIrq.CyclesToFrameIrq(c) == 2 && !ApuIrq.DmcCanInterrupt(c)
    ensures var b := ApuReference.Cycle(c, env);
            var a := CpuReference.Acknowledged(b);
            && b.irq && ApuReference.Inv(a) && !a.irq && ApuIrq.CyclesToIrq(a) >= 29830
            && ApuReference.Run(a, env, 1).irq && IrqLate(a, 1)
  {
    hide ApuReference.Cycle, ApuReference.ValidChannels, ApuReference.CachesAgree, ApuReference.Mix,
         ApuReference.Signals, ApuReference.Run;
    var b := ApuReference.Cycle(c, env);
    var a := CpuReference.Acknowledged(b);
    ApuIrq.CycleDmc(c, env);
    ApuIrq.CycleFrame(c, env);
    ApuIrq.SignalsFrame(c);
    ApuIrq.NoDmcIrq(c, env);
    CpuReference.AcknowledgedInv(b, env);
    ApuIrq.IrqExact(a, env, 1);
  }

  /** Left alone, any unit with its frame interrupt on comes to such a state. */
  lemma RepeatAhead(a: ApuTypes.Apu, env: ApuTypes.Env, n: nat)
    requires ApuTypes.ValidEnv(env) && ApuReference.Inv(a) && ApuIrq.NoIrqYet(a) && !ApuIrq.DmcCanInterrupt(a)
    requires ApuIrq.CyclesToFrameIrq(a) == n + 2 != ApuTypes.UINT32_MAX
    ensures var c := ApuReference.Run(a, env, n);
            ApuIrq.NoIrqYet(c) && ApuIrq.CyclesToFrameIrq(c) == 2 && !ApuIrq.DmcCanInterrupt(c)
  {
    hide ApuReference.Run, ApuReference.Inv, ApuIrq.CyclesToFrameIrq, ApuIrq.DmcCanInterrupt, ApuTypes.ValidEnv;
    ApuIrq.FrameCountdown(a, env, n);
    ApuIrq.NoDmcIrqEver(a, env, n);
  }

  /** Power-on is such a unit. */
  lemma PowerOnRepeats()
    ensures ApuReference.Inv(ApuDevice.PowerOn())
    ensures ApuIrq.NoIrqYet(ApuDevice.PowerOn()) && !ApuIrq.DmcCanInterrupt(ApuDevice.PowerOn())
    ensures ApuIrq.CyclesToFrameIrq(ApuDevice.PowerOn()) == 29821
  {
    hide ApuReference.Inv, ApuReference.LevelsBounded;
    ApuTheorems.PowerOnInv();
  }

  /** An NMI raised in the last cycle before the deadline, a skipped dot having made the difference of a whole
    * cycle.
    */
  predicate NmiLate(p: PpuTypes.Ppu, n: nat)
    requires PpuTypes.AtRest(p)
  {
    && n > 0 && n + 1 >= PpuTheorems.CyclesToNmi(p)
    && PpuTheorems.SkipBeforeVblank(p) == 1 && PpuTheorems.DotsToVblank(p) % 3 == 1
    && !p.status.nmi && !p.status.readRace && p.NmiEnabled()
  }

  /** The same for the NMI: the bit is polled right but in the late states. */
  lemma NmiPoll(p: PpuTypes.Ppu, mem: PpuTypes.Mem, pending: nat)
    requires PpuTypes.ValidMem(mem) && PpuTypes.AtRest(p)
    requires pending == 0 || pending < PpuTheorems.CyclesToNmi(p)
    ensures p.status.nmi <==> PpuReference.Dots(p, mem, 3 * pending).status.nmi && !NmiLate(p, pending)
  {
    hide PpuReference.Dots, PpuTypes.ValidMem, PpuTypes.AtRest, PpuTheorems.VblankBy;
    if pending == 0 {
      PpuNmi.NothingYet(p, mem);
    } else {
      PpuNmi.NmiAfter(p, mem, 3 * pending);
      PpuTheorems.VblankExact(p, mem, 3 * pending);
    }
  }

  /** Never more than a frame is owed, so no counter of the protocol can overflow. */
  lemma DeadlineFits(a: ApuTypes.Apu, p: PpuTypes.Ppu)
    requires ApuReference.Core(a) && PpuTypes.AtRest(p)
    ensures Predicted(a, p) <= 29781
  {
    hide ApuReference.Core;
  }
}
