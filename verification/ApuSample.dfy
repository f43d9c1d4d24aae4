/** The delta channel: the sample in the cartridge, played bit by bit.
  */
module ApuSample {
  import opened Common
  import opened ApuTypes
  import opened ApuChannels
  import opened ApuReference
  import opened ApuIrq
  import opened ApuWave

  /** Bit k of a byte, the lowest first. */
  function BitOf(b: nat, k: nat): (bit: int)
    requires k < 8
    ensures 0 <= bit <= 1
  {
    b / [1, 2, 4, 8, 16, 32, 64, 128][k] % 2
  }

  /** The i-th byte still to be fetched, around the end of the address space at $FFFF to $8000 and, if the sample loops,
    * from its start again; -1 if there is none.
    */
  function MemoryByte(d: Dmc, reg: DmcReg, prg: seq<u8>, i: nat): (b: int)
    requires |prg| == 0x8000
    ensures -1 <= b < 256
  {
    if i < d.bytesRemaining then prg[(d.currAddr + i) % 0x8000]
    else if d.bytesRemaining > 0 && reg.r0 / 64 % 2 == 1 then
      prg[(0x4000 + 64 * reg.sampleAddr + (i - d.bytesRemaining) % (16 * reg.sampleLen + 1)) % 0x8000]
    else -1
  }

  /** The i-th byte after the one being played. */
  function NextByte(d: Dmc, reg: DmcReg, prg: seq<u8>, i: nat): (b: int)
    requires |prg| == 0x8000 && ValidDmc(d)
    ensures -1 <= b < 256
  {
    if d.bufferEmpty then MemoryByte(d, reg, prg, i)
    else if i == 0 then d.sampleBuf
    else MemoryByte(d, reg, prg, i - 1)
  }

  /** The j-th bit to be played, lowest bits of a byte first; -1 where there is nothing to play. */
  function Ahead(d: Dmc, reg: DmcReg, prg: seq<u8>, j: nat): (bit: int)
    requires |prg| == 0x8000 && ValidDmc(d)
    ensures -1 <= bit <= 1
  {
    if j < d.bitsRemaining then if d.silence then -1 else BitOf(d.shiftReg, j)
    else
      var b := NextByte(d, reg, prg, (j - d.bitsRemaining) / 8);
      if b == -1 then -1 else BitOf(b, (j - d.bitsRemaining) % 8)
  }

  /** A one takes the level up by two, a zero down by two, as far as there is room in seven bits. */
  function Stepped(level: nat, bit: int): nat {
    if bit == 1 && level <= 125 then level + 2 else if bit == 0 && level >= 2 then level - 2 else level
  }

  /** The level after the first m bits. */
  function Played(d: Dmc, reg: DmcReg, prg: seq<u8>, m: nat): nat
    requires |prg| == 0x8000 && ValidDmc(d)
  {
    if m == 0 then d.outputLevel else Stepped(Played(d, reg, prg, m - 1), Ahead(d, reg, prg, m - 1))
  }

  // ------------------------------------------------------------------------- one tick

  /** The buffer is full or there is nothing to fill it with. */
  predicate Settled(d: Dmc) { !d.bufferEmpty || d.bytesRemaining == 0 }

  /** The same bits lie ahead. */
  ghost predicate SameAhead(d: Dmc, e: Dmc, reg: DmcReg, prg: seq<u8>, played: nat)
    requires |prg| == 0x8000 && ValidDmc(d) && ValidDmc(e)
  {
    forall j: nat :: Ahead(e, reg, prg, j) == Ahead(d, reg, prg, j + played)
  }

  lemma FetchedByte(d: Dmc, e: Dmc, reg: DmcReg, prg: seq<u8>, i: nat)
    requires |prg| == 0x8000 && ValidDmc(d) && d.bytesRemaining > 0
    requires e == if d.bytesRemaining > 1 then
                    d.(currAddr := (d.currAddr + 1) % 0x8000, bytesRemaining := d.bytesRemaining - 1,
                       sampleBuf := e.sampleBuf, bufferEmpty := false)
                  else if reg.Loop() then
                    d.(currAddr := reg.StartAddr(), bytesRemaining := reg.Length(), sampleBuf := e.sampleBuf,
                       bufferEmpty := false)
                  else d.(currAddr := e.currAddr, bytesRemaining := 0, sampleBuf := e.sampleBuf, bufferEmpty := false)
    ensures MemoryByte(e, reg, prg, i) == MemoryByte(d, reg, prg, i + 1)
  {
    if d.bytesRemaining > 1 {
      AddressOn(d.currAddr, i);
    } else if reg.Loop() {
      LoopAround(i, reg.Length());
    }
  }

  lemma AddressOn(addr: nat, i: nat)
    requires addr < 0x8000
    ensures ((addr + 1) % 0x8000 + i) % 0x8000 == (addr + (i + 1)) % 0x8000
  {
    if addr == 0x7FFF {
      assert (addr + (i + 1)) == 0x8000 + i;
    }
  }

  lemma LoopAround(i: nat, len: nat)
    requires len > 0
    ensures i < len ==> i % len == i
    ensures i >= len ==> (i - len) % len == i % len
  {
    if i < len {
      DivModUnique(i, len, 0, i);
    } else {
      var q, r := (i - len) / len, (i - len) % len;
      assert i - len == q * len + r;
      assert (q + 1) * len == q * len + len;
      DivModUnique(i, len, q + 1, r);
    }
  }

  /** Fetching a byte changes nothing of what lies ahead. */
  lemma FetchAhead(u: DmcUnit, reg: DmcReg, prg: seq<u8>)
    requires |prg| == 0x8000 && ValidDmc(u.dmc)
    ensures var e := DmcFetch(u, reg, prg).dmc;
            && SameAhead(u.dmc, e, reg, prg, 0) && Settled(e)
            && e.timer == u.dmc.timer && e.outputLevel == u.dmc.outputLevel && e.bitsRemaining == u.dmc.bitsRemaining
  {
    hide BitOf, MemoryByte;
    var d, e := u.dmc, DmcFetch(u, reg, prg).dmc;
    if d.bufferEmpty && d.bytesRemaining > 0 {
      forall j: nat
        ensures Ahead(e, reg, prg, j) == Ahead(d, reg, prg, j + 0)
      {
        if j >= d.bitsRemaining {
          var i := (j - d.bitsRemaining) / 8;
          FirstByte(d, reg, prg);
          if i > 0 {
            FetchedByte(d, e, reg, prg, i - 1);
          }
        }
      }
    }
  }

  lemma FirstByte(d: Dmc, reg: DmcReg, prg: seq<u8>)
    requires |prg| == 0x8000 && ValidDmc(d) && d.bytesRemaining > 0
    ensures MemoryByte(d, reg, prg, 0) == prg[d.currAddr]
  {
  }

  lemma ShiftedBit(b: nat, k: nat)
    requires k < 7
    ensures BitOf(b / 2, k) == BitOf(b, k + 1)
  {
    var w := [1, 2, 4, 8, 16, 32, 64, 128];
    assert b / 2 / w[k] == b / w[k + 1];
  }

  /** A clock of the output unit plays the next bit. */
  lemma ClockAhead(d: Dmc, reg: DmcReg, prg: seq<u8>)
    requires |prg| == 0x8000 && ValidDmc(d) && (Settled(d) || d.bitsRemaining > 1)
    ensures var e := DmcClock(d);
            && SameAhead(d, e, reg, prg, 1) && e.outputLevel == Stepped(d.outputLevel, Ahead(d, reg, prg, 0))
            && e.timer == Timer(d.timer.period, d.timer.period)
  {
    hide BitOf, MemoryByte;
    var e := DmcClock(d);
    LowestBit(d.shiftReg);
    forall j: nat
      ensures Ahead(e, reg, prg, j) == Ahead(d, reg, prg, j + 1)
    {
      if d.bitsRemaining > 1 {
        if j < e.bitsRemaining {
          ShiftedBit(d.shiftReg, j);
        }
        SameMemory(d, e, reg, prg, if j < e.bitsRemaining then 0 else (j - e.bitsRemaining) / 8);
      } else if d.bufferEmpty {
        NoMemory(d, reg, prg, j / 8);
        NoMemory(e, reg, prg, if j < 8 then 0 else (j - 8) / 8);
      } else if j >= 8 {
        SameMemory(d, e, reg, prg, (j - 8) / 8);
      }
    }
  }

  lemma LowestBit(b: nat)
    ensures BitOf(b, 0) == b % 2
  {
  }

  lemma NoMemory(d: Dmc, reg: DmcReg, prg: seq<u8>, i: nat)
    requires |prg| == 0x8000 && d.bytesRemaining == 0
    ensures MemoryByte(d, reg, prg, i) == -1
  {
  }

  lemma SameMemory(d: Dmc, e: Dmc, reg: DmcReg, prg: seq<u8>, i: nat)
    requires |prg| == 0x8000 && e.currAddr == d.currAddr && e.bytesRemaining == d.bytesRemaining
    ensures MemoryByte(e, reg, prg, i) == MemoryByte(d, reg, prg, i)
    ensures i > 0 ==> MemoryByte(e, reg, prg, i - 1) == MemoryByte(d, reg, prg, i - 1)
  {
  }

  /** The next byte is fetched before it is wanted. */
  predicate Ready(d: Dmc) { Settled(d) || d.timer.countdown > 1 || d.bitsRemaining > 1 }

  lemma TickAhead(u: DmcUnit, reg: DmcReg, prg: seq<u8>)
    requires |prg| == 0x8000 && ValidDmc(u.dmc) && Ready(u.dmc)
    ensures var d, e := u.dmc, DmcTick(u, reg, prg).dmc;
            && Settled(e) && e.timer.period == d.timer.period
            && (if d.timer.countdown > 1 then
                  && SameAhead(d, e, reg, prg, 0) && e.outputLevel == d.outputLevel
                  && e.timer.countdown == d.timer.countdown - 1
                else
                  && SameAhead(d, e, reg, prg, 1) && e.outputLevel == Stepped(d.outputLevel, Ahead(d, reg, prg, 0))
                  && e.timer.countdown == d.timer.period)
  {
    hide Ahead, DmcClock, DmcFetch, Stepped;
    var d := u.dmc;
    if d.timer.countdown > 1 {
      var c := d.(timer := d.timer.(countdown := d.timer.countdown - 1));
      FetchAhead(DmcUnit(c, u.irq), reg, prg);
      TimerAside(d, c, reg, prg);
    } else {
      ClockAhead(d, reg, prg);
      FetchAhead(DmcUnit(DmcClock(d), u.irq), reg, prg);
    }
  }

  /** The timer has no part in what lies ahead. */
  lemma TimerAside(d: Dmc, c: Dmc, reg: DmcReg, prg: seq<u8>)
    requires |prg| == 0x8000 && ValidDmc(d) && ValidDmc(c) && c == d.(timer := c.timer)
    ensures SameAhead(d, c, reg, prg, 0)
  {
    hide BitOf;
  }

  lemma AheadOn(d: Dmc, e: Dmc, f: Dmc, reg: DmcReg, prg: seq<u8>, m: nat, k: nat)
    requires |prg| == 0x8000 && ValidDmc(d) && ValidDmc(e) && ValidDmc(f)
    requires SameAhead(d, e, reg, prg, m) && SameAhead(e, f, reg, prg, k)
    ensures SameAhead(d, f, reg, prg, m + k)
  {
    hide Ahead;
    forall j: nat
      ensures Ahead(f, reg, prg, j) == Ahead(d, reg, prg, j + (m + k))
    {
      assert Ahead(f, reg, prg, j) == Ahead(e, reg, prg, j + k);
      assert Ahead(e, reg, prg, j + k) == Ahead(d, reg, prg, (j + k) + m);
    }
  }

  // ---------------------------------------------------------------------- over a run

  /** The channel plays the bits of the byte in hand, of the buffer and of the sample in the cartridge one after the
    * other, lowest first, one every P ticks of the unit: after any number of cycles its level is what the bits played
    * so far make of it.
    */
  lemma {:induction false} SamplePlays(a: Apu, env: Env, n: nat)
    requires ValidEnv(env) && Inv(a) && Ready(a.dmc)
    ensures ValidDmc(a.dmc) && ValidDmc(Run(a, env, n).dmc)
    ensures var d, e, reg, t := a.dmc, Run(a, env, n).dmc, a.reg.dmc, (n + a.cycles2x % 2) / 2;
            var m := RunsOut(d.timer.countdown - 1, d.timer.period - 1, t);
            && e.outputLevel == Played(d, reg, env.prg, m) && SameAhead(d, e, reg, env.prg, m) && Ready(e)
            && e.timer == Timer(d.timer.period, StandsAt(d.timer.countdown - 1, d.timer.period - 1, t) + 1)
            && Run(a, env, n).reg.dmc == reg && Run(a, env, n).cycles2x == a.cycles2x + n
  {
    hide Cycle, Inv, Mix, StandsAt, RunsOut, Ahead, Ready, DmcTick;
    DmcValid(a);
    DmcValid(Run(a, env, n));
    var d, c, p := a.dmc, a.dmc.timer.countdown - 1, a.dmc.timer.period - 1;
    if n == 0 {
      assert Run(a, env, 0) == a;
      NoTick(c, p);
      TimerAside(d, d, a.reg.dmc, env.prg);
    } else {
      SamplePlays(a, env, n - 1);
      var b := Run(a, env, n - 1);
      CycleDmc(b, env);
      var t := (n - 1 + a.cycles2x % 2) / 2;
      assert (n + a.cycles2x % 2) / 2 == t + b.cycles2x % 2;
      OneTick(c, p, t);
      if b.HalfPhase() == 1 {
        var u := DmcUnit(b.dmc, b.reg.status.dmcIrq);
        TickAhead(u, a.reg.dmc, env.prg);
        var m, e := RunsOut(c, p, t), Run(a, env, n).dmc;
        AheadOn(d, b.dmc, e, a.reg.dmc, env.prg, m, if b.dmc.timer.countdown > 1 then 0 else 1);
        assert Ahead(b.dmc, a.reg.dmc, env.prg, 0) == Ahead(d, a.reg.dmc, env.prg, 0 + m);
        assert Ready(e) by { SettledReady(e); }
      }
    }
  }

  lemma SettledReady(d: Dmc)
    ensures Settled(d) ==> Ready(d)
  {
  }

  lemma DmcValid(a: Apu)
    requires Inv(a)
    ensures ValidDmc(a.dmc)
  {
  }
}
