/** The processor's side of the machine as the source has it: cycles are owed to the devices and paid
  * when somebody could notice.
  */
module CpuDevice {
  import opened Common
  import opened CpuReference
  import opened CpuProgram
  import opened CpuFollows
  import opened CpuPolls
  import opened CpuInterrupts
  import ApuTypes
  import ApuReference
  import ApuRegisters
  import ApuBatch
  import ApuIrq
  import ApuDevice
  import ApuTheorems
  import ApuHeard
  import PpuTypes
  import PpuReference
  import PpuRegisters
  import PpuTheorems
  import PpuNmi
  import PpuDark
  import PpuDevice

  /** What a program sees of a byte it has read: the invented bit of a status byte is left out. */
  function Visible(addr: nat, val: u8): u8 {
    if IsPpu(addr) then val - 2 * (val / 2 % 2) else val
  }

  /** The unit with its cached mix put right: what it is until its first cycle but for the level of that cycle. */
  ghost function RightMix(a: ApuTypes.Apu, env: ApuTypes.Env): ApuTypes.Apu {
    if ApuTypes.ValidEnv(env) && ApuReference.ValidChannels(a) then a.(outputMix := ApuReference.Mix(a, env)) else a
  }

  class Cpu {
    const apu: ApuDevice.Device
    const ppu: PpuDevice.Device
    const ram: array<u8>
    const cart: Cart
    var env: ApuTypes.Env
    var mem: PpuTypes.Mem
    /** Every write the cartridge has received. */
    var banks: seq<BankWrite>
    var cycles: nat
    var ioInsnCycles: nat
    var pending: nat
    var deadline: nat
    /** Dots the picture unit has been asked for. */
    ghost var dots: nat
    /** The audio unit has had its first cycle, so its cached mix is right. */
    ghost var booted: bool
    /** NMIs taken so far. */
    ghost var served: nat
    /** The last poll found an NMI pending and latched it. */
    ghost var promised: bool

    ghost function Footprint(): set<object> {
      {this, apu, ppu, ppu.lineSprites, ppu.screen, ram}
    }

    ghost predicate Wired()
      reads `env, `mem, apu, ppu, ppu.lineSprites, ppu.screen
    {
      && ppu.Wf() && ram != ppu.lineSprites && ram != ppu.screen && ram.Length == RAM_SIZE && ValidCart(cart)
      && ApuTypes.ValidEnv(env) && PpuTypes.ValidMem(mem)
      && ApuReference.Inv(apu.View()) && ApuReference.LevelsBounded(apu.View()) && PpuTypes.AtRest(ppu.View())
    }

    /** Every NMI taken or held has been raised, and one latched by a poll is still there. */
    ghost predicate Accounts()
      reads `booted, `served, `promised, apu, ppu
    {
      && served + ppu.Held() <= ppu.nmis.raised && (promised ==> ppu.nmiSignal)
      && (!booted ==> apu.samples == [])
    }

    ghost predicate Valid()
      reads `env, `mem, `banks, `cycles, `dots, `booted, `served, `promised, apu, ppu, ppu.lineSprites, ppu.screen, ram
    {
      ValidCart(cart) && Wired() && ValidWorld(Now()) && Accounts()
    }

    /** cpu.c:351-365: nothing is owed and the deadline has passed. */
    constructor (cart: Cart, env: ApuTypes.Env, mem: PpuTypes.Mem)
      requires ValidCart(cart) && ApuTypes.ValidEnv(env) && PpuTypes.ValidMem(mem)
      requires env.prg == cart([]).prg && mem.patterns == cart([]).patterns && mem.names == cart([]).names
      ensures Valid() && OnTime() && fresh(Footprint()) && this.cart == cart
      ensures Now() == World(RightMix(ApuDevice.PowerOn(), env), ppu.View(), env, mem, ram[..], [], 0, 0)
      ensures ppu.View().scanLine == PpuTypes.PRE_RENDER_LINE - 1 && ppu.View().dot == 0 && !ppu.View().status.nmi
      ensures ioInsnCycles == 0 && pending == 0 && deadline == 0 && served == 0 && Virtual() == Now()
    {
      hide ApuReference.Inv, ApuReference.LevelsBounded, ApuDevice.PowerOn, PpuTypes.AtRest, PpuTypes.ValidMem,
           ApuTypes.ValidEnv, ValidCart, RightMix, Idle, Predicted, ValidWorld, Wired, Accounts;
      this.cart, this.env, this.mem, banks := cart, env, mem, [];
      cycles, ioInsnCycles, pending, deadline, dots := 0, 0, 0, 0, 0;
      booted, served, promised := false, 0, false;
      apu := new ApuDevice.Device.Init();
      ppu := new PpuDevice.Device.Init();
      ram := new u8[RAM_SIZE];
      new;
      PowerOnStands();
    }

    lemma PowerOnStands()
      requires ppu.Wf() && ram != ppu.lineSprites && ram != ppu.screen && ram.Length == RAM_SIZE && ValidCart(cart)
      requires ApuTypes.ValidEnv(env) && PpuTypes.ValidMem(mem) && PpuTypes.AtRest(ppu.View())
      requires apu.View() == ApuDevice.PowerOn() && !ppu.nmiPending && !ppu.nmiSignal
      requires !booted && served == 0 && !promised && pending == 0 && ioInsnCycles == 0 && deadline == 0
      ensures Valid() && OnTime() && Virtual() == Now()
    {
      hide ApuReference.Inv, ApuReference.Mix, ApuReference.LevelsBounded, ApuDevice.PowerOn, PpuTypes.AtRest,
           PpuTypes.ValidMem, ApuTypes.ValidEnv, ValidCart, RightMix, Idle, Predicted;
      ApuTheorems.PowerOnInv();
      MixPutRight(apu.View(), env);
      PowerOnSilent();
      assert apu.View().samples == apu.samples;
      NoIdle(Now());
    }

    /** The machine as far as the devices have got. */
    ghost function Now(): World
      reads `env, `mem, `banks, `cycles, `dots, `booted, apu, ppu, ppu.lineSprites, ppu.screen, ram
    {
      World(if booted then apu.View() else RightMix(apu.View(), env), ppu.View(), env, mem, ram[..], banks, cycles,
            dots)
    }

    /** The machine as it would be with every owed cycle paid. */
    ghost function Virtual(): (w: World)
      requires Valid()
      reads `env, `mem, `banks, `cycles, `dots, `booted, `served, `promised, `pending, `ioInsnCycles,
            apu, ppu, ppu.lineSprites, ppu.screen, ram
      ensures ValidWorld(w)
    {
      Idle(Now(), pending + ioInsnCycles)
    }

    /** The deadline is what the two predictions say of the devices as they are, and has not passed. */
    ghost predicate Punctual()
      requires Valid()
      reads `env, `mem, `banks, `cycles, `dots, `booted, `served, `promised, `pending, `deadline,
            apu, ppu, ppu.lineSprites, ppu.screen, ram
    {
      deadline == Predicted(Now().apu, Now().ppu) && (pending == 0 || pending < deadline)
    }

    /** At power-on the deadline has passed and nothing is owed. */
    ghost predicate OnTime()
      requires Valid()
      reads `env, `mem, `banks, `cycles, `dots, `booted, `served, `promised, `pending, `deadline,
            apu, ppu, ppu.lineSprites, ppu.screen, ram
    {
      Punctual() || (!booted && pending == 0 && deadline == 0)
    }

    /** Nothing is owed any more. */
    ghost predicate CaughtUp()
      requires Valid()
      reads `env, `mem, `banks, `cycles, `dots, `booted, `served, `promised, `pending, `ioInsnCycles, `deadline,
            apu, ppu, ppu.lineSprites, ppu.screen, ram
    {
      pending == 0 && ioInsnCycles == 0 && Punctual()
    }

    ghost function Owes(): Debt
      reads `env, `mem, `banks, `cycles, `dots, `booted, `pending, `ioInsnCycles, `deadline,
            apu, ppu, ppu.lineSprites, ppu.screen, ram
    {
      Debt(Now().apu, Now().ppu, pending, ioInsnCycles, deadline)
    }

    /** The machine as a run: every owed cycle counted, with what was read and what is owed. */
    ghost function Standing(log: seq<u8>): (o: Run)
      requires Valid() && OnTime()
      reads `env, `mem, `banks, `cycles, `dots, `booted, `served, `promised, `pending, `ioInsnCycles, `deadline,
            apu, ppu, ppu.lineSprites, ppu.screen, ram
      ensures ValidRun(o) && o.Going?
    {
      hide Wired, ValidCart, Accounts, Idle, Predicted, ApuReference.Core, PpuTypes.ValidPpu, ApuReference.Mix,
           ApuTypes.ValidEnv, PpuTypes.ValidMem;
      Going(Virtual(), log, Owes())
    }

    /** Inside an instruction of fixed length: the accesses are made, their cycles still to come. */
    ghost function QuietStanding(log: seq<u8>): (o: Run)
      requires Valid() && OnTime()
      reads `env, `mem, `banks, `cycles, `dots, `booted, `served, `promised, `pending, `deadline,
            apu, ppu, ppu.lineSprites, ppu.screen, ram
      ensures ValidRun(o) && o.Going?
    {
      hide Wired, ValidCart, Accounts, Idle, Predicted, ApuReference.Core, PpuTypes.ValidPpu, ApuReference.Mix,
           ApuTypes.ValidEnv, PpuTypes.ValidMem;
      Going(Idle(Now(), pending), log, Debt(Now().apu, Now().ppu, pending, 0, deadline))
    }

    /** The machine, every owed cycle counted, follows w. */
    ghost predicate Reaches(w: World, sound: bool)
      requires Valid()
      reads `env, `mem, `banks, `cycles, `dots, `booted, `served, `promised, `pending, `ioInsnCycles,
            apu, ppu, ppu.lineSprites, ppu.screen, ram
    {
      Follows(Virtual(), w, sound)
    }

    /** cpu.c:114-120. */
    method UpdateSyncDeadline()
      requires Valid()
      modifies `deadline
      ensures Valid() && deadline == Predicted(Now().apu, Now().ppu) && Now() == old(Now())
    {
      hide ApuReference.Core, ApuReference.Mix, ApuTypes.ValidEnv, PpuTypes.ValidPpu, PpuTypes.ValidMem, RightMix;
      MixPutRight(apu.View(), env);
      var nextNmi := ppu.CyclesToNMI();
      var nextIrq := ApuIrq.CyclesToIrq(apu.View());
      deadline := Min(nextNmi, nextIrq);
    }

    /** cpu.c:122-133. */
    method SyncDevices()
      requires Valid()
      modifies `cycles, `ioInsnCycles, `pending, `deadline, `dots, `booted, apu, ppu, ppu.lineSprites, ppu.screen
      ensures Valid() && Punctual() && pending == 0 && ioInsnCycles == 0 && (old(booted) ==> booted)
      ensures old(pending + ioInsnCycles) > 0 ==> booted
      ensures Follows(Now(), old(Virtual()), old(booted)) && Virtual() == Now()
    {
      hide Wired, ValidWorld, Idle, ValidCart, Predicted, Follows, Accounts;
      var owed := pending + ioInsnCycles;
      pending, ioInsnCycles := 0, 0;
      if owed != 0 {
        PayOwed(owed);
      } else {
        NoIdle(Now());
        FollowsItself(Now(), booted);
      }
      UpdateSyncDeadline();
      NoIdle(Now());
    }

    /** cpu.c:128-130. */
    method PayOwed(owed: nat)
      requires Valid() && owed > 0
      modifies `cycles, `dots, `booted, apu, ppu, ppu.lineSprites, ppu.screen
      ensures Valid() && booted
      ensures Follows(Now(), old(Idle(Now(), owed)), old(booted))
    {
      hide ApuReference.Inv, ApuReference.Mix, ApuTypes.ValidEnv, PpuTypes.AtRest, PpuTypes.ValidMem, Idle,
           ValidCart, ApuReference.LevelsBounded, ApuHeard.Alike, RightMix, Accounts;
      IdleParts(Now(), cycles + owed, owed);
      cycles := cycles + owed;
      PayDevices(owed);
    }

    /** cpu.c:129-130, and each step of ppu.c:451-460: both devices are given the same cycles. */
    method PayDevices(owed: nat)
      requires Valid() && owed > 0
      modifies `dots, `booted, apu, ppu, ppu.lineSprites, ppu.screen
      ensures Valid() && booted && dots == old(dots) + 3 * owed
      ensures Now().ppu == old(Idle(Now(), owed).ppu)
      ensures ApuHeard.Alike(Now().apu, old(Idle(Now(), owed).apu))
      ensures old(booted) ==> Now().apu == old(Idle(Now(), owed).apu)
    {
      hide ApuReference.Core, ApuReference.Mix, ApuTypes.ValidEnv, PpuTypes.ValidPpu, PpuTypes.ValidMem, Idle,
           ValidCart, ApuReference.LevelsBounded, ApuReference.Run, PpuReference.Dots, ApuBatch.Corrected,
           ApuHeard.Alike, RightMix;
      ghost var w, a := Now(), apu.View();
      ppu.TicksExecute(mem, owed);
      dots := dots + 3 * owed;
      apu.TicksExecute(env, owed);
      DevicesIdle(w, a, booted, owed);
      booted := true;
    }

    /** emulate.c:93-96. */
    method DummyCycle()
      requires Valid()
      modifies `ioInsnCycles
      ensures Valid() && Now() == old(Now()) && Virtual() == old(Idle(Virtual(), 1))
      ensures old(OnTime()) ==> OnTime()
    {
      hide Wired, ValidWorld, Idle, ValidCart, Predicted, Accounts;
      IdleAdds(Now(), pending + ioInsnCycles, 1);
      ioInsnCycles := ioInsnCycles + 1;
    }

    /** cpu.c:267-284. */
    method MemRead8(addr: nat) returns (val: u8)
      requires Valid() && CanLoad(addr)
      modifies `cycles, `ioInsnCycles, `pending, `deadline, `dots, `booted, apu, ppu, ppu.lineSprites, ppu.screen
      ensures Valid() && (old(OnTime()) ==> OnTime()) && (old(booted) ==> booted)
      ensures Reaches(old(Load(Idle(Virtual(), 1), addr).world), old(booted))
      ensures Visible(addr, val) == old(Load(Idle(Virtual(), 1), addr).val)
      ensures IsRam(addr) || IsPrg(addr) ==>
                && Now() == old(Now()) && pending == old(pending) && deadline == old(deadline)
                && ioInsnCycles == old(ioInsnCycles) + 1 && val == PlainByte(Now(), addr) && booted == old(booted)
      ensures !IsRam(addr) && !IsPrg(addr) ==> CaughtUp()
    {
      hide Wired, ValidWorld, Idle, ValidCart, Predicted, Load, Follows, Accounts;
      IdleAdds(Now(), pending + ioInsnCycles, 1);
      ioInsnCycles := ioInsnCycles + 1;
      PlainLoad(Now(), pending + ioInsnCycles, addr);
      FollowsItself(Virtual(), booted);
      if addr >= PRG_ADDR {
        return env.prg[addr - PRG_ADDR];
      }
      if addr < RAM_SIZE {
        return ram[addr];
      }
      val := SlowRead8(addr);
    }

    /** cpu.c:149-195: a load that does not go to the first copy of the RAM or to the cartridge. */
    method SlowRead8(addr: nat) returns (val: u8)
      requires Valid() && CanLoad(addr) && !IsPrg(addr) && pending + ioInsnCycles > 0
      modifies `cycles, `ioInsnCycles, `pending, `deadline, `dots, `booted, apu, ppu, ppu.lineSprites, ppu.screen
      ensures Valid() && (old(OnTime()) ==> OnTime()) && (old(booted) ==> booted)
      ensures Reaches(old(Load(Virtual(), addr).world), old(booted))
      ensures Visible(addr, val) == old(Load(Virtual(), addr).val)
      ensures IsRam(addr) ==>
                && Now() == old(Now()) && pending == old(pending) && deadline == old(deadline)
                && ioInsnCycles == old(ioInsnCycles) && val == PlainByte(Now(), addr) && booted == old(booted)
      ensures !IsRam(addr) ==> CaughtUp()
    {
      hide Wired, ValidWorld, Idle, ValidCart, Predicted, Load, Follows, Accounts;
      PlainLoad(Now(), pending + ioInsnCycles, addr);
      FollowsItself(Virtual(), booted);
      if IsRam(addr) {
        return ram[addr % RAM_SIZE];
      }
      val := ReadDevice(addr);
    }

    /** cpu.c:158-167, 185-193: the devices catch up before they answer. */
    method ReadDevice(addr: nat) returns (val: u8)
      requires Valid() && CanLoad(addr) && !IsPrg(addr) && !IsRam(addr) && pending + ioInsnCycles > 0
      modifies `cycles, `ioInsnCycles, `pending, `deadline, `dots, `booted, apu, ppu, ppu.lineSprites, ppu.screen
      ensures Valid() && (old(OnTime()) ==> OnTime()) && (old(booted) ==> booted)
      ensures Reaches(old(Load(Virtual(), addr).world), old(booted))
      ensures Visible(addr, val) == old(Load(Virtual(), addr).val) && CaughtUp()
    {
      hide Wired, ValidWorld, Idle, ValidCart, Predicted, Load, Follows, Accounts;
      ghost var v, sound := Virtual(), booted;
      SyncDevices();
      LoadFollows(Now(), v, addr, sound);
      ghost var w := Load(Now(), addr).world;
      if IsPpu(addr) {
        val := ReadPpuStatus(addr);
      } else {
        val := ReadApuStatus();
      }
      NoIdle(Now());
      FollowsOn(Now(), w, Load(v, addr).world, true, sound);
    }

    method ReadPpuStatus(addr: nat) returns (val: u8)
      requires Valid() && CanLoad(addr) && IsPpu(addr)
      modifies ppu
      ensures Valid() && (old(Punctual()) ==> Punctual())
      ensures Follows(Now(), old(Load(Now(), addr).world), true)
      ensures Visible(addr, val) == old(Load(Now(), addr).val)
    {
      hide ApuReference.Inv, ApuReference.Mix, ApuTypes.ValidEnv, PpuTypes.AtRest, PpuTypes.ValidMem,
           ValidCart, ApuReference.LevelsBounded, Predicted, PpuRegisters.StatusRead, PpuRegisters.StatusByte,
           ApuHeard.Alike, RightMix;
      ghost var w := Now();
      StatusPrediction(w);
      val := TakeStatus();
      NmiPrediction(w.apu, PpuRegisters.StatusRead(w.ppu), ppu.View());
      FollowsItself(w, true);
    }

    method TakeStatus() returns (val: u8)
      requires PpuTypes.AtRest(ppu.View())
      modifies ppu
      ensures PpuTypes.AtRest(ppu.View()) && ppu.Held() <= old(ppu.Held()) && ppu.nmiSignal == old(ppu.nmiSignal)
      ensures ppu.nmis == old(ppu.nmis) && (ppu.Wf() == old(ppu.Wf()))
      ensures FollowsPpu(ppu.View(), old(PpuRegisters.StatusRead(ppu.View())))
      ensures val - 2 * (val / 2 % 2) == old(PpuRegisters.StatusByte(ppu.View().status))
    {
      hide PpuTypes.ValidPpu, PpuRegisters.StatusByte, PpuRegisters.StatusRead;
      PpuRegisters.ByteIgnoresNmi(ppu.status, ppu.nmiPending || ppu.nmiSignal);
      val := ppu.ReadStatus();
    }

    method ReadApuStatus() returns (val: u8)
      requires Valid() && booted
      modifies apu
      ensures Valid() && (old(Punctual()) ==> Punctual())
      ensures Follows(Now(), old(Load(Now(), 0x4015).world), true)
      ensures val == old(Load(Now(), 0x4015).val)
    {
      hide ApuReference.Core, ApuReference.Mix, ApuTypes.ValidEnv, PpuTypes.AtRest, PpuTypes.ValidMem,
           ValidCart, ApuReference.LevelsBounded, Predicted, ApuHeard.Alike;
      ghost var w := Now();
      AcknowledgedInv(w.apu, w.env);
      AcknowledgedPrediction(w.apu);
      SamePrediction(w.apu, w.ppu, Acknowledged(w.apu), w.ppu);
      val := apu.RegReadStatus();
      assert Now() == w.(apu := Acknowledged(w.apu));
      FollowsItself(Now(), true);
    }

    /** cpu.c:245-265.  A pair across two banks is read, and charged, once more by its halves. */
    method MemRead16(addr: nat) returns (lo: u8, hi: u8)
      requires Valid() && CanLoad16(addr)
      modifies `cycles, `ioInsnCycles, `pending, `deadline, `dots, `booted, apu, ppu, ppu.lineSprites, ppu.screen
      ensures Valid() && Now() == old(Now()) && pending == old(pending) && deadline == old(deadline)
      ensures (old(OnTime()) ==> OnTime()) && booted == old(booted)
      ensures ioInsnCycles == old(ioInsnCycles) + Load16Cost(addr)
      ensures [lo, hi] == PairAt(Now(), addr)
    {
      hide Wired, ValidWorld, Idle, ValidCart, Predicted, Load, Follows, Accounts;
      MemorySizes(Now());
      ioInsnCycles := ioInsnCycles + 2;
      if addr >= PRG_ADDR {
        if addr % PRG_BANK == PRG_BANK - 1 {
          lo, hi := MemReadAcross(addr);
          return;
        }
        return env.prg[addr - PRG_ADDR], env.prg[addr - PRG_ADDR + 1];
      }
      return ram[addr % RAM_SIZE], ram[addr % RAM_SIZE + 1];
    }

    /** cpu.c:252-255. */
    method MemReadAcross(addr: nat) returns (lo: u8, hi: u8)
      requires Valid() && IsPrg(addr)
      modifies `cycles, `ioInsnCycles, `pending, `deadline, `dots, `booted, apu, ppu, ppu.lineSprites, ppu.screen
      ensures Valid() && Now() == old(Now()) && pending == old(pending) && deadline == old(deadline)
      ensures (old(OnTime()) ==> OnTime()) && booted == old(booted) && ioInsnCycles == old(ioInsnCycles) + 2
      ensures [lo, hi] == PairAt(Now(), addr)
    {
      hide Wired, ValidWorld, Idle, ValidCart, Predicted, Load, Follows, Accounts;
      lo := MemRead8(addr);
      hi := MemRead8(Next(addr));
    }

    /** cpu.c:286-303.  A store to the first copy of the RAM touches nothing else; any other store ends
      * with a fresh deadline, whether or not the devices caught up.  A store outside the modelled ones is refused.
      */
    method MemWrite8(addr: nat, val: u8) returns (ok: bool)
      requires Valid()
      modifies `cycles, `ioInsnCycles, `pending, `deadline, `dots, `booted, `env, `mem, `banks,
               apu, ppu, ppu.lineSprites, ppu.screen, ram
      ensures Valid() && (old(booted) ==> booted)
      ensures ok == old(CanStore(Idle(Virtual(), 1), addr, val))
      ensures ok && old(OnTime()) ==> OnTime()
      ensures ok ==> Reaches(old(Store(Idle(Virtual(), 1), cart, addr, val)), old(booted))
      ensures addr < RAM_SIZE ==>
                && Now() == old(RamStored(Now(), addr, val)) && pending == old(pending) && deadline == old(deadline)
                && ioInsnCycles == old(ioInsnCycles) + 1 && booted == old(booted)
      ensures RAM_SIZE <= addr && IsRam(addr) ==>
                && Now() == old(RamStored(Now(), addr, val)) && pending == old(pending)
                && deadline == Predicted(Now().apu, Now().ppu) && ioInsnCycles == old(ioInsnCycles) + 1
      ensures ok && !IsRam(addr) ==> CaughtUp()
    {
      hide Wired, ValidWorld, Idle, ValidCart, Predicted, Store, CanStore, Follows, Accounts;
      IdleAdds(Now(), pending + ioInsnCycles, 1);
      ioInsnCycles := ioInsnCycles + 1;
      if addr < RAM_SIZE {
        StoreRam(addr, val);
        FollowsItself(Virtual(), booted);
        return true;
      }
      ok := SlowWrite8(addr, val);
    }

    /** cpu.c:295-302. */
    method SlowWrite8(addr: nat, val: u8) returns (ok: bool)
      requires Valid() && pending + ioInsnCycles > 0
      modifies `cycles, `ioInsnCycles, `pending, `deadline, `dots, `booted, `env, `mem, `banks,
               apu, ppu, ppu.lineSprites, ppu.screen, ram
      ensures Valid() && (old(booted) ==> booted)
      ensures ok == CanStore(old(Virtual()), addr, val)
      ensures ok && old(OnTime()) ==> OnTime()
      ensures ok ==> Reaches(old(Store(Virtual(), cart, addr, val)), old(booted))
      ensures IsRam(addr) ==>
                && Now() == old(RamStored(Now(), addr, val)) && pending == old(pending)
                && deadline == Predicted(Now().apu, Now().ppu) && ioInsnCycles == old(ioInsnCycles)
      ensures ok && !IsRam(addr) ==> CaughtUp()
    {
      hide Wired, ValidWorld, Idle, ValidCart, Predicted, Store, CanStore, Follows, Accounts;
      if IsRam(addr) {
        StoreRam(addr, val);
        FollowsItself(Virtual(), booted);
        ok := true;
      } else {
        ok := StoreOutside(addr, val);
      }
      UpdateSyncDeadline();
    }

    method StoreRam(addr: nat, val: u8)
      requires Valid() && IsRam(addr)
      modifies ram
      ensures Valid() && Now() == old(RamStored(Now(), addr, val))
      ensures CanStore(old(Virtual()), addr, val) && Virtual() == old(Store(Virtual(), cart, addr, val))
      ensures old(OnTime()) ==> OnTime()
    {
      hide ApuReference.Inv, ApuReference.Mix, ApuTypes.ValidEnv, PpuTypes.AtRest, PpuTypes.ValidMem, Idle,
           ValidCart, ApuReference.LevelsBounded, Predicted, Store, RightMix, Follows, Accounts;
      ghost var w := Now();
      RamCommutes(w, cart, pending + ioInsnCycles, addr, val);
      ram[addr % RAM_SIZE] := val;
      assert ram[..] == w.ram[addr % RAM_SIZE := val];
    }

    /** cpu.c:158-193, 202-210, 225-234: the devices catch up before they are told. */
    method StoreOutside(addr: nat, val: u8) returns (ok: bool)
      requires Valid() && !IsRam(addr) && pending + ioInsnCycles > 0
      modifies `cycles, `ioInsnCycles, `pending, `deadline, `dots, `booted, `env, `mem, `banks,
               apu, ppu, ppu.lineSprites, ppu.screen
      ensures Valid() && (old(booted) ==> booted)
      ensures ok == CanStore(old(Virtual()), addr, val)
      ensures ok ==> pending == 0 && ioInsnCycles == 0 && Reaches(old(Store(Virtual(), cart, addr, val)), old(booted))
    {
      hide Wired, ValidWorld, Idle, ValidCart, Predicted, Store, CanStore, Follows, Accounts;
      ghost var v, sound := Virtual(), booted;
      if !IsDevice(addr) {
        OnlyDevices(v, addr, val);
        return false;
      }
      SyncDevices();
      AdmitsAlike(Now(), v, addr, val, sound);
      ok := Permits(addr, val);
      if ok {
        StoreFollows(Now(), v, cart, addr, val, sound);
        ghost var w := Store(Now(), cart, addr, val);
        WriteDevice(addr, val);
        NoIdle(Now());
        FollowsOn(Now(), w, Store(v, cart, addr, val), true, sound);
      }
    }

    /** The source asserts the state in which sprite data is written; with rendering on a transfer is not modelled. */
    method Permits(addr: nat, val: u8) returns (ok: bool)
      requires Valid() && pending == 0 && IsDevice(addr)
      ensures ok == CanStore(Now(), addr, val)
    {
      hide Wired, ValidWorld, ValidCart, Accounts, RightMix;
      if IsPpu(addr) {
        var rendering := ppu.BgEnabled() || ppu.SpEnabled();
        return addr % 8 != 7 &&
               (addr % 8 != 4 || !rendering || PpuTypes.POST_RENDER_LINE < ppu.scanLine < PpuTypes.PRE_RENDER_LINE);
      }
      if addr != 0x4014 {
        return true;
      }
      var rests := Rests(3 * (513 + (cycles + pending) % 2));
      return val < 8 && ppu.oamAddr == 0 && rests;
    }

    method Rests(n: nat) returns (ok: bool)
      ensures ok == PpuDark.Resting(ppu.View(), n)
    {
      var rendering := ppu.BgEnabled() || ppu.SpEnabled();
      var dark := !rendering && (ppu.rendToggleDot == 0 || ppu.dot >= ppu.rendToggleDot + PpuTypes.TOGGLE_DELAY);
      var at := ppu.scanLine * PpuTypes.DOTS_PER_LINE + ppu.dot;
      return dark || (PpuTypes.POST_RENDER_LINE <= ppu.scanLine < PpuTypes.VBLANK_END &&
                      at + n <= PpuTypes.PRE_RENDER_LINE * PpuTypes.DOTS_PER_LINE + 257);
    }

    /** cpu.c:88-111: the register, the transfer or the mapper behind the address. */
    method WriteDevice(addr: nat, val: u8)
      requires Valid() && booted && pending == 0 && ioInsnCycles == 0
      requires CanStore(Now(), addr, val) && !IsRam(addr)
      modifies `cycles, `pending, `deadline, `dots, `booted, `env, `mem, `banks, apu, ppu, ppu.lineSprites, ppu.screen
      ensures Valid() && booted && pending == 0 && ioInsnCycles == 0
      ensures Follows(Now(), old(Store(Now(), cart, addr, val)), true)
    {
      hide ValidWorld, Idle, ValidCart, Predicted, Store, Follows, Accounts;
      StoreIsDma(Now(), cart, val);
      FollowsItself(Store(Now(), cart, addr, val), true);
      if IsPpu(addr) {
        WritePpu(addr, val);
      } else if addr == 0x4014 {
        DmaWrite(val);
      } else if IsApu(addr) {
        WriteApu(addr, val);
      } else {
        WriteCart(addr, val);
      }
    }

    method WriteApu(addr: nat, val: u8)
      requires Valid() && booted && IsApu(addr)
      modifies apu
      ensures CanStore(old(Now()), addr, val)
      ensures Valid() && Now() == old(Store(Now(), cart, addr, val))
    {
      hide ApuReference.Core, ApuReference.Mix, ApuTypes.ValidEnv, PpuTypes.AtRest, PpuTypes.ValidMem, ValidCart,
           ApuReference.LevelsBounded, ApuReference.Refresh, ApuRegisters.Write, ApuRegisters.SameClocks;
      ApuChannelsValid(apu.View());
      apu.RegWrite(env, ApuOffset(addr), val);
    }

    /** cpu.c:100-106: the cartridge shows its memory by every write it has received. */
    method WriteCart(addr: nat, val: u8)
      requires Valid() && booted && IsPrg(addr)
      modifies `env, `mem, `banks
      ensures CanStore(old(Now()), addr, val)
      ensures Valid() && Now() == old(Store(Now(), cart, addr, val))
    {
      hide ApuReference.Inv, ApuReference.Mix, PpuTypes.AtRest, ApuReference.LevelsBounded, ApuTypes.ValidEnv,
           PpuTypes.ValidMem, ValidCart;
      ghost var v := Bank(Now(), cart, addr, val);
      banks := banks + [BankWrite(addr, val)];
      var windows := cart(banks);
      env := env.(prg := windows.prg);
      mem := mem.(patterns := windows.patterns, names := windows.names);
      assert Now() == v;
    }

    /** ppu.c:248-382. */
    method WritePpu(addr: nat, val: u8)
      requires Valid() && booted && IsPpu(addr) && CanStore(Now(), addr, val)
      modifies ppu, `mem
      ensures Valid() && Follows(Now(), old(Store(Now(), cart, addr, val)), true)
    {
      hide ApuReference.Inv, ApuReference.Mix, ApuTypes.ValidEnv, PpuTypes.AtRest, PpuTypes.ValidMem, ValidCart,
           ApuReference.LevelsBounded, StorePpu, Follows;
      ghost var w := Now();
      FollowsItself(StorePpu(w, addr % 8, val), true);
      if addr % 8 == 3 || addr % 8 == 4 {
        WriteOam(addr % 8, val);
      } else if addr % 8 == 0 {
        WriteCtrl(val);
      } else {
        WritePpuReg(addr % 8, val);
      }
      FollowsValid(Now(), StorePpu(w, addr % 8, val));
    }

    /** ppu.c:310-336. */
    method WriteOam(reg: nat, val: u8)
      requires PpuTypes.ValidMem(mem) && 3 <= reg <= 4
      modifies ppu`oamAddr, `mem
      ensures Now() == old(StorePpu(Now(), reg, val))
    {
      hide PpuTypes.ValidMem, RightMix;
      if reg == 3 {
        ppu.oamAddr := val;
      } else {
        mem := OamStored(mem, ppu.oamAddr, val);
        ppu.oamAddr := (ppu.oamAddr + 1) % OAM_SIZE;
      }
    }

    /** ppu.c:255-279. */
    method WriteCtrl(val: u8)
      requires PpuTypes.ValidMem(mem)
      modifies ppu
      ensures Follows(Now(), old(StorePpu(Now(), 0, val)), true) && ppu.nmiSignal == old(ppu.nmiSignal)
      ensures ppu.Held() + old(ppu.nmis.raised) <= old(ppu.Held()) + ppu.nmis.raised && (ppu.Wf() == old(ppu.Wf()))
    {
      hide PpuTypes.ValidMem, PpuTypes.AtRest, ApuHeard.Alike, RightMix, PpuRegisters.WriteCtrl, PpuNmi.Nmi;
      ghost var w := Now();
      FollowsItself(w, true);
      ppu.WriteCtrlReg(val);
    }

    /** ppu.c:280-309, 337-383. */
    method WritePpuReg(reg: nat, val: u8)
      requires PpuTypes.ValidMem(mem) && PpuTypes.AtRest(ppu.View()) && reg < 7 && reg !in {0, 3, 4}
      modifies ppu`rendToggleDot, ppu`greyscale, ppu`mask, ppu`secondWrite, ppu`tmp, ppu`fineX, ppu`cur
      ensures Now() == old(StorePpu(Now(), reg, val))
    {
      hide PpuTypes.ValidMem, PpuRegisters.WriteCtrl, PpuRegisters.WriteMask, PpuRegisters.WriteScroll,
           PpuRegisters.WriteAddr, RightMix;
      match reg {
        case 1 => ppu.WriteMaskReg(val);
        case 2 =>
        case 5 => ppu.WriteScrollReg(val);
        case _ => ppu.WriteAddrReg(val);
      }
    }

    /** ppu.c:432-462. */
    method DmaWrite(page: u8)
      requires Valid() && booted && pending == 0 && ioInsnCycles == 0
      requires page < 8 && Now().ppu.oamAddr == 0 && PpuDark.Resting(Now().ppu, 3 * DmaCycles(Now()))
      modifies `cycles, `pending, `deadline, `dots, `booted, `mem, apu, ppu, ppu.lineSprites, ppu.screen
      ensures Valid() && booted && pending == 0 && Now() == old(Dma(Now(), page))
    {
      hide Wired, ValidWorld, Idle, ValidCart, PpuDark.Resting, DmaCopied, Accounts;
      ghost var w := Now();
      ghost var n := 0;
      var cpuCycles, odd, more := 0, (cycles + pending) % 2, true;
      assert DmaCopied(w, page, 0) == w by { NothingCopied(w, page); }
      while more
        invariant Valid() && booted && 0 <= n <= OAM_SIZE && more == (n < OAM_SIZE) && cpuCycles == 2 * n
        invariant cycles == w.cycles && pending == 0 && ioInsnCycles == 0
        invariant PpuDark.Resting(Now().ppu, 3 * DmaCycles(w) - 6 * n) && Now().ppu.oamAddr == n % OAM_SIZE
        invariant Now() == DmaCopied(w, page, n).(cycles := w.cycles)
        decreases OAM_SIZE - n
      {
        StepOn(w, page, n);
        cpuCycles := cpuCycles + 2;
        more := DmaByte(page);
        n := n + 1;
      }
      FinishDma(cpuCycles, 1 + odd, DmaCopied(w, page, OAM_SIZE));
    }

    /** ppu.c:455-460 and cpu.c:387-391. */
    method FinishDma(cpuCycles: nat, opCycles: nat, ghost copied: World)
      requires Valid() && booted && opCycles > 0 && ValidWorld(copied)
      requires Now() == copied.(cycles := cycles) && cycles + cpuCycles == copied.cycles
      modifies `cycles, `pending, `deadline, `dots, `booted, apu, ppu, ppu.lineSprites, ppu.screen
      ensures Valid() && booted && pending == 0 && Now() == Idle(copied, opCycles)
    {
      hide ApuReference.Inv, ApuReference.Mix, ApuTypes.ValidEnv, PpuTypes.AtRest, PpuTypes.ValidMem, ValidCart,
           ApuReference.LevelsBounded, Idle, Accounts;
      IdleParts(copied, cycles + cpuCycles + opCycles, opCycles);
      cycles, pending, deadline := cycles + (cpuCycles + opCycles), 0, 0;
      PayDevices(opCycles);
    }

    /** ppu.c:448-453: one byte, and whether it was not the last. */
    method DmaByte(page: u8) returns (more: bool)
      requires Valid() && booted && page < 8
      modifies `dots, `booted, `mem, apu, ppu, ppu.lineSprites, ppu.screen
      ensures Valid() && booted && Now() == old(DmaStep(Now(), page).(cycles := cycles))
      ensures more == (old(Idle(OamGiven(Now(), page), 2)).ppu.oamAddr != OAM_SIZE - 1)
    {
      hide ApuReference.Inv, ApuReference.Mix, ApuTypes.ValidEnv, PpuTypes.ValidPpu, PpuTypes.ValidMem, ValidCart,
           ApuReference.LevelsBounded, Idle, Accounts;
      ghost var given := OamGiven(Now(), page);
      mem := OamStored(mem, ppu.oamAddr, ram[OAM_SIZE * page + ppu.oamAddr]);
      assert Now() == given;
      IdleParts(given, cycles, 2);
      PayDevices(2);
      more := ppu.oamAddr != OAM_SIZE - 1;
      AdvanceOamAddr();
    }

    method AdvanceOamAddr()
      requires Valid() && booted
      modifies ppu`oamAddr
      ensures Valid() && Now() == old(Now().(ppu := NextOamAddr(Now().ppu)))
    {
      hide ApuReference.Inv, ApuReference.Mix, ApuTypes.ValidEnv, PpuTypes.ValidPpu, PpuTypes.ValidMem, ValidCart,
           ApuReference.LevelsBounded;
      ghost var p := Now().ppu;
      ppu.oamAddr := (ppu.oamAddr + 1) % OAM_SIZE;
      assert Now().ppu == NextOamAddr(p);
    }

    /** cpu.c:135-147.  The end of an instruction: its cycles replace what its accesses still owe. */
    method Tick(insnCycles: nat)
      requires Valid()
      modifies `cycles, `ioInsnCycles, `pending, `deadline, `dots, `booted, apu, ppu, ppu.lineSprites, ppu.screen
      ensures Valid() && (old(OnTime()) ==> OnTime()) && (old(booted) ==> booted)
      ensures insnCycles == 0 ==>
                && Now() == old(Now()) && pending == old(pending) && deadline == old(deadline)
                && ioInsnCycles == old(ioInsnCycles) && booted == old(booted)
      ensures insnCycles > 0 ==> ioInsnCycles == 0 && Reaches(old(Idle(Now(), pending + insnCycles)), old(booted))
      ensures insnCycles > 0 ==>
                if old(pending) + insnCycles < old(deadline)
                then Now() == old(Now()) && pending == old(pending) + insnCycles && deadline == old(deadline)
                else booted && CaughtUp()
    {
      hide ValidWorld, Idle, ValidCart, Predicted, Follows, Accounts, Wired;
      if insnCycles == 0 {
        return;
      }
      pending := pending + insnCycles;
      ioInsnCycles := 0;
      FollowsItself(Virtual(), booted);
      if pending < deadline {
        return;
      }
      SyncDevices();
    }

    // --------------------------------------------------------------- instructions

    /** Having caught up the machine has the debt of one that has. */
    lemma CaughtStands(w: World, sound: bool)
      requires Valid() && CaughtUp() && ValidWorld(w) && Follows(Virtual(), w, sound)
      ensures DebtFollows(Owes(), Caught(w))
    {
      hide Wired, ValidCart, Accounts, Idle, Predicted, ApuReference.Core, PpuTypes.ValidPpu, ApuReference.Mix,
           ApuTypes.ValidEnv, PpuTypes.ValidMem, Follows;
      NoIdle(Now());
      CaughtFollows(Virtual(), w, sound);
    }

    lemma OwesItself()
      ensures DebtFollows(Owes(), Owes())
    {
      hide ApuReference.Mix, RightMix;
    }

    /** One access of an instruction that pays as it goes; one outside the model ends the run. */
    method Perform(acc: Access, log: seq<u8>) returns (ok: bool, log': seq<u8>)
      requires Valid() && OnTime()
      modifies `cycles, `ioInsnCycles, `pending, `deadline, `dots, `booted, `env, `mem, `banks,
               apu, ppu, ppu.lineSprites, ppu.screen, ram
      ensures Valid() && (old(booted) ==> booted) && (ok ==> OnTime())
      ensures ok == old(Touch(Standing(log), cart, acc)).Going?
      ensures ok ==> Tracks(Standing(log'), old(Touch(Standing(log), cart, acc)), old(booted))
    {
      hide Wired, ValidWorld, ValidDebt, Idle, ValidCart, Predicted, Load, Store, CanStore, Follows, Accounts, OnTime,
           DebtFollows, Owes, DebtAfter;
      ok, log' := true, log;
      match acc {
        case Rest => PerformRest(log);
        case Dummy => PerformDummy(log);
        case Read(addr) =>
          if !CanLoad(addr) {
            return false, log;
          }
          log' := PerformRead(addr, log);
        case Read16(addr) =>
          if !CanLoad16(addr) {
            return false, log;
          }
          log' := Perform16(addr, log);
        case Write(addr, val) => ok := PerformWrite(addr, val, log, Standing(log));
      }
    }

    lemma PerformRest(log: seq<u8>)
      requires Valid() && OnTime()
      ensures Tracks(Standing(log), Touch(Standing(log), cart, Rest), booted)
    {
      hide Wired, ValidWorld, ValidDebt, Idle, ValidCart, Predicted, Load, Store, CanStore, Follows, Accounts, OnTime,
           DebtFollows;
      NoIdle(Virtual());
      FollowsItself(Virtual(), booted);
      OwesItself();
    }

    method PerformDummy(log: seq<u8>)
      requires Valid() && OnTime()
      modifies `ioInsnCycles
      ensures Valid() && OnTime() && Tracks(Standing(log), old(Touch(Standing(log), cart, Dummy)), booted)
    {
      hide Wired, ValidWorld, ValidDebt, Idle, ValidCart, Predicted, Load, Store, CanStore, Follows, Accounts,
           DebtFollows;
      DummyCycle();
      FollowsItself(Virtual(), booted);
      OwesItself();
    }

    method PerformRead(addr: nat, log: seq<u8>) returns (log': seq<u8>)
      requires Valid() && OnTime() && CanLoad(addr)
      modifies `cycles, `ioInsnCycles, `pending, `deadline, `dots, `booted, apu, ppu, ppu.lineSprites, ppu.screen
      ensures Valid() && OnTime() && (old(booted) ==> booted)
      ensures Tracks(Standing(log'), old(Touch(Standing(log), cart, Read(addr))), old(booted))
    {
      hide Wired, ValidWorld, ValidDebt, Idle, ValidCart, Predicted, Load, Store, CanStore, Follows, Accounts,
           DebtFollows, Caught;
      ghost var w, sound := Load(Idle(Virtual(), 1), addr).world, booted;
      var val := MemRead8(addr);
      log' := log + [Visible(addr, val)];
      if IsRam(addr) || IsPrg(addr) {
        OwesItself();
      } else {
        CaughtStands(w, sound);
      }
    }

    method Perform16(addr: nat, log: seq<u8>) returns (log': seq<u8>)
      requires Valid() && OnTime() && CanLoad16(addr)
      modifies `cycles, `ioInsnCycles, `pending, `deadline, `dots, `booted, apu, ppu, ppu.lineSprites, ppu.screen
      ensures Valid() && OnTime() && booted == old(booted)
      ensures Tracks(Standing(log'), old(Touch(Standing(log), cart, Read16(addr))), booted)
    {
      hide Wired, ValidWorld, ValidDebt, Idle, ValidCart, Predicted, Load, Store, CanStore, Follows, Accounts,
           DebtFollows;
      IdleAdds(Now(), pending + ioInsnCycles, Load16Cost(addr));
      MemoryStays(Now(), pending + ioInsnCycles + Load16Cost(addr));
      var lo, hi := MemRead16(addr);
      log' := log + [lo, hi];
      FollowsItself(Virtual(), booted);
      OwesItself();
    }

    method PerformWrite(addr: nat, val: u8, log: seq<u8>, ghost o: Run) returns (ok: bool)
      requires Valid() && OnTime()
      requires o == Standing(log)
      modifies `cycles, `ioInsnCycles, `pending, `deadline, `dots, `booted, `env, `mem, `banks,
               apu, ppu, ppu.lineSprites, ppu.screen, ram
      ensures Valid() && (old(booted) ==> booted) && (ok ==> OnTime())
      ensures ok == Touch(o, cart, Write(addr, val)).Going?
      ensures ok ==> Tracks(Standing(log), Touch(o, cart, Write(addr, val)), old(booted))
    {
      hide Wired, ValidWorld, ValidDebt, Idle, ValidCart, Predicted, Load, Store, CanStore, Follows, Accounts,
           DebtFollows, Caught;
      ghost var v, sound := Idle(Virtual(), 1), booted;
      ok := MemWrite8(addr, val);
      if IsRam(addr) {
        OwesItself();
      } else if ok {
        CaughtStands(Store(v, cart, addr, val), sound);
      }
    }

    /** emulate.c:1869-1873: whatever happened inside, an IORW instruction ends with its cycles paid or owed. */
    method ExecuteIorw(body: Body, count: nat, log: seq<u8>) returns (ok: bool, log': seq<u8>)
      requires Valid() && OnTime() && ioInsnCycles == 0
      modifies `cycles, `ioInsnCycles, `pending, `deadline, `dots, `booted, `env, `mem, `banks,
               apu, ppu, ppu.lineSprites, ppu.screen, ram
      ensures Valid() && (old(booted) ==> booted) && (ok ==> OnTime() && ioInsnCycles == 0)
      ensures ok == old(Execute(Standing(log), cart, Iorw(body, count))).Going?
      ensures ok ==> Tracks(Standing(log'), old(Execute(Standing(log), cart, Iorw(body, count))), old(booted))
    {
      hide Wired, ValidWorld, ValidDebt, Idle, ValidCart, Predicted, OnTime, Touch, Follows, DebtFollows, Accounts,
           Ticked;
      ghost var start, sound := Standing(log), booted;
      log' := log;
      TracksItself(start, sound);
      for i := 0 to count
        invariant Valid() && OnTime() && (sound ==> booted)
        invariant Tracks(Standing(log'), Touched(start, cart, body, i), sound)
      {
        ghost var o, before := Standing(log'), Touched(start, cart, body, i);
        ghost var acc, was := body(i, log'), booted;
        TouchTracks(o, before, cart, acc, sound);
        ok, log' := Perform(body(i, log'), log');
        if Touched(start, cart, body, count).Going? {
          TouchedSoFar(start, cart, body, i + 1, count);
        }
        if !ok {
          return;
        }
        TracksOn(Standing(log'), Touch(o, cart, acc), Touch(before, cart, acc), was, sound);
      }
      ok := true;
      FinishIorw(log', Touched(start, cart, body, count), sound);
    }

    method FinishIorw(log: seq<u8>, ghost o: Run, ghost sound: bool)
      requires Valid() && OnTime() && ValidRun(o) && Tracks(Standing(log), o, sound) && (sound ==> booted)
      modifies `cycles, `ioInsnCycles, `pending, `deadline, `dots, `booted, apu, ppu, ppu.lineSprites, ppu.screen
      ensures Valid() && OnTime() && ioInsnCycles == 0 && (old(booted) ==> booted)
      ensures o.Going? && Tracks(Standing(log), Ticked(o, o.debt.spent), sound)
    {
      hide Wired, ValidWorld, ValidDebt, Idle, ValidCart, Predicted, Follows, DebtFollows, Accounts, OnTime, Ticked;
      ghost var p, was := Standing(log), booted;
      var spent := ioInsnCycles;
      SameSpent(p, o, sound);
      TickTracks(p, o, spent, sound);
      TickPays(log, spent);
      TracksOn(Standing(log), Ticked(p, spent), Ticked(o, spent), was, sound);
      TracksLess(Standing(log), Ticked(o, spent), was && sound, sound);
    }

    /** The end of an instruction whose accesses have been counted. */
    method TickPays(log: seq<u8>, insnCycles: nat)
      requires Valid() && OnTime() && insnCycles == ioInsnCycles
      modifies `cycles, `ioInsnCycles, `pending, `deadline, `dots, `booted, apu, ppu, ppu.lineSprites, ppu.screen
      ensures Valid() && OnTime() && ioInsnCycles == 0 && (old(booted) ==> booted)
      ensures Tracks(Standing(log), old(Ticked(Standing(log), insnCycles)), old(booted))
    {
      hide Wired, ValidWorld, ValidDebt, Idle, ValidCart, Predicted, Follows, DebtFollows, Accounts, Caught;
      ghost var o, sound := Standing(log), booted;
      TracksItself(o, sound);
      Tick(insnCycles);
      if insnCycles > 0 {
        if o.debt.owed + insnCycles < o.debt.deadline {
          OwesItself();
        } else {
          CaughtStands(o.world, sound);
        }
      }
    }

    /** An access that reaches no device, with its cycle left to the end of the instruction. */
    method PerformQuiet(acc: Access, log: seq<u8>) returns (ok: bool, log': seq<u8>)
      requires Valid() && OnTime()
      modifies `cycles, `ioInsnCycles, `pending, `deadline, `dots, `booted, `env, `mem, `banks,
               apu, ppu, ppu.lineSprites, ppu.screen, ram
      ensures Valid() && OnTime() && booted == old(booted) && ok == IsQuiet(acc)
      ensures ok ==> QuietStanding(log') == old(QuietTouch(QuietStanding(log), cart, acc))
    {
      hide Wired, ValidWorld, ValidDebt, Idle, ValidCart, Predicted, Store, Follows, Accounts;
      log' := log;
      ok := IsQuiet(acc);
      if !ok {
        return;
      }
      MemoryStays(Now(), pending);
      match acc {
        case Rest =>
        case Dummy => DummyCycle();
        case Read(addr) =>
          var val := MemRead8(addr);
          log' := log + [Visible(addr, val)];
        case Read16(addr) =>
          var lo, hi := MemRead16(addr);
          log' := log + [lo, hi];
        case Write(addr, val) =>
          RamCommutes(Now(), cart, pending, addr, val);
          var _ := MemWrite8(addr, val);
      }
    }

    /** emulate.c:1875-1877, and the interrupt sequences (cpu.c:407-415): a number of cycles from a table, more when
      * a page is crossed or a branch taken.
      */
    method ExecuteFixed(body: Body, count: nat, cost: seq<u8> -> nat, log: seq<u8>) returns (ok: bool, log': seq<u8>)
      requires Valid() && OnTime() && ioInsnCycles == 0
      modifies `cycles, `ioInsnCycles, `pending, `deadline, `dots, `booted, `env, `mem, `banks,
               apu, ppu, ppu.lineSprites, ppu.screen, ram
      ensures Valid() && (old(booted) ==> booted) && (ok ==> OnTime() && ioInsnCycles == 0)
      ensures ok == old(Execute(Standing(log), cart, Fixed(body, count, cost))).Going?
      ensures ok ==> Tracks(Standing(log'), old(Execute(Standing(log), cart, Fixed(body, count, cost))), old(booted))
    {
      hide Wired, ValidWorld, ValidDebt, Idle, ValidCart, Predicted, OnTime, Effect, Follows, DebtFollows, Accounts,
           QuietTouch, Ticked, Pass;
      ghost var start := Standing(log);
      log' := log;
      for i := 0 to count
        invariant Valid() && OnTime() && booted == old(booted)
        invariant QuietStanding(log') == QuietlyTouched(start, cart, body, i)
      {
        ghost var before, acc := QuietlyTouched(start, cart, body, i), body(i, log');
        if QuietlyTouched(start, cart, body, count).Going? {
          QuietSoFar(start, cart, body, i + 1, count);
        }
        ok, log' := PerformQuiet(body(i, log'), log');
        if !ok {
          QuietOnly(before, cart, acc);
          return;
        }
      }
      ok := cost(log') > 0;
      if ok {
        FinishFixed(log', cost(log'));
      }
    }

    method FinishFixed(log: seq<u8>, insnCycles: nat)
      requires Valid() && OnTime() && insnCycles > 0
      modifies `cycles, `ioInsnCycles, `pending, `deadline, `dots, `booted, apu, ppu, ppu.lineSprites, ppu.screen
      ensures Valid() && OnTime() && ioInsnCycles == 0 && (old(booted) ==> booted)
      ensures Tracks(Standing(log), old(Ticked(Pass(QuietStanding(log), insnCycles), insnCycles)), old(booted))
    {
      hide Wired, ValidWorld, ValidDebt, Idle, ValidCart, Predicted, Follows, DebtFollows, Accounts, Caught;
      ghost var w, owed, due, sound := Idle(Now(), pending + insnCycles), pending, deadline, booted;
      IdleAdds(Now(), pending, insnCycles);
      Tick(insnCycles);
      if owed + insnCycles < due {
        OwesItself();
      } else {
        CaughtStands(w, sound);
      }
    }

    method Step(insn: Insn, log: seq<u8>) returns (ok: bool, log': seq<u8>)
      requires Valid() && OnTime() && ioInsnCycles == 0
      modifies `cycles, `ioInsnCycles, `pending, `deadline, `dots, `booted, `env, `mem, `banks,
               apu, ppu, ppu.lineSprites, ppu.screen, ram
      ensures Valid() && (old(booted) ==> booted) && (ok ==> OnTime() && ioInsnCycles == 0)
      ensures ok == old(Execute(Standing(log), cart, insn)).Going?
      ensures ok ==> Tracks(Standing(log'), old(Execute(Standing(log), cart, insn)), old(booted))
    {
      hide Wired, ValidWorld, ValidDebt, Idle, ValidCart, Predicted, OnTime, Execute, Follows, DebtFollows, Accounts;
      match insn {
        case Iorw(body, count) => ok, log' := ExecuteIorw(body, count, log);
        case Fixed(body, count, cost) => ok, log' := ExecuteFixed(body, count, cost, log);
      }
    }

    // ------------------------------------------------------------- the interrupt polls

    /** Between two instructions the polled lines are those of the machine with every cycle paid, but in exactly the
      * late states.
      */
    lemma PollsAreRight()
      requires Valid() && OnTime() && ioInsnCycles == 0
      ensures apu.irq <==> Virtual().apu.irq && !IrqLate(Now().apu, pending)
      ensures Now().ppu.status.nmi <==> Virtual().ppu.status.nmi && !NmiLate(Now().ppu, pending)
    {
      hide ApuReference.Core, ApuReference.Mix, ApuTypes.ValidEnv, PpuTypes.ValidPpu, PpuTypes.ValidMem, ValidCart,
           ApuReference.LevelsBounded, ApuReference.Run, PpuReference.Dots, IrqLate, NmiLate, Accounts;
      IrqPoll(Now().apu, env, Now().ppu, pending);
      NmiPoll(Now().ppu, mem, pending);
    }

    /** ppu.c:35-42 and its accounts: what was latched is taken, what was pending is latched. */
    method MoveNmi() returns (fire: bool)
      requires Accounts()
      modifies ppu`nmiPending, ppu`nmiSignal, `served, `promised
      ensures Accounts() && fire == old(ppu.nmiSignal) && (old(promised) ==> fire)
      ensures served == old(served) + (if fire then 1 else 0)
      ensures !fire && old(ppu.View().status.nmi) ==> promised
      ensures fire ==> old(ppu.View().status.nmi)
      ensures ppu.View() == PpuNmi.Nmi(old(ppu.View()), ppu.View().status.nmi)
      ensures !fire ==> ppu.View() == old(ppu.View())
    {
      promised := ppu.nmiPending;
      fire := ppu.CheckNmi();
      served := served + (if fire then 1 else 0);
    }

    /** cpu.c:407-410: an NMI moves one place along, and leaves the line when it is taken. */
    method PollNmi(log: seq<u8>) returns (fire: bool)
      requires Valid() && OnTime() && ioInsnCycles == 0
      modifies ppu`nmiPending, ppu`nmiSignal, `served, `promised
      ensures Valid() && OnTime() && fire == old(ppu.nmiSignal) && (old(promised) ==> fire)
      ensures served == old(served) + (if fire then 1 else 0)
      ensures !fire && old(Now().ppu.status.nmi) ==> promised
      ensures fire ==> old(Now().ppu.status.nmi)
      ensures Tracks(Standing(log), old(if ppu.nmiSignal then Served(Standing(log)) else Standing(log)), true)
    {
      hide ApuReference.Inv, ApuReference.Mix, ApuTypes.ValidEnv, PpuTypes.AtRest, PpuTypes.ValidMem, ValidCart,
           ApuReference.LevelsBounded, Predicted, RightMix, ApuHeard.Alike, Idle, Accounts, FollowsPpu, PpuNmi.Nmi,
           ValidDebt;
      ghost var w := Now();
      fire := MoveNmi();
      NmiPrediction(w.apu, w.ppu, ppu.View());
      assert Now() == w.(ppu := ppu.View());
      PollMoves(w, Now(), pending);
      FollowsItself(Virtual(), true);
      OwesItself();
    }

    /** cpu.c:407-410. */
    method TakeNmi(prog: Program, log: seq<u8>, ghost start: Run) returns (ok: bool, nmi: bool, log': seq<u8>)
      requires Valid() && OnTime() && ioInsnCycles == 0 && start == Standing(log)
      modifies `cycles, `ioInsnCycles, `pending, `deadline, `dots, `booted, `env, `mem, `banks, `served, `promised,
               apu, ppu, ppu.lineSprites, ppu.screen, ram
      ensures Valid() && (old(booted) ==> booted) && (ok ==> OnTime() && ioInsnCycles == 0)
      ensures ok == AtIrqPoll(start, cart, prog, nmi).Going?
      ensures ok ==> Tracks(Standing(log'), AtIrqPoll(start, cart, prog, nmi), old(booted))
      ensures served == old(served) + (if nmi then 1 else 0) && (old(promised) ==> nmi)
      ensures nmi ==> start.debt.ppu.status.nmi
      ensures start.world.ppu.status.nmi && !NmiLate(start.debt.ppu, start.debt.owed) && !nmi ==> promised
    {
      hide Wired, ValidWorld, ValidDebt, Idle, ValidCart, Predicted, OnTime, Execute, Follows, DebtFollows, Accounts,
           NmiLate, IrqLate, Served;
      ghost var sound := booted;
      PollsAreRight();
      nmi := PollNmi(log);
      ok, log' := true, log;
      TracksLess(Standing(log), if nmi then Served(start) else start, true, sound);
      if nmi {
        ok, log' := StepAlong(prog.nmi, log', Served(start), sound);
      }
    }

    /** One pass of cpu.c:400-428, the interrupts taken being reported. */
    method Iteration(prog: Program, i: nat, masked: bool, log: seq<u8>, ghost start: Run)
      returns (ok: bool, poll: Poll, log': seq<u8>)
      requires Valid() && OnTime() && ioInsnCycles == 0 && start == Standing(log)
      modifies `cycles, `ioInsnCycles, `pending, `deadline, `dots, `booted, `env, `mem, `banks, `served, `promised,
               apu, ppu, ppu.lineSprites, ppu.screen, ram
      ensures Valid() && (old(booted) ==> booted) && (ok ==> OnTime() && ioInsnCycles == 0)
      ensures ok == Iterate(start, cart, prog, i, poll).Going?
      ensures ok ==> Tracks(Standing(log'), Iterate(start, cart, prog, i, poll), old(booted))
      ensures served == old(served) + (if poll.nmi then 1 else 0) && (old(promised) ==> poll.nmi)
      ensures poll.nmi ==> start.debt.ppu.status.nmi
      ensures start.world.ppu.status.nmi && !NmiLate(start.debt.ppu, start.debt.owed) && !poll.nmi ==> promised
      ensures IrqRight(AtIrqPoll(start, cart, prog, poll.nmi), masked, poll.irq)
    {
      hide Wired, ValidWorld, ValidDebt, Idle, ValidCart, Predicted, OnTime, Execute, Follows, DebtFollows, Accounts,
           NmiLate, IrqLate, AtIrqPoll, IrqRight;
      ghost var sound := booted;
      var nmi;
      ok, nmi, log' := TakeNmi(prog, log, start);
      poll := Poll(nmi, false);
      ghost var o := AtIrqPoll(start, cart, prog, nmi);
      if !ok {
        StuckIsRight(o, masked, false);
        return;
      }
      poll := Poll(nmi, !masked && apu.irq);
      IrqPolled(log', masked);
      IrqRightOn(Standing(log'), o, masked, poll.irq, sound);
      ok, log' := FinishPass(prog, i, poll.irq, log', o, sound);
    }

    /** The line the loop looks at, as a poll of the machine with every cycle paid. */
    lemma IrqPolled(log: seq<u8>, masked: bool)
      requires Valid() && OnTime() && ioInsnCycles == 0
      ensures IrqRight(Standing(log), masked, !masked && apu.irq)
    {
      hide Wired, ValidWorld, ValidDebt, Idle, ValidCart, Predicted, OnTime, Accounts, IrqLate;
      PollsAreRight();
    }

    /** cpu.c:412-427: the interrupt request, if it is taken, and the instruction. */
    method FinishPass(prog: Program, i: nat, irq: bool, log: seq<u8>, ghost o: Run, ghost sound: bool)
      returns (ok: bool, log': seq<u8>)
      requires Valid() && OnTime() && ioInsnCycles == 0 && (sound ==> booted)
      requires ValidRun(o) && Tracks(Standing(log), o, sound)
      modifies `cycles, `ioInsnCycles, `pending, `deadline, `dots, `booted, `env, `mem, `banks,
               apu, ppu, ppu.lineSprites, ppu.screen, ram
      ensures Valid() && (old(booted) ==> booted) && (ok ==> OnTime() && ioInsnCycles == 0)
      ensures ok == PassFrom(o, cart, prog, i, irq).Going?
      ensures ok ==> Tracks(Standing(log'), PassFrom(o, cart, prog, i, irq), sound)
    {
      hide Wired, ValidWorld, ValidDebt, Idle, ValidCart, Predicted, OnTime, Execute, Follows, DebtFollows, Accounts;
      ok, log' := true, log;
      if irq {
        ok, log' := StepAlong(prog.irq, log', o, sound);
        if !ok {
          return;
        }
      }
      ok, log' := StepAlong(prog.insn(i, log'), log', TakeIf(o, cart, irq, prog.irq), sound);
    }

    /** An instruction, executed behind a machine that is followed so far. */
    method StepAlong(insn: Insn, log: seq<u8>, ghost o: Run, ghost sound: bool) returns (ok: bool, log': seq<u8>)
      requires Valid() && OnTime() && ioInsnCycles == 0 && (sound ==> booted)
      requires ValidRun(o) && Tracks(Standing(log), o, sound)
      modifies `cycles, `ioInsnCycles, `pending, `deadline, `dots, `booted, `env, `mem, `banks,
               apu, ppu, ppu.lineSprites, ppu.screen, ram
      ensures Valid() && (old(booted) ==> booted) && (ok ==> OnTime() && ioInsnCycles == 0)
      ensures ok == Execute(o, cart, insn).Going?
      ensures ok ==> Tracks(Standing(log'), Execute(o, cart, insn), sound)
    {
      hide Wired, ValidWorld, ValidDebt, Idle, ValidCart, Predicted, OnTime, Execute, Follows, DebtFollows, Accounts;
      ghost var p, was := Standing(log), booted;
      ExecuteTracks(p, o, cart, insn, sound);
      ok, log' := Step(insn, log);
      if ok {
        TracksOn(Standing(log'), Execute(p, cart, insn), Execute(o, cart, insn), was, sound);
      }
    }

    /** cpu.c:393-431, for any number of passes of any program: the lazy loop reads what the eager machine reads
      * with the interrupts it took, follows it to the last cycle owed, and leaves the modelled accesses when it
      * does.  Each interrupt request is taken exactly when the eager line is up, unmasked and not late; an NMI on
      * the eager line is taken by the next poll at the latest, if it is not late; and none is taken that was not
      * raised, or twice.
      */
    method MainLoop(prog: Program, passes: nat, log: seq<u8>) returns (ok: bool, polls: seq<Poll>, log': seq<u8>)
      requires Valid() && OnTime() && ioInsnCycles == 0
      modifies `cycles, `ioInsnCycles, `pending, `deadline, `dots, `booted, `env, `mem, `banks, `served, `promised,
               apu, ppu, ppu.lineSprites, ppu.screen, ram
      ensures Valid() && (ok ==> OnTime() && ioInsnCycles == 0 && |polls| == passes) && |polls| <= passes
      ensures ok == old(Iterated(Standing(log), cart, prog, polls)).Going?
      ensures ok ==> Tracks(Standing(log'), old(Iterated(Standing(log), cart, prog, polls)), old(booted))
      ensures PolledRight(old(Standing(log)), cart, prog, polls, promised)
      ensures served == old(served) + Taken(polls) && served + ppu.Held() <= Now().ppu.nmis.raised
      ensures ok ==>
                old(served) + Taken(polls)
                <= old(Iterated(Standing(log), cart, prog, polls)).world.ppu.nmis.raised
    {
      hide Wired, ValidWorld, ValidDebt, Idle, ValidCart, Predicted, OnTime, Iterate, Follows, DebtFollows, PolledRight,
           AtIrqPoll, IrqRight, NmiLate;
      ghost var start, sound := Standing(log), booted;
      polls, log' := [], log;
      TracksItself(start, sound);
      NothingPolled(start, cart, prog, promised);
      for i := 0 to passes
        invariant Valid() && OnTime() && ioInsnCycles == 0 && (sound ==> booted)
        invariant |polls| == i && served == old(served) + Taken(polls)
        invariant Tracks(Standing(log'), Iterated(start, cart, prog, polls), sound)
        invariant PolledRight(start, cart, prog, polls, promised)
      {
        ghost var o, p, was := Standing(log'), Iterated(start, cart, prog, polls), booted;
        ghost var kept := promised;
        var poll;
        ok, poll, log' := Iteration(prog, i, prog.masked(i, log'), log', o);
        IterateTracks(o, p, cart, prog, i, poll, sound);
        OnePassMore(start, cart, prog, polls, poll);
        PassPolled(start, cart, prog, polls, poll, o, kept, promised, sound);
        polls := polls + [poll];
        if !ok {
          return;
        }
        TracksOn(Standing(log'), Iterate(o, cart, prog, i, poll), Iterated(start, cart, prog, polls), was, sound);
      }
      ok := true;
      ServedWereRaised(Iterated(start, cart, prog, polls), log', sound);
    }

    /** From between two instructions of any valid machine: what CpuInterrupts says of such runs holds of its runs. */
    lemma StandingIndebted(log: seq<u8>)
      requires Valid() && OnTime() && ioInsnCycles == 0
      ensures Indebted(Standing(log))
    {
      hide ApuReference.Core, ApuReference.Mix, ApuTypes.ValidEnv, PpuTypes.ValidPpu, PpuTypes.ValidMem, ValidCart,
           ApuReference.LevelsBounded, RightMix, ApuReference.Run, PpuReference.Dots, Predicted, Accounts;
      NmiStays(Now().ppu, mem, 3 * pending);
    }

    lemma ServedWereRaised(o: Run, log: seq<u8>, sound: bool)
      requires Valid() && OnTime() && o.Going? && Tracks(Standing(log), o, sound)
      ensures served + ppu.Held() <= Now().ppu.nmis.raised && served <= o.world.ppu.nmis.raised
    {
      hide ApuReference.Inv, ApuReference.Mix, ApuTypes.ValidEnv, PpuTypes.ValidPpu, PpuTypes.ValidMem, ValidCart,
           ApuReference.LevelsBounded, RightMix, ApuHeard.Alike, ApuReference.Run, PpuReference.Dots, Predicted,
           DebtFollows;
      PpuNmi.RaisedGrows(Now().ppu, mem, 3 * (pending + ioInsnCycles));
    }
  }

  lemma StuckIsRight(o: Run, masked: bool, taken: bool)
    requires ValidRun(o) && o.Stuck?
    ensures IrqRight(o, masked, taken)
  {
  }

  lemma QuietOnly(o: Run, cart: Cart, acc: Access)
    requires ValidRun(o) && ValidCart(cart) && !IsQuiet(acc)
    ensures QuietTouch(o, cart, acc).Stuck?
  {
  }

  ghost function RamStored(w: World, addr: nat, val: u8): World
    requires |w.ram| == RAM_SIZE && IsRam(addr)
  {
    w.(ram := w.ram[addr % RAM_SIZE := val])
  }

  /** RAM and time do not touch each other. */
  lemma RamCommutes(w: World, cart: Cart, k: nat, addr: nat, val: u8)
    requires ValidWorld(w) && ValidCart(cart) && IsRam(addr)
    ensures ValidWorld(RamStored(w, addr, val))
    ensures CanStore(Idle(w, k), addr, val)
    ensures Idle(RamStored(w, addr, val), k) == Store(Idle(w, k), cart, addr, val)
  {
    hide ApuReference.Inv, ApuReference.Mix, ApuTypes.ValidEnv, PpuTypes.AtRest, PpuTypes.ValidMem,
         ApuReference.Run, PpuReference.Dots;
  }

  lemma NothingCopied(w: World, page: nat)
    requires ValidWorld(w) && page < 8
    ensures DmaCopied(w, page, 0) == w
  {
  }

  /** In a resting unit the address stays where the copying has put it. */
  lemma StepOn(w: World, page: nat, n: nat)
    requires ValidWorld(w) && page < 8 && n < OAM_SIZE
    requires var c := DmaCopied(w, page, n);
             PpuDark.Resting(c.ppu, 3 * DmaCycles(w) - 6 * n) && c.ppu.oamAddr == n
    ensures var c, d := DmaCopied(w, page, n), DmaCopied(w, page, n + 1);
            && ValidWorld(c.(cycles := w.cycles))
            && d.(cycles := w.cycles) == DmaStep(c.(cycles := w.cycles), page).(cycles := w.cycles)
            && Idle(OamGiven(c.(cycles := w.cycles), page), 2).ppu.oamAddr == n
            && PpuDark.Resting(d.ppu, 3 * DmaCycles(w) - 6 * (n + 1)) && d.ppu.oamAddr == (n + 1) % OAM_SIZE
  {
    hide ApuReference.Inv, ApuReference.Mix, ApuTypes.ValidEnv, PpuTypes.AtRest, PpuTypes.ValidMem, Idle;
    var c := DmaCopied(w, page, n);
    RestingStep(c, page, 3 * DmaCycles(w) - 6 * (n + 1));
    IdleParts(OamGiven(c, page), w.cycles, 2);
  }

  lemma RestingStep(w: World, page: nat, left: nat)
    requires ValidWorld(w) && page < 8 && PpuDark.Resting(w.ppu, 6 + left)
    ensures Idle(OamGiven(w, page), 2).ppu.oamAddr == w.ppu.oamAddr
    ensures PpuDark.Resting(DmaStep(w, page).ppu, left)
  {
    hide ApuReference.Inv, ApuReference.Mix, ApuTypes.ValidEnv, PpuTypes.AtRest, ApuReference.Run, PpuReference.Dots;
    var g := OamGiven(w, page);
    PpuDark.RestingDots(w.ppu, g.mem, g.mem.oam, w.ppu.oamAddr, 6, left);
  }

  lemma StoreIsDma(w: World, cart: Cart, page: u8)
    requires ValidWorld(w) && ValidCart(cart)
    ensures CanStore(w, 0x4014, page) ==> page < 8 && Store(w, cart, 0x4014, page) == Dma(w, page)
  {
    hide ValidWorld, ValidCart, Dma;
  }

  lemma {:induction false} TouchedSoFar(o: Run, cart: Cart, body: Body, m: nat, n: nat)
    requires ValidRun(o) && ValidCart(cart) && m <= n && Touched(o, cart, body, n).Going?
    ensures Touched(o, cart, body, m).Going?
    decreases n
  {
    hide ValidRun, ValidCart, Touch;
    if m < n {
      TouchedSoFar(o, cart, body, m, n - 1);
    }
  }

  lemma {:induction false} QuietSoFar(o: Run, cart: Cart, body: Body, m: nat, n: nat)
    requires ValidRun(o) && ValidCart(cart) && m <= n && QuietlyTouched(o, cart, body, n).Going?
    ensures QuietlyTouched(o, cart, body, m).Going?
    decreases n
  {
    hide ValidRun, ValidCart, QuietTouch;
    if m < n {
      QuietSoFar(o, cart, body, m, n - 1);
    }
  }

  lemma OnePassMore(o: Run, cart: Cart, prog: Program, polls: seq<Poll>, p: Poll)
    requires ValidRun(o) && ValidCart(cart)
    ensures Iterated(o, cart, prog, polls + [p]) == Iterate(Iterated(o, cart, prog, polls), cart, prog, |polls|, p)
  {
    hide ValidRun, ValidCart, Iterate;
    assert (polls + [p])[..|polls|] == polls;
  }

  lemma MemoryStays(w: World, k: nat)
    requires ValidWorld(w)
    ensures var v := Idle(w, k);
            v.ram == w.ram && v.env == w.env && |w.ram| == RAM_SIZE && |w.env.prg| == 0x8000
  {
    hide Idle;
  }

  lemma MemorySizes(w: World)
    requires ValidWorld(w)
    ensures |w.ram| == RAM_SIZE && |w.env.prg| == 0x8000
  {
  }

  lemma SamePrediction(a: ApuTypes.Apu, p: PpuTypes.Ppu, b: ApuTypes.Apu, q: PpuTypes.Ppu)
    requires ApuReference.Core(a) && PpuTypes.AtRest(p) && ApuReference.Core(b) && PpuTypes.AtRest(q)
    requires PpuTheorems.CyclesToNmi(q) == PpuTheorems.CyclesToNmi(p)
    requires ApuIrq.CyclesToIrq(b) == ApuIrq.CyclesToIrq(a)
    ensures Predicted(b, q) == Predicted(a, p)
  {
  }

  /** Reading $2002 takes back the vblank flag and not the next vblank. */
  lemma StatusPrediction(w: World)
    requires ValidWorld(w)
    ensures PpuTypes.AtRest(PpuRegisters.StatusRead(w.ppu))
    ensures Predicted(w.apu, PpuRegisters.StatusRead(w.ppu)) == Predicted(w.apu, w.ppu)
  {
    hide ApuReference.Core, ApuReference.Mix, ApuTypes.ValidEnv, PpuTypes.ValidPpu, PpuTypes.ValidMem,
         PpuRegisters.StatusRead;
    PpuRegisters.AccessKeepsPrediction(w.ppu, 0);
    SamePrediction(w.apu, w.ppu, w.apu, PpuRegisters.StatusRead(w.ppu));
  }

  /** The NMI line has no part in the prediction. */
  lemma NmiPrediction(a: ApuTypes.Apu, p: PpuTypes.Ppu, q: PpuTypes.Ppu)
    requires ApuReference.Inv(a) && PpuTypes.AtRest(p) && q == PpuNmi.Nmi(p, q.status.nmi)
    ensures PpuTypes.AtRest(q) && Predicted(a, q) == Predicted(a, p)
  {
    hide ApuReference.Core;
  }

  /** Reading $4015 takes back the flag and not the next interrupt. */
  lemma AcknowledgedPrediction(a: ApuTypes.Apu)
    requires ApuReference.Core(a)
    ensures ApuReference.Core(Acknowledged(a))
    ensures ApuIrq.CyclesToIrq(Acknowledged(a)) == ApuIrq.CyclesToIrq(a)
  {
  }

  /** Plain memory reads the same whenever it is read. */
  lemma PlainLoad(w: World, k: nat, addr: nat)
    requires ValidWorld(w) && CanLoad(addr)
    ensures |w.ram| == RAM_SIZE && |w.env.prg| == 0x8000
    ensures IsRam(addr) || IsPrg(addr) ==> Load(Idle(w, k), addr) == Loaded(Idle(w, k), PlainByte(w, addr))
  {
    hide ApuReference.Inv, ApuReference.Mix, PpuTypes.AtRest, PpuTypes.ValidMem, Idle;
  }

  /** Idling moves the devices by their own laws and the two counts of time. */
  lemma IdleParts(w: World, time: nat, k: nat)
    requires ValidWorld(w)
    ensures ValidWorld(w.(cycles := time))
    ensures var v := Idle(w.(cycles := time), k);
            Idle(w, k) == w.(apu := v.apu, ppu := v.ppu, cycles := w.cycles + k, dots := w.dots + 3 * k)
  {
    hide ApuReference.Inv, ApuReference.Mix, ApuTypes.ValidEnv, PpuTypes.AtRest, PpuTypes.ValidMem,
         ApuReference.Run, PpuReference.Dots;
  }

  /** The two contracts of TicksExecute are idling, but for a first sample when the mix is still to be made right. */
  lemma DevicesIdle(w: World, a: ApuTypes.Apu, booted: bool, k: nat)
    requires ValidWorld(w) && k > 0 && ApuReference.Inv(a)
    requires w.apu == (if booted then a else RightMix(a, w.env)) && (!booted ==> a.samples == [])
    ensures var b := ApuReference.Run(ApuBatch.Corrected(a, w.env, ApuDevice.FirstJump(a, k)), w.env, k);
            ApuHeard.Alike(b, Idle(w, k).apu) && (booted ==> b == Idle(w, k).apu)
    ensures Idle(w, k).ppu == PpuReference.Dots(w.ppu, w.mem, 3 * k)
  {
    hide ApuReference.Core, ApuReference.Mix, ApuTypes.ValidEnv, PpuTypes.ValidPpu, PpuTypes.ValidMem,
         ApuReference.Run, PpuReference.Dots, ApuBatch.Corrected, ApuHeard.Alike, ApuHeard.SoundOnly, RightMix;
    var jump := ApuDevice.FirstJump(a, k);
    if booted {
      ApuDevice.NothingToCorrect(a, w.env, jump);
      ItselfAlike(Idle(w, k).apu);
    } else {
      CorrectedSounds(a, w.env, jump);
      ApuHeard.RunAlike(ApuBatch.Corrected(a, w.env, jump), w.apu, w.env, k);
    }
  }

  lemma ItselfAlike(a: ApuTypes.Apu)
    ensures ApuHeard.Alike(a, a)
  {
  }

  lemma CorrectedSounds(a: ApuTypes.Apu, env: ApuTypes.Env, jump: nat)
    requires ApuTypes.ValidEnv(env) && ApuReference.Inv(a) && a.samples == []
    ensures ApuHeard.SoundOnly(ApuBatch.Corrected(a, env, jump), RightMix(a, env))
  {
    hide ApuReference.Mix;
  }

  lemma MixPutRight(a: ApuTypes.Apu, env: ApuTypes.Env)
    requires ApuTypes.ValidEnv(env) && ApuReference.Inv(a)
    ensures var b := RightMix(a, env);
            && ApuReference.Inv(b) && b.outputMix == ApuReference.Mix(b, env)
            && b.irq == a.irq && ApuIrq.CyclesToIrq(b) == ApuIrq.CyclesToIrq(a)
  {
    ApuHeard.SameValid(a, RightMix(a, env), env);
  }

  lemma PowerOnSilent()
    ensures ApuDevice.PowerOn().samples == []
  {
  }

  /** The accesses of the model that are not to RAM. */
  predicate IsDevice(addr: nat) { IsPpu(addr) || IsApu(addr) || addr == 0x4014 || IsPrg(addr) }

  lemma OnlyDevices(w: World, addr: nat, val: u8)
    requires !IsDevice(addr) && !IsRam(addr)
    ensures !CanStore(w, addr, val)
  {
  }

  /** A poll leaves the line as it is, or with an NMI taken. */
  lemma PollMoves(w: World, v: World, k: nat)
    requires ValidWorld(w) && ValidWorld(v) && v == w.(ppu := PpuNmi.Nmi(w.ppu, v.ppu.status.nmi))
    ensures var i := Idle(w, k); Follows(Idle(v, k), i.(ppu := PpuNmi.Calm(i.ppu)), true)
    ensures FollowsPpu(v.ppu, PpuNmi.Calm(w.ppu))
  {
    hide ApuReference.Inv, ApuReference.Mix, ApuTypes.ValidEnv, PpuTypes.ValidPpu, PpuTypes.ValidMem,
         ApuReference.Run, PpuReference.Dots;
    PpuNmi.CalmDots(w.ppu, w.mem, 3 * k);
    DotsFollow(v.ppu, PpuNmi.Calm(w.ppu), w.mem, 3 * k);
  }

  /** From power-on: any number of passes of any program on a machine just made, against the eager machine begun
    * with every device at power-on.  Only the first audio sample may differ.
    */
  method PowerUp(cart: Cart, env: ApuTypes.Env, mem: PpuTypes.Mem, prog: Program, passes: nat)
    returns (cpu: Cpu, ok: bool, polls: seq<Poll>, log: seq<u8>, ghost start: World)
    requires ValidCart(cart) && ApuTypes.ValidEnv(env) && PpuTypes.ValidMem(mem)
    requires env.prg == cart([]).prg && mem.patterns == cart([]).patterns && mem.names == cart([]).names
    ensures ValidWorld(start) && start.apu == RightMix(ApuDevice.PowerOn(), env) && start.env == env && start.mem == mem
    ensures start.ppu.scanLine == PpuTypes.PRE_RENDER_LINE - 1 && start.ppu.dot == 0 && !start.ppu.status.nmi
    ensures start.banks == [] && start.cycles == 0 && start.dots == 0
    ensures cpu.Valid() && ok == Iterated(Fresh(start), cart, prog, polls).Going?
    ensures ok ==> |polls| == passes && cpu.OnTime()
    ensures ok ==> Tracks(cpu.Standing(log), Iterated(Fresh(start), cart, prog, polls), false)
    ensures PolledRight(Fresh(start), cart, prog, polls, cpu.promised) && Indebted(Fresh(start))
  {
    hide ApuReference.Inv, ApuReference.Mix, ApuTypes.ValidEnv, PpuTypes.AtRest, PpuTypes.ValidMem, ValidCart,
         RightMix, Iterated, Follows, DebtFollows, PolledRight, ValidWorld, ValidDebt, Idle, Indebted;
    cpu := new Cpu(cart, env, mem);
    start := cpu.Now();
    ghost var sound := cpu.booted;
    FreshIndebted(start);
    ok, polls, log := cpu.MainLoop(prog, passes, []);
    if ok {
      TracksLess(cpu.Standing(log), Iterated(Fresh(start), cart, prog, polls), sound, false);
    }
  }

  /** A machine at power-on: nothing owed and the deadline passed. */
  ghost function Fresh(w: World): (o: Run)
    requires ValidWorld(w)
    ensures ValidRun(o) && o.Going?
  {
    hide ApuReference.Core, ApuReference.Mix, ApuTypes.ValidEnv, PpuTypes.ValidPpu, PpuTypes.ValidMem, Predicted;
    Going(w, [], Debt(w.apu, w.ppu, 0, 0, 0))
  }

  lemma FreshIndebted(w: World)
    requires ValidWorld(w)
    ensures Indebted(Fresh(w))
  {
    hide ApuReference.Inv, ApuReference.Mix, ApuTypes.ValidEnv, PpuTypes.ValidPpu, PpuTypes.ValidMem, Predicted;
    assert ApuReference.Run(w.apu, w.env, 0) == w.apu;
    assert PpuReference.Dots(w.ppu, w.mem, 0) == w.ppu;
  }
}
