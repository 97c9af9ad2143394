/** The interrupt handlers on the real machine: kernel globals, registers and memory in place. */
module Boards {
  import opened Scheduler
  import opened Runs
  import opened Machines
  import opened Handlers
  import opened Transparency
  import opened SystemStart
  import opened Assembly
  import Os

  /** A live victim is still in its queue when the kill gets to removing it. */
  lemma KillReady(k: Kernel, live: set<nat>, victim: nat, now: nat)
    requires Sound(k, live) && victim in live
    ensures var k2 := Select(Marked(k, victim), now).0; WellFormed(k2) && Queued(k2, victim)
  {
    assert Partition(Marked(k, victim), live);
    SelectPartition(Marked(k, victim), live, now);
    Exclusive(Select(Marked(k, victim), now).0, live, victim);
  }

  class Board {
    const os: Os.Os
    const cpu: Cpu
    var svcallStackPtr: nat

    ghost predicate Valid()
      reads this, os, os.scheduledQueue, os.unscheduledQueue, os.Repr()
    {
      os.Valid() && os.cpu == cpu && this !in os.Repr() && cpu !in os.Repr() && cpu.mem !in os.Repr()
    }

    /** The board is in the given state. */
    ghost predicate Shows(s: System)
      reads this, os, os.taskList, os.scheduledQueue, os.unscheduledQueue, cpu, cpu.mem
    {
      os.State() == s.w.k && cpu.Now() == s.m
    }

    constructor (os: Os.Os, cpu: Cpu)
      requires os.Valid() && os.cpu == cpu
      ensures Valid() && this.os == os && this.cpu == cpu
    {
      this.os, this.cpu, svcallStackPtr := os, cpu, 0;
    }

    /** The system call dispatcher. */
    method InternalSyscall(number: Word, e: Event, runner: Word, ghost w: World) returns (ret: Word)
      requires Valid() && os.State() == w.k && Inv(w) && Enabled(w, e) && Asks(number, w, e)
      requires e.CallCreate? ==> SOFT + HARD <= e.args.stackBase <= cpu.mem.Length
                                 && e.sp == e.args.stackBase - SOFT - HARD
      modifies os.Repr(), cpu, cpu.mem
      ensures Valid() && fresh(os.Repr() - old(os.Repr()))
      ensures os.State() == Next(w, e).k && ret == Result(w, e)
      ensures number <= 3 ==> ret == 0
      ensures number == 4 ==> ret == old(os.State()).nextPid
      ensures number > 5 ==> ret == 0xFFFF_FFFB
      ensures cpu.Now() ==
              if e.CallCreate? then StackInited(old(cpu.Now()), e.args.stackBase, runner) else old(cpu.Now())
    {
      if e.CallKill? {
        KillReady(w.k, w.live, e.victim, e.t);
        assert w.k.tasks[w.k.running].pid == w.k.running;
      }
      hide Inv, Select, Os.Os.Valid;
      if number == 3 {
        os.Die(os.runningPid, e.t);
        ret := 0;
      } else if number == 1 {
        os.Yield(e.t);
        ret := 0;
      } else if number == 0 {
        os.Kill(e.victim, e.t);
        ret := 0;
      } else if number == 2 {
        os.Sleep(os.runningPid, e.wake, e.t, e.answer);
        ret := 0;
      } else if number == 4 {
        ret := os.CreateTask(e.args, runner, e.answer);
      } else {
        ret := 0x1_0000_0000 - 5;
      }
    }

    /** The C half of SVC; the registers inside it are its own, and it keeps r4-r11 for its caller. */
    method SvcallHandler(stackPtr: nat, number: Word, a: Action, ghost w: World) returns (ret: Word)
      requires Valid() && a.Svc? && os.State() == w.k && Inv(w) && Enabled(w, a.e) && Asks(number, w, a.e)
      requires IsCreate(a) ==> SOFT + HARD <= a.region.hi <= cpu.mem.Length && a.e.args.stackBase == a.region.hi
                               && a.e.sp == a.region.hi - SOFT - HARD
      modifies this`svcallStackPtr, os.Repr(), cpu, cpu.mem
      ensures Valid() && fresh(os.Repr() - old(os.Repr()))
      ensures os.State() == Next(w, a.e).k && ret == Result(w, a.e) && svcallStackPtr == stackPtr
      ensures cpu.Now() == Clobbered(StackMade(old(cpu.Now()), StackFor(a)), a.junk)
    {
      hide Inv, Enabled, Asks, Next, Result, Os.Os.Valid;
      var saved := cpu.r;
      cpu.r := a.atCall;
      ret := InternalSyscall(number, a.e, a.entry, w);
      svcallStackPtr := stackPtr;
      cpu.r := a.junk.(r4 := saved.r4, r5 := saved.r5, r6 := saved.r6, r7 := saved.r7,
                       r8 := saved.r8, r9 := saved.r9, r10 := saved.r10, r11 := saved.r11);
    }

    /** SVC: the handler takes the board to the state that the system's step says. */
    method IsrSvcall(a: Action, ghost s: System)
      requires Valid() && Shows(s) && SystemInv(s) && Possible(s, a) && a.Svc?
      modifies this, os.Repr(), cpu, cpu.mem
      ensures Valid() && fresh(os.Repr() - old(os.Repr())) && Shows(Proceed(s, a))
    {
      hide SystemInv, Possible, Proceed, Inv, Enabled, Asks, Next, Result, Os.Os.Valid, Padded, Written;
      hide Entered, Saved, Restored, Returned, Clobbered, StackMade;
      SvcReady(s, a);
      var sp := cpu.EnterAndSave();
      var number := cpu.mem[sp + 8];
      var ret := SvcallHandler(sp, number, a, s.w);
      cpu.mem[svcallStackPtr + 8] := ret;
      assert Valid();
      cpu.RestoreAndReturn(svcallStackPtr);
    }

    /** PendSV, up to its C half. */
    method EnterPendSv(a: Action, ghost s: System)
      requires Valid() && Shows(s) && SystemInv(s) && Possible(s, a) && a.TakePendSV?
      modifies os.Repr(), cpu, cpu.mem
      ensures Valid() && fresh(os.Repr() - old(os.Repr())) && Shows(Proceed(s, a))
    {
      hide SystemInv, Possible, Proceed, Inv, Enabled, Next, Os.Os.Valid, Padded, Written;
      hide Entered, Saved;
      TakeReady(s, a);
      os.AcknowledgePendSv();
      var _ := cpu.EnterAndSave();
    }

    /** The rest of PendSV: let the kernel decide, restore from the stack pointer it hands back. */
    method FinishPendSv(a: Action, ghost s: System)
      requires Valid() && Shows(s) && SystemInv(s) && Possible(s, a) && a.PendSV?
      modifies os.Repr(), cpu
      ensures Valid() && fresh(os.Repr() - old(os.Repr())) && Shows(Proceed(s, a))
    {
      hide SystemInv, Possible, Proceed, Inv, Enabled, Next, Os.Os.Valid, Padded, Written;
      hide Restored, Returned;
      PendSvReady(s, a);
      var saved := cpu.r;
      var newSp := os.PendSvHandler(cpu.psp - SOFT, a.t1, a.t2);
      cpu.r := a.junk.(r4 := saved.r4, r5 := saved.r5, r6 := saved.r6, r7 := saved.r7,
                       r8 := saved.r8, r9 := saved.r9, r10 := saved.r10, r11 := saved.r11);
      assert cpu.Now() == Clobbered(s.m, a.junk);
      assert Valid();
      cpu.RestoreAndReturn(newSp);
    }

    /** A systick that preempts PendSV before its C half: the hardware stacks the rest on the main stack
        and takes it back. */
    method PreemptPendSv(a: Action, ghost s: System)
      requires Valid() && Shows(s) && SystemInv(s) && Possible(s, a) && a.SysTick? && s.w.entered
      modifies os.Repr(), cpu
      ensures Valid() && fresh(os.Repr() - old(os.Repr())) && Shows(Proceed(s, a))
    {
      hide SystemInv, Possible, Proceed, Inv, Enabled, Next, Os.Os.Valid, Written;
      PreemptReady(s, a);
      var stacked := cpu.r;
      os.SystickHandler(a.e.t1, a.e.t2, a.e.t3);
      cpu.r := a.junk.(r4 := stacked.r4, r5 := stacked.r5, r6 := stacked.r6, r7 := stacked.r7,
                       r8 := stacked.r8, r9 := stacked.r9, r10 := stacked.r10, r11 := stacked.r11);
      cpu.r := cpu.r.(r0 := stacked.r0, r1 := stacked.r1, r2 := stacked.r2, r3 := stacked.r3,
                      r12 := stacked.r12, lr := stacked.lr, pc := stacked.pc, xpsr := stacked.xpsr);
    }

    /** SysTick from thread code: plain C between exception entry and return. */
    method IsrSystick(a: Action, ghost s: System)
      requires Valid() && Shows(s) && SystemInv(s) && Possible(s, a) && a.SysTick? && !s.w.entered
      modifies os.Repr(), cpu, cpu.mem
      ensures Valid() && fresh(os.Repr() - old(os.Repr())) && Shows(Proceed(s, a))
    {
      hide SystemInv, Possible, Proceed, Inv, Enabled, Next, Os.Os.Valid, Padded, Written;
      hide Entered, Returned;
      SystickReady(s, a);
      cpu.EnterException();
      var saved := cpu.r;
      os.SystickHandler(a.e.t1, a.e.t2, a.e.t3);
      cpu.r := a.junk.(r4 := saved.r4, r5 := saved.r5, r6 := saved.r6, r7 := saved.r7,
                       r8 := saved.r8, r9 := saved.r9, r10 := saved.r10, r11 := saved.r11);
      assert Valid();
      cpu.ReturnFromException();
    }

    /** A creation before tasking starts: the system call function is called directly. */
    method CreateBeforeStart(t: NewTask, ghost m: Machine, ghost ts: seq<NewTask>)
      requires Valid() && |ts| + 1 < MAX_TASKS && Placed(ts, |m.mem|) && Placed(ts + [t], |m.mem|)
      requires os.State() == Booted(Creations(ts)) && cpu.Now() == StacksBuilt(m, ts).(r := cpu.r)
      modifies os.Repr(), cpu, cpu.mem
      ensures Valid() && fresh(os.Repr() - old(os.Repr()))
      ensures os.State() == Booted(Creations(ts + [t])) && cpu.Now() == StacksBuilt(m, ts + [t]).(r := cpu.r)
    {
      hide Os.Os.Valid, Written, Create, Booted, StacksBuilt, Creations, StackInited;
      BuildStep(m, ts, t);
      cpu.r := t.atCall;
      var _ := os.CreateTask(CreateArgs(t.entry, t.region.hi, t.frequency), t.runner, true);
    }

    /** Starts tasking with the spin task; from here on the board shows a system that satisfies the
        invariant, so every handler can be run. */
    method Start(now: nat, ghost m: Machine, ghost ts: seq<NewTask>)
      requires Valid() && 0 < |ts| < MAX_TASKS && Placed(ts, |m.mem|) && !Padded(m.r.xpsr)
      requires os.State() == Booted(Creations(ts)) && cpu.Now() == StacksBuilt(m, ts).(r := m.r)
      modifies os.Repr(), cpu
      ensures Valid() && fresh(os.Repr() - old(os.Repr()))
      ensures SystemInv(StartSystem(m, ts, now)) && Shows(StartSystem(m, ts, now))
    {
      hide Os.Os.Valid, Written, SystemInv, Booted, StacksBuilt, Inv, Laid, Creations, Padded;
      StartIsLaid(m, ts, now);
      StartRecords(ts, now);
      os.Start(now);
      cpu.BeginTasking(os.taskList[SPIN].stackPtr);
    }
  }

  lemma BuildStep(m: Machine, ts: seq<NewTask>, t: NewTask)
    requires |ts| + 1 < MAX_TASKS && Placed(ts, |m.mem|) && Placed(ts + [t], |m.mem|)
    ensures SOFT + HARD <= t.region.hi <= |m.mem|
    ensures Booted(Creations(ts + [t])) == Create(Booted(Creations(ts)),
              CreateArgs(t.entry, t.region.hi, t.frequency), t.region.hi - SOFT - HARD, true)
    ensures StacksBuilt(m, ts + [t]) == StackInited(StacksBuilt(m, ts).(r := t.atCall), t.region.hi, t.runner)
  {
    hide Create, StackInited, Booted, Creations, StacksBuilt, Placed;
    LastPlaced(m, ts, t);
    StacksStep(m, ts, t);
    BootedStep(Creations(ts), Creation(CreateArgs(t.entry, t.region.hi, t.frequency), t.region.hi - SOFT - HARD, true));
    CreationsStep(ts, t);
  }

  lemma LastPlaced(m: Machine, ts: seq<NewTask>, t: NewTask)
    requires Placed(ts, |m.mem|) && Placed(ts + [t], |m.mem|)
    ensures SOFT + HARD <= t.region.hi <= |m.mem|
    ensures forall i :: 0 <= i < |ts| ==> SOFT + HARD <= ts[i].region.hi <= |m.mem|
    ensures forall i :: 0 <= i <= |ts| ==> SOFT + HARD <= (ts + [t])[i].region.hi <= |m.mem|
  {
    assert (ts + [t])[|ts|] == t;
  }

  lemma StacksStep(m: Machine, ts: seq<NewTask>, t: NewTask)
    requires SOFT + HARD <= t.region.hi <= |m.mem|
    requires forall i :: 0 <= i < |ts| ==> SOFT + HARD <= ts[i].region.hi <= |m.mem|
    requires forall i :: 0 <= i <= |ts| ==> SOFT + HARD <= (ts + [t])[i].region.hi <= |m.mem|
    ensures StacksBuilt(m, ts + [t]) == StackInited(StacksBuilt(m, ts).(r := t.atCall), t.region.hi, t.runner)
  {
  }

  lemma BootedStep(cs: seq<Creation>, c: Creation)
    requires |cs| + 1 < MAX_TASKS
    ensures Booted(cs + [c]) == Create(Booted(cs), c.args, c.sp, c.answer)
  {
  }

  lemma CreationsStep(ts: seq<NewTask>, t: NewTask)
    requires forall i :: 0 <= i < |ts| ==> ts[i].region.hi >= SOFT + HARD
    requires t.region.hi >= SOFT + HARD
    ensures Creations(ts + [t]) ==
            Creations(ts) + [Creation(CreateArgs(t.entry, t.region.hi, t.frequency), t.region.hi - SOFT - HARD, true)]
  {
  }

  lemma TakeReady(s: System, a: Action)
    requires SystemInv(s) && Possible(s, a) && a.TakePendSV?
    ensures !Padded(s.m.r.xpsr) && ROOM <= s.m.psp <= |s.m.mem|
    ensures Proceed(s, a).w.k == s.w.k.(pending := false) && Proceed(s, a).m == PendSvTaken(s.m)
  {
  }

  lemma PendSvReady(s: System, a: Action)
    requires SystemInv(s) && Possible(s, a) && a.PendSV?
    ensures WellFormed(s.w.k) && s.w.k.tasks[s.w.k.running].ctxSwitch <= a.t1
    ensures s.w.k.queued != s.w.k.tasks[s.w.k.running].pid ==> s.w.k.queued != s.w.k.running
    ensures SOFT <= s.m.psp && ResumeFrom(s.w.k, s.m.psp - SOFT) + SOFT + HARD <= |s.m.mem|
    ensures Proceed(s, a).w.k == PendSv(s.w.k, s.m.psp - SOFT, a.t1, a.t2)
    ensures Proceed(s, a).m == PendSvLeft(s.m, ResumeFrom(s.w.k, s.m.psp - SOFT), a.junk)
  {
    hide Partition, SingleRunner, Written, Apart, Decode, ContextSwitch;
    QueuedFrame(s);
    StaysSuspended(s, a);
    QueuedOnStack(s);
  }

  lemma QueuedOnStack(s: System)
    requires SystemInv(s) && s.w.entered
    ensures s.w.k.queued in s.stacks && SavedAt(s, s.w.k.queued) + SOFT + HARD <= |s.m.mem|
  {
    hide Partition, SingleRunner, Apart, Decode;
    QueuedFrame(s);
  }

  lemma PreemptReady(s: System, a: Action)
    requires SystemInv(s) && Possible(s, a) && a.SysTick? && s.w.entered
    ensures WellFormed(s.w.k) && a.e.Tick? && s.w.k.ring != []
    ensures Proceed(s, a).w.k == Systick(s.w.k, a.e.t1, a.e.t2, a.e.t3) && Proceed(s, a).m == s.m
  {
  }

  lemma SystickReady(s: System, a: Action)
    requires SystemInv(s) && Possible(s, a) && a.SysTick? && !s.w.entered
    ensures !Padded(s.m.r.xpsr) && ROOM <= s.m.psp <= |s.m.mem| && WellFormed(s.w.k)
    ensures a.e.Tick? && s.w.k.ring != []
    ensures Proceed(s, a).w.k == Systick(s.w.k, a.e.t1, a.e.t2, a.e.t3)
    ensures Proceed(s, a).m == TickHandled(s.m, a.junk)
  {
  }

  /** What the SVC handler relies on: the saved r0 is the caller's, and the frame is in memory. */
  lemma SvcReady(s: System, a: Action)
    requires SystemInv(s) && Possible(s, a) && a.Svc?
    ensures Inv(s.w) && Enabled(s.w, a.e) && Asks(s.m.r.r0, s.w, a.e)
    ensures !Padded(s.m.r.xpsr) && ROOM <= s.m.psp <= |s.m.mem|
    ensures Saved(Entered(s.m)).mem[SavedSp(s.m) + SOFT] == s.m.r.r0
    ensures IsCreate(a) ==> SOFT + HARD <= a.region.hi <= |s.m.mem| && a.e.args.stackBase == a.region.hi
                            && a.e.sp == a.region.hi - SOFT - HARD
    ensures Proceed(s, a).w == Next(s.w, a.e)
    ensures Proceed(s, a).m == SvcHandled(s.m, StackFor(a), Result(s.w, a.e), a.junk)
  {
    SaveRoundTrip(s.m);
    hide Inv, Enabled, Next, SvcHandled, Padded, Written;
  }
}
