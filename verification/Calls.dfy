/** System calls as their callers see them. */
module Calls {
  import opened Scheduler
  import opened Runs
  import opened Machines
  import opened Transparency
  import opened Effects

  const DONE: Word := 0
  const NO_SUCH_CALL: Word := 0xFFFF_FFFB    // minus five

  /** What the caller finds in r0, by the number it put there. */
  lemma SvcAnswer(s: System, a: Action)
    requires SystemInv(s) && Possible(s, a) && a.Svc?
    ensures var (s', caller, number) := (Proceed(s, a), s.w.k.running, s.m.r.r0);
      && SystemInv(s') && OnCore(s', caller) && caller in s'.stacks && caller in s.stacks && number != 5
    ensures var (s', caller, number) := (Proceed(s, a), s.w.k.running, s.m.r.r0);
      var r0 := View(s', caller).r.r0;
      && View(s', caller) == View(s, caller).(r := s.m.r.(r0 := r0))
      && (number <= 3 ==> r0 == DONE)
      && (number == 4 ==> r0 !in s.stacks && r0 in s'.stacks && r0 == s.w.k.nextPid)
      && (number > 5 ==> r0 == NO_SUCH_CALL)
  {
    hide Inv, Next, ApplyTo, Padded, Suspended, StackAbove, Apart;
    StepTransparent(s, a);
    CallerStays(s, a);
    NewPidUnused(s);
  }

  /** Call 4 makes a new task: its number is what the caller is told, its record has what was asked for,
      its stack is the region given, and it will start in the given function with r0-r3 zero. */
  lemma SvcCreates(s: System, a: Action)
    requires SystemInv(s) && Possible(s, a) && a.Svc? && s.m.r.r0 == 4
    ensures a.e.CallCreate? && SystemInv(Proceed(s, a))
    ensures var (s', p) := (Proceed(s, a), s.w.k.nextPid);
      && p !in s.stacks && p in s'.stacks && p < MAX_TASKS && s'.stacks[p] == a.region && p in s'.w.live
      && (forall q :: q in s'.stacks && q != p ==> q in s.stacks && s'.stacks[q] == s.stacks[q])
    ensures var (t, v) := (Proceed(s, a).w.k.tasks[s.w.k.nextPid], View(Proceed(s, a), s.w.k.nextPid));
      && t.pid == s.w.k.nextPid && t.status == Sleeping && t.entry == a.e.args.entry
      && t.frequency == a.e.args.frequency && t.stackBase == a.region.hi
      && v.r.pc == a.entry && v.psp == a.region.hi && v.stack == []
      && v.r.r0 == v.r.r1 == v.r.r2 == v.r.r3 == 0
  {
    hide Inv, Next, ApplyTo, Padded, Suspended, Frozen, Apart;
    StepTransparent(s, a);
    NewPidUnused(s);
    CreatedRecord(s, a);
  }

  lemma CreatedRecord(s: System, a: Action)
    requires SystemInv(s) && Possible(s, a) && IsCreate(a)
    ensures var (w', p) := (Next(s.w, a.e), s.w.k.nextPid);
      && WellFormed(w'.k) && p < MAX_TASKS && p in w'.live
      && var t := w'.k.tasks[p];
         && t.pid == p && t.status == Sleeping && t.entry == a.e.args.entry
         && t.frequency == a.e.args.frequency && t.stackBase == a.region.hi
  {
    CreateEffects(s.w, a.e.args, a.e.sp, a.e.answer);
    hide Inv, Laid;
  }

  /** What the kernel does for the caller, by the number: 0 kills the given task, 1 only chooses, 2 puts the
      caller to sleep until the given time unless that has come, 3 kills the caller, and a number above 5
      does nothing. */
  lemma SvcServes(s: System, a: Action)
    requires SystemInv(s) && Possible(s, a) && a.Svc?
    ensures var (w, w', number) := (s.w, Proceed(s, a).w, s.m.r.r0);
      && WellFormed(w'.k) && w.k.running < MAX_TASKS
      && (number == 0 ==> a.e.CallKill? && Killed(w, w', a.e.victim))
      && (number == 1 ==> a.e.CallYield? && OnlyChose(w, w', a.e.t))
      && (number == 2 ==> a.e.CallSleep? && Slept(w, w', a.e.wake, a.e.t))
      && (number == 3 ==> Killed(w, w', w.k.running))
      && (number > 5 ==> w' == w)
  {
    hide Inv, Next, Laid;
    StepIsEvent(s, a);
    StepWellFormed(s.w, a.e);
    match a.e
    case CallKill(v, t) => KillServes(s.w, a.e);
    case CallYield(t) => YieldServes(s.w, a.e);
    case CallSleep(wake, t, answer) => SleepServes(s.w, a.e);
    case Thread => ThreadServes(s.w, a.e);
    case _ =>
  }

  ghost predicate Killed(w: World, w': World, v: nat)
    requires WellFormed(w'.k)
  {
    && v < MAX_TASKS && w'.k.tasks[v].status == Complete && w'.live == w.live - {v}
    && v !in w'.k.ring && v !in w'.k.timeQ
  }

  ghost predicate OnlyChose(w: World, w': World, t: nat)
  {
    && WellFormed(w.k) && WellFormed(w'.k) && w.k.ring != [] && w'.live == w.live
    && Chose(w.k, w'.k, w.k.ring, w.k.timeQ, Due(w.k, t)) && OnlyWakes(w.k, w'.k, Due(w.k, t))
  }

  ghost predicate Slept(w: World, w': World, wake: nat, t: nat)
    requires WellFormed(w'.k) && w.k.running < MAX_TASKS
  {
    && w.k.running in w.live && w'.live == w.live
    && (w'.k.tasks[w.k.running].nextRun == wake
        || (w'.k.queued == w.k.running && w'.k.tasks[w.k.running].nextRun == 0 && wake < t + 1000))
  }

  lemma KillServes(w: World, e: Event)
    requires Inv(w) && Enabled(w, e) && e.CallKill?
    ensures WellFormed(Next(w, e).k) && Killed(w, Next(w, e), e.victim)
  {
    StepWellFormed(w, e);
    KillKeeps(w.k, w.live, e.victim, e.t);
    RecordEffects(w, e, e.victim);
    hide Sound, Handshake, Timed, Kill;
  }

  lemma YieldServes(w: World, e: Event)
    requires Inv(w) && Enabled(w, e) && e.CallYield?
    ensures OnlyChose(w, Next(w, e), e.t)
  {
    YieldEffects(w, e.t);
    hide Partition, SingleRunner, Handshake, Yield;
  }

  lemma SleepServes(w: World, e: Event)
    requires Inv(w) && Enabled(w, e) && e.CallSleep?
    ensures WellFormed(Next(w, e).k) && w.k.running < MAX_TASKS && Slept(w, Next(w, e), e.wake, e.t)
  {
    CallerInRing(w, e);
    var i :| 0 <= i < |w.k.ring| && w.k.ring[i] == w.k.running;
    SleepEffects(w, e.wake, e.t, e.answer, i);
    hide Partition, SingleRunner, Handshake, SleepUntil;
  }

  lemma ThreadServes(w: World, e: Event)
    requires Inv(w) && Enabled(w, e) && e.Thread?
    ensures Next(w, e) == w
  {
    hide Inv;
  }

  lemma CallerStays(s: System, a: Action)
    requires SystemInv(s) && Possible(s, a) && a.Svc?
    ensures !s.w.entered && OnCore(Proceed(s, a), s.w.k.running)
    ensures s.w.k.running in s.stacks && s.w.k.running in Proceed(s, a).stacks
  {
    StepRuns(s.w, a.e);
    NewPidUnused(s);
  }
}
