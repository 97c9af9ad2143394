/** The start of the whole system: stacks laid out, tasks created, and the spin task launched. */
module SystemStart {
  import opened Scheduler
  import opened Runs
  import opened Boot
  import opened Machines
  import opened Transparency

  /** A creation before tasking starts: its stack, and the registers in which stack_init ran. */
  datatype NewTask = NewTask(entry: nat, frequency: nat, region: Region, runner: Word, atCall: Regs)

  ghost predicate Placed(ts: seq<NewTask>, size: nat)
  {
    && (forall i :: 0 <= i < |ts| ==> ts[i].region.lo + ROOM <= ts[i].region.hi <= size)
    && (forall i, j :: 0 <= i < j < |ts| ==> Apart(ts[i].region, ts[j].region))
  }

  function Creations(ts: seq<NewTask>): (cs: seq<Creation>)
    requires forall i :: 0 <= i < |ts| ==> ts[i].region.hi >= SOFT + HARD
    ensures |cs| == |ts|
  {
    seq(|ts|, i requires 0 <= i < |ts| =>
      Creation(CreateArgs(ts[i].entry, ts[i].region.hi, ts[i].frequency), ts[i].region.hi - SOFT - HARD, true))
  }

  /** The calls of stack_init, one after the other. */
  function StacksBuilt(m: Machine, ts: seq<NewTask>): (m': Machine)
    requires forall i :: 0 <= i < |ts| ==> SOFT + HARD <= ts[i].region.hi <= |m.mem|
    ensures |m'.mem| == |m.mem|
  {
    if ts == [] then m
    else
      var t := ts[|ts| - 1];
      StackInited(StacksBuilt(m, ts[..|ts| - 1]).(r := t.atCall), t.region.hi, t.runner)
  }

  ghost predicate FrameOf(t: NewTask, mem: seq<Word>)
  {
    && SOFT + HARD <= t.region.hi <= |mem|
    && mem[t.region.hi - SOFT - HARD..t.region.hi] == InitialFrame(t.atCall, t.runner)
  }

  /** Later stacks do not disturb earlier ones. */
  lemma {:induction false} FramesBuilt(m: Machine, ts: seq<NewTask>, i: nat)
    requires Placed(ts, |m.mem|) && i < |ts|
    ensures FrameOf(ts[i], StacksBuilt(m, ts).mem)
  {
    var n := |ts| - 1;
    var (most, t) := (ts[..n], ts[n]);
    var m1 := StacksBuilt(m, most);
    InitedFrame(m1.(r := t.atCall), t.region.hi, t.runner);
    if i < n {
      FramesBuilt(m, most, i);
      EarlierFrame(ts[i], t, m1.mem, StacksBuilt(m, ts).mem);
    }
  }

  lemma EarlierFrame(u: NewTask, t: NewTask, mem: seq<Word>, mem': seq<Word>)
    requires FrameOf(u, mem) && Apart(u.region, t.region) && u.region.lo + ROOM <= u.region.hi
    requires t.region.lo + ROOM <= t.region.hi
    requires SameOutside(mem, mem', t.region.hi - SOFT - HARD, t.region.hi)
    ensures FrameOf(u, mem')
  {
  }

  function StacksOf(ts: seq<NewTask>): (stacks: map<nat, Region>)
    ensures forall p: nat :: p in stacks <==> 1 <= p <= |ts|
    ensures forall p <- stacks :: stacks[p] == ts[p - 1].region
  {
    if ts == [] then map[] else StacksOf(ts[..|ts| - 1])[|ts| := ts[|ts| - 1].region]
  }

  function StartSystem(m: Machine, ts: seq<NewTask>, now: nat): System
    requires 0 < |ts| < MAX_TASKS
    requires forall i :: 0 <= i < |ts| ==> SOFT + HARD <= ts[i].region.hi <= |m.mem|
  {
    System(Started(Creations(ts), now),
           Begun(StacksBuilt(m, ts).(r := m.r), ts[0].region.hi - SOFT - HARD),
           StacksOf(ts))
  }

  /** A task that does not run first is suspended right before its entry. */
  lemma StartSuspended(m: Machine, ts: seq<NewTask>, now: nat, p: nat)
    requires 0 < |ts| < MAX_TASKS && Placed(ts, |m.mem|) && SPIN < p <= |ts|
    ensures var (s, t) := (StartSystem(m, ts, now), ts[p - 1]);
      && WellFormed(s.w.k) && p < MAX_TASKS && p in s.stacks && s.stacks[p] == t.region
      && |s.m.mem| == |m.mem| && Suspended(s.w.k.tasks[p].stackPtr, t.region, s.m.mem)
      && Frozen(s.w.k.tasks[p].stackPtr, t.region, s.m.mem) == LaunchView(t.atCall, t.runner, t.region)
  {
    hide Inv, Started, StacksBuilt, Begun, Launched, Suspended, Frozen, LaunchView, Apart;
    StartRecords(ts, now);
    StartCore(m, ts);
    FramesBuilt(m, ts, p - 1);
    InitialFrameSeen(StartSystem(m, ts, now).m.mem, ts[p - 1].region, ts[p - 1].atCall, ts[p - 1].runner);
  }

  /** From this start on, every run is transparent: the layout holds, the spin task is launched on
      the core, and every other task is suspended right before its entry. */
  lemma StartIsLaid(m: Machine, ts: seq<NewTask>, now: nat)
    requires 0 < |ts| < MAX_TASKS && Placed(ts, |m.mem|) && !Padded(m.r.xpsr)
    ensures var s := StartSystem(m, ts, now);
      && SystemInv(s)
      && Launched(s.m.r, s.m.psp, ts[0].region.hi, ts[0].runner)
      && (forall p <- s.stacks :: p != SPIN ==>
            View(s, p) == LaunchView(ts[p - 1].atCall, ts[p - 1].runner, ts[p - 1].region))
  {
    hide Inv, Started, StacksBuilt, Begun, Launched, Padded, Suspended, Frozen, LaunchView, Apart, Decode, StackAbove;
    var s := StartSystem(m, ts, now);
    StartRecords(ts, now);
    StartCore(m, ts);
    StartPlaced(m, ts);
    forall p | p in s.stacks && p != SPIN
      ensures Suspended(s.w.k.tasks[p].stackPtr, s.stacks[p], s.m.mem)
      ensures Frozen(s.w.k.tasks[p].stackPtr, s.stacks[p], s.m.mem)
           == LaunchView(ts[p - 1].atCall, ts[p - 1].runner, ts[p - 1].region)
    {
      StartSuspended(m, ts, now, p);
    }
  }

  lemma StartPlaced(m: Machine, ts: seq<NewTask>)
    requires Placed(ts, |m.mem|)
    ensures forall p <- StacksOf(ts) :: StacksOf(ts)[p].lo + ROOM <= StacksOf(ts)[p].hi <= |m.mem|
    ensures forall p, q | p in StacksOf(ts) && q in StacksOf(ts) && p != q :: Apart(StacksOf(ts)[p], StacksOf(ts)[q])
  {
    StartApart(ts);
  }

  lemma StartApart(ts: seq<NewTask>)
    requires forall i, j :: 0 <= i < j < |ts| ==> Apart(ts[i].region, ts[j].region)
    ensures forall p, q | p in StacksOf(ts) && q in StacksOf(ts) && p != q :: Apart(StacksOf(ts)[p], StacksOf(ts)[q])
  {
  }

  lemma StartRecords(ts: seq<NewTask>, now: nat)
    requires 0 < |ts| < MAX_TASKS && forall i :: 0 <= i < |ts| ==> ts[i].region.hi >= SOFT + HARD
    ensures var k := Started(Creations(ts), now).k;
      && Inv(Started(Creations(ts), now)) && !Started(Creations(ts), now).entered
      && WellFormed(k) && k.running == SPIN && k.nextPid == |ts| + 1
      && (forall p: nat :: Created(k, p) ==> k.tasks[p].stackPtr == ts[p - 1].region.hi - SOFT - HARD)
  {
    BootOrder(Creations(ts));
    StartedInv(Creations(ts), now);
  }

  lemma StartCore(m: Machine, ts: seq<NewTask>)
    requires 0 < |ts| < MAX_TASKS && Placed(ts, |m.mem|)
    ensures var m' := Begun(StacksBuilt(m, ts).(r := m.r), ts[0].region.hi - SOFT - HARD);
      && Launched(m'.r, m'.psp, ts[0].region.hi, ts[0].runner) && m'.r.xpsr == m.r.xpsr
      && m'.psp == ts[0].region.hi && m'.mem == StacksBuilt(m, ts).mem
  {
    FramesBuilt(m, ts, 0);
    hide StacksBuilt, Returned, Launched;
    FrameLaunches(StacksBuilt(m, ts).(r := m.r), ts[0].region.hi, ts[0].atCall, ts[0].runner);
    LaunchedAtBase(Begun(StacksBuilt(m, ts).(r := m.r), ts[0].region.hi - SOFT - HARD), ts[0].region.hi, ts[0].runner);
  }

  lemma LaunchedAtBase(m: Machine, base: nat, entry: Word)
    requires Launched(m.r, m.psp, base, entry)
    ensures m.psp == base
  {
  }
}
