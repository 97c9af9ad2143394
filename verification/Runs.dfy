/** Runs of the kernel: the steps, when each can happen, and what every reachable state satisfies. */
module Runs {
  import opened Sequences
  import opened Scheduler

  /** How the task that runs next was chosen last: by a kill of the given task, or otherwise. */
  datatype Choice = Ordinary | ByKillOf(victim: nat)

  /** The kernel and its surroundings. `clock` is the latest clock read, `lastTick` the time of the
      latest systick; `live` holds the tasks created and not killed; `entered` says that PendSV has been
      taken and its C half has not begun. */
  datatype World =
    World(k: Kernel, clock: nat, lastTick: nat, live: set<nat>, choice: Choice, entered: bool)

  /** System calls carry the clock read they make, interrupts all of theirs, in order. PendSV is two
      events: the hardware takes it and clears its pending bit, and later its C half, with interrupts
      masked, makes the switch. A systick may preempt it in between. */
  datatype Event =
    | CallCreate(args: CreateArgs, sp: nat, answer: bool)
    | CallYield(t: nat)
    | CallSleep(wake: nat, t: nat, answer: bool)
    | CallKill(victim: nat, t: nat)
    | Tick(t1: nat, t2: nat, t3: nat)
    | Enter
    | Switch(sp: nat, t1: nat, t2: nat)
    | Thread

  predicate IsCall(e: Event)
  {
    e.CallCreate? || e.CallYield? || e.CallSleep? || e.CallKill?
  }

  function FirstRead(w: World, e: Event): nat
  {
    match e
    case CallYield(t) => t
    case CallSleep(_, t, _) => t
    case CallKill(_, t) => t
    case Tick(t1, _, _) => t1
    case Switch(_, t1, _) => t1
    case _ => w.clock
  }

  function LastRead(w: World, e: Event): nat
  {
    match e
    case Tick(_, _, t3) => t3
    case Switch(_, _, t2) => t2
    case _ => FirstRead(w, e)
  }

  /** Thread code runs when PendSV is not being handled and none is about to be taken. */
  predicate InThread(w: World)
  {
    !w.entered && (w.k.pending ==> w.k.masked)
  }

  /** What a caller and the hardware guarantee. PendSV is taken before an interrupted thread continues;
      while interrupts are masked no exception is taken, and a system call is a fault. */
  predicate Enabled(w: World, e: Event)
  {
    && WellFormed(w.k) && w.k.ring != []
    && w.clock <= FirstRead(w, e) <= LastRead(w, e)
    && (IsCall(e) || e.Thread? ==> InThread(w))
    && (IsCall(e) || e.Tick? || e.Enter? ==> !w.k.masked)
    && match e
       case CallCreate(_, _, _) => w.k.nextPid < MAX_TASKS
       case CallYield(_) => true
       case CallSleep(_, _, _) =>
         w.k.running in w.live && Queued(w.k, w.k.running) && RingOutlives(w.k, w.k.running)
       case CallKill(v, _) => v in w.live && v != SPIN && v < MAX_TASKS
       case Tick(t1, t2, t3) => t1 <= t2 <= t3
       case Enter => w.k.pending && !w.entered
       case Switch(_, t1, _) => w.entered && w.k.tasks[w.k.running].ctxSwitch <= t1
       case Thread => true
  }

  function NextKernel(w: World, e: Event): Kernel
    requires Enabled(w, e)
  {
    match e
    case CallCreate(args, sp, answer) => Create(w.k, args, sp, answer)
    case CallYield(t) => Yield(w.k, t)
    case CallSleep(wake, t, answer) => SleepUntil(w.k, w.k.running, wake, t, answer)
    case CallKill(v, t) => Kill(w.k, v, t)
    case Tick(t1, t2, t3) => Systick(w.k, t1, t2, t3)
    case Enter => w.k.(pending := false)
    case Switch(sp, t1, t2) => PendSv(w.k, sp, t1, t2)
    case Thread => w.k
  }

  function Next(w: World, e: Event): World
    requires Enabled(w, e)
  {
    World(
      NextKernel(w, e),
      LastRead(w, e),
      if e.Tick? then e.t1 else w.lastTick,
      match e {
        case CallCreate(_, _, _) => w.live + {w.k.nextPid}
        case CallKill(v, _) => w.live - {v}
        case _ => w.live
      },
      if e.CallKill? then ByKillOf(e.victim) else if Selects(w, e) then Ordinary else w.choice,
      e.Enter? || (w.entered && !e.Switch?))
  }

  /** The events that run the selection rule. */
  predicate Selects(w: World, e: Event)
    requires Enabled(w, e)
  {
    e.CallYield? || e.CallSleep? || e.CallKill? || (e.Tick? && ReschedulingRequired(w.k, e.t1, e.t2))
  }

  /** The queues that the selection of an event looks at. */
  function Before(w: World, e: Event): (k: Kernel)
    requires Enabled(w, e) && Selects(w, e)
    ensures WellFormed(k) && k.ring != []
  {
    match e
    case CallSleep(wake, _, answer) =>
      RequeueKeepsRing(w.k, w.k.running, wake, answer);
      Requeue(w.k, w.k.running, wake, answer)
    case CallKill(v, _) => Marked(w.k, v)
    case _ => w.k
  }

  /** The task that an event selects. */
  function Selected(w: World, e: Event): nat
    requires Enabled(w, e) && Selects(w, e)
  {
    Select(Before(w, e), LastRead(w, e)).1
  }

  predicate Created(k: Kernel, p: nat)
  {
    1 <= p < k.nextPid
  }

  // ---- the start --------------------------------------------------------------------------

  datatype Creation = Creation(args: CreateArgs, sp: nat, answer: bool)

  /** The creations made before tasking starts, the spin task first. */
  function Booted(cs: seq<Creation>): (k: Kernel)
    requires |cs| < MAX_TASKS
    ensures WellFormed(k) && k.nextPid == |cs| + 1
  {
    if cs == [] then NewKernel()
    else
      var k := Booted(cs[..|cs| - 1]);
      var c := cs[|cs| - 1];
      Create(k, c.args, c.sp, c.answer)
  }

  function Started(cs: seq<Creation>, now: nat): World
    requires 0 < |cs| < MAX_TASKS
  {
    var k := Start(Booted(cs), now);
    World(k, now, now, (set p: nat | p < MAX_TASKS && Created(k, p)), Ordinary, false)
  }

  // ---- runs -------------------------------------------------------------------------------

  ghost predicate IsRun(ws: seq<World>, es: seq<Event>)
  {
    && |ws| == |es| + 1
    && forall i :: 0 <= i < |es| ==> Enabled(ws[i], es[i]) && ws[i + 1] == Next(ws[i], es[i])
  }

  // ---- what every reachable state satisfies ------------------------------------------------

  /** Every live task is in exactly one of the two queues, once, and in the time queue exactly when
      its next_run_time is not nil; nothing else is in either queue. */
  ghost predicate Partition(k: Kernel, live: set<nat>)
    requires WellFormed(k)
  {
    && multiset(k.ring) + multiset(k.timeQ) == multiset(live)
    && (forall p <- live :: Created(k, p))
    && (forall p <- k.timeQ :: k.tasks[p].nextRun != 0)
    && (forall p <- k.ring :: k.tasks[p].nextRun == 0)
    && (forall p :: k.nextPid <= p < MAX_TASKS ==> k.tasks[p].nextRun == 0)
  }

  /** A task that is queued but not running has PendSV pending for it or on its way; interrupts stay
      masked only with the queued task on the core; the task selected last is in the ring, unless it was
      the victim of the very kill that selected it. */
  ghost predicate Handshake(w: World)
    requires WellFormed(w.k)
  {
    && Created(w.k, w.k.queued)
    && (w.k.queued != w.k.running ==> w.k.pending || w.entered)
    && (w.k.masked ==> w.k.queued == w.k.running && !w.entered)
    && (if w.choice == ByKillOf(w.k.queued) then w.k.queued !in w.live else w.k.queued in w.k.ring)
  }

  ghost predicate Numbered(k: Kernel)
    requires WellFormed(k)
  {
    forall p: nat :: Created(k, p) ==> k.tasks[p].pid == p
  }

  /** Of the tasks ever created, only the one on the core has status RUNNING. */
  ghost predicate SingleRunner(k: Kernel)
    requires WellFormed(k)
  {
    forall p: nat :: Created(k, p) && k.tasks[p].status == Running ==> p == k.running
  }

  ghost predicate Timed(w: World)
    requires WellFormed(w.k)
  {
    && w.k.tasks[w.k.running].ctxSwitch <= w.clock
    && w.lastTick <= w.clock
  }

  /** What holds of the kernel alone, whoever is on the core. */
  ghost predicate Sound(k: Kernel, live: set<nat>)
  {
    && WellFormed(k) && Numbered(k) && SingleRunner(k)
    && Partition(k, live) && SPIN in k.ring && Created(k, k.running)
  }

  ghost predicate Inv(w: World)
  {
    Sound(w.k, w.live) && Handshake(w) && Timed(w)
  }

  // ---- the queues stay a partition ---------------------------------------------------------

  /** Nothing is counted twice across the two queues, and what is queued is live. */
  lemma Exclusive(k: Kernel, live: set<nat>, p: nat)
    requires WellFormed(k) && Partition(k, live)
    ensures multiset(k.ring)[p] + multiset(k.timeQ)[p] == if p in live then 1 else 0
    ensures p in live <==> p in k.ring || p in k.timeQ
    ensures p in live ==> Queued(k, p)
  {
    assert (multiset(k.ring) + multiset(k.timeQ))[p] == multiset(live)[p];
    assert p in k.ring <==> multiset(k.ring)[p] > 0;
    assert p in k.timeQ <==> multiset(k.timeQ)[p] > 0;
  }

  /** Selection moves tasks between the queues and rotates, but loses and invents none; the task it
      returns ends up in the ring with a nil wake time. */
  lemma SelectPartition(k: Kernel, live: set<nat>, now: nat)
    requires WellFormed(k) && k.ring != [] && Partition(k, live)
    ensures var (k', p) := Select(k, now);
      && WellFormed(k') && Partition(k', live) && p in k'.ring && p in live
      && (forall q :: q in k.ring ==> q in k'.ring)
  {
    var (k', p) := Select(k, now);
    SelectWellFormed(k, now);
    if HeadDue(k, now) {
      assert k.timeQ == [p] + k.timeQ[1..];
      Exclusive(k, live, p);
      assert p !in k.timeQ[1..] by {
        assert multiset(k.timeQ) == multiset{p} + multiset(k.timeQ[1..]);
      }
      forall q | q in k'.timeQ ensures k'.tasks[q].nextRun != 0 {
        assert q in k.timeQ;
      }
    } else {
      RotatedMultiset(k.ring);
      assert p in Rotated(k.ring);
      InRotated(k.ring);
    }
    Exclusive(k', live, p);
  }

  lemma DequeuePartition(k: Kernel, live: set<nat>, p: nat)
    requires WellFormed(k) && Partition(k, live) && p in live
    ensures var k' := Dequeue(k, p);
      && WellFormed(k') && Partition(k', live - {p}) && p !in k'.ring && p !in k'.timeQ
      && (forall q :: q in k.ring && q != p ==> q in k'.ring)
  {
    var k' := Dequeue(k, p);
    DequeueWellFormed(k, p);
    Exclusive(k, live, p);
    if p in k.timeQ {
      WithoutMultiset(k.timeQ, p);
    } else {
      WithoutMultiset(k.ring, p);
    }
    var queues := multiset(k'.ring) + multiset(k'.timeQ);
    assert multiset(k.ring) + multiset(k.timeQ) == queues + multiset{p};
    assert multiset(live) == multiset(live - {p}) + multiset{p};
    assert queues == queues + multiset{p} - multiset{p} == multiset(live - {p});
    InWithout(k.ring, p);
    InWithout(k.timeQ, p);
    Exclusive(k', live - {p}, p);
  }

  lemma EnqueuePartition(k: Kernel, live: set<nat>, p: nat, answer: bool)
    requires WellFormed(k) && Partition(k, live) && p !in live && Created(k, p)
    ensures var k' := Enqueue(k, p, answer);
      && WellFormed(k') && Partition(k', live + {p})
      && (forall q :: q in k.ring ==> q in k'.ring)
      && (k.tasks[p].nextRun == 0 ==> p in k'.ring)
  {
    var k' := Enqueue(k, p, answer);
    assert multiset(live + {p}) == multiset(live) + multiset{p};
    EnqueueWellFormed(k, p, answer);
    if k.tasks[p].nextRun != 0 {
      InsertedMultiset(k.timeQ, Slot(k, k.tasks[p].nextRun, answer), p);
      InInserted(k.timeQ, Slot(k, k.tasks[p].nextRun, answer), p);
    } else if k.ring != [] {
      InsertedMultiset(k.ring, 1, p);
      InInserted(k.ring, 1, p);
    }
  }

  // ---- every step keeps the invariant ------------------------------------------------------

  /** Choosing who runs next. */
  lemma ChoosingKeeps(k: Kernel, live: set<nat>, now: nat)
    requires Sound(k, live)
    ensures var k' := SelectAndQueue(k, now);
      && Sound(k', live) && k'.queued == Select(k, now).1 && k'.queued in k'.ring && Created(k', k'.queued)
      && (k'.queued != k'.running ==> k'.pending)
      && k'.running == k.running && k'.masked == k.masked
      && k'.tasks[k'.running].ctxSwitch == k.tasks[k.running].ctxSwitch
  {
    SelectPartition(k, live, now);
  }

  lemma CreatePartition(k: Kernel, live: set<nat>, args: CreateArgs, sp: nat, answer: bool)
    requires WellFormed(k) && Partition(k, live) && k.nextPid < MAX_TASKS
    ensures Partition(Create(k, args, sp, answer), live + {k.nextPid})
    ensures forall q :: q in k.ring ==> q in Create(k, args, sp, answer).ring
  {
    var p := k.nextPid;
    CreateShape(k, args, sp, answer);
    var k2 := k.(nextPid := p + 1, tasks := Create(k, args, sp, answer).tasks);
    assert Partition(k2, live) by {
      forall q ensures q in k.timeQ || q in k.ring ==> q in live {
        Exclusive(k, live, q);
      }
    }
    EnqueuePartition(k2, live, p, answer);
  }

  lemma CreateKeeps(k: Kernel, live: set<nat>, args: CreateArgs, sp: nat, answer: bool)
    requires Sound(k, live) && k.nextPid < MAX_TASKS
    ensures Sound(Create(k, args, sp, answer), live + {k.nextPid})
    ensures forall q :: q in k.ring ==> q in Create(k, args, sp, answer).ring
  {
    CreateShape(k, args, sp, answer);
    CreatePartition(k, live, args, sp, answer);
  }

  lemma RequeuePartition(k: Kernel, live: set<nat>, p: nat, wake: nat, answer: bool)
    requires WellFormed(k) && Partition(k, live) && p in live && Queued(k, p)
    ensures WellFormed(Requeue(k, p, wake, answer)) && Partition(Requeue(k, p, wake, answer), live)
    ensures forall q :: q in k.ring && q != p ==> q in Requeue(k, p, wake, answer).ring
  {
    DequeuePartition(k, live, p);
    var k1 := Dequeue(k, p);
    var k2 := k1.(tasks := k1.tasks[p := k1.tasks[p].(nextRun := wake)]);
    assert Partition(k2, live - {p});
    EnqueuePartition(k2, live - {p}, p, answer);
    assert live - {p} + {p} == live;
  }

  /** Nobody changes number, nobody new is running. */
  ghost predicate Calm(k: Kernel, k': Kernel)
    requires WellFormed(k) && WellFormed(k')
  {
    && k.nextPid == k'.nextPid && k.running == k'.running && k.masked == k'.masked
    && forall p :: 0 <= p < MAX_TASKS ==>
         && k.tasks[p].pid == k'.tasks[p].pid && k.tasks[p].ctxSwitch == k'.tasks[p].ctxSwitch
         && (k'.tasks[p].status == Running ==> k.tasks[p].status == Running)
  }

  lemma CalmSound(k: Kernel, k': Kernel, live: set<nat>, live': set<nat>)
    requires Sound(k, live) && WellFormed(k') && Calm(k, k') && Partition(k', live') && SPIN in k'.ring
    ensures Sound(k', live')
  {
  }

  lemma RequeueKeeps(k: Kernel, live: set<nat>, p: nat, wake: nat, answer: bool)
    requires Sound(k, live) && p in live && p != SPIN && Queued(k, p)
    ensures Sound(Requeue(k, p, wake, answer), live)
  {
    hide Partition, SingleRunner, Numbered, Requeue, Calm;
    RequeuePartition(k, live, p, wake, answer);
    RequeueCalm(k, p, wake, answer);
    CalmSound(k, Requeue(k, p, wake, answer), live, live);
  }

  lemma RequeueCalm(k: Kernel, p: nat, wake: nat, answer: bool)
    requires WellFormed(k) && Queued(k, p) && WellFormed(Requeue(k, p, wake, answer))
    ensures Calm(k, Requeue(k, p, wake, answer))
  {
  }

  lemma MarkedIsSound(k: Kernel, live: set<nat>, victim: nat)
    requires Sound(k, live) && victim < MAX_TASKS
    ensures Sound(Marked(k, victim), live)
  {
  }

  lemma KillPartition(k: Kernel, live: set<nat>, victim: nat, now: nat)
    requires WellFormed(k) && Partition(k, live) && victim in live && victim != SPIN && SPIN in k.ring
    ensures var (k2, p) := Select(Marked(k, victim), now);
      && WellFormed(k2) && WellFormed(Dequeue(k2, victim)) && Partition(Dequeue(k2, victim), live - {victim})
      && SPIN in Dequeue(k2, victim).ring && victim !in Dequeue(k2, victim).ring
      && victim !in Dequeue(k2, victim).timeQ
      && (p in Dequeue(k2, victim).ring || p == victim) && Created(k, p)
  {
    assert Partition(Marked(k, victim), live);
    SelectPartition(Marked(k, victim), live, now);
    DequeuePartition(Select(Marked(k, victim), now).0, live, victim);
  }

  lemma KillCalm(k: Kernel, victim: nat, now: nat)
    requires WellFormed(k) && k.ring != [] && victim < MAX_TASKS
    ensures var (k2, p) := Select(Marked(k, victim), now);
      && WellFormed(k2) && WellFormed(Dequeue(k2, victim)) && Calm(k, Dequeue(k2, victim))
  {
    SelectWellFormed(Marked(k, victim), now);
    DequeueWellFormed(Select(Marked(k, victim), now).0, victim);
  }

  lemma KillKeeps(k: Kernel, live: set<nat>, victim: nat, now: nat)
    requires Sound(k, live) && victim in live && victim != SPIN
    ensures var k' := Kill(k, victim, now);
      && Sound(k', live - {victim}) && victim !in k'.ring && victim !in k'.timeQ
      && (k'.queued in k'.ring || k'.queued == victim) && Created(k', k'.queued)
      && (k'.queued != k'.running ==> k'.pending)
      && k'.running == k.running && k'.masked == k.masked
      && k'.tasks[k'.running].ctxSwitch == k.tasks[k.running].ctxSwitch
  {
    assert Created(k, victim);
    hide Select, Dequeue, Partition, SingleRunner;
    KillPartition(k, live, victim, now);
    KillCalm(k, victim, now);
    var (k2, p) := Select(Marked(k, victim), now);
    var k3 := Dequeue(k2, victim);
    CalmSound(k, k3, live, live - {victim});
    QueuedSound(k3, live - {victim}, p);
  }

  lemma QueuedSound(k: Kernel, live: set<nat>, p: nat)
    requires Sound(k, live) && p < MAX_TASKS
    ensures Sound(QueueSwitch(k, p), live)
  {
  }

  lemma SwitchKeeps(w: World, e: Event)
    requires Inv(w) && Enabled(w, e) && e.Switch?
    ensures Inv(Next(w, e))
  {
  }

  lemma CreateStep(w: World, e: Event)
    requires Inv(w) && Enabled(w, e) && e.CallCreate?
    ensures Inv(Next(w, e))
  {
    CreateKeeps(w.k, w.live, e.args, e.sp, e.answer);
    CreateShape(w.k, e.args, e.sp, e.answer);
    hide Create, Partition, SingleRunner, Numbered;
  }

  lemma EnterKeeps(w: World, e: Event)
    requires Inv(w) && Enabled(w, e) && e.Enter?
    ensures Inv(Next(w, e))
  {
  }

  lemma StepKeeps(w: World, e: Event)
    requires Inv(w) && Enabled(w, e)
    ensures Inv(Next(w, e))
  {
    hide Partition, SingleRunner, Numbered, Create, Kill, Select, SelectAndQueue, Requeue;
    match e
    case CallCreate(_, _, _) => CreateStep(w, e);
    case CallYield(t) => ChoosingKeeps(w.k, w.live, t);
    case CallSleep(wake, t, answer) =>
      RequeueKeeps(w.k, w.live, w.k.running, wake, answer);
      RequeueCalm(w.k, w.k.running, wake, answer);
      ChoosingKeeps(Before(w, e), w.live, t);
    case CallKill(v, t) => KillKeeps(w.k, w.live, v, t);
    case Tick(_, _, t3) => ChoosingKeeps(w.k, w.live, t3);
    case Switch(_, _, _) => SwitchKeeps(w, e);
    case Enter => EnterKeeps(w, e);
    case Thread =>
  }

  lemma StepWellFormed(w: World, e: Event)
    requires Inv(w) && Enabled(w, e)
    ensures WellFormed(Next(w, e).k)
  {
    hide Enabled, Next;
    StepKeeps(w, e);
  }

  // ---- what only an actual switch does -----------------------------------------------------

  /** PendSV with a task to switch to. */
  predicate Switches(w: World, e: Event)
    requires Enabled(w, e)
  {
    e.Switch? && w.k.queued != w.k.tasks[w.k.running].pid
  }

  /** The fields of a task that only task_new and the context switch write. */
  predicate SameRecord(t: Task, t': Task)
  {
    && t.runTicks == t'.runTicks && t.ctxSwitch == t'.ctxSwitch && t.stackPtr == t'.stackPtr
    && t.pid == t'.pid && t.entry == t'.entry && t.frequency == t'.frequency
  }

  ghost predicate SameRecords(k: Kernel, k': Kernel)
    requires WellFormed(k) && WellFormed(k')
  {
    && k.running == k'.running
    && (k'.nextPid == k.nextPid || (k'.nextPid == k.nextPid + 1 && k'.tasks[k.nextPid].runTicks == 0))
    && forall p :: 0 <= p < MAX_TASKS && (p == k.nextPid ==> k'.nextPid == k.nextPid) ==>
         SameRecord(k.tasks[p], k'.tasks[p])
  }

  lemma ChoosingQuiet(k: Kernel, now: nat)
    requires WellFormed(k) && k.ring != [] && WellFormed(SelectAndQueue(k, now))
    ensures SameRecords(k, SelectAndQueue(k, now)) && SelectAndQueue(k, now).nextPid == k.nextPid
    ensures SelectAndQueue(k, now).tasks[k.running].status == k.tasks[k.running].status
  {
  }

  lemma KillQuiet(k: Kernel, victim: nat, now: nat)
    requires WellFormed(k) && k.ring != [] && victim < MAX_TASKS && WellFormed(Kill(k, victim, now))
    ensures SameRecords(k, Kill(k, victim, now)) && Kill(k, victim, now).nextPid == k.nextPid
  {
  }

  lemma CreateIsQuiet(w: World, e: Event)
    requires Inv(w) && Enabled(w, e) && e.CallCreate?
    ensures SameRecords(w.k, Next(w, e).k) && Next(w, e).k.nextPid == w.k.nextPid + 1
    ensures Next(w, e).k.tasks[w.k.running].status == w.k.tasks[w.k.running].status
  {
  }

  /** Whatever is not an actual switch leaves accounts, switch times and saved stack pointers alone,
      and the running task's status too unless it is killed. */
  lemma QuietStep(w: World, e: Event)
    requires Inv(w) && Enabled(w, e) && !Switches(w, e)
    ensures WellFormed(Next(w, e).k) && SameRecords(w.k, Next(w, e).k)
    ensures e.CallCreate? <==> Next(w, e).k.nextPid == w.k.nextPid + 1
    ensures !e.CallKill? ==> Next(w, e).k.tasks[w.k.running].status == w.k.tasks[w.k.running].status
  {
    hide Inv, Select, Create, Kill, SelectAndQueue;
    StepWellFormed(w, e);
    match e
    case CallCreate(_, _, _) => CreateIsQuiet(w, e);
    case CallYield(t) => ChoosingQuiet(w.k, t);
    case CallSleep(_, t, _) => ChoosingQuiet(Before(w, e), t);
    case CallKill(v, t) => KillQuiet(w.k, v, t);
    case Tick(_, _, t3) =>
      if Selects(w, e) {
        ChoosingQuiet(w.k, t3);
      }
    case Switch(_, _, _) =>
    case Enter =>
    case Thread =>
  }

  // ---- nothing gets stuck ------------------------------------------------------------------

  /** What the caller of an event has to see to, and no more. */
  predicate Asked(w: World, e: Event)
  {
    && (IsCall(e) || e.Thread? ==> InThread(w))
    && (IsCall(e) || e.Tick? || e.Enter? ==> !w.k.masked)
    && match e
       case CallCreate(_, _, _) => w.k.nextPid < MAX_TASKS
       case CallSleep(_, _, _) => w.k.running in w.live && w.k.running != SPIN
       case CallKill(v, _) => v in w.live && v != SPIN
       case Tick(t1, t2, t3) => t1 <= t2 <= t3
       case Enter => w.k.pending && !w.entered
       case Switch(_, _, _) => w.entered
       case CallYield(_) => true
       case Thread => true
  }

  /** In a state that a run can reach, an event can happen exactly when its caller has seen to these
      few things: in particular there is always a task to select and a queue to take it from. */
  lemma NeverStuck(w: World, e: Event)
    requires Inv(w) && w.clock <= FirstRead(w, e) <= LastRead(w, e)
    ensures Enabled(w, e) <==> Asked(w, e)
  {
  }
}
