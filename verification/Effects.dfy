/** What each event leaves in the kernel, queue by queue and record by record. */
module Effects {
  import opened Sequences
  import opened Scheduler
  import opened Runs
  import opened Selection
  import opened RealTime

  /** k' is k after a choice from the given queues: a due head of the time queue goes to the end of the
      ring and is queued; otherwise the ring's first element goes to its end and the new first is queued.
      PendSV becomes pending if somebody else is on the core. */
  ghost predicate Chose(k: Kernel, k': Kernel, ring: seq<nat>, timeQ: seq<nat>, due: bool)
    requires (due ==> timeQ != []) && ring != []
  {
    && (if due then k'.ring == ring + [timeQ[0]] && k'.timeQ == timeQ[1..] && k'.queued == timeQ[0]
        else k'.ring == ring[1..] + [ring[0]] && k'.timeQ == timeQ && k'.queued == k'.ring[0])
    && (k'.pending <==> k.pending || k'.queued != k.running)
    && k'.running == k.running && k'.masked == k.masked && k'.nextPid == k.nextPid
  }

  /** The head of the time queue wants to run less than a millisecond from now. */
  predicate Due(k: Kernel, now: nat)
    requires WellFormed(k)
  {
    k.timeQ != [] && k.tasks[k.timeQ[0]].nextRun < now + 1000
  }

  /** No record changes but that a task woken from the head of the time queue loses its wake time. */
  ghost predicate OnlyWakes(k: Kernel, k': Kernel, due: bool)
    requires WellFormed(k) && WellFormed(k') && (due ==> k.timeQ != [])
  {
    forall q :: 0 <= q < MAX_TASKS ==>
      k'.tasks[q] == if due && q == k.timeQ[0] then k.tasks[q].(nextRun := 0) else k.tasks[q]
  }

  lemma ChoiceEffects(k: Kernel, live: set<nat>, now: nat)
    requires Sound(k, live)
    ensures WellFormed(SelectAndQueue(k, now))
    ensures Chose(k, SelectAndQueue(k, now), k.ring, k.timeQ, Due(k, now))
    ensures OnlyWakes(k, SelectAndQueue(k, now), Due(k, now))
  {
    hide Partition, SingleRunner;
    SelectPartition(k, live, now);
    LiveIsCreated(k, live, Select(k, now).1);
  }

  lemma YieldEffects(w: World, t: nat)
    requires Inv(w) && Enabled(w, CallYield(t))
    ensures var (k, k') := (w.k, Next(w, CallYield(t)).k);
      && WellFormed(k') && Chose(k, k', k.ring, k.timeQ, Due(k, t)) && OnlyWakes(k, k', Due(k, t))
  {
    ChoiceEffects(w.k, w.live, t);
  }

  /** A systick does the same when the task on the core has had it for more than 6000 us or the head of
      the time queue is due, and otherwise nothing. */
  lemma TickEffects(w: World, t1: nat, t2: nat, t3: nat)
    requires Inv(w) && Enabled(w, Tick(t1, t2, t3))
    ensures var (k, k') := (w.k, Next(w, Tick(t1, t2, t3)).k);
      if t1 - k.tasks[k.running].ctxSwitch > 6000 || Due(k, t2) then
        WellFormed(k') && Chose(k, k', k.ring, k.timeQ, Due(k, t3)) && OnlyWakes(k, k', Due(k, t3))
      else
        k' == k
  {
    ChoiceEffects(w.k, w.live, t3);
    hide Sound, Select, SelectAndQueue;
  }

  /** Taking PendSV clears its pending bit, and thread code leaves the kernel alone. */
  lemma OtherEffects(w: World, e: Event)
    requires Inv(w) && Enabled(w, e) && (e.Enter? || e.Thread?)
    ensures Next(w, e).k == if e.Enter? then w.k.(pending := false) else w.k
  {
  }

  // ---- sleeping ----------------------------------------------------------------------------

  /** Taking the element at i out of a sequence in which nothing occurs twice. */
  lemma WithoutAt(s: seq<nat>, x: nat, i: nat)
    requires i < |s| && s[i] == x && multiset(s)[x] <= 1
    ensures Without(s, x) == s[..i] + s[i + 1..]
  {
    if x in s[..i] {
      var j :| 0 <= j < i && s[..i][j] == x;
      TwiceInMultiset(s, j, i);
    }
    WithoutIsRemovedAt(s, x, i);
  }

  /** Where a sleeper with the given wake time goes: before an earliest head, else at the end of a queue of
      at most one, else behind the first or the second as the comparator answers. */
  function PlaceOf(k: Kernel, wake: nat, answer: bool): (i: nat)
    requires WellFormed(k)
    ensures i <= |k.timeQ|
  {
    if k.timeQ != [] && wake < k.tasks[k.timeQ[0]].nextRun then 0
    else if |k.timeQ| < 2 then |k.timeQ|
    else if answer then 1 else 2
  }

  /** The caller is in the ring, once. */
  lemma CallerInRing(w: World, e: Event)
    requires Inv(w) && Enabled(w, e) && e.CallSleep?
    ensures exists i :: 0 <= i < |w.k.ring| && w.k.ring[i] == w.k.running
    ensures multiset(w.k.ring)[w.k.running] == 1 && w.k.tasks[w.k.running].nextRun == 0
    ensures w.k.running !in w.k.timeQ
  {
    RunningInRing(w);
    Exclusive(w.k, w.live, w.k.running);
  }

  lemma EnqueueIs(k: Kernel, p: nat, answer: bool)
    requires WellFormed(k) && p < MAX_TASKS && k.ring != []
    ensures var (wake, j) := (k.tasks[p].nextRun, PlaceOf(k, k.tasks[p].nextRun, answer));
      Enqueue(k, p, answer) ==
        k.(ring := if wake == 0 then [k.ring[0], p] + k.ring[1..] else k.ring,
           timeQ := if wake == 0 then k.timeQ else k.timeQ[..j] + [p] + k.timeQ[j..])
  {
    assert InsertedAt(k.ring, 1, p) == [k.ring[0], p] + k.ring[1..];
  }

  lemma RequeueIs(k: Kernel, p: nat, wake: nat, answer: bool, i: nat)
    requires WellFormed(k) && Queued(k, p) && i < |k.ring| && k.ring[i] == p && k.tasks[p].nextRun == 0
    requires multiset(k.ring)[p] == 1 && |k.ring| > 1
    ensures var (k', rest, j) := (Requeue(k, p, wake, answer), k.ring[..i] + k.ring[i + 1..], PlaceOf(k, wake, answer));
      k' == k.(tasks := k.tasks[p := k.tasks[p].(nextRun := wake)],
               ring := if wake == 0 then [rest[0], p] + rest[1..] else rest,
               timeQ := if wake == 0 then k.timeQ else k.timeQ[..j] + [p] + k.timeQ[j..])
  {
    hide Without;
    WithoutAt(k.ring, p, i);
    DequeueWellFormed(k, p);
    var rest := k.ring[..i] + k.ring[i + 1..];
    EnqueueIs(k.(ring := rest, tasks := k.tasks[p := k.tasks[p].(nextRun := wake)]), p, answer);
  }

  /** The caller of sleep_until leaves the ring, with everybody else in it in the same order. With a wake
      time it goes to its place among the sleepers, otherwise behind the ring's first element. Then
      follows the choice, in which the caller itself may be the due head. */
  lemma SleepEffects(w: World, wake: nat, t: nat, answer: bool, i: nat)
    requires Inv(w) && Enabled(w, CallSleep(wake, t, answer))
    requires i < |w.k.ring| && w.k.ring[i] == w.k.running
    ensures |w.k.ring| > 1
    ensures var (k, k', p) := (w.k, Next(w, CallSleep(wake, t, answer)).k, w.k.running);
      var (rest, j) := (k.ring[..i] + k.ring[i + 1..], PlaceOf(k, wake, answer));
      var ring := if wake == 0 then [rest[0], p] + rest[1..] else rest;
      var timeQ := if wake == 0 then k.timeQ else k.timeQ[..j] + [p] + k.timeQ[j..];
      var due := timeQ != [] && (if timeQ[0] == p then wake else k.tasks[timeQ[0]].nextRun) < t + 1000;
      && WellFormed(k') && Chose(k, k', ring, timeQ, due)
      && forall q :: 0 <= q < MAX_TASKS ==>
           k'.tasks[q] == k.tasks[q].(nextRun :=
             if due && q == timeQ[0] then 0 else if q == p then wake else k.tasks[q].nextRun)
  {
    hide Partition, SingleRunner, Numbered, Requeue, Select, SelectAndQueue;
    var e := CallSleep(wake, t, answer);
    CallerInRing(w, e);
    if |w.k.ring| == 1 {
      assert false;
    }
    RequeueIs(w.k, w.k.running, wake, answer, i);
    RequeueKeeps(w.k, w.live, w.k.running, wake, answer);
    ChoiceEffects(Requeue(w.k, w.k.running, wake, answer), w.live, t);
  }

  // ---- killing -----------------------------------------------------------------------------

  /** A kill chooses first, from the queues as they are; then the victim leaves the queue it is in after
      that, with everybody else in the same order. Its record becomes COMPLETE. */
  lemma KillEffects(w: World, v: nat, t: nat, i: nat)
    requires Inv(w) && Enabled(w, CallKill(v, t))
    ensures var (k, k', due) := (w.k, Next(w, CallKill(v, t)).k, Due(w.k, t));
      var ring := if due then k.ring + [k.timeQ[0]] else k.ring[1..] + [k.ring[0]];
      var timeQ := if due then k.timeQ[1..] else k.timeQ;
      && WellFormed(k') && k'.queued == (if due then k.timeQ[0] else ring[0])
      && (v in ring <==> v !in timeQ)
      && (i < |ring| && ring[i] == v ==> k'.ring == ring[..i] + ring[i + 1..] && k'.timeQ == timeQ)
      && (i < |timeQ| && timeQ[i] == v ==> k'.ring == ring && k'.timeQ == timeQ[..i] + timeQ[i + 1..])
      && (k'.pending <==> k.pending || k'.queued != k.running)
      && k'.running == k.running && k'.masked == k.masked && k'.nextPid == k.nextPid
      && (forall q :: 0 <= q < MAX_TASKS ==>
            k'.tasks[q] == k.tasks[q].(
              status := if q == v then Complete else k.tasks[q].status,
              nextRun := if due && q == k.timeQ[0] then 0 else k.tasks[q].nextRun))
  {
    hide SingleRunner, Numbered, Handshake, Timed, Select, Dequeue;
    var (k2, p) := Select(Marked(w.k, v), t);
    MarkedIsSound(w.k, w.live, v);
    SelectPartition(Marked(w.k, v), w.live, t);
    Exclusive(k2, w.live, v);
    KillShape(w.k, v, t);
    DequeueIs(k2, v, i);
    DequeueWellFormed(k2, v);
    ChosenPid(w, p);
  }

  lemma ChosenPid(w: World, p: nat)
    requires Inv(w) && p in w.live
    ensures p < MAX_TASKS && w.k.tasks[p].pid == p
  {
  }

  lemma KillShape(k: Kernel, v: nat, t: nat)
    requires WellFormed(k) && k.ring != [] && v < MAX_TASKS
    ensures var ((k2, p), due) := (Select(Marked(k, v), t), Due(k, t));
      && WellFormed(k2) && p == (if due then k.timeQ[0] else k2.ring[0])
      && k2.ring == (if due then k.ring + [k.timeQ[0]] else k.ring[1..] + [k.ring[0]])
      && k2.timeQ == (if due then k.timeQ[1..] else k.timeQ)
      && k2.(ring := k.ring, timeQ := k.timeQ, tasks := k.tasks) == k
      && (forall q :: 0 <= q < MAX_TASKS ==>
            k2.tasks[q] == k.tasks[q].(
              status := if q == v then Complete else k.tasks[q].status,
              nextRun := if due && q == k.timeQ[0] then 0 else k.tasks[q].nextRun))
  {
  }

  lemma DequeueIs(k: Kernel, v: nat, i: nat)
    requires WellFormed(k) && Queued(k, v) && multiset(k.ring)[v] + multiset(k.timeQ)[v] == 1
    ensures var k' := Dequeue(k, v);
      && (v in k.ring <==> v !in k.timeQ)
      && k'.(ring := k.ring, timeQ := k.timeQ) == k
      && (i < |k.ring| && k.ring[i] == v ==> k'.ring == k.ring[..i] + k.ring[i + 1..] && k'.timeQ == k.timeQ)
      && (i < |k.timeQ| && k.timeQ[i] == v ==> k'.ring == k.ring && k'.timeQ == k.timeQ[..i] + k.timeQ[i + 1..])
  {
    if i < |k.ring| && k.ring[i] == v {
      WithoutAt(k.ring, v, i);
    }
    if i < |k.timeQ| && k.timeQ[i] == v {
      WithoutAt(k.timeQ, v, i);
    }
  }

  // ---- creating and switching --------------------------------------------------------------

  lemma NextIsFree(w: World)
    requires Inv(w)
    ensures w.k.nextPid !in w.live && (w.k.nextPid < MAX_TASKS ==> w.k.tasks[w.k.nextPid].nextRun == 0)
  {
  }

  /** A new task is numbered next, goes right behind the ring's head, and starts out SLEEPING with the
      entry, frequency and stack that were asked for; nobody else notices. */
  lemma CreateEffects(w: World, args: CreateArgs, sp: nat, answer: bool)
    requires Inv(w) && Enabled(w, CallCreate(args, sp, answer))
    ensures var (k, k', p) := (w.k, Next(w, CallCreate(args, sp, answer)).k, w.k.nextPid);
      && WellFormed(k') && p !in w.live && k'.nextPid == p + 1
      && k'.ring == [k.ring[0], p] + k.ring[1..] && k'.timeQ == k.timeQ
      && k'.running == k.running && k'.queued == k.queued && k'.pending == k.pending && k'.masked == k.masked
      && (forall q :: 0 <= q < MAX_TASKS && q != p ==> k'.tasks[q] == k.tasks[q])
      && var t := k'.tasks[p];
         && t.pid == p && t.status == Sleeping && t.entry == args.entry && t.frequency == args.frequency
         && t.stackPtr == sp && t.stackBase == args.stackBase
         && t.nextRun == 0 && t.runTicks == 0 && t.ctxSwitch == k.tasks[p].ctxSwitch
  {
    hide Partition, SingleRunner, Numbered, Create, Handshake, Timed;
    NextIsFree(w);
    CreateShape(w.k, args, sp, answer);
  }

  /** The switch itself: the task that leaves the core keeps its stack pointer and, if it was RUNNING, is
      charged the whole milliseconds since it got the core and becomes SLEEPING; the queued task becomes
      RUNNING from the second clock read on. All else stays. */
  lemma SwitchEffects(w: World, sp: nat, t1: nat, t2: nat)
    requires Inv(w) && Enabled(w, Switch(sp, t1, t2))
    ensures var (k, k', p, q) := (w.k, Next(w, Switch(sp, t1, t2)).k, w.k.running, w.k.queued);
      if p == q then
        k' == k.(masked := true)
      else
        && WellFormed(k') && k'.(tasks := k.tasks, running := p) == k && k'.running == q
        && (forall u :: 0 <= u < MAX_TASKS && u != p && u != q ==> k'.tasks[u] == k.tasks[u])
        && k'.tasks[q] == k.tasks[q].(status := Running, ctxSwitch := t2)
        && k'.tasks[p] == (if k.tasks[p].status == Running then
             k.tasks[p].(stackPtr := sp, status := Sleeping,
                         runTicks := k.tasks[p].runTicks + (t1 - k.tasks[p].ctxSwitch) / 1000)
           else k.tasks[p].(stackPtr := sp))
  {
    hide Partition, SingleRunner;
  }

  // ---- statuses and accounts ---------------------------------------------------------------

  /** PendSV's C half with another task to switch to. */
  predicate HandsOver(w: World, e: Event)
  {
    e.Switch? && w.k.queued != w.k.running
  }

  /** The status that an event leaves a task in. */
  function StatusAfter(w: World, e: Event, q: nat): Status
    requires WellFormed(w.k) && q < MAX_TASKS
  {
    if e.CallKill? && q == e.victim then Complete
    else if e.CallCreate? && q == w.k.nextPid then Sleeping
    else if HandsOver(w, e) && q == w.k.queued then Running
    else if HandsOver(w, e) && q == w.k.running && w.k.tasks[q].status == Running then Sleeping
    else w.k.tasks[q].status
  }

  /** What an event charges a task with: the milliseconds since it got the core, if it is RUNNING and
      leaves it. */
  function ChargeOf(w: World, e: Event, q: nat): nat
    requires WellFormed(w.k) && (e.Switch? ==> w.k.tasks[w.k.running].ctxSwitch <= e.t1)
  {
    if HandsOver(w, e) && q == w.k.running && w.k.tasks[q].status == Running
    then (e.t1 - w.k.tasks[q].ctxSwitch) / 1000 else 0
  }

  lemma RecordEffects(w: World, e: Event, q: nat)
    requires Inv(w) && Enabled(w, e) && q < MAX_TASKS
    ensures WellFormed(Next(w, e).k)
    ensures var (t, t') := (w.k.tasks[q], Next(w, e).k.tasks[q]);
      && t'.status == StatusAfter(w, e, q)
      && t'.runTicks == if e.CallCreate? && q == w.k.nextPid then 0 else t.runTicks + ChargeOf(w, e, q)
  {
    hide Sound, Handshake, Timed, NextKernel, Chose;
    StepWellFormed(w, e);
    match e
    case CallCreate(args, sp, answer) => CreateEffects(w, args, sp, answer);
    case CallYield(t) => YieldEffects(w, t);
    case CallSleep(wake, t, answer) =>
      CallerInRing(w, e);
      var i :| 0 <= i < |w.k.ring| && w.k.ring[i] == w.k.running;
      SleepEffects(w, wake, t, answer, i);
    case CallKill(v, t) => KillEffects(w, v, t, 0);
    case Tick(t1, t2, t3) => TickEffects(w, t1, t2, t3);
    case Switch(sp, t1, t2) => SwitchEffects(w, sp, t1, t2);
    case _ => OtherEffects(w, e);
  }

  lemma StepRuns(w: World, e: Event)
    requires Inv(w) && Enabled(w, e)
    ensures Next(w, e).k.running == if HandsOver(w, e) then w.k.queued else w.k.running
  {
    hide Partition, SingleRunner;
    if e.Switch? {
      SwitchEffects(w, e.sp, e.t1, e.t2);
    } else {
      StepKeeps(w, e);
      QuietStep(w, e);
    }
  }
}
