/** Runs from the start that show where the code falls short, or a bound is met exactly. */
module Scenarios {
  import opened Sequences
  import opened Scheduler
  import opened Runs
  import opened Boot
  import opened Selection
  import opened RealTime
  import opened Slices

  /** What the comparator would answer a caller of sleep_until if it were shown tasks. */
  predicate SeesTasks(w: World, e: Event)
    requires WellFormed(w.k)
  {
    e.CallSleep? && |w.k.timeQ| > 1 ==>
      var caller := w.k.tasks[w.k.running].(nextRun := e.wake);
      e.answer == QueueSort(caller, w.k.tasks[w.k.timeQ[0]], w.k.tasks[w.k.timeQ[1]])
  }

  /** Systicks are prompt by `us`; and `hog`, unless it is 0, never gives the core up by itself. */
  datatype Pace = Pace(us: nat, hog: nat)

  const TIMELY := Pace(TICK_US, 0)

  predicate Usual(w: World, e: Event, u: Pace)
    ensures Usual(w, e, u) ==> Enabled(w, e)
  {
    Enabled(w, e) && Prompt(w, e, u.us) && SeesTasks(w, e) && Greedy(w, e, u.hog, u.us)
  }

  /** A run leads from w0 to w at the given pace, the comparator answering as intended. */
  ghost predicate Reaches(w0: World, w: World, u: Pace)
  {
    exists ws, es :: IsRun(ws, es) && ws[0] == w0 && ws[|es|] == w && UsualRun(ws, es, u)
  }

  ghost predicate UsualRun(ws: seq<World>, es: seq<Event>, u: Pace)
    requires IsRun(ws, es)
  {
    forall i :: 0 <= i < |es| ==> Usual(ws[i], es[i], u)
  }

  lemma ReachesSelf(w: World, u: Pace)
    ensures Reaches(w, w, u)
  {
    var ws: seq<World>, es: seq<Event> := [w], [];
    assert IsRun(ws, es) && ws[|es|] == w && UsualRun(ws, es, u);
  }

  lemma RunExtends(ws: seq<World>, es: seq<Event>, e: Event, u: Pace)
    requires IsRun(ws, es) && UsualRun(ws, es, u) && Usual(ws[|es|], e, u)
    ensures IsRun(ws + [Next(ws[|es|], e)], es + [e])
    ensures UsualRun(ws + [Next(ws[|es|], e)], es + [e], u)
  {
    hide Next, Usual, Enabled;
  }

  lemma ReachesNext(w0: World, w: World, e: Event, u: Pace)
    requires Inv(w0) && Reaches(w0, w, u) && Usual(w, e, u)
    ensures Reaches(w0, Next(w, e), u) && Inv(Next(w, e))
  {
    hide Inv, Next, Usual, Enabled, UsualRun;
    var ws, es :| IsRun(ws, es) && ws[0] == w0 && ws[|es|] == w && UsualRun(ws, es, u);
    RunExtends(ws, es, e, u);
    ReachableInv(ws + [Next(w, e)], es + [e], |es| + 1);
  }

  /** The ring, the tasks asleep, and their wake times. */
  datatype Queues = Queues(ring: seq<nat>, timeQ: seq<nat>, times: seq<nat>)

  ghost predicate Shows(w: World, q: Queues)
  {
    Inv(w) && w.k.ring == q.ring && w.k.timeQ == q.timeQ && Times(w.k) == q.times
  }

  /** No PendSV is on its way and none is masked out. */
  predicate Idle(w: World)
  {
    !w.k.pending && !w.entered && !w.k.masked
  }

  /** At time t thread code runs, and the task on the core is the ring's head. */
  ghost predicate AtWork(w0: World, w: World, q: Queues, t: nat, u: Pace)
    ensures AtWork(w0, w, q, t, u) ==> WellFormed(w.k)
  {
    && Inv(w0) && Reaches(w0, w, u) && Shows(w, q) && w.clock == t
    && Idle(w) && q.ring != [] && q.ring[0] == w.k.running
  }

  /** The task on the core has called the kernel, and PendSV will switch to the ring's new head. */
  ghost predicate Leaving(w0: World, w: World, q: Queues, t: nat, u: Pace)
  {
    && Inv(w0) && Reaches(w0, w, u) && Shows(w, q) && w.clock == t
    && w.k.pending && !w.entered && !w.k.masked && q.ring != [] && q.ring[0] == w.k.queued != w.k.running
  }

  lemma AtWorkFirst(cs: seq<Creation>, now: nat, u: Pace) returns (w: World)
    requires 0 < |cs| < MAX_TASKS
    ensures w == Started(cs, now) && AtWork(w, w, Queues(w.k.ring, [], []), now, u)
    ensures |w.k.ring| == |cs| && w.k.ring[0] == 1
    ensures forall i :: 1 <= i < |cs| ==> w.k.ring[i] == |cs| + 1 - i
    ensures w.lastTick == w.k.tasks[1].ctxSwitch == now
    ensures forall p :: 1 <= p <= |cs| ==> p in w.live
  {
    w := Started(cs, now);
    StartedInv(cs, now);
    BootOrder(cs);
    ReachesSelf(w, u);
  }

  /** The processor takes PendSV. */
  lemma TakeEntry(w0: World, w: World, u: Pace) returns (w': World)
    requires Inv(w0) && Inv(w) && Reaches(w0, w, u) && w.k.pending && !w.entered && !w.k.masked
    requires w.clock <= w.lastTick + u.us && (u.hog != w.k.running || |w.k.ring| >= 2)
    ensures w' == w.(k := w.k.(pending := false), entered := true) && Reaches(w0, w', u) && Inv(w')
  {
    hide Partition, SingleRunner, Numbered, Handshake, Reaches;
    ReachesNext(w0, w, Enter, u);
    w' := Next(w, Enter);
  }

  /** PendSV puts the queued task on the core. */
  lemma TakeSwitch(w0: World, w: World, q: Queues, t: nat, u: Pace) returns (w': World)
    requires Leaving(w0, w, q, t, u) && t <= w.lastTick + u.us && (u.hog == 0 || |q.ring| >= 2)
    ensures AtWork(w0, w', q, t, u) && w'.lastTick == w.lastTick && w'.live == w.live
    ensures WellFormed(w'.k) && w'.k.tasks[w'.k.running].status == Running
  {
    hide Partition, Numbered, Reaches;
    w' := TakeEntry(w0, w, u);
    var e := Switch(0, t, t);
    ReachesNext(w0, w', e, u);
    w' := Next(w', e);
  }

  predicate NoneDue(times: seq<nat>, now: nat)
  {
    forall i :: 0 <= i < |times| ==> now + TICK_US <= times[i]
  }

  /** With nobody due, a selection moves the ring on. */
  lemma SelectsNext(k: Kernel, live: set<nat>, now: nat)
    requires Sound(k, live) && NoneDue(Times(k), now)
    ensures WellFormed(SelectAndQueue(k, now))
    ensures SelectAndQueue(k, now) ==
            k.(ring := Rotated(k.ring), queued := Rotated(k.ring)[0],
               pending := k.pending || k.running != Rotated(k.ring)[0])
  {
    SelectPartition(k, live, now);
    assert k.timeQ != [] ==> Times(k)[0] == k.tasks[k.timeQ[0]].nextRun;
  }

  lemma HeadIsOnce(k: Kernel, live: set<nat>)
    requires Sound(k, live)
    ensures Queued(k, k.ring[0]) && k.ring[0] in live && k.ring[0] !in k.ring[1..]
  {
    var p := k.ring[0];
    Exclusive(k, live, p);
    if p in k.ring[1..] {
      var i :| 0 <= i < |k.ring[1..]| && k.ring[1..][i] == p;
      TwiceInMultiset(k.ring, 0, i + 1);
    }
  }

  lemma CallsYield(w0: World, w: World, q: Queues, now: nat, t: nat, u: Pace) returns (w': World)
    requires AtWork(w0, w, q, now, u) && |q.ring| >= 2
    requires now <= t <= w.lastTick + u.us && NoneDue(q.times, t)
    ensures Leaving(w0, w', q.(ring := Rotated(q.ring)), t, u)
    ensures w'.lastTick == w.lastTick && w'.live == w.live && WellFormed(w.k) && WellFormed(w'.k)
    ensures w'.k.running == w.k.running && w'.k.tasks == w.k.tasks
  {
    var e := CallYield(t);
    SelectsNext(w.k, w.live, t);
    HeadIsOnce(w.k, w.live);
    hide Partition, SingleRunner, Handshake, Numbered, Select, SelectAndQueue;
    ReachesNext(w0, w, e, u);
    w' := Next(w, e);
    assert w'.k == SelectAndQueue(w.k, t);
  }

  /** The caller leaves the ring for its place among the sleepers. */
  lemma RequeueShape(k: Kernel, p: nat, wake: nat, answer: bool)
    requires WellFormed(k) && k.ring != [] && k.ring[0] == p && Queued(k, p) && k.tasks[p].nextRun == 0 && wake != 0
    requires k.timeQ == [] || Times(k)[0] <= wake
    ensures var k' := Requeue(k, p, wake, answer);
      && WellFormed(k') && k'.ring == k.ring[1..] && k'.running == k.running
      && k'.pending == k.pending && k'.masked == k.masked
      && k'.timeQ == InsertedAt(k.timeQ, SortedSlot(|k.timeQ|, answer), p)
      && Times(k') == InsertedAt(Times(k), SortedSlot(|k.timeQ|, answer), wake)
  {
    DequeueWellFormed(k, p);
    var k1 := k.(ring := k.ring[1..], tasks := k.tasks[p := k.tasks[p].(nextRun := wake)]);
    assert Without(k.ring, p) == k.ring[1..];
    assert Times(k1) == Times(k);
    EnqueueTimes(k1, p, answer);
  }

  /** The caller enters the time queue, and the ring moves on. */
  lemma SleepShape(k: Kernel, live: set<nat>, p: nat, wake: nat, t: nat, answer: bool)
    requires Sound(k, live) && p in live && Queued(k, p) && RingOutlives(k, p) && k.ring[0] == p && |k.ring| >= 2
    requires NoneDue(Times(k), t) && t + TICK_US <= wake && (k.timeQ == [] || Times(k)[0] <= wake)
    ensures var (k', i) := (SleepUntil(k, p, wake, t, answer), SortedSlot(|k.timeQ|, answer));
      && WellFormed(k') && k'.ring == Rotated(k.ring[1..]) && k'.queued == Rotated(k.ring[1..])[0]
      && k'.timeQ == InsertedAt(k.timeQ, i, p) && Times(k') == InsertedAt(Times(k), i, wake)
      && k'.running == k.running && k'.masked == k.masked && (k.running != k'.queued ==> k'.pending)
  {
    hide Partition, SingleRunner, Numbered, Select, SelectAndQueue, Requeue;
    RequeueShape(k, p, wake, answer);
    RequeueKeeps(k, live, p, wake, answer);
    SelectsNext(Requeue(k, p, wake, answer), live, t);
  }

  /** The queues once the ring's head has gone to sleep until then. */
  function Asleep(q: Queues, wake: nat): Queues
    requires q.ring != [] && |q.timeQ| == |q.times|
  {
    var i := SortedSlot(|q.times|, |q.times| > 1 && wake < q.times[1]);
    Queues(Rotated(q.ring[1..]), InsertedAt(q.timeQ, i, q.ring[0]), InsertedAt(q.times, i, wake))
  }

  lemma MaySleep(w: World, q: Queues, t: nat, wake: nat, answer: bool, u: Pace)
    requires Shows(w, q) && Idle(w) && u.hog == 0 && |q.ring| >= 2 && q.ring[0] == w.k.running != SPIN
    requires w.clock <= t <= w.lastTick + u.us && (q.times == [] || q.times[0] <= wake)
    requires answer == (|q.times| > 1 && wake < q.times[1]) && wake > 0
    ensures Usual(w, CallSleep(wake, t, answer), u)
  {
    HeadIsOnce(w.k, w.live);
    hide Partition, SingleRunner, Handshake, Numbered;
  }

  lemma CallsSleep(w0: World, w: World, q: Queues, now: nat, t: nat, wake: nat, u: Pace)
      returns (e: Event, w': World)
    requires AtWork(w0, w, q, now, u) && |q.ring| >= 2 && q.ring[0] != SPIN && u.hog == 0
    requires now <= t <= w.lastTick + u.us && NoneDue(q.times, t)
    requires t + TICK_US <= wake && (q.times == [] || q.times[0] <= wake)
    ensures e.CallSleep? && WellFormed(w.k) && Usual(w, e, u) && w' == Next(w, e)
    ensures |q.timeQ| == |q.times| && Leaving(w0, w', Asleep(q, wake), t, u)
    ensures w'.lastTick == w.lastTick && w'.live == w.live
  {
    hide Partition, SingleRunner, Handshake, Numbered, SleepUntil, Reaches;
    e := CallSleep(wake, t, |q.times| > 1 && wake < q.times[1]);
    MaySleep(w, q, t, wake, e.answer, u);
    HeadIsOnce(w.k, w.live);
    ReachesNext(w0, w, e, u);
    SleepShape(w.k, w.live, q.ring[0], wake, t, e.answer);
    w' := Next(w, e);
    assert q.ring[1..][0] != q.ring[0];
  }

  lemma Yields(w0: World, w: World, q: Queues, t: nat, u: Pace) returns (w': World)
    requires AtWork(w0, w, q, t, u) && |q.ring| >= 2 && t <= w.lastTick + u.us && NoneDue(q.times, t)
    ensures AtWork(w0, w', q.(ring := Rotated(q.ring)), t, u) && w'.lastTick == w.lastTick && w'.live == w.live
  {
    hide AtWork, Leaving;
    w' := CallsYield(w0, w, q, t, t, u);
    w' := TakeSwitch(w0, w', q.(ring := Rotated(q.ring)), t, u);
  }

  lemma Sleeps(w0: World, w: World, q: Queues, t: nat, wake: nat, u: Pace) returns (w': World)
    requires AtWork(w0, w, q, t, u) && |q.ring| >= 2 && q.ring[0] != SPIN && |q.timeQ| == |q.times|
    requires u.hog == 0
    requires t <= w.lastTick + u.us && NoneDue(q.times, t)
    requires t + TICK_US <= wake && (q.times == [] || q.times[0] <= wake)
    ensures AtWork(w0, w', Asleep(q, wake), t, u) && w'.lastTick == w.lastTick && w'.live == w.live
  {
    hide AtWork, Leaving, Asleep;
    var e;
    e, w' := CallsSleep(w0, w, q, t, t, wake, u);
    w' := TakeSwitch(w0, w', Asleep(q, wake), t, u);
  }

  // ---- the time queue comes out of order ---------------------------------------------------

  /** The queue was in order, and the call of sleep_until, its comparator answering as intended,
      leaves it out of order. */
  ghost predicate Disorders(w: World, e: Event)
  {
    && WellFormed(w.k) && Sorted(Times(w.k)) && e.CallSleep? && Usual(w, e, TIMELY)
    && WellFormed(Next(w, e).k) && !Sorted(Times(Next(w, e).k))
  }

  lemma LastSleeps(w0: World, w: World, q: Queues, t: nat, wake: nat) returns (e: Event)
    requires AtWork(w0, w, q, t, TIMELY) && |q.ring| >= 2 && q.ring[0] != SPIN && |q.timeQ| == |q.times| == 3
    requires t <= w.lastTick + TIMELY.us && NoneDue(q.times, t)
    requires t + TICK_US <= wake && Sorted(q.times) && q.times[2] < wake
    ensures Disorders(w, e)
  {
    assert q.times[0] <= q.times[1] <= q.times[2];
    var w';
    e, w' := CallsSleep(w0, w, q, t, t, wake, TIMELY);
    SortedInsertion(q.times, 2, wake);
    hide Inv, Reaches, NoneDue;
  }

  lemma TwoAsleep(cs: seq<Creation>, now: nat) returns (w: World)
    requires |cs| == 5
    ensures AtWork(Started(cs, now), w, Queues([1, 4, 2], [5, 3], [now + 1000, now + 2000]), now, TIMELY)
    ensures w.lastTick == now
  {
    hide Inv, Reaches, Started, AtWork;
    var u, w0 := TIMELY, Started(cs, now);
    w := AtWorkFirst(cs, now, u);
    var q := Queues([1, 5, 4, 3, 2], [], []);
    assert w.k.ring == q.ring;
    w := Yields(w0, w, q, now, u);
    q := q.(ring := Rotated(q.ring));
    assert q == Queues([5, 4, 3, 2, 1], [], []);
    w := Sleeps(w0, w, q, now, now + 1000, u);
    q := Asleep(q, now + 1000);
    assert q == Queues([3, 2, 1, 4], [5], [now + 1000]);
    w := Sleeps(w0, w, q, now, now + 2000, u);
    q := Asleep(q, now + 2000);
    assert q == Queues([1, 4, 2], [5, 3], [now + 1000, now + 2000]);
  }

  /** The spin task and four others that go to sleep one after the other, each for longer than the
      last: the fourth one lands before the third. */
  lemma SortedCanBreak(cs: seq<Creation>, now: nat)
    requires |cs| == 5
    ensures exists w, e :: Reaches(Started(cs, now), w, TIMELY) && Disorders(w, e)
  {
    hide Inv, Reaches, Started, AtWork, Disorders;
    var u, w0 := TIMELY, Started(cs, now);
    var w := TwoAsleep(cs, now);
    var q := Queues([1, 4, 2], [5, 3], [now + 1000, now + 2000]);
    w := Yields(w0, w, q, now, u);
    q := q.(ring := Rotated(q.ring));
    assert q == Queues([4, 2, 1], [5, 3], [now + 1000, now + 2000]);
    w := Sleeps(w0, w, q, now, now + 3000, u);
    q := Asleep(q, now + 3000);
    assert q == Queues([1, 2], [5, 3, 4], [now + 1000, now + 2000, now + 3000]);
    w := Yields(w0, w, q, now, u);
    q := q.(ring := Rotated(q.ring));
    assert q == Queues([2, 1], [5, 3, 4], [now + 1000, now + 2000, now + 3000]);
    var e := LastSleeps(w0, w, q, now, now + 4000);
    WasReached(w0, w, q, now, u);
  }

  lemma WasReached(w0: World, w: World, q: Queues, t: nat, u: Pace)
    requires AtWork(w0, w, q, t, u)
    ensures Reaches(w0, w, u)
  {
  }

  // ---- a killed task runs ------------------------------------------------------------------

  /** With nobody due, killing the successor of the ring's head puts it on the core next. */
  lemma KillsNext(w: World, t: nat)
    requires Inv(w) && Idle(w) && |w.k.ring| >= 2 && w.k.ring[0] == w.k.running
    requires w.clock <= t && w.k.ring[1] != SPIN && NoneDue(Times(w.k), t)
    ensures Enabled(w, CallKill(w.k.ring[1], t))
    ensures var w' := Next(w, CallKill(w.k.ring[1], t));
      && w'.k.queued == w.k.ring[1] && w'.k.running == w.k.running
      && w'.k.pending && !w'.entered && !w'.k.masked
      && w'.live == w.live - {w.k.ring[1]} && w'.clock == t && w'.lastTick == w.lastTick
  {
    var v := w.k.ring[1];
    Exclusive(w.k, w.live, v);
    HeadIsOnce(w.k, w.live);
    assert v in w.k.ring[1..];
    assert w.k.timeQ != [] ==> Times(w.k)[0] == w.k.tasks[w.k.timeQ[0]].nextRun;
    KillChoice(w.k, w.live, v, t);
    KillKeeps(w.k, w.live, v, t);
    hide Partition, SingleRunner, Handshake, Kill;
  }

  /** Thread code of a task runs that was killed and has left both queues. */
  ghost predicate DeadRuns(w: World)
  {
    && WellFormed(w.k) && InThread(w) && w.k.running !in w.live && w.k.running !in w.k.ring
    && w.k.running !in w.k.timeQ && w.k.tasks[w.k.running].status == Running
  }

  lemma SwitchToDead(w: World)
    requires Inv(w) && w.entered && !w.k.pending && w.k.queued !in w.live && w.k.queued != w.k.running
    ensures Enabled(w, Switch(0, w.clock, w.clock)) && DeadRuns(Next(w, Switch(0, w.clock, w.clock)))
  {
    Exclusive(w.k, w.live, w.k.queued);
  }

  lemma KillerAtWork(w0: World, w: World, q: Queues, t: nat, u: Pace) returns (w': World)
    requires AtWork(w0, w, q, t, u) && q.times == [] && |q.ring| >= 2 && q.ring[1] != SPIN && t <= w.lastTick + u.us
    requires u.hog == 0
    ensures Reaches(w0, w', u) && DeadRuns(w') && w'.k.running == q.ring[1]
  {
    hide Reaches, Partition, SingleRunner, Handshake, Numbered, DeadRuns, Kill;
    KillsNext(w, t);
    ReachesNext(w0, w, CallKill(q.ring[1], t), u);
    w' := Next(w, CallKill(q.ring[1], t));
    HeadIsOnce(w.k, w.live);
    assert q.ring[1] in q.ring[1..];
    w' := TakeEntry(w0, w', u);
    SwitchToDead(w');
    ReachesNext(w0, w', Switch(0, t, t), u);
    SwitchRunsQueued(w', Switch(0, t, t));
    w' := Next(w', Switch(0, t, t));
  }

  /** A kill that chooses its victim: task 3 kills task 2, its successor in the ring, and the dead task
      is what runs next. */
  lemma KilledTaskRuns(cs: seq<Creation>, now: nat)
    requires |cs| == 3
    ensures exists w :: Reaches(Started(cs, now), w, TIMELY) && DeadRuns(w) && w.k.running == 2
  {
    hide Inv, Reaches, Started, AtWork, DeadRuns;
    var w0 := Started(cs, now);
    var w := AtWorkFirst(cs, now, TIMELY);
    assert w.k.ring == [1, 3, 2];
    w := Yields(w0, w, Queues([1, 3, 2], [], []), now, TIMELY);
    assert Rotated([1, 3, 2]) == [3, 2, 1];
    w := KillerAtWork(w0, w, Queues([3, 2, 1], [], []), now, TIMELY);
  }

  // ---- the deadline is met exactly ---------------------------------------------------------

  /** p heads the time queue a systick period ahead, and the next event picks it at the very last
      moment that `RealTime.Deadline` allows. */
  ghost predicate PicksLast(w: World, e: Event, p: nat, P: nat)
  {
    && WellFormed(w.k) && |w.k.timeQ| == 1 && w.k.timeQ[0] == p && w.clock + TICK_US <= w.k.tasks[p].nextRun
    && Enabled(w, e) && Prompt(w, e, P) && Picks(w, e, p)
    && LastRead(w, e) == w.k.tasks[p].nextRun + P - TICK_US
  }

  /** The deadline cannot be improved: for every P there is a run, prompt by P, that takes all of it.
      So for P above a systick period a task can be late. */
  lemma DeadlineIsTight(cs: seq<Creation>, now: nat, P: nat)
    requires |cs| == 2 && P >= 1
    ensures exists w, e :: Reaches(Started(cs, now), w, Pace(P, 0)) && PicksLast(w, e, 2, P)
  {
    hide Inv, Reaches, Started, AtWork, PicksLast;
    var u, w0 := Pace(P, 0), Started(cs, now);
    var w := AtWorkFirst(cs, now, u);
    assert w.k.ring == [1, 2];
    w := Yields(w0, w, Queues([1, 2], [], []), now, u);
    assert Rotated([1, 2]) == [2, 1];
    w := Sleeps(w0, w, Queues([2, 1], [], []), now, now + TICK_US, u);
    var q := Asleep(Queues([2, 1], [], []), now + TICK_US);
    assert q == Queues([1], [2], [now + TICK_US]);
    TicksLast(w0, w, q, now, 2, u);
    WasReached(w0, w, q, now, u);
  }

  lemma TicksLast(w0: World, w: World, q: Queues, t: nat, p: nat, u: Pace)
    requires AtWork(w0, w, q, t, u) && q.timeQ == [p] && q.times == [t + TICK_US] && w.lastTick == t && u.us >= 1
    ensures PicksLast(w, Tick(t + u.us, t + u.us, t + u.us), p, u.us)
  {
    assert Times(w.k)[0] == w.k.tasks[p].nextRun;
    hide Partition, SingleRunner, Handshake, Reaches;
  }

  // ---- the early return --------------------------------------------------------------------

  /** A systick within the slice, with nobody asleep, changes no queue. */
  lemma TicksQuietly(w0: World, w: World, q: Queues, now: nat, t: nat, u: Pace) returns (w': World)
    requires AtWork(w0, w, q, now, u) && q.timeQ == [] && |q.ring| >= 2 && now <= t <= w.lastTick + u.us
    requires t <= w.k.tasks[w.k.running].ctxSwitch + SLICE_US
    ensures AtWork(w0, w', q, t, u) && w'.lastTick == t && w'.k == w.k
  {
    hide Partition, SingleRunner, Handshake, Numbered, Reaches;
    ReachesNext(w0, w, Tick(t, t, t), u);
    w' := Next(w, Tick(t, t, t));
  }

  /** Task 1 runs to the end of its slice and yields; the systicks come every millisecond. */
  lemma SliceEnds(cs: seq<Creation>, now: nat, hog: nat) returns (w: World)
    requires 2 <= |cs| < MAX_TASKS
    ensures var (w0, u) := (Started(cs, now), Pace(TICK_US, hog));
      && WellFormed(w0.k) && |w0.k.ring| == |cs| && w0.k.ring[0] == 1
      && (forall i :: 1 <= i < |cs| ==> w0.k.ring[i] == |cs| + 1 - i)
      && Leaving(w0, w, Queues(Rotated(w0.k.ring), [], []), now + 6990, u)
    ensures WellFormed(w.k) && w.lastTick == now + 6000 && w.k.running == 1 && w.k.tasks[1].ctxSwitch == now
  {
    hide Inv, Reaches, Started, AtWork, Leaving, Rotated;
    var w0, u := Started(cs, now), Pace(TICK_US, hog);
    w := AtWorkFirst(cs, now, u);
    var q := Queues(w.k.ring, [], []);
    for i := 0 to 6
      invariant AtWork(w0, w, q, now + 1000 * i, u) && w.lastTick == now + 1000 * i
      invariant w.k.running == 1 && w.k.tasks[1].ctxSwitch == now
    {
      w := TicksQuietly(w0, w, q, now + 1000 * i, now + 1000 * (i + 1), u);
    }
    w := CallsYield(w0, w, q, now + 6000, now + 6990, u);
  }

  /** Interrupts stay masked, at time t, with the task p on the core since c: nothing but its own code
      can follow. */
  ghost predicate Stuck(w: World, p: nat, c: nat, t: nat)
  {
    && WellFormed(w.k) && |w.k.ring| >= 2 && w.k.masked && w.clock == t
    && w.k.running == p && w.k.tasks[p].ctxSwitch == c
    && forall ws, es :: IsRun(ws, es) && ws[0] == w ==> ws[|es|] == w
  }

  lemma StaysStuck(w: World)
    requires Inv(w) && w.k.masked && |w.k.ring| >= 2
    ensures Stuck(w, w.k.running, w.k.tasks[w.k.running].ctxSwitch, w.clock)
  {
    forall ws, es | IsRun(ws, es) && ws[0] == w ensures ws[|es|] == w {
      MaskedForever(ws, es, 0, |es|);
    }
  }

  /** A systick that finds PendSV on its way, and the slice over, selects the next task of the ring. */
  lemma TicksOnTheWay(w0: World, w: World, t: nat, u: Pace) returns (w': World)
    requires Inv(w0) && Inv(w) && Reaches(w0, w, u) && OnTheWay(w) && w.k.timeQ == [] && |w.k.ring| >= 2
    requires w.clock <= t <= w.lastTick + u.us && t > w.k.tasks[w.k.running].ctxSwitch + SLICE_US
    ensures Reaches(w0, w', u) && Inv(w') && w'.lastTick == w'.clock == t && w'.entered == w.entered
    ensures w'.k == w.k.(ring := Rotated(w.k.ring), queued := Rotated(w.k.ring)[0],
                         pending := w.k.pending || w.k.running != Rotated(w.k.ring)[0])
  {
    hide Partition, SingleRunner, Handshake, Numbered, Reaches, Select, SelectAndQueue;
    SelectsNext(w.k, w.live, t);
    ReachesNext(w0, w, Tick(t, t, t), u);
    w' := Next(w, Tick(t, t, t));
  }

  /** PendSV's C half finds the queued task on the core already. */
  lemma ReturnsEarly(w0: World, w: World, u: Pace) returns (w': World)
    requires Inv(w0) && Inv(w) && Reaches(w0, w, u) && w.k.pending && !w.entered && !w.k.masked
    requires w.k.queued == w.k.running && |w.k.ring| >= 2 && w.clock <= w.lastTick + u.us
    ensures Reaches(w0, w', u) && Stuck(w', w.k.running, w.k.tasks[w.k.running].ctxSwitch, w.clock)
  {
    hide Partition, SingleRunner, Reaches;
    w' := TakeEntry(w0, w, u);
    var e := Switch(0, w.clock, w.clock);
    ReachesNext(w0, w', e, u);
    w' := Next(w', e);
    StaysStuck(w');
  }

  /** Task 1 yields at the end of its slice, a systick comes before PendSV and selects it again. It has
      company in the ring and never sleeps or dies, and still keeps the core for ever. */
  lemma HogIsNeverReplaced(cs: seq<Creation>, now: nat)
    requires |cs| == 2
    ensures exists w :: Reaches(Started(cs, now), w, Pace(TICK_US, 1)) && Stuck(w, 1, now, now + 7000)
  {
    hide Reaches, Started, Stuck, Partition, SingleRunner, Numbered;
    var w0, u := Started(cs, now), Pace(TICK_US, 1);
    var w := SliceEnds(cs, now, 1);
    assert Rotated(w0.k.ring) == [2, 1];
    w := TicksOnTheWay(w0, w, now + 7000, u);
    w := ReturnsEarly(w0, w, u);
  }

  /** Task 1 yields at the end of its slice and PendSV is taken at once; a systick preempts it before its
      C half and selects a third task. PendSV switches to that one, is taken again, and finds it on the
      core. */
  lemma PreemptedPendSv(cs: seq<Creation>, now: nat)
    requires |cs| == 3
    ensures exists w :: Reaches(Started(cs, now), w, TIMELY) && Stuck(w, 2, now + 7000, now + 7000)
  {
    hide Reaches, Started, Stuck, Partition, SingleRunner, Numbered;
    var w0, u := Started(cs, now), TIMELY;
    var w := SliceEnds(cs, now, 0);
    assert Rotated(w0.k.ring) == [3, 2, 1];
    w := TakeEntry(w0, w, u);
    w := TicksOnTheWay(w0, w, now + 7000, u);
    w := SwitchesTo(w0, w, u);
    w := ReturnsEarly(w0, w, u);
  }

  lemma SwitchesTo(w0: World, w: World, u: Pace) returns (w': World)
    requires Inv(w0) && Inv(w) && Reaches(w0, w, u) && w.entered && w.k.queued != w.k.running
    requires w.clock <= w.lastTick + u.us && u.hog == 0
    ensures Reaches(w0, w', u) && Inv(w') && !w'.entered && w'.clock == w.clock && w'.lastTick == w.lastTick
    ensures w'.k.running == w.k.queued == w'.k.queued && w'.k.ring == w.k.ring && w'.k.timeQ == w.k.timeQ
    ensures w'.k.pending == w.k.pending && w'.k.masked == w.k.masked
    ensures w'.k.tasks[w'.k.running].ctxSwitch == w.clock
  {
    hide Partition, SingleRunner, Reaches;
    var e := Switch(0, w.clock, w.clock);
    ReachesNext(w0, w, e, u);
    SwitchRunsQueued(w, e);
    w' := Next(w, e);
  }
}
