/** Real-time guarantees over whole runs. */
module RealTime {
  import opened Sequences
  import opened Scheduler
  import opened Runs
  import opened Boot

  /** The event selects p. */
  predicate Picks(w: World, e: Event, p: nat)
    requires Enabled(w, e)
  {
    Selects(w, e) && Selected(w, e) == p
  }

  /** A running task that is live is in the ring, so it is not asleep. */
  lemma RunningInRing(w: World)
    requires Inv(w) && InThread(w) && w.k.running in w.live
    ensures w.k.running in w.k.ring && w.k.running !in w.k.timeQ && w.k.tasks[w.k.running].nextRun == 0
  {
  }

  /** The queues an event selects from are still a partition. */
  lemma BeforeIsSound(w: World, e: Event)
    requires Inv(w) && Enabled(w, e) && Selects(w, e)
    ensures Partition(Before(w, e), w.live) && Numbered(Before(w, e))
  {
    hide Partition, SingleRunner, Numbered, Handshake, Requeue, Marked;
    match e
    case CallSleep(wake, t, answer) => RequeueKeeps(w.k, w.live, w.k.running, wake, answer);
    case CallKill(v, t) => MarkedIsSound(w.k, w.live, v);
    case _ =>
  }

  // ---- no early wake -----------------------------------------------------------------------

  /** p is still waiting for T, or T is less than a systick away, or p has been killed. */
  ghost predicate AsleepUntil(k: Kernel, clock: nat, live: set<nat>, p: nat, T: nat)
    requires WellFormed(k)
  {
    && Created(k, p)
    && (T < clock + TICK_US || p !in live || (p in k.timeQ && k.tasks[p].nextRun == T))
  }

  lemma SelectKeepsAsleep(k: Kernel, live: set<nat>, now: nat, p: nat, T: nat)
    requires WellFormed(k) && k.ring != [] && Partition(k, live) && AsleepUntil(k, now, live, p, T)
    ensures WellFormed(Select(k, now).0) && AsleepUntil(Select(k, now).0, now, live, p, T)
    ensures Select(k, now).1 == p ==> T < now + TICK_US
  {
    SelectPartition(k, live, now);
    Exclusive(k, live, p);
    InRotated(k.ring);
    if HeadDue(k, now) {
      assert k.timeQ == [k.timeQ[0]] + k.timeQ[1..];
    }
  }

  lemma KillKeepsAsleep(k: Kernel, live: set<nat>, victim: nat, p: nat, clock: nat, T: nat)
    requires WellFormed(k) && Partition(k, live) && victim in live && AsleepUntil(k, clock, live, p, T)
    ensures WellFormed(Dequeue(k, victim)) && AsleepUntil(Dequeue(k, victim), clock, live - {victim}, p, T)
  {
    DequeueWellFormed(k, victim);
    InWithout(k.timeQ, victim);
  }

  lemma BeforeIsAsleep(w: World, e: Event, p: nat, T: nat)
    requires Inv(w) && Enabled(w, e) && AsleepUntil(w.k, w.clock, w.live, p, T) && Selects(w, e)
    ensures Partition(Before(w, e), w.live) && AsleepUntil(Before(w, e), LastRead(w, e), w.live, p, T)
  {
    BeforeIsSound(w, e);
    if e.CallSleep? {
      SleepKeepsOthersAsleep(w, e, p, T);
    }
  }

  lemma CreateKeepsAsleep(w: World, e: Event, p: nat, T: nat)
    requires Inv(w) && Enabled(w, e) && AsleepUntil(w.k, w.clock, w.live, p, T) && e.CallCreate?
    ensures WellFormed(Next(w, e).k) && AsleepUntil(Next(w, e).k, LastRead(w, e), Next(w, e).live, p, T)
  {
  }

  lemma KillSelectKeepsAsleep(w: World, e: Event, p: nat, T: nat)
    requires Inv(w) && Enabled(w, e) && e.CallKill? && AsleepUntil(w.k, w.clock, w.live, p, T)
    ensures WellFormed(Next(w, e).k) && AsleepUntil(Next(w, e).k, LastRead(w, e), Next(w, e).live, p, T)
  {
    StepWellFormed(w, e);
    BeforeIsAsleep(w, e, p, T);
    var k1 := Before(w, e);
    SelectKeepsAsleep(k1, w.live, e.t, p, T);
    SelectPartition(k1, w.live, e.t);
    KillKeepsAsleep(Select(k1, e.t).0, w.live, e.victim, p, e.t, T);
    hide Inv, Select, Dequeue;
  }

  /** Nobody else's system call or interrupt wakes p early, and p's own selection is not early. */
  lemma StepKeepsAsleep(w: World, e: Event, p: nat, T: nat)
    requires Inv(w) && Enabled(w, e) && AsleepUntil(w.k, w.clock, w.live, p, T)
    ensures WellFormed(Next(w, e).k) && AsleepUntil(Next(w, e).k, LastRead(w, e), Next(w, e).live, p, T)
    ensures Picks(w, e, p) ==> T < LastRead(w, e) + TICK_US
  {
    hide Inv, Select, Create, Kill, Dequeue, Requeue;
    StepWellFormed(w, e);
    if Selects(w, e) {
      BeforeIsAsleep(w, e, p, T);
      SelectKeepsAsleep(Before(w, e), w.live, LastRead(w, e), p, T);
    }
    if e.CallCreate? {
      CreateKeepsAsleep(w, e, p, T);
    } else if e.CallKill? {
      KillSelectKeepsAsleep(w, e, p, T);
    }
  }

  lemma SleepKeepsOthersAsleep(w: World, e: Event, p: nat, T: nat)
    requires Inv(w) && Enabled(w, e) && e.CallSleep? && AsleepUntil(w.k, w.clock, w.live, p, T)
    ensures AsleepUntil(Before(w, e), w.clock, w.live, p, T)
  {
  }

  /** The caller of sleep_until enters the time queue with the wake time it asked for. */
  lemma SleepStarts(w: World, e: Event)
    requires Inv(w) && Enabled(w, e) && e.CallSleep? && e.wake != 0
    ensures AsleepUntil(Before(w, e), w.clock, w.live, w.k.running, e.wake)
  {
  }

  lemma {:induction false} AsleepAlong(ws: seq<World>, es: seq<Event>, i: nat, j: nat, p: nat, T: nat)
    requires IsRun(ws, es) && Inv(ws[0]) && i <= j < |ws|
    requires WellFormed(ws[i].k) && AsleepUntil(ws[i].k, ws[i].clock, ws[i].live, p, T)
    ensures WellFormed(ws[j].k) && AsleepUntil(ws[j].k, ws[j].clock, ws[j].live, p, T)
  {
    hide Inv, Enabled, AsleepUntil, NextKernel;
    ReachableInv(ws, es, j);
    if i < j {
      AsleepAlong(ws, es, i, j - 1, p, T);
      ReachableInv(ws, es, j - 1);
      StepKeepsAsleep(ws[j - 1], es[j - 1], p, T);
    }
  }

  lemma CallerAsleep(w: World, e: Event)
    requires Inv(w) && Enabled(w, e) && e.CallSleep? && e.wake != 0
    ensures WellFormed(Next(w, e).k)
    ensures AsleepUntil(Next(w, e).k, Next(w, e).clock, Next(w, e).live, w.k.running, e.wake)
    ensures Picks(w, e, w.k.running) ==> e.wake < LastRead(w, e) + TICK_US
  {
    hide Partition, SingleRunner, Handshake, Numbered, Select, Requeue;
    StepWellFormed(w, e);
    BeforeIsSound(w, e);
    SleepStarts(w, e);
    SelectKeepsAsleep(Before(w, e), w.live, e.t, w.k.running, e.wake);
  }

  /** No early wake: in every run, for every answer of the comparator, a task that asked to sleep
      until T is not selected, by that call or by anything later, more than a systick before T. */
  lemma NoEarlyWake(ws: seq<World>, es: seq<Event>, i: nat, j: nat)
    requires IsRun(ws, es) && Inv(ws[0]) && i <= j < |es|
    requires es[i].CallSleep? && es[i].wake != 0
    requires Picks(ws[j], es[j], ws[i].k.running)
    ensures es[i].wake < LastRead(ws[j], es[j]) + TICK_US
  {
    hide Inv, Enabled, AsleepUntil, NextKernel, Picks;
    var p, T := ws[i].k.running, es[i].wake;
    ReachableInv(ws, es, i);
    CallerAsleep(ws[i], es[i]);
    if i < j {
      assert ws[i + 1] == Next(ws[i], es[i]);
      AsleepAlong(ws, es, i + 1, j, p, T);
      ReachableInv(ws, es, j);
      StepKeepsAsleep(ws[j], es[j], p, T);
    }
  }

  // ---- the deadline ------------------------------------------------------------------------

  /** Nothing reads the clock more than P after the first read of the latest systick: P covers the
      period of the timer and the time a handler takes to its last read. */
  predicate Prompt(w: World, e: Event, P: nat)
  {
    LastRead(w, e) <= w.lastTick + P
  }

  predicate AtHead(k: Kernel, p: nat, T: nat)
    requires WellFormed(k)
  {
    k.timeQ != [] && k.timeQ[0] == p && k.tasks[p].nextRun == T
  }

  /** Nobody kills p, and nobody asks to be woken before T. */
  predicate Undisturbed(e: Event, p: nat, T: nat)
  {
    && (e.CallKill? ==> e.victim != p)
    && (e.CallSleep? ==> e.wake == 0 || e.wake >= T)
  }

  lemma SelectAtHead(k: Kernel, p: nat, T: nat, now: nat)
    requires WellFormed(k) && k.ring != [] && AtHead(k, p, T)
    ensures T < now + TICK_US ==> Select(k, now).1 == p
    ensures WellFormed(Select(k, now).0) && (T >= now + TICK_US ==> AtHead(Select(k, now).0, p, T))
  {
  }

  /** Creating a task changes nothing for the tasks asleep. */
  lemma CreateLeavesAsleep(w: World, e: Event, p: nat)
    requires Inv(w) && Enabled(w, e) && e.CallCreate? && p in w.k.timeQ
    ensures Next(w, e).k.timeQ == w.k.timeQ && Next(w, e).k.tasks[p] == w.k.tasks[p]
  {
  }

  lemma DeadlineStep(w: World, e: Event, p: nat, T: nat, P: nat)
    requires Inv(w) && Enabled(w, e) && AtHead(w.k, p, T)
    requires Prompt(w, e, P) && Undisturbed(e, p, T) && w.lastTick + TICK_US <= T
    ensures LastRead(w, e) <= T + P - TICK_US && WellFormed(Next(w, e).k)
    ensures if Selects(w, e) && T < LastRead(w, e) + TICK_US then Picks(w, e, p)
            else AtHead(Next(w, e).k, p, T) && Next(w, e).lastTick + TICK_US <= T
  {
    hide Inv, Create, Select, Requeue, Dequeue;
    StepWellFormed(w, e);
    if Selects(w, e) {
      BeforeAtHead(w, e, p, T);
      SelectAtHead(Before(w, e), p, T, LastRead(w, e));
      if e.CallKill? {
        if T >= LastRead(w, e) + TICK_US {
          KillLeavesHead(w, e, p, T);
        }
      }
    } else if e.CallCreate? {
      CreateLeavesAsleep(w, e, p);
    }
  }

  lemma BeforeAtHead(w: World, e: Event, p: nat, T: nat)
    requires Inv(w) && Enabled(w, e) && AtHead(w.k, p, T) && Undisturbed(e, p, T) && Selects(w, e)
    ensures AtHead(Before(w, e), p, T)
  {
  }

  lemma KillLeavesHead(w: World, e: Event, p: nat, T: nat)
    requires Inv(w) && Enabled(w, e) && e.CallKill? && e.victim != p
    requires WellFormed(Select(Before(w, e), e.t).0) && AtHead(Select(Before(w, e), e.t).0, p, T)
    ensures WellFormed(Next(w, e).k) && AtHead(Next(w, e).k, p, T)
  {
    StepWellFormed(w, e);
    hide Inv, Select;
  }

  /** While p heads the time queue for T, systicks are prompt and nobody disturbs it. */
  ghost predicate Awaited(w: World, e: Event, p: nat, T: nat, P: nat)
  {
    WellFormed(w.k) && AtHead(w.k, p, T) ==> Prompt(w, e, P) && Undisturbed(e, p, T)
  }

  lemma {:induction false} DeadlineFrom(ws: seq<World>, es: seq<Event>, a: nat, b: nat, p: nat, T: nat, P: nat)
      returns (j: nat)
    requires IsRun(ws, es) && Inv(ws[0]) && a <= b < |ws|
    requires WellFormed(ws[a].k) && AtHead(ws[a].k, p, T)
    requires ws[a].lastTick + TICK_US <= T && ws[a].clock <= T + P - TICK_US < ws[b].clock
    requires forall i :: a <= i < b ==> Awaited(ws[i], es[i], p, T, P)
    ensures a <= j < b && Picks(ws[j], es[j], p) && T < LastRead(ws[j], es[j]) + TICK_US
    ensures LastRead(ws[j], es[j]) <= T + P - TICK_US
    decreases b - a
  {
    ReachableInv(ws, es, a);
    DeadlineStep(ws[a], es[a], p, T, P);
    if Selects(ws[a], es[a]) && T < LastRead(ws[a], es[a]) + TICK_US {
      j := a;
    } else {
      assert ws[a + 1] == Next(ws[a], es[a]);
      j := DeadlineFrom(ws, es, a + 1, b, p, T, P);
    }
  }

  /** The deadline: with systicks prompt by P, a task that heads the time queue a systick period or
      more ahead of its wake time T, and while it does is neither killed nor overtaken by an earlier
      wake time, is selected later than T - 1000 us and no later than T + P - 1000 us, once the clock
      has passed that. For P up to 1000 us that is no later than T. */
  lemma Deadline(ws: seq<World>, es: seq<Event>, a: nat, b: nat, p: nat, P: nat)
    requires IsRun(ws, es) && Inv(ws[0]) && a <= b < |ws| && WellFormed(ws[a].k)
    requires ws[a].k.timeQ != [] && ws[a].k.timeQ[0] == p
    requires ws[a].clock + TICK_US <= ws[a].k.tasks[p].nextRun
    requires ws[a].k.tasks[p].nextRun + P - TICK_US < ws[b].clock
    requires forall i :: a <= i < b ==> Awaited(ws[i], es[i], p, ws[a].k.tasks[p].nextRun, P)
    ensures exists j :: a <= j < b && Picks(ws[j], es[j], p)
              && ws[a].k.tasks[p].nextRun < LastRead(ws[j], es[j]) + TICK_US
              && LastRead(ws[j], es[j]) <= ws[a].k.tasks[p].nextRun + P - TICK_US
  {
    ReachableInv(ws, es, a);
    var j := DeadlineFrom(ws, es, a, b, p, ws[a].k.tasks[p].nextRun, P);
  }

  // ---- the backlog -------------------------------------------------------------------------

  /** p is at the given position of the time queue, and neither it nor anything ahead of it is to wake
      after M. */
  ghost predicate InLine(k: Kernel, M: nat, p: nat, pos: nat)
    requires WellFormed(k)
  {
    && pos < |k.timeQ| && k.timeQ[pos] == p
    && forall i :: 0 <= i <= pos ==> k.tasks[k.timeQ[i]].nextRun <= M
  }

  ghost predicate InLineUpTo(k: Kernel, M: nat, p: nat, pos: int)
    requires WellFormed(k)
  {
    exists i: nat :: i <= pos && InLine(k, M, p, i)
  }

  /** Nobody kills p, and nobody is inserted at or before its position. */
  predicate BehindOnly(w: World, e: Event, p: nat)
    requires WellFormed(w.k)
  {
    && (e.CallKill? && p in w.k.timeQ ==> e.victim != p)
    && (e.CallSleep? && e.wake != 0 ==> p !in w.k.timeQ[Slot(w.k, e.wake, e.answer)..])
  }

  /** A selection that happens late enough for all of the line takes its first member. */
  function Shorter(M: nat, now: nat, pos: nat): int
  {
    if M < now + TICK_US then pos - 1 else pos
  }

  lemma LineSelect(k: Kernel, live: set<nat>, M: nat, p: nat, pos: nat, now: nat)
    requires WellFormed(k) && k.ring != [] && Partition(k, live) && InLine(k, M, p, pos)
    ensures var k' := Select(k, now).0;
      && WellFormed(k') && Partition(k', live)
      && (Select(k, now).1 == p || InLineUpTo(k', M, p, Shorter(M, now, pos)))
  {
    hide Partition, InLine;
    SelectPartition(k, live, now);
    var k' := Select(k, now).0;
    LineMoves(k, live, M, p, pos, now);
    if !HeadDue(k, now) {
      assert InLine(k', M, p, pos);
    } else if pos > 0 {
      var ahead: nat := pos - 1;
      assert InLine(k', M, p, ahead);
    }
  }

  lemma LineMoves(k: Kernel, live: set<nat>, M: nat, p: nat, pos: nat, now: nat)
    requires WellFormed(k) && k.ring != [] && Partition(k, live) && InLine(k, M, p, pos)
    requires WellFormed(Select(k, now).0)
    ensures M < now + TICK_US ==> HeadDue(k, now)
    ensures HeadDue(k, now) && pos == 0 ==> Select(k, now).1 == p
    ensures !HeadDue(k, now) ==> InLine(Select(k, now).0, M, p, pos)
    ensures HeadDue(k, now) && pos > 0 ==> InLine(Select(k, now).0, M, p, pos - 1)
  {
    Exclusive(k, live, k.timeQ[0]);
    if HeadDue(k, now) && pos > 0 {
      HeadOnlyOnce(k.timeQ);
      hide Partition;
    }
  }

  lemma HeadOnlyOnce(s: seq<nat>)
    requires s != [] && multiset(s)[s[0]] <= 1
    ensures forall i :: 0 < i < |s| ==> s[i] != s[0]
  {
    forall i | 0 < i < |s| ensures s[i] != s[0] {
      if s[i] == s[0] {
        TwiceInMultiset(s, 0, i);
      }
    }
  }

  /** Taking somebody else out moves p at most towards the head. */
  lemma {:induction false} WithoutPosition(s: seq<nat>, x: nat, pos: nat)
    requires pos < |s| && s[pos] != x
    ensures exists i: nat :: i <= pos && i < |Without(s, x)| && Without(s, x)[i] == s[pos]
              && (forall a :: 0 <= a < i ==> Without(s, x)[a] in s[..pos])
  {
    if s[0] == x {
      assert Without(s, x)[pos - 1] == s[pos];
      forall a | 0 <= a < pos - 1 ensures Without(s, x)[a] in s[..pos] {
        assert s[..pos][a + 1] == s[a + 1];
      }
    } else if pos == 0 {
      assert Without(s, x)[0] == s[0];
    } else {
      WithoutPosition(s[1..], x, pos - 1);
      var t := Without(s[1..], x);
      var i: nat :| i <= pos - 1 && i < |t| && t[i] == s[1..][pos - 1]
              && (forall a :: 0 <= a < i ==> t[a] in s[1..][..pos - 1]);
      assert Without(s, x)[i + 1] == s[pos];
      forall a | 0 <= a < i + 1 ensures Without(s, x)[a] in s[..pos] {
        if a > 0 {
          assert Without(s, x)[a] == t[a - 1] && s[..pos] == [s[0]] + s[1..][..pos - 1];
        } else {
          assert s[..pos][0] == s[0];
        }
      }
    }
  }

  lemma LineDequeue(k: Kernel, victim: nat, M: nat, p: nat, pos: nat)
    requires WellFormed(k) && InLine(k, M, p, pos) && victim < MAX_TASKS && victim != p
    ensures WellFormed(Dequeue(k, victim)) && InLineUpTo(Dequeue(k, victim), M, p, pos)
  {
    DequeueWellFormed(k, victim);
    if k.tasks[victim].nextRun != 0 {
      var s := k.timeQ;
      WithoutPosition(s, victim, pos);
      var i: nat :| i <= pos && i < |Without(s, victim)| && Without(s, victim)[i] == s[pos]
              && (forall a :: 0 <= a < i ==> Without(s, victim)[a] in s[..pos]);
      assert InLine(Dequeue(k, victim), M, p, i);
    } else {
      assert InLine(Dequeue(k, victim), M, p, pos);
    }
  }

  lemma LineChoice(k: Kernel, live: set<nat>, M: nat, p: nat, pos: nat, now: nat)
    requires WellFormed(k) && k.ring != [] && Numbered(k) && Partition(k, live) && InLine(k, M, p, pos)
    ensures WellFormed(SelectAndQueue(k, now))
    ensures Select(k, now).1 == p || InLineUpTo(SelectAndQueue(k, now), M, p, Shorter(M, now, pos))
  {
    LineSelect(k, live, M, p, pos, now);
    SelectPartition(k, live, now);
    hide Partition, Numbered, Select;
    if Select(k, now).1 != p {
      var i: nat :| i <= Shorter(M, now, pos) && InLine(Select(k, now).0, M, p, i);
      assert InLine(SelectAndQueue(k, now), M, p, i);
    }
  }

  lemma LineSleep(w: World, e: Event, M: nat, p: nat, pos: nat)
    requires Inv(w) && Enabled(w, e) && e.CallSleep? && InLine(w.k, M, p, pos) && BehindOnly(w, e, p)
    ensures InLine(Before(w, e), M, p, pos)
  {
  }

  lemma LineKill(k: Kernel, live: set<nat>, victim: nat, M: nat, p: nat, pos: nat, now: nat)
    requires Sound(k, live) && victim in live && victim != SPIN && victim != p && InLine(k, M, p, pos)
    ensures WellFormed(Kill(k, victim, now))
    ensures Select(Marked(k, victim), now).1 == p
            || InLineUpTo(Kill(k, victim, now), M, p, Shorter(M, now, pos))
  {
    hide Select, Dequeue, SingleRunner;
    assert WellFormed(Kill(k, victim, now)) by {
      KillKeeps(k, live, victim, now);
    }
    assert Partition(Marked(k, victim), live);
    LineSelect(Marked(k, victim), live, M, p, pos, now);
    var (k2, q) := Select(Marked(k, victim), now);
    if q != p {
      var h: nat :| h <= Shorter(M, now, pos) && InLine(k2, M, p, h);
      LineDequeue(k2, victim, M, p, h);
      var i: nat :| i <= h && InLine(Dequeue(k2, victim), M, p, i);
      assert InLine(Kill(k, victim, now), M, p, i);
    }
  }

  /** Every selection late enough brings p one place closer or picks it, and every systick late enough
      selects. */
  lemma LineStep(w: World, e: Event, M: nat, p: nat, pos: nat)
    requires Inv(w) && Enabled(w, e) && InLine(w.k, M, p, pos) && BehindOnly(w, e, p)
    ensures WellFormed(Next(w, e).k)
    ensures e.Tick? && M < e.t2 + TICK_US ==> Selects(w, e)
    ensures Picks(w, e, p)
         || InLineUpTo(Next(w, e).k, M, p, if Selects(w, e) then Shorter(M, LastRead(w, e), pos) else pos)
  {
    StepWellFormed(w, e);
    if Selects(w, e) {
      LineAdvances(w, e, M, p, pos);
    } else {
      LineWaits(w, e, M, p, pos);
      assert InLine(Next(w, e).k, M, p, pos);
    }
  }

  lemma LineWaits(w: World, e: Event, M: nat, p: nat, pos: nat)
    requires Inv(w) && Enabled(w, e) && InLine(w.k, M, p, pos) && !Selects(w, e) && WellFormed(Next(w, e).k)
    ensures InLine(Next(w, e).k, M, p, pos)
    ensures e.Tick? ==> M >= e.t2 + TICK_US
  {
    if e.CallCreate? {
      CreateShape(w.k, e.args, e.sp, e.answer);
      forall i | 0 <= i <= pos ensures Next(w, e).k.tasks[w.k.timeQ[i]] == w.k.tasks[w.k.timeQ[i]] {
        CreateLeavesAsleep(w, e, w.k.timeQ[i]);
      }
    }
  }

  lemma LineAdvances(w: World, e: Event, M: nat, p: nat, pos: nat)
    requires Inv(w) && Enabled(w, e) && InLine(w.k, M, p, pos) && BehindOnly(w, e, p)
    requires WellFormed(Next(w, e).k) && Selects(w, e)
    ensures Picks(w, e, p) || InLineUpTo(Next(w, e).k, M, p, Shorter(M, LastRead(w, e), pos))
  {
    BeforeIsSound(w, e);
    match e
    case CallYield(t) => LineChoice(w.k, w.live, M, p, pos, t);
    case CallSleep(wake, t, answer) =>
      LineSleep(w, e, M, p, pos);
      LineChoice(Before(w, e), w.live, M, p, pos, t);
    case CallKill(v, t) => LineKill(w.k, w.live, v, M, p, pos, t);
    case Tick(_, _, t3) => LineChoice(w.k, w.live, M, p, pos, t3);
    case _ =>
  }

  function Ticks(es: seq<Event>, a: nat, b: nat): nat
    requires a <= b <= |es|
    decreases b - a
  {
    if a == b then 0 else (if es[a].Tick? then 1 else 0) + Ticks(es, a + 1, b)
  }

  lemma {:induction false} BacklogFrom(ws: seq<World>, es: seq<Event>, a: nat, b: nat, M: nat, p: nat, pos: nat)
      returns (j: nat)
    requires IsRun(ws, es) && Inv(ws[0]) && a <= b < |ws|
    requires WellFormed(ws[a].k) && InLineUpTo(ws[a].k, M, p, pos) && M < ws[a].clock + TICK_US
    requires forall i :: a <= i < b ==> WellFormed(ws[i].k) && BehindOnly(ws[i], es[i], p)
    requires Ticks(es, a, b) >= pos + 1
    ensures a <= j < b && Picks(ws[j], es[j], p)
    decreases b - a
  {
    hide Inv, NextKernel, InLine, Selects, BehindOnly;
    ReachableInv(ws, es, a);
    var i: nat :| i <= pos && InLine(ws[a].k, M, p, i);
    LineStep(ws[a], es[a], M, p, i);
    if Picks(ws[a], es[a], p) {
      j := a;
    } else {
      assert ws[a + 1] == Next(ws[a], es[a]);
      j := BacklogFrom(ws, es, a + 1, b, M, p, if es[a].Tick? then pos - 1 else pos);
    }
  }

  /** The backlog: once a task at position pos and all ahead of it are due, and nobody kills it or is
      inserted ahead of it, pos + 1 systicks are enough for it to be selected. */
  lemma Backlog(ws: seq<World>, es: seq<Event>, a: nat, b: nat, pos: nat)
    requires IsRun(ws, es) && Inv(ws[0]) && a <= b < |ws| && WellFormed(ws[a].k)
    requires pos < |ws[a].k.timeQ|
    requires forall i :: 0 <= i <= pos ==> ws[a].k.tasks[ws[a].k.timeQ[i]].nextRun < ws[a].clock + TICK_US
    requires forall i :: a <= i < b ==>
               WellFormed(ws[i].k) && BehindOnly(ws[i], es[i], ws[a].k.timeQ[pos])
    requires Ticks(es, a, b) >= pos + 1
    ensures exists j :: a <= j < b && Picks(ws[j], es[j], ws[a].k.timeQ[pos])
  {
    var M := ws[a].clock + TICK_US - 1;
    assert InLine(ws[a].k, M, ws[a].k.timeQ[pos], pos);
    var j := BacklogFrom(ws, es, a, b, M, ws[a].k.timeQ[pos], pos);
  }

  /** While p sleeps, systicks are prompt, nobody kills it and nobody gets ahead of it. */
  predicate LeftToWait(w: World, e: Event, p: nat, P: nat)
  {
    WellFormed(w.k) && BehindOnly(w, e, p) && (p in w.k.timeQ ==> Prompt(w, e, P))
  }

  /** L bounds the latest systick as long as the line has pos + 1 members. */
  lemma {:induction false} LineFrom(ws: seq<World>, es: seq<Event>, a: nat, b: nat, M: nat, p: nat, pos: nat, P: nat,
                                    L: nat) returns (j: nat)
    requires IsRun(ws, es) && Inv(ws[0]) && a <= b < |ws|
    requires WellFormed(ws[a].k) && InLineUpTo(ws[a].k, M, p, pos)
    requires forall i :: a <= i < b ==> LeftToWait(ws[i], es[i], p, P)
    requires M <= L + TICK_US && ws[a].lastTick <= L && ws[a].clock <= L + P
    requires ws[b].clock > L + (pos + 1) * P
    ensures a <= j < b && Picks(ws[j], es[j], p) && LastRead(ws[j], es[j]) <= L + (pos + 1) * P
    decreases b - a
  {
    hide Inv, NextKernel, InLine, Selects, BehindOnly, Selected;
    ReachableInv(ws, es, a);
    assert (pos + 1) * P == pos * P + P >= P;
    var i: nat :| i <= pos && InLine(ws[a].k, M, p, i);
    InLineAsleep(ws[a].k, M, p, i);
    LineStep(ws[a], es[a], M, p, i);
    if Picks(ws[a], es[a], p) {
      j := a;
    } else {
      assert ws[a + 1] == Next(ws[a], es[a]);
      if es[a].Tick? && M < es[a].t2 + TICK_US {
        j := LineFrom(ws, es, a + 1, b, M, p, pos - 1, P, L + P);
      } else {
        j := LineFrom(ws, es, a + 1, b, M, p, pos, P, L);
      }
    }
  }

  lemma InLineAsleep(k: Kernel, M: nat, p: nat, pos: nat)
    requires WellFormed(k) && InLine(k, M, p, pos)
    ensures p in k.timeQ
  {
  }

  /** A systick period before M, or the latest systick if that is later. */
  function LineStart(w: World, M: nat): nat
  {
    if w.lastTick + TICK_US < M then M - TICK_US else w.lastTick
  }

  /** How late a sleeper can be, wherever it stands: if it and all ahead of it are to wake by M, nobody
      kills it and nobody gets ahead of it, and systicks are prompt by P, it is selected within pos + 1
      times P of M - 1000 us, or of the latest systick if that is later. */
  lemma SleeperBound(ws: seq<World>, es: seq<Event>, a: nat, b: nat, pos: nat, M: nat, P: nat)
    requires IsRun(ws, es) && Inv(ws[0]) && a < b < |ws| && WellFormed(ws[a].k)
    requires pos < |ws[a].k.timeQ|
    requires forall i :: 0 <= i <= pos ==> ws[a].k.tasks[ws[a].k.timeQ[i]].nextRun <= M
    requires forall i :: a <= i < b ==> LeftToWait(ws[i], es[i], ws[a].k.timeQ[pos], P)
    requires ws[b].clock > LineStart(ws[a], M) + (pos + 1) * P
    ensures exists j :: a <= j < b && Picks(ws[j], es[j], ws[a].k.timeQ[pos])
              && LastRead(ws[j], es[j]) <= LineStart(ws[a], M) + (pos + 1) * P
  {
    var p := ws[a].k.timeQ[pos];
    assert InLine(ws[a].k, M, p, pos) && LeftToWait(ws[a], es[a], p, P);
    var j := LineFrom(ws, es, a, b, M, p, pos, P, LineStart(ws[a], M));
  }
}
