/** The bound on how long a task that never blocks keeps the core, and the handover itself. */
module Slices {
  import opened Sequences
  import opened Scheduler
  import opened Runs
  import opened Boot
  import opened RealTime

  /** While r is on the core, systicks are prompt, it neither sleeps nor dies, and it has company in
      the ring. */
  predicate Greedy(w: World, e: Event, r: nat, P: nat)
  {
    w.k.running == r ==>
      Prompt(w, e, P) && !e.CallSleep? && (e.CallKill? ==> e.victim != r) && |w.k.ring| >= 2
  }

  predicate Leads(k: Kernel, r: nat)
  {
    k.ring != [] && k.ring[0] == r
  }

  /** r has been on the core since c and nobody else has been chosen: either its slice is not over,
      or the ring has come round to r itself once. */
  predicate HoldsCore(w: World, r: nat, c: nat, P: nat)
    requires WellFormed(w.k)
  {
    && w.k.running == r && w.k.tasks[r].ctxSwitch == c && !w.k.pending && !w.entered
    && w.clock <= c + SLICE_US + 2 * P
    && (w.lastTick <= c + SLICE_US || (Leads(w.k, r) && w.lastTick <= c + SLICE_US + P))
  }

  /** Another task has been chosen in time. */
  predicate GivesUpCore(w: World, r: nat, c: nat, P: nat)
  {
    w.k.running == r && w.k.queued != r && w.clock <= c + SLICE_US + 2 * P
  }

  /** A selection by the ring rule lands on the head's successor. If that is r, r is the new head; if
      r was the head, it is somebody else. */
  lemma RingChoice(k: Kernel, live: set<nat>, r: nat, now: nat)
    requires Sound(k, live) && |k.ring| >= 2 && (r in k.ring || r !in live)
    ensures k.ring[0] == r ==> Select(k, now).1 != r
    ensures Select(k, now).1 == r ==> Select(k, now).0.ring[0] == r
  {
    Exclusive(k, live, r);
    Exclusive(k, live, Select(k, now).1);
    if k.ring[0] == r == k.ring[1] {
      TwiceInMultiset(k.ring, 0, 1);
    }
  }

  lemma SliceChoice(w: World, e: Event, r: nat, c: nat, P: nat)
    requires Inv(w) && Enabled(w, e) && HoldsCore(w, r, c, P) && Greedy(w, e, r, P)
    requires Selects(w, e)
    ensures Selected(w, e) == Next(w, e).k.queued && Next(w, e).k.running == r
    ensures Next(w, e).k.pending <==> Next(w, e).k.queued != r
    ensures w.k.ring[0] == r ==> Next(w, e).k.queued != r
    ensures Next(w, e).k.queued == r ==> Leads(Next(w, e).k, r)
    ensures Next(w, e).k.tasks[r].ctxSwitch == c
  {
    if w.k.running in w.live {
      RunningInRing(w);
    }
    match e
    case CallYield(t) =>
      ChoosingKeeps(w.k, w.live, t);
      RingChoice(w.k, w.live, r, t);
    case CallKill(v, t) => SliceKill(w, e, r);
    case Tick(_, _, t3) =>
      ChoosingKeeps(w.k, w.live, t3);
      RingChoice(w.k, w.live, r, t3);
    case _ =>
  }

  lemma SliceKill(w: World, e: Event, r: nat)
    requires Inv(w) && Enabled(w, e) && e.CallKill? && e.victim != r && r == w.k.running && |w.k.ring| >= 2
    requires r in w.k.ring || r !in w.live
    ensures Selected(w, e) == Next(w, e).k.queued && Next(w, e).k.running == r
    ensures Next(w, e).k.pending <==> Next(w, e).k.queued != r
    ensures w.k.ring[0] == r ==> Next(w, e).k.queued != r
    ensures Next(w, e).k.queued == r ==> Leads(Next(w, e).k, r)
    ensures Next(w, e).k.tasks[r].ctxSwitch == w.k.tasks[r].ctxSwitch
  {
    hide Partition, SingleRunner, Handshake;
    KillKeeps(w.k, w.live, e.victim, e.t);
    KillIsChosen(w.k, w.live, e.victim, e.t);
    MarkedIsSound(w.k, w.live, e.victim);
    RingChoice(Marked(w.k, e.victim), w.live, r, e.t);
  }

  /** One step of a task that holds the core: it still does, or another task has been chosen. */
  lemma SliceStep(w: World, e: Event, r: nat, c: nat, P: nat)
    requires Inv(w) && Enabled(w, e) && HoldsCore(w, r, c, P) && Greedy(w, e, r, P)
    ensures WellFormed(Next(w, e).k)
    ensures HoldsCore(Next(w, e), r, c, P)
         || (GivesUpCore(Next(w, e), r, c, P) && Selects(w, e) && Selected(w, e) == Next(w, e).k.queued)
  {
    StepWellFormed(w, e);
    if Selects(w, e) {
      SliceChoice(w, e, r, c, P);
      hide Inv, NextKernel, Selected;
      assert e.Tick? ==> e.t1 <= LastRead(w, e);
    } else if e.CallCreate? {
      CreateShape(w.k, e.args, e.sp, e.answer);
    }
  }

  lemma {:induction false} SliceFrom(ws: seq<World>, es: seq<Event>, a: nat, b: nat, r: nat, c: nat, P: nat)
      returns (j: nat)
    requires IsRun(ws, es) && Inv(ws[0]) && a <= b < |ws| && WellFormed(ws[a].k) && HoldsCore(ws[a], r, c, P)
    requires forall i :: a <= i < b ==> Greedy(ws[i], es[i], r, P)
    requires ws[b].clock > c + SLICE_US + 2 * P
    ensures a <= j < b && Selects(ws[j], es[j]) && Selected(ws[j], es[j]) != r == ws[j].k.running
    ensures LastRead(ws[j], es[j]) <= c + SLICE_US + 2 * P
    decreases b - a
  {
    hide Inv, Enabled, NextKernel, Prompt, Selects, Selected;
    ReachableInv(ws, es, a);
    SliceStep(ws[a], es[a], r, c, P);
    assert ws[a + 1] == Next(ws[a], es[a]);
    if HoldsCore(ws[a + 1], r, c, P) {
      j := SliceFrom(ws, es, a + 1, b, r, c, P);
    } else {
      j := a;
    }
  }

  /** The slice bound: while a task that was switched to at c and is on the core never sleeps or dies and
      always has company in the ring, with systicks prompt by P somebody else is selected by
      c + 6000 us + 2P, which is c + 8000 us for P of 1000 us. */
  lemma SliceBound(ws: seq<World>, es: seq<Event>, a: nat, b: nat, c: nat, P: nat)
    requires IsRun(ws, es) && Inv(ws[0]) && a <= b < |ws| && WellFormed(ws[a].k)
    requires !ws[a].k.pending && !ws[a].entered && ws[a].clock == c
    requires ws[a].k.tasks[ws[a].k.running].ctxSwitch == c
    requires forall i :: a <= i < b ==> Greedy(ws[i], es[i], ws[a].k.running, P)
    requires ws[b].clock > c + 6000 + 2 * P
    ensures exists j :: a <= j < b && Selects(ws[j], es[j]) && ws[j].k.running == ws[a].k.running
              && Selected(ws[j], es[j]) != ws[a].k.running
              && LastRead(ws[j], es[j]) <= c + 6000 + 2 * P
  {
    ReachableInv(ws, es, a);
    var j := SliceFrom(ws, es, a, b, ws[a].k.running, c, P);
  }

  // ---- the handover ------------------------------------------------------------------------

  /** A selection queues the task it returns; nothing else changes the queued task. Only a kill leaves
      its mark on the choice, and without a selection PendSV does not get on its way. */
  lemma QueuedStep(w: World, e: Event)
    requires Inv(w) && Enabled(w, e)
    ensures var w' := Next(w, e);
      if Selects(w, e) then
        && w'.k.queued == Selected(w, e)
        && w'.choice == if e.CallKill? then ByKillOf(e.victim) else Ordinary
      else
        w'.k.queued == w.k.queued && w'.choice == w.choice
        && (w'.k.pending || w'.entered ==> w.k.pending || w.entered)
  {
    if e.CallKill? {
      KillIsChosen(w.k, w.live, e.victim, e.t);
    } else if e.CallCreate? {
      CreateShape(w.k, e.args, e.sp, e.answer);
    } else if Selects(w, e) {
      BeforeIsChosen(w, e);
    }
  }

  lemma BeforeIsChosen(w: World, e: Event)
    requires Inv(w) && Enabled(w, e) && Selects(w, e) && !e.CallKill?
    ensures Next(w, e).k.queued == Selected(w, e)
  {
    hide Inv, Partition, Select;
    BeforeIsSound(w, e);
    SelectedIsNumbered(Before(w, e), w.live, LastRead(w, e));
  }

  lemma SelectedIsNumbered(k: Kernel, live: set<nat>, now: nat)
    requires WellFormed(k) && k.ring != [] && Numbered(k) && Partition(k, live)
    ensures SelectAndQueue(k, now).queued == Select(k, now).1
  {
    SelectPartition(k, live, now);
  }

  lemma KillIsChosen(k: Kernel, live: set<nat>, victim: nat, now: nat)
    requires Sound(k, live) && victim in live
    ensures victim < MAX_TASKS && Kill(k, victim, now).queued == Select(Marked(k, victim), now).1
  {
    assert Created(k, victim);
    MarkedIsSound(k, live, victim);
    SelectPartition(Marked(k, victim), live, now);
    hide Partition, SingleRunner, Select;
  }

  /** Event j made the last selection before state i, and chose the task queued there. */
  ghost predicate ChosenBy(ws: seq<World>, es: seq<Event>, i: nat, j: nat)
    requires IsRun(ws, es) && i < |ws|
  {
    && j < i && Selects(ws[j], es[j]) && Selected(ws[j], es[j]) == ws[i].k.queued
    && forall m :: j < m < i ==> !Selects(ws[m], es[m])
  }

  /** Nothing was selected before state i. */
  ghost predicate Unchosen(ws: seq<World>, es: seq<Event>, i: nat)
    requires IsRun(ws, es) && i < |ws|
  {
    forall m :: 0 <= m < i ==> !Selects(ws[m], es[m])
  }

  /** At any point of a run the queued task is the one selected last, or the one queued from the
      beginning if nothing was selected yet. */
  lemma {:induction false} LastSelection(ws: seq<World>, es: seq<Event>, i: nat)
    requires IsRun(ws, es) && Inv(ws[0]) && i < |ws|
    ensures (exists j: nat :: ChosenBy(ws, es, i, j))
         || (Unchosen(ws, es, i) && ws[i].k.queued == ws[0].k.queued && ws[i].choice == ws[0].choice
             && (ws[i].k.pending || ws[i].entered ==> ws[0].k.pending || ws[0].entered))
  {
    hide Inv, Enabled, Next, Selects, Selected;
    if i > 0 {
      var h: nat := i - 1;
      ReachableInv(ws, es, h);
      QueuedStep(ws[h], es[h]);
      if Selects(ws[h], es[h]) {
        assert ChosenBy(ws, es, i, h);
      } else {
        LastSelection(ws, es, h);
        if exists j: nat :: ChosenBy(ws, es, h, j) {
          var j: nat :| ChosenBy(ws, es, h, j);
          assert ChosenBy(ws, es, i, j);
        }
      }
    }
  }

  /** The choice recorded is the one of the last selection. */
  lemma {:induction false} ChoiceSince(ws: seq<World>, es: seq<Event>, i: nat, j: nat)
    requires IsRun(ws, es) && Inv(ws[0]) && j < i < |ws| && Selects(ws[j], es[j])
    requires forall m :: j < m < i ==> !Selects(ws[m], es[m])
    ensures ws[i].choice == if es[j].CallKill? then ByKillOf(es[j].victim) else Ordinary
  {
    hide Inv, Enabled, Next, Selects, Selected;
    ReachableInv(ws, es, i - 1);
    QueuedStep(ws[i - 1], es[i - 1]);
    if j < i - 1 {
      ChoiceSince(ws, es, i - 1, j);
    }
  }

  /** The handshake, for every run from the start: whenever thread code runs, the task on the core is
      the one selected last, or the spin task if nothing was selected yet. It is in the ring with a
      nil wake time, except exactly when the last selection was made by a kill and chose that kill's
      victim. A task that is queued and not running has PendSV on its way, and somebody is always there
      to run next. */
  lemma ThreadRunsSelected(cs: seq<Creation>, now: nat, ws: seq<World>, es: seq<Event>, i: nat)
    requires 0 < |cs| < MAX_TASKS && IsRun(ws, es) && ws[0] == Started(cs, now) && i < |ws|
    ensures WellFormed(ws[i].k) && SPIN in ws[i].k.ring
    ensures ws[i].k.queued != ws[i].k.running ==> ws[i].k.pending || ws[i].entered
    ensures InThread(ws[i]) ==> ws[i].k.running == ws[i].k.queued
    ensures (exists j: nat :: ChosenBy(ws, es, i, j))
         || (Unchosen(ws, es, i) && ws[i].k.queued == SPIN && !ws[i].k.pending && !ws[i].entered)
    ensures InThread(ws[i]) && ws[i].k.running in ws[i].k.ring ==> ws[i].k.tasks[ws[i].k.running].nextRun == 0
    ensures InThread(ws[i]) ==>
              (ws[i].k.running !in ws[i].k.ring <==>
               exists j: nat :: ChosenBy(ws, es, i, j) && es[j].CallKill? && es[j].victim == ws[i].k.running)
  {
    hide Enabled, Inv, Selects, Selected, Next, Started;
    StartedInv(cs, now);
    StartedIdle(cs, now);
    ReachableInv(ws, es, i);
    LastSelection(ws, es, i);
    HandshakeIs(ws[i]);
    forall j: nat | ChosenBy(ws, es, i, j)
      ensures ws[i].choice == if es[j].CallKill? then ByKillOf(es[j].victim) else Ordinary
    {
      ChoiceSince(ws, es, i, j);
    }
  }

  lemma StartedIdle(cs: seq<Creation>, now: nat)
    requires 0 < |cs| < MAX_TASKS
    ensures var w := Started(cs, now); w.k.queued == SPIN && !w.k.pending && !w.entered && w.choice == Ordinary
  {
    BootOrder(cs);
  }

  /** The invariant's account of who is queued and where. */
  lemma HandshakeIs(w: World)
    requires Inv(w)
    ensures WellFormed(w.k) && SPIN in w.k.ring && (w.k.queued != w.k.running ==> w.k.pending || w.entered)
    ensures InThread(w) ==> w.k.running == w.k.queued
    ensures w.k.queued in w.k.ring <==> w.choice != ByKillOf(w.k.queued)
    ensures w.k.queued in w.k.ring ==> w.k.tasks[w.k.queued].nextRun == 0
  {
    Exclusive(w.k, w.live, w.k.queued);
  }

  // ---- from the selection to the switch ----------------------------------------------------

  /** PendSV is pending or entered, and will be handled before any thread code runs. */
  predicate OnTheWay(w: World)
  {
    (w.k.pending || w.entered) && !w.k.masked
  }

  lemma OnTheWayStep(w: World, e: Event)
    requires Inv(w) && Enabled(w, e)
    requires (OnTheWay(w) && !e.Switch?) || (Selects(w, e) && Selected(w, e) != w.k.running)
    ensures OnTheWay(Next(w, e)) && Next(w, e).k.running == w.k.running
  {
    if Selects(w, e) {
      QueuedStep(w, e);
      StepKeeps(w, e);
      QuietStep(w, e);
      UnmaskedStays(w, e);
      hide Sound, Timed, NextKernel, Selected;
    }
  }

  lemma UnmaskedStays(w: World, e: Event)
    requires Inv(w) && Enabled(w, e) && !e.Switch?
    ensures Next(w, e).k.masked == w.k.masked
  {
    hide Inv;
  }

  /** Once a task other than the one on the core is selected, nothing but systicks and PendSV happens,
      and the task on the core stays there, until PendSV's C half. */
  lemma {:induction false} NoThreadBefore(ws: seq<World>, es: seq<Event>, j: nat, i: nat)
    requires IsRun(ws, es) && Inv(ws[0]) && j < i < |ws|
    requires Selects(ws[j], es[j]) && Selected(ws[j], es[j]) != ws[j].k.running
    requires forall m :: j < m < i ==> !es[m].Switch?
    ensures OnTheWay(ws[i]) && ws[i].k.running == ws[j].k.running
    ensures i < |es| ==> es[i].Tick? || es[i].Enter? || es[i].Switch?
  {
    hide Inv, Enabled, Next, Selects, Selected;
    var h: nat := i - 1;
    ReachableInv(ws, es, h);
    if j < h {
      NoThreadBefore(ws, es, j, h);
    }
    OnTheWayStep(ws[h], es[h]);
    assert ws[i] == Next(ws[h], es[h]);
    if i < |es| {
      OnTheWayOnly(ws[i], es[i]);
    }
  }

  lemma OnTheWayOnly(w: World, e: Event)
    requires OnTheWay(w) && Enabled(w, e)
    ensures e.Tick? || e.Enter? || e.Switch?
  {
  }

  /** PendSV's C half leaves the queued task on the core: either it switched to it, or the task was there
      already, and then interrupts stay masked. */
  lemma SwitchRunsQueued(w: World, e: Event)
    requires Inv(w) && Enabled(w, e) && e.Switch?
    ensures Next(w, e).k.running == w.k.queued
    ensures !Switches(w, e) <==> w.k.queued == w.k.running
    ensures Next(w, e).k.masked <==> !Switches(w, e)
    ensures !Switches(w, e) ==> Next(w, e).k == w.k.(masked := true)
  {
  }

  /** What becomes of the task on the core when somebody else was selected: the next PendSV puts the task
      of the last selection before it on the core. So it is replaced exactly when that selection did not
      come back to it, and if it did, interrupts stay masked. */
  lemma Replacement(ws: seq<World>, es: seq<Event>, j: nat, i: nat)
    requires IsRun(ws, es) && Inv(ws[0]) && j < i < |es|
    requires Selects(ws[j], es[j]) && Selected(ws[j], es[j]) != ws[j].k.running
    requires es[i].Switch? && forall m :: j < m < i ==> !es[m].Switch?
    ensures exists m: nat :: j <= m && ChosenBy(ws, es, i, m) && ws[i + 1].k.running == Selected(ws[m], es[m])
    ensures ws[i + 1].k.running != ws[j].k.running <==>
            exists m: nat :: ChosenBy(ws, es, i, m) && Selected(ws[m], es[m]) != ws[j].k.running
    ensures ws[i + 1].k.masked <==> ws[i + 1].k.running == ws[j].k.running
  {
    hide Inv, Enabled, Next, Selects, Selected, Switches;
    NoThreadBefore(ws, es, j, i);
    LastSelection(ws, es, i);
    ReachableInv(ws, es, i);
    SwitchRunsQueued(ws[i], es[i]);
    assert ws[i + 1] == Next(ws[i], es[i]);
  }

  /** It is enough that no systick selects on the way. */
  lemma ReplacedAtOnce(ws: seq<World>, es: seq<Event>, j: nat, i: nat)
    requires IsRun(ws, es) && Inv(ws[0]) && j < i < |es|
    requires Selects(ws[j], es[j]) && Selected(ws[j], es[j]) != ws[j].k.running
    requires es[i].Switch? && forall m :: j < m < i ==> !es[m].Switch? && !Selects(ws[m], es[m])
    ensures ws[i + 1].k.running == Selected(ws[j], es[j]) && !ws[i + 1].k.masked
  {
    hide Inv, Enabled, Next, Selects, Selected, Switches;
    Replacement(ws, es, j, i);
    var m: nat :| j <= m && ChosenBy(ws, es, i, m) && ws[i + 1].k.running == Selected(ws[m], es[m]);
    assert j == m;
  }

  // ---- the early return --------------------------------------------------------------------

  /** Once interrupts stay masked, the task on the core keeps it for ever: nothing happens but its own
      code, and the kernel does not change. */
  lemma {:induction false} MaskedForever(ws: seq<World>, es: seq<Event>, i: nat, n: nat)
    requires IsRun(ws, es) && Inv(ws[0]) && i <= n < |ws| && ws[i].k.masked
    ensures ws[n] == ws[i] && (n < |es| ==> es[n].Thread?)
    decreases n - i
  {
    ReachableInv(ws, es, i);
    if i < |es| {
      MaskedStep(ws[i], es[i]);
      assert ws[i + 1] == Next(ws[i], es[i]);
    }
    if i < n {
      hide Inv, Enabled, Next;
      MaskedForever(ws, es, i + 1, n);
    }
  }

  lemma MaskedStep(w: World, e: Event)
    requires Inv(w) && Enabled(w, e) && w.k.masked
    ensures e.Thread? && Next(w, e) == w
  {
  }

  /** When the early return of PendSV is taken: exactly when the last selection came back to the task
      that is still on the core. Afterwards interrupts stay masked. */
  lemma EarlyReturnExactly(cs: seq<Creation>, now: nat, ws: seq<World>, es: seq<Event>, i: nat)
    requires 0 < |cs| < MAX_TASKS && IsRun(ws, es) && ws[0] == Started(cs, now) && i < |es| && es[i].Switch?
    ensures !Switches(ws[i], es[i]) <==>
            exists j: nat :: ChosenBy(ws, es, i, j) && Selected(ws[j], es[j]) == ws[i].k.running
    ensures ws[i + 1].k.masked <==> !Switches(ws[i], es[i])
  {
    hide Inv, Selects, Selected, Next, Switches, Started;
    StartedInv(cs, now);
    StartedIdle(cs, now);
    ReachableInv(ws, es, i);
    LastSelection(ws, es, i);
    SwitchRunsQueued(ws[i], es[i]);
    assert ws[i + 1] == Next(ws[i], es[i]);
  }

  /** A systick selects while PendSV is pending, or preempts it and selects. */
  predicate Interferes(w: World, e: Event)
    requires Enabled(w, e)
  {
    e.Tick? && Selects(w, e) && (w.k.pending || w.entered)
  }

  /** Without such a systick the early return is never taken. */
  lemma {:induction false} NoEarlyReturn(ws: seq<World>, es: seq<Event>, i: nat)
    requires IsRun(ws, es) && Inv(ws[0]) && InThread(ws[0]) && !ws[0].k.masked && i < |ws|
    requires forall j :: 0 <= j < |es| ==> !Interferes(ws[j], es[j])
    ensures !ws[i].k.masked && !(ws[i].k.pending && ws[i].entered)
    ensures ws[i].k.pending || ws[i].entered <==> ws[i].k.queued != ws[i].k.running
    ensures i < |es| && es[i].Switch? ==> Switches(ws[i], es[i])
  {
    hide Inv, Enabled, Next, Switches, Interferes;
    ReachableInv(ws, es, i);
    if i > 0 {
      NoEarlyReturn(ws, es, i - 1);
      ReachableInv(ws, es, i - 1);
      ForwardStep(ws[i - 1], es[i - 1]);
    } else {
      HandshakeIs(ws[0]);
    }
    if i < |es| && es[i].Switch? {
      SwitchNotInVain(ws[i], es[i]);
    }
  }

  lemma SwitchNotInVain(w: World, e: Event)
    requires Inv(w) && Enabled(w, e) && e.Switch? && (w.entered ==> w.k.queued != w.k.running)
    ensures Switches(w, e)
  {
  }

  lemma ForwardStep(w: World, e: Event)
    requires Inv(w) && Enabled(w, e) && !Interferes(w, e)
    requires !w.k.masked && !(w.k.pending && w.entered)
    requires w.k.pending || w.entered <==> w.k.queued != w.k.running
    ensures var w' := Next(w, e);
      !w'.k.masked && !(w'.k.pending && w'.entered) && (w'.k.pending || w'.entered <==> w'.k.queued != w'.k.running)
  {
  }

  /** In every reachable state at most one of the tasks ever created has status RUNNING. */
  lemma AtMostOneRunning(cs: seq<Creation>, now: nat, ws: seq<World>, es: seq<Event>, i: nat, p: nat, q: nat)
    requires 0 < |cs| < MAX_TASKS && IsRun(ws, es) && ws[0] == Started(cs, now) && i < |ws|
    requires WellFormed(ws[i].k) && Created(ws[i].k, p) && Created(ws[i].k, q)
    requires ws[i].k.tasks[p].status == Running && ws[i].k.tasks[q].status == Running
    ensures p == q == ws[i].k.running
  {
    StartedInv(cs, now);
    ReachableInv(ws, es, i);
  }
}
