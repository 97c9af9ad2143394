/** The statuses of tasks over whole runs. */
module Statuses {
  import opened Scheduler
  import opened Runs
  import opened Boot
  import opened Effects

  /** A live task has status RUNNING if it is on the core, and SLEEPING otherwise. */
  ghost predicate LiveStatuses(w: World)
    requires WellFormed(w.k)
  {
    forall p <- w.live :: p < MAX_TASKS && w.k.tasks[p].status == if p == w.k.running then Running else Sleeping
  }

  lemma StatusStep(w: World, e: Event)
    requires Inv(w) && Enabled(w, e) && LiveStatuses(w)
    ensures WellFormed(Next(w, e).k) && LiveStatuses(Next(w, e))
  {
    StepWellFormed(w, e);
    StepRuns(w, e);
    forall p | p in Next(w, e).live
      ensures p < MAX_TASKS && Next(w, e).k.tasks[p].status == if p == Next(w, e).k.running then Running else Sleeping
    {
      LiveBefore(w, e, p);
      RecordEffects(w, e, p);
      hide Inv, NextKernel, Enabled;
    }
  }

  lemma LiveBefore(w: World, e: Event, p: nat)
    requires Inv(w) && Enabled(w, e) && p in Next(w, e).live
    ensures p < MAX_TASKS
    ensures p in w.live || (e.CallCreate? && p == w.k.nextPid)
    ensures e.CallKill? ==> p != e.victim
    ensures e.CallCreate? && p == w.k.nextPid ==> p != w.k.running
  {
  }

  lemma StartStatuses(cs: seq<Creation>, now: nat)
    requires 0 < |cs| < MAX_TASKS
    ensures WellFormed(Started(cs, now).k) && LiveStatuses(Started(cs, now))
  {
    BootOrder(cs);
  }

  lemma {:induction false} StatusesAlong(ws: seq<World>, es: seq<Event>, i: nat)
    requires IsRun(ws, es) && Inv(ws[0]) && WellFormed(ws[0].k) && LiveStatuses(ws[0]) && i < |ws|
    ensures WellFormed(ws[i].k) && LiveStatuses(ws[i])
  {
    hide Inv, Enabled, Next, LiveStatuses;
    if i > 0 {
      StatusesAlong(ws, es, i - 1);
      ReachableInv(ws, es, i - 1);
      StatusStep(ws[i - 1], es[i - 1]);
    }
  }

  /** In every reachable state a live task has status RUNNING if it is on the core, else SLEEPING. */
  lemma LiveStatus(cs: seq<Creation>, now: nat, ws: seq<World>, es: seq<Event>, i: nat, p: nat)
    requires 0 < |cs| < MAX_TASKS && IsRun(ws, es) && ws[0] == Started(cs, now) && i < |ws| && p in ws[i].live
    ensures WellFormed(ws[i].k) && p < MAX_TASKS
    ensures ws[i].k.tasks[p].status == if p == ws[i].k.running then Running else Sleeping
  {
    hide Inv, Enabled, Next, Started;
    StartedInv(cs, now);
    StartStatuses(cs, now);
    StatusesAlong(ws, es, i);
  }

  /** A killed task has status COMPLETE until it is switched to, which `Scenarios.KilledTaskRuns` shows can
      happen. */
  lemma {:induction false} KilledStatus(ws: seq<World>, es: seq<Event>, j: nat, i: nat)
    requires IsRun(ws, es) && Inv(ws[0]) && j < i < |ws| && es[j].CallKill?
    requires forall m :: j < m < i && HandsOver(ws[m], es[m]) ==> ws[m].k.queued != es[j].victim
    ensures WellFormed(ws[i].k) && es[j].victim < MAX_TASKS
    ensures ws[i].k.tasks[es[j].victim].status == Complete
    ensures es[j].victim !in ws[i].live && Created(ws[i].k, es[j].victim)
  {
    hide Inv, Next, Enabled;
    var h: nat := i - 1;
    var v := es[j].victim;
    ReachableInv(ws, es, h);
    if j < h {
      KilledStatus(ws, es, j, h);
    }
    DeadStep(ws[h], es[h], v);
  }

  lemma DeadStep(w: World, e: Event, v: nat)
    requires Inv(w) && Enabled(w, e)
    requires (e.CallKill? && e.victim == v) || (v < MAX_TASKS && v !in w.live && w.k.tasks[v].status == Complete
              && Created(w.k, v) && (HandsOver(w, e) ==> w.k.queued != v))
    ensures WellFormed(Next(w, e).k) && v < MAX_TASKS && Next(w, e).k.tasks[v].status == Complete
    ensures v !in Next(w, e).live && Created(Next(w, e).k, v)
  {
    RecordEffects(w, e, v);
    KeepsCreated(w, e, v);
    hide Inv, NextKernel;
  }

  lemma KeepsCreated(w: World, e: Event, v: nat)
    requires Inv(w) && Enabled(w, e) && (Created(w.k, v) || v in w.live)
    ensures Created(w.k, v) && Created(Next(w, e).k, v)
  {
    hide Handshake, Timed;
    if Switches(w, e) {
    } else {
      QuietStep(w, e);
    }
  }
}
