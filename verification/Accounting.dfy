/** Conservation of accounted run time. */
module Accounting {
  import opened Scheduler
  import opened Runs
  import opened Boot
  import opened Effects

  function TotalTicks(ts: seq<Task>): nat
  {
    if ts == [] then 0 else TotalTicks(ts[..|ts| - 1]) + ts[|ts| - 1].runTicks
  }

  lemma {:induction false} SameTotal(ts: seq<Task>, us: seq<Task>)
    requires |ts| == |us| && forall i :: 0 <= i < |ts| ==> ts[i].runTicks == us[i].runTicks
    ensures TotalTicks(ts) == TotalTicks(us)
  {
    if ts != [] {
      SameTotal(ts[..|ts| - 1], us[..|us| - 1]);
    }
  }

  lemma {:induction false} ChangedTotal(ts: seq<Task>, i: nat, t: Task)
    requires i < |ts|
    ensures TotalTicks(ts[i := t]) == TotalTicks(ts) - ts[i].runTicks + t.runTicks
  {
    var n := |ts| - 1;
    if i == n {
      assert ts[i := t][..n] == ts[..n];
    } else {
      assert ts[i := t][..n] == ts[..n][i := t];
      ChangedTotal(ts[..n], i, t);
    }
  }

  lemma {:induction false} BlankTotal(ts: seq<Task>)
    requires forall i :: 0 <= i < |ts| ==> ts[i].runTicks == 0
    ensures TotalTicks(ts) == 0
  {
    if ts != [] {
      BlankTotal(ts[..|ts| - 1]);
    }
  }

  /** Nothing has been charged to a slot of the task table that is not in use. */
  ghost predicate Uncharged(k: Kernel)
    requires WellFormed(k)
  {
    forall p :: k.nextPid <= p < MAX_TASKS ==> k.tasks[p].runTicks == 0
  }

  /** When the task on the core took it over. */
  function TakenAt(k: Kernel): nat
    requires WellFormed(k)
  {
    k.tasks[k.running].ctxSwitch
  }

  lemma SwitchCharges(w: World, e: Event)
    requires Inv(w) && Enabled(w, e) && Uncharged(w.k) && Switches(w, e)
    ensures WellFormed(Next(w, e).k) && Uncharged(Next(w, e).k) && TakenAt(Next(w, e).k) == e.t2
    ensures Next(w, e).k.tasks[Next(w, e).k.running].status == Running
    ensures TotalTicks(Next(w, e).k.tasks) == TotalTicks(w.k.tasks) +
              if w.k.tasks[w.k.running].status == Running then (e.t1 - TakenAt(w.k)) / 1000 else 0
  {
    var k, from, to := w.k, w.k.running, w.k.queued;
    var left := NextKernel(w, e).tasks[from];
    var ts := k.tasks[from := left];
    ChangedTotal(k.tasks, from, left);
    ChangedTotal(ts, to, ts[to].(ctxSwitch := e.t2, status := Running));
  }

  /** The switch charges the slice it ends, because the task it takes off the core is still running. */
  predicate Charges(w: World, e: Event)
    requires Enabled(w, e)
  {
    Switches(w, e) && w.k.tasks[w.k.running].status == Running
  }

  /** How many switches happened before a point of a run. */
  ghost function SwitchCount(ws: seq<World>, es: seq<Event>, i: nat): nat
    requires IsRun(ws, es) && i < |ws|
  {
    if i == 0 then 0 else SwitchCount(ws, es, i - 1) + if Switches(ws[i - 1], es[i - 1]) then 1 else 0
  }

  /** The time that passed between the two clock reads inside them. */
  ghost function ReadGap(ws: seq<World>, es: seq<Event>, i: nat): nat
    requires IsRun(ws, es) && i < |ws|
  {
    if i == 0 then 0
    else ReadGap(ws, es, i - 1) + if Switches(ws[i - 1], es[i - 1]) then es[i - 1].t2 - es[i - 1].t1 else 0
  }

  /** What rounding cut off. */
  ghost function Rounding(ws: seq<World>, es: seq<Event>, i: nat): nat
    requires IsRun(ws, es) && i < |ws|
  {
    if i == 0 then 0
    else Rounding(ws, es, i - 1) +
         if Charges(ws[i - 1], es[i - 1]) then (es[i - 1].t1 - TakenAt(ws[i - 1].k)) % 1000 else 0
  }

  /** The slices of tasks that were killed while they were on the core. */
  ghost function Uncounted(ws: seq<World>, es: seq<Event>, i: nat): nat
    requires IsRun(ws, es) && i < |ws|
  {
    if i == 0 then 0
    else Uncounted(ws, es, i - 1) +
         if Switches(ws[i - 1], es[i - 1]) && !Charges(ws[i - 1], es[i - 1])
         then es[i - 1].t1 - TakenAt(ws[i - 1].k) else 0
  }

  /** The running sum. */
  ghost predicate Balanced(k: Kernel, start: nat, other: nat)
    requires WellFormed(k)
  {
    Uncharged(k) && start + 1000 * TotalTicks(k.tasks) + other == TakenAt(k)
  }

  lemma BalanceStep(w: World, e: Event, start: nat, other: nat)
    requires Inv(w) && Enabled(w, e) && Balanced(w.k, start, other)
    ensures WellFormed(Next(w, e).k)
    ensures Balanced(Next(w, e).k, start, other +
              (if Switches(w, e) then e.t2 - e.t1 else 0) +
              (if Charges(w, e) then (e.t1 - TakenAt(w.k)) % 1000 else 0) +
              (if Switches(w, e) && !Charges(w, e) then e.t1 - TakenAt(w.k) else 0))
  {
    if Switches(w, e) {
      assert TakenAt(w.k) <= e.t1 <= e.t2;
      SwitchCharges(w, e);
    } else {
      QuietStep(w, e);
      SameTotal(w.k.tasks, Next(w, e).k.tasks);
    }
    hide Inv, Enabled, Next;
  }

  lemma {:induction false} BalanceAlong(ws: seq<World>, es: seq<Event>, start: nat, i: nat)
    requires IsRun(ws, es) && i < |ws| && Inv(ws[0]) && Balanced(ws[0].k, start, 0)
    ensures WellFormed(ws[i].k)
    ensures Balanced(ws[i].k, start, ReadGap(ws, es, i) + Rounding(ws, es, i) + Uncounted(ws, es, i))
  {
    hide Partition, SingleRunner, Numbered, Handshake, Timed, Enabled, NextKernel, Balanced, Switches, Charges;
    if i > 0 {
      var h: nat := i - 1;
      BalanceAlong(ws, es, start, h);
      ReachableInv(ws, es, h);
      BalanceStep(ws[h], es[h], start, ReadGap(ws, es, h) + Rounding(ws, es, h) + Uncounted(ws, es, h));
      assert ws[i] == Next(ws[h], es[h]);
    }
  }

  lemma {:induction false} RoundingBound(ws: seq<World>, es: seq<Event>, i: nat)
    requires IsRun(ws, es) && i < |ws|
    ensures Rounding(ws, es, i) <= 999 * SwitchCount(ws, es, i)
  {
    hide Enabled, Next;
    if i > 0 {
      RoundingBound(ws, es, i - 1);
    }
  }

  /** No task is killed while it is on the core. */
  ghost predicate NoneDies(ws: seq<World>, es: seq<Event>, i: nat)
    requires i <= |es| && i <= |ws|
  {
    forall j :: 0 <= j < i && es[j].CallKill? ==> es[j].victim != ws[j].k.running
  }

  lemma RunnerStaysRunning(w: World, e: Event)
    requires Inv(w) && Enabled(w, e) && w.k.tasks[w.k.running].status == Running
    requires e.CallKill? ==> e.victim != w.k.running
    ensures WellFormed(Next(w, e).k) && Next(w, e).k.tasks[Next(w, e).k.running].status == Running
  {
    StepWellFormed(w, e);
    if !Switches(w, e) {
      QuietStep(w, e);
    }
  }

  /** Only a task killed on the core is not charged. */
  lemma {:induction false} AllCounted(ws: seq<World>, es: seq<Event>, i: nat)
    requires IsRun(ws, es) && i < |ws| && Inv(ws[0]) && ws[0].k.tasks[ws[0].k.running].status == Running
    requires NoneDies(ws, es, i)
    ensures Uncounted(ws, es, i) == 0
    ensures WellFormed(ws[i].k) && ws[i].k.tasks[ws[i].k.running].status == Running
  {
    hide Partition, SingleRunner, Numbered, Handshake, Timed, Enabled, Next;
    if i > 0 {
      var h: nat := i - 1;
      AllCounted(ws, es, h);
      ReachableInv(ws, es, h);
      RunnerStaysRunning(ws[h], es[h]);
    }
  }

  /** Conservation: over every run from the start the time up to the latest switch is the charged
      milliseconds, what rounding cut off, less than a millisecond a switch, what passed between the two
      clock reads of a switch, and the slices of tasks killed on the core; without such kills these
      are nothing. */
  lemma Conservation(cs: seq<Creation>, now: nat, ws: seq<World>, es: seq<Event>, i: nat)
    requires 0 < |cs| < MAX_TASKS && IsRun(ws, es) && ws[0] == Started(cs, now) && i < |ws|
    ensures WellFormed(ws[i].k)
    ensures TakenAt(ws[i].k) - now == 1000 * TotalTicks(ws[i].k.tasks)
              + Rounding(ws, es, i) + ReadGap(ws, es, i) + Uncounted(ws, es, i)
    ensures Rounding(ws, es, i) <= 999 * SwitchCount(ws, es, i)
    ensures NoneDies(ws, es, i) ==> Uncounted(ws, es, i) == 0
  {
    hide Partition, SingleRunner, Numbered, Handshake, Timed, Enabled, Next, Started, Balanced;
    StartedInv(cs, now);
    StartBalanced(cs, now);
    BalanceAlong(ws, es, now, i);
    BalanceIs(ws[i].k, now, ReadGap(ws, es, i) + Rounding(ws, es, i) + Uncounted(ws, es, i));
    RoundingBound(ws, es, i);
    if NoneDies(ws, es, i) {
      AllCounted(ws, es, i);
    }
  }

  lemma BalanceIs(k: Kernel, start: nat, other: nat)
    requires WellFormed(k) && Balanced(k, start, other)
    ensures TakenAt(k) - start == 1000 * TotalTicks(k.tasks) + other
  {
  }

  // ---- the account of each task ------------------------------------------------------------

  /** What a task has earned in a run: the milliseconds of the slices that ended with it RUNNING on the
      core. */
  ghost function Earned(ws: seq<World>, es: seq<Event>, i: nat, p: nat): nat
    requires IsRun(ws, es) && i < |ws|
  {
    if i == 0 then 0 else Earned(ws, es, i - 1, p) + ChargeOf(ws[i - 1], es[i - 1], p)
  }

  lemma AccountStep(w: World, e: Event, p: nat, earned: nat)
    requires Inv(w) && Enabled(w, e) && p < MAX_TASKS && w.k.tasks[p].runTicks == earned
    requires p >= w.k.nextPid ==> earned == 0
    ensures WellFormed(Next(w, e).k) && Next(w, e).k.tasks[p].runTicks == earned + ChargeOf(w, e, p)
    ensures p >= Next(w, e).k.nextPid ==> earned + ChargeOf(w, e, p) == 0
  {
    RecordEffects(w, e, p);
    StepPids(w, e);
    hide Partition, SingleRunner, Numbered, NextKernel;
  }

  lemma StepPids(w: World, e: Event)
    requires Inv(w) && Enabled(w, e)
    ensures Next(w, e).k.nextPid >= w.k.nextPid
  {
    if !Switches(w, e) {
      QuietStep(w, e);
    }
  }

  lemma {:induction false} AccountAlong(ws: seq<World>, es: seq<Event>, i: nat, p: nat)
    requires IsRun(ws, es) && Inv(ws[0]) && i < |ws| && p < MAX_TASKS && ws[0].k.tasks[p].runTicks == 0
    ensures WellFormed(ws[i].k) && ws[i].k.tasks[p].runTicks == Earned(ws, es, i, p)
    ensures p >= ws[i].k.nextPid ==> Earned(ws, es, i, p) == 0
  {
    hide Partition, SingleRunner, Numbered, Handshake, Timed, Enabled, NextKernel;
    if i > 0 {
      var h: nat := i - 1;
      AccountAlong(ws, es, h, p);
      ReachableInv(ws, es, h);
      AccountStep(ws[h], es[h], p, Earned(ws, es, h, p));
      assert ws[i] == Next(ws[h], es[h]);
    }
  }

  /** Over every run from the start, and for every task whenever it was created, the account is what the
      task itself has earned: no other event and no other task's slice touches it. */
  lemma Account(cs: seq<Creation>, now: nat, ws: seq<World>, es: seq<Event>, i: nat, p: nat)
    requires 0 < |cs| < MAX_TASKS && IsRun(ws, es) && ws[0] == Started(cs, now) && i < |ws| && p < MAX_TASKS
    ensures WellFormed(ws[i].k) && ws[i].k.tasks[p].runTicks == Earned(ws, es, i, p)
  {
    StartedInv(cs, now);
    BootUncharged(cs);
    hide Inv, Enabled, Next, Booted;
    AccountAlong(ws, es, i, p);
  }

  lemma StartBalanced(cs: seq<Creation>, now: nat)
    requires 0 < |cs| < MAX_TASKS
    ensures var k := Started(cs, now).k; Balanced(k, now, 0) && k.tasks[k.running].status == Running
  {
    BootOrder(cs);
    BootUncharged(cs);
    BlankTotal(Started(cs, now).k.tasks);
  }

  lemma {:induction false} BootUncharged(cs: seq<Creation>)
    requires |cs| < MAX_TASKS
    ensures forall p :: 0 <= p < MAX_TASKS ==> Booted(cs).tasks[p].runTicks == 0
  {
    if cs != [] {
      var most, c := cs[..|cs| - 1], cs[|cs| - 1];
      BootUncharged(most);
      BootOrder(most);
      CreateUncharged(Booted(most), c);
    }
  }

  lemma CreateUncharged(k: Kernel, c: Creation)
    requires WellFormed(k) && k.nextPid < MAX_TASKS && k.tasks[k.nextPid].nextRun == 0
    requires forall p :: 0 <= p < MAX_TASKS ==> k.tasks[p].runTicks == 0
    ensures forall p :: 0 <= p < MAX_TASKS ==> Create(k, c.args, c.sp, c.answer).tasks[p].runTicks == 0
  {
  }
}
