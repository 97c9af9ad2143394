/** The initial state, and from it every reachable one. */
module Boot {
  import opened Scheduler
  import opened Runs
  import opened Selection

  /** The tasks created so far. */
  function Pids(k: Kernel): set<nat>
    requires WellFormed(k)
  {
    set p: nat | p < MAX_TASKS && Created(k, p)
  }

  /** The kernel after the given creations: pids are 1..n, each in the slot of its number, and the
      ring read from its head is 1, n, n-1, ..., 2. */
  ghost predicate BootShape(k: Kernel, cs: seq<Creation>)
  {
    var n := |cs|;
    && WellFormed(k) && k.nextPid == n + 1 && k.timeQ == [] && |k.ring| == n
    && (n > 0 ==> k.ring[0] == SPIN)
    && (forall i :: 1 <= i < n ==> k.ring[i] == n + 1 - i)
    && (forall p: nat :: Created(k, p) ==>
          && k.tasks[p].pid == p && k.tasks[p].status == Sleeping
          && k.tasks[p].entry == cs[p - 1].args.entry && k.tasks[p].stackPtr == cs[p - 1].sp
          && k.tasks[p].frequency == cs[p - 1].args.frequency && k.tasks[p].runTicks == 0
          && k.tasks[p].stackBase == cs[p - 1].args.stackBase && k.tasks[p].ctxSwitch == 0)
    && (forall p :: 0 <= p < MAX_TASKS ==> k.tasks[p].nextRun == 0)
    && (forall p :: n < p < MAX_TASKS ==> k.tasks[p] == BLANK)
    && k.running == 0 && !k.pending && !k.masked
  }

  lemma BootStep(k: Kernel, cs: seq<Creation>, c: Creation)
    requires BootShape(k, cs) && |cs| + 1 < MAX_TASKS
    ensures BootShape(Create(k, c.args, c.sp, c.answer), cs + [c])
  {
  }

  /** A new task goes right behind the head, so the boot order is 1, n, n-1, ..., 2. */
  lemma {:induction false} BootOrder(cs: seq<Creation>)
    requires |cs| < MAX_TASKS
    ensures BootShape(Booted(cs), cs)
  {
    if cs != [] {
      var most, c := cs[..|cs| - 1], cs[|cs| - 1];
      BootOrder(most);
      BootStep(Booted(most), most, c);
      assert most + [c] == cs;
    }
  }

  lemma PartitionStep(k: Kernel, c: Creation)
    requires WellFormed(k) && k.nextPid < MAX_TASKS && Partition(k, Pids(k))
    ensures var k' := Create(k, c.args, c.sp, c.answer); Partition(k', Pids(k'))
  {
    CreateShape(k, c.args, c.sp, c.answer);
    CreatePartition(k, Pids(k), c.args, c.sp, c.answer);
    assert Pids(Create(k, c.args, c.sp, c.answer)) == Pids(k) + {k.nextPid};
  }

  lemma {:induction false} BootPartition(cs: seq<Creation>)
    requires |cs| < MAX_TASKS
    ensures Partition(Booted(cs), Pids(Booted(cs)))
  {
    if cs == [] {
      assert Pids(Booted(cs)) == {};
    } else {
      BootPartition(cs[..|cs| - 1]);
      PartitionStep(Booted(cs[..|cs| - 1]), cs[|cs| - 1]);
    }
  }

  lemma StartedInv(cs: seq<Creation>, now: nat)
    requires 0 < |cs| < MAX_TASKS
    ensures Inv(Started(cs, now))
    ensures Started(cs, now).k.ring[0] == Started(cs, now).k.running == SPIN
  {
    BootOrder(cs);
    BootPartition(cs);
    hide Booted, Partition;
    StartPartition(Booted(cs), Pids(Booted(cs)), now);
  }

  /** The start puts task 1 on the core, RUNNING since now; everything else is as the creations left it. */
  lemma StartShape(cs: seq<Creation>, now: nat)
    requires 0 < |cs| < MAX_TASKS
    ensures var (k, w) := (Booted(cs), Started(cs, now));
      && BootShape(k, cs) && w.k.running == w.k.queued == 1 && w.k.nextPid == |cs| + 1
      && w.k.ring == k.ring && w.k.timeQ == [] && !w.k.pending && !w.k.masked && !w.entered
      && w.k.tasks[1] == k.tasks[1].(status := Running, ctxSwitch := now)
      && (forall p :: 0 <= p < MAX_TASKS && p != 1 ==> w.k.tasks[p] == k.tasks[p])
      && (forall p: nat :: p in w.live <==> 1 <= p <= |cs|)
  {
    hide Booted;
    BootOrder(cs);
  }

  lemma StartPartition(k: Kernel, live: set<nat>, now: nat)
    requires WellFormed(k) && Partition(k, live)
    ensures WellFormed(Start(k, now)) && Partition(Start(k, now), live)
  {
  }

  /** Every state of every run from the start satisfies the invariant. */
  lemma {:induction false} ReachableInv(ws: seq<World>, es: seq<Event>, i: nat)
    requires IsRun(ws, es) && Inv(ws[0]) && i < |ws|
    ensures Inv(ws[i])
  {
    if i > 0 {
      ReachableInv(ws, es, i - 1);
      StepKeeps(ws[i - 1], es[i - 1]);
    }
  }

  /** The queue partition, read off the invariant for all reachable states. */
  lemma QueuePartition(cs: seq<Creation>, now: nat, ws: seq<World>, es: seq<Event>, i: nat, p: nat)
    requires 0 < |cs| < MAX_TASKS && IsRun(ws, es) && ws[0] == Started(cs, now) && i < |ws|
    ensures var (k, live) := (ws[i].k, ws[i].live);
      && WellFormed(k)
      && multiset(k.ring)[p] + multiset(k.timeQ)[p] == (if p in live then 1 else 0)
      && (p in live ==> (p in k.timeQ <==> k.tasks[p].nextRun != 0))
      && |k.ring| + |k.timeQ| == |live|
  {
    StartedInv(cs, now);
    ReachableInv(ws, es, i);
    var (k, live) := (ws[i].k, ws[i].live);
    Exclusive(k, live, p);
    assert |multiset(k.ring) + multiset(k.timeQ)| == |multiset(live)|;
  }

  // ---- the first round ---------------------------------------------------------------------

  /** From boot, n idle selections return n, n-1, ..., 2 and then the spin task: each task once; and
      the queues are back where they started. */
  lemma BootRound(cs: seq<Creation>, now: nat, ts: seq<nat>, i: nat)
    requires 0 < |cs| < MAX_TASKS && |ts| == |cs| && i < |cs|
    ensures Inv(Started(cs, now))
    ensures After(Started(cs, now).k, ts) == Started(cs, now).k
    ensures Pick(Started(cs, now).k, ts, i) == if i < |cs| - 1 then |cs| - i else SPIN
  {
    StartedInv(cs, now);
    BootOrder(cs);
    var k := Started(cs, now).k;
    IdleWalk(k, ts);
    assert k.ring[|ts|..] + k.ring[..|ts|] == k.ring;
  }
}
