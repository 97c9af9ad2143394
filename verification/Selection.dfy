/** Laws of the selection rule and of the time queue. */
module Selection {
  import opened Sequences
  import opened Scheduler
  import opened Runs

  // ---- the systick test and the selection agree --------------------------------------------

  /** If the test fires because the head of the time queue is due, selecting at any later time
      returns that head; and the ring is used exactly when the queue half of the test would not fire. */
  lemma RescheduleAgreement(k: Kernel, live: set<nat>, t1: nat, t2: nat, t3: nat)
    requires Sound(k, live) && t1 <= t2 <= t3 && k.tasks[k.running].ctxSwitch <= t1
    ensures ReschedulingRequired(k, t1, t2) && t1 - k.tasks[k.running].ctxSwitch <= SLICE_US ==>
              k.timeQ != [] && Select(k, t3).1 == k.timeQ[0]
    ensures Select(k, t3).1 in k.ring <==> (k.timeQ == [] || k.tasks[k.timeQ[0]].nextRun - (t3 + TICK_US) >= 0)
  {
  }

  // ---- who runs after a kill ---------------------------------------------------------------

  /** Selection happens before the victim leaves its queue, so a kill can choose its own victim:
      exactly when the victim is the due head of the time queue or, with no head due, the successor
      of the ring's head. */
  lemma KillSelection(k: Kernel, live: set<nat>, victim: nat, now: nat)
    requires Sound(k, live) && victim in live && victim != SPIN
    ensures var k' := Kill(k, victim, now);
      && victim !in k'.ring && victim !in k'.timeQ
      && (k'.queued == victim <==> victim == if HeadDue(k, now) then k.timeQ[0] else Rotated(k.ring)[0])
      && (k'.queued != victim ==> k'.queued in k'.ring && k'.queued in live - {victim})
  {
    KillKeeps(k, live, victim, now);
    var k' := Kill(k, victim, now);
    Exclusive(k', live - {victim}, k'.queued);
    KillChoice(k, live, victim, now);
  }

  lemma KillChoice(k: Kernel, live: set<nat>, victim: nat, now: nat)
    requires Sound(k, live) && victim in live
    ensures Kill(k, victim, now).queued == if HeadDue(k, now) then k.timeQ[0] else Rotated(k.ring)[0]
  {
    hide Partition, SingleRunner, Select, Kill;
    var p := Select(k, now).1;
    SelectPartition(k, live, now);
    LiveIsCreated(k, live, p);
    LiveIsCreated(k, live, victim);
    KillQueues(k, victim, now);
    SelectIs(k, now);
  }

  lemma KillQueues(k: Kernel, victim: nat, now: nat)
    requires WellFormed(k) && k.ring != [] && victim < MAX_TASKS
    ensures Kill(k, victim, now).queued == k.tasks[Select(k, now).1].pid
  {
  }

  lemma SelectIs(k: Kernel, now: nat)
    requires WellFormed(k) && k.ring != []
    ensures Select(k, now).1 == if HeadDue(k, now) then k.timeQ[0] else Rotated(k.ring)[0]
  {
  }

  lemma LiveIsCreated(k: Kernel, live: set<nat>, p: nat)
    requires WellFormed(k) && Partition(k, live) && p in live
    ensures Created(k, p)
  {
  }

  /** A ring head that dies in a ring of two or more hands over to another live task. */
  lemma HeadDiesCleanly(k: Kernel, live: set<nat>, victim: nat, now: nat)
    requires Sound(k, live) && victim in live && victim != SPIN
    requires k.ring[0] == victim && |k.ring| >= 2
    ensures Kill(k, victim, now).queued in live - {victim}
  {
    KillSelection(k, live, victim, now);
    Exclusive(k, live, victim);
    if k.ring[1] == victim {
      TwiceInMultiset(k.ring, 0, 1);
    }
  }

  // ---- the order of the time queue ---------------------------------------------------------

  function Times(k: Kernel): (ts: seq<nat>)
    requires WellFormed(k)
    ensures |ts| == |k.timeQ|
  {
    seq(|k.timeQ|, i requires 0 <= i < |k.timeQ| => k.tasks[k.timeQ[i]].nextRun)
  }

  ghost predicate HeadIsEarliest(k: Kernel)
    requires WellFormed(k)
  {
    forall p <- k.timeQ :: k.tasks[k.timeQ[0]].nextRun <= k.tasks[p].nextRun
  }

  /** Whatever the comparator answers, queueing a task keeps an earliest task at the head. */
  lemma EnqueueKeepsEarliest(k: Kernel, p: nat, answer: bool)
    requires WellFormed(k) && p < MAX_TASKS && HeadIsEarliest(k)
    ensures WellFormed(Enqueue(k, p, answer)) && HeadIsEarliest(Enqueue(k, p, answer))
  {
    EnqueueWellFormed(k, p, answer);
    if k.tasks[p].nextRun != 0 {
      InInserted(k.timeQ, Slot(k, k.tasks[p].nextRun, answer), p);
    }
    hide WellFormed;
  }

  /** So does taking out any task but the head. */
  lemma DequeueKeepsEarliest(k: Kernel, p: nat)
    requires WellFormed(k) && p < MAX_TASKS && HeadIsEarliest(k)
    requires k.timeQ != [] ==> p != k.timeQ[0]
    ensures WellFormed(Dequeue(k, p)) && HeadIsEarliest(Dequeue(k, p))
  {
    DequeueWellFormed(k, p);
    InWithout(k.timeQ, p);
  }

  ghost predicate Sorted(ts: seq<nat>)
  {
    forall i, j :: 0 <= i < j < |ts| ==> ts[i] <= ts[j]
  }

  /** Queueing changes the sequence of wake times by one insertion at the slot. */
  lemma EnqueueTimes(k: Kernel, p: nat, answer: bool)
    requires WellFormed(k) && p < MAX_TASKS && k.tasks[p].nextRun != 0
    ensures WellFormed(Enqueue(k, p, answer))
    ensures Times(Enqueue(k, p, answer)) ==
            InsertedAt(Times(k), Slot(k, k.tasks[p].nextRun, answer), k.tasks[p].nextRun)
  {
    EnqueueWellFormed(k, p, answer);
  }

  /** An insertion into a sorted sequence keeps it sorted exactly when it lands between neighbours. */
  lemma SortedInsertion(ts: seq<nat>, i: nat, t: nat)
    requires Sorted(ts) && i <= |ts|
    ensures Sorted(InsertedAt(ts, i, t)) <==> (i > 0 ==> ts[i - 1] <= t) && (i < |ts| ==> t <= ts[i])
  {
    var us := InsertedAt(ts, i, t);
    assert us[i] == t && (i > 0 ==> us[i - 1] == ts[i - 1]) && (i < |ts| ==> us[i + 1] == ts[i]);
    if (i > 0 ==> ts[i - 1] <= t) && (i < |ts| ==> t <= ts[i]) {
      forall a, b | 0 <= a < b < |us| ensures us[a] <= us[b] {
        assert us[a] == if a < i then ts[a] else if a == i then t else ts[a - 1];
        assert us[b] == if b < i then ts[b] else if b == i then t else ts[b - 1];
      }
    }
  }

  /** As the comparator is called, its answer is anything. For a given answer a sorted time queue
      stays sorted exactly when the new time lands between its neighbours at the slot that answer picks. */
  lemma SortedForAnswer(k: Kernel, p: nat, answer: bool)
    requires WellFormed(k) && p < MAX_TASKS && k.tasks[p].nextRun != 0 && Sorted(Times(k))
    ensures var (t, ts) := (k.tasks[p].nextRun, Times(k));
      && WellFormed(Enqueue(k, p, answer))
      && (Sorted(Times(Enqueue(k, p, answer))) <==>
          || |ts| <= 1 || t < ts[0]
          || (if answer then t <= ts[1] else ts[1] <= t && (|ts| == 2 || t <= ts[2])))
  {
    var t := k.tasks[p].nextRun;
    EnqueueTimes(k, p, answer);
    SortedInsertion(Times(k), Slot(k, t, answer), t);
    assert |k.timeQ| > 2 ==> Times(k)[0] <= Times(k)[1] <= Times(k)[2];
  }

  /** So it is safe whatever the answer exactly when there is at most one entry, or the new time is
      before all others, or equals the second. */
  lemma SortedForAnyAnswer(k: Kernel, p: nat)
    requires WellFormed(k) && p < MAX_TASKS && k.tasks[p].nextRun != 0 && Sorted(Times(k))
    ensures var (t, ts) := (k.tasks[p].nextRun, Times(k));
      && WellFormed(Enqueue(k, p, true)) && WellFormed(Enqueue(k, p, false))
      && (Sorted(Times(Enqueue(k, p, true))) && Sorted(Times(Enqueue(k, p, false))) <==>
          |ts| <= 1 || t < ts[0] || t == ts[1])
  {
    SortedForAnswer(k, p, true);
    SortedForAnswer(k, p, false);
    assert |k.timeQ| > 2 ==> Times(k)[0] <= Times(k)[1] <= Times(k)[2];
  }

  /** With the comparator shown tasks, as it is written for, a sorted time queue stays sorted exactly
      when it has at most two entries or the new wake time is not after the third; and equal wake
      times keep their order of arrival exactly when the new one is strictly before the third. */
  lemma SortedExactly(k: Kernel, p: nat)
    requires WellFormed(k) && p < MAX_TASKS && k.tasks[p].nextRun != 0 && Sorted(Times(k))
    ensures var t := k.tasks[p].nextRun;
      var answer := |k.timeQ| > 1 && QueueSort(k.tasks[p], k.tasks[k.timeQ[0]], k.tasks[k.timeQ[1]]);
      && WellFormed(Enqueue(k, p, answer))
      && (Sorted(Times(Enqueue(k, p, answer))) <==> |k.timeQ| <= 2 || t <= Times(k)[2])
      && ((forall i :: Slot(k, t, answer) <= i < |k.timeQ| ==> t < Times(k)[i]) <==>
          |k.timeQ| <= 2 || t < Times(k)[2])
  {
    var t := k.tasks[p].nextRun;
    var answer := |k.timeQ| > 1 && QueueSort(k.tasks[p], k.tasks[k.timeQ[0]], k.tasks[k.timeQ[1]]);
    EnqueueTimes(k, p, answer);
    SortedInsertion(Times(k), Slot(k, t, answer), t);
    assert |k.timeQ| > 2 ==> Times(k)[0] <= Times(k)[1] <= Times(k)[2];
  }

  // ---- repeated selection ------------------------------------------------------------------

  /** The queues after the selection rule has run at each of the given times in turn. */
  function After(k: Kernel, ts: seq<nat>): (k': Kernel)
    requires WellFormed(k) && k.ring != []
    ensures WellFormed(k') && k'.ring != []
    decreases ts
  {
    if ts == [] then k
    else
      SelectWellFormed(k, ts[0]);
      After(Select(k, ts[0]).0, ts[1..])
  }

  /** The task that the i-th of these selections returns. */
  function Pick(k: Kernel, ts: seq<nat>, i: nat): nat
    requires WellFormed(k) && k.ring != [] && i < |ts|
    decreases i
  {
    if i == 0 then Select(k, ts[0]).1
    else
      SelectWellFormed(k, ts[0]);
      Pick(Select(k, ts[0]).0, ts[1..], i - 1)
  }

  ghost predicate PickedWithin(k: Kernel, ts: seq<nat>, n: nat, p: nat)
    requires WellFormed(k) && k.ring != []
  {
    exists i :: 0 <= i < n && i < |ts| && Pick(k, ts, i) == p
  }

  lemma PickedLater(k: Kernel, ts: seq<nat>, n: nat, p: nat)
    requires WellFormed(k) && k.ring != [] && ts != []
    requires WellFormed(Select(k, ts[0]).0)
    requires PickedWithin(Select(k, ts[0]).0, ts[1..], n, p)
    ensures PickedWithin(k, ts, n + 1, p)
  {
    var i :| 0 <= i < n && i < |ts[1..]| && Pick(Select(k, ts[0]).0, ts[1..], i) == p;
    assert Pick(k, ts, i + 1) == p;
  }

  /** No starvation in the ring: whatever the clock does, a task d places behind the head is
      returned within d selections plus one for each sleeping task. */
  lemma {:induction false} WaitBehindHead(k: Kernel, ts: seq<nat>, d: nat)
    requires WellFormed(k) && 1 <= d < |k.ring| && |ts| >= d + |k.timeQ|
    ensures PickedWithin(k, ts, d + |k.timeQ|, k.ring[d])
    decreases |ts|
  {
    var k1 := Select(k, ts[0]).0;
    SelectWellFormed(k, ts[0]);
    var n := d + |k.timeQ|;
    if HeadDue(k, ts[0]) {
      WaitBehindHead(k1, ts[1..], d);
      PickedLater(k, ts, n - 1, k.ring[d]);
    } else if d == 1 {
      assert Pick(k, ts, 0) == k.ring[1];
    } else {
      WaitBehindHead(k1, ts[1..], d - 1);
      PickedLater(k, ts, n - 1, k.ring[d]);
    }
  }

  /** The head itself waits for a full round of the ring, which every sleeping task lengthens by the
      place it takes and by the selection it uses up. */
  lemma {:induction false} WaitOfHead(k: Kernel, ts: seq<nat>)
    requires WellFormed(k) && k.ring != [] && |ts| >= |k.ring| + 2 * |k.timeQ|
    ensures PickedWithin(k, ts, |k.ring| + 2 * |k.timeQ|, k.ring[0])
    decreases |ts|
  {
    var k1 := Select(k, ts[0]).0;
    SelectWellFormed(k, ts[0]);
    var n, m := |k.ring|, |k.timeQ|;
    if HeadDue(k, ts[0]) {
      WaitOfHead(k1, ts[1..]);
      assert PickedWithin(k1, ts[1..], n + 2 * m - 1, k.ring[0]);
      PickedLater(k, ts, n + 2 * m - 1, k.ring[0]);
    } else if n == 1 {
      assert Pick(k, ts, 0) == k.ring[0];
    } else {
      WaitBehindHead(k1, ts[1..], n - 1);
      assert PickedWithin(k1, ts[1..], n + 2 * m - 1, k.ring[0]);
      PickedLater(k, ts, n + 2 * m - 1, k.ring[0]);
    }
  }

  /** With nothing asleep, selection walks around the ring. */
  lemma {:induction false} IdleWalk(k: Kernel, ts: seq<nat>)
    requires WellFormed(k) && k.ring != [] && k.timeQ == [] && |ts| <= |k.ring|
    ensures After(k, ts) == k.(ring := k.ring[|ts|..] + k.ring[..|ts|])
    ensures forall i {:trigger Pick(k, ts, i)} :: 0 <= i < |ts| ==> Pick(k, ts, i) == Rotated(k.ring)[i]
    decreases ts
  {
    if ts == [] {
      assert k.ring[0..] + k.ring[..0] == k.ring;
    } else {
      var n := |ts| - 1;
      var k1 := Select(k, ts[0]).0;
      SelectWellFormed(k, ts[0]);
      IdleWalk(k1, ts[1..]);
      assert k1.ring[n..] + k1.ring[..n] == k.ring[n + 1..] + k.ring[..n + 1];
      forall i | 0 <= i < |ts| ensures Pick(k, ts, i) == Rotated(k.ring)[i] {
        if i > 0 {
          assert Pick(k, ts, i) == Pick(k1, ts[1..], i - 1) == Rotated(k1.ring)[i - 1];
        }
      }
    }
  }
}
