/** The kernel state and what each operation does to it, on values.
    A task is named by its index in the task table; times are microseconds since boot, 0 is nil. */
module Scheduler {
  import opened Sequences

  const MAX_TASKS: nat := 128
  const SLICE_US: nat := 6000
  const TICK_US: nat := 1000
  const SPIN: nat := 1

  datatype Status = Running | Sleeping | Complete | NotReady

  datatype Task = Task(
    pid: nat,
    status: Status,
    entry: nat,
    frequency: nat,
    stackPtr: nat,
    stackBase: nat,
    nextRun: nat,
    ctxSwitch: nat,
    runTicks: nat)

  /** A slot of the statically allocated table before its first use. */
  const BLANK := Task(0, Running, 0, 0, 0, 0, 0, 0, 0)

  datatype Kernel = Kernel(
    tasks: seq<Task>,
    ring: seq<nat>,      // unscheduled queue, read from its head
    timeQ: seq<nat>,     // scheduled queue, read from its head
    nextPid: nat,
    running: nat,
    queued: nat,
    pending: bool,       // the PendSV set-pending bit
    masked: bool)        // PRIMASK: no exception is taken while it is set

  /** Every pointer in the kernel's structures points into the task table. */
  predicate WellFormed(k: Kernel)
  {
    && |k.tasks| == MAX_TASKS && (forall i :: 0 <= i < MAX_TASKS ==> k.tasks[i].pid < MAX_TASKS)
    && 1 <= k.nextPid <= MAX_TASKS
    && (forall i :: 0 <= i < |k.ring| ==> k.ring[i] < MAX_TASKS)
    && (forall i :: 0 <= i < |k.timeQ| ==> k.timeQ[i] < MAX_TASKS)
    && k.running < MAX_TASKS && k.queued < MAX_TASKS
  }

  /** The task is in the queue its next_run_time says it is in, and only once. */
  predicate Queued(k: Kernel, p: nat)
    requires WellFormed(k)
  {
    && p < MAX_TASKS
    && if k.tasks[p].nextRun != 0 then p in k.timeQ && p !in k.ring else p in k.ring && p !in k.timeQ
  }

  function NewKernel(): (k: Kernel)
    ensures WellFormed(k)
  {
    Kernel(seq(MAX_TASKS, _ => BLANK), [], [], 1, 0, 0, false, false)
  }

  // ---- queue operations -------------------------------------------------------------------

  /** What queue_sort computes when it is shown tasks. */
  predicate QueueSort(inserting: Task, previous: Task, next: Task)
  {
    inserting.nextRun == 0 || (inserting.nextRun < next.nextRun && previous.nextRun <= next.nextRun)
  }

  /** The position at which a task enters the time queue; `answer` is the comparator's answer. */
  function Slot(k: Kernel, runAt: nat, answer: bool): (i: nat)
    requires WellFormed(k)
    ensures i <= |k.timeQ|
  {
    if k.timeQ != [] && runAt < k.tasks[k.timeQ[0]].nextRun then 0 else SortedSlot(|k.timeQ|, answer)
  }

  function Enqueue(k: Kernel, p: nat, answer: bool): (k': Kernel)
    requires WellFormed(k) && p < MAX_TASKS
  {
    if k.tasks[p].nextRun != 0 then
      k.(timeQ := InsertedAt(k.timeQ, Slot(k, k.tasks[p].nextRun, answer), p))
    else
      k.(ring := Prepended(k.ring, p))
  }

  function Dequeue(k: Kernel, p: nat): (k': Kernel)
    requires WellFormed(k) && p < MAX_TASKS
  {
    if k.tasks[p].nextRun != 0 then k.(timeQ := Without(k.timeQ, p)) else k.(ring := Without(k.ring, p))
  }

  /** The head of the time queue must be on the core before the next systick has passed. */
  predicate HeadDue(k: Kernel, now: nat)
    requires WellFormed(k)
  {
    k.timeQ != [] && k.tasks[k.timeQ[0]].nextRun < now + TICK_US
  }

  /** The selection rule: a due head of the time queue joins the ring as its last element,
      otherwise the ring moves on by one. */
  function Select(k: Kernel, now: nat): (r: (Kernel, nat))
    requires WellFormed(k) && k.ring != []
    ensures r.1 < MAX_TASKS
  {
    if k.timeQ == [] || now + TICK_US - k.tasks[k.timeQ[0]].nextRun <= 0 then
      (k.(ring := Rotated(k.ring)), Rotated(k.ring)[0])
    else
      var p := k.timeQ[0];
      (k.(timeQ := k.timeQ[1..], ring := k.ring + [p], tasks := k.tasks[p := k.tasks[p].(nextRun := 0)]), p)
  }

  function QueueSwitch(k: Kernel, p: nat): Kernel
    requires WellFormed(k) && p < MAX_TASKS
  {
    k.(queued := k.tasks[p].pid, pending := k.pending || k.running != k.tasks[p].pid)
  }

  function SelectAndQueue(k: Kernel, now: nat): Kernel
    requires WellFormed(k) && k.ring != []
  {
    var (k1, p) := Select(k, now);
    SelectWellFormed(k, now);
    QueueSwitch(k1, p)
  }

  lemma SelectWellFormed(k: Kernel, now: nat)
    requires WellFormed(k) && k.ring != []
    ensures WellFormed(Select(k, now).0)
  {
  }

  // ---- system calls -----------------------------------------------------------------------

  /** task_new resets everything but next_run_time and the time of the last switch. */
  function NewTask(k: Kernel): (k': Kernel)
    requires WellFormed(k) && k.nextPid < MAX_TASKS
    ensures WellFormed(k')
  {
    var p := k.nextPid;
    var t := Task(p, NotReady, 0, 0, 0, 0, k.tasks[p].nextRun, k.tasks[p].ctxSwitch, 0);
    k.(nextPid := p + 1, tasks := k.tasks[p := t])
  }

  datatype CreateArgs = CreateArgs(entry: nat, stackBase: nat, frequency: nat)

  /** The record of a new task, complete; `sp` is the stack pointer that stack_init returned. */
  function Prepared(k: Kernel, args: CreateArgs, sp: nat): (k': Kernel)
    requires WellFormed(k) && k.nextPid < MAX_TASKS
    ensures WellFormed(k')
  {
    var p := k.nextPid;
    var k1 := NewTask(k);
    var t := k1.tasks[p].(entry := args.entry, stackPtr := sp, stackBase := args.stackBase,
                          status := Sleeping, frequency := args.frequency);
    k1.(tasks := k1.tasks[p := t])
  }

  function Create(k: Kernel, args: CreateArgs, sp: nat, answer: bool): (k': Kernel)
    requires WellFormed(k) && k.nextPid < MAX_TASKS
    ensures WellFormed(k')
  {
    EnqueueWellFormed(Prepared(k, args, sp), k.nextPid, answer);
    Enqueue(Prepared(k, args, sp), k.nextPid, answer)
  }

  /** In a slot that was never used the wake time is nil, so a new task goes behind the ring's head. */
  lemma CreateShape(k: Kernel, args: CreateArgs, sp: nat, answer: bool)
    requires WellFormed(k) && k.nextPid < MAX_TASKS && k.tasks[k.nextPid].nextRun == 0
    ensures var p := k.nextPid;
      Create(k, args, sp, answer) == k.(nextPid := p + 1, ring := Prepended(k.ring, p),
        tasks := k.tasks[p := Task(p, Sleeping, args.entry, args.frequency, sp, args.stackBase, 0,
                                   k.tasks[p].ctxSwitch, 0)])
  {
  }

  function Yield(k: Kernel, now: nat): Kernel
    requires WellFormed(k) && k.ring != []
  {
    SelectAndQueue(k, now)
  }

  /** The calling task leaves its queue, gets its wake time and is queued again. */
  function Requeue(k: Kernel, p: nat, wake: nat, answer: bool): Kernel
    requires WellFormed(k) && Queued(k, p)
  {
    var k1 := Dequeue(k, p);
    DequeueWellFormed(k, p);
    Enqueue(k1.(tasks := k1.tasks[p := k1.tasks[p].(nextRun := wake)]), p, answer)
  }

  predicate RingOutlives(k: Kernel, p: nat)
  {
    SPIN in k.ring && p != SPIN
  }

  lemma RequeueKeepsRing(k: Kernel, p: nat, wake: nat, answer: bool)
    requires WellFormed(k) && Queued(k, p) && RingOutlives(k, p)
    ensures WellFormed(Requeue(k, p, wake, answer)) && Requeue(k, p, wake, answer).ring != []
  {
    DequeueWellFormed(k, p);
    InWithout(k.ring, p);
    var k1 := Dequeue(k, p);
    EnqueueWellFormed(k1.(tasks := k1.tasks[p := k1.tasks[p].(nextRun := wake)]), p, answer);
  }

  function SleepUntil(k: Kernel, p: nat, wake: nat, now: nat, answer: bool): Kernel
    requires WellFormed(k) && Queued(k, p) && RingOutlives(k, p)
  {
    RequeueKeepsRing(k, p, wake, answer);
    SelectAndQueue(Requeue(k, p, wake, answer), now)
  }

  function Marked(k: Kernel, victim: nat): Kernel
    requires WellFormed(k) && victim < MAX_TASKS
  {
    k.(tasks := k.tasks[victim := k.tasks[victim].(status := Complete)])
  }

  /** Marking the victim, selecting, and only then taking the victim out of its queue. */
  function Kill(k: Kernel, victim: nat, now: nat): Kernel
    requires WellFormed(k) && victim < MAX_TASKS && k.ring != []
  {
    var (k2, p) := Select(Marked(k, victim), now);
    SelectWellFormed(Marked(k, victim), now);
    DequeueWellFormed(k2, victim);
    QueueSwitch(Dequeue(k2, victim), p)
  }

  // ---- interrupts -------------------------------------------------------------------------

  /** The systick test: clock reads t1 for the slice and t2 for the time queue. */
  predicate ReschedulingRequired(k: Kernel, t1: nat, t2: nat)
    requires WellFormed(k)
  {
    || t1 - k.tasks[k.running].ctxSwitch > SLICE_US
    || (k.timeQ != [] && t2 + TICK_US - k.tasks[k.timeQ[0]].nextRun > 0)
  }

  function Systick(k: Kernel, t1: nat, t2: nat, t3: nat): Kernel
    requires WellFormed(k) && k.ring != []
  {
    if ReschedulingRequired(k, t1, t2) then SelectAndQueue(k, t3) else k
  }

  /** The actual switch; t1 closes the account of the old task and t2 opens that of the new one. */
  function ContextSwitch(k: Kernel, from: nat, to: nat, sp: nat, t1: nat, t2: nat): Kernel
    requires WellFormed(k) && from < MAX_TASKS && to < MAX_TASKS
    requires k.tasks[from].ctxSwitch <= t1
  {
    var was := k.tasks[from].(stackPtr := sp);
    var left := if was.status == Running
                then was.(runTicks := was.runTicks + (t1 - was.ctxSwitch) / 1000, status := Sleeping)
                else was;
    var ts := k.tasks[from := left];
    k.(tasks := ts[to := ts[to].(ctxSwitch := t2, status := Running)], running := ts[to].pid)
  }

  /** The C half of PendSV. When the queued task is already running it returns from inside its critical
      region and leaves interrupts masked. */
  function PendSv(k: Kernel, sp: nat, t1: nat, t2: nat): Kernel
    requires WellFormed(k) && k.tasks[k.running].ctxSwitch <= t1
  {
    if k.queued == k.tasks[k.running].pid then k.(masked := true)
    else ContextSwitch(k, k.running, k.queued, sp, t1, t2)
  }

  /** The stack pointer that PendSV hands back to be restored from. */
  function ResumeFrom(k: Kernel, sp: nat): nat
    requires WellFormed(k)
  {
    if k.queued == k.tasks[k.running].pid then sp else k.tasks[k.queued].stackPtr
  }

  // ---- boot -------------------------------------------------------------------------------

  function Start(k: Kernel, now: nat): Kernel
    requires WellFormed(k)
  {
    k.(queued := SPIN, running := SPIN,
       tasks := k.tasks[SPIN := k.tasks[SPIN].(status := Running, ctxSwitch := now)])
  }

  // ---- facts the operations need ----------------------------------------------------------

  lemma InRotated(s: seq<nat>)
    ensures forall q :: q in Rotated(s) <==> q in s
  {
    if s != [] {
      assert s == [s[0]] + s[1..];
    }
  }

  lemma InInserted(s: seq<nat>, i: nat, x: nat)
    requires i <= |s|
    ensures forall q :: q in InsertedAt(s, i, x) <==> q in s || q == x
  {
    assert s == s[..i] + s[i..];
  }

  lemma {:induction false} InWithout(s: seq<nat>, x: nat)
    ensures forall q :: q in Without(s, x) ==> q in s
    ensures forall q :: q in s && q != x ==> q in Without(s, x)
  {
    if s != [] {
      assert s == [s[0]] + s[1..];
      InWithout(s[1..], x);
    }
  }

  lemma InsertedWellFormed(k: Kernel, i: nat, p: nat)
    requires WellFormed(k) && p < MAX_TASKS && i <= |k.timeQ|
    ensures WellFormed(k.(timeQ := InsertedAt(k.timeQ, i, p)))
    ensures InsertedAt(k.timeQ, 0, p) == [p] + k.timeQ
  {
  }

  lemma EnqueueWellFormed(k: Kernel, p: nat, answer: bool)
    requires WellFormed(k) && p < MAX_TASKS
    ensures WellFormed(Enqueue(k, p, answer)) && (k.ring != [] ==> Enqueue(k, p, answer).ring != [])
  {
    if k.tasks[p].nextRun != 0 {
      InInserted(k.timeQ, Slot(k, k.tasks[p].nextRun, answer), p);
    } else if k.ring != [] {
      InInserted(k.ring, 1, p);
    }
  }

  lemma DequeueWellFormed(k: Kernel, p: nat)
    requires WellFormed(k) && p < MAX_TASKS
    ensures WellFormed(Dequeue(k, p))
  {
    InWithout(k.ring, p);
    InWithout(k.timeQ, p);
    var r, t := Without(k.ring, p), Without(k.timeQ, p);
    assert forall i :: 0 <= i < |r| ==> r[i] in r;
    assert forall i :: 0 <= i < |t| ==> t[i] in t;
  }
}
