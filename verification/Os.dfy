/** The kernel's globals and the operations that update them in place. */
module Os {
  import opened Sequences
  import opened Scheduler
  import opened Rings
  import opened Machines
  import opened Assembly

  class Os {
    const taskList: array<Task>
    const scheduledQueue: List<nat>
    const unscheduledQueue: List<nat>
    var maxPid: nat
    var runningPid: nat
    var queuedTask: nat
    var pendSvSet: bool
    var primask: bool
    const cpu: Cpu

    ghost function Repr(): set<object>
      reads this, scheduledQueue, unscheduledQueue
    {
      {this, taskList} + scheduledQueue.repr + unscheduledQueue.repr
    }

    /** Two rings over the same task table that share no node. */
    ghost predicate Valid()
      reads this, scheduledQueue, unscheduledQueue, Repr()
    {
      && scheduledQueue.repr !! unscheduledQueue.repr !! {this, taskList}
      && scheduledQueue.Valid() && unscheduledQueue.Valid()
      && cpu !in Repr() && cpu.mem !in Repr()
      && WellFormed(State())
    }

    ghost function State(): (k: Kernel)
      reads this, taskList, scheduledQueue, unscheduledQueue
    {
      Kernel(taskList[..], unscheduledQueue.contents, scheduledQueue.contents,
             maxPid, runningPid, queuedTask, pendSvSet, primask)
    }

    constructor (cpu: Cpu)
      ensures Valid() && State() == NewKernel() && this.cpu == cpu && fresh(Repr())
    {
      taskList := new Task[MAX_TASKS](_ => BLANK);
      scheduledQueue := new List<nat>();
      unscheduledQueue := new List<nat>();
      maxPid, runningPid, queuedTask, pendSvSet, primask := 1, 0, 0, false, false;
      this.cpu := cpu;
    }

    // ---- the queues ------------------------------------------------------------------------

    /** Moves the head of the time queue to the end of the ring. */
    method WakeHead() returns (p: nat)
      requires Valid() && State().timeQ != []
      modifies Repr()
      ensures Valid() && fresh(Repr() - old(Repr()))
      ensures p == old(State()).timeQ[0] && p < MAX_TASKS
      ensures var k := old(State());
        State() == k.(timeQ := k.timeQ[1..], ring := k.ring + [p], tasks := k.tasks[p := k.tasks[p].(nextRun := 0)])
    {
      hide List.Valid;
      p := scheduledQueue.GetHead();
      RemoveScheduled(p);
      taskList[p] := taskList[p].(nextRun := 0);
      AppendUnscheduled(p);
    }

    method RemoveScheduled(p: nat)
      requires Valid() && p in State().timeQ
      modifies Repr()
      ensures Valid() && fresh(Repr() - old(Repr()))
      ensures State() == old(State()).(timeQ := Without(old(State()).timeQ, p))
    {
      hide List.Valid;
      InWithout(State().timeQ, p);
      var item, i := scheduledQueue.GetItemWithData(p);
      WithoutIsRemovedAt(scheduledQueue.contents, p, i);
      scheduledQueue.Remove(item, i);
      assert forall i :: 0 <= i < |State().timeQ| ==> State().timeQ[i] in State().timeQ;
    }

    method RemoveUnscheduled(p: nat)
      requires Valid() && p in State().ring
      modifies Repr()
      ensures Valid() && fresh(Repr() - old(Repr()))
      ensures State() == old(State()).(ring := Without(old(State()).ring, p))
    {
      hide List.Valid;
      InWithout(State().ring, p);
      var item, i := unscheduledQueue.GetItemWithData(p);
      WithoutIsRemovedAt(unscheduledQueue.contents, p, i);
      unscheduledQueue.Remove(item, i);
      assert forall i :: 0 <= i < |State().ring| ==> State().ring[i] in State().ring;
    }

    method AppendUnscheduled(p: nat)
      requires Valid() && p < MAX_TASKS
      modifies Repr()
      ensures Valid() && fresh(Repr() - old(Repr()))
      ensures State() == old(State()).(ring := old(State()).ring + [p])
    {
      hide List.Valid;
      unscheduledQueue.Append(p);
    }

    method GetNextTask(now: nat) returns (p: nat)
      requires Valid() && State().ring != []
      modifies Repr()
      ensures Valid() && fresh(Repr() - old(Repr()))
      ensures (State(), p) == Select(old(State()), now)
    {
      hide List.Valid;
      SelectWellFormed(State(), now);
      var nextSystick := now + TICK_US;
      var ringTurn := scheduledQueue.IsEmpty();
      if !ringTurn {
        var first := scheduledQueue.GetHead();
        ringTurn := nextSystick - taskList[first].nextRun <= 0;
      }
      if ringTurn {
        var _ := unscheduledQueue.Rotate();
        p := unscheduledQueue.GetHead();
      } else {
        p := WakeHead();
      }
    }

    method QueueTask(p: nat, answer: bool)
      requires Valid() && p < MAX_TASKS
      modifies Repr()
      ensures Valid() && fresh(Repr() - old(Repr()))
      ensures State() == Enqueue(old(State()), p, answer)
    {
      hide List.Valid;
      EnqueueWellFormed(State(), p, answer);
      if taskList[p].nextRun != 0 {
        InsertScheduled(p, answer);
      } else {
        unscheduledQueue.Prepend(p);
      }
    }

    /** Into the time queue: before the head if strictly earlier, else where the comparator says. */
    method InsertScheduled(p: nat, answer: bool)
      requires Valid() && p < MAX_TASKS
      modifies Repr()
      ensures Valid() && fresh(Repr() - old(Repr()))
      ensures State() == old(State()).(
                timeQ := InsertedAt(old(State()).timeQ, Slot(old(State()), old(State()).tasks[p].nextRun, answer), p))
    {
      hide List.Valid, InsertedAt;
      InsertedWellFormed(State(), Slot(State(), taskList[p].nextRun, answer), p);
      var earliest := false;
      var empty := scheduledQueue.IsEmpty();
      if !empty {
        var first := scheduledQueue.GetHead();
        earliest := taskList[p].nextRun - taskList[first].nextRun < 0;
      }
      if earliest {
        scheduledQueue.InsertHead(p);
      } else {
        scheduledQueue.InsertSorted(p, answer);
      }
    }

    /** The task must be in the queue that its wake time says; otherwise there is no node to remove. */
    method DequeueTask(p: nat)
      requires Valid() && Queued(State(), p)
      modifies Repr()
      ensures Valid() && fresh(Repr() - old(Repr()))
      ensures State() == Dequeue(old(State()), p)
    {
      if taskList[p].nextRun != 0 {
        RemoveScheduled(p);
      } else {
        RemoveUnscheduled(p);
      }
    }

    /** Returns the next task to run. */
    method SleepUntil(p: nat, wake: nat, now: nat, answer: bool) returns (next: nat)
      requires Valid() && Queued(State(), p) && RingOutlives(State(), p)
      modifies Repr()
      ensures Valid() && fresh(Repr() - old(Repr())) && next < MAX_TASKS
      ensures var k1 := Requeue(old(State()), p, wake, answer);
        WellFormed(k1) && k1.ring != [] && (State(), next) == Select(k1, now)
    {
      hide List.Valid, Requeue, Select;
      RequeueKeepsRing(State(), p, wake, answer);
      RequeueTask(p, wake, answer);
      next := GetNextTask(now);
    }

    /** Takes the task out of its queue, sets its wake time and queues it again. */
    method RequeueTask(p: nat, wake: nat, answer: bool)
      requires Valid() && Queued(State(), p)
      modifies Repr()
      ensures Valid() && fresh(Repr() - old(Repr()))
      ensures State() == Requeue(old(State()), p, wake, answer)
    {
      hide List.Valid;
      DequeueTask(p);
      taskList[p] := taskList[p].(nextRun := wake);
      QueueTask(p, answer);
    }

    // ---- the switch ------------------------------------------------------------------------

    method QueueContextSwitch(p: nat)
      requires Valid() && p < MAX_TASKS
      modifies this`queuedTask, this`pendSvSet
      ensures Valid() && Repr() == old(Repr())
      ensures State() == QueueSwitch(old(State()), p)
    {
      hide List.Valid;
      queuedTask := taskList[p].pid;
      if runningPid != taskList[p].pid {
        pendSvSet := true;
      }
    }

    /** The systick test, with the clock reads it makes. */
    method ReschedulingIsRequired(t1: nat, t2: nat) returns (b: bool)
      requires Valid()
      ensures b == ReschedulingRequired(State(), t1, t2)
    {
      var elapsed := t1 - taskList[runningPid].ctxSwitch;
      if elapsed > SLICE_US {
        return true;
      }
      var nextSystick := t2 + TICK_US;
      var empty := scheduledQueue.IsEmpty();
      if !empty {
        var first := scheduledQueue.GetHead();
        if nextSystick - taskList[first].nextRun > 0 {
          return true;
        }
      }
      b := false;
    }

    method ContextSwitch(from: nat, to: nat, sp: nat, t1: nat, t2: nat) returns (newSp: nat)
      requires Valid() && from < MAX_TASKS && to < MAX_TASKS && taskList[from].ctxSwitch <= t1
      modifies this`runningPid, taskList
      ensures Valid() && Repr() == old(Repr())
      ensures State() == Scheduler.ContextSwitch(old(State()), from, to, sp, t1, t2)
      ensures newSp == State().tasks[to].stackPtr
    {
      hide List.Valid;
      taskList[from] := taskList[from].(stackPtr := sp);
      runningPid := taskList[from].pid;
      if taskList[from].status == Running {
        taskList[from] := taskList[from].(
          runTicks := taskList[from].runTicks + (t1 - taskList[from].ctxSwitch) / 1000);
        taskList[from] := taskList[from].(status := Sleeping);
      }
      taskList[to] := taskList[to].(ctxSwitch := t2);
      taskList[to] := taskList[to].(status := Running);
      runningPid := taskList[to].pid;
      newSp := taskList[to].stackPtr;
    }

    /** The hardware, on taking PendSV. */
    method AcknowledgePendSv()
      requires Valid()
      modifies this`pendSvSet
      ensures Valid() && Repr() == old(Repr())
      ensures State() == old(State()).(pending := false)
    {
      hide List.Valid;
      pendSvSet := false;
    }

    /** The C half of PendSV: takes the saved stack pointer and returns the one to restore from. The
        early return skips the restoring of PRIMASK. */
    method PendSvHandler(sp: nat, t1: nat, t2: nat) returns (newSp: nat)
      requires Valid() && taskList[runningPid].ctxSwitch <= t1
      requires queuedTask != taskList[runningPid].pid ==> queuedTask != runningPid
      modifies this`runningPid, this`primask, taskList
      ensures Valid() && Repr() == old(Repr())
      ensures State() == PendSv(old(State()), sp, t1, t2)
      ensures newSp == ResumeFrom(old(State()), sp)
    {
      hide List.Valid;
      var interrupts := primask;
      primask := true;
      if queuedTask == taskList[runningPid].pid {
        return sp;
      }
      newSp := ContextSwitch(runningPid, queuedTask, sp, t1, t2);
      primask := interrupts;
    }

    method SystickHandler(t1: nat, t2: nat, t3: nat)
      requires Valid() && State().ring != []
      modifies Repr()
      ensures Valid() && fresh(Repr() - old(Repr()))
      ensures State() == Systick(old(State()), t1, t2, t3)
    {
      hide List.Valid;
      var required := ReschedulingIsRequired(t1, t2);
      if required {
        var next := GetNextTask(t3);
        QueueContextSwitch(next);
      }
    }

    // ---- system calls ----------------------------------------------------------------------

    method Kill(victim: nat, now: nat)
      requires Valid() && victim < MAX_TASKS && State().ring != []
      requires Queued(Select(Marked(State(), victim), now).0, victim)
      modifies Repr()
      ensures Valid() && fresh(Repr() - old(Repr()))
      ensures State() == Scheduler.Kill(old(State()), victim, now)
    {
      hide List.Valid, Select;
      taskList[victim] := taskList[victim].(status := Complete);
      var next := GetNextTask(now);
      // The victim leaves its queue only now, so that the next task is found from its place.
      DequeueTask(victim);
      QueueContextSwitch(next);
    }

    method Die(task: nat, now: nat)
      requires Valid() && task < MAX_TASKS && State().ring != []
      requires Queued(Select(Marked(State(), taskList[task].pid), now).0, taskList[task].pid)
      modifies Repr()
      ensures Valid() && fresh(Repr() - old(Repr()))
      ensures State() == Scheduler.Kill(old(State()), old(State()).tasks[task].pid, now)
    {
      Kill(taskList[task].pid, now);
    }

    method Yield(now: nat)
      requires Valid() && State().ring != []
      modifies Repr()
      ensures Valid() && fresh(Repr() - old(Repr()))
      ensures State() == Scheduler.Yield(old(State()), now)
    {
      hide List.Valid;
      var next := GetNextTask(now);
      QueueContextSwitch(next);
    }

    method Sleep(task: nat, wake: nat, now: nat, answer: bool)
      requires Valid() && Queued(State(), task) && RingOutlives(State(), task)
      modifies Repr()
      ensures Valid() && fresh(Repr() - old(Repr()))
      ensures State() == Scheduler.SleepUntil(old(State()), task, wake, now, answer)
    {
      hide List.Valid;
      var next := SleepUntil(task, wake, now, answer);
      QueueContextSwitch(next);
    }

    /** Takes the next slot; its wake time and the time of its last switch stay what they were. */
    method TaskNew() returns (p: nat)
      requires Valid() && maxPid < MAX_TASKS
      modifies this`maxPid, taskList
      ensures Valid() && Repr() == old(Repr()) && p == old(maxPid)
      ensures State() == NewTask(old(State()))
    {
      hide List.Valid;
      p := maxPid;
      maxPid := maxPid + 1;
      taskList[p] := taskList[p].(pid := p);
      taskList[p] := taskList[p].(entry := 0, frequency := 0, runTicks := 0, stackPtr := 0, stackBase := 0);
      taskList[p] := taskList[p].(status := NotReady);
    }

    method CreateTask(args: CreateArgs, runner: Word, answer: bool) returns (p: nat)
      requires Valid() && maxPid < MAX_TASKS && SOFT + HARD <= args.stackBase <= cpu.mem.Length
      modifies Repr(), cpu, cpu.mem
      ensures Valid() && fresh(Repr() - old(Repr())) && p == old(maxPid)
      ensures State() == Create(old(State()), args, args.stackBase - SOFT - HARD, answer)
      ensures cpu.Now() == StackInited(old(cpu.Now()), args.stackBase, runner)
    {
      hide List.Valid, Prepared, StackInited;
      p := PrepareTask(args, runner);
      QueueTask(p, answer);
    }

    /** A new task up to its queueing. */
    method PrepareTask(args: CreateArgs, runner: Word) returns (p: nat)
      requires Valid() && maxPid < MAX_TASKS && SOFT + HARD <= args.stackBase <= cpu.mem.Length
      modifies this`maxPid, taskList, cpu, cpu.mem
      ensures Valid() && Repr() == old(Repr()) && p == old(maxPid)
      ensures State() == Prepared(old(State()), args, args.stackBase - SOFT - HARD)
      ensures cpu.Now() == StackInited(old(cpu.Now()), args.stackBase, runner)
    {
      hide List.Valid, StackInited;
      p := TaskNew();
      taskList[p] := taskList[p].(entry := args.entry);
      var sp := cpu.StackInit(args.stackBase, runner);
      taskList[p] := taskList[p].(stackPtr := sp);
      taskList[p] := taskList[p].(stackBase := args.stackBase);
      taskList[p] := taskList[p].(status := Sleeping);
      taskList[p] := taskList[p].(frequency := args.frequency);
    }

    /** Makes the first task the running one. */
    method Start(now: nat)
      requires Valid()
      modifies this`queuedTask, this`runningPid, taskList
      ensures Valid() && Repr() == old(Repr())
      ensures State() == Scheduler.Start(old(State()), now)
    {
      hide List.Valid;
      queuedTask := SPIN;
      runningPid := SPIN;
      taskList[SPIN] := taskList[SPIN].(status := Running);
      taskList[SPIN] := taskList[SPIN].(ctxSwitch := now);
    }
  }
}
