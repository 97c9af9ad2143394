/** The kernel and the processor as one machine, and the theorem that every task sees a private one. */
module Transparency {
  import opened Scheduler
  import opened Runs
  import opened Machines
  import opened Handlers

  /** The words of a stack: the stack pointer starts at hi and stays above lo. */
  datatype Region = Region(lo: nat, hi: nat)

  datatype System = System(w: World, m: Machine, stacks: map<nat, Region>)

  /** What a task sees of the machine: its registers, its stack pointer and the stack above it. */
  datatype Private = Private(r: Regs, psp: nat, stack: seq<Word>)

  datatype Action =
    | Execute(r: Regs, psp: nat, mem: seq<Word>)
    | Svc(e: Event, region: Region, entry: Word, atCall: Regs, junk: Regs)
    | SysTick(e: Event, junk: Regs)
    | TakePendSV
    | PendSV(t1: nat, t2: nat, junk: Regs)

  predicate Apart(a: Region, b: Region)
  {
    a.hi <= b.lo || b.hi <= a.lo
  }

  /** Room for the frames of an interrupt below the stack pointer. */
  predicate Fits(g: Region, psp: nat)
  {
    g.lo + ROOM <= psp <= g.hi
  }

  /** The number in r0 asks for this system call; anything above 5 is answered with an error. */
  predicate Asks(number: Word, w: World, e: Event)
  {
    match e
    case CallKill(v, _) => number == 0 || (number == 3 && v == w.k.running)
    case CallYield(_) => number == 1
    case CallSleep(_, _, _) => number == 2
    case CallCreate(_, _, _) => number == 4
    case Thread => number > 5
    case _ => false
  }

  /** The value a system call returns. */
  function Result(w: World, e: Event): (ret: Word)
    requires WellFormed(w.k)
  {
    if e.CallCreate? then w.k.nextPid else if e.Thread? then 0x1_0000_0000 - 5 else 0
  }

  predicate IsCreate(a: Action)
  {
    a.Svc? && a.e.CallCreate?
  }

  function StackFor(a: Action): Stack
    requires a.Svc?
  {
    if a.e.CallCreate? then NewStack(a.region.hi, a.entry, a.atCall) else NoStack
  }

  /** The kernel's view of an action. */
  function EventOf(s: System, a: Action): Event
    requires s.m.psp >= SOFT
  {
    match a
    case Execute(_, _, _) => Thread
    case Svc(e, _, _, _, _) => e
    case SysTick(e, _) => e
    case TakePendSV => Enter
    case PendSV(t1, t2, _) => Switch(s.m.psp - SOFT, t1, t2)
  }

  ghost predicate Possible(s: System, a: Action)
    requires Laid(s)
  {
    && Enabled(s.w, EventOf(s, a))
    && match a
       case Execute(r, psp, mem) =>
         && !Padded(r.xpsr) && Fits(s.stacks[s.w.k.running], psp) && |mem| == |s.m.mem|
         && (forall q <- s.stacks :: q != s.w.k.running ==> SameStack(s.stacks[q], s.m.mem, mem))
       case Svc(e, region, _, _, _) =>
         && Asks(s.m.r.r0, s.w, e)
         && (e.CallCreate? ==>
               && region.lo + ROOM <= region.hi <= |s.m.mem|
               && e.sp == region.hi - SOFT - HARD && e.args.stackBase == region.hi
               && (forall q <- s.stacks :: Apart(region, s.stacks[q])))
       case SysTick(e, _) => e.Tick?
       case TakePendSV => true
       case PendSV(_, _, _) => true
  }

  ghost predicate SameStack(g: Region, mem: seq<Word>, mem': seq<Word>)
  {
    |mem| == |mem'| && forall i :: g.lo <= i < g.hi && 0 <= i < |mem| ==> mem'[i] == mem[i]
  }

  /** The task has its context in the processor's registers. */
  predicate OnCore(s: System, p: nat)
  {
    p == s.w.k.running && !s.w.entered
  }

  /** Where the saved context of any other task is: PendSV has just saved that of the running one. */
  function SavedAt(s: System, p: nat): int
    requires WellFormed(s.w.k) && p < MAX_TASKS
  {
    if p == s.w.k.running then s.m.psp - SOFT else s.w.k.tasks[p].stackPtr
  }

  /** Stacks are pairwise disjoint, the pointer of the task on the core is inside its own, and so is the
      frame of every other task. */
  ghost predicate Laid(s: System)
  {
    && WellFormed(s.w.k) && Created(s.w.k, s.w.k.running) && SOFT <= s.m.psp
    && (forall p: nat :: p in s.stacks <==> Created(s.w.k, p))
    && (forall p <- s.stacks :: s.stacks[p].lo + ROOM <= s.stacks[p].hi <= |s.m.mem|)
    && (forall p, q | p in s.stacks && q in s.stacks && p != q :: Apart(s.stacks[p], s.stacks[q]))
    && (!s.w.entered ==> !Padded(s.m.r.xpsr) && Fits(s.stacks[s.w.k.running], s.m.psp))
    && (forall p <- s.stacks :: !OnCore(s, p) ==> Suspended(SavedAt(s, p), s.stacks[p], s.m.mem))
  }

  /** A whole frame inside the stack, for a context that can be interrupted again. */
  ghost predicate Suspended(sp: int, g: Region, mem: seq<Word>)
    requires g.hi <= |mem|
  {
    && 0 <= g.lo <= sp && sp + SOFT + HARD <= g.hi
    && var (r, psp) := Decode(mem, sp);
       !Padded(r.xpsr) && Fits(g, psp) && sp + SOFT + HARD <= psp
  }

  ghost predicate SystemInv(s: System)
  {
    Inv(s.w) && Laid(s)
  }

  /** A systick that preempts PendSV saves and restores on the main stack all that it uses. */
  function ApplyTo(s: System, a: Action): (m: Machine)
    requires SystemInv(s) && Possible(s, a)
  {
    match a
    case Execute(r, psp, mem) => Machine(r, psp, mem)
    case Svc(e, region, entry, atCall, junk) => SvcHandled(s.m, StackFor(a), Result(s.w, e), junk)
    case SysTick(e, junk) => if s.w.entered then s.m else TickHandled(s.m, junk)
    case TakePendSV => PendSvTaken(s.m)
    case PendSV(t1, t2, junk) => PendSvLeft(s.m, ResumeFrom(s.w.k, s.m.psp - SOFT), junk)
  }

  function Proceed(s: System, a: Action): System
    requires SystemInv(s) && Possible(s, a)
  {
    System(Next(s.w, EventOf(s, a)), ApplyTo(s, a),
           if IsCreate(a) then s.stacks[s.w.k.nextPid := a.region] else s.stacks)
  }

  // ---- what each task sees -----------------------------------------------------------------

  function StackAbove(g: Region, psp: nat, mem: seq<Word>): seq<Word>
    requires psp <= g.hi <= |mem|
  {
    mem[psp..g.hi]
  }

  /** The private machine of a task: the real registers for the one on the core, what its saved frame
      decodes to for every other. */
  function View(s: System, p: nat): Private
    requires Laid(s) && p in s.stacks
  {
    if OnCore(s, p) then
      Private(s.m.r, s.m.psp, StackAbove(s.stacks[p], s.m.psp, s.m.mem))
    else
      Frozen(SavedAt(s, p), s.stacks[p], s.m.mem)
  }

  function Frozen(sp: int, g: Region, mem: seq<Word>): Private
    requires g.hi <= |mem| && Suspended(sp, g, mem)
  {
    var (r, psp) := Decode(mem, sp);
    Private(r, psp, StackAbove(g, psp, mem))
  }

  /** What a task does itself: its code runs on its own machine, or a system call answers it. */
  datatype Deed = Rests | Ran(v: Private) | Answered(ret: Word)

  /** The reference semantics, in which every task has a machine of its own: thread code changes only
      the machine of the task it belongs to, a system call only its caller's r0, and interrupts
      nothing at all. */
  function Done(v: Private, d: Deed): Private
  {
    match d
    case Rests => v
    case Ran(v') => v'
    case Answered(ret) => v.(r := v.r.(r0 := ret))
  }

  function DeedOf(s: System, a: Action, p: nat): Deed
    requires SystemInv(s) && Possible(s, a) && p in s.stacks
  {
    if p != s.w.k.running then Rests
    else match a
      case Execute(r, psp, mem) => Ran(Private(r, psp, StackAbove(s.stacks[p], psp, mem)))
      case Svc(e, _, _, _, _) => Answered(Result(s.w, e))
      case _ => Rests
  }

  function Alone(s: System, a: Action, p: nat): Private
    requires SystemInv(s) && Possible(s, a) && (p in s.stacks || (IsCreate(a) && p == s.w.k.nextPid))
  {
    if p !in s.stacks then LaunchView(a.atCall, a.entry, a.region) else Done(View(s, p), DeedOf(s, a, p))
  }

  /** A new task starts in its entry function with r0-r3 zero and an empty stack. */
  function LaunchView(atCall: Regs, entry: Word, g: Region): Private
  {
    Private(Regs(0, 0, 0, 0, atCall.r12, atCall.lr, entry, THUMB, atCall.r8, atCall.r9, atCall.r10,
                 atCall.r11, atCall.r12, atCall.lr, entry, THUMB), g.hi, [])
  }

  /** A suspended task sees nothing of writes outside its stack. */
  lemma FrozenFrame(sp: int, g: Region, mem: seq<Word>, mem': seq<Word>)
    requires g.hi <= |mem| && Suspended(sp, g, mem) && SameStack(g, mem, mem')
    ensures Suspended(sp, g, mem') && Frozen(sp, g, mem') == Frozen(sp, g, mem)
  {
  }

  // ---- every step agrees with the reference semantics ---------------------------------------

  /** An action writes at most to the running task's stack and to the stack of a task it creates. */
  lemma OthersUntouched(s: System, a: Action, q: nat)
    requires SystemInv(s) && Possible(s, a) && q in s.stacks && q != s.w.k.running
    ensures SameStack(s.stacks[q], s.m.mem, ApplyTo(s, a).mem)
  {
    hide Inv, Enabled, Suspended, Written, Padded;
    var g := s.stacks[s.w.k.running];
    assert Apart(s.stacks[q], g);
    if s.w.entered {
      StaysSuspended(s, a);
    } else {
      match a
      case Execute(_, _, _) =>
      case Svc(e, region, _, _, junk) =>
        assert e.CallCreate? ==> Apart(region, g) && Apart(region, s.stacks[q]);
        SvcTransparent(s.m, StackFor(a), Result(s.w, e), junk);
      case SysTick(_, junk) => TickTransparent(s.m, junk);
      case TakePendSV => SaveRoundTrip(s.m);
      case PendSV(_, _, _) =>
    }
  }

  /** Writes below the stack pointer are outside what a task sees. */
  lemma BelowUnseen(g: Region, psp: nat, mem: seq<Word>, mem': seq<Word>)
    requires psp <= g.hi <= |mem| && |mem'| == |mem|
    requires forall i :: psp <= i < g.hi ==> mem'[i] == mem[i]
    ensures StackAbove(g, psp, mem') == StackAbove(g, psp, mem)
  {
  }

  lemma CallerSees(s: System, a: Action)
    requires SystemInv(s) && Possible(s, a) && a.Svc?
    ensures var (g, m') := (s.stacks[s.w.k.running], ApplyTo(s, a));
      && |m'.mem| == |s.m.mem| && m'.psp == s.m.psp && m'.r == s.m.r.(r0 := Result(s.w, a.e))
      && StackAbove(g, m'.psp, m'.mem) == StackAbove(g, s.m.psp, s.m.mem)
  {
    var g := s.stacks[s.w.k.running];
    assert IsCreate(a) ==> Apart(a.region, g);
    hide Inv, Enabled, Padded, SvcHandled;
    SvcTransparent(s.m, StackFor(a), Result(s.w, a.e), a.junk);
    BelowUnseen(g, s.m.psp, s.m.mem, ApplyTo(s, a).mem);
  }

  /** After an action, q is on the core, and sees what it would see alone. */
  ghost predicate SeenOnCore(s: System, a: Action, q: nat)
    requires SystemInv(s) && Possible(s, a)
  {
    var m' := ApplyTo(s, a);
    && q in s.stacks && |m'.mem| == |s.m.mem| && s.stacks[q].hi <= |s.m.mem|
    && !Padded(m'.r.xpsr) && Fits(s.stacks[q], m'.psp)
    && Private(m'.r, m'.psp, StackAbove(s.stacks[q], m'.psp, m'.mem)) == Alone(s, a, q)
  }

  /** What the task on the core sees after an action that leaves it there. */
  lemma RunningSees(s: System, a: Action)
    requires SystemInv(s) && Possible(s, a) && !s.w.entered && !a.TakePendSV?
    ensures SeenOnCore(s, a, s.w.k.running)
  {
    var g := s.stacks[s.w.k.running];
    if a.Svc? {
      CallerSees(s, a);
    } else if a.SysTick? {
      TickTransparent(s.m, a.junk);
      BelowUnseen(g, s.m.psp, s.m.mem, ApplyTo(s, a).mem);
    }
    hide Inv, TickHandled, SvcHandled, Padded;
  }

  /** A task that PendSV puts on the core gets exactly what its frame holds. */
  lemma ResumedSees(s: System, a: Action)
    requires SystemInv(s) && Possible(s, a) && a.PendSV?
    ensures SeenOnCore(s, a, s.w.k.queued)
  {
    QueuedFrame(s);
    hide Inv, Enabled;
    DecodeIsResume(Clobbered(s.m, a.junk), SavedAt(s, s.w.k.queued));
  }

  /** PendSV's C half returns the frame of the queued task. */
  lemma QueuedFrame(s: System)
    requires SystemInv(s)
    ensures s.w.k.queued in s.stacks && ResumeFrom(s.w.k, s.m.psp - SOFT) == SavedAt(s, s.w.k.queued)
  {
  }

  lemma InitialFrameSeen(mem: seq<Word>, g: Region, atCall: Regs, entry: Word)
    requires g.lo + ROOM <= g.hi <= |mem| && mem[g.hi - SOFT - HARD..g.hi] == InitialFrame(atCall, entry)
    ensures var sp := g.hi - SOFT - HARD;
      Suspended(sp, g, mem) && Frozen(sp, g, mem) == LaunchView(atCall, entry, g)
  {
  }

  /** A created task has its initial frame on its stack. */
  lemma CreatedFrame(s: System, a: Action)
    requires SystemInv(s) && Possible(s, a) && IsCreate(a)
    ensures a.region.lo + ROOM <= a.region.hi <= |s.m.mem| == |ApplyTo(s, a).mem|
    ensures ApplyTo(s, a).mem[a.region.hi - SOFT - HARD..a.region.hi] == InitialFrame(a.atCall, a.entry)
  {
  }

  /** What an action does to the kernel's records of who runs and where the others are saved. */
  lemma StepRecords(w: World, e: Event)
    requires Inv(w) && Enabled(w, e)
    ensures var (k, k') := (w.k, Next(w, e).k);
      && WellFormed(k')
      && k'.nextPid == (if e.CallCreate? then k.nextPid + 1 else k.nextPid)
      && k'.running == (if e.Switch? then k.queued else k.running)
      && (forall p: nat :: Created(k, p) ==>
            k'.tasks[p].stackPtr ==
            if e.Switch? && p == k.running != k.queued then e.sp else k.tasks[p].stackPtr)
      && (e.CallCreate? ==> k'.tasks[k.nextPid].stackPtr == e.sp)
  {
    if Switches(w, e) {
      StepWellFormed(w, e);
    } else {
      QuietStep(w, e);
      if e.CallCreate? {
        CreateShape(w.k, e.args, e.sp, e.answer);
      }
    }
  }

  /** After an action, q is suspended at sp in the stack g, and sees what it would see alone. */
  ghost predicate SeenSuspended(s: System, a: Action, q: nat, sp: int, g: Region)
    requires SystemInv(s) && Possible(s, a)
  {
    var mem' := ApplyTo(s, a).mem;
    && (q in s.stacks || (IsCreate(a) && q == s.w.k.nextPid))
    && g.lo + ROOM <= g.hi <= |s.m.mem| == |mem'|
    && 0 <= sp && Suspended(sp, g, mem') && Frozen(sp, g, mem') == Alone(s, a, q)
  }

  lemma OtherSuspended(s: System, a: Action, q: nat)
    requires SystemInv(s) && Possible(s, a) && q in s.stacks && q != s.w.k.running
    ensures q < MAX_TASKS && WellFormed(s.w.k)
    ensures SeenSuspended(s, a, q, s.w.k.tasks[q].stackPtr, s.stacks[q])
  {
    OthersUntouched(s, a, q);
    hide Inv, Enabled, Possible, ApplyTo;
    FrozenFrame(s.w.k.tasks[q].stackPtr, s.stacks[q], s.m.mem, ApplyTo(s, a).mem);
  }

  lemma NewSuspended(s: System, a: Action)
    requires SystemInv(s) && Possible(s, a) && IsCreate(a)
    ensures SeenSuspended(s, a, s.w.k.nextPid, a.region.hi - SOFT - HARD, a.region)
  {
    hide SystemInv, Possible, ApplyTo, Suspended, Frozen, LaunchView;
    NewPidUnused(s);
    CreatedFrame(s, a);
    InitialFrameSeen(ApplyTo(s, a).mem, a.region, a.atCall, a.entry);
  }

  lemma NewPidUnused(s: System)
    requires SystemInv(s)
    ensures s.w.k.nextPid !in s.stacks
  {
  }

  lemma NotYetTaken(s: System, a: Action)
    requires SystemInv(s) && Possible(s, a) && a.TakePendSV?
    ensures !s.w.entered
  {
  }

  /** Taking PendSV suspends the running task with all it had. */
  lemma TakenSuspended(s: System, a: Action)
    requires SystemInv(s) && Possible(s, a) && a.TakePendSV?
    ensures s.w.k.running in s.stacks
    ensures SeenSuspended(s, a, s.w.k.running, ApplyTo(s, a).psp - SOFT, s.stacks[s.w.k.running])
  {
    hide Inv, Enabled, Next, Written;
    var g := s.stacks[s.w.k.running];
    NotYetTaken(s, a);
    SaveRoundTrip(s.m);
    SameSlice(s.m.mem, ApplyTo(s, a).mem, s.m.psp - ROOM, s.m.psp, s.m.psp, g.hi);
  }

  /** From then on its frame is not touched, whoever preempts PendSV and whomever it switches to. */
  lemma StaysSuspended(s: System, a: Action)
    requires SystemInv(s) && Possible(s, a) && s.w.entered
    ensures s.w.k.running in s.stacks && ApplyTo(s, a).mem == s.m.mem
    ensures SeenSuspended(s, a, s.w.k.running, s.m.psp - SOFT, s.stacks[s.w.k.running])
    ensures a.SysTick? || a.PendSV?
    ensures a.SysTick? ==> ApplyTo(s, a) == s.m
  {
    hide Inv, Suspended, Frozen;
  }

  /** After any action, every task not on the core is properly suspended, and sees what it would see
      on a machine of its own. */
  lemma StepSuspended(s: System, a: Action, q: nat)
    requires SystemInv(s) && Possible(s, a)
    requires var s' := Proceed(s, a); WellFormed(s'.w.k) && q in s'.stacks && !OnCore(s', q)
    ensures q < MAX_TASKS
    ensures var s' := Proceed(s, a); SeenSuspended(s, a, q, SavedAt(s', q), s'.stacks[q])
  {
    hide Inv, NextKernel, SeenSuspended, ApplyTo, Suspended, Apart, Padded;
    StepRecords(s.w, EventOf(s, a));
    if q !in s.stacks {
      NewSuspended(s, a);
    } else if q != s.w.k.running {
      OtherSuspended(s, a, q);
    } else if s.w.entered {
      StaysSuspended(s, a);
    } else {
      TakenSuspended(s, a);
    }
  }

  /** After any action, the task on the core has a stack pointer of its own, and sees what it would
      see on a machine of its own. */
  lemma StepRunning(s: System, a: Action)
    requires SystemInv(s) && Possible(s, a)
    requires var s' := Proceed(s, a); WellFormed(s'.w.k) && !s'.w.entered
    ensures SeenOnCore(s, a, Proceed(s, a).w.k.running)
    ensures s.stacks[Proceed(s, a).w.k.running] == Proceed(s, a).stacks[Proceed(s, a).w.k.running]
  {
    hide Inv, NextKernel, ApplyTo, Padded, SeenOnCore;
    StepRecords(s.w, EventOf(s, a));
    NewPidUnused(s);
    if a.PendSV? {
      ResumedSees(s, a);
      QueuedFrame(s);
    } else {
      RunningSees(s, a);
    }
  }

  /** The stacks of all tasks, the new one included, stay apart. */
  lemma StepApart(s: System, a: Action)
    requires SystemInv(s) && Possible(s, a) && WellFormed(Proceed(s, a).w.k)
    ensures var s' := Proceed(s, a);
      && (forall p: nat :: p in s'.stacks <==> Created(s'.w.k, p))
      && (forall p, q | p in s'.stacks && q in s'.stacks && p != q :: Apart(s'.stacks[p], s'.stacks[q]))
  {
    hide Inv, Enabled, Next, ApplyTo, Padded, Suspended;
    StepRecords(s.w, EventOf(s, a));
  }

  lemma StepLaid(s: System, a: Action)
    requires SystemInv(s) && Possible(s, a)
    ensures Laid(Proceed(s, a))
  {
    hide SystemInv, Possible, Next, ApplyTo, Padded, Suspended, Alone, Apart, EventOf;
    var s' := Proceed(s, a);
    StepWell(s, a);
    StepApart(s, a);
    if s'.w.entered {
      StepSuspended(s, a, s'.w.k.running);
    } else {
      StepRunning(s, a);
    }
    forall q | q in s'.stacks
      ensures s'.stacks[q].lo + ROOM <= s'.stacks[q].hi <= |s'.m.mem|
      ensures !OnCore(s', q) ==> Suspended(SavedAt(s', q), s'.stacks[q], s'.m.mem)
    {
      if !OnCore(s', q) {
        StepSuspended(s, a, q);
      }
    }
  }

  lemma StepWell(s: System, a: Action)
    requires SystemInv(s) && Possible(s, a)
    ensures var s' := Proceed(s, a);
      && Inv(s'.w) && WellFormed(s'.w.k) && Created(s'.w.k, s'.w.k.running)
  {
    hide Next, Enabled, ApplyTo;
    StepKeeps(s.w, EventOf(s, a));
  }

  /** Transparency, one step: the system stays well laid out, and what every task sees after any
      action is what it would see on a machine of its own. */
  lemma StepTransparent(s: System, a: Action)
    requires SystemInv(s) && Possible(s, a)
    ensures SystemInv(Proceed(s, a))
    ensures forall p <- Proceed(s, a).stacks ::
              (p in s.stacks || (IsCreate(a) && p == s.w.k.nextPid)) && View(Proceed(s, a), p) == Alone(s, a, p)
  {
    var s' := Proceed(s, a);
    StepLaid(s, a);
    StepWell(s, a);
    hide Inv, Possible, Next, ApplyTo, Padded, Suspended, Alone, EventOf, StackAbove;
    forall p | p in s'.stacks
      ensures p in s.stacks || (IsCreate(a) && p == s.w.k.nextPid)
      ensures View(s', p) == Alone(s, a, p)
    {
      if OnCore(s', p) {
        StepRunning(s, a);
      } else {
        StepSuspended(s, a, p);
      }
    }
  }

  // ---- over whole runs ---------------------------------------------------------------------

  ghost predicate CanRun(s: System, acts: seq<Action>)
    requires SystemInv(s)
    decreases acts
  {
    acts == [] || (Possible(s, acts[0]) && (StepTransparent(s, acts[0]); CanRun(Proceed(s, acts[0]), acts[1..])))
  }

  ghost function Reached(s: System, acts: seq<Action>, n: nat): (s': System)
    requires SystemInv(s) && CanRun(s, acts) && n <= |acts|
    ensures SystemInv(s')
    decreases n
  {
    if n == 0 then s
    else
      StepTransparent(s, acts[0]);
      Reached(Proceed(s, acts[0]), acts[1..], n - 1)
  }

  /** A task that exists stays, and one step does to its machine what it does itself. */
  lemma StepDeed(s: System, a: Action, p: nat)
    requires SystemInv(s) && Possible(s, a) && p in s.stacks
    ensures SystemInv(Proceed(s, a)) && p in Proceed(s, a).stacks
    ensures View(Proceed(s, a), p) == Done(View(s, p), DeedOf(s, a, p))
  {
    hide SystemInv, Possible, View, DeedOf;
    StepTransparent(s, a);
  }

  /** What a task does itself in the first n actions of a run. */
  ghost function Deeds(s: System, acts: seq<Action>, n: nat, p: nat): seq<Deed>
    requires SystemInv(s) && CanRun(s, acts) && n <= |acts| && p in s.stacks
    decreases n
  {
    if n == 0 then []
    else
      StepDeed(s, acts[0], p);
      [DeedOf(s, acts[0], p)] + Deeds(Proceed(s, acts[0]), acts[1..], n - 1, p)
  }

  /** A task's machine after its own deeds, one after the other. */
  function AllDone(v: Private, ds: seq<Deed>): Private
    decreases |ds|
  {
    if ds == [] then v else AllDone(Done(v, ds[0]), ds[1..])
  }

  /** Transparency over every run: at any point of any interleaving of thread code, system calls, SysTick
      and PendSV, a task sees exactly what its own code and the answers to its own system calls would
      have made of a machine that nobody else uses. */
  lemma {:induction false} Transparent(s: System, acts: seq<Action>, n: nat, p: nat)
    requires SystemInv(s) && CanRun(s, acts) && n <= |acts| && p in s.stacks
    ensures p in Reached(s, acts, n).stacks
    ensures View(Reached(s, acts, n), p) == AllDone(View(s, p), Deeds(s, acts, n, p))
    decreases n
  {
    hide Possible, Proceed, Inv, Laid, Decode, View, DeedOf;
    if n > 0 {
      StepDeed(s, acts[0], p);
      Transparent(Proceed(s, acts[0]), acts[1..], n - 1, p);
    }
  }

  /** The action belongs to the running task: it is its thread code or its system call. */
  predicate IsThreads(a: Action)
  {
    a.Execute? || a.Svc?
  }

  /** In particular a task that does not act itself resumes exactly as it was suspended. */
  lemma {:induction false} ResumesAsSuspended(s: System, acts: seq<Action>, n: nat, p: nat)
    requires SystemInv(s) && CanRun(s, acts) && n <= |acts| && p in s.stacks
    requires forall i :: 0 <= i < n && IsThreads(acts[i]) ==> Reached(s, acts, i).w.k.running != p
    ensures var s' := Reached(s, acts, n);
      && p in s'.stacks && View(s', p) == View(s, p)
      && (OnCore(s, p) && OnCore(s', p) ==> s'.m.r == s.m.r && s'.m.psp == s.m.psp)
    decreases n
  {
    hide Possible, Proceed, Inv, Laid, Decode;
    if n > 0 {
      var a, rest := acts[0], acts[1..];
      assert Reached(s, acts, 0) == s;
      StepDeed(s, a, p);
      var s1 := Proceed(s, a);
      forall i: nat | i < n - 1 && IsThreads(rest[i]) ensures Reached(s1, rest, i).w.k.running != p {
        assert Reached(s, acts, i + 1) == Reached(s1, rest, i);
      }
      ResumesAsSuspended(s1, rest, n - 1, p);
    }
  }

  // ---- the kernel inside the system --------------------------------------------------------

  ghost function Worlds(s: System, acts: seq<Action>): (ws: seq<World>)
    requires SystemInv(s) && CanRun(s, acts)
    ensures |ws| == |acts| + 1 && ws[0] == s.w
    decreases acts
  {
    if acts == [] then [s.w]
    else
      StepTransparent(s, acts[0]);
      [s.w] + Worlds(Proceed(s, acts[0]), acts[1..])
  }

  ghost function Events(s: System, acts: seq<Action>): (es: seq<Event>)
    requires SystemInv(s) && CanRun(s, acts)
    ensures |es| == |acts|
    decreases acts
  {
    if acts == [] then []
    else
      StepTransparent(s, acts[0]);
      [EventOf(s, acts[0])] + Events(Proceed(s, acts[0]), acts[1..])
  }

  /** The other way round, whatever the kernel can do the system can do: the number of the call is in r0, a
      new task brings a stack of its own, and for the context PendSV saves its own pointer. */
  lemma EveryEvent(s: System, e: Event, junk: Regs)
    requires SystemInv(s) && Enabled(s.w, e)
    requires e.Switch? ==> e.sp == s.m.psp - SOFT
    requires IsCall(e) ==> Asks(s.m.r.r0, s.w, e)
    requires e.CallCreate? ==>
               && 0 <= e.sp == e.args.stackBase - SOFT - HARD && ROOM <= e.args.stackBase <= |s.m.mem|
               && forall q <- s.stacks ::
                    s.stacks[q].hi <= e.args.stackBase - ROOM || e.args.stackBase <= s.stacks[q].lo
    ensures exists a :: Possible(s, a) && EventOf(s, a) == e && (IsCall(e) ==> a.Svc?)
  {
    hide Suspended, Partition, SingleRunner, Numbered, Handshake, Timed;
    var a := match e
      case Thread => Execute(s.m.r, s.m.psp, s.m.mem)
      case Tick(_, _, _) => SysTick(e, junk)
      case Enter => TakePendSV
      case Switch(_, t1, t2) => PendSV(t1, t2, junk)
      case CallCreate(args, _, _) => Svc(e, Region(args.stackBase - ROOM, args.stackBase), 0, junk, junk)
      case _ => Svc(e, Region(0, 0), 0, junk, junk);
    assert Possible(s, a);
  }

  /** A run of the whole system is a run of the kernel, state by state and event by event, so
      whatever holds of every kernel run holds of the states the system goes through. */
  lemma {:induction false} KernelRun(s: System, acts: seq<Action>)
    requires SystemInv(s) && CanRun(s, acts)
    ensures Inv(s.w) && IsRun(Worlds(s, acts), Events(s, acts))
    ensures forall n :: 0 <= n <= |acts| ==> Worlds(s, acts)[n] == Reached(s, acts, n).w
    ensures forall n :: 0 <= n < |acts| ==>
              Reached(s, acts, n).m.psp >= SOFT && Events(s, acts)[n] == EventOf(Reached(s, acts, n), acts[n])
    decreases |acts|
  {
    hide Inv, Laid, Possible, Enabled, Next, ApplyTo, EventOf;
    if acts != [] {
      StepTransparent(s, acts[0]);
      var s1 := Proceed(s, acts[0]);
      KernelRun(s1, acts[1..]);
      StepIsEvent(s, acts[0]);
      forall n: nat | 0 < n <= |acts| ensures Reached(s, acts, n) == Reached(s1, acts[1..], n - 1) {
      }
    }
  }

  lemma StepIsEvent(s: System, a: Action)
    requires SystemInv(s) && Possible(s, a)
    ensures Inv(s.w) && s.m.psp >= SOFT && Enabled(s.w, EventOf(s, a))
    ensures Proceed(s, a).w == Next(s.w, EventOf(s, a))
  {
  }
}
