# gkrtos in Dafny

gkrtos is a small preemptive kernel for the RP2040. This project models its four coupled parts and
proves what they are for.

- **The ring** (`Rings.dfy`): the circular doubly linked list, as nodes with `next` and `prev` fields
  rewritten in place, refining a plain sequence read from the moving head.
- **The scheduler**: `Scheduler.dfy` says on values what every operation does to the task table, the
  round-robin ring, the time queue and the core record; `Os.dfy` is the kernel itself, globals updated
  in place, each operation proved to do exactly that. `Runs.dfy` makes runs of it (create, yield, sleep,
  kill, systick, the two halves of PendSV and thread execution, with every clock read an input); `Effects.dfy`
  says queue by queue and record by record what each event leaves behind; `Boot.dfy`, `Statuses.dfy`,
  `Selection.dfy`, `RealTime.dfy`, `Slices.dfy`, `Fairness.dfy` and `Accounting.dfy` hold the theorems
  about runs, and `Scenarios.dfy` the runs from the start that show where the code falls short.
- **The context switch**: `Machines.dfy` says on values what the assembly and the exception hardware do, and
  `Handlers.dfy` what a whole handler does; `Assembly.dfy` is the assembly, instruction group by instruction
  group; `Transparency.dfy` puts kernel and processor
  together and proves that every task sees a machine of its own; `SystemStart.dfy` gets there
  from reset; `Boards.dfy` is the three handlers in place, proved to take exactly the steps of that system;
  `Calls.dfy` says what a system call does and answers.
- **The runner** (`Runner.dfy`): the periodic loop; `Periodic.dfy` puts it into the running system.

Conventions. A task pointer always points into the task table, so a task is its index there; the table is
an array of records. Times are unbounded microsecond counts with 0 for nil, so sums do not wrap;
`absolute_time_diff_us(a, b)` is `b - a`. Memory addresses count 32-bit words, so 16 bytes are 4. Frames
follow sections B1.5.6 and B1.5.8 of the ARMv6-M Architecture Reference Manual, with the padding word that
keeps exception frames eight-byte aligned; an address in pc keeps the Thumb bit it was stored with. SVC and
SysTick share a priority above PendSV's (`arch/rp2040/rp2040_defs.h:26-28`), so nothing preempts either and
each is one step, and PendSV is taken before thread code continues. SysTick can preempt PendSV up to
`src/gkrtos/interrupts/pendsv.c:28`, where interrupts are masked, so PendSV is two steps: it is taken, which
clears its pending bit and saves the context, and its C half runs to the exception return. Any number of
systicks may come in between; where exactly they do makes no difference, as the saving touches nothing that
they touch. A systick that preempts the way out is modelled as coming right after it. While PRIMASK is set no
exception is taken and a supervisor call is a fault, so only thread code happens. Only core 0 is modelled;
nothing starts core 1. Tail-chained exceptions are modelled as a return followed by an entry, which leaves the
same frame.

Assumptions on callers, each the guard of an event: task 1, the spin task, is never killed or put to
sleep; a killed or sleeping task is live; fewer than 128 tasks are created; stacks are disjoint and have room for an
interrupt frame; nobody writes to another task's stack. `Runs.NeverStuck` proves that
kernel events assume nothing else. Actions of the whole system (`Transparency.Possible`) assume the stacks,
that thread code keeps its stack pointer in its stack and bit 9 of its xPSR clear, and that r0 holds the number
of the call.

Where the code does less than its comments say, the model follows the code:

- `gkrtos_list_insert_sorted` looks at one pair of neighbours only, and hands its comparator list nodes
  where `queue_sort` reads tasks. The comparator's answer is therefore an input, any boolean. Even with the
  comparator that is intended the queue does not stay sorted: `Scenarios.SortedCanBreak` gives a run,
  `Selection.SortedExactly` the exact condition. `Selection.SortedForAnswer` and `SortedForAnyAnswer` give
  the exact conditions for the comparator as it is called.
- A kill can select its own victim, which then runs: `Scenarios.KilledTaskRuns` gives a run,
  `Selection.KillSelection` the exact condition.
- A sleeper is selected by its wake time only if every systick handler reads the clock for the last time
  within 1000 us of its predecessor's first read. `src/gkrtos/interrupts/systick.c:49` reloads the
  timer with the cycles of a millisecond, which gives a period one cycle longer. The bounds therefore take the spacing P as a
  parameter, and `Scenarios.DeadlineIsTight` gives runs, for every P, that use it up.
- PendSV can find that the queued task is the one on the core. The source then returns with interrupts
  masked, and that task keeps the core for ever (`Slices.MaskedForever`). `Slices.EarlyReturnExactly` is the exact
  condition. `Scenarios.HogIsNeverReplaced` gives a run in which a systick comes before PendSV, and
  `Scenarios.PreemptedPendSv` one in which PendSV is taken at once and a systick preempts it.
- A slot of the task table that was never used has status RUNNING, the zero of the enumeration; the single
  runner theorem is about tasks that were created.
- The two self-link repairs at the end of `gkrtos_list_remove` can never apply (`Rings.List.Bridge`).

## Model

| member | source | states |
|---|---|---|
| Rings.List.constructor | src/gkrtos/structures/list.c:162-167 | A new list is a valid empty ring. |
| Rings.List.Append | src/gkrtos/structures/list.c:28-50 | The ring stays one cycle and its sequence grows by the item at the end. |
| Rings.List.InsertSorted | src/gkrtos/structures/list.c:54-79 | The ring stays one cycle; the item lands at the end of a list of at most one, else behind the first or the second element, whichever the comparator's answer picks. |
| Rings.List.Prepend | src/gkrtos/structures/list.c:81-102 | The ring stays one cycle; the item lands right behind the head. |
| Rings.List.InsertHead | src/gkrtos/structures/list.c:104-126 | The ring stays one cycle; the item becomes the head. |
| Rings.List.Remove | src/gkrtos/structures/list.c:128-160 | For every length and position, head included, the ring stays one cycle and its sequence loses exactly that position; an empty list is left alone. |
| Rings.List.Bridge | src/gkrtos/structures/list.c:134-154 | The pointer surgery of removal leaves the other nodes linked as the shorter ring; the two repairs for self-links after an ordinary removal are dead code. |
| Rings.List.GetItemWithData | src/gkrtos/structures/list.c:181-197 | Finds the first node holding the data, and nothing exactly when none does. |
| Rings.List.Rotate | src/gkrtos/structures/list.c:207-213 | Moves the first element to the end by moving the head only; an empty list gives nothing. |
| Rings.List.GetHead | src/gkrtos/structures/list.c:169-171 | The first element. |
| Rings.List.GetFollowingHeadItem | src/gkrtos/structures/list.c:173-175 | The element that a rotation would bring to the head. |
| Rings.List.GetTail | src/gkrtos/structures/list.c:177-179 | The last element. |
| Rings.List.IsEmpty | src/gkrtos/structures/list.c:214-216 | True exactly of the empty list. |
| Os.Os.constructor | src/gkrtos/tasking/tasking.c:249-257 | Two empty queues, idle core record, zeroed task table. |
| Os.Os.GetNextTask | src/gkrtos/tasking/tasking.c:133-160 | The heap operation equals the selection rule: a due head of the time queue joins the ring's end and is returned, otherwise the ring rotates; the two rings stay valid and share no node. |
| Os.Os.QueueTask | src/gkrtos/tasking/tasking.c:163-181 | Equals the queueing rule: before the head if strictly earlier, else by the comparator's answer; tasks without wake time go behind the ring's head. |
| Os.Os.DequeueTask | src/gkrtos/tasking/tasking.c:183-194 | Takes the task, once, out of the queue its wake time names. |
| Os.Os.SleepUntil | src/gkrtos/tasking/tasking.c:198-216 | Requeues the caller under its wake time and then selects. |
| Os.Os.ReschedulingIsRequired | src/gkrtos/tasking/tasking.c:109-130 | The systick test: slice over, or head of the time queue due within a systick. |
| Os.Os.QueueContextSwitch | src/gkrtos/tasking/tasking.c:233-247 | Records the queued task and pends PendSV exactly when another task is running. |
| Os.Os.ContextSwitch | src/gkrtos/tasking/tasking.c:65-88 | Saves the old stack pointer, charges a running task whole milliseconds, and hands over core, status, switch time and stack pointer. |
| Os.Os.TaskNew | src/gkrtos/tasking/tasking.c:34-58 | Numbers tasks consecutively and resets the record, except wake time and last switch time. |
| Os.Os.Kill | src/gkrtos/syscalls/syscalls_impl.c:58-73 | Marks, selects, and only then dequeues the victim. |
| Os.Os.Die | src/gkrtos/syscalls/syscalls_impl.c:52-56 | A kill of the calling task. |
| Os.Os.Yield | src/gkrtos/syscalls/syscalls_impl.c:75-81 | Selects and queues the switch. |
| Os.Os.Sleep | src/gkrtos/syscalls/syscalls_impl.c:83-89 | Sleeps the caller and queues the switch to the task selected. |
| Os.Os.CreateTask | src/gkrtos/syscalls/syscalls_impl.c:91-104 | Fills the next record, builds the stack with stack_init and queues the task; returns its pid. |
| Os.Os.AcknowledgePendSv | src/gkrtos/interrupts/pendsv.c:61-64 | Taking PendSV clears the bit that was set to pend it. |
| Os.Os.PendSvHandler | src/gkrtos/interrupts/pendsv.c:27-49 | Switches to the queued task and returns its saved stack pointer, or returns the one it was given when that task already runs, with PRIMASK left set. |
| Os.Os.SystickHandler | src/gkrtos/interrupts/systick.c:26-33 | Selects and queues a switch exactly when the test asks for it. |
| Os.Os.Start | src/gkrtos/gkrtos.c:47-58 | Makes task 1 running, queued and on the clock. |
| Assembly.Cpu.ContextSave | src/gkrtos/asm.S:22-33 | Stores r8-r11 and r4-r7 in eight words below the stack pointer and returns that address; the pointer itself stays. |
| Assembly.Cpu.ContextRestore | src/gkrtos/asm.S:35-43 | Loads them back and puts the stack pointer above them. |
| Assembly.Cpu.StackInit | src/gkrtos/asm.S:80-99 | Builds the sixteen-word frame of a new task; keeps its caller's r4-r7, not the process stack pointer. |
| Assembly.Cpu.BeginTasking | src/gkrtos/asm.S:104-117 | Enters a task from its saved stack pointer without an exception return. |
| Boards.Board.InternalSyscall | src/gkrtos/syscalls/syscalls_impl.c:25-50 | Dispatches on the number in r0; answers 0, for a creation the new number, and for unknown numbers minus five. |
| Boards.Board.SvcallHandler | src/gkrtos/interrupts/svcall.c:27-34 | Runs the call and keeps the saved stack pointer for the assembly. |
| Boards.Board.IsrSvcall | src/gkrtos/asm.S:54-65 | The handler in place takes kernel, registers and memory exactly where the step of the whole system says. |
| Boards.Board.EnterPendSv | src/gkrtos/asm.S:122-124 | The same for PendSV up to its C half. |
| Boards.Board.FinishPendSv | src/gkrtos/asm.S:126-130 | And from the C half to the exception return. |
| Boards.Board.PreemptPendSv | src/gkrtos/interrupts/systick.c:26-33 | A systick between the two changes the kernel as the system's step says, and no register or stack. |
| Boards.Board.IsrSystick | src/gkrtos/asm.S:48-49 | The same for SysTick. |
| Boards.Board.CreateBeforeStart | src/gkrtos/gkrtos.c:37-43 | Creating a task before tasking starts extends the boot state and the stacks built by one. |
| Boards.Board.Start | src/gkrtos/gkrtos.c:47-61 | After the start the board shows a system that satisfies the invariant, so every handler may run. |
| Boot.BootOrder | src/gkrtos/syscalls/syscalls_impl.c:91-104 | After n creations pids are 1..n, each in its slot with its own record, and the ring reads 1, n, n-1, ..., 2. |
| Boot.StartShape | src/gkrtos/gkrtos.c:47-58 | The start puts task 1 on the core, RUNNING from now on, and changes nothing else. |
| Boot.BootRound | src/gkrtos/gkrtos.c:37-54 | From the start n idle selections return n, ..., 2, 1, each task once, and restore the queues. |
| Boot.StartedInv | src/gkrtos/gkrtos.c:47-58 | The initial state satisfies the invariant, and the task that runs first is the ring's head. |
| Boot.ReachableInv | src/gkrtos/tasking/tasking.c:133-247 | Every state of every run satisfies it. |
| Boot.QueuePartition | src/gkrtos/tasking/tasking.c:134-216 | In every reachable state a task is queued exactly once across both queues if live and nowhere otherwise, in the time queue exactly when its wake time is set; the lengths add up to the number of live tasks. |
| Scenarios.KilledTaskRuns | src/gkrtos/syscalls/syscalls_impl.c:58-73 | From the start with three tasks, a run in which task 3 kills task 2 and PendSV then puts the dead task on the core: it is not live, in no queue, and has status RUNNING. |
| Runs.StepKeeps | src/gkrtos/syscalls/syscalls_impl.c:52-104 | Every system call, systick, PendSV and thread step keeps partition, numbering, handshake, single runner and clock order. |
| Runs.NeverStuck | src/gkrtos/tasking/tasking.c:139-151 | In reachable states an event can happen exactly when its caller meets a few checkable conditions; the ring is never empty. |
| Runs.QuietStep | src/gkrtos/interrupts/pendsv.c:31-48 | Only an actual switch changes accounts, switch times, saved stack pointers and, unless it is killed, the running task's status. |
| Runs.SelectPartition | src/gkrtos/tasking/tasking.c:134-160 | Selection loses and duplicates no task and returns a live one, in the ring with nil wake time. |
| Effects.ChoiceEffects | src/gkrtos/tasking/tasking.c:133-160 | A selection moves a due head of the time queue to the ring's end and queues it, otherwise it moves the ring's first element to the end and queues the new first; no record changes but the woken task's wake time. |
| Effects.YieldEffects | src/gkrtos/syscalls/syscalls_impl.c:75-81 | A yield does exactly that. |
| Effects.TickEffects | src/gkrtos/interrupts/systick.c:26-33 | A systick does exactly that when the task on the core has had it for more than 6000 us or the head of the time queue is due, and else nothing. |
| Effects.SleepEffects | src/gkrtos/tasking/tasking.c:198-216 | From any place in the ring the caller leaves it with all others in order, goes to its place among the sleepers, or without a wake time behind the ring's first, and then comes the choice: who runs next, both queues and every record are pinned. |
| Effects.KillEffects | src/gkrtos/syscalls/syscalls_impl.c:58-73 | The choice is made with the victim still queued; then the victim alone leaves its queue, and its status alone becomes COMPLETE. |
| Effects.CreateEffects | src/gkrtos/syscalls/syscalls_impl.c:91-104 | The new task has the next number and the record asked for, and stands behind the ring's head; all else stays. |
| Effects.SwitchEffects | src/gkrtos/tasking/tasking.c:65-88 | The outgoing task is charged its own slice and becomes SLEEPING iff it was RUNNING, and keeps its stack pointer; the incoming one becomes RUNNING from the second clock read; nobody else changes. |
| Effects.RecordEffects | src/gkrtos/tasking/tasking.c:72-83 | For every event and every task, the exact status and account afterwards. |
| Statuses.LiveStatus | src/gkrtos/tasking/tasking.c:75-85 | In every reachable state a live task is RUNNING if it is on the core and SLEEPING otherwise. |
| Statuses.KilledStatus | src/gkrtos/syscalls/syscalls_impl.c:60-61 | A killed task has status COMPLETE until it is switched to again. |
| Selection.RescheduleAgreement | src/gkrtos/tasking/tasking.c:109-160 | When the test fires for a due head, any later selection returns that head; the ring is used exactly when the queue half of the test would be false. |
| Selection.KillSelection | src/gkrtos/syscalls/syscalls_impl.c:58-73 | The victim leaves both queues, and is itself queued to run exactly if it is the due head of the time queue or, with none due, the successor of the ring's head. |
| Selection.HeadDiesCleanly | src/gkrtos/syscalls/syscalls_impl.c:64-71 | A ring head dying in a ring of two or more hands over to another live task. |
| Selection.EnqueueKeepsEarliest | src/gkrtos/tasking/tasking.c:163-181 | For any comparator answer, queueing keeps an earliest task at the head of the time queue. |
| Selection.DequeueKeepsEarliest | src/gkrtos/tasking/tasking.c:183-194 | So does removing any task but the head. |
| Selection.SortedExactly | src/gkrtos/tasking/tasking.c:91-106 | With the comparator shown tasks, a sorted queue stays sorted iff it has at most two entries or the new time is not after the third; ties keep arrival order iff strictly before it. |
| Selection.SortedForAnswer | src/gkrtos/tasking/tasking.c:163-181 | For either answer of the comparator, the exact condition on the wake times under which a sorted queue stays sorted. |
| Selection.SortedForAnyAnswer | src/gkrtos/structures/list.c:54-79 | It stays sorted whatever the comparator answers iff it has at most one entry, or the new time is before the first, or equals the second. |
| Scenarios.SortedCanBreak | src/gkrtos/structures/list.c:54-79 | From the start with five tasks, a run whose fourth sleep, its comparator answering as intended, turns a sorted time queue into an unsorted one. |
| Selection.WaitBehindHead | src/gkrtos/tasking/tasking.c:134-160 | Over any clock values, a task d places behind the ring's head is selected within d selections plus one per sleeping task. |
| Selection.WaitOfHead | src/gkrtos/tasking/tasking.c:134-160 | The head is selected again within the length of the ring plus two selections per sleeping task. |
| Fairness.RunBehindHead | src/gkrtos/tasking/tasking.c:133-160 | In every run, between creations, sleeps and kills, a task d places behind the ring's head is picked within d selecting events plus one per sleeping task. |
| Fairness.RunOfHead | src/gkrtos/interrupts/systick.c:26-33 | And the head within the length of the ring plus two per sleeping task. |
| Selection.IdleWalk | src/gkrtos/structures/list.c:207-213 | With nothing asleep, selections walk around the ring in order. |
| RealTime.NoEarlyWake | src/gkrtos/tasking/tasking.c:134-216 | In every run and for every comparator answer, a task sleeping until T is never selected a systick or more before T. |
| RealTime.Deadline | src/gkrtos/tasking/tasking.c:109-160 | With clock reads at most P after the latest systick's first, a task heading the time queue for T at least a systick ahead, and not killed or overtaken while it does, is selected later than T - 1000 us and by T + P - 1000 us. |
| Scenarios.DeadlineIsTight | src/gkrtos/hardware/rp2040.c:27-29 | For every P of at least 1 us a run from the start that meets those conditions selects the task at T + P - 1000 us exactly; by T is guaranteed for P up to 1000 us only. |
| RealTime.Backlog | src/gkrtos/interrupts/systick.c:26-33 | Once the task at position k and all ahead are due, and it is not killed and nobody is inserted ahead, k + 1 systicks suffice to select it. |
| RealTime.SleeperBound | src/gkrtos/tasking/tasking.c:109-160 | A sleeper at position k of the time queue, in order or not, which is not killed or overtaken, is selected within (k + 1) P of M - 1000 us or of the latest systick, where M is the latest wake time up to its place and P the spacing of systicks. |
| Periodic.ReleaseJitter | src/gkrtos/tasking/runner.c:31-37 | In the running system a periodic task that sleeps until its n-th release is selected for the next job in that window, later than 1000 us before the release, whatever its earlier jobs did. |
| Slices.SliceBound | src/gkrtos/tasking/tasking.c:109-146 | A task that, while on the core, has prompt systicks and company in the ring and never sleeps or dies sees another selected by 6000 us + 2P after it got the core, wherever systicks and PendSV interleave. |
| Slices.NoThreadBefore | src/gkrtos/interrupts/pendsv.c:27-49 | From the selection of another task to PendSV's C half only systicks and PendSV happen, and the task on the core stays. |
| Slices.Replacement | src/gkrtos/interrupts/pendsv.c:31-48 | That next C half puts the last selected task on the core: the old one is replaced iff that selection did not come back to it, and otherwise interrupts stay masked. |
| Slices.ReplacedAtOnce | src/gkrtos/interrupts/pendsv.c:43-48 | If no systick selects in between, the task selected is the one that gets the core. |
| Slices.MaskedForever | src/gkrtos/interrupts/pendsv.c:28-41 | Once interrupts stay masked nothing happens in any run but the running task's own code. |
| Slices.QueuedStep | src/gkrtos/tasking/tasking.c:233-247 | Every event that selects queues the task it selected, kills included; no other event changes the queued task. |
| Slices.LastSelection | src/gkrtos/tasking/tasking.c:133-247 | At any point of a run the queued task is the one the last selection returned, or the first one if there was none. |
| Slices.ThreadRunsSelected | src/gkrtos/interrupts/pendsv.c:31-48 | Whenever thread code runs, the running task is the one the last selection returned, or the spin task if there was none; it is outside the ring iff that selection was made by a kill and chose its victim. |
| Slices.AtMostOneRunning | src/gkrtos/tasking/tasking.c:75-85 | In reachable states at most one created task has status RUNNING, the one on the core. |
| Slices.NoEarlyReturn | src/gkrtos/interrupts/pendsv.c:38-41 | Without a systick that selects while PendSV is pending or before its C half, the early return is never taken and PendSV is on its way exactly when another task is queued. |
| Slices.EarlyReturnExactly | src/gkrtos/interrupts/pendsv.c:38-41 | The early return is taken iff the last selection came back to the task on the core, and exactly then interrupts stay masked. |
| Scenarios.HogIsNeverReplaced | src/gkrtos/interrupts/pendsv.c:38-41 | From the start with two tasks and systicks 1000 us apart, a run in which task 1 has company and neither sleeps nor dies, and yet keeps the core in every continuation: a systick comes between its yield and PendSV. |
| Scenarios.PreemptedPendSv | src/gkrtos/asm.S:122-126 | From the start with three tasks, a run that ends the same way although PendSV is taken at once: a systick preempts it before its C half. |
| Accounting.Conservation | src/gkrtos/tasking/tasking.c:72-83 | Over every run the time to the latest switch equals the charged milliseconds plus what rounding cuts off, at most 999 us a switch, plus the gaps between the two clock reads of a switch, plus the slices of tasks killed on the core. |
| Accounting.AllCounted | src/gkrtos/tasking/tasking.c:75-79 | Without a kill of the task on the core the last of these is nothing. |
| Accounting.Account | src/gkrtos/tasking/tasking.c:75-79 | Over every run each task's account is the sum, over the switches that took it off the core while RUNNING, of its own whole milliseconds; nothing else touches it. |
| Machines.SaveRoundTrip | src/gkrtos/asm.S:22-33 | Exception entry and CONTEXT_SAVE put the whole thread context in a frame that decodes back to it, writing only below its stack pointer. |
| Machines.FrameLayout | src/gkrtos/asm.S:22-33 | Word by word where each register of the interrupted thread lies, eight-byte aligned. |
| Machines.DecodeIsResume | src/gkrtos/asm.S:35-43 | CONTEXT_RESTORE and exception return load exactly what the frame decodes to. |
| Machines.FirstLaunch | src/gkrtos/asm.S:77-117 | A new stack launches its function with r0-r3 zero, the stack pointer at the base and r8-r12 and lr as stack_init had them, by PendSV or by begin_tasking; stack_init keeps its caller's r4-r11 and writes only the sixteen words below the base. |
| Handlers.SvcTransparent | src/gkrtos/asm.S:54-65 | A system call returns with everything as it was but r0, even when it creates a task and stack_init moves the process stack pointer. |
| Handlers.PendSvTransparent | src/gkrtos/asm.S:122-130 | PendSV leaves the old thread's whole context in its frame and resumes the new one from its own. |
| Handlers.TickTransparent | src/gkrtos/asm.S:48-49 | SysTick returns to the same registers and stack, though the handler saves nothing itself. |
| Transparency.StepTransparent | src/gkrtos/asm.S:54-130 | After any action every task sees what it would see on a machine of its own, where its code changes only its own machine, a system call its caller's r0 and interrupts nothing; stacks stay apart. |
| Transparency.Transparent | src/gkrtos/interrupts/pendsv.c:27-49 | At any point of any run and interleaving, a task sees exactly what its own code and the answers to its own calls make of a machine nobody else uses. |
| Transparency.ResumesAsSuspended | src/gkrtos/asm.S:122-130 | A task that does not act keeps registers, stack pointer and stack, and resumes exactly as it was suspended. |
| Transparency.KernelRun | src/gkrtos/interrupts/svcall.c:27-34 | Every run of the whole system is a run of the kernel, state by state and event by event, so the theorems about kernel runs hold of it. |
| Transparency.EveryEvent | src/gkrtos/asm.S:48-130 | And whatever the kernel can do, the system can do. |
| Calls.SvcAnswer | src/gkrtos/syscalls/syscalls_impl.c:25-50 | The caller keeps all but r0, which holds 0 after calls 0 to 3, the number of a task that did not exist before and does now after call 4, and minus five after an unknown number. |
| Calls.SvcCreates | src/gkrtos/syscalls/syscalls_impl.c:91-104 | That task has the record asked for and the stack given, and will start in the runner with r0-r3 zero at the base of that stack. |
| Calls.SvcServes | src/gkrtos/syscalls/syscalls.h:34-41 | Call 0 kills the given task, 1 only chooses, 2 puts the caller to sleep until the given time, 3 kills the caller, and an unknown number does nothing. |
| SystemStart.StartIsLaid | src/gkrtos/gkrtos.c:31-61 | The start launches the spin task and leaves every other task suspended before its entry, in a system that satisfies the invariant. |
| Runner.TaskRunner | src/gkrtos/tasking/runner.c:25-40 | Runs the function and dies without a frequency; otherwise the log is job after job: one call of the function, then a sleep until the next release iff the clock read after the call is not past it; as many calls as jobs, and never a death. |
| Runner.NoDrift | src/gkrtos/tasking/runner.c:31-33 | The k-th release depends on the start alone, and lags k exact periods by less than k us. |
| Runner.SleepsAreReleases | src/gkrtos/tasking/runner.c:35-37 | The task sleeps until a time iff it is the release after some job that ended by then. |
| Runner.SleepsIncrease | src/gkrtos/tasking/runner.c:32-37 | For frequencies of 1 to 1000000 the sleep targets strictly increase. |

## Left out

- Runner.TaskRunner: the source loops for ever; the model runs as many jobs as clock reads are given, for any number.
- Os.Os.CreateTask: priorities and the assigned core are stored by the source but decide nothing, so the record does not have them.
- Boards.Board.InternalSyscall: the next-tick call (number 5) enters a critical section and then functions that enter it again (`src/gkrtos/tasking/tasking.c:286-297`), so it never completes and is no event here. The arguments of a call come with the event; the source reads them through the pointer in the caller's stacked r1 (`src/gkrtos/asm.S:58`, `src/gkrtos/interrupts/svcall.c:27-31`).
- Boards.Board.IsrSvcall: what `gkrtos_trigger_svcall` finally returns is not modelled; its `pop {r0}` overwrites the result (`src/gkrtos/asm.S:70-75`), so claims stop at the caller's r0 on exception return.
- Boards.Board.FinishPendSv: masking is part of the step, so that PRIMASK is set inside the C half shows only after the early return; the fault of a supervisor call under PRIMASK is not modelled, such a call just cannot happen.
- Spinlocks, critical sections and the second core: each handler is one step, PendSV two.
- Wrap-around of 64-bit times and of the 32-bit list length; malloc failure; reuse of freed nodes; overflow of stacks.
- `program.c`, hardware registers, interrupt priorities, GPIO and build scripts: device plumbing.
