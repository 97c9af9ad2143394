/** The exception handlers end to end, from thread code back to thread code. */
module Handlers {
  import opened Machines

  /** SysTick: the handler is plain C; nothing is saved by hand. */
  function TickHandled(m: Machine, junk: Regs): (m': Machine)
    requires !Padded(m.r.xpsr) && ROOM <= m.psp <= |m.mem|
  {
    Returned(Clobbered(Entered(m), junk))
  }

  /** PendSV up to its C half: the context is saved. */
  function PendSvTaken(m: Machine): (m': Machine)
    requires !Padded(m.r.xpsr) && ROOM <= m.psp <= |m.mem|
    ensures |m'.mem| == |m.mem| && m'.psp == SavedSp(m) + SOFT
  {
    Saved(Entered(m))
  }

  /** The rest of it: the C half chooses a saved stack pointer, and that one is restored. */
  function PendSvLeft(m: Machine, newSp: nat, junk: Regs): (m': Machine)
    requires newSp + SOFT + HARD <= |m.mem|
    ensures m'.mem == m.mem
  {
    Returned(Restored(Clobbered(m, junk), newSp))
  }

  /** The saved stack pointer of a thread interrupted in this state. */
  function SavedSp(m: Machine): int
  {
    FrameAt(m.psp) - SOFT
  }

  datatype Stack = NoStack | NewStack(base: nat, entry: Word, atCall: Regs)

  /** What stack_init does when it is called inside a system call, in whatever registers. */
  function StackMade(m: Machine, st: Stack): (m': Machine)
    requires st.NewStack? ==> SOFT + HARD <= st.base <= |m.mem|
    ensures |m'.mem| == |m.mem|
  {
    if st.NewStack? then StackInited(m.(r := st.atCall), st.base, st.entry).(r := m.r) else m
  }

  /** SVC: save, run the system call, store its result over the stacked r0, restore. */
  function SvcHandled(m: Machine, st: Stack, ret: Word, junk: Regs): (m': Machine)
    requires !Padded(m.r.xpsr) && ROOM <= m.psp <= |m.mem|
    requires st.NewStack? ==> SOFT + HARD <= st.base <= |m.mem|
  {
    var sp := SavedSp(m);
    var m1 := Clobbered(StackMade(Saved(Entered(m)), st), junk);
    Returned(Restored(m1.(mem := m1.mem[sp + SOFT := ret]), sp))
  }

  lemma TickTransparent(m: Machine, junk: Regs)
    requires !Padded(m.r.xpsr) && ROOM <= m.psp <= |m.mem|
    ensures var m' := TickHandled(m, junk);
      && m'.r == m.r && m'.psp == m.psp && SameOutside(m.mem, m'.mem, m.psp - ROOM, m.psp)
  {
  }

  /** PendSV suspends one thread and resumes another: the frame left behind is the whole context of
      the first, and the second gets exactly what its frame holds after that. */
  lemma PendSvTransparent(m: Machine, newSp: nat, junk: Regs)
    requires !Padded(m.r.xpsr) && ROOM <= m.psp <= |m.mem| && newSp + SOFT + HARD <= |m.mem|
    ensures var m' := PendSvLeft(PendSvTaken(m), newSp, junk);
      && m.psp - ROOM <= SavedSp(m) && SavedSp(m) + SOFT + HARD <= m.psp && |m'.mem| == |m.mem|
      && Decode(m'.mem, SavedSp(m)) == (m.r, m.psp)
      && (m'.r, m'.psp) == Decode(m'.mem, newSp)
      && SameOutside(m.mem, m'.mem, m.psp - ROOM, m.psp)
  {
    hide Written, Padded, SameOutside;
    SaveRoundTrip(m);
    DecodeIsResume(Clobbered(Saved(Entered(m)), junk), newSp);
  }

  /** A system call returns to its caller with everything as it was but r0, even though stack_init
      moves the process stack pointer into the new stack. */
  lemma SvcTransparent(m: Machine, st: Stack, ret: Word, junk: Regs)
    requires !Padded(m.r.xpsr) && ROOM <= m.psp <= |m.mem|
    requires st.NewStack? ==> SOFT + HARD <= st.base <= |m.mem|
                              && (st.base <= m.psp - ROOM || m.psp <= st.base - SOFT - HARD)
    ensures var m' := SvcHandled(m, st, ret, junk);
      && m'.r == m.r.(r0 := ret) && m'.psp == m.psp && |m'.mem| == |m.mem|
      && (forall i |
            && 0 <= i < |m.mem| && !(m.psp - ROOM <= i < m.psp)
            && !(st.NewStack? && st.base - SOFT - HARD <= i < st.base) :: m'.mem[i] == m.mem[i])
      && (st.NewStack? ==>
            m'.mem[st.base - SOFT - HARD..st.base] == InitialFrame(st.atCall, st.entry))
  {
    hide Written, Padded, Decode, StackMade, InitialFrame, Saved, Entered;
    SaveRoundTrip(m);
    var sp := SavedSp(m);
    var m1 := Saved(Entered(m));
    var m2 := Clobbered(StackMade(m1, st), junk);
    StackMadeKeeps(m1, st, sp);
    StoredResult(m2.mem, sp, ret);
    DecodeIsResume(m2.(mem := m2.mem[sp + SOFT := ret]), sp);
  }

  lemma StoredResult(mem: seq<Word>, sp: nat, ret: Word)
    requires sp + SOFT + HARD <= |mem|
    ensures Decode(mem[sp + SOFT := ret], sp) == (Decode(mem, sp).0.(r0 := ret), Decode(mem, sp).1)
  {
  }

  /** Making a new stack leaves frames elsewhere alone. */
  lemma StackMadeKeeps(m: Machine, st: Stack, sp: nat)
    requires sp + SOFT + HARD <= |m.mem|
    requires st.NewStack? ==> SOFT + HARD <= st.base <= |m.mem|
                              && (st.base <= sp || sp + SOFT + HARD <= st.base - SOFT - HARD)
    ensures Decode(StackMade(m, st).mem, sp) == Decode(m.mem, sp)
    ensures st.NewStack? ==>
              && SameOutside(m.mem, StackMade(m, st).mem, st.base - SOFT - HARD, st.base)
              && StackMade(m, st).mem[st.base - SOFT - HARD..st.base] == InitialFrame(st.atCall, st.entry)
    ensures st.NoStack? ==> StackMade(m, st) == m
  {
  }
}
