/** The processor as the context switch sees it: core registers, the process stack pointer and
    memory, on values. Addresses count 32-bit words, so 16 bytes are 4. */
module Machines {

  type Word = w: int | 0 <= w < 0x1_0000_0000

  datatype Regs = Regs(
    r0: Word, r1: Word, r2: Word, r3: Word, r4: Word, r5: Word, r6: Word, r7: Word,
    r8: Word, r9: Word, r10: Word, r11: Word, r12: Word, lr: Word, pc: Word, xpsr: Word)

  datatype Machine = Machine(r: Regs, psp: nat, mem: seq<Word>)

  const EXC_RETURN: Word := 0xFFFF_FFFD
  const THUMB: Word := 0x100_0000
  const SOFT: nat := 8     // words saved by CONTEXT_SAVE
  const HARD: nat := 8     // words stacked by the hardware
  const ROOM: nat := 17    // both, and the word of padding

  /** Bit 9 of a stacked xPSR records that a padding word was stacked; the register has it clear. */
  predicate Padded(w: Word)
  {
    w / 512 % 2 == 1
  }

  lemma PaddedSum(w: Word)
    requires !Padded(w)
    ensures w + 512 < 0x1_0000_0000 && Padded(w + 512)
  {
  }

  // ---- memory -----------------------------------------------------------------------------

  function Written(mem: seq<Word>, a: nat, ws: seq<Word>): (mem': seq<Word>)
    requires a + |ws| <= |mem|
    ensures |mem'| == |mem|
  {
    mem[..a] + ws + mem[a + |ws|..]
  }

  /** The two memories agree outside the given range. */
  ghost predicate SameOutside(mem: seq<Word>, mem': seq<Word>, lo: int, hi: int)
  {
    |mem| == |mem'| && forall i :: 0 <= i < |mem| && !(lo <= i < hi) ==> mem'[i] == mem[i]
  }

  /** A stretch of memory that was not written reads the same. */
  lemma SameSlice(mem: seq<Word>, mem': seq<Word>, lo: int, hi: int, a: nat, b: nat)
    requires SameOutside(mem, mem', lo, hi) && a <= b <= |mem| && (b <= lo || hi <= a)
    ensures mem'[a..b] == mem[a..b]
  {
  }

  // ---- the hardware's part ----------------------------------------------------------------

  function HardFrame(r: Regs, pad: bool): (ws: seq<Word>)
    requires !Padded(r.xpsr)
    ensures |ws| == HARD
  {
    PaddedSum(r.xpsr);
    [r.r0, r.r1, r.r2, r.r3, r.r12, r.lr, r.pc, if pad then r.xpsr + 512 else r.xpsr]
  }

  /** Where exception entry puts the frame: eight-byte aligned below the stack pointer. */
  function FrameAt(psp: nat): int
  {
    psp - HARD - psp % 2
  }

  /** Exception entry from thread code on the process stack. */
  function Entered(m: Machine): (m': Machine)
    requires !Padded(m.r.xpsr) && HARD + 1 <= m.psp <= |m.mem|
    ensures m'.psp == FrameAt(m.psp) && |m'.mem| == |m.mem|
  {
    Machine(m.r.(lr := EXC_RETURN), FrameAt(m.psp),
            Written(m.mem, FrameAt(m.psp), HardFrame(m.r, m.psp % 2 == 1)))
  }

  /** Exception return to thread code on the process stack. */
  function Returned(m: Machine): (m': Machine)
    requires m.psp + HARD <= |m.mem|
  {
    var (f, mem) := (m.psp, m.mem);
    var pad := Padded(mem[f + 7]);
    Machine(m.r.(r0 := mem[f], r1 := mem[f + 1], r2 := mem[f + 2], r3 := mem[f + 3], r12 := mem[f + 4],
                 lr := mem[f + 5], pc := mem[f + 6], xpsr := if pad then mem[f + 7] - 512 else mem[f + 7]),
            f + HARD + (if pad then 1 else 0), mem)
  }

  // ---- the software's part ----------------------------------------------------------------

  function SoftFrame(r: Regs): (ws: seq<Word>)
    ensures |ws| == SOFT
  {
    [r.r8, r.r9, r.r10, r.r11, r.r4, r.r5, r.r6, r.r7]
  }

  /** CONTEXT_SAVE stores r4-r11 below the stack pointer, leaves the pointer alone and r4-r7 with
      the values of r8-r11; the saved stack pointer is SOFT words lower. */
  function Saved(m: Machine): (m': Machine)
    requires SOFT <= m.psp <= |m.mem|
    ensures m'.psp == m.psp && |m'.mem| == |m.mem|
  {
    Machine(m.r.(r4 := m.r.r8, r5 := m.r.r9, r6 := m.r.r10, r7 := m.r.r11), m.psp,
            Written(m.mem, m.psp - SOFT, SoftFrame(m.r)))
  }

  /** CONTEXT_RESTORE from a saved stack pointer. */
  function Restored(m: Machine, sp: nat): (m': Machine)
    requires sp + SOFT <= |m.mem|
    ensures m'.psp == sp + SOFT && m'.mem == m.mem
  {
    var mem := m.mem;
    Machine(m.r.(r8 := mem[sp], r9 := mem[sp + 1], r10 := mem[sp + 2], r11 := mem[sp + 3],
                 r4 := mem[sp + 4], r5 := mem[sp + 5], r6 := mem[sp + 6], r7 := mem[sp + 7]),
            sp + SOFT, mem)
  }

  /** What a called C function leaves in the registers: it keeps r4-r11 and nothing else. */
  function Clobbered(m: Machine, junk: Regs): (m': Machine)
    ensures m'.psp == m.psp && m'.mem == m.mem
  {
    var r := m.r;
    m.(r := junk.(r4 := r.r4, r5 := r.r5, r6 := r.r6, r7 := r.r7,
                  r8 := r.r8, r9 := r.r9, r10 := r.r10, r11 := r.r11))
  }

  /** The thread context that a saved stack pointer stands for: what CONTEXT_RESTORE and exception
      return would load from it. */
  function Decode(mem: seq<Word>, sp: nat): (c: (Regs, nat))
    requires sp + SOFT + HARD <= |mem|
  {
    var x := mem[sp + 15];
    (Regs(mem[sp + 8], mem[sp + 9], mem[sp + 10], mem[sp + 11],
          mem[sp + 4], mem[sp + 5], mem[sp + 6], mem[sp + 7],
          mem[sp], mem[sp + 1], mem[sp + 2], mem[sp + 3],
          mem[sp + 12], mem[sp + 13], mem[sp + 14], if Padded(x) then x - 512 else x),
     sp + SOFT + HARD + (if Padded(x) then 1 else 0))
  }

  lemma DecodeIsResume(m: Machine, sp: nat)
    requires sp + SOFT + HARD <= |m.mem|
    ensures var m' := Returned(Restored(m, sp));
      (m'.r, m'.psp) == Decode(m.mem, sp) && m'.mem == m.mem
  {
  }

  /** A thread interrupted in any state, and its context saved, is all in the saved frame; the save
      writes only below the thread's stack pointer. */
  lemma SaveRoundTrip(m: Machine)
    requires !Padded(m.r.xpsr) && ROOM <= m.psp <= |m.mem|
    ensures var m' := Saved(Entered(m));
      && SOFT <= m'.psp && m.psp - ROOM <= m'.psp - SOFT && m'.psp <= m.psp - HARD
      && Decode(m'.mem, m'.psp - SOFT) == (m.r, m.psp)
      && SameOutside(m.mem, m'.mem, m.psp - ROOM, m.psp)
  {
  }

  /** The words of a saved frame, from the saved stack pointer up, and where it lies: the hardware's part is
      eight-byte aligned, and the stacked xPSR tells whether a word of padding is above it. */
  lemma FrameLayout(m: Machine)
    requires !Padded(m.r.xpsr) && ROOM <= m.psp <= |m.mem|
    ensures var (m', r, pad) := (Saved(Entered(m)), m.r, m.psp % 2);
      var (f, mem) := (m'.psp, m'.mem);
      && f % 2 == 0 && f + 8 + pad == m.psp
      && mem[f - 8] == r.r8 && mem[f - 7] == r.r9 && mem[f - 6] == r.r10 && mem[f - 5] == r.r11
      && mem[f - 4] == r.r4 && mem[f - 3] == r.r5 && mem[f - 2] == r.r6 && mem[f - 1] == r.r7
      && mem[f] == r.r0 && mem[f + 1] == r.r1 && mem[f + 2] == r.r2 && mem[f + 3] == r.r3
      && mem[f + 4] == r.r12 && mem[f + 5] == r.lr && mem[f + 6] == r.pc && mem[f + 7] == r.xpsr + 512 * pad
  {
  }

  // ---- starting a task --------------------------------------------------------------------

  /** The sixteen words that stack_init puts below the base of a new stack. */
  function InitialFrame(r: Regs, entry: Word): (ws: seq<Word>)
    ensures |ws| == SOFT + HARD
  {
    [r.r8, r.r9, r.r10, r.r11, r.r12, r.lr, entry, THUMB, 0, 0, 0, 0, r.r12, r.lr, entry, THUMB]
  }

  /** stack_init; its result is the saved stack pointer base - 16. It leaves the process stack
      pointer pointing into the new stack. */
  function StackInited(m: Machine, base: nat, entry: Word): (m': Machine)
    requires SOFT + HARD <= base <= |m.mem|
    ensures |m'.mem| == |m.mem|
  {
    Machine(m.r, base - HARD, Written(m.mem, base - SOFT - HARD, InitialFrame(m.r, entry)))
  }

  /** begin_tasking restores the soft frame and pops the hard one by hand. */
  function Begun(m: Machine, sp: nat): (m': Machine)
    requires sp + SOFT + HARD <= |m.mem|
  {
    var m1 := Restored(m, sp);
    var (f, mem) := (m1.psp, m1.mem);
    Machine(m1.r.(r0 := mem[f], r1 := mem[f + 1], r2 := mem[f + 2], r3 := mem[f + 3],
                  r4 := mem[f + 4], r5 := mem[f + 5], r6 := mem[f + 6], r7 := mem[f + 7],
                  r12 := mem[f + 4], lr := mem[f + 5], pc := mem[f + 6]),
            f + HARD, mem)
  }

  predicate Launched(r: Regs, psp: nat, base: nat, entry: Word)
  {
    r.r0 == r.r1 == r.r2 == r.r3 == 0 && r.pc == entry && psp == base
  }

  /** A task starts with the r8-r12 and lr that stack_init was called with. */
  predicate KeptAtLaunch(r: Regs, atCall: Regs)
  {
    && r.r8 == atCall.r8 && r.r9 == atCall.r9 && r.r10 == atCall.r10 && r.r11 == atCall.r11
    && r.r12 == atCall.r12 && r.lr == atCall.lr
  }

  /** Whoever finds an initial frame launches the task, by PendSV or by begin_tasking. */
  lemma FrameLaunches(m: Machine, base: nat, atCall: Regs, entry: Word)
    requires SOFT + HARD <= base <= |m.mem|
    requires m.mem[base - SOFT - HARD..base] == InitialFrame(atCall, entry)
    ensures var m' := Returned(Restored(m, base - SOFT - HARD));
      Launched(m'.r, m'.psp, base, entry) && m'.r.xpsr == THUMB && !Padded(m'.r.xpsr)
    ensures var m' := Begun(m, base - SOFT - HARD); Launched(m'.r, m'.psp, base, entry)
    ensures KeptAtLaunch(Returned(Restored(m, base - SOFT - HARD)).r, atCall)
    ensures KeptAtLaunch(Begun(m, base - SOFT - HARD).r, atCall)
  {
  }

  lemma InitedFrame(m: Machine, base: nat, entry: Word)
    requires SOFT + HARD <= base <= |m.mem|
    ensures SameOutside(m.mem, StackInited(m, base, entry).mem, base - SOFT - HARD, base)
    ensures StackInited(m, base, entry).mem[base - SOFT - HARD..base] == InitialFrame(m.r, entry)
    ensures StackInited(m, base, entry).r == m.r
  {
  }

  /** First launch: stack_init followed by a PendSV restore and exception return, or by
      begin_tasking, enters the function with r0-r3 zero and the stack pointer at the base; only the
      sixteen words below the base are written. */
  lemma FirstLaunch(m: Machine, base: nat, entry: Word, later: Machine)
    requires SOFT + HARD <= base <= |m.mem| && |later.mem| == |m.mem|
    requires later.mem[base - SOFT - HARD..base] == StackInited(m, base, entry).mem[base - SOFT - HARD..base]
    ensures SameOutside(m.mem, StackInited(m, base, entry).mem, base - SOFT - HARD, base)
    ensures var m' := Returned(Restored(later, base - SOFT - HARD));
      Launched(m'.r, m'.psp, base, entry) && m'.r.xpsr == THUMB && !Padded(m'.r.xpsr)
    ensures var m' := Begun(later, base - SOFT - HARD); Launched(m'.r, m'.psp, base, entry)
    ensures KeptAtLaunch(Returned(Restored(later, base - SOFT - HARD)).r, m.r)
    ensures KeptAtLaunch(Begun(later, base - SOFT - HARD).r, m.r)
    ensures var r := StackInited(m, base, entry).r;
      && r.r4 == m.r.r4 && r.r5 == m.r.r5 && r.r6 == m.r.r6 && r.r7 == m.r.r7
      && r.r8 == m.r.r8 && r.r9 == m.r.r9 && r.r10 == m.r.r10 && r.r11 == m.r.r11
  {
    hide StackInited, Begun, Returned, Restored, Launched, KeptAtLaunch, InitialFrame, Padded, SameOutside;
    InitedFrame(m, base, entry);
    FrameLaunches(later, base, m.r, entry);
  }
}
