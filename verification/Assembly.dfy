/** The assembly routines, on registers and memory updated in place. */
module Assembly {
  import opened Machines

  class Cpu {
    var r: Regs
    var psp: nat
    const mem: array<Word>

    ghost function Now(): Machine
      reads this, mem
    {
      Machine(r, psp, mem[..])
    }

    constructor (r: Regs, psp: nat, mem: array<Word>)
      ensures this.r == r && this.psp == psp && this.mem == mem
    {
      this.r, this.psp, this.mem := r, psp, mem;
    }

    /** stmia of four registers; the address register moves on by four words. */
    method StoreLow(a: nat) returns (next: nat)
      requires a + 4 <= mem.Length
      modifies mem
      ensures next == a + 4 && mem[..] == Written(old(mem[..]), a, [r.r4, r.r5, r.r6, r.r7])
    {
      mem[a], mem[a + 1], mem[a + 2], mem[a + 3] := r.r4, r.r5, r.r6, r.r7;
      next := a + 4;
    }

    /** ldmia of four registers. */
    method LoadLow(a: nat) returns (next: nat)
      requires a + 4 <= mem.Length
      modifies this`r
      ensures next == a + 4 && r == old(r).(r4 := mem[a], r5 := mem[a + 1], r6 := mem[a + 2], r7 := mem[a + 3])
    {
      r := r.(r4 := mem[a], r5 := mem[a + 1], r6 := mem[a + 2], r7 := mem[a + 3]);
      next := a + 4;
    }

    method ContextSave() returns (sp: nat)
      requires SOFT <= psp <= mem.Length
      modifies this`r, mem
      ensures Now() == Saved(old(Now())) && sp == psp - SOFT
    {
      hide Written;
      sp := psp;
      sp := sp - 4;
      sp := StoreLow(sp);
      r := r.(r4 := r.r8);
      r := r.(r5 := r.r9);
      r := r.(r6 := r.r10);
      r := r.(r7 := r.r11);
      sp := sp - 8;
      sp := StoreLow(sp);
      sp := sp - 4;
      TwoStores(old(mem[..]), sp, [r.r8, r.r9, r.r10, r.r11], [old(r).r4, old(r).r5, old(r).r6, old(r).r7]);
      assert [r.r8, r.r9, r.r10, r.r11] + [old(r).r4, old(r).r5, old(r).r6, old(r).r7] == SoftFrame(old(r));
    }

    method ContextRestore(from: nat)
      requires from + SOFT <= mem.Length
      modifies this
      ensures Now() == Restored(old(Now()), from)
    {
      var sp := LoadLow(from);
      r := r.(r8 := r.r4);
      r := r.(r9 := r.r5);
      r := r.(r10 := r.r6);
      r := r.(r11 := r.r7);
      sp := LoadLow(sp);
      psp := sp;
    }

    /** Prepares a new stack; the callers' r4-r7 survive, the process stack pointer does not. */
    method StackInit(base: nat, entry: Word) returns (sp: nat)
      requires SOFT + HARD <= base <= mem.Length
      modifies this, mem
      ensures Now() == StackInited(old(Now()), base, entry) && sp == base - SOFT - HARD
    {
      hide Written;
      var pushed := r;
      sp := base - 8;
      r := r.(r4 := 0, r5 := 0, r6 := 0, r7 := 0);
      sp := StoreLow(sp);
      r := r.(r4 := r.r12, r5 := r.lr, r6 := entry, r7 := THUMB);
      sp := StoreLow(sp);
      sp := sp - 8;
      ghost var top := [0, 0, 0, 0, r.r12, r.lr, entry, THUMB];
      TwoStores(old(mem[..]), sp, [0, 0, 0, 0], [r.r12, r.lr, entry, THUMB]);
      assert [0, 0, 0, 0] + [r.r12, r.lr, entry, THUMB] == top;
      psp := sp;
      ghost var soft := SoftFrame(r);
      sp := ContextSave();
      TwoStores(old(mem[..]), sp, soft, top);
      assert soft + top == InitialFrame(old(r), entry);
      r := r.(r4 := pushed.r4, r5 := pushed.r5, r6 := pushed.r6, r7 := pushed.r7);
    }

    /** Enters the first task without an exception return. */
    method BeginTasking(from: nat)
      requires from + SOFT + HARD <= mem.Length
      modifies this
      ensures Now() == Begun(old(Now()), from)
    {
      ContextRestore(from);
      var sp := psp;
      r := r.(r0 := mem[sp], r1 := mem[sp + 1], r2 := mem[sp + 2], r3 := mem[sp + 3],
              r4 := mem[sp + 4], r5 := mem[sp + 5], r6 := mem[sp + 6], r7 := mem[sp + 7]);
      psp := sp + 8;
      r := r.(r12 := r.r4);
      r := r.(lr := r.r5);
      r := r.(pc := r.r6);
    }

    /** The hardware, on taking an exception from thread code. */
    method EnterException()
      requires !Padded(r.xpsr) && HARD + 1 <= psp <= mem.Length
      modifies this, mem
      ensures Now() == Entered(old(Now()))
    {
      var pad := psp % 2;
      var f := psp - 8 - pad;
      PaddedSum(r.xpsr);
      mem[f], mem[f + 1], mem[f + 2], mem[f + 3] := r.r0, r.r1, r.r2, r.r3;
      mem[f + 4], mem[f + 5], mem[f + 6] := r.r12, r.lr, r.pc;
      mem[f + 7] := if pad == 1 then r.xpsr + 512 else r.xpsr;
      r := r.(lr := EXC_RETURN);
      psp := f;
    }

    /** The hardware, on returning to thread code. */
    method ReturnFromException()
      requires psp + HARD <= mem.Length
      modifies this
      ensures Now() == Returned(old(Now()))
    {
      var f := psp;
      var pad := Padded(mem[f + 7]);
      r := r.(r0 := mem[f], r1 := mem[f + 1], r2 := mem[f + 2], r3 := mem[f + 3], r12 := mem[f + 4],
              lr := mem[f + 5], pc := mem[f + 6], xpsr := if pad then mem[f + 7] - 512 else mem[f + 7]);
      psp := if pad then f + 9 else f + 8;
    }

    /** The way into a handler that saves the context. */
    method EnterAndSave() returns (sp: nat)
      requires !Padded(r.xpsr) && ROOM <= psp <= mem.Length
      modifies this, mem
      ensures Now() == Saved(Entered(old(Now()))) && sp == psp - SOFT
    {
      hide Entered, Saved, Padded;
      EnterException();
      sp := ContextSave();
    }

    /** The way out of it. */
    method RestoreAndReturn(sp: nat)
      requires sp + SOFT + HARD <= mem.Length
      modifies this
      ensures Now() == Returned(Restored(old(Now()), sp))
    {
      hide Returned, Restored;
      ContextRestore(sp);
      ReturnFromException();
    }
  }

  /** Two stretches written next to each other, the upper one first. */
  lemma TwoStores(mem: seq<Word>, a: nat, low: seq<Word>, high: seq<Word>)
    requires a + |low| + |high| <= |mem|
    ensures Written(Written(mem, a + |low|, high), a, low) == Written(mem, a, low + high)
    ensures Written(Written(mem, a, low), a + |low|, high) == Written(mem, a, low + high)
  {
  }
}
