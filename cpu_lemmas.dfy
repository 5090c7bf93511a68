/** Properties of the current engine (src/cpu.rs): dispatch, the frame of
    the register handlers, the call/return discipline, and the outcomes the
    source's unit tests assert. */
module Chip8Properties {
  import opened Chip8Common
  import opened Chip8

  /** The opcodes `run` binds to a handler or to halt. */
  predicate Handled(op: u16) {
    op == 0x0000 || op == 0x00EE || 0x2000 <= op <= 0x2FFF ||
    (0x8000 <= op <= 0x8FFF && (op as int % 0x10 <= 0x7 || op as int % 0x10 == 0xE))
  }

  /** A step halts exactly when the word at pc is 0x0000; pc has then still
      moved past it, and nothing else has changed. */
  lemma HaltExactly(s: State)
    requires WellFormed(s)
    ensures Step(s).Halted? <==> s.pc + 1 < MemorySize && s.mem[s.pc] == 0 && s.mem[s.pc + 1] == 0
    ensures Step(s).Halted? ==> Step(s).next == s.(pc := s.pc + 2)
  {
    if s.pc + 1 < MemorySize {
      var op := Opcode(s.mem[s.pc], s.mem[s.pc + 1]);
      assert op == 0 <==> s.mem[s.pc] == 0 && s.mem[s.pc + 1] == 0;
    }
  }

  /** A run result that, if it is a halt, ends with pc just past a zero
      word of `mem`. */
  ghost predicate EndsPastZeroWord(mem: seq<u8>, r: RunResult) {
    r.RunHalted? ==> 2 <= r.final.pc <= |mem| && mem[r.final.pc - 2] == 0 && mem[r.final.pc - 1] == 0
  }

  /** `run` stops only at the word 0x0000: a run that halts ends with pc
      just past a zero word of the program. */
  lemma {:induction false} RunHaltsOnZeroWord(s: State, fuel: nat)
    requires WellFormed(s)
    ensures EndsPastZeroWord(s.mem, Run(s, fuel))
    decreases fuel
  {
    if fuel > 0 {
      RunUnfold(s, fuel);
      var t := Step(s);
      if t.Halted? {
        HaltedOnZeroWord(s);
        assert Run(s, fuel) == RunHalted(t.next);
      } else if t.Continued? {
        RunHaltsOnZeroWord(t.next, fuel - 1);
        assert t.next.mem == s.mem && Run(s, fuel) == Run(t.next, fuel - 1);
      }
    }
  }

  /** The halting step, as `RunHaltsOnZeroWord` needs it. */
  lemma HaltedOnZeroWord(s: State)
    requires WellFormed(s) && Step(s).Halted?
    ensures s.pc + 1 < MemorySize && s.mem[s.pc] == 0 && s.mem[s.pc + 1] == 0 && Step(s).next.pc == s.pc + 2
  {
    HaltExactly(s);
  }

  /** A step reports Unimplemented exactly for a fetched opcode that no
      handler is bound to. */
  lemma UnimplementedExactly(s: State)
    requires WellFormed(s)
    ensures Step(s) == Faulted(Unimplemented) <==> Fetch(s.mem, s.pc).Ok? && !Handled(Fetch(s.mem, s.pc).value)
  {
  }

  /** A fetch past the end of memory is the only source of OutOfBounds. */
  lemma OutOfBoundsExactly(s: State)
    requires WellFormed(s)
    ensures Step(s) == Faulted(OutOfBounds) <==> s.pc + 1 >= MemorySize
  {
  }

  /** The 0x8XYn handlers change the registers and advance pc by exactly 2;
      memory, stack and stack pointer are untouched. */
  lemma RegisterOpsAdvancePc(s: State)
    requires WellFormed(s) && Fetch(s.mem, s.pc).Ok?
    requires 0x8000 <= Fetch(s.mem, s.pc).value <= 0x8FFF && Step(s).Continued?
    ensures Step(s).next == s.(pc := s.pc + 2, regs := Step(s).next.regs)
  {
  }

  /** Pushing and popping the saved pc: whatever the subroutine body does
      to pc and registers, if it leaves the stack alone, `ret` resumes at
      the address the call saved, with the stack pointer restored. */
  lemma CallRetRoundTrip(s: State, addr: nat, body: State)
    requires WellFormed(s) && s.sp < StackSize && s.pc < 0x1_0000
    requires WellFormed(body) && body.stack == Call(s, addr).value.stack && body.sp == Call(s, addr).value.sp
    ensures Ret(body).Ok?
    ensures Ret(body).value == body.(pc := s.pc, sp := s.sp)
  {
  }

  /** Two nested calls and two returns, each body leaving the stack alone,
      resume after the outer call with the stack pointer back where it was. */
  lemma NestedCallsReturn(s0: State, a: nat, s1: State, b: nat, s2: State, s3: State)
    requires WellFormed(s0) && s0.sp + 2 <= StackSize && s0.pc < 0x1_0000
    requires WellFormed(s1) && s1.stack == Call(s0, a).value.stack && s1.sp == s0.sp + 1 && s1.pc < 0x1_0000
    requires WellFormed(s2) && s2.stack == Call(s1, b).value.stack && s2.sp == s1.sp + 1
    requires Ret(s2).Ok? && WellFormed(s3) && s3.stack == s2.stack && s3.sp == Ret(s2).value.sp
    ensures Ret(s2).value.pc == s1.pc && Ret(s2).value.sp == s1.sp
    ensures Ret(s3).Ok? && Ret(s3).value.pc == s0.pc && Ret(s3).value.sp == s0.sp
  {
    CallRetRoundTrip(s1, b, s2);
    assert s2.stack[s0.sp] == s1.stack[s0.sp];
  }

  /** Executing 0x2NNN and then, at NNN, 0x00EE comes back to the word after
      the call with the same stack pointer and registers. */
  lemma CallThenRetInstruction(s: State)
    requires WellFormed(s) && s.sp < StackSize && s.pc + 1 < MemorySize
    requires 0x20 <= s.mem[s.pc] <= 0x2F
    requires var addr := (s.mem[s.pc] as int - 0x20) * 0x100 + s.mem[s.pc + 1] as int;
      addr + 1 < MemorySize && s.mem[addr] == 0x00 && s.mem[addr + 1] == 0xEE
    ensures Step(s).Continued? && Step(Step(s).next).Continued?
    ensures var t := Step(Step(s).next).next;
      t.pc == s.pc + 2 && t.sp == s.sp && t.regs == s.regs && t.mem == s.mem
  {
    var op := Opcode(s.mem[s.pc], s.mem[s.pc + 1]);
    var addr := (s.mem[s.pc] as int - 0x20) * 0x100 + s.mem[s.pc + 1] as int;
    assert Decode(op).addr == addr;
    var t1 := Step(s).next;
    assert t1 == Call(s.(pc := s.pc + 2), addr).value;
    assert Opcode(t1.mem[t1.pc], t1.mem[t1.pc + 1]) == 0x00EE;
  }

  // ---------------------------------------------------------------------
  // Handlers against one another

  /** For X, Y other than VF and distinct, adding without carry and then
      subtracting gives back VX, with VF = 1 (no borrow). */
  lemma AddThenSubRestores(v: seq<u8>, x: RegIndex, y: RegIndex)
    requires |v| == RegisterCount && x != Flag && y != Flag && x != y
    requires v[x] as int + v[y] as int <= 0xFF
    ensures SubXY(AddXY(v, x, y), x, y).Ok?
    ensures SubXY(AddXY(v, x, y), x, y).value == v[Flag := 1]
  {
    var w := AddXY(v, x, y);
    var r := SubXY(w, x, y).value;
    assert r[x] == v[x];
    assert forall k :: 0 <= k < RegisterCount ==> r[k] == v[Flag := 1][k];
  }

  /** The two subtractions agree on borrow polarity: for X, Y other than VF,
      VF ends 1 exactly when the subtraction stayed in range, and when VX
      and VY differ exactly one of them borrows. */
  lemma SubtractionsBorrowOppositely(v: seq<u8>, x: RegIndex, y: RegIndex)
    requires |v| == RegisterCount && x != Flag && y != Flag
    ensures SubXY(v, x, y).Ok? && SetSubXY(v, x, y).Ok?
    ensures SubXY(v, x, y).value[Flag] == 1 <==> v[x] >= v[y]
    ensures SetSubXY(v, x, y).value[Flag] == 1 <==> v[y] >= v[x]
    ensures v[x] != v[y] ==> SubXY(v, x, y).value[Flag] != SetSubXY(v, x, y).value[Flag]
  {
  }

  /** Shifting left then right keeps the low seven bits of VX and leaves
      VF = 0, the low bit of the doubled value. */
  lemma ShiftLeftThenRight(v: seq<u8>, x: RegIndex)
    requires |v| == RegisterCount && x != Flag
    ensures ShiftRight1(ShiftLeft1(v, x), x)[x] as int == v[x] as int % 0x80
    ensures ShiftRight1(ShiftLeft1(v, x), x)[Flag] == 0
  {
    var w := ShiftLeft1(v, x);
    var r := ShiftRight1(w, x);
    assert w[x] as int == 2 * (v[x] as int % 0x80);
  }

  /** Shifting right then left clears the low bit of VX; VF then holds what
      was bit 1. */
  lemma ShiftRightThenLeft(v: seq<u8>, x: RegIndex)
    requires |v| == RegisterCount && x != Flag
    ensures ShiftLeft1(ShiftRight1(v, x), x)[x] as int == v[x] as int - v[x] as int % 2
    ensures ShiftLeft1(ShiftRight1(v, x), x)[Flag] as int == v[x] as int / 2 % 2
  {
  }
}
