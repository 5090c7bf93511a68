/** Properties of the earlier engine (src/cpu/cpu.rs), its unit tests as
    lemmas, and how it relates to the current engine. */
module Chip8EarlyProperties {
  import opened Chip8Common
  import opened Chip8Early
  import Chip8
  import Chip8Scenarios

  /** The opcodes the earlier `run` binds to a handler or to halt. */
  predicate Handled(op: u16) {
    op == 0x0000 || op == 0x00EE || 0x2000 <= op <= 0x2FFF ||
    (0x8000 <= op <= 0x8FFF && (op as int % 0x10 == 0x0 || op as int % 0x10 == 0x4 || op as int % 0x10 == 0x7))
  }

  /** A step halts exactly when the word at pc is 0x0000; pc has then still
      moved past it, and nothing else has changed. */
  lemma HaltExactly(s: State)
    requires WellFormed(s)
    ensures Step(s).Halted? <==> s.pc + 1 < MemorySize && s.mem[s.pc] == 0 && s.mem[s.pc + 1] == 0
    ensures Step(s).Halted? ==> Step(s).next == s.(pc := s.pc + 2)
  {
    if s.pc + 1 < MemorySize {
      var op := Opcode(s.mem[s.pc], s.mem[s.pc + 1]);
      assert op == 0 <==> s.mem[s.pc] == 0 && s.mem[s.pc + 1] == 0;
    }
  }

  /** A run result that, if it is a halt, ends with pc just past a zero
      word of `mem`. */
  ghost predicate EndsPastZeroWord(mem: seq<u8>, r: RunResult) {
    r.RunHalted? ==> 2 <= r.final.pc <= |mem| && mem[r.final.pc - 2] == 0 && mem[r.final.pc - 1] == 0
  }

  /** `run` stops only at the word 0x0000: a run that halts ends with pc
      just past a zero word of the program. */
  lemma {:induction false} RunHaltsOnZeroWord(s: State, fuel: nat)
    requires WellFormed(s)
    ensures EndsPastZeroWord(s.mem, Run(s, fuel))
    decreases fuel
  {
    if fuel > 0 {
      RunUnfold(s, fuel);
      var t := Step(s);
      if t.Halted? {
        HaltedOnZeroWord(s);
        assert Run(s, fuel) == RunHalted(t.next);
      } else if t.Continued? {
        RunHaltsOnZeroWord(t.next, fuel - 1);
        assert t.next.mem == s.mem && Run(s, fuel) == Run(t.next, fuel - 1);
      }
    }
  }

  /** The halting step, as `RunHaltsOnZeroWord` needs it. */
  lemma HaltedOnZeroWord(s: State)
    requires WellFormed(s) && Step(s).Halted?
    ensures s.pc + 1 < MemorySize && s.mem[s.pc] == 0 && s.mem[s.pc + 1] == 0 && Step(s).next.pc == s.pc + 2
  {
    HaltExactly(s);
  }

  lemma UnimplementedExactly(s: State)
    requires WellFormed(s)
    ensures Step(s) == Faulted(Unimplemented) <==> Fetch(s.mem, s.pc).Ok? && !Handled(Fetch(s.mem, s.pc).value)
  {
  }

  /** No handler of this version writes VF, except as the target VX when
      X is 0xF; and every 0x8XYn step only moves pc on by 2 besides. */
  lemma FlagWrittenOnlyAsTarget(s: State)
    requires WellFormed(s) && Step(s).Continued?
    ensures Step(s).next.regs[Flag] != s.regs[Flag] ==>
      var op := Fetch(s.mem, s.pc).value; 0x8000 <= op <= 0x8FFF && Decode(op).x == Flag
    ensures var op := Fetch(s.mem, s.pc).value; 0x8000 <= op <= 0x8FFF ==>
      Step(s).next == s.(pc := s.pc + 2, regs := Step(s).next.regs)
  {
  }

  // ---------------------------------------------------------------------
  // Against the current version

  /** On halt, return, call and 0x8XY0 the two versions take the same step. */
  lemma VersionsAgreeOnShared(s: State)
    requires WellFormed(s) && Fetch(s.mem, s.pc).Ok?
    requires var op := Fetch(s.mem, s.pc).value;
      op == 0x0000 || op == 0x00EE || 0x2000 <= op <= 0x2FFF || (0x8000 <= op <= 0x8FFF && op as int % 0x10 == 0)
    ensures Step(s) == Chip8.Step(s)
  {
  }

  /** Where it does not overflow, the earlier add is the current add for
      X, Y other than VF, minus the flag write. */
  lemma AddIsCurrentAddWithoutFlag(v: seq<u8>, x: RegIndex, y: RegIndex)
    requires |v| == RegisterCount && x != Flag && y != Flag
    requires v[x] as int + v[y] as int <= 0xFF
    ensures AddXY(v, x, y) == Ok(Chip8.AddXY(v, x, y)[Flag := v[Flag]])
  {
    var a := AddXY(v, x, y).value;
    var b := Chip8.AddXY(v, x, y)[Flag := v[Flag]];
    assert forall k :: 0 <= k < RegisterCount ==> a[k] == b[k];
    assert a == b;
  }

  /** Where it does not underflow, the earlier 0x8XY7 is the current
      reverse subtraction for X, Y other than VF, minus the flag write. */
  lemma SubIsCurrentSetSubWithoutFlag(v: seq<u8>, x: RegIndex, y: RegIndex)
    requires |v| == RegisterCount && x != Flag && y != Flag
    requires v[x] <= v[y]
    ensures SubXY(v, x, y).Ok? && Chip8.SetSubXY(v, x, y).Ok?
    ensures SubXY(v, x, y).value == Chip8.SetSubXY(v, x, y).value[Flag := v[Flag]]
  {
    var a := SubXY(v, x, y).value;
    var b := Chip8.SetSubXY(v, x, y).value[Flag := v[Flag]];
    assert forall k :: 0 <= k < RegisterCount ==> a[k] == b[k];
  }

  // ---------------------------------------------------------------------
  // The unit tests of src/cpu/cpu.rs, and where this version faults

  /** If the loaded instruction continues to address 2, a run of two steps
      executes it and then halts on the zero word. */
  lemma RunLoaded(s: State, v0: u8, v1: u8, lo: u8, t: State)
    requires Chip8Scenarios.Loaded(s, v0, v1, 0x80, lo) && Step(s) == Continued(t) && t.pc == 2
    ensures Run(s, 2) == RunHalted(t.(pc := 4))
  {
    assert Fetch(t.mem, 2) == Ok(0);
    RunUnfold(s, 2);
    RunUnfold(t, 1);
  }

  lemma TestAddXY(s: State)
    requires Chip8Scenarios.Loaded(s, 5, 10, 0x80, 0x14)
    ensures var r := Run(s, 2); r.RunHalted? && r.final.regs[0] == 15
  {
    assert Fetch(s.mem, 0) == Ok(0x8014);
    var t := s.(pc := 2, regs := AddXY(s.regs, 0, 1).value);
    assert Step(s) == Continued(t);
    RunLoaded(s, 5, 10, 0x14, t);
  }

  lemma TestSubXY(s: State)
    requires Chip8Scenarios.Loaded(s, 6, 10, 0x80, 0x17)
    ensures var r := Run(s, 2); r.RunHalted? && r.final.regs[0] == 4
  {
    assert Fetch(s.mem, 0) == Ok(0x8017);
    var t := s.(pc := 2, regs := SubXY(s.regs, 0, 1).value);
    assert Step(s) == Continued(t);
    RunLoaded(s, 6, 10, 0x17, t);
  }

  lemma TestAssign(s: State)
    requires Chip8Scenarios.Loaded(s, 6, 10, 0x80, 0x10)
    ensures var r := Run(s, 2); r.RunHalted? && r.final.regs[0] == 10
  {
    assert Fetch(s.mem, 0) == Ok(0x8010);
    var t := s.(pc := 2, regs := Assign(s.regs, 0, 1));
    assert Step(s) == Continued(t);
    RunLoaded(s, 6, 10, 0x10, t);
  }

  /** 255 + 1 overflows the flagless add: a fault, where the current
      version sets VF. */
  lemma AddOverflowFaults(s: State)
    requires Chip8Scenarios.Loaded(s, 255, 1, 0x80, 0x14)
    ensures Run(s, 1) == RunFaulted(ArithmeticOverflow)
  {
    assert Fetch(s.mem, 0) == Ok(0x8014);
    RunUnfold(s, 1);
  }

  /** 0x8XY1 has no handler in this version. */
  lemma OrIsUnimplemented(s: State)
    requires Chip8Scenarios.Loaded(s, 0x0C, 0x03, 0x80, 0x11)
    ensures Run(s, 1) == RunFaulted(Unimplemented)
  {
    assert Fetch(s.mem, 0) == Ok(0x8011);
    RunUnfold(s, 1);
  }

  lemma CallStep(s: State)
    requires WellFormed(s) && s.mem == Chip8Scenarios.CallAndRetProgram().mem && (s.pc == 0 || s.pc == 2) && s.sp == 0
    ensures Step(s) == Continued(s.(pc := 0x100, sp := 1, stack := s.stack[0 := (s.pc + 2) as u16]))
  {
    assert Fetch(s.mem, s.pc) == Ok(0x2100);
  }

  lemma AddStep(s: State)
    requires WellFormed(s) && s.mem == Chip8Scenarios.CallAndRetProgram().mem && s.pc == 0x100
    requires s.regs[0] as int + s.regs[1] as int <= 0xFF
    ensures Step(s) == Continued(s.(pc := 0x102, regs := s.regs[0 := s.regs[0] + s.regs[1]]))
  {
    assert Fetch(s.mem, s.pc) == Ok(0x8014);
  }

  lemma RetStep(s: State)
    requires WellFormed(s) && s.mem == Chip8Scenarios.CallAndRetProgram().mem && s.pc == 0x102 && s.sp == 1
    ensures Step(s) == Continued(s.(pc := s.stack[0] as int, sp := 0))
  {
    assert Fetch(s.mem, s.pc) == Ok(0x00EE);
  }

  lemma TestCallAndRet()
    ensures var r := Run(Chip8Scenarios.CallAndRetProgram(), 7);
      r.RunHalted? && r.final.regs[0] == 25 && r.final.sp == 0
  {
    var s0 := Chip8Scenarios.CallAndRetProgram();
    CallStep(s0);
    var s1 := Step(s0).next;
    AddStep(s1);
    var s2 := Step(s1).next;
    RetStep(s2);
    var s3 := Step(s2).next;
    CallStep(s3);
    var s4 := Step(s3).next;
    AddStep(s4);
    var s5 := Step(s4).next;
    assert s5.regs[0] == 25;
    RetStep(s5);
    var s6 := Step(s5).next;
    assert s6.pc == 4 && Fetch(s6.mem, s6.pc) == Ok(0);
    RunUnfold(s0, 7); RunUnfold(s1, 6); RunUnfold(s2, 5); RunUnfold(s3, 4);
    RunUnfold(s4, 3); RunUnfold(s5, 2); RunUnfold(s6, 1);
  }
}
