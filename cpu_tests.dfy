/** The unit tests of src/cpu.rs as lemmas: each loads the test's program
    into the default state, runs it until it halts, and states what the
    test asserts. */
module Chip8Scenarios {
  import opened Chip8Common
  import opened Chip8

  /** The default state with V0 and V1 preset, as every test begins. */
  function Preset(v0: u8, v1: u8): (s: State)
    ensures WellFormed(s)
  {
    Default().(regs := Default().regs[0 := v0][1 := v1])
  }

  /** Writes one two-byte instruction word at `addr`. */
  function Poke(s: State, addr: nat, hi: u8, lo: u8): (t: State)
    requires WellFormed(s) && addr + 1 < MemorySize
    ensures WellFormed(t)
  {
    s.(mem := s.mem[addr := hi][addr + 1 := lo])
  }

  /** `s` is about to execute the word hi lo at address 0, followed by the
      zero word, with V0 = v0 and V1 = v1; the rest of the state is free. */
  ghost predicate Loaded(s: State, v0: u8, v1: u8, hi: u8, lo: u8) {
    WellFormed(s) && s.pc == 0 && s.regs[0] == v0 && s.regs[1] == v1 &&
    s.mem[0] == hi && s.mem[1] == lo && s.mem[2] == 0 && s.mem[3] == 0
  }

  /** A one-instruction program at address 0, followed by the zero word. */
  function OneInstruction(v0: u8, v1: u8, hi: u8, lo: u8): (s: State)
    ensures Loaded(s, v0, v1, hi, lo) && s.sp == 0
  {
    Poke(Preset(v0, v1), 0, hi, lo)
  }

  /** If the loaded instruction continues to address 2, a run of two steps
      executes it and then halts on the zero word. */
  lemma RunLoaded(s: State, v0: u8, v1: u8, lo: u8, t: State)
    requires Loaded(s, v0, v1, 0x80, lo) && Step(s) == Continued(t) && t.pc == 2
    ensures Run(s, 2) == RunHalted(t.(pc := 4))
  {
    assert Fetch(t.mem, 2) == Ok(0);
    RunUnfold(s, 2);
    RunUnfold(t, 1);
  }

  // Each test below holds for every state loaded with its registers and its
  // program, and so for the default-based state `OneInstruction` builds.

  lemma TestAddXY(s: State)
    requires Loaded(s, 5, 10, 0x80, 0x14)
    ensures var r := Run(s, 2); r.RunHalted? && r.final.regs[0] == 15 && r.final.regs[Flag] == 0
  {
    assert Fetch(s.mem, 0) == Ok(0x8014);
    var t := s.(pc := 2, regs := AddXY(s.regs, 0, 1));
    assert Step(s) == Continued(t);
    RunLoaded(s, 5, 10, 0x14, t);
  }

  /** The second half of the same test, and the demo driver's program. */
  lemma TestAddXYCarry(s: State)
    requires Loaded(s, 255, 1, 0x80, 0x14)
    ensures var r := Run(s, 2); r.RunHalted? && r.final.regs[Flag] == 1 && r.final.regs[0] == 255
  {
    assert Fetch(s.mem, 0) == Ok(0x8014);
    var t := s.(pc := 2, regs := AddXY(s.regs, 0, 1));
    assert Step(s) == Continued(t);
    RunLoaded(s, 255, 1, 0x14, t);
  }

  lemma TestSubXY(s: State)
    requires Loaded(s, 10, 6, 0x80, 0x15)
    ensures var r := Run(s, 2); r.RunHalted? && r.final.regs[0] == 4 && r.final.regs[Flag] == 1
  {
    assert Fetch(s.mem, 0) == Ok(0x8015);
    var t := s.(pc := 2, regs := SubXY(s.regs, 0, 1).value);
    assert Step(s) == Continued(t);
    RunLoaded(s, 10, 6, 0x15, t);
  }

  lemma TestSubXYBorrow(s: State)
    requires Loaded(s, 0, 1, 0x80, 0x15)
    ensures var r := Run(s, 2); r.RunHalted? && r.final.regs[Flag] == 0 && r.final.regs[0] == 0
  {
    assert Fetch(s.mem, 0) == Ok(0x8015);
    var t := s.(pc := 2, regs := SubXY(s.regs, 0, 1).value);
    assert Step(s) == Continued(t);
    RunLoaded(s, 0, 1, 0x15, t);
  }

  lemma TestAssign(s: State)
    requires Loaded(s, 6, 10, 0x80, 0x10)
    ensures var r := Run(s, 2); r.RunHalted? && r.final.regs[0] == 10
  {
    assert Fetch(s.mem, 0) == Ok(0x8010);
    var t := s.(pc := 2, regs := Assign(s.regs, 0, 1));
    assert Step(s) == Continued(t);
    RunLoaded(s, 6, 10, 0x10, t);
  }

  lemma TestOrXY(s: State)
    requires Loaded(s, 0x0C, 0x03, 0x80, 0x11)
    ensures var r := Run(s, 2); r.RunHalted? && r.final.regs[0] == 0x0F
  {
    assert Fetch(s.mem, 0) == Ok(0x8011);
    var t := s.(pc := 2, regs := OrXY(s.regs, 0, 1));
    assert Step(s) == Continued(t);
    RunLoaded(s, 0x0C, 0x03, 0x11, t);
    assert BitOr(0x0C, 0x03) == 0x0F;
  }

  lemma TestAndXY(s: State)
    requires Loaded(s, 0xFF, 0x0F, 0x80, 0x12)
    ensures var r := Run(s, 2); r.RunHalted? && r.final.regs[0] == 0x0F
  {
    assert Fetch(s.mem, 0) == Ok(0x8012);
    var t := s.(pc := 2, regs := AndXY(s.regs, 0, 1));
    assert Step(s) == Continued(t);
    RunLoaded(s, 0xFF, 0x0F, 0x12, t);
    assert BitAnd(0xFF, 0x0F) == 0x0F;
  }

  lemma TestXorXY(s: State)
    requires Loaded(s, 0x11, 0xFF, 0x80, 0x13)
    ensures var r := Run(s, 2); r.RunHalted? && r.final.regs[0] == 0xEE
  {
    assert Fetch(s.mem, 0) == Ok(0x8013);
    var t := s.(pc := 2, regs := XorXY(s.regs, 0, 1));
    assert Step(s) == Continued(t);
    RunLoaded(s, 0x11, 0xFF, 0x13, t);
    assert BitXor(0x11, 0xFF) == 0xEE;
  }

  lemma TestShiftRight1(s: State)
    requires Loaded(s, 3, 0, 0x80, 0x16)
    ensures var r := Run(s, 2); r.RunHalted? && r.final.regs[Flag] == 1 && r.final.regs[0] == 1
  {
    assert Fetch(s.mem, 0) == Ok(0x8016);
    var t := s.(pc := 2, regs := ShiftRight1(s.regs, 0));
    assert Step(s) == Continued(t);
    RunLoaded(s, 3, 0, 0x16, t);
  }

  lemma TestSetSubXY(s: State)
    requires Loaded(s, 6, 10, 0x80, 0x17)
    ensures var r := Run(s, 2); r.RunHalted? && r.final.regs[0] == 4 && r.final.regs[Flag] == 1
  {
    assert Fetch(s.mem, 0) == Ok(0x8017);
    var t := s.(pc := 2, regs := SetSubXY(s.regs, 0, 1).value);
    assert Step(s) == Continued(t);
    RunLoaded(s, 6, 10, 0x17, t);
  }

  lemma TestShiftLeft1(s: State)
    requires Loaded(s, 3, 0, 0x80, 0x0E)
    ensures var r := Run(s, 2); r.RunHalted? && r.final.regs[0] == 6 && r.final.regs[Flag] == 1
  {
    assert Fetch(s.mem, 0) == Ok(0x800E);
    var t := s.(pc := 2, regs := ShiftLeft1(s.regs, 0));
    assert Step(s) == Continued(t);
    RunLoaded(s, 3, 0, 0x0E, t);
  }

  /** Two calls of a subroutine at 0x100 that adds V1 to V0 and returns. */
  function CallAndRetProgram(): (s: State)
    ensures WellFormed(s)
  {
    Poke(Poke(Poke(Poke(Preset(5, 10), 0x000, 0x21, 0x00), 0x002, 0x21, 0x00), 0x100, 0x80, 0x14), 0x102, 0x00, 0xEE)
  }

  lemma CallStep(s: State)
    requires WellFormed(s) && s.mem == CallAndRetProgram().mem && (s.pc == 0 || s.pc == 2) && s.sp == 0
    ensures Step(s) == Continued(s.(pc := 0x100, sp := 1, stack := s.stack[0 := (s.pc + 2) as u16]))
  {
    assert Fetch(s.mem, s.pc) == Ok(0x2100);
  }

  lemma AddStep(s: State)
    requires WellFormed(s) && s.mem == CallAndRetProgram().mem && s.pc == 0x100
    ensures Step(s) == Continued(s.(pc := 0x102, regs := AddXY(s.regs, 0, 1)))
  {
    assert Fetch(s.mem, s.pc) == Ok(0x8014);
  }

  lemma RetStep(s: State)
    requires WellFormed(s) && s.mem == CallAndRetProgram().mem && s.pc == 0x102 && s.sp == 1
    ensures Step(s) == Continued(s.(pc := s.stack[0] as int, sp := 0))
  {
    assert Fetch(s.mem, s.pc) == Ok(0x00EE);
  }

  lemma TestCallAndRet()
    ensures var r := Run(CallAndRetProgram(), 7);
      r.RunHalted? && r.final.regs[0] == 25 && r.final.sp == 0
  {
    var s0 := CallAndRetProgram();
    CallStep(s0);
    var s1 := Step(s0).next;
    AddStep(s1);
    var s2 := Step(s1).next;
    assert s2.regs[0] == 15 && s2.regs[1] == 10;
    RetStep(s2);
    var s3 := Step(s2).next;
    CallStep(s3);
    var s4 := Step(s3).next;
    AddStep(s4);
    var s5 := Step(s4).next;
    assert s5.regs[0] == 25;
    RetStep(s5);
    var s6 := Step(s5).next;
    assert s6.pc == 4 && Fetch(s6.mem, s6.pc) == Ok(0);
    RunUnfold(s0, 7); RunUnfold(s1, 6); RunUnfold(s2, 5); RunUnfold(s3, 4);
    RunUnfold(s4, 3); RunUnfold(s5, 2); RunUnfold(s6, 1);
  }
}
