/** The earlier version of the execution engine (src/cpu/cpu.rs): the same
    state and loop, but only three register handlers, none of which writes
    VF, and whose arithmetic panics when it leaves the byte range. */
module Chip8Early {
  import opened Chip8Common

  /** 0x8XY4: VX := VX + VY with no flag; a sum above 0xFF panics. */
  function AddXY(v: seq<u8>, x: RegIndex, y: RegIndex): (r: Result<seq<u8>>)
    requires |v| == RegisterCount
    ensures r.Ok? <==> v[x] as int + v[y] as int <= 0xFF
    ensures r.Err? ==> r.fault == ArithmeticOverflow
    ensures r.Ok? ==> |r.value| == RegisterCount && ChangesAtMost(v, r.value, x, x)
    ensures r.Ok? ==> r.value[x] as int == v[x] as int + v[y] as int
  {
    match CheckedAdd(v[x], v[y])
    case Ok(sum) => Ok(v[x := sum])
    case Err(e) => Err(e)
  }

  /** 0x8XY7: VX := VY - VX with no flag; VX > VY panics. */
  function SubXY(v: seq<u8>, x: RegIndex, y: RegIndex): (r: Result<seq<u8>>)
    requires |v| == RegisterCount
    ensures r.Ok? <==> v[x] <= v[y]
    ensures r.Err? ==> r.fault == ArithmeticOverflow
    ensures r.Ok? ==> |r.value| == RegisterCount && ChangesAtMost(v, r.value, x, x)
    ensures r.Ok? ==> r.value[x] as int == v[y] as int - v[x] as int
  {
    match CheckedSub(v[y], v[x])
    case Ok(d) => Ok(v[x := d])
    case Err(e) => Err(e)
  }

  function WithRegs(s: State, r: Result<seq<u8>>): (t: Transition)
  {
    match r
    case Ok(v) => Continued(s.(regs := v))
    case Err(e) => Faulted(e)
  }

  function FromControl(r: Result<State>): (t: Transition)
  {
    match r
    case Ok(s) => Continued(s)
    case Err(e) => Faulted(e)
  }

  /** The body of the loop in `run`: fetch, advance pc by 2, dispatch. */
  function Step(s: State): (t: Transition)
    requires WellFormed(s)
    ensures !t.Faulted? ==> WellFormed(t.next) && t.next.mem == s.mem
    ensures t.Halted? ==> t.next == s.(pc := s.pc + 2)
  {
    match Fetch(s.mem, s.pc)
    case Err(e) => Faulted(e)
    case Ok(op) =>
      var f := Decode(op);
      var s' := s.(pc := s.pc + 2);
      if op == 0x0000 then Halted(s')
      else if op == 0x00EE then FromControl(Ret(s'))
      else if 0x2000 <= op <= 0x2FFF then FromControl(Call(s', f.addr))
      else if 0x8000 <= op <= 0x8FFF then
        if f.minor == 0x0 then Continued(s'.(regs := Assign(s.regs, f.x, f.y)))
        else if f.minor == 0x4 then WithRegs(s', AddXY(s.regs, f.x, f.y))
        else if f.minor == 0x7 then WithRegs(s', SubXY(s.regs, f.x, f.y))
        else Faulted(Unimplemented)
      else Faulted(Unimplemented)
  }

  /** `run` with at most `fuel` steps. Memory is never written. */
  function Run(s: State, fuel: nat): (r: RunResult)
    requires WellFormed(s)
    ensures r.RunHalted? ==> WellFormed(r.final) && r.final.mem == s.mem
    ensures r.OutOfFuel? ==> WellFormed(r.last) && r.last.mem == s.mem
    decreases fuel
  {
    if fuel == 0 then OutOfFuel(s)
    else
      match Step(s)
      case Halted(t) => RunHalted(t)
      case Faulted(k) => RunFaulted(k)
      case Continued(t) => Run(t, fuel - 1)
  }

  /** `r` is what the run from `s` with `fuel` steps reports, and `after`
      is the state it ends in when it halts or its fuel runs out. */
  ghost predicate RunReports(s: State, fuel: nat, r: Outcome, after: State)
    requires WellFormed(s)
  {
    var t := Run(s, fuel);
    r == t.Outcome() && (t.RunHalted? ==> after == t.final) && (t.OutOfFuel? ==> after == t.last)
  }

  /** `s` is where the run from `s0` with `fuel` steps stands with `rest`
      steps left: every step taken so far continued. */
  ghost predicate Reaches(s0: State, fuel: nat, s: State, rest: nat)
    requires WellFormed(s0)
    decreases fuel
  {
    (fuel == rest && s == s0) ||
    (fuel > 0 && Step(s0).Continued? && Reaches(Step(s0).next, fuel - 1, s, rest))
  }

  /** A continued step from a reached state reaches the next state. */
  lemma {:induction false} ReachesStep(s0: State, fuel: nat, s: State, rest: nat)
    requires WellFormed(s0) && WellFormed(s) && rest > 0 && Reaches(s0, fuel, s, rest)
    requires Step(s).Continued?
    ensures Reaches(s0, fuel, Step(s).next, rest - 1)
    decreases fuel
  {
    if fuel == rest && s == s0 {
      assert Reaches(Step(s0).next, fuel - 1, Step(s).next, rest - 1);
    } else {
      ReachesStep(Step(s0).next, fuel - 1, s, rest);
    }
  }

  /** From a reached state the rest of the run has the result of the whole. */
  lemma {:induction false} ReachesRun(s0: State, fuel: nat, s: State, rest: nat)
    requires WellFormed(s0) && Reaches(s0, fuel, s, rest)
    ensures WellFormed(s) && rest <= fuel && Run(s0, fuel) == Run(s, rest)
    decreases fuel
  {
    if fuel == rest && s == s0 {
    } else {
      ReachesRun(Step(s0).next, fuel - 1, s, rest);
      RunUnfold(s0, fuel);
    }
  }

  /** A halt or a fault from a reached state ends the whole run there. */
  lemma ReachesEnd(s0: State, fuel: nat, s: State, rest: nat)
    requires WellFormed(s0) && WellFormed(s) && rest > 0 && Reaches(s0, fuel, s, rest)
    ensures Step(s).Halted? ==> Run(s0, fuel) == RunHalted(Step(s).next)
    ensures Step(s).Faulted? ==> Run(s0, fuel) == RunFaulted(Step(s).kind)
  {
    ReachesRun(s0, fuel, s, rest);
    RunUnfold(s, rest);
  }

  /** One unfolding of `Run`. */
  lemma RunUnfold(s: State, fuel: nat)
    requires WellFormed(s) && fuel > 0
    ensures Step(s).Halted? ==> Run(s, fuel) == RunHalted(Step(s).next)
    ensures Step(s).Faulted? ==> Run(s, fuel) == RunFaulted(Step(s).kind)
    ensures Step(s).Continued? ==> Run(s, fuel) == Run(Step(s).next, fuel - 1)
  {
  }
}
