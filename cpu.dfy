/** The current version of the execution engine (src/cpu.rs): the full
    0x8XYn register family with VF side effects, call/return, halt and reset.
    The handlers are functions on the register file, the fetch-decode-execute
    step and the bounded run functions on `State`; the class in module
    Chip8Machine implements them on arrays updated in place. */
module Chip8 {
  import opened Chip8Common

  // ---------------------------------------------------------------------
  // Register handlers, as functions of the register file

  /** `a | b`, `a & b` and `a ^ b` on bytes. */
  function BitOr(a: u8, b: u8): u8 { ((a as bv8) | (b as bv8)) as u8 }
  function BitAnd(a: u8, b: u8): u8 { ((a as bv8) & (b as bv8)) as u8 }
  function BitXor(a: u8, b: u8): u8 { ((a as bv8) ^ (b as bv8)) as u8 }

  /** 0x8XY1: VX := VX | VY, nothing else changes. */
  function OrXY(v: seq<u8>, x: RegIndex, y: RegIndex): (r: seq<u8>)
    requires |v| == RegisterCount
    ensures |r| == RegisterCount && r[x] == BitOr(v[x], v[y]) && ChangesAtMost(v, r, x, x)
  {
    v[x := BitOr(v[x], v[y])]
  }

  /** 0x8XY2: VX := VX & VY, nothing else changes. */
  function AndXY(v: seq<u8>, x: RegIndex, y: RegIndex): (r: seq<u8>)
    requires |v| == RegisterCount
    ensures |r| == RegisterCount && r[x] == BitAnd(v[x], v[y]) && ChangesAtMost(v, r, x, x)
  {
    v[x := BitAnd(v[x], v[y])]
  }

  /** 0x8XY3: VX := VX ^ VY, nothing else changes. */
  function XorXY(v: seq<u8>, x: RegIndex, y: RegIndex): (r: seq<u8>)
    requires |v| == RegisterCount
    ensures |r| == RegisterCount && r[x] == BitXor(v[x], v[y]) && ChangesAtMost(v, r, x, x)
  {
    v[x := BitXor(v[x], v[y])]
  }

  /** 0x8XY4: on a carry VF := 1 and VX keeps its value; otherwise VF := 0
      and then VX := VX + VY. The writes happen in this order, so when X or
      Y is 0xF the addition reads the cleared VF; the `+` never leaves the
      byte range. */
  function AddXY(v: seq<u8>, x: RegIndex, y: RegIndex): (r: seq<u8>)
    requires |v| == RegisterCount
    ensures |r| == RegisterCount && ChangesAtMost(v, r, x, Flag)
    ensures v[x] as int + v[y] as int > 0xFF ==> r[Flag] == 1 && (x != Flag ==> r[x] == v[x])
    ensures v[x] as int + v[y] as int <= 0xFF && x != Flag && y != Flag ==>
      r[Flag] == 0 && r[x] as int == v[x] as int + v[y] as int
    ensures v[x] as int + v[y] as int <= 0xFF && x != Flag && y == Flag ==>
      r[Flag] == 0 && r[x] == v[x]
    ensures v[x] as int + v[y] as int <= 0xFF && x == Flag ==>
      r[Flag] == if y == Flag then 0 else v[y]
  {
    if v[x] > 0xFF - v[y] then v[Flag := 1]
    else
      var w := v[Flag := 0];
      w[x := w[x] + w[y]]
  }

  /** 0x8XY5: on a borrow (VX < VY) VF := 0 and VX keeps its value;
      otherwise VF := 1 and then VX := VX - VY. When X or Y is 0xF the
      subtraction reads the VF just set to 1, and can leave the byte range. */
  function SubXY(v: seq<u8>, x: RegIndex, y: RegIndex): (r: Result<seq<u8>>)
    requires |v| == RegisterCount
    ensures r.Err? <==>
      (x == Flag && y != Flag && v[x] >= v[y] && v[y] > 1) ||
      (y == Flag && x != Flag && v[x] == 0 && v[y] == 0)
    ensures r.Err? ==> r.fault == ArithmeticOverflow
    ensures r.Ok? ==> |r.value| == RegisterCount && ChangesAtMost(v, r.value, x, Flag)
    ensures v[x] < v[y] ==> r.Ok? && r.value[Flag] == 0 && (x != Flag ==> r.value[x] == v[x])
    ensures v[x] >= v[y] && x != Flag && y != Flag ==>
      r.Ok? && r.value[Flag] == 1 && r.value[x] as int == v[x] as int - v[y] as int
    ensures r.Ok? && v[x] >= v[y] && x != Flag && y == Flag ==>
      r.value[Flag] == 1 && r.value[x] as int == v[x] as int - 1
    ensures r.Ok? && v[x] >= v[y] && x == Flag ==>
      r.value[Flag] as int == 1 - (if y == Flag then 1 else v[y] as int)
  {
    if v[x] < v[y] then Ok(v[Flag := 0])
    else
      var w := v[Flag := 1];
      match CheckedSub(w[x], w[y])
      case Ok(d) => Ok(w[x := d])
      case Err(e) => Err(e)
  }

  /** 0x8XY6: VF := the least significant bit of VX, then VX := VX >> 1. */
  function ShiftRight1(v: seq<u8>, x: RegIndex): (r: seq<u8>)
    requires |v| == RegisterCount
    ensures |r| == RegisterCount && ChangesAtMost(v, r, x, Flag)
    ensures x != Flag ==> v[x] as int == 2 * r[x] as int + r[Flag] as int && r[Flag] <= 1
    ensures x == Flag ==> r[Flag] == 0
  {
    var w := v[Flag := v[x] % 2];
    w[x := w[x] / 2]
  }

  /** 0x8XYE: VF := the least significant bit of VX (the source's comment
      says the most significant bit; the code takes the least), then
      VX := VX << 1, dropping the bit shifted out of the byte. */
  function ShiftLeft1(v: seq<u8>, x: RegIndex): (r: seq<u8>)
    requires |v| == RegisterCount
    ensures |r| == RegisterCount && ChangesAtMost(v, r, x, Flag)
    ensures x != Flag ==> r[Flag] as int == v[x] as int % 2 && r[x] as int == 2 * v[x] as int % 0x100
    ensures x == Flag ==> r[Flag] as int == 2 * (v[x] as int % 2)
  {
    var w := v[Flag := v[x] % 2];
    w[x := (w[x] as int * 2 % 0x100) as u8]
  }

  /** 0x8XY7: on a borrow (VX > VY) VF := 0 and VX keeps its value;
      otherwise VF := 1 and then VX := VY - VX. When X or Y is 0xF the
      subtraction reads the VF just set to 1, and can leave the byte range. */
  function SetSubXY(v: seq<u8>, x: RegIndex, y: RegIndex): (r: Result<seq<u8>>)
    requires |v| == RegisterCount
    ensures r.Err? <==>
      (x == Flag && y != Flag && v[x] == 0 && v[y] == 0) ||
      (y == Flag && x != Flag && 1 < v[x] <= v[y])
    ensures r.Err? ==> r.fault == ArithmeticOverflow
    ensures r.Ok? ==> |r.value| == RegisterCount && ChangesAtMost(v, r.value, x, Flag)
    ensures v[x] > v[y] ==> r.Ok? && r.value[Flag] == 0 && (x != Flag ==> r.value[x] == v[x])
    ensures v[x] <= v[y] && x != Flag && y != Flag ==>
      r.Ok? && r.value[Flag] == 1 && r.value[x] as int == v[y] as int - v[x] as int
    ensures r.Ok? && v[x] <= v[y] && x != Flag && y == Flag ==>
      r.value[Flag] == 1 && r.value[x] as int == 1 - v[x] as int
    ensures r.Ok? && v[x] <= v[y] && x == Flag ==>
      r.value[Flag] as int == (if y == Flag then 1 else v[y] as int) - 1
  {
    if v[x] > v[y] then Ok(v[Flag := 0])
    else
      var w := v[Flag := 1];
      match CheckedSub(w[y], w[x])
      case Ok(d) => Ok(w[x := d])
      case Err(e) => Err(e)
  }

  // ---------------------------------------------------------------------
  // One fetch-decode-execute step and a bounded run

  function WithRegs(s: State, r: Result<seq<u8>>): (t: Transition)
  {
    match r
    case Ok(v) => Continued(s.(regs := v))
    case Err(e) => Faulted(e)
  }

  function FromControl(r: Result<State>): (t: Transition)
  {
    match r
    case Ok(s) => Continued(s)
    case Err(e) => Faulted(e)
  }

  /** The body of the loop in `run`: fetch, advance pc by 2, dispatch. */
  function Step(s: State): (t: Transition)
    requires WellFormed(s)
    ensures !t.Faulted? ==> WellFormed(t.next) && t.next.mem == s.mem
    ensures t.Halted? ==> t.next == s.(pc := s.pc + 2)
  {
    match Fetch(s.mem, s.pc)
    case Err(e) => Faulted(e)
    case Ok(op) =>
      var f := Decode(op);
      var s' := s.(pc := s.pc + 2);
      if op == 0x0000 then Halted(s')
      else if op == 0x00EE then FromControl(Ret(s'))
      else if 0x2000 <= op <= 0x2FFF then FromControl(Call(s', f.addr))
      else if 0x8000 <= op <= 0x8FFF then
        if f.minor == 0x0 then Continued(s'.(regs := Assign(s.regs, f.x, f.y)))
        else if f.minor == 0x1 then Continued(s'.(regs := OrXY(s.regs, f.x, f.y)))
        else if f.minor == 0x2 then Continued(s'.(regs := AndXY(s.regs, f.x, f.y)))
        else if f.minor == 0x3 then Continued(s'.(regs := XorXY(s.regs, f.x, f.y)))
        else if f.minor == 0x4 then Continued(s'.(regs := AddXY(s.regs, f.x, f.y)))
        else if f.minor == 0x5 then WithRegs(s', SubXY(s.regs, f.x, f.y))
        else if f.minor == 0x6 then Continued(s'.(regs := ShiftRight1(s.regs, f.x)))
        else if f.minor == 0x7 then WithRegs(s', SetSubXY(s.regs, f.x, f.y))
        else if f.minor == 0xE then Continued(s'.(regs := ShiftLeft1(s.regs, f.x)))
        else Faulted(Unimplemented)
      else Faulted(Unimplemented)
  }

  /** `run` with at most `fuel` steps: it stops at a halt, a fault, or when
      the fuel is spent. Memory is never written. */
  function Run(s: State, fuel: nat): (r: RunResult)
    requires WellFormed(s)
    ensures r.RunHalted? ==> WellFormed(r.final) && r.final.mem == s.mem
    ensures r.OutOfFuel? ==> WellFormed(r.last) && r.last.mem == s.mem
    decreases fuel
  {
    if fuel == 0 then OutOfFuel(s)
    else
      match Step(s)
      case Halted(t) => RunHalted(t)
      case Faulted(k) => RunFaulted(k)
      case Continued(t) => Run(t, fuel - 1)
  }

  /** `r` is what the run from `s` with `fuel` steps reports, and `after`
      is the state it ends in when it halts or its fuel runs out. */
  ghost predicate RunReports(s: State, fuel: nat, r: Outcome, after: State)
    requires WellFormed(s)
  {
    var t := Run(s, fuel);
    r == t.Outcome() && (t.RunHalted? ==> after == t.final) && (t.OutOfFuel? ==> after == t.last)
  }

  /** `s` is where the run from `s0` with `fuel` steps stands with `rest`
      steps left: every step taken so far continued. */
  ghost predicate Reaches(s0: State, fuel: nat, s: State, rest: nat)
    requires WellFormed(s0)
    decreases fuel
  {
    (fuel == rest && s == s0) ||
    (fuel > 0 && Step(s0).Continued? && Reaches(Step(s0).next, fuel - 1, s, rest))
  }

  /** A continued step from a reached state reaches the next state. */
  lemma {:induction false} ReachesStep(s0: State, fuel: nat, s: State, rest: nat)
    requires WellFormed(s0) && WellFormed(s) && rest > 0 && Reaches(s0, fuel, s, rest)
    requires Step(s).Continued?
    ensures Reaches(s0, fuel, Step(s).next, rest - 1)
    decreases fuel
  {
    if fuel == rest && s == s0 {
      assert Reaches(Step(s0).next, fuel - 1, Step(s).next, rest - 1);
    } else {
      ReachesStep(Step(s0).next, fuel - 1, s, rest);
    }
  }

  /** From a reached state the rest of the run has the result of the whole. */
  lemma {:induction false} ReachesRun(s0: State, fuel: nat, s: State, rest: nat)
    requires WellFormed(s0) && Reaches(s0, fuel, s, rest)
    ensures WellFormed(s) && rest <= fuel && Run(s0, fuel) == Run(s, rest)
    decreases fuel
  {
    if fuel == rest && s == s0 {
    } else {
      ReachesRun(Step(s0).next, fuel - 1, s, rest);
      RunUnfold(s0, fuel);
    }
  }

  /** A halt or a fault from a reached state ends the whole run there. */
  lemma ReachesEnd(s0: State, fuel: nat, s: State, rest: nat)
    requires WellFormed(s0) && WellFormed(s) && rest > 0 && Reaches(s0, fuel, s, rest)
    ensures Step(s).Halted? ==> Run(s0, fuel) == RunHalted(Step(s).next)
    ensures Step(s).Faulted? ==> Run(s0, fuel) == RunFaulted(Step(s).kind)
  {
    ReachesRun(s0, fuel, s, rest);
    RunUnfold(s, rest);
  }

  /** One unfolding of `Run`. */
  lemma RunUnfold(s: State, fuel: nat)
    requires WellFormed(s) && fuel > 0
    ensures Step(s).Halted? ==> Run(s, fuel) == RunHalted(Step(s).next)
    ensures Step(s).Faulted? ==> Run(s, fuel) == RunFaulted(Step(s).kind)
    ensures Step(s).Continued? ==> Run(s, fuel) == Run(Step(s).next, fuel - 1)
  {
  }
}
