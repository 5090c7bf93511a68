/** Shared vocabulary of both versions of the Chip-8 execution engine:
    the architectural state, instruction fetch and field extraction, Rust's
    debug-build `u8` arithmetic, and the handlers whose code is the same in
    both versions (register transfer, subroutine call and return). */
module Chip8Common {

  const RegisterCount: nat := 16
  const MemorySize: nat := 4096
  const StackSize: nat := 16
  /** VF, the register the arithmetic and shift handlers use as a flag. */
  const Flag: nat := 0xF

  /** Rust's `u8` and `u16`. Arithmetic on them that leaves the range is a
      proof obligation, just as it is a panic in a debug build. */
  newtype u8 = n: int | 0 <= n < 0x100
  newtype u16 = n: int | 0 <= n < 0x1_0000

  /** A 4-bit register identifier, as produced by field extraction. */
  type RegIndex = i: nat | i < 16

  /** The fatal conditions. In the source each one is a Rust panic. */
  datatype Fault =
    | StackOverflow       // a call with all 16 stack slots in use
    | StackUnderflow      // a return with an empty stack
    | OutOfBounds         // an instruction fetch past the end of memory
    | Unimplemented       // an opcode that no handler is bound to
    | ArithmeticOverflow  // a `u8` addition or subtraction leaving [0, 255]

  datatype Result<T> = Ok(value: T) | Err(fault: Fault)

  /** What one execution step reports to its caller. */
  datatype Outcome = Continue | Halt | Fault(kind: Fault)

  /** The architectural state: `registers`, `memory`, `position_in_memory`,
      `stack` and `stack_pointer` of the `Cpu` struct, as values. */
  datatype State = State(regs: seq<u8>, mem: seq<u8>, pc: nat, stack: seq<u16>, sp: nat)

  /** The fixed array sizes and the stack-pointer bound every step keeps. */
  ghost predicate WellFormed(s: State) {
    |s.regs| == RegisterCount && |s.mem| == MemorySize && |s.stack| == StackSize && s.sp <= StackSize
  }

  /** The result of one step as a function: the next state, or a fault. */
  datatype Transition = Continued(next: State) | Halted(next: State) | Faulted(kind: Fault)
  {
    function Outcome(): Outcome {
      match this
      case Continued(_) => Continue
      case Halted(_) => Halt
      case Faulted(k) => Fault(k)
    }
  }

  /** The result of running with a bound on the number of steps. */
  datatype RunResult = RunHalted(final: State) | RunFaulted(kind: Fault) | OutOfFuel(last: State)
  {
    function Outcome(): Outcome {
      match this
      case RunHalted(_) => Halt
      case RunFaulted(k) => Fault(k)
      case OutOfFuel(_) => Continue
    }
  }

  /** The state of `Cpu::default()`: everything zero. */
  function Default(): (s: State)
    ensures WellFormed(s) && s.pc == 0 && s.sp == 0
    ensures forall i :: 0 <= i < |s.regs| ==> s.regs[i] == 0
    ensures forall i :: 0 <= i < |s.mem| ==> s.mem[i] == 0
    ensures forall i :: 0 <= i < |s.stack| ==> s.stack[i] == 0
  {
    State(seq(RegisterCount, _ => 0), seq(MemorySize, _ => 0), 0, seq(StackSize, _ => 0), 0)
  }

  // ---------------------------------------------------------------------
  // Division facts behind field extraction

  lemma MulAtLeast(a: int, d: nat)
    requires a >= 1
    ensures a * d >= d
  {
    assert a * d == (a - 1) * d + d;
    if a > 1 { MulAtLeast(a - 1, d); }
  }

  /** Quotient and remainder are unique. */
  lemma DivModUnique(n: int, d: nat, q: int, r: int)
    requires 0 < d && 0 <= r < d && n == q * d + r
    ensures n % d == r && n / d == q
  {
    var q', r' := n / d, n % d;
    assert (q - q') * d == r' - r;
    if q > q' {
      MulAtLeast(q - q', d);
    } else if q < q' {
      MulAtLeast(q' - q, d);
    }
  }

  lemma ModMod(n: nat, d: nat, k: nat)
    requires 0 < d && 0 < k
    ensures n % (d * k) % d == n % d
  {
    var q, r := n / (d * k), n % (d * k);
    assert n == (q * k) * d + r;
    var q2, r2 := r / d, r % d;
    assert n == (q * k + q2) * d + r2;
    DivModUnique(n, d, q * k + q2, r2);
  }

  // ---------------------------------------------------------------------
  // Fetch and decode

  /** The opcode `op_byte1 << 8 | op_byte2`: two bytes, most significant
      first. The low byte is below 0x100, so the `|` is an addition. */
  function Opcode(hi: u8, lo: u8): (op: u16)
    ensures op as int / 0x100 == hi as int && op as int % 0x100 == lo as int
  {
    (hi as int * 0x100 + lo as int) as u16
  }

  /** The fields extracted from an opcode by masking and shifting:
      `(op & 0x0F00) >> 8`, `(op & 0x00F0) >> 4`, `op & 0x000F` and
      `op & 0x0FFF`, written as the equal divisions and remainders. */
  datatype Fields = Fields(opcode: u16, x: RegIndex, y: RegIndex, minor: nat, addr: nat)

  function Decode(op: u16): (f: Fields)
    ensures f.opcode == op && f.minor < 0x10 && f.addr < 0x1000
    ensures f.addr == f.x * 0x100 + f.y * 0x10 + f.minor
    ensures op as int == op as int / 0x1000 * 0x1000 + f.addr
  {
    var addr := op as int % 0x1000;
    var low := op as int % 0x100;
    ModMod(op as int, 0x100, 0x10);
    ModMod(op as int, 0x10, 0x10);
    Fields(op, addr / 0x100, low / 0x10, op as int % 0x10, addr)
  }

  /** Reassembles an opcode from its top nibble and its decoded fields. */
  function Encode(top: nat, x: RegIndex, y: RegIndex, minor: nat): (op: u16)
    requires top < 16 && minor < 16
  {
    (top * 0x1000 + x * 0x100 + y * 0x10 + minor) as u16
  }

  lemma DecodeEncode(top: nat, x: RegIndex, y: RegIndex, minor: nat)
    requires top < 16 && minor < 16
    ensures Decode(Encode(top, x, y, minor)) == Fields(Encode(top, x, y, minor), x, y, minor, x * 0x100 + y * 0x10 + minor)
    ensures Encode(top, x, y, minor) as int / 0x1000 == top
  {
  }

  lemma EncodeDecode(op: u16)
    ensures var f := Decode(op); Encode(op as int / 0x1000, f.x, f.y, f.minor) == op
  {
  }

  /** Reads the instruction word at `pc`; reading either byte past the end
      of memory is an out-of-bounds fault. */
  function Fetch(mem: seq<u8>, pc: nat): (r: Result<u16>)
    ensures r.Ok? <==> pc + 1 < |mem|
    ensures r.Ok? ==> r.value as int == mem[pc] as int * 256 + mem[pc + 1] as int
    ensures r.Err? ==> r.fault == OutOfBounds
  {
    if pc + 1 < |mem| then Ok(Opcode(mem[pc], mem[pc + 1])) else Err(OutOfBounds)
  }

  // ---------------------------------------------------------------------
  // Rust `u8` arithmetic in a debug build: overflow panics

  function CheckedAdd(a: u8, b: u8): (r: Result<u8>)
    ensures r.Ok? <==> a as int + b as int <= 255
    ensures r.Ok? ==> r.value as int == a as int + b as int
    ensures r.Err? ==> r.fault == ArithmeticOverflow
  {
    if a > 0xFF - b then Err(ArithmeticOverflow) else Ok(a + b)
  }

  function CheckedSub(a: u8, b: u8): (r: Result<u8>)
    ensures r.Ok? <==> a as int >= b as int
    ensures r.Ok? ==> r.value as int == a as int - b as int
    ensures r.Err? ==> r.fault == ArithmeticOverflow
  {
    if a < b then Err(ArithmeticOverflow) else Ok(a - b)
  }

  /** `r` is `v` except possibly at indices `i` and `j`. */
  ghost predicate ChangesAtMost(v: seq<u8>, r: seq<u8>, i: nat, j: nat) {
    |r| == |v| && forall k :: 0 <= k < |v| && k != i && k != j ==> r[k] == v[k]
  }

  // ---------------------------------------------------------------------
  // Handlers shared by both versions

  /** 0x8XY0: VX := VY. */
  function Assign(v: seq<u8>, x: RegIndex, y: RegIndex): (r: seq<u8>)
    requires |v| == RegisterCount
    ensures |r| == RegisterCount && r[x] == v[y] && ChangesAtMost(v, r, x, x)
  {
    v[x := v[y]]
  }

  /** The overflow guard of `call` as written: it admits a full stack. */
  predicate OverflowGuardAsWritten(sp: nat) {
    sp > StackSize
  }

  /** The guard `call` needs: the slot `stack[sp]` it writes must exist. */
  predicate StackFull(sp: nat) {
    sp >= StackSize
  }

  /** The written guard does not fire for sp == 16, where the store
      `stack[sp]` indexes past the last slot. */
  lemma GuardAdmitsFullStack()
    ensures !OverflowGuardAsWritten(StackSize) && !(StackSize < StackSize)
    ensures exists sp :: !OverflowGuardAsWritten(sp) && StackFull(sp)
  {
    assert !OverflowGuardAsWritten(StackSize) && StackFull(StackSize);
  }

  /** `position_in_memory as u16`: truncation of the saved return address. */
  function ToU16(n: nat): (w: u16)
    ensures n < 0x1_0000 ==> w as int == n
  {
    (n % 0x1_0000) as u16
  }

  /** 0x2NNN: push the (already advanced) pc, then jump to `addr`. The
      overflow is reported for every sp >= 16. */
  function Call(s: State, addr: nat): (r: Result<State>)
    requires WellFormed(s)
    ensures r.Err? <==> s.sp >= StackSize
    ensures r.Err? ==> r.fault == StackOverflow
    ensures r.Ok? ==> WellFormed(r.value)
    ensures r.Ok? ==> var t := r.value;
      t.sp == s.sp + 1 && t.pc == addr && t.regs == s.regs && t.mem == s.mem &&
      t.stack[s.sp] == ToU16(s.pc) &&
      forall i :: 0 <= i < StackSize && i != s.sp ==> t.stack[i] == s.stack[i]
  {
    if StackFull(s.sp) then Err(StackOverflow)
    else Ok(s.(stack := s.stack[s.sp := ToU16(s.pc)], sp := s.sp + 1, pc := addr))
  }

  /** 0x00EE: pop the saved pc. */
  function Ret(s: State): (r: Result<State>)
    requires WellFormed(s)
    ensures r.Err? <==> s.sp == 0
    ensures r.Err? ==> r.fault == StackUnderflow
    ensures r.Ok? ==> WellFormed(r.value)
    ensures r.Ok? ==> var t := r.value;
      t.sp == s.sp - 1 && t.pc == s.stack[s.sp - 1] as int &&
      t.regs == s.regs && t.mem == s.mem && t.stack == s.stack
  {
    if s.sp == 0 then Err(StackUnderflow)
    else Ok(s.(sp := s.sp - 1, pc := s.stack[s.sp - 1] as int))
  }
}
