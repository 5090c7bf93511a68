/** The earlier engine (src/cpu/cpu.rs) on arrays updated in place. Each
    method is proved to implement the function of the same name in module
    Chip8Early (or Chip8Common) on the abstract state `Abs()`. */
module Chip8EarlyMachine {
  import opened Chip8Common
  import Chip8Early

  class Cpu {
    var registers: array<u8>
    var memory: array<u8>
    var positionInMemory: nat
    var stack: array<u16>
    var stackPointer: nat

    ghost predicate Valid()
      reads this
    {
      registers.Length == RegisterCount && memory.Length == MemorySize &&
      stack.Length == StackSize && stackPointer <= StackSize && registers != memory
    }

    ghost function Abs(): State
      reads this, registers, memory, stack
    {
      State(registers[..], memory[..], positionInMemory, stack[..], stackPointer)
    }

    /** `Cpu::default()`. */
    constructor ()
      ensures Valid() && Abs() == Default()
      ensures fresh(registers) && fresh(memory) && fresh(stack)
    {
      registers := new u8[RegisterCount](_ => 0);
      memory := new u8[MemorySize](_ => 0);
      stack := new u16[StackSize](_ => 0);
      positionInMemory, stackPointer := 0, 0;
      new;
      assert registers[..] == Default().regs && memory[..] == Default().mem && stack[..] == Default().stack;
    }

    method Call(addr: nat) returns (r: Outcome)
      requires Valid()
      modifies this, stack
      ensures Valid() && registers == old(registers) && memory == old(memory) && stack == old(stack)
      ensures var t := Chip8Common.Call(old(Abs()), addr);
        r == (if t.Ok? then Continue else Fault(t.fault)) && (t.Ok? ==> Abs() == t.value)
    {
      var sp := stackPointer;
      // The source's guard is `sp > stack.len()`, which never holds; the
      // overflow at sp == 16 surfaces at the store `stack[sp]`.
      if StackFull(sp) {
        return Fault(StackOverflow);
      }
      stack[sp] := ToU16(positionInMemory);
      stackPointer := stackPointer + 1;
      positionInMemory := addr;
      return Continue;
    }

    method Ret() returns (r: Outcome)
      requires Valid()
      modifies this
      ensures Valid() && registers == old(registers) && memory == old(memory) && stack == old(stack)
      ensures var t := Chip8Common.Ret(old(Abs()));
        r == (if t.Ok? then Continue else Fault(t.fault)) && (t.Ok? ==> Abs() == t.value)
    {
      if stackPointer == 0 {
        return Fault(StackUnderflow);
      }
      stackPointer := stackPointer - 1;
      positionInMemory := stack[stackPointer] as nat;
      return Continue;
    }

    method Assign(x: RegIndex, y: RegIndex)
      requires Valid()
      modifies registers
      ensures registers[..] == Chip8Common.Assign(old(registers[..]), x, y)
    {
      registers[x] := registers[y];
    }

    method AddXY(x: RegIndex, y: RegIndex) returns (r: Outcome)
      requires Valid()
      modifies registers
      ensures var t := Chip8Early.AddXY(old(registers[..]), x, y);
        r == (if t.Ok? then Continue else Fault(t.fault)) && (t.Ok? ==> registers[..] == t.value)
    {
      if registers[x] as int + registers[y] as int > 0xFF {
        // `+=` panics in a debug build
        return Fault(ArithmeticOverflow);
      }
      registers[x] := registers[x] + registers[y];
      return Continue;
    }

    method SubXY(x: RegIndex, y: RegIndex) returns (r: Outcome)
      requires Valid()
      modifies registers
      ensures var t := Chip8Early.SubXY(old(registers[..]), x, y);
        r == (if t.Ok? then Continue else Fault(t.fault)) && (t.Ok? ==> registers[..] == t.value)
    {
      if registers[y] < registers[x] {
        // `-` panics in a debug build
        return Fault(ArithmeticOverflow);
      }
      registers[x] := registers[y] - registers[x];
      return Continue;
    }

    /** One iteration of the loop in `run`. */
    method Step() returns (r: Outcome)
      requires Valid()
      modifies this, registers, stack
      ensures Valid() && registers == old(registers) && memory == old(memory) && stack == old(stack)
      ensures var t := Chip8Early.Step(old(Abs())); r == t.Outcome() && (!t.Faulted? ==> Abs() == t.next)
    {
      if positionInMemory + 1 >= memory.Length {
        return Fault(OutOfBounds);
      }
      var opcode := Opcode(memory[positionInMemory], memory[positionInMemory + 1]);
      var f := Decode(opcode);
      positionInMemory := positionInMemory + 2;
      if opcode == 0x0000 {
        r := Halt;
      } else if opcode == 0x00EE {
        r := Ret();
      } else if 0x2000 <= opcode <= 0x2FFF {
        r := Call(f.addr);
      } else if 0x8000 <= opcode <= 0x8FFF {
        r := Continue;
        if f.minor == 0x0 {
          Assign(f.x, f.y);
        } else if f.minor == 0x4 {
          r := AddXY(f.x, f.y);
        } else if f.minor == 0x7 {
          r := SubXY(f.x, f.y);
        } else {
          r := Fault(Unimplemented);
        }
      } else {
        r := Fault(Unimplemented);
      }
    }

    /** `run`, bounded by `fuel` steps; Continue means the fuel ran out. */
    method Run(fuel: nat) returns (r: Outcome)
      requires Valid()
      modifies this, registers, stack
      ensures Valid() && registers == old(registers) && memory == old(memory) && stack == old(stack)
      ensures Chip8Early.RunReports(old(Abs()), fuel, r, Abs())
    {
      ghost var s0 := Abs();
      r := Continue;
      var rest := fuel;
      while rest > 0
        invariant Valid() && registers == old(registers) && memory == old(memory) && stack == old(stack)
        invariant r == Continue && Chip8Early.Reaches(s0, fuel, Abs(), rest)
      {
        ghost var before := Abs();
        r := Step();
        if r != Continue {
          Chip8Early.ReachesEnd(s0, fuel, before, rest);
          return;
        }
        Chip8Early.ReachesStep(s0, fuel, before, rest);
        rest := rest - 1;
      }
      Chip8Early.ReachesRun(s0, fuel, Abs(), 0);
    }
  }
}
