/** The current engine (src/cpu.rs) on arrays updated in place. Each method
    is proved to implement the function of the same name in module Chip8
    on the abstract state `Abs()`. */
module Chip8Machine {
  import opened Chip8Common
  import Chip8

  class Cpu {
    var registers: array<u8>
    var memory: array<u8>
    var positionInMemory: nat
    var stack: array<u16>
    var stackPointer: nat

    ghost predicate Valid()
      reads this
    {
      registers.Length == RegisterCount && memory.Length == MemorySize &&
      stack.Length == StackSize && stackPointer <= StackSize && registers != memory
    }

    ghost function Abs(): State
      reads this, registers, memory, stack
    {
      State(registers[..], memory[..], positionInMemory, stack[..], stackPointer)
    }

    /** `Cpu::default()`. */
    constructor ()
      ensures Valid() && Abs() == Default()
      ensures fresh(registers) && fresh(memory) && fresh(stack)
    {
      registers := new u8[RegisterCount](_ => 0);
      memory := new u8[MemorySize](_ => 0);
      stack := new u16[StackSize](_ => 0);
      positionInMemory, stackPointer := 0, 0;
      new;
      assert registers[..] == Default().regs && memory[..] == Default().mem && stack[..] == Default().stack;
    }

    /** Clears registers, memory and stack in place and zeroes pc and sp. */
    method Reset()
      requires Valid()
      modifies this, registers, memory, stack
      ensures Valid() && Abs() == Default()
      ensures registers == old(registers) && memory == old(memory) && stack == old(stack)
    {
      forall i | 0 <= i < registers.Length { registers[i] := 0; }
      forall i | 0 <= i < memory.Length { memory[i] := 0; }
      forall i | 0 <= i < stack.Length { stack[i] := 0; }
      positionInMemory := 0;
      stackPointer := 0;
      assert registers[..] == Default().regs && memory[..] == Default().mem && stack[..] == Default().stack;
    }

    method Call(addr: nat) returns (r: Outcome)
      requires Valid()
      modifies this, stack
      ensures Valid() && registers == old(registers) && memory == old(memory) && stack == old(stack)
      ensures var t := Chip8Common.Call(old(Abs()), addr);
        r == (if t.Ok? then Continue else Fault(t.fault)) && (t.Ok? ==> Abs() == t.value)
    {
      var sp := stackPointer;
      // The source's guard is `sp > stack.len()`, which never holds; the
      // overflow at sp == 16 surfaces at the store `stack[sp]`.
      if StackFull(sp) {
        return Fault(StackOverflow);
      }
      stack[sp] := ToU16(positionInMemory);
      stackPointer := stackPointer + 1;
      positionInMemory := addr;
      return Continue;
    }

    method Ret() returns (r: Outcome)
      requires Valid()
      modifies this
      ensures Valid() && registers == old(registers) && memory == old(memory) && stack == old(stack)
      ensures var t := Chip8Common.Ret(old(Abs()));
        r == (if t.Ok? then Continue else Fault(t.fault)) && (t.Ok? ==> Abs() == t.value)
    {
      if stackPointer == 0 {
        return Fault(StackUnderflow);
      }
      stackPointer := stackPointer - 1;
      positionInMemory := stack[stackPointer] as nat;
      return Continue;
    }

    method Assign(x: RegIndex, y: RegIndex)
      requires Valid()
      modifies registers
      ensures registers[..] == Chip8Common.Assign(old(registers[..]), x, y)
    {
      registers[x] := registers[y];
    }

    method OrXY(x: RegIndex, y: RegIndex)
      requires Valid()
      modifies registers
      ensures registers[..] == Chip8.OrXY(old(registers[..]), x, y)
    {
      registers[x] := Chip8.BitOr(registers[x], registers[y]);
    }

    method AndXY(x: RegIndex, y: RegIndex)
      requires Valid()
      modifies registers
      ensures registers[..] == Chip8.AndXY(old(registers[..]), x, y)
    {
      registers[x] := Chip8.BitAnd(registers[x], registers[y]);
    }

    method XorXY(x: RegIndex, y: RegIndex)
      requires Valid()
      modifies registers
      ensures registers[..] == Chip8.XorXY(old(registers[..]), x, y)
    {
      registers[x] := Chip8.BitXor(registers[x], registers[y]);
    }

    method AddXY(x: RegIndex, y: RegIndex)
      requires Valid()
      modifies registers
      ensures registers[..] == Chip8.AddXY(old(registers[..]), x, y)
    {
      if registers[x] > 0xFF - registers[y] {
        registers[Flag] := 1;
      } else {
        registers[Flag] := 0;
        registers[x] := registers[x] + registers[y];
      }
    }

    method SubXY(x: RegIndex, y: RegIndex) returns (r: Outcome)
      requires Valid()
      modifies registers
      ensures var t := Chip8.SubXY(old(registers[..]), x, y);
        r == (if t.Ok? then Continue else Fault(t.fault)) && (t.Ok? ==> registers[..] == t.value)
    {
      if registers[x] < registers[y] {
        registers[Flag] := 0;
        return Continue;
      }
      registers[Flag] := 1;
      if registers[x] < registers[y] {
        // `-=` panics in a debug build
        return Fault(ArithmeticOverflow);
      }
      registers[x] := registers[x] - registers[y];
      return Continue;
    }

    method ShiftRight1(x: RegIndex)
      requires Valid()
      modifies registers
      ensures registers[..] == Chip8.ShiftRight1(old(registers[..]), x)
    {
      registers[Flag] := registers[x] % 2;
      registers[x] := registers[x] / 2;
    }

    method SetSubXY(x: RegIndex, y: RegIndex) returns (r: Outcome)
      requires Valid()
      modifies registers
      ensures var t := Chip8.SetSubXY(old(registers[..]), x, y);
        r == (if t.Ok? then Continue else Fault(t.fault)) && (t.Ok? ==> registers[..] == t.value)
    {
      if registers[x] > registers[y] {
        registers[Flag] := 0;
        return Continue;
      }
      registers[Flag] := 1;
      if registers[y] < registers[x] {
        // `-` panics in a debug build
        return Fault(ArithmeticOverflow);
      }
      registers[x] := registers[y] - registers[x];
      return Continue;
    }

    method ShiftLeft1(x: RegIndex)
      requires Valid()
      modifies registers
      ensures registers[..] == Chip8.ShiftLeft1(old(registers[..]), x)
    {
      registers[Flag] := registers[x] % 2;
      registers[x] := (registers[x] as int * 2 % 0x100) as u8;
    }

    /** One iteration of the loop in `run`. */
    method Step() returns (r: Outcome)
      requires Valid()
      modifies this, registers, stack
      ensures Valid() && registers == old(registers) && memory == old(memory) && stack == old(stack)
      ensures var t := Chip8.Step(old(Abs())); r == t.Outcome() && (!t.Faulted? ==> Abs() == t.next)
    {
      if positionInMemory + 1 >= memory.Length {
        return Fault(OutOfBounds);
      }
      var opcode := Opcode(memory[positionInMemory], memory[positionInMemory + 1]);
      var f := Decode(opcode);
      positionInMemory := positionInMemory + 2;
      if opcode == 0x0000 {
        r := Halt;
      } else if opcode == 0x00EE {
        r := Ret();
      } else if 0x2000 <= opcode <= 0x2FFF {
        r := Call(f.addr);
      } else if 0x8000 <= opcode <= 0x8FFF {
        r := Continue;
        if f.minor == 0x0 {
          Assign(f.x, f.y);
        } else if f.minor == 0x1 {
          OrXY(f.x, f.y);
        } else if f.minor == 0x2 {
          AndXY(f.x, f.y);
        } else if f.minor == 0x3 {
          XorXY(f.x, f.y);
        } else if f.minor == 0x4 {
          AddXY(f.x, f.y);
        } else if f.minor == 0x5 {
          r := SubXY(f.x, f.y);
        } else if f.minor == 0x6 {
          ShiftRight1(f.x);
        } else if f.minor == 0x7 {
          r := SetSubXY(f.x, f.y);
        } else if f.minor == 0xE {
          ShiftLeft1(f.x);
        } else {
          r := Fault(Unimplemented);
        }
      } else {
        r := Fault(Unimplemented);
      }
    }

    /** `run`, bounded by `fuel` steps; Continue means the fuel ran out. */
    method Run(fuel: nat) returns (r: Outcome)
      requires Valid()
      modifies this, registers, stack
      ensures Valid() && registers == old(registers) && memory == old(memory) && stack == old(stack)
      ensures Chip8.RunReports(old(Abs()), fuel, r, Abs())
    {
      ghost var s0 := Abs();
      r := Continue;
      var rest := fuel;
      while rest > 0
        invariant Valid() && registers == old(registers) && memory == old(memory) && stack == old(stack)
        invariant r == Continue && Chip8.Reaches(s0, fuel, Abs(), rest)
      {
        ghost var before := Abs();
        r := Step();
        if r != Continue {
          Chip8.ReachesEnd(s0, fuel, before, rest);
          return;
        }
        Chip8.ReachesStep(s0, fuel, before, rest);
        rest := rest - 1;
      }
      Chip8.ReachesRun(s0, fuel, Abs(), 0);
    }
  }
}
