/** Clients of the engine object, as the unit tests of src/cpu.rs drive it:
    poke registers and memory, run, inspect, reset. */
module Chip8Client {
  import opened Chip8Common
  import Chip8
  import opened Chip8Machine
  import Chip8Scenarios

  /** `test_call_and_ret` on the object: V0 ends at 25. */
  method CallAndRetOnCpu() returns (v0: u8)
    ensures v0 == 25
  {
    var cpu := new Cpu();
    cpu.registers[0] := 5;
    cpu.registers[1] := 10;
    cpu.memory[0x000] := 0x21;
    cpu.memory[0x001] := 0x00;
    cpu.memory[0x002] := 0x21;
    cpu.memory[0x003] := 0x00;
    cpu.memory[0x100] := 0x80;
    cpu.memory[0x101] := 0x14;
    cpu.memory[0x102] := 0x00;
    cpu.memory[0x103] := 0xEE;
    assert cpu.Abs() == Chip8Scenarios.CallAndRetProgram();
    Chip8Scenarios.TestCallAndRet();
    var r := cpu.Run(7);
    v0 := cpu.registers[0];
  }

  /** `test_add_xy` on the object, including its `reset` between the two
      halves: the second run starts from the default state again. */
  method AddXYWithResetOnCpu() returns (v0: u8, vf1: u8, vf2: u8)
    ensures v0 == 15 && vf1 == 0 && vf2 == 1
  {
    var cpu := new Cpu();
    cpu.registers[0] := 5;
    cpu.registers[1] := 10;
    cpu.memory[0x000] := 0x80;
    cpu.memory[0x001] := 0x14;
    assert cpu.Abs() == Chip8Scenarios.OneInstruction(5, 10, 0x80, 0x14);
    Chip8Scenarios.TestAddXY(cpu.Abs());
    var r := cpu.Run(2);
    v0, vf1 := cpu.registers[0], cpu.registers[Flag];
    cpu.Reset();
    cpu.registers[0] := 255;
    cpu.registers[1] := 1;
    cpu.memory[0x000] := 0x80;
    cpu.memory[0x001] := 0x14;
    assert cpu.Abs() == Chip8Scenarios.OneInstruction(255, 1, 0x80, 0x14);
    Chip8Scenarios.TestAddXYCarry(cpu.Abs());
    r := cpu.Run(2);
    vf2 := cpu.registers[Flag];
  }

  /** Reset twice gives the same state as reset once: the default state. */
  method ResetTwice(cpu: Cpu)
    requires cpu.Valid()
    modifies cpu, cpu.registers, cpu.memory, cpu.stack
    ensures cpu.Valid() && cpu.Abs() == Default()
  {
    cpu.Reset();
    ghost var once := cpu.Abs();
    cpu.Reset();
    assert cpu.Abs() == once;
  }
}
