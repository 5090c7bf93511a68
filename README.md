# Chip-8 execution engine in Dafny

This project models the execution engine (`Cpu`) of a small Chip-8 interpreter written in Rust.
The engine has sixteen 8-bit registers V0..VF, 4096 bytes of memory, a program counter
(`position_in_memory`), a 16-slot call stack of `u16` return addresses and a stack pointer. `run`
fetches a big-endian two-byte opcode at the program counter, advances the counter by 2, and
dispatches. It stops at the opcode 0x0000. The repository holds two versions of the engine:

- `src/cpu.rs`, the current version. It dispatches `0x00EE` (return), `0x2NNN` (call) and the
  register family `0x8XYn` for n = 0 (assign), 1 (or), 2 (and), 3 (xor), 4 (add with carry),
  5 (subtract with borrow), 6 (shift right), 7 (reverse subtract) and E (shift left). It also has
  `reset`.
- `src/cpu/cpu.rs`, an earlier version. Its register family has only `0x8XY0` (assign),
  `0x8XY4` (add, no flag) and `0x8XY7` (reverse subtract, no flag).

Files and modules:

- `common.dfy`, module `Chip8Common`. It holds the state as a value (`State`) and the fault kinds.
  It also holds instruction fetch and field extraction, Rust's debug-build `u8` arithmetic
  (`CheckedAdd`, `CheckedSub`), and the three handlers whose code is identical in both versions:
  `Assign`, `Call` and `Ret`.
- `cpu.dfy`, module `Chip8`. The current version's handlers are functions of the register file.
  `Step` is one iteration of `run` and `Run` is `run` with a step bound.
- `cpu_machine.dfy`, module `Chip8Machine`. The class `Cpu` keeps `registers`, `memory` and `stack`
  as arrays that are updated in place, plus `positionInMemory` and `stackPointer`. Each method's
  contract ties the new state `Abs()` to the matching function of the old state.
- `cpu_early.dfy` and `cpu_early_machine.dfy`, modules `Chip8Early` and `Chip8EarlyMachine`. These
  are the same two layers for the earlier version.
- `cpu_lemmas.dfy` (`Chip8Properties`) and `cpu_early_lemmas.dfy` (`Chip8EarlyProperties`) hold
  properties of each version and the relation between the two versions.
- `cpu_tests.dfy` (`Chip8Scenarios`) has the unit tests of `src/cpu.rs` as lemmas about `Run`. Each
  register test holds for every state with the test's V0, V1 and program, and `OneInstruction` shows
  that the default state loaded as in the test is one of them.
  `cpu_client.dfy` (`Chip8Client`) drives the `Cpu` object the way those tests do.

The two source files repeat each other: the earlier file has the same `run` loop, `call`, `ret`
and tests as the current one. The model follows that layout, so `Chip8Early` repeats the `Run`
lemmas of `Chip8`, and `Chip8EarlyProperties` repeats the call/return test lemmas of
`Chip8Scenarios`, each stated about its own version's `Step`.

Modelling choices:

- Registers and memory hold `u8` and the stack holds `u16`. Both are integer newtypes, so an
  addition or subtraction that leaves the range is a proof obligation, as it is a panic in a debug
  build. Where the source can reach such a panic, the model reports the fault `ArithmeticOverflow`.
- Every Rust panic becomes a fault kind: `StackOverflow`, `StackUnderflow`, `OutOfBounds`
  (instruction fetch past the end of memory), `Unimplemented` (an `unimplemented!` arm) and
  `ArithmeticOverflow`.
- Writes happen in source order. VF is written before VX, and the handler then reads VX and VY
  again. So when X or Y is 0xF the operand is the VF just written. This is how `sub_xy` with
  X = 0xF underflows (`1 - VY` for VY > 1), and how `set_sub_xy` with X = 0xF and VY = 0
  underflows.
- The masks and shifts of field extraction, `>> 1`, `<< 1` and `& 0x1` are written as the
  divisions and remainders they equal on these small unsigned values. `|`, `&` and `^` go through
  `bv8`.
- `position_in_memory as u16` is written out as a truncation (`ToU16`).

The model follows the code where it differs from the usual description of Chip-8:

- A halt leaves the program counter 2 past the halt word, because the counter advances before
  dispatch.
- On a carry, `add_xy` does not store the sum.
- Both shifts put the least significant bit in VF. In `shift_left_1` the doc comment says the most
  significant bit.
- Call targets are not checked against the memory size. A return address is any `u16`, and a
  fetch past the end of memory faults on the next step.

## Model

| member | source | states |
|---|---|---|
| `Chip8Common.Default` | src/cpu.rs:18-28 | the default engine has 16 registers, 4096 bytes of memory and 16 stack slots, all zero, with pc and sp at 0 |
| `Chip8Common.Opcode` | src/cpu.rs:34-36 | the opcode's high byte is the byte at pc and its low byte is the byte at pc+1 |
| `Chip8Common.Fetch` | src/cpu.rs:34-36 | fetch succeeds exactly when pc+1 < 4096 and gives mem[pc]*256 + mem[pc+1]; otherwise it is an OutOfBounds fault |
| `Chip8Common.Decode` | src/cpu.rs:38-41 | minor < 16 and addr < 4096; addr = x*0x100 + y*0x10 + minor, so x, y and minor are bits 8-11, 4-7 and 0-3; the top nibble and addr make up the opcode |
| `Chip8Common.DecodeEncode` | src/cpu.rs:38-41 | reassembling an opcode from its top nibble and x, y, minor, then decoding, gives back the same x, y, minor and the address x*0x100+y*0x10+minor |
| `Chip8Common.EncodeDecode` | src/cpu.rs:38-41 | decoding an opcode and reassembling it from its fields gives back the opcode |
| `Chip8Common.CheckedAdd` | src/cpu/cpu.rs:91 | a `u8` addition succeeds exactly when the integer sum is at most 255 and then equals it; otherwise it is an arithmetic-overflow fault |
| `Chip8Common.CheckedSub` | src/cpu/cpu.rs:96 | a `u8` subtraction succeeds exactly when a >= b and then equals a - b; otherwise it is an arithmetic-overflow fault |
| `Chip8Common.Assign` | src/cpu.rs:101-103 | VX receives VY and no other register changes |
| `Chip8Common.GuardAdmitsFullStack` | src/cpu.rs:80-84 | the guard as written (`sp > 16`) does not fire for sp = 16, where the store `stack[sp]` is out of range |
| `Chip8Common.ToU16` | src/cpu.rs:84 | the saved return address equals pc whenever pc fits in 16 bits |
| `Chip8Common.Call` | src/cpu.rs:76-87 | a call faults with StackOverflow exactly when sp >= 16; otherwise it stores the advanced pc at stack[sp], increments sp, jumps to addr, keeps every other slot, the registers and memory, and keeps sp <= 16 |
| `Chip8Common.Ret` | src/cpu.rs:90-97 | a return faults with StackUnderflow exactly when sp = 0; otherwise it decrements sp and sets pc to stack[sp-1], leaving registers, memory and stack unchanged |
| `Chip8.OrXY` | src/cpu.rs:107-109 | VX becomes VX \| VY and no other register changes |
| `Chip8.AndXY` | src/cpu.rs:113-115 | VX becomes VX & VY and no other register changes |
| `Chip8.XorXY` | src/cpu.rs:119-121 | VX becomes VX ^ VY and no other register changes |
| `Chip8.AddXY` | src/cpu.rs:125-132 | if VX+VY > 255 then VF = 1 and VX is unchanged unless X = F, where VX = VF = 1; otherwise VF = 0 and VX = VX+VY (for Y = F the cleared VF is added); for X = F, VF ends as that sum; only VX and VF change; the addition never overflows |
| `Chip8.SubXY` | src/cpu.rs:136-143 | if VX < VY then VF = 0 and VX is unchanged unless X = F, where VX = VF = 0; otherwise VF = 1 and VX = VX-VY; for X or Y = F the VF just set to 1 is the operand, and the fault happens exactly when that subtraction leaves the byte range; only VX and VF change |
| `Chip8.ShiftRight1` | src/cpu.rs:147-150 | for X != F, VF is a bit and old VX = 2*new VX + VF; for X = F, VF ends 0; only VX and VF change |
| `Chip8.ShiftLeft1` | src/cpu.rs:163-168 | for X != F, VF is the low bit of old VX and VX = 2*VX mod 256; for X = F, VF = 2*(its low bit); only VX and VF change |
| `Chip8.SetSubXY` | src/cpu.rs:152-161 | if VX > VY then VF = 0 and VX is unchanged unless X = F, where VX = VF = 0; otherwise VF = 1 and VX = VY-VX; the fault conditions for X or Y = F are stated exactly; only VX and VF change |
| `Chip8.Step` | src/cpu.rs:33-62 | a step that does not fault keeps the state well formed and leaves memory unchanged; a halt leaves everything but pc (advanced by 2) unchanged |
| `Chip8.Run` | src/cpu.rs:32-64 | the bounded run ends in a well-formed state with memory unchanged |
| `Chip8.ReachesStep` | src/cpu.rs:32-64 | a state reached from s0 with `rest` steps of the bound left, whose step continues, reaches its successor with one step less |
| `Chip8.ReachesRun` | src/cpu.rs:32-64 | once a state is reached from s0 with `rest` steps left, running s0 for the whole bound gives the same result as running that state for `rest` steps |
| `Chip8.ReachesEnd` | src/cpu.rs:32-64 | if a reached state halts or faults, the run from s0 halts in the same state or faults with the same kind |
| `Chip8Machine.Cpu.constructor` | src/cpu.rs:18-28 | a new engine is in the default state, with fresh arrays |
| `Chip8Machine.Cpu.Reset` | src/cpu.rs:66-73 | after reset the state is the default state, in the same arrays |
| `Chip8Machine.Cpu.Call` | src/cpu.rs:75-87 | implements `Chip8Common.Call` on the object: same fault, same new state |
| `Chip8Machine.Cpu.Ret` | src/cpu.rs:89-97 | implements `Chip8Common.Ret` on the object |
| `Chip8Machine.Cpu.Assign` | src/cpu.rs:99-103 | the register array afterwards is `Chip8Common.Assign` of the old one |
| `Chip8Machine.Cpu.OrXY` | src/cpu.rs:105-109 | the register array afterwards is `Chip8.OrXY` of the old one |
| `Chip8Machine.Cpu.AndXY` | src/cpu.rs:111-115 | the register array afterwards is `Chip8.AndXY` of the old one |
| `Chip8Machine.Cpu.XorXY` | src/cpu.rs:117-121 | the register array afterwards is `Chip8.XorXY` of the old one |
| `Chip8Machine.Cpu.AddXY` | src/cpu.rs:123-132 | the register array afterwards is `Chip8.AddXY` of the old one; the `+=` is proved not to overflow |
| `Chip8Machine.Cpu.SubXY` | src/cpu.rs:134-143 | faults exactly when `Chip8.SubXY` does; otherwise the registers are its result |
| `Chip8Machine.Cpu.ShiftRight1` | src/cpu.rs:145-150 | the register array afterwards is `Chip8.ShiftRight1` of the old one |
| `Chip8Machine.Cpu.SetSubXY` | src/cpu.rs:152-161 | faults exactly when `Chip8.SetSubXY` does; otherwise the registers are its result |
| `Chip8Machine.Cpu.ShiftLeft1` | src/cpu.rs:163-168 | the register array afterwards is `Chip8.ShiftLeft1` of the old one |
| `Chip8Machine.Cpu.Step` | src/cpu.rs:33-62 | one loop iteration on the object reports the outcome of `Chip8.Step` and, unless it faults, reaches its state; memory and array identities are unchanged |
| `Chip8Machine.Cpu.Run` | src/cpu.rs:32-64 | the loop reports the outcome of `Chip8.Run` and, on halt or when the bound is reached, reaches its final state |
| `Chip8Early.AddXY` | src/cpu/cpu.rs:89-92 | succeeds exactly when VX+VY <= 255, then VX = VX+VY and no other register (VF included) changes; otherwise an overflow fault |
| `Chip8Early.SubXY` | src/cpu/cpu.rs:94-97 | succeeds exactly when VX <= VY, then VX = VY-VX and no other register changes; otherwise an overflow fault |
| `Chip8Early.Step` | src/cpu/cpu.rs:33-56 | a step that does not fault keeps the state well formed and memory unchanged; a halt only advances pc by 2 |
| `Chip8Early.Run` | src/cpu/cpu.rs:32-58 | the bounded run ends in a well-formed state with memory unchanged |
| `Chip8Early.ReachesStep` | src/cpu/cpu.rs:32-58 | as `Chip8.ReachesStep`, for the earlier step |
| `Chip8Early.ReachesRun` | src/cpu/cpu.rs:32-58 | as `Chip8.ReachesRun`, for the earlier run |
| `Chip8Early.ReachesEnd` | src/cpu/cpu.rs:32-58 | as `Chip8.ReachesEnd`, for the earlier run |
| `Chip8EarlyMachine.Cpu.constructor` | src/cpu/cpu.rs:18-28 | a new engine is in the default state, with fresh arrays |
| `Chip8EarlyMachine.Cpu.Call` | src/cpu/cpu.rs:60-72 | implements `Chip8Common.Call` on the object |
| `Chip8EarlyMachine.Cpu.Ret` | src/cpu/cpu.rs:74-82 | implements `Chip8Common.Ret` on the object |
| `Chip8EarlyMachine.Cpu.Assign` | src/cpu/cpu.rs:84-87 | the register array afterwards is `Chip8Common.Assign` of the old one |
| `Chip8EarlyMachine.Cpu.AddXY` | src/cpu/cpu.rs:89-92 | faults exactly when `Chip8Early.AddXY` does; otherwise the registers are its result |
| `Chip8EarlyMachine.Cpu.SubXY` | src/cpu/cpu.rs:94-97 | faults exactly when `Chip8Early.SubXY` does; otherwise the registers are its result |
| `Chip8EarlyMachine.Cpu.Step` | src/cpu/cpu.rs:33-56 | one loop iteration on the object reports the outcome of `Chip8Early.Step` and, unless it faults, reaches its state |
| `Chip8EarlyMachine.Cpu.Run` | src/cpu/cpu.rs:32-58 | the loop reports the outcome of `Chip8Early.Run` and reaches its final state |
| `Chip8Properties.RunHaltsOnZeroWord` | src/cpu.rs:31-64 | a run that halts ends with pc just past a zero word of the program, so `run` stops only at 0x0000 |
| `Chip8Properties.HaltedOnZeroWord` | src/cpu.rs:43-46 | a halting step was fetched from two zero bytes and moved pc by 2 |
| `Chip8Properties.HaltExactly` | src/cpu.rs:43-46 | a step halts exactly when both bytes at pc are zero, and then only pc has moved, by 2 |
| `Chip8Properties.UnimplementedExactly` | src/cpu.rs:45-62 | a step is an Unimplemented fault exactly when the fetched opcode is none of 0x0000, 0x00EE, 0x2NNN, 0x8XYn with n in 0-7 or E |
| `Chip8Properties.OutOfBoundsExactly` | src/cpu.rs:34-35 | a step is an OutOfBounds fault exactly when pc+1 >= 4096 |
| `Chip8Properties.RegisterOpsAdvancePc` | src/cpu.rs:43-60 | a 0x8XYn step that does not fault changes only the registers and pc, and pc by exactly 2 |
| `Chip8Properties.CallRetRoundTrip` | src/cpu.rs:76-97 | after a call and any body that leaves stack and sp alone, ret succeeds and resumes at the saved pc with sp restored |
| `Chip8Properties.NestedCallsReturn` | src/cpu.rs:76-97 | two nested calls and two returns resume first after the inner call, then after the outer one, with sp back at its start |
| `Chip8Properties.CallThenRetInstruction` | src/cpu.rs:43-48 | executing 0x2NNN and then 0x00EE at NNN leaves pc 2 past the call, and sp, registers and memory as they were |
| `Chip8Properties.AddThenSubRestores` | src/cpu.rs:125-143 | for distinct X, Y other than F, a non-carrying add followed by a subtract gives back the registers with VF = 1 |
| `Chip8Properties.SubtractionsBorrowOppositely` | src/cpu.rs:136-161 | for X, Y other than F neither subtraction faults; VF = 1 exactly when no borrow occurs, and when VX != VY exactly one of the two borrows |
| `Chip8Properties.ShiftLeftThenRight` | src/cpu.rs:147-168 | for X != F, shifting left then right keeps the low 7 bits of VX and leaves VF = 0 |
| `Chip8Properties.ShiftRightThenLeft` | src/cpu.rs:147-168 | for X != F, shifting right then left clears the low bit of VX and leaves bit 1 of the old VX in VF |
| `Chip8Scenarios.OneInstruction` | src/cpu.rs:178-183 | the default state with V0, V1 and one instruction word stored at address 0 is such a loaded state, with sp = 0 |
| `Chip8Scenarios.RunLoaded` | src/cpu.rs:32-64 | from a loaded state whose first step continues to address 2, a two-step run halts right after it, on the zero word |
| `Chip8Scenarios.TestAddXY` | src/cpu.rs:176-187 | from every state that holds the test's V0, V1 and instruction at address 0, followed by the zero word: 5 + 10 halts with V0 = 15 and VF = 0 |
| `Chip8Scenarios.TestAddXYCarry` | src/cpu.rs:188-197 | from every state that holds the test's V0, V1 and instruction at address 0, followed by the zero word: after reset, 255 + 1 halts with VF = 1 and V0 still 255 |
| `Chip8Scenarios.TestSubXY` | src/cpu.rs:201-211 | from every state that holds the test's V0, V1 and instruction at address 0, followed by the zero word: 10 - 6 halts with V0 = 4 and VF = 1 |
| `Chip8Scenarios.TestSubXYBorrow` | src/cpu.rs:212-221 | from every state that holds the test's V0, V1 and instruction at address 0, followed by the zero word: 0 - 1 halts with VF = 0 and V0 unchanged |
| `Chip8Scenarios.TestAssign` | src/cpu.rs:225-236 | from every state that holds the test's V0, V1 and instruction at address 0, followed by the zero word: 0x8010 halts with V0 = 10 |
| `Chip8Scenarios.TestOrXY` | src/cpu.rs:239-249 | from every state that holds the test's V0, V1 and instruction at address 0, followed by the zero word: 0b1100 \| 0b0011 halts with V0 = 0b1111 |
| `Chip8Scenarios.TestAndXY` | src/cpu.rs:252-262 | from every state that holds the test's V0, V1 and instruction at address 0, followed by the zero word: 0xFF & 0x0F halts with V0 = 0x0F |
| `Chip8Scenarios.TestXorXY` | src/cpu.rs:265-275 | from every state that holds the test's V0, V1 and instruction at address 0, followed by the zero word: 0x11 ^ 0xFF halts with V0 = 0xEE |
| `Chip8Scenarios.TestShiftRight1` | src/cpu.rs:278-288 | from every state that holds the test's V0, V1 and instruction at address 0, followed by the zero word: 3 shifted right halts with V0 = 1 and VF = 1 |
| `Chip8Scenarios.TestSetSubXY` | src/cpu.rs:291-301 | from every state that holds the test's V0, V1 and instruction at address 0, followed by the zero word: 10 - 6 by 0x8017 halts with V0 = 4 |
| `Chip8Scenarios.TestShiftLeft1` | src/cpu.rs:304-314 | from every state that holds the test's V0, V1 and instruction at address 0, followed by the zero word: 3 shifted left halts with V0 = 6 and VF = 1 |
| `Chip8Scenarios.CallStep` | src/cpu.rs:322-325 | in the call test program, the word 0x2100 at 0 or 2 pushes pc+2 and jumps to 0x100 |
| `Chip8Scenarios.AddStep` | src/cpu.rs:327-328 | in the call test program, the word at 0x100 is the add-with-carry of V1 into V0 |
| `Chip8Scenarios.RetStep` | src/cpu.rs:329-330 | in the call test program, the word at 0x102 pops the saved pc |
| `Chip8Scenarios.TestCallAndRet` | src/cpu.rs:317-335 | the two-call program halts within 7 steps with V0 = 25 and sp = 0 |
| `Chip8EarlyProperties.HaltExactly` | src/cpu/cpu.rs:43-46 | a step halts exactly when both bytes at pc are zero, and then only pc has moved, by 2 |
| `Chip8EarlyProperties.RunHaltsOnZeroWord` | src/cpu/cpu.rs:31-58 | a run that halts ends with pc just past a zero word of the program |
| `Chip8EarlyProperties.HaltedOnZeroWord` | src/cpu/cpu.rs:43-46 | a halting step was fetched from two zero bytes and moved pc by 2 |
| `Chip8EarlyProperties.UnimplementedExactly` | src/cpu/cpu.rs:45-56 | a step is an Unimplemented fault exactly when the fetched opcode is none of 0x0000, 0x00EE, 0x2NNN, 0x8XY0, 0x8XY4, 0x8XY7 |
| `Chip8EarlyProperties.FlagWrittenOnlyAsTarget` | src/cpu/cpu.rs:85-97 | a step changes VF only when it is a 0x8FYn instruction; every 0x8XYn step changes only the registers and pc, and pc by exactly 2 |
| `Chip8EarlyProperties.VersionsAgreeOnShared` | src/cpu/cpu.rs:45-52 | on 0x0000, 0x00EE, 0x2NNN and 0x8XY0 the two versions take the same step |
| `Chip8EarlyProperties.AddIsCurrentAddWithoutFlag` | src/cpu/cpu.rs:90-92 | for X, Y other than F, where it does not overflow, the earlier add equals the current add with VF restored |
| `Chip8EarlyProperties.SubIsCurrentSetSubWithoutFlag` | src/cpu/cpu.rs:95-97 | for X, Y other than F, where it does not underflow, the earlier 0x8XY7 equals the current reverse subtract with VF restored |
| `Chip8EarlyProperties.RunLoaded` | src/cpu/cpu.rs:32-58 | the same two-step halt for the earlier version |
| `Chip8EarlyProperties.TestAddXY` | src/cpu/cpu.rs:105-116 | from every state that holds the test's V0, V1 and instruction at address 0, followed by the zero word: 5 + 10 halts with V0 = 15 |
| `Chip8EarlyProperties.TestSubXY` | src/cpu/cpu.rs:118-130 | from every state that holds the test's V0, V1 and instruction at address 0, followed by the zero word: 10 - 6 by 0x8017 halts with V0 = 4 |
| `Chip8EarlyProperties.TestAssign` | src/cpu/cpu.rs:132-144 | from every state that holds the test's V0, V1 and instruction at address 0, followed by the zero word: 0x8010 halts with V0 = 10 |
| `Chip8EarlyProperties.AddOverflowFaults` | src/cpu/cpu.rs:90-92 | from every state that holds the test's V0, V1 and instruction at address 0, followed by the zero word: 255 + 1 is an arithmetic-overflow fault in this version |
| `Chip8EarlyProperties.OrIsUnimplemented` | src/cpu/cpu.rs:49-54 | from every state that holds the test's V0, V1 and instruction at address 0, followed by the zero word: 0x8011 is an Unimplemented fault in this version |
| `Chip8EarlyProperties.CallStep` | src/cpu/cpu.rs:152-155 | in the call test program, the word 0x2100 pushes pc+2 and jumps to 0x100 |
| `Chip8EarlyProperties.AddStep` | src/cpu/cpu.rs:157-158 | in the call test program, the word at 0x100 adds V1 to V0 |
| `Chip8EarlyProperties.RetStep` | src/cpu/cpu.rs:159-160 | in the call test program, the word at 0x102 pops the saved pc |
| `Chip8EarlyProperties.TestCallAndRet` | src/cpu/cpu.rs:147-165 | the two-call program halts within 7 steps with V0 = 25 and sp = 0 |
| `Chip8Client.CallAndRetOnCpu` | src/cpu.rs:317-335 | the object, loaded as in the test and run, ends with V0 = 25 |
| `Chip8Client.AddXYWithResetOnCpu` | src/cpu.rs:176-198 | the object gives V0 = 15, VF = 0, and after reset and 255 + 1, VF = 1 |
| `Chip8Client.ResetTwice` | src/cpu.rs:67-73 | reset twice leaves the same state as reset once: the default state |

## Left out

- src/main.rs is not part of this model. It is a demo driver that loads one program and prints VF, and it has no logic of its own. Its program is `Chip8Scenarios.TestAddXYCarry`.
- Panic message texts are left out. Only the fault kind is modelled.
- Release-build wrapping arithmetic is left out. The unit tests run in debug builds, where `u8` overflow panics, so overflow is the `ArithmeticOverflow` fault.
- `run` has no step limit in the source: it loops until it halts or panics. `Run` takes an explicit `fuel` bound. When the bound runs out it reports `OutOfFuel` (the method reports `Continue`), a result the source never produces. A program that never halts is covered only up to the bound.
- The state after a fault is not modelled. The source panics there and leaves the state unspecified. This covers the pc already advanced by 2 and the VF written before an overflowing subtraction.
- Chip8Machine.Cpu.Step: on a fault the contract gives only the fault kind and the array identities, not the partly updated registers and pc, because the source panics there.
- Chip8EarlyMachine.Cpu.Step: on a fault the contract gives only the fault kind, for the same reason.
- Chip8Machine.Cpu.Run: on a fault the contract gives only the fault kind, for the same reason.
- Chip8EarlyMachine.Cpu.Run: on a fault the contract gives only the fault kind, for the same reason.
- The I register, the NN/N constants, display, keypad and timers are named in the doc comments only. Neither version implements them, so they are not modelled.

## Findings

| source | as written | input that shows it | evidently intended | confidence | as-written member | corrected member |
|---|---|---|---|---|---|---|
| src/cpu.rs:80 (and src/cpu/cpu.rs:65) | the overflow guard is `sp > stack.len()`, which never holds because sp <= 16; a call at sp = 16 passes the guard and panics on the out-of-range store `stack[sp]` at line 84, not with "Stack overflow" | 17 nested calls with no return (sp = 16 at the 17th) | guard `sp >= stack.len()`, so that a full stack is reported as a stack overflow | high; not executed | `Chip8Common.GuardAdmitsFullStack` | `Chip8Common.Call` |
