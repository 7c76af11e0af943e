# Intel 8080 interpreter core, modelled in Dafny

This project models the core of `invaders8080`, an Intel 8080 interpreter written in Rust. The core has three parts:

- the memory bus `Machine`: 0x4000 bytes, with every 16-bit address reduced modulo 0x4000;
- the `CPU` struct with its register pairs, flag updaters, memory and stack helpers and the Program Status Word (PSW) flag byte;
- the instruction handlers: the `do_instruction` dispatcher over the opcodes it implements (0x00-0x17 and the NOP-class opcodes up to 0x38), the `inr`/`dcr` helpers, the bit-field `decode` and the `mov` family.

The model has two layers.

- **Values.** The modules `Word`, `Memory`, `Cpu` and `Instructions` describe the machine as a value `Cpu.State`. Each operation is a function on that value, and lemmas state what the operations promise and how they relate: round trips, inverses and frame conditions.
- **Objects.** `Memory.Machine` keeps the bus as an `array` and updates it in place. `Processor.CPU` keeps the registers and flags as fields and holds a `Machine`. Every method of these classes is proved against a value-level function: `Snapshot()` after the call (and the result) equals that function applied to `Snapshot()` before it. So every lemma about the functions also holds for the objects. Most methods share the name of their function; the others are:
  - `Memory.Machine.ReadByte` and `WriteByte`, proved against `Memory.Read` and `Memory.Write`;
  - `Processor.CPU.Register`, proved against `Instructions.Source`;
  - `Processor.CPU.DoInstruction`, proved against `Instructions.Step`;
  - the per-arm methods (`LxiB`, `DadB`, ...), each proved against `Instructions.Execute` at its opcode.

`u8`, `u16` and `u32` are the integer subset types `byte`, `word` and `dword`.

- Every `wrapping_add` and `wrapping_sub` is written out as `Wrap8` or `Wrap16`.
- Bitwise `&` and `^` are the recursive functions `Word.And` and `Word.Xor`. Lemmas reduce each mask the source uses to quotients and remainders.
- `<<` and `>>` by a constant are multiplication and division.
- Plain `+` and `-`, which panic on overflow in the original, become requires clauses. These are the operations on `sp` in `push`/`pop` and on `address` in `read_16`/`write_16`.

The panicking arm of `do_instruction` becomes the outcome `Unimplemented(pc, opcode)`. It leaves the state as it was after the fetch. The local `cycles` counter is returned as `Executed(cycles)`, its final value.

The model follows the code as written, including these behaviours, each proved:

- **Parity.** `update_parity_flag` tests `((result as u8) & 2) ^ i`, because `^` binds more loosely than `&`. That test fails for exactly one index, so the counter always ends at 7 and the parity flag is always cleared. A design that counts the set bits would say otherwise. See `Cpu.ParityCountIsSeven` and `Cpu.UpdateParityFlag`.
- **Pop after push.** `push((high, low))` writes `low` at `sp - 1` and `high` at `sp - 2`. `pop` returns `(byte at sp + 1, byte at sp)`. So a pop straight after a push gives back `(low, high)`, the pair swapped, not the pair pushed. See `Cpu.PopAfterPush`.
- **Sign.** The sign flag is bit 31 of the `u32` result. `inr` and `dcr` pass 8-bit results, so for them the sign flag always ends clear.
- **Half carry.** The half-carry helpers mask with 7 and 8. Half carry is therefore the carry out of bit 2 of the low three bits, and half borrow compares bit 3 only.
- **Decode.** `decode` shifts `x` by 5, so `x` is twice the two-bit group number.
- **`mov`.** Both the source and the destination register are selected by `z`. A `mov` that is not a load, a store or HLT therefore gives a register its own value, which changes nothing (`Instructions.MovSelf`). A store writes 0, the source value of register number 6.
- **HLT.** HLT is `pc -= 2`, wrapping; there is no halted state.
- **RAL** (0x17) has the same code as RLC (0x07).
- **MVI cycles.** MVI B counts 5 cycles; MVI C and MVI D count 7.
- **`mov` is unreachable.** `do_instruction` has no arm that calls `mov`, so in the model `mov` is likewise not reachable from the dispatcher.

## Model

| member | source | states |
|---|---|---|
| Word.WrapIsModulo | src/instructions.rs:25 | the explicit wrap-around of a byte or word sum or difference is reduction modulo 2^8 or 2^16 |
| Word.Wrap8 | src/instructions.rs:147 | no contract beyond its `byte` result type: `wrapping_add`/`wrapping_sub` on `u8` (also at src/instructions.rs:156); `Word.WrapIsModulo` states that it is reduction modulo 2^8 |
| Word.Wrap16 | src/cpu.rs:139 | no contract beyond its `word` result type: `wrapping_add`/`wrapping_sub` on `u16` (also at src/cpu.rs:165, 170 and src/instructions.rs:25, 59, 70, 115, 188); `Word.WrapIsModulo` states that it is reduction modulo 2^16 |
| Word.High | src/cpu.rs:54 | no contract of its own: `(value >> 8) as u8`, the quotient by 256; `Word.Pack` and `Word.PackSplit` state that it recovers the upper byte of a packed word |
| Word.Low | src/cpu.rs:55 | no contract of its own: `(value & 255) as u8` as a remainder; `Word.LowIsMask` states that it equals the mask, and `Word.Pack` and `Word.PackSplit` that it recovers the lower byte |
| Word.Pack | src/cpu.rs:48-50 | packing `(high << 8) + low` is undone by the upper-byte and lower-byte views |
| Word.LowIsMask | src/cpu.rs:55 | the lower byte of a word, as a remainder, is `value & 255` |
| Word.PackSplit | src/cpu.rs:53-56 | splitting a word into `value >> 8` and `value & 255` and packing again gives the word back |
| Word.And | src/cpu.rs:110 | bitwise `&` of the original (used at src/cpu.rs:55, 94, 110, 124, 200-204 and src/instructions.rs:45, 91, 165-169): the result is at most each operand; the `AndBit`/`AndLow` lemmas reduce every mask used to quotients and remainders |
| Word.Xor | src/cpu.rs:94 | bitwise `^` of the parity test: the result is zero exactly when the operands are equal, so the test fails only at index `v & 2` |
| Memory.Blank | src/machine.rs:6-10 | the power-on image is 0x4000 zero bytes |
| Memory.Loc | src/machine.rs:12 | every address maps to a cell inside the 0x4000-byte array |
| Memory.Read | src/machine.rs:11-14 | no contract of its own: the byte of the cell the address mirrors onto; `Memory.Write` states that it reads back what was written and `Memory.Mirror` that addresses 0x4000 apart read alike |
| Memory.Write | src/machine.rs:15-18 | after a write the address reads back the value and every other cell is unchanged |
| Memory.NeighboursDistinct | src/machine.rs:12 | two neighbouring addresses, even across the 16-bit wrap, never map to the same cell |
| Memory.Mirror | src/machine.rs:11-14 | addresses 0x4000 apart name the same cell and read the same byte |
| Memory.WriteMirrorReadsBack | src/machine.rs:11-18 | a byte written at 0x4000 is read back at address 0 |
| Memory.Machine.constructor | src/machine.rs:6-10 | a fresh bus array holding the blank image |
| Memory.Machine.ReadByte | src/machine.rs:11-14 | returns the byte of the mirrored cell and changes nothing |
| Memory.Machine.WriteByte | src/machine.rs:15-18 | the array afterwards is the old contents with only the mirrored cell replaced |
| Processor.CPU.Snapshot | src/cpu.rs:4-21 | the fields of the `CPU` struct, the bus contents included, gathered into one `Cpu.State` value: seven registers, `pc`, `sp`, five flags, the interrupt latch and the 0x4000-byte image |
| Cpu.Build | src/cpu.rs:24-43 | power-on values: registers 0xFF, `pc` 0, `sp` 0xFFFF, every flag and the interrupt latch set, the bus taken over unchanged |
| Cpu.GetBC | src/cpu.rs:48-50 | BC reads `b * 256 + c`, whose upper and lower bytes are `b` and `c` |
| Cpu.SetBC | src/cpu.rs:53-56 | BC then reads the value written; only `b` and `c` change |
| Cpu.GetDE | src/cpu.rs:59-61 | DE reads `d * 256 + e`, whose upper and lower bytes are `d` and `e` |
| Cpu.SetDE | src/cpu.rs:64-67 | DE then reads the value written; only `d` and `e` change |
| Cpu.SetHL | src/cpu.rs:70-73 | HL then reads the value written; only `h` and `l` change |
| Cpu.GetHL | src/cpu.rs:76-78 | HL reads `h * 256 + l`, whose upper and lower bytes are `h` and `l` |
| Cpu.SetOwnPair | src/cpu.rs:48-78 | writing any pair with the value it reads leaves the state unchanged |
| Cpu.AsI32 | src/cpu.rs:83 | `x as i32` is the two's-complement value congruent to `x` modulo 2^32, in the `i32` range |
| Cpu.UpdateSignFlag | src/cpu.rs:82-84 | sign is set iff bit 31 of the result is set, so never for a result below 0x100; nothing else changes |
| Cpu.UpdateZeroFlag | src/cpu.rs:86-88 | zero is set iff the result is 0; nothing else changes |
| Cpu.LowByte | src/instructions.rs:152 | `result as u8` keeps a result that already fits in a byte |
| Cpu.ParityTest | src/cpu.rs:94 | no contract of its own: the per-index test `((result as u8) & 2) ^ i > 0` as the precedence of `&` over `^` parses it; `Cpu.ParityCountValue` states that it fails at the single index `v & 2` |
| Cpu.ParityCount | src/cpu.rs:92-97 | no contract of its own: the counter after the loop has run for the first n indices; `Cpu.ParityCountValue` gives its value for every n and `Cpu.ParityCountIsSeven` the final 7, and `Processor.CPU.UpdateParityFlag` keeps it as the loop invariant |
| Cpu.ParityCountValue | src/cpu.rs:92-97 | after n iterations the loop counter is n, less one once the index `v & 2` has been passed |
| Cpu.ParityCountIsSeven | src/cpu.rs:92-98 | the counter ends at 7 for every byte |
| Cpu.UpdateParityFlag | src/cpu.rs:90-99 | the parity flag ends clear for every result; nothing else changes |
| Cpu.UpdateCarryFlag16 | src/cpu.rs:101-103 | carry iff the wrapped 16-bit sum is smaller than the first operand, i.e. the sum overflowed; nothing else changes |
| Cpu.UpdateCarryFlag8 | src/cpu.rs:105-107 | carry iff the wrapped 8-bit sum is smaller than the first operand; nothing else changes |
| Cpu.UpdateHalfCarry | src/cpu.rs:109-111 | half carry iff the low three bits of the wrapped sum are smaller than those of the first operand (a carry out of bit 2); nothing else changes |
| Cpu.LowBitsOfSum | src/cpu.rs:110 | the low three bits of a wrapped byte sum are the wrapped sum of the operands' low three bits |
| Cpu.UpdateBorrow16 | src/cpu.rs:115-117 | carry iff the wrapped 16-bit difference exceeds the minuend, i.e. the subtraction borrowed; nothing else changes |
| Cpu.UpdateBorrow8 | src/cpu.rs:119-121 | carry iff the wrapped 8-bit difference exceeds the minuend; nothing else changes |
| Cpu.UpdateHalfBorrow | src/cpu.rs:123-125 | half carry iff bit 3 of the minuend is clear and bit 3 of the subtrahend set; nothing else changes |
| Cpu.Read8 | src/cpu.rs:129-131 | no contract of its own: the bus byte at the address; `Cpu.Write8` states the read-back and `Instructions.StoreThenLoad` the store-then-load round trip |
| Cpu.Write8 | src/cpu.rs:133-135 | the address then reads the value; every other cell keeps its value and nothing but memory changes |
| Cpu.Fetch | src/cpu.rs:137-141 | no contract of its own: the byte under `pc`, with `pc` advanced by one, wrapping, and nothing else changed; `Cpu.Fetch16`, `Instructions.StepIsFetchThenExecute` and `Instructions.LoadImmediateByte` state this through their contracts |
| Cpu.Fetch16 | src/cpu.rs:143-147 | the little-endian word at `pc`, `pc + 1` (wrapping); `pc` advances by 2, wrapping, and nothing else changes |
| Cpu.Write16 | src/cpu.rs:155-158 | `value.1` lands at `address`, `value.0` at `address + 1`, no other cell and no register changes |
| Cpu.Read16 | src/cpu.rs:149-153 | the pair (byte at `address + 1`, byte at `address`); `Cpu.Read16AfterWrite16` states that it returns what `Cpu.Write16` stored |
| Cpu.Read16AfterWrite16 | src/cpu.rs:149-158 | reading 16 bits back where they were written gives the written pair |
| Cpu.Push | src/cpu.rs:162-166 | `value.1` lands at `sp - 1`, `value.0` at `sp - 2`, no other cell changes, `sp` drops by 2 and only memory and `sp` change |
| Cpu.Pop | src/cpu.rs:168-172 | returns (byte at `sp + 1`, byte at `sp`); `sp` rises by 2, wrapping, and nothing else changes |
| Cpu.PopAfterPush | src/cpu.rs:162-172 | a pop straight after `push((high, low))` restores `sp`, keeps the pushed memory, and returns `(low, high)` |
| Cpu.Bit | src/cpu.rs:186-194 | no contract beyond its `byte` result type: `flag as u8`, 1 for true and 0 for false; `Cpu.FlagByteBits` and `Cpu.PswGetFlags` state where each such bit lands in the flag byte |
| Cpu.PswGetFlags | src/cpu.rs:185-195 | bits 7, 6, 4, 2, 0 of the flag byte are sign, zero, half carry, parity, carry; bit 1 is set and bits 5 and 3 clear |
| Cpu.FlagByteBits | src/cpu.rs:186-194 | the sum of the shifted flag bits has each flag bit at its position and the fixed bits 5, 3 and 1 at 0, 0, 1 |
| Cpu.PswSetFlags | src/cpu.rs:199-205 | each flag is read from its bit position of the byte; bits 5, 3, 1 are ignored; only the five flags change |
| Cpu.PswSetGet | src/cpu.rs:185-205 | restoring the flag byte just read leaves the whole state unchanged |
| Cpu.PswGetSet | src/cpu.rs:185-205 | reading the flags after setting them from `v` gives `(v & 0xD5) + 2`: bits 5 and 3 cleared, bit 1 set |
| Instructions.Inr | src/instructions.rs:146-153 | returns `value + 1` wrapped; zero iff value was 255; half carry iff its low three bits were all set; sign and parity clear; carry and all else unchanged |
| Instructions.IncrementLowBits | src/instructions.rs:151 | adding 1 carries out of the low three bits exactly when they are all set |
| Instructions.Dcr | src/instructions.rs:155-162 | returns `value - 1` wrapped; zero iff value was 1; half carry, sign and parity clear; carry and all else unchanged |
| Instructions.DcrAfterInr | src/instructions.rs:146-162 | `dcr` after `inr` gives the operand back and keeps carry |
| Instructions.Decode | src/instructions.rs:164-171 | `z` is bits 2..0, `y` bits 5..3, `x` twice bits 7..6, `p`/`q` the upper two and low bit of `y`; the fields determine the opcode again |
| Instructions.FieldArithmetic | src/instructions.rs:165-169 | the masked and shifted fields are quotients and remainders of the opcode and add up to it |
| Instructions.Source | src/instructions.rs:176-185 | no contract of its own: register number 0-5 (B C D E H L) or 7 (A), 0 for number 6 and numbers 8 and above; `Instructions.SetRegister` states that each assigned register reads back through it |
| Instructions.SetRegister | src/instructions.rs:199-207 | register number `z` (0-5 for B C D E H L, 7 for A) then reads the value; number 6, and numbers 8 and above, change nothing; only registers change |
| Instructions.SetRegisterKeepsOthers | src/instructions.rs:199-207 | assigning register `z` leaves every other register number reading as before |
| Instructions.Mov | src/instructions.rs:174-209 | no contract of its own: its four cases are stated by `Instructions.MovHalt`, `MovStore`, `MovLoad` and `MovSelf` below, which together cover every opcode |
| Instructions.MovHalt | src/instructions.rs:188 | HLT moves `pc` back by 2, wrapping, and changes nothing else |
| Instructions.MovStore | src/instructions.rs:190 | a move to memory stores 0, the source of number 6, at HL |
| Instructions.MovLoad | src/instructions.rs:191-197 | a load puts the byte at HL into register `z`; every other register, every flag and memory are unchanged |
| Instructions.MovSelf | src/instructions.rs:199-205 | every register-to-register move changes nothing, since source and destination are both `z` |
| Instructions.Rlc | src/instructions.rs:44-51 | carry iff bit 7 of A; A becomes A rotated left by one; only A and carry change |
| Instructions.Rrc | src/instructions.rs:90-97 | carry iff bit 0 of A; A becomes A rotated right by one; only A and carry change |
| Instructions.RotatesInverse | src/instructions.rs:44-97 | RRC undoes RLC and RLC undoes RRC on the accumulator |
| Instructions.Execute | src/instructions.rs:7-143 | the panic arm is reached exactly for opcodes without an arm and changes nothing; every other arm counts 4, 5, 7 or 10 cycles |
| Instructions.Step | src/instructions.rs:4-143 | no contract of its own: `Instructions.StepIsFetchThenExecute` states that it is the arm of the opcode under `pc` run past the fetch, and the lemmas below state each arm through it |
| Instructions.StepIsFetchThenExecute | src/instructions.rs:5-7 | one step is the arm of the opcode under `pc`, run with `pc` already past it |
| Instructions.UnimplementedPanics | src/instructions.rs:142 | a step panics iff the opcode has no arm, reporting the `pc` after the fetch and the opcode |
| Instructions.NoOperationSteps | src/instructions.rs:99-101 | 0x00, 0x08, 0x10, 0x18, 0x20, 0x28, 0x30, 0x38 only move `pc` past the opcode and count 4 cycles |
| Instructions.LoadImmediateBC | src/instructions.rs:13-17 | LXI B loads the little-endian immediate into BC, moves `pc` by 3 and changes nothing else; 10 cycles |
| Instructions.LoadImmediateDE | src/instructions.rs:103-107 | LXI D loads the little-endian immediate into DE, moves `pc` by 3 and changes nothing else; 10 cycles |
| Instructions.LoadImmediateExample | src/instructions.rs:13-17 | the bytes 01 34 12 at address 0 load 0x1234 into BC and leave `pc` at 3 after 10 cycles |
| Instructions.LoadImmediateByte | src/instructions.rs:39-42 | MVI B (and MVI C, MVI D at lines 85-88, 129-132) loads the next byte into its register and moves `pc` by 2; 5 cycles for B, 7 for C and D |
| Instructions.IncrementBC | src/instructions.rs:24-27 | INX B adds 1 to BC modulo 2^16; only BC and `pc` change; 5 cycles |
| Instructions.IncrementDE | src/instructions.rs:114-117 | INX D adds 1 to DE modulo 2^16; only DE and `pc` change; 5 cycles |
| Instructions.DecrementBC | src/instructions.rs:69-73 | DCX B subtracts 1 from BC modulo 2^16; only BC and `pc` change; 5 cycles |
| Instructions.DecrementBCArm | src/instructions.rs:69-73 | `Execute` at 0x0b, on the state after the fetch, gives BC - 1 modulo 2^16 in BC and 5 cycles; `Processor.CPU.DcxB` is proved with it |
| Instructions.IncrementThenDecrement | src/instructions.rs:24-73 | INX B followed by DCX B restores BC, wrap-around included, and advances `pc` by 2 |
| Instructions.DoubleAdd | src/instructions.rs:57-62 | DAD B: HL becomes HL + BC modulo 2^16, carry iff the sum exceeds 0xFFFF, nothing else but `pc` changes; 10 cycles |
| Instructions.DoubleAddArm | src/instructions.rs:57-62 | `Execute` at 0x09, on the state after the fetch, sets carry from HL + BC, then puts HL + BC modulo 2^16 in HL, 10 cycles; `Processor.CPU.DadB` is proved with it |
| Instructions.IndirectAccess | src/instructions.rs:19-22 | STAX B (and STAX D at 109-112) store A at BC (DE); LDAX B (64-67) loads A from BC; 7 cycles |
| Instructions.StoreThenLoad | src/instructions.rs:19-67 | STAX B followed by LDAX B leaves A and BC as they were |
| Instructions.IncrementRegister | src/instructions.rs:29-32 | INR B (and INR C, INR D at 75-78, 119-122) replace their register by `inr`'s result, with `inr`'s flags; 5 cycles |
| Instructions.DecrementRegister | src/instructions.rs:34-37 | DCR B (and DCR C, DCR D at 80-83, 124-127) replace their register by `dcr`'s result, with `dcr`'s flags; 5 cycles |
| Instructions.RalIsRlc | src/instructions.rs:134-141 | RAL has exactly the effect and the cycle count of RLC |
| Instructions.RotateStep | src/instructions.rs:44-51 | RLC and RAL rotate A left, RRC (90-97) rotates it right, each through the step with 4 cycles |
| Processor.CPU.Build | src/cpu.rs:24-43 | the object snapshot is the power-on state over the given bus |
| Processor.CPU.GetBC | src/cpu.rs:48-50 | the upper byte of BC is `b`, the lower `c` |
| Processor.CPU.GetDE | src/cpu.rs:59-61 | the upper byte of DE is `d`, the lower `e` |
| Processor.CPU.GetHL | src/cpu.rs:76-78 | the upper byte of HL is `h`, the lower `l` |
| Processor.CPU.SetBC | src/cpu.rs:53-56 | the fields afterwards are `Cpu.SetBC` of the fields before |
| Processor.CPU.SetDE | src/cpu.rs:64-67 | the fields afterwards are `Cpu.SetDE` of the fields before |
| Processor.CPU.SetHL | src/cpu.rs:70-73 | the fields afterwards are `Cpu.SetHL` of the fields before |
| Processor.CPU.UpdateSignFlag | src/cpu.rs:82-84 | the fields afterwards are `Cpu.UpdateSignFlag` of the fields before |
| Processor.CPU.UpdateZeroFlag | src/cpu.rs:86-88 | the fields afterwards are `Cpu.UpdateZeroFlag` of the fields before |
| Processor.CPU.UpdateParityFlag | src/cpu.rs:90-99 | the counting loop leaves the fields as `Cpu.UpdateParityFlag` says: the parity flag clear |
| Processor.CPU.UpdateCarryFlag16 | src/cpu.rs:101-103 | the fields afterwards are `Cpu.UpdateCarryFlag16` of the fields before |
| Processor.CPU.UpdateCarryFlag8 | src/cpu.rs:105-107 | the fields afterwards are `Cpu.UpdateCarryFlag8` of the fields before |
| Processor.CPU.UpdateHalfCarry | src/cpu.rs:109-111 | the fields afterwards are `Cpu.UpdateHalfCarry` of the fields before |
| Processor.CPU.UpdateBorrow16 | src/cpu.rs:115-117 | the fields afterwards are `Cpu.UpdateBorrow16` of the fields before |
| Processor.CPU.UpdateBorrow8 | src/cpu.rs:119-121 | the fields afterwards are `Cpu.UpdateBorrow8` of the fields before |
| Processor.CPU.UpdateHalfBorrow | src/cpu.rs:123-125 | the fields afterwards are `Cpu.UpdateHalfBorrow` of the fields before |
| Processor.CPU.Read8 | src/cpu.rs:129-131 | returns the byte the bus holds at the address and changes nothing |
| Processor.CPU.Write8 | src/cpu.rs:133-135 | the state afterwards is `Cpu.Write8` of the state before |
| Processor.CPU.Fetch | src/cpu.rs:137-141 | returns the byte under `pc` and advances `pc` by one, wrapping, as `Cpu.Fetch` |
| Processor.CPU.Fetch16 | src/cpu.rs:143-147 | returns the little-endian word at `pc` and advances `pc` by 2, as `Cpu.Fetch16` |
| Processor.CPU.Read16 | src/cpu.rs:149-153 | returns `(byte at address + 1, byte at address)` and changes nothing |
| Processor.CPU.Write16 | src/cpu.rs:155-158 | the state afterwards is `Cpu.Write16` of the state before |
| Processor.CPU.Push | src/cpu.rs:162-166 | the state afterwards is `Cpu.Push` of the state before |
| Processor.CPU.Pop | src/cpu.rs:168-172 | the state and the returned pair are `Cpu.Pop` of the state before |
| Processor.CPU.PswGetFlags | src/cpu.rs:185-195 | returns `Cpu.PswGetFlags` of the current state and changes nothing |
| Processor.CPU.PswSetFlags | src/cpu.rs:199-205 | the state afterwards is `Cpu.PswSetFlags` of the state before |
| Processor.CPU.Inr | src/instructions.rs:146-153 | the state and the result are `Instructions.Inr` of the state before |
| Processor.CPU.Dcr | src/instructions.rs:155-162 | the state and the result are `Instructions.Dcr` of the state before |
| Processor.CPU.Mov | src/instructions.rs:174-209 | the state afterwards is `Instructions.Mov` of the state before |
| Processor.CPU.Register | src/instructions.rs:176-185 | returns the source register selected by `z` (7 selects A), 0 for number 6 and numbers 8 and above, and changes nothing |
| Processor.CPU.SetRegister | src/instructions.rs:199-207 | the state afterwards is `Instructions.SetRegister` of the state before |
| Processor.CPU.DoInstruction | src/instructions.rs:4-144 | the state and the outcome (final `cycles`, or the panic report) are `Instructions.Step` of the state before |
| Processor.CPU.LxiB | src/instructions.rs:13-17 | the state after the arm is that of `Instructions.Execute` for 0x01, which counts 10 cycles |
| Processor.CPU.StaxB | src/instructions.rs:19-22 | the state after the arm is that of `Instructions.Execute` for 0x02, which counts 7 cycles |
| Processor.CPU.InxB | src/instructions.rs:24-27 | the state after the arm is that of `Instructions.Execute` for 0x03, which counts 5 cycles |
| Processor.CPU.InrB | src/instructions.rs:29-32 | the state after the arm is that of `Instructions.Execute` for 0x04, which counts 5 cycles |
| Processor.CPU.DcrB | src/instructions.rs:34-37 | the state after the arm is that of `Instructions.Execute` for 0x05, which counts 5 cycles |
| Processor.CPU.MviB | src/instructions.rs:39-42 | the state after the arm is that of `Instructions.Execute` for 0x06, which counts 5 cycles |
| Processor.CPU.Rlc | src/instructions.rs:44-51 | the state after the arm is that of `Instructions.Execute` for 0x07, which counts 4 cycles |
| Processor.CPU.DadB | src/instructions.rs:57-62 | the state after the arm is that of `Instructions.Execute` for 0x09, which counts 10 cycles |
| Processor.CPU.LdaxB | src/instructions.rs:64-67 | the state after the arm is that of `Instructions.Execute` for 0x0a, which counts 7 cycles |
| Processor.CPU.DcxB | src/instructions.rs:69-73 | the state after the arm is that of `Instructions.Execute` for 0x0b, which counts 5 cycles |
| Processor.CPU.InrC | src/instructions.rs:75-78 | the state after the arm is that of `Instructions.Execute` for 0x0c, which counts 5 cycles |
| Processor.CPU.DcrC | src/instructions.rs:80-83 | the state after the arm is that of `Instructions.Execute` for 0x0d, which counts 5 cycles |
| Processor.CPU.MviC | src/instructions.rs:85-88 | the state after the arm is that of `Instructions.Execute` for 0x0e, which counts 7 cycles |
| Processor.CPU.Rrc | src/instructions.rs:90-97 | the state after the arm is that of `Instructions.Execute` for 0x0f, which counts 4 cycles |
| Processor.CPU.LxiD | src/instructions.rs:103-107 | the state after the arm is that of `Instructions.Execute` for 0x11, which counts 10 cycles |
| Processor.CPU.StaxD | src/instructions.rs:109-112 | the state after the arm is that of `Instructions.Execute` for 0x12, which counts 7 cycles |
| Processor.CPU.InxD | src/instructions.rs:114-117 | the state after the arm is that of `Instructions.Execute` for 0x13, which counts 5 cycles |
| Processor.CPU.InrD | src/instructions.rs:119-122 | the state after the arm is that of `Instructions.Execute` for 0x14, which counts 5 cycles |
| Processor.CPU.DcrD | src/instructions.rs:124-127 | the state after the arm is that of `Instructions.Execute` for 0x15, which counts 5 cycles |
| Processor.CPU.MviD | src/instructions.rs:129-132 | the state after the arm is that of `Instructions.Execute` for 0x16, which counts 7 cycles |
| Processor.CPU.Ral | src/instructions.rs:134-141 | the state after the arm is that of `Instructions.Execute` for 0x17, which counts 4 cycles |

## Left out

- `src/main.rs`, the entry point that builds the machine and would start it, is not part of this model.
- `Machine::execute` (src/machine.rs:22) and `CPU::handle_input` / `CPU::handle_interrupts` (src/cpu.rs:207-209) have empty bodies with no effect, so they have no counterpart.
- `impl Default for Machine` (src/machine.rs:25-29) only calls `Machine::new`, which is modelled.
- The panic of the unimplemented-opcode arm becomes the outcome `Unimplemented(pc, opcode)`. The formatted message is not modelled, since text output is I/O.
- Opcodes above 0x17 other than the NOP-class ones have no arm in the original. They only reach the panic outcome.
- Cycle counts are modelled as the returned number only; the original has no timing to model.
- Cpu.Push: requires `sp >= 2`, because the original's plain `sp - 1` and `sp - 2` on `u16` panic on overflow in debug builds and wrap in release builds; neither behaviour at `sp < 2` is modelled.
- Cpu.Pop: requires `sp < 0xFFFF`, because the original's plain `sp + 1` on `u16` panics on overflow in debug builds and wraps in release builds; neither behaviour at `sp == 0xFFFF` is modelled. The state right after `build` (`sp == 0xFFFF`) is outside it.
- Cpu.Read16: requires `address < 0xFFFF`, because the original's plain `address + 1` on `u16` panics on overflow in debug builds and wraps in release builds; neither behaviour at `address == 0xFFFF` is modelled.
- Cpu.Write16: requires `address < 0xFFFF`, because the original's plain `address + 1` on `u16` panics on overflow in debug builds and wraps in release builds; neither behaviour at `address == 0xFFFF` is modelled.
- Processor.CPU: the original moves the `Machine` into the `CPU` and owns it by value; here the `bus` field is a reference to a `Memory.Machine`, and the model does not enforce the move. The caller of `Build`, or a second `CPU` built over the same bus, may keep the reference and change the bus behind the processor's back, which the original cannot; no member of this project does so.
- Processor.CPU.DoInstruction: the statements of each arm sit in a method named after the arm's mnemonic (`LxiB`, `DadB`, ...) rather than inline, one proof per arm. The order of statements inside each arm is kept.
- Instructions.Mov: has no contract of its own. Its four cases are stated by `MovHalt`, `MovStore`, `MovLoad` and `MovSelf`.
