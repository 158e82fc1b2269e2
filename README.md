# CHIP-8 interpreter core in Dafny

A model of the execution engine of the `chip8-rs` CHIP-8 interpreter. It
covers the instruction decoder (`src/instructions.rs`), the CPU registers
and primitive operations (`src/cpu.rs`), the 4 KiB RAM with its font
(`src/memory.rs`), and the interpreter itself (`src/chip8.rs`): ROM loading,
fetch, decode and the execution of every instruction. Dxyn is included,
which XORs a sprite into the framebuffer and sets the collision flag.

Structure:

- `types.dfy`: `u8` (`bv8`), `u16` (`bv16`), `Addr` (an integer 0..0xFFFF
  that plays a Rust `u16` address, whose overflow would panic), `Reg` and
  `Option`.
- `instructions.dfy`: the `Instructions` enum as a datatype and
  `Instructions::new` as the pure function `Decode`. An assembler `Encode`
  is written from the reference opcode table, and the two are proved
  inverse up to `Canonical`. Decoding an encoding gives the instruction
  back. Encoding a decoded word gives the word with the nibbles the
  decoder ignores cleared, and that canonical word decodes the same.
- `cpu.dfy`: class `Cpu` with the register file as an array updated in
  place. The flag-setting arithmetic is specified by pure functions on
  the register contents (`AddFlagged`, `SubFlagged`, `ShiftRightFlagged`,
  `ShiftLeftFlagged`).
- `memory.dfy`: class `Memory` over a 4096-byte array and the font loader.
- `display.dfy`: the part of the window wrapper the core touches. This is
  the framebuffer `coord`, its clear, and the XOR loop over one sprite row.
- `sprite.dfy`: the sprite blit as a pure fold (`DrawFold`, `Collision`)
  and its properties.
- `chip8.dfy`: class `Chip8`, whose methods are proved against pure
  functions on a `MachineState` value. The per-instruction step is `Exec`
  and the fetch-decode-run step is `Step`.
- `chip8_laws.dfy`: what one step guarantees, stated on `Exec`/`Step`.

The model follows the code as written, including behaviour that departs
from the usual CHIP-8 description:

- `add` (8xy4) and `sub` (8xy5, 8xy7) set VF to 1 on carry or no-borrow
  but never clear it.
- The flag is written before the result, so with VF as an operand the
  result sees the new flag.
- 8xy7 calls `sub(y, x)` and so writes Vy, not Vx.
- 8xyE stores `Vx & 0x80`, not the shifted-out bit, in VF.
- Fx29 multiplies the register index, not the register's value, by 5.
- A word that does not decode leaves PC where it is.
- `call` pre-increments the stack pointer, so slot 0 is never used.
- Every panic of a debug build (integer overflow checks on) becomes a
  precondition, so nothing wraps silently. This covers an index past
  0xFFF, `addr - 2` below zero, an address or PC sum past 0xFFFF, `sp`
  underflow or overflow, and `byte * 5` past 255 in Fx29. Fx1E
  additionally reduces I modulo 0x1000, as the source does.

## Model

| member | source | states |
|---|---|---|
| Instructions.DecodeEncode | src/instructions.rs:45-120 | decoding the word assembled for any well-formed instruction gives back that instruction |
| Instructions.EncodeDecode | src/instructions.rs:45-120 | every word that decodes re-assembles to itself, up to the nibbles the decoder ignores (x in family 0, y in 8x06/8x0E) |
| Instructions.Decode | src/instructions.rs:45-120 | every operand of a decoded instruction fits its field: register nibbles, n and the Fx29 operand below 16, addresses below 0x1000 |
| Instructions.DecodeIgnores | src/instructions.rs:46-119 | a word decodes exactly like its canonical form: the x nibble of family 0 and the y nibble of 8xy6/8xyE are never read (0x01E0 is 00E0, 0x8AB6 is 8A06) |
| Instructions.SelectFamily | src/instructions.rs:57-119 | every row of the table builds an instruction of the family its first nibble names, the family the assembler writes back |
| Instructions.SelectWellFormed | src/instructions.rs:57-119 | fields within their widths give operands within theirs, for every row of the table |
| Instructions.SelectFields | src/instructions.rs:57-119 | for each family the decoder's table returns an instruction that the assembler's table rebuilds from the same family, nibble and low byte |
| Cpu.CarryIff | src/cpu.rs:115 | `checked_add` fails exactly when the wrapped sum is below an operand, i.e. the unbounded sum exceeds 255 |
| Cpu.AddSpec | src/cpu.rs:113-119 | on ordinary registers `add` leaves the sum mod 256 in Vx, VF = 1 on a carry and unchanged otherwise, and every other register unchanged |
| Cpu.SubSpec | src/cpu.rs:121-126 | `sub` leaves the difference mod 256 in Vx, VF = 1 when Vx > Vy and unchanged otherwise, and every other register unchanged |
| Cpu.AddIntoFlag | src/cpu.rs:113-119 | with VF as destination and a carry, the flag is written first, so VF ends as 1 + Vy |
| Cpu.FlagNeverCleared | src/cpu.rs:113-126 | `add` and `sub` never lower a VF that is already 1 |
| Cpu.ShiftRightSpec | src/cpu.rs:128-132 | VF gets Vx mod 2, Vx is halved, and no other register changes |
| Cpu.ShiftLeftSpec | src/cpu.rs:134-138 | VF gets 0x80 when the top bit is set and 0 otherwise, Vx is doubled mod 256, and no other register changes |
| Cpu.ShiftFlagRegister | src/cpu.rs:128-138 | shifting VF itself always leaves VF at 0 |
| Cpu.AddFlagged | src/cpu.rs:113-119 | 16 registers result, and only Vx and VF can differ from before (the values: AddSpec, AddIntoFlag) |
| Cpu.SubFlagged | src/cpu.rs:121-126 | 16 registers result, and only Vx and VF can differ from before (the values: SubSpec) |
| Cpu.ShiftRightFlagged | src/cpu.rs:128-132 | 16 registers result, and only Vx and VF can differ from before (the values: ShiftRightSpec) |
| Cpu.ShiftLeftFlagged | src/cpu.rs:134-138 | 16 registers result, and only Vx and VF can differ from before (the values: ShiftLeftSpec) |
| Cpu.TickDown | src/cpu.rs:145-152 | a timer counts down by one and stays at zero |
| Cpu.Cpu.constructor | src/cpu.rs:35-49 | registers zero, PC = 0x200, sp = 0, a 16-slot zero stack |
| Cpu.Cpu.GetVx | src/cpu.rs:51-53 | returns Vx |
| Cpu.Cpu.SetVx | src/cpu.rs:55-57 | Vx := b and no other register changes |
| Cpu.Cpu.AddVx | src/cpu.rs:59-61 | Vx := Vx + b mod 256 and VF is untouched |
| Cpu.Cpu.SetDt | src/cpu.rs:80-82 | DT := Vx |
| Cpu.Cpu.SetSt | src/cpu.rs:84-86 | ST := Vx |
| Cpu.Cpu.SetI | src/cpu.rs:88-90 | I := addr |
| Cpu.Cpu.SubroutineReturn | src/cpu.rs:92-95 | PC := stack[sp], then sp - 1; needs sp >= 1 |
| Cpu.Cpu.Jump | src/cpu.rs:97-101 | PC := addr - 2; needs addr >= 2 |
| Cpu.Cpu.Call | src/cpu.rs:103-107 | sp + 1, stack[sp + 1] := PC, PC := addr - 2; needs sp < 15 |
| Cpu.Cpu.SkipInstruction | src/cpu.rs:109-111 | PC += 2 without overflowing 16 bits |
| Cpu.Cpu.RaiseFlagIf | src/cpu.rs:115-117 | VF := 1 when the condition holds; otherwise, and for every other register, nothing changes |
| Cpu.Cpu.Add | src/cpu.rs:113-119 | the register file becomes AddFlagged of the old one (see AddSpec) |
| Cpu.Cpu.Sub | src/cpu.rs:121-126 | the register file becomes SubFlagged of the old one (see SubSpec) |
| Cpu.Cpu.ShiftRight | src/cpu.rs:128-132 | the register file becomes ShiftRightFlagged of the old one |
| Cpu.Cpu.ShiftLeft | src/cpu.rs:134-138 | the register file becomes ShiftLeftFlagged of the old one |
| Cpu.Cpu.SetSpriteI | src/cpu.rs:140-143 | I := 5 * b; needs b <= 51 (u8 product) |
| Cpu.Cpu.TickTimers | src/cpu.rs:145-152 | both timers tick down, stopping at zero |
| Memory.WithFont | src/memory.rs:21-50 | a 4096-byte RAM whose bytes from 80 up are those of the RAM it was given (the font bytes: InitialRamGlyphs) |
| Memory.InitialRam | src/memory.rs:11-17 | a 4096-byte RAM (its contents: InitialRamGlyphs, InitialRamZeroAbove) |
| Memory.InitialRamGlyphs | src/memory.rs:21-50 | glyph d occupies addresses 5d..5d+4, its rows in order |
| Memory.InitialRamZeroAbove | src/memory.rs:11-17 | every byte from 80 up starts at zero |
| Memory.Memory.constructor | src/memory.rs:11-17 | a fresh RAM is zeros with the font written over its first 80 bytes |
| Memory.Memory.LoadFontSprites | src/memory.rs:21-50 | writes the 80 font bytes from address 0 and leaves the rest of RAM alone |
| Memory.Memory.WriteByte | src/memory.rs:52-54 | stores one byte and changes nothing else |
| Memory.Memory.ReadByte | src/memory.rs:56-58 | returns the byte at the address |
| Display.Display.constructor | src/display.rs:24-36 | a blank 2048-cell framebuffer |
| Display.Display.Clear | src/display.rs:81-83 | every cell off |
| Display.Display.DrawRow | src/chip8.rs:154-162 | XORs the 8 bits of one sprite row into the framebuffer, continuing the fold and the collision flag by one row |
| Sprite.DrawFold | src/chip8.rs:153-161 | the framebuffer keeps its 2048 cells (the cells: DrawnCell, UntouchedBeforeDrawn) |
| Sprite.Collision | src/chip8.rs:152-160 | the flag is 0 or 1 (when it is 1: CollisionIff) |
| Sprite.Target | src/chip8.rs:156-157 | every cell a sprite bit lands on is inside the framebuffer (index mod 2048) |
| Sprite.DrawnCell | src/chip8.rs:153-161 | after the draw, the cell of column k of row j is its old value XOR bit 7 - k of row j |
| Sprite.DrawTwice | src/chip8.rs:153-161 | drawing the same sprite at the same place twice restores the framebuffer |
| Sprite.CollisionIff | src/chip8.rs:152-160 | the flag is 1 exactly when some set sprite bit meets a lit cell |
| Sprite.DrawKeepsBinary | src/chip8.rs:161 | a framebuffer of 0/1 cells stays one |
| Sprite.DrawOnBlank | src/chip8.rs:152-161 | on a blank framebuffer nothing collides and every hit cell shows its sprite bit |
| Sprite.UntouchedBeforeDrawn | src/chip8.rs:155-161 | a cell still holds its old value when the scan first reaches it |
| Chip8.Initial | src/chip8.rs:47-57 | the machine after `new` is well shaped |
| Chip8.BcdDigits | src/chip8.rs:199-203 | three decimal digits, each below 10, whose weighted sum is the value |
| Chip8.Overlay | src/chip8.rs:76-82 | `data` from `at` on, every other byte unchanged |
| Chip8.ControlStep | src/chip8.rs:105-146 | 00EE, 1nnn, 2nnn and Bnnn change only PC, sp and the stack, and keep the machine well shaped (16 registers, 16 stack slots, sp below 16, 4096 bytes of RAM, 2048 cells) |
| Chip8.SkipStep | src/chip8.rs:108-177 | a skip changes only PC, by 0 or 2, and keeps the machine well shaped (when it adds 2: PcAdvance) |
| Chip8.LoadStep | src/chip8.rs:123-190 | a register load changes only Vx, and keeps the machine well shaped |
| Chip8.FlaggedStep | src/chip8.rs:135-139 | 8xy4-8xyE change only the registers, and keep the machine well shaped |
| Chip8.TimerStep | src/chip8.rs:145-196 | Annn, Fx15, Fx18, Fx1E and Fx29 change only I, DT and ST, and keep the machine well shaped |
| Chip8.BlockStep | src/chip8.rs:197-220 | Fx33, Fx55 and Fx65 change only RAM and the registers, and keep the machine well shaped |
| Chip8.BcdStep | src/chip8.rs:197-208 | Fx33 changes only RAM, and keeps the machine well shaped (the digits: BcdStores) |
| Chip8.DisplayStep | src/chip8.rs:104-167 | 00E0 and Dxyn change only the framebuffer and the registers, and keep the machine well shaped (which register: ExecDraw, DrawFlag) |
| Chip8.Dispatch | src/chip8.rs:103-221 | every match arm keeps the machine well shaped |
| Chip8.Exec | src/chip8.rs:102-224 | running an instruction keeps the machine well shaped (its effect, arm by arm: the Chip8Laws rows) |
| Chip8.Word16 | src/chip8.rs:88 | the assembled word splits back into its high and low byte |
| Chip8.Opcode | src/chip8.rs:84-91 | the fetched word's high byte is RAM[PC] and its low byte RAM[PC + 1] |
| Chip8.Step | src/chip8.rs:93-100 | a fetch-decode-run step keeps the machine well shaped |
| Chip8.Chip8.constructor | src/chip8.rs:47-57 | the machine state equals Initial: font, zero registers, PC 0x200, blank screen |
| Chip8.Chip8.LoadRom | src/chip8.rs:76-82 | RAM becomes the ROM overlaid from PC on, and nothing else changes |
| Chip8.Chip8.GetNextInstruction | src/chip8.rs:84-91 | decodes the big-endian word at PC |
| Chip8.Chip8.RunNextInstruction | src/chip8.rs:93-100 | the new machine state is Step of the old one |
| Chip8.Chip8.RunInstruction | src/chip8.rs:102-224 | the new machine state is Exec of the old one: the match arm, then PC += 2 |
| Chip8.Chip8.RunArm | src/chip8.rs:103-221 | the new machine state is Dispatch of the old one |
| Chip8.Chip8.RunRegisterArm | src/chip8.rs:104-147 | Dispatch for the arms that touch only V, PC and the stack |
| Chip8.Chip8.RunPeripheralArm | src/chip8.rs:148-220 | Dispatch for the timer, I, RAM and framebuffer arms |
| Chip8.Chip8.RunControl | src/chip8.rs:105-107 | ControlStep: 00EE, 1nnn, 2nnn and Bnnn |
| Chip8.Chip8.ReturnFromSubroutine | src/chip8.rs:105 | PC := saved slot, stack popped |
| Chip8.Chip8.JumpTo | src/chip8.rs:106 | PC := nnn - 2 |
| Chip8.Chip8.CallSubroutine | src/chip8.rs:107 | PC pushed to slot sp + 1, PC := nnn - 2 |
| Chip8.Chip8.JumpPlusV0 | src/chip8.rs:146 | PC := nnn + V0 - 2 |
| Chip8.Chip8.RunSkip | src/chip8.rs:108-122 | SkipStep: PC += 2 once more exactly when the condition holds |
| Chip8.Chip8.SkipCondition | src/chip8.rs:108-177 | the condition of 3xkk, 4xkk, 5xy0, 9xy0, Ex9E and ExA1 |
| Chip8.Chip8.RunLoad | src/chip8.rs:123-134 | LoadStep: only Vx changes, to LoadedValue |
| Chip8.Chip8.LoadValue | src/chip8.rs:123-190 | the value of 6xkk, 8xy0-3, Cxkk, Fx07 and Fx0A |
| Chip8.Chip8.CombineRegisters | src/chip8.rs:126-134 | Vx OR, AND or XOR Vy |
| Chip8.Chip8.RunFlagged | src/chip8.rs:135-139 | FlaggedStep: 8xy4, 8xy5, 8xy6, 8xy7 (as sub(y, x)) and 8xyE |
| Chip8.Chip8.RunTimer | src/chip8.rs:191-196 | TimerStep: Fx15, Fx18, Fx1E (mod 0x1000), Fx29, plus Annn |
| Chip8.Chip8.RunBlock | src/chip8.rs:197-220 | BlockStep: Fx33, Fx55, Fx65 |
| Chip8.Chip8.StoreBcd | src/chip8.rs:197-208 | RAM[I..I+2] := the decimal digits of Vx |
| Chip8.Chip8.StoreRegisters | src/chip8.rs:209-214 | RAM[I..I+x] := V0..Vx |
| Chip8.Chip8.LoadRegisters | src/chip8.rs:215-220 | V0..Vx := RAM[I..I+x] |
| Chip8.Chip8.RunDisplay | src/chip8.rs:148-167 | DisplayStep: 00E0 or Dxyn |
| Chip8.Chip8.DrawSprite | src/chip8.rs:148-167 | framebuffer := DrawFold of the sprite at (Vx, Vy), then VF := Collision |
| Chip8.Chip8.DrawBytes | src/chip8.rs:153-163 | the row loop computes DrawFold and Collision over all n rows |
| Chip8Laws.PcAdvance | src/chip8.rs:222-223 | every non-control instruction adds 2 to PC, a taken skip adds 4, and a key wait without a key adds 0 |
| Chip8Laws.DispatchKeepsPc | src/chip8.rs:123-220 | the arms other than control transfers and skips do not touch PC |
| Chip8Laws.JumpLands | src/cpu.rs:97-101 | 1nnn ends with PC exactly nnn and nothing else changed |
| Chip8Laws.JumpPlusV0Lands | src/chip8.rs:146 | Bnnn ends with PC exactly nnn + V0 |
| Chip8Laws.CallThenReturn | src/cpu.rs:92-107 | 2nnn lands on nnn with the caller's PC saved; the following 00EE resumes after the call with sp restored |
| Chip8Laws.DecodeMissStalls | src/chip8.rs:93-100 | a word that does not decode changes nothing, not even PC |
| Chip8Laws.KeyWait | src/chip8.rs:179-190 | Fx0A without a key changes nothing; with key k it sets Vx := k and PC += 2 |
| Chip8Laws.InitialBinary | src/display.rs:24-36 | the initial framebuffer holds only 0 and 1 |
| Chip8Laws.ExecKeepsBinary | src/chip8.rs:102-224 | every instruction keeps every framebuffer cell 0 or 1 |
| Chip8Laws.DrawKeepsBinary | src/chip8.rs:148-167 | Dxyn keeps every framebuffer cell 0 or 1 |
| Chip8Laws.DispatchKeepsCoord | src/chip8.rs:104-220 | only 00E0 and Dxyn touch the framebuffer |
| Chip8Laws.StepKeepsBinary | src/chip8.rs:93-100 | a fetch-decode-run step keeps the framebuffer binary |
| Chip8Laws.ExecDraw | src/chip8.rs:148-167 | Dxyn is the XOR fold of the sprite at I, VF := collision, PC += 2 |
| Chip8Laws.DrawPixel | src/chip8.rs:153-161 | Dxyn XORs bit 7 - k of RAM[I + j] into cell (64(Vy + j) + Vx + k) mod 2048 |
| Chip8Laws.DrawFlag | src/chip8.rs:152-165 | VF after Dxyn is 0 or 1, and 1 exactly when a set bit met a lit cell |
| Chip8Laws.DrawTwiceRestores | src/chip8.rs:148-167 | running the same Dxyn twice restores the framebuffer (when neither coordinate register is VF) |
| Chip8Laws.ExecBcd | src/chip8.rs:197-208 | Fx33 writes the three digits at I, I + 1, I + 2, then PC += 2 |
| Chip8Laws.BcdStores | src/chip8.rs:197-208 | Fx33 puts the digits at I..I+2 and leaves registers, I and the rest of RAM unchanged |
| Chip8Laws.StoreRegistersWrites | src/chip8.rs:209-214 | Fx55 puts V0..Vx at I..I+x and leaves everything else unchanged |
| Chip8Laws.LoadRegistersReads | src/chip8.rs:215-220 | Fx65 reads V0..Vx from I..I+x and leaves the registers above x, I and RAM unchanged |
| Chip8Laws.StoreThenLoad | src/chip8.rs:209-220 | Fx55 then Fx65 with the same x leaves the registers as Fx55 found them |
| Chip8Laws.ExecStore | src/chip8.rs:209-214 | Fx55 as one step: RAM from I on gets V0..Vx, then PC += 2 |
| Chip8Laws.ExecLoad | src/chip8.rs:215-220 | Fx65 as one step: V0..Vx from RAM from I on, then PC += 2 |
| Chip8Laws.LoadStored | src/chip8.rs:209-220 | reading back the block just stored gives the registers |
| Chip8Laws.ExecKeepsIInRam | src/chip8.rs:193-196 | I stays below 0x1000: Annn is 12-bit, Fx29 at most 255, Fx1E wraps |
| Chip8Laws.DispatchKeepsI | src/chip8.rs:104-220 | only Annn, Fx1E and Fx29 write I |

## Left out

- `Chip8::run` is not modelled, because it is the main loop with wall-clock timing, sleeping and the window. `Cpu.Cpu.TickTimers` models the timer tick it calls.
- `random::<u8>()` in Cxkk is not modelled as a generator. The random byte is the parameter `rnd`.
- The busy-wait of Fx0A is one step taking an optional key: with no key the state is unchanged and the instruction runs again. `keyboard.set_key_pressed` is left out, because the core never reads the keyboard state back.
- For Ex9E and ExA1, the key `display.get_key_pressed()` reports is passed in as the parameter `key`.
- `Display::map_pixels`, `draw`, `update`, the minifb window and its pixel buffer are not modelled. They only mirror `coord` into colours on screen.
- `src/keyboard.rs` and `src/main.rs` are not part of this model.
- The release-build wrap-around is not modelled. In a debug build these operations panic on overflow, and the model makes each one a precondition. A release build instead wraps `addr - 2` in `jump` below 2, `sp -= 1` in `subroutine_return` on an empty stack, `pc += 2` in `skip_instruction` past 0xFFFF, `get_i() + get_vx()` in Fx1E past 0xFFFF, and `curr_i + j` in Fx55 and Fx65. `byte * 5` in `set_sprite_i` would wrap past 255, but Fx29 passes a register index below 16, so it never does.
- Chip8.Opcode: states the byte split of the fetched word on bit-vectors, not as the integer `256 * RAM[PC] + RAM[PC + 1]`, because the two are the same `u16` value.
- Chip8Laws.DrawTwiceRestores: excludes x = F and y = F. There the first draw overwrites a coordinate register, so the second draw lands elsewhere.
