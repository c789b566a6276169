# CHIP-8 interpreter core, modelled and verified in Dafny

This project models the two CHIP-8 engines of a Rust interpreter:

- **`Chip8`** (src/chip_8.rs) is the full engine. Its state is a program counter, the index register `I`, a stack pointer and a 16-entry stack, sixteen byte registers V0..VF, 4 KiB of memory, the delay and sound timers, a 16-key keypad and a 64x32 display. One `cycle` does four things in order:
  1. fetches the big-endian word at `pc`;
  2. moves `pc` past it;
  3. decodes the word in two levels (the family nibble, then the low nibble or low byte);
  4. runs one of 34 handlers, then decays both timers.
- **`CPU`** (src/cpu.rs) is the same engine with fewer parts. It has no timers, keypad or display, `00E0` does nothing, and the D, E and F families are not implemented.

The model has three layers.

- **Instruction set** (`Isa`, on top of `Bits`):
  - the machine constants;
  - the glyph set;
  - `Fetch`;
  - the two-level `Decode` into an `Instr` datatype that has an `Unknown` case;
  - a canonical `Encode`.
- **Pure state machines.**
  - `CpuSemantics` is the reduced engine: a `CpuState` value and one function per instruction, plus `Exec` and `Step`.
  - `Chip8Semantics` is the full engine. A `Machine` value embeds a `CpuState` and reuses every instruction of the reduced engine.
- **Imperative engines.**
  - The class `Cpu.Cpu` holds `pc`, `i`, `sp` and the arrays `stack`, `regs` and `ram`.
  - The class `Chip8.Chip8` holds a `Cpu`, the two timers, and the arrays `keypad` and `display`.
  - Each handler is a method that updates these fields and arrays in place. Its `ensures` ties the new state to the pure function of the old state. `Cycle` is proved to be exactly one `Step`.

Conventions of the model:

- A Rust panic on an out-of-range index becomes an explicit `Fault`, and the engine method returns it. The cases are:
  - a fetch past the end of memory;
  - a call on a full stack;
  - a return on an empty stack;
  - a memory access past `I`;
  - a key index above 15;
  - a program image that does not fit.

  A faulting cycle leaves the machine exactly as it was.
- The random byte of `Cxkk` is a parameter, `rnd`.
- Bytes, words and nibbles are integer subtypes. Every wrap-around the `u8`/`u16` arithmetic implies is written out as `% 0x100` or `% 0x1_0000`. This includes the byte product `5 * Vx` of `Fx29`, which the model takes modulo 256 as a release build does.

The Rust text does not compile as written: it indexes arrays with `u16`, mixes `u8` and `u16` operands, and uses placeholder field initialisers. The model follows the evident arithmetic meaning of each line. Where that meaning is a bug, the corrected behaviour is modelled and the bug is recorded under "## Findings".

Choices where CHIP-8 descriptions vary; the model follows the code:

- `8xy5` and `8xy7` set VF with a strict comparison, as section 3.1 of Cowgod's *Chip-8 Technical Reference* does, so equal values give VF = 0. Some CHIP-8 descriptions set VF for equal values; this model does not.
- Family 0 is told apart by the low byte only, so `0AE0` is `CLS`. Families 5 and 9 ignore the low nibble.
- `Fx1E` adds to `I` modulo 0x10000, the `u16` width. It sets no flag.
- `Fx29` computes `0x50 + (5 * Vx mod 256)` without masking Vx to a nibble. For the digits 0..F, the only values the instruction is meant for, this is `0x50 + 5 * Vx`.

## Model

| member | source | states |
|---|---|---|
| Isa.Decode | src/chip_8.rs:96-157 | the two-level dispatch on the family nibble; its meaning is stated by `Isa.DecodeEncode` (every pattern reaches its handler with its operands) and `Isa.EncodeDecode`/`Isa.AliasedDecode` (every word is read as its canonical form) |
| Isa.DecodeSystem | src/chip_8.rs:101-107 | the family-0 match on the low byte (`E0`, `EE`, otherwise unknown); stated by `Isa.DecodeEncode` and `Isa.AliasedDecode` |
| Isa.DecodeArithmetic | src/chip_8.rs:115-128 | the family-8 match on the low nibble; stated by `Isa.DecodeEncode` and `Isa.EncodeDecode` |
| Isa.DecodeKeys | src/chip_8.rs:134-140 | the family-E match on the low byte; stated by `Isa.DecodeEncode` and `Isa.EncodeDecode` |
| Isa.DecodeMisc | src/chip_8.rs:141-154 | the family-F match on the low byte; stated by `Isa.DecodeEncode`, `Isa.EncodeDecode` and `Isa.DecodeFFFF` |
| Isa.Fetch | src/chip_8.rs:91-94 | the fetched word has `ram[pc]` as its high byte and `ram[pc+1]` as its low byte |
| Isa.DecodeEncode | src/chip_8.rs:96-157 | every instruction with an opcode pattern decodes back from its canonical encoding, so the two-level dispatch reaches every handler with the operands it was given |
| Isa.EncodeDecode | src/chip_8.rs:96-157 | every word the decoder does not alias re-encodes to itself; unknown words included |
| Isa.AliasedDecode | src/chip_8.rs:100-130 | a family-0 word decodes by its low byte alone, and a family-5 or -9 word decodes as if its low nibble were 0 |
| Isa.DecodeFFFF | src/chip_8.rs:144-155 | `FFFF` matches no F-family pattern and is an unknown word |
| Isa.DecodeCpu | src/cpu.rs:77-116 | the reduced engine decodes exactly as the full one on the instructions it implements, and every other word (families D, E and F, or no pattern) is unknown |
| CpuSemantics.WithFontSet | src/cpu.rs:68-70 | the 80 glyph bytes sit at `0x50..0xA0` and every other memory cell is unchanged |
| CpuSemantics.Reset | src/cpu.rs:39-52 | after construction `pc` = 0x200, `I` = 0, `sp` = 0, all registers are 0 and memory is zero except for the glyph set |
| CpuSemantics.LoadProgram | src/cpu.rs:62-66 | loading succeeds iff `0x200 + len <= 4096`; the image lands at `0x200`, every other cell is unchanged, and an oversized image is a fault |
| CpuSemantics.SetReg | src/cpu.rs:159-163 | writing a register changes that register and nothing else |
| CpuSemantics.Return | src/chip_8.rs:163-166 | `00EE` faults iff the stack is empty; otherwise it pops the top slot into `pc` and decrements `sp` |
| CpuSemantics.CallSubroutine | src/chip_8.rs:173-178 | `2nnn` faults iff all 16 slots are in use; otherwise it stores the post-fetch `pc` at slot `sp`, increments `sp`, jumps to `nnn`, and leaves the other slots, I, the registers and memory alone |
| CpuSemantics.SkipIf | src/chip_8.rs:180-200 | a skip moves `pc` 2 further exactly when its condition holds and changes nothing else |
| CpuSemantics.AddRegs | src/chip_8.rs:230-240 | `8xy4`: VF*256 + Vx equals the old Vx + Vy, so VF = 1 iff the sum exceeds 255 and Vx is the sum mod 256; for x = F the low byte of the sum wins; no other register changes |
| CpuSemantics.SubRegs | src/chip_8.rs:242-250 | `8xy5`: VF = 1 iff Vx > Vy (strictly), Vx = Vx - Vy mod 256, and no other register changes |
| CpuSemantics.SubnRegs | src/chip_8.rs:257-265 | `8xy7`: VF = 1 iff Vy > Vx (strictly), Vx = Vy - Vx mod 256, and no other register changes |
| CpuSemantics.ShiftRight | src/chip_8.rs:252-255 | `8xy6`: old Vx = 2 * new Vx + VF, so VF is the old bit 0; no other register changes; for x = F the shift overwrites the flag and VF ends 0 |
| CpuSemantics.ShiftLeft | src/chip_8.rs:267-270 | `8xyE`: old Vx = 128 * VF + new Vx / 2 and new Vx is even, so VF is the old bit 7 and Vx is shifted left mod 256; for x = F VF ends as twice its old bit 7 |
| CpuSemantics.Exec | src/cpu.rs:77-116 | executing never writes memory, only a call or return can fault, and any instruction other than a jump, call, return or skip changes at most I and the registers |
| CpuSemantics.ExecFlow | src/cpu.rs:120-243 | handlers at lines 120-157, 229-233 and 240-243: returns, jumps, calls and skips change only `pc`, `sp` and the stack, and only `00EE` and `2nnn` fault |
| CpuSemantics.ExecLoad | src/cpu.rs:159-250 | handlers at lines 159-169, 235-238 and 245-250: `Annn` sets only I to nnn; `6xkk`, `7xkk` and `Cxkk` change only Vx |
| CpuSemantics.ExecLogic | src/cpu.rs:171-185 | `8xy0`..`8xy3` change only Vx |
| CpuSemantics.ExecFlags | src/cpu.rs:187-227 | `8xy4`..`8xyE` change only Vx and VF |
| CpuSemantics.Step | src/cpu.rs:54-60 | a cycle of the reduced engine faults on a fetch past memory and otherwise keeps the state well formed |
| CpuSemantics.StepAdvancesPc | src/cpu.rs:54-60 | after any instruction other than a jump, call, return or skip the cycle succeeds, `pc` is the old `pc` + 2, and the stack and memory are unchanged |
| CpuSemantics.StepNoOp | src/cpu.rs:114-118 | in the reduced engine `00E0`, families D to F and unknown words only advance `pc` by 2 |
| CpuSemantics.CallThenReturn | src/cpu.rs:120-135 | `2nnn` followed by the `00EE` at `nnn` returns to the word after the call with the original `sp`; only the stale stack slot records the call |
| CpuSemantics.StackBounds | src/cpu.rs:120-135 | a call with 16 slots in use is a stack overflow and a return with none is an underflow, so `sp` stays within `0..16` (every successful `Step` keeps the state well formed) |
| CpuSemantics.AddByteWraps | src/cpu.rs:165-169 | `7xkk` sets Vx to Vx + kk mod 256 and changes no other register, VF included |
| CpuSemantics.LogicalOps | src/cpu.rs:171-185 | `8xy0`..`8xy3` set Vx to Vy or, bit by bit, to Vx OR, AND, XOR Vy, and change only Vx |
| CpuSemantics.RandomMasked | src/cpu.rs:245-250 | `Cxkk` sets bit k of Vx iff bit k is set in both the random byte and kk, and changes only Vx |
| CpuSemantics.AddressOps | src/cpu.rs:235-243 | `Annn` sets I to nnn, `1nnn` sets `pc` to nnn and `Bnnn` sets `pc` to V0 + nnn; nothing else changes |
| Chip8Semantics.Blank | src/chip_8.rs:159-161 | the cleared display has every one of its 2048 cells off |
| Chip8Semantics.Reset | src/chip_8.rs:46-63 | the full engine starts from the reduced engine's reset, with both timers 0, no key down and the screen off |
| Chip8Semantics.LoadProgram | src/chip_8.rs:81-85 | loading succeeds iff the image fits above 0x200 and otherwise reports `ProgramTooLarge`; on success the processor state is exactly the reduced engine's `LoadProgram` (image at 0x200, all else unchanged) and timers, keypad and display are untouched |
| Chip8Semantics.Decay | src/chip_8.rs:72-78 | a timer above 0 drops by one and a zero timer stays 0 |
| Chip8Semantics.Tick | src/chip_8.rs:72-78 | the end of a cycle decrements each timer that is above 0, keeps a zero timer at 0, and changes nothing else |
| Chip8Semantics.CoversPixel | src/chip_8.rs:303-316 | the on-screen cell `(x0 + col, y0 + row)` is covered exactly when pixel `col` (most significant bit first) of sprite row `row` is set |
| Chip8Semantics.DrawSprite | src/chip_8.rs:303-318 | each display cell is toggled exactly when the sprite covers it |
| Chip8Semantics.Draw | src/chip_8.rs:295-320 | `Dxyn` faults iff a sprite row lies past memory; otherwise each cell is toggled exactly when the `n`-row sprite at I, placed at (Vx mod 64, Vy mod 32), covers it; only the display and VF change, VF is 0 or 1, and VF = 1 iff some lit cell went dark |
| Chip8Semantics.CollidesIffCleared | src/chip_8.rs:309-316 | the sprite covers a lit cell iff the XOR turns some lit cell off |
| Chip8Semantics.FirstPressed | src/chip_8.rs:342-351 | the scan finds no key iff none is down, and otherwise finds the lowest key that is down |
| Chip8Semantics.SkipKey | src/chip_8.rs:322-336 | `Ex9E`/`ExA1` fault iff Vx > 15; otherwise they skip exactly when key Vx is down (is up) and change only `pc` |
| Chip8Semantics.WaitKey | src/chip_8.rs:342-351 | `Fx0A` with no key down moves `pc` back by 2; otherwise it stores the lowest key that is down in Vx |
| Chip8Semantics.Digits | src/chip_8.rs:371-381 | the three digits are each below 10 and 100*d0 + 10*d1 + d2 is the byte |
| Chip8Semantics.StoreBcd | src/chip_8.rs:371-381 | `Fx33` faults iff `I + 2` is past memory; otherwise `ram[I..I+3]` holds the digits of Vx and no other cell changes |
| Chip8Semantics.StoreRegisters | src/chip_8.rs:383-387 | `Fx55` faults iff `I + x` is past memory; otherwise `ram[I + k]` = Vk for k <= x and no other cell changes |
| Chip8Semantics.LoadRegisters | src/chip_8.rs:389-393 | `Fx65` faults iff `I + x` is past memory; otherwise Vk = `ram[I + k]` for k <= x and no other register changes |
| Chip8Semantics.Exec | src/chip_8.rs:96-157 | executing never writes the keypad, only `00E0` and `Dxyn` change the display, and only `Fx15` and `Fx18` change the timers |
| Chip8Semantics.ExecScreenKeys | src/chip_8.rs:295-336 | `00E0`, `Dxyn`, `Ex9E` and `ExA1` change only the processor state and the display, leave memory and I alone, and the key skips leave the display alone |
| Chip8Semantics.ExecTimers | src/chip_8.rs:338-359 | `Fx07` sets only Vx, to the delay timer, and leaves both timers alone; `Fx15` and `Fx18` leave the processor state alone and set only the delay or the sound timer to Vx |
| Chip8Semantics.ExecKeyIndex | src/chip_8.rs:342-369 | `Fx0A`, `Fx1E` and `Fx29` leave memory, the stack and the timers alone, and `Fx1E`/`Fx29` change only I |
| Chip8Semantics.ExecMemory | src/chip_8.rs:371-393 | `Fx33`, `Fx55` and `Fx65` change only memory and registers, and fault exactly when the last address they touch is past memory |
| Chip8Semantics.Step | src/chip_8.rs:65-79 | a cycle faults on a fetch past memory; after a successful cycle each timer is the decayed value it had, or the decayed Vx when the instruction was `Fx15`/`Fx18` |
| Chip8Semantics.UnknownSkipped | src/chip_8.rs:65-79 | an unknown word only advances `pc` by 2 and decays the timers |
| Chip8Semantics.AgreesWithCpu | src/chip_8.rs:100-133 | on every instruction both engines implement, except `00E0`, a full-engine cycle is a reduced-engine cycle followed by the timer decay |
| Chip8Semantics.CallThenReturn | src/chip_8.rs:163-178 | `2nnn` followed by the `00EE` at `nnn` restores `pc` (past the call) and `sp`, with the timers decayed twice |
| Chip8Semantics.WaitKeyRepeats | src/chip_8.rs:342-351 | `Fx0A` with no key down leaves everything but the timers as it was, and the same instruction is fetched next |
| Chip8Semantics.WaitKeyTakesLowest | src/chip_8.rs:342-351 | `Fx0A` with key k the lowest one down sets Vx = k and leaves `pc` advanced |
| Chip8Semantics.DrawSpriteTwice | src/chip_8.rs:309-316 | toggling the same sprite cells twice restores the display |
| Chip8Semantics.DrawTwice | src/chip_8.rs:295-320 | drawing a sprite twice in place restores the display, and the second draw reports VF = 1 iff the sprite covers a cell that was off before the first |
| Chip8Semantics.DrawTwiceOnBlank | src/chip_8.rs:295-320 | on a dark screen a sprite draws with VF = 0, and drawing it again darkens the screen with VF = 1 |
| Chip8Semantics.DigitsOf157 | src/chip_8.rs:371-381 | the digits of 157 are 1, 5, 7 |
| Chip8Semantics.GlyphAddress | src/chip_8.rs:365-369 | with the glyphs loaded and Vx a hex digit, `Fx29` points I at `0x50 + 5*Vx`, whose 5 bytes are that digit's glyph |
| Chip8Semantics.StoreThenLoad | src/chip_8.rs:383-393 | `Fx55` then `Fx65` with the same x and I leave the registers as they were |
| Chip8Semantics.LoadThenStore | src/chip_8.rs:383-393 | `Fx65` then `Fx55` with the same x and I leave memory as it was |
| Cpu.Cpu.constructor | src/cpu.rs:39-52 | a new engine is in the reset state with fresh arrays |
| Cpu.Cpu.LoadFontSet | src/cpu.rs:68-70 | the memory array becomes the glyph-loaded memory of `WithFontSet`; nothing else changes |
| Cpu.Cpu.LoadProgram | src/cpu.rs:62-66 | the copy loop reports `LoadProgram`: the image in memory, or the fault with memory untouched |
| Cpu.Cpu.Fetch | src/cpu.rs:72-75 | returns the big-endian word at `pc` |
| Cpu.Cpu.Cycle | src/cpu.rs:54-60 | one call is exactly one `Step` of the pure reduced engine, fault included |
| Cpu.Cpu.Execute | src/cpu.rs:77-116 | the dispatch runs exactly `Exec` of the decoded instruction |
| Cpu.Cpu.ExecuteFlow | src/cpu.rs:120-243 | handlers at lines 120-157, 229-233 and 240-243: returns, jumps, calls and skips run as the pure `ExecFlow` |
| Cpu.Cpu.ExecuteLoad | src/cpu.rs:159-250 | handlers at lines 159-169, 235-238 and 245-250: `6xkk`, `7xkk`, `Annn` and `Cxkk` run as the pure `ExecLoad` |
| Cpu.Cpu.ExecuteLogic | src/cpu.rs:171-185 | `8xy0`..`8xy3` run as the pure `ExecLogic` |
| Cpu.Cpu.ExecuteFlags | src/cpu.rs:187-227 | `8xy4`..`8xyE` run as the pure `ExecFlags` |
| Cpu.Cpu.Op00EE | src/cpu.rs:120-123 | the new state is `Return` of the old, or the underflow fault with nothing changed |
| Cpu.Cpu.Op1nnn | src/cpu.rs:125-128 | only `pc` changes, to nnn |
| Cpu.Cpu.Op2nnn | src/cpu.rs:130-135 | the new state is `CallSubroutine` of the old, or the overflow fault with nothing changed |
| Cpu.Cpu.Op3xkk | src/cpu.rs:137-143 | skips iff Vx = kk |
| Cpu.Cpu.Op4xkk | src/cpu.rs:145-151 | skips iff Vx != kk |
| Cpu.Cpu.Op5xy0 | src/cpu.rs:153-157 | skips iff Vx = Vy |
| Cpu.Cpu.Op6xkk | src/cpu.rs:159-163 | only Vx changes, to kk |
| Cpu.Cpu.Op7xkk | src/cpu.rs:165-169 | only Vx changes, to Vx + kk mod 256 |
| Cpu.Cpu.Op8xy0 | src/cpu.rs:171-173 | only Vx changes, to Vy |
| Cpu.Cpu.Op8xy1 | src/cpu.rs:175-177 | only Vx changes, to Vx OR Vy |
| Cpu.Cpu.Op8xy2 | src/cpu.rs:179-181 | only Vx changes, to Vx AND Vy |
| Cpu.Cpu.Op8xy3 | src/cpu.rs:183-185 | only Vx changes, to Vx XOR Vy |
| Cpu.Cpu.Op8xy4 | src/cpu.rs:187-197 | the registers become those of `AddRegs` |
| Cpu.Cpu.Op8xy5 | src/cpu.rs:199-207 | the registers become those of `SubRegs` |
| Cpu.Cpu.Op8xy6 | src/cpu.rs:209-212 | the registers become those of `ShiftRight` |
| Cpu.Cpu.Op8xy7 | src/cpu.rs:214-222 | the registers become those of `SubnRegs` |
| Cpu.Cpu.Op8xyE | src/cpu.rs:224-227 | the registers become those of `ShiftLeft` |
| Cpu.Cpu.Op9xy0 | src/cpu.rs:229-233 | skips iff Vx != Vy |
| Cpu.Cpu.OpAnnn | src/cpu.rs:235-238 | only I changes, to nnn |
| Cpu.Cpu.OpBnnn | src/cpu.rs:240-243 | only `pc` changes, to V0 + nnn |
| Cpu.Cpu.OpCxkk | src/cpu.rs:245-250 | only Vx changes, to the random byte AND kk |
| Chip8.Chip8.constructor | src/chip_8.rs:46-63 | a new engine is in the full reset state, with fresh arrays |
| Chip8.Chip8.LoadProgram | src/chip_8.rs:81-85 | the copy loop reports the full engine's `LoadProgram` |
| Chip8.Chip8.Cycle | src/chip_8.rs:65-79 | one call is exactly one `Step` of the pure full engine: fetch, advance, execute, decay, or the fault with nothing changed |
| Chip8.Chip8.DecayTimers | src/chip_8.rs:72-78 | both timers decay and nothing else changes |
| Chip8.Chip8.Execute | src/chip_8.rs:96-157 | the dispatch runs exactly `Exec` of the decoded instruction |
| Chip8.Chip8.ExecuteCore | src/chip_8.rs:163-293 | the instructions shared with the reduced engine run through the embedded `Cpu` exactly as the pure full engine says |
| Chip8.Chip8.ExecuteScreenKeys | src/chip_8.rs:159-336 | `00E0`, `Dxyn`, `Ex9E` and `ExA1` run as `ExecScreenKeys` |
| Chip8.Chip8.ExecuteTimers | src/chip_8.rs:338-359 | `Fx07`, `Fx15` and `Fx18` run as `ExecTimers` |
| Chip8.Chip8.ExecuteKeyIndex | src/chip_8.rs:342-369 | `Fx0A`, `Fx1E` and `Fx29` run as `ExecKeyIndex` |
| Chip8.Chip8.ExecuteMemory | src/chip_8.rs:371-393 | `Fx33`, `Fx55` and `Fx65` run as `ExecMemory` |
| Chip8.Chip8.Op00E0 | src/chip_8.rs:159-161 | only the display changes, to all cells off |
| Chip8.Chip8.OpDxyn | src/chip_8.rs:295-320 | the row and column loops leave the display and VF exactly as `Draw` says, or report the fault with nothing changed |
| Chip8.Chip8.DrawRow | src/chip_8.rs:303-318 | one row of the loop toggles exactly the cells that row covers and keeps VF = 1 iff a lit covered cell has been seen; other registers are unchanged |
| Chip8.Chip8.OpEx9E | src/chip_8.rs:322-328 | reports `SkipKey` with the key down |
| Chip8.Chip8.OpExA1 | src/chip_8.rs:330-336 | reports `SkipKey` with the key up |
| Chip8.Chip8.OpFx07 | src/chip_8.rs:338-340 | only Vx changes, to the delay timer |
| Chip8.Chip8.OpFx0A | src/chip_8.rs:342-351 | the key scan loop gives exactly `WaitKey` |
| Chip8.Chip8.OpFx15 | src/chip_8.rs:353-355 | only the delay timer changes, to Vx |
| Chip8.Chip8.OpFx18 | src/chip_8.rs:357-359 | only the sound timer changes, to Vx |
| Chip8.Chip8.OpFx1E | src/chip_8.rs:361-363 | only I changes, to I + Vx mod 0x10000 |
| Chip8.Chip8.OpFx29 | src/chip_8.rs:365-369 | only I changes, to 0x50 + (5 * Vx mod 256), the byte product of the source |
| Chip8.Chip8.OpFx33 | src/chip_8.rs:371-381 | reports `StoreBcd` |
| Chip8.Chip8.OpFx55 | src/chip_8.rs:383-387 | the store loop reports `StoreRegisters` (V0..Vx inclusive) |
| Chip8.Chip8.OpFx65 | src/chip_8.rs:389-393 | the load loop reports `LoadRegisters` (V0..Vx inclusive) |
| AsWritten.FieldsAsWritten | src/chip_8.rs:97-100 | the family, `vx` and `vy` as the source parses them, `w & (0xF000 >> 12)` and so on; stated by `AsWritten.FieldsAsWrittenLowNibble` |
| AsWritten.DecodeAsWritten | src/chip_8.rs:96-157 | the dispatch as written, on the low nibble in place of the family and both registers; stated by `AsWritten.HandlersUnreachable` and `AsWritten.JumpMisread` |
| AsWritten.HandlersUnreachable | src/chip_8.rs:96-157 | as written, no word reaches `00EE`, `ExA1`, any `8xy_` or any `Fx__` handler, because an inner match only sees words whose low nibble is its own family; `3003` reaches `3xkk` on V3 and `DDDD` reaches `Dxyn` |
| AsWritten.SkipIfAsWritten | src/chip_8.rs:180-200 | a taken skip as written adds 2 to `sp`; stated by `AsWritten.SkipMovesStackPointer` |
| AsWritten.StoreRegistersAsWritten | src/chip_8.rs:383-387 | `Fx55` as written, over the exclusive range `0..vx`; stated by `AsWritten.TransfersSkipVx` and `AsWritten.EmptyTransfersAsWritten` |
| AsWritten.LoadRegistersAsWritten | src/chip_8.rs:389-393 | `Fx65` as written, over the exclusive range `0..vx`; stated by `AsWritten.TransfersSkipVx` and `AsWritten.EmptyTransfersAsWritten` |
| AsWritten.DrawAsWritten | src/chip_8.rs:295-320 | `Dxyn` as written, which toggles a copy of each cell and reads the cell at the unclipped index; stated by `AsWritten.DrawLeavesScreenDark` |
| AsWritten.AddRegsAsWritten | src/chip_8.rs:230-240 | `8xy4` as written, with a `u8` sum; stated by `AsWritten.CarryLost` |
| AsWritten.FieldsAsWrittenLowNibble | src/chip_8.rs:97-100 | with Rust's precedence, `w & 0xF000 >> 12`, `w & 0x0F00 >> 8` and `w & 0x00F0 >> 4` all give the low nibble of `w` |
| AsWritten.JumpMisread | src/chip_8.rs:97-108 | a `1nnn` word, which the intended decode makes a jump, is dispatched by the as-written family expression on its low nibble instead |
| AsWritten.SkipMovesStackPointer | src/chip_8.rs:180-186 | the as-written skip leaves `pc` alone and adds 2 to `sp`, which breaks the stack bound from `sp` = 15 and, with the decode of row 1 of "## Findings" corrected, lets a `00EE` on an empty stack pop |
| AsWritten.TransfersSkipVx | src/chip_8.rs:383-393 | the as-written `Fx55`/`Fx65` never transfer Vx itself, while the corrected ones do |
| AsWritten.EmptyTransfersAsWritten | src/chip_8.rs:383-393 | as written, `F055` and `F065` run an empty loop and change nothing for every I, even past memory, where the corrected ones fault |
| AsWritten.DrawLeavesScreenDark | src/chip_8.rs:295-320 | the as-written `Dxyn` leaves a dark display dark and reports no collision, while the corrected `Draw` lights the sprite's first pixel |
| AsWritten.CarryLost | src/chip_8.rs:230-240 | the as-written `8xy4` never sets VF, while the corrected one sets VF = 1 on every carry |

## Left out

- src/io.rs, src/io_interface.rs and src/platform.rs are not part of this model. They hold the browser keydown wiring, console logging and host-side display and keypad buffers.
- The random source (`rand::thread_rng`) is a foreign call. `Cxkk` takes the random byte as the parameter `rnd`. The source draws a `u16` and keeps its low byte after the mask, which is the same value.
- The `println!` for an unimplemented opcode is output only. An unknown word is a no-op apart from the `pc` advance.
- The pacing of `cycle` calls by the host and the real-time rate of the timers are not modelled. One `Cycle` decays each timer once.
- The placeholder field initialisers of `new()` do not compile. The model resets to `pc` = 0x200 with everything else zero and the glyphs loaded.
- The display holds `u32` cells that are either 0 or 0xFFFFFFFF. The model holds a `bool` per cell. The keypad holds `u8` flags; the model holds a `bool` per key.
- Chip8Semantics.Draw clips sprite pixels past the right and bottom edges. The source indexes the cell `(y + row) * 64 + (x + col)`: a pixel past the right edge lands at the start of the next row down, and only an index past the last row panics. The model does not reproduce that wrap into the next row or that panic. The as-written `AsWritten.DrawAsWritten` does read the wrapped cell and faults past the last row.
- Cpu.Cpu.Cycle and Chip8.Chip8.Cycle fault on a fetch at `pc` >= 4095. The source would read out of range there. They also fault where the source would panic on a stack, memory or key index out of range. A faulting cycle is rolled back rather than leaving a half-updated machine.
- CpuSemantics.AddByteWraps, CpuSemantics.AddRegs, CpuSemantics.SubRegs, CpuSemantics.SubnRegs and Chip8Semantics.ExecKeyIndex wrap as a release build does: the `u8` sums of `7xkk` (src/cpu.rs:168) and `8xy4`, the `u8` differences of `8xy5` and `8xy7` (src/cpu.rs:206, 221) and the `u16` sum of `Fx1E` (src/chip_8.rs:362). A debug build panics on each of these overflows; the model does not reproduce those panics.
- Chip8Semantics.ExecKeyIndex and Chip8.Chip8.OpFx29 take the `u8` product `5 * Vx` modulo 256, as a release build does, so Vx = 52 gives I = 0x54. A debug build panics on that overflow for Vx >= 52; the model does not reproduce the panic.
- CpuSemantics.LoadProgram rejects an oversized image with a fault. The source would write past the end of memory and panic part-way through.
- Isa.Fetch reads the big-endian word `ram[pc] * 256 + ram[pc+1]`. The source shifts a `u8` left by 8 before widening it, which does not compile as Rust.
- CpuSemantics.SubRegs and CpuSemantics.SubnRegs state Vx as a difference only when neither x nor y is F. With x or y = F the result follows from the flag being written first, which the function computes but the contract does not spell out.
- Every handler of the shared instruction set is modelled once, on `Cpu.Cpu`. `Chip8.Chip8` runs those handlers on its embedded `Cpu` rather than repeating them.

## Findings

| source | as written | input that shows it | evidently intended | confidence | as-written member | corrected member |
|---|---|---|---|---|---|---|
| src/chip_8.rs:97-100, src/cpu.rs:78-81 | `opcode & 0xF000 >> 12` parses as `opcode & 0xF`, and likewise for x and y, so all three fields are the low nibble. An inner match then only sees words whose low nibble is its own family, so the `00EE`, `ExA1`, `8xy_` and `Fx__` handlers are never reached | `1234`: the family expression gives 4, so the word runs as `4xkk` on V4 instead of jumping to 0x234. No word at all reaches `00EE` (`AsWritten.HandlersUnreachable`) | mask first, then shift | not executed | AsWritten.JumpMisread | Isa.DecodeEncode |
| src/chip_8.rs:180-200, 272-276; src/cpu.rs:137-157, 229-233 | the four skips add 2 to `sp` instead of `pc` | `3003` with V3 = 3 and `sp` = 0, which reaches `3xkk` on V3 even as written: nothing is skipped and `sp` becomes 2 | add 2 to `pc` | not executed | AsWritten.SkipMovesStackPointer | CpuSemantics.SkipIf |
| src/chip_8.rs:383-393 | `Fx55`/`Fx65` loop over `0..vx`, which excludes Vx | with row 1 corrected, since as written no word reaches these handlers: `F055` stores nothing, and `F255` stores V0 and V1 but not V2 | V0..Vx inclusive | not executed | AsWritten.TransfersSkipVx | Chip8Semantics.StoreThenLoad |
| src/chip_8.rs:295-320 | `Dxyn` toggles a local copy of each cell, so the display never changes | `DDDD`, which reaches `Dxyn` even as written (x = y = 0xD, 13 rows), with VD = 0 and I at the glyph for 0 on a dark screen: the screen stays dark | XOR the sprite into the display | not executed | AsWritten.DrawLeavesScreenDark | Chip8Semantics.DrawTwice |
| src/chip_8.rs:230-240, src/cpu.rs:187-197 | the sum is a `u8`, so `sum > 255` never holds and VF is always 0 | with row 1 corrected, since as written no word reaches `8xy4`: `8014` with V0 = 0xFF and V1 = 0x01 gives VF = 0 | widen before adding, so VF is the carry | not executed | AsWritten.CarryLost | CpuSemantics.AddRegs |
