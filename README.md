# CHIP-8 emulator core in Dafny

A model of `Emu` from `chip8_core/src/lib.rs`. `Emu` is the interpreter core of a CHIP-8 emulator. Its state is:

- 4 KiB of memory, with the hex font in the first 80 bytes;
- a 64×32 monochrome screen;
- sixteen 8-bit registers V0..VF, where VF doubles as the flag register;
- the 16-bit index register I;
- a 16-entry call stack with its pointer;
- the state of the 16 keys;
- the delay and sound timers.

A frontend drives the core:

- it calls `tick` to run one fetch–decode–execute cycle;
- it calls `tick_timers` at 60 Hz;
- it feeds key events through `keypress`;
- it loads a program at 0x200 with `load`;
- it reads the screen with `get_display`.

The project has two layers.

- **Value layer.**
  - `Machine.State` (machine.dfy) holds the emulator's fields as a value.
  - `Machine.Exec` gives the effect of every decoded instruction on that value. It dispatches to seven family functions, one per group of instructions.
  - `Machine.Step` is fetch, then decode, then execute.
  - `Opcode.Decode` (opcode.dfy) maps an opcode word to one of 35 instructions. It returns `None` for the words the source's `match` reports as unimplemented.
  - Bytes (bytes.dfy) holds the machine integers `u8`, `u16` and the byte and nibble helpers. Rust's `overflowing_add`, `overflowing_sub` and `wrapping_add` are written out explicitly.
- **Imperative layer.**
  - `Emulator.Emu` (emu.dfy) is a class with the struct's fields. The fixed-size Rust arrays are Dafny arrays, updated in place.
  - Every method is proved against the value layer: `Abstract() == Machine.X(old(Abstract()))`.
  - The DXYN sprite loop, the FX0A key scan and the FX55/FX65 copies are loops with their invariants.
- **Properties.** properties.dfy proves what the instruction set promises about the value layer:
  - skips, carries and borrows, shifts;
  - call/return;
  - sprite toggling and the collision flag;
  - the blocking key wait;
  - BCD, and register save and restore;
  - the timers;
  - a two-instruction program run end to end.

Rust panics (an index out of range, a `u16` overflow in a debug build, `pop` on an empty stack) become preconditions:

- `Machine.Safe` states them per instruction;
- `Machine.CanStep` states them for a whole cycle.

`unimplemented!` on an unknown opcode becomes the result `Unimplemented(op)`. Under it, pc has already advanced and nothing else has changed.

## Model

| member | source | states |
|---|---|---|
| Bytes.Word | chip8_core/src/lib.rs:92-94 | the big-endian word built from two bytes splits back into exactly those bytes |
| Bytes.Nibbles | chip8_core/src/lib.rs:101-104 | the four extracted digits recombine to the opcode, and are the halves of its high and low bytes |
| Bytes.NibblesOf | chip8_core/src/lib.rs:101-104 | a word assembled from four nibbles splits into those nibbles |
| Bytes.Low12 | chip8_core/src/lib.rs:115 | `op & 0xFFF` is the opcode minus its top nibble times 0x1000 |
| Bytes.OverflowingAdd | chip8_core/src/lib.rs:188 | the carry is set iff the sum exceeds 255, and wrapped value plus 256·carry equals the true sum |
| Bytes.OverflowingSub | chip8_core/src/lib.rs:199 | the borrow is set iff a < b, and the wrapped value equals a − b plus 256·borrow |
| Bytes.WrappingAdd | chip8_core/src/lib.rs:157 | the result is the sum modulo 256 |
| Bytes.WrappingAdd16 | chip8_core/src/lib.rs:342 | the result is the sum modulo 65536 |
| Bytes.BitOr | chip8_core/src/lib.rs:169 | the bitwise or of two bytes; no contract of its own: `Bytes.BitwiseBits` states that bit i of the result is the or of bit i of the operands |
| Bytes.BitAnd | chip8_core/src/lib.rs:175 | the bitwise and of two bytes; no contract of its own: `Bytes.BitwiseBits` states that bit i of the result is the and of bit i of the operands |
| Bytes.BitXor | chip8_core/src/lib.rs:181 | the bitwise xor of two bytes; no contract of its own: `Bytes.BitwiseBits` states that bit i of the result is the xor of bit i of the operands |
| Bytes.SpriteBit | chip8_core/src/lib.rs:276 | the sprite-row bit test; no contract of its own: `Bytes.SpriteBitMsbFirst` states which bit it tests |
| Bytes.SpriteBitMsbFirst | chip8_core/src/lib.rs:274-277 | column col of a sprite row is bit 7 − col of the byte, so the leftmost pixel is the most significant bit |
| Bytes.BitOrIdempotent | chip8_core/src/lib.rs:169 | or-ing the same byte in twice equals doing it once |
| Bytes.BitAndIdempotent | chip8_core/src/lib.rs:175 | masking twice with the same byte equals masking once |
| Bytes.BitXorCancels | chip8_core/src/lib.rs:181 | xor-ing the same byte twice restores the original |
| Bytes.BitSelf | chip8_core/src/lib.rs:165-176 | a byte or-ed or and-ed with itself is unchanged |
| Bytes.BitwiseBits | chip8_core/src/lib.rs:165-182 | the bitwise or, and and xor on bytes act bit by bit: bit i of the result is the or, and, or xor of bit i of the operands |
| Bytes.BitAndMasks | chip8_core/src/lib.rs:255 | mask 0 clears a byte, mask 0xFF keeps it |
| Opcode.Decode | chip8_core/src/lib.rs:100-381 | the nibble dispatch of `execute`, with `None` for the catch-all at line 381; no contract of its own: `Opcode.DecodeEncode` and `Opcode.EncodeDecode` state that it inverts `Opcode.Encode` on the 35 instruction patterns |
| Opcode.DecodeEncode | chip8_core/src/lib.rs:106-380 | every instruction's encoding decodes back to that instruction |
| Opcode.EncodeDecode | chip8_core/src/lib.rs:106-381 | every opcode that some arm of the match accepts is the encoding of the instruction it decodes to, so decoding loses no bits |
| Machine.Initial | chip8_core/src/lib.rs:47-64 | pc = 0x200, font in memory 0..79, all other memory, registers, stack, screen, keys and timers zero |
| Machine.Load | chip8_core/src/lib.rs:421-426 | the program bytes sit at 0x200 onwards; every other cell and every other field is unchanged |
| Machine.Keypress | chip8_core/src/lib.rs:416-418 | its contract states well-formedness only; `Properties.KeypressSetsOneKey` states that only key idx changes |
| Machine.Advance | chip8_core/src/lib.rs:95 | no contract of its own; `Properties.FetchIsBigEndian` states that fetch moves pc by 2 and changes nothing else |
| Machine.OpcodeAt | chip8_core/src/lib.rs:91-94 | the fetched word's high byte is ram[pc] and its low byte ram[pc+1] |
| Machine.Push | chip8_core/src/lib.rs:399-402 | its contract states well-formedness only; `Properties.PopAfterPush` states that push touches only slot sp and that pop undoes it |
| Machine.Pop | chip8_core/src/lib.rs:404-407 | its contract states well-formedness only; `Properties.PopAfterPush` states that it returns what push stored and restores sp |
| Machine.TickTimers | chip8_core/src/lib.rs:385-396 | no contract of its own; `Properties.TimersAfterTicks` states that after k ticks each timer is max(v − k, 0) and nothing else changed |
| Machine.Countdown | chip8_core/src/lib.rs:386-395 | the saturating decrement of one timer; no contract of its own: `Properties.TimersAfterTicks` states that after k ticks a timer is max(v − k, 0) |
| Machine.StoredRegs | chip8_core/src/lib.rs:365-372 | the memory after FX55; no contract of its own: `Properties.StoreRegsCopies` states that I..I+X hold V0..VX and no other cell changes |
| Machine.LoadedRegs | chip8_core/src/lib.rs:373-380 | the registers after FX65; no contract of its own: `Properties.LoadRegsCopies` states that V0..VX hold I..I+X and the registers above X are unchanged |
| Machine.FirstPressed | chip8_core/src/lib.rs:318-325 | returns the lowest pressed key index, and returns nothing iff no key is pressed |
| Machine.Bcd | chip8_core/src/lib.rs:354-359 | three decimal digits, each below 10, with 100·h + 10·t + o = VX |
| Machine.PixelIndex | chip8_core/src/lib.rs:280-283 | the wrapped screen index of sprite cell (row, col); no contract of its own: `Machine.PixelIndexInverse` and `Machine.PixelIndexCovers` state that it is in range and one-to-one on a sprite's cells and that every pixel is reached |
| Machine.PixelIndexInverse | chip8_core/src/lib.rs:280-283 | the wrapped screen index of a sprite cell is in range and determines the cell: no two cells of a sprite land on the same pixel |
| Machine.PixelIndexCovers | chip8_core/src/lib.rs:280-283 | every screen index is the landing place of the cell RowOf/ColOf name |
| Machine.DrawSprite | chip8_core/src/lib.rs:257-293 | the closed form of DXYN; its contract states well-formedness only; `Properties.DrawTogglesSpriteCells`, `DrawLeavesOtherPixels`, `DrawCollisionFlag` and `DrawFrame` state its effect |
| Machine.DrawCell | chip8_core/src/lib.rs:274-286 | one cell of the sprite toggles exactly its own pixel iff its sprite bit is set, and the collision flag grows by "that pixel was lit" |
| Machine.DrawRowDone | chip8_core/src/lib.rs:269-274 | finishing column 8 of a row is starting column 0 of the next |
| Machine.DrawEnds | chip8_core/src/lib.rs:267-292 | before the loops the screen is untouched and no collision is recorded; after all n rows screen and flag are those of the whole sprite |
| Machine.Safe | chip8_core/src/lib.rs:100-380 | predicate, no contract: the conditions under which an arm does not panic (stack over- or underflow, an index past memory or the keypad, pc leaving `u16`) |
| Machine.CanStep | chip8_core/src/lib.rs:82-98 | predicate, no contract: a whole cycle does not panic, i.e. pc and pc + 1 are in memory and the decoded instruction is `Safe` on the state after fetch |
| Machine.ExecFlow | chip8_core/src/lib.rs:107-122 | 0000 to 2NNN (and BNNN); its contract states well-formedness only; `Properties.FlowEffects` states each effect with the rest of the state pinned |
| Machine.ExecCompareSkip | chip8_core/src/lib.rs:123-146 | 3XNN, 4XNN, 5XY0 (and 9XY0); its contract states well-formedness only; `Properties.SkipAdvancesPc` states the effect |
| Machine.ExecRegLoad | chip8_core/src/lib.rs:147-182 | 6XNN to 8XY3 (and CXNN); its contract states well-formedness only; `Properties.LoadsCopyIntoVx`, `AddImmWrapsWithoutFlag`, `BitwiseSetsBits` and `RandomMasked` state the effects |
| Machine.ExecArith | chip8_core/src/lib.rs:183-229 | 8XY4 to 8XYE; its contract states well-formedness only; `Properties.AddRegCarry`, `SubRegBorrow`, `ShiftRightKeepsBits`, `SubRevIgnoresOperands` and `ShiftLeftKeepsBits` state the effects |
| Machine.ExecKeyOp | chip8_core/src/lib.rs:294-330 | EX9E, EXA1 and FX0A; its contract states well-formedness only; `Properties.SkipAdvancesPc`, `WaitKeyIdle` and `WaitKeyTakesLowest` state the effects |
| Machine.ExecIndexTimer | chip8_core/src/lib.rs:310-348 | FX07 to FX29 (and ANNN); its contract states well-formedness only; `Properties.LoadsCopyIntoVx`, `TimerWrites`, `IndexWrites` and `FontCharSetsIndex` state the effects |
| Machine.ExecMemory | chip8_core/src/lib.rs:349-380 | FX33, FX55, FX65 (and DXYN); its contract states well-formedness only; `Properties.StoreBcdDigits`, `StoreRegsCopies`, `LoadRegsCopies` and the draw lemmas state the effects |
| Machine.Step | chip8_core/src/lib.rs:82-88 | one cycle, fetch then decode then execute; no contract of its own; `Emulator.Emu.Tick` is proved equal to it, and `Properties.RunLoadThenAdd` and the skip and key-wait lemmas state whole cycles |
| Machine.Exec | chip8_core/src/lib.rs:100-380 | every instruction keeps the array sizes and keeps sp within the stack |
| Emulator.Emu.constructor | chip8_core/src/lib.rs:47-64 | the new emulator's state is `Machine.Initial()` |
| Emulator.Emu.Reset | chip8_core/src/lib.rs:67-79 | after reset the state is `Machine.Initial()` again |
| Emulator.Emu.Tick | chip8_core/src/lib.rs:82-88 | one cycle moves the state to `Machine.Step`, or reports the unknown opcode with pc advanced |
| Emulator.Emu.Fetch | chip8_core/src/lib.rs:91-98 | returns `OpcodeAt` of the old state and advances pc by 2 |
| Emulator.Emu.Execute | chip8_core/src/lib.rs:100-382 | a decodable opcode moves the state to `Machine.Exec`; otherwise it reports Unimplemented and changes nothing |
| Emulator.Emu.ExecuteInstr | chip8_core/src/lib.rs:106-380 | the arm of the match for the instruction moves the state to `Machine.Exec` |
| Emulator.Emu.ExecuteFlow | chip8_core/src/lib.rs:107-122 | 0000, 00E0, 00EE, 1NNN and 2NNN (and BNNN, lines 244-248) move the state to `Machine.ExecFlow` |
| Emulator.Emu.ExecuteCompareSkip | chip8_core/src/lib.rs:123-146 | 3XNN, 4XNN and 5XY0 (and 9XY0, lines 230-238) move the state to `Machine.ExecCompareSkip` |
| Emulator.Emu.ExecuteLoads | chip8_core/src/lib.rs:147-182 | 6XNN, 7XNN and 8XY0 to 8XY3 (and CXNN, lines 249-256) move the state to `Machine.ExecRegLoad` |
| Emulator.Emu.ExecuteArith | chip8_core/src/lib.rs:183-229 | 8XY4 to 8XY7 and 8XYE move the state to `Machine.ExecArith`, VF written after VX |
| Emulator.Emu.ExecuteKeys | chip8_core/src/lib.rs:294-330 | EX9E, EXA1 and FX0A move the state to `Machine.ExecKeyOp` |
| Emulator.Emu.ExecuteTimers | chip8_core/src/lib.rs:310-348 | FX07, FX15, FX18, FX1E and FX29 (and ANNN, lines 239-243) move the state to `Machine.ExecIndexTimer` |
| Emulator.Emu.ExecuteMemory | chip8_core/src/lib.rs:349-380 | FX33, FX55 and FX65 (and DXYN, lines 257-293) move the state to `Machine.ExecMemory` |
| Emulator.Emu.DrawSprite | chip8_core/src/lib.rs:257-293 | the nested row/column loop toggles exactly the hit pixels and sets VF iff a lit pixel was hit, as `Machine.DrawSprite` |
| Emulator.Emu.DrawRow | chip8_core/src/lib.rs:269-288 | one pass of the row loop: the inner column loop takes the screen and the collision flag from "rows before `row` drawn" to "rows up to `row` drawn" |
| Emulator.Emu.WaitForKey | chip8_core/src/lib.rs:314-330 | the key scan stores the first pressed key, or rewinds pc by 2 when none is pressed |
| Emulator.Emu.StoreRegisters | chip8_core/src/lib.rs:365-372 | the copy loop stores V0..VX at I..I+X |
| Emulator.Emu.LoadRegisters | chip8_core/src/lib.rs:373-380 | the copy loop loads V0..VX from I..I+X |
| Emulator.Emu.TickTimers | chip8_core/src/lib.rs:385-396 | both timers count down by one unless already zero |
| Emulator.Emu.Push | chip8_core/src/lib.rs:399-402 | stores the value at sp and increments sp |
| Emulator.Emu.Pop | chip8_core/src/lib.rs:404-407 | decrements sp and returns the value there |
| Emulator.Emu.GetDisplay | chip8_core/src/lib.rs:411-413 | the 2048 pixels, in the screen's order |
| Emulator.Emu.Keypress | chip8_core/src/lib.rs:416-418 | records the key state as `Machine.Keypress` |
| Emulator.Emu.Load | chip8_core/src/lib.rs:421-426 | copies the program to 0x200 as `Machine.Load` |
| Properties.FetchIsBigEndian | chip8_core/src/lib.rs:91-98 | the opcode is ram[pc]·256 + ram[pc+1]; fetch moves pc by 2 and changes nothing else |
| Properties.SkipAdvancesPc | chip8_core/src/lib.rs:123-146 | each of 3XNN, 4XNN, 5XY0, 9XY0, EX9E, EXA1 ends with pc + 4 when its condition holds and pc + 2 otherwise, nothing else changed |
| Properties.AddImmWrapsWithoutFlag | chip8_core/src/lib.rs:153-158 | 7XNN adds modulo 256 and leaves every other register, VF included, unchanged |
| Properties.AddRegCarry | chip8_core/src/lib.rs:183-193 | VF = 1 iff VX + VY > 255, VX is the sum mod 256 unless X is F, the flag wins when X is F |
| Properties.SubRegBorrow | chip8_core/src/lib.rs:194-204 | VF = 0 iff VX < VY, VX is the difference mod 256 unless X is F |
| Properties.ShiftRightKeepsBits | chip8_core/src/lib.rs:205-211 | VF is the old low bit; 2·VX + VF equals the old VX |
| Properties.ShiftLeftKeepsBits | chip8_core/src/lib.rs:223-229 | VF is the old top bit; 256·VF + VX equals twice the old VX |
| Properties.BitwiseSetsBits | chip8_core/src/lib.rs:165-182 | after 8XY1, 8XY2 or 8XY3 each bit of VX is the or, and, or xor of the same bits of the old VX and VY; every other register is unchanged |
| Properties.LoadsCopyIntoVx | chip8_core/src/lib.rs:147-164 | 6XNN puts NN in VX, 8XY0 copies VY (and FX07, lines 310-313, copies the delay timer); every other register is unchanged |
| Properties.OrIdempotent | chip8_core/src/lib.rs:165-170 | running 8XY1 again changes nothing |
| Properties.AndIdempotent | chip8_core/src/lib.rs:171-176 | running 8XY2 again changes nothing |
| Properties.XorTwiceRestores | chip8_core/src/lib.rs:177-182 | running 8XY3 twice with X ≠ Y restores the state |
| Properties.RandomMasked | chip8_core/src/lib.rs:249-256 | VX becomes rnd & NN: each of its bits is set iff that bit is set in both the random byte and NN; NN = 0 gives 0, NN = 0xFF gives the random byte; every other register is unchanged |
| Properties.SubRevIgnoresOperands | chip8_core/src/lib.rs:212-222 | as written, 8XY7 sets VX to 0 unless X is F, and VF to 1, for every VX and VY, and leaves every other register unchanged |
| Properties.SubRevIntended | chip8_core/src/lib.rs:222 | VY − VX mod 256 with VF = 0 if VY < VX and 1 otherwise, the result the comment on the arm describes |
| Properties.SubRevDiffersFromIntended | chip8_core/src/lib.rs:217 | with V0 = 1, V1 = 3, 8017 leaves V0 = 0 where 2 is intended |
| Properties.FlowEffects | chip8_core/src/lib.rs:107-122 | 0000 changes nothing, 00E0 blanks the screen, 1NNN sets pc to NNN, 2NNN pushes pc and sets it to NNN, 00EE sets pc to the top of the stack and drops it (and BNNN, lines 244-248, sets pc to V0 + NNN); nothing else changes |
| Properties.IndexWrites | chip8_core/src/lib.rs:339-343 | FX1E adds VX to I modulo 65536 (and ANNN, lines 239-243, sets I to NNN); nothing else changes |
| Properties.TimerWrites | chip8_core/src/lib.rs:331-338 | FX15 and FX18 set the delay and the sound timer to VX; nothing else changes |
| Properties.PopAfterPush | chip8_core/src/lib.rs:399-407 | pop returns what push stored and restores sp; push touches only slot sp |
| Properties.CallThenReturn | chip8_core/src/lib.rs:109-122 | 2NNN jumps to NNN; a following 00EE returns to the instruction after the call with sp restored |
| Properties.DrawTogglesSpriteCells | chip8_core/src/lib.rs:274-287 | every set sprite bit inverts the pixel it lands on, with wrap-around |
| Properties.DrawLeavesOtherPixels | chip8_core/src/lib.rs:274-287 | a pixel no set bit lands on is unchanged |
| Properties.DrawCollisionFlag | chip8_core/src/lib.rs:267-292 | VF is 0 or 1, and 1 iff some set bit landed on a pixel that was on |
| Properties.DrawFrame | chip8_core/src/lib.rs:257-293 | DXYN changes only the screen and VF; pc, I, memory and V0..VE keep their values |
| Properties.CollisionHasCell | chip8_core/src/lib.rs:283-284 | a collision comes from a set sprite bit whose pixel was lit |
| Properties.CellCollides | chip8_core/src/lib.rs:283-284 | a set sprite bit landing on a lit pixel is a collision |
| Properties.RedrawRestoresScreen | chip8_core/src/lib.rs:257-293 | drawing the same sprite twice at the same place restores the screen |
| Properties.DrawTwiceOnBlank | chip8_core/src/lib.rs:257-293 | on a blank screen the first draw reports no collision; the second reports one iff the first lit a pixel |
| Properties.KeypressSetsOneKey | chip8_core/src/lib.rs:416-418 | only key idx changes |
| Properties.WaitKeyIdle | chip8_core/src/lib.rs:314-330 | with no key down, a cycle on FX0A leaves the whole state as it was |
| Properties.WaitKeyTakesLowest | chip8_core/src/lib.rs:318-325 | with keys down, FX0A stores the lowest pressed index in VX and moves on |
| Properties.KeypressEndsWait | chip8_core/src/lib.rs:314-330 | a machine blocked on FX0A stores key k on the cycle after k is pressed |
| Properties.StoreBcdDigits | chip8_core/src/lib.rs:349-364 | memory at I, I+1, I+2 holds decimal digits of VX, and no other cell changes |
| Properties.StoreRegsCopies | chip8_core/src/lib.rs:365-372 | I..I+X receive V0..VX, and no other cell changes |
| Properties.LoadRegsCopies | chip8_core/src/lib.rs:373-380 | V0..VX receive I..I+X, and the registers above X are unchanged |
| Properties.LoadAfterStoreRegs | chip8_core/src/lib.rs:365-380 | FX65 right after FX55 with the same X changes nothing |
| Properties.SetThenGetDelay | chip8_core/src/lib.rs:310-334 | FX07 reads back what FX15 set |
| Properties.FontCharSetsIndex | chip8_core/src/lib.rs:344-348 | FX29 sets I to 5·VX for every VX, and nothing else changes |
| Properties.FontCharAddressesGlyph | chip8_core/src/lib.rs:344-348 | with the font in place, I points at the five glyph bytes of digit VX |
| Properties.TimersAfterTicks | chip8_core/src/lib.rs:385-396 | after k ticks each timer is max(v − k, 0) and nothing else changed |
| Properties.StepLoadsFive | chip8_core/src/lib.rs:147-152 | a cycle on 60 05 sets V0 to 5 and advances pc |
| Properties.StepAddsFive | chip8_core/src/lib.rs:153-158 | a cycle on 70 05 adds 5 to V0 and advances pc |
| Properties.RunLoadThenAdd | chip8_core/src/lib.rs:82-88 | two cycles over 60 05 70 05 leave V0 = 10 and pc four bytes on |
| Properties.LoadAndRunTwoInstructions | chip8_core/src/lib.rs:421-426 | a fresh emulator loaded with 60 05 70 05 reaches V0 = 10, pc = 0x204 after two ticks |

## 8XY7 as written

The 8XY7 arm (chip8_core/src/lib.rs:212-222) computes `overflowing_sub` of VY with itself. Its comment says it should compute VY − VX. As written, the arm always yields VX = 0 unless X is F, and VF = 1: for 8F?7 the same register receives 0 and then 1.

The model follows the code:

- `Machine.Exec` reproduces the self-subtraction.
- `Properties.SubRevIgnoresOperands` proves the constant outcome.
- `Properties.SubRevIntended` defines VY − VX with its borrow flag.
- `Properties.SubRevDiffersFromIntended` gives the input that separates the two: V0 = 1, V1 = 3.

## Left out

- `random()` is not modelled. CXNN takes its byte as the `rnd` parameter of `Tick`, `Execute` and `Machine.Exec`.
- FX33 computes its digits in `f32` in the source. The model uses integer division and remainder instead. For every `u8` value the float computation gives the same digits, because the divisions are exact where the quotient is whole. This equivalence is argued, not proved.
- The BEEP branch of `tick_timers` is empty in the source, so sound has no effect in the model.
- Panics are not modelled as behaviour. Instead, `Machine.Safe` and `Machine.CanStep` are preconditions that exclude the inputs that would make the source panic. Those inputs are:
  - an out-of-range index;
  - `pop` on an empty stack;
  - `push` on a full stack;
  - `pc -= 2` below 0;
  - `pc += 2` past `u16`.

  Release-build wrap-around of those `u16` operations is not modelled.
- `unimplemented!` becomes the result `Unimplemented(op)` rather than a panic.
- Emulator.Emu.GetDisplay returns the screen as a sequence value, not a borrowed slice.
- Machine.Exec: its own contract, and those of the family functions it dispatches to (`ExecFlow`, `ExecCompareSkip`, `ExecRegLoad`, `ExecArith`, `ExecKeyOp`, `ExecIndexTimer`, `ExecMemory`), state only that the state stays well-formed. What each instruction does is stated by the lemmas in `Properties`: every one of the 35 instructions has a lemma that gives its effect on its own and pins the rest of the state (DXYN's screen pixel by pixel with `DrawFrame` for the rest, the skips' through a whole cycle in `SkipAdvancesPc`).
- The desktop frontend (window, input mapping, timing loop) is outside the core and is not part of this model.
