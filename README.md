# CHIP-8 interpreter in Dafny

A model of the CHIP-8 interpreter in `chip8.cpp` and `chip8.h`, with proofs about it. The interpreter has 4096 bytes of RAM and sixteen 8-bit registers V0..VF. It also has a 16-bit program counter (PC), a 16-bit index register I, a 24-frame return stack, and delay and sound timers. There is a sixteen-key keyboard snapshot and a key-wait sub-state, set by FX0A. The 64 x 32 one-bit display lives in RAM at 0xF00. A private copy of it is used to decide whether a redraw is needed.

The project has two layers:

- **`Chip8Spec` (machine.dfy)** describes the interpreter as pure transitions on a `Machine` record:
  - one function per opcode group (`Handle0` .. `HandleF`);
  - the fetch;
  - `Cycle` and `Run`/`Step`;
  - `Tick`, `Load`, `NeedsRedraw` and `Draw`.

  Every fatal error (`OnError`) becomes an `Outcome` that carries the `Fault` and the machine as it was when the error was raised. For example, 00EE has already lowered the stack height when it finds a bad return address.
- **The `CHIP8` class (chip8.dfy, module `Chip8`)** is the interpreter object itself:
  - its fields are arrays and scalars, updated in place;
  - every method is proved to move the object's `State()` exactly as the matching `Chip8Spec` function moves the record;
  - the loops (Step's instruction loop, the DXYN row and column loops, the byte copies) carry their invariants;
  - `ROM` (rom.dfy) is the program image class.

`Display` (display.dfy) models the frame buffer as pixels. It defines the DXYN blit as the sequence of single-pixel XOR steps the interpreter performs, and proves what the whole blit does. `Chip8Types` (types.dfy) holds the widths, the constants, the instruction fields, the byte swap of the fetch and the glyph table. `Chip8Properties` (properties.dfy) holds the lemmas about the machine.

Widths:

- Registers, RAM bytes and timers are `bv8`, so 7XKK, 8XY4, 8XY5, 8XY7 and the shifts wrap exactly as `uint8_t` does.
- Opcodes are `bv16`.
- PC and I are integers below 0x10000. The one PC update that can exceed 0xFFFF unchecked (the EX9E/EXA1 skip) wraps modulo 0x10000 explicitly. 1NNN and 2NNN are unchecked too, but their targets stay in 0..0xFFF.

`rand()` is a parameter: `Step` takes a function from iteration number to byte, and CXKK in iteration `k` uses its value at `k`.

Two behaviours of the code worth noting:

- **Key delivery:** after a key press ends a key wait, the same Step iteration goes on to fetch and execute the next instruction (chip8.cpp:179-202).
- **Load signature:** `Load` takes a program type, as in chip8.cpp:154, not the one-argument form declared in chip8.h:27.

## Model

| member | source | states |
|---|---|---|
| Chip8Types.GlyphTableShape | chip8.cpp:14-126 | the glyph table has five rows for each of the sixteen digits and, placed at 0x10, ends below both load offsets |
| Chip8Types.BSwap | chip8.cpp:6-12 | the high byte of the result is the low byte of the input and the low byte of the result is the high byte of the input |
| Chip8Types.BSwapInvolution | chip8.cpp:6-12 | swapping twice gives back the value |
| Chip8Types.FetchByteOrder | chip8.cpp:329-332 | swapping a little-endian two-byte load gives the big-endian opcode, whose high byte is the byte at PC and whose low byte the byte at PC + 1 |
| Chip8Types.FieldsOfBytes | chip8.cpp:424-425 | the group, X, Y, N, KK and NNN fields are the nibbles, low byte and low twelve bits of the two opcode bytes |
| Display.StepPixel | chip8.cpp:668-673 | the pixel a blit step lands on, wrapped modulo 64 columns and 32 rows, is always inside the display |
| Display.StepAtInverse | chip8.cpp:668-673 | while the sprite is at most 32 rows high, each display pixel is reached by at most one blit step, and `StepAt` names that step |
| Display.ToggleBit | chip8.cpp:693 | XOR-ing a source bit into the destination byte flips exactly that bit when the source bit is set, and leaves every other bit unchanged |
| Display.BlitWritesOnlyDisplay | chip8.cpp:662-700 | a blit changes no byte below the frame buffer, wherever the sprite comes from |
| Display.BlitStepOnPixel | chip8.cpp:679-696 | one blit step XORs its source bit into the one pixel it lands on and leaves all other pixels alone |
| Display.BlitStepKeepsInvariant | chip8.cpp:679-696 | one more step keeps "each pixel is the old pixel XOR the sprite bit landed on it" and raises the flag exactly when its set source bit meets a set pixel |
| Display.CollisionStep | chip8.cpp:685-690 | the "some set sprite bit met a set pixel" condition grows one step at a time |
| Display.BlitEffect | chip8.cpp:662-700 | for a sprite below the frame buffer, after any number of steps: nothing outside the frame buffer has changed, every pixel is the old pixel XOR the sprite bit that landed on it, and the flag is set iff a set sprite bit met a set pixel |
| Display.BlitTwiceRestores | chip8.cpp:662-700 | drawing the same sprite twice at the same place restores RAM exactly; the second flag is set iff some set sprite bit landed on a pixel that was clear before the first draw |
| Display.BlitTwiceOverlapDoesNotRestore | chip8.cpp:662-700 | drawing byte 0xF00 = 0xFF as a one-row sprite at (0, 0) twice leaves that byte 0, so RAM is not restored |
| Display.ClearDisplay | chip8.cpp:356-364 | the 0xFF bytes of the frame buffer from 0xF00 on are zero; every other byte is unchanged |
| Chip8Spec.Patch | chip8.cpp:164 | the copied bytes are at their offsets and every byte outside the copied range is unchanged |
| Chip8Spec.Load | chip8.cpp:154-173 | loading succeeds iff the image size plus the offset (0x200 for CHIP8 programs, 0x600 otherwise) is below 4096; a refused load changes nothing |
| Chip8Spec.Fetch | chip8.cpp:321-338 | the fetch fails iff PC + 2 reaches 4096; otherwise the opcode's high byte is the byte at PC and its low byte is the byte at PC + 1 |
| Chip8Spec.FirstPressed | chip8.cpp:189-197 | the result is a pressed key with no pressed key below it, or 16 when no key is pressed |
| Rom.ROM.Load | chip8.cpp:131-136 | the image is accepted unconditionally and holds exactly the given bytes |
| Chip8.Copy | chip8.cpp:164-167 | after the copy, the array is the old contents with the data written from the offset on (memcpy / std::copy) |
| Chip8.BlitSprite | chip8.cpp:662-700 | the row loop of DXYN leaves RAM and the "flipped off" flag as the sequential blit of all 8 x N steps |
| Chip8.BlitRow | chip8.cpp:666-697 | the column loop advances the blit by the eight steps of one sprite row |
| Chip8.BlitPixel | chip8.cpp:668-696 | one column step reads the destination byte and source bit, raises the flag on a collision, and writes back the XOR-ed byte, as one blit step |
| Chip8.CHIP8.constructor | chip8.cpp:139-152 | the new interpreter is all zero with no key awaited |
| Chip8.CHIP8.Load | chip8.cpp:154-173 | RAM, PC and the result move exactly as in `Chip8Spec.Load`: image at the offset, glyphs at 0x10, PC at the offset, or nothing changed when the image is too big |
| Chip8.CHIP8.Step | chip8.cpp:175-217 | after `instructions` iterations, an early stop while a key is awaited, or the first fault, the object's state and fault are those of `Chip8Spec.Step` |
| Chip8.CHIP8.Iteration | chip8.cpp:179-215 | one loop iteration either stops Step with the outcome of the remaining run (key still awaited, or a fault), or leaves a state from which the remaining run gives the same outcome |
| Chip8.CHIP8.AnyKey | chip8.cpp:182 | the result is true iff some key of the snapshot is pressed |
| Chip8.CHIP8.TakeKey | chip8.cpp:189-197 | the awaited register gets the lowest pressed key and the wait ends, as `Chip8Spec.TakeKey` |
| Chip8.CHIP8.Cycle | chip8.cpp:201-215 | fetch, PC + 2 and dispatch, with the fault, as `Chip8Spec.Cycle` |
| Chip8.CHIP8.Execute | chip8.cpp:205-215 | the switch on the top nibble moves the state as `Chip8Spec.Dispatch` |
| Chip8.CHIP8.ReadInstruction | chip8.cpp:321-338 | it faults with "program counter left RAM", changing nothing, iff PC + 2 reaches 4096; otherwise it returns the big-endian opcode at PC and PC has advanced by two |
| Chip8.CHIP8.Tick | chip8.cpp:219-230 | both timers count down as in `Chip8Spec.Tick`; nothing else changes |
| Chip8.CHIP8.NeedsRedraw | chip8.cpp:266-273 | the result is true iff the frame bytes differ from the copy taken at the last draw |
| Chip8.CHIP8.Draw | chip8.cpp:275-281 | the display copy becomes the current frame bytes; nothing else changes |
| Chip8.CHIP8.SkipNext | chip8.cpp:430-434 | a skip moves PC by two, or faults with "branching outside of RAM" when PC + 2 reaches 4096 |
| Chip8.CHIP8.Handle0 | chip8.cpp:349-393 | 00E0 clears the frame buffer; 00EE pops the return address, faulting on an empty stack or a frame address outside RAM; others fault as unhandled, as `Chip8Spec.Handle0` |
| Chip8.CHIP8.Handle1 | chip8.cpp:395-402 | PC becomes NNN |
| Chip8.CHIP8.Handle2 | chip8.cpp:404-419 | the current PC is pushed and PC becomes NNN, or it faults with 24 frames in use |
| Chip8.CHIP8.Handle3 | chip8.cpp:421-436 | skips when VX == KK, as `Chip8Spec.Handle3` |
| Chip8.CHIP8.Handle4 | chip8.cpp:438-453 | skips when VX != KK, as `Chip8Spec.Handle4` |
| Chip8.CHIP8.Handle5 | chip8.cpp:455-485 | skips when VX == VY for 5XY0; faults as unhandled for the other low nibbles |
| Chip8.CHIP8.Handle6 | chip8.cpp:487-495 | VX becomes KK |
| Chip8.CHIP8.Handle7 | chip8.cpp:497-505 | VX becomes VX + KK modulo 256, VF untouched |
| Chip8.CHIP8.Handle8 | chip8.cpp:507-569 | the 8XYN ALU moves the state as `Chip8Spec.Handle8`, faults included |
| Chip8.CHIP8.Handle8Flags | chip8.cpp:524-568 | the flag-writing 8XY4/5/6/7/E and the undefined low nibbles move the state as `Chip8Spec.Handle8Flags` |
| Chip8.CHIP8.Handle9 | chip8.cpp:571-601 | skips when VX != VY for 9XY0; faults as unhandled for the other low nibbles |
| Chip8.CHIP8.HandleA | chip8.cpp:603-610 | I becomes NNN |
| Chip8.CHIP8.HandleB | chip8.cpp:612-624 | PC becomes V0 + NNN, or it faults when that passes 4096 |
| Chip8.CHIP8.HandleC | chip8.cpp:626-637 | VX becomes the random byte AND KK |
| Chip8.CHIP8.HandleD | chip8.cpp:639-704 | DXYN faults when I + N reaches 4096; otherwise it blits and sets VF as `Chip8Spec.HandleD` |
| Chip8.CHIP8.DrawSprite | chip8.cpp:662-703 | RAM is the blit of the N-row sprite at I at (VX, VY) and VF the "flipped off" flag, as `Chip8Spec.DrawSprite` |
| Chip8.CHIP8.HandleE | chip8.cpp:706-751 | EX9E/EXA1 skip on the key state of VX, fault for a key code of 16 or more, and fault as unhandled otherwise |
| Chip8.CHIP8.HandleF | chip8.cpp:753-854 | each FX.. sub-opcode, with its faults, moves the state as `Chip8Spec.HandleF` |
| Chip8.CHIP8.StoreBcd | chip8.cpp:814-826 | FX33 writes the three decimal digits at I, or faults when I + 3 passes 4096 |
| Chip8.CHIP8.StoreRegisters | chip8.cpp:829-837 | FX55 copies V0..VX to RAM from I on, or faults; the guard is the corrected one (see Findings) |
| Chip8.CHIP8.LoadRegisters | chip8.cpp:839-847 | FX65 loads V0..VX from RAM from I on, or faults; the guard is the corrected one (see Findings) |
| Chip8Properties.AddWithCarryExact | chip8.cpp:524-531 | the byte result plus 256 times the carry is the exact sum of VX and VY, and the carry is 0 or 1 |
| Chip8Properties.SubWithBorrowInverse | chip8.cpp:533-549 | adding the subtrahend back gives the minuend modulo 256, and VF is 1 exactly when no borrow was needed |
| Chip8Properties.SubWithBorrowExact | chip8.cpp:533-549 | the result plus the subtrahend is the minuend exactly without a borrow, and the minuend plus 256 with one |
| Chip8Properties.ShiftRightOutExact | chip8.cpp:552-556 | 8XY6 halves VX, and VF gets the old bit 0 |
| Chip8Properties.ShiftLeftOutExact | chip8.cpp:558-562 | 8XYE doubles VX modulo 256, and VF gets the old bit 7 |
| Chip8Properties.ByteAddExact | chip8.cpp:497-505 | 7XKK is addition modulo 256: the sum itself or the sum less 256 |
| Chip8Properties.Handle8Faults | chip8.cpp:507-569 | flag-writing operations fault with "Ordering" when X or Y is VF, the undefined low nibbles fault as unhandled, 8XY0..8XY3 never fault, and a fault changes nothing |
| Chip8Properties.Handle8FlagResults | chip8.cpp:524-562 | with neither operand VF, VX and VF receive the operation's result and flag, and no other register or field changes |
| Chip8Properties.BcdSpellsValue | chip8.cpp:822-824 | the three stored digits are decimal digits, and 100 d0 + 10 d1 + d2 is VX |
| Chip8Properties.StoreBcdWrites | chip8.cpp:814-826 | FX33 faults iff I + 3 passes 4096, changing nothing; otherwise it writes the digits at I, I + 1 and I + 2 and nothing else |
| Chip8Properties.StoreRegistersCopies | chip8.cpp:829-837 | FX55 faults iff I + X is outside RAM, changing nothing; otherwise RAM[I + r] = Vr for r <= X and no other byte or field changes |
| Chip8Properties.LoadRegistersCopies | chip8.cpp:839-847 | FX65 faults iff I + X is outside RAM; otherwise Vr = RAM[I + r] for r <= X and the higher registers are unchanged |
| Chip8Properties.StoreThenLoadRegisters | chip8.cpp:829-847 | FX55 followed by FX65 with the same X and I succeeds and leaves the registers as they were |
| Chip8Properties.RandomMasked | chip8.cpp:626-637 | CXKK never faults, and VX has no bit outside KK and agrees with the random byte on the bits of KK |
| Chip8Properties.TickCountsDown | chip8.cpp:219-230 | one tick lowers each positive timer by one and keeps zero at zero; nothing else changes |
| Chip8Properties.CountDownValue | chip8.cpp:221-224 | a timer tick as an integer: one less, floored at zero |
| Chip8Properties.TicksSaturate | chip8.cpp:219-230 | after k ticks each timer is max(t - k, 0); nothing else changes |
| Chip8Properties.AnyPressedFound | chip8.cpp:182-197 | some key is pressed iff the scan finds a key below 16 |
| Chip8Properties.WaitingStepIsIdle | chip8.cpp:180-186 | while a key is awaited and none is pressed, Step returns at once and changes nothing |
| Chip8Properties.KeyDelivered | chip8.cpp:187-202 | once a key is pressed, the awaited register gets the lowest pressed key, the wait ends, no other register changes, and the same iteration fetches and executes |
| Chip8Properties.WaitForKeyPauses | chip8.cpp:769-775 | FX0A with no key pressed leaves the machine waiting with PC past the FX0A, and the rest of that Step does nothing |
| Chip8Properties.CycleFetches | chip8.cpp:201-215 | with PC + 2 past RAM a cycle faults and changes nothing; otherwise the group, X, Y, N, KK and NNN it dispatches on are the high and low nibbles of the bytes at PC and PC + 1, and it dispatches with PC moved past them |
| Chip8Properties.CallPushes | chip8.cpp:404-419 | a cycle on 2NNN pushes the address after the call and jumps to NNN |
| Chip8Properties.ReturnPops | chip8.cpp:367-386 | a cycle on 00EE pops the top frame into PC |
| Chip8Properties.CallThenReturn | chip8.cpp:367-419 | 2NNN followed by the 00EE at NNN resumes right after the call with the stack height as before |
| Chip8Properties.StackLimits | chip8.cpp:367-419 | 2NNN with 24 frames in use and 00EE on an empty stack fault with "out of stack frames" and change nothing |
| Chip8Properties.ConditionalSkips | chip8.cpp:421-601 | for 3XKK, 4XKK, 5XY0 and 9XY0 with conditions VX == KK, VX != KK, VX == VY and VX != VY: the instruction faults iff the condition holds and PC + 2 is past RAM, and then leaves the machine unchanged; otherwise only PC changes, by 2 when the condition holds and by 0 when not; 5XYN and 9XYN with N != 0 fault as unhandled |
| Chip8Properties.KeySkips | chip8.cpp:706-751 | EXKK with KK other than 9E and A1 faults as unhandled; EX9E/EXA1 fault for a key code VX of 16 or more; otherwise only PC changes, to (PC + 2) mod 0x10000 when key VX is pressed (9E) / not pressed (A1), and not at all otherwise |
| Chip8Properties.UnhandledExactly | chip8.cpp:205-215 | an instruction faults as unhandled iff it is not one of the defined opcodes (00E0, 00EE, 1-4, 5XY0, 6, 7, 8XY0-8XY7, 8XYE, 9XY0, A-D, EX9E, EXA1 and the nine FX forms), and then the machine is unchanged |
| Chip8Properties.UnhandledInGroups059 | chip8.cpp:349-601 | in groups 0, 5 and 9 the handler faults as unhandled exactly on the opcodes outside 00E0/00EE, 5XY0 and 9XY0, changing nothing |
| Chip8Properties.UnhandledInGroup8 | chip8.cpp:507-569 | 8XYN faults as unhandled exactly when N is 8 to D or F, changing nothing |
| Chip8Properties.UnhandledInGroupsEF | chip8.cpp:706-854 | EXKK and FXKK fault as unhandled exactly when KK is not one of their defined low bytes, changing nothing |
| Chip8Properties.SpriteBounds | chip8.cpp:656-660 | DXYN faults iff I + N reaches 4096, changing nothing |
| Chip8Properties.DrawSpriteEffect | chip8.cpp:639-704 | DXYN with the sprite below the frame buffer XORs every pixel with the sprite bit landing on it at ((VX + col) mod 64, (VY + row) mod 32), changes nothing else in RAM, sets VF iff a set sprite bit met a set pixel, and leaves V0..VE unchanged |
| Chip8Properties.DrawSpriteTwiceRestores | chip8.cpp:639-704 | the same DXYN twice in a row restores RAM |
| Chip8Properties.LoadPlacesImage | chip8.cpp:154-173 | a successful load puts the image at its offset, the glyph table at 0x10 and PC at the offset, and changes no other byte or field |
| Chip8Properties.RedrawDetectsChange | chip8.cpp:266-281 | a redraw is needed iff some compared frame byte differs from the copy; right after Draw none is needed |
| Chip8Properties.ClearLeavesLastByte | chip8.cpp:356-364 | 00E0 zeroes the 0xFF compared frame bytes and keeps byte 0xFFF, which lies outside that count |
| Chip8Properties.InitialConsistent | chip8.cpp:139-152 | the constructed machine satisfies the state invariant (return addresses inside RAM, PC at most 4097) |
| Chip8Properties.LowHandlersKeepFrames | chip8.cpp:395-505 | 1NNN and 3XKK..7XKK leave the stack alone and PC at most two past the end of RAM |
| Chip8Properties.AluHandlerKeepsFrames | chip8.cpp:507-569 | 8XYN leaves the stack alone and PC at most two past the end of RAM |
| Chip8Properties.MidHandlersKeepFrames | chip8.cpp:571-637 | 9XY0, ANNN, BNNN and CXKK leave the stack alone and PC at most two past the end of RAM |
| Chip8Properties.HighHandlersKeepFrames | chip8.cpp:639-751 | DXYN and EX.. leave the stack alone and PC at most two past the end of RAM |
| Chip8Properties.TimerHandlersKeepFrames | chip8.cpp:753-854 | FX.. leaves the stack alone and PC at most two past the end of RAM |
| Chip8Properties.CallKeepsFrames | chip8.cpp:404-419 | 2NNN, entered with PC inside RAM, pushes only addresses inside RAM |
| Chip8Properties.DispatchKeepsConsistent | chip8.cpp:205-215 | every handler keeps the state invariant, whether or not it faults |
| Chip8Properties.CycleKeepsConsistent | chip8.cpp:201-215 | a fetch-execute cycle keeps the state invariant |
| Chip8Properties.RunKeepsConsistent | chip8.cpp:175-217 | Step keeps the state invariant |
| Chip8Properties.OthersKeepConsistent | chip8.cpp:154-281 | Tick, Draw, key delivery and Load keep the state invariant |
| Chip8Properties.ConsistentConsequences | chip8.cpp:377-381 | in a consistent machine 00EE never finds a return address outside RAM, and the unchecked EX skip does not wrap PC |
| Chip8Properties.CopyGuardAsWrittenAdmitsOverrun | chip8.cpp:831 | the FX55/FX65 test as written lets a copy leave RAM exactly when I + X == 4096; I = 0xFFF, X = 1 is an instance |
| Chip8Properties.CopyGuardExact | chip8.cpp:829-847 | the corrected FX55/FX65 succeed iff every address from I to I + X is inside RAM, that is, iff the written test passes and I + X != 4096 |
| Chip8Properties.KeyScanAsWrittenOverruns | chip8.cpp:189-197 | with keys 0 and 1 pressed while V3 is awaited, the scan as written writes key 0 to V3 and then key 1 to register 0xFF |
| Chip8Properties.KeyScanLaterWrites | chip8.cpp:189-197 | once the target is 0xFF, every later write of the scan as written goes to register 0xFF |
| Chip8Properties.KeyScanFirstWrite | chip8.cpp:189-197 | the first write of the scan as written is the lowest pressed key into the awaited register; every further write goes to 0xFF |
| Chip8Properties.TakeKeyIsFirstWrite | chip8.cpp:189-197 | the corrected key delivery performs exactly the one in-range write of the scan as written |

## Left out

- `Dump` (chip8.cpp:232-263) and the text rendering in `Draw` (chip8.cpp:283-310) only print. `Draw` is modelled as its bookkeeping: the copy of the frame bytes.
- `OnError` dumps the state and throws. The model returns the `Fault` with the machine as it was when the error was raised; the dump and the exception are not modelled.
- `rand()` is not modelled. CXKK takes the random byte as a parameter, and Step takes one byte per iteration.
- The host program in `main.cpp` is not part of this model. It reads the file, calls Load and calls Step(1) forever, so file I/O and pacing are left out.
- The keyboard snapshot is a field that no modelled operation sets. chip8.h declares no setter for it, and the host's input handling is not part of this model.
- The fetch copies two bytes with `memcpy` and swaps them, which presumes a little-endian host. The model fixes that host order, and `FetchByteOrder` shows the result is the big-endian opcode.
- The revision of chip8.h in this repository does not declare the frame-buffer constants (start 0xF00, byte count 0xFF, 64 x 32 pixels, glyphs at 0x10), nor the display copy, the timers, the keyboard, the key-wait register and the program type. Their values here are assumptions of this model, chosen to agree with how chip8.cpp uses them. The byte count is 0xFF (0xF00 .. 0xFFE), not the 0x100 bytes of a 64 x 32 display, so the redraw check and 00E0 cover 0xFF bytes; Chip8Properties.ClearLeavesLastByte depends on that count.
- `size_t` wrap-around in `data.size() + offset` (chip8.cpp:162) is not modelled, because image sizes are unbounded integers here.
- 8XY6 and 8XYE write VF before VX. The model writes VX first and then VF. Both operands are different from VF, since the "Ordering" fault rules VF out, so the order cannot change the result.
- Display.BlitEffect: proved only for a sprite that lies below the frame buffer (I + N <= 0xF00). A sprite that overlaps the frame buffer reads bytes the blit has already changed. `Blit` and the DXYN methods still describe that case exactly, step by step; only the closed-form effect is not proved for it.
- Display.BlitTwiceRestores: does not hold for a sprite that overlaps the frame buffer, so it is stated only for a sprite below it. Display.BlitTwiceOverlapDoesNotRestore gives an input: I = 0xF00, N = 1, byte 0xF00 set to 0xFF, drawn at (0, 0). The first draw clears that byte bit by bit, and the second draw then reads only clear bits and leaves it at 0.
- Chip8Properties.DrawSpriteEffect: proved under the same condition, a sprite below the frame buffer.
- Chip8Properties.DrawSpriteTwiceRestores: does not hold for a sprite that overlaps the frame buffer (see Display.BlitTwiceOverlapDoesNotRestore), so it is stated for a sprite below the frame buffer and with neither X nor Y being VF. When a coordinate register is VF, the first draw overwrites that coordinate and the second draw lands elsewhere.

## Findings

| source | as written | input that shows it | evidently intended | confidence | as-written member | corrected member |
|---|---|---|---|---|---|---|
| chip8.cpp:829-847 | FX55 and FX65 refuse the copy only when I + X > 4096, but they copy the X + 1 bytes I .. I + X | I = 0xFFF with F155 (X = 1): the test passes, and the copy writes V1 to (or reads it from) address 0x1000, one past RAM | refuse when I + X >= 4096, that is, when the last byte would lie outside RAM | high; not executed | Chip8Properties.CopyGuardAsWrittenAdmitsOverrun | Chip8Properties.CopyGuardExact |
| chip8.cpp:189-197 | the key-wait scan does not stop at the first pressed key; after the first write the target register is 0xFF, and every further pressed key is written to `mRegisters[0xFF]` | awaiting a key into V3 with keys 0 and 1 both pressed: key 0 goes to V3, then key 1 is written to register 0xFF, outside the sixteen registers | deliver one key, the lowest pressed, and stop the scan | high; not executed | Chip8Properties.KeyScanAsWrittenOverruns | Chip8Properties.TakeKeyIsFirstWrite |
