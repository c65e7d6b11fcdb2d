/** What the interpreter promises, stated over the machine record: the ALU
    results as integers, BCD, the timers, the key wait, fetch, call and
    return, the sprite blit at machine level, the block copies, loading,
    the redraw bookkeeping, and a state invariant that every transition
    keeps. */
module Chip8Properties {
  import opened Chip8Types
  import opened Display
  import opened Chip8Spec

  /* ---------------------------------------------------------------- ALU */

  /** 8XY4: the byte result and the carry together give the exact sum,
      computed without wrap-around in sixteen bits. */
  lemma AddWithCarryExact(x: Byte, y: Byte)
    ensures var r := AddWithCarry(x, y);
            r.0 as bv16 + (r.1 as bv16) * 0x100 == x as bv16 + y as bv16 &&
            (r.1 == 0 || r.1 == 1)
  {
  }

  /** 8XY5 / 8XY7: adding the subtrahend back to the result gives the
      minuend modulo 256, and the flag is 1 exactly when no borrow is needed. */
  lemma SubWithBorrowInverse(a: Byte, b: Byte)
    ensures var r := SubWithBorrow(a, b);
            r.0 + b == a && (r.1 == 1 <==> b <= a) && (r.1 == 0 <==> a < b)
  {
  }

  /** Without a borrow the result plus the subtrahend is the minuend exactly;
      with one, it is the minuend plus 256. */
  lemma SubWithBorrowExact(a: Byte, b: Byte)
    ensures var r := SubWithBorrow(a, b);
            r.0 as bv16 + b as bv16 == a as bv16 + (1 - r.1 as bv16) * 0x100
  {
  }

  /** 8XY6: halving, and the bit shifted out is the old bit 0. */
  lemma ShiftRightOutExact(x: Byte)
    ensures var r := ShiftRightOut(x);
            Value(r.0) == Value(x) / 2 && Value(r.1) == Value(x) % 2
  {
  }

  /** 8XYE: doubling modulo 256, and the bit shifted out is the old bit 7. */
  lemma ShiftLeftOutExact(x: Byte)
    ensures var r := ShiftLeftOut(x);
            Value(r.0) == (2 * Value(x)) % 0x100 && Value(r.1) == Value(x) / 0x80
  {
  }

  /** 7XKK: wrap-around addition; VF is not involved. */
  lemma ByteAddExact(x: Byte, y: Byte)
    ensures ByteAdd(x, y) as bv16 == (x as bv16 + y as bv16) & 0xFF
    ensures ByteAdd(x, y) as bv16 == x as bv16 + y as bv16 || ByteAdd(x, y) as bv16 + 0x100 == x as bv16 + y as bv16
  {
  }

  /** 8XYN refuses VF as an operand of every flag-writing operation, and
      refuses the undefined low nibbles; 8XY0 .. 8XY3 accept any registers. */
  lemma Handle8Faults(m: Machine, ins: Instruction)
    requires Valid(m)
    ensures var rx, ry, op := RegX(ins), RegY(ins), Nibble(ins);
            var o := Handle8(m, ins);
            (var flagOp := op == 0x4 || op == 0x5 || op == 0x6 || op == 0x7 || op == 0xE;
             flagOp && (rx == VF || ry == VF) ==> o == Fail(m, Ordering)) &&
            (op > 0x7 && op != 0xE ==> o == Fail(m, Unhandled(ins))) &&
            (op <= 0x3 ==> o.fault == None) &&
            (o.fault.Some? ==> o.m == m)
  {
  }

  /** The table of the flag-writing ALU operations: with neither operand VF,
      VX and VF receive the result and the flag and no other register
      changes. */
  lemma Handle8FlagResults(m: Machine, ins: Instruction)
    requires Valid(m)
    requires RegX(ins) != VF && RegY(ins) != VF
    requires var op := Nibble(ins); op == 0x4 || op == 0x5 || op == 0x6 || op == 0x7 || op == 0xE
    ensures var rx, ry, op := RegX(ins), RegY(ins), Nibble(ins);
            var x, y := m.registers[rx], m.registers[ry];
            var o := Handle8(m, ins);
            var result := if op == 0x4 then AddWithCarry(x, y)
                          else if op == 0x5 then SubWithBorrow(x, y)
                          else if op == 0x7 then SubWithBorrow(y, x)
                          else if op == 0x6 then ShiftRightOut(x)
                          else ShiftLeftOut(x);
            o.fault == None &&
            o.m.registers[rx] == result.0 && o.m.registers[VF] == result.1 &&
            (forall r :: 0 <= r < RegisterCount && r != rx && r != VF ==> o.m.registers[r] == m.registers[r]) &&
            o.m == m.(registers := o.m.registers)
  {
  }

  /* ---------------------------------------------------------------- FX33 */

  /** The three BCD digits are decimal digits and spell the value. */
  lemma BcdSpellsValue(val: Byte)
    ensures var d := Bcd(val);
            |d| == 3 && Value(d[0]) < 10 && Value(d[1]) < 10 && Value(d[2]) < 10 &&
            100 * Value(d[0]) + 10 * Value(d[1]) + Value(d[2]) == Value(val)
  {
  }

  /** FX33 writes the digits at I, I + 1 and I + 2 and nothing else, and is
      refused when I + 3 passes the end of RAM. */
  lemma StoreBcdWrites(m: Machine, val: Byte)
    requires Valid(m)
    ensures var o := StoreBcd(m, val);
            (o.fault.Some? <==> m.i + 3 > RamSize) &&
            (o.fault.Some? ==> o == Fail(m, StoringOutsideRam)) &&
            (o.fault.None? ==>
               o.m.ram[m.i] == Bcd(val)[0] && o.m.ram[m.i + 1] == Bcd(val)[1] && o.m.ram[m.i + 2] == Bcd(val)[2] &&
               (forall a :: 0 <= a < RamSize && !(m.i <= a < m.i + 3) ==> o.m.ram[a] == m.ram[a]) &&
               o.m == m.(ram := o.m.ram))
  {
  }

  /* ---------------------------------------------------------- FX55, FX65 */

  /** FX55 copies V0 .. VX to I .. I + X and changes no other byte; it is
      refused when the last byte would lie outside RAM. */
  lemma StoreRegistersCopies(m: Machine, reg: int)
    requires Valid(m) && 0 <= reg < RegisterCount
    ensures var o := StoreRegisters(m, reg);
            (o.fault.Some? <==> m.i + reg >= RamSize) &&
            (o.fault.Some? ==> o == Fail(m, CopyingToOutsideRam)) &&
            (o.fault.None? ==>
               (forall r :: 0 <= r <= reg ==> o.m.ram[m.i + r] == m.registers[r]) &&
               (forall a :: 0 <= a < RamSize && !(m.i <= a <= m.i + reg) ==> o.m.ram[a] == m.ram[a]) &&
               o.m == m.(ram := o.m.ram))
  {
  }

  /** FX65 loads V0 .. VX from I .. I + X and changes no other register; it
      is refused when the last byte would lie outside RAM. */
  lemma LoadRegistersCopies(m: Machine, reg: int)
    requires Valid(m) && 0 <= reg < RegisterCount
    ensures var o := LoadRegisters(m, reg);
            (o.fault.Some? <==> m.i + reg >= RamSize) &&
            (o.fault.Some? ==> o == Fail(m, CopyingFromOutsideRam)) &&
            (o.fault.None? ==>
               (forall r :: 0 <= r <= reg ==> o.m.registers[r] == m.ram[m.i + r]) &&
               (forall r :: reg < r < RegisterCount ==> o.m.registers[r] == m.registers[r]) &&
               o.m == m.(registers := o.m.registers))
  {
  }

  /** Storing V0 .. VX and loading them back from the same I is the identity
      on the registers. */
  lemma StoreThenLoadRegisters(m: Machine, reg: int)
    requires Valid(m) && 0 <= reg < RegisterCount && m.i + reg < RamSize
    ensures LoadRegisters(StoreRegisters(m, reg).m, reg) == Ok(StoreRegisters(m, reg).m)
  {
    var stored := StoreRegisters(m, reg).m;
    var loaded := LoadRegisters(stored, reg).m;
    assert loaded.registers == stored.registers;
  }

  /* ---------------------------------------------------------------- CXKK */

  /** The random byte lands in VX with no bit outside the mask KK. */
  lemma RandomMasked(m: Machine, ins: Instruction, random: Byte)
    requires Valid(m)
    ensures var o := HandleC(m, ins, random);
            o.fault == None &&
            o.m.registers[RegX(ins)] & !LowByte(ins) == 0 &&
            o.m.registers[RegX(ins)] & LowByte(ins) == random & LowByte(ins)
  {
  }

  /* --------------------------------------------------------------- Timers */

  /** One tick lowers a positive timer by one, keeps zero at zero, and
      leaves the rest of the machine alone. */
  lemma TickCountsDown(m: Machine)
    requires Valid(m)
    ensures var r := Tick(m);
            Value(r.delayTimer) == (if Value(m.delayTimer) > 0 then Value(m.delayTimer) - 1 else 0) &&
            Value(r.soundTimer) == (if Value(m.soundTimer) > 0 then Value(m.soundTimer) - 1 else 0) &&
            r == m.(delayTimer := r.delayTimer, soundTimer := r.soundTimer)
  {
    CountDownValue(m.delayTimer);
    CountDownValue(m.soundTimer);
  }

  lemma CountDownValue(t: Byte)
    ensures Value(CountDown(t)) == if Value(t) > 0 then Value(t) - 1 else 0
  {
  }

  /** `k` ticks in a row. */
  function Ticks(m: Machine, k: nat): (r: Machine)
    requires Valid(m)
    ensures Valid(r)
  {
    if k == 0 then m else Tick(Ticks(m, k - 1))
  }

  /** After `k` ticks each timer has dropped by `k`, stopping at zero. */
  lemma {:induction false} TicksSaturate(m: Machine, k: nat)
    requires Valid(m)
    ensures var r := Ticks(m, k);
            Value(r.delayTimer) == Max(Value(m.delayTimer) - k, 0) &&
            Value(r.soundTimer) == Max(Value(m.soundTimer) - k, 0) &&
            r == m.(delayTimer := r.delayTimer, soundTimer := r.soundTimer)
  {
    if k > 0 {
      var prev := Ticks(m, k - 1);
      TicksSaturate(m, k - 1);
      TickCountsDown(prev);
      assert Ticks(m, k) == Tick(prev);
    }
  }

  function Max(a: int, b: int): int { if a < b then b else a }

  /* ------------------------------------------------------------- Key wait */

  /** Some key is pressed exactly when the scan finds one. */
  lemma AnyPressedFound(keys: seq<bool>)
    ensures AnyPressed(keys) <==> FirstPressed(keys) < |keys|
  {
    if AnyPressed(keys) {
      var k :| 0 <= k < |keys| && keys[k];
      assert FirstPressed(keys) <= k;
    }
  }

  /** While a key is awaited and none is pressed, Step stops at once and
      changes nothing. */
  lemma WaitingStepIsIdle(m: Machine, done: nat, count: nat, random: nat -> Byte)
    requires Valid(m) && m.keyWait.AwaitingKey? && !AnyPressed(m.keyboard)
    ensures Run(m, done, count, random) == Ok(m)
  {
  }

  /** Once a key is pressed, the awaited register receives the lowest
      pressed key, the wait ends, no other register changes, and the same
      iteration goes on to fetch and execute. */
  lemma KeyDelivered(m: Machine, done: nat, count: nat, random: nat -> Byte)
    requires Valid(m) && m.keyWait.AwaitingKey? && AnyPressed(m.keyboard) && done < count
    ensures var r := TakeKey(m);
            var key := FirstPressed(m.keyboard);
            var reg := m.keyWait.register;
            0 <= key < KeyCount && m.keyboard[key] &&
            (forall k :: 0 <= k < key ==> !m.keyboard[k]) &&
            r.registers[reg] == key as Byte && r.keyWait == Running &&
            (forall q :: 0 <= q < RegisterCount && q != reg ==> r.registers[q] == m.registers[q]) &&
            r == m.(registers := r.registers, keyWait := Running) &&
            Run(m, done, count, random) ==
              (var o := Cycle(r, random(done)); if o.fault.Some? then o else Run(o.m, done + 1, count, random))
  {
    AnyPressedFound(m.keyboard);
  }

  /** FX0A executed with no key pressed: the next iteration of the same Step
      stops, leaving the machine waiting with PC past the FX0A. */
  lemma WaitForKeyPauses(m: Machine, count: nat, random: nat -> Byte, ins: Instruction)
    requires Valid(m) && m.keyWait == Running && !AnyPressed(m.keyboard) && count >= 1
    requires Fetch(m) == Some(ins) && Group(ins) == 0xF && LowByte(ins) == 0x0A
    ensures Run(m, 0, count, random) == Ok(m.(pc := m.pc + InstructionSize, keyWait := AwaitingKey(RegX(ins))))
  {
    var waiting := m.(pc := m.pc + InstructionSize, keyWait := AwaitingKey(RegX(ins)));
    assert Cycle(m, random(0)) == Ok(waiting);
    assert Run(waiting, 1, count, random) == Ok(waiting);
  }

  /* ---------------------------------------------------------------- Fetch */

  /** A cycle at the top of RAM faults and changes nothing. Otherwise it
      dispatches, with PC moved past the opcode, on an instruction whose
      group and X are the nibbles of the byte at PC, whose Y, N and KK come
      from the byte after it, and whose NNN joins the low nibble of the first
      byte to the second. */
  lemma CycleFetches(m: Machine, random: Byte)
    requires Valid(m)
    ensures m.pc + InstructionSize >= RamSize ==> Cycle(m, random) == Fail(m, ProgramCounterLeftRam)
    ensures m.pc + InstructionSize < RamSize ==>
              var hi, lo, ins := m.ram[m.pc], m.ram[m.pc + 1], Fetch(m).value;
              Group(ins) == (hi >> 4) as int && RegX(ins) == (hi & 0x0F) as int &&
              RegY(ins) == (lo >> 4) as int && Nibble(ins) == (lo & 0x0F) as int &&
              LowByte(ins) == lo && Target(ins) == (hi & 0x0F) as int * 0x100 + lo as int &&
              Cycle(m, random) == Dispatch(m.(pc := m.pc + InstructionSize), ins, random)
  {
    if m.pc + InstructionSize < RamSize {
      FieldsOfBytes(m.ram[m.pc], m.ram[m.pc + 1]);
    }
  }

  /** The opcodes the interpreter implements: 00E0, 00EE, 1NNN .. 4XKK,
      5XY0, 6XKK, 7XKK, 8XY0 .. 8XY7, 8XYE, 9XY0, ANNN .. DXYN, EX9E, EXA1,
      and FX07, FX0A, FX15, FX18, FX1E, FX29, FX33, FX55, FX65. */
  predicate Defined(ins: Instruction)
  {
    var n, kk := Nibble(ins), LowByte(ins);
    match Group(ins)
    case 0x0 => ins & 0x0FFF == 0x00E0 || ins & 0x0FFF == 0x00EE
    case 0x5 => n == 0x0
    case 0x8 => n <= 0x7 || n == 0xE
    case 0x9 => n == 0x0
    case 0xE => kk == 0x9E || kk == 0xA1
    case 0xF => kk == 0x07 || kk == 0x0A || kk == 0x15 || kk == 0x18 || kk == 0x1E ||
                kk == 0x29 || kk == 0x33 || kk == 0x55 || kk == 0x65
    case _ => true
  }

  /** `o` faults as unhandled exactly when `ins` is not implemented, and
      then leaves `m` as it was. */
  predicate UnhandledIff(m: Machine, ins: Instruction, o: Outcome)
  {
    (o.fault == Some(Unhandled(ins)) <==> !Defined(ins)) &&
    (!Defined(ins) ==> o == Fail(m, Unhandled(ins)))
  }

  /** Executing an opcode outside the implemented set faults as unhandled and
      changes nothing, and no implemented opcode ever faults that way. */
  lemma UnhandledExactly(m: Machine, ins: Instruction, random: Byte)
    requires Valid(m)
    ensures Dispatch(m, ins, random).fault == Some(Unhandled(ins)) <==> !Defined(ins)
    ensures !Defined(ins) ==> Dispatch(m, ins, random) == Fail(m, Unhandled(ins))
  {
    var o := Dispatch(m, ins, random);
    match Group(ins)
    case 0x0 => UnhandledInGroups059(m, ins); assert o == Handle0(m, ins);
    case 0x1 => assert o == Handle1(m, ins);
    case 0x2 => assert o == Handle2(m, ins);
    case 0x3 => assert o == Handle3(m, ins);
    case 0x4 => assert o == Handle4(m, ins);
    case 0x5 => UnhandledInGroups059(m, ins); assert o == Handle5(m, ins);
    case 0x6 => assert o == Handle6(m, ins);
    case 0x7 => assert o == Handle7(m, ins);
    case 0x8 => UnhandledInGroup8(m, ins); assert o == Handle8(m, ins);
    case 0x9 => UnhandledInGroups059(m, ins); assert o == Handle9(m, ins);
    case 0xA => assert o == HandleA(m, ins);
    case 0xB => assert o == HandleB(m, ins);
    case 0xC => assert o == HandleC(m, ins, random);
    case 0xD => assert o == HandleD(m, ins);
    case 0xE => UnhandledInGroupsEF(m, ins); assert o == HandleE(m, ins);
    case 0xF => UnhandledInGroupsEF(m, ins); assert o == HandleF(m, ins);
  }

  /** 0NNN other than 00E0 / 00EE, and 5XYN, 9XYN with N != 0. */
  lemma UnhandledInGroups059(m: Machine, ins: Instruction)
    requires Valid(m)
    ensures Group(ins) == 0x0 ==> UnhandledIff(m, ins, Handle0(m, ins))
    ensures Group(ins) == 0x5 ==> UnhandledIff(m, ins, Handle5(m, ins))
    ensures Group(ins) == 0x9 ==> UnhandledIff(m, ins, Handle9(m, ins))
  {
  }

  /** 8XYN with N in 8 .. D or F. */
  lemma UnhandledInGroup8(m: Machine, ins: Instruction)
    requires Valid(m) && Group(ins) == 0x8
    ensures UnhandledIff(m, ins, Handle8(m, ins))
  {
  }

  /** EXKK other than EX9E / EXA1, and the FXKK outside the nine sub-opcodes. */
  lemma UnhandledInGroupsEF(m: Machine, ins: Instruction)
    requires Valid(m)
    ensures Group(ins) == 0xE ==> UnhandledIff(m, ins, HandleE(m, ins))
    ensures Group(ins) == 0xF ==> UnhandledIff(m, ins, HandleF(m, ins))
  {
  }

  /* --------------------------------------------------------- Call, return */

  /** A cycle on 2NNN pushes the address after the call and jumps to NNN. */
  lemma CallPushes(m: Machine, random: Byte)
    requires Valid(m) && m.pc + InstructionSize < RamSize && m.stack < StackCapacity
    requires m.ram[m.pc] >> 4 == 0x2
    ensures Cycle(m, random) ==
            Ok(m.(pc := Target(BigEndian(m.ram[m.pc], m.ram[m.pc + 1])),
                  stackFrames := m.stackFrames[m.stack := m.pc + InstructionSize], stack := m.stack + 1))
  {
    FieldsOfBytes(m.ram[m.pc], m.ram[m.pc + 1]);
  }

  /** A cycle on 00EE pops the top frame into PC. */
  lemma ReturnPops(m: Machine, random: Byte)
    requires Valid(m) && m.pc + InstructionSize < RamSize && m.ram[m.pc] == 0x00 && m.ram[m.pc + 1] == 0xEE
    requires m.stack > 0 && m.stackFrames[m.stack - 1] < RamSize
    ensures Cycle(m, random) == Ok(m.(pc := m.stackFrames[m.stack - 1], stack := m.stack - 1))
  {
    FieldsOfBytes(0x00, 0xEE);
    assert BigEndian(0x00, 0xEE) & 0x0FFF == 0x00EE;
  }

  /** 2NNN followed by the 00EE at NNN resumes right after the call with
      the stack height as before. */
  lemma CallThenReturn(m: Machine, r1: Byte, r2: Byte)
    requires Valid(m) && m.pc + InstructionSize < RamSize && m.stack < StackCapacity
    requires m.ram[m.pc] >> 4 == 0x2
    requires var target := Target(BigEndian(m.ram[m.pc], m.ram[m.pc + 1]));
             target + InstructionSize < RamSize && m.ram[target] == 0x00 && m.ram[target + 1] == 0xEE
    ensures var call := Cycle(m, r1);
            call.fault == None && call.m.stack == m.stack + 1 &&
            Cycle(call.m, r2) == Ok(call.m.(pc := m.pc + InstructionSize, stack := m.stack))
  {
    CallPushes(m, r1);
    ReturnPops(Cycle(m, r1).m, r2);
  }

  /** 2NNN with all 24 frames in use, and 00EE on an empty stack, fault
      without changing the machine. */
  lemma StackLimits(m: Machine, ins: Instruction)
    requires Valid(m)
    ensures m.stack == StackCapacity ==> Handle2(m, ins) == Fail(m, OutOfStackFrames)
    ensures m.stack == 0 && ins & 0x0FFF == 0x00EE ==> Handle0(m, ins) == Fail(m, OutOfStackFrames)
  {
  }

  /* ---------------------------------------------------------------- Skips */

  /** The outcome of a conditional skip on `cond`: when `cond` is false
      nothing changes; when it holds PC moves on by two, unless that would
      reach the end of RAM, in which case the skip faults and nothing
      changes. */
  predicate SkipsWhen(m: Machine, o: Outcome, cond: bool)
  {
    (o.fault.Some? <==> cond && m.pc + InstructionSize >= RamSize) &&
    (o.fault.Some? ==> o == Fail(m, BranchingOutsideRam)) &&
    (o.fault.None? ==> o.m == m.(pc := m.pc + if cond then InstructionSize else 0))
  }

  /** 3XKK skips on VX == KK and 4XKK on VX != KK; 5XY0 skips on VX == VY
      and 9XY0 on VX != VY, and both fault as unhandled for any other low
      nibble. */
  lemma ConditionalSkips(m: Machine, ins: Instruction)
    requires Valid(m)
    ensures var x, y, kk := m.registers[RegX(ins)], m.registers[RegY(ins)], LowByte(ins);
            SkipsWhen(m, Handle3(m, ins), x == kk) && SkipsWhen(m, Handle4(m, ins), x != kk) &&
            (Nibble(ins) == 0 ==> SkipsWhen(m, Handle5(m, ins), x == y) && SkipsWhen(m, Handle9(m, ins), x != y)) &&
            (Nibble(ins) != 0 ==> Handle5(m, ins) == Fail(m, Unhandled(ins)) && Handle9(m, ins) == Fail(m, Unhandled(ins)))
  {
  }

  /** EX9E skips when key VX is pressed and EXA1 when it is not; both fault
      for a key code of 16 or more, and every other low byte faults as
      unhandled. The skip is not bounds-checked: PC wraps as a 16-bit value. */
  lemma KeySkips(m: Machine, ins: Instruction)
    requires Valid(m)
    ensures var key, op, o := Value(m.registers[RegX(ins)]), LowByte(ins), HandleE(m, ins);
            (op != 0x9E && op != 0xA1 ==> o == Fail(m, Unhandled(ins))) &&
            ((op == 0x9E || op == 0xA1) && key >= KeyCount ==> o == Fail(m, InvalidKeyCode)) &&
            ((op == 0x9E || op == 0xA1) && key < KeyCount ==>
               o.fault == None &&
               o.m == m.(pc := (m.pc + if m.keyboard[key] == (op == 0x9E) then InstructionSize else 0) % 0x1_0000))
  {
  }

  /* ----------------------------------------------------------------- DXYN */

  /** DXYN is refused exactly when the last sprite row would lie at or past
      the end of RAM. */
  lemma SpriteBounds(m: Machine, ins: Instruction)
    requires Valid(m)
    ensures HandleD(m, ins).fault.Some? <==> m.i + Nibble(ins) >= RamSize
    ensures HandleD(m, ins).fault.Some? ==> HandleD(m, ins) == Fail(m, BlittingOutsideRam)
  {
  }

  /** DXYN with the sprite below the frame buffer: every pixel is XOR-ed with
      the sprite bit landing on it at ((VX + col) mod 64, (VY + row) mod 32),
      nothing outside the frame buffer changes, VF is 1 exactly when a set
      sprite bit met a set pixel, and no other register changes. */
  lemma DrawSpriteEffect(m: Machine, ins: Instruction)
    requires Valid(m) && m.i + Nibble(ins) <= DisplayStart
    ensures var n := Nibble(ins);
            var x, y := Value(m.registers[RegX(ins)]), Value(m.registers[RegY(ins)]);
            var o := HandleD(m, ins);
            o.fault == None &&
            (forall p :: 0 <= p < PixelCount ==>
               PixelSet(o.m.ram, p) == (PixelSet(m.ram, p) != Hit(m.ram, m.i, x, y, n, 8 * n, p))) &&
            (forall a :: 0 <= a < DisplayStart ==> o.m.ram[a] == m.ram[a]) &&
            o.m.registers[VF] == Flag(Collision(m.ram, m.i, x, y, n, 8 * n)) &&
            (forall r :: 0 <= r < VF ==> o.m.registers[r] == m.registers[r]) &&
            o.m == m.(ram := o.m.ram, registers := o.m.registers)
  {
    var n := Nibble(ins);
    var x, y := Value(m.registers[RegX(ins)]), Value(m.registers[RegY(ins)]);
    BlitEffect(m.ram, m.i, x, y, n, 8 * n);
  }

  /** Drawing the same sprite twice with the same DXYN (neither coordinate
      register being VF) restores RAM exactly. */
  lemma DrawSpriteTwiceRestores(m: Machine, ins: Instruction)
    requires Valid(m) && m.i + Nibble(ins) <= DisplayStart
    requires RegX(ins) != VF && RegY(ins) != VF
    ensures var first := HandleD(m, ins);
            var second := HandleD(first.m, ins);
            first.fault == None && second.fault == None && second.m.ram == m.ram
  {
    var n := Nibble(ins);
    var x, y := Value(m.registers[RegX(ins)]), Value(m.registers[RegY(ins)]);
    var first := HandleD(m, ins);
    assert first.m.registers[RegX(ins)] == m.registers[RegX(ins)];
    assert first.m.registers[RegY(ins)] == m.registers[RegY(ins)];
    BlitTwiceRestores(m.ram, m.i, x, y, n);
  }

  /* ----------------------------------------------------------------- Load */

  /** A successful load puts the image at its offset, the glyph table at
      0x10 and PC at the offset, and changes no other byte or field. */
  lemma LoadPlacesImage(m: Machine, data: seq<Byte>, program: Program)
    requires Valid(m) && |data| + LoadOffset(program) < RamSize
    ensures var offset := LoadOffset(program);
            var r := Load(m, data, program);
            r.1 &&
            r.0.ram[offset..offset + |data|] == data &&
            r.0.ram[CharacterSpritesStart..CharacterSpritesStart + |CharacterSprites|] == CharacterSprites &&
            r.0.pc == offset &&
            (forall a :: 0 <= a < RamSize && !(offset <= a < offset + |data|) &&
                         !(CharacterSpritesStart <= a < CharacterSpritesStart + |CharacterSprites|)
                         ==> r.0.ram[a] == m.ram[a]) &&
            r.0 == m.(ram := r.0.ram, pc := offset)
  {
    var offset := LoadOffset(program);
    var r := Load(m, data, program);
    GlyphTableShape();
    assert r.0.ram[offset..offset + |data|] == data by {
      forall a | 0 <= a < |data| ensures r.0.ram[offset + a] == data[a] { }
    }
    assert r.0.ram[CharacterSpritesStart..CharacterSpritesStart + |CharacterSprites|] == CharacterSprites;
  }

  /* ---------------------------------------------------- Redraw bookkeeping */

  /** A redraw is needed exactly when some compared frame byte differs from
      the copy; right after Draw none is needed. */
  lemma RedrawDetectsChange(m: Machine)
    requires Valid(m)
    ensures NeedsRedraw(m) <==>
            exists a :: 0 <= a < DisplaySize && m.ram[DisplayStart + a] != m.displayBuffer[a]
    ensures !NeedsRedraw(Draw(m))
  {
    if NeedsRedraw(m) {
      var f := FrameBytes(m.ram);
      var a :| 0 <= a < DisplaySize && f[a] != m.displayBuffer[a];
    }
  }

  /** 00E0 zeroes the DisplaySize compared bytes; the last byte of the frame
      buffer area (0xFFF) is outside that count and keeps its value. */
  lemma ClearLeavesLastByte(m: Machine, ins: Instruction)
    requires Valid(m) && ins & 0x0FFF == 0x00E0
    ensures var o := Handle0(m, ins);
            o.fault == None &&
            (forall a :: DisplayStart <= a < DisplayStart + DisplaySize ==> o.m.ram[a] == 0) &&
            o.m.ram[DisplayStart + DisplaySize] == m.ram[DisplayStart + DisplaySize] &&
            FrameBytes(o.m.ram) == seq(DisplaySize, _ => 0)
  {
  }

  /* ------------------------------------------------------- State invariant */

  /** Every saved return address lies inside RAM. */
  predicate FramesInRam(m: Machine)
    requires Valid(m)
  {
    forall k :: 0 <= k < m.stack ==> m.stackFrames[k] < RamSize
  }

  /** The invariant of every reachable machine: the return addresses lie in
      RAM and PC is at most two past the end of RAM (an unchecked EX skip
      from the last fetchable address), so it never wraps. */
  predicate Consistent(m: Machine)
    requires Valid(m)
  {
    m.pc <= RamSize + 1 && FramesInRam(m)
  }

  lemma InitialConsistent()
    ensures Consistent(Initial())
  {
  }

  /** A handler outcome that keeps the stack and moves PC at most two
      past the end of RAM. */
  predicate FramesKept(m: Machine, o: Outcome)
    requires Valid(m) && Valid(o.m)
  {
    o.m.stack == m.stack && o.m.stackFrames == m.stackFrames && o.m.pc <= RamSize + 1
  }

  /** The per-group parts of DispatchKeepsConsistent: no handler other than
      00EE and 2NNN touches the stack, and entered with PC inside RAM none
      leaves PC more than two past its end. */
  lemma LowHandlersKeepFrames(m: Machine, ins: Instruction)
    requires Valid(m) && m.pc < RamSize
    ensures FramesKept(m, Handle1(m, ins)) && FramesKept(m, Handle3(m, ins)) &&
            FramesKept(m, Handle4(m, ins)) && FramesKept(m, Handle5(m, ins)) &&
            FramesKept(m, Handle6(m, ins)) && FramesKept(m, Handle7(m, ins))
  {
  }

  lemma AluHandlerKeepsFrames(m: Machine, ins: Instruction)
    requires Valid(m) && m.pc < RamSize
    ensures FramesKept(m, Handle8(m, ins))
  {
    assert FramesKept(m, Handle8Flags(m, ins));
  }

  lemma MidHandlersKeepFrames(m: Machine, ins: Instruction, random: Byte)
    requires Valid(m) && m.pc < RamSize
    ensures FramesKept(m, Handle9(m, ins)) && FramesKept(m, HandleA(m, ins)) &&
            FramesKept(m, HandleB(m, ins)) && FramesKept(m, HandleC(m, ins, random))
  {
  }

  lemma HighHandlersKeepFrames(m: Machine, ins: Instruction)
    requires Valid(m) && m.pc < RamSize
    ensures FramesKept(m, HandleD(m, ins)) && FramesKept(m, HandleE(m, ins))
  {
  }

  lemma TimerHandlersKeepFrames(m: Machine, ins: Instruction)
    requires Valid(m) && m.pc < RamSize
    ensures FramesKept(m, HandleF(m, ins))
  {
  }

  /** The handlers, entered with PC just past a fetched instruction, leave
      the machine consistent, whether or not they fault. */
  lemma DispatchKeepsConsistent(m: Machine, ins: Instruction, random: Byte)
    requires Valid(m) && m.pc < RamSize && FramesInRam(m)
    ensures Consistent(Dispatch(m, ins, random).m)
  {
    var o := Dispatch(m, ins, random);
    match Group(ins)
    case 0x0 =>
    case 0x1 => LowHandlersKeepFrames(m, ins); assert o == Handle1(m, ins);
    case 0x2 => CallKeepsFrames(m, ins);
    case 0x3 => LowHandlersKeepFrames(m, ins); assert o == Handle3(m, ins);
    case 0x4 => LowHandlersKeepFrames(m, ins); assert o == Handle4(m, ins);
    case 0x5 => LowHandlersKeepFrames(m, ins); assert o == Handle5(m, ins);
    case 0x6 => LowHandlersKeepFrames(m, ins); assert o == Handle6(m, ins);
    case 0x7 => LowHandlersKeepFrames(m, ins); assert o == Handle7(m, ins);
    case 0x8 => AluHandlerKeepsFrames(m, ins); assert o == Handle8(m, ins);
    case 0x9 => MidHandlersKeepFrames(m, ins, random); assert o == Handle9(m, ins);
    case 0xA => MidHandlersKeepFrames(m, ins, random); assert o == HandleA(m, ins);
    case 0xB => MidHandlersKeepFrames(m, ins, random); assert o == HandleB(m, ins);
    case 0xC => MidHandlersKeepFrames(m, ins, random); assert o == HandleC(m, ins, random);
    case 0xD => HighHandlersKeepFrames(m, ins); assert o == HandleD(m, ins);
    case 0xE => HighHandlersKeepFrames(m, ins); assert o == HandleE(m, ins);
    case 0xF => TimerHandlersKeepFrames(m, ins); assert o == HandleF(m, ins);
  }

  /** 2NNN pushes an address inside RAM when entered with PC inside RAM. */
  lemma CallKeepsFrames(m: Machine, ins: Instruction)
    requires Valid(m) && m.pc < RamSize && FramesInRam(m)
    ensures Consistent(Handle2(m, ins).m)
  {
    var o := Handle2(m, ins);
    if o.fault.None? {
      forall k | 0 <= k < o.m.stack ensures o.m.stackFrames[k] < RamSize {
        if k < m.stack {
          assert o.m.stackFrames[k] == m.stackFrames[k];
        }
      }
    }
  }

  /** A cycle keeps the machine consistent. */
  lemma CycleKeepsConsistent(m: Machine, random: Byte)
    requires Valid(m) && Consistent(m)
    ensures Consistent(Cycle(m, random).m)
  {
    if m.pc + InstructionSize < RamSize {
      DispatchKeepsConsistent(m.(pc := m.pc + InstructionSize), BigEndian(m.ram[m.pc], m.ram[m.pc + 1]), random);
    }
  }

  /** Step keeps the machine consistent. */
  lemma {:induction false} RunKeepsConsistent(m: Machine, done: nat, count: nat, random: nat -> Byte)
    requires Valid(m) && Consistent(m)
    ensures Consistent(Run(m, done, count, random).m)
    decreases count - done
  {
    if done < count && !(m.keyWait.AwaitingKey? && !AnyPressed(m.keyboard)) {
      var o := Cycle(TakeKey(m), random(done));
      CycleKeepsConsistent(TakeKey(m), random(done));
      if o.fault.None? {
        RunKeepsConsistent(o.m, done + 1, count, random);
      }
    }
  }

  /** The other transitions keep the machine consistent too. */
  lemma OthersKeepConsistent(m: Machine, data: seq<Byte>, program: Program)
    requires Valid(m) && Consistent(m)
    ensures Consistent(Tick(m)) && Consistent(Draw(m)) && Consistent(TakeKey(m))
    ensures Consistent(Load(m, data, program).0)
  {
  }

  /** In a consistent machine a return never pops an address outside RAM,
      and the unchecked EX skip does not wrap PC. */
  lemma ConsistentConsequences(m: Machine, ins: Instruction)
    requires Valid(m) && Consistent(m)
    ensures Handle0(m, ins).fault != Some(InvalidAddressOnStack)
    ensures m.pc < RamSize ==> (m.pc + InstructionSize) % 0x1_0000 == m.pc + InstructionSize
  {
  }

  /* ------------------------------------------------- Code as written */

  /** The fault test FX55 and FX65 perform as written: I + X past the end
      of RAM. The copy itself covers I .. I + X. */
  predicate CopyGuardAsWritten(i: int, reg: int)
  {
    i + reg > RamSize
  }

  /** The written test lets through exactly one copy that leaves RAM,
      I + X == 4096, where the last copied byte is one past the end of RAM;
      I = 0xFFF with X = 1 is an instance. */
  lemma CopyGuardAsWrittenAdmitsOverrun(i: int, reg: int)
    requires 0 <= i && 0 <= reg < RegisterCount
    ensures (!CopyGuardAsWritten(i, reg) && !(forall a :: i <= a <= i + reg ==> InRam(a))) <==> i + reg == RamSize
    ensures !CopyGuardAsWritten(0xFFF, 1) && !InRam(0xFFF + 1)
  {
    if i + reg == RamSize {
      assert !InRam(i + reg);
    }
  }

  /** The corrected test of StoreRegisters and LoadRegisters refuses a copy
      exactly when one of its bytes would lie outside RAM: it is the written
      test with the one case above added. */
  lemma CopyGuardExact(m: Machine, reg: int)
    requires Valid(m) && 0 <= reg < RegisterCount
    ensures StoreRegisters(m, reg).fault.None? <==> forall a :: m.i <= a <= m.i + reg ==> InRam(a)
    ensures LoadRegisters(m, reg).fault.None? <==> forall a :: m.i <= a <= m.i + reg ==> InRam(a)
    ensures StoreRegisters(m, reg).fault.None? <==> !CopyGuardAsWritten(m.i, reg) && m.i + reg != RamSize
  {
    if StoreRegisters(m, reg).fault.Some? {
      assert !InRam(m.i + reg);
    }
  }

  predicate InRam(a: int) { 0 <= a < RamSize }

  /** The register writes of the key scan in Step as written, from key
      `from` on, as (register index, key) pairs: every pressed key is
      written to the current target, and the target becomes 0xFF after the
      first write. */
  function KeyScanAsWritten(keys: seq<bool>, target: int, from: nat): (w: seq<(int, int)>)
    requires from <= |keys|
    ensures |w| <= |keys| - from
    decreases |keys| - from
  {
    if from == |keys| then []
    else if keys[from] then [(target, from)] + KeyScanAsWritten(keys, 0xFF, from + 1)
    else KeyScanAsWritten(keys, target, from + 1)
  }

  /** With keys 0 and 1 both pressed, the scan as written writes key 1 to
      register 0xFF, outside the sixteen registers. */
  lemma KeyScanAsWrittenOverruns()
    ensures var keys := [true, true] + seq(KeyCount - 2, _ => false);
            KeyScanAsWritten(keys, 3, 0) == [(3, 0), (0xFF, 1)] && 0xFF >= RegisterCount
  {
    var keys := [true, true] + seq(KeyCount - 2, _ => false);
    var k := KeyCount;
    while k > 2
      invariant 2 <= k <= KeyCount
      invariant KeyScanAsWritten(keys, 0xFF, k) == []
    {
      k := k - 1;
    }
  }

  /** After the first write every write of the scan goes to register 0xFF. */
  lemma {:induction false} KeyScanLaterWrites(keys: seq<bool>, from: nat)
    requires from <= |keys|
    ensures forall j :: 0 <= j < |KeyScanAsWritten(keys, 0xFF, from)| ==> KeyScanAsWritten(keys, 0xFF, from)[j].0 == 0xFF
    decreases |keys| - from
  {
    if from < |keys| {
      KeyScanLaterWrites(keys, from + 1);
    }
  }

  /** The one in-range write of the scan as written puts the lowest pressed
      key in the awaited register, as TakeKey does; every further pressed
      key is written out of range. */
  lemma {:induction false} KeyScanFirstWrite(keys: seq<bool>, target: int, from: nat)
    requires from < |keys| && AnyPressed(keys[from..])
    ensures var w := KeyScanAsWritten(keys, target, from);
            |w| >= 1 && w[0] == (target, from + FirstPressed(keys[from..])) &&
            (forall j :: 1 <= j < |w| ==> w[j].0 == 0xFF)
    decreases |keys| - from
  {
    var rest := keys[from..];
    assert rest[0] == keys[from];
    if keys[from] {
      KeyScanLaterWrites(keys, from + 1);
    } else {
      var k :| 0 <= k < |rest| && rest[k];
      assert k > 0;
      assert keys[from + 1..] == rest[1..];
      assert keys[from + 1..][k - 1];
      KeyScanFirstWrite(keys, target, from + 1);
    }
  }

  /** TakeKey is the scan as written with its out-of-range writes dropped. */
  lemma TakeKeyIsFirstWrite(m: Machine)
    requires Valid(m) && m.keyWait.AwaitingKey? && AnyPressed(m.keyboard)
    ensures var w := KeyScanAsWritten(m.keyboard, m.keyWait.register, 0);
            |w| >= 1 && w[0] == (m.keyWait.register, FirstPressed(m.keyboard)) &&
            TakeKey(m).registers == m.registers[m.keyWait.register := FirstPressed(m.keyboard) as Byte]
  {
    assert m.keyboard[0..] == m.keyboard;
    KeyScanFirstWrite(m.keyboard, m.keyWait.register, 0);
  }
}
