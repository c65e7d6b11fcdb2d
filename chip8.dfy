/** The interpreter object: fixed-size arrays for RAM, the registers, the
    return stack, the keyboard snapshot and the display copy, scalar fields
    for PC, I, the timers, the stack height and the key wait. Every method
    is proved to move the object exactly as the matching function of
    Chip8Spec moves its State(). */
module Chip8 {
  import opened Chip8Types
  import opened Display
  import opened Chip8Spec
  import opened Rom

  /** The byte copy (std::copy / memcpy) that Load, FX55 and FX65 use: `data`
      written into `dst` from index `at` on. */
  method Copy(dst: array<Byte>, at: int, data: seq<Byte>)
    requires 0 <= at && at + |data| <= dst.Length
    modifies dst
    ensures dst[..] == Patch(old(dst[..]), at, data)
  {
    for k := 0 to |data|
      invariant forall a :: 0 <= a < dst.Length ==>
                  dst[a] == if at <= a < at + k then data[a - at] else old(dst[a])
    {
      dst[at + k] := data[k];
    }
  }

  /** The nested row/column loop of DXYN over the `n`-row sprite at spriteAt. */
  method BlitSprite(ram: array<Byte>, spriteAt: int, n: int, baseX: int, baseY: int) returns (flippedOff: bool)
    requires ram.Length == RamSize && 0 <= spriteAt && 0 <= n && spriteAt + n < RamSize && baseX >= 0 && baseY >= 0
    modifies ram
    ensures (ram[..], flippedOff) == Blit(old(ram[..]), spriteAt, baseX, baseY, n, 8 * n)
  {
    flippedOff := false;
    for srcY := 0 to n
      invariant (ram[..], flippedOff) == Blit(old(ram[..]), spriteAt, baseX, baseY, n, 8 * srcY)
    {
      flippedOff := BlitRow(ram, old(ram[..]), spriteAt, n, srcY, baseX, baseY, flippedOff);
    }
  }

  /** The inner loop of DXYN: the eight columns of sprite row `srcY`. */
  method BlitRow(ram: array<Byte>, ghost before: seq<Byte>, spriteAt: int, n: int, srcY: int,
                 baseX: int, baseY: int, flippedOff: bool) returns (flipped: bool)
    requires ram.Length == RamSize && 0 <= spriteAt && |before| == RamSize
    requires 0 <= srcY < n && spriteAt + n < RamSize && baseX >= 0 && baseY >= 0
    requires (ram[..], flippedOff) == Blit(before, spriteAt, baseX, baseY, n, 8 * srcY)
    modifies ram
    ensures (ram[..], flipped) == Blit(before, spriteAt, baseX, baseY, n, 8 * srcY + 8)
  {
    flipped := flippedOff;
    for srcX := 0 to 8
      invariant (ram[..], flipped) == Blit(before, spriteAt, baseX, baseY, n, 8 * srcY + srcX)
    {
      assert Blit(before, spriteAt, baseX, baseY, n, 8 * srcY + srcX + 1)
          == BlitStep(ram[..], spriteAt, baseX, baseY, 8 * srcY + srcX, flipped);
      flipped := BlitPixel(ram, spriteAt, srcX, srcY, baseX, baseY, flipped);
    }
  }

  /** One pass of the inner loop: XOR source bit (srcX, srcY) of the sprite
      at spriteAt into the pixel it lands on, and raise the flag if that pixel
      was set and is turned off. */
  method BlitPixel(ram: array<Byte>, spriteAt: int, srcX: int, srcY: int, baseX: int, baseY: int,
                   flippedOff: bool) returns (flipped: bool)
    requires ram.Length == RamSize && 0 <= spriteAt
    requires 0 <= srcX < 8 && 0 <= srcY && spriteAt + srcY < RamSize && baseX >= 0 && baseY >= 0
    modifies ram
    ensures (ram[..], flipped) == BlitStep(old(ram[..]), spriteAt, baseX, baseY, 8 * srcY + srcX, flippedOff)
  {
    ghost var k := 8 * srcY + srcX;
    assert k / 8 == srcY && k % 8 == srcX;
    // Out of bounds wraps
    var dispX := (srcX + baseX) % DisplayWidth;
    var dispY := (srcY + baseY) % DisplayHeight;
    var pixelNum := dispY * DisplayWidth + dispX;
    assert pixelNum == StepPixel(baseX, baseY, k);
    var pixelBlockNum := pixelNum / 8;
    // Pixels are stored most significant bit first
    var pixelBlockBit := 7 - (pixelNum - 8 * pixelBlockNum);
    var dstBlock := ram[DisplayStart + pixelBlockNum];
    var srcBit := BitSet(ram[spriteAt + srcY], 7 - srcX);
    var dstBit := BitSet(dstBlock, pixelBlockBit);
    flipped := flippedOff;
    if srcBit && dstBit {
      flipped := true;
    }
    ram[DisplayStart + pixelBlockNum] := XorBit(dstBlock, pixelBlockBit, srcBit);
  }

  class CHIP8 {
    const ram: array<Byte>
    const displayBuffer: array<Byte>
    const registers: array<Byte>
    var pc: Address
    var i: Address
    var delayTimer: Byte
    var soundTimer: Byte
    /** The host writes the pressed/released snapshot here between steps. */
    const keyboard: array<bool>
    var keyWait: KeyWait
    const stackFrames: array<Address>
    var stack: int

    ghost predicate Valid()
      reads this
    {
      ram.Length == RamSize &&
      displayBuffer.Length == DisplaySize &&
      registers.Length == RegisterCount &&
      keyboard.Length == KeyCount &&
      stackFrames.Length == StackCapacity &&
      0 <= stack <= StackCapacity &&
      (keyWait.AwaitingKey? ==> 0 <= keyWait.register < RegisterCount) &&
      ram != registers && ram != displayBuffer && registers != displayBuffer &&
      keyboard as object != ram && keyboard as object != registers &&
      keyboard as object != displayBuffer && keyboard as object != stackFrames &&
      stackFrames as object != ram && stackFrames as object != registers &&
      stackFrames as object != displayBuffer
    }

    /** The machine record this object stands for. */
    ghost function State(): (m: Machine)
      reads this, ram, displayBuffer, registers, keyboard, stackFrames
      requires Valid()
      ensures Chip8Spec.Valid(m)
    {
      Machine(ram[..], displayBuffer[..], registers[..], pc, i, delayTimer, soundTimer,
              keyboard[..], keyWait, stackFrames[..], stack)
    }

    constructor()
      ensures Valid() && State() == Initial()
      ensures fresh(ram) && fresh(displayBuffer) && fresh(registers) && fresh(keyboard) && fresh(stackFrames)
    {
      ram := new Byte[RamSize](_ => 0);
      displayBuffer := new Byte[DisplaySize](_ => 0);
      registers := new Byte[RegisterCount](_ => 0);
      pc, i := 0, 0;
      delayTimer, soundTimer := 0, 0;
      keyboard := new bool[KeyCount](_ => false);
      keyWait := Running;
      stackFrames := new Address[StackCapacity](_ => 0);
      stack := 0;
    }

    /** Copies the image, then the glyph table, and sets PC. */
    method Load(rom: ROM, program: Program) returns (loaded: bool)
      requires Valid()
      modifies this, ram
      ensures Valid()
      ensures (State(), loaded) == Chip8Spec.Load(old(State()), rom.GetData(), program)
    {
      var data := rom.GetData();
      var offset := if program == CHIP8 then 0x200 else 0x600;
      loaded := false;
      if |data| + offset < RamSize {
        Copy(ram, offset, data);
        pc := offset;
        Copy(ram, CharacterSpritesStart, CharacterSprites);
        loaded := true;
      }
    }

    /** Runs up to `instructions` iterations; iteration k uses random(k)
        wherever the program asks for rand(). */
    method Step(instructions: nat, random: nat -> Byte) returns (fault: Option<Fault>)
      requires Valid()
      modifies this, ram, registers, stackFrames
      ensures Valid()
      ensures Outcome(State(), fault) == Chip8Spec.Step(old(State()), instructions, random)
    {
      fault := None;
      var n := 0;
      while n < instructions
        invariant Valid()
        invariant 0 <= n <= instructions && fault == None
        invariant Run(State(), n, instructions, random) == Run(old(State()), 0, instructions, random)
      {
        var stop;
        stop, fault := Iteration(n, instructions, random);
        if stop {
          return;
        }
        n := n + 1;
      }
    }

    /** Iteration `n` of Step's loop: stop while a key is awaited and none is
        pressed, otherwise hand over the key, then fetch and execute. */
    method Iteration(n: nat, count: nat, random: nat -> Byte) returns (stop: bool, fault: Option<Fault>)
      requires Valid() && n < count
      modifies this, ram, registers, stackFrames
      ensures Valid()
      ensures stop ==> Outcome(State(), fault) == Run(old(State()), n, count, random)
      ensures !stop ==> fault == None && Run(State(), n + 1, count, random) == Run(old(State()), n, count, random)
    {
      // Wait for input if we need to
      if keyWait.AwaitingKey? {
        var any := AnyKey();
        if !any {
          return true, None;
        }
        TakeKey();
      }
      fault := Cycle(random(n));
      stop := fault.Some?;
    }

    /** The body of one iteration once no key is awaited: read the next
        instruction and handle it. */
    method Cycle(random: Byte) returns (fault: Option<Fault>)
      requires Valid()
      modifies this, ram, registers, stackFrames
      ensures Valid()
      ensures Outcome(State(), fault) == Chip8Spec.Cycle(old(State()), random)
    {
      var ins;
      ins, fault := ReadInstruction();
      if fault.Some? {
        return;
      }
      fault := Execute(ins, random);
    }

    /** mKeyboard.any(). */
    method AnyKey() returns (any: bool)
      requires Valid()
      ensures any == AnyPressed(keyboard[..])
    {
      any := false;
      for k := 0 to KeyCount
        invariant any == exists j :: 0 <= j < k && keyboard[j]
      {
        if keyboard[k] {
          any := true;
        }
      }
    }

    /** The scan that hands a pressed key to the awaited register; once the
        wait is over, later pressed keys are ignored. */
    method TakeKey()
      requires Valid()
      requires keyWait.AwaitingKey? && AnyPressed(keyboard[..])
      modifies this, registers
      ensures Valid()
      ensures State() == Chip8Spec.TakeKey(old(State()))
    {
      ghost var first := FirstPressed(keyboard[..]);
      ghost var target := keyWait.register;
      for k := 0 to KeyCount
        invariant Valid()
        invariant pc == old(pc) && i == old(i) && stack == old(stack)
        invariant delayTimer == old(delayTimer) && soundTimer == old(soundTimer)
        invariant k <= first ==> keyWait == old(keyWait) && registers[..] == old(registers[..])
        invariant k > first ==> keyWait == Running &&
                                registers[..] == old(registers[..])[target := first as Byte]
      {
        if keyboard[k] && keyWait.AwaitingKey? {
          registers[keyWait.register] := k as Byte;
          keyWait := Running;
        }
      }
    }

    method Tick()
      requires Valid()
      modifies this
      ensures Valid()
      ensures State() == Chip8Spec.Tick(old(State()))
    {
      delayTimer := CountDown(delayTimer);
      soundTimer := CountDown(soundTimer);
    }

    /** Compares the frame buffer with the copy taken at the last draw. */
    method NeedsRedraw() returns (changed: bool)
      requires Valid()
      ensures changed == Chip8Spec.NeedsRedraw(State())
    {
      changed := false;
      var k := 0;
      while k < DisplaySize
        invariant 0 <= k <= DisplaySize
        invariant ram[DisplayStart..DisplayStart + k] == displayBuffer[..k]
      {
        if ram[DisplayStart + k] != displayBuffer[k] {
          changed := true;
          assert FrameBytes(ram[..])[k] != displayBuffer[..][k];
          return;
        }
        k := k + 1;
      }
      assert FrameBytes(ram[..]) == displayBuffer[..];
    }

    /** The bookkeeping part of Draw: snapshot the frame buffer. */
    method Draw()
      requires Valid()
      modifies displayBuffer
      ensures Valid()
      ensures State() == Chip8Spec.Draw(old(State()))
    {
      for k := 0 to DisplaySize
        modifies displayBuffer
        invariant displayBuffer[..k] == ram[DisplayStart..DisplayStart + k]
      {
        displayBuffer[k] := ram[DisplayStart + k];
      }
      assert displayBuffer[..] == FrameBytes(ram[..]);
    }

    /** Reads the big-endian opcode at PC and moves PC past it. */
    method ReadInstruction() returns (ins: Instruction, fault: Option<Fault>)
      requires Valid()
      modifies this
      ensures Valid()
      ensures fault.Some? <==> Fetch(old(State())).None?
      ensures fault.Some? ==> fault == Some(ProgramCounterLeftRam) && State() == old(State())
      ensures fault.None? ==> ins == Fetch(old(State())).value &&
                              State() == old(State()).(pc := old(pc) + InstructionSize)
    {
      if pc + InstructionSize >= RamSize {
        return 0, Some(ProgramCounterLeftRam);
      }
      ins := BigEndian(ram[pc], ram[pc + 1]);
      fault := None;
      pc := pc + InstructionSize;
    }

    /** The switch in Step on the opcode group. */
    method Execute(ins: Instruction, random: Byte) returns (fault: Option<Fault>)
      requires Valid()
      modifies this, ram, registers, stackFrames
      ensures Valid()
      ensures Outcome(State(), fault) == Dispatch(old(State()), ins, random)
    {
      match Group(ins)
      case 0x0 => fault := Handle0(ins);
      case 0x1 => fault := Handle1(ins);
      case 0x2 => fault := Handle2(ins);
      case 0x3 => fault := Handle3(ins);
      case 0x4 => fault := Handle4(ins);
      case 0x5 => fault := Handle5(ins);
      case 0x6 => fault := Handle6(ins);
      case 0x7 => fault := Handle7(ins);
      case 0x8 => fault := Handle8(ins);
      case 0x9 => fault := Handle9(ins);
      case 0xA => fault := HandleA(ins);
      case 0xB => fault := HandleB(ins);
      case 0xC => fault := HandleC(ins, random);
      case 0xD => fault := HandleD(ins);
      case 0xE => fault := HandleE(ins);
      case _ => fault := HandleF(ins);
    }

    /** Skips the next instruction unless that leaves RAM. */
    method SkipNext() returns (fault: Option<Fault>)
      requires Valid()
      modifies this
      ensures Valid()
      ensures Outcome(State(), fault) == Chip8Spec.SkipNext(old(State()))
    {
      fault := None;
      if pc + InstructionSize >= RamSize {
        return Some(BranchingOutsideRam);
      }
      pc := pc + InstructionSize;
    }

    method Handle0(ins: Instruction) returns (fault: Option<Fault>)
      requires Valid()
      modifies this, ram
      ensures Valid()
      ensures Outcome(State(), fault) == Chip8Spec.Handle0(old(State()), ins)
    {
      fault := None;
      var program := ins & 0x0FFF;
      if program == 0x00E0 {
        for k := 0 to DisplaySize
          modifies ram
          invariant forall a :: 0 <= a < RamSize ==>
                      ram[a] == if DisplayStart <= a < DisplayStart + k then 0 else old(ram[a])
        {
          ram[DisplayStart + k] := 0;
        }
        assert ram[..] == ClearDisplay(old(ram[..]));
      } else if program == 0x00EE {
        if stack == 0 {
          return Some(OutOfStackFrames);
        }
        stack := stack - 1;
        var address := stackFrames[stack];
        if address >= RamSize {
          return Some(InvalidAddressOnStack);
        }
        pc := address;
      } else {
        fault := Some(Unhandled(ins));
      }
    }

    method Handle1(ins: Instruction) returns (fault: Option<Fault>)
      requires Valid()
      modifies this
      ensures Valid()
      ensures Outcome(State(), fault) == Chip8Spec.Handle1(old(State()), ins)
    {
      pc := Target(ins);
      fault := None;
    }

    method Handle2(ins: Instruction) returns (fault: Option<Fault>)
      requires Valid()
      modifies this, stackFrames
      ensures Valid()
      ensures Outcome(State(), fault) == Chip8Spec.Handle2(old(State()), ins)
    {
      var address := Target(ins);
      if stack + 1 > StackCapacity {
        return Some(OutOfStackFrames);
      }
      stackFrames[stack] := pc;
      stack := stack + 1;
      pc := address;
      fault := None;
    }

    method Handle3(ins: Instruction) returns (fault: Option<Fault>)
      requires Valid()
      modifies this
      ensures Valid()
      ensures Outcome(State(), fault) == Chip8Spec.Handle3(old(State()), ins)
    {
      fault := None;
      if registers[RegX(ins)] == LowByte(ins) {
        fault := SkipNext();
      }
    }

    method Handle4(ins: Instruction) returns (fault: Option<Fault>)
      requires Valid()
      modifies this
      ensures Valid()
      ensures Outcome(State(), fault) == Chip8Spec.Handle4(old(State()), ins)
    {
      fault := None;
      if registers[RegX(ins)] != LowByte(ins) {
        fault := SkipNext();
      }
    }

    method Handle5(ins: Instruction) returns (fault: Option<Fault>)
      requires Valid()
      modifies this
      ensures Valid()
      ensures Outcome(State(), fault) == Chip8Spec.Handle5(old(State()), ins)
    {
      fault := None;
      var x := registers[RegX(ins)];
      var y := registers[RegY(ins)];
      if Nibble(ins) == 0x0 {
        if x == y {
          fault := SkipNext();
        }
      } else {
        fault := Some(Unhandled(ins));
      }
    }

    method Handle6(ins: Instruction) returns (fault: Option<Fault>)
      requires Valid()
      modifies registers
      ensures Valid()
      ensures Outcome(State(), fault) == Chip8Spec.Handle6(old(State()), ins)
    {
      registers[RegX(ins)] := LowByte(ins);
      fault := None;
    }

    method Handle7(ins: Instruction) returns (fault: Option<Fault>)
      requires Valid()
      modifies registers
      ensures Valid()
      ensures Outcome(State(), fault) == Chip8Spec.Handle7(old(State()), ins)
    {
      var reg := RegX(ins);
      var sum := ByteAdd(registers[reg], LowByte(ins));
      registers[reg] := sum;
      fault := None;
    }

    /** The result of each operation is written once, after the switch. */
    method Handle8(ins: Instruction) returns (fault: Option<Fault>)
      requires Valid()
      modifies registers
      ensures Valid()
      ensures Outcome(State(), fault) == Chip8Spec.Handle8(old(State()), ins)
    {
      fault := None;
      var rx, ry, op := RegX(ins), RegY(ins), Nibble(ins);
      var x := registers[rx];
      var y := registers[ry];
      var value: Byte;
      if op == 0x0 {
        value := y;
      } else if op == 0x1 {
        value := x | y;
      } else if op == 0x2 {
        value := x & y;
      } else if op == 0x3 {
        value := x ^ y;
      } else {
        fault := Handle8Flags(ins);
        return;
      }
      registers[rx] := value;
    }

    /** The flag-writing operations. VX and VY are never VF here, so the
        order of the two writes does not matter; the source sets VF first
        for 8XY6 and 8XYE and last for the others. */
    method Handle8Flags(ins: Instruction) returns (fault: Option<Fault>)
      requires Valid()
      modifies registers
      ensures Valid()
      ensures Outcome(State(), fault) == Chip8Spec.Handle8Flags(old(State()), ins)
    {
      fault := None;
      var rx, ry, op := RegX(ins), RegY(ins), Nibble(ins);
      var x := registers[rx];
      var y := registers[ry];
      var result: (Byte, Byte);
      if (op == 0x4 || op == 0x5 || op == 0x6 || op == 0x7 || op == 0xE) && (rx == VF || ry == VF) {
        return Some(Ordering);
      } else if op == 0x4 {
        result := AddWithCarry(x, y);
      } else if op == 0x5 {
        result := SubWithBorrow(x, y);
      } else if op == 0x7 {
        result := SubWithBorrow(y, x);
      } else if op == 0x6 {
        result := ShiftRightOut(x);
      } else if op == 0xE {
        result := ShiftLeftOut(x);
      } else {
        return Some(Unhandled(ins));
      }
      registers[rx] := result.0;
      registers[VF] := result.1;
    }

    method Handle9(ins: Instruction) returns (fault: Option<Fault>)
      requires Valid()
      modifies this
      ensures Valid()
      ensures Outcome(State(), fault) == Chip8Spec.Handle9(old(State()), ins)
    {
      fault := None;
      var x := registers[RegX(ins)];
      var y := registers[RegY(ins)];
      if Nibble(ins) == 0x0 {
        if x != y {
          fault := SkipNext();
        }
      } else {
        fault := Some(Unhandled(ins));
      }
    }

    method HandleA(ins: Instruction) returns (fault: Option<Fault>)
      requires Valid()
      modifies this
      ensures Valid()
      ensures Outcome(State(), fault) == Chip8Spec.HandleA(old(State()), ins)
    {
      i := Target(ins);
      fault := None;
    }

    method HandleB(ins: Instruction) returns (fault: Option<Fault>)
      requires Valid()
      modifies this
      ensures Valid()
      ensures Outcome(State(), fault) == Chip8Spec.HandleB(old(State()), ins)
    {
      var address := Target(ins);
      if Value(registers[0]) + address > RamSize {
        return Some(JumpOutOfRam);
      }
      pc := Value(registers[0]) + address;
      fault := None;
    }

    method HandleC(ins: Instruction, random: Byte) returns (fault: Option<Fault>)
      requires Valid()
      modifies registers
      ensures Valid()
      ensures Outcome(State(), fault) == Chip8Spec.HandleC(old(State()), ins, random)
    {
      var masked := random & LowByte(ins);
      registers[RegX(ins)] := masked;
      fault := None;
    }

    method HandleD(ins: Instruction) returns (fault: Option<Fault>)
      requires Valid()
      modifies ram, registers
      ensures Valid()
      ensures Outcome(State(), fault) == Chip8Spec.HandleD(old(State()), ins)
    {
      var n := Nibble(ins);
      var baseX := Value(registers[RegX(ins)]);
      var baseY := Value(registers[RegY(ins)]);
      if i + n >= RamSize {
        return Some(BlittingOutsideRam);
      }
      DrawSprite(n, baseX, baseY);
      fault := None;
    }

    /** The blit, then the collision flag into VF. */
    method DrawSprite(n: int, baseX: int, baseY: int)
      requires Valid() && 0 <= n && i + n < RamSize && baseX >= 0 && baseY >= 0
      modifies ram, registers
      ensures Valid()
      ensures State() == Chip8Spec.DrawSprite(old(State()), n, baseX, baseY)
    {
      var flippedOff := BlitSprite(ram, i, n, baseX, baseY);
      registers[VF] := Flag(flippedOff);
    }

    method HandleE(ins: Instruction) returns (fault: Option<Fault>)
      requires Valid()
      modifies this
      ensures Valid()
      ensures Outcome(State(), fault) == Chip8Spec.HandleE(old(State()), ins)
    {
      fault := None;
      var op := LowByte(ins);
      var val := registers[RegX(ins)];
      if op == 0x9E {
        if Value(val) >= KeyCount {
          return Some(InvalidKeyCode);
        }
        if keyboard[Value(val)] {
          pc := (pc + InstructionSize) % 0x1_0000;
        }
      } else if op == 0xA1 {
        if Value(val) >= KeyCount {
          return Some(InvalidKeyCode);
        }
        if !keyboard[Value(val)] {
          pc := (pc + InstructionSize) % 0x1_0000;
        }
      } else {
        fault := Some(Unhandled(ins));
      }
    }

    method HandleF(ins: Instruction) returns (fault: Option<Fault>)
      requires Valid()
      modifies this, ram, registers
      ensures Valid()
      ensures Outcome(State(), fault) == Chip8Spec.HandleF(old(State()), ins)
    {
      fault := None;
      var reg := RegX(ins);
      var op := LowByte(ins);
      var val := registers[reg];
      if op == 0x07 {
        registers[reg] := delayTimer;
      } else if op == 0x0A {
        // Handled by the next iteration of Step
        keyWait := AwaitingKey(reg);
      } else if op == 0x15 {
        delayTimer := val;
      } else if op == 0x18 {
        soundTimer := val;
      } else if op == 0x1E {
        if i + Value(val) > RamSize {
          return Some(MovingIOutsideRam);
        }
        i := i + Value(val);
      } else if op == 0x29 {
        if Value(val) >= 16 {
          return Some(UnknownKey);
        }
        i := CharacterSpritesStart + Value(val) * GlyphHeight;
      } else if op == 0x33 {
        fault := StoreBcd(val);
      } else if op == 0x55 {
        fault := StoreRegisters(reg);
      } else if op == 0x65 {
        fault := LoadRegisters(reg);
      } else {
        fault := Some(Unhandled(ins));
      }
    }

    method StoreBcd(val: Byte) returns (fault: Option<Fault>)
      requires Valid()
      modifies ram
      ensures Valid()
      ensures Outcome(State(), fault) == Chip8Spec.StoreBcd(old(State()), val)
    {
      if i + 3 > RamSize {
        return Some(StoringOutsideRam);
      }
      var digits := Bcd(val);
      ram[i] := digits[0];
      ram[i + 1] := digits[1];
      ram[i + 2] := digits[2];
      assert ram[..] == Patch(old(ram[..]), i, digits);
      fault := None;
    }

    /** The memcpy from the registers into RAM. */
    method StoreRegisters(reg: int) returns (fault: Option<Fault>)
      requires Valid() && 0 <= reg < RegisterCount
      modifies ram
      ensures Valid()
      ensures Outcome(State(), fault) == Chip8Spec.StoreRegisters(old(State()), reg)
    {
      if i + reg >= RamSize {
        return Some(CopyingToOutsideRam);
      }
      Copy(ram, i, registers[..reg + 1]);
      fault := None;
    }

    /** The memcpy from RAM into the registers. */
    method LoadRegisters(reg: int) returns (fault: Option<Fault>)
      requires Valid() && 0 <= reg < RegisterCount
      modifies registers
      ensures Valid()
      ensures Outcome(State(), fault) == Chip8Spec.LoadRegisters(old(State()), reg)
    {
      if i + reg >= RamSize {
        return Some(CopyingFromOutsideRam);
      }
      Copy(registers, 0, ram[i..i + reg + 1]);
      fault := None;
    }
  }
}
