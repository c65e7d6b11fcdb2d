/** The CHIP-8 interpreter as state transitions on a machine record: one
    function per opcode group, the fetch, the Step loop with its key-wait
    sub-state, the timer tick, program loading and the redraw check. Every
    fatal error is an Outcome carrying the fault and the state at the point
    where the interpreter raised it. */
module Chip8Spec {
  import opened Chip8Types
  import opened Display

  datatype Option<T> = None | Some(value: T)

  /** Whether Step is blocked until a key lands in `register` (the
      interpreter's mKeyboardRegister, with 0xFF meaning Running). */
  datatype KeyWait = Running | AwaitingKey(register: int)

  /** The two load conventions: CHIP8 programs start at 0x200, any other
      program type at 0x600. */
  datatype Program = CHIP8 | Other

  /** The fatal errors, one per message the interpreter raises. */
  datatype Fault =
    | ProgramCounterLeftRam
    | OutOfStackFrames
    | InvalidAddressOnStack
    | BranchingOutsideRam
    | Ordering
    | JumpOutOfRam
    | BlittingOutsideRam
    | InvalidKeyCode
    | MovingIOutsideRam
    | UnknownKey
    | StoringOutsideRam
    | CopyingToOutsideRam
    | CopyingFromOutsideRam
    | Unhandled(ins: Instruction)

  datatype Machine = Machine(
    ram: seq<Byte>,
    displayBuffer: seq<Byte>,
    registers: seq<Byte>,
    pc: Address,
    i: Address,
    delayTimer: Byte,
    soundTimer: Byte,
    keyboard: seq<bool>,
    keyWait: KeyWait,
    stackFrames: seq<Address>,
    stack: int)

  /** The fixed capacities of the state. */
  predicate Valid(m: Machine)
  {
    |m.ram| == RamSize &&
    |m.displayBuffer| == DisplaySize &&
    |m.registers| == RegisterCount &&
    |m.keyboard| == KeyCount &&
    |m.stackFrames| == StackCapacity &&
    0 <= m.stack <= StackCapacity &&
    (m.keyWait.AwaitingKey? ==> 0 <= m.keyWait.register < RegisterCount)
  }

  /** The machine after a step, and the fault that stopped it, if any. */
  datatype Outcome = Outcome(m: Machine, fault: Option<Fault>)

  function Ok(m: Machine): Outcome { Outcome(m, None) }

  function Fail(m: Machine, f: Fault): Outcome { Outcome(m, Some(f)) }

  /** The constructed machine: everything zero, no key awaited. */
  function Initial(): (m: Machine)
    ensures Valid(m)
  {
    Machine(seq(RamSize, _ => 0), seq(DisplaySize, _ => 0), seq(RegisterCount, _ => 0), 0, 0, 0, 0,
            seq(KeyCount, _ => false), Running, seq(StackCapacity, _ => 0), 0)
  }

  function LoadOffset(program: Program): int
  {
    if program == CHIP8 then 0x200 else 0x600
  }

  /** `s` with `data` written at `at`. */
  function Patch(s: seq<Byte>, at: int, data: seq<Byte>): (r: seq<Byte>)
    requires 0 <= at && at + |data| <= |s|
    ensures |r| == |s|
    ensures forall a :: at <= a < at + |data| ==> r[a] == data[a - at]
    ensures forall a :: 0 <= a < |s| && !(at <= a < at + |data|) ==> r[a] == s[a]
  {
    s[..at] + data + s[at + |data|..]
  }

  /** Copies the image to its offset, installs the glyph table and sets PC,
      provided the image ends below the top of RAM; otherwise changes nothing. */
  function Load(m: Machine, data: seq<Byte>, program: Program): (r: (Machine, bool))
    requires Valid(m)
    ensures Valid(r.0)
    ensures r.1 <==> |data| + LoadOffset(program) < RamSize
    ensures !r.1 ==> r.0 == m
  {
    var offset := LoadOffset(program);
    if |data| + offset < RamSize then
      var withImage := Patch(m.ram, offset, data);
      var withGlyphs := Patch(withImage, CharacterSpritesStart, CharacterSprites);
      (m.(ram := withGlyphs, pc := offset), true)
    else
      (m, false)
  }

  /** The fetch: the big-endian opcode at PC, or nothing when PC + 2 reaches
      the top of RAM. */
  function Fetch(m: Machine): (ins: Option<Instruction>)
    requires Valid(m)
    ensures ins.None? <==> m.pc + InstructionSize >= RamSize
    ensures ins.Some? ==> (ins.value >> 8) as Byte == m.ram[m.pc] && (ins.value & 0xFF) as Byte == m.ram[m.pc + 1]
  {
    if m.pc + InstructionSize >= RamSize then None
    else
      FetchByteOrder(m.ram[m.pc], m.ram[m.pc + 1]);
      Some(BigEndian(m.ram[m.pc], m.ram[m.pc + 1]))
  }

  function SetRegister(m: Machine, r: int, v: Byte): Machine
    requires Valid(m) && 0 <= r < RegisterCount
  {
    m.(registers := m.registers[r := v])
  }

  /** Skipping the next instruction, refused when it would leave RAM. */
  function SkipNext(m: Machine): (o: Outcome)
    requires Valid(m)
    ensures Valid(o.m)
  {
    if m.pc + InstructionSize >= RamSize then Fail(m, BranchingOutsideRam)
    else Ok(m.(pc := m.pc + InstructionSize))
  }

  /** 00E0 clears the display, 00EE returns from a call. */
  function Handle0(m: Machine, ins: Instruction): (o: Outcome)
    requires Valid(m)
    ensures Valid(o.m)
  {
    var program := ins & 0x0FFF;
    if program == 0x00E0 then
      Ok(m.(ram := ClearDisplay(m.ram)))
    else if program == 0x00EE then
      if m.stack == 0 then Fail(m, OutOfStackFrames)
      else
        var popped := m.(stack := m.stack - 1);
        var address := m.stackFrames[m.stack - 1];
        if address >= RamSize then Fail(popped, InvalidAddressOnStack)
        else Ok(popped.(pc := address))
    else
      Fail(m, Unhandled(ins))
  }

  /** 1NNN jumps. */
  function Handle1(m: Machine, ins: Instruction): (o: Outcome)
    requires Valid(m)
    ensures Valid(o.m)
  {
    Ok(m.(pc := Target(ins)))
  }

  /** 2NNN pushes the (already advanced) PC and jumps. */
  function Handle2(m: Machine, ins: Instruction): (o: Outcome)
    requires Valid(m)
    ensures Valid(o.m)
  {
    if m.stack + 1 > StackCapacity then Fail(m, OutOfStackFrames)
    else Ok(m.(stackFrames := m.stackFrames[m.stack := m.pc], stack := m.stack + 1, pc := Target(ins)))
  }

  /** 3XKK skips if VX == KK. */
  function Handle3(m: Machine, ins: Instruction): (o: Outcome)
    requires Valid(m)
    ensures Valid(o.m)
  {
    if m.registers[RegX(ins)] == LowByte(ins) then SkipNext(m) else Ok(m)
  }

  /** 4XKK skips if VX != KK. */
  function Handle4(m: Machine, ins: Instruction): (o: Outcome)
    requires Valid(m)
    ensures Valid(o.m)
  {
    if m.registers[RegX(ins)] != LowByte(ins) then SkipNext(m) else Ok(m)
  }

  /** 5XY0 skips if VX == VY; other low nibbles are undefined. */
  function Handle5(m: Machine, ins: Instruction): (o: Outcome)
    requires Valid(m)
    ensures Valid(o.m)
  {
    var x := m.registers[RegX(ins)];
    var y := m.registers[RegY(ins)];
    if Nibble(ins) == 0x0 then
      if x == y then SkipNext(m) else Ok(m)
    else
      Fail(m, Unhandled(ins))
  }

  /** 6XKK loads KK into VX. */
  function Handle6(m: Machine, ins: Instruction): (o: Outcome)
    requires Valid(m)
    ensures Valid(o.m)
  {
    Ok(SetRegister(m, RegX(ins), LowByte(ins)))
  }

  /** 7XKK adds KK to VX modulo 256, VF untouched. */
  function Handle7(m: Machine, ins: Instruction): (o: Outcome)
    requires Valid(m)
    ensures Valid(o.m)
  {
    var reg := RegX(ins);
    Ok(SetRegister(m, reg, ByteAdd(m.registers[reg], LowByte(ins))))
  }

  /** 8XYN: the register-register ALU. The flag-writing operations refuse VF
      as either operand. */
  function Handle8(m: Machine, ins: Instruction): (o: Outcome)
    requires Valid(m)
    ensures Valid(o.m)
  {
    var rx, ry, op := RegX(ins), RegY(ins), Nibble(ins);
    var x := m.registers[rx];
    var y := m.registers[ry];
    if op == 0x0 then Ok(SetRegister(m, rx, y))
    else if op == 0x1 then Ok(SetRegister(m, rx, x | y))
    else if op == 0x2 then Ok(SetRegister(m, rx, x & y))
    else if op == 0x3 then Ok(SetRegister(m, rx, x ^ y))
    else Handle8Flags(m, ins)
  }

  /** The 8XYN operations from 4 on: the ones that write VF, and the
      undefined low nibbles. The source sets VF before VX for 8XY6 and 8XYE;
      as neither operand is VF here, the order does not change the result. */
  function Handle8Flags(m: Machine, ins: Instruction): (o: Outcome)
    requires Valid(m)
    ensures Valid(o.m)
  {
    var rx, ry, op := RegX(ins), RegY(ins), Nibble(ins);
    var x := m.registers[rx];
    var y := m.registers[ry];
    if (op == 0x4 || op == 0x5 || op == 0x6 || op == 0x7 || op == 0xE) && (rx == VF || ry == VF) then
      Fail(m, Ordering)
    else if op == 0x4 then SetWithFlag(m, rx, AddWithCarry(x, y))
    else if op == 0x5 then SetWithFlag(m, rx, SubWithBorrow(x, y))
    else if op == 0x7 then SetWithFlag(m, rx, SubWithBorrow(y, x))
    else if op == 0x6 then SetWithFlag(m, rx, ShiftRightOut(x))
    else if op == 0xE then SetWithFlag(m, rx, ShiftLeftOut(x))
    else Fail(m, Unhandled(ins))
  }

  /** VX gets the result, then VF gets the flag. */
  function SetWithFlag(m: Machine, rx: int, result: (Byte, Byte)): (o: Outcome)
    requires Valid(m) && 0 <= rx < RegisterCount
    ensures Valid(o.m)
  {
    Ok(m.(registers := m.registers[rx := result.0][VF := result.1]))
  }

  /** 9XY0 skips if VX != VY; other low nibbles are undefined. */
  function Handle9(m: Machine, ins: Instruction): (o: Outcome)
    requires Valid(m)
    ensures Valid(o.m)
  {
    var x := m.registers[RegX(ins)];
    var y := m.registers[RegY(ins)];
    if Nibble(ins) == 0x0 then
      if x != y then SkipNext(m) else Ok(m)
    else
      Fail(m, Unhandled(ins))
  }

  /** ANNN loads I. */
  function HandleA(m: Machine, ins: Instruction): (o: Outcome)
    requires Valid(m)
    ensures Valid(o.m)
  {
    Ok(m.(i := Target(ins)))
  }

  /** BNNN jumps to NNN + V0, refused beyond the end of RAM. */
  function HandleB(m: Machine, ins: Instruction): (o: Outcome)
    requires Valid(m)
    ensures Valid(o.m)
  {
    var address := Target(ins);
    if Value(m.registers[0]) + address > RamSize then Fail(m, JumpOutOfRam)
    else Ok(m.(pc := Value(m.registers[0]) + address))
  }

  /** CXKK: VX gets a random byte masked by KK; `random` stands for rand(). */
  function HandleC(m: Machine, ins: Instruction, random: Byte): (o: Outcome)
    requires Valid(m)
    ensures Valid(o.m)
  {
    Ok(SetRegister(m, RegX(ins), random & LowByte(ins)))
  }

  /** DXYN XOR-blits the N-byte sprite at I at (VX, VY) and sets VF to the
      "flipped off" flag. */
  function HandleD(m: Machine, ins: Instruction): (o: Outcome)
    requires Valid(m)
    ensures Valid(o.m)
  {
    var n := Nibble(ins);
    var baseX := Value(m.registers[RegX(ins)]);
    var baseY := Value(m.registers[RegY(ins)]);
    if m.i + n >= RamSize then Fail(m, BlittingOutsideRam)
    else Ok(DrawSprite(m, n, baseX, baseY))
  }

  /** The blit of the `n`-row sprite at I with its corner at (baseX, baseY),
      and VF set to whether any pixel was turned off. */
  function DrawSprite(m: Machine, n: int, baseX: int, baseY: int): (r: Machine)
    requires Valid(m) && 0 <= n && m.i + n < RamSize && baseX >= 0 && baseY >= 0
    ensures Valid(r)
  {
    var drawn := Blit(m.ram, m.i, baseX, baseY, n, 8 * n);
    m.(ram := drawn.0, registers := m.registers[VF := Flag(drawn.1)])
  }

  /** EX9E / EXA1 skip if key VX is / is not pressed. The skip is not
      bounds-checked; PC wraps as a 16-bit value. */
  function HandleE(m: Machine, ins: Instruction): (o: Outcome)
    requires Valid(m)
    ensures Valid(o.m)
  {
    var op := LowByte(ins);
    var val := m.registers[RegX(ins)];
    var skipped := m.(pc := (m.pc + InstructionSize) % 0x1_0000);
    if op == 0x9E then
      if Value(val) >= KeyCount then Fail(m, InvalidKeyCode)
      else if m.keyboard[Value(val)] then Ok(skipped) else Ok(m)
    else if op == 0xA1 then
      if Value(val) >= KeyCount then Fail(m, InvalidKeyCode)
      else if !m.keyboard[Value(val)] then Ok(skipped) else Ok(m)
    else
      Fail(m, Unhandled(ins))
  }

  /** The three decimal digits of a byte, hundreds first. */
  function Bcd(val: Byte): seq<Byte>
  {
    [(val / 100) % 10, (val / 10) % 10, (val / 1) % 10]
  }

  /** FX..: timers, key wait, I arithmetic, glyph address, BCD and the
      register block copies. */
  function HandleF(m: Machine, ins: Instruction): (o: Outcome)
    requires Valid(m)
    ensures Valid(o.m)
  {
    var reg := RegX(ins);
    var op := LowByte(ins);
    var val := m.registers[reg];
    if op == 0x07 then Ok(SetRegister(m, reg, m.delayTimer))
    else if op == 0x0A then Ok(m.(keyWait := AwaitingKey(reg)))
    else if op == 0x15 then Ok(m.(delayTimer := val))
    else if op == 0x18 then Ok(m.(soundTimer := val))
    else if op == 0x1E then
      if m.i + Value(val) > RamSize then Fail(m, MovingIOutsideRam)
      else Ok(m.(i := m.i + Value(val)))
    else if op == 0x29 then
      if Value(val) >= 16 then Fail(m, UnknownKey)
      else Ok(m.(i := CharacterSpritesStart + Value(val) * GlyphHeight))
    else if op == 0x33 then StoreBcd(m, val)
    else if op == 0x55 then StoreRegisters(m, reg)
    else if op == 0x65 then LoadRegisters(m, reg)
    else
      Fail(m, Unhandled(ins))
  }

  /** FX33: the decimal digits of VX at I, I + 1, I + 2. */
  function StoreBcd(m: Machine, val: Byte): (o: Outcome)
    requires Valid(m)
    ensures Valid(o.m)
  {
    if m.i + 3 > RamSize then Fail(m, StoringOutsideRam)
    else Ok(m.(ram := Patch(m.ram, m.i, Bcd(val))))
  }

  /** FX55: V0 .. VX copied to RAM from I on. */
  function StoreRegisters(m: Machine, reg: int): (o: Outcome)
    requires Valid(m) && 0 <= reg < RegisterCount
    ensures Valid(o.m)
  {
    if m.i + reg >= RamSize then Fail(m, CopyingToOutsideRam)
    else Ok(m.(ram := Patch(m.ram, m.i, m.registers[..reg + 1])))
  }

  /** FX65: V0 .. VX loaded from RAM from I on. */
  function LoadRegisters(m: Machine, reg: int): (o: Outcome)
    requires Valid(m) && 0 <= reg < RegisterCount
    ensures Valid(o.m)
  {
    if m.i + reg >= RamSize then Fail(m, CopyingFromOutsideRam)
    else Ok(m.(registers := Patch(m.registers, 0, m.ram[m.i..m.i + reg + 1])))
  }

  /** The switch on the top nibble. */
  function Dispatch(m: Machine, ins: Instruction, random: Byte): (o: Outcome)
    requires Valid(m)
    ensures Valid(o.m)
  {
    match Group(ins)
    case 0x0 => Handle0(m, ins)
    case 0x1 => Handle1(m, ins)
    case 0x2 => Handle2(m, ins)
    case 0x3 => Handle3(m, ins)
    case 0x4 => Handle4(m, ins)
    case 0x5 => Handle5(m, ins)
    case 0x6 => Handle6(m, ins)
    case 0x7 => Handle7(m, ins)
    case 0x8 => Handle8(m, ins)
    case 0x9 => Handle9(m, ins)
    case 0xA => HandleA(m, ins)
    case 0xB => HandleB(m, ins)
    case 0xC => HandleC(m, ins, random)
    case 0xD => HandleD(m, ins)
    case 0xE => HandleE(m, ins)
    case _ => HandleF(m, ins)
  }

  /** Fetch, advance PC by two, execute. */
  function Cycle(m: Machine, random: Byte): (o: Outcome)
    requires Valid(m)
    ensures Valid(o.m)
  {
    match Fetch(m)
    case None => Fail(m, ProgramCounterLeftRam)
    case Some(ins) => Dispatch(m.(pc := m.pc + InstructionSize), ins, random)
  }

  /** The lowest pressed key, or |keys| when none is pressed. */
  function FirstPressed(keys: seq<bool>): (k: int)
    ensures 0 <= k <= |keys|
    ensures k < |keys| ==> keys[k]
    ensures forall j :: 0 <= j < k ==> !keys[j]
  {
    if keys == [] then 0
    else if keys[0] then 0
    else 1 + FirstPressed(keys[1..])
  }

  predicate AnyPressed(keys: seq<bool>)
  {
    exists k :: 0 <= k < |keys| && keys[k]
  }

  /** Ends a key wait once a key is pressed: the lowest pressed key lands in
      the awaited register. */
  function TakeKey(m: Machine): (r: Machine)
    requires Valid(m)
    ensures Valid(r)
  {
    if m.keyWait.AwaitingKey? && AnyPressed(m.keyboard) then
      m.(registers := m.registers[m.keyWait.register := FirstPressed(m.keyboard) as Byte], keyWait := Running)
    else m
  }

  /** Iterations `done` .. `count` - 1 of Step: stop while a key is awaited
      and none is pressed, otherwise take the key, fetch and execute; stop at
      the first fault. Iteration k draws rand() as random(k). */
  function Run(m: Machine, done: nat, count: nat, random: nat -> Byte): (o: Outcome)
    requires Valid(m)
    ensures Valid(o.m)
    decreases count - done
  {
    if done >= count then Ok(m)
    else if m.keyWait.AwaitingKey? && !AnyPressed(m.keyboard) then Ok(m)
    else
      var o := Cycle(TakeKey(m), random(done));
      if o.fault.Some? then o else Run(o.m, done + 1, count, random)
  }

  /** Step(instructions). */
  function Step(m: Machine, instructions: nat, random: nat -> Byte): (o: Outcome)
    requires Valid(m)
    ensures Valid(o.m)
  {
    Run(m, 0, instructions, random)
  }

  /** The timer tick: each timer counts down to zero and stays there. */
  function Tick(m: Machine): (r: Machine)
    requires Valid(m)
    ensures Valid(r)
  {
    m.(delayTimer := CountDown(m.delayTimer), soundTimer := CountDown(m.soundTimer))
  }

  /** The frame differs from the copy taken at the last draw. */
  predicate NeedsRedraw(m: Machine)
    requires Valid(m)
  {
    FrameBytes(m.ram) != m.displayBuffer
  }

  /** Draw's bookkeeping: remember the frame being shown. */
  function Draw(m: Machine): (r: Machine)
    requires Valid(m)
    ensures Valid(r)
  {
    m.(displayBuffer := FrameBytes(m.ram))
  }
}
