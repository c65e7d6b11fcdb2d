/** Widths, sizes and constants of the CHIP-8 interpreter, the byte-order helper
    and the built-in hexadecimal glyph table. */
module Chip8Types {

  /** One byte of RAM, a register, a timer (std::byte / uint8_t). */
  type Byte = bv8

  /** A 16-bit opcode (uint16_t), big-endian in RAM. */
  type Instruction = bv16

  /** PC, I and the stack frames are uint16_t. */
  type Address = x: int | 0 <= x < 0x1_0000

  /** Capacities of the fixed-size state. */
  const RamSize := 4096
  const RegisterCount := 16
  const StackCapacity := 24
  const KeyCount := 16

  /** sizeof(Instruction): the fetch advance and the skip distance. */
  const InstructionSize := 2

  /** The display frame buffer lives in RAM: 64 x 32 pixels, one bit each,
      row-major, most significant bit first. DisplaySize is the byte count the
      clear and the redraw compare use (0xFF), one less than the 256 bytes the
      geometry covers. */
  const DisplayStart := 0xF00
  const DisplaySize := 0xFF
  const DisplayWidth := 64
  const DisplayHeight := 32
  const PixelCount := DisplayWidth * DisplayHeight

  /** Where Load installs the glyph table. */
  const CharacterSpritesStart := 0x10
  const GlyphHeight := 5

  /** The register that receives carry, borrow, shift-out and collision. */
  const VF := 0xF

  /** The 4 x 5 glyphs of the hexadecimal digits 0..F, five rows each. */
  const CharacterSprites: seq<Byte> := [
    0xF0, 0x90, 0x90, 0x90, 0xF0,  // 0
    0x60, 0xA0, 0x20, 0x20, 0xF0,  // 1
    0xF0, 0x10, 0xF0, 0x80, 0xF0,  // 2
    0xF0, 0x10, 0xF0, 0x10, 0xF0,  // 3
    0x90, 0x90, 0xF0, 0x10, 0x10,  // 4
    0xF0, 0x80, 0xF0, 0x10, 0xF0,  // 5
    0xF0, 0x80, 0xF0, 0x90, 0xF0,  // 6
    0xF0, 0x10, 0x10, 0x10, 0x10,  // 7
    0xF0, 0x90, 0xF0, 0x90, 0xF0,  // 8
    0xF0, 0x90, 0xF0, 0x10, 0x10,  // 9
    0xF0, 0x90, 0xF0, 0x90, 0x90,  // A
    0xE0, 0x90, 0xE0, 0x90, 0xE0,  // B
    0xF0, 0x80, 0x80, 0x80, 0xF0,  // C
    0xE0, 0x90, 0x90, 0x90, 0xE0,  // D
    0xF0, 0x80, 0xF0, 0x80, 0xF0,  // E
    0xF0, 0x80, 0xF0, 0x80, 0x80   // F
  ]

  /** The table holds five rows per digit and fits in the low RAM below
      both program load offsets. */
  lemma GlyphTableShape()
    ensures |CharacterSprites| == GlyphHeight * 16
    ensures CharacterSpritesStart + |CharacterSprites| <= 0x200
  {
  }

  /** Exchanges the two bytes of a 16-bit value. */
  function BSwap(val: bv16): (o: bv16)
    ensures o >> 8 == val & 0x00FF && o & 0x00FF == val >> 8
  {
    ((val >> 8) & 0x00FF) | ((val << 8) & 0xFF00)
  }

  lemma BSwapInvolution(val: bv16)
    ensures BSwap(BSwap(val)) == val
  {
  }

  /** The instruction stored as `hi` followed by `lo`. */
  function BigEndian(hi: Byte, lo: Byte): Instruction
  {
    ((hi as bv16) << 8) | lo as bv16
  }

  /** What a two-byte copy of `b0, b1` gives on a little-endian host. */
  function LittleEndian(b0: Byte, b1: Byte): bv16
  {
    ((b1 as bv16) << 8) | b0 as bv16
  }

  /** Swapping the host's little-endian load yields the big-endian opcode,
      whose high byte is the first byte in memory. */
  lemma FetchByteOrder(b0: Byte, b1: Byte)
    ensures BSwap(LittleEndian(b0, b1)) == BigEndian(b0, b1)
    ensures (BigEndian(b0, b1) >> 8) as Byte == b0
    ensures (BigEndian(b0, b1) & 0xFF) as Byte == b1
  {
  }

  /** The unsigned value of a byte, as an index or an address offset. */
  function Value(b: Byte): (v: int)
    ensures 0 <= v < 0x100
  {
    b as int
  }

  /** One timer tick: one less, stopping at zero. */
  function CountDown(t: Byte): Byte
  {
    if t > 0 then t - 1 else t
  }

  /** A boolean stored in VF: 1 for true, 0 for false. */
  function Flag(b: bool): Byte { if b then 1 else 0 }

  /** 7XKK: register addition wraps modulo 256. */
  function ByteAdd(x: Byte, y: Byte): Byte { x + y }

  /** The flag-writing ALU operations of 8XYN, each giving the new VX and
      the new VF. */

  /** 8XY4: the wrapped sum, and 1 when the sum does not fit in a byte. */
  function AddWithCarry(x: Byte, y: Byte): (Byte, Byte)
  {
    (ByteAdd(x, y), if x as bv16 + y as bv16 > 0xFF then 1 else 0)
  }

  /** 8XY5 (a = VX, b = VY) and 8XY7 (a = VY, b = VX): the wrapped
      difference a - b, and 1 when no borrow was needed. */
  function SubWithBorrow(a: Byte, b: Byte): (Byte, Byte)
  {
    (a - b, if a < b then 0 else 1)
  }

  /** 8XY6: VX shifted right, and the bit shifted out. */
  function ShiftRightOut(x: Byte): (Byte, Byte)
  {
    (x >> 1, (x >> 0) & 1)
  }

  /** 8XYE: VX shifted left, and the bit shifted out. */
  function ShiftLeftOut(x: Byte): (Byte, Byte)
  {
    (x << 1, (x >> 7) & 1)
  }

  /** Instruction fields. */

  /** The opcode group selecting one of the sixteen handlers. */
  function Group(ins: Instruction): (g: int)
    ensures 0 <= g < 16
  {
    (ins / 0x1000) as int
  }

  /** The register nibble in bits 8..11. */
  function RegX(ins: Instruction): (r: int)
    ensures 0 <= r < RegisterCount
  {
    ((ins >> 8) & 0x0F) as int
  }

  /** The register nibble in bits 4..7. */
  function RegY(ins: Instruction): (r: int)
    ensures 0 <= r < RegisterCount
  {
    ((ins >> 4) & 0x0F) as int
  }

  /** The low nibble: a sub-opcode or a sprite height. */
  function Nibble(ins: Instruction): (n: int)
    ensures 0 <= n < 16
  {
    (ins & 0x0F) as int
  }

  /** The low byte: an immediate value or a sub-opcode. */
  function LowByte(ins: Instruction): Byte
  {
    (ins & 0xFF) as Byte
  }

  /** The low twelve bits: a jump, call or I target. */
  function Target(ins: Instruction): (a: int)
    ensures 0 <= a < RamSize
  {
    (ins & 0x0FFF) as int
  }

  /** The fields are the nibbles of the two bytes the opcode was read from. */
  lemma FieldsOfBytes(hi: Byte, lo: Byte)
    ensures Group(BigEndian(hi, lo)) == (hi >> 4) as int
    ensures RegX(BigEndian(hi, lo)) == (hi & 0x0F) as int
    ensures RegY(BigEndian(hi, lo)) == (lo >> 4) as int
    ensures Nibble(BigEndian(hi, lo)) == (lo & 0x0F) as int
    ensures LowByte(BigEndian(hi, lo)) == lo
    ensures Target(BigEndian(hi, lo)) == (hi & 0x0F) as int * 0x100 + lo as int
  {
  }
}
