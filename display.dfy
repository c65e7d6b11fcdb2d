/** The frame buffer inside RAM, and the DXYN sprite blit as the sequence of
    single-pixel XOR steps the interpreter performs. */
module Display {
  import opened Chip8Types

  /** Bit `j` of a byte, counted from the least significant end. */
  predicate BitSet(b: Byte, j: int)
    requires 0 <= j < 8
  {
    b & (1 << j) != 0
  }

  /** Pixel `p` (row p / 64, column p % 64) is bit 7 - p % 8 of display
      byte p / 8: the leftmost pixel of a byte is its most significant bit. */
  predicate PixelSet(ram: seq<Byte>, p: int)
    requires |ram| == RamSize && 0 <= p < PixelCount
  {
    BitSet(ram[DisplayStart + p / 8], 7 - p % 8)
  }

  /** The pixel that step `k` of a blit lands on: sprite row k / 8 and column
      k % 8, offset by the base coordinates and wrapped modulo the display. */
  function StepPixel(baseX: int, baseY: int, k: int): (p: int)
    requires baseX >= 0 && baseY >= 0 && k >= 0
    ensures 0 <= p < PixelCount
  {
    var dispX := (k % 8 + baseX) % DisplayWidth;
    var dispY := (k / 8 + baseY) % DisplayHeight;
    dispY * DisplayWidth + dispX
  }

  /** The source bit of step `k`: column k % 8 of the sprite byte at
      spriteAt + k / 8, most significant bit first. */
  predicate SourceBit(ram: seq<Byte>, spriteAt: int, k: int)
    requires |ram| == RamSize && spriteAt >= 0 && k >= 0 && spriteAt + k / 8 < RamSize
  {
    BitSet(ram[spriteAt + k / 8], 7 - k % 8)
  }

  /** Bit `b` of `d` XOR-ed with the source bit `s`. */
  function XorBit(d: Byte, b: int, s: bool): Byte
    requires 0 <= b < 8
  {
    var flip: Byte := if s then 1 else 0;
    d ^ (flip << b)
  }

  /** One pass of the inner blit loop: read the destination byte, test the
      source bit against the destination bit, XOR the source bit in. */
  function BlitStep(ram: seq<Byte>, spriteAt: int, baseX: int, baseY: int, k: int, flipped: bool)
    : (r: (seq<Byte>, bool))
    requires |ram| == RamSize && spriteAt >= 0 && k >= 0 && spriteAt + k / 8 < RamSize
    requires baseX >= 0 && baseY >= 0
    ensures |r.0| == RamSize
  {
    var pixelNum := StepPixel(baseX, baseY, k);
    var pixelBlockNum := pixelNum / 8;
    var pixelBlockBit := 7 - (pixelNum - 8 * pixelBlockNum);
    var dstBlock := ram[DisplayStart + pixelBlockNum];
    var srcBit := SourceBit(ram, spriteAt, k);
    var dstBit := BitSet(dstBlock, pixelBlockBit);
    (ram[DisplayStart + pixelBlockNum := XorBit(dstBlock, pixelBlockBit, srcBit)],
     flipped || (srcBit && dstBit))
  }

  /** The RAM and the "flipped off" flag after the first `k` steps of drawing
      the `n`-row sprite at `spriteAt` with its corner at (baseX, baseY). */
  function Blit(ram: seq<Byte>, spriteAt: int, baseX: int, baseY: int, n: int, k: int)
    : (r: (seq<Byte>, bool))
    requires |ram| == RamSize && spriteAt >= 0 && spriteAt + n < RamSize
    requires baseX >= 0 && baseY >= 0 && 0 <= k <= 8 * n
    ensures |r.0| == RamSize
    decreases k
  {
    if k == 0 then (ram, false)
    else
      var prev := Blit(ram, spriteAt, baseX, baseY, n, k - 1);
      BlitStep(prev.0, spriteAt, baseX, baseY, k - 1, prev.1)
  }

  /** The blit step that lands on pixel `p`, or -1 when `p` is outside the
      eight columns the sprite covers. */
  function StepAt(baseX: int, baseY: int, p: int): int
    requires baseX >= 0 && baseY >= 0 && 0 <= p < PixelCount
  {
    var col := (p % DisplayWidth - baseX) % DisplayWidth;
    var row := (p / DisplayWidth - baseY) % DisplayHeight;
    if col < 8 then row * 8 + col else -1
  }

  /** Pixel `p` changes during the first `k` steps iff some step among them
      lands on it with its source bit set. */
  predicate Hit(ram: seq<Byte>, spriteAt: int, baseX: int, baseY: int, n: int, k: int, p: int)
    requires |ram| == RamSize && spriteAt >= 0 && spriteAt + n < RamSize
    requires baseX >= 0 && baseY >= 0 && 0 <= k <= 8 * n && 0 <= p < PixelCount
  {
    var s := StepAt(baseX, baseY, p);
    0 <= s < k && SourceBit(ram, spriteAt, s)
  }

  /** Some set source bit among the first `k` steps met a set pixel. */
  ghost predicate Collision(ram: seq<Byte>, spriteAt: int, baseX: int, baseY: int, n: int, k: int)
    requires |ram| == RamSize && spriteAt >= 0 && spriteAt + n < RamSize
    requires baseX >= 0 && baseY >= 0 && 0 <= k <= 8 * n
  {
    exists j :: 0 <= j < k && SourceBit(ram, spriteAt, j) && PixelSet(ram, StepPixel(baseX, baseY, j))
  }

  /** Adding b modulo m and reading back c are inverse for residues. */
  lemma ModShift(a: int, b: int, c: int, m: int)
    requires m == DisplayWidth || m == DisplayHeight
    requires 0 <= a < m && 0 <= c < m
    ensures (a + b) % m == c <==> (c - b) % m == a
  {
    if m == DisplayWidth {
    } else {
    }
  }

  /** While the sprite is at most one display high, each pixel is reached by
      at most one step, and StepAt names it. */
  lemma StepAtInverse(baseX: int, baseY: int, k: int, p: int)
    requires baseX >= 0 && baseY >= 0 && 0 <= k < 8 * DisplayHeight && 0 <= p < PixelCount
    ensures StepPixel(baseX, baseY, k) == p <==> StepAt(baseX, baseY, p) == k
  {
    var dispX := (k % 8 + baseX) % DisplayWidth;
    var dispY := (k / 8 + baseY) % DisplayHeight;
    var px, py := p % DisplayWidth, p / DisplayWidth;
    assert p == py * DisplayWidth + px;
    assert StepPixel(baseX, baseY, k) == p <==> dispX == px && dispY == py by {
      var q := StepPixel(baseX, baseY, k);
      assert q == dispY * DisplayWidth + dispX;
      assert q / DisplayWidth == dispY && q % DisplayWidth == dispX;
    }
    ModShift(k % 8, baseX, px, DisplayWidth);
    ModShift(k / 8, baseY, py, DisplayHeight);
    var col := (px - baseX) % DisplayWidth;
    var row := (py - baseY) % DisplayHeight;
    assert k == (k / 8) * 8 + k % 8;
    if col < 8 {
      assert row * 8 + col == k <==> row == k / 8 && col == k % 8;
    }
  }

  /** XOR-ing one bit into a byte flips that bit and keeps the others. */
  lemma ToggleBit(d: Byte, b: int, s: bool, j: int)
    requires 0 <= b < 8 && 0 <= j < 8
    ensures BitSet(XorBit(d, b, s), j) == if j == b then BitSet(d, j) != s else BitSet(d, j)
  {
    var flip: Byte := if s then 1 else 0;
    assert flip << b == if s then (1 as Byte) << b else 0;
  }

  /** Two bytes with the same eight bits are equal. */
  lemma BitsDetermineByte(x: Byte, y: Byte)
    requires forall j :: 0 <= j < 8 ==> BitSet(x, j) == BitSet(y, j)
    ensures x == y
  {
    assert BitSet(x, 0) == BitSet(y, 0) && BitSet(x, 1) == BitSet(y, 1);
    assert BitSet(x, 2) == BitSet(y, 2) && BitSet(x, 3) == BitSet(y, 3);
    assert BitSet(x, 4) == BitSet(y, 4) && BitSet(x, 5) == BitSet(y, 5);
    assert BitSet(x, 6) == BitSet(y, 6) && BitSet(x, 7) == BitSet(y, 7);
  }

  /** A blit writes only display bytes, wherever its sprite comes from. */
  lemma {:induction false} BlitWritesOnlyDisplay(ram: seq<Byte>, spriteAt: int, baseX: int, baseY: int, n: int, k: int)
    requires |ram| == RamSize && spriteAt >= 0 && spriteAt + n < RamSize
    requires baseX >= 0 && baseY >= 0 && 0 <= k <= 8 * n
    ensures forall a :: 0 <= a < DisplayStart ==> Blit(ram, spriteAt, baseX, baseY, n, k).0[a] == ram[a]
  {
    if k > 0 {
      BlitWritesOnlyDisplay(ram, spriteAt, baseX, baseY, n, k - 1);
    }
  }

  /** After `k` steps of a blit whose sprite lies below the frame buffer:
      nothing outside the frame buffer has changed, and every pixel is its
      old value XOR the sprite bit that has landed on it. */
  ghost predicate BlitInvariant(ram: seq<Byte>, r: seq<Byte>, spriteAt: int, baseX: int, baseY: int, n: int, k: int)
    requires |ram| == RamSize && |r| == RamSize && spriteAt >= 0 && spriteAt + n < RamSize
    requires baseX >= 0 && baseY >= 0 && 0 <= k <= 8 * n
  {
    (forall a :: 0 <= a < DisplayStart ==> r[a] == ram[a]) &&
    (forall p :: 0 <= p < PixelCount ==>
       PixelSet(r, p) == (PixelSet(ram, p) != Hit(ram, spriteAt, baseX, baseY, n, k, p)))
  }

  /** One step XORs its source bit into the one pixel it lands on and
      leaves every other pixel as it was. */
  lemma BlitStepOnPixel(ram: seq<Byte>, r: seq<Byte>, spriteAt: int, baseX: int, baseY: int, n: int, j: int, flipped: bool, p: int)
    requires |ram| == RamSize && |r| == RamSize && spriteAt >= 0 && spriteAt + n < RamSize
    requires 0 <= n <= DisplayHeight && baseX >= 0 && baseY >= 0 && 0 <= j < 8 * n && 0 <= p < PixelCount
    requires SourceBit(r, spriteAt, j) == SourceBit(ram, spriteAt, j)
    requires PixelSet(r, p) == (PixelSet(ram, p) != Hit(ram, spriteAt, baseX, baseY, n, j, p))
    ensures PixelSet(BlitStep(r, spriteAt, baseX, baseY, j, flipped).0, p) ==
            (PixelSet(ram, p) != Hit(ram, spriteAt, baseX, baseY, n, j + 1, p))
  {
    var next := BlitStep(r, spriteAt, baseX, baseY, j, flipped).0;
    var ps := StepPixel(baseX, baseY, j);
    var src := SourceBit(ram, spriteAt, j);
    var at := DisplayStart + ps / 8;
    var b := 7 - ps % 8;
    assert next == r[at := XorBit(r[at], b, src)];
    StepAtInverse(baseX, baseY, j, p);
    var q := DisplayStart + p / 8;
    if q != at {
      assert next[q] == r[q];
      assert PixelSet(next, p) == PixelSet(r, p);
      assert Hit(ram, spriteAt, baseX, baseY, n, j + 1, p) == Hit(ram, spriteAt, baseX, baseY, n, j, p);
    } else {
      ToggleBit(r[at], b, src, 7 - p % 8);
      assert next[q] == XorBit(r[at], b, src);
      assert PixelSet(next, p) == BitSet(XorBit(r[at], b, src), 7 - p % 8);
      if p != ps {
        assert p % 8 != ps % 8;
        assert PixelSet(next, p) == PixelSet(r, p);
        assert Hit(ram, spriteAt, baseX, baseY, n, j + 1, p) == Hit(ram, spriteAt, baseX, baseY, n, j, p);
      } else {
        assert PixelSet(next, p) == (PixelSet(r, p) != src);
        assert Hit(ram, spriteAt, baseX, baseY, n, j + 1, p) == src;
        assert !Hit(ram, spriteAt, baseX, baseY, n, j, p);
      }
    }
  }

  /** One more step lands on a pixel no earlier step touched; it keeps the
      invariant and raises the flag iff its source bit meets a set pixel. */
  lemma BlitStepKeepsInvariant(ram: seq<Byte>, r: seq<Byte>, spriteAt: int, baseX: int, baseY: int, n: int, j: int, flipped: bool)
    requires |ram| == RamSize && |r| == RamSize && spriteAt >= 0 && spriteAt + n <= DisplayStart
    requires 0 <= n <= DisplayHeight && baseX >= 0 && baseY >= 0 && 0 <= j < 8 * n
    requires BlitInvariant(ram, r, spriteAt, baseX, baseY, n, j)
    ensures var next := BlitStep(r, spriteAt, baseX, baseY, j, flipped);
            BlitInvariant(ram, next.0, spriteAt, baseX, baseY, n, j + 1) &&
            next.1 == (flipped || (SourceBit(ram, spriteAt, j) && PixelSet(ram, StepPixel(baseX, baseY, j))))
  {
    var next := BlitStep(r, spriteAt, baseX, baseY, j, flipped);
    var ps := StepPixel(baseX, baseY, j);
    assert SourceBit(r, spriteAt, j) == SourceBit(ram, spriteAt, j);
    StepAtInverse(baseX, baseY, j, ps);
    assert PixelSet(r, ps) == PixelSet(ram, ps);
    forall p | 0 <= p < PixelCount
      ensures PixelSet(next.0, p) == (PixelSet(ram, p) != Hit(ram, spriteAt, baseX, baseY, n, j + 1, p))
    {
      BlitStepOnPixel(ram, r, spriteAt, baseX, baseY, n, j, flipped, p);
    }
  }

  /** The collision predicate grows by one step at a time. */
  lemma CollisionStep(ram: seq<Byte>, spriteAt: int, baseX: int, baseY: int, n: int, j: int)
    requires |ram| == RamSize && spriteAt >= 0 && spriteAt + n < RamSize
    requires baseX >= 0 && baseY >= 0 && 0 <= j < 8 * n
    ensures Collision(ram, spriteAt, baseX, baseY, n, j + 1) <==>
            Collision(ram, spriteAt, baseX, baseY, n, j) ||
            (SourceBit(ram, spriteAt, j) && PixelSet(ram, StepPixel(baseX, baseY, j)))
  {
    if Collision(ram, spriteAt, baseX, baseY, n, j + 1) {
      var w :| 0 <= w < j + 1 && SourceBit(ram, spriteAt, w) && PixelSet(ram, StepPixel(baseX, baseY, w));
      if w < j {
        assert Collision(ram, spriteAt, baseX, baseY, n, j);
      }
    }
    if Collision(ram, spriteAt, baseX, baseY, n, j) {
      var w :| 0 <= w < j && SourceBit(ram, spriteAt, w) && PixelSet(ram, StepPixel(baseX, baseY, w));
      assert 0 <= w < j + 1;
    }
  }

  /** The effect of the first `k` steps of a blit whose sprite lies below the
      frame buffer: every pixel is XOR-ed with the sprite bit that lands on it,
      nothing outside the frame buffer changes, and the flag says whether a
      set source bit met a set pixel. */
  lemma {:induction false} BlitEffect(ram: seq<Byte>, spriteAt: int, baseX: int, baseY: int, n: int, k: int)
    requires |ram| == RamSize && spriteAt >= 0 && spriteAt + n <= DisplayStart
    requires 0 <= n <= DisplayHeight && baseX >= 0 && baseY >= 0 && 0 <= k <= 8 * n
    ensures var r := Blit(ram, spriteAt, baseX, baseY, n, k);
            BlitInvariant(ram, r.0, spriteAt, baseX, baseY, n, k) &&
            (r.1 <==> Collision(ram, spriteAt, baseX, baseY, n, k))
  {
    if k > 0 {
      BlitEffect(ram, spriteAt, baseX, baseY, n, k - 1);
      var prev := Blit(ram, spriteAt, baseX, baseY, n, k - 1);
      assert Blit(ram, spriteAt, baseX, baseY, n, k) == BlitStep(prev.0, spriteAt, baseX, baseY, k - 1, prev.1);
      BlitStepKeepsInvariant(ram, prev.0, spriteAt, baseX, baseY, n, k - 1, prev.1);
      CollisionStep(ram, spriteAt, baseX, baseY, n, k - 1);
    }
  }

  /** Drawing the same below-frame sprite twice at the same place restores
      RAM exactly; the second flag reports whether some set source bit landed
      on a pixel that was clear before the first draw. */
  lemma BlitTwiceRestores(ram: seq<Byte>, spriteAt: int, baseX: int, baseY: int, n: int)
    requires |ram| == RamSize && spriteAt >= 0 && spriteAt + n <= DisplayStart
    requires 0 <= n <= DisplayHeight && baseX >= 0 && baseY >= 0
    ensures var first := Blit(ram, spriteAt, baseX, baseY, n, 8 * n);
            var second := Blit(first.0, spriteAt, baseX, baseY, n, 8 * n);
            second.0 == ram &&
            (second.1 <==> exists j :: 0 <= j < 8 * n && SourceBit(ram, spriteAt, j) &&
                                       !PixelSet(ram, StepPixel(baseX, baseY, j)))
  {
    var first := Blit(ram, spriteAt, baseX, baseY, n, 8 * n);
    var second := Blit(first.0, spriteAt, baseX, baseY, n, 8 * n);
    BlitEffect(ram, spriteAt, baseX, baseY, n, 8 * n);
    BlitEffect(first.0, spriteAt, baseX, baseY, n, 8 * n);
    forall j | 0 <= j < 8 * n
      ensures SourceBit(first.0, spriteAt, j) == SourceBit(ram, spriteAt, j)
    {
    }
    forall p | 0 <= p < PixelCount
      ensures PixelSet(second.0, p) == PixelSet(ram, p)
    {
      assert Hit(first.0, spriteAt, baseX, baseY, n, 8 * n, p) == Hit(ram, spriteAt, baseX, baseY, n, 8 * n, p);
    }
    forall a | 0 <= a < RamSize
      ensures second.0[a] == ram[a]
    {
      if a >= DisplayStart {
        var block := a - DisplayStart;
        forall j | 0 <= j < 8
          ensures BitSet(second.0[a], j) == BitSet(ram[a], j)
        {
          var p := 8 * block + (7 - j);
          assert p / 8 == block && p % 8 == 7 - j;
          assert PixelSet(second.0, p) == PixelSet(ram, p);
        }
        BitsDetermineByte(second.0[a], ram[a]);
      }
    }
    forall j | 0 <= j < 8 * n && SourceBit(ram, spriteAt, j)
      ensures PixelSet(first.0, StepPixel(baseX, baseY, j)) == !PixelSet(ram, StepPixel(baseX, baseY, j))
    {
      StepAtInverse(baseX, baseY, j, StepPixel(baseX, baseY, j));
    }
  }

  /** Frame-buffer byte 0xF00 after each of the first eight steps of drawing
      that byte itself as a one-row sprite at (0, 0), starting from 0xFF:
      each step reads the very bit it is about to clear. */
  const Drained: seq<Byte> := [0xFF, 0x7F, 0x3F, 0x1F, 0x0F, 0x07, 0x03, 0x01, 0x00]

  /** Step `j` < 8 of a one-row sprite at (0, 0) drawn from byte 0xF00
      reads and XORs bit 7 - j of that same byte. */
  lemma FirstByteStep(r: seq<Byte>, j: int, flipped: bool)
    requires |r| == RamSize && 0 <= j < 8
    ensures var b := BitSet(r[DisplayStart], 7 - j);
            BlitStep(r, DisplayStart, 0, 0, j, flipped) ==
            (r[DisplayStart := XorBit(r[DisplayStart], 7 - j, b)], flipped || b)
  {
    assert StepPixel(0, 0, j) == j;
  }

  /** Each entry of Drained has the bit that step k - 1 reads set, and
      clearing it gives the next entry. */
  lemma DrainedStep(k: int)
    requires 1 <= k <= 8
    ensures BitSet(Drained[k - 1], 8 - k) && XorBit(Drained[k - 1], 8 - k, true) == Drained[k]
  {
    if k == 1 {
    } else if k == 2 {
    } else if k == 3 {
    } else if k == 4 {
    } else if k == 5 {
    } else if k == 6 {
    } else if k == 7 {
    } else {
    }
  }

  /** Step k - 1 takes byte 0xF00 from Drained[k - 1] to Drained[k]. */
  lemma DrainStep(r: seq<Byte>, k: int, flipped: bool)
    requires |r| == RamSize && 1 <= k <= 8 && r[DisplayStart] == Drained[k - 1]
    ensures BlitStep(r, DisplayStart, 0, 0, k - 1, flipped).0[DisplayStart] == Drained[k]
  {
    FirstByteStep(r, k - 1, flipped);
    DrainedStep(k);
  }

  /** The first draw takes byte 0xF00 through Drained. */
  lemma {:induction false} OverlapFirstDraw(ram: seq<Byte>, k: int)
    requires |ram| == RamSize && ram[DisplayStart] == 0xFF && 0 <= k <= 8
    ensures Blit(ram, DisplayStart, 0, 0, 1, k).0[DisplayStart] == Drained[k]
  {
    if k > 0 {
      OverlapFirstDraw(ram, k - 1);
      var prev := Blit(ram, DisplayStart, 0, 0, 1, k - 1);
      DrainStep(prev.0, k, prev.1);
    }
  }

  /** With the sprite byte already clear, a draw reads only clear bits and
      changes nothing. */
  lemma {:induction false} OverlapSecondDraw(ram: seq<Byte>, k: int)
    requires |ram| == RamSize && ram[DisplayStart] == 0 && 0 <= k <= 8
    ensures Blit(ram, DisplayStart, 0, 0, 1, k) == (ram, false)
  {
    if k > 0 {
      OverlapSecondDraw(ram, k - 1);
      FirstByteStep(ram, k - 1, false);
      assert XorBit(0, 8 - k, false) == 0;
      assert ram[DisplayStart := 0] == ram;
    }
  }

  /** Drawing twice does not restore RAM once the sprite overlaps the frame
      buffer: with the sprite being byte 0xF00 itself, set to 0xFF, and drawn
      at (0, 0), the first draw clears it and the second leaves it clear. */
  lemma BlitTwiceOverlapDoesNotRestore(ram: seq<Byte>)
    requires |ram| == RamSize && ram[DisplayStart] == 0xFF
    ensures var first := Blit(ram, DisplayStart, 0, 0, 1, 8);
            var second := Blit(first.0, DisplayStart, 0, 0, 1, 8);
            first.0[DisplayStart] == 0 && second.0[DisplayStart] == 0 && second.0 != ram
  {
    OverlapFirstDraw(ram, 8);
    OverlapSecondDraw(Blit(ram, DisplayStart, 0, 0, 1, 8).0, 8);
  }

  /** Zeroing the DisplaySize bytes of the frame buffer. */
  function ClearDisplay(ram: seq<Byte>): (r: seq<Byte>)
    requires |ram| == RamSize
    ensures |r| == RamSize
    ensures forall a :: DisplayStart <= a < DisplayStart + DisplaySize ==> r[a] == 0
    ensures forall a :: 0 <= a < RamSize && !(DisplayStart <= a < DisplayStart + DisplaySize) ==> r[a] == ram[a]
  {
    ram[..DisplayStart] + seq(DisplaySize, _ => 0) + ram[DisplayStart + DisplaySize..]
  }

  /** The bytes the redraw check compares and Draw copies. */
  function FrameBytes(ram: seq<Byte>): (f: seq<Byte>)
    requires |ram| == RamSize
    ensures |f| == DisplaySize
    ensures forall a :: 0 <= a < DisplaySize ==> f[a] == ram[DisplayStart + a]
  {
    ram[DisplayStart..DisplayStart + DisplaySize]
  }
}
