/** ITU-T G.711 companding (audio/g711.go). Shifts and masks are written as the divisions they are. */
module G711 {
  import opened Ints

  datatype Codec = PCMA | PCMU

  const MU_LAW_BIAS: int := 0x84
  const MU_LAW_CLIP: int := 32635
  const A_LAW_ENDS: seq<int> := [0x1f, 0x3f, 0x7f, 0xff, 0x1ff, 0x3ff, 0x7ff, 0xfff]
  const MU_LAW_ENDS: seq<int> := [0xff, 0x1ff, 0x3ff, 0x7ff, 0xfff, 0x1fff, 0x3fff, 0x7fff]

  /** Exclusive or of the low `bits` bits of two numbers. */
  function XorBits(a: nat, b: nat, bits: nat): (r: nat)
    ensures r < Pow2(bits)
  {
    if bits == 0 then 0
    else 2 * XorBits(a / 2, b / 2, bits - 1) + (if a % 2 == b % 2 then 0 else 1)
  }

  function Xor(a: uint8, b: uint8): uint8 {
    Pow2Values();
    XorBits(a, b, 8)
  }

  /** The first segment whose end is not below the value; the number of segments if there is none. */
  function Segment(value: int, ends: seq<int>): (r: nat)
    ensures r <= |ends|
    ensures forall i :: 0 <= i < r ==> ends[i] < value
    ensures r < |ends| ==> value <= ends[r]
  {
    if ends == [] || value <= ends[0] then 0 else
      var r := Segment(value, ends[1..]);
      assert forall i :: 0 < i < r + 1 ==> ends[i] == ends[1..][i - 1];
      1 + r
  }

  method SearchSegment(value: int, ends: seq<int>) returns (index: nat)
    ensures index == Segment(value, ends)
  {
    index := 0;
    while index < |ends|
      invariant index <= |ends|
      invariant Segment(value, ends) == index + Segment(value, ends[index..])
    {
      if value <= ends[index] {
        return;
      }
      assert ends[index..][1..] == ends[index + 1..];
      index := index + 1;
    }
  }

  /** Midpoint, in samples, of level `low` of an A-law segment. */
  function ALawMidpoint(segment: int, low: int): int
    requires 0 <= segment < 8 && 0 <= low < 16
  {
    if segment == 0 then low * 16 + 8
    else if segment == 1 then low * 16 + 0x108
    else (low * 16 + 0x108) * Pow2(segment - 1)
  }

  /** Magnitude an A-law code without sign stands for. */
  function ALawLevel(code: int): (r: int)
    requires 0 <= code < 0x80
    ensures 8 <= r <= 32256
  {
    Pow2Values();
    ALawMidpoint(code / 16, code % 16)
  }

  /** How many magnitudes share a code. */
  function ALawStep(segment: int): (r: int)
    requires 0 <= segment < 8
    ensures r > 0
  {
    if segment < 2 then 2 else Pow2(segment)
  }

  /** Code without sign of a magnitude in units of eight. */
  function ALawCode(pcm: int): (r: int)
    requires 0 <= pcm <= 4095
    ensures 0 <= r < 0x80
  {
    var segment := Segment(pcm, A_LAW_ENDS);
    if segment >= 8 then 0x7f
    else segment * 16 + pcm / ALawStep(segment) % 16
  }

  function DecodeALaw(value: uint8): int16 {
    var v := Xor(value, 0x55);
    if v >= 0x80 then ALawLevel(v - 0x80) else -ALawLevel(v)
  }

  function EncodeALaw(sample: int16): uint8 {
    var pcm := sample / 8;
    if pcm < 0 then Xor(ALawCode(Min(-pcm - 1, 4095)), 0x55)
    else Xor(ALawCode(Min(pcm, 4095)), 0xd5)
  }

  function MuLawLevel(code: int): (r: int)
    requires 0 <= code < 0x80
    ensures 0 <= r <= 32124
  {
    Pow2Values();
    (code % 16 * 8 + MU_LAW_BIAS) * Pow2(code / 16) - MU_LAW_BIAS
  }

  function MuLawCode(pcm: int): (r: int)
    requires MU_LAW_BIAS <= pcm <= MU_LAW_CLIP + MU_LAW_BIAS
    ensures 0 <= r < 0x80
  {
    var segment := Segment(pcm, MU_LAW_ENDS);
    assert MU_LAW_ENDS[7] == 0x7fff;
    segment * 16 + pcm / Pow2(segment + 3) % 16
  }

  function DecodeMuLaw(value: uint8): int16 {
    var v := 255 - value;
    if v >= 0x80 then -MuLawLevel(v - 0x80) else MuLawLevel(v)
  }

  function EncodeMuLaw(sample: int16): uint8 {
    var code := MuLawCode(Min(Abs(sample), MU_LAW_CLIP) + MU_LAW_BIAS);
    Xor(code, if sample < 0 then 0x7f else 0xff)
  }

  lemma Pow2Values()
    ensures Pow2(0) == 1 && Pow2(1) == 2 && Pow2(2) == 4 && Pow2(3) == 8 && Pow2(4) == 16 && Pow2(5) == 32
    ensures Pow2(6) == 64 && Pow2(7) == 128 && Pow2(8) == 256 && Pow2(9) == 512 && Pow2(10) == 1024
  {
    assert Pow2(2) == 4;
    assert Pow2(4) == 16;
    assert Pow2(6) == 64;
    assert Pow2(8) == 256;
  }

  lemma LastBit(x: int, bit: int)
    requires bit == 0 || bit == 1
    ensures (2 * x + bit) / 2 == x && (2 * x + bit) % 2 == bit
  {
  }

  lemma {:induction false} XorBitsTwice(a: nat, m: nat, bits: nat)
    requires a < Pow2(bits)
    ensures XorBits(XorBits(a, m, bits), m, bits) == a
  {
    if bits > 0 {
      XorBitsTwice(a / 2, m / 2, bits - 1);
      LastBit(XorBits(a / 2, m / 2, bits - 1), if a % 2 == m % 2 then 0 else 1);
    }
  }

  lemma {:induction false} XorBitsOnes(a: nat, bits: nat)
    requires a < Pow2(bits)
    ensures XorBits(a, Pow2(bits) - 1, bits) == Pow2(bits) - 1 - a
  {
    if bits > 0 {
      XorBitsOnes(a / 2, bits - 1);
      assert (Pow2(bits) - 1) / 2 == Pow2(bits - 1) - 1;
    }
  }

  lemma {:induction false} XorBitsLow(a: nat, m: nat, bits: nat)
    requires a < Pow2(bits) && m < Pow2(bits)
    ensures XorBits(a, m, bits + 1) == XorBits(a, m, bits)
  {
    if bits > 0 {
      XorBitsLow(a / 2, m / 2, bits - 1);
    } else {
      assert XorBits(0, 0, 1) == 0;
    }
  }

  lemma HalfPlus(a: int, n: nat)
    requires n > 0
    ensures (a + Pow2(n)) / 2 == a / 2 + Pow2(n - 1) && (a + Pow2(n)) % 2 == a % 2
  {
  }

  lemma {:induction false} XorBitsSwap(a: nat, m: nat, bits: nat)
    ensures XorBits(a, m, bits) == XorBits(m, a, bits)
  {
    if bits > 0 {
      XorBitsSwap(a / 2, m / 2, bits - 1);
    }
  }

  lemma {:induction false} XorBitsTopLeft(a: nat, m: nat, n: nat)
    requires a < Pow2(n) && m < Pow2(n)
    ensures XorBits(a + Pow2(n), m, n + 1) == XorBits(a, m, n) + Pow2(n)
  {
    if n > 0 {
      XorBitsTopLeft(a / 2, m / 2, n - 1);
      HalfPlus(a, n);
    }
  }

  /** The top bit of either operand passes through when the other operand has none. */
  lemma XorBitsTopRight(a: nat, m: nat, n: nat)
    requires a < Pow2(n) && m < Pow2(n)
    ensures XorBits(a, m + Pow2(n), n + 1) == XorBits(a, m, n) + Pow2(n)
  {
    XorBitsTopLeft(m, a, n);
    XorBitsSwap(a, m, n);
    XorBitsSwap(a, m + Pow2(n), n + 1);
  }

  lemma ALawMask(e: uint8, low: nat)
    requires e < 0x80 && low == XorBits(e, 0x55, 7)
    ensures Xor(e, 0xd5) == low + 0x80
  {
    Pow2Values();
    XorBitsTopRight(e, 0x55, 7);
  }

  lemma ALawUnmask(e: uint8, low: nat)
    requires e < 0x80 && low == XorBits(e, 0x55, 7)
    ensures low < 0x80 && Xor(low + 0x80, 0x55) == e + 0x80
  {
    Pow2Values();
    XorBitsTopLeft(low, 0x55, 7);
    XorBitsTwice(e, 0x55, 7);
  }

  lemma MuLawMask(e: uint8)
    requires e < 0x80
    ensures Xor(e, 0xff) == 255 - e
    ensures Xor(e, 0x7f) == 127 - e
  {
    Pow2Values();
    XorBitsOnes(e, 8);
    XorBitsOnes(e, 7);
    XorBitsLow(e, 0x7f, 7);
  }

  /** The masks of the two laws, as arithmetic on a sign-free code. */
  lemma MaskArithmetic(e: uint8)
    requires e < 0x80
    ensures Xor(Xor(e, 0xd5), 0x55) == e + 0x80
    ensures Xor(Xor(e, 0x55), 0x55) == e
    ensures Xor(e, 0xff) == 255 - e
    ensures Xor(e, 0x7f) == 127 - e
  {
    var low := XorBits(e, 0x55, 7);
    ALawMask(e, low);
    ALawUnmask(e, low);
    MuLawMask(e);
    XorTwice(e, 0x55);
  }

  lemma MulOrder(a: int, b: int, c: int)
    requires c > 0 && a * c < b * c
    ensures a < b
  {
  }

  /** Dividing a number with its top bit at 16 steps and dropping that bit. */
  lemma Quotient(pcm: int, step: int, q: int)
    requires step > 0 && 16 * step <= pcm < 32 * step && q == pcm / step
    ensures q % 16 == q - 16 && 16 <= q < 32
    ensures q * step <= pcm < q * step + step
  {
    var rest := pcm % step;
    assert pcm == q * step + rest;
    assert (q + 1) * step == q * step + step;
    MulOrder(16, q + 1, step);
    MulOrder(q, 32, step);
  }

  lemma SegmentEnds(segment: int)
    requires 0 <= segment < 8
    ensures MU_LAW_ENDS[segment] == 32 * Pow2(segment + 3) - 1
    ensures segment > 0 ==> MU_LAW_ENDS[segment - 1] == 16 * Pow2(segment + 3) - 1
    ensures segment > 1 ==>
            && A_LAW_ENDS[segment] == 32 * Pow2(segment) - 1
            && A_LAW_ENDS[segment - 1] == 16 * Pow2(segment) - 1
  {
    Pow2Values();
  }

  lemma CodeParts(segment: int, low: int)
    requires 0 <= segment < 8 && 0 <= low < 16
    ensures (segment * 16 + low) / 16 == segment && (segment * 16 + low) % 16 == low
  {
  }

  lemma ALawMidpointAt(segment: int, q: int)
    requires 1 <= segment < 8 && 16 <= q < 32
    ensures ALawMidpoint(1, q - 16) == 8 * (q * 2) + 8
    ensures segment > 1 ==> ALawMidpoint(segment, q - 16) == 8 * (q * Pow2(segment)) + 4 * Pow2(segment)
  {
    if segment > 1 {
      var half := Pow2(segment - 1);
      assert Pow2(segment) == 2 * half;
      MidpointSum(q, half);
    }
  }

  lemma MidpointSum(q: int, half: int)
    ensures ((q - 16) * 16 + 0x108) * half == 8 * (q * (2 * half)) + 4 * (2 * half)
  {
  }

  lemma ALawLevelAt(segment: int, q: int)
    requires 1 <= segment < 8 && 16 <= q < 32
    ensures ALawLevel(segment * 16 + (q - 16)) == ALawMidpoint(segment, q - 16)
  {
    CodeParts(segment, q - 16);
  }

  lemma LowBits(q: int)
    requires 16 <= q < 32
    ensures q % 16 == q - 16
  {
  }

  lemma ALawCodeFrom(pcm: int, segment: int, q: int)
    requires 0 <= pcm <= 4095 && segment == Segment(pcm, A_LAW_ENDS) && segment < 8
    requires q == pcm / ALawStep(segment) && 16 <= q < 32
    ensures ALawCode(pcm) == segment * 16 + (q - 16)
  {
    LowBits(q);
  }

  lemma ALawRange(pcm: int, segment: int, step: int)
    requires 32 <= pcm <= 4095 && segment == Segment(pcm, A_LAW_ENDS)
    ensures 1 <= segment <= 7
    ensures step == ALawStep(segment) ==> 16 * step <= pcm < 32 * step
  {
    assert A_LAW_ENDS[7] == 0xfff && A_LAW_ENDS[0] == 0x1f;
    assert segment > 0 && A_LAW_ENDS[segment - 1] < pcm <= A_LAW_ENDS[segment];
    SegmentEnds(segment);
  }

  lemma ALawMiddle(segment: int, step: int, q: int)
    requires 1 <= segment < 8 && 16 <= q < 32 && step == ALawStep(segment)
    ensures ALawLevel(segment * 16 + (q - 16)) == 8 * (q * step) + 4 * step
  {
    ALawLevelAt(segment, q);
    ALawMidpointAt(segment, q);
  }

  /** In an A-law segment of `step` thirteen-bit values per level, the level is the middle of its range. */
  lemma ALawSegment(pcm: int, segment: int, step: int, q: int)
    requires 32 <= pcm <= 4095 && segment == Segment(pcm, A_LAW_ENDS) && 1 <= segment <= 7
    requires step == ALawStep(segment) && q == pcm / step
    ensures 16 * step <= pcm && q * step <= pcm < q * step + step && 16 <= q < 32
    ensures ALawCode(pcm) == segment * 16 + (q - 16)
    ensures ALawLevel(segment * 16 + (q - 16)) == 8 * (q * step) + 4 * step
  {
    ALawRange(pcm, segment, step);
    Quotient(pcm, step, q);
    ALawCodeFrom(pcm, segment, q);
    ALawMiddle(segment, step, q);
  }

  lemma MiddleNear(low: int, step: int, pcm: int, sample: int)
    requires step > 0 && 16 * step <= pcm && low <= pcm < low + step && 8 * pcm <= sample <= 8 * pcm + 8
    ensures Abs(8 * low + 4 * step - sample) * 32 <= Max(256, sample)
  {
  }

  lemma ALawCodeError(pcm: int, sample: int)
    requires 0 <= pcm <= 4095 && 8 * pcm <= sample <= 8 * pcm + 8
    ensures Abs(ALawLevel(ALawCode(pcm)) - sample) * 32 <= Max(256, sample)
  {
    if pcm < 32 {
      LowestCode(pcm);
    } else {
      var segment := Segment(pcm, A_LAW_ENDS);
      ALawRange(pcm, segment, 0);
      var step := ALawStep(segment);
      var q := pcm / step;
      ALawSegment(pcm, segment, step, q);
      MiddleNear(q * step, step, pcm, sample);
    }
  }

  lemma LowestCode(pcm: int)
    requires 0 <= pcm < 32
    ensures ALawLevel(ALawCode(pcm)) == pcm / 2 * 16 + 8
  {
    SegmentBetween(pcm, A_LAW_ENDS, 0);
  }

  lemma MuLawSum(q: int, unit: int)
    ensures ((q - 16) * 8 + MU_LAW_BIAS) * unit == q * (8 * unit) + 4 * unit
  {
  }

  lemma MuLawLevelAt(segment: int, q: int)
    requires 0 <= segment < 8 && 16 <= q < 32
    ensures MuLawLevel(segment * 16 + q - 16) + MU_LAW_BIAS == q * Pow2(segment + 3) + 4 * Pow2(segment)
  {
    var code := segment * 16 + q - 16;
    CodeParts(segment, q - 16);
    var unit := Pow2(segment);
    assert Pow2(segment + 3) == 2 * Pow2(segment + 2) == 4 * Pow2(segment + 1) == 8 * unit;
    MuLawSum(q, unit);
  }

  lemma MuLawSegment(pcm: int, segment: int, step: int, q: int)
    requires MU_LAW_BIAS <= pcm <= MU_LAW_CLIP + MU_LAW_BIAS && segment == Segment(pcm, MU_LAW_ENDS)
    requires step == Pow2(segment + 3) && q == pcm / step
    ensures segment <= 7 && 16 * step <= pcm && q * step <= pcm < q * step + step
    ensures MuLawCode(pcm) == segment * 16 + q - 16 && 16 <= q < 32
    ensures MuLawLevel(MuLawCode(pcm)) + MU_LAW_BIAS == q * step + 4 * Pow2(segment)
  {
    assert MU_LAW_ENDS[7] == 0x7fff;
    SegmentEnds(segment);
    assert segment == 0 ==> step == 8;
    Quotient(pcm, step, q);
    MuLawLevelAt(segment, q);
  }

  lemma MuLawCodeError(pcm: int)
    requires MU_LAW_BIAS <= pcm <= MU_LAW_CLIP + MU_LAW_BIAS
    ensures Abs(MuLawLevel(MuLawCode(pcm)) + MU_LAW_BIAS - pcm) * 32 <= pcm
    ensures pcm == MU_LAW_CLIP + MU_LAW_BIAS ==> MuLawLevel(MuLawCode(pcm)) == 32124
  {
    var segment := Segment(pcm, MU_LAW_ENDS);
    var step := Pow2(segment + 3);
    MuLawSegment(pcm, segment, step, pcm / step);
    Pow2Values();
    assert step == 8 * Pow2(segment);
  }

  lemma ALawThroughCode(x: int16)
    ensures x >= 0 ==> DecodeALaw(EncodeALaw(x)) == ALawLevel(ALawCode(x / 8))
    ensures x < 0 ==> DecodeALaw(EncodeALaw(x)) == -ALawLevel(ALawCode(-(x / 8) - 1))
  {
    MaskArithmetic(ALawCode(if x >= 0 then x / 8 else -(x / 8) - 1));
  }

  lemma MuLawBytes(code: int)
    requires 0 <= code < 0x80
    ensures DecodeMuLaw(255 - code) == MuLawLevel(code) && DecodeMuLaw(127 - code) == -MuLawLevel(code)
  {
    assert 255 - (255 - code) == code;
    assert 255 - (127 - code) - 0x80 == code;
  }

  lemma MuLawThroughCode(x: int16)
    ensures var level := MuLawLevel(MuLawCode(Min(Abs(x), MU_LAW_CLIP) + MU_LAW_BIAS));
            DecodeMuLaw(EncodeMuLaw(x)) == if x < 0 then -level else level
  {
    var code := MuLawCode(Min(Abs(x), MU_LAW_CLIP) + MU_LAW_BIAS);
    MaskArithmetic(code);
    assert EncodeMuLaw(x) == if x < 0 then 127 - code else 255 - code;
    MuLawBytes(code);
  }

  /** A-law: the error is at most 8, or a thirty-second of the sample where that is more. */
  lemma ALawError(x: int16)
    ensures Abs(DecodeALaw(EncodeALaw(x)) - x) * 32 <= Max(256, Abs(x))
  {
    ALawThroughCode(x);
    ALawCodeError(if x >= 0 then x / 8 else -(x / 8) - 1, Abs(x));
  }

  /** Mu-law: the error is at most a thirty-second of the biased sample, clipping included. */
  lemma MuLawError(x: int16)
    ensures Abs(DecodeMuLaw(EncodeMuLaw(x)) - x) * 32 <= Abs(x) + 132
  {
    MuLawThroughCode(x);
    MuLawCodeError(Min(Abs(x), MU_LAW_CLIP) + MU_LAW_BIAS);
  }

  /** Increasing ends make the segment of a value the one whose bounds hold it. */
  lemma SegmentBetween(value: int, ends: seq<int>, segment: nat)
    requires segment < |ends| && value <= ends[segment]
    requires forall i, j :: 0 <= i < j < |ends| ==> ends[i] < ends[j]
    requires segment > 0 ==> ends[segment - 1] < value
    ensures Segment(value, ends) == segment
  {
  }

  lemma QuotientIs(pcm: int, step: int, q: int)
    requires step > 0 && q * step <= pcm < q * step + step
    ensures pcm / step == q
  {
    var other := pcm / step;
    assert pcm == other * step + pcm % step;
    assert (other + 1) * step == other * step + step && (q + 1) * step == q * step + step;
    MulOrder(other, q + 1, step);
    MulOrder(q, other + 1, step);
  }

  /** The row of `step` values that the level with this code is the middle of. */
  predicate InRow(pcm: int, ends: seq<int>, segment: int, step: int, q: int)
    requires 0 <= segment < |ends|
  {
    step > 0 && pcm / step == q && pcm <= ends[segment] && (segment > 0 ==> ends[segment - 1] < pcm)
  }

  lemma ALawRow(pcm: int, segment: int, step: int, q: int)
    requires 1 <= segment < 8 && 16 <= q < 32 && step == ALawStep(segment)
    requires q * step <= pcm < q * step + step
    ensures InRow(pcm, A_LAW_ENDS, segment, step, q)
  {
    SegmentEnds(segment);
    assert 16 * step <= q * step <= 31 * step;
    QuotientIs(pcm, step, q);
  }

  lemma InALawRow(pcm: int, segment: int, step: int, q: int)
    requires 1 <= segment < 8 && InRow(pcm, A_LAW_ENDS, segment, step, q)
    ensures 0 <= pcm <= 4095 && Segment(pcm, A_LAW_ENDS) == segment
  {
    assert A_LAW_ENDS[7] == 0xfff && A_LAW_ENDS[segment] <= 0xfff && A_LAW_ENDS[segment - 1] >= 0x1f;
    SegmentBetween(pcm, A_LAW_ENDS, segment);
  }

  lemma ALawCodeIs(pcm: int, segment: int, q: int)
    requires 1 <= segment < 8 && 16 <= q < 32 && InRow(pcm, A_LAW_ENDS, segment, ALawStep(segment), q)
    ensures 0 <= pcm <= 4095 && ALawCode(pcm) == segment * 16 + (q - 16)
  {
    InALawRow(pcm, segment, ALawStep(segment), q);
    ALawCodeFrom(pcm, segment, q);
  }

  lemma ALawCodeLow(code: int, pcm: int)
    requires 0 <= code < 16 && pcm == ALawLevel(code) / 8
    ensures ALawLevel(code) == 8 * pcm && 1 <= pcm <= 4095
    ensures ALawCode(pcm) == code && ALawCode(pcm - 1) == code
  {
    assert ALawLevel(code) == code * 16 + 8;
    SegmentBetween(pcm, A_LAW_ENDS, 0);
    SegmentBetween(pcm - 1, A_LAW_ENDS, 0);
  }

  /** Both neighbours of a level's midpoint have the level's code. */
  lemma ALawCodeOfLevel(code: int, pcm: int)
    requires 0 <= code < 0x80 && pcm == ALawLevel(code) / 8
    ensures ALawLevel(code) == 8 * pcm && 1 <= pcm <= 4095
    ensures ALawCode(pcm) == code && ALawCode(pcm - 1) == code
  {
    if code < 16 {
      ALawCodeLow(code, pcm);
    } else {
      var segment, q := code / 16, code % 16 + 16;
      ALawSteps(segment, q, ALawLevel(code), pcm);
      ALawCodeIs(pcm, segment, q);
      ALawCodeIs(pcm - 1, segment, q);
    }
  }

  lemma ALawSteps(segment: int, q: int, level: int, pcm: int)
    requires 1 <= segment < 8 && 16 <= q < 32 && level == ALawLevel(segment * 16 + (q - 16)) && pcm == level / 8
    ensures level == 8 * pcm
    ensures InRow(pcm, A_LAW_ENDS, segment, ALawStep(segment), q)
            && InRow(pcm - 1, A_LAW_ENDS, segment, ALawStep(segment), q)
  {
    var step := ALawStep(segment);
    ALawLevelAt(segment, q);
    ALawMidpointAt(segment, q);
    MiddleOf(q, step, level, if segment < 2 then 1 else Pow2(segment - 1));
    ALawRow(pcm, segment, step, q);
    ALawRow(pcm - 1, segment, step, q);
  }

  lemma MiddleOf(q: int, step: int, level: int, half: int)
    requires half > 0 && step == 2 * half && level == 8 * (q * step) + 4 * step
    ensures level == 8 * (level / 8) && q * step < level / 8 < q * step + step
  {
    var row := q * step;
    assert level == 8 * (row + half);
  }

  lemma EncodeALawAt(level: int, pcm: int, code: int)
    requires 1 <= pcm <= 4095 && level == 8 * pcm && 0 <= code < 0x80 && ALawCode(pcm) == code
             && ALawCode(pcm - 1) == code
    ensures EncodeALaw(level) == Xor(code, 0xd5)
    ensures EncodeALaw(-level) == Xor(code, 0x55)
  {
    assert level / 8 == pcm && (-level) / 8 == -pcm;
  }

  lemma EncodeLevel(code: int, level: int)
    requires 0 <= code < 0x80 && level == ALawLevel(code)
    ensures EncodeALaw(level) == Xor(code, 0xd5) && EncodeALaw(-level) == Xor(code, 0x55)
  {
    ALawCodeOfLevel(code, level / 8);
    EncodeALawAt(level, level / 8, code);
  }

  lemma DecodeALawAt(b: uint8, code: int, level: int)
    requires 0 <= code < 0x80 && level == ALawLevel(code) && (Xor(b, 0x55) == code || Xor(b, 0x55) == code + 0x80)
    ensures DecodeALaw(b) == if Xor(b, 0x55) == code then -level else level
    ensures b == if Xor(b, 0x55) == code then Xor(code, 0x55) else Xor(code, 0xd5)
  {
    XorTwice(b, 0x55);
    ALawBytes(code);
  }

  /** Encoding a decoded A-law byte gives the byte back. */
  lemma ALawTandem(b: uint8)
    ensures EncodeALaw(DecodeALaw(b)) == b
  {
    var code := Xor(b, 0x55) % 0x80;
    var level := ALawLevel(code);
    DecodeALawAt(b, code, level);
    EncodeLevel(code, level);
  }

  lemma XorTwice(a: uint8, m: uint8)
    ensures Xor(Xor(a, m), m) == a
  {
    Pow2Values();
    XorBitsTwice(a, m, 8);
  }

  lemma ALawBytes(code: int)
    requires 0 <= code < 0x80
    ensures Xor(code + 0x80, 0x55) == Xor(code, 0xd5)
    ensures DecodeALaw(Xor(code, 0xd5)) == ALawLevel(code)
    ensures DecodeALaw(Xor(code, 0x55)) == -ALawLevel(code)
  {
    MaskArithmetic(code);
    XorTwice(Xor(code, 0xd5), 0x55);
  }

  lemma MuLawCodeOfLevel(code: int)
    requires 0 <= code < 0x80
    ensures MuLawCode(MuLawLevel(code) + MU_LAW_BIAS) == code
    ensures MuLawLevel(code) == 0 <==> code == 0
  {
    var segment, q := code / 16, code % 16 + 16;
    MuLawSteps(segment, q, MuLawLevel(code));
    MuLawCodeIs(MuLawLevel(code) + MU_LAW_BIAS, segment, q);
  }

  lemma MuLawRow(pcm: int, segment: int, step: int, q: int)
    requires 0 <= segment < 8 && 16 <= q < 32 && step == Pow2(segment + 3)
    requires q * step <= pcm < q * step + step
    ensures InRow(pcm, MU_LAW_ENDS, segment, step, q)
  {
    SegmentEnds(segment);
    assert 16 * step <= q * step <= 31 * step;
    QuotientIs(pcm, step, q);
  }

  lemma MuLawCodeIs(pcm: int, segment: int, q: int)
    requires 0 <= segment < 8 && 16 <= q < 32 && MU_LAW_BIAS <= pcm <= MU_LAW_CLIP + MU_LAW_BIAS
    requires InRow(pcm, MU_LAW_ENDS, segment, Pow2(segment + 3), q)
    ensures MuLawCode(pcm) == segment * 16 + (q - 16)
  {
    SegmentBetween(pcm, MU_LAW_ENDS, segment);
  }

  lemma MuLawSteps(segment: int, q: int, level: int)
    requires 0 <= segment < 8 && 16 <= q < 32 && level == MuLawLevel(segment * 16 + (q - 16))
    ensures InRow(level + MU_LAW_BIAS, MU_LAW_ENDS, segment, Pow2(segment + 3), q)
    ensures level == 0 <==> segment == 0 && q == 16
  {
    var step, unit := Pow2(segment + 3), Pow2(segment);
    assert segment * 16 + q - 16 == segment * 16 + (q - 16);
    MuLawLevelAt(segment, q);
    assert step == 2 * Pow2(segment + 2) == 4 * Pow2(segment + 1) == 8 * unit;
    RowFrom(q, step, unit);
    MuLawRow(level + MU_LAW_BIAS, segment, step, q);
    assert segment > 0 ==> unit >= 2;
    assert segment == 0 ==> unit == 1;
  }

  lemma RowFrom(q: int, step: int, unit: int)
    requires q >= 16 && step == 8 * unit && unit > 0
    ensures q * step >= 128 * unit && (q > 16 ==> q * step >= 136 * unit)
  {
    RowsGrow(16, q, step);
    if q > 16 {
      RowsGrow(17, q, step);
    }
  }

  lemma RowsGrow(a: int, b: int, step: int)
    requires a <= b && step > 0
    ensures a * step <= b * step
  {
    assert b * step == a * step + (b - a) * step;
  }

  lemma EncodeMuLawAt(level: int, code: int)
    requires 0 <= level <= MU_LAW_CLIP && 0 <= code < 0x80 && MuLawCode(level + MU_LAW_BIAS) == code
    ensures EncodeMuLaw(level) == 255 - code
    ensures level > 0 ==> EncodeMuLaw(-level) == 127 - code
  {
    MaskArithmetic(code);
  }

  lemma MuLawLevelTandem(code: int, level: int)
    requires 0 <= code < 0x80 && level == MuLawLevel(code)
    ensures EncodeMuLaw(level) == 255 - code && (code > 0 ==> EncodeMuLaw(-level) == 127 - code)
    ensures level == 0 <==> code == 0
  {
    MuLawCodeOfLevel(code);
    EncodeMuLawAt(level, code);
  }

  /** Encoding a decoded mu-law byte gives the byte back, but for negative zero, which becomes zero. */
  lemma MuLawTandem(b: uint8)
    ensures EncodeMuLaw(DecodeMuLaw(b)) == b <==> b != 0x7f
    ensures DecodeMuLaw(EncodeMuLaw(DecodeMuLaw(b))) == DecodeMuLaw(b)
  {
    var code := (255 - b) % 0x80;
    var level := MuLawLevel(code);
    assert b == 255 - code || b == 127 - code;
    MuLawLevelTandem(code, level);
    MuLawBytes(code);
  }

  /** The same laws on whole payloads, as the two G.711 methods compute them. */
  function Decode(payload: seq<uint8>, codec: Codec): (r: seq<int16>)
    ensures |r| == |payload|
    ensures forall i :: 0 <= i < |r| ==> r[i] == DecodeSample(payload[i], codec)
  {
    seq(|payload|, i requires 0 <= i < |payload| => DecodeSample(payload[i], codec))
  }

  function Encode(samples: seq<int16>, codec: Codec): (r: seq<uint8>)
    ensures |r| == |samples|
    ensures forall i :: 0 <= i < |r| ==> r[i] == EncodeSample(samples[i], codec)
  {
    seq(|samples|, i requires 0 <= i < |samples| => EncodeSample(samples[i], codec))
  }

  function DecodeSample(value: uint8, codec: Codec): int16 {
    if codec == PCMU then DecodeMuLaw(value) else DecodeALaw(value)
  }

  function EncodeSample(sample: int16, codec: Codec): uint8 {
    if codec == PCMU then EncodeMuLaw(sample) else EncodeALaw(sample)
  }

  method DecodeG711(payload: seq<uint8>, codec: Codec) returns (result: array<int16>)
    ensures fresh(result)
    ensures result[..] == Decode(payload, codec)
  {
    result := new int16[|payload|];
    for index := 0 to |payload|
      invariant forall i :: 0 <= i < index ==> result[i] == DecodeSample(payload[i], codec)
    {
      result[index] := DecodeSample(payload[index], codec);
    }
  }

  method EncodeG711(samples: seq<int16>, codec: Codec) returns (result: array<uint8>)
    ensures fresh(result)
    ensures result[..] == Encode(samples, codec)
  {
    result := new uint8[|samples|];
    ghost var encoded := Encode(samples, codec);
    for index := 0 to |samples|
      invariant result[..index] == encoded[..index]
    {
      result[index] := EncodeSample(samples[index], codec);
    }
    assert result[..] == result[..|samples|] && encoded == encoded[..|samples|];
  }

  /** A decoded sample is this close to the one that was encoded. */
  predicate Near(heard: int16, spoken: int16, codec: Codec) {
    Abs(heard - spoken) * 32 <= if codec == PCMU then Abs(spoken) + 132 else Max(256, Abs(spoken))
  }

  lemma RoundTripNear(samples: seq<int16>, codec: Codec)
    ensures |Decode(Encode(samples, codec), codec)| == |samples|
    ensures forall i :: 0 <= i < |samples| ==> Near(Decode(Encode(samples, codec), codec)[i], samples[i], codec)
  {
    forall i | 0 <= i < |samples|
      ensures Near(Decode(Encode(samples, codec), codec)[i], samples[i], codec)
    {
      ALawError(samples[i]);
      MuLawError(samples[i]);
    }
  }
}
