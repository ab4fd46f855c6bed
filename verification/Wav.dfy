/** WAV files: the chunk parser and the printer (audio/decode.go). */
module Wav {
  import opened Ints
  import opened Options

  datatype Pcm = Pcm(samples: seq<int16>, sampleRate: uint32)

  // Little-endian numbers.

  function Le16(v: uint16): seq<uint8> {
    [v % 0x100, v / 0x100]
  }

  function Le32(v: uint32): seq<uint8> {
    Le16(v % 0x1_0000) + Le16(v / 0x1_0000)
  }

  function U16(data: seq<uint8>, at: nat): uint16
    requires at + 2 <= |data|
  {
    var low: int, high: int := data[at], data[at + 1];
    low + high * 0x100
  }

  function U32(data: seq<uint8>, at: nat): uint32
    requires at + 4 <= |data|
  {
    var low: int, high: int := U16(data, at), U16(data, at + 2);
    low + high * 0x1_0000
  }

  /** A sixteen-bit word as a signed number, and back. */
  function Signed16(v: uint16): int16 {
    if v >= 0x8000 then v - 0x1_0000 else v
  }

  function Unsigned16(s: int16): uint16 {
    if s < 0 then s + 0x1_0000 else s
  }

  // Reading.

  /** What the chunks read so far say. */
  datatype Chunks = Chunks(format: uint16, channels: uint16, bits: uint16, sampleRate: uint32, audio: seq<uint8>)

  const NO_CHUNKS := Chunks(0, 0, 0, 0, [])

  /** The four names "RIFF", "WAVE", "fmt " and "data". */
  const RIFF: seq<uint8> := [82, 73, 70, 70]
  const WAVE: seq<uint8> := [87, 65, 86, 69]
  const FMT: seq<uint8> := [102, 109, 116, 32]
  const DATA: seq<uint8> := [100, 97, 116, 97]

  function ReadChunk(c: Chunks, data: seq<uint8>, offset: nat, size: nat): Option<Chunks>
    requires offset + 8 + size <= |data|
  {
    var start := offset + 8;
    if data[offset..offset + 4] == FMT then
      if size < 16 then None
      else Some(c.(format := U16(data, start), channels := U16(data, start + 2),
                   sampleRate := U32(data, start + 4), bits := U16(data, start + 14)))
    else if data[offset..offset + 4] == DATA then Some(c.(audio := data[start..start + size]))
    else Some(c)
  }

  /** The chunks from an offset on; none if one of them does not fit. */
  function ReadChunks(c: Chunks, data: seq<uint8>, offset: nat): Option<Chunks>
    decreases |data| - offset
  {
    if offset + 8 > |data| then Some(c)
    else
      var size := U32(data, offset + 4);
      var end := offset + 8 + size;
      if end > |data| then None
      else
        match ReadChunk(c, data, offset, size)
        case None => None
        case Some(next) => if end + size % 2 > |data| then None else ReadChunks(next, data, end + size % 2)
  }

  /** The top sixteen bits of a sample of the given depth. */
  function ReadSample(data: seq<uint8>, bits: uint16): int16
    requires bits == 8 || bits == 16 || bits == 24 || bits == 32
    requires |data| == bits / 8
  {
    var first: int := data[0];
    if bits == 8 then (first - 128) * 0x100
    else if bits == 16 then Signed16(U16(data, 0))
    else if bits == 24 then Signed16(U16(data, 1))
    else Signed16(U16(data, 2))
  }

  /** Division that drops the fraction, toward zero. */
  function Quotient(a: int, b: int): int
    requires b > 0
  {
    if a >= 0 then a / b else -((-a) / b)
  }

  predicate Depth(bits: uint16) {
    bits == 8 || bits == 16 || bits == 24 || bits == 32
  }

  lemma {:induction false} MulGrows(a: nat, b: nat, c: nat)
    requires a <= b
    ensures a * c <= b * c
  {
    if a < b {
      MulGrows(a, b - 1, c);
      assert b * c == (b - 1) * c + c;
    }
  }

  /** The sample of one channel in a frame. */
  function ChannelSample(frame: seq<uint8>, bits: uint16, channel: nat, channels: nat): int16
    requires Depth(bits) && channel < channels && |frame| == channels * (bits / 8)
  {
    MulGrows(channel + 1, channels, bits / 8);
    var offset := channel * (bits / 8);
    assert (channel + 1) * (bits / 8) == offset + bits / 8;
    ReadSample(frame[offset..offset + bits / 8], bits)
  }

  /** The sum of the samples of a frame's first channels. */
  function Total(frame: seq<uint8>, bits: uint16, count: nat, channels: nat): int
    requires Depth(bits) && count <= channels && |frame| == channels * (bits / 8)
  {
    if count == 0 then 0 else Total(frame, bits, count - 1, channels) + ChannelSample(frame, bits, count - 1, channels)
  }

  lemma {:induction false} TotalBounded(frame: seq<uint8>, bits: uint16, count: nat, channels: nat)
    requires Depth(bits) && count <= channels && |frame| == channels * (bits / 8)
    ensures -0x8000 * count <= Total(frame, bits, count, channels) <= 0x7FFF * count
  {
    if count > 0 {
      TotalBounded(frame, bits, count - 1, channels);
    }
  }

  lemma QuotientBounded(total: int, channels: int)
    requires channels > 0 && -0x8000 * channels <= total <= 0x7FFF * channels
    ensures -0x8000 <= Quotient(total, channels) <= 0x7FFF
  {
    if total >= 0 {
      QuotientAtMost(total, channels, 0x7FFF);
    } else {
      QuotientAtMost(-total, channels, 0x8000);
    }
  }

  lemma QuotientAtMost(a: nat, b: nat, limit: nat)
    requires b > 0 && a <= limit * b
    ensures a / b <= limit
  {
    var q := a / b;
    assert q * b <= a;
    if q > limit {
      MulGrows(limit + 1, q, b);
    }
  }

  /** Frame by frame, the frames fill the audio. */
  lemma FrameFits(size: nat, width: nat, frame: nat)
    requires width > 0 && frame < size / width
    ensures 0 <= frame * width <= (frame + 1) * width <= size
    ensures (frame + 1) * width - frame * width == width
  {
    MulGrows(frame + 1, size / width, width);
    assert size / width * width <= size;
    assert (frame + 1) * width == frame * width + width;
  }

  predicate Playable(c: Chunks) {
    c.format == 1 && c.channels != 0 && c.sampleRate != 0 && c.audio != [] && Depth(c.bits)
  }

  function FrameSize(c: Chunks): (r: nat)
    requires Playable(c)
    ensures r > 0
  {
    assert c.bits / 8 >= 1;
    MulGrows(1, c.channels, c.bits / 8);
    c.channels * (c.bits / 8)
  }

  function Frame(c: Chunks, frame: nat): (r: seq<uint8>)
    requires Playable(c) && frame < |c.audio| / FrameSize(c)
    ensures |r| == c.channels * (c.bits / 8)
  {
    FrameFits(|c.audio|, FrameSize(c), frame);
    c.audio[frame * FrameSize(c)..(frame + 1) * FrameSize(c)]
  }

  /** One frame mixed down to one sample, which always fits sixteen bits. */
  function MonoSample(c: Chunks, frame: nat): int16
    requires Playable(c) && frame < |c.audio| / FrameSize(c)
  {
    TotalBounded(Frame(c, frame), c.bits, c.channels, c.channels);
    QuotientBounded(Total(Frame(c, frame), c.bits, c.channels, c.channels), c.channels);
    Quotient(Total(Frame(c, frame), c.bits, c.channels, c.channels), c.channels)
  }

  function Mono(c: Chunks): (r: seq<int16>)
    requires Playable(c)
    ensures |r| == |c.audio| / FrameSize(c)
    ensures forall i :: 0 <= i < |r| ==> r[i] == MonoSample(c, i)
  {
    seq(|c.audio| / FrameSize(c), i requires 0 <= i < |c.audio| / FrameSize(c) => MonoSample(c, i))
  }

  predicate HasHeader(data: seq<uint8>) {
    |data| >= 12 && data[..4] == RIFF && data[8..12] == WAVE && U32(data, 4) + 8 == |data|
  }

  function DecodeWav(data: seq<uint8>): Option<Pcm> {
    if !HasHeader(data) then None
    else
      match ReadChunks(NO_CHUNKS, data, 12)
      case None => None
      case Some(c) =>
        if !Playable(c) || |c.audio| % FrameSize(c) != 0 then None else Some(Pcm(Mono(c), c.sampleRate))
  }

  /** What the next chunk makes of those before it. */
  lemma ChunksNext(c: Chunks, data: seq<uint8>, offset: nat, size: nat)
    requires offset + 8 <= |data| && size == U32(data, offset + 4)
    ensures offset + 8 + size > |data| ==> ReadChunks(c, data, offset).None?
    ensures offset + 8 + size <= |data| ==>
              var end := offset + 8 + size;
              ReadChunks(c, data, offset) ==
                if ReadChunk(c, data, offset, size).None? || end + size % 2 > |data| then None
                else ReadChunks(ReadChunk(c, data, offset, size).value, data, end + size % 2)
  {
  }

  /** One chunk: the format's fields, the audio, or something else. */
  method ScanChunk(read: Chunks, data: seq<uint8>, offset: nat, size: nat) returns (next: Option<Chunks>)
    requires offset + 8 + size <= |data|
    ensures next == ReadChunk(read, data, offset, size)
  {
    var name, start := data[offset..offset + 4], offset + 8;
    if name == FMT {
      if size < 16 {
        return None;
      }
      next := Some(read.(format := U16(data, start), channels := U16(data, start + 2),
                         sampleRate := U32(data, start + 4), bits := U16(data, start + 14)));
    } else if name == DATA {
      next := Some(read.(audio := data[start..start + size]));
    } else {
      next := Some(read);
    }
  }

  /** The chunk at this place, and where the next one begins; none if it does not fit. */
  method ScanNext(read: Chunks, data: seq<uint8>, offset: nat) returns (next: Option<Chunks>, after: nat)
    requires offset + 8 <= |data|
    ensures next.None? ==> ReadChunks(read, data, offset) == None
    ensures next.Some? ==>
              offset < after <= |data| && ReadChunks(read, data, offset) == ReadChunks(next.value, data, after)
  {
    var size := U32(data, offset + 4);
    var end := offset + 8 + size;
    next, after := None, offset;
    ChunksNext(read, data, offset, size);
    if end > |data| {
      return;
    }
    next := ScanChunk(read, data, offset, size);
    after := end + size % 2;
    if after > |data| {
      next := None;
    }
  }

  /** Reads the chunks one after the other; every access is inside the data. */
  method ScanChunks(data: seq<uint8>) returns (chunks: Option<Chunks>)
    ensures chunks == ReadChunks(NO_CHUNKS, data, 12)
  {
    var read, offset := NO_CHUNKS, 12;
    ghost var all := ReadChunks(read, data, offset);
    while offset + 8 <= |data|
      invariant offset >= 0
      invariant all == ReadChunks(read, data, offset)
      decreases |data| - offset
    {
      var next, after := ScanNext(read, data, offset);
      if next.None? {
        return None;
      }
      read, offset := next.value, after;
    }
    chunks := Some(read);
  }

  /** The sum of one frame's channels. */
  method SumChannels(frame: seq<uint8>, bits: uint16, channels: nat) returns (total: int)
    requires Depth(bits) && |frame| == channels * (bits / 8)
    ensures total == Total(frame, bits, channels, channels)
  {
    total := 0;
    for channel := 0 to channels
      invariant total == Total(frame, bits, channel, channels)
    {
      total := total + ChannelSample(frame, bits, channel, channels);
    }
  }

  method MixDown(c: Chunks) returns (mono: array<int16>)
    requires Playable(c)
    ensures fresh(mono) && mono[..] == Mono(c)
  {
    var frameSize := FrameSize(c);
    mono := new int16[|c.audio| / frameSize];
    for frame := 0 to mono.Length
      invariant forall i :: 0 <= i < frame ==> mono[i] == MonoSample(c, i)
    {
      FrameFits(|c.audio|, frameSize, frame);
      var total := SumChannels(Frame(c, frame), c.bits, c.channels);
      TotalBounded(Frame(c, frame), c.bits, c.channels, c.channels);
      QuotientBounded(total, c.channels);
      mono[frame] := Quotient(total, c.channels);
    }
  }

  method DecodeWavFile(data: seq<uint8>) returns (pcm: Option<Pcm>)
    ensures pcm == DecodeWav(data)
  {
    if !HasHeader(data) {
      return None;
    }
    var chunks := ScanChunks(data);
    if chunks.None? || !Playable(chunks.value) || |chunks.value.audio| % FrameSize(chunks.value) != 0 {
      return None;
    }
    var mono := MixDown(chunks.value);
    pcm := Some(Pcm(mono[..], chunks.value.sampleRate));
  }

  // Writing.

  function SampleByte(samples: seq<int16>, k: nat): uint8
    requires k < 2 * |samples|
  {
    Le16(Unsigned16(samples[k / 2]))[k % 2]
  }

  function SampleBytes(samples: seq<int16>): (r: seq<uint8>)
    ensures |r| == 2 * |samples|
  {
    seq(2 * |samples|, k requires 0 <= k < 2 * |samples| => SampleByte(samples, k))
  }

  function Wrap32(v: int): uint32 {
    v % 0x1_0000_0000
  }

  function FormatHead(): seq<uint8> {
    FMT + Le32(16) + Le16(1) + Le16(1)
  }

  function FormatTail(sampleRate: int): seq<uint8> {
    Le32(Wrap32(sampleRate * 2)) + Le16(2)
  }

  function FormatChunk(sampleRate: int): seq<uint8> {
    FormatHead() + Le32(Wrap32(sampleRate)) + FormatTail(sampleRate) + Le16(16)
  }

  function Riff(size: uint32): seq<uint8> {
    RIFF + Le32(size) + WAVE
  }

  function Data(size: uint32): seq<uint8> {
    DATA + Le32(size)
  }

  function Assemble(total: uint32, size: uint32, sampleRate: int, audio: seq<uint8>): seq<uint8> {
    Riff(total) + FormatChunk(sampleRate) + Data(size) + audio
  }

  /** A mono sixteen-bit file; sizes are cut to thirty-two bits. */
  function WriteWav(samples: seq<int16>, sampleRate: int): seq<uint8> {
    Assemble(Wrap32(36 + Wrap32(2 * |samples|)), Wrap32(2 * |samples|), sampleRate, SampleBytes(samples))
  }

  // What was written reads back.

  lemma Le16Reads(v: uint16, data: seq<uint8>, at: nat)
    requires at + 2 <= |data| && data[at..at + 2] == Le16(v)
    ensures U16(data, at) == v
  {
    assert data[at] == data[at..at + 2][0] && data[at + 1] == data[at..at + 2][1];
  }

  lemma Le32Reads(v: uint32, data: seq<uint8>, at: nat)
    requires at + 4 <= |data| && data[at..at + 4] == Le32(v)
    ensures U32(data, at) == v
  {
    var low, high := v % 0x1_0000, v / 0x1_0000;
    assert data[at..at + 2] == data[at..at + 4][..2] == Le16(low);
    assert data[at + 2..at + 4] == data[at..at + 4][2..] == Le16(high);
    Le16Reads(low, data, at);
    Le16Reads(high, data, at + 2);
  }

  lemma SliceOf(a: seq<uint8>, part: seq<uint8>, b: seq<uint8>)
    ensures (a + part + b)[|a|..|a| + |part|] == part
  {
  }

  /** A number written between other bytes. */
  lemma Le32Within(a: seq<uint8>, v: uint32, b: seq<uint8>)
    ensures U32(a + Le32(v) + b, |a|) == v
  {
    SliceOf(a, Le32(v), b);
    Le32Reads(v, a + Le32(v) + b, |a|);
  }

  lemma Le16Within(a: seq<uint8>, v: uint16, b: seq<uint8>)
    ensures U16(a + Le16(v) + b, |a|) == v
  {
    SliceOf(a, Le16(v), b);
    Le16Reads(v, a + Le16(v) + b, |a|);
  }

  lemma SamplesRead(samples: seq<int16>, i: nat)
    requires i < |samples|
    ensures Signed16(U16(SampleBytes(samples), 2 * i)) == samples[i]
  {
    var bytes := SampleBytes(samples);
    assert bytes[2 * i] == SampleByte(samples, 2 * i) && bytes[2 * i + 1] == SampleByte(samples, 2 * i + 1);
    assert (2 * i) / 2 == i && (2 * i + 1) / 2 == i;
  }

  lemma Regroup(a: seq<uint8>, b: seq<uint8>, c: seq<uint8>, d: seq<uint8>)
    ensures a + b + c + d == a + (b + c + d) && a + b + c + d == a + b + (c + d)
            && a + b + c + d == (a + b + c) + d + []
  {
  }

  lemma HeadReads(rest: seq<uint8>)
    ensures var f := FormatHead() + rest;
            |FormatHead()| == 12 && f[..4] == FMT && U32(f, 4) == 16 && U16(f, 8) == 1 && U16(f, 10) == 1
  {
  }

  /** The fields of a sixteen-byte format chunk. */
  lemma FormatReads(sampleRate: uint32)
    ensures var f := FormatChunk(sampleRate);
            && |f| == 24 && f[..4] == FMT && U32(f, 4) == 16
            && U16(f, 8) == 1 && U16(f, 10) == 1 && U32(f, 12) == sampleRate && U16(f, 22) == 16
  {
    assert Wrap32(sampleRate) == sampleRate;
    FieldsRead(sampleRate, FormatTail(sampleRate));
  }

  lemma FieldsRead(sampleRate: uint32, tail: seq<uint8>)
    requires |tail| == 6
    ensures var f := FormatHead() + Le32(sampleRate) + tail + Le16(16);
            && |f| == 24 && f[..4] == FMT && U32(f, 4) == 16
            && U16(f, 8) == 1 && U16(f, 10) == 1 && U32(f, 12) == sampleRate && U16(f, 22) == 16
  {
    var head, rate, bits := FormatHead(), Le32(sampleRate), Le16(16);
    Regroup(head, rate, tail, bits);
    HeadReads(rate + tail + bits);
    Le32Within(head, sampleRate, tail + bits);
    Le16Within(head + rate + tail, 16, []);
  }

  /** The fields of a chunk do not depend on what stands before and after it. */
  lemma Within16(a: seq<uint8>, part: seq<uint8>, b: seq<uint8>, k: nat)
    requires k + 2 <= |part|
    ensures U16(a + part + b, |a| + k) == U16(part, k)
  {
    assert (a + part + b)[|a| + k] == part[k] && (a + part + b)[|a| + k + 1] == part[k + 1];
  }

  lemma Within32(a: seq<uint8>, part: seq<uint8>, b: seq<uint8>, k: nat)
    requires k + 4 <= |part|
    ensures U32(a + part + b, |a| + k) == U32(part, k)
  {
    Within16(a, part, b, k);
    Within16(a, part, b, k + 2);
  }

  lemma FormatChunkReads(a: seq<uint8>, b: seq<uint8>, sampleRate: uint32)
    ensures var data := a + FormatChunk(sampleRate) + b;
            && |FormatChunk(sampleRate)| == 24 && U32(data, |a| + 4) == 16
            && ReadChunk(NO_CHUNKS, data, |a|, 16) == Some(Chunks(1, 1, 16, sampleRate, []))
  {
    var f := FormatChunk(sampleRate);
    var data := a + f + b;
    FormatReads(sampleRate);
    Within32(a, f, b, 4);
    Within16(a, f, b, 8);
    Within16(a, f, b, 10);
    Within32(a, f, b, 12);
    Within16(a, f, b, 22);
    assert data[|a|..|a| + 4] == f[..4];
  }

  lemma DataChunkReads(c: Chunks, a: seq<uint8>, audio: seq<uint8>)
    requires |audio| < 0x1_0000_0000
    ensures var data := a + Data(|audio|) + audio;
            && U32(data, |a| + 4) == |audio|
            && ReadChunk(c, data, |a|, |audio|) == Some(c.(audio := audio))
  {
    var data := a + Data(|audio|) + audio;
    Le32Within(DATA, |audio|, []);
    assert DATA + Le32(|audio|) + [] == Data(|audio|);
    Within32(a, Data(|audio|), audio, 4);
    assert data[|a|..|a| + 4] == DATA;
    assert data[|a| + 8..|a| + 8 + |audio|] == audio;
    assert FMT[0] != DATA[0];
  }

  lemma RiffReads(size: uint32, b: seq<uint8>)
    requires size + 8 == 12 + |b|
    ensures HasHeader(Riff(size) + b)
  {
    var data := Riff(size) + b;
    Le32Within(RIFF, size, WAVE + b);
    assert data == RIFF + Le32(size) + (WAVE + b);
    assert data[..4] == RIFF && data[8..12] == WAVE;
  }

  lemma LastChunk(c: Chunks, data: seq<uint8>, offset: nat, size: nat)
    requires offset + 8 + size == |data| && size % 2 == 0 && U32(data, offset + 4) == size
    requires ReadChunk(c, data, offset, size).Some?
    ensures ReadChunks(c, data, offset) == ReadChunk(c, data, offset, size)
  {
  }

  lemma FirstChunk(c: Chunks, data: seq<uint8>, offset: nat, next: Chunks)
    requires offset + 24 <= |data| && U32(data, offset + 4) == 16 && ReadChunk(c, data, offset, 16) == Some(next)
    ensures ReadChunks(c, data, offset) == ReadChunks(next, data, offset + 24)
  {
  }

  lemma TwoChunks(data: seq<uint8>, size: nat, next: Chunks, last: Chunks)
    requires |data| == 44 + size && size % 2 == 0 && U32(data, 16) == 16 && U32(data, 40) == size
    requires ReadChunk(NO_CHUNKS, data, 12, 16) == Some(next) && ReadChunk(next, data, 36, size) == Some(last)
    ensures ReadChunks(NO_CHUNKS, data, 12) == Some(last)
  {
    FirstChunk(NO_CHUNKS, data, 12, next);
    LastChunk(next, data, 36, size);
  }

  lemma WrittenParts(riff: seq<uint8>, f: seq<uint8>, audio: seq<uint8>, sampleRate: uint32)
    requires |riff| == 12 && f == FormatChunk(sampleRate) && |audio| < 0x1_0000_0000 && |audio| % 2 == 0
    ensures ReadChunks(NO_CHUNKS, riff + f + Data(|audio|) + audio, 12) == Some(Chunks(1, 1, 16, sampleRate, audio))
  {
    var d, next := Data(|audio|), Chunks(1, 1, 16, sampleRate, []);
    var data := riff + f + d + audio;
    FormatChunkReads(riff, d + audio, sampleRate);
    assert riff + f + (d + audio) == data;
    DataChunkReads(next, riff + f, audio);
    TwoChunks(data, |audio|, next, next.(audio := audio));
  }

  lemma WrittenHeader(size: uint32, f: seq<uint8>, d: seq<uint8>, audio: seq<uint8>)
    requires size + 8 == 12 + |f| + |d| + |audio|
    ensures HasHeader(Riff(size) + f + d + audio)
  {
    RiffReads(size, f + d + audio);
    assert Riff(size) + (f + d + audio) == Riff(size) + f + d + audio;
  }

  ghost predicate HasChunks(data: seq<uint8>, c: Chunks) {
    HasHeader(data) && ReadChunks(NO_CHUNKS, data, 12) == Some(c)
  }

  lemma AssembledChunks(total: uint32, size: uint32, sampleRate: uint32, audio: seq<uint8>)
    requires total == 36 + |audio| && size == |audio| && |audio| % 2 == 0
    ensures HasChunks(Assemble(total, size, sampleRate, audio), Chunks(1, 1, 16, sampleRate, audio))
  {
    FormatReads(sampleRate);
    WrittenHeader(total, FormatChunk(sampleRate), Data(size), audio);
    WrittenParts(Riff(total), FormatChunk(sampleRate), audio, sampleRate);
  }

  lemma WrappedSizes(n: nat)
    requires 36 + 2 * n < 0x1_0000_0000
    ensures Wrap32(2 * n) == 2 * n && Wrap32(36 + Wrap32(2 * n)) == 36 + 2 * n
  {
  }

  lemma MonoOne(c: Chunks, i: nat)
    requires Playable(c) && c.channels == 1 && c.bits == 16 && i < |c.audio| / FrameSize(c)
    ensures MonoSample(c, i) == Signed16(U16(Frame(c, i), 0))
  {
    var frame := Frame(c, i);
    assert Total(frame, 16, 0, 1) == 0 && frame[0..2] == frame;
  }

  lemma FrameOne(c: Chunks, i: nat)
    requires Playable(c) && c.channels == 1 && c.bits == 16 && 2 * i + 2 <= |c.audio|
    ensures FrameSize(c) == 2 && i < |c.audio| / FrameSize(c) && Frame(c, i) == c.audio[2 * i..2 * i + 2]
    ensures U16(Frame(c, i), 0) == U16(c.audio, 2 * i)
  {
  }

  lemma MonoIs(c: Chunks, samples: seq<int16>)
    requires Playable(c) && c.channels == 1 && c.bits == 16 && c.audio == SampleBytes(samples)
    ensures |c.audio| % FrameSize(c) == 0 && Mono(c) == samples
  {
    assert FrameSize(c) == 2;
    forall i | 0 <= i < |samples|
      ensures Mono(c)[i] == samples[i]
    {
      FrameOne(c, i);
      MonoOne(c, i);
      SamplesRead(samples, i);
    }
  }

  lemma DecodeOf(data: seq<uint8>, c: Chunks)
    requires HasHeader(data) && ReadChunks(NO_CHUNKS, data, 12) == Some(c) && Playable(c)
             && |c.audio| % FrameSize(c) == 0
    ensures DecodeWav(data) == Some(Pcm(Mono(c), c.sampleRate))
  {
  }

  lemma ChunksDecode(data: seq<uint8>, samples: seq<int16>, sampleRate: uint32)
    requires samples != [] && sampleRate > 0
    requires HasChunks(data, Chunks(1, 1, 16, sampleRate, SampleBytes(samples)))
    ensures DecodeWav(data) == Some(Pcm(samples, sampleRate))
  {
    var c := Chunks(1, 1, 16, sampleRate, SampleBytes(samples));
    assert c.audio != [] by {
      assert |c.audio| == 2 * |samples|;
    }
    MonoIs(c, samples);
    DecodeOf(data, c);
  }

  lemma WrittenChunks(samples: seq<int16>, sampleRate: uint32)
    requires 36 + 2 * |samples| < 0x1_0000_0000
    ensures HasChunks(WriteWav(samples, sampleRate), Chunks(1, 1, 16, sampleRate, SampleBytes(samples)))
  {
    WrappedSizes(|samples|);
    AssembledChunks(Wrap32(36 + Wrap32(2 * |samples|)), Wrap32(2 * |samples|), sampleRate, SampleBytes(samples));
  }

  /** Every nonempty recording whose sizes fit thirty-two bits reads back as itself. */
  lemma WavRoundTrip(samples: seq<int16>, sampleRate: uint32)
    requires samples != [] && sampleRate > 0 && 36 + 2 * |samples| < 0x1_0000_0000
    ensures DecodeWav(WriteWav(samples, sampleRate)) == Some(Pcm(samples, sampleRate))
  {
    WrittenChunks(samples, sampleRate);
    ChunksDecode(WriteWav(samples, sampleRate), samples, sampleRate);
  }
}
