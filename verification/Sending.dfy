/** The packets a sender makes of audio frames and telephone-event digits (rtpverifier/sender.go). */
module Sending {
  import opened Ints
  import opened Options
  import opened G711
  import opened Rtp
  import opened Receiving
  import opened Unwrapping
  import Text

  const FRAME_SAMPLES: int := 160
  const DIGIT_SAMPLES: int := 800
  const EVENT_PACKETS: int := 6
  const FIRST_END: int := 3
  const END_BIT: int := 0x80
  const VOLUME: int := 10

  /** A frame of exactly FRAME_SAMPLES samples: what is missing is silence, what is too much is dropped. */
  function Frame(samples: seq<int16>): (r: seq<int16>)
    ensures |r| == FRAME_SAMPLES
    ensures forall i :: 0 <= i < FRAME_SAMPLES ==> r[i] == if i < |samples| then samples[i] else 0
  {
    seq(FRAME_SAMPLES, i => if 0 <= i < |samples| then samples[i] else 0)
  }

  function AudioPacket(ssrc: uint32, sequence: uint16, timestamp: uint32, payloadType: uint8, codec: Codec,
                       samples: seq<int16>, marker: bool): Packet {
    Packet(2, marker, payloadType, sequence, timestamp, ssrc, Encode(Frame(samples), codec))
  }

  /** The duration the i-th packet of an event reports, in timestamp units. */
  function EventDuration(i: nat): uint16
    requires i < EVENT_PACKETS
  {
    Min(i + 1, FIRST_END + 1) * FRAME_SAMPLES
  }

  function EventPayload(code: uint8, i: nat): seq<uint8>
    requires i < EVENT_PACKETS
  {
    [code, if i >= FIRST_END then END_BIT + VOLUME else VOLUME, EventDuration(i) / 0x100, EventDuration(i) % 0x100]
  }

  function EventPacket(ssrc: uint32, sequence: uint16, timestamp: uint32, payloadType: uint8, code: uint8,
                       i: nat): Packet
    requires i < EVENT_PACKETS
  {
    Packet(2, i == 0, payloadType, sequence, timestamp, ssrc, EventPayload(code, i))
  }

  function EventCode(digit: char): Option<uint8> {
    if '0' <= digit <= '9' then Some((digit - '0') as int)
    else if digit == '*' then Some(10)
    else if digit == '#' then Some(11)
    else if 'A' <= digit <= 'D' then Some((digit - 'A') as int + 12)
    else None
  }

  /** The events of the digits before the first one that is not a digit. */
  function Codes(digits: string): (r: seq<uint8>)
    ensures |r| <= |digits|
  {
    if digits == [] || EventCode(Text.Upper(digits[0])).None? then []
    else [EventCode(Text.Upper(digits[0])).value] + Codes(digits[1..])
  }

  predicate Dialable(digits: string) {
    forall i :: 0 <= i < |digits| ==> EventCode(Text.Upper(digits[i])).Some?
  }

  // A script of frames and digits, sent with counters that never wrap.

  /** A frame, a digit, or frames that were too late: time goes on without them. */
  datatype Item = Audio(samples: seq<int16>, marker: bool) | Digit(code: uint8) | Skip(frames: nat)

  datatype Setup = Setup(ssrc: uint32, source: Endpoint, codec: Codec, audioPayload: uint8, eventPayload: uint8)

  datatype Line = Line(sequence: int, timestamp: int) {
    function After(item: Item): Line {
      match item
      case Audio(_, _) => Line(sequence + 1, timestamp + FRAME_SAMPLES)
      case Digit(_) => Line(sequence + EVENT_PACKETS, timestamp + DIGIT_SAMPLES)
      case Skip(frames) => Line(sequence, timestamp + frames * FRAME_SAMPLES)
    }
  }

  function Label(u: Setup, p: Packet, sequence: int, timestamp: int): Labeled {
    Labeled(Arrival(p, u.source), sequence, timestamp)
  }

  function LabelAudio(u: Setup, line: Line, samples: seq<int16>, marker: bool): Labeled {
    Label(u, AudioPacket(u.ssrc, line.sequence % 0x1_0000, line.timestamp % 0x1_0000_0000, u.audioPayload, u.codec,
                         samples, marker),
          line.sequence, line.timestamp)
  }

  function LabelEvent(u: Setup, line: Line, code: uint8, i: nat): Labeled
    requires i < EVENT_PACKETS
  {
    Label(u, EventPacket(u.ssrc, (line.sequence + i) % 0x1_0000, line.timestamp % 0x1_0000_0000, u.eventPayload, code,
                         i),
          line.sequence + i, line.timestamp)
  }

  function SendItem(u: Setup, line: Line, item: Item): (r: seq<Labeled>)
    ensures |r| == line.After(item).sequence - line.sequence
  {
    match item
    case Audio(samples, marker) => [LabelAudio(u, line, samples, marker)]
    case Skip(_) => []
    case Digit(code) => seq(EVENT_PACKETS, i requires 0 <= i < EVENT_PACKETS => LabelEvent(u, line, code, i))
  }

  function LineAfter(line: Line, items: seq<Item>): Line {
    if items == [] then line else LineAfter(line, items[..|items| - 1]).After(items[|items| - 1])
  }

  function Send(u: Setup, line: Line, items: seq<Item>): (r: seq<Labeled>)
    ensures |r| == LineAfter(line, items).sequence - line.sequence
  {
    if items == [] then []
    else Send(u, line, items[..|items| - 1]) + SendItem(u, LineAfter(line, items[..|items| - 1]), items[|items| - 1])
  }

  lemma SendLast(u: Setup, line: Line, items: seq<Item>, item: Item, all: seq<Item>)
    requires all == items + [item]
    ensures LineAfter(line, all) == LineAfter(line, items).After(item)
    ensures Send(u, line, all) == Send(u, line, items) + SendItem(u, LineAfter(line, items), item)
  {
    assert all[..|all| - 1] == items;
  }

  function Digits(codes: seq<uint8>): (r: seq<Item>)
    ensures |r| == |codes|
    ensures forall i :: 0 <= i < |codes| ==> r[i] == Digit(codes[i])
  {
    seq(|codes|, i requires 0 <= i < |codes| => Digit(codes[i]))
  }

  // How many frames there are, and which samples each one takes.

  lemma {:induction false} DigitLine(line: Line, codes: seq<uint8>)
    ensures LineAfter(line, Digits(codes))
            == Line(line.sequence + |codes| * EVENT_PACKETS, line.timestamp + |codes| * DIGIT_SAMPLES)
  {
    if codes != [] {
      DigitLine(line, codes[..|codes| - 1]);
      assert Digits(codes)[..|codes| - 1] == Digits(codes[..|codes| - 1]);
    }
  }

  function FrameCount(samples: seq<int16>): (r: nat)
    ensures (r - 1) * FRAME_SAMPLES < |samples| || r == 0
    ensures |samples| <= r * FRAME_SAMPLES
  {
    (|samples| + FRAME_SAMPLES - 1) / FRAME_SAMPLES
  }

  function FrameAt(samples: seq<int16>, index: nat): seq<int16>
    requires index < FrameCount(samples)
  {
    samples[index * FRAME_SAMPLES..Min((index + 1) * FRAME_SAMPLES, |samples|)]
  }
}
