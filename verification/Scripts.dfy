/** What the sender's methods put on the wire is the script of the end-to-end results. */
module Scripts {
  import opened Ints
  import opened Unwrapping
  import opened Sending
  import opened Sender
  import opened FrameRuns

  function Wrapped16(line: Line): uint16 { line.sequence % 0x1_0000 }

  function Wrapped32(line: Line): uint32 { line.timestamp % 0x1_0000_0000 }

  /** The frames of a recording, as Play cuts it. */
  function FramesOf(samples: seq<int16>): (r: seq<Item>)
    ensures |r| == FrameCount(samples) && OnlyAudio(r)
  {
    seq(FrameCount(samples), k requires 0 <= k < FrameCount(samples) => Audio(FrameAt(samples, k), k == 0))
  }

  lemma CarryOver(a: int, b: int)
    ensures (a % 0x1_0000 + b) % 0x1_0000 == (a + b) % 0x1_0000
    ensures (a % 0x1_0000_0000 + b) % 0x1_0000_0000 == (a + b) % 0x1_0000_0000
  {
    Carry(a, b, 0x1_0000);
    Carry(a, b, 0x1_0000_0000);
  }

  /** The frame with this number, as the k-th packet after the line. */
  lemma FramePacket(u: Setup, line: Line, samples: seq<int16>, marker: bool, k: nat, frame: nat)
    ensures LabelAudio(u, Line(line.sequence + k, line.timestamp + frame * FRAME_SAMPLES), samples,
                       marker).arrival.packet
         == AudioPacket(u.ssrc, (Wrapped16(line) + k) % 0x1_0000,
                        (Wrapped32(line) + frame * FRAME_SAMPLES) % 0x1_0000_0000,
                        u.audioPayload, u.codec, samples, marker)
  {
    CarryOver(line.sequence, k);
    CarryOver(line.timestamp, frame * FRAME_SAMPLES);
  }

  /** The k-th frame of the recording, filled up with silence. */
  ghost predicate CutFrom(frame: seq<int16>, samples: seq<int16>, k: nat) {
    && |frame| == FRAME_SAMPLES
    && forall j :: 0 <= j < FRAME_SAMPLES ==>
         frame[j] == if k * FRAME_SAMPLES + j < |samples| then samples[k * FRAME_SAMPLES + j] else 0
  }

  lemma FrameCut(samples: seq<int16>, k: nat)
    requires k < FrameCount(samples)
    ensures CutFrom(Frame(FrameAt(samples, k)), samples, k)
  {
  }

  lemma PlayedPacket(u: Setup, line: Line, samples: seq<int16>, k: nat)
    requires k < FrameCount(samples)
    ensures |Send(u, line, FramesOf(samples))| == FrameCount(samples)
    ensures Send(u, line, FramesOf(samples))[k].arrival.packet
         == PlayedFrame(u.ssrc, Wrapped16(line), Wrapped32(line), u.audioPayload, u.codec, samples, k, k)
  {
    FramesSent(u, line, FramesOf(samples));
    FramePacket(u, line, FrameAt(samples, k), k == 0, k, k);
  }

  /** When Play skips nothing, its k-th packet is the k-th of the script. */
  lemma PlayedIsScript(u: Setup, line: Line, samples: seq<int16>, k: nat)
    requires k < FrameCount(samples)
    ensures |Send(u, line, FramesOf(samples))| == FrameCount(samples)
    ensures FramesOf(samples)[k].samples == FrameAt(samples, k) && CutFrom(Frame(FrameAt(samples, k)), samples, k)
    ensures Send(u, line, FramesOf(samples))[k].arrival.packet
         == PlayedFrame(u.ssrc, Wrapped16(line), Wrapped32(line), u.audioPayload, u.codec, samples, k, k)
  {
    PlayedPacket(u, line, samples, k);
    FrameCut(samples, k);
  }

  lemma DigitAt(u: Setup, line: Line, code: uint8, d: nat, i: nat)
    requires i < EVENT_PACKETS
    ensures LabelEvent(u, LineOf(line, d), code, i).arrival.packet
         == DialledPacket(u.ssrc, Wrapped16(line), Wrapped32(line), u.eventPayload, code, d, i)
  {
    CarryOver(line.sequence, d * EVENT_PACKETS + i);
    CarryOver(line.timestamp, d * DIGIT_SAMPLES);
  }

  function LineOf(line: Line, d: nat): Line {
    Line(line.sequence + d * EVENT_PACKETS, line.timestamp + d * DIGIT_SAMPLES)
  }

  lemma Picks(all: seq<Labeled>, a: seq<Labeled>, b: seq<Labeled>, k: nat)
    requires all == a + b && k < |all|
    ensures all[k] == if k < |a| then a[k] else b[k - |a|]
  {
  }

  /** The i-th packet of the d-th digit is among the packets. */
  ghost predicate HasDigit(u: Setup, line: Line, sent: seq<Labeled>, code: uint8, d: nat, i: nat)
    requires i < EVENT_PACKETS
  {
    d * EVENT_PACKETS + i < |sent| && sent[d * EVENT_PACKETS + i] == LabelEvent(u, LineOf(line, d), code, i)
  }

  lemma OldDigit(u: Setup, line: Line, all: seq<Labeled>, a: seq<Labeled>, b: seq<Labeled>, code: uint8, d: nat, i: nat)
    requires all == a + b && i < EVENT_PACKETS && HasDigit(u, line, a, code, d, i)
    ensures HasDigit(u, line, all, code, d, i)
  {
    Picks(all, a, b, d * EVENT_PACKETS + i);
  }

  lemma NewDigit(u: Setup, line: Line, all: seq<Labeled>, a: seq<Labeled>, b: seq<Labeled>, code: uint8, d: nat, i: nat)
    requires all == a + b && |a| == d * EVENT_PACKETS && i < EVENT_PACKETS
             && b == SendItem(u, LineOf(line, d), Digit(code))
    ensures HasDigit(u, line, all, code, d, i)
  {
    Picks(all, a, b, d * EVENT_PACKETS + i);
  }

  lemma {:induction false} DialledAt(u: Setup, line: Line, codes: seq<uint8>, d: nat, i: nat)
    requires d < |codes| && i < EVENT_PACKETS
    ensures |Send(u, line, Digits(codes))| == |codes| * EVENT_PACKETS
    ensures HasDigit(u, line, Send(u, line, Digits(codes)), codes[d], d, i)
  {
    var n := |codes| - 1;
    var all, sent, more := Send(u, line, Digits(codes)), Send(u, line, Digits(codes[..n])),
      SendItem(u, LineOf(line, n), Digit(codes[n]));
    SendDigits(u, line, codes);
    if d < n {
      DialledAt(u, line, codes[..n], d, i);
      OldDigit(u, line, all, sent, more, codes[d], d, i);
    } else {
      NewDigit(u, line, all, sent, more, codes[d], d, i);
    }
  }

  /** The last digit goes out behind the others, at its own place and time. */
  lemma SendDigits(u: Setup, line: Line, codes: seq<uint8>)
    requires codes != []
    ensures var n := |codes| - 1;
            && |Send(u, line, Digits(codes[..n]))| == n * EVENT_PACKETS
            && Send(u, line, Digits(codes)) == Send(u, line, Digits(codes[..n]))
                 + SendItem(u, LineOf(line, n), Digit(codes[n]))
  {
    var n := |codes| - 1;
    DigitLine(line, codes[..n]);
    SendLast(u, line, Digits(codes[..n]), Digit(codes[n]), Digits(codes));
  }

  /** The n-th packet SendDTMF sends is the n-th of the script. */
  lemma DialledIsScript(u: Setup, line: Line, codes: seq<uint8>, n: nat)
    requires n < |codes| * EVENT_PACKETS
    ensures |Send(u, line, Digits(codes))| == |codes| * EVENT_PACKETS
    ensures Send(u, line, Digits(codes))[n].arrival.packet
         == DialledPacket(u.ssrc, Wrapped16(line), Wrapped32(line), u.eventPayload, codes[n / EVENT_PACKETS],
                          n / EVENT_PACKETS, n % EVENT_PACKETS)
  {
    DialledAt(u, line, codes, n / EVENT_PACKETS, n % EVENT_PACKETS);
    DigitAt(u, line, codes[n / EVENT_PACKETS], n / EVENT_PACKETS, n % EVENT_PACKETS);
  }
}
