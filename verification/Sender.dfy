/** The sender object: one stream's counters, statistics and log (rtpverifier/sender.go). */
module Sender {
  import opened Ints
  import opened Options
  import opened G711
  import opened Rtp
  import opened Sending
  import Text

  const FRAME_TIME: int := 20_000_000
  const DIGIT_TIME: int := 100_000_000
  const LATE: int := 5 * FRAME_TIME

  datatype SenderStats = SenderStats(attempted: int, sent: int, failed: int, skipped: int, discontinuities: int,
                                     duration: int) {
    function Attempt(written: bool, time: int): SenderStats {
      if written then this.(attempted := attempted + 1, sent := sent + 1, duration := duration + time)
      else this.(attempted := attempted + 1, failed := failed + 1)
    }
  }

  datatype Attempt = Attempt(packet: Packet, target: Endpoint, successful: bool)

  /** The packet of frame `frame` when it goes out as the k-th of a call of Play. */
  function PlayedFrame(ssrc: uint32, sequence: uint16, timestamp: uint32, payloadType: uint8, codec: Codec,
                       samples: seq<int16>, k: nat, frame: nat): Packet
    requires frame < FrameCount(samples)
  {
    AudioPacket(ssrc, (sequence + k) % 0x1_0000, (timestamp + frame * FRAME_SAMPLES) % 0x1_0000_0000, payloadType,
                codec,
                FrameAt(samples, frame), frame == 0)
  }

  ghost predicate IncreasingFrames(frames: seq<nat>, count: nat) {
    && (forall i, j :: 0 <= i < j < |frames| ==> frames[i] < frames[j])
    && (forall i :: 0 <= i < |frames| ==> frames[i] < count)
  }

  /** A call of Play: the counters it begins at, and what it plays. */
  datatype Playing = Playing(
    target: Endpoint,
    ssrc: uint32,
    sequence: uint16,
    timestamp: uint32,
    payloadType: uint8,
    codec: Codec,
    samples: seq<int16>)
  {
    function Packet(k: nat, frame: nat): Packet
      requires frame < FrameCount(samples)
    {
      PlayedFrame(ssrc, sequence, timestamp, payloadType, codec, samples, k, frame)
    }
  }

  /** The attempts are the packets of these frames, in order. */
  ghost predicate PlayedFrames(p: Playing, attempts: seq<Attempt>, frames: seq<nat>) {
    && |attempts| == |frames|
    && IncreasingFrames(frames, FrameCount(p.samples))
    && forall k :: 0 <= k < |frames| ==>
         attempts[k].packet == p.Packet(k, frames[k]) && attempts[k].target == p.target
  }

  ghost predicate AllWritten(attempts: seq<Attempt>) {
    forall k :: 0 <= k < |attempts| ==> attempts[k].successful
  }

  /** A frame is skipped only when it, or one before it, was found too late by at least the time between. */
  ghost predicate Excused(late: nat -> int, i: nat) {
    exists j: nat :: j <= i && late(j) > LATE && i < j + late(j) / FRAME_TIME
  }

  /** Every frame below the index was either sent, and not late, or skipped for lateness. */
  ghost predicate Accounted(late: nat -> int, frames: seq<nat>, index: nat) {
    && (forall k :: 0 <= k < |frames| ==> frames[k] < index && late(frames[k]) <= LATE)
    && (forall i: nat :: i < index && i !in frames ==> Excused(late, i))
  }

  lemma PlayedNext(p: Playing, attempts: seq<Attempt>, frames: seq<nat>, index: nat, written: bool)
    requires PlayedFrames(p, attempts, frames)
    requires index < FrameCount(p.samples) && forall k :: 0 <= k < |frames| ==> frames[k] < index
    ensures var next := Attempt(p.Packet(|frames|, index), p.target, written);
            && PlayedFrames(p, attempts + [next], frames + [index])
            && (AllWritten(attempts) && written ==> AllWritten(attempts + [next]))
  {
  }

  lemma LogMore(before: seq<Attempt>, attempts: seq<Attempt>, more: seq<Attempt>)
    ensures before + attempts + more == before + (attempts + more)
  {
  }

  lemma SkippedAccounted(late: nat -> int, frames: seq<nat>, index: nat, skipped: nat)
    requires Accounted(late, frames, index) && late(index) > LATE && skipped <= late(index) / FRAME_TIME
    ensures Accounted(late, frames, index + skipped)
  {
    forall i: nat | i < index + skipped && i !in frames
      ensures Excused(late, i)
    {
      if i >= index {
        assert index <= i && late(index) > LATE;
      }
    }
  }

  lemma SentAccounted(late: nat -> int, frames: seq<nat>, index: nat)
    requires Accounted(late, frames, index) && late(index) <= LATE
    ensures Accounted(late, frames + [index], index + 1)
  {
    forall i: nat | i < index + 1 && i !in frames + [index]
      ensures Excused(late, i)
    {
      assert i != index by {
        assert (frames + [index])[|frames|] == index;
      }
    }
  }

  lemma Carry(a: int, b: int, m: int)
    requires m == 0x1_0000 || m == 0x1_0000_0000
    ensures (a % m + b) % m == (a + b) % m
  {
    assert (a % m + b) - (a + b) == -(a / m) * m;
  }

  /** The i-th packet of a digit, for a call of SendDTMF that began at these counters. */
  function DialledPacket(ssrc: uint32, sequence: uint16, timestamp: uint32, payloadType: uint8, code: uint8,
                         digit: nat, i: nat): Packet
    requires i < EVENT_PACKETS
  {
    EventPacket(ssrc, (sequence + digit * EVENT_PACKETS + i) % 0x1_0000,
                (timestamp + digit * DIGIT_SAMPLES) % 0x1_0000_0000, payloadType, code, i)
  }

  /** A call of SendDTMF: the counters it begins at, and what it dials. */
  datatype Tones = Tones(target: Endpoint, ssrc: uint32, sequence: uint16, timestamp: uint32, payloadType: uint8,
                         codes: seq<uint8>) {
    function Packet(digit: nat, i: nat): Packet
      requires digit < |codes| && i < EVENT_PACKETS
    {
      DialledPacket(ssrc, sequence, timestamp, payloadType, codes[digit], digit, i)
    }
  }

  /** The attempts are the packets of the codes, six for each, in order, as far as they go. */
  ghost predicate Dialled(d: Tones, attempts: seq<Attempt>) {
    forall n :: 0 <= n < |attempts| ==>
      && n / EVENT_PACKETS < |d.codes| && attempts[n].target == d.target
      && attempts[n].packet == d.Packet(n / EVENT_PACKETS, n % EVENT_PACKETS)
  }

  /** These are the first packets of the digit. */
  ghost predicate DigitSent(d: Tones, digit: nat, more: seq<Attempt>)
    requires digit < |d.codes|
  {
    |more| <= EVENT_PACKETS && forall i :: 0 <= i < |more| ==>
      more[i].target == d.target && more[i].packet == d.Packet(digit, i)
  }

  lemma DialledMore(d: Tones, attempts: seq<Attempt>, more: seq<Attempt>, digit: nat)
    requires Dialled(d, attempts) && |attempts| == digit * EVENT_PACKETS && digit < |d.codes|
             && DigitSent(d, digit, more)
    ensures Dialled(d, attempts + more)
  {
    var all := attempts + more;
    forall n | 0 <= n < |all|
      ensures n / EVENT_PACKETS < |d.codes| && all[n].target == d.target
      ensures all[n].packet == d.Packet(n / EVENT_PACKETS, n % EVENT_PACKETS)
    {
      if n >= |attempts| {
        assert n / EVENT_PACKETS == digit && n % EVENT_PACKETS == n - |attempts|;
      }
    }
  }

  lemma {:induction false} CodesAt(digits: string, index: nat)
    requires index < |digits| && Dialable(digits[..index]) && EventCode(Text.Upper(digits[index])).Some?
    ensures index < |Codes(digits)| && Codes(digits)[index] == EventCode(Text.Upper(digits[index])).value
    ensures Dialable(digits[..index + 1])
  {
    assert forall i :: 0 <= i < index ==> digits[i] == digits[..index][i];
    if index > 0 {
      assert digits[1..][..index - 1] == digits[..index][1..];
      CodesAt(digits[1..], index - 1);
    }
  }

  class Sender {
    const ssrc: uint32
    var sequence: uint16
    var timestamp: uint32
    var stats: SenderStats
    var log: seq<Attempt>

    constructor (ssrc: uint32, sequence: uint16, timestamp: uint32)
      ensures this.ssrc == ssrc && this.sequence == sequence && this.timestamp == timestamp
      ensures stats == SenderStats(0, 0, 0, 0, 0, 0) && log == []
    {
      this.ssrc := ssrc;
      this.sequence := sequence;
      this.timestamp := timestamp;
      stats := SenderStats(0, 0, 0, 0, 0, 0);
      log := [];
    }

    /** Sends one frame; `written` is what the socket makes of the packet. */
    method SendAudioFrame(target: Option<Endpoint>, codec: Codec, payloadType: uint8, samples: seq<int16>,
                          marker: bool, written: bool)
      returns (ok: bool)
      modifies this
      ensures ok == (target.Some? && written)
      ensures target.None? ==>
                sequence == old(sequence) && timestamp == old(timestamp) && stats == old(stats) && log == old(log)
      ensures target.Some? ==>
                && sequence == (old(sequence) + 1) % 0x1_0000
                && timestamp == (old(timestamp) + FRAME_SAMPLES) % 0x1_0000_0000
                && stats == old(stats).Attempt(written, FRAME_TIME)
                && log == old(log) + [Attempt(AudioPacket(ssrc, old(sequence), old(timestamp), payloadType, codec,
                                                          samples, marker),
                                              target.value, written)]
    {
      if target.None? {
        return false;
      }
      var payload := EncodeG711(Frame(samples), codec);
      var packet := Packet(2, marker, payloadType, sequence, timestamp, ssrc, payload[..]);
      sequence := (sequence + 1) % 0x1_0000;
      timestamp := (timestamp + FRAME_SAMPLES) % 0x1_0000_0000;
      stats := stats.Attempt(written, FRAME_TIME);
      log := log + [Attempt(packet, target.value, written)];
      ok := written;
    }

    /**
     * Sends the samples frame by frame, dropping frames that are too late. At frame i the clock is `late(i)`
     * behind the frame's time, the wait before it runs to its end unless `waits(i)` is false, and the
     * socket takes the packet if `writes(i)`.
     */
    method Play(target: Option<Endpoint>, codec: Codec, payloadType: uint8, samples: seq<int16>,
                late: nat -> int, waits: nat -> bool, writes: nat -> bool)
      returns (ok: bool, ghost frames: seq<nat>, ghost attempts: seq<Attempt>)
      modifies this
      ensures log == old(log) + attempts
      ensures target.None? ==>
                !ok && attempts == [] && sequence == old(sequence) && timestamp == old(timestamp) && stats == old(stats)
      ensures target.Some? ==>
                var p := Playing(target.value, ssrc, old(sequence), old(timestamp), payloadType, codec, samples);
                PlayedFrames(p, attempts, frames)
      ensures sequence == (old(sequence) + |attempts|) % 0x1_0000
      ensures stats.attempted == old(stats.attempted) + |attempts|
      ensures ok ==>
                && AllWritten(attempts) && Accounted(late, frames, FrameCount(samples))
                && |attempts| + stats.skipped - old(stats.skipped) == FrameCount(samples)
                && timestamp == (old(timestamp) + FrameCount(samples) * FRAME_SAMPLES) % 0x1_0000_0000
    {
      frames, attempts := [], [];
      if target.None? {
        return false, frames, attempts;
      }
      if samples == [] {
        return true, frames, attempts;
      }
      ghost var before := log;
      var p := Playing(target.value, ssrc, sequence, timestamp, payloadType, codec, samples);
      var count := FrameCount(samples);
      var index := 0;
      while index < count
        invariant 0 <= index <= count && log == before + attempts
        invariant PlayedFrames(p, attempts, frames) && AllWritten(attempts) && Accounted(late, frames, index)
        invariant AtFrame(p, |frames|, index)
        invariant stats.attempted == old(stats.attempted) + |frames|
        invariant |frames| + stats.skipped - old(stats.skipped) == index
      {
        var next;
        ghost var sent, more;
        ok, next, sent, more := PlayTurn(p, index, late, waits, writes, frames, attempts);
        LogMore(before, attempts, more);
        frames, attempts := frames + sent, attempts + more;
        if !ok {
          return false, frames, attempts;
        }
        index := next;
      }
      ok := waits(count);
    }

    /** So many frames have gone out, and this one is due. */
    ghost predicate AtFrame(p: Playing, k: nat, index: nat)
      reads this
    {
      && sequence == (p.sequence + k) % 0x1_0000
      && timestamp == (p.timestamp + index * FRAME_SAMPLES) % 0x1_0000_0000
    }

    /** One turn of Play: frames are skipped, or one is sent, or the turn fails. */
    method PlayTurn(p: Playing, index: nat, late: nat -> int, waits: nat -> bool, writes: nat -> bool,
                    ghost frames: seq<nat>, ghost attempts: seq<Attempt>)
      returns (ok: bool, next: nat, ghost sent: seq<nat>, ghost more: seq<Attempt>)
      requires index < FrameCount(p.samples) && p.ssrc == ssrc && AtFrame(p, |frames|, index)
      requires PlayedFrames(p, attempts, frames) && AllWritten(attempts) && Accounted(late, frames, index)
      modifies this
      ensures log == old(log) + more
      ensures PlayedFrames(p, attempts + more, frames + sent)
      ensures sequence == (p.sequence + |frames + sent|) % 0x1_0000 && stats.attempted == old(stats.attempted) + |sent|
      ensures ok ==>
                && index < next <= FrameCount(p.samples) && AtFrame(p, |frames + sent|, next)
                && AllWritten(attempts + more) && Accounted(late, frames + sent, next)
                && |sent| + stats.skipped - old(stats.skipped) == next - index
    {
      next, sent, more := index, [], [];
      assert frames + [] == frames && attempts + [] == attempts;
      if late(index) > LATE {
        var skipped := Min(late(index) / FRAME_TIME, FrameCount(p.samples) - index);
        SkippedAccounted(late, frames, index, skipped);
        SkipFrames(skipped, p.timestamp, index);
        return true, index + skipped, sent, more;
      }
      if late(index) < 0 && !waits(index) {
        return false, next, sent, more;
      }
      PlayedNext(p, attempts, frames, index, writes(index));
      SentAccounted(late, frames, index);
      ok := PlayFrame(p, index, writes(index), |frames|);
      next, sent, more := index + 1, [index], [Attempt(p.Packet(|frames|, index), p.target, writes(index))];
    }

    /** Frames of Play that are too late: the media clock runs on without them. */
    method SkipFrames(skipped: nat, ghost origin: uint32, ghost index: nat)
      requires timestamp == (origin + index * FRAME_SAMPLES) % 0x1_0000_0000
      modifies this`timestamp, this`stats
      ensures timestamp == (origin + (index + skipped) * FRAME_SAMPLES) % 0x1_0000_0000
      ensures stats == old(stats).(skipped := old(stats).skipped + skipped,
                                   discontinuities := old(stats).discontinuities + 1)
    {
      Carry(origin + index * FRAME_SAMPLES, skipped * FRAME_SAMPLES, 0x1_0000_0000);
      timestamp := (timestamp + skipped * FRAME_SAMPLES) % 0x1_0000_0000;
      stats := stats.(skipped := stats.skipped + skipped, discontinuities := stats.discontinuities + 1);
    }

    /** One frame of Play that is not late. */
    method PlayFrame(p: Playing, index: nat, written: bool, ghost k: nat) returns (ok: bool)
      requires index < FrameCount(p.samples) && p.ssrc == ssrc && AtFrame(p, k, index)
      modifies this
      ensures ok == written
      ensures AtFrame(p, k + 1, index + 1)
      ensures stats == old(stats).Attempt(written, FRAME_TIME)
      ensures log == old(log) + [Attempt(p.Packet(k, index), p.target, written)]
    {
      var offset := index * FRAME_SAMPLES;
      var end := Min(offset + FRAME_SAMPLES, |p.samples|);
      Carry(p.sequence + k, 1, 0x1_0000);
      Carry(p.timestamp + offset, FRAME_SAMPLES, 0x1_0000_0000);
      ok := SendAudioFrame(Some(p.target), p.codec, p.payloadType, p.samples[offset..end], offset == 0, written);
    }

    /** Sends the digits one after the other; stops at the first thing that is not a digit, or that fails. */
    method SendDTMF(target: Endpoint, payloadType: uint8, digits: string, waits: nat -> bool, pauses: nat -> bool,
                    writes: nat -> bool)
      returns (ok: bool, ghost attempts: seq<Attempt>, ghost completed: nat)
      modifies this
      ensures log == old(log) + attempts
      ensures payloadType > 127 ==> !ok && attempts == []
      ensures Dialled(Tones(target, ssrc, old(sequence), old(timestamp), payloadType, Codes(digits)), attempts)
      ensures sequence == (old(sequence) + |attempts|) % 0x1_0000
      ensures timestamp == (old(timestamp) + completed * DIGIT_SAMPLES) % 0x1_0000_0000
      ensures completed * EVENT_PACKETS <= |attempts| <= (completed + 1) * EVENT_PACKETS
      ensures stats.attempted == old(stats.attempted) + |attempts|
              && stats.duration == old(stats.duration) + completed * DIGIT_TIME
      ensures ok ==>
              && Dialable(digits) && completed == |digits| && |attempts| == |digits| * EVENT_PACKETS
              && AllWritten(attempts)
    {
      if payloadType > 127 {
        return false, [], 0;
      }
      var d := Tones(target, ssrc, sequence, timestamp, payloadType, Codes(digits));
      ok, attempts, completed := SendDigits(d, digits, waits, pauses, writes);
    }

    /** So many digits are complete, and so many packets have gone out. */
    ghost predicate DialledTo(d: Tones, attempts: seq<Attempt>, completed: nat)
      reads this
    {
      && Dialled(d, attempts)
      && completed * EVENT_PACKETS <= |attempts| <= (completed + 1) * EVENT_PACKETS
      && sequence == (d.sequence + |attempts|) % 0x1_0000
      && timestamp == (d.timestamp + completed * DIGIT_SAMPLES) % 0x1_0000_0000
    }

    method SendDigits(d: Tones, digits: string, waits: nat -> bool, pauses: nat -> bool, writes: nat -> bool)
      returns (ok: bool, ghost attempts: seq<Attempt>, ghost completed: nat)
      requires d.ssrc == ssrc && d.sequence == sequence && d.timestamp == timestamp && d.codes == Codes(digits)
      modifies this
      ensures log == old(log) + attempts && DialledTo(d, attempts, completed)
      ensures stats.attempted == old(stats.attempted) + |attempts|
              && stats.duration == old(stats.duration) + completed * DIGIT_TIME
      ensures ok ==>
              && Dialable(digits) && completed == |digits| && |attempts| == |digits| * EVENT_PACKETS
              && AllWritten(attempts)
    {
      ghost var before := log;
      attempts, completed := [], 0;
      for index := 0 to |digits|
        invariant completed == index && |attempts| == index * EVENT_PACKETS
        invariant log == before + attempts && AllWritten(attempts) && Dialable(digits[..index])
        invariant DialledTo(d, attempts, index)
        invariant stats.attempted == old(stats.attempted) + |attempts|
                  && stats.duration == old(stats.duration) + index * DIGIT_TIME
      {
        ghost var more;
        ok, more := DialTurn(d, digits, index, waits, writes, attempts);
        LogMore(before, attempts, more);
        attempts := attempts + more;
        if !ok {
          return false, attempts, completed;
        }
        completed := index + 1;
        if index < |digits| - 1 && !pauses(index) {
          return false, attempts, completed;
        }
      }
      assert digits[..|digits|] == digits;
      ok := true;
    }

    /** This digit is due. */
    ghost predicate AtDigit(d: Tones, digit: nat)
      reads this
    {
      && sequence == (d.sequence + digit * EVENT_PACKETS) % 0x1_0000
      && timestamp == (d.timestamp + digit * DIGIT_SAMPLES) % 0x1_0000_0000
    }

    /** One turn of SendDTMF: the digit is sent, if it is one. */
    method DialTurn(d: Tones, digits: string, index: nat, waits: nat -> bool, writes: nat -> bool,
                    ghost attempts: seq<Attempt>)
      returns (ok: bool, ghost more: seq<Attempt>)
      requires index < |digits| && Dialable(digits[..index]) && d.codes == Codes(digits) && d.ssrc == ssrc
      requires DialledTo(d, attempts, index) && |attempts| == index * EVENT_PACKETS && AllWritten(attempts)
      modifies this
      ensures log == old(log) + more && stats.attempted == old(stats.attempted) + |more|
      ensures DialledTo(d, attempts + more, if ok then index + 1 else index)
      ensures stats.duration == old(stats.duration) + if ok then DIGIT_TIME else 0
      ensures ok ==> |more| == EVENT_PACKETS && Dialable(digits[..index + 1]) && AllWritten(attempts + more)
    {
      ok, more := false, [];
      assert attempts + [] == attempts;
      if EventCode(Text.Upper(digits[index])).None? {
        return;
      }
      CodesAt(digits, index);
      ok, more := SendDigit(d, index, waits, writes);
      DialledMore(d, attempts, more, index);
    }

    /** One packet of a digit. */
    method SendEvent(d: Tones, digit: nat, i: nat, eventTimestamp: uint32, written: bool)
      requires digit < |d.codes| && i < EVENT_PACKETS && d.ssrc == ssrc
      requires sequence == (d.sequence + digit * EVENT_PACKETS + i) % 0x1_0000
      requires eventTimestamp == (d.timestamp + digit * DIGIT_SAMPLES) % 0x1_0000_0000
      modifies this`sequence, this`stats, this`log
      ensures sequence == (d.sequence + digit * EVENT_PACKETS + i + 1) % 0x1_0000
      ensures stats == old(stats).Attempt(written, 0)
      ensures log == old(log) + [Attempt(d.Packet(digit, i), d.target, written)]
    {
      var packet := EventPacket(ssrc, sequence, eventTimestamp, d.payloadType, d.codes[digit], i);
      Carry(d.sequence + digit * EVENT_PACKETS + i, 1, 0x1_0000);
      sequence := (sequence + 1) % 0x1_0000;
      stats := stats.Attempt(written, 0);
      log := log + [Attempt(packet, d.target, written)];
    }

    /** The six packets of one digit. */
    method SendDigit(d: Tones, digit: nat, waits: nat -> bool, writes: nat -> bool)
      returns (ok: bool, ghost more: seq<Attempt>)
      requires digit < |d.codes| && d.ssrc == ssrc && AtDigit(d, digit)
      modifies this
      ensures log == old(log) + more && DigitSent(d, digit, more)
      ensures sequence == (d.sequence + digit * EVENT_PACKETS + |more|) % 0x1_0000
      ensures timestamp == (d.timestamp + (if ok then digit + 1 else digit) * DIGIT_SAMPLES) % 0x1_0000_0000
      ensures stats.attempted == old(stats.attempted) + |more|
      ensures stats.duration == old(stats.duration) + if ok then DIGIT_TIME else 0
      ensures ok ==> |more| == EVENT_PACKETS && AllWritten(more)
    {
      more := [];
      var eventTimestamp := timestamp;
      for index := 0 to EVENT_PACKETS
        invariant |more| == index && log == old(log) + more && AllWritten(more) && DigitSent(d, digit, more)
        invariant sequence == (d.sequence + digit * EVENT_PACKETS + index) % 0x1_0000
        invariant timestamp == old(timestamp) == eventTimestamp
        invariant stats.attempted == old(stats.attempted) + index && stats.duration == old(stats.duration)
      {
        if !waits(digit * EVENT_PACKETS + index) {
          return false, more;
        }
        var written := writes(digit * EVENT_PACKETS + index);
        SendEvent(d, digit, index, eventTimestamp, written);
        more := more + [Attempt(d.Packet(digit, index), d.target, written)];
        if !written {
          return false, more;
        }
      }
      Carry(d.timestamp + digit * DIGIT_SAMPLES, DIGIT_SAMPLES, 0x1_0000_0000);
      timestamp := (timestamp + DIGIT_SAMPLES) % 0x1_0000_0000;
      stats := stats.(duration := stats.duration + DIGIT_TIME);
      ok := true;
    }
  }
}
