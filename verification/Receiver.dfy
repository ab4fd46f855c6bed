/** The receiver object: fields updated packet by packet (rtpverifier/receiver.go). */
module Receiver {
  import opened Ints
  import opened Options
  import opened Rtp
  import opened Receiving
  import TE = TelephoneEvents
  import Results
  import SequenceSpace
  import Timeline

  lemma StepIgnored(c: Config, s: State, a: Arrival)
    requires c.Valid() && (!Supported(c, a.packet) || !SourceAllowed(c, s, a.source))
    ensures Step(c, s, a) == s.(log := if |s.log| < MAX_RETAINED then s.log + [a] else s.log, stats := s.stats.Ignore())
  {
  }

  function Logged(s: State, a: Arrival): State {
    s.(log := if |s.log| < MAX_RETAINED then s.log + [a] else s.log)
  }

  /** The state after a packet of another stream or codec. */
  function Refused(s: State, p: Packet): State {
    if Foreign(s, p) then s.(stats := s.stats.Foreign().Ignore())
    else s.(stats := s.stats.Switch().Ignore(), codecSwitched := true)
  }

  lemma StepRefused(c: Config, s: State, a: Arrival)
    requires c.Valid() && Supported(c, a.packet) && SourceAllowed(c, s, a.source)
    requires Foreign(s, a.packet) || Switched(c, s, a.packet)
    ensures Step(c, s, a) == Refused(Logged(s, a), a.packet)
  {
  }

  lemma StepHeard(c: Config, s: State, a: Arrival)
    requires c.Valid() && Supported(c, a.packet) && SourceAllowed(c, s, a.source)
    requires !Foreign(s, a.packet) && !Switched(c, s, a.packet)
    ensures var n := Logged(s, a).(lock := Locked(c, Logged(s, a), a));
            Step(c, s, a) == Decide(c, n, a, JudgeSequence(c, n, a.packet))
  {
    var n := Logged(s, a).(lock := Locked(c, Logged(s, a), a));
    assert Judge(c, s, a) == JudgeSequence(c, s, a.packet) == JudgeSequence(c, n, a.packet);
    assert Noted(c, s, a, Judge(c, s, a)) == n;
  }

  lemma KeepWhole(c: Config, s: State, r: Record, t: State)
    requires t.highestSequence == Raise(s.highestSequence, r.packet.ssrc, r.sequence)
    requires t.highestTimestamp == Raise(s.highestTimestamp, r.packet.ssrc, r.timestamp)
    requires t.seen == s.seen[Identity(r.packet.ssrc, r.sequence) := r]
    requires t.sequenceSpace ==
               if s.lock.Some? && r.packet.ssrc == s.lock.value.ssrc then s.sequenceSpace + [r.sequence]
               else s.sequenceSpace
    requires t.stats ==
               if r.packet.ssrc in s.highestSequence && r.sequence < s.highestSequence[r.packet.ssrc]
               then s.stats.Late() else s.stats
    requires t.packets == if c.Audio(r.packet) then s.packets + [r] else s.packets
    requires t.lastAudio == if c.Audio(r.packet) then Some(NextLast(s.lastAudio, r)) else s.lastAudio
    requires t.audioStats == if c.Audio(r.packet) then CountAudio(s.audioStats, s.lastAudio, r) else s.audioStats
    requires t.lock == s.lock && t.track == s.track && t.log == s.log
    requires t.bufferLimitHit == s.bufferLimitHit && t.codecSwitched == s.codecSwitched
    ensures t == Keep(c, s, r)
  {
  }

  /** A receiver for these settings; none if they are out of range. */
  method New(settings: Settings) returns (receiver: Option<Receiver>)
    ensures receiver.Some? <==> Configured(settings).Some?
    ensures receiver.Some? ==>
              && fresh(receiver.value) && receiver.value.Valid()
              && receiver.value.config == Configured(settings).value && receiver.value.View() == FRESH
  {
    var config := Configured(settings);
    if config.None? {
      return None;
    }
    var created := new Receiver(config.value);
    receiver := Some(created);
  }

  class Receiver {
    const config: Config

    /** The source's selected, selectedSSRC, codec, source and sourceLocked, which are set together. */
    var lock: Option<Lock>
    var highestSequence: map<uint32, int>
    var highestTimestamp: map<uint32, int>
    var seen: map<Identity, Record>
    var packets: seq<Record>
    var sequenceSpace: seq<int>
    var dtmf: map<TE.EventId, TE.EventState>
    var dtmfEvents: seq<TE.Emitted>
    var events: seq<Arrival>
    var stats: Stats
    var audioStats: AudioStats
    var bufferLimitHit: bool
    /** The source's haveLastAudio, lastAudioSequence and lastAudioTimestamp. */
    var lastAudio: Option<LastAudio>
    var codecSwitched: bool

    ghost predicate Valid() {
      config.Valid()
    }

    ghost function View(): State
      reads this
    {
      State(lock, highestSequence, highestTimestamp, seen, packets, sequenceSpace, TE.Track(dtmf, dtmfEvents),
            lastAudio, bufferLimitHit, codecSwitched, events, stats, audioStats)
    }

    constructor (config: Config)
      requires config.Valid()
      ensures this.config == config
      ensures Valid() && View() == FRESH
    {
      this.config := config;
      lock, lastAudio := None, None;
      highestSequence, highestTimestamp, seen := map[], map[], map[];
      packets, sequenceSpace, dtmf, dtmfEvents, events := [], [], map[], [], [];
      stats, audioStats := NO_STATS, NO_AUDIO;
      bufferLimitHit, codecSwitched := false, false;
    }

    method Accept(packet: Packet, from: Endpoint)
      requires Valid()
      modifies this
      ensures Valid()
      ensures View() == Step(config, old(View()), Arrival(packet, from))
    {
      ghost var before, a := View(), Arrival(packet, from);
      if |events| < MAX_RETAINED {
        events := events + [Arrival(packet, from)];
      }
      assert View() == Logged(before, a);
      var heeded := Heeds(packet, from);
      if !heeded {
        stats := stats.Ignore();
        StepIgnored(config, before, a);
        return;
      }
      var heard := ListenTo(packet, from);
      if heard {
        StepHeard(config, before, a);
        AcceptStream(packet, from);
      } else {
        StepRefused(config, before, a);
      }
    }

    /** The packet is of a supported type and from an allowed source. */
    method Heeds(packet: Packet, from: Endpoint) returns (heeded: bool)
      requires Valid()
      ensures heeded == (Supported(config, packet) && SourceAllowed(config, View(), from))
    {
      var audioPacket := packet.payloadType in config.audioPayloads;
      var dtmfPacket := config.telephoneEventPayload >= 0 && packet.payloadType == config.telephoneEventPayload;
      if packet.version != 2 || (!audioPacket && !dtmfPacket) {
        return false;
      }
      if config.expectedSourceIP.Some? && from.addr.Unmap() != config.expectedSourceIP.value.Unmap() {
        return false;
      }
      if lock.Some? && from != lock.value.source {
        return false;
      }
      return true;
    }

    /** Takes the stream lock; false if the packet is not of the stream and codec the receiver listens to. */
    method ListenTo(packet: Packet, from: Endpoint) returns (heard: bool)
      requires Valid() && Supported(config, packet) && SourceAllowed(config, View(), from)
      modifies this`lock, this`stats, this`codecSwitched
      ensures Valid()
      ensures var s := old(View());
              && heard == (!Foreign(s, packet) && !Switched(config, s, packet))
              && View() == if heard then s.(lock := Locked(config, s, Arrival(packet, from))) else Refused(s, packet)
    {
      var audioPacket := packet.payloadType in config.audioPayloads;
      var dtmfPacket := config.telephoneEventPayload >= 0 && packet.payloadType == config.telephoneEventPayload;
      if audioPacket {
        if lock.None? {
          lock := Some(Lock(packet.ssrc, config.audioPayloads[packet.payloadType], from));
        } else if packet.ssrc != lock.value.ssrc {
          stats := stats.Foreign().Ignore();
          return false;
        } else if config.audioPayloads[packet.payloadType] != lock.value.codec {
          stats := stats.Switch().Ignore();
          codecSwitched := true;
          return false;
        }
      }
      if dtmfPacket && lock.Some? && packet.ssrc != lock.value.ssrc {
        stats := stats.Foreign().Ignore();
        return false;
      }
      return true;
    }

    /** Accept from the unwrapping on: the packet belongs to a stream the receiver listens to. */
    method AcceptStream(packet: Packet, from: Endpoint)
      requires Valid()
      modifies this
      ensures Valid()
      ensures View() == Decide(config, old(View()), Arrival(packet, from), JudgeSequence(config, old(View()), packet))
    {
      var sequence := Unwrap16(packet.sequence, Lookup(highestSequence, packet.ssrc));
      var identity := Identity(packet.ssrc, sequence);
      if identity in seen {
        stats := stats.Repeat();
        if !SamePacket(seen[identity].packet, packet) {
          stats := stats.Ignore().Conflict();
        }
        return;
      }
      if packet.ssrc in highestSequence && sequence < highestSequence[packet.ssrc] - config.reorderWindow {
        stats := stats.Late().Ignore();
        return;
      }
      if |seen| >= MAX_RETAINED {
        stats := stats.Ignore();
        if !bufferLimitHit {
          bufferLimitHit := true;
          stats := stats.Discontinue();
        }
        return;
      }
      var timestamp := Unwrap32(packet.timestamp, Lookup(highestTimestamp, packet.ssrc));
      AcceptRecord(Record(packet, sequence, timestamp, from));
    }

    /** The rest of Accept, for a packet that is retained. */
    method AcceptRecord(record: Record)
      requires Valid()
      modifies this
      ensures Valid()
      ensures View() == Retain(config, old(View()), record)
    {
      KeepRecord(record);
      if config.telephoneEventPayload >= 0 && record.packet.payloadType == config.telephoneEventPayload {
        AcceptDtmf(record.packet);
      }
    }

    method KeepRecord(record: Record)
      requires Valid()
      modifies this`highestSequence, this`highestTimestamp, this`seen, this`sequenceSpace, this`stats
      modifies this`packets, this`audioStats, this`lastAudio
      ensures Valid()
      ensures View() == Keep(config, old(View()), record)
    {
      ghost var before := View();
      Remember(record);
      if record.packet.payloadType in config.audioPayloads {
        AcceptAudio(record);
      }
      KeepWhole(config, before, record, View());
    }

    method Remember(record: Record)
      requires Valid()
      modifies this`highestSequence, this`highestTimestamp, this`seen, this`sequenceSpace, this`stats
      ensures var ssrc, sequence, timestamp := record.packet.ssrc, record.sequence, record.timestamp;
              && highestSequence == Raise(old(highestSequence), ssrc, sequence)
              && highestTimestamp == Raise(old(highestTimestamp), ssrc, timestamp)
              && seen == old(seen)[Identity(ssrc, sequence) := record]
              && sequenceSpace == (if lock.Some? && ssrc == lock.value.ssrc then old(sequenceSpace) + [sequence]
                                   else old(sequenceSpace))
              && stats == (if ssrc in old(highestSequence) && sequence < old(highestSequence)[ssrc]
                           then old(stats).Late() else old(stats))
    {
      var ssrc := record.packet.ssrc;
      if ssrc in highestSequence {
        if record.sequence < highestSequence[ssrc] {
          stats := stats.Late();
        } else if record.sequence > highestSequence[ssrc] {
          highestSequence := highestSequence[ssrc := record.sequence];
        }
      } else {
        highestSequence := highestSequence[ssrc := record.sequence];
      }
      if ssrc !in highestTimestamp || record.timestamp > highestTimestamp[ssrc] {
        highestTimestamp := highestTimestamp[ssrc := record.timestamp];
      }
      seen := seen[Identity(ssrc, record.sequence) := record];
      if lock.Some? && ssrc == lock.value.ssrc {
        sequenceSpace := sequenceSpace + [record.sequence];
      }
    }

    method AcceptAudio(record: Record)
      requires Valid()
      modifies this`packets, this`audioStats, this`lastAudio
      ensures packets == old(packets) + [record]
      ensures audioStats == CountAudio(old(audioStats), old(lastAudio), record)
      ensures lastAudio == Some(NextLast(old(lastAudio), record))
    {
      packets := packets + [record];
      audioStats := audioStats.(packetsReceived := audioStats.packetsReceived + 1);
      if audioStats.packetsReceived == 1 {
        audioStats := audioStats.(firstSequence := record.packet.sequence, firstTimestamp := record.packet.timestamp);
      }
      var last := if lastAudio.Some? then lastAudio.value else LastAudio(record.sequence, record.timestamp);
      if lastAudio.None? || record.sequence > last.sequence {
        last := last.(sequence := record.sequence);
        audioStats := audioStats.(lastSequence := record.packet.sequence);
      }
      if lastAudio.None? || record.timestamp > last.timestamp {
        last := last.(timestamp := record.timestamp);
        audioStats := audioStats.(lastTimestamp := record.packet.timestamp);
      }
      lastAudio := Some(last);
    }

    method AcceptDtmf(packet: Packet)
      requires Valid() && config.Events(packet)
      modifies this`stats, this`dtmf, this`dtmfEvents
      ensures TE.Track(dtmf, dtmfEvents) == TrackAfter(config, TE.Track(old(dtmf), old(dtmfEvents)), packet)
      ensures stats == EventStats(config, old(stats), packet)
    {
      if |packet.payload| < 4 {
        stats := stats.Malform().Ignore();
        return;
      }
      var eventId := packet.payload[0];
      var digit := TE.Digit(eventId);
      if digit.None? {
        stats := stats.Ignore();
        return;
      }
      var end := packet.payload[1] >= 0x80;
      var high: int, low: int := packet.payload[2], packet.payload[3];
      var duration := high * 0x100 + low;
      var identity := TE.EventId(packet.ssrc, packet.timestamp, eventId);
      var state := if identity in dtmf then dtmf[identity]
                   else TE.EventState(0, packet.payload[1] % 0x40, false, false, -1);
      if duration > state.duration {
        state := state.(duration := duration);
      }
      if end {
        state := state.(ended := true);
        if !state.emitted {
          state := state.(emitted := true, event := |dtmfEvents|);
          dtmfEvents := dtmfEvents + [TE.Emitted(digit.value, TE.Nanoseconds(state.duration, config.clockRate),
                                                 state.volume, packet.timestamp, packet.ssrc)];
        } else if 0 <= state.event < |dtmfEvents| {
          var reported := dtmfEvents[state.event].(duration := TE.Nanoseconds(state.duration, config.clockRate));
          dtmfEvents := dtmfEvents[state.event := reported];
        }
      }
      dtmf := dtmf[identity := state];
    }

    method CountIncomplete() returns (incomplete: int)
      ensures incomplete == |Results.Incomplete(View())|
    {
      var unended := set id | id in dtmf && !dtmf[id].ended && (lock.Some? ==> id.ssrc == lock.value.ssrc);
      assert unended == Results.Incomplete(View());
      incomplete := |unended|;
    }

    method Result() returns (result: Results.Result)
      requires Valid()
      ensures result == Results.ResultOf(config, View())
    {
      var sorted := Timeline.Sort(packets);
      Timeline.SortIncreasing(packets);
      var missing := SequenceSpace.MissingPackets(sequenceSpace);
      var incomplete := CountIncomplete();
      var tape := Timeline.Reconstruct(sorted, Results.CodecOf(lock), Results.GapSamples(config));
      var kept := if lock.Some? then Results.OfStream(dtmfEvents, lock.value.ssrc) else dtmfEvents;
      result := Results.Result(tape.pcm, kept, Results.WithTape(stats, tape), audioStats, missing, incomplete,
                               |tape.pcm| * TE.SECOND / 8000, events);
    }
  }
}
