/** Over whole runs, unwrapping recovers the senders' own counters up to one constant per stream. */
module Unwrapping {
  import opened Ints
  import opened Rtp
  import opened Receiving
  import opened ReceiverRuns

  /** An arrival with the counters its sender had in mind, before they were cut to sixteen and thirty-two bits. */
  datatype Labeled = Labeled(arrival: Arrival, sequence: int, timestamp: int) {
    predicate Fits() {
      && arrival.packet.sequence == sequence % 0x1_0000
      && arrival.packet.timestamp == timestamp % 0x1_0000_0000
    }
  }

  function Arrivals(ls: seq<Labeled>): (r: seq<Arrival>)
    ensures |r| == |ls|
    ensures forall i :: 0 <= i < |ls| ==> r[i] == ls[i].arrival
  {
    seq(|ls|, i requires 0 <= i < |ls| => ls[i].arrival)
  }

  lemma ArrivalsFront(ls: seq<Labeled>)
    requires ls != []
    ensures Arrivals(ls)[..|ls| - 1] == Arrivals(ls[..|ls| - 1])
  {
  }

  function RunLabeled(c: Config, ls: seq<Labeled>): State
    requires c.Valid()
  {
    Run(c, Arrivals(ls))
  }

  lemma RunLabeledLast(c: Config, ls: seq<Labeled>)
    requires c.Valid() && ls != []
    ensures RunLabeled(c, ls) == Step(c, RunLabeled(c, ls[..|ls| - 1]), ls[|ls| - 1].arrival)
  {
    ArrivalsFront(ls);
  }

  /** The first accepted counters of a stream and the highest ones. */
  datatype Peak = Peak(firstSequence: int, firstTimestamp: int, highSequence: int, highTimestamp: int) {
    /** What the receiver's extended values are off by. */
    function SequenceShift(): int {
      firstSequence % 0x1_0000 - firstSequence
    }

    function TimestampShift(): int {
      firstTimestamp % 0x1_0000_0000 - firstTimestamp
    }
  }

  function NextPeak(peaks: map<uint32, Peak>, l: Labeled): Peak {
    var ssrc := l.arrival.packet.ssrc;
    if ssrc !in peaks then Peak(l.sequence, l.timestamp, l.sequence, l.timestamp)
    else peaks[ssrc].(highSequence := Max(peaks[ssrc].highSequence, l.sequence),
                      highTimestamp := Max(peaks[ssrc].highTimestamp, l.timestamp))
  }

  /** The true counters of the accepted packets, stream by stream. */
  function Peaks(c: Config, ls: seq<Labeled>): map<uint32, Peak>
    requires c.Valid()
  {
    if ls == [] then map[] else
      var front, l := ls[..|ls| - 1], ls[|ls| - 1];
      var peaks := Peaks(c, front);
      if Judge(c, RunLabeled(c, front), l.arrival) == Accepted then peaks[l.arrival.packet.ssrc := NextPeak(peaks, l)]
      else peaks
  }

  /** The packet gets as far as being unwrapped. */
  predicate Eligible(c: Config, s: State, a: Arrival) {
    Supported(c, a.packet) && SourceAllowed(c, s, a.source) && !Foreign(s, a.packet) && !Switched(c, s, a.packet)
  }

  /** Less than half a cycle from the highest accepted counters of its stream. */
  predicate InReach(peaks: map<uint32, Peak>, l: Labeled) {
    var ssrc := l.arrival.packet.ssrc;
    ssrc in peaks ==>
      && Abs(l.sequence - peaks[ssrc].highSequence) < 0x8000
      && Abs(l.timestamp - peaks[ssrc].highTimestamp) < 0x8000_0000
  }

  /** Every eligible packet of the run was in reach when it came. */
  ghost predicate Tracked(c: Config, ls: seq<Labeled>)
    requires c.Valid()
  {
    ls == [] ||
    (var front, l := ls[..|ls| - 1], ls[|ls| - 1];
     && Tracked(c, front)
     && l.Fits()
     && (Eligible(c, RunLabeled(c, front), l.arrival) ==> InReach(Peaks(c, front), l)))
  }

  function Stamp(l: Labeled, sequenceShift: int, timestampShift: int): Record {
    Record(l.arrival.packet, l.sequence + sequenceShift, l.timestamp + timestampShift, l.arrival.source)
  }

  /** What a receiver that saw the true counters would have stored. */
  function Stored(c: Config, ls: seq<Labeled>): map<Identity, Record>
    requires c.Valid()
  {
    if ls == [] then map[] else
      var front, l := ls[..|ls| - 1], ls[|ls| - 1];
      if Judge(c, RunLabeled(c, front), l.arrival) != Accepted then Stored(c, front) else
        var peak := NextPeak(Peaks(c, front), l);
        var r := Stamp(l, peak.SequenceShift(), peak.TimestampShift());
        Stored(c, front)[Identity(l.arrival.packet.ssrc, r.sequence) := r]
  }

  ghost predicate Agrees(s: State, peaks: map<uint32, Peak>) {
    && s.highestSequence.Keys == peaks.Keys == s.highestTimestamp.Keys
    && forall ssrc :: ssrc in peaks ==>
         && s.highestSequence[ssrc] == peaks[ssrc].highSequence + peaks[ssrc].SequenceShift()
         && s.highestTimestamp[ssrc] == peaks[ssrc].highTimestamp + peaks[ssrc].TimestampShift()
  }

  lemma ShiftedSequence(sequence: int, first: int)
    ensures (sequence + (first % 0x1_0000 - first)) % 0x1_0000 == sequence % 0x1_0000
  {
    assert first == first / 0x1_0000 * 0x1_0000 + first % 0x1_0000;
  }

  lemma ShiftedTimestamp(timestamp: int, first: int)
    ensures (timestamp + (first % 0x1_0000_0000 - first)) % 0x1_0000_0000 == timestamp % 0x1_0000_0000
  {
    assert first == first / 0x1_0000_0000 * 0x1_0000_0000 + first % 0x1_0000_0000;
  }

  /** One packet in reach is unwrapped to its own counters, shifted. */
  lemma ExactRecord(s: State, peaks: map<uint32, Peak>, l: Labeled)
    requires Agrees(s, peaks) && l.Fits() && InReach(peaks, l)
    ensures var peak := NextPeak(peaks, l);
            RecordOf(s, l.arrival) == Stamp(l, peak.SequenceShift(), peak.TimestampShift())
  {
    var ssrc := l.arrival.packet.ssrc;
    if ssrc in peaks {
      var peak := peaks[ssrc];
      ShiftedSequence(l.sequence, peak.firstSequence);
      ShiftedTimestamp(l.timestamp, peak.firstTimestamp);
      Unwrap16Exact(l.sequence + peak.SequenceShift(), s.highestSequence[ssrc]);
      Unwrap32Exact(l.timestamp + peak.TimestampShift(), s.highestTimestamp[ssrc]);
    }
  }

  lemma AgreesStep(s: State, peaks: map<uint32, Peak>, l: Labeled, t: State, peak: Peak)
    requires Agrees(s, peaks) && peak == NextPeak(peaks, l)
    requires t.highestSequence == Raise(s.highestSequence, l.arrival.packet.ssrc, l.sequence + peak.SequenceShift())
    requires t.highestTimestamp == Raise(s.highestTimestamp, l.arrival.packet.ssrc, l.timestamp + peak.TimestampShift())
    ensures Agrees(t, peaks[l.arrival.packet.ssrc := peak])
  {
    var ssrc := l.arrival.packet.ssrc;
    assert t.highestSequence.Keys == s.highestSequence.Keys + {ssrc};
    assert t.highestTimestamp.Keys == s.highestTimestamp.Keys + {ssrc};
    if ssrc in peaks {
      assert peak.SequenceShift() == peaks[ssrc].SequenceShift()
             && peak.TimestampShift() == peaks[ssrc].TimestampShift();
    }
  }

  lemma ExactMemory(s: State, peaks: map<uint32, Peak>, l: Labeled, peak: Peak, r: Record, t: State)
    requires Agrees(s, peaks) && peak == NextPeak(peaks, l)
             && r == Stamp(l, peak.SequenceShift(), peak.TimestampShift())
    requires MemoryTo(s, l.arrival.packet.ssrc, r, t)
    ensures t.seen == s.seen[Identity(l.arrival.packet.ssrc, r.sequence) := r]
    ensures Agrees(t, peaks[l.arrival.packet.ssrc := peak])
  {
    AgreesStep(s, peaks, l, t, peak);
  }

  lemma ExactStep(c: Config, s: State, peaks: map<uint32, Peak>, l: Labeled, peak: Peak)
    requires c.Valid() && Agrees(s, peaks) && peak == NextPeak(peaks, l)
    requires l.Fits() && InReach(peaks, l) && Judge(c, s, l.arrival) == Accepted
    ensures var t, r := Step(c, s, l.arrival), Stamp(l, peak.SequenceShift(), peak.TimestampShift());
            && t.seen == s.seen[Identity(l.arrival.packet.ssrc, r.sequence) := r]
            && Agrees(t, peaks[l.arrival.packet.ssrc := peak])
  {
    StepMemory(c, s, l.arrival);
    ExactRecord(s, peaks, l);
    ExactMemory(s, peaks, l, peak, RecordOf(s, l.arrival), Step(c, s, l.arrival));
  }

  /** The receiver stores exactly the true counters of the packets it accepts, plus one constant per stream. */
  lemma {:induction false} UnwrappingIsExact(c: Config, ls: seq<Labeled>)
    requires c.Valid() && Tracked(c, ls)
    ensures RunLabeled(c, ls).seen == Stored(c, ls)
    ensures Agrees(RunLabeled(c, ls), Peaks(c, ls))
  {
    if ls != [] {
      var front, l := ls[..|ls| - 1], ls[|ls| - 1];
      var s := RunLabeled(c, front);
      UnwrappingIsExact(c, front);
      RunLabeledLast(c, ls);
      if Judge(c, s, l.arrival) == Accepted {
        ExactStep(c, s, Peaks(c, front), l, NextPeak(Peaks(c, front), l));
      } else {
        StepRejected(c, s, l.arrival);
      }
    }
  }
}
