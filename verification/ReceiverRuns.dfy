/** What every run of the receiver keeps, whatever arrives and in whatever order. */
module ReceiverRuns {
  import opened Ints
  import opened Options
  import opened Receiving
  import opened Results
  import opened SequenceSpace
  import TE = TelephoneEvents

  /** Everything a packet that is not accepted leaves alone. */
  ghost predicate RejectedTo(s: State, t: State) {
    && t.seen == s.seen && t.packets == s.packets && t.sequenceSpace == s.sequenceSpace && t.track == s.track
    && t.highestSequence == s.highestSequence && t.highestTimestamp == s.highestTimestamp
    && t.lastAudio == s.lastAudio && t.audioStats == s.audioStats
    && (s.lock.Some? ==> t.lock == s.lock)
  }

  /** Everything an accepted packet changes. */
  ghost predicate AcceptedTo(c: Config, s: State, a: Arrival, t: State)
    requires c.Valid()
  {
    var r := RecordOf(s, a);
    && Identity(a.packet.ssrc, r.sequence) !in s.seen && |s.seen| < MAX_RETAINED
    && t.seen == s.seen[Identity(a.packet.ssrc, r.sequence) := r]
    && t.lock == Locked(c, s, a)
    && t.packets == (if c.Audio(a.packet) then s.packets + [r] else s.packets)
    && t.sequenceSpace == (if t.lock.Some? && t.lock.value.ssrc == a.packet.ssrc then s.sequenceSpace + [r.sequence]
                           else s.sequenceSpace)
    && t.highestSequence == Raise(s.highestSequence, a.packet.ssrc, r.sequence)
    && t.highestTimestamp == Raise(s.highestTimestamp, a.packet.ssrc, r.timestamp)
    && t.lastAudio == (if c.Audio(a.packet) then Some(NextLast(s.lastAudio, r)) else s.lastAudio)
    && t.track == TrackAfter(c, s.track, a.packet)
    && t.stats == EventStats(c, Keep(c, s, r).stats, a.packet)
    && t.audioStats == (if c.Audio(a.packet) then CountAudio(s.audioStats, s.lastAudio, r) else s.audioStats)
  }

  lemma StepRejected(c: Config, s: State, a: Arrival)
    requires c.Valid() && Judge(c, s, a) != Accepted
    ensures RejectedTo(s, Step(c, s, a))
    ensures Step(c, s, a).stats == Tally(s.stats, Judge(c, s, a), s.bufferLimitHit)
  {
  }

  lemma StepAccepted(c: Config, s: State, a: Arrival)
    requires c.Valid() && Judge(c, s, a) == Accepted
    ensures AcceptedTo(c, s, a, Step(c, s, a))
  {
    var n := Noted(c, s, a, Accepted);
    assert Step(c, s, a) == Retain(c, n, RecordOf(n, a));
    assert RecordOf(n, a) == RecordOf(s, a);
  }

  /** The record is remembered under its identity, and the highest counters are raised to its own. */
  ghost predicate MemoryTo(s: State, ssrc: uint32, r: Record, t: State) {
    && t.seen == s.seen[Identity(ssrc, r.sequence) := r]
    && t.highestSequence == Raise(s.highestSequence, ssrc, r.sequence)
    && t.highestTimestamp == Raise(s.highestTimestamp, ssrc, r.timestamp)
  }

  lemma StepMemory(c: Config, s: State, a: Arrival)
    requires c.Valid() && Judge(c, s, a) == Accepted
    ensures MemoryTo(s, a.packet.ssrc, RecordOf(s, a), Step(c, s, a))
  {
    StepAccepted(c, s, a);
  }

  lemma TallyCounts(u: Stats, verdict: Verdict, bufferLimitHit: bool)
    requires verdict != Accepted
    ensures var t := Tally(u, verdict, bufferLimitHit);
            && t.duplicates == u.duplicates + (if verdict.Duplicate? then 1 else 0)
            && t.conflicting == u.conflicting + (if verdict == Duplicate(true) then 1 else 0)
            && t.ignored == u.ignored + (if verdict == Duplicate(false) then 0 else 1)
  {
  }

  lemma RetainCounts(c: Config, s: State, r: Record)
    ensures var t, u := EventStats(c, Keep(c, s, r).stats, r.packet), s.stats;
            && t.duplicates == u.duplicates && t.conflicting == u.conflicting
            && t.ignored == u.ignored + (if c.Events(r.packet) && !TE.Parse(r.packet).Event? then 1 else 0)
  {
  }

  // What the retained packets are.

  predicate RecordFits(id: Identity, r: Record) {
    && id == Identity(r.packet.ssrc, r.sequence)
    && r.sequence % 0x1_0000 == r.packet.sequence
    && r.timestamp % 0x1_0000_0000 == r.packet.timestamp
  }

  ghost predicate SeenFits(s: State) {
    && |s.seen| <= MAX_RETAINED
    && forall id :: id in s.seen ==> RecordFits(id, s.seen[id])
  }

  ghost predicate HighestFits(s: State) {
    && s.highestSequence.Keys == s.highestTimestamp.Keys
    && (forall ssrc :: ssrc in s.highestSequence ==> Identity(ssrc, s.highestSequence[ssrc]) in s.seen)
    && (forall id :: id in s.seen ==>
          && id.ssrc in s.highestSequence
          && id.sequence <= s.highestSequence[id.ssrc]
          && s.seen[id].timestamp <= s.highestTimestamp[id.ssrc])
  }

  /** The audio packets are retained ones of one stream and codec, all different, none below the reorder window. */
  ghost predicate AudioFits(c: Config, s: State) {
    && s.audioStats.packetsReceived == |s.packets|
    && (s.packets != [] ==> s.lock.Some? && s.lastAudio.Some?)
    && (forall i :: 0 <= i < |s.packets| ==> AudioRecordFits(c, s, s.packets[i]))
    && (forall i, j :: 0 <= i < j < |s.packets| ==>
          && s.packets[i].sequence != s.packets[j].sequence
          && s.packets[j].sequence >= s.packets[i].sequence - c.reorderWindow)
  }

  ghost predicate AudioRecordFits(c: Config, s: State, r: Record) {
    && s.lock.Some?
    && Identity(r.packet.ssrc, r.sequence) in s.seen
    && s.seen[Identity(r.packet.ssrc, r.sequence)] == r
    && r.packet.ssrc == s.lock.value.ssrc
    && c.Audio(r.packet) && c.audioPayloads[r.packet.payloadType] == s.lock.value.codec
  }

  ghost predicate SpaceFits(s: State) {
    && (s.lock.None? ==> s.sequenceSpace == [])
    && (s.lock.Some? ==> forall x :: x in s.sequenceSpace ==> Identity(s.lock.value.ssrc, x) in s.seen)
    && forall i, j :: 0 <= i < j < |s.sequenceSpace| ==> s.sequenceSpace[i] != s.sequenceSpace[j]
  }

  /** Extended values stay far inside sixty-four bits. */
  ghost predicate Bounded(s: State) {
    forall id :: id in s.seen ==>
      && Abs(id.sequence) <= 0x1_0000 * |s.seen|
      && Abs(s.seen[id].timestamp) <= 0x1_0000_0000 * |s.seen|
      && id.ssrc in s.highestTimestamp && Abs(s.highestTimestamp[id.ssrc]) <= 0x1_0000_0000 * |s.seen|
  }

  ghost predicate Invariant(c: Config, s: State) {
    SeenFits(s) && HighestFits(s) && AudioFits(c, s) && SpaceFits(s) && Bounded(s)
  }

  lemma SeenStep(c: Config, s: State, a: Arrival, t: State)
    requires c.Valid() && SeenFits(s) && AcceptedTo(c, s, a, t)
    ensures SeenFits(t)
    ensures |t.seen| == |s.seen| + 1
  {
    var id := Identity(a.packet.ssrc, RecordOf(s, a).sequence);
    assert t.seen.Keys == s.seen.Keys + {id};
  }

  lemma HighestStep(s: State, r: Record, t: State)
    requires HighestFits(s)
    requires t.seen == s.seen[Identity(r.packet.ssrc, r.sequence) := r]
    requires t.highestSequence == Raise(s.highestSequence, r.packet.ssrc, r.sequence)
    requires t.highestTimestamp == Raise(s.highestTimestamp, r.packet.ssrc, r.timestamp)
    ensures HighestFits(t)
  {
    assert t.highestSequence.Keys == s.highestSequence.Keys + {r.packet.ssrc} == t.highestTimestamp.Keys;
    forall id | id in t.seen
      ensures id.ssrc in t.highestSequence && id.sequence <= t.highestSequence[id.ssrc]
      ensures t.seen[id].timestamp <= t.highestTimestamp[id.ssrc]
    {
      if id in s.seen {
        assert id.sequence <= s.highestSequence[id.ssrc];
      }
    }
  }

  /** Unwrapping moves at most half a cycle from the highest value. */
  lemma RecordNear(s: State, a: Arrival, size: nat)
    requires a.packet.ssrc in s.highestSequence <==> a.packet.ssrc in s.highestTimestamp
    requires a.packet.ssrc in s.highestSequence ==>
               && Abs(s.highestSequence[a.packet.ssrc]) <= 0x1_0000 * size
               && Abs(s.highestTimestamp[a.packet.ssrc]) <= 0x1_0000_0000 * size
    ensures Abs(RecordOf(s, a).sequence) <= 0x1_0000 * (size + 1)
    ensures Abs(RecordOf(s, a).timestamp) <= 0x1_0000_0000 * (size + 1)
  {
  }

  lemma BoundedStep(c: Config, s: State, a: Arrival, t: State)
    requires c.Valid() && HighestFits(s) && Bounded(s) && AcceptedTo(c, s, a, t) && |t.seen| == |s.seen| + 1
    ensures Bounded(t)
  {
    var ssrc, r := a.packet.ssrc, RecordOf(s, a);
    if ssrc in s.highestSequence {
      assert Identity(ssrc, s.highestSequence[ssrc]) in s.seen;
    }
    RecordNear(s, a, |s.seen|);
    forall id | id in t.seen
      ensures Abs(id.sequence) <= 0x1_0000 * |t.seen| && Abs(t.seen[id].timestamp) <= 0x1_0000_0000 * |t.seen|
      ensures id.ssrc in t.highestTimestamp && Abs(t.highestTimestamp[id.ssrc]) <= 0x1_0000_0000 * |t.seen|
    {
      if id != Identity(ssrc, r.sequence) {
        assert id in s.seen;
      }
    }
  }

  lemma AudioStep(c: Config, s: State, r: Record, t: State)
    requires AudioFits(c, s)
    requires t.seen == s.seen[Identity(r.packet.ssrc, r.sequence) := r]
             && Identity(r.packet.ssrc, r.sequence) !in s.seen
    requires t.lock.Some? && (s.lock.Some? ==> t.lock == s.lock)
    requires r.packet.ssrc == t.lock.value.ssrc && c.Audio(r.packet)
             && c.audioPayloads[r.packet.payloadType] == t.lock.value.codec
    requires t.packets == s.packets + [r] && t.lastAudio.Some?
             && t.audioStats.packetsReceived == s.audioStats.packetsReceived + 1
    requires forall i :: 0 <= i < |s.packets| ==> r.sequence >= s.packets[i].sequence - c.reorderWindow
    ensures AudioFits(c, t)
  {
    forall i | 0 <= i < |t.packets|
      ensures AudioRecordFits(c, t, t.packets[i])
    {
      if i < |s.packets| {
        assert AudioRecordFits(c, s, s.packets[i]);
      }
    }
    forall i | 0 <= i < |s.packets|
      ensures s.packets[i].sequence != r.sequence
    {
      assert AudioRecordFits(c, s, s.packets[i]);
    }
  }

  lemma AudioAccepted(c: Config, s: State, a: Arrival, t: State)
    requires c.Valid() && HighestFits(s) && AudioFits(c, s) && Judge(c, s, a) == Accepted
    requires AcceptedTo(c, s, a, t)
    ensures AudioFits(c, t)
  {
    var r := RecordOf(s, a);
    RetainCounts(c, s, r);
    assert forall q :: AudioRecordFits(c, s, q) ==> AudioRecordFits(c, t, q);
    if c.Audio(a.packet) {
      forall i | 0 <= i < |s.packets|
        ensures r.sequence >= s.packets[i].sequence - c.reorderWindow
      {
        assert AudioRecordFits(c, s, s.packets[i]);
        assert Identity(a.packet.ssrc, s.packets[i].sequence) in s.seen;
      }
      AudioStep(c, s, r, t);
    }
  }

  lemma SpaceStep(c: Config, s: State, a: Arrival, t: State)
    requires c.Valid() && SpaceFits(s) && AcceptedTo(c, s, a, t)
    ensures SpaceFits(t)
  {
    var r := RecordOf(s, a);
    if s.lock.Some? {
      forall i | 0 <= i < |s.sequenceSpace|
        ensures a.packet.ssrc == s.lock.value.ssrc ==> s.sequenceSpace[i] != r.sequence
      {
        assert s.sequenceSpace[i] in s.sequenceSpace;
      }
    }
  }

  lemma InvariantStep(c: Config, s: State, a: Arrival)
    requires c.Valid() && Invariant(c, s)
    ensures Invariant(c, Step(c, s, a))
  {
    var t := Step(c, s, a);
    if Judge(c, s, a) == Accepted {
      StepAccepted(c, s, a);
      SeenStep(c, s, a, t);
      HighestStep(s, RecordOf(s, a), t);
      BoundedStep(c, s, a, t);
      AudioAccepted(c, s, a, t);
      SpaceStep(c, s, a, t);
    } else {
      StepRejected(c, s, a);
      TallyCounts(s.stats, Judge(c, s, a), s.bufferLimitHit);
      RejectedKeeps(c, s, t);
    }
  }

  lemma RejectedKeeps(c: Config, s: State, t: State)
    requires Invariant(c, s) && RejectedTo(s, t)
    ensures Invariant(c, t)
  {
    assert forall r :: AudioRecordFits(c, s, r) ==> AudioRecordFits(c, t, r);
    assert SpaceFits(t);
  }

  /** Every run of the receiver keeps all of it. */
  lemma {:induction false} RunInvariant(c: Config, arrivals: seq<Arrival>)
    requires c.Valid()
    ensures Invariant(c, Run(c, arrivals))
  {
    if arrivals != [] {
      RunInvariant(c, arrivals[..|arrivals| - 1]);
      InvariantStep(c, Run(c, arrivals[..|arrivals| - 1]), arrivals[|arrivals| - 1]);
    }
  }

  // Conservation.

  /** Retained packets that are of the telephone-event type alone. */
  function EventIds(c: Config, s: State): set<Identity> {
    set id | id in s.seen && c.Events(s.seen[id].packet) && !c.Audio(s.seen[id].packet)
  }

  /** Retained packets of the telephone-event type that carry no event the receiver knows. */
  function RejectedEventIds(c: Config, s: State): set<Identity> {
    set id | id in s.seen && c.Events(s.seen[id].packet) && !TE.Parse(s.seen[id].packet).Event?
  }

  /** Every packet given to the receiver is retained, a repeat, or counted as ignored, and only once. */
  lemma {:induction false} Conservation(c: Config, arrivals: seq<Arrival>)
    requires c.Valid()
    ensures var s := Run(c, arrivals);
            && |arrivals| == |s.seen| + s.stats.duplicates
               + (s.stats.ignored - s.stats.conflicting - |RejectedEventIds(c, s)|)
            && |s.seen| == s.audioStats.packetsReceived + |EventIds(c, s)| <= MAX_RETAINED
            && s.audioStats.packetsReceived == |s.packets|
  {
    RunInvariant(c, arrivals);
    if arrivals != [] {
      var s, a := Run(c, arrivals[..|arrivals| - 1]), arrivals[|arrivals| - 1];
      Conservation(c, arrivals[..|arrivals| - 1]);
      RunInvariant(c, arrivals[..|arrivals| - 1]);
      ConservationStep(c, s, a);
    }
  }

  /** Whatever arrives: the missing packets and the retained ones fill the range of the sequences. */
  lemma MissingConserved(c: Config, arrivals: seq<Arrival>)
    requires c.Valid() && Run(c, arrivals).sequenceSpace != []
    ensures var s := Run(c, arrivals);
            ResultOf(c, s).missing + |s.sequenceSpace| == Highest(s.sequenceSpace) - Lowest(s.sequenceSpace) + 1
  {
    RunInvariant(c, arrivals);
    DistinctCount(Run(c, arrivals).sequenceSpace);
  }

  lemma OneMore(before: set<Identity>, after: set<Identity>, id: Identity, counts: bool)
    requires id !in before && forall x :: x in after <==> x in before || (counts && x == id)
    ensures |after| == |before| + if counts then 1 else 0
  {
    assert after == if counts then before + {id} else before;
  }

  lemma EventIdsGrow(c: Config, s: State, t: State, id: Identity, r: Record)
    requires id !in s.seen && t.seen == s.seen[id := r] && (c.Audio(r.packet) || c.Events(r.packet))
    ensures |EventIds(c, t)| == |EventIds(c, s)| + (if c.Audio(r.packet) then 0 else 1)
  {
    OneMore(EventIds(c, s), EventIds(c, t), id, !c.Audio(r.packet));
  }

  lemma RejectedEventIdsGrow(c: Config, s: State, t: State, id: Identity, r: Record)
    requires id !in s.seen && t.seen == s.seen[id := r]
    ensures |RejectedEventIds(c, t)|
            == |RejectedEventIds(c, s)| + (if c.Events(r.packet) && !TE.Parse(r.packet).Event? then 1 else 0)
  {
    OneMore(RejectedEventIds(c, s), RejectedEventIds(c, t), id, c.Events(r.packet) && !TE.Parse(r.packet).Event?);
  }

  lemma ConservationStep(c: Config, s: State, a: Arrival)
    requires c.Valid() && SeenFits(s)
    ensures var t := Step(c, s, a);
            var before := |s.seen| + s.stats.duplicates
              + s.stats.ignored - s.stats.conflicting - |RejectedEventIds(c, s)|;
            && |t.seen| + t.stats.duplicates + t.stats.ignored - t.stats.conflicting - |RejectedEventIds(c, t)|
               == before + 1
            && |t.seen| - t.audioStats.packetsReceived - |EventIds(c, t)|
               == |s.seen| - s.audioStats.packetsReceived - |EventIds(c, s)|
  {
    var t := Step(c, s, a);
    if Judge(c, s, a) == Accepted {
      var r := RecordOf(s, a);
      var id := Identity(a.packet.ssrc, r.sequence);
      StepAccepted(c, s, a);
      SeenStep(c, s, a, t);
      RetainCounts(c, s, r);
      EventIdsGrow(c, s, t, id, r);
      RejectedEventIdsGrow(c, s, t, id, r);
    } else {
      StepRejected(c, s, a);
      TallyCounts(s.stats, Judge(c, s, a), s.bufferLimitHit);
      assert EventIds(c, t) == EventIds(c, s) && RejectedEventIds(c, t) == RejectedEventIds(c, s);
    }
  }

  // Telephone events.

  /** The telephone events of the retained packets, in the order they were accepted. */
  function AcceptedEvents(c: Config, arrivals: seq<Arrival>): seq<TE.EventPacket>
    requires c.Valid()
  {
    if arrivals == [] then [] else
      var prefix, a := arrivals[..|arrivals| - 1], arrivals[|arrivals| - 1];
      var parsed := TE.Parse(a.packet);
      if Judge(c, Run(c, prefix), a) == Accepted && c.Events(a.packet) && parsed.Event?
      then AcceptedEvents(c, prefix) + [parsed.packet]
      else AcceptedEvents(c, prefix)
  }

  lemma {:induction false} RunTrack(c: Config, arrivals: seq<Arrival>)
    requires c.Valid()
    ensures Run(c, arrivals).track == TE.ObserveAll(AcceptedEvents(c, arrivals), c.clockRate)
  {
    if arrivals != [] {
      var prefix, a := arrivals[..|arrivals| - 1], arrivals[|arrivals| - 1];
      RunTrack(c, prefix);
      if Judge(c, Run(c, prefix), a) == Accepted {
        StepAccepted(c, Run(c, prefix), a);
      } else {
        StepRejected(c, Run(c, prefix), a);
      }
    }
  }

  /** In every run the emitted events are the ended ones, once each, in the order their ends came. */
  lemma RunReportsEvents(c: Config, arrivals: seq<Arrival>)
    requires c.Valid()
    ensures TE.Tracks(AcceptedEvents(c, arrivals), Run(c, arrivals).track, c.clockRate)
  {
    RunTrack(c, arrivals);
    TE.TrackReports(AcceptedEvents(c, arrivals), c.clockRate);
  }
}
