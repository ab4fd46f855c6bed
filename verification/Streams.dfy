/** What the receiver makes of one sender's packets when the network may lose, repeat and reorder them. */
module Streams {
  import opened Ints
  import opened Options
  import opened G711
  import opened Rtp
  import opened Receiving
  import opened ReceiverRuns
  import opened Unwrapping
  import TE = TelephoneEvents

  /** The one stream the receiver hears. */
  datatype Origin = Origin(ssrc: uint32, codec: Codec, source: Endpoint) {
    function Key(): Lock {
      Lock(ssrc, codec, source)
    }
  }

  /** An audio or telephone-event packet of the origin that the receiver is set up for. */
  predicate FromOrigin(c: Config, o: Origin, l: Labeled) {
    var p := l.arrival.packet;
    && l.Fits()
    && p.version == 2 && p.ssrc == o.ssrc && l.arrival.source == o.source
    && (c.expectedSourceIP.Some? ==> o.source.addr.Unmap() == c.expectedSourceIP.value.Unmap())
    && (c.Audio(p) || c.Events(p))
    && (c.Audio(p) ==> c.audioPayloads[p.payloadType] == o.codec)
  }

  /** The arrivals without their repeats, and the highest counters among them. */
  datatype Digest = Digest(firsts: seq<Labeled>, highSequence: int, highTimestamp: int) {
    function Add(l: Labeled): Digest {
      if l in firsts then this
      else if firsts == [] then Digest([l], l.sequence, l.timestamp)
      else Digest(firsts + [l], Max(highSequence, l.sequence), Max(highTimestamp, l.timestamp))
    }

    /** What the receiver's extended values are off by. */
    function SequenceShift(): int {
      if firsts == [] then 0 else firsts[0].sequence % 0x1_0000 - firsts[0].sequence
    }

    function TimestampShift(): int {
      if firsts == [] then 0 else firsts[0].timestamp % 0x1_0000_0000 - firsts[0].timestamp
    }
  }

  function DigestOf(ls: seq<Labeled>): Digest {
    if ls == [] then Digest([], 0, 0) else DigestOf(ls[..|ls| - 1]).Add(ls[|ls| - 1])
  }

  /** A packet that has not come before, is not too far behind, and still fits. */
  predicate Novel(c: Config, d: Digest, l: Labeled) {
    && |d.firsts| < MAX_RETAINED
    && (forall i :: 0 <= i < |d.firsts| ==> d.firsts[i].sequence != l.sequence)
    && (d.firsts != [] ==> l.sequence >= d.highSequence - c.reorderWindow)
  }

  /** Within half a cycle of the highest counters so far. */
  predicate Close(d: Digest, l: Labeled) {
    d.firsts != [] ==>
      Abs(l.sequence - d.highSequence) < 0x8000 && Abs(l.timestamp - d.highTimestamp) < 0x8000_0000
  }

  predicate Arrives(c: Config, o: Origin, d: Digest, l: Labeled) {
    FromOrigin(c, o, l) && Close(d, l) && (l in d.firsts || Novel(c, d, l))
  }

  /**
   * The origin's packets as a network delivers them: repeats at any time, new ones inside the reorder
   * window, everything within half a cycle, and no more packets than the receiver retains.
   */
  ghost predicate Delivery(c: Config, o: Origin, ls: seq<Labeled>) {
    ls == [] || (Delivery(c, o, ls[..|ls| - 1]) && Arrives(c, o, DigestOf(ls[..|ls| - 1]), ls[|ls| - 1]))
  }

  // The receiver's memory of such a delivery.

  ghost predicate DistinctSequences(ls: seq<Labeled>) {
    forall i, j :: 0 <= i < j < |ls| ==> ls[i].sequence != ls[j].sequence
  }

  function Memory(ssrc: uint32, ls: seq<Labeled>, ks: int, kt: int): map<Identity, Record> {
    if ls == [] then map[] else
      var l := ls[|ls| - 1];
      Memory(ssrc, ls[..|ls| - 1], ks, kt)[Identity(ssrc, l.sequence + ks) := Stamp(l, ks, kt)]
  }

  lemma {:induction false} MemoryHas(ssrc: uint32, ls: seq<Labeled>, ks: int, kt: int, i: nat)
    requires DistinctSequences(ls) && i < |ls|
    ensures var id, m := Identity(ssrc, ls[i].sequence + ks), Memory(ssrc, ls, ks, kt);
            id in m && m[id] == Stamp(ls[i], ks, kt)
  {
    if i < |ls| - 1 {
      MemoryHas(ssrc, ls[..|ls| - 1], ks, kt, i);
    }
  }

  lemma {:induction false} MemoryOnly(ssrc: uint32, ls: seq<Labeled>, ks: int, kt: int, id: Identity) returns (i: nat)
    requires id in Memory(ssrc, ls, ks, kt)
    ensures i < |ls| && id == Identity(ssrc, ls[i].sequence + ks)
  {
    i := |ls| - 1;
    if id != Identity(ssrc, ls[i].sequence + ks) {
      i := MemoryOnly(ssrc, ls[..|ls| - 1], ks, kt, id);
    }
  }

  lemma {:induction false} MemorySize(ssrc: uint32, ls: seq<Labeled>, ks: int, kt: int)
    requires DistinctSequences(ls)
    ensures |Memory(ssrc, ls, ks, kt)| == |ls|
  {
    if ls != [] {
      var front := ls[..|ls| - 1];
      var id, m := Identity(ssrc, ls[|ls| - 1].sequence + ks), Memory(ssrc, front, ks, kt);
      MemorySize(ssrc, front, ks, kt);
      if id in m {
        var i := MemoryOnly(ssrc, front, ks, kt, id);
      }
    }
  }

  lemma MemoryAdd(ssrc: uint32, ls: seq<Labeled>, l: Labeled, ks: int, kt: int)
    ensures Memory(ssrc, ls + [l], ks, kt)
            == Memory(ssrc, ls, ks, kt)[Identity(ssrc, l.sequence + ks) := Stamp(l, ks, kt)]
  {
    assert (ls + [l])[..|ls|] == ls;
  }

  ghost predicate LockFits(o: Origin, s: State) {
    s.lock.Some? ==> s.lock.value == o.Key()
  }

  /** The receiver remembers exactly the packets of the digest, and its highest counters. */
  ghost predicate Remembers(o: Origin, d: Digest, s: State) {
    && DistinctSequences(d.firsts)
    && LockFits(o, s)
    && s.seen == Memory(o.ssrc, d.firsts, d.SequenceShift(), d.TimestampShift())
    && s.highestSequence == (if d.firsts == [] then map[] else map[o.ssrc := d.highSequence + d.SequenceShift()])
    && s.highestTimestamp == (if d.firsts == [] then map[] else map[o.ssrc := d.highTimestamp + d.TimestampShift()])
  }

  lemma EligibleFromOrigin(c: Config, o: Origin, s: State, l: Labeled)
    requires FromOrigin(c, o, l) && LockFits(o, s)
    ensures Eligible(c, s, l.arrival)
    ensures Locked(c, s, l.arrival) == if c.Audio(l.arrival.packet) then Some(o.Key()) else s.lock
  {
  }

  lemma Cycles(first: int, counter: int)
    ensures (counter + (first % 0x1_0000 - first)) % 0x1_0000 == counter % 0x1_0000
    ensures (counter + (first % 0x1_0000_0000 - first)) % 0x1_0000_0000 == counter % 0x1_0000_0000
  {
    ShiftedSequence(counter, first);
    ShiftedTimestamp(counter, first);
  }

  /** The receiver unwraps every packet of a delivery to its own counters, shifted. */
  lemma StampIsRecord(o: Origin, d: Digest, s: State, l: Labeled)
    requires Remembers(o, d, s) && l.Fits() && l.arrival.packet.ssrc == o.ssrc && Close(d, l)
    ensures RecordOf(s, l.arrival) == Stamp(l, d.Add(l).SequenceShift(), d.Add(l).TimestampShift())
  {
    if d.firsts != [] {
      assert d.Add(l).SequenceShift() == d.SequenceShift() && d.Add(l).TimestampShift() == d.TimestampShift();
      Cycles(d.firsts[0].sequence, l.sequence);
      Cycles(d.firsts[0].timestamp, l.timestamp);
      Unwrap16Exact(l.sequence + d.SequenceShift(), d.highSequence + d.SequenceShift());
      Unwrap32Exact(l.timestamp + d.TimestampShift(), d.highTimestamp + d.TimestampShift());
    }
  }

  /** A repeat of a remembered packet is recognized as one. */
  lemma VerdictRepeat(c: Config, o: Origin, d: Digest, s: State, l: Labeled)
    requires Remembers(o, d, s) && FromOrigin(c, o, l) && l in d.firsts
    requires RecordOf(s, l.arrival) == Stamp(l, d.SequenceShift(), d.TimestampShift())
    ensures Judge(c, s, l.arrival) == Duplicate(false)
  {
    var i :| 0 <= i < |d.firsts| && d.firsts[i] == l;
    EligibleFromOrigin(c, o, s, l);
    MemoryHas(o.ssrc, d.firsts, d.SequenceShift(), d.TimestampShift(), i);
  }

  /** A new packet inside the reorder window is accepted. */
  lemma VerdictNovel(c: Config, o: Origin, d: Digest, s: State, l: Labeled)
    requires Remembers(o, d, s) && FromOrigin(c, o, l) && Novel(c, d, l)
    requires d.firsts != [] ==> RecordOf(s, l.arrival).sequence == l.sequence + d.SequenceShift()
    ensures Judge(c, s, l.arrival) == Accepted
  {
    var ks, kt := d.SequenceShift(), d.TimestampShift();
    EligibleFromOrigin(c, o, s, l);
    MemorySize(o.ssrc, d.firsts, ks, kt);
    if d.firsts != [] && Identity(o.ssrc, l.sequence + ks) in s.seen {
      var i := MemoryOnly(o.ssrc, d.firsts, ks, kt, Identity(o.ssrc, l.sequence + ks));
    }
  }

  lemma Verdict(c: Config, o: Origin, d: Digest, s: State, l: Labeled)
    requires Remembers(o, d, s) && Arrives(c, o, d, l)
    ensures RecordOf(s, l.arrival) == Stamp(l, d.Add(l).SequenceShift(), d.Add(l).TimestampShift())
    ensures Judge(c, s, l.arrival) == if l in d.firsts then Duplicate(false) else Accepted
  {
    StampIsRecord(o, d, s, l);
    if l in d.firsts {
      VerdictRepeat(c, o, d, s, l);
    } else {
      VerdictNovel(c, o, d, s, l);
    }
  }

  /** What keeping a packet changes in the memory. */
  ghost predicate Keeps(o: Origin, s: State, r: Record, t: State) {
    && t.seen == s.seen[Identity(o.ssrc, r.sequence) := r]
    && t.highestSequence == Raise(s.highestSequence, o.ssrc, r.sequence)
    && t.highestTimestamp == Raise(s.highestTimestamp, o.ssrc, r.timestamp)
  }

  lemma MemoryOne(ssrc: uint32, l: Labeled, ks: int, kt: int)
    ensures Memory(ssrc, [l], ks, kt) == map[Identity(ssrc, l.sequence + ks) := Stamp(l, ks, kt)]
  {
    assert [l][..0] == [] && Memory(ssrc, [], ks, kt) == map[];
  }

  lemma AddFirst(d: Digest, l: Labeled)
    requires d.firsts == []
    ensures d.Add(l) == Digest([l], l.sequence, l.timestamp)
  {
  }

  lemma RemembersFirst(o: Origin, d: Digest, s: State, l: Labeled, t: State, r: Record, e: Digest)
    requires Remembers(o, d, s) && d.firsts == [] && LockFits(o, t) && Keeps(o, s, r, t)
    requires e == Digest([l], l.sequence, l.timestamp) && r == Stamp(l, e.SequenceShift(), e.TimestampShift())
    ensures Remembers(o, e, t)
  {
    MemoryOne(o.ssrc, l, e.SequenceShift(), e.TimestampShift());
    assert s.seen == map[];
  }

  lemma AddMore(c: Config, d: Digest, l: Labeled, e: Digest)
    requires Novel(c, d, l) && d.firsts != [] && DistinctSequences(d.firsts) && e == d.Add(l)
    ensures e == Digest(d.firsts + [l], Max(d.highSequence, l.sequence), Max(d.highTimestamp, l.timestamp))
    ensures e.SequenceShift() == d.SequenceShift() && e.TimestampShift() == d.TimestampShift()
    ensures DistinctSequences(e.firsts)
  {
  }

  lemma RaiseOne(ssrc: uint32, high: int, value: int)
    ensures Raise(map[ssrc := high], ssrc, value) == map[ssrc := Max(high, value)]
  {
  }

  lemma RemembersMore(c: Config, o: Origin, d: Digest, s: State, l: Labeled, t: State, r: Record)
    requires Remembers(o, d, s) && Novel(c, d, l) && d.firsts != [] && LockFits(o, t) && Keeps(o, s, r, t)
    requires r == Stamp(l, d.SequenceShift(), d.TimestampShift())
    ensures Remembers(o, d.Add(l), t)
  {
    AddMore(c, d, l, d.Add(l));
    MemoryAdd(o.ssrc, d.firsts, l, d.SequenceShift(), d.TimestampShift());
    RaiseOne(o.ssrc, d.highSequence + d.SequenceShift(), r.sequence);
    RaiseOne(o.ssrc, d.highTimestamp + d.TimestampShift(), r.timestamp);
  }

  lemma RemembersNovel(c: Config, o: Origin, d: Digest, s: State, l: Labeled, t: State, r: Record)
    requires Remembers(o, d, s) && Novel(c, d, l) && LockFits(o, t) && Keeps(o, s, r, t)
    requires r == Stamp(l, d.Add(l).SequenceShift(), d.Add(l).TimestampShift())
    ensures Remembers(o, d.Add(l), t)
  {
    if d.firsts == [] {
      AddFirst(d, l);
      RemembersFirst(o, d, s, l, t, r, d.Add(l));
    } else {
      AddMore(c, d, l, d.Add(l));
      RemembersMore(c, o, d, s, l, t, r);
    }
  }

  // What else the receiver holds, as a function of the packets that were new.

  function Audios(c: Config, ls: seq<Labeled>): seq<Labeled> {
    if ls == [] then []
    else if c.Audio(ls[|ls| - 1].arrival.packet) then Audios(c, ls[..|ls| - 1]) + [ls[|ls| - 1]]
    else Audios(c, ls[..|ls| - 1])
  }

  function Events(c: Config, ls: seq<Labeled>): seq<TE.EventPacket> {
    if ls == [] then [] else
      var p := ls[|ls| - 1].arrival.packet;
      if c.Events(p) && TE.Parse(p).Event? then Events(c, ls[..|ls| - 1]) + [TE.Parse(p).packet]
      else Events(c, ls[..|ls| - 1])
  }

  /** The sequences that count when lost packets are counted: none before the first audio packet. */
  function Heard(c: Config, ls: seq<Labeled>, ks: int): seq<int> {
    if ls == [] || Audios(c, ls) == [] then []
    else Heard(c, ls[..|ls| - 1], ks) + [ls[|ls| - 1].sequence + ks]
  }

  function Stamps(ls: seq<Labeled>, ks: int, kt: int): (r: seq<Record>)
    ensures |r| == |ls|
  {
    seq(|ls|, i requires 0 <= i < |ls| => Stamp(ls[i], ks, kt))
  }

  function LastOf(ls: seq<Labeled>, ks: int, kt: int): Option<LastAudio> {
    if ls == [] then None
    else Some(NextLast(LastOf(ls[..|ls| - 1], ks, kt), Stamp(ls[|ls| - 1], ks, kt)))
  }

  function CountsOf(ls: seq<Labeled>, ks: int, kt: int): AudioStats {
    if ls == [] then NO_AUDIO
    else CountAudio(CountsOf(ls[..|ls| - 1], ks, kt), LastOf(ls[..|ls| - 1], ks, kt), Stamp(ls[|ls| - 1], ks, kt))
  }

  lemma {:induction false} CountsReceived(ls: seq<Labeled>, ks: int, kt: int)
    ensures CountsOf(ls, ks, kt).packetsReceived == |ls|
  {
    if ls != [] {
      CountsReceived(ls[..|ls| - 1], ks, kt);
    }
  }

  ghost predicate HoldsAudio(o: Origin, audios: seq<Labeled>, s: State, ks: int, kt: int) {
    && s.lock == (if audios == [] then None else Some(o.Key()))
    && s.packets == Stamps(audios, ks, kt)
    && s.lastAudio == LastOf(audios, ks, kt)
    && s.audioStats == CountsOf(audios, ks, kt)
  }

  /** The receiver holds the new packets, each once and in the order they came. */
  ghost predicate Holds(c: Config, o: Origin, firsts: seq<Labeled>, s: State, ks: int, kt: int)
    requires c.Valid()
  {
    && HoldsAudio(o, Audios(c, firsts), s, ks, kt)
    && s.sequenceSpace == Heard(c, firsts, ks)
    && s.track == TE.ObserveAll(Events(c, firsts), c.clockRate)
  }

  /** The packet is of a telephone event that the receiver can read. */
  predicate Readable(c: Config, p: Packet) {
    c.Events(p) && TE.Parse(p).Event?
  }

  lemma StreamAdd(c: Config, ls: seq<Labeled>, l: Labeled, ks: int)
    ensures Audios(c, ls + [l]) == if c.Audio(l.arrival.packet) then Audios(c, ls) + [l] else Audios(c, ls)
    ensures Events(c, ls + [l]) ==
              if Readable(c, l.arrival.packet) then Events(c, ls) + [TE.Parse(l.arrival.packet).packet]
              else Events(c, ls)
    ensures Heard(c, ls + [l], ks) == if Audios(c, ls + [l]) == [] then [] else Heard(c, ls, ks) + [l.sequence + ks]
  {
    assert (ls + [l])[..|ls|] == ls;
  }

  lemma AudiosAdd(ls: seq<Labeled>, l: Labeled, ks: int, kt: int)
    ensures Stamps(ls + [l], ks, kt) == Stamps(ls, ks, kt) + [Stamp(l, ks, kt)]
    ensures LastOf(ls + [l], ks, kt) == Some(NextLast(LastOf(ls, ks, kt), Stamp(l, ks, kt)))
    ensures CountsOf(ls + [l], ks, kt) == CountAudio(CountsOf(ls, ks, kt), LastOf(ls, ks, kt), Stamp(l, ks, kt))
  {
    assert (ls + [l])[..|ls|] == ls;
  }

  lemma ObserveAdd(c: Config, es: seq<TE.EventPacket>, e: TE.EventPacket)
    requires c.Valid()
    ensures TE.ObserveAll(es + [e], c.clockRate) == TE.Observe(TE.ObserveAll(es, c.clockRate), e, c.clockRate)
  {
    assert (es + [e])[..|es|] == es;
  }

  lemma HoldsTrack(c: Config, es: seq<TE.EventPacket>, p: Packet)
    requires c.Valid()
    ensures TrackAfter(c, TE.ObserveAll(es, c.clockRate), p)
         == TE.ObserveAll(if Readable(c, p) then es + [TE.Parse(p).packet] else es, c.clockRate)
  {
    if Readable(c, p) {
      ObserveAdd(c, es, TE.Parse(p).packet);
    }
  }

  lemma HoldsAudioNovel(o: Origin, audios: seq<Labeled>, s: State, l: Labeled, t: State, ks: int, kt: int)
    requires HoldsAudio(o, audios, s, ks, kt)
    requires var r := Stamp(l, ks, kt);
             && t.lock == Some(o.Key())
             && t.packets == s.packets + [r]
             && t.lastAudio == Some(NextLast(s.lastAudio, r))
             && t.audioStats == CountAudio(s.audioStats, s.lastAudio, r)
    ensures HoldsAudio(o, audios + [l], t, ks, kt)
  {
    AudiosAdd(audios, l, ks, kt);
  }

  /** The new packet is stored where it belongs. */
  ghost predicate Takes(c: Config, o: Origin, s: State, l: Labeled, t: State, ks: int, kt: int)
    requires c.Valid()
  {
    var r, p := Stamp(l, ks, kt), l.arrival.packet;
    && t.lock == (if c.Audio(p) then Some(o.Key()) else s.lock)
    && t.packets == (if c.Audio(p) then s.packets + [r] else s.packets)
    && t.sequenceSpace == (if t.lock.Some? then s.sequenceSpace + [r.sequence] else s.sequenceSpace)
    && t.lastAudio == (if c.Audio(p) then Some(NextLast(s.lastAudio, r)) else s.lastAudio)
    && t.audioStats == (if c.Audio(p) then CountAudio(s.audioStats, s.lastAudio, r) else s.audioStats)
    && t.track == TrackAfter(c, s.track, p)
  }

  lemma HoldsNewAudio(c: Config, o: Origin, firsts: seq<Labeled>, s: State, l: Labeled, t: State, ks: int, kt: int)
    requires c.Valid() && HoldsAudio(o, Audios(c, firsts), s, ks, kt) && Takes(c, o, s, l, t, ks, kt)
    ensures HoldsAudio(o, Audios(c, firsts + [l]), t, ks, kt)
  {
    StreamAdd(c, firsts, l, ks);
    if c.Audio(l.arrival.packet) {
      HoldsAudioNovel(o, Audios(c, firsts), s, l, t, ks, kt);
    }
  }

  lemma SpaceNext(c: Config, firsts: seq<Labeled>, l: Labeled, ks: int)
    ensures Heard(c, firsts + [l], ks) ==
              if Audios(c, firsts + [l]) == [] then Heard(c, firsts, ks) else Heard(c, firsts, ks) + [l.sequence + ks]
  {
    StreamAdd(c, firsts, l, ks);
    if Audios(c, firsts) == [] {
      assert Heard(c, firsts, ks) == [];
    }
  }

  lemma HoldsNewSpace(c: Config, o: Origin, firsts: seq<Labeled>, s: State, l: Labeled, t: State, ks: int, kt: int)
    requires c.Valid() && s.sequenceSpace == Heard(c, firsts, ks) && Takes(c, o, s, l, t, ks, kt)
    requires t.lock.Some? <==> Audios(c, firsts + [l]) != []
    ensures t.sequenceSpace == Heard(c, firsts + [l], ks)
  {
    SpaceNext(c, firsts, l, ks);
  }

  lemma HoldsNewTrack(c: Config, o: Origin, firsts: seq<Labeled>, s: State, l: Labeled, t: State, ks: int, kt: int)
    requires c.Valid() && s.track == TE.ObserveAll(Events(c, firsts), c.clockRate) && Takes(c, o, s, l, t, ks, kt)
    ensures t.track == TE.ObserveAll(Events(c, firsts + [l]), c.clockRate)
  {
    StreamAdd(c, firsts, l, 0);
    HoldsTrack(c, Events(c, firsts), l.arrival.packet);
  }

  lemma HoldsNovel(c: Config, o: Origin, firsts: seq<Labeled>, s: State, l: Labeled, t: State, ks: int, kt: int)
    requires c.Valid() && Holds(c, o, firsts, s, ks, kt) && Takes(c, o, s, l, t, ks, kt)
    ensures Holds(c, o, firsts + [l], t, ks, kt)
  {
    HoldsNewAudio(c, o, firsts, s, l, t, ks, kt);
    HoldsNewSpace(c, o, firsts, s, l, t, ks, kt);
    HoldsNewTrack(c, o, firsts, s, l, t, ks, kt);
  }

  /** The telephone-event packets whose payload is too short, or of an event the receiver does not know. */
  function Unread(c: Config, ls: seq<Labeled>): nat {
    if ls == [] then 0
    else
      var p := ls[|ls| - 1].arrival.packet;
      Unread(c, ls[..|ls| - 1]) + if c.Events(p) && !TE.Parse(p).Event? then 1 else 0
  }

  /** Those whose payload is too short. */
  function Cut(c: Config, ls: seq<Labeled>): nat {
    if ls == [] then 0
    else
      var p := ls[|ls| - 1].arrival.packet;
      Cut(c, ls[..|ls| - 1]) + if c.Events(p) && TE.Parse(p).Short? then 1 else 0
  }

  lemma UnreadAdd(c: Config, ls: seq<Labeled>, l: Labeled)
    ensures var p := l.arrival.packet;
            && Unread(c, ls + [l]) == Unread(c, ls) + (if c.Events(p) && !TE.Parse(p).Event? then 1 else 0)
            && Cut(c, ls + [l]) == Cut(c, ls) + (if c.Events(p) && TE.Parse(p).Short? then 1 else 0)
  {
    assert (ls + [l])[..|ls|] == ls;
  }

  /** The receiver's state is what the digest says. */
  ghost predicate Matches(c: Config, o: Origin, d: Digest, s: State)
    requires c.Valid()
  {
    && Remembers(o, d, s)
    && Holds(c, o, d.firsts, s, d.SequenceShift(), d.TimestampShift())
    && s.stats.ignored == Unread(c, d.firsts) && s.stats.malformed == Cut(c, d.firsts)
    && s.stats.conflicting == s.stats.foreignSsrc == 0
    && s.stats.discontinuities == s.stats.codecSwitches == 0
  }

  lemma {:induction false} AudiosHas(c: Config, ls: seq<Labeled>, l: Labeled)
    ensures l in Audios(c, ls) <==> l in ls && c.Audio(l.arrival.packet)
  {
    if ls != [] {
      assert ls == ls[..|ls| - 1] + [ls[|ls| - 1]];
      AudiosHas(c, ls[..|ls| - 1], l);
    }
  }

  lemma RepeatLock(c: Config, s: State, a: Arrival)
    requires c.Valid() && Judge(c, s, a) == Duplicate(false)
    ensures Step(c, s, a).lock == Locked(c, s, a)
  {
  }

  /** Every field a repeat leaves alone. */
  lemma MatchesRepeat(c: Config, o: Origin, d: Digest, s: State, l: Labeled, t: State)
    requires c.Valid() && Matches(c, o, d, s) && RejectedTo(s, t) && t.lock == s.lock
    requires t.stats == s.stats.Repeat()
    ensures Matches(c, o, d, t)
  {
  }

  lemma NovelCounts(c: Config, s: State, r: Record)
    ensures var t, u := EventStats(c, Keep(c, s, r).stats, r.packet), s.stats;
            && t.ignored == u.ignored + (if c.Events(r.packet) && !TE.Parse(r.packet).Event? then 1 else 0)
            && t.malformed == u.malformed + (if c.Events(r.packet) && TE.Parse(r.packet).Short? then 1 else 0)
            && t.duplicates == u.duplicates && t.conflicting == u.conflicting && t.foreignSsrc == u.foreignSsrc
            && t.discontinuities == u.discontinuities && t.codecSwitches == u.codecSwitches
  {
  }

  lemma MatchesNovel(c: Config, o: Origin, d: Digest, s: State, l: Labeled, t: State)
    requires c.Valid() && Matches(c, o, d, s) && FromOrigin(c, o, l) && Novel(c, d, l) && AcceptedTo(c, s, l.arrival, t)
    requires RecordOf(s, l.arrival) == Stamp(l, d.Add(l).SequenceShift(), d.Add(l).TimestampShift())
    ensures Matches(c, o, d.Add(l), t) && t.stats.duplicates == s.stats.duplicates
  {
    var e, r := d.Add(l), RecordOf(s, l.arrival);
    EligibleFromOrigin(c, o, s, l);
    NovelCounts(c, s, r);
    UnreadAdd(c, d.firsts, l);
    RemembersNovel(c, o, d, s, l, t, r);
    NovelFirsts(c, d, l);
    HoldsFirst(c, o, d, s, l);
    HoldsNovel(c, o, d.firsts, s, l, t, e.SequenceShift(), e.TimestampShift());
  }

  lemma NovelFirsts(c: Config, d: Digest, l: Labeled)
    requires Novel(c, d, l)
    ensures d.Add(l).firsts == d.firsts + [l]
  {
  }

  /** Before the first packet the shifts are still free. */
  lemma HoldsFirst(c: Config, o: Origin, d: Digest, s: State, l: Labeled)
    requires c.Valid() && Holds(c, o, d.firsts, s, d.SequenceShift(), d.TimestampShift())
    ensures Holds(c, o, d.firsts, s, d.Add(l).SequenceShift(), d.Add(l).TimestampShift())
  {
    if d.firsts == [] {
      assert Stamps([], 0, 0) == Stamps([], d.Add(l).SequenceShift(), d.Add(l).TimestampShift());
    } else {
      assert d.Add(l).firsts[0] == d.firsts[0];
    }
  }

  lemma MatchesStep(c: Config, o: Origin, d: Digest, s: State, l: Labeled)
    requires c.Valid() && Matches(c, o, d, s) && Arrives(c, o, d, l)
    ensures Matches(c, o, d.Add(l), Step(c, s, l.arrival))
    ensures Step(c, s, l.arrival).stats.duplicates == s.stats.duplicates + if l in d.firsts then 1 else 0
  {
    var t := Step(c, s, l.arrival);
    Verdict(c, o, d, s, l);
    if l in d.firsts {
      StepRejected(c, s, l.arrival);
      RepeatLock(c, s, l.arrival);
      EligibleFromOrigin(c, o, s, l);
      AudiosHas(c, d.firsts, l);
      MatchesRepeat(c, o, d, s, l, t);
    } else {
      StepAccepted(c, s, l.arrival);
      MatchesNovel(c, o, d, s, l, t);
    }
  }

  /**
   * Whatever the network does to the origin's packets, the receiver holds each of them exactly once, in the
   * order they first came, with its own counters up to one shift; everything else it counts as a repeat.
   */
  lemma {:induction false} DeliveryMatches(c: Config, o: Origin, ls: seq<Labeled>)
    requires c.Valid() && Delivery(c, o, ls)
    ensures Matches(c, o, DigestOf(ls), RunLabeled(c, ls))
    ensures RunLabeled(c, ls).stats.duplicates == |ls| - |DigestOf(ls).firsts|
  {
    if ls == [] {
      assert Stamps([], 0, 0) == [];
    } else {
      var front, l := ls[..|ls| - 1], ls[|ls| - 1];
      DeliveryMatches(c, o, front);
      RunLabeledLast(c, ls);
      MatchesStep(c, o, DigestOf(front), RunLabeled(c, front), l);
    }
  }
}
