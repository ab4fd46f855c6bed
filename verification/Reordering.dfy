/** The result does not depend on the order in which the network delivers the packets. */
module Reordering {
  import opened Options
  import opened G711
  import opened Rtp
  import opened Receiving
  import opened Unwrapping
  import opened Streams
  import opened Results
  import opened Timeline
  import opened SequenceSpace

  lemma {:induction false} DigestHas(ls: seq<Labeled>, l: Labeled)
    ensures l in DigestOf(ls).firsts <==> l in ls
  {
    if ls != [] {
      assert ls == ls[..|ls| - 1] + [ls[|ls| - 1]];
      DigestHas(ls[..|ls| - 1], l);
    }
  }

  ghost predicate AllAudio(c: Config, ls: seq<Labeled>) {
    forall l :: l in ls ==> c.Audio(l.arrival.packet)
  }

  lemma {:induction false} AudiosAll(c: Config, ls: seq<Labeled>)
    requires AllAudio(c, ls)
    ensures Audios(c, ls) == ls
  {
    if ls != [] {
      assert ls == ls[..|ls| - 1] + [ls[|ls| - 1]];
      AudiosAll(c, ls[..|ls| - 1]);
    }
  }

  /** The receiver takes its stream from the first packet. */
  predicate LedByAudio(c: Config, ls: seq<Labeled>) {
    ls == [] || c.Audio(ls[0].arrival.packet)
  }

  lemma {:induction false} HeardAll(c: Config, ls: seq<Labeled>, ks: int)
    requires LedByAudio(c, ls)
    ensures |Heard(c, ls, ks)| == |ls|
    ensures forall i :: 0 <= i < |ls| ==> Heard(c, ls, ks)[i] == ls[i].sequence + ks
  {
    if ls != [] {
      AudiosHas(c, ls, ls[0]);
      HeardAll(c, ls[..|ls| - 1], ks);
    }
  }

  lemma {:induction false} AudiosDistinct(c: Config, ls: seq<Labeled>)
    requires DistinctSequences(ls)
    ensures DistinctSequences(Audios(c, ls))
  {
    if ls != [] {
      var front, l := ls[..|ls| - 1], ls[|ls| - 1];
      AudiosDistinct(c, front);
      forall i | 0 <= i < |Audios(c, front)|
        ensures Audios(c, front)[i].sequence != l.sequence
      {
        AudiosHas(c, front, Audios(c, front)[i]);
        var k :| 0 <= k < |front| && front[k] == Audios(c, front)[i];
        assert ls[k] == front[k];
      }
    }
  }

  lemma {:induction false} FirstStays(ls: seq<Labeled>)
    ensures ls != [] ==> DigestOf(ls).firsts != [] && DigestOf(ls).firsts[0] == ls[0]
  {
    if |ls| > 1 {
      FirstStays(ls[..|ls| - 1]);
    } else if |ls| == 1 {
      assert DigestOf(ls[..0]) == Digest([], 0, 0);
    }
  }

  function Packets(ls: seq<Labeled>): set<Labeled> {
    set l | l in ls
  }

  lemma PacketsHas(a: seq<Labeled>, b: seq<Labeled>)
    requires Packets(a) == Packets(b)
    ensures forall l :: l in a <==> l in b
  {
    forall l
      ensures l in a <==> l in b
    {
      assert l in a <==> l in Packets(a);
      assert l in b <==> l in Packets(b);
    }
  }

  lemma EmptySame(a: seq<Labeled>, b: seq<Labeled>)
    requires Packets(a) == Packets(b)
    ensures a == [] <==> b == []
  {
    PacketsHas(a, b);
    if a != [] {
      assert a[0] in b;
    }
    if b != [] {
      assert b[0] in a;
    }
  }

  lemma AudiosSame(c: Config, a: seq<Labeled>, b: seq<Labeled>)
    requires Packets(a) == Packets(b)
    ensures Packets(Audios(c, a)) == Packets(Audios(c, b))
  {
    PacketsHas(a, b);
    forall l
      ensures l in Packets(Audios(c, a)) <==> l in Packets(Audios(c, b))
    {
      AudiosHas(c, a, l);
      AudiosHas(c, b, l);
    }
  }

  // The order of reconstruction.

  ghost predicate DistinctRecords(records: seq<Record>) {
    forall i, j :: 0 <= i < j < |records| ==> records[i].sequence != records[j].sequence
  }

  function ShiftAll(records: seq<Record>, sequence: int, timestamp: int): (r: seq<Record>)
    ensures |r| == |records|
  {
    seq(|records|, i requires 0 <= i < |records| => Shift(records[i], sequence, timestamp))
  }

  /** The same records but for where counting started, in any order. */
  ghost predicate Moved(x: seq<Record>, y: seq<Record>, sequence: int, timestamp: int) {
    && DistinctRecords(x) && DistinctRecords(y)
    && forall r :: r in y <==> r in ShiftAll(x, sequence, timestamp)
  }

  lemma ShiftAllHas(x: seq<Record>, z: seq<Record>, sequence: int, timestamp: int, r: Record)
    requires (forall q :: q in x ==> q in z) && r in ShiftAll(x, sequence, timestamp)
    ensures r in ShiftAll(z, sequence, timestamp)
  {
    var i :| 0 <= i < |x| && r == Shift(x[i], sequence, timestamp);
    assert x[i] in z;
    var j :| 0 <= j < |z| && z[j] == x[i];
    assert r == ShiftAll(z, sequence, timestamp)[j];
  }

  lemma ShiftAllStrict(records: seq<Record>, sequence: int, timestamp: int)
    requires StrictlyOrdered(records)
    ensures StrictlyOrdered(ShiftAll(records, sequence, timestamp))
  {
    var moved := ShiftAll(records, sequence, timestamp);
    forall i, j | 0 <= i < j < |moved|
      ensures Before(moved[i], moved[j])
    {
      assert Before(records[i], records[j]);
    }
  }

  /** The same packets are reconstructed in the same order, wherever counting started. */
  lemma MovedSorted(x: seq<Record>, y: seq<Record>, sequence: int, timestamp: int)
    requires Moved(x, y, sequence, timestamp)
    ensures Sort(y) == ShiftAll(Sort(x), sequence, timestamp)
  {
    var moved := ShiftAll(Sort(x), sequence, timestamp);
    SortStrict(x);
    SortStrict(y);
    ShiftAllStrict(Sort(x), sequence, timestamp);
    forall r
      ensures r in moved <==> r in Sort(y)
    {
      SortHas(x);
      SortKeeps(y, r);
      if r in moved {
        ShiftAllHas(Sort(x), x, sequence, timestamp, r);
      }
      if r in y {
        ShiftAllHas(x, Sort(x), sequence, timestamp, r);
      }
    }
    SameOrder(moved, Sort(y));
  }

  lemma SortHas(records: seq<Record>)
    ensures forall r :: r in Sort(records) <==> r in records
  {
    forall r
      ensures r in Sort(records) <==> r in records
    {
      SortKeeps(records, r);
    }
  }

  lemma StampsHave(a: seq<Labeled>, b: seq<Labeled>, ks: int, kt: int, js: int, jt: int, r: Record)
    requires Packets(a) == Packets(b)
    ensures r in Stamps(b, js, jt) <==> r in ShiftAll(Stamps(a, ks, kt), js - ks, jt - kt)
  {
    var moved := ShiftAll(Stamps(a, ks, kt), js - ks, jt - kt);
    PacketsHas(a, b);
    if r in Stamps(b, js, jt) {
      var j :| 0 <= j < |b| && r == Stamp(b[j], js, jt);
      assert b[j] in a;
      var i :| 0 <= i < |a| && a[i] == b[j];
      assert r == moved[i];
    }
    if r in moved {
      var i :| 0 <= i < |moved| && r == moved[i];
      assert a[i] in b;
      var j :| 0 <= j < |b| && b[j] == a[i];
      assert r == Stamps(b, js, jt)[j];
    }
  }

  lemma StampsMoved(a: seq<Labeled>, b: seq<Labeled>, ks: int, kt: int, js: int, jt: int)
    requires Packets(a) == Packets(b) && DistinctSequences(a) && DistinctSequences(b)
    ensures Moved(Stamps(a, ks, kt), Stamps(b, js, jt), js - ks, jt - kt)
  {
    forall r
      ensures r in Stamps(b, js, jt) <==> r in ShiftAll(Stamps(a, ks, kt), js - ks, jt - kt)
    {
      StampsHave(a, b, ks, kt, js, jt, r);
    }
  }

  lemma TapeSame(a: seq<Record>, b: seq<Record>, sequence: int, timestamp: int, codec: Codec, maximum: nat)
    requires Increasing(a) && Increasing(b) && Shifted(a, b, sequence, timestamp)
    ensures Rebuild(a, codec, maximum).pcm == Rebuild(b, codec, maximum).pcm
    ensures Rebuild(a, codec, maximum).discontinuities == Rebuild(b, codec, maximum).discontinuities
    ensures Rebuild(a, codec, maximum).conflicts == Rebuild(b, codec, maximum).conflicts
  {
    if a != [] {
      RebuildShifted(a, b, sequence, timestamp, codec, maximum);
    }
  }

  // Counting what is missing.

  function Plus(a: set<int>, k: int): set<int> {
    set x | x in a :: x + k
  }

  lemma EndsPlus(a: seq<int>, b: seq<int>, k: int)
    requires a != [] && b != [] && Values(b) == Plus(Values(a), k)
    ensures Lowest(b) == Lowest(a) + k && Highest(b) == Highest(a) + k
  {
    assert Lowest(a) in Values(a) && Highest(a) in Values(a);
    assert Lowest(b) in Values(b) && Highest(b) in Values(b);
    assert Lowest(a) + k in Values(b) && Highest(a) + k in Values(b);
  }

  lemma MissingSame(a: seq<int>, b: seq<int>, k: int)
    requires Values(b) == Plus(Values(a), k) && |a| == |b|
    requires forall i, j :: 0 <= i < j < |a| ==> a[i] != a[j] && b[i] != b[j]
    ensures Missing(a) == Missing(b)
  {
    if a != [] {
      EndsPlus(a, b, k);
      DistinctCount(a);
      DistinctCount(b);
    }
  }

  lemma SameLength(a: seq<Labeled>, b: seq<Labeled>)
    requires Packets(a) == Packets(b) && DistinctSequences(a) && DistinctSequences(b)
    ensures |a| == |b|
  {
    StampsMoved(a, b, 0, 0, 0, 0);
    MovedSize(Stamps(a, 0, 0), Stamps(b, 0, 0), 0, 0);
  }

  // The last sequence number.

  lemma {:induction false} LastIs(ls: seq<Labeled>, ks: int, kt: int) returns (i: nat)
    requires ls != []
    ensures i < |ls| && LastOf(ls, ks, kt).Some? && LastOf(ls, ks, kt).value.sequence == ls[i].sequence + ks
    ensures CountsOf(ls, ks, kt).lastSequence == ls[i].arrival.packet.sequence
    ensures forall j :: 0 <= j < |ls| ==> ls[j].sequence <= ls[i].sequence
  {
    i := |ls| - 1;
    if |ls| > 1 {
      var j := LastIs(ls[..|ls| - 1], ks, kt);
      if ls[j].sequence >= ls[i].sequence {
        i := j;
      }
    }
  }

  lemma LastSame(a: seq<Labeled>, b: seq<Labeled>, ks: int, kt: int, js: int, jt: int)
    requires DistinctSequences(a) && Packets(a) == Packets(b)
    ensures CountsOf(a, ks, kt).lastSequence == CountsOf(b, js, jt).lastSequence
  {
    EmptySame(a, b);
    if a != [] {
      PacketsHas(a, b);
      var i := LastIs(a, ks, kt);
      var j := LastIs(b, js, jt);
      assert a[i] in b && b[j] in a;
      assert a[i].sequence == b[j].sequence;
      var k :| 0 <= k < |a| && a[k] == b[j];
      assert k == i;
    }
  }

  /** What is played, and what is counted from it. */
  predicate SamePlayback(r: Result, q: Result) {
    && r.pcm == q.pcm && r.receivedDuration == q.receivedDuration
    && r.audioStats.packetsReceived == q.audioStats.packetsReceived
    && r.audioStats.lastSequence == q.audioStats.lastSequence
    && r.stats.discontinuities == q.stats.discontinuities && r.stats.conflicting == q.stats.conflicting
  }

  lemma MovedSize(x: seq<Record>, y: seq<Record>, sequence: int, timestamp: int)
    requires Moved(x, y, sequence, timestamp)
    ensures |x| == |y|
  {
    MovedSorted(x, y, sequence, timestamp);
    SortPermutes(x);
    SortPermutes(y);
  }

  ghost predicate SameButShifted(s: State, t: State, sequence: int, timestamp: int) {
    && s.lock == t.lock && Moved(s.packets, t.packets, sequence, timestamp)
    && s.audioStats.packetsReceived == t.audioStats.packetsReceived
    && s.audioStats.lastSequence == t.audioStats.lastSequence
    && s.stats.discontinuities == t.stats.discontinuities && s.stats.conflicting == t.stats.conflicting
  }

  lemma ResultSame(c: Config, s: State, t: State, sequence: int, timestamp: int)
    requires SameButShifted(s, t, sequence, timestamp)
    ensures SamePlayback(ResultOf(c, s), ResultOf(c, t))
  {
    MovedSorted(s.packets, t.packets, sequence, timestamp);
    SortIncreasing(s.packets);
    SortIncreasing(t.packets);
    TapeSame(Sort(s.packets), Sort(t.packets), sequence, timestamp, CodecOf(s.lock), GapSamples(c));
  }

  /** What the receiver plays from, after a delivery with these audio packets. */
  ghost predicate HeldAudio(o: Origin, audios: seq<Labeled>, ks: int, kt: int, s: State) {
    && DistinctSequences(audios)
    && s.lock == (if audios == [] then None else Some(o.Key()))
    && s.packets == Stamps(audios, ks, kt) && s.audioStats == CountsOf(audios, ks, kt)
    && s.stats.discontinuities == s.stats.conflicting == 0
  }

  lemma MatchesHeld(c: Config, o: Origin, d: Digest, s: State)
    requires c.Valid() && Matches(c, o, d, s)
    ensures HeldAudio(o, Audios(c, d.firsts), d.SequenceShift(), d.TimestampShift(), s)
  {
    AudiosDistinct(c, d.firsts);
  }

  lemma FirstsSame(a: seq<Labeled>, b: seq<Labeled>)
    requires Packets(a) == Packets(b)
    ensures Packets(DigestOf(a).firsts) == Packets(DigestOf(b).firsts)
  {
    PacketsHas(a, b);
    forall l
      ensures l in Packets(DigestOf(a).firsts) <==> l in Packets(DigestOf(b).firsts)
    {
      DigestHas(a, l);
      DigestHas(b, l);
    }
  }

  /** What the receivers hold differs in nothing but where counting started and in the order. */
  lemma HeldSame(o: Origin, a: seq<Labeled>, b: seq<Labeled>, ks: int, kt: int, js: int, jt: int, s: State, t: State)
    requires HeldAudio(o, a, ks, kt, s) && HeldAudio(o, b, js, jt, t) && Packets(a) == Packets(b)
    ensures SameButShifted(s, t, js - ks, jt - kt)
  {
    EmptySame(a, b);
    LastSame(a, b, ks, kt, js, jt);
    SameLength(a, b);
    CountsReceived(a, ks, kt);
    CountsReceived(b, js, jt);
    StampsMoved(a, b, ks, kt, js, jt);
  }

  lemma HeldResultSame(c: Config, o: Origin, a: seq<Labeled>, b: seq<Labeled>, ks: int, kt: int, js: int, jt: int,
                       s: State, t: State)
    requires HeldAudio(o, a, ks, kt, s) && HeldAudio(o, b, js, jt, t) && Packets(a) == Packets(b)
    ensures SamePlayback(ResultOf(c, s), ResultOf(c, t))
  {
    HeldSame(o, a, b, ks, kt, js, jt, s, t);
    ResultSame(c, s, t, js - ks, jt - kt);
  }

  /** Two deliveries of the same packets, audio and events in any order, are played the same. */
  lemma OrderIndependence(c: Config, o: Origin, a: seq<Labeled>, b: seq<Labeled>)
    requires c.Valid() && Delivery(c, o, a) && Delivery(c, o, b) && Packets(a) == Packets(b)
    ensures SamePlayback(ResultOf(c, RunLabeled(c, a)), ResultOf(c, RunLabeled(c, b)))
  {
    var d, e := DigestOf(a), DigestOf(b);
    DeliveryMatches(c, o, a);
    DeliveryMatches(c, o, b);
    MatchesHeld(c, o, d, RunLabeled(c, a));
    MatchesHeld(c, o, e, RunLabeled(c, b));
    FirstsSame(a, b);
    AudiosSame(c, d.firsts, e.firsts);
    HeldResultSame(c, o, Audios(c, d.firsts), Audios(c, e.firsts), d.SequenceShift(), d.TimestampShift(),
                   e.SequenceShift(), e.TimestampShift(), RunLabeled(c, a), RunLabeled(c, b));
  }

  lemma MatchesMissing(c: Config, o: Origin, d: Digest, s: State)
    requires c.Valid() && Matches(c, o, d, s)
    ensures ResultOf(c, s).missing == Missing(Heard(c, d.firsts, d.SequenceShift())) && DistinctSequences(d.firsts)
  {
  }

  /** What is counted is the end of what arrived, from the first audio packet on. */
  lemma {:induction false} HeardSuffix(c: Config, ls: seq<Labeled>, ks: int)
    ensures |Heard(c, ls, ks)| == |Heard(c, ls, 0)| <= |ls|
    ensures forall i :: 0 <= i < |Heard(c, ls, ks)| ==>
            Heard(c, ls, ks)[i] == ls[|ls| - |Heard(c, ls, ks)| + i].sequence + ks
  {
    if ls != [] {
      HeardSuffix(c, ls[..|ls| - 1], ks);
    }
  }

  lemma PlusEach(x: seq<int>, y: seq<int>, k: int)
    requires |x| == |y| && forall i :: 0 <= i < |x| ==> y[i] == x[i] + k
    ensures Values(y) == Plus(Values(x), k)
  {
    forall z
      ensures z in Values(y) <==> z in Plus(Values(x), k)
    {
      if z in Values(y) {
        var i :| 0 <= i < |y| && y[i] == z;
        assert x[i] in Values(x);
      }
      if z in Plus(Values(x), k) {
        var i :| 0 <= i < |x| && x[i] + k == z;
        assert y[i] in Values(y);
      }
    }
  }

  lemma HeardShift(c: Config, ls: seq<Labeled>, ks: int)
    requires DistinctSequences(ls)
    ensures Missing(Heard(c, ls, ks)) == Missing(Heard(c, ls, 0))
  {
    HeardSuffix(c, ls, 0);
    HeardSuffix(c, ls, ks);
    PlusEach(Heard(c, ls, 0), Heard(c, ls, ks), ks);
    MissingSame(Heard(c, ls, 0), Heard(c, ls, ks), ks);
  }

  /** Exactly what is missing: the gaps among the packets' own sequences, from the first audio packet on. */
  lemma MissingIs(c: Config, o: Origin, ls: seq<Labeled>)
    requires c.Valid() && Delivery(c, o, ls)
    ensures ResultOf(c, RunLabeled(c, ls)).missing == Missing(Heard(c, DigestOf(ls).firsts, 0))
  {
    DeliveryMatches(c, o, ls);
    MatchesMissing(c, o, DigestOf(ls), RunLabeled(c, ls));
    HeardShift(c, DigestOf(ls).firsts, DigestOf(ls).SequenceShift());
  }

  // When the order of arrival does not matter for what is missing.

  function SequencesOf(ls: seq<Labeled>): (r: seq<int>)
    ensures |r| == |ls| && forall i :: 0 <= i < |r| ==> r[i] == ls[i].sequence
  {
    seq(|ls|, i requires 0 <= i < |ls| => ls[i].sequence)
  }

  /** The packets that come before the first audio packet and so are not counted. */
  function Overlooked(c: Config, firsts: seq<Labeled>): int {
    |firsts| - |Heard(c, firsts, 0)|
  }

  /** By how many numbers the packets that are not counted stretch the range of those that are. */
  function Stretch(c: Config, firsts: seq<Labeled>): int
    requires Heard(c, firsts, 0) != [] && firsts != []
  {
    var all, heard := SequencesOf(firsts), Heard(c, firsts, 0);
    (Highest(all) - Highest(heard)) + (Lowest(heard) - Lowest(all))
  }

  lemma {:induction false} UnheardUnlessAudio(c: Config, ls: seq<Labeled>)
    ensures Heard(c, ls, 0) != [] <==> exists i :: 0 <= i < |ls| && c.Audio(ls[i].arrival.packet)
  {
    if ls != [] {
      var front := ls[..|ls| - 1];
      UnheardUnlessAudio(c, front);
      if Audios(c, ls) != [] {
        AudiosHas(c, ls, Audios(c, ls)[0]);
      }
      if i :| 0 <= i < |ls| && c.Audio(ls[i].arrival.packet) {
        AudiosHas(c, ls, ls[i]);
      }
    }
  }

  lemma HeardDistinct(c: Config, firsts: seq<Labeled>)
    requires DistinctSequences(firsts)
    ensures |Values(Heard(c, firsts, 0))| == |Heard(c, firsts, 0)|
    ensures |Values(SequencesOf(firsts))| == |firsts|
  {
    HeardSuffix(c, firsts, 0);
    DistinctCount(Heard(c, firsts, 0));
    DistinctCount(SequencesOf(firsts));
  }

  lemma MissingWithout(c: Config, firsts: seq<Labeled>)
    requires DistinctSequences(firsts) && Heard(c, firsts, 0) != []
    ensures firsts != []
    ensures Missing(Heard(c, firsts, 0)) == Missing(SequencesOf(firsts)) + Overlooked(c, firsts) - Stretch(c, firsts)
  {
    HeardDistinct(c, firsts);
  }

  /** The packets of a delivery, each once, in the order in which they first came. */
  function Firsts(ls: seq<Labeled>): seq<Labeled> {
    DigestOf(ls).firsts
  }

  ghost predicate HasAudio(c: Config, ls: seq<Labeled>) {
    exists i :: 0 <= i < |ls| && c.Audio(ls[i].arrival.packet)
  }

  /** The packets before the first audio packet, less the numbers by which they stretch the range. */
  function Excess(c: Config, firsts: seq<Labeled>): int {
    if firsts == [] || Heard(c, firsts, 0) == [] then 0 else Overlooked(c, firsts) - Stretch(c, firsts)
  }

  /**
   * All packets count exactly when as many come before the first audio packet as the numbers by which they
   * stretch the range.
   */
  lemma MissingOfAll(c: Config, o: Origin, ls: seq<Labeled>)
    requires c.Valid() && Delivery(c, o, ls) && HasAudio(c, ls)
    ensures Firsts(ls) != [] && Heard(c, Firsts(ls), 0) != []
    ensures ResultOf(c, RunLabeled(c, ls)).missing == Missing(SequencesOf(Firsts(ls)))
       <==> Overlooked(c, Firsts(ls)) == Stretch(c, Firsts(ls))
  {
    var i :| 0 <= i < |ls| && c.Audio(ls[i].arrival.packet);
    DigestHas(ls, ls[i]);
    var j :| 0 <= j < |Firsts(ls)| && Firsts(ls)[j] == ls[i];
    UnheardUnlessAudio(c, Firsts(ls));
    MissingIs(c, o, ls);
    DeliveryMatches(c, o, ls);
    MissingWithout(c, Firsts(ls));
  }

  lemma MissingExcess(c: Config, o: Origin, ls: seq<Labeled>)
    requires c.Valid() && Delivery(c, o, ls)
    ensures ResultOf(c, RunLabeled(c, ls)).missing
         == if Heard(c, Firsts(ls), 0) == [] then 0 else Missing(SequencesOf(Firsts(ls))) + Excess(c, Firsts(ls))
  {
    MissingIs(c, o, ls);
    DeliveryMatches(c, o, ls);
    if Heard(c, Firsts(ls), 0) != [] {
      MissingWithout(c, Firsts(ls));
    }
  }

  lemma AllMissingSame(a: seq<Labeled>, b: seq<Labeled>)
    requires Packets(a) == Packets(b) && DistinctSequences(a) && DistinctSequences(b)
    ensures Missing(SequencesOf(a)) == Missing(SequencesOf(b))
  {
    PacketsHas(a, b);
    SequencesIn(a, b);
    SequencesIn(b, a);
    EmptySame(a, b);
    SameLength(a, b);
    assert Plus(Values(SequencesOf(a)), 0) == Values(SequencesOf(a));
    assert Values(SequencesOf(a)) == Values(SequencesOf(b));
    MissingSame(SequencesOf(a), SequencesOf(b), 0);
  }

  lemma SequencesIn(a: seq<Labeled>, b: seq<Labeled>)
    requires forall l :: l in a ==> l in b
    ensures forall x :: x in Values(SequencesOf(a)) ==> x in Values(SequencesOf(b))
  {
    forall x | x in Values(SequencesOf(a))
      ensures x in Values(SequencesOf(b))
    {
      var i :| 0 <= i < |a| && a[i].sequence == x;
      assert a[i] in b;
      var j :| 0 <= j < |b| && b[j] == a[i];
      assert SequencesOf(b)[j] == x;
    }
  }

  lemma HeardTogether(c: Config, a: seq<Labeled>, b: seq<Labeled>)
    requires Packets(a) == Packets(b)
    ensures Heard(c, a, 0) == [] <==> Heard(c, b, 0) == []
  {
    PacketsHas(a, b);
    UnheardUnlessAudio(c, a);
    UnheardUnlessAudio(c, b);
    if i :| 0 <= i < |a| && c.Audio(a[i].arrival.packet) {
      assert a[i] in b;
    }
    if i :| 0 <= i < |b| && c.Audio(b[i].arrival.packet) {
      assert b[i] in a;
    }
  }

  /** Two deliveries of the same packets miss the same number exactly when they overlook as many over the range. */
  lemma MissingAgrees(c: Config, o: Origin, a: seq<Labeled>, b: seq<Labeled>)
    requires c.Valid() && Delivery(c, o, a) && Delivery(c, o, b) && Packets(a) == Packets(b)
    ensures ResultOf(c, RunLabeled(c, a)).missing == ResultOf(c, RunLabeled(c, b)).missing
       <==> Excess(c, Firsts(a)) == Excess(c, Firsts(b))
  {
    MissingExcess(c, o, a);
    MissingExcess(c, o, b);
    DeliveryMatches(c, o, a);
    DeliveryMatches(c, o, b);
    FirstsSame(a, b);
    HeardTogether(c, Firsts(a), Firsts(b));
    AllMissingSame(Firsts(a), Firsts(b));
  }

  /** A delivery that audio leads overlooks nothing. */
  lemma LedExcess(c: Config, firsts: seq<Labeled>)
    requires LedByAudio(c, firsts)
    ensures Excess(c, firsts) == 0
  {
    HeardAll(c, firsts, 0);
    assert Heard(c, firsts, 0) == SequencesOf(firsts);
  }

  /** So when audio comes first in both, they miss the same packets. */
  lemma MissingIndependence(c: Config, o: Origin, a: seq<Labeled>, b: seq<Labeled>)
    requires c.Valid() && Delivery(c, o, a) && Delivery(c, o, b) && Packets(a) == Packets(b)
    requires LedByAudio(c, a) && LedByAudio(c, b)
    ensures ResultOf(c, RunLabeled(c, a)).missing == ResultOf(c, RunLabeled(c, b)).missing
  {
    FirstStays(a);
    FirstStays(b);
    LedExcess(c, Firsts(a));
    LedExcess(c, Firsts(b));
    MissingAgrees(c, o, a, b);
  }

  // An event that comes before the first audio packet is not counted; after it, it is.

  const TWO := Config(map[0 := PCMU], 101, 8000, None, 64, 2_000_000_000)
  const HERE := Endpoint(Addr.V4(1), 5004)
  const EVENT := Labeled(Arrival(Packet(2, true, 101, 1, 0, 7, [5, 10, 0, 160]), HERE), 1, 0)
  const FRAME := Labeled(Arrival(Packet(2, true, 0, 3, 0, 7, [255]), HERE), 3, 0)

  lemma PairDelivered(first: Labeled, second: Labeled)
    requires {first, second} == {EVENT, FRAME} && first != second
    ensures Delivery(TWO, Origin(7, PCMU, HERE), [first, second])
    ensures DigestOf([first, second]).firsts == [first, second]
  {
    var o, ls := Origin(7, PCMU, HERE), [first, second];
    assert ls[..1] == [first] && [first][..0] == [];
    assert DigestOf([first]) == Digest([first], first.sequence, first.timestamp);
    assert Delivery(TWO, o, [first]);
  }

  lemma EventUnheard()
    ensures Heard(TWO, [EVENT, FRAME], 0) == [3]
  {
    assert [EVENT, FRAME][..1] == [EVENT] && [EVENT][..0] == [];
    assert Audios(TWO, [EVENT]) == [] && Heard(TWO, [EVENT], 0) == [];
    assert Audios(TWO, [EVENT, FRAME]) == [FRAME];
  }

  lemma EventHeard()
    ensures Heard(TWO, [FRAME, EVENT], 0) == [3, 1]
  {
    HeardAll(TWO, [FRAME, EVENT], 0);
  }

  lemma OneMisses(x: int)
    ensures Missing([x]) == 0
  {
    assert Values([x]) == {x};
  }

  lemma TwoMiss(x: int)
    ensures Missing([x, x - 2]) == 1
  {
    var xs := [x, x - 2];
    DistinctCount(xs);
    assert xs[..1] == [x] && xs[1..] == [x - 2];
  }

  /** The same two packets in the other order: one of them misses a packet, the other none. */
  lemma EventFirstDiffers()
    ensures Packets([EVENT, FRAME]) == Packets([FRAME, EVENT])
    ensures Delivery(TWO, Origin(7, PCMU, HERE), [EVENT, FRAME]) && Delivery(TWO, Origin(7, PCMU, HERE), [FRAME, EVENT])
    ensures ResultOf(TWO, RunLabeled(TWO, [EVENT, FRAME])).missing == 0
    ensures ResultOf(TWO, RunLabeled(TWO, [FRAME, EVENT])).missing == 1
  {
    assert [EVENT, FRAME][0] == [FRAME, EVENT][1] && [EVENT, FRAME][1] == [FRAME, EVENT][0];
    PairDelivered(EVENT, FRAME);
    PairDelivered(FRAME, EVENT);
    MissingIs(TWO, Origin(7, PCMU, HERE), [EVENT, FRAME]);
    MissingIs(TWO, Origin(7, PCMU, HERE), [FRAME, EVENT]);
    EventUnheard();
    EventHeard();
    OneMisses(3);
    TwoMiss(3);
  }
}
