/** Frames sent, lost, repeated and reordered come out as the right samples at the right places. */
module EndToEnd {
  import opened Ints
  import opened Options
  import opened G711
  import opened Receiving
  import opened Unwrapping
  import opened Streams
  import opened Sending
  import opened Network
  import opened Results
  import opened Timeline
  import opened Reordering

  /** The packets of the script that came through, in the order in which they were sent. */
  function Through(sent: seq<Labeled>, ls: seq<Labeled>): (r: seq<Labeled>)
    ensures forall l :: l in r <==> l in sent && l in ls
  {
    if sent == [] then [] else
      var front, l := sent[..|sent| - 1], sent[|sent| - 1];
      assert sent == front + [l];
      if l in ls then Through(front, ls) + [l] else Through(front, ls)
  }

  /** Sent frames in order: sequences and times go up, and no frame overlaps the next. */
  ghost predicate InSequence(frames: seq<Labeled>) {
    && (forall i :: 0 <= i < |frames| ==> |frames[i].arrival.packet.payload| == FRAME_SAMPLES)
    && (forall i, j :: 0 <= i < j < |frames| ==>
          frames[i].sequence < frames[j].sequence && frames[i].timestamp + FRAME_SAMPLES <= frames[j].timestamp)
  }

  ghost predicate Sequenced(c: Config, sent: seq<Labeled>) {
    && (forall k :: 0 <= k < |sent| ==> c.Audio(sent[k].arrival.packet) ==>
        |sent[k].arrival.packet.payload| == FRAME_SAMPLES)
    && (forall i, j :: 0 <= i < j < |sent| ==>
          && sent[i].sequence < sent[j].sequence && sent[i].timestamp <= sent[j].timestamp
          && (c.Audio(sent[i].arrival.packet) ==> sent[i].timestamp + FRAME_SAMPLES <= sent[j].timestamp))
  }

  lemma AudiosThrough(c: Config, sent: seq<Labeled>, ls: seq<Labeled>)
    requires sent != []
    ensures var front, l := sent[..|sent| - 1], sent[|sent| - 1];
            Audios(c, Through(sent, ls)) ==
              if l in ls && c.Audio(l.arrival.packet) then Audios(c, Through(front, ls)) + [l]
              else Audios(c, Through(front, ls))
  {
    var front, l := sent[..|sent| - 1], sent[|sent| - 1];
    assert (Through(front, ls) + [l])[..|Through(front, ls)|] == Through(front, ls);
  }

  lemma SequencedLast(c: Config, sent: seq<Labeled>, x: Labeled)
    requires Sequenced(c, sent) && sent != [] && x in sent[..|sent| - 1] && c.Audio(x.arrival.packet)
    ensures x.sequence < sent[|sent| - 1].sequence && x.timestamp + FRAME_SAMPLES <= sent[|sent| - 1].timestamp
  {
    var k :| 0 <= k < |sent| - 1 && sent[..|sent| - 1][k] == x;
    assert sent[k] == x;
  }

  lemma InSequenceNext(frames: seq<Labeled>, l: Labeled)
    requires InSequence(frames) && |l.arrival.packet.payload| == FRAME_SAMPLES
    requires forall i :: 0 <= i < |frames| ==>
             frames[i].sequence < l.sequence && frames[i].timestamp + FRAME_SAMPLES <= l.timestamp
    ensures InSequence(frames + [l])
  {
  }

  lemma {:induction false} ThroughInSequence(c: Config, sent: seq<Labeled>, ls: seq<Labeled>)
    requires Sequenced(c, sent)
    ensures InSequence(Audios(c, Through(sent, ls)))
  {
    if sent != [] {
      var front, l := sent[..|sent| - 1], sent[|sent| - 1];
      var before := Audios(c, Through(front, ls));
      ThroughInSequence(c, front, ls);
      AudiosThrough(c, sent, ls);
      forall i | 0 <= i < |before|
        ensures c.Audio(l.arrival.packet) ==>
                before[i].sequence < l.sequence && before[i].timestamp + FRAME_SAMPLES <= l.timestamp
      {
        AudiosHas(c, Through(front, ls), before[i]);
        SequencedLast(c, sent, before[i]);
      }
      if l in ls && c.Audio(l.arrival.packet) {
        InSequenceNext(before, l);
      }
    }
  }

  /** What comes through is what was sent and delivered, in a strict order. */
  lemma ThroughSorted(c: Config, sent: seq<Labeled>, ls: seq<Labeled>, firsts: seq<Labeled>, ks: int, kt: int)
    requires Sequenced(c, sent) && DistinctSequences(firsts)
    requires forall l :: l in firsts <==> l in sent && l in ls
    ensures Sort(Stamps(Audios(c, firsts), ks, kt)) == Stamps(Audios(c, Through(sent, ls)), ks, kt)
  {
    var frames, audios := Audios(c, Through(sent, ls)), Audios(c, firsts);
    ThroughInSequence(c, sent, ls);
    AudiosDistinct(c, firsts);
    SortStrict(Stamps(audios, ks, kt));
    StampsStrict(frames, ks, kt);
    forall r
      ensures r in Sort(Stamps(audios, ks, kt)) <==> r in Stamps(frames, ks, kt)
    {
      SortKeeps(Stamps(audios, ks, kt), r);
      StampsSame(c, audios, frames, firsts, Through(sent, ls), ks, kt, r);
      StampsSame(c, frames, audios, Through(sent, ls), firsts, ks, kt, r);
    }
    SameOrder(Sort(Stamps(audios, ks, kt)), Stamps(frames, ks, kt));
  }

  lemma StampsStrict(frames: seq<Labeled>, ks: int, kt: int)
    requires InSequence(frames)
    ensures StrictlyOrdered(Stamps(frames, ks, kt))
  {
  }

  lemma StampsSame(c: Config, a: seq<Labeled>, b: seq<Labeled>, x: seq<Labeled>, y: seq<Labeled>, ks: int, kt: int,
                   r: Record)
    requires a == Audios(c, x) && b == Audios(c, y) && forall l :: l in x ==> l in y
    ensures r in Stamps(a, ks, kt) ==> r in Stamps(b, ks, kt)
  {
    if r in Stamps(a, ks, kt) {
      var i :| 0 <= i < |a| && Stamps(a, ks, kt)[i] == r;
      AudiosHas(c, x, a[i]);
      AudiosHas(c, y, a[i]);
      var j :| 0 <= j < |b| && b[j] == a[i];
      assert Stamps(b, ks, kt)[j] == r;
    }
  }

  // The rebuilt timeline.

  /** What is put in place of a gap: silence if it is short enough, nothing if it is longer. */
  function Filling(gap: nat, maximum: nat): seq<int16> {
    if gap <= maximum then Zeros(gap) else []
  }

  /** The time between a frame and the one before that no frame covers. */
  function GapBefore(frames: seq<Labeled>, i: nat): nat
    requires InSequence(frames) && 0 < i < |frames|
  {
    frames[i].timestamp - frames[i - 1].timestamp - FRAME_SAMPLES
  }

  /** The frames one after the other, with what is put in place of the gaps between them. */
  function Spliced(frames: seq<Labeled>, codec: Codec, maximum: nat): seq<int16>
    requires InSequence(frames)
  {
    if frames == [] then [] else
      var n := |frames| - 1;
      var sound := Decode(frames[n].arrival.packet.payload, codec);
      if n == 0 then sound
      else Spliced(frames[..n], codec, maximum) + Filling(GapBefore(frames, n), maximum) + sound
  }

  /** How many of the gaps are longer than the receiver fills in. */
  function LongGaps(frames: seq<Labeled>, maximum: nat): nat
    requires InSequence(frames)
  {
    if |frames| <= 1 then 0
    else LongGaps(frames[..|frames| - 1], maximum) + if GapBefore(frames, |frames| - 1) > maximum then 1 else 0
  }

  lemma LayAfter(t: Tape, r: Record, codec: Codec, maximum: nat, gap: nat)
    requires r.timestamp == t.base + |t.pcm| + gap
    ensures Lay(t, r, codec, maximum).pcm == t.pcm + Filling(gap, maximum) + Decode(r.packet.payload, codec)
    ensures Lay(t, r, codec, maximum).base + |Lay(t, r, codec, maximum).pcm| == r.timestamp + |r.packet.payload|
    ensures Lay(t, r, codec, maximum).discontinuities == t.discontinuities + if gap > maximum then 1 else 0
  {
  }

  /** The tape ends where the last frame does. */
  ghost predicate TapeHolds(t: Tape, frames: seq<Labeled>, codec: Codec, maximum: nat, kt: int)
    requires InSequence(frames) && frames != []
  {
    && t.pcm == Spliced(frames, codec, maximum) && t.discontinuities == LongGaps(frames, maximum)
    && t.base + |t.pcm| == frames[|frames| - 1].timestamp + kt + FRAME_SAMPLES
  }

  lemma SplicedLast(frames: seq<Labeled>, codec: Codec, maximum: nat, n: nat)
    requires InSequence(frames) && 0 < n == |frames| - 1
    ensures InSequence(frames[..n]) && frames[..n][n - 1] == frames[n - 1]
    ensures Spliced(frames, codec, maximum)
         == Spliced(frames[..n], codec, maximum) + Filling(GapBefore(frames, n), maximum)
            + Decode(frames[n].arrival.packet.payload, codec)
    ensures LongGaps(frames, maximum)
         == LongGaps(frames[..n], maximum) + if GapBefore(frames, n) > maximum then 1 else 0
  {
  }

  lemma HoldsNext(t: Tape, r: Record, frames: seq<Labeled>, codec: Codec, maximum: nat, kt: int, n: nat)
    requires InSequence(frames) && 0 < n == |frames| - 1 && TapeHolds(t, frames[..n], codec, maximum, kt)
    requires r.timestamp == frames[n].timestamp + kt && r.packet == frames[n].arrival.packet
    ensures r.timestamp >= t.base && TapeHolds(Lay(t, r, codec, maximum), frames, codec, maximum, kt)
  {
    SplicedLast(frames, codec, maximum, n);
    LayAfter(t, r, codec, maximum, GapBefore(frames, n));
    assert |frames[n].arrival.packet.payload| == FRAME_SAMPLES;
  }

  lemma HoldsFirst(frames: seq<Labeled>, r: Record, codec: Codec, maximum: nat, kt: int)
    requires InSequence(frames) && |frames| == 1
    requires r.timestamp == frames[0].timestamp + kt && r.packet == frames[0].arrival.packet
    ensures TapeHolds(Lay(Tape([], r.timestamp, 0, 0), r, codec, maximum), frames, codec, maximum, kt)
  {
    LayAfter(Tape([], r.timestamp, 0, 0), r, codec, maximum, 0);
  }

  lemma RebuildNext(frames: seq<Labeled>, records: seq<Record>, codec: Codec, maximum: nat, kt: int, n: nat)
    requires InSequence(frames) && Increasing(records) && 0 < n == |frames| - 1 == |records| - 1
    requires records[n].timestamp == frames[n].timestamp + kt && records[n].packet == frames[n].arrival.packet
    requires Increasing(records[..n])
    requires TapeHolds(Rebuild(records[..n], codec, maximum), frames[..n], codec, maximum, kt)
    ensures TapeHolds(Rebuild(records, codec, maximum), frames, codec, maximum, kt)
  {
    RebuildLast(records, codec, maximum);
    HoldsNext(Rebuild(records[..n], codec, maximum), records[n], frames, codec, maximum, kt, n);
  }

  /** What the receiver rebuilds of any frames in order. */
  lemma {:induction false} RebuildSpliced(frames: seq<Labeled>, codec: Codec, maximum: nat, ks: int, kt: int)
    requires InSequence(frames) && frames != []
    ensures Increasing(Stamps(frames, ks, kt))
    ensures TapeHolds(Rebuild(Stamps(frames, ks, kt), codec, maximum), frames, codec, maximum, kt)
  {
    var n := |frames| - 1;
    StampsIncreasing(frames, ks, kt);
    if n == 0 {
      HoldsFirst(frames, Stamps(frames, ks, kt)[0], codec, maximum, kt);
    } else {
      StampsFront(frames, ks, kt, n);
      RebuildSpliced(frames[..n], codec, maximum, ks, kt);
      RebuildNext(frames, Stamps(frames, ks, kt), codec, maximum, kt, n);
    }
  }

  lemma StampsIncreasing(frames: seq<Labeled>, ks: int, kt: int)
    requires InSequence(frames)
    ensures Increasing(Stamps(frames, ks, kt))
  {
  }

  lemma StampsFront(frames: seq<Labeled>, ks: int, kt: int, n: nat)
    requires InSequence(frames) && 0 < n == |frames| - 1
    ensures InSequence(frames[..n]) && Stamps(frames, ks, kt)[..n] == Stamps(frames[..n], ks, kt)
  {
  }

  // When every gap is filled.

  /** The times no frame covers are at most the longest silence the receiver fills in. */
  ghost predicate Gapless(frames: seq<Labeled>, maximum: nat) {
    forall i :: 0 < i < |frames| ==> frames[i].timestamp <= frames[i - 1].timestamp + FRAME_SAMPLES + maximum
  }

  predicate CoversTime(l: Labeled, time: int) {
    l.timestamp <= time < l.timestamp + FRAME_SAMPLES
  }

  /** The samples of every frame at the frame's own time, and silence where there is no frame. */
  ghost predicate Faithful(pcm: seq<int16>, frames: seq<Labeled>, codec: Codec)
    requires InSequence(frames)
  {
    if frames == [] then pcm == [] else
      var start := frames[0].timestamp;
      && |pcm| == frames[|frames| - 1].timestamp + FRAME_SAMPLES - start
      && (forall i, k :: 0 <= i < |frames| && 0 <= k < |pcm| && CoversTime(frames[i], start + k) ==>
            pcm[k] == DecodeSample(frames[i].arrival.packet.payload[start + k - frames[i].timestamp], codec))
      && (forall k :: 0 <= k < |pcm| && (forall i :: 0 <= i < |frames| ==> !CoversTime(frames[i], start + k)) ==>
          pcm[k] == 0)
  }

  lemma FaithfulSample(pcm: seq<int16>, frames: seq<Labeled>, codec: Codec, n: nat, all: seq<int16>, i: nat, k: nat)
    requires InSequence(frames) && 0 < n == |frames| - 1 && Faithful(pcm, frames[..n], codec)
    requires all == pcm + Zeros(GapBefore(frames, n)) + Decode(frames[n].arrival.packet.payload, codec)
    requires i < |frames| && k < |all| && CoversTime(frames[i], frames[0].timestamp + k)
    ensures all[k]
         == DecodeSample(frames[i].arrival.packet.payload[frames[0].timestamp + k - frames[i].timestamp], codec)
  {
    if i < n {
      assert frames[..n][i] == frames[i] && frames[i].timestamp <= frames[n - 1].timestamp;
      assert k < |pcm| && all[k] == pcm[k];
    } else {
      var sound := Decode(frames[n].arrival.packet.payload, codec);
      assert frames[..n][n - 1] == frames[n - 1];
      assert |pcm| + GapBefore(frames, n) == frames[n].timestamp - frames[0].timestamp;
      assert all[k] == sound[frames[0].timestamp + k - frames[n].timestamp];
    }
  }

  lemma FaithfulSilence(pcm: seq<int16>, frames: seq<Labeled>, codec: Codec, n: nat, all: seq<int16>, k: nat)
    requires InSequence(frames) && 0 < n == |frames| - 1 && Faithful(pcm, frames[..n], codec)
    requires all == pcm + Zeros(GapBefore(frames, n)) + Decode(frames[n].arrival.packet.payload, codec)
    requires k < |all| && forall i :: 0 <= i < |frames| ==> !CoversTime(frames[i], frames[0].timestamp + k)
    ensures all[k] == 0
  {
    assert !CoversTime(frames[n], frames[0].timestamp + k);
    if k < |pcm| {
      assert forall i :: 0 <= i < n ==> frames[..n][i] == frames[i];
      assert all[k] == pcm[k];
    }
  }

  lemma FaithfulNext(pcm: seq<int16>, frames: seq<Labeled>, codec: Codec, n: nat, all: seq<int16>)
    requires InSequence(frames) && 0 < n == |frames| - 1 && Faithful(pcm, frames[..n], codec)
    requires all == pcm + Zeros(GapBefore(frames, n)) + Decode(frames[n].arrival.packet.payload, codec)
    ensures Faithful(all, frames, codec)
  {
    forall i, k | 0 <= i < |frames| && 0 <= k < |all| && CoversTime(frames[i], frames[0].timestamp + k)
      ensures all[k]
           == DecodeSample(frames[i].arrival.packet.payload[frames[0].timestamp + k - frames[i].timestamp], codec)
    {
      FaithfulSample(pcm, frames, codec, n, all, i, k);
    }
    forall k | 0 <= k < |all| && (forall i :: 0 <= i < |frames| ==> !CoversTime(frames[i], frames[0].timestamp + k))
      ensures all[k] == 0
    {
      FaithfulSilence(pcm, frames, codec, n, all, k);
    }
  }

  lemma GaplessFront(frames: seq<Labeled>, maximum: nat, n: nat)
    requires InSequence(frames) && Gapless(frames, maximum) && 0 < n == |frames| - 1
    ensures Gapless(frames[..n], maximum) && GapBefore(frames, n) <= maximum
  {
    assert frames[n].timestamp <= frames[n - 1].timestamp + FRAME_SAMPLES + maximum;
  }

  lemma FaithfulFirst(frames: seq<Labeled>, codec: Codec, maximum: nat)
    requires InSequence(frames) && |frames| == 1
    ensures Faithful(Spliced(frames, codec, maximum), frames, codec)
  {
  }

  lemma {:induction false} SplicedFaithful(frames: seq<Labeled>, codec: Codec, maximum: nat)
    requires InSequence(frames) && Gapless(frames, maximum)
    ensures Faithful(Spliced(frames, codec, maximum), frames, codec)
  {
    if |frames| == 1 {
      FaithfulFirst(frames, codec, maximum);
    } else if |frames| > 1 {
      var n := |frames| - 1;
      SplicedLast(frames, codec, maximum, n);
      GaplessFront(frames, maximum, n);
      SplicedFaithful(frames[..n], codec, maximum);
      FaithfulNext(Spliced(frames[..n], codec, maximum), frames, codec, n, Spliced(frames, codec, maximum));
    }
  }

  // The whole way.

  lemma WellSentSequenced(c: Config, u: Setup, from: Line, to: Line, sent: seq<Labeled>)
    requires WellSent(c, u, from, to, sent)
    ensures Sequenced(c, sent)
  {
  }

  /** What the receiver holds of a script, however it was delivered. */
  ghost predicate HoldsThrough(c: Config, u: Setup, frames: seq<Labeled>, ks: int, kt: int, s: State) {
    && Sort(s.packets) == Stamps(frames, ks, kt)
    && (frames != [] ==> s.lock == Some(OriginOf(u).Key()))
    && s.stats.discontinuities == 0
  }

  lemma {:induction false} DeliveredSent(sent: seq<Labeled>, window: nat, ls: seq<Labeled>, l: Labeled)
    requires Delivered(sent, window, ls) && l in ls
    ensures l in sent
  {
    assert ls == ls[..|ls| - 1] + [ls[|ls| - 1]];
    if l in ls[..|ls| - 1] {
      DeliveredSent(sent, window, ls[..|ls| - 1], l);
    }
  }

  lemma FirstsThrough(sent: seq<Labeled>, window: nat, ls: seq<Labeled>)
    requires Delivered(sent, window, ls)
    ensures forall l :: l in DigestOf(ls).firsts <==> l in sent && l in ls
  {
    DigestEmpty(ls);
    forall l | l in ls
      ensures l in sent
    {
      DeliveredSent(sent, window, ls, l);
    }
  }

  lemma MatchesThrough(c: Config, u: Setup, sent: seq<Labeled>, ls: seq<Labeled>, d: Digest, s: State)
    requires c.Valid() && Matches(c, OriginOf(u), d, s) && Sequenced(c, sent)
    requires forall l :: l in d.firsts <==> l in sent && l in ls
    ensures HoldsThrough(c, u, Audios(c, Through(sent, ls)), d.SequenceShift(), d.TimestampShift(), s)
  {
    var frames, ks, kt := Audios(c, Through(sent, ls)), d.SequenceShift(), d.TimestampShift();
    ThroughSorted(c, sent, ls, d.firsts, ks, kt);
    SortPermutes(s.packets);
    assert |frames| == |Stamps(frames, ks, kt)| == |Audios(c, d.firsts)|;
  }

  lemma ScriptHeld(c: Config, u: Setup, line: Line, items: seq<Item>, ls: seq<Labeled>) returns (ks: int, kt: int)
    requires Tuned(c, u, items) && |Send(u, line, items)| <= MAX_RETAINED && Brief(line, LineAfter(line, items))
    requires Delivered(Send(u, line, items), c.reorderWindow, ls)
    ensures Sequenced(c, Send(u, line, items))
    ensures HoldsThrough(c, u, Audios(c, Through(Send(u, line, items), ls)), ks, kt, RunLabeled(c, ls))
  {
    var sent, to := Send(u, line, items), LineAfter(line, items);
    ScriptWellSent(c, u, line, items);
    WellSentSequenced(c, u, line, to, sent);
    DeliveredIsDelivery(c, u, line, to, sent, ls);
    DeliveryMatches(c, OriginOf(u), ls);
    FirstsThrough(sent, c.reorderWindow, ls);
    MatchesThrough(c, u, sent, ls, DigestOf(ls), RunLabeled(c, ls));
    ks, kt := DigestOf(ls).SequenceShift(), DigestOf(ls).TimestampShift();
  }

  /** What is heard of these frames, and what counts as a discontinuity. */
  ghost predicate FramesPlay(r: Result, frames: seq<Labeled>, codec: Codec, maximum: nat)
    requires InSequence(frames)
  {
    && r.pcm == Spliced(frames, codec, maximum)
    && r.stats.discontinuities == LongGaps(frames, maximum)
    && (Gapless(frames, maximum) ==> Faithful(r.pcm, frames, codec))
  }

  lemma HeldPlays(c: Config, u: Setup, frames: seq<Labeled>, ks: int, kt: int, s: State)
    requires HoldsThrough(c, u, frames, ks, kt, s) && InSequence(frames)
    ensures FramesPlay(ResultOf(c, s), frames, u.codec, GapSamples(c))
  {
    if frames == [] {
      assert Stamps(frames, ks, kt) == [];
    } else {
      RebuildSpliced(frames, u.codec, GapSamples(c), ks, kt);
    }
    if Gapless(frames, GapSamples(c)) {
      SplicedFaithful(frames, u.codec, GapSamples(c));
    }
  }

  /**
   * Any script of frames, digits and skipped frames, through any network: what plays are the frames that came through,
   * one after the other, with silence for the gaps the receiver fills in and nothing for the longer ones, which are
   * what it counts as discontinuities. When it fills in all of them, every frame plays at its own time.
   */
  lemma ScriptPlays(c: Config, u: Setup, line: Line, items: seq<Item>, ls: seq<Labeled>)
    requires Tuned(c, u, items) && |Send(u, line, items)| <= MAX_RETAINED && Brief(line, LineAfter(line, items))
    requires Delivered(Send(u, line, items), c.reorderWindow, ls)
    ensures InSequence(Audios(c, Through(Send(u, line, items), ls)))
    ensures FramesPlay(ResultOf(c, RunLabeled(c, ls)), Audios(c, Through(Send(u, line, items), ls)), u.codec,
                       GapSamples(c))
  {
    var ks, kt := ScriptHeld(c, u, line, items, ls);
    ThroughInSequence(c, Send(u, line, items), ls);
    HeldPlays(c, u, Audios(c, Through(Send(u, line, items), ls)), ks, kt, RunLabeled(c, ls));
  }
}
