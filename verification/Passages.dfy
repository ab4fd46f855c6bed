/** Frames at places of their own, some of which are never heard, and where the others end up in the audio. */
module Passages {
  import opened Ints
  import opened G711
  import opened Unwrapping
  import opened Sending
  import opened Timeline
  import opened EndToEnd

  /** These samples stand at this place. */
  ghost predicate PlaysAt(pcm: seq<int16>, at: int, sound: seq<int16>) {
    0 <= at <= at + |sound| <= |pcm| && pcm[at..at + |sound|] == sound
  }

  /** The first and the last packet that came through. */
  ghost predicate Ends(sent: seq<Labeled>, ls: seq<Labeled>, first: nat, last: nat) {
    && first <= last < |sent| && sent[first] in ls && sent[last] in ls
    && forall k :: 0 <= k < |sent| && sent[k] in ls ==> first <= k <= last
  }

  /** The k-th packet sent is frame `frames[k]`; `ls` is what arrived, `maximum` the longest silence filled in. */
  datatype Passage = Passage(sent: seq<Labeled>, frames: seq<nat>, ls: seq<Labeled>, maximum: nat) {
    ghost predicate Valid() {
      && |sent| == |frames|
      && forall i, j :: 0 <= i < j < |frames| ==> frames[i] < frames[j]
    }

    /** The packets at their sequences and times. */
    ghost predicate Timed(line: Line) {
      && Valid()
      && forall k :: 0 <= k < |sent| ==>
           && sent[k].sequence == line.sequence + k
           && sent[k].timestamp == line.timestamp + frames[k] * FRAME_SAMPLES
           && |sent[k].arrival.packet.payload| == FRAME_SAMPLES
    }

    /** The packets a and b came through and nothing between them did. */
    ghost predicate LostRun(a: nat, b: nat)
      requires a < b < |sent|
    {
      sent[a] in ls && sent[b] in ls && forall k :: a < k < b ==> sent[k] !in ls
    }

    /** And the silence between their frames is longer than the receiver fills in. */
    ghost predicate TooLong(a: nat, b: nat)
      requires Valid() && a < b < |sent|
    {
      LostRun(a, b) && (frames[b] - frames[a] - 1) * FRAME_SAMPLES > maximum
    }

    ghost predicate AllFit()
      requires Valid()
    {
      forall a: nat, b: nat :: a < b < |sent| ==> !TooLong(a, b)
    }

    /** The frame was not sent, or its packet was lost. */
    ghost predicate Silenced(f: int) {
      forall k :: 0 <= k < |frames| && k < |sent| && frames[k] == f ==> sent[k] !in ls
    }

    /** The frame belongs to a silence that is too long. */
    ghost predicate Elided(f: int)
      requires Valid()
    {
      exists a: nat, b: nat :: a < b < |sent| && TooLong(a, b) && frames[a] < f < frames[b]
    }

    /** Where frame f is heard when frame `from` is heard first: behind all frames between that are not elided. */
    ghost function Place(from: int, f: int): nat
      requires Valid()
      decreases f - from
    {
      if f <= from then 0 else Place(from, f - 1) + if Elided(f - 1) then 0 else FRAME_SAMPLES
    }

    /** An elided silence ends here. */
    ghost predicate CutAt(f: int)
      requires Valid()
    {
      Elided(f - 1) && !Elided(f)
    }

    /** How many elided silences end behind frame `from` and no later than frame f. */
    ghost function Cuts(from: int, f: int): nat
      requires Valid()
      decreases f - from
    {
      if f <= from then 0 else Cuts(from, f - 1) + if CutAt(f) then 1 else 0
    }

    /** Every frame that came through in its place, every silence that fits is silence in its own, and nothing else. */
    ghost predicate Plays(pcm: seq<int16>, codec: Codec, first: nat, last: nat)
      requires Valid() && first <= last < |sent|
    {
      && |pcm| == Place(frames[first], frames[last] + 1)
      && (forall k :: first <= k <= last && sent[k] in ls ==>
            PlaysAt(pcm, Place(frames[first], frames[k]), Decode(sent[k].arrival.packet.payload, codec)))
      && (forall f :: frames[first] <= f <= frames[last] && Silenced(f) && !Elided(f) ==>
            PlaysAt(pcm, Place(frames[first], f), Zeros(FRAME_SAMPLES)))
    }

    /** Every frame at its own time: what came through is heard, and all else is silence. */
    ghost predicate PlaysInTime(pcm: seq<int16>, codec: Codec, first: nat, last: nat)
      requires Valid() && first <= last < |sent|
    {
      && |pcm| == (frames[last] - frames[first] + 1) * FRAME_SAMPLES
      && (forall k :: first <= k <= last && sent[k] in ls ==>
            PlaysAt(pcm, (frames[k] - frames[first]) * FRAME_SAMPLES, Decode(sent[k].arrival.packet.payload, codec)))
      && (forall f :: frames[first] <= f <= frames[last] && Silenced(f) ==>
            PlaysAt(pcm, (f - frames[first]) * FRAME_SAMPLES, Zeros(FRAME_SAMPLES)))
    }
  }

  ghost predicate Holding(heard: seq<Labeled>, p: Passage) {
    InSequence(heard) && forall l :: l in heard <==> l in p.sent && l in p.ls
  }

  // What lies between two packets that came through.

  lemma ElidedBetween(p: Passage, a: nat, b: nat, f: int)
    requires p.Valid() && a < b < |p.sent| && p.LostRun(a, b) && p.frames[a] < f < p.frames[b]
    ensures p.Elided(f) <==> p.TooLong(a, b)
  {
    if p.Elided(f) {
      var x: nat, y: nat :| x < y < |p.sent| && p.TooLong(x, y) && p.frames[x] < f < p.frames[y];
      assert x <= a && b <= y;
      assert a <= x && y <= b;
    }
  }

  lemma CameNotElided(p: Passage, k: nat)
    requires p.Valid() && k < |p.sent| && p.sent[k] in p.ls
    ensures !p.Elided(p.frames[k])
  {
    if p.Elided(p.frames[k]) {
      var x: nat, y: nat :| x < y < |p.sent| && p.TooLong(x, y) && p.frames[x] < p.frames[k] < p.frames[y];
    }
  }

  lemma {:induction false} PlacesBetween(p: Passage, a: nat, b: nat, from: int, f: int)
    requires p.Valid() && a < b < |p.sent| && p.LostRun(a, b) && from <= p.frames[a] < f <= p.frames[b]
    ensures p.Place(from, f)
         == p.Place(from, p.frames[a] + 1) + if p.TooLong(a, b) then 0 else (f - p.frames[a] - 1) * FRAME_SAMPLES
  {
    if f > p.frames[a] + 1 {
      PlacesBetween(p, a, b, from, f - 1);
      ElidedBetween(p, a, b, f - 1);
    }
  }

  lemma {:induction false} NoCuts(p: Passage, a: nat, b: nat, from: int, f: int)
    requires p.Valid() && a < b < |p.sent| && p.LostRun(a, b) && from <= p.frames[a] <= f < p.frames[b]
    ensures p.Cuts(from, f) == p.Cuts(from, p.frames[a])
  {
    if f > p.frames[a] {
      NoCuts(p, a, b, from, f - 1);
      ElidedBetween(p, a, b, f);
      if f - 1 > p.frames[a] {
        ElidedBetween(p, a, b, f - 1);
      } else {
        CameNotElided(p, a);
      }
    }
  }

  lemma CutsBetween(p: Passage, a: nat, b: nat, from: int)
    requires p.Valid() && a < b < |p.sent| && p.LostRun(a, b) && from <= p.frames[a]
    ensures p.Cuts(from, p.frames[b]) == p.Cuts(from, p.frames[a]) + if p.TooLong(a, b) then 1 else 0
  {
    NoCuts(p, a, b, from, p.frames[b] - 1);
    CameNotElided(p, b);
    CameNotElided(p, a);
    if p.frames[b] - 1 > p.frames[a] {
      ElidedBetween(p, a, b, p.frames[b] - 1);
    }
  }

  lemma {:induction false} FitPlace(p: Passage, from: int, f: int)
    requires p.Valid() && p.AllFit() && from <= f
    ensures p.Place(from, f) == (f - from) * FRAME_SAMPLES && p.Cuts(from, f) == 0
    decreases f - from
  {
    if from < f {
      FitPlace(p, from, f - 1);
    }
  }

  // From one packet that came through to the next.

  lemma IndexOf(heard: seq<Labeled>, sent: seq<Labeled>, ls: seq<Labeled>, i: nat) returns (k: nat)
    requires (forall l :: l in heard <==> l in sent && l in ls) && i < |heard|
    ensures k < |sent| && sent[k] == heard[i] && sent[k] in ls
  {
    assert heard[i] in heard;
    k :| 0 <= k < |sent| && sent[k] == heard[i];
  }

  lemma NotBetween(heard: seq<Labeled>, l: Labeled, i: nat)
    requires InSequence(heard) && l in heard && 0 < i < |heard|
    ensures !(heard[i - 1].sequence < l.sequence < heard[i].sequence)
  {
    var j :| 0 <= j < |heard| && heard[j] == l;
    assert j <= i - 1 || i <= j;
  }

  lemma Neighbours(p: Passage, line: Line, heard: seq<Labeled>, i: nat, a: nat, b: nat)
    requires p.Timed(line) && Holding(heard, p) && 0 < i < |heard|
    requires a < |p.sent| && b < |p.sent| && heard[i - 1] == p.sent[a] && heard[i] == p.sent[b]
    ensures a < b && p.LostRun(a, b) && GapBefore(heard, i) == (p.frames[b] - p.frames[a] - 1) * FRAME_SAMPLES
  {
    assert heard[i - 1].sequence < heard[i].sequence;
    forall k | a < k < b
      ensures p.sent[k] !in p.ls
    {
      if p.sent[k] in heard {
        NotBetween(heard, p.sent[k], i);
      }
    }
    assert heard[i - 1] in heard && heard[i] in heard;
  }

  lemma HeardEnds(p: Passage, line: Line, heard: seq<Labeled>, first: nat, last: nat)
    requires p.Timed(line) && Holding(heard, p) && Ends(p.sent, p.ls, first, last)
    ensures heard != [] && heard[0] == p.sent[first] && heard[|heard| - 1] == p.sent[last]
  {
    assert p.sent[first] in heard && p.sent[last] in heard;
    var i :| 0 <= i < |heard| && heard[i] == p.sent[first];
    var j :| 0 <= j < |heard| && heard[j] == p.sent[last];
    var a := IndexOf(heard, p.sent, p.ls, 0);
    var b := IndexOf(heard, p.sent, p.ls, |heard| - 1);
  }

  lemma Extends(pcm: seq<int16>, all: seq<int16>, at: int, sound: seq<int16>)
    requires PlaysAt(pcm, at, sound) && pcm <= all
    ensures PlaysAt(all, at, sound)
  {
    assert all[at..at + |sound|] == pcm[at..at + |sound|];
  }

  lemma PlaysLast(pcm: seq<int16>, sound: seq<int16>)
    ensures PlaysAt(pcm + sound, |pcm|, sound)
  {
  }

  lemma PlaysZeros(pcm: seq<int16>, gap: nat, more: seq<int16>, at: int)
    requires |pcm| <= at && at + FRAME_SAMPLES <= |pcm| + gap
    ensures PlaysAt(pcm + Zeros(gap) + more, at, Zeros(FRAME_SAMPLES))
  {
    assert (pcm + Zeros(gap) + more)[at..at + FRAME_SAMPLES] == Zeros(FRAME_SAMPLES);
  }

  lemma PlaysOne(p: Passage, codec: Codec, first: nat)
    requires p.Valid() && first < |p.sent| && p.sent[first] in p.ls
    requires |p.sent[first].arrival.packet.payload| == FRAME_SAMPLES
    ensures p.Plays(Decode(p.sent[first].arrival.packet.payload, codec), codec, first, first)
  {
    CameNotElided(p, first);
    assert p.Place(p.frames[first], p.frames[first]) == 0;
    assert p.Place(p.frames[first], p.frames[first] + 1) == FRAME_SAMPLES;
  }

  /** Where the next packet that came through is heard. */
  lemma PlacesNext(p: Passage, from: int, a: nat, b: nat, gap: nat)
    requires p.Valid() && a < b < |p.sent| && p.LostRun(a, b) && from <= p.frames[a]
    requires gap == (p.frames[b] - p.frames[a] - 1) * FRAME_SAMPLES
    ensures p.Place(from, p.frames[b]) == p.Place(from, p.frames[a] + 1) + |Filling(gap, p.maximum)|
    ensures p.Place(from, p.frames[b] + 1) == p.Place(from, p.frames[b]) + FRAME_SAMPLES
  {
    PlacesBetween(p, a, b, from, p.frames[b]);
    CameNotElided(p, b);
  }

  lemma SilenceNext(p: Passage, pcm: seq<int16>, sound: seq<int16>, from: int, a: nat, b: nat, gap: nat, f: int)
    requires p.Valid() && a < b < |p.sent| && p.LostRun(a, b) && from <= p.frames[a]
    requires |pcm| == p.Place(from, p.frames[a] + 1) && gap == (p.frames[b] - p.frames[a] - 1) * FRAME_SAMPLES
    requires p.frames[a] < f < p.frames[b] && !p.Elided(f)
    ensures PlaysAt(pcm + Filling(gap, p.maximum) + sound, p.Place(from, f), Zeros(FRAME_SAMPLES))
  {
    ElidedBetween(p, a, b, f);
    PlacesBetween(p, a, b, from, f);
    PlaysZeros(pcm, gap, sound, p.Place(from, f));
  }

  lemma FrameNext(p: Passage, pcm: seq<int16>, sound: seq<int16>, from: int, a: nat, b: nat, gap: nat)
    requires p.Valid() && a < b < |p.sent| && p.LostRun(a, b) && from <= p.frames[a]
    requires |pcm| == p.Place(from, p.frames[a] + 1) && gap == (p.frames[b] - p.frames[a] - 1) * FRAME_SAMPLES
    ensures PlaysAt(pcm + Filling(gap, p.maximum) + sound, p.Place(from, p.frames[b]), sound)
  {
    PlacesNext(p, from, a, b, gap);
    PlaysLast(pcm + Filling(gap, p.maximum), sound);
  }

  lemma FramePlays(p: Passage, pcm: seq<int16>, codec: Codec, from: int, a: nat, b: nat, gap: nat, all: seq<int16>,
                   k: nat)
    requires p.Valid() && a < b < |p.sent| && p.LostRun(a, b) && from <= p.frames[a]
    requires |pcm| == p.Place(from, p.frames[a] + 1) && gap == (p.frames[b] - p.frames[a] - 1) * FRAME_SAMPLES
    requires all == pcm + Filling(gap, p.maximum) + Decode(p.sent[b].arrival.packet.payload, codec) && pcm <= all
    requires k <= b && p.sent[k] in p.ls
    requires k <= a ==> PlaysAt(pcm, p.Place(from, p.frames[k]), Decode(p.sent[k].arrival.packet.payload, codec))
    ensures PlaysAt(all, p.Place(from, p.frames[k]), Decode(p.sent[k].arrival.packet.payload, codec))
  {
    if k <= a {
      Extends(pcm, all, p.Place(from, p.frames[k]), Decode(p.sent[k].arrival.packet.payload, codec));
    } else {
      assert k == b;
      FrameNext(p, pcm, Decode(p.sent[b].arrival.packet.payload, codec), from, a, b, gap);
    }
  }

  lemma SilencePlays(p: Passage, pcm: seq<int16>, codec: Codec, from: int, a: nat, b: nat, gap: nat, all: seq<int16>,
                     f: int)
    requires p.Valid() && a < b < |p.sent| && p.LostRun(a, b) && from <= p.frames[a]
    requires |pcm| == p.Place(from, p.frames[a] + 1) && gap == (p.frames[b] - p.frames[a] - 1) * FRAME_SAMPLES
    requires all == pcm + Filling(gap, p.maximum) + Decode(p.sent[b].arrival.packet.payload, codec) && pcm <= all
    requires f <= p.frames[b] && p.Silenced(f) && !p.Elided(f)
    requires f <= p.frames[a] ==> PlaysAt(pcm, p.Place(from, f), Zeros(FRAME_SAMPLES))
    ensures PlaysAt(all, p.Place(from, f), Zeros(FRAME_SAMPLES))
  {
    if f <= p.frames[a] {
      Extends(pcm, all, p.Place(from, f), Zeros(FRAME_SAMPLES));
    } else {
      SilenceNext(p, pcm, Decode(p.sent[b].arrival.packet.payload, codec), from, a, b, gap, f);
    }
  }

  lemma Starts(a: seq<int16>, b: seq<int16>, c: seq<int16>)
    ensures a <= a + b + c && |a + b + c| == |a| + |b| + |c|
  {
  }

  lemma PlaysNext(p: Passage, pcm: seq<int16>, codec: Codec, first: nat, a: nat, b: nat, gap: nat, all: seq<int16>)
    requires p.Valid() && first <= a < b < |p.sent| && p.LostRun(a, b) && p.Plays(pcm, codec, first, a)
    requires gap == (p.frames[b] - p.frames[a] - 1) * FRAME_SAMPLES
    requires |p.sent[b].arrival.packet.payload| == FRAME_SAMPLES
    requires all == pcm + Filling(gap, p.maximum) + Decode(p.sent[b].arrival.packet.payload, codec)
    ensures p.Plays(all, codec, first, b)
  {
    assert p.frames[first] <= p.frames[a];
    PlacesNext(p, p.frames[first], a, b, gap);
    Starts(pcm, Filling(gap, p.maximum), Decode(p.sent[b].arrival.packet.payload, codec));
    forall k | first <= k <= b && p.sent[k] in p.ls
      ensures PlaysAt(all, p.Place(p.frames[first], p.frames[k]), Decode(p.sent[k].arrival.packet.payload, codec))
    {
      FramePlays(p, pcm, codec, p.frames[first], a, b, gap, all, k);
    }
    forall f | p.frames[first] <= f <= p.frames[b] && p.Silenced(f) && !p.Elided(f)
      ensures PlaysAt(all, p.Place(p.frames[first], f), Zeros(FRAME_SAMPLES))
    {
      SilencePlays(p, pcm, codec, p.frames[first], a, b, gap, all, f);
    }
  }

  /** What is spliced of the first n packets that came through, the last of which is packet b. */
  ghost predicate PrefixPlays(p: Passage, heard: seq<Labeled>, codec: Codec, first: nat, b: nat)
    requires p.Valid() && InSequence(heard)
  {
    && first <= b < |p.sent|
    && p.Plays(Spliced(heard, codec, p.maximum), codec, first, b)
    && LongGaps(heard, p.maximum) == p.Cuts(p.frames[first], p.frames[b])
  }

  lemma PrefixNext(p: Passage, heard: seq<Labeled>, codec: Codec, first: nat, a: nat, b: nat, n: nat)
    requires p.Valid() && InSequence(heard) && 0 < n == |heard| - 1
    requires a < b < |p.sent| && p.LostRun(a, b) && heard[n] == p.sent[b]
    requires GapBefore(heard, n) == (p.frames[b] - p.frames[a] - 1) * FRAME_SAMPLES
    requires InSequence(heard[..n]) && PrefixPlays(p, heard[..n], codec, first, a)
    ensures PrefixPlays(p, heard, codec, first, b)
  {
    SplicedLast(heard, codec, p.maximum, n);
    assert |heard[n].arrival.packet.payload| == FRAME_SAMPLES;
    PlaysNext(p, Spliced(heard[..n], codec, p.maximum), codec, first, a, b, GapBefore(heard, n),
              Spliced(heard, codec, p.maximum));
    assert p.frames[first] <= p.frames[a];
    CutsBetween(p, a, b, p.frames[first]);
  }

  lemma PrefixOne(p: Passage, heard: seq<Labeled>, codec: Codec, first: nat)
    requires p.Valid() && InSequence(heard) && |heard| == 1
    requires first < |p.sent| && heard[0] == p.sent[first] && p.sent[first] in p.ls
    ensures PrefixPlays(p, heard, codec, first, first)
  {
    PlaysOne(p, codec, first);
  }

  lemma SequenceFront(heard: seq<Labeled>, n: nat)
    requires InSequence(heard) && n <= |heard|
    ensures InSequence(heard[..n])
  {
  }

  lemma SameGap(heard: seq<Labeled>, n: nat)
    requires InSequence(heard) && 0 < n < |heard|
    ensures InSequence(heard[..n + 1]) && GapBefore(heard[..n + 1], n) == GapBefore(heard, n)
    ensures heard[..n + 1][..n] == heard[..n] && heard[..n + 1][n] == heard[n] && |heard[..n + 1]| == n + 1
  {
  }

  lemma PrefixStep(p: Passage, line: Line, heard: seq<Labeled>, codec: Codec, first: nat, n: nat, a: nat, b: nat)
    requires p.Timed(line) && Holding(heard, p) && 0 < n < |heard|
    requires a < |p.sent| && b < |p.sent| && heard[n - 1] == p.sent[a] && heard[n] == p.sent[b]
    requires InSequence(heard[..n]) && PrefixPlays(p, heard[..n], codec, first, a)
    ensures InSequence(heard[..n + 1]) && PrefixPlays(p, heard[..n + 1], codec, first, b)
  {
    Neighbours(p, line, heard, n, a, b);
    SameGap(heard, n);
    PrefixNext(p, heard[..n + 1], codec, first, a, b, n);
  }

  lemma {:induction false} PrefixesPlay(p: Passage, line: Line, heard: seq<Labeled>, codec: Codec, first: nat, n: nat,
                                        b: nat)
    requires p.Timed(line) && Holding(heard, p) && n < |heard|
    requires first < |p.sent| && b < |p.sent| && heard[0] == p.sent[first] && heard[n] == p.sent[b]
    ensures InSequence(heard[..n + 1]) && PrefixPlays(p, heard[..n + 1], codec, first, b)
  {
    if n == 0 {
      SequenceFront(heard, 1);
      assert heard[0] in heard;
      SameSequence(p, line, first, b);
      PrefixOne(p, heard[..1], codec, first);
    } else {
      var a := IndexOf(heard, p.sent, p.ls, n - 1);
      PrefixesPlay(p, line, heard, codec, first, n - 1, a);
      PrefixStep(p, line, heard, codec, first, n, a, b);
    }
  }

  lemma SameSequence(p: Passage, line: Line, a: nat, b: nat)
    requires p.Timed(line) && a < |p.sent| && b < |p.sent| && p.sent[a] == p.sent[b]
    ensures a == b
  {
  }

  /** What is spliced of the packets that came through is every frame in its place. */
  lemma PassagePlays(p: Passage, line: Line, heard: seq<Labeled>, codec: Codec, first: nat, last: nat)
    requires p.Timed(line) && Holding(heard, p) && Ends(p.sent, p.ls, first, last)
    ensures p.Plays(Spliced(heard, codec, p.maximum), codec, first, last)
    ensures LongGaps(heard, p.maximum) == p.Cuts(p.frames[first], p.frames[last])
  {
    HeardEnds(p, line, heard, first, last);
    assert heard[..|heard|] == heard;
    PrefixesPlay(p, line, heard, codec, first, |heard| - 1, last);
  }

  lemma FitNotElided(p: Passage, f: int)
    requires p.Valid() && p.AllFit()
    ensures !p.Elided(f)
  {
  }

  /** When no silence is too long, nothing is elided. */
  lemma FitPlays(p: Passage, pcm: seq<int16>, codec: Codec, first: nat, last: nat)
    requires p.Valid() && p.AllFit() && first <= last < |p.sent| && p.Plays(pcm, codec, first, last)
    ensures p.PlaysInTime(pcm, codec, first, last) && p.Cuts(p.frames[first], p.frames[last]) == 0
  {
    assert p.frames[first] <= p.frames[last];
    FitPlace(p, p.frames[first], p.frames[last] + 1);
    FitPlace(p, p.frames[first], p.frames[last]);
    forall k | first <= k <= last && p.sent[k] in p.ls
      ensures PlaysAt(pcm, (p.frames[k] - p.frames[first]) * FRAME_SAMPLES,
                      Decode(p.sent[k].arrival.packet.payload, codec))
    {
      FitFrame(p, pcm, p.frames[first], p.frames[k], Decode(p.sent[k].arrival.packet.payload, codec));
    }
    forall f | p.frames[first] <= f <= p.frames[last] && p.Silenced(f)
      ensures PlaysAt(pcm, (f - p.frames[first]) * FRAME_SAMPLES, Zeros(FRAME_SAMPLES))
    {
      FitNotElided(p, f);
      FitFrame(p, pcm, p.frames[first], f, Zeros(FRAME_SAMPLES));
    }
  }

  lemma FitFrame(p: Passage, pcm: seq<int16>, from: int, f: int, sound: seq<int16>)
    requires p.Valid() && p.AllFit() && from <= f && PlaysAt(pcm, p.Place(from, f), sound)
    ensures PlaysAt(pcm, (f - from) * FRAME_SAMPLES, sound)
  {
    FitPlace(p, from, f);
  }
}
