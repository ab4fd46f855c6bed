/** A run of audio frames end to end: sender, unreliable network, receiver. */
module FrameRuns {
  import opened Ints
  import opened G711
  import opened Receiving
  import opened Unwrapping
  import opened Streams
  import opened Sending
  import opened Network
  import opened Results
  import opened Timeline
  import opened SequenceSpace
  import opened EndToEnd
  import opened Passages
  import Reordering

  ghost predicate OnlyAudio(items: seq<Item>) {
    forall i :: 0 <= i < |items| ==> items[i].Audio?
  }

  function LineAt(line: Line, k: nat): Line {
    Line(line.sequence + k, line.timestamp + k * FRAME_SAMPLES)
  }

  /** The packets of frames that follow each other. */
  ghost predicate Consecutive(u: Setup, line: Line, items: seq<Item>, sent: seq<Labeled>)
    requires OnlyAudio(items)
  {
    && |sent| == |items|
    && forall k :: 0 <= k < |items| ==>
         sent[k] == LabelAudio(u, LineAt(line, k), items[k].samples, items[k].marker)
  }

  lemma ConsecutiveNext(u: Setup, line: Line, items: seq<Item>, n: nat, sent: seq<Labeled>, all: seq<Labeled>)
    requires OnlyAudio(items) && n == |items| - 1 && OnlyAudio(items[..n]) && Consecutive(u, line, items[..n], sent)
    requires all == sent + [LabelAudio(u, LineAt(line, n), items[n].samples, items[n].marker)]
    ensures Consecutive(u, line, items, all)
  {
    forall k | 0 <= k < |items|
      ensures all[k] == LabelAudio(u, LineAt(line, k), items[k].samples, items[k].marker)
    {
      assert k < n ==> items[..n][k] == items[k] && all[k] == sent[k];
    }
  }

  lemma FrameSent(u: Setup, line: Line, items: seq<Item>, n: nat)
    requires OnlyAudio(items) && n == |items| - 1 && LineAfter(line, items[..n]) == LineAt(line, n)
    ensures LineAfter(line, items) == LineAt(line, n + 1)
    ensures Send(u, line, items)
         == Send(u, line, items[..n]) + [LabelAudio(u, LineAt(line, n), items[n].samples, items[n].marker)]
  {
    SendLast(u, line, items[..n], items[n], items);
  }

  /** The k-th frame goes out with the k-th sequence number, 160 timestamp units after the one before. */
  lemma {:induction false} FramesSent(u: Setup, line: Line, items: seq<Item>)
    requires OnlyAudio(items)
    ensures LineAfter(line, items) == LineAt(line, |items|)
    ensures Consecutive(u, line, items, Send(u, line, items))
  {
    if items != [] {
      var n := |items| - 1;
      FramesSent(u, line, items[..n]);
      FrameSent(u, line, items, n);
      ConsecutiveNext(u, line, items, n, Send(u, line, items[..n]), Send(u, line, items));
    }
  }

  /** The frames of a script, at regular times. */
  ghost predicate Regular(u: Setup, line: Line, sent: seq<Labeled>) {
    forall k :: 0 <= k < |sent| ==>
      && sent[k].sequence == line.sequence + k
      && sent[k].timestamp == line.timestamp + k * FRAME_SAMPLES
      && |sent[k].arrival.packet.payload| == FRAME_SAMPLES
  }

  /** What is heard in place of a frame: its samples if it came through, silence if it was lost. */
  function FrameHeard(l: Labeled, ls: seq<Labeled>, codec: Codec): seq<int16> {
    if l in ls then Decode(l.arrival.packet.payload, codec) else Zeros(FRAME_SAMPLES)
  }

  ghost predicate FramesHeard(pcm: seq<int16>, sent: seq<Labeled>, ls: seq<Labeled>, codec: Codec, first: nat,
                              last: nat)
    requires first <= last < |sent|
  {
    && |pcm| == (last - first + 1) * FRAME_SAMPLES
    && forall k :: first <= k <= last ==>
         PlaysAt(pcm, (k - first) * FRAME_SAMPLES, FrameHeard(sent[k], ls, codec))
  }

  function Counting(n: nat): (r: seq<nat>)
    ensures |r| == n && forall k :: 0 <= k < n ==> r[k] == k
  {
    seq(n, k => k)
  }

  /** Frames that are all sent: the k-th packet is the k-th frame. */
  function FrameRun(sent: seq<Labeled>, ls: seq<Labeled>, maximum: nat): Passage {
    Passage(sent, Counting(|sent|), ls, maximum)
  }

  lemma InTimeHeard(pcm: seq<int16>, sent: seq<Labeled>, ls: seq<Labeled>, codec: Codec, maximum: nat, first: nat,
                    last: nat)
    requires first <= last < |sent| && forall k :: 0 <= k < |sent| ==> |sent[k].arrival.packet.payload| == FRAME_SAMPLES
    requires FrameRun(sent, ls, maximum).Valid()
    requires FrameRun(sent, ls, maximum).PlaysInTime(pcm, codec, first, last)
    ensures FramesHeard(pcm, sent, ls, codec, first, last)
  {
    var p := FrameRun(sent, ls, maximum);
    forall k | first <= k <= last
      ensures PlaysAt(pcm, (k - first) * FRAME_SAMPLES, FrameHeard(sent[k], ls, codec))
    {
      assert p.frames[k] == k;
      assert sent[k] !in ls ==> p.Silenced(k);
    }
  }

  lemma ScriptRegular(c: Config, u: Setup, line: Line, items: seq<Item>)
    requires Tuned(c, u, items) && OnlyAudio(items)
    ensures Regular(u, line, Send(u, line, items))
    ensures Reordering.AllAudio(c, Send(u, line, items))
  {
    var sent := Send(u, line, items);
    FramesSent(u, line, items);
    forall k | 0 <= k < |sent|
      ensures c.Audio(sent[k].arrival.packet)
    {
      assert TunedItem(c, u, items[k]);
    }
  }

  lemma ThroughAudio(c: Config, sent: seq<Labeled>, ls: seq<Labeled>)
    requires Reordering.AllAudio(c, sent)
    ensures Audios(c, Through(sent, ls)) == Through(sent, ls)
  {
    Reordering.AudiosAll(c, Through(sent, ls));
  }

  // What is counted as lost.

  lemma MissingOf(sequences: seq<int>, low: int, high: int)
    requires forall i, j :: 0 <= i < j < |sequences| ==> sequences[i] != sequences[j]
    requires low in sequences && high in sequences && forall i :: 0 <= i < |sequences| ==> low <= sequences[i] <= high
    ensures Missing(sequences) == high - low + 1 - |sequences|
  {
    assert Lowest(sequences) == low && Highest(sequences) == high;
    DistinctCount(sequences);
  }

  lemma HeardBetween(u: Setup, line: Line, sent: seq<Labeled>, ls: seq<Labeled>, firsts: seq<Labeled>, first: nat,
                     last: nat, i: nat)
    requires Regular(u, line, sent) && Ends(sent, ls, first, last) && i < |firsts|
    requires forall l :: l in firsts <==> l in sent && l in ls
    ensures line.sequence + first <= firsts[i].sequence <= line.sequence + last
  {
    var k := IndexOf(firsts, sent, ls, i);
  }

  lemma HeardHas(c: Config, firsts: seq<Labeled>, ks: int, l: Labeled)
    requires Reordering.AllAudio(c, firsts) && l in firsts
    ensures l.sequence + ks in Heard(c, firsts, ks)
  {
    Reordering.HeardAll(c, firsts, ks);
    var a :| 0 <= a < |firsts| && firsts[a] == l;
    assert Heard(c, firsts, ks)[a] == l.sequence + ks;
  }

  lemma HeardRange(c: Config, u: Setup, line: Line, sent: seq<Labeled>, ls: seq<Labeled>, firsts: seq<Labeled>, ks: int,
                   first: nat, last: nat)
    requires Regular(u, line, sent) && Ends(sent, ls, first, last) && Reordering.AllAudio(c, firsts)
    requires forall l :: l in firsts <==> l in sent && l in ls
    ensures forall i :: 0 <= i < |Heard(c, firsts, ks)| ==>
              line.sequence + first + ks <= Heard(c, firsts, ks)[i] <= line.sequence + last + ks
  {
    Reordering.HeardAll(c, firsts, ks);
    forall i | 0 <= i < |firsts|
      ensures line.sequence + first + ks <= Heard(c, firsts, ks)[i] <= line.sequence + last + ks
    {
      HeardBetween(u, line, sent, ls, firsts, first, last, i);
    }
  }

  lemma HeardApart(c: Config, firsts: seq<Labeled>, ks: int)
    requires Reordering.AllAudio(c, firsts) && DistinctSequences(firsts)
    ensures |Heard(c, firsts, ks)| == |firsts|
    ensures forall i, j :: 0 <= i < j < |firsts| ==> Heard(c, firsts, ks)[i] != Heard(c, firsts, ks)[j]
  {
    Reordering.HeardAll(c, firsts, ks);
  }

  lemma LostCounted(c: Config, u: Setup, line: Line, sent: seq<Labeled>, ls: seq<Labeled>, firsts: seq<Labeled>,
                    ks: int,
                    first: nat, last: nat)
    requires Regular(u, line, sent) && Ends(sent, ls, first, last) && Reordering.AllAudio(c, firsts)
             && DistinctSequences(firsts)
    requires forall l :: l in firsts <==> l in sent && l in ls
    ensures Missing(Heard(c, firsts, ks)) == last - first + 1 - |firsts|
  {
    HeardApart(c, firsts, ks);
    HeardHas(c, firsts, ks, sent[first]);
    HeardHas(c, firsts, ks, sent[last]);
    HeardRange(c, u, line, sent, ls, firsts, ks, first, last);
    MissingOf(Heard(c, firsts, ks), line.sequence + first + ks, line.sequence + last + ks);
  }

  lemma LostMatches(c: Config, u: Setup, line: Line, sent: seq<Labeled>, ls: seq<Labeled>, d: Digest, s: State,
                    first: nat, last: nat)
    requires c.Valid() && Matches(c, OriginOf(u), d, s) && Regular(u, line, sent) && Ends(sent, ls, first, last)
    requires Sequenced(c, sent) && Reordering.AllAudio(c, sent) && forall l :: l in d.firsts <==> l in sent && l in ls
    ensures ResultOf(c, s).missing == last - first + 1 - |Through(sent, ls)|
    ensures ResultOf(c, s).audioStats.packetsReceived == |Through(sent, ls)|
  {
    var ks, kt := d.SequenceShift(), d.TimestampShift();
    Reordering.AudiosAll(c, d.firsts);
    LostCounted(c, u, line, sent, ls, d.firsts, ks, first, last);
    CountsReceived(d.firsts, ks, kt);
    ThroughSorted(c, sent, ls, d.firsts, ks, kt);
    ThroughAudio(c, sent, ls);
    SortPermutes(Stamps(d.firsts, ks, kt));
    assert |Stamps(Through(sent, ls), ks, kt)| == |Sort(Stamps(d.firsts, ks, kt))|;
  }

  lemma RegularTimed(u: Setup, line: Line, sent: seq<Labeled>, ls: seq<Labeled>, maximum: nat)
    requires Regular(u, line, sent)
    ensures FrameRun(sent, ls, maximum).Timed(line)
  {
  }

  /** What a receiver plays of a run of frames, and how many silences it leaves out. */
  ghost predicate RunHeard(r: Result, p: Passage, codec: Codec, first: nat, last: nat)
    requires p.Valid() && first <= last < |p.sent|
  {
    && p.Plays(r.pcm, codec, first, last)
    && r.stats.discontinuities == p.Cuts(p.frames[first], p.frames[last])
    && (p.AllFit() ==> p.PlaysInTime(r.pcm, codec, first, last) && r.stats.discontinuities == 0)
  }

  lemma FramesRunHeard(r: Result, p: Passage, line: Line, heard: seq<Labeled>, codec: Codec, first: nat, last: nat)
    requires p.Timed(line) && Holding(heard, p) && Ends(p.sent, p.ls, first, last)
    requires FramesPlay(r, heard, codec, p.maximum)
    ensures RunHeard(r, p, codec, first, last)
  {
    PassagePlays(p, line, heard, codec, first, last);
    if p.AllFit() {
      FitPlays(p, r.pcm, codec, first, last);
    }
  }

  /**
   * Frames sent from any sequence and timestamp, through any network that keeps new packets inside the reorder
   * window: every frame between the first and the last that came through is heard in its place, every run of lost
   * ones that is short enough is silence in its own, and each longer one is left out and counted.
   */
  lemma FramesEndToEnd(c: Config, u: Setup, line: Line, items: seq<Item>, ls: seq<Labeled>, first: nat, last: nat)
    requires Tuned(c, u, items) && OnlyAudio(items) && |items| <= MAX_RETAINED
    requires Delivered(Send(u, line, items), c.reorderWindow, ls) && Ends(Send(u, line, items), ls, first, last)
    ensures FrameRun(Send(u, line, items), ls, GapSamples(c)).Valid()
    ensures RunHeard(ResultOf(c, RunLabeled(c, ls)), FrameRun(Send(u, line, items), ls, GapSamples(c)), u.codec, first,
                     last)
  {
    var sent := Send(u, line, items);
    FramesSent(u, line, items);
    ScriptRegular(c, u, line, items);
    RegularTimed(u, line, sent, ls, GapSamples(c));
    ScriptPlays(c, u, line, items, ls);
    ThroughAudio(c, sent, ls);
    FramesRunHeard(ResultOf(c, RunLabeled(c, ls)), FrameRun(sent, ls, GapSamples(c)), line, Through(sent, ls), u.codec,
                   first, last);
  }

  /** The lost frames are exactly the ones counted as missing. */
  lemma FramesCounted(c: Config, u: Setup, line: Line, items: seq<Item>, ls: seq<Labeled>, first: nat, last: nat)
    requires Tuned(c, u, items) && OnlyAudio(items) && |items| <= MAX_RETAINED
    requires Delivered(Send(u, line, items), c.reorderWindow, ls) && Ends(Send(u, line, items), ls, first, last)
    ensures var r := ResultOf(c, RunLabeled(c, ls));
            && r.audioStats.packetsReceived == |Through(Send(u, line, items), ls)|
            && r.missing == last - first + 1 - r.audioStats.packetsReceived
  {
    var sent, to := Send(u, line, items), LineAfter(line, items);
    FramesSent(u, line, items);
    ScriptRegular(c, u, line, items);
    ScriptWellSent(c, u, line, items);
    WellSentSequenced(c, u, line, to, sent);
    DeliveredIsDelivery(c, u, line, to, sent, ls);
    DeliveryMatches(c, OriginOf(u), ls);
    FirstsThrough(sent, c.reorderWindow, ls);
    LostMatches(c, u, line, sent, ls, DigestOf(ls), RunLabeled(c, ls), first, last);
  }

  /** What the k-th frame sounds like when nothing of it is lost. */
  lemma FrameSound(u: Setup, line: Line, items: seq<Item>, ls: seq<Labeled>, k: nat)
    requires OnlyAudio(items) && k < |items|
    ensures |Send(u, line, items)| == |items|
    ensures var sound, spoken := FrameHeard(Send(u, line, items)[k], ls, u.codec), Frame(items[k].samples);
            Send(u, line, items)[k] in ls ==>
              && sound == Decode(Encode(spoken, u.codec), u.codec)
              && forall j :: 0 <= j < FRAME_SAMPLES ==> Near(sound[j], spoken[j], u.codec)
  {
    FramesSent(u, line, items);
    RoundTripNear(Frame(items[k].samples), u.codec);
  }

  /** The samples are the frames, one after the other, as the codec passes them on. */
  ghost predicate Verbatim(pcm: seq<int16>, items: seq<Item>, codec: Codec)
    requires OnlyAudio(items)
  {
    && |pcm| == |items| * FRAME_SAMPLES
    && forall k :: 0 <= k < |items| ==>
         PlaysAt(pcm, k * FRAME_SAMPLES, Decode(Encode(Frame(items[k].samples), codec), codec))
  }

  lemma FramesNumber(u: Setup, line: Line, items: seq<Item>)
    requires OnlyAudio(items)
    ensures |Send(u, line, items)| == |items|
  {
    FramesSent(u, line, items);
  }

  lemma NoneEnds(sent: seq<Labeled>, ls: seq<Labeled>)
    requires sent != [] && forall l :: l in sent ==> l in ls
    ensures Ends(sent, ls, 0, |sent| - 1)
  {
  }

  lemma NoneLost(sent: seq<Labeled>, ls: seq<Labeled>, maximum: nat)
    requires sent != [] && forall l :: l in sent ==> l in ls
    ensures FrameRun(sent, ls, maximum).Valid() && FrameRun(sent, ls, maximum).AllFit()
  {
    var p := FrameRun(sent, ls, maximum);
    forall a: nat, b: nat | a < b < |sent|
      ensures !p.TooLong(a, b)
    {
      assert sent[a + 1] in sent;
      assert p.LostRun(a, b) ==> b == a + 1;
    }
  }

  lemma VerbatimFrame(r: Result, u: Setup, line: Line, items: seq<Item>, ls: seq<Labeled>, k: nat)
    requires OnlyAudio(items) && k < |items| == |Send(u, line, items)| && Send(u, line, items)[k] in ls
    requires FramesHeard(r.pcm, Send(u, line, items), ls, u.codec, 0, |items| - 1)
    ensures PlaysAt(r.pcm, k * FRAME_SAMPLES, Decode(Encode(Frame(items[k].samples), u.codec), u.codec))
  {
    FrameSound(u, line, items, ls, k);
    assert PlaysAt(r.pcm, (k - 0) * FRAME_SAMPLES, FrameHeard(Send(u, line, items)[k], ls, u.codec));
  }

  lemma RunVerbatim(r: Result, u: Setup, line: Line, items: seq<Item>, ls: seq<Labeled>, maximum: nat)
    requires OnlyAudio(items) && 0 < |items| == |Send(u, line, items)| && Regular(u, line, Send(u, line, items))
    requires forall l :: l in Send(u, line, items) ==> l in ls
    requires FrameRun(Send(u, line, items), ls, maximum).Valid()
    requires RunHeard(r, FrameRun(Send(u, line, items), ls, maximum), u.codec, 0, |items| - 1)
    ensures Verbatim(r.pcm, items, u.codec)
  {
    NoneLost(Send(u, line, items), ls, maximum);
    InTimeHeard(r.pcm, Send(u, line, items), ls, u.codec, maximum, 0, |items| - 1);
    forall k | 0 <= k < |items|
      ensures PlaysAt(r.pcm, k * FRAME_SAMPLES, Decode(Encode(Frame(items[k].samples), u.codec), u.codec))
    {
      assert Send(u, line, items)[k] in Send(u, line, items);
      VerbatimFrame(r, u, line, items, ls, k);
    }
  }

  lemma AllCame(c: Config, u: Setup, line: Line, items: seq<Item>, ls: seq<Labeled>)
    requires Tuned(c, u, items) && OnlyAudio(items) && items != []
    requires forall l :: l in Send(u, line, items) ==> l in ls
    ensures |Send(u, line, items)| == |items| && Regular(u, line, Send(u, line, items))
    ensures Ends(Send(u, line, items), ls, 0, |items| - 1)
  {
    FramesNumber(u, line, items);
    ScriptRegular(c, u, line, items);
    NoneEnds(Send(u, line, items), ls);
  }

  lemma AllHeard(c: Config, u: Setup, line: Line, items: seq<Item>, ls: seq<Labeled>)
    requires Tuned(c, u, items) && OnlyAudio(items) && 0 < |items| <= MAX_RETAINED
    requires Delivered(Send(u, line, items), c.reorderWindow, ls)
    requires |Send(u, line, items)| == |items| && Ends(Send(u, line, items), ls, 0, |items| - 1)
    ensures FrameRun(Send(u, line, items), ls, GapSamples(c)).Valid()
    ensures RunHeard(ResultOf(c, RunLabeled(c, ls)), FrameRun(Send(u, line, items), ls, GapSamples(c)), u.codec, 0,
                     |items| - 1)
  {
    FramesEndToEnd(c, u, line, items, ls, 0, |items| - 1);
  }

  /** When nothing is lost, everything that was sent is heard, in order and within the error of the codec. */
  lemma NothingLost(c: Config, u: Setup, line: Line, items: seq<Item>, ls: seq<Labeled>)
    requires Tuned(c, u, items) && OnlyAudio(items) && 0 < |items| <= MAX_RETAINED
    requires Delivered(Send(u, line, items), c.reorderWindow, ls)
    requires forall l :: l in Send(u, line, items) ==> l in ls
    ensures Verbatim(ResultOf(c, RunLabeled(c, ls)).pcm, items, u.codec)
  {
    AllCame(c, u, line, items, ls);
    AllHeard(c, u, line, items, ls);
    RunVerbatim(ResultOf(c, RunLabeled(c, ls)), u, line, items, ls, GapSamples(c));
  }
}
