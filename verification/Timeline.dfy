/** Rebuilding one PCM timeline from the retained audio packets (resultLocked in rtpverifier/receiver.go). */
module Timeline {
  import opened Ints
  import opened G711
  import opened Receiving

  // The order of reconstruction.

  predicate Before(a: Record, b: Record) {
    a.timestamp < b.timestamp || (a.timestamp == b.timestamp && a.sequence < b.sequence)
  }

  ghost predicate Ordered(records: seq<Record>) {
    forall i, j :: 0 <= i < j < |records| ==> !Before(records[j], records[i])
  }

  ghost predicate StrictlyOrdered(records: seq<Record>) {
    forall i, j :: 0 <= i < j < |records| ==> Before(records[i], records[j])
  }

  /** Inserts after every record that is not behind. */
  function Insert(r: Record, sorted: seq<Record>): seq<Record> {
    if sorted == [] then [r]
    else if Before(r, sorted[|sorted| - 1]) then Insert(r, sorted[..|sorted| - 1]) + [sorted[|sorted| - 1]]
    else sorted + [r]
  }

  /** The stable sort of the source: by extended timestamp, then by extended sequence. */
  function Sort(records: seq<Record>): seq<Record> {
    if records == [] then [] else Insert(records[|records| - 1], Sort(records[..|records| - 1]))
  }

  lemma {:induction false} InsertAdds(r: Record, sorted: seq<Record>)
    ensures multiset(Insert(r, sorted)) == multiset(sorted) + multiset{r}
  {
    if sorted != [] {
      assert sorted == sorted[..|sorted| - 1] + [sorted[|sorted| - 1]];
      InsertAdds(r, sorted[..|sorted| - 1]);
    }
  }

  /** Sorting loses and invents nothing. */
  lemma {:induction false} SortPermutes(records: seq<Record>)
    ensures multiset(Sort(records)) == multiset(records)
    ensures |Sort(records)| == |records|
  {
    if records != [] {
      assert records == records[..|records| - 1] + [records[|records| - 1]];
      SortPermutes(records[..|records| - 1]);
      InsertAdds(records[|records| - 1], Sort(records[..|records| - 1]));
    }
    assert |Sort(records)| == |multiset(Sort(records))|;
  }

  lemma {:induction false} InsertOrdered(r: Record, sorted: seq<Record>)
    requires Ordered(sorted)
    ensures Ordered(Insert(r, sorted))
  {
    if sorted != [] && Before(r, sorted[|sorted| - 1]) {
      var front, last := sorted[..|sorted| - 1], sorted[|sorted| - 1];
      InsertOrdered(r, front);
      InsertAdds(r, front);
      var out := Insert(r, front);
      forall i | 0 <= i < |out|
        ensures !Before(last, out[i])
      {
        assert out[i] in multiset(out);
        if out[i] != r {
          assert out[i] in multiset(front);
        }
      }
    }
  }

  lemma {:induction false} SortOrdered(records: seq<Record>)
    ensures Ordered(Sort(records))
  {
    if records != [] {
      SortOrdered(records[..|records| - 1]);
      InsertOrdered(records[|records| - 1], Sort(records[..|records| - 1]));
    }
  }

  lemma SortKeeps(records: seq<Record>, r: Record)
    ensures r in Sort(records) <==> r in records
  {
    SortPermutes(records);
    assert r in Sort(records) <==> r in multiset(Sort(records));
  }

  /** A strict order of the same records is unique. */
  lemma {:induction false} SameOrder(a: seq<Record>, b: seq<Record>)
    requires StrictlyOrdered(a) && StrictlyOrdered(b)
    requires forall r :: r in a <==> r in b
    ensures a == b
  {
    assert b != [] ==> b[0] in b;
    if a != [] {
      assert a[0] in b && b[0] in a;
      assert a[0] == b[0];
      forall r
        ensures r in a[1..] <==> r in b[1..]
      {
        if r in a[1..] || r in b[1..] {
          assert r != a[0];
          assert r in a && r in b;
        }
      }
      SameOrder(a[1..], b[1..]);
    }
  }

  /** Records with different sequences are strictly ordered by the sort. */
  lemma SortStrict(records: seq<Record>)
    requires forall i, j :: 0 <= i < j < |records| ==> records[i].sequence != records[j].sequence
    ensures StrictlyOrdered(Sort(records))
  {
    var out := Sort(records);
    SortOrdered(records);
    SortPermutes(records);
    forall i, j | 0 <= i < j < |out|
      ensures Before(out[i], out[j])
    {
      if out[i].sequence == out[j].sequence {
        DistinctInMultiset(records, out, i, j);
      }
    }
  }

  lemma DistinctInMultiset(records: seq<Record>, out: seq<Record>, i: nat, j: nat)
    requires forall x, y :: 0 <= x < y < |records| ==> records[x].sequence != records[y].sequence
    requires multiset(out) == multiset(records)
    requires i < j < |out|
    ensures out[i].sequence != out[j].sequence
  {
    assert out[i] in multiset(records) && out[j] in multiset(records);
    if out[i] == out[j] {
      var r := out[i];
      assert out == out[..i] + [r] + out[i + 1..j] + [r] + out[j + 1..];
      assert multiset(out)[r] >= 2;
      OnceOnly(records, r);
    }
  }

  lemma {:induction false} OnceOnly(records: seq<Record>, r: Record)
    requires forall x, y :: 0 <= x < y < |records| ==> records[x].sequence != records[y].sequence
    ensures multiset(records)[r] <= 1
  {
    if records != [] {
      var front, last := records[..|records| - 1], records[|records| - 1];
      OnceOnly(front, r);
      assert records == front + [last];
      if last == r {
        assert r !in front;
      }
    }
  }

  // The loop of the source, one record at a time.

  datatype Tape = Tape(pcm: seq<int16>, base: int, discontinuities: int, conflicts: int)

  function Zeros(n: nat): (r: seq<int16>)
    ensures |r| == n && forall i :: 0 <= i < n ==> r[i] == 0
  {
    seq(n, _ => 0)
  }

  /** Lays one record on the tape: fills a gap that is short enough, drops a longer one, never overwrites. */
  function Lay(t: Tape, r: Record, codec: Codec, maximum: nat): Tape
    requires r.timestamp >= t.base
  {
    var decoded := Decode(r.packet.payload, codec);
    var start := r.timestamp - t.base;
    var gap := start - |t.pcm|;
    if gap > maximum then
      Tape(t.pcm + decoded, r.timestamp - |t.pcm|, t.discontinuities + 1, t.conflicts)
    else if gap >= 0 then
      t.(pcm := t.pcm + Zeros(gap) + decoded)
    else
      var overlap := Min(|decoded|, -gap);
      var conflict := if decoded[..overlap] != t.pcm[start..start + overlap] then 1 else 0;
      Tape(t.pcm + decoded[overlap..], t.base, t.discontinuities + conflict, t.conflicts + conflict)
  }

  ghost predicate Increasing(records: seq<Record>) {
    forall i, j :: 0 <= i < j < |records| ==> records[i].timestamp <= records[j].timestamp
  }

  function Rebuild(records: seq<Record>, codec: Codec, maximum: nat): (t: Tape)
    requires Increasing(records)
    ensures records != [] ==> t.base <= records[|records| - 1].timestamp <= t.base + |t.pcm|
    ensures records != [] ==>
            t.base + |t.pcm| >= records[|records| - 1].timestamp + |records[|records| - 1].packet.payload|
  {
    if records == [] then Tape([], 0, 0, 0)
    else if |records| == 1 then Lay(Tape([], records[0].timestamp, 0, 0), records[0], codec, maximum)
    else
      var front, last := records[..|records| - 1], records[|records| - 1];
      assert front[|front| - 1].timestamp <= last.timestamp;
      Lay(Rebuild(front, codec, maximum), last, codec, maximum)
  }

  /** The overlap of a record with what is on the tape differs. */
  predicate Conflicts(pcm: seq<int16>, decoded: seq<int16>, start: nat, overlap: nat)
    requires overlap <= |decoded| && start + overlap <= |pcm|
  {
    decoded[..overlap] != pcm[start..start + overlap]
  }

  lemma LayOver(t: Tape, r: Record, codec: Codec, maximum: nat, decoded: seq<int16>, start: nat, overlap: nat)
    requires r.timestamp >= t.base && start == r.timestamp - t.base < |t.pcm|
    requires decoded == Decode(r.packet.payload, codec) && overlap == Min(|decoded|, |t.pcm| - start)
    ensures var conflict := if Conflicts(t.pcm, decoded, start, overlap) then 1 else 0;
            && Lay(t, r, codec, maximum) ==
                 Tape(t.pcm + decoded[overlap..], t.base, t.discontinuities + conflict, t.conflicts + conflict)
            && (overlap == |decoded| ==> t.pcm + decoded[overlap..] == t.pcm)
            && (overlap == 0 ==> conflict == 0)
  {
  }

  /** One turn of the loop of resultLocked. */
  method LayRecord(t: Tape, record: Record, codec: Codec, maximum: nat) returns (r: Tape)
    requires record.timestamp >= t.base
    ensures r == Lay(t, record, codec, maximum)
  {
    var pcm, base, discontinuities, conflicts := t.pcm, t.base, t.discontinuities, t.conflicts;
    var start := record.timestamp - base;
    if start > |pcm| {
      var gap := start - |pcm|;
      if gap > maximum {
        discontinuities := discontinuities + 1;
        base := record.timestamp - |pcm|;
        start := |pcm|;
      } else {
        pcm := pcm + Zeros(gap);
      }
    }
    var decoded := Decode(record.packet.payload, codec);
    if start < |pcm| {
      var overlap := Min(|decoded|, |pcm| - start);
      LayOver(t, record, codec, maximum, decoded, start, overlap);
      if overlap > 0 && Conflicts(pcm, decoded, start, overlap) {
        discontinuities := discontinuities + 1;
        conflicts := conflicts + 1;
      }
      if overlap < |decoded| {
        pcm := pcm + decoded[overlap..];
      }
    } else {
      pcm := pcm + decoded;
    }
    r := Tape(pcm, base, discontinuities, conflicts);
  }

  method Reconstruct(records: seq<Record>, codec: Codec, maximum: nat) returns (tape: Tape)
    requires Increasing(records)
    ensures tape == Rebuild(records, codec, maximum)
  {
    tape := Tape([], 0, 0, 0);
    for index := 0 to |records|
      invariant Increasing(records[..index])
      invariant tape == Rebuild(records[..index], codec, maximum)
    {
      assert records[..index + 1][..index] == records[..index];
      if index == 0 {
        tape := tape.(base := records[0].timestamp);
      } else {
        assert records[..index][index - 1].timestamp <= records[index].timestamp;
      }
      tape := LayRecord(tape, records[index], codec, maximum);
    }
    assert records[..|records|] == records;
  }

  // The timeline itself: an offset for every record, and the first record that covers a position wins.

  function LengthAt(records: seq<Record>, offsets: seq<int>): int
    requires |offsets| == |records|
  {
    if records == [] then 0
    else Max(LengthAt(records[..|records| - 1], offsets[..|offsets| - 1]),
             offsets[|offsets| - 1] + |records[|records| - 1].packet.payload|)
  }

  /** Each record lies as far behind the one before as its timestamp says, unless that leaves too long a gap. */
  function Layout(records: seq<Record>, maximum: nat): (offsets: seq<int>)
    ensures |offsets| == |records|
  {
    if records == [] then []
    else if |records| == 1 then [0]
    else
      var front, last := records[..|records| - 1], records[|records| - 1];
      var offsets := Layout(front, maximum);
      var nominal := offsets[|offsets| - 1] + last.timestamp - front[|front| - 1].timestamp;
      var end := LengthAt(front, offsets);
      offsets + [if nominal - end > maximum then end else nominal]
  }

  predicate Covers(records: seq<Record>, offsets: seq<int>, i: int, k: int)
    requires |offsets| == |records| && 0 <= i < |records|
  {
    offsets[i] <= k < offsets[i] + |records[i].packet.payload|
  }

  /** The first record that covers position k; the number of records if none does. */
  function FirstCover(records: seq<Record>, offsets: seq<int>, k: int): (r: nat)
    requires |offsets| == |records|
    ensures r <= |records|
    ensures r < |records| ==> Covers(records, offsets, r, k)
    ensures forall i :: 0 <= i < r ==> !Covers(records, offsets, i, k)
  {
    if records == [] then 0 else
      var front := FirstCover(records[..|records| - 1], offsets[..|offsets| - 1], k);
      assert forall i :: 0 <= i < |records| - 1 ==>
        Covers(records, offsets, i, k) == Covers(records[..|records| - 1], offsets[..|offsets| - 1], i, k);
      if front < |records| - 1 then front
      else if Covers(records, offsets, |records| - 1, k) then |records| - 1
      else |records|
  }

  /** The sample of the first record that covers position k, or silence. */
  function SampleAt(records: seq<Record>, offsets: seq<int>, codec: Codec, k: int): int16
    requires |offsets| == |records|
  {
    var i := FirstCover(records, offsets, k);
    if i < |records| then DecodeSample(records[i].packet.payload[k - offsets[i]], codec) else 0
  }

  ghost predicate Plays(records: seq<Record>, codec: Codec, maximum: nat, t: Tape) {
    var offsets := Layout(records, maximum);
    && |t.pcm| == LengthAt(records, offsets)
    && (records != [] ==> records[|records| - 1].timestamp - t.base == offsets[|offsets| - 1])
    && (forall i, j :: 0 <= i < j < |offsets| ==> 0 <= offsets[i] <= offsets[j])
    && (forall k :: 0 <= k < |t.pcm| ==> t.pcm[k] == SampleAt(records, offsets, codec, k))
  }

  lemma LengthCovers(records: seq<Record>, offsets: seq<int>, k: int)
    requires |offsets| == |records| && k >= LengthAt(records, offsets)
    ensures FirstCover(records, offsets, k) == |records|
  {
    forall i | 0 <= i < |records|
      ensures !Covers(records, offsets, i, k)
    {
      LengthBound(records, offsets, i);
    }
  }

  lemma {:induction false} LengthBound(records: seq<Record>, offsets: seq<int>, i: nat)
    requires |offsets| == |records| && i < |records|
    ensures offsets[i] + |records[i].packet.payload| <= LengthAt(records, offsets)
  {
    if i < |records| - 1 {
      LengthBound(records[..|records| - 1], offsets[..|offsets| - 1], i);
    }
  }

  /** What the loop builds is the timeline. */
  lemma {:induction false} RebuildPlays(records: seq<Record>, codec: Codec, maximum: nat)
    requires Increasing(records)
    ensures Plays(records, codec, maximum, Rebuild(records, codec, maximum))
  {
    if |records| == 1 {
      var offsets := Layout(records, maximum);
      assert LengthAt(records[..0], offsets[..0]) == 0;
      forall k | 0 <= k < |records[0].packet.payload|
        ensures SampleAt(records, offsets, codec, k) == DecodeSample(records[0].packet.payload[k], codec)
      {
        assert Covers(records, offsets, 0, k);
      }
    } else if |records| > 1 {
      RebuildPlays(records[..|records| - 1], codec, maximum);
      PlaysStep(records, codec, maximum);
    }
  }

  /** A silent position lies before the last record's offset. */
  lemma UncoveredEarly(records: seq<Record>, offsets: seq<int>, k: int)
    requires |offsets| == |records| && records != [] && 0 <= k < LengthAt(records, offsets)
    requires forall i, j :: 0 <= i < j < |offsets| ==> offsets[i] <= offsets[j]
    requires FirstCover(records, offsets, k) == |records|
    ensures k < offsets[|offsets| - 1]
  {
    var j := LongestReach(records, offsets);
    assert !Covers(records, offsets, j, k);
  }

  lemma {:induction false} LongestReach(records: seq<Record>, offsets: seq<int>) returns (j: nat)
    requires |offsets| == |records| && LengthAt(records, offsets) > 0
    ensures j < |records| && offsets[j] + |records[j].packet.payload| == LengthAt(records, offsets)
  {
    j := |records| - 1;
    if offsets[j] + |records[j].packet.payload| != LengthAt(records, offsets) {
      j := LongestReach(records[..|records| - 1], offsets[..|offsets| - 1]);
    }
  }

  /** Where Lay puts a record. */
  function OffsetOf(t: Tape, r: Record, maximum: nat): int {
    if r.timestamp - t.base - |t.pcm| > maximum then |t.pcm| else r.timestamp - t.base
  }

  lemma LayShape(t: Tape, r: Record, codec: Codec, maximum: nat)
    requires r.timestamp >= t.base
    ensures var t', o := Lay(t, r, codec, maximum), OffsetOf(t, r, maximum);
            && r.timestamp - t'.base == o
            && |t'.pcm| == Max(|t.pcm|, o + |r.packet.payload|)
            && t.pcm <= t'.pcm
            && (forall k :: |t.pcm| <= k < |t'.pcm| ==>
                  t'.pcm[k] == if o <= k < o + |r.packet.payload| then DecodeSample(r.packet.payload[k - o], codec)
                               else 0)
  {
  }

  lemma PlaysNext(records: seq<Record>, codec: Codec, maximum: nat, t: Tape)
    requires Increasing(records) && |records| > 1 && Plays(records[..|records| - 1], codec, maximum, t)
    requires Layout(records, maximum)
             == Layout(records[..|records| - 1], maximum) + [OffsetOf(t, records[|records| - 1], maximum)]
    requires records[|records| - 1].timestamp >= t.base
    ensures Plays(records, codec, maximum, Lay(t, records[|records| - 1], codec, maximum))
  {
    var front, last := records[..|records| - 1], records[|records| - 1];
    var before, offsets := Layout(front, maximum), Layout(records, maximum);
    LayShape(t, last, codec, maximum);
    assert offsets[..|front|] == before;
    PlaysOffsets(records, codec, maximum, t);
    PlaysSamples(records, codec, maximum, t);
  }

  lemma PlaysStep(records: seq<Record>, codec: Codec, maximum: nat)
    requires Increasing(records) && |records| > 1
    requires Plays(records[..|records| - 1], codec, maximum, Rebuild(records[..|records| - 1], codec, maximum))
    ensures Plays(records, codec, maximum, Rebuild(records, codec, maximum))
  {
    var front, last := records[..|records| - 1], records[|records| - 1];
    var t := Rebuild(front, codec, maximum);
    assert front[|front| - 1].timestamp <= last.timestamp;
    assert Layout(records, maximum) == Layout(front, maximum) + [OffsetOf(t, last, maximum)];
    PlaysNext(records, codec, maximum, t);
  }

  lemma PlaysOffsets(records: seq<Record>, codec: Codec, maximum: nat, t: Tape)
    requires Increasing(records) && |records| > 1 && Plays(records[..|records| - 1], codec, maximum, t)
    requires Layout(records, maximum)
             == Layout(records[..|records| - 1], maximum) + [OffsetOf(t, records[|records| - 1], maximum)]
    ensures var offsets := Layout(records, maximum);
            forall i, j :: 0 <= i < j < |offsets| ==> 0 <= offsets[i] <= offsets[j]
  {
    var front, last := records[..|records| - 1], records[|records| - 1];
    var before := Layout(front, maximum);
    assert front[|front| - 1].timestamp <= last.timestamp;
    LengthBound(front, before, |front| - 1);
  }

  lemma PlaysSamples(records: seq<Record>, codec: Codec, maximum: nat, t: Tape)
    requires Increasing(records) && |records| > 1 && Plays(records[..|records| - 1], codec, maximum, t)
    requires Layout(records, maximum)
             == Layout(records[..|records| - 1], maximum) + [OffsetOf(t, records[|records| - 1], maximum)]
    requires records[|records| - 1].timestamp >= t.base
    ensures var pcm, offsets := Lay(t, records[|records| - 1], codec, maximum).pcm, Layout(records, maximum);
            forall k :: 0 <= k < |pcm| ==> pcm[k] == SampleAt(records, offsets, codec, k)
  {
    var pcm, offsets := Lay(t, records[|records| - 1], codec, maximum).pcm, Layout(records, maximum);
    LayShape(t, records[|records| - 1], codec, maximum);
    PlaysOffsets(records, codec, maximum, t);
    forall k | 0 <= k < |pcm|
      ensures pcm[k] == SampleAt(records, offsets, codec, k)
    {
      PlaysSample(records, Layout(records[..|records| - 1], maximum), offsets, codec, t, pcm, k);
    }
  }

  lemma PlaysSample(records: seq<Record>, before: seq<int>, offsets: seq<int>, codec: Codec, t: Tape, pcm: seq<int16>,
                    k: nat)
    requires |offsets| == |records| > 1 && offsets[..|records| - 1] == before
    requires forall i, j :: 0 <= i < j < |offsets| ==> offsets[i] <= offsets[j]
    requires k < |pcm| && t.pcm <= pcm && |t.pcm| == LengthAt(records[..|records| - 1], before)
    requires var r, o := records[|records| - 1].packet.payload, offsets[|records| - 1];
             k >= |t.pcm| ==> pcm[k] == if o <= k < o + |r| then DecodeSample(r[k - o], codec) else 0
    requires k < |t.pcm| ==> t.pcm[k] == SampleAt(records[..|records| - 1], before, codec, k)
    ensures pcm[k] == SampleAt(records, offsets, codec, k)
  {
    var front := records[..|records| - 1];
    if k >= |t.pcm| {
      LengthCovers(front, before, k);
    } else if FirstCover(front, before, k) == |front| {
      UncoveredEarly(front, before, k);
      assert k < before[|before| - 1] == offsets[|before| - 1] <= offsets[|front|];
      assert !Covers(records, offsets, |front|, k);
    }
  }

  // Consequences.

  /** One more record only extends what is already on the tape. */
  lemma {:induction false} RebuildExtends(records: seq<Record>, n: nat, codec: Codec, maximum: nat)
    requires Increasing(records) && n <= |records|
    ensures Rebuild(records[..n], codec, maximum).pcm <= Rebuild(records, codec, maximum).pcm
  {
    if n == |records| {
      assert records[..n] == records;
    } else {
      var front, last := records[..|records| - 1], records[|records| - 1];
      assert front[..n] == records[..n];
      RebuildExtends(front, n, codec, maximum);
      if |records| > 1 {
        assert front[|front| - 1].timestamp <= last.timestamp;
        LayShape(Rebuild(front, codec, maximum), last, codec, maximum);
      }
    }
  }

  function TotalPayload(records: seq<Record>): nat {
    if records == [] then 0
    else TotalPayload(records[..|records| - 1]) + |records[|records| - 1].packet.payload|
  }

  /** The tape is never longer than the payloads and the silences that may join them. */
  lemma {:induction false} RebuildLength(records: seq<Record>, codec: Codec, maximum: nat)
    requires Increasing(records) && records != []
    ensures |Rebuild(records, codec, maximum).pcm| <= TotalPayload(records) + (|records| - 1) * maximum
  {
    if |records| > 1 {
      var front, last := records[..|records| - 1], records[|records| - 1];
      RebuildLength(front, codec, maximum);
      assert front[|front| - 1].timestamp <= last.timestamp;
      LayShape(Rebuild(front, codec, maximum), last, codec, maximum);
      assert (|records| - 1) * maximum == (|front| - 1) * maximum + maximum;
    }
  }

  function Shift(r: Record, sequence: int, timestamp: int): Record {
    r.(sequence := r.sequence + sequence, timestamp := r.timestamp + timestamp)
  }

  ghost predicate Shifted(records: seq<Record>, moved: seq<Record>, sequence: int, timestamp: int) {
    && |moved| == |records|
    && forall i :: 0 <= i < |records| ==> moved[i] == Shift(records[i], sequence, timestamp)
  }

  lemma RebuildLast(records: seq<Record>, codec: Codec, maximum: nat)
    requires Increasing(records) && |records| > 1
    ensures var front, last := records[..|records| - 1], records[|records| - 1];
            && Rebuild(front, codec, maximum).base <= last.timestamp
            && Rebuild(records, codec, maximum) == Lay(Rebuild(front, codec, maximum), last, codec, maximum)
  {
    assert records[..|records| - 1][|records| - 2].timestamp <= records[|records| - 1].timestamp;
  }

  lemma ShiftedFront(records: seq<Record>, moved: seq<Record>, sequence: int, timestamp: int)
    requires Increasing(records) && Increasing(moved) && Shifted(records, moved, sequence, timestamp) && records != []
    ensures var n := |records| - 1;
            Increasing(records[..n]) && Increasing(moved[..n]) && Shifted(records[..n], moved[..n], sequence, timestamp)
  {
  }

  predicate SameButBase(t: Tape, u: Tape, timestamp: int) {
    u == t.(base := t.base + timestamp)
  }

  /** Where counting starts does not matter to the tape. */
  lemma {:induction false} RebuildShifted(records: seq<Record>, moved: seq<Record>, sequence: int, timestamp: int,
                                          codec: Codec, maximum: nat)
    requires Increasing(records) && Increasing(moved) && Shifted(records, moved, sequence, timestamp) && records != []
    ensures SameButBase(Rebuild(records, codec, maximum), Rebuild(moved, codec, maximum), timestamp)
  {
    var n := |records| - 1;
    assert moved[n] == Shift(records[n], sequence, timestamp);
    if n == 0 {
      LayShifted(Tape([], records[0].timestamp, 0, 0), Tape([], moved[0].timestamp, 0, 0), records[0], moved[0],
                 timestamp, codec, maximum);
    } else {
      ShiftedFront(records, moved, sequence, timestamp);
      RebuildShifted(records[..n], moved[..n], sequence, timestamp, codec, maximum);
      RebuildLast(records, codec, maximum);
      RebuildLast(moved, codec, maximum);
      LayShifted(Rebuild(records[..n], codec, maximum), Rebuild(moved[..n], codec, maximum), records[n], moved[n],
                 timestamp, codec, maximum);
    }
  }

  lemma LayShifted(t: Tape, u: Tape, r: Record, moved: Record, timestamp: int, codec: Codec, maximum: nat)
    requires r.timestamp >= t.base && SameButBase(t, u, timestamp)
    requires moved.packet == r.packet && moved.timestamp == r.timestamp + timestamp
    ensures SameButBase(Lay(t, r, codec, maximum), Lay(u, moved, codec, maximum), timestamp)
  {
  }

  lemma SortIncreasing(records: seq<Record>)
    ensures Increasing(Sort(records))
  {
    var out := Sort(records);
    SortOrdered(records);
    forall i, j | 0 <= i < j < |out|
      ensures out[i].timestamp <= out[j].timestamp
    {
      assert !Before(out[j], out[i]);
    }
  }
}
