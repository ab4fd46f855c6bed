/** Counting lost packets from the sequence numbers that were retained (missingPackets in rtpverifier/receiver.go). */
module SequenceSpace {
  import opened Ints

  function Values(sequences: seq<int>): set<int> {
    set x | x in sequences
  }

  function Lowest(sequences: seq<int>): (r: int)
    requires sequences != []
    ensures r in sequences && forall x :: x in sequences ==> r <= x
  {
    if |sequences| == 1 then sequences[0]
    else
      assert sequences == sequences[..|sequences| - 1] + [sequences[|sequences| - 1]];
      Min(Lowest(sequences[..|sequences| - 1]), sequences[|sequences| - 1])
  }

  function Highest(sequences: seq<int>): (r: int)
    requires sequences != []
    ensures r in sequences && forall x :: x in sequences ==> x <= r
  {
    if |sequences| == 1 then sequences[0]
    else
      assert sequences == sequences[..|sequences| - 1] + [sequences[|sequences| - 1]];
      Max(Highest(sequences[..|sequences| - 1]), sequences[|sequences| - 1])
  }

  /** The numbers between the lowest and the highest that are not among the values. */
  function Missing(sequences: seq<int>): int {
    if sequences == [] then 0
    else Highest(sequences) - Lowest(sequences) + 1 - |Values(sequences)|
  }

  function InsertNumber(x: int, sorted: seq<int>): (out: seq<int>)
    ensures multiset(out) == multiset(sorted) + multiset{x}
    ensures forall y :: y in out <==> y == x || y in sorted
  {
    if sorted == [] || x <= sorted[0] then [x] + sorted
    else
      assert sorted == [sorted[0]] + sorted[1..];
      [sorted[0]] + InsertNumber(x, sorted[1..])
  }

  function SortNumbers(xs: seq<int>): (out: seq<int>)
    ensures multiset(out) == multiset(xs)
  {
    if xs == [] then [] else
      assert xs == [xs[0]] + xs[1..];
      InsertNumber(xs[0], SortNumbers(xs[1..]))
  }

  lemma InsertedAtLeast(x: int, sorted: seq<int>, y: int)
    requires SortedNumbers(sorted) && sorted != [] && x > sorted[0] && y in InsertNumber(x, sorted[1..])
    ensures sorted[0] <= y
  {
    if y != x {
      assert y in sorted[1..];
    }
  }

  lemma {:induction false} InsertSorted(x: int, sorted: seq<int>)
    requires SortedNumbers(sorted)
    ensures SortedNumbers(InsertNumber(x, sorted))
  {
    if sorted != [] && x > sorted[0] {
      InsertSorted(x, sorted[1..]);
      var rest := InsertNumber(x, sorted[1..]);
      forall i | 0 <= i < |rest|
        ensures sorted[0] <= rest[i]
      {
        InsertedAtLeast(x, sorted, rest[i]);
      }
    }
  }

  lemma {:induction false} SortSorted(xs: seq<int>)
    ensures SortedNumbers(SortNumbers(xs))
  {
    if xs != [] {
      SortSorted(xs[1..]);
      InsertSorted(xs[0], SortNumbers(xs[1..]));
    }
  }

  ghost predicate SortedNumbers(xs: seq<int>) {
    forall i, j :: 0 <= i < j < |xs| ==> xs[i] <= xs[j]
  }

  lemma ValuesAppend(xs: seq<int>, x: int)
    ensures Values(xs + [x]) == Values(xs) + {x}
  {
  }

  lemma NextValue(xs: seq<int>, n: nat)
    requires SortedNumbers(xs) && 0 < n < |xs|
    ensures |Values(xs[..n + 1])| == |Values(xs[..n])| + (if xs[n] > xs[n - 1] then 1 else 0)
    ensures xs[n] >= xs[n - 1]
  {
    assert xs[..n + 1] == xs[..n] + [xs[n]];
    ValuesAppend(xs[..n], xs[n]);
    if xs[n] == xs[n - 1] {
      assert xs[n - 1] in xs[..n];
      assert Values(xs[..n]) + {xs[n]} == Values(xs[..n]);
    } else {
      assert xs[n] !in xs[..n];
    }
  }

  method CountMissing(values: seq<int>) returns (missing: int)
    requires SortedNumbers(values) && values != []
    ensures missing == values[|values| - 1] - values[0] + 1 - |Values(values)|
  {
    missing := 0;
    var previous := values[0];
    assert Values(values[..1]) == {previous};
    for index := 1 to |values|
      invariant previous == values[index - 1]
      invariant missing == previous - values[0] + 1 - |Values(values[..index])|
    {
      var value := values[index];
      NextValue(values, index);
      if value > previous + 1 {
        missing := missing + (value - previous - 1);
      }
      if value > previous {
        previous := value;
      }
    }
    assert values[..|values|] == values;
  }

  lemma SortMembers(xs: seq<int>, x: int)
    ensures x in SortNumbers(xs) <==> x in xs
  {
    assert x in xs <==> x in multiset(xs);
    assert x in SortNumbers(xs) <==> x in multiset(SortNumbers(xs));
  }

  lemma SortedEnds(xs: seq<int>, out: seq<int>)
    requires xs != [] && SortedNumbers(out) && forall x :: x in out <==> x in xs
    ensures out != [] && Values(out) == Values(xs) && out[0] == Lowest(xs) && out[|out| - 1] == Highest(xs)
  {
    assert xs[0] in out;
    assert out[0] in out && out[|out| - 1] in out;
    assert Lowest(xs) in out && Highest(xs) in out;
  }

  method MissingPackets(sequences: seq<int>) returns (missing: int)
    ensures missing == Missing(sequences)
  {
    if |sequences| < 2 {
      if sequences != [] {
        assert Values(sequences) == {sequences[0]};
      }
      return 0;
    }
    var values := SortNumbers(sequences);
    forall x
      ensures x in values <==> x in sequences
    {
      SortMembers(sequences, x);
    }
    SortSorted(sequences);
    SortedEnds(sequences, values);
    missing := CountMissing(values);
  }

  /** Retained and missing numbers fill the whole range. */
  lemma {:induction false} DistinctCount(sequences: seq<int>)
    requires forall i, j :: 0 <= i < j < |sequences| ==> sequences[i] != sequences[j]
    ensures |Values(sequences)| == |sequences|
  {
    if sequences != [] {
      var front, last := sequences[..|sequences| - 1], sequences[|sequences| - 1];
      DistinctCount(front);
      assert Values(sequences) == Values(front) + {last};
      assert last !in front;
    }
  }
}
