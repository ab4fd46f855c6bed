/** The retransmission schedule of the three transaction loops (dialog.go, inbound.go, outbound.go). */
module Retransmissions {
  import opened Ints

  /** The wait before the n-th retransmission, as the loops compute it. */
  function Wait(t1: nat, t2: nat, n: nat): nat {
    if n == 0 then t1 else Min(Wait(t1, t2, n - 1) * 2, t2)
  }

  ghost predicate Scheduled(waits: seq<nat>, t1: nat, t2: nat) {
    forall i :: 0 <= i < |waits| ==> waits[i] == Wait(t1, t2, i)
  }

  /** Doubling the last wait, up to T2, keeps to the schedule. */
  lemma ScheduledNext(waits: seq<nat>, t1: nat, t2: nat)
    requires waits != [] && Scheduled(waits, t1, t2)
    ensures Scheduled(waits + [Min(waits[|waits| - 1] * 2, t2)], t1, t2)
  {
    assert waits[|waits| - 1] == Wait(t1, t2, |waits| - 1);
  }

  /** T1 doubled n times. */
  function Times(t1: nat, n: nat): nat {
    if n == 0 then t1 else Times(t1, n - 1) * 2
  }

  lemma {:induction false} TimesIs(t1: nat, n: nat)
    ensures Times(t1, n) == t1 * Pow2(n)
  {
    if n > 0 {
      TimesIs(t1, n - 1);
    }
  }

  /** The n-th wait is T1 doubled n times, but never more than T2. */
  lemma {:induction false} WaitIs(t1: nat, t2: nat, n: nat)
    requires t1 <= t2
    ensures Wait(t1, t2, n) == Min(Times(t1, n), t2)
  {
    if n > 0 {
      WaitIs(t1, t2, n - 1);
    }
  }

  /** The time n retransmissions take at least: the sum of the waits that ran out. */
  function Spent(t1: nat, t2: nat, n: nat): nat {
    if n == 0 then 0 else Spent(t1, t2, n - 1) + Wait(t1, t2, n - 1)
  }

  lemma {:induction false} TimesGrows(t1: nat, k: nat, n: nat)
    requires k <= n
    ensures Times(t1, k) <= Times(t1, n)
  {
    if k < n {
      TimesGrows(t1, k, n - 1);
    }
  }

  function Multiple(n: nat, t2: nat): nat {
    n * t2
  }

  lemma MultipleNext(n: nat, t2: nat)
    ensures Multiple(0, t2) == 0 && Multiple(n + 1, t2) == Multiple(n, t2) + t2
  {
  }

  /** Once K doublings reach T2, every further wait is T2. */
  lemma {:induction false} SpentAtLeast(t1: nat, t2: nat, k: nat, n: nat)
    requires t1 <= t2 <= Times(t1, k) && k <= n
    ensures Spent(t1, t2, n) >= Multiple(n - k, t2)
  {
    if k < n {
      SpentAtLeast(t1, t2, k, n - 1);
      TimesGrows(t1, k, n - 1);
      WaitIs(t1, t2, n - 1);
      MultipleNext(n - 1 - k, t2);
    } else {
      MultipleNext(0, t2);
    }
  }

  lemma {:induction false} MultipleGrows(a: nat, b: nat, t2: nat)
    requires a <= b
    ensures Multiple(a, t2) <= Multiple(b, t2)
  {
    if a < b {
      MultipleGrows(a, b - 1, t2);
      MultipleNext(b - 1, t2);
    }
  }

  lemma Quotient(d: nat, t2: nat)
    requires t2 > 0
    ensures Multiple(d / t2, t2) <= d < Multiple(d / t2, t2) + t2
  {
  }

  lemma QuotientAtLeast(n: nat, t2: nat, d: nat)
    requires t2 > 0 && Multiple(n, t2) <= d
    ensures n <= d / t2
  {
    Quotient(d, t2);
    MultipleNext(d / t2, t2);
    if n > d / t2 {
      MultipleGrows(d / t2 + 1, n, t2);
    }
  }

  lemma SpentWithin(t1: nat, t2: nat, k: nat, n: nat, d: nat)
    requires t1 <= t2 <= Times(t1, k) && k <= n && Spent(t1, t2, n) <= d
    ensures Multiple(n - k, t2) <= d
  {
    SpentAtLeast(t1, t2, k, n);
  }

  /** T1 doubled K times is at least T2. */
  predicate Reaches(t1: nat, t2: nat, k: nat) {
    t1 <= t2 <= Times(t1, k)
  }

  /** The retransmissions after the first K. */
  function Beyond(k: nat, n: nat): nat {
    if n > k then n - k else 0
  }

  lemma BeyondWithin(t1: nat, t2: nat, k: nat, n: nat, d: nat)
    requires Reaches(t1, t2, k) && Spent(t1, t2, n) <= d
    ensures Multiple(Beyond(k, n), t2) <= d
  {
    if n > k {
      SpentWithin(t1, t2, k, n, d);
    } else {
      MultipleNext(0, t2);
    }
  }

  lemma BeyondAtMost(k: nat, n: nat, q: nat)
    requires Beyond(k, n) <= q
    ensures n <= k + q
  {
  }

  /** In time D at most K + D/T2 retransmissions, if K doublings of T1 reach T2. */
  lemma RetransmissionsBounded(t1: nat, t2: nat, k: nat, n: nat, d: nat)
    requires 0 < t2 && Reaches(t1, t2, k) && Spent(t1, t2, n) <= d
    ensures n <= k + d / t2
  {
    BeyondWithin(t1, t2, k, n, d);
    QuotientAtLeast(Beyond(k, n), t2, d);
    BeyondAtMost(k, n, d / t2);
  }

  // What that means for a loop that was armed with these waits.

  function Total(waits: seq<nat>): nat {
    if waits == [] then 0 else Total(waits[..|waits| - 1]) + waits[|waits| - 1]
  }

  lemma {:induction false} TotalIsSpent(waits: seq<nat>, t1: nat, t2: nat)
    requires Scheduled(waits, t1, t2)
    ensures Total(waits) == Spent(t1, t2, |waits|)
  {
    if waits != [] {
      TotalIsSpent(waits[..|waits| - 1], t1, t2);
    }
  }

  /** All waits but the last, which was still running, add up to at most this. */
  ghost predicate RanOutWithin(waits: seq<nat>, d: nat)
    requires waits != []
  {
    Total(waits[..|waits| - 1]) <= d
  }

  /** In any time D in which its waits ran out, a loop retransmitted at most K + D/T2 times. */
  ghost predicate Bounded(waits: seq<nat>, retransmissions: nat, t1: nat, t2: nat)
    requires waits != []
  {
    forall k: nat, d: nat :: t2 > 0 && Reaches(t1, t2, k) && RanOutWithin(waits, d) ==> retransmissions <= k + d / t2
  }

  lemma LoopBounded(waits: seq<nat>, retransmissions: nat, t1: nat, t2: nat)
    requires |waits| == 1 + retransmissions && Scheduled(waits, t1, t2)
    ensures Bounded(waits, retransmissions, t1, t2)
  {
    forall k: nat, d: nat | t2 > 0 && Reaches(t1, t2, k) && RanOutWithin(waits, d)
      ensures retransmissions <= k + d / t2
    {
      TotalIsSpent(waits[..retransmissions], t1, t2);
      RetransmissionsBounded(t1, t2, k, retransmissions, d);
    }
  }

  // Counting the timers that ran out.

  function Fired<E>(events: seq<E>, fires: E -> bool): nat {
    if events == [] then 0 else Fired(events[..|events| - 1], fires) + if fires(events[|events| - 1]) then 1 else 0
  }

  lemma FiredNext<E>(events: seq<E>, fires: E -> bool, n: nat)
    requires n < |events|
    ensures Fired(events[..n + 1], fires) == Fired(events[..n], fires) + if fires(events[n]) then 1 else 0
  {
    assert events[..n + 1][..n] == events[..n];
  }
}
