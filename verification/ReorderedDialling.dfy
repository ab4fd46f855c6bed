/** Digits whose packets arrive out of order: which are reported, how long, in what order (rtpverifier/receiver.go). */
module ReorderedDialling {
  import opened Receiving
  import opened Unwrapping
  import opened Streams
  import opened Sending
  import opened Network
  import opened Results
  import opened EndToEnd
  import opened Dialling
  import TE = TelephoneEvents

  // The event packets of a script.

  /** A packet of a digit of some script: its volume, and the length it reports, which is the full one at the end. */
  predicate FromDigit(e: TE.EventPacket) {
    e.volume == VOLUME && e.duration <= EVENT_UNITS && (e.end ==> e.duration == EVENT_UNITS)
  }

  lemma DigitEvent(id: TE.EventId, i: nat)
    requires i < EVENT_PACKETS
    ensures FromDigit(EventOf(id, i)) && EventOf(id, i).id == id
  {
  }

  /** The events of the digits of a script. */
  function Ids(u: Setup, line: Line, items: seq<Item>): seq<TE.EventId> {
    if items == [] then [] else
      var front, last := items[..|items| - 1], items[|items| - 1];
      Ids(u, line, front) + if last.Digit? then [IdOf(u, LineAfter(line, front), last.code)] else []
  }

  /** An event packet of the script. */
  ghost predicate OfScript(u: Setup, line: Line, items: seq<Item>, e: TE.EventPacket) {
    FromDigit(e) && e.id in Ids(u, line, items)
  }

  lemma {:induction false} SentEvent(c: Config, u: Setup, line: Line, items: seq<Item>, l: Labeled)
    requires Tuned(c, u, items) && l in Send(u, line, items) && c.Events(l.arrival.packet)
    ensures TE.Parse(l.arrival.packet).Event? && OfScript(u, line, items, TE.Parse(l.arrival.packet).packet)
  {
    var front, last := items[..|items| - 1], items[|items| - 1];
    var at := LineAfter(line, front);
    TunedFront(c, u, items);
    if l in Send(u, line, front) {
      SentEvent(c, u, line, front, l);
    } else {
      match last
      case Audio(samples, marker) => AudioWellSent(c, u, at, samples, marker);
      case Skip(_) =>
      case Digit(code) =>
        var i :| 0 <= i < EVENT_PACKETS && l == LabelEvent(u, at, code, i);
        DigitPacket(c, u, at, code, i);
        DigitEvent(IdOf(u, at, code), i);
    }
  }

  lemma {:induction false} EventsHas(c: Config, ls: seq<Labeled>, e: TE.EventPacket)
    ensures e in Events(c, ls) <==> exists l :: l in ls && Carries(c, l, e)
  {
    if ls != [] {
      var front, last := ls[..|ls| - 1], ls[|ls| - 1];
      EventsHas(c, front, e);
      assert ls == front + [last];
      if l :| l in front && Carries(c, l, e) {
        assert l in ls;
      }
      if Carries(c, last, e) {
        assert last in ls;
      }
    }
  }

  predicate Carries(c: Config, l: Labeled, e: TE.EventPacket) {
    Readable(c, l.arrival.packet) && TE.Parse(l.arrival.packet).packet == e
  }

  /** An end packet of the event came through. */
  ghost predicate EndCame(c: Config, ls: seq<Labeled>, id: TE.EventId) {
    exists l :: l in ls && Ends(c, l, id)
  }

  predicate Ends(c: Config, l: Labeled, id: TE.EventId) {
    Readable(c, l.arrival.packet) && TE.Parse(l.arrival.packet).packet.id == id && TE.Parse(l.arrival.packet).packet.end
  }

  lemma EndedIffCame(c: Config, ls: seq<Labeled>, id: TE.EventId)
    ensures TE.Ended(Events(c, ls), id) <==> EndCame(c, ls, id)
  {
    var es := Events(c, ls);
    if TE.Ended(es, id) {
      var i :| 0 <= i < |es| && es[i].id == id && es[i].end;
      EventsHas(c, ls, es[i]);
      var l :| l in ls && Carries(c, l, es[i]);
      assert Ends(c, l, id);
    }
    if l :| l in ls && Ends(c, l, id) {
      EventsHas(c, ls, TE.Parse(l.arrival.packet).packet);
    }
  }

  // The reports.

  lemma {:induction false} LongestFull(es: seq<TE.EventPacket>, id: TE.EventId)
    requires forall i :: 0 <= i < |es| ==> FromDigit(es[i])
    ensures TE.Longest(es, id) <= EVENT_UNITS
    ensures es != [] && es[|es| - 1].id == id && es[|es| - 1].end ==> TE.Longest(es, id) == EVENT_UNITS
  {
    if es != [] {
      LongestFull(es[..|es| - 1], id);
    }
  }

  lemma {:induction false} UpToEnd(es: seq<TE.EventPacket>, id: TE.EventId)
    requires TE.Ended(es, id)
    ensures var r := TE.UpToLastEnd(es, id);
            r <= es && r != [] && r[|r| - 1].id == id && r[|r| - 1].end
  {
    TE.EndedPrefix(es, id);
    if !(es[|es| - 1].id == id && es[|es| - 1].end) {
      UpToEnd(es[..|es| - 1], id);
    }
  }

  lemma ReportFull(es: seq<TE.EventPacket>, id: TE.EventId, clockRate: int)
    requires clockRate > 0 && TE.Ended(es, id) && TE.Heard(es, id) && forall i :: 0 <= i < |es| ==> FromDigit(es[i])
    ensures TE.Report(es, id, clockRate) == DigitReport(id, clockRate)
  {
    UpToEnd(es, id);
    LongestFull(TE.UpToLastEnd(es, id), id);
    assert TE.FirstPacket(es, id) in es;
  }

  function ReportsOf(ids: seq<TE.EventId>, clockRate: int): (r: seq<TE.Emitted>)
    requires clockRate > 0
    ensures |r| == |ids| && forall i :: 0 <= i < |r| ==> r[i] == DigitReport(ids[i], clockRate)
  {
    seq(|ids|, i requires 0 <= i < |ids| => DigitReport(ids[i], clockRate))
  }

  lemma TrackFull(es: seq<TE.EventPacket>, clockRate: int)
    requires clockRate > 0 && forall i :: 0 <= i < |es| ==> FromDigit(es[i])
    ensures TE.ObserveAll(es, clockRate).events == ReportsOf(TE.EndedIds(es), clockRate)
  {
    var ids, events := TE.EndedIds(es), TE.ObserveAll(es, clockRate).events;
    TE.TrackReports(es, clockRate);
    forall k | 0 <= k < |ids|
      ensures events[k] == DigitReport(ids[k], clockRate)
    {
      assert ids[k] in ids;
      ReportFull(es, ids[k], clockRate);
    }
  }

  lemma FirstsFromDigits(c: Config, u: Setup, line: Line, items: seq<Item>, firsts: seq<Labeled>)
    requires Tuned(c, u, items) && forall l :: l in firsts ==> l in Send(u, line, items)
    ensures forall i :: 0 <= i < |Events(c, firsts)| ==> OfScript(u, line, items, Events(c, firsts)[i])
  {
    var es := Events(c, firsts);
    forall i | 0 <= i < |es|
      ensures OfScript(u, line, items, es[i])
    {
      EventsHas(c, firsts, es[i]);
      var l :| l in firsts && Carries(c, l, es[i]);
      SentEvent(c, u, line, items, l);
    }
  }

  lemma {:induction false} OneSource(u: Setup, line: Line, items: seq<Item>, id: TE.EventId)
    requires id in Ids(u, line, items)
    ensures id.ssrc == u.ssrc
  {
    if id in Ids(u, line, items[..|items| - 1]) {
      OneSource(u, line, items[..|items| - 1], id);
    }
  }

  lemma ReportedOnce(c: Config, u: Setup, line: Line, items: seq<Item>, es: seq<TE.EventPacket>)
    requires c.Valid() && forall i :: 0 <= i < |es| ==> OfScript(u, line, items, es[i])
    ensures TE.ObserveAll(es, c.clockRate).events == ReportsOf(TE.EndedIds(es), c.clockRate)
    ensures forall i :: 0 <= i < |TE.EndedIds(es)| ==> TE.EndedIds(es)[i].ssrc == u.ssrc
  {
    var ids := TE.EndedIds(es);
    TrackFull(es, c.clockRate);
    forall i | 0 <= i < |ids|
      ensures ids[i].ssrc == u.ssrc
    {
      assert ids[i] in ids;
      var k :| 0 <= k < |es| && es[k].id == ids[i];
      OneSource(u, line, items, ids[i]);
    }
  }

  lemma ScriptMatches(c: Config, u: Setup, line: Line, items: seq<Item>, ls: seq<Labeled>)
    requires Tuned(c, u, items) && |Send(u, line, items)| <= MAX_RETAINED && Brief(line, LineAfter(line, items))
    requires Delivered(Send(u, line, items), c.reorderWindow, ls)
    ensures Matches(c, OriginOf(u), DigestOf(ls), RunLabeled(c, ls))
  {
    ScriptWellSent(c, u, line, items);
    DeliveredIsDelivery(c, u, line, LineAfter(line, items), Send(u, line, items), ls);
    DeliveryMatches(c, OriginOf(u), ls);
  }

  lemma ReportsHeld(c: Config, u: Setup, line: Line, items: seq<Item>, d: Digest, s: State)
    requires Tuned(c, u, items) && Matches(c, OriginOf(u), d, s)
             && (forall l :: l in d.firsts ==> l in Send(u, line, items))
    ensures ResultOf(c, s).dtmf == ReportsOf(TE.EndedIds(Events(c, d.firsts)), c.clockRate)
  {
    var es := Events(c, d.firsts);
    FirstsFromDigits(c, u, line, items, d.firsts);
    ReportedOnce(c, u, line, items, es);
    MatchesReports(c, OriginOf(u), d, s, ReportsOf(TE.EndedIds(es), c.clockRate));
  }

  lemma CameThrough(c: Config, sent: seq<Labeled>, window: nat, ls: seq<Labeled>)
    requires Delivered(sent, window, ls)
    ensures Distinct(Came(c, ls)) && forall id :: id in Came(c, ls) <==> EndCame(c, ls, id)
  {
    DigestEmpty(ls);
    forall id
      ensures id in TE.EndedIds(Events(c, DigestOf(ls).firsts)) <==> EndCame(c, ls, id)
    {
      EndedIffCame(c, DigestOf(ls).firsts, id);
      CameSame(c, DigestOf(ls).firsts, ls, id);
    }
  }

  /** Which events ended, in the order in which their first end packets came. */
  function Came(c: Config, ls: seq<Labeled>): seq<TE.EventId> {
    TE.EndedIds(Events(c, DigestOf(ls).firsts))
  }

  lemma ReportsCame(c: Config, u: Setup, line: Line, items: seq<Item>, ls: seq<Labeled>)
    requires Tuned(c, u, items) && |Send(u, line, items)| <= MAX_RETAINED && Brief(line, LineAfter(line, items))
    requires Delivered(Send(u, line, items), c.reorderWindow, ls)
    ensures ResultOf(c, RunLabeled(c, ls)).dtmf == ReportsOf(Came(c, ls), c.clockRate)
  {
    ScriptMatches(c, u, line, items, ls);
    FirstsSent(Send(u, line, items), c.reorderWindow, ls);
    ReportsHeld(c, u, line, items, DigestOf(ls), RunLabeled(c, ls));
  }

  /**
   * Any script through any network: one report for each digit of which an end packet came through, each of
   * full length, in the order in which their first end packets came.
   */
  lemma ReorderedDialled(c: Config, u: Setup, line: Line, items: seq<Item>, ls: seq<Labeled>)
    requires Tuned(c, u, items) && |Send(u, line, items)| <= MAX_RETAINED && Brief(line, LineAfter(line, items))
    requires Delivered(Send(u, line, items), c.reorderWindow, ls)
    ensures ResultOf(c, RunLabeled(c, ls)).dtmf == ReportsOf(Came(c, ls), c.clockRate)
    ensures Distinct(Came(c, ls)) && forall id :: id in Came(c, ls) <==> EndCame(c, ls, id)
  {
    ReportsCame(c, u, line, items, ls);
    CameThrough(c, Send(u, line, items), c.reorderWindow, ls);
  }

  lemma CameSame(c: Config, a: seq<Labeled>, b: seq<Labeled>, id: TE.EventId)
    requires forall l :: l in a <==> l in b
    ensures EndCame(c, a, id) <==> EndCame(c, b, id)
  {
    if l :| l in a && Ends(c, l, id) {
      assert l in b;
    }
    if l :| l in b && Ends(c, l, id) {
      assert l in a;
    }
  }

  // All digits, in some order.

  ghost predicate Distinct(ids: seq<TE.EventId>) {
    forall i, j :: 0 <= i < j < |ids| ==> ids[i] != ids[j]
  }

  lemma ReportsSplit(ids: seq<TE.EventId>, k: nat, clockRate: int)
    requires clockRate > 0 && k < |ids|
    ensures ReportsOf(ids, clockRate)
            == ReportsOf(ids[..k], clockRate) + [DigitReport(ids[k], clockRate)] + ReportsOf(ids[k + 1..], clockRate)
  {
  }

  lemma ReportsWithout(ids: seq<TE.EventId>, k: nat, clockRate: int)
    requires clockRate > 0 && k < |ids|
    ensures multiset(ReportsOf(ids, clockRate))
         == multiset(ReportsOf(ids[..k] + ids[k + 1..], clockRate)) + multiset{DigitReport(ids[k], clockRate)}
  {
    ReportsSplit(ids, k, clockRate);
    assert ReportsOf(ids[..k] + ids[k + 1..], clockRate)
           == ReportsOf(ids[..k], clockRate) + ReportsOf(ids[k + 1..], clockRate);
  }

  lemma SomeIn(ids: seq<TE.EventId>)
    requires ids != []
    ensures exists id :: id in ids
  {
    assert ids[0] in ids;
  }

  lemma {:induction false} SameReports(x: seq<TE.EventId>, y: seq<TE.EventId>, clockRate: int)
    requires clockRate > 0 && Distinct(x) && Distinct(y) && forall id :: id in x <==> id in y
    ensures multiset(ReportsOf(x, clockRate)) == multiset(ReportsOf(y, clockRate))
  {
    if x == [] {
      if y != [] {
        SomeIn(y);
      }
    } else {
      assert x[0] in y;
      var k :| 0 <= k < |y| && y[k] == x[0];
      var a, b := x[..0] + x[1..], y[..k] + y[k + 1..];
      ReportsWithout(x, 0, clockRate);
      ReportsWithout(y, k, clockRate);
      LeftOver(x, 0, y, k);
      SameReports(a, b, clockRate);
    }
  }

  lemma LeftOver(x: seq<TE.EventId>, i: nat, y: seq<TE.EventId>, k: nat)
    requires Distinct(x) && Distinct(y) && i < |x| && k < |y| && x[i] == y[k] && forall id :: id in x <==> id in y
    ensures var a, b := x[..i] + x[i + 1..], y[..k] + y[k + 1..];
            Distinct(a) && Distinct(b) && forall id :: id in a <==> id in b
  {
    var a, b := x[..i] + x[i + 1..], y[..k] + y[k + 1..];
    forall id
      ensures id in a <==> id in b
    {
      Removed(x, i, id);
      Removed(y, k, id);
    }
  }

  lemma Removed(x: seq<TE.EventId>, i: nat, id: TE.EventId)
    requires Distinct(x) && i < |x|
    ensures id in x[..i] + x[i + 1..] <==> id in x && id != x[i]
  {
    assert x == x[..i] + [x[i]] + x[i + 1..];
  }

  /** Every event of the script began at its own time. */
  ghost predicate Timely(ids: seq<TE.EventId>, from: int, to: int) {
    forall id :: id in ids ==> exists m :: from <= m < to && id.timestamp == m % 0x1_0000_0000
  }

  lemma {:induction false} IdsDistinct(u: Setup, line: Line, items: seq<Item>)
    requires Brief(line, LineAfter(line, items))
    ensures Distinct(Ids(u, line, items))
            && Timely(Ids(u, line, items), line.timestamp, LineAfter(line, items).timestamp)
  {
    if items != [] {
      var front, last := items[..|items| - 1], items[|items| - 1];
      var at := LineAfter(line, front);
      LineLater(line, front);
      assert at.timestamp <= LineAfter(line, items).timestamp;
      IdsDistinct(u, line, front);
      if last.Digit? {
        NewId(Ids(u, line, front), line.timestamp, at.timestamp, IdOf(u, at, last.code));
      }
      TimelyNext(Ids(u, line, front), line.timestamp, at.timestamp, LineAfter(line, items).timestamp,
                 if last.Digit? then [IdOf(u, at, last.code)] else []);
    }
  }

  lemma NewId(ids: seq<TE.EventId>, from: int, to: int, id: TE.EventId)
    requires Timely(ids, from, to) && from <= to < from + 0x8000_0000 && id.timestamp == to % 0x1_0000_0000
    ensures id !in ids
  {
    if id in ids {
      var m :| from <= m < to && id.timestamp == m % 0x1_0000_0000;
      SameCycle(m, to);
    }
  }

  lemma TimelyNext(ids: seq<TE.EventId>, from: int, at: int, to: int, more: seq<TE.EventId>)
    requires Timely(ids, from, at) && from <= at <= to
    requires more == [] || (at < to && |more| == 1 && more[0].timestamp == at % 0x1_0000_0000)
    ensures Timely(ids + more, from, to)
  {
    forall id | id in ids + more
      ensures exists m :: from <= m < to && id.timestamp == m % 0x1_0000_0000
    {
      if id in ids {
        var m :| from <= m < at && id.timestamp == m % 0x1_0000_0000;
        assert from <= m < to;
      } else {
        assert id == more[0] && from <= at < to;
      }
    }
  }

  lemma {:induction false} EndsCome(c: Config, u: Setup, line: Line, items: seq<Item>, ls: seq<Labeled>, id: TE.EventId)
    requires Tuned(c, u, items) && EndsThrough(u, line, items, ls) && id in Ids(u, line, items)
    ensures EndCame(c, ls, id)
  {
    var front, last := items[..|items| - 1], items[|items| - 1];
    var at := LineAfter(line, front);
    TunedFront(c, u, items);
    if id in Ids(u, line, front) {
      EndsCome(c, u, line, front, ls, id);
    } else {
      var digit := SendItem(u, at, last);
      var k :| FIRST_END <= k < EVENT_PACKETS && digit[k] in ls;
      DigitPacket(c, u, at, last.code, k);
      assert Ends(c, digit[k], id);
    }
  }

  lemma {:induction false} ReportsIds(u: Setup, line: Line, items: seq<Item>, clockRate: int)
    requires clockRate > 0
    ensures Reports(u, line, items, clockRate) == ReportsOf(Ids(u, line, items), clockRate)
  {
    if items != [] {
      ReportsIds(u, line, items[..|items| - 1], clockRate);
    }
  }

  lemma AllIds(c: Config, u: Setup, line: Line, items: seq<Item>, ls: seq<Labeled>, ids: seq<TE.EventId>)
    requires Tuned(c, u, items) && EndsThrough(u, line, items, ls) && forall l :: l in ls ==> l in Send(u, line, items)
    requires forall id :: id in ids <==> EndCame(c, ls, id)
    ensures forall id :: id in ids <==> id in Ids(u, line, items)
  {
    forall id
      ensures id in ids <==> id in Ids(u, line, items)
    {
      if id in ids {
        var l :| l in ls && Ends(c, l, id);
        SentEvent(c, u, line, items, l);
      }
      if id in Ids(u, line, items) {
        EndsCome(c, u, line, items, ls, id);
      }
    }
  }

  lemma AllReported(c: Config, u: Setup, line: Line, items: seq<Item>, ls: seq<Labeled>, ids: seq<TE.EventId>,
                    dtmf: seq<TE.Emitted>)
    requires Tuned(c, u, items) && Brief(line, LineAfter(line, items)) && EndsThrough(u, line, items, ls)
    requires (forall l :: l in ls ==> l in Send(u, line, items)) && Distinct(ids)
    requires dtmf == ReportsOf(ids, c.clockRate) && forall id :: id in ids <==> EndCame(c, ls, id)
    ensures multiset(dtmf) == multiset(Reports(u, line, items, c.clockRate))
  {
    ReportsIds(u, line, items, c.clockRate);
    IdsDistinct(u, line, items);
    AllIds(c, u, line, items, ls, ids);
    SameReports(ids, Ids(u, line, items), c.clockRate);
  }

  lemma AllCame(c: Config, u: Setup, line: Line, items: seq<Item>, ls: seq<Labeled>)
    requires Tuned(c, u, items) && Brief(line, LineAfter(line, items)) && EndsThrough(u, line, items, ls)
    requires Delivered(Send(u, line, items), c.reorderWindow, ls)
    ensures multiset(ReportsOf(Came(c, ls), c.clockRate)) == multiset(Reports(u, line, items, c.clockRate))
  {
    AllSent(Send(u, line, items), c.reorderWindow, ls);
    CameThrough(c, Send(u, line, items), c.reorderWindow, ls);
    AllReported(c, u, line, items, ls, Came(c, ls), ReportsOf(Came(c, ls), c.clockRate));
  }

  /** When every digit keeps an end packet, exactly the digits of the script are reported, in whatever order. */
  lemma AllDialled(c: Config, u: Setup, line: Line, items: seq<Item>, ls: seq<Labeled>)
    requires Tuned(c, u, items) && |Send(u, line, items)| <= MAX_RETAINED && Brief(line, LineAfter(line, items))
    requires Delivered(Send(u, line, items), c.reorderWindow, ls) && EndsThrough(u, line, items, ls)
    ensures multiset(ResultOf(c, RunLabeled(c, ls)).dtmf) == multiset(Reports(u, line, items, c.clockRate))
  {
    ReportsCame(c, u, line, items, ls);
    AllCame(c, u, line, items, ls);
  }

  lemma AllSent(sent: seq<Labeled>, window: nat, ls: seq<Labeled>)
    requires Delivered(sent, window, ls)
    ensures forall l :: l in ls ==> l in sent
  {
    forall l | l in ls
      ensures l in sent
    {
      DeliveredSent(sent, window, ls, l);
    }
  }

  lemma FirstsSent(sent: seq<Labeled>, window: nat, ls: seq<Labeled>)
    requires Delivered(sent, window, ls)
    ensures forall l :: l in DigestOf(ls).firsts ==> l in sent
  {
    FirstsThrough(sent, window, ls);
  }
}
