/** Digits end to end: RFC 4733 event packets sent, lost, repeated, and read back as the digits. */
module Dialling {
  import opened Ints
  import opened Options
  import opened Receiving
  import opened Unwrapping
  import opened Streams
  import opened Sending
  import opened Network
  import opened Results
  import opened EndToEnd
  import TE = TelephoneEvents
  import Text

  /** The full length of a digit's event, in timestamp units. */
  const EVENT_UNITS: int := 640

  // The packets of one digit, as the receiver tracks them.

  function EventOf(id: TE.EventId, i: nat): TE.EventPacket
    requires i < EVENT_PACKETS
  {
    TE.EventPacket(id, i >= FIRST_END, VOLUME, EventDuration(i))
  }

  function DigitReport(id: TE.EventId, clockRate: int): TE.Emitted
    requires clockRate > 0
  {
    TE.Emitted(TE.Symbol(id.code), TE.Nanoseconds(EVENT_UNITS, clockRate), VOLUME, id.timestamp, id.ssrc)
  }

  /** How far the receiver is with one event: nothing but this event has changed since `before`. */
  ghost predicate MidDigit(before: TE.Track, t: TE.Track, id: TE.EventId, heard: bool, ended: bool, clockRate: int)
    requires clockRate > 0
  {
    && id !in before.states
    && (!heard ==> t == before)
    && (heard ==> id in t.states && t.states == before.states[id := t.states[id]] && t.states[id].volume == VOLUME)
    && (heard && !ended ==>
          && t.events == before.events
          && 0 <= t.states[id].duration <= EVENT_UNITS && !t.states[id].emitted && !t.states[id].ended)
    && (heard && ended ==>
          && t.events == before.events + [DigitReport(id, clockRate)]
          && t.states[id] == TE.EventState(EVENT_UNITS, VOLUME, true, true, |before.events|))
    && (ended ==> heard)
  }

  lemma MidDigitStep(before: TE.Track, t: TE.Track, id: TE.EventId, heard: bool, ended: bool, i: nat, clockRate: int)
    requires clockRate > 0 && MidDigit(before, t, id, heard, ended, clockRate) && i < EVENT_PACKETS
    requires i < FIRST_END ==> !ended
    ensures MidDigit(before, TE.Observe(t, EventOf(id, i), clockRate), id, true, ended || i >= FIRST_END, clockRate)
  {
    var u := TE.Observe(t, EventOf(id, i), clockRate);
    assert u.states == before.states[id := u.states[id]];
    if ended {
      assert u.events == t.events;
    }
  }

  /** One packet of the digit, through or lost. */
  lemma MidDigitNext(before: TE.Track, t: TE.Track, u: TE.Track, id: TE.EventId, through: bool, heard: bool,
                     ended: bool, i: nat, clockRate: int)
    requires clockRate > 0 && MidDigit(before, t, id, heard, ended, clockRate) && i < EVENT_PACKETS
    requires i < FIRST_END ==> !ended
    requires u == if through then TE.Observe(t, EventOf(id, i), clockRate) else t
    ensures MidDigit(before, u, id, heard || through, ended || (through && i >= FIRST_END), clockRate)
  {
    if through {
      MidDigitStep(before, t, id, heard, ended, i, clockRate);
    }
  }

  predicate SomeThrough(digit: seq<Labeled>, ls: seq<Labeled>, from: nat, to: nat)
    requires to <= |digit|
  {
    exists k :: from <= k < to && digit[k] in ls
  }

  lemma EventsNext(c: Config, x: seq<Labeled>, l: Labeled, ls: seq<Labeled>)
    requires c.Events(l.arrival.packet) ==> TE.Parse(l.arrival.packet).Event?
    ensures Events(c, Through(x + [l], ls)) ==
              if l in ls && c.Events(l.arrival.packet)
              then Events(c, Through(x, ls)) + [TE.Parse(l.arrival.packet).packet]
              else Events(c, Through(x, ls))
  {
    assert (x + [l])[..|x|] == x;
    StreamAdd(c, Through(x, ls), l, 0);
  }

  function TrackThrough(c: Config, sent: seq<Labeled>, ls: seq<Labeled>): TE.Track
    requires c.Valid()
  {
    TE.ObserveAll(Events(c, Through(sent, ls)), c.clockRate)
  }

  lemma TrackNext(c: Config, x: seq<Labeled>, l: Labeled, ls: seq<Labeled>)
    requires c.Valid() && (c.Events(l.arrival.packet) ==> TE.Parse(l.arrival.packet).Event?)
    ensures TrackThrough(c, x + [l], ls) ==
              if l in ls && c.Events(l.arrival.packet)
              then TE.Observe(TrackThrough(c, x, ls), TE.Parse(l.arrival.packet).packet, c.clockRate)
              else TrackThrough(c, x, ls)
  {
    EventsNext(c, x, l, ls);
    var es := Events(c, Through(x, ls));
    if l in ls && c.Events(l.arrival.packet) {
      ObserveAdd(c, es, TE.Parse(l.arrival.packet).packet);
    }
  }

  function IdOf(u: Setup, line: Line, code: uint8): TE.EventId {
    TE.EventId(u.ssrc, line.timestamp % 0x1_0000_0000, code)
  }

  lemma DigitPacket(c: Config, u: Setup, line: Line, code: uint8, i: nat)
    requires Tuned(c, u, [Digit(code)]) && i < EVENT_PACKETS
    ensures var p := LabelEvent(u, line, code, i).arrival.packet;
            c.Events(p) && TE.Parse(p) == TE.Event(EventOf(IdOf(u, line, code), i))
  {
    assert TunedItem(c, u, [Digit(code)][0]);
    EventParsed(u.ssrc, (line.sequence + i) % 0x1_0000, line.timestamp % 0x1_0000_0000, u.eventPayload, code, i);
  }

  /** The receiver's track after some of a digit's packets. */
  lemma {:induction false} DigitTracked(c: Config, u: Setup, line: Line, code: uint8, x: seq<Labeled>,
                                        ls: seq<Labeled>, i: nat)
    requires Tuned(c, u, [Digit(code)]) && i <= EVENT_PACKETS
    requires IdOf(u, line, code) !in TrackThrough(c, x, ls).states
    ensures var digit := SendItem(u, line, Digit(code));
            MidDigit(TrackThrough(c, x, ls), TrackThrough(c, x + digit[..i], ls), IdOf(u, line, code),
                     SomeThrough(digit, ls, 0, i), SomeThrough(digit, ls, FIRST_END, i), c.clockRate)
  {
    var digit, before := SendItem(u, line, Digit(code)), TrackThrough(c, x, ls);
    if i == 0 {
      assert x + digit[..0] == x;
    } else {
      DigitTracked(c, u, line, code, x, ls, i - 1);
      assert digit[i - 1] == LabelEvent(u, line, code, i - 1);
      SomeNext(digit, ls, 0, i);
      SomeNext(digit, ls, FIRST_END, i);
      PacketTracked(c, u, line, code, x + digit[..i - 1], x + digit[..i], before, ls, SomeThrough(digit, ls, 0, i - 1),
                    SomeThrough(digit, ls, FIRST_END, i - 1), SomeThrough(digit, ls, 0, i),
                    SomeThrough(digit, ls, FIRST_END, i), i - 1);
    }
  }

  lemma PacketTracked(c: Config, u: Setup, line: Line, code: uint8, a: seq<Labeled>, all: seq<Labeled>,
                      before: TE.Track,
                      ls: seq<Labeled>, heard: bool, ended: bool, heardNow: bool, endedNow: bool, i: nat)
    requires Tuned(c, u, [Digit(code)]) && i < EVENT_PACKETS && (i < FIRST_END ==> !ended)
    requires MidDigit(before, TrackThrough(c, a, ls), IdOf(u, line, code), heard, ended, c.clockRate)
    requires var l := LabelEvent(u, line, code, i);
             all == a + [l] && heardNow == (heard || l in ls) && endedNow == (ended || (l in ls && i >= FIRST_END))
    ensures MidDigit(before, TrackThrough(c, all, ls), IdOf(u, line, code), heardNow, endedNow, c.clockRate)
  {
    var l := LabelEvent(u, line, code, i);
    DigitPacket(c, u, line, code, i);
    TrackNext(c, a, l, ls);
    MidDigitNext(before, TrackThrough(c, a, ls), TrackThrough(c, all, ls), IdOf(u, line, code), l in ls, heard, ended,
                 i, c.clockRate);
  }

  lemma SomeNext(digit: seq<Labeled>, ls: seq<Labeled>, from: nat, to: nat)
    requires 0 < to <= |digit|
    ensures SomeThrough(digit, ls, from, to)
            <==> SomeThrough(digit, ls, from, to - 1) || (from <= to - 1 && digit[to - 1] in ls)
  {
  }

  // A whole script.

  /** The events a receiver owes for the digits of a script. */
  function Reports(u: Setup, line: Line, items: seq<Item>, clockRate: int): seq<TE.Emitted>
    requires clockRate > 0
  {
    if items == [] then [] else
      var front, last := items[..|items| - 1], items[|items| - 1];
      match last
      case Audio(_, _) => Reports(u, line, front, clockRate)
      case Skip(_) => Reports(u, line, front, clockRate)
      case Digit(code) =>
        Reports(u, line, front, clockRate) + [DigitReport(IdOf(u, LineAfter(line, front), code), clockRate)]
  }

  /** Of every digit at least one of the three end packets comes through. */
  ghost predicate EndsThrough(u: Setup, line: Line, items: seq<Item>, ls: seq<Labeled>) {
    items == [] ||
    (var front, last := items[..|items| - 1], items[|items| - 1];
     && EndsThrough(u, line, front, ls)
     && (last.Digit? ==> SomeThrough(SendItem(u, LineAfter(line, front), last), ls, FIRST_END, EVENT_PACKETS)))
  }

  /** All events so far began before this time, and after the script did. */
  ghost predicate Past(t: TE.Track, from: int, to: int) {
    forall id :: id in t.states ==> exists m :: from <= m < to && id.timestamp == m % 0x1_0000_0000
  }

  lemma FreshId(t: TE.Track, from: int, to: int, id: TE.EventId)
    requires Past(t, from, to) && from <= to < from + 0x1_0000_0000 && id.timestamp == to % 0x1_0000_0000
    ensures id !in t.states
  {
    if id in t.states {
      var m :| from <= m < to && id.timestamp == m % 0x1_0000_0000;
      SameCycle(m, to);
    }
  }

  lemma SameCycle(m: int, n: int)
    requires m < n < m + 0x1_0000_0000
    ensures m % 0x1_0000_0000 != n % 0x1_0000_0000
  {
  }

  lemma {:induction false} LineLater(line: Line, items: seq<Item>)
    ensures LineAfter(line, items).timestamp >= line.timestamp
    ensures LineAfter(line, items).sequence >= line.sequence
  {
    if items != [] {
      LineLater(line, items[..|items| - 1]);
    }
  }

  lemma PastLater(t: TE.Track, from: int, to: int, later: int)
    requires Past(t, from, to) && to <= later
    ensures Past(t, from, later)
  {
    forall id | id in t.states
      ensures exists m :: from <= m < later && id.timestamp == m % 0x1_0000_0000
    {
      var m :| from <= m < to && id.timestamp == m % 0x1_0000_0000;
      assert from <= m < later;
    }
  }

  lemma DigitDone(c: Config, u: Setup, line: Line, code: uint8, x: seq<Labeled>, ls: seq<Labeled>, from: int)
    requires Tuned(c, u, [Digit(code)])
    requires Past(TrackThrough(c, x, ls), from, line.timestamp) && from <= line.timestamp < from + 0x1_0000_0000
    requires SomeThrough(SendItem(u, line, Digit(code)), ls, FIRST_END, EVENT_PACKETS)
    ensures var before, after := TrackThrough(c, x, ls), TrackThrough(c, x + SendItem(u, line, Digit(code)), ls);
            && after.events == before.events + [DigitReport(IdOf(u, line, code), c.clockRate)]
            && Past(after, from, line.timestamp + DIGIT_SAMPLES)
  {
    var digit, id := SendItem(u, line, Digit(code)), IdOf(u, line, code);
    var before, after := TrackThrough(c, x, ls), TrackThrough(c, x + digit, ls);
    FreshId(before, from, line.timestamp, id);
    DigitTracked(c, u, line, code, x, ls, EVENT_PACKETS);
    assert digit[..EVENT_PACKETS] == digit;
    PastLater(before, from, line.timestamp, line.timestamp + DIGIT_SAMPLES);
    assert from <= line.timestamp < line.timestamp + DIGIT_SAMPLES && id.timestamp == line.timestamp % 0x1_0000_0000;
  }

  lemma AudioDone(c: Config, u: Setup, line: Line, samples: seq<int16>, marker: bool, x: seq<Labeled>, ls: seq<Labeled>)
    requires Tuned(c, u, [Audio(samples, marker)])
    ensures TrackThrough(c, x + SendItem(u, line, Audio(samples, marker)), ls) == TrackThrough(c, x, ls)
  {
    AudioWellSent(c, u, line, samples, marker);
    TrackNext(c, x, LabelAudio(u, line, samples, marker), ls);
  }

  lemma TunedFront(c: Config, u: Setup, items: seq<Item>)
    requires Tuned(c, u, items) && items != []
    ensures Tuned(c, u, items[..|items| - 1]) && Tuned(c, u, [items[|items| - 1]])
  {
  }

  lemma {:induction false} ScriptTracked(c: Config, u: Setup, line: Line, items: seq<Item>, ls: seq<Labeled>)
    requires Tuned(c, u, items) && EndsThrough(u, line, items, ls)
    requires LineAfter(line, items).timestamp < line.timestamp + 0x1_0000_0000
    ensures TrackThrough(c, Send(u, line, items), ls).events == Reports(u, line, items, c.clockRate)
    ensures Past(TrackThrough(c, Send(u, line, items), ls), line.timestamp, LineAfter(line, items).timestamp)
  {
    if items != [] {
      var front, last := items[..|items| - 1], items[|items| - 1];
      var at, x := LineAfter(line, front), Send(u, line, front);
      LineLater(line, front);
      TunedFront(c, u, items);
      ScriptTracked(c, u, line, front, ls);
      match last {
        case Audio(samples, marker) =>
          AudioDone(c, u, at, samples, marker, x, ls);
          PastLater(TrackThrough(c, x, ls), line.timestamp, at.timestamp, at.timestamp + FRAME_SAMPLES);
        case Digit(code) =>
          DigitDone(c, u, at, code, x, ls, line.timestamp);
        case Skip(_) =>
          assert x + [] == x;
          PastLater(TrackThrough(c, x, ls), line.timestamp, at.timestamp, LineAfter(line, items).timestamp);
      }
    }
  }

  // The order of arrival.

  ghost predicate Rising(ls: seq<Labeled>) {
    forall i, j :: 0 <= i < j < |ls| ==> ls[i].sequence < ls[j].sequence
  }

  lemma {:induction false} SameRising(a: seq<Labeled>, b: seq<Labeled>)
    requires Rising(a) && Rising(b) && forall l :: l in a <==> l in b
    ensures a == b
  {
    assert b != [] ==> b[0] in b;
    if a != [] {
      assert a[0] in b && b[0] in a;
      assert a[0] == b[0];
      forall l
        ensures l in a[1..] <==> l in b[1..]
      {
        if l in a[1..] || l in b[1..] {
          assert l != a[0];
          assert l in a && l in b;
        }
      }
      SameRising(a[1..], b[1..]);
    }
  }

  lemma {:induction false} InOrderDelivered(sent: seq<Labeled>, window: nat, ls: seq<Labeled>)
    requires DeliveredInOrder(sent, ls)
    ensures Delivered(sent, window, ls)
  {
    if ls != [] {
      InOrderDelivered(sent, window, ls[..|ls| - 1]);
    }
  }

  ghost predicate BelowHigh(d: Digest) {
    Rising(d.firsts) && (d.firsts != [] ==> d.firsts[|d.firsts| - 1].sequence == d.highSequence)
  }

  lemma {:induction false} InOrderRising(sent: seq<Labeled>, ls: seq<Labeled>)
    requires DeliveredInOrder(sent, ls)
    ensures BelowHigh(DigestOf(ls))
  {
    if ls != [] {
      var front, l := ls[..|ls| - 1], ls[|ls| - 1];
      InOrderRising(sent, front);
      DigestEmpty(front);
      assert l in front <==> l in DigestOf(front).firsts;
    }
  }

  lemma {:induction false} ThroughRising(c: Config, sent: seq<Labeled>, ls: seq<Labeled>)
    requires Sequenced(c, sent)
    ensures Rising(Through(sent, ls))
  {
    if sent != [] {
      var front, l := sent[..|sent| - 1], sent[|sent| - 1];
      ThroughRising(c, front, ls);
      forall i | 0 <= i < |Through(front, ls)|
        ensures Through(front, ls)[i].sequence < l.sequence
      {
        assert Through(front, ls)[i] in Through(front, ls);
        var k :| 0 <= k < |front| && front[k] == Through(front, ls)[i];
        assert sent[k] == front[k];
      }
    }
  }

  lemma InOrderThrough(c: Config, sent: seq<Labeled>, window: nat, ls: seq<Labeled>)
    requires Sequenced(c, sent) && DeliveredInOrder(sent, ls)
    ensures DigestOf(ls).firsts == Through(sent, ls)
  {
    InOrderDelivered(sent, window, ls);
    InOrderRising(sent, ls);
    ThroughRising(c, sent, ls);
    FirstsThrough(sent, window, ls);
    SameRising(DigestOf(ls).firsts, Through(sent, ls));
  }

  // The result.

  lemma {:induction false} OneStream(events: seq<TE.Emitted>, ssrc: uint32)
    requires forall i :: 0 <= i < |events| ==> events[i].ssrc == ssrc
    ensures OfStream(events, ssrc) == events
  {
    if events != [] {
      OneStream(events[..|events| - 1], ssrc);
    }
  }

  lemma {:induction false} ReportsStream(u: Setup, line: Line, items: seq<Item>, clockRate: int)
    requires clockRate > 0
    ensures forall i :: 0 <= i < |Reports(u, line, items, clockRate)| ==>
            Reports(u, line, items, clockRate)[i].ssrc == u.ssrc
  {
    if items != [] {
      ReportsStream(u, line, items[..|items| - 1], clockRate);
    }
  }

  lemma MatchesReports(c: Config, o: Origin, d: Digest, s: State, reports: seq<TE.Emitted>)
    requires c.Valid() && Matches(c, o, d, s) && TE.ObserveAll(Events(c, d.firsts), c.clockRate).events == reports
    requires forall i :: 0 <= i < |reports| ==> reports[i].ssrc == o.ssrc
    ensures ResultOf(c, s).dtmf == reports
  {
    OneStream(reports, o.ssrc);
  }

  /**
   * Any script of at most as many packets as the receiver retains, repeated at will and thinned as long as
   * every digit keeps an end packet: when the new packets come in order, the receiver reports exactly the
   * digits of the script, in order, each with its full length.
   */
  lemma ScriptDialled(c: Config, u: Setup, line: Line, items: seq<Item>, ls: seq<Labeled>)
    requires Tuned(c, u, items) && |Send(u, line, items)| <= MAX_RETAINED && Brief(line, LineAfter(line, items))
    requires DeliveredInOrder(Send(u, line, items), ls) && EndsThrough(u, line, items, ls)
    ensures ResultOf(c, RunLabeled(c, ls)).dtmf == Reports(u, line, items, c.clockRate)
  {
    var sent, to := Send(u, line, items), LineAfter(line, items);
    ScriptWellSent(c, u, line, items);
    WellSentSequenced(c, u, line, to, sent);
    InOrderDelivered(sent, c.reorderWindow, ls);
    DeliveredIsDelivery(c, u, line, to, sent, ls);
    DeliveryMatches(c, OriginOf(u), ls);
    InOrderThrough(c, sent, c.reorderWindow, ls);
    ScriptTracked(c, u, line, items, ls);
    ReportsStream(u, line, items, c.clockRate);
    MatchesReports(c, OriginOf(u), DigestOf(ls), RunLabeled(c, ls), Reports(u, line, items, c.clockRate));
  }

  // Digit strings.

  function Heard(reports: seq<TE.Emitted>): (r: string)
    ensures |r| == |reports|
  {
    seq(|reports|, i requires 0 <= i < |reports| => reports[i].digit)
  }

  /** An event code and its digit name each other. */
  lemma CodeSymbol(digit: char)
    ensures EventCode(digit).Some? ==> EventCode(digit).value <= 15 && TE.Symbol(EventCode(digit).value) == digit
    ensures forall code: uint8 :: TE.Digit(code) == Some(digit) ==> EventCode(digit) == Some(code)
  {
  }

  lemma {:induction false} CodesOf(digits: string)
    requires Dialable(digits)
    ensures |Codes(digits)| == |digits|
    ensures forall i :: 0 <= i < |digits| ==> EventCode(Text.Upper(digits[i])) == Some(Codes(digits)[i])
  {
    if digits != [] {
      CodesOf(digits[1..]);
    }
  }

  lemma {:induction false} DigitsSent(u: Setup, line: Line, codes: seq<uint8>, clockRate: int)
    requires clockRate > 0
    ensures |Reports(u, line, Digits(codes), clockRate)| == |codes|
    ensures forall i :: 0 <= i < |codes| ==>
              && Reports(u, line, Digits(codes), clockRate)[i].digit == TE.Symbol(codes[i])
              && Reports(u, line, Digits(codes), clockRate)[i].duration == TE.Nanoseconds(EVENT_UNITS, clockRate)
  {
    if codes != [] {
      DigitsSent(u, line, codes[..|codes| - 1], clockRate);
      assert Digits(codes)[..|codes| - 1] == Digits(codes[..|codes| - 1]);
    }
  }

  lemma CodesSymbols(digits: string)
    requires Dialable(digits)
    ensures |Codes(digits)| == |digits|
    ensures forall i :: 0 <= i < |digits| ==>
            Codes(digits)[i] <= 15 && TE.Symbol(Codes(digits)[i]) == Text.Upper(digits[i])
  {
    CodesOf(digits);
    forall i | 0 <= i < |digits|
      ensures Codes(digits)[i] <= 15 && TE.Symbol(Codes(digits)[i]) == Text.Upper(digits[i])
    {
      CodeSymbol(Text.Upper(digits[i]));
    }
  }

  /** The receiver is set up for these digits. */
  lemma CodesTuned(c: Config, u: Setup, codes: seq<uint8>)
    requires Tuned(c, u, []) && c.telephoneEventPayload == u.eventPayload
             && (forall i :: 0 <= i < |codes| ==> codes[i] <= 15)
    ensures Tuned(c, u, Digits(codes))
  {
  }

  /** Up to 1666 digits dialled are the digits read back, in upper case, each an event of 640 units. */
  lemma DigitsReadBack(c: Config, u: Setup, line: Line, digits: string, ls: seq<Labeled>)
    requires Dialable(digits) && |digits| <= 1666 && Tuned(c, u, [])
    requires c.telephoneEventPayload == u.eventPayload
    requires DeliveredInOrder(Send(u, line, Digits(Codes(digits))), ls)
             && EndsThrough(u, line, Digits(Codes(digits)), ls)
    ensures var events := ResultOf(c, RunLabeled(c, ls)).dtmf;
            && Heard(events) == Text.UpperAll(digits)
            && forall i :: 0 <= i < |events| ==> events[i].duration == TE.Nanoseconds(EVENT_UNITS, c.clockRate)
  {
    var codes := Codes(digits);
    DigitLine(line, codes);
    DigitsSent(u, line, codes, c.clockRate);
    CodesSymbols(digits);
    CodesTuned(c, u, codes);
    ScriptDialled(c, u, line, Digits(codes), ls);
  }
}
