/** From what a sender sends, through a network that loses, repeats and reorders, to a delivery the receiver follows. */
module Network {
  import opened Ints
  import opened Receiving
  import opened Unwrapping
  import opened Streams
  import opened Sending
  import TE = TelephoneEvents

  /** The receiver is set up for what the sender sends. */
  predicate Tuned(c: Config, u: Setup, items: seq<Item>) {
    && c.Valid() && c.Disjoint()
    && (c.expectedSourceIP.Some? ==> u.source.addr.Unmap() == c.expectedSourceIP.value.Unmap())
    && (forall i :: 0 <= i < |items| ==> TunedItem(c, u, items[i]))
  }

  predicate TunedItem(c: Config, u: Setup, item: Item) {
    match item
    case Audio(_, _) => u.audioPayload in c.audioPayloads && c.audioPayloads[u.audioPayload] == u.codec
    case Digit(code) => c.telephoneEventPayload == u.eventPayload && code <= 15
    case Skip(_) => true
  }

  function OriginOf(u: Setup): Origin {
    Origin(u.ssrc, u.codec, u.source)
  }

  /** What every packet of a script is. */
  ghost predicate WellSent(c: Config, u: Setup, from: Line, to: Line, sent: seq<Labeled>) {
    && |sent| == to.sequence - from.sequence
    && from.timestamp <= to.timestamp
    && (forall k :: 0 <= k < |sent| ==>
          && FromOrigin(c, OriginOf(u), sent[k])
          && sent[k].sequence == from.sequence + k
          && from.timestamp <= sent[k].timestamp <= to.timestamp
          && (c.Audio(sent[k].arrival.packet) ==>
              sent[k].timestamp + FRAME_SAMPLES <= to.timestamp && |sent[k].arrival.packet.payload| == FRAME_SAMPLES))
    && (forall i, j :: 0 <= i < j < |sent| ==>
          && sent[i].timestamp <= sent[j].timestamp
          && (c.Audio(sent[i].arrival.packet) ==> sent[i].timestamp + FRAME_SAMPLES <= sent[j].timestamp))
  }

  lemma AudioWellSent(c: Config, u: Setup, line: Line, samples: seq<int16>, marker: bool)
    requires Tuned(c, u, [Audio(samples, marker)])
    ensures FromOrigin(c, OriginOf(u), LabelAudio(u, line, samples, marker))
    ensures c.Audio(LabelAudio(u, line, samples, marker).arrival.packet)
  {
    assert TunedItem(c, u, [Audio(samples, marker)][0]);
  }

  lemma EventParsed(ssrc: uint32, sequence: uint16, timestamp: uint32, payloadType: uint8, code: uint8, i: nat)
    requires i < EVENT_PACKETS && code <= 15
    ensures TE.Parse(EventPacket(ssrc, sequence, timestamp, payloadType, code, i))
         == TE.Event(TE.EventPacket(TE.EventId(ssrc, timestamp, code), i >= FIRST_END, VOLUME, EventDuration(i)))
  {
  }

  lemma EventWellSent(c: Config, u: Setup, line: Line, code: uint8, i: nat)
    requires Tuned(c, u, [Digit(code)]) && i < EVENT_PACKETS
    ensures FromOrigin(c, OriginOf(u), LabelEvent(u, line, code, i))
    ensures !c.Audio(LabelEvent(u, line, code, i).arrival.packet)
  {
    assert TunedItem(c, u, [Digit(code)][0]);
    EventParsed(u.ssrc, (line.sequence + i) % 0x1_0000, line.timestamp % 0x1_0000_0000, u.eventPayload, code, i);
  }

  lemma ItemWellSent(c: Config, u: Setup, line: Line, item: Item)
    requires Tuned(c, u, [item])
    ensures WellSent(c, u, line, line.After(item), SendItem(u, line, item))
  {
    match item
    case Audio(samples, marker) =>
      AudioWellSent(c, u, line, samples, marker);
    case Digit(code) =>
      forall i | 0 <= i < EVENT_PACKETS
        ensures FromOrigin(c, OriginOf(u), LabelEvent(u, line, code, i))
                && !c.Audio(LabelEvent(u, line, code, i).arrival.packet)
      {
        EventWellSent(c, u, line, code, i);
      }
    case Skip(_) =>
  }

  lemma WellSentJoin(c: Config, u: Setup, from: Line, middle: Line, to: Line, a: seq<Labeled>, b: seq<Labeled>)
    requires WellSent(c, u, from, middle, a) && WellSent(c, u, middle, to, b)
    ensures WellSent(c, u, from, to, a + b)
  {
    var sent := a + b;
    forall i, j | 0 <= i < j < |sent|
      ensures sent[i].timestamp <= sent[j].timestamp
      ensures c.Audio(sent[i].arrival.packet) ==> sent[i].timestamp + FRAME_SAMPLES <= sent[j].timestamp
    {
      if i < |a| <= j {
        assert sent[i] == a[i] && sent[j] == b[j - |a|];
      } else if j < |a| {
        assert sent[i] == a[i] && sent[j] == a[j];
      } else {
        assert sent[i] == b[i - |a|] && sent[j] == b[j - |a|];
      }
    }
  }

  lemma {:induction false} ScriptWellSent(c: Config, u: Setup, line: Line, items: seq<Item>)
    requires Tuned(c, u, items)
    ensures WellSent(c, u, line, LineAfter(line, items), Send(u, line, items))
  {
    if items != [] {
      var front, last := items[..|items| - 1], items[|items| - 1];
      ScriptWellSent(c, u, line, front);
      ItemWellSent(c, u, LineAfter(line, front), last);
      WellSentJoin(c, u, line, LineAfter(line, front), LineAfter(line, items), Send(u, line, front),
                   SendItem(u, LineAfter(line, front), last));
    }
  }

  /** The whole script takes less than half a cycle of the timestamp: three days at 8 kHz. */
  predicate Brief(from: Line, to: Line) {
    to.timestamp - from.timestamp < 0x8000_0000
  }

  /** A script moves the timestamp by at most a frame for every packet, if it skips nothing. */
  lemma {:induction false} ScriptSpan(u: Setup, line: Line, items: seq<Item>)
    requires forall i :: 0 <= i < |items| ==> !items[i].Skip?
    ensures LineAfter(line, items).timestamp - line.timestamp <= |Send(u, line, items)| * FRAME_SAMPLES
  {
    if items != [] {
      ScriptSpan(u, line, items[..|items| - 1]);
      assert items[|items| - 1].Audio? || items[|items| - 1].Digit?;
    }
  }

  /** Only skips can make a script long: without them, no script within the retention limit is. */
  lemma BriefWithoutSkips(u: Setup, line: Line, items: seq<Item>)
    requires (forall i :: 0 <= i < |items| ==> !items[i].Skip?) && |Send(u, line, items)| <= MAX_RETAINED
    ensures Brief(line, LineAfter(line, items))
  {
    ScriptSpan(u, line, items);
  }

  /** Any of the packets, any number of times, each new one at most the window behind the highest one before. */
  ghost predicate Delivered(sent: seq<Labeled>, window: nat, ls: seq<Labeled>) {
    ls == [] ||
    (var front, l := ls[..|ls| - 1], ls[|ls| - 1];
     && Delivered(sent, window, front)
     && l in sent
     && (l in front || front == [] || l.sequence >= DigestOf(front).highSequence - window))
  }

  /** The new packets come in the order in which they were sent. */
  ghost predicate DeliveredInOrder(sent: seq<Labeled>, ls: seq<Labeled>) {
    ls == [] ||
    (var front, l := ls[..|ls| - 1], ls[|ls| - 1];
     && DeliveredInOrder(sent, front)
     && l in sent
     && (l in front || front == [] || l.sequence > DigestOf(front).highSequence))
  }

  /** No more packets than numbers. */
  lemma {:induction false} Pigeonhole(ls: seq<Labeled>, from: int, n: nat)
    requires DistinctSequences(ls) && forall i :: 0 <= i < |ls| ==> from <= ls[i].sequence < from + n
    ensures |ls| <= n
  {
    if ls != [] {
      assert from <= ls[0].sequence < from + n;
      if k :| 0 <= k < |ls| && ls[k].sequence == from + n - 1 {
        var rest := ls[..k] + ls[k + 1..];
        Pigeonhole(rest, from, n - 1);
      } else {
        Pigeonhole(ls, from, n - 1);
      }
    }
  }

  /** What the digest of delivered packets can be. */
  ghost predicate DigestWithin(sent: seq<Labeled>, d: Digest) {
    && DistinctSequences(d.firsts)
    && (forall i :: 0 <= i < |d.firsts| ==> d.firsts[i] in sent)
    && (d.firsts != [] ==>
        exists i, j :: 0 <= i < |sent| && 0 <= j < |sent|
                       && d.highSequence == sent[i].sequence && d.highTimestamp == sent[j].timestamp)
  }

  lemma DigestWithinStep(c: Config, sent: seq<Labeled>, d: Digest, l: Labeled)
    requires DigestWithin(sent, d) && l in sent && (l in d.firsts || Novel(c, d, l))
    ensures DigestWithin(sent, d.Add(l))
  {
    if l !in d.firsts {
      var k :| 0 <= k < |sent| && sent[k] == l;
      var e := d.Add(l);
      if d.firsts != [] {
        var i, j :| 0 <= i < |sent| && 0 <= j < |sent|
                    && d.highSequence == sent[i].sequence && d.highTimestamp == sent[j].timestamp;
        var x, y := if l.sequence > d.highSequence then k else i, if l.timestamp > d.highTimestamp then k else j;
        assert e.highSequence == sent[x].sequence && e.highTimestamp == sent[y].timestamp;
      } else {
        assert e.highSequence == sent[k].sequence && e.highTimestamp == sent[k].timestamp;
      }
    }
  }

  lemma SentArrives(c: Config, u: Setup, from: Line, to: Line, sent: seq<Labeled>, d: Digest, l: Labeled)
    requires WellSent(c, u, from, to, sent) && Brief(from, to) && |sent| <= MAX_RETAINED && DigestWithin(sent, d)
             && l in sent
    requires l in d.firsts || d.firsts == [] || l.sequence >= d.highSequence - c.reorderWindow
    ensures Arrives(c, OriginOf(u), d, l)
  {
    var k :| 0 <= k < |sent| && sent[k] == l;
    if l !in d.firsts {
      forall i | 0 <= i < |d.firsts|
        ensures d.firsts[i].sequence != l.sequence
        ensures from.sequence <= d.firsts[i].sequence < from.sequence + |sent|
      {
        var j :| 0 <= j < |sent| && sent[j] == d.firsts[i];
        assert d.firsts[i] in d.firsts;
      }
      Pigeonhole(d.firsts + [l], from.sequence, |sent|);
    }
  }

  lemma {:induction false} DigestEmpty(ls: seq<Labeled>)
    ensures DigestOf(ls).firsts == [] <==> ls == []
    ensures forall l :: l in DigestOf(ls).firsts <==> l in ls
  {
    if ls != [] {
      assert ls == ls[..|ls| - 1] + [ls[|ls| - 1]];
      DigestEmpty(ls[..|ls| - 1]);
    }
  }

  /** Everything the network can do to at most as many packets as the receiver retains is a delivery. */
  lemma {:induction false} DeliveredIsDelivery(c: Config, u: Setup, from: Line, to: Line, sent: seq<Labeled>,
                                               ls: seq<Labeled>)
    requires WellSent(c, u, from, to, sent) && Brief(from, to) && |sent| <= MAX_RETAINED
    requires Delivered(sent, c.reorderWindow, ls)
    ensures Delivery(c, OriginOf(u), ls) && DigestWithin(sent, DigestOf(ls))
  {
    if ls != [] {
      var front, l := ls[..|ls| - 1], ls[|ls| - 1];
      DeliveredIsDelivery(c, u, from, to, sent, front);
      DigestEmpty(front);
      SentArrives(c, u, from, to, sent, DigestOf(front), l);
      DigestWithinStep(c, sent, DigestOf(front), l);
    }
  }
}
