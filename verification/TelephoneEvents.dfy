/** RFC 4733 telephone events as the receiver tracks them (acceptDTMF in rtpverifier/receiver.go). */
module TelephoneEvents {
  import opened Ints
  import opened Options
  import opened Rtp

  const SECOND: int := 1_000_000_000

  datatype EventId = EventId(ssrc: uint32, timestamp: uint32, code: uint8)

  /** A packet whose payload is a telephone event of a known digit. */
  datatype EventPacket = EventPacket(id: EventId, end: bool, volume: uint8, duration: uint16)

  datatype Parsed = Short | UnknownEvent | Event(packet: EventPacket)

  datatype EventState = EventState(duration: uint16, volume: uint8, ended: bool, emitted: bool, event: int)

  datatype Emitted = Emitted(digit: char, duration: int, volume: uint8, timestamp: uint32, ssrc: uint32)

  datatype Track = Track(states: map<EventId, EventState>, events: seq<Emitted>)

  const SILENT := Track(map[], [])

  function Digit(code: uint8): Option<char> {
    if code <= 9 then Some('0' + code as char)
    else if code == 10 then Some('*')
    else if code == 11 then Some('#')
    else if code <= 15 then Some('A' + (code - 12) as char)
    else None
  }

  /** The digit of an event code that has one. */
  function Symbol(code: uint8): char {
    match Digit(code)
    case Some(digit) => digit
    case None => '?'
  }

  function Parse(p: Packet): Parsed {
    if |p.payload| < 4 then Short
    else if Digit(p.payload[0]).None? then UnknownEvent
    else
      var high: int, low: int := p.payload[2], p.payload[3];
      Event(EventPacket(EventId(p.ssrc, p.timestamp, p.payload[0]),
                        p.payload[1] >= 0x80, p.payload[1] % 0x40, high * 0x100 + low))
  }

  function Nanoseconds(duration: uint16, clockRate: int): int
    requires clockRate > 0
  {
    duration * SECOND / clockRate
  }

  /** What one event packet does to the track. */
  function Observe(t: Track, e: EventPacket, clockRate: int): Track
    requires clockRate > 0
  {
    var before := if e.id in t.states then t.states[e.id] else EventState(0, e.volume, false, false, -1);
    var heard := before.(duration := Max(before.duration, e.duration));
    if !e.end then t.(states := t.states[e.id := heard])
    else if !heard.emitted then
      Track(t.states[e.id := heard.(ended := true, emitted := true, event := |t.events|)],
            t.events + [Emitted(Symbol(e.id.code), Nanoseconds(heard.duration, clockRate), heard.volume,
                                e.id.timestamp, e.id.ssrc)])
    else
      Track(t.states[e.id := heard.(ended := true)],
            if 0 <= heard.event < |t.events|
            then t.events[heard.event := t.events[heard.event].(duration := Nanoseconds(heard.duration, clockRate))]
            else t.events)
  }

  function ObserveAll(es: seq<EventPacket>, clockRate: int): Track
    requires clockRate > 0
  {
    if es == [] then SILENT
    else Observe(ObserveAll(es[..|es| - 1], clockRate), es[|es| - 1], clockRate)
  }

  // What a track must be, said without it.

  predicate Heard(es: seq<EventPacket>, id: EventId) {
    exists i :: 0 <= i < |es| && es[i].id == id
  }

  predicate Ended(es: seq<EventPacket>, id: EventId) {
    exists i :: 0 <= i < |es| && es[i].id == id && es[i].end
  }

  /** The greatest duration reported for an event. */
  function Longest(es: seq<EventPacket>, id: EventId): uint16 {
    if es == [] then 0 else
      var rest := Longest(es[..|es| - 1], id);
      if es[|es| - 1].id == id then Max(rest, es[|es| - 1].duration) else rest
  }

  /** The packets up to the last one that ends the event. */
  function UpToLastEnd(es: seq<EventPacket>, id: EventId): seq<EventPacket> {
    if es == [] || (es[|es| - 1].id == id && es[|es| - 1].end) then es
    else UpToLastEnd(es[..|es| - 1], id)
  }

  function FirstPacket(es: seq<EventPacket>, id: EventId): (r: EventPacket)
    requires Heard(es, id)
    ensures r in es && r.id == id
  {
    if es[0].id == id then es[0] else
      assert Heard(es[1..], id) by {
        var i :| 0 <= i < |es| && es[i].id == id;
        assert es[1..][i - 1].id == id;
      }
      FirstPacket(es[1..], id)
  }

  /** The ended events, in the order their first end packets came. */
  function EndedIds(es: seq<EventPacket>): (r: seq<EventId>)
    ensures forall i, j :: 0 <= i < j < |r| ==> r[i] != r[j]
    ensures forall id :: id in r <==> Ended(es, id)
  {
    if es == [] then [] else
      var prefix, last := es[..|es| - 1], es[|es| - 1];
      var ids := EndedIds(prefix);
      assert forall id :: Ended(es, id) <==> Ended(prefix, id) || (last.id == id && last.end) by {
        forall id
          ensures Ended(es, id) <==> Ended(prefix, id) || (last.id == id && last.end)
        {
          EndedPrefix(es, id);
        }
      }
      if last.end && last.id !in ids then ids + [last.id] else ids
  }

  lemma EndedPrefix(es: seq<EventPacket>, id: EventId)
    requires es != []
    ensures Ended(es, id) <==> Ended(es[..|es| - 1], id) || (es[|es| - 1].id == id && es[|es| - 1].end)
    ensures Heard(es, id) <==> Heard(es[..|es| - 1], id) || es[|es| - 1].id == id
  {
    var prefix := es[..|es| - 1];
    if Ended(es, id) {
      var i :| 0 <= i < |es| && es[i].id == id && es[i].end;
      if i < |es| - 1 {
        assert prefix[i].id == id && prefix[i].end;
      }
    }
    if Ended(prefix, id) {
      var i :| 0 <= i < |prefix| && prefix[i].id == id && prefix[i].end;
      assert es[i].id == id && es[i].end;
    }
    if Heard(es, id) {
      var i :| 0 <= i < |es| && es[i].id == id;
      if i < |es| - 1 {
        assert prefix[i].id == id;
      }
    }
    if Heard(prefix, id) {
      var i :| 0 <= i < |prefix| && prefix[i].id == id;
      assert es[i].id == id;
    }
  }

  /** The event the receiver must report for an identity whose end has come. */
  function Report(es: seq<EventPacket>, id: EventId, clockRate: int): Emitted
    requires clockRate > 0 && Heard(es, id)
  {
    Emitted(Symbol(id.code), Nanoseconds(Longest(UpToLastEnd(es, id), id), clockRate),
            FirstPacket(es, id).volume, id.timestamp, id.ssrc)
  }

  ghost predicate Tracks(es: seq<EventPacket>, t: Track, clockRate: int)
    requires clockRate > 0
  {
    && (forall id :: id in t.states <==> Heard(es, id))
    && (forall id :: id in t.states ==> StateTracks(es, id, t.states[id]))
    && |t.events| == |EndedIds(es)|
    && (forall k :: 0 <= k < |t.events| ==>
        Heard(es, EndedIds(es)[k]) && t.events[k] == Report(es, EndedIds(es)[k], clockRate))
  }

  ghost predicate StateTracks(es: seq<EventPacket>, id: EventId, state: EventState)
    requires Heard(es, id)
  {
    && state.duration == Longest(es, id)
    && state.volume == FirstPacket(es, id).volume
    && state.ended == state.emitted == Ended(es, id)
    && (state.ended ==> 0 <= state.event < |EndedIds(es)| && EndedIds(es)[state.event] == id)
  }

  lemma {:induction false} FirstPacketPrefix(es: seq<EventPacket>, id: EventId)
    requires es != [] && Heard(es[..|es| - 1], id)
    ensures Heard(es, id) && FirstPacket(es, id) == FirstPacket(es[..|es| - 1], id)
  {
    EndedPrefix(es, id);
    if es[0].id != id {
      var i :| 0 <= i < |es| - 1 && es[..|es| - 1][i].id == id;
      assert es[1..][..|es[1..]| - 1] == es[..|es| - 1][1..];
      assert es[1..][..|es[1..]| - 1][i - 1].id == id;
      FirstPacketPrefix(es[1..], id);
    }
  }

  lemma {:induction false} FirstPacketLast(es: seq<EventPacket>, id: EventId)
    requires es != [] && !Heard(es[..|es| - 1], id) && es[|es| - 1].id == id
    ensures Heard(es, id) && FirstPacket(es, id) == es[|es| - 1]
  {
    EndedPrefix(es, id);
    if |es| > 1 {
      assert es[..|es| - 1][0].id != id;
      assert es[1..][..|es[1..]| - 1] == es[..|es| - 1][1..];
      var tail := es[..|es| - 1][1..];
      assert forall i :: 0 <= i < |tail| ==> tail[i].id == es[..|es| - 1][i + 1].id;
      FirstPacketLast(es[1..], id);
    }
  }

  lemma {:induction false} LongestUnheard(es: seq<EventPacket>, id: EventId)
    requires !Heard(es, id)
    ensures Longest(es, id) == 0
  {
    if es != [] {
      EndedPrefix(es, id);
      LongestUnheard(es[..|es| - 1], id);
    }
  }

  /** The receiver's running track is, packet by packet, the reports it owes. */
  lemma {:induction false} TrackReports(es: seq<EventPacket>, clockRate: int)
    requires clockRate > 0
    ensures Tracks(es, ObserveAll(es, clockRate), clockRate)
  {
    if es != [] {
      TrackReports(es[..|es| - 1], clockRate);
      TrackStep(es, clockRate);
    }
  }

  lemma EndedHeard(es: seq<EventPacket>, id: EventId)
    requires Ended(es, id)
    ensures Heard(es, id)
  {
  }

  lemma OtherUnchanged(es: seq<EventPacket>, id: EventId, clockRate: int)
    requires clockRate > 0 && es != [] && es[|es| - 1].id != id && Heard(es[..|es| - 1], id)
    ensures Heard(es, id) && Report(es, id, clockRate) == Report(es[..|es| - 1], id, clockRate)
    ensures Ended(es, id) == Ended(es[..|es| - 1], id)
    ensures FirstPacket(es, id) == FirstPacket(es[..|es| - 1], id)
  {
    EndedPrefix(es, id);
    FirstPacketPrefix(es, id);
  }

  lemma TrackStepSelf(es: seq<EventPacket>, clockRate: int)
    requires clockRate > 0 && es != []
    requires Tracks(es[..|es| - 1], ObserveAll(es[..|es| - 1], clockRate), clockRate)
    ensures var id, t' := es[|es| - 1].id, ObserveAll(es, clockRate);
            id in t'.states && Heard(es, id) && StateTracks(es, id, t'.states[id])
    ensures |ObserveAll(es, clockRate).events| == |EndedIds(es)|
  {
    var prefix, e := es[..|es| - 1], es[|es| - 1];
    EndedPrefix(es, e.id);
    if Heard(prefix, e.id) {
      FirstPacketPrefix(es, e.id);
    } else {
      FirstPacketLast(es, e.id);
      LongestUnheard(prefix, e.id);
    }
  }

  lemma TrackStepOther(es: seq<EventPacket>, id: EventId, clockRate: int)
    requires clockRate > 0 && es != [] && id != es[|es| - 1].id
    requires Tracks(es[..|es| - 1], ObserveAll(es[..|es| - 1], clockRate), clockRate)
    ensures id in ObserveAll(es, clockRate).states <==> Heard(es, id)
    ensures id in ObserveAll(es, clockRate).states ==> StateTracks(es, id, ObserveAll(es, clockRate).states[id])
  {
    EndedPrefix(es, id);
    if Heard(es, id) {
      OtherUnchanged(es, id, clockRate);
    }
  }

  /** A report of another event stays as it is. */
  lemma ObserveOther(t: Track, e: EventPacket, clockRate: int, k: nat)
    requires clockRate > 0 && k < |t.events|
             && (e.id in t.states && t.states[e.id].emitted ==> t.states[e.id].event != k)
    ensures k < |Observe(t, e, clockRate).events| && Observe(t, e, clockRate).events[k] == t.events[k]
  {
  }

  lemma EndedKept(es: seq<EventPacket>, k: nat)
    requires es != [] && k < |EndedIds(es[..|es| - 1])|
    ensures k < |EndedIds(es)| && EndedIds(es)[k] == EndedIds(es[..|es| - 1])[k]
  {
  }

  lemma TrackStepReported(es: seq<EventPacket>, k: nat, clockRate: int)
    requires clockRate > 0 && es != [] && k < |EndedIds(es[..|es| - 1])|
             && EndedIds(es[..|es| - 1])[k] != es[|es| - 1].id
    requires Tracks(es[..|es| - 1], ObserveAll(es[..|es| - 1], clockRate), clockRate)
    ensures k < |EndedIds(es)| && EndedIds(es)[k] == EndedIds(es[..|es| - 1])[k]
    ensures Heard(es, EndedIds(es)[k]) && k < |ObserveAll(es, clockRate).events|
    ensures ObserveAll(es, clockRate).events[k] == Report(es, EndedIds(es)[k], clockRate)
  {
    var prefix := es[..|es| - 1];
    var id := EndedIds(prefix)[k];
    assert id in EndedIds(prefix);
    EndedHeard(prefix, id);
    OtherUnchanged(es, id, clockRate);
    EndedKept(es, k);
    ObserveOther(ObserveAll(prefix, clockRate), es[|es| - 1], clockRate, k);
  }

  /** The report of the packet's own event follows its state. */
  lemma TrackStepOwn(es: seq<EventPacket>, k: nat, clockRate: int)
    requires clockRate > 0 && es != [] && k < |EndedIds(es)| && EndedIds(es)[k] == es[|es| - 1].id
    requires Tracks(es[..|es| - 1], ObserveAll(es[..|es| - 1], clockRate), clockRate)
    ensures Heard(es, EndedIds(es)[k]) && k < |ObserveAll(es, clockRate).events|
    ensures ObserveAll(es, clockRate).events[k] == Report(es, EndedIds(es)[k], clockRate)
  {
    var prefix, id := es[..|es| - 1], es[|es| - 1].id;
    assert id in EndedIds(es);
    EndedHeard(es, id);
    TrackStepSelf(es, clockRate);
    if k < |EndedIds(prefix)| {
      assert id in EndedIds(prefix);
      EndedHeard(prefix, id);
    }
  }

  lemma TrackStepEvent(es: seq<EventPacket>, k: nat, clockRate: int)
    requires clockRate > 0 && es != [] && k < |EndedIds(es)|
    requires Tracks(es[..|es| - 1], ObserveAll(es[..|es| - 1], clockRate), clockRate)
    ensures Heard(es, EndedIds(es)[k]) && k < |ObserveAll(es, clockRate).events|
    ensures ObserveAll(es, clockRate).events[k] == Report(es, EndedIds(es)[k], clockRate)
  {
    if EndedIds(es)[k] == es[|es| - 1].id {
      TrackStepOwn(es, k, clockRate);
    } else {
      TrackStepReported(es, k, clockRate);
    }
  }

  lemma TrackStep(es: seq<EventPacket>, clockRate: int)
    requires clockRate > 0 && es != []
    requires Tracks(es[..|es| - 1], ObserveAll(es[..|es| - 1], clockRate), clockRate)
    ensures Tracks(es, ObserveAll(es, clockRate), clockRate)
  {
    TrackStepSelf(es, clockRate);
    forall id | id != es[|es| - 1].id
      ensures id in ObserveAll(es, clockRate).states <==> Heard(es, id)
      ensures id in ObserveAll(es, clockRate).states ==> StateTracks(es, id, ObserveAll(es, clockRate).states[id])
    {
      TrackStepOther(es, id, clockRate);
    }
    forall k | 0 <= k < |EndedIds(es)|
      ensures Heard(es, EndedIds(es)[k])
              && ObserveAll(es, clockRate).events[k] == Report(es, EndedIds(es)[k], clockRate)
    {
      TrackStepEvent(es, k, clockRate);
    }
  }
}
