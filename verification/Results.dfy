/** The result a receiver reports, as a function of its state (resultLocked in rtpverifier/receiver.go). */
module Results {
  import opened Ints
  import opened Options
  import opened G711
  import opened Receiving
  import TE = TelephoneEvents
  import Timeline
  import SequenceSpace

  datatype Result = Result(
    pcm: seq<int16>,
    dtmf: seq<TE.Emitted>,
    stats: Stats,
    audioStats: AudioStats,
    missing: int,
    incomplete: int,
    receivedDuration: int,
    events: seq<Arrival>)

  /** The longest silence, in samples at 8 kHz, the receiver fills in. */
  function GapSamples(c: Config): nat {
    c.maxSynthesizedGap * 8000 / TE.SECOND
  }

  function CodecOf(lock: Option<Lock>): Codec {
    if lock.Some? then lock.value.codec else PCMA
  }

  /** The counters with what reconstruction found added. */
  function WithTape(stats: Stats, tape: Timeline.Tape): Stats {
    stats.(
      ignored := stats.ignored + tape.conflicts,
      discontinuities := stats.discontinuities + tape.discontinuities,
      conflicting := stats.conflicting + tape.conflicts)
  }

  function OfStream(events: seq<TE.Emitted>, ssrc: uint32): seq<TE.Emitted> {
    if events == [] then []
    else OfStream(events[..|events| - 1], ssrc)
         + if events[|events| - 1].ssrc == ssrc then [events[|events| - 1]] else []
  }

  function Incomplete(s: State): set<TE.EventId> {
    set id | id in s.track.states && !s.track.states[id].ended && (s.lock.Some? ==> id.ssrc == s.lock.value.ssrc)
  }

  function ResultOf(c: Config, s: State): Result {
    Timeline.SortIncreasing(s.packets);
    var tape := Timeline.Rebuild(Timeline.Sort(s.packets), CodecOf(s.lock), GapSamples(c));
    Result(
      tape.pcm,
      if s.lock.Some? then OfStream(s.track.events, s.lock.value.ssrc) else s.track.events,
      WithTape(s.stats, tape),
      s.audioStats,
      SequenceSpace.Missing(s.sequenceSpace),
      |Incomplete(s)|,
      |tape.pcm| * TE.SECOND / 8000,
      s.log)
  }
}
