/** What accepting one RTP packet does, as a function of the receiver's state (rtpverifier/receiver.go). */
module Receiving {
  import opened Ints
  import opened Options
  import opened G711
  import opened Rtp
  import TE = TelephoneEvents

  const MAX_RETAINED: int := 10000

  datatype Config = Config(
    audioPayloads: map<uint8, Codec>,
    telephoneEventPayload: int,
    clockRate: int,
    expectedSourceIP: Option<Addr>,
    reorderWindow: nat,
    maxSynthesizedGap: nat)
  {
    predicate Audio(p: Packet) {
      p.payloadType in audioPayloads
    }

    predicate Events(p: Packet) {
      telephoneEventPayload >= 0 && p.payloadType == telephoneEventPayload
    }

    predicate Valid() {
      clockRate > 0
    }

    /** The audio and telephone-event payload types do not overlap. */
    predicate Disjoint() {
      telephoneEventPayload !in audioPayloads
    }
  }

  /** What a caller asks for, where a zero leaves the choice to the receiver. */
  datatype Settings = Settings(
    audioPayloads: map<uint8, Codec>,
    telephoneEventPayload: int,
    clockRate: int,
    expectedSourceIP: Option<Addr>,
    reorderWindow: int,
    maxSynthesizedGap: int)

  const USUAL_PAYLOADS: map<uint8, Codec> := map[8 := PCMA, 0 := PCMU]

  function Chosen(asked: int, usual: int): int {
    if asked == 0 then usual else asked
  }

  /** The configuration these settings make; none if they are out of range. */
  function Configured(s: Settings): (r: Option<Config>)
    ensures r.Some? ==>
              && r.value.Valid() && r.value.audioPayloads != map[] && r.value.reorderWindow > 0
              && r.value.maxSynthesizedGap > 0
              && -1 <= r.value.telephoneEventPayload <= 127 && r.value.telephoneEventPayload != 0
    ensures r.None? <==>
              s.telephoneEventPayload < -1 || s.telephoneEventPayload > 127
              || s.clockRate < 0 || s.reorderWindow < 0 || s.maxSynthesizedGap < 0
  {
    var event, rate := Chosen(s.telephoneEventPayload, 101), Chosen(s.clockRate, 8000);
    var window, gap := Chosen(s.reorderWindow, 10), Chosen(s.maxSynthesizedGap, 2 * TE.SECOND);
    if event < -1 || event > 127 || window < 0 || gap < 0 || rate <= 0 then None
    else
      var payloads := if s.audioPayloads == map[] then USUAL_PAYLOADS else s.audioPayloads;
      assert 8 in USUAL_PAYLOADS;
      Some(Config(payloads, event, rate, s.expectedSourceIP, window, gap))
  }

  datatype Record = Record(packet: Packet, sequence: int, timestamp: int, source: Endpoint)

  datatype Identity = Identity(ssrc: uint32, sequence: int)

  datatype Lock = Lock(ssrc: uint32, codec: Codec, source: Endpoint)

  /** Extended sequence and timestamp the LastSequence and LastTimestamp counters came from. */
  datatype LastAudio = LastAudio(sequence: int, timestamp: int)

  /** The counters of the source's Stats, but for those of audio packets. */
  datatype Stats = Stats(
    duplicates: int,
    outOfOrder: int,
    ignored: int,
    malformed: int,
    foreignSsrc: int,
    discontinuities: int,
    conflicting: int,
    codecSwitches: int)
  {
    function Ignore(): Stats { this.(ignored := ignored + 1) }

    function Foreign(): Stats { this.(foreignSsrc := foreignSsrc + 1) }

    function Switch(): Stats { this.(codecSwitches := codecSwitches + 1) }

    function Repeat(): Stats { this.(duplicates := duplicates + 1) }

    function Conflict(): Stats { this.(conflicting := conflicting + 1) }

    function Late(): Stats { this.(outOfOrder := outOfOrder + 1) }

    function Discontinue(): Stats { this.(discontinuities := discontinuities + 1) }

    function Malform(): Stats { this.(malformed := malformed + 1) }
  }

  const NO_STATS := Stats(0, 0, 0, 0, 0, 0, 0, 0)

  /** The counters of the source's Stats for audio packets. */
  datatype AudioStats = AudioStats(
    packetsReceived: int,
    firstSequence: uint16,
    lastSequence: uint16,
    firstTimestamp: uint32,
    lastTimestamp: uint32)

  const NO_AUDIO := AudioStats(0, 0, 0, 0, 0)

  datatype Arrival = Arrival(packet: Packet, source: Endpoint)

  datatype State = State(
    lock: Option<Lock>,
    highestSequence: map<uint32, int>,
    highestTimestamp: map<uint32, int>,
    seen: map<Identity, Record>,
    packets: seq<Record>,
    sequenceSpace: seq<int>,
    track: TE.Track,
    lastAudio: Option<LastAudio>,
    bufferLimitHit: bool,
    codecSwitched: bool,
    log: seq<Arrival>,
    stats: Stats,
    audioStats: AudioStats)

  const FRESH := State(None, map[], map[], map[], [], [], TE.SILENT, None, false, false, [], NO_STATS, NO_AUDIO)

  datatype Verdict =
    | Unsupported
    | WrongSource
    | ForeignStream
    | CodecSwitch
    | Duplicate(conflict: bool)
    | Stale
    | Full
    | Accepted

  predicate SamePacket(left: Packet, right: Packet) {
    left.timestamp == right.timestamp && left.payloadType == right.payloadType && left.payload == right.payload
  }

  function Lookup(m: map<uint32, int>, key: uint32): Option<int> {
    if key in m then Some(m[key]) else None
  }

  function ExtendedSequence(s: State, p: Packet): int {
    Unwrap16(p.sequence, Lookup(s.highestSequence, p.ssrc))
  }

  function ExtendedTimestamp(s: State, p: Packet): int {
    Unwrap32(p.timestamp, Lookup(s.highestTimestamp, p.ssrc))
  }

  predicate Supported(c: Config, p: Packet) {
    p.version == 2 && (c.Audio(p) || c.Events(p))
  }

  predicate SourceAllowed(c: Config, s: State, source: Endpoint) {
    && (c.expectedSourceIP.Some? ==> source.addr.Unmap() == c.expectedSourceIP.value.Unmap())
    && (s.lock.Some? ==> source == s.lock.value.source)
  }

  /** The stream the receiver is locked to once it has looked at an allowed packet. */
  function Locked(c: Config, s: State, a: Arrival): Option<Lock> {
    if c.Audio(a.packet) && s.lock.None?
    then Some(Lock(a.packet.ssrc, c.audioPayloads[a.packet.payloadType], a.source))
    else s.lock
  }

  predicate Foreign(s: State, p: Packet) {
    s.lock.Some? && p.ssrc != s.lock.value.ssrc
  }

  predicate Switched(c: Config, s: State, p: Packet) {
    s.lock.Some? && c.Audio(p) && c.audioPayloads[p.payloadType] != s.lock.value.codec
  }

  function Judge(c: Config, s: State, a: Arrival): Verdict {
    if !Supported(c, a.packet) then Unsupported
    else if !SourceAllowed(c, s, a.source) then WrongSource
    else if Foreign(s, a.packet) then ForeignStream
    else if Switched(c, s, a.packet) then CodecSwitch
    else JudgeSequence(c, s, a.packet)
  }

  /** The verdict on a packet of a stream the receiver listens to. */
  function JudgeSequence(c: Config, s: State, p: Packet): Verdict {
    var sequence := ExtendedSequence(s, p);
    var id := Identity(p.ssrc, sequence);
    if id in s.seen then Duplicate(!SamePacket(s.seen[id].packet, p))
    else if p.ssrc in s.highestSequence && sequence < s.highestSequence[p.ssrc] - c.reorderWindow then Stale
    else if |s.seen| >= MAX_RETAINED then Full
    else Accepted
  }

  function RecordOf(s: State, a: Arrival): Record {
    Record(a.packet, ExtendedSequence(s, a.packet), ExtendedTimestamp(s, a.packet), a.source)
  }

  function Raise(m: map<uint32, int>, key: uint32, value: int): map<uint32, int> {
    if key in m && value <= m[key] then m else m[key := value]
  }

  function CountAudio(stats: AudioStats, last: Option<LastAudio>, r: Record): AudioStats {
    var first := stats.packetsReceived == 0;
    AudioStats(
      stats.packetsReceived + 1,
      if first then r.packet.sequence else stats.firstSequence,
      if last.None? || r.sequence > last.value.sequence then r.packet.sequence else stats.lastSequence,
      if first then r.packet.timestamp else stats.firstTimestamp,
      if last.None? || r.timestamp > last.value.timestamp then r.packet.timestamp else stats.lastTimestamp)
  }

  function NextLast(last: Option<LastAudio>, r: Record): LastAudio {
    match last
    case None => LastAudio(r.sequence, r.timestamp)
    case Some(l) => LastAudio(Max(l.sequence, r.sequence), Max(l.timestamp, r.timestamp))
  }

  function TrackAfter(c: Config, track: TE.Track, p: Packet): TE.Track
    requires c.Valid()
  {
    if c.Events(p) && TE.Parse(p).Event? then TE.Observe(track, TE.Parse(p).packet, c.clockRate) else track
  }

  function EventStats(c: Config, stats: Stats, p: Packet): Stats {
    if !c.Events(p) then stats else
      match TE.Parse(p)
      case Short => stats.Malform().Ignore()
      case UnknownEvent => stats.Ignore()
      case Event(_) => stats
  }

  /** What a retained packet leaves, telephone events aside. */
  function Keep(c: Config, s: State, r: Record): State {
    var p := r.packet;
    var late := p.ssrc in s.highestSequence && r.sequence < s.highestSequence[p.ssrc];
    s.(
      highestSequence := Raise(s.highestSequence, p.ssrc, r.sequence),
      highestTimestamp := Raise(s.highestTimestamp, p.ssrc, r.timestamp),
      seen := s.seen[Identity(p.ssrc, r.sequence) := r],
      sequenceSpace := if s.lock.Some? && p.ssrc == s.lock.value.ssrc then s.sequenceSpace + [r.sequence]
                       else s.sequenceSpace,
      packets := if c.Audio(p) then s.packets + [r] else s.packets,
      lastAudio := if c.Audio(p) then Some(NextLast(s.lastAudio, r)) else s.lastAudio,
      stats := if late then s.stats.Late() else s.stats,
      audioStats := if c.Audio(p) then CountAudio(s.audioStats, s.lastAudio, r) else s.audioStats)
  }

  /** The state after a packet that is retained. */
  function Retain(c: Config, s: State, r: Record): State
    requires c.Valid()
  {
    var kept := Keep(c, s, r);
    kept.(track := TrackAfter(c, s.track, r.packet), stats := EventStats(c, kept.stats, r.packet))
  }

  /** How a packet that is not retained is counted. */
  function Tally(stats: Stats, verdict: Verdict, bufferLimitHit: bool): Stats {
    match verdict
    case Unsupported | WrongSource | Accepted => stats.Ignore()
    case ForeignStream => stats.Foreign().Ignore()
    case CodecSwitch => stats.Switch().Ignore()
    case Duplicate(conflict) => if conflict then stats.Repeat().Ignore().Conflict() else stats.Repeat()
    case Stale => stats.Late().Ignore()
    case Full => if bufferLimitHit then stats.Ignore() else stats.Ignore().Discontinue()
  }

  function Decide(c: Config, s: State, a: Arrival, verdict: Verdict): State
    requires c.Valid()
  {
    if verdict == Accepted then Retain(c, s, RecordOf(s, a))
    else s.(
      bufferLimitHit := s.bufferLimitHit || verdict == Full,
      codecSwitched := s.codecSwitched || verdict == CodecSwitch,
      stats := Tally(s.stats, verdict, s.bufferLimitHit))
  }

  /** The state once the packet is logged and the stream lock is taken. */
  function Noted(c: Config, s: State, a: Arrival, verdict: Verdict): State {
    s.(
      log := if |s.log| < MAX_RETAINED then s.log + [a] else s.log,
      lock := if verdict == Unsupported || verdict == WrongSource then s.lock else Locked(c, s, a))
  }

  function Step(c: Config, s: State, a: Arrival): State
    requires c.Valid()
  {
    var verdict := Judge(c, s, a);
    Decide(c, Noted(c, s, a, verdict), a, verdict)
  }

  /** A whole run from a fresh receiver. */
  function Run(c: Config, arrivals: seq<Arrival>): State
    requires c.Valid()
  {
    if arrivals == [] then FRESH
    else Step(c, Run(c, arrivals[..|arrivals| - 1]), arrivals[|arrivals| - 1])
  }
}
