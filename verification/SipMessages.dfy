/** SIP messages with their headers already read, and what a dialog makes of them (signaling.go). */
module SipMessages {
  import opened Options

  datatype Verb = INVITE | ACK | CANCEL | BYE | INFO | Other(name: string)

  datatype CSeq = CSeq(number: nat, verb: Verb)

  /** A From or To header; an empty tag is a missing one. */
  datatype Party = Party(address: string, tag: string)

  /** What parseDTMFInfo makes of a body: a status, and the digit when the status is 200. */
  datatype Signal = Signal(status: nat, digit: char)

  const NO_SIGNAL := Signal(415, ' ')

  datatype Message =
    | Request(verb: Verb, uri: string, branch: string, from: Party, to: Party, callId: string, cseq: Option<CSeq>,
              contact: string, signal: Signal)
    | Response(status: nat, branch: string, from: Party, to: Party, callId: string, cseq: Option<CSeq>,
               contact: string)

  predicate IsMatching(m: Message, callId: string, number: nat, verb: Verb) {
    m.callId == callId && m.cseq == Some(CSeq(number, verb))
  }

  /** The response copies the transaction and the parties, and adds a tag to a To that has none. */
  function ResponseFor(request: Message, status: nat, localTag: string): Message
    requires request.Request?
  {
    var to := if localTag != "" && request.to.tag == "" then Party(request.to.address, localTag) else request.to;
    Response(status, request.branch, request.from, to, request.callId, request.cseq, "")
  }

  /** The Contact an endpoint of the program puts in its own messages; an empty one is missing or unreadable. */
  const LOCAL_CONTACT := "sip:sutel"

  datatype CallParty = Nobody | Sutel | SystemUnderTest

  datatype Outcome = Outcome(inviteFinalStatus: nat, established: bool, canceled: bool, terminatedBy: CallParty)

  const NO_OUTCOME := Outcome(0, false, false, Nobody)

  datatype Dialog = Dialog(
    callId: string,
    localTag: string,
    remoteTag: string,
    local: Party,
    remote: Party,
    remoteTarget: string,
    inviteCSeq: nat,
    remoteCSeq: nat,
    localCSeq: nat,
    inviteBranch: string,
    lastInviteOK: Option<Message>,
    inviteACK: Option<Message>)
  {
    /** The next request inside the dialog. */
    function NextRequest(verb: Verb, branch: string, signal: Signal): Message {
      Request(verb, remoteTarget, branch, local, remote, callId, Some(CSeq(localCSeq + 1, verb)), LOCAL_CONTACT, signal)
    }

    function Sent(): Dialog {
      this.(localCSeq := localCSeq + 1)
    }
  }

  const NO_PARTY := Party("", "")
  const NO_DIALOG := Dialog("", "", "", NO_PARTY, NO_PARTY, "", 0, 0, 0, "", None, None)

  datatype Ending = Continues | EndedByPeer | Forked

  /** What handling one message does: the dialog after it, what is sent, which digit is recorded, how it ends. */
  datatype Handled = Handled(dialog: Dialog, sent: Option<Message>, recorded: Option<char>, ending: Ending)

  predicate RepeatsInvite(d: Dialog, m: Message)
    requires m.Request?
  {
    m.verb == INVITE && IsMatching(m, d.callId, d.inviteCSeq, INVITE) && m.branch == d.inviteBranch
      && d.lastInviteOK.Some?
  }

  predicate OfDialog(d: Dialog, m: Message)
    requires m.Request?
  {
    m.from.tag == d.remoteTag && m.to.tag == d.localTag
  }

  predicate Repeated(d: Dialog, m: Message)
    requires m.Request? && m.cseq.Some?
  {
    m.cseq.value.number <= d.remoteCSeq
  }

  function HandleResponse(d: Dialog, m: Message): Handled
    requires m.Response?
  {
    if d.inviteACK.Some? && 200 <= m.status < 300 && IsMatching(m, d.callId, d.inviteCSeq, INVITE) then
      if m.to.tag != d.remoteTag then Handled(d, None, None, Forked)
      else Handled(d, d.inviteACK, None, Continues)
    else Handled(d, None, None, Continues)
  }

  /** A request with a well-formed transaction inside the dialog. */
  function HandleInside(d: Dialog, m: Message): Handled
    requires m.Request? && m.cseq.Some?
  {
    var repeated := Repeated(d, m);
    var after := if repeated then d else d.(remoteCSeq := m.cseq.value.number);
    match m.verb
    case BYE => Handled(after, Some(ResponseFor(m, 200, "")), None, if repeated then Continues else EndedByPeer)
    case INFO =>
      Handled(after, Some(ResponseFor(m, m.signal.status, "")),
              if m.signal.status == 200 && !repeated then Some(m.signal.digit) else None, Continues)
    case _ => Handled(after, Some(ResponseFor(m, 501, "")), None, Continues)
  }

  function HandleRequest(d: Dialog, m: Message): Handled
    requires m.Request?
  {
    if m.callId != d.callId || m.verb == ACK then Handled(d, None, None, Continues)
    else if RepeatsInvite(d, m) then Handled(d, d.lastInviteOK, None, Continues)
    else if !OfDialog(d, m) then Handled(d, Some(ResponseFor(m, 481, "")), None, Continues)
    else if m.cseq.None? || m.cseq.value.verb != m.verb then Handled(d, Some(ResponseFor(m, 400, "")), None, Continues)
    else HandleInside(d, m)
  }

  function Handle(d: Dialog, m: Message): Handled {
    if m.Request? then HandleRequest(d, m) else HandleResponse(d, m)
  }

  // What that promises.

  /** Handling a message again changes nothing more: no digit twice, no second end. */
  lemma HandledOnce(d: Dialog, m: Message)
    requires m.Request?
    ensures var first := Handle(d, m);
            var again := Handle(first.dialog, m);
            && again.dialog == first.dialog && again.sent == first.sent && again.recorded == None
            && again.ending == Continues
  {
  }

  /** A digit is recorded, and the dialog ends, only for a request newer than every one before it. */
  lemma HandledFresh(d: Dialog, m: Message)
    requires m.Request?
    ensures var h := Handle(d, m);
            && h.dialog.remoteCSeq >= d.remoteCSeq
            && (h.recorded.Some? ==>
                && m.verb == INFO && h.dialog.remoteCSeq == m.cseq.value.number > d.remoteCSeq
                && h.recorded == Some(m.signal.digit))
            && (h.ending == EndedByPeer ==> m.verb == BYE && h.dialog.remoteCSeq == m.cseq.value.number > d.remoteCSeq)
  {
  }

  /** The answers to the requests of a run, and the digits they left. */
  datatype DialogRun = DialogRun(dialog: Dialog, recorded: seq<char>)

  function RunDialog(d: Dialog, ms: seq<Message>): DialogRun {
    if ms == [] then DialogRun(d, []) else
      var before := RunDialog(d, ms[..|ms| - 1]);
      var h := Handle(before.dialog, ms[|ms| - 1]);
      DialogRun(h.dialog, if h.recorded.Some? then before.recorded + [h.recorded.value] else before.recorded)
  }

  /** The requests of a run that are inside the dialog and newer than all before them. */
  predicate Counts(d: Dialog, m: Message) {
    && m.Request? && m.callId == d.callId && m.verb != ACK && !RepeatsInvite(d, m) && OfDialog(d, m)
    && m.cseq.Some? && m.cseq.value.verb == m.verb && !Repeated(d, m)
  }

  function NewRequests(d: Dialog, ms: seq<Message>): seq<Message> {
    if ms == [] then [] else
      var before := RunDialog(d, ms[..|ms| - 1]).dialog;
      var m := ms[|ms| - 1];
      if Counts(before, m) then NewRequests(d, ms[..|ms| - 1]) + [m] else NewRequests(d, ms[..|ms| - 1])
  }

  function DigitsOf(ms: seq<Message>): seq<char> {
    if ms == [] then [] else
      var m := ms[|ms| - 1];
      if m.Request? && m.verb == INFO && m.signal.status == 200 then DigitsOf(ms[..|ms| - 1]) + [m.signal.digit]
      else DigitsOf(ms[..|ms| - 1])
  }

  ghost predicate RisingCSeq(ms: seq<Message>) {
    && (forall i :: 0 <= i < |ms| ==> ms[i].Request? && ms[i].cseq.Some?)
    && (forall i, j :: 0 <= i < j < |ms| ==> ms[i].cseq.value.number < ms[j].cseq.value.number)
  }

  lemma HandledKeeps(d: Dialog, m: Message)
    ensures var h := Handle(d, m);
            && h.dialog == (if Counts(d, m) then d.(remoteCSeq := m.cseq.value.number) else d)
            && h.recorded == (if Counts(d, m) && m.verb == INFO && m.signal.status == 200 then Some(m.signal.digit)
                              else None)
  {
  }

  ghost predicate Between(ms: seq<Message>, low: int, high: int) {
    && RisingCSeq(ms) && low <= high
    && forall i :: 0 <= i < |ms| ==> low < ms[i].cseq.value.number <= high
  }

  lemma BetweenNext(ms: seq<Message>, low: int, high: int, m: Message)
    requires Between(ms, low, high) && m.Request? && m.cseq.Some? && m.cseq.value.number > high
    ensures Between(ms + [m], low, m.cseq.value.number)
    ensures DigitsOf(ms + [m]) == if m.verb == INFO && m.signal.status == 200 then DigitsOf(ms) + [m.signal.digit]
                                  else DigitsOf(ms)
  {
    assert (ms + [m])[..|ms|] == ms;
  }

  /**
   * Whatever arrives in a dialog, the recorded digits are those of a sequence of requests with strictly rising
   * numbers: repeats and late ones leave no digit.
   */
  lemma {:induction false} RunRecords(d: Dialog, ms: seq<Message>)
    ensures var r, newer := RunDialog(d, ms), NewRequests(d, ms);
            && r.recorded == DigitsOf(newer) && Between(newer, d.remoteCSeq, r.dialog.remoteCSeq)
            && r.dialog == d.(remoteCSeq := r.dialog.remoteCSeq)
  {
    if ms != [] {
      var front, m := ms[..|ms| - 1], ms[|ms| - 1];
      var before := RunDialog(d, front).dialog;
      RunRecords(d, front);
      HandledKeeps(before, m);
      if Counts(before, m) {
        BetweenNext(NewRequests(d, front), d.remoteCSeq, before.remoteCSeq, m);
      }
    }
  }
}
