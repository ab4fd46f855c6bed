/** The called side of a call as a state machine over arbitrary input (outbound.go). */
module UserAgentServer {
  import opened Options
  import opened SipMessages

  /** The behaviours of an outbound scenario, and what they lead to after the INVITE is accepted. */
  datatype Behavior =
    | Timeout
    | Busy
    | Reject
    | NotFound
    | ServiceUnavailable
    | NoAnswer
    | Answer(omitTrying: bool)
    | EarlyMedia(sendRinging: bool)
    | EarlyFailure(omitTrying: bool, finalStatus: nat)
    | NetworkLoss
  {
    predicate Valid() {
      EarlyFailure? && finalStatus != 0 ==> 400 <= finalStatus <= 699
    }
  }

  /** Whether the offer can be met; if not, whether the refusal's send error is passed over. */
  datatype Negotiation = Agreed | NoAgreement | BadMedia

  datatype Act =
    | Listen
    | Say(status: nat)
    | Finish(status: nat, lenient: bool)
    | Ring
    | Silence

  function ActsOf(b: Behavior, negotiation: Negotiation): seq<Act> {
    match b
    case Timeout => [Silence]
    case Busy => [Finish(486, false)]
    case Reject => [Finish(603, false)]
    case NotFound => [Finish(404, false)]
    case ServiceUnavailable => [Finish(503, false)]
    case NoAnswer => [Say(100), Say(180), Ring]
    case _ =>
      if negotiation == NoAgreement then [Finish(488, false)]
      else if negotiation == BadMedia then [Finish(488, true)]
      else Agreeable(b)
  }

  /** The acts of a behaviour that needs an agreed offer. */
  function Agreeable(b: Behavior): seq<Act> {
    match b
    case Answer(omitTrying) =>
      (if omitTrying then [] else [Listen, Say(100)]) + [Listen, Say(180), Listen, Finish(200, false)]
    case EarlyMedia(sendRinging) =>
      [Say(100), Listen, Say(183)] + (if sendRinging then [Listen, Say(180)] else []) + [Listen, Finish(200, false)]
    case EarlyFailure(omitTrying, status) =>
      (if omitTrying then [] else [Listen, Say(100)])
        + [Listen, Say(183), Listen, Finish(if status == 0 then 486 else status, false)]
    case NetworkLoss => [Say(100), Say(180), Finish(200, false)]
    case _ => []
  }

  datatype Phase =
    | Idle
    | Acting(acts: seq<Act>)
    | Canceling
    | AwaitAck
    | InDialog
    | Closing(bye: Message)
    | Done

  type RefusalStatus = x: int | x == 400 || x == 404 || x == 415 || x == 488 witness 400

  /** What validateInvite decides: refuse with a status, or go on with a fresh local tag. */
  datatype Validation = Refuse(status: RefusalStatus, tag: string) | Admit(tag: string, negotiation: Negotiation)

  /** One thing that happens to the server: a message, a timer, its own next send, or a failure that ends the run. */
  datatype Event =
    | Receive(message: Message, validation: Validation)
    | Deadline
    | Retransmit
    | Proceed
    | SendLost
    | HangUp(branch: string)
    | Fail(cleanup: bool, branch: string)

  /** A message that was sent, and whether it answers the INVITE of the call. */
  datatype Sent = Sent(message: Message, toInvite: bool)

  datatype Uas = Uas(
    phase: Phase,
    lossy: bool,
    invite: Message,
    tag: string,
    dialog: Dialog,
    latest: Option<Message>,
    final: Option<Message>,
    acked: Option<Message>,
    outcome: Outcome,
    recorded: seq<char>,
    sent: seq<Sent>)
  {
    function Answers(m: Message): Uas {
      this.(sent := sent + [Sent(m, true)])
    }

    function Says(m: Message): Uas {
      this.(sent := sent + [Sent(m, false)])
    }

    function Moves(next: Phase): Uas {
      this.(phase := next)
    }
  }

  const NO_MESSAGE := Response(0, "", NO_PARTY, NO_PARTY, "", None, "")

  /** A server that is waiting for its INVITE. */
  function Waiting(b: Behavior): Uas {
    Uas(Idle, b.NetworkLoss?, NO_MESSAGE, "", NO_DIALOG, None, None, None, NO_OUTCOME, [], [])
  }

  predicate BranchOk(branch: string) {
    "z9hG4bK" <= branch
  }

  /** The INVITE is a transaction that can be acknowledged. */
  predicate ValidTransaction(m: Message) {
    m.Request? && m.verb == INVITE && m.callId != "" && m.cseq.Some? && m.cseq.value.verb == INVITE
      && BranchOk(m.branch)
  }

  predicate Admissible(m: Message) {
    ValidTransaction(m) && m.from.tag != "" && m.contact != ""
  }

  function DialogOf(m: Message, tag: string): Dialog
    requires m.Request? && m.cseq.Some?
  {
    var number := m.cseq.value.number;
    Dialog(m.callId, tag, m.from.tag, Party(m.to.address, tag), m.from, m.contact,
           number, number, number, m.branch, None, None)
  }

  /** The same INVITE again, by transaction. */
  predicate RepeatedInvite(s: Uas, m: Message) {
    && m.Request? && m.verb == INVITE && IsMatching(m, s.dialog.callId, s.dialog.inviteCSeq, INVITE)
    && m.branch == s.dialog.inviteBranch
  }

  predicate ValidCancel(s: Uas, m: Message) {
    && s.invite.Request? && m.Request? && m.verb == CANCEL
    && IsMatching(m, s.dialog.callId, s.dialog.inviteCSeq, CANCEL) && m.branch == s.dialog.inviteBranch
    && m.uri == s.invite.uri && m.from == s.invite.from && m.to == s.invite.to
  }

  predicate ValidAck(s: Uas, m: Message) {
    && s.invite.Request? && s.invite.cseq.Some? && s.final.Some? && s.final.value.Response? && m.Request?
    && m.verb == ACK
    && IsMatching(m, s.invite.callId, s.invite.cseq.value.number, ACK)
    && m.from.tag == s.invite.from.tag && m.to.tag == s.final.value.to.tag
    && (s.final.value.status < 300 || m.branch == s.invite.branch)
  }

  /** A final answer to the INVITE: it is sent and kept for its retransmissions. */
  function Conclude(s: Uas, final: Message, outcome: Outcome): Uas {
    s.Answers(final).(final := Some(final), outcome := outcome, phase := AwaitAck)
  }

  function Status(o: Outcome, status: nat): Outcome {
    o.(inviteFinalStatus := status)
  }

  function OnInvite(s: Uas, b: Behavior, m: Message, validation: Validation): Uas
    requires m.Request?
  {
    if validation.Admit? && Admissible(m) then
      s.(phase := Acting(ActsOf(b, validation.negotiation)), invite := m, tag := validation.tag,
         dialog := DialogOf(m, validation.tag))
    else
      var response := ResponseFor(m, if validation.Refuse? then validation.status else 400, validation.tag);
      var refused := s.Answers(response).(final := Some(response), invite := m, tag := validation.tag);
      if ValidTransaction(m) then refused.(phase := AwaitAck, dialog := DialogOf(m, validation.tag))
      else refused.Moves(Done)
  }

  function OnIdle(s: Uas, b: Behavior, m: Message, validation: Validation): Uas {
    if m.Request? && m.verb == INVITE then OnInvite(s, b, m, validation)
    else if m.Request? && (m.verb == INFO || m.verb == BYE) then s.Says(ResponseFor(m, 481, ""))
    else s
  }

  /** What arrives while the server waits for the time of its next act. */
  function OnListen(s: Uas, m: Message): Uas {
    if RepeatedInvite(s, m) then if s.latest.Some? then s.Answers(s.latest.value) else s
    else if ValidCancel(s, m) then s.Says(ResponseFor(m, 200, s.dialog.localTag)).Moves(Canceling)
    else if m.Request? && (m.verb == CANCEL || m.verb == BYE || m.verb == INFO) then s.Says(ResponseFor(m, 481, ""))
    else s
  }

  /** What arrives while the server rings without ever answering. */
  function OnRing(s: Uas, m: Message): Uas {
    if RepeatedInvite(s, m) then if s.latest.Some? then s.Answers(s.latest.value) else s
    else if ValidCancel(s, m) then s.Says(ResponseFor(m, 200, s.dialog.localTag)).Moves(Canceling)
    else if m.Request? && m.verb == CANCEL then s.Says(ResponseFor(m, 481, ""))
    else s
  }

  /** What arrives while the final answer waits for its ACK. */
  function OnAwaitAck(s: Uas, m: Message): Uas
    requires s.final.Some?
  {
    if ValidAck(s, m) then
      var done := s.(acked := Some(m));
      if s.outcome.inviteFinalStatus == 200 then done.(phase := InDialog, outcome := s.outcome.(established := true))
      else done.Moves(Done)
    else if m.Request? && m.verb == INVITE && s.invite.Request? && s.invite.cseq.Some?
            && IsMatching(m, s.invite.callId, s.invite.cseq.value.number, INVITE) && m.branch == s.invite.branch
    then s.Answers(s.final.value)
    else if m.Request? && (m.verb == CANCEL || m.verb == BYE || m.verb == INFO) then s.Says(ResponseFor(m, 481, ""))
    else s
  }

  /** A message handled by the dialog. */
  function OnHandled(s: Uas, m: Message): Uas {
    var h := Handle(s.dialog, m);
    s.(
      dialog := h.dialog,
      sent := if h.sent.Some? then s.sent + [Sent(h.sent.value, m.Request? && RepeatsInvite(s.dialog, m))] else s.sent,
      recorded := if h.recorded.Some? then s.recorded + [h.recorded.value] else s.recorded,
      outcome := if h.ending == EndedByPeer then s.outcome.(terminatedBy := SystemUnderTest) else s.outcome,
      phase := if h.ending == Continues then s.phase else Done)
  }

  /** What arrives while the server's own BYE waits for its answer. */
  function OnClosing(s: Uas, m: Message, bye: Message): Uas {
    if m.Request? then OnHandled(s, m)
    else if bye.Request? && bye.cseq.Some? && IsMatching(m, s.dialog.callId, bye.cseq.value.number, BYE)
            && m.status >= 200 then
      if m.status < 300 then s.(outcome := s.outcome.(terminatedBy := Sutel), phase := Done) else s.Moves(Done)
    else s
  }

  function OnReceive(s: Uas, b: Behavior, m: Message, validation: Validation): Uas {
    match s.phase
    case Idle => OnIdle(s, b, m, validation)
    case Acting(acts) =>
      if acts != [] && acts[0] == Listen then OnListen(s, m)
      else if acts != [] && acts[0] == Ring then OnRing(s, m)
      else s
    case AwaitAck => if s.final.Some? then OnAwaitAck(s, m) else s
    case InDialog => OnHandled(s, m)
    case Closing(bye) => OnClosing(s, m, bye)
    case _ => s
  }

  /** The server's own next step: a provisional answer, the final one, or the 487 after a CANCEL. */
  function OnProceed(s: Uas): Uas {
    if !s.invite.Request? then s
    else if s.phase == Canceling then
      Conclude(s, ResponseFor(s.invite, 487, s.dialog.localTag), Status(s.outcome, 487).(canceled := true))
    else if s.phase.Acting? && s.phase.acts != [] then
      var act, rest := s.phase.acts[0], s.phase.acts[1..];
      match act
      case Say(status) =>
        var tag := if status == 100 then "" else s.dialog.localTag;
        var contact := if status == 100 then "" else LOCAL_CONTACT;
        var response := ResponseFor(s.invite, status, tag).(contact := contact);
        s.Answers(response).(latest := Some(response), phase := Acting(rest))
      case Finish(status, _) =>
        var contact := if status == 200 then LOCAL_CONTACT else "";
        var response := ResponseFor(s.invite, status, s.dialog.localTag).(contact := contact);
        var final := Conclude(s, response, Status(s.outcome, status));
        if status == 200 then final.(dialog := s.dialog.(lastInviteOK := Some(response))) else final
      case _ => s
    else s
  }

  /** A refusal whose send failed and whose failure is passed over. */
  function OnSendLost(s: Uas): Uas {
    if s.invite.Request? && s.phase.Acting? && s.phase.acts != [] && s.phase.acts[0].Finish?
       && s.phase.acts[0].lenient then
      var status := s.phase.acts[0].status;
      s.(final := Some(ResponseFor(s.invite, status, s.dialog.localTag)),
         outcome := Status(s.outcome, status), phase := AwaitAck)
    else s
  }

  function OnDeadline(s: Uas): Uas {
    if s.phase.Acting? && s.phase.acts != [] && s.phase.acts[0] == Listen then s.Moves(Acting(s.phase.acts[1..]))
    else if s.phase == InDialog && s.lossy then s.Moves(Done)
    else s
  }

  /** The server hangs up: its BYE is sent and waits for an answer. */
  function OnHangUp(s: Uas, branch: string): Uas {
    if s.phase == InDialog && !s.lossy then
      var bye := s.dialog.NextRequest(BYE, branch, NO_SIGNAL);
      s.Says(bye).(dialog := s.dialog.Sent(), phase := Closing(bye))
    else s
  }

  function OnRetransmit(s: Uas): Uas {
    match s.phase
    case AwaitAck => if s.final.Some? then s.Answers(s.final.value) else s
    case Closing(bye) => s.Says(bye)
    case _ => s
  }

  /** An error ends the run; inside a dialog one BYE is still tried. */
  function OnFail(s: Uas, cleanup: bool, branch: string): Uas {
    if s.phase == InDialog && !s.lossy && cleanup then
      s.Says(s.dialog.NextRequest(BYE, branch, NO_SIGNAL)).(dialog := s.dialog.Sent(), phase := Done)
    else s.Moves(Done)
  }

  function Step(s: Uas, b: Behavior, e: Event): Uas {
    match e
    case Receive(m, validation) => OnReceive(s, b, m, validation)
    case Deadline => OnDeadline(s)
    case Retransmit => OnRetransmit(s)
    case Proceed => OnProceed(s)
    case SendLost => OnSendLost(s)
    case HangUp(branch) => OnHangUp(s, branch)
    case Fail(cleanup, branch) => OnFail(s, cleanup, branch)
  }

  function Run(b: Behavior, events: seq<Event>): Uas {
    if events == [] then Waiting(b) else Step(Run(b, events[..|events| - 1]), b, events[|events| - 1])
  }
}
