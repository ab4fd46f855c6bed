/** The calling side of a call, without credentials, as a state machine (inbound.go and dialog.go). */
module UserAgentClient {
  import opened Options
  import opened SipMessages

  /** The call to make: its INVITE, whether it is given up while ringing, and the digits to send as INFO. */
  datatype Caller = Caller(invite: Message, cancelAfter: bool, digits: seq<char>) {
    predicate Valid() {
      && invite.Request? && invite.verb == INVITE && invite.cseq == Some(CSeq(1, INVITE)) && invite.to.tag == ""
    }
  }

  datatype Phase =
    | Start
    | Calling(provisional: bool, cancelArmed: bool)
    | Refused
    | Absorbing(ack: Message)
    | Answered
    | Verifying
    | Cancelling
    | LateRefused
    | LateAnswered
    | Dialling(left: seq<char>)
    | InfoWait(info: Message, left: seq<char>)
    | Pausing(left: seq<char>)
    | InDialog
    | Closing(bye: Message)
    | Abandoning
    | Done

  /** `sent` says whether the next send succeeds, `bye` whether the BYE after it does. */
  datatype Event =
    | Receive(message: Message)
    | Proceed(sent: bool, bye: bool, verified: bool, branch: string)
    | CancelTimer(sent: bool)
    | RingTimer(sent: bool)
    | Retransmit
    | Deadline
    | HangUp(branch: string)
    | Fail(cleanup: bool, branch: string)

  datatype Uac = Uac(
    phase: Phase,
    dialog: Dialog,
    final: Option<Message>,
    outcome: Outcome,
    issued: seq<char>,
    completed: nat,
    sent: seq<Message>)
  {
    function Says(m: Message): Uac {
      this.(sent := sent + [m])
    }

    function Moves(next: Phase): Uac {
      this.(phase := next)
    }

    /** A request inside the dialog goes out under the next number. */
    function Asks(verb: Verb, branch: string, signal: Signal): Uac {
      this.(sent := sent + [dialog.NextRequest(verb, branch, signal)], dialog := dialog.Sent())
    }
  }

  const IDLE := Uac(Start, NO_DIALOG, None, NO_OUTCOME, [], 0, [])

  function CancelOf(invite: Message): Message
    requires invite.Request? && invite.cseq.Some?
  {
    Request(CANCEL, invite.uri, invite.branch, invite.from, invite.to, invite.callId,
            Some(CSeq(invite.cseq.value.number, CANCEL)), "", NO_SIGNAL)
  }

  function AckOf(invite: Message, final: Message, uri: string, branch: string, success: bool): Message
    requires invite.Request? && invite.cseq.Some?
  {
    Request(ACK, uri, branch, invite.from, final.to, invite.callId, Some(CSeq(invite.cseq.value.number, ACK)),
            if success then invite.contact else "", NO_SIGNAL)
  }

  function TargetOf(invite: Message, final: Message): string
    requires invite.Request?
  {
    if final.contact != "" then final.contact else invite.uri
  }

  function DialogOf(invite: Message, final: Message, ack: Option<Message>): Dialog
    requires invite.Request? && invite.cseq.Some?
  {
    var number := invite.cseq.value.number;
    Dialog(invite.callId, invite.from.tag, final.to.tag, invite.from, final.to, TargetOf(invite, final),
           number, 0, number, invite.branch, None, ack)
  }

  predicate AnswersInvite(c: Caller, m: Message)
    requires c.Valid()
  {
    m.Response? && IsMatching(m, c.invite.callId, 1, INVITE)
  }

  function OnCalling(s: Uac, c: Caller, m: Message): Uac
    requires c.Valid() && s.phase.Calling?
  {
    if !AnswersInvite(c, m) then s
    else if m.status < 200 then s.Moves(Calling(true, s.phase.cancelArmed))
    else s.(final := Some(m), outcome := s.outcome.(inviteFinalStatus := m.status),
            phase := if m.status < 300 then Answered else Refused)
  }

  function OnAbsorbing(s: Uac, c: Caller, m: Message, ack: Message): Uac
    requires c.Valid()
  {
    if AnswersInvite(c, m) && m.status >= 300 then s.Says(ack)
    else if m.Request? && (m.verb == BYE || m.verb == INFO || m.verb == CANCEL) then s.Says(ResponseFor(m, 481, ""))
    else s
  }

  function OnCancelling(s: Uac, c: Caller, m: Message): Uac
    requires c.Valid()
  {
    if AnswersInvite(c, m) && m.status >= 200 then
      if m.status < 300 then s.(final := Some(m), outcome := s.outcome.(inviteFinalStatus := m.status),
                                phase := LateAnswered)
      else s.(final := Some(m), phase := LateRefused)
    else s
  }

  /** A message handled by the dialog. */
  function OnHandled(s: Uac, m: Message): Uac {
    var h := Handle(s.dialog, m);
    s.(
      dialog := h.dialog,
      sent := if h.sent.Some? then s.sent + [h.sent.value] else s.sent,
      outcome := if h.ending == EndedByPeer then s.outcome.(terminatedBy := SystemUnderTest) else s.outcome,
      phase := if h.ending == Continues then s.phase else if h.ending == Forked then Abandoning else Done)
  }

  predicate AnswersRequest(s: Uac, m: Message, request: Message) {
    && m.Response? && request.Request? && request.cseq.Some?
    && IsMatching(m, s.dialog.callId, request.cseq.value.number, request.verb)
  }

  function OnInfoWait(s: Uac, m: Message): Uac
    requires s.phase.InfoWait?
  {
    if m.Request? then OnHandled(s, m)
    else if AnswersRequest(s, m, s.phase.info) && m.status >= 200 then
      if m.status < 300 then s.(completed := s.completed + 1, phase := Pausing(s.phase.left)) else s.Moves(Abandoning)
    else s
  }

  function OnClosing(s: Uac, m: Message, bye: Message): Uac {
    if m.Request? then OnHandled(s, m)
    else if AnswersRequest(s, m, bye) && m.status >= 200 then
      if m.status < 300 then s.(outcome := s.outcome.(terminatedBy := Sutel), phase := Done) else s.Moves(Done)
    else s
  }

  function OnReceive(s: Uac, c: Caller, m: Message): Uac
    requires c.Valid()
  {
    match s.phase
    case Calling(_, _) => OnCalling(s, c, m)
    case Absorbing(ack) => OnAbsorbing(s, c, m, ack)
    case Cancelling => OnCancelling(s, c, m)
    case InfoWait(_, _) => OnInfoWait(s, m)
    case Pausing(_) => OnHandled(s, m)
    case InDialog => OnHandled(s, m)
    case Closing(bye) => OnClosing(s, m, bye)
    case _ => s
  }

  /** The ACK of an answer, and the dialog it makes. */
  function Acknowledge(s: Uac, c: Caller, branch: string): Uac
    requires c.Valid() && s.final.Some?
  {
    var ack := AckOf(c.invite, s.final.value, TargetOf(c.invite, s.final.value), branch, true);
    s.Says(ack).(dialog := DialogOf(c.invite, s.final.value, Some(ack)), outcome := s.outcome.(established := true))
  }

  /** The best-effort BYE of a call that is given up. */
  function Abandon(s: Uac, bye: bool, branch: string): Uac {
    if bye then s.Asks(BYE, branch, NO_SIGNAL).Moves(Done) else s.Moves(Done)
  }

  function Terminate(s: Uac, bye: bool, branch: string): Uac {
    if bye then s.Asks(BYE, branch, NO_SIGNAL).(outcome := s.outcome.(terminatedBy := Sutel), phase := Done)
    else s.Moves(Done)
  }

  function OnProceed(s: Uac, c: Caller, sent: bool, bye: bool, verified: bool, branch: string): Uac
    requires c.Valid()
  {
    match s.phase
    case Start => if sent then s.Says(c.invite).Moves(Calling(false, c.cancelAfter)) else s.Moves(Done)
    case Refused =>
      if s.final.None? || !sent then s.Moves(Done)
      else
        var ack := AckOf(c.invite, s.final.value, c.invite.uri, c.invite.branch, false);
        s.Says(ack).Moves(Absorbing(ack))
    case LateRefused =>
      if s.final.None? || !sent then s.Moves(Done)
      else s.Says(AckOf(c.invite, s.final.value, c.invite.uri, c.invite.branch, false)).Moves(Done)
    case Answered => if s.final.None? || !sent then s.Moves(Done) else Acknowledge(s, c, branch).Moves(Verifying)
    case LateAnswered =>
      if s.final.None? || !sent then s.Moves(Done)
      else Terminate(Acknowledge(s, c, branch), bye && s.final.value.to.tag != "", branch)
    case Verifying =>
      if s.final.Some? && s.final.value.to.tag != "" && s.final.value.contact != "" && verified
      then s.Moves(Dialling(c.digits))
      else Terminate(s, bye, branch)
    case Dialling(left) =>
      if left == [] then s.Moves(InDialog)
      else
        var info := s.dialog.NextRequest(INFO, branch, Signal(200, left[0]));
        var asked := s.(dialog := s.dialog.Sent(), issued := s.issued + [left[0]]);
        if sent then asked.Says(info).Moves(InfoWait(info, left[1..])) else asked.Moves(Abandoning)
    case Abandoning => Abandon(s, bye, branch)
    case _ => s
  }

  /** The caller gives up while the call rings: CANCEL, and on waiting for the final answer. */
  function OnCancelTimer(s: Uac, c: Caller, sent: bool): Uac
    requires c.Valid()
  {
    if s.phase.Calling? && s.phase.cancelArmed then
      var canceled := s.(outcome := s.outcome.(canceled := true));
      if sent then canceled.Says(CancelOf(c.invite)).Moves(Calling(s.phase.provisional, false))
      else canceled.Moves(Done)
    else s
  }

  /** Nobody answered in time. */
  function OnRingTimer(s: Uac, c: Caller, sent: bool): Uac
    requires c.Valid()
  {
    if s.phase.Calling? then
      if s.phase.provisional && sent then s.Says(CancelOf(c.invite)).Moves(Cancelling) else s.Moves(Done)
    else s
  }

  function OnRetransmit(s: Uac, c: Caller): Uac {
    match s.phase
    case Calling(provisional, _) => if provisional then s else s.Says(c.invite)
    case InfoWait(info, _) => s.Says(info)
    case Closing(bye) => s.Says(bye)
    case _ => s
  }

  function OnDeadline(s: Uac): Uac {
    match s.phase
    case Absorbing(_) => s.Moves(Done)
    case Cancelling => s.Moves(Done)
    case Pausing(left) => s.Moves(Dialling(left))
    case _ => s
  }

  function OnHangUp(s: Uac, branch: string): Uac {
    if s.phase == InDialog then
      s.Asks(BYE, branch, NO_SIGNAL).Moves(Closing(s.dialog.NextRequest(BYE, branch, NO_SIGNAL)))
    else s
  }

  /** An error ends the run; inside a dialog one BYE is still tried. */
  function OnFail(s: Uac, cleanup: bool, branch: string): Uac {
    match s.phase
    case InfoWait(_, _) => Abandon(s, cleanup, branch)
    case Pausing(_) => Abandon(s, cleanup, branch)
    case Dialling(_) => Abandon(s, cleanup, branch)
    case InDialog => Abandon(s, cleanup, branch)
    case _ => s.Moves(Done)
  }

  function Step(s: Uac, c: Caller, e: Event): Uac
    requires c.Valid()
  {
    match e
    case Receive(m) => OnReceive(s, c, m)
    case Proceed(sent, bye, verified, branch) => OnProceed(s, c, sent, bye, verified, branch)
    case CancelTimer(sent) => OnCancelTimer(s, c, sent)
    case RingTimer(sent) => OnRingTimer(s, c, sent)
    case Retransmit => OnRetransmit(s, c)
    case Deadline => OnDeadline(s)
    case HangUp(branch) => OnHangUp(s, branch)
    case Fail(cleanup, branch) => OnFail(s, cleanup, branch)
  }
}
