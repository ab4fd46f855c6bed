/**
 * Both sides of one call joined by a network that loses, repeats and reorders: whatever one side ever sent,
 * the other may receive at any later time, any number of times, or never.
 */
module Calls {
  import opened Options
  import opened SipMessages
  import C = UserAgentClient
  import S = UserAgentServer
  import UasSafety

  datatype Call = Call(caller: C.Uac, server: S.Uas)

  datatype Move = CallerMoves(c: C.Event) | ServerMoves(s: S.Event)

  predicate FromServer(call: Call, m: Message) {
    S.Sent(m, true) in call.server.sent || S.Sent(m, false) in call.server.sent
  }

  predicate FromCaller(call: Call, m: Message) {
    m in call.caller.sent
  }

  /** Only what was sent can be received. */
  predicate Enabled(call: Call, move: Move) {
    match move
    case CallerMoves(e) => e.Receive? ==> FromServer(call, e.message)
    case ServerMoves(e) => e.Receive? ==> FromCaller(call, e.message)
  }

  function Step(call: Call, c: C.Caller, b: S.Behavior, move: Move): Call
    requires c.Valid()
  {
    match move
    case CallerMoves(e) => call.(caller := C.Step(call.caller, c, e))
    case ServerMoves(e) => call.(server := S.Step(call.server, b, e))
  }

  function Run(c: C.Caller, b: S.Behavior, moves: seq<Move>): Call
    requires c.Valid()
  {
    if moves == [] then Call(C.IDLE, S.Waiting(b))
    else Step(Run(c, b, moves[..|moves| - 1]), c, b, moves[|moves| - 1])
  }

  ghost predicate Possible(c: C.Caller, b: S.Behavior, moves: seq<Move>)
    requires c.Valid()
  {
    moves == [] ||
    (var front := moves[..|moves| - 1];
     Possible(c, b, front) && Enabled(Run(c, b, front), moves[|moves| - 1]))
  }

  // What the caller has sent.

  /** The k-th digit goes out as the request numbered 1 + k. */
  predicate IsInfo(issued: seq<char>, m: Message)
    requires m.Request?
  {
    && m.verb == INFO && m.cseq.Some? && m.cseq.value.verb == INFO
    && 2 <= m.cseq.value.number <= 1 + |issued| && m.signal == Signal(200, issued[m.cseq.value.number - 2])
  }

  ghost predicate CallerSent(u: C.Uac, c: C.Caller, m: Message)
    requires c.Valid()
  {
    m.Request? ==>
      && (m.verb == INVITE ==> m == c.invite)
      && (m.verb == CANCEL ==> m.cseq == Some(CSeq(1, CANCEL)))
      && (m.verb == ACK ==> Acknowledged(u))
      && (m.verb == BYE ==> m.cseq.Some? && m.cseq.value.verb == BYE)
      && (m.verb == INFO ==> IsInfo(u.issued, m))
      && !m.verb.Other?
  }

  /** An answer was acknowledged: a successful one is in the outcome. */
  predicate Acknowledged(u: C.Uac) {
    u.final.Some? && u.final.value.Response?
      && (u.final.value.status < 300 ==> u.outcome.inviteFinalStatus == u.final.value.status)
  }

  predicate CallerPhase(u: C.Uac, c: C.Caller)
    requires c.Valid()
  {
    match u.phase
    case Start => u == C.IDLE
    case Calling(_, _) => u.final.None? && u.outcome.inviteFinalStatus == 0 && u.issued == [] && u.completed == 0
    case Cancelling => u.final.None? && u.outcome.inviteFinalStatus == 0 && u.issued == [] && u.completed == 0
    case Absorbing(ack) => u.issued == [] && u.completed == 0 && ack.Request? && ack.verb == ACK && Acknowledged(u)
    case Refused => u.issued == [] && u.completed == 0 && Acknowledged(u)
    case LateRefused => u.issued == [] && u.completed == 0 && Acknowledged(u)
    case Answered => u.issued == [] && u.completed == 0 && Acknowledged(u) && u.final.value.status < 300
    case LateAnswered => u.issued == [] && u.completed == 0 && Acknowledged(u) && u.final.value.status < 300
    case Verifying => u.issued == [] && u.completed == 0 && InCall(u) && u.dialog.localCSeq == 1
    case Dialling(left) =>
      && InCall(u) && |u.issued| == u.completed && u.dialog.localCSeq == 1 + |u.issued|
      && u.issued + left == c.digits
    case Pausing(left) =>
      && InCall(u) && |u.issued| == u.completed && u.dialog.localCSeq == 1 + |u.issued|
      && u.issued + left == c.digits
    case InfoWait(info, left) =>
      && InCall(u) && |u.issued| == u.completed + 1 && u.dialog.localCSeq == 1 + |u.issued|
      && u.issued + left == c.digits
      && info.Request? && IsInfo(u.issued, info) && info.cseq.value.number == 1 + |u.issued|
    case InDialog => InCall(u) && u.issued == c.digits && |u.issued| == u.completed
    case Closing(bye) =>
      && InCall(u) && u.issued == c.digits && bye.Request? && bye.verb == BYE && bye.cseq.Some?
      && bye.cseq.value.verb == BYE
    case Abandoning => InCall(u)
    case Done => true
  }

  /** The dialog of an acknowledged answer. */
  predicate InCall(u: C.Uac) {
    && Acknowledged(u) && u.dialog.inviteACK.Some? && u.dialog.inviteACK.value.Request?
    && u.dialog.inviteACK.value.verb == ACK
    && u.dialog.lastInviteOK.None?
  }

  ghost predicate CallerFits(u: C.Uac, c: C.Caller)
    requires c.Valid()
  {
    && CallerPhase(u, c)
    && u.completed <= |u.issued| <= u.completed + 1
    && u.issued <= c.digits
    && (u.final.Some? ==> u.final.value.Response? && u.final.value.status >= 200)
    && (u.outcome.inviteFinalStatus != 0 ==> u.final.Some? && u.final.value.status == u.outcome.inviteFinalStatus)
    && (u.outcome.established ==> u.outcome.inviteFinalStatus != 0 && u.final.value.status < 300)
    && (forall m :: m in u.sent ==> CallerSent(u, c, m))
  }

  lemma CallerSentLater(u: C.Uac, t: C.Uac, c: C.Caller, m: Message)
    requires c.Valid() && CallerSent(u, c, m)
    requires u.issued <= t.issued && (Acknowledged(u) ==> Acknowledged(t))
    ensures CallerSent(t, c, m)
  {
  }

  lemma CallerSentAll(u: C.Uac, t: C.Uac, c: C.Caller, more: seq<Message>)
    requires c.Valid() && (forall m :: m in u.sent ==> CallerSent(u, c, m))
    requires t.sent == u.sent + more && forall m :: m in more ==> CallerSent(t, c, m)
    requires u.issued <= t.issued && (Acknowledged(u) ==> Acknowledged(t))
    ensures forall m :: m in t.sent ==> CallerSent(t, c, m)
  {
    forall m | m in t.sent
      ensures CallerSent(t, c, m)
    {
      if m in u.sent {
        CallerSentLater(u, t, c, m);
      } else {
        assert m in more;
      }
    }
  }

  lemma SaysFits(u: C.Uac, t: C.Uac, c: C.Caller, m: Message)
    requires c.Valid() && (forall x :: x in u.sent ==> CallerSent(u, c, x))
    requires t.sent == u.sent + [m] && CallerSent(t, c, m)
    requires u.issued <= t.issued && (Acknowledged(u) ==> Acknowledged(t))
    ensures forall x :: x in t.sent ==> CallerSent(t, c, x)
  {
    CallerSentAll(u, t, c, [m]);
  }

  lemma SilentFits(u: C.Uac, t: C.Uac, c: C.Caller)
    requires c.Valid() && (forall x :: x in u.sent ==> CallerSent(u, c, x))
    requires t.sent == u.sent && u.issued <= t.issued && (Acknowledged(u) ==> Acknowledged(t))
    ensures forall x :: x in t.sent ==> CallerSent(t, c, x)
  {
    CallerSentAll(u, t, c, []);
  }

  lemma AbandonFits(u: C.Uac, c: C.Caller, bye: bool, branch: string)
    requires c.Valid() && CallerFits(u, c)
    ensures CallerFits(C.Abandon(u, bye, branch), c)
    ensures CallerFits(C.Terminate(u, bye, branch), c)
  {
    var t, v := C.Abandon(u, bye, branch), C.Terminate(u, bye, branch);
    if bye {
      SaysFits(u, t, c, u.dialog.NextRequest(BYE, branch, NO_SIGNAL));
      SaysFits(u, v, c, u.dialog.NextRequest(BYE, branch, NO_SIGNAL));
    } else {
      SilentFits(u, t, c);
      SilentFits(u, v, c);
    }
  }

  lemma AcknowledgeFits(u: C.Uac, c: C.Caller, branch: string)
    requires c.Valid() && CallerFits(u, c) && (u.phase == C.Answered || u.phase == C.LateAnswered)
    requires u.final.value.status < 300
    ensures var t := C.Acknowledge(u, c, branch).Moves(C.Verifying); CallerFits(t, c)
  {
    var t := C.Acknowledge(u, c, branch);
    SaysFits(u, t, c, C.AckOf(c.invite, u.final.value, C.TargetOf(c.invite, u.final.value), branch, true));
  }

  lemma HandledSent(d: Dialog, m: Message)
    requires d.lastInviteOK.None? && d.inviteACK.Some? && d.inviteACK.value.Request? && d.inviteACK.value.verb == ACK
    ensures var h := Handle(d, m);
            && (h.sent.Some? ==> h.sent.value.Response? || h.sent == d.inviteACK)
            && h.dialog == d.(remoteCSeq := h.dialog.remoteCSeq)
  {
  }

  lemma HandledCounts(u: C.Uac, m: Message)
    ensures C.OnHandled(u, m).issued == u.issued && C.OnHandled(u, m).completed == u.completed
  {
  }

  lemma HandledFits(u: C.Uac, c: C.Caller, m: Message)
    requires c.Valid() && CallerFits(u, c)
    requires u.phase.InfoWait? || u.phase.Pausing? || u.phase == C.InDialog || u.phase.Closing?
    ensures CallerFits(C.OnHandled(u, m), c)
  {
    var t, h := C.OnHandled(u, m), Handle(u.dialog, m);
    HandledSent(u.dialog, m);
    if h.sent.Some? {
      SaysFits(u, t, c, h.sent.value);
    } else {
      SilentFits(u, t, c);
    }
  }

  lemma AbsorbingFits(u: C.Uac, c: C.Caller, m: Message, ack: Message)
    requires c.Valid() && CallerFits(u, c) && u.phase == C.Absorbing(ack)
    ensures CallerFits(C.OnReceive(u, c, m), c)
  {
    var t := C.OnReceive(u, c, m);
    if t.sent == u.sent + [ack] {
      SaysFits(u, t, c, ack);
    } else if t != u {
      SaysFits(u, t, c, ResponseFor(m, 481, ""));
    }
  }

  lemma CallingFits(u: C.Uac, c: C.Caller, m: Message)
    requires c.Valid() && CallerFits(u, c) && u.phase.Calling?
    ensures CallerFits(C.OnCalling(u, c, m), c)
  {
    SilentFits(u, C.OnCalling(u, c, m), c);
  }

  lemma CancellingFits(u: C.Uac, c: C.Caller, m: Message)
    requires c.Valid() && CallerFits(u, c) && u.phase.Cancelling?
    ensures CallerFits(C.OnCancelling(u, c, m), c)
  {
    SilentFits(u, C.OnCancelling(u, c, m), c);
  }

  lemma InfoAnswered(u: C.Uac, c: C.Caller, m: Message)
    requires c.Valid() && CallerFits(u, c) && u.phase.InfoWait? && m.Response?
    ensures CallerFits(C.OnInfoWait(u, m), c)
  {
    SilentFits(u, C.OnInfoWait(u, m), c);
  }

  lemma InfoWaitFits(u: C.Uac, c: C.Caller, m: Message)
    requires c.Valid() && CallerFits(u, c) && u.phase.InfoWait?
    ensures CallerFits(C.OnInfoWait(u, m), c)
  {
    if m.Request? {
      HandledFits(u, c, m);
    } else {
      InfoAnswered(u, c, m);
    }
  }

  lemma ByeAnswered(u: C.Uac, c: C.Caller, m: Message, bye: Message)
    requires c.Valid() && CallerFits(u, c) && u.phase == C.Closing(bye) && m.Response?
    ensures CallerFits(C.OnClosing(u, m, bye), c)
  {
    SilentFits(u, C.OnClosing(u, m, bye), c);
  }

  lemma ClosingFits(u: C.Uac, c: C.Caller, m: Message, bye: Message)
    requires c.Valid() && CallerFits(u, c) && u.phase == C.Closing(bye)
    ensures CallerFits(C.OnClosing(u, m, bye), c)
  {
    if m.Request? {
      HandledFits(u, c, m);
    } else {
      ByeAnswered(u, c, m, bye);
    }
  }

  lemma ReceiveFits(u: C.Uac, c: C.Caller, m: Message)
    requires c.Valid() && CallerFits(u, c)
    ensures CallerFits(C.OnReceive(u, c, m), c)
  {
    match u.phase
    case Calling(_, _) => CallingFits(u, c, m);
    case Absorbing(ack) => AbsorbingFits(u, c, m, ack);
    case Cancelling => CancellingFits(u, c, m);
    case InfoWait(_, _) => InfoWaitFits(u, c, m);
    case Closing(bye) => ClosingFits(u, c, m, bye);
    case Pausing(_) => HandledFits(u, c, m);
    case InDialog => HandledFits(u, c, m);
    case _ =>
  }

  lemma DialledFits(u: C.Uac, c: C.Caller)
    requires c.Valid() && CallerFits(u, c) && u.phase == C.Dialling([])
    ensures CallerFits(u.Moves(C.InDialog), c)
  {
    assert u.issued + [] == u.issued;
    SilentFits(u, u.Moves(C.InDialog), c);
  }

  lemma DigitFits(u: C.Uac, c: C.Caller, sent: bool, bye: bool, verified: bool, branch: string)
    requires c.Valid() && CallerFits(u, c) && u.phase.Dialling? && u.phase.left != []
    ensures CallerFits(C.OnProceed(u, c, sent, bye, verified, branch), c)
  {
    var t, left := C.OnProceed(u, c, sent, bye, verified, branch), u.phase.left;
    assert u.issued + left == u.issued + [left[0]] + left[1..];
    if sent {
      SaysFits(u, t, c, u.dialog.NextRequest(INFO, branch, Signal(200, left[0])));
    } else {
      SilentFits(u, t, c);
    }
  }

  lemma DialFits(u: C.Uac, c: C.Caller, sent: bool, bye: bool, verified: bool, branch: string)
    requires c.Valid() && CallerFits(u, c) && u.phase.Dialling?
    ensures CallerFits(C.OnProceed(u, c, sent, bye, verified, branch), c)
  {
    if u.phase.left == [] {
      DialledFits(u, c);
    } else {
      DigitFits(u, c, sent, bye, verified, branch);
    }
  }

  lemma AnswerProceedFits(u: C.Uac, c: C.Caller, sent: bool, bye: bool, verified: bool, branch: string)
    requires c.Valid() && CallerFits(u, c)
             && (u.phase == C.Answered || u.phase == C.LateAnswered || u.phase == C.Verifying)
    ensures CallerFits(C.OnProceed(u, c, sent, bye, verified, branch), c)
  {
    var t := C.OnProceed(u, c, sent, bye, verified, branch);
    if u.phase == C.Verifying {
      AbandonFits(u, c, bye, branch);
      SilentFits(u, u.Moves(C.Dialling(c.digits)), c);
    } else if sent {
      AcknowledgeFits(u, c, branch);
      AbandonFits(C.Acknowledge(u, c, branch).Moves(C.Verifying), c, bye && u.final.value.to.tag != "", branch);
    } else {
      SilentFits(u, t, c);
    }
  }

  lemma StartFits(u: C.Uac, c: C.Caller, sent: bool, bye: bool, verified: bool, branch: string)
    requires c.Valid() && CallerFits(u, c) && u.phase == C.Start
    ensures CallerFits(C.OnProceed(u, c, sent, bye, verified, branch), c)
  {
    if sent {
      SaysFits(u, C.OnProceed(u, c, sent, bye, verified, branch), c, c.invite);
    }
  }

  lemma ProceedFits(u: C.Uac, c: C.Caller, sent: bool, bye: bool, verified: bool, branch: string)
    requires c.Valid() && CallerFits(u, c)
    ensures CallerFits(C.OnProceed(u, c, sent, bye, verified, branch), c)
  {
    match u.phase
    case Start => StartFits(u, c, sent, bye, verified, branch);
    case Answered => AnswerProceedFits(u, c, sent, bye, verified, branch);
    case LateAnswered => AnswerProceedFits(u, c, sent, bye, verified, branch);
    case Verifying => AnswerProceedFits(u, c, sent, bye, verified, branch);
    case Dialling(_) => DialFits(u, c, sent, bye, verified, branch);
    case Abandoning => AbandonFits(u, c, bye, branch);
    case Refused => RefusedFits(u, c, sent, bye, verified, branch);
    case LateRefused => RefusedFits(u, c, sent, bye, verified, branch);
    case _ =>
  }

  lemma RefusedFits(u: C.Uac, c: C.Caller, sent: bool, bye: bool, verified: bool, branch: string)
    requires c.Valid() && CallerFits(u, c) && (u.phase == C.Refused || u.phase == C.LateRefused)
    ensures CallerFits(C.OnProceed(u, c, sent, bye, verified, branch), c)
  {
    var t := C.OnProceed(u, c, sent, bye, verified, branch);
    if sent {
      SaysFits(u, t, c, C.AckOf(c.invite, u.final.value, c.invite.uri, c.invite.branch, false));
    } else {
      SilentFits(u, t, c);
    }
  }

  lemma CancelTimerFits(u: C.Uac, c: C.Caller, sent: bool)
    requires c.Valid() && CallerFits(u, c)
    ensures CallerFits(C.OnCancelTimer(u, c, sent), c)
  {
    var t := C.OnCancelTimer(u, c, sent);
    if t.sent == u.sent {
      SilentFits(u, t, c);
    } else {
      SaysFits(u, t, c, C.CancelOf(c.invite));
    }
  }

  lemma RingTimerFits(u: C.Uac, c: C.Caller, sent: bool)
    requires c.Valid() && CallerFits(u, c)
    ensures CallerFits(C.OnRingTimer(u, c, sent), c)
  {
    var t := C.OnRingTimer(u, c, sent);
    if t.sent == u.sent {
      SilentFits(u, t, c);
    } else {
      SaysFits(u, t, c, C.CancelOf(c.invite));
    }
  }

  lemma DeadlineFits(u: C.Uac, c: C.Caller)
    requires c.Valid() && CallerFits(u, c)
    ensures CallerFits(C.OnDeadline(u), c)
  {
    SilentFits(u, C.OnDeadline(u), c);
  }

  lemma RetransmitFits(u: C.Uac, c: C.Caller)
    requires c.Valid() && CallerFits(u, c)
    ensures CallerFits(C.OnRetransmit(u, c), c)
  {
    var t := C.OnRetransmit(u, c);
    match u.phase
    case Calling(provisional, _) =>
      if !provisional {
        SaysFits(u, t, c, c.invite);
      }
    case InfoWait(info, _) => SaysFits(u, t, c, info);
    case Closing(bye) => SaysFits(u, t, c, bye);
    case _ =>
  }

  lemma HangUpFits(u: C.Uac, c: C.Caller, branch: string)
    requires c.Valid() && CallerFits(u, c)
    ensures CallerFits(C.OnHangUp(u, branch), c)
  {
    if u.phase == C.InDialog {
      SaysFits(u, C.OnHangUp(u, branch), c, u.dialog.NextRequest(BYE, branch, NO_SIGNAL));
    }
  }

  lemma FailFits(u: C.Uac, c: C.Caller, cleanup: bool, branch: string)
    requires c.Valid() && CallerFits(u, c)
    ensures CallerFits(C.OnFail(u, cleanup, branch), c)
  {
    AbandonFits(u, c, cleanup, branch);
    SilentFits(u, u.Moves(C.Done), c);
  }

  lemma CallerStepFits(u: C.Uac, c: C.Caller, e: C.Event)
    requires c.Valid() && CallerFits(u, c)
    ensures CallerFits(C.Step(u, c, e), c)
  {
    match e
    case Receive(m) => ReceiveFits(u, c, m);
    case Proceed(sent, bye, verified, branch) => ProceedFits(u, c, sent, bye, verified, branch);
    case CancelTimer(sent) => CancelTimerFits(u, c, sent);
    case RingTimer(sent) => RingTimerFits(u, c, sent);
    case Deadline => DeadlineFits(u, c);
    case Retransmit => RetransmitFits(u, c);
    case HangUp(branch) => HangUpFits(u, c, branch);
    case Fail(cleanup, branch) => FailFits(u, c, cleanup, branch);
  }

  // What the server has sent, and recorded.

  predicate ServerSent(recorded: nat, x: S.Sent) {
    x.message.Response? ==>
      if x.toInvite then x.message.cseq == Some(CSeq(1, INVITE))
      else x.message.cseq.Some? ==>
        && x.message.cseq.value.verb != INVITE
        && (x.message.cseq.value.verb == INFO && 200 <= x.message.status < 300 ==>
            x.message.cseq.value.number <= 1 + recorded)
  }

  ghost predicate ServerLog(s: S.Uas) {
    forall x :: x in s.sent ==> ServerSent(|s.recorded|, x)
  }

  predicate OfCall(d: Dialog, c: C.Caller)
    requires c.Valid()
  {
    d.callId == c.invite.callId && d.inviteCSeq == 1 && d.inviteBranch == c.invite.branch && d.inviteACK.None?
  }

  predicate HasInvite(o: Option<Message>) {
    o.Some? ==> o.value.Response? && o.value.cseq == Some(CSeq(1, INVITE))
  }

  predicate ServerPhase(s: S.Uas, c: C.Caller)
    requires c.Valid()
  {
    match s.phase
    case Idle => s.recorded == []
    case Done => true
    case InDialog =>
      && s.invite == c.invite && OfCall(s.dialog, c) && s.dialog.remoteCSeq == 1 + |s.recorded|
      && s.dialog.lastInviteOK.Some?
    case Closing(bye) =>
      && s.invite == c.invite && OfCall(s.dialog, c) && s.dialog.remoteCSeq == 1 + |s.recorded|
      && s.dialog.lastInviteOK.Some?
      && bye.Request?
    case AwaitAck =>
      && s.invite == c.invite && OfCall(s.dialog, c) && s.dialog.remoteCSeq == 1 && s.recorded == []
      && (s.outcome.inviteFinalStatus == 200 ==> s.dialog.lastInviteOK.Some?)
    case _ => s.invite == c.invite && OfCall(s.dialog, c) && s.dialog.remoteCSeq == 1 && s.recorded == []
  }

  ghost predicate ServerFits(s: S.Uas, u: C.Uac, c: C.Caller)
    requires c.Valid()
  {
    && ServerPhase(s, c) && ServerLog(s)
    && HasInvite(s.final) && HasInvite(s.latest) && HasInvite(s.dialog.lastInviteOK)
    && u.completed <= |s.recorded| && s.recorded <= u.issued
    && (s.acked.Some? ==> Acknowledged(u))
  }

  lemma LogGrows(s: S.Uas, t: S.Uas, more: seq<S.Sent>)
    requires ServerLog(s) && t.sent == s.sent + more && |t.recorded| >= |s.recorded|
    requires forall x :: x in more ==> ServerSent(|t.recorded|, x)
    ensures ServerLog(t)
  {
    forall x | x in t.sent
      ensures ServerSent(|t.recorded|, x)
    {
      if x in s.sent {
        assert ServerSent(|s.recorded|, x);
      } else {
        assert x in more;
      }
    }
  }

  lemma LogNext(s: S.Uas, t: S.Uas, x: S.Sent)
    requires ServerLog(s) && t.sent == s.sent + [x] && |t.recorded| >= |s.recorded| && ServerSent(|t.recorded|, x)
    ensures ServerLog(t)
  {
    LogGrows(s, t, [x]);
  }

  lemma LogSame(s: S.Uas, t: S.Uas)
    requires ServerLog(s) && t.sent == s.sent && |t.recorded| >= |s.recorded|
    ensures ServerLog(t)
  {
    LogGrows(s, t, []);
  }

  /** A message of the caller that is not its INVITE is answered as what it is. */
  lemma OtherAnswered(u: C.Uac, c: C.Caller, m: Message, status: nat, tag: string, recorded: nat)
    requires c.Valid() && CallerSent(u, c, m) && m.Request? && m.verb != INVITE && m.verb != ACK
    requires m.verb == INFO ==> status >= 300
    ensures ServerSent(recorded, S.Sent(ResponseFor(m, status, tag), false))
  {
  }

  lemma InviteServed(s: S.Uas, u: C.Uac, c: C.Caller, b: S.Behavior, validation: S.Validation)
    requires c.Valid() && ServerFits(s, u, c) && s.phase == S.Idle && UasSafety.Undecided(s)
             && s.dialog.lastInviteOK.None?
    ensures ServerFits(S.OnInvite(s, b, c.invite, validation), u, c)
  {
    var t := S.OnInvite(s, b, c.invite, validation);
    if validation.Admit? && S.Admissible(c.invite) {
      LogSame(s, t);
    } else {
      LogNext(s, t, S.Sent(t.final.value, true));
    }
  }

  lemma IdleServed(s: S.Uas, u: C.Uac, c: C.Caller, b: S.Behavior, m: Message, validation: S.Validation)
    requires c.Valid() && ServerFits(s, u, c) && s.phase == S.Idle && UasSafety.PhaseFits(s) && CallerSent(u, c, m)
    ensures ServerFits(S.OnIdle(s, b, m, validation), u, c)
  {
    if m.Request? && m.verb == INVITE {
      InviteServed(s, u, c, b, validation);
    } else if m.Request? && (m.verb == INFO || m.verb == BYE) {
      OtherAnswered(u, c, m, 481, "", 0);
      LogNext(s, S.OnIdle(s, b, m, validation), S.Sent(ResponseFor(m, 481, ""), false));
    }
  }

  lemma ListenServed(s: S.Uas, u: C.Uac, c: C.Caller, m: Message)
    requires c.Valid() && ServerFits(s, u, c) && s.phase.Acting? && CallerSent(u, c, m)
    ensures ServerFits(S.OnListen(s, m), u, c) && ServerFits(S.OnRing(s, m), u, c)
  {
    var t := S.OnListen(s, m);
    if S.RepeatedInvite(s, m) {
      if s.latest.Some? {
        LogNext(s, t, S.Sent(s.latest.value, true));
      }
    } else if S.ValidCancel(s, m) {
      OtherAnswered(u, c, m, 200, s.dialog.localTag, 0);
      LogNext(s, t, S.Sent(ResponseFor(m, 200, s.dialog.localTag), false));
    } else if m.Request? && (m.verb == CANCEL || m.verb == BYE || m.verb == INFO) {
      OtherAnswered(u, c, m, 481, "", 0);
      LogNext(s, s.Says(ResponseFor(m, 481, "")), S.Sent(ResponseFor(m, 481, ""), false));
    }
  }

  lemma AwaitAckServed(s: S.Uas, u: C.Uac, c: C.Caller, m: Message)
    requires c.Valid() && ServerFits(s, u, c) && s.phase == S.AwaitAck && s.final.Some? && CallerSent(u, c, m)
    ensures ServerFits(S.OnAwaitAck(s, m), u, c)
  {
    var t := S.OnAwaitAck(s, m);
    if S.ValidAck(s, m) {
      LogSame(s, t);
    } else if t == s.Answers(s.final.value) {
      LogNext(s, t, S.Sent(s.final.value, true));
    } else if m.Request? && (m.verb == CANCEL || m.verb == BYE || m.verb == INFO) {
      OtherAnswered(u, c, m, 481, "", 0);
      LogNext(s, t, S.Sent(ResponseFor(m, 481, ""), false));
    }
  }

  /** What the dialog makes of a message of the caller. */
  lemma HandledInfo(d: Dialog, u: C.Uac, c: C.Caller, m: Message, r: nat)
    requires c.Valid() && CallerSent(u, c, m) && OfCall(d, c) && d.remoteCSeq == 1 + r && d.lastInviteOK.Some?
    requires u.completed <= r <= |u.issued| <= u.completed + 1
    ensures var h := Handle(d, m);
            && (m.Request? && RepeatsInvite(d, m) ==> h.sent == d.lastInviteOK)
            && (h.sent.Some? && !(m.Request? && RepeatsInvite(d, m)) ==>
                  ServerSent(if h.recorded.Some? then r + 1 else r, S.Sent(h.sent.value, false)))
            && (h.recorded.Some? ==> r < |u.issued| && h.recorded.value == u.issued[r] && h.dialog.remoteCSeq == 2 + r)
            && (h.recorded.None? && h.ending == Continues ==> h.dialog.remoteCSeq == 1 + r)
            && h.ending != Forked
            && h.dialog == d.(remoteCSeq := h.dialog.remoteCSeq)
  {
    if m.Request? && m.verb == INVITE {
      assert RepeatsInvite(d, m);
    }
  }

  lemma HandledServed(s: S.Uas, u: C.Uac, c: C.Caller, m: Message)
    requires c.Valid() && ServerFits(s, u, c) && CallerFits(u, c) && (s.phase == S.InDialog || s.phase.Closing?)
             && CallerSent(u, c, m)
    ensures ServerFits(S.OnHandled(s, m), u, c)
  {
    var t, h := S.OnHandled(s, m), Handle(s.dialog, m);
    HandledInfo(s.dialog, u, c, m, |s.recorded|);
    if h.sent.None? {
      LogSame(s, t);
    } else if m.Request? && RepeatsInvite(s.dialog, m) {
      LogNext(s, t, S.Sent(h.sent.value, true));
    } else {
      LogNext(s, t, S.Sent(h.sent.value, false));
    }
  }

  lemma ClosedServed(s: S.Uas, u: C.Uac, c: C.Caller, m: Message, bye: Message)
    requires c.Valid() && ServerFits(s, u, c) && s.phase == S.Closing(bye) && m.Response?
    ensures ServerFits(S.OnClosing(s, m, bye), u, c)
  {
    LogSame(s, S.OnClosing(s, m, bye));
  }

  lemma ClosingServed(s: S.Uas, u: C.Uac, c: C.Caller, m: Message, bye: Message)
    requires c.Valid() && ServerFits(s, u, c) && CallerFits(u, c) && s.phase == S.Closing(bye) && CallerSent(u, c, m)
    ensures ServerFits(S.OnClosing(s, m, bye), u, c)
  {
    if m.Request? {
      HandledServed(s, u, c, m);
    } else {
      ClosedServed(s, u, c, m, bye);
    }
  }

  lemma ReceiveServed(s: S.Uas, u: C.Uac, c: C.Caller, b: S.Behavior, m: Message, validation: S.Validation)
    requires c.Valid() && ServerFits(s, u, c) && CallerFits(u, c) && UasSafety.PhaseFits(s) && CallerSent(u, c, m)
    ensures ServerFits(S.OnReceive(s, b, m, validation), u, c)
  {
    match s.phase
    case Idle => IdleServed(s, u, c, b, m, validation);
    case Acting(_) => ListenServed(s, u, c, m);
    case AwaitAck => AwaitAckServed(s, u, c, m);
    case InDialog => HandledServed(s, u, c, m);
    case Closing(bye) => ClosingServed(s, u, c, m, bye);
    case _ =>
  }

  lemma CanceledServed(s: S.Uas, u: C.Uac, c: C.Caller)
    requires c.Valid() && ServerFits(s, u, c) && s.phase == S.Canceling
    ensures ServerFits(S.OnProceed(s), u, c)
  {
    var t := S.OnProceed(s);
    LogNext(s, t, S.Sent(t.final.value, true));
  }

  lemma ConcludeServed(s: S.Uas, u: C.Uac, c: C.Caller)
    requires c.Valid() && ServerFits(s, u, c) && s.phase.Acting? && s.phase.acts != [] && s.phase.acts[0].Finish?
    ensures ServerFits(S.OnProceed(s), u, c)
  {
    var t := S.OnProceed(s);
    LogNext(s, t, S.Sent(t.final.value, true));
  }

  lemma SayServed(s: S.Uas, u: C.Uac, c: C.Caller)
    requires c.Valid() && ServerFits(s, u, c) && s.phase.Acting? && s.phase.acts != [] && s.phase.acts[0].Say?
    ensures ServerFits(S.OnProceed(s), u, c)
  {
    var t := S.OnProceed(s);
    LogNext(s, t, S.Sent(t.latest.value, true));
  }

  lemma ProceedServed(s: S.Uas, u: C.Uac, c: C.Caller)
    requires c.Valid() && ServerFits(s, u, c)
    ensures ServerFits(S.OnProceed(s), u, c)
  {
    if s.phase == S.Canceling {
      CanceledServed(s, u, c);
    } else if s.phase.Acting? && s.phase.acts != [] && s.phase.acts[0].Finish? {
      ConcludeServed(s, u, c);
    } else if s.phase.Acting? && s.phase.acts != [] && s.phase.acts[0].Say? {
      SayServed(s, u, c);
    }
  }

  lemma LostServed(s: S.Uas, u: C.Uac, c: C.Caller)
    requires c.Valid() && ServerFits(s, u, c) && UasSafety.PhaseFits(s)
    ensures ServerFits(S.OnSendLost(s), u, c)
  {
    if s.phase.Acting? && s.phase.acts != [] {
      assert UasSafety.GoodAct(s.phase.acts[0]);
    }
    LogSame(s, S.OnSendLost(s));
  }

  lemma RetransmitServed(s: S.Uas, u: C.Uac, c: C.Caller)
    requires c.Valid() && ServerFits(s, u, c)
    ensures ServerFits(S.OnRetransmit(s), u, c)
  {
    match s.phase
    case AwaitAck =>
      if s.final.Some? {
        LogNext(s, S.OnRetransmit(s), S.Sent(s.final.value, true));
      }
    case Closing(bye) => LogNext(s, S.OnRetransmit(s), S.Sent(bye, false));
    case _ =>
  }

  lemma HangUpServed(s: S.Uas, u: C.Uac, c: C.Caller, cleanup: bool, branch: string)
    requires c.Valid() && ServerFits(s, u, c)
    ensures ServerFits(S.OnHangUp(s, branch), u, c)
    ensures ServerFits(S.OnFail(s, cleanup, branch), u, c)
  {
    var bye := S.Sent(s.dialog.NextRequest(BYE, branch, NO_SIGNAL), false);
    LogSame(s, s.Moves(S.Done));
    if s.phase == S.InDialog && !s.lossy {
      LogNext(s, S.OnHangUp(s, branch), bye);
      if cleanup {
        LogNext(s, S.OnFail(s, cleanup, branch), bye);
      }
    }
  }

  lemma ServerStepFits(s: S.Uas, u: C.Uac, c: C.Caller, b: S.Behavior, e: S.Event)
    requires c.Valid() && ServerFits(s, u, c) && CallerFits(u, c) && UasSafety.PhaseFits(s)
    requires e.Receive? ==> e.message in u.sent
    ensures ServerFits(S.Step(s, b, e), u, c)
  {
    match e
    case Receive(m, validation) => ReceiveServed(s, u, c, b, m, validation);
    case Deadline => LogSame(s, S.OnDeadline(s));
    case Retransmit => RetransmitServed(s, u, c);
    case Proceed => ProceedServed(s, u, c);
    case SendLost => LostServed(s, u, c);
    case HangUp(branch) => HangUpServed(s, u, c, false, branch);
    case Fail(cleanup, branch) => HangUpServed(s, u, c, cleanup, branch);
  }

  // Across the network.

  /** A final answer the caller can receive is the server's one final answer. */
  lemma FinalFromServer(s: S.Uas, c: C.Caller, u: C.Uac, m: Message)
    requires c.Valid() && UasSafety.AnswersFit(s) && ServerLog(s)
    requires S.Sent(m, true) in s.sent || S.Sent(m, false) in s.sent
    requires C.AnswersInvite(c, m) && m.status >= 200
    ensures s.final == Some(m)
  {
    assert S.Sent(m, true) in s.sent;
    var i :| 0 <= i < |s.sent| && s.sent[i] == S.Sent(m, true);
    assert UasSafety.AnswerFits(s, s.sent[i].message);
  }

  /** A success the caller can receive for an INFO means its digit was recorded. */
  lemma SuccessFromServer(s: S.Uas, m: Message, number: nat)
    requires ServerLog(s) && (S.Sent(m, true) in s.sent || S.Sent(m, false) in s.sent)
    requires m.Response? && 200 <= m.status < 300 && m.cseq == Some(CSeq(number, INFO))
    ensures number <= 1 + |s.recorded|
  {
  }

  /** What the two sides agree on at every moment of every run. */
  ghost predicate Joint(call: Call, c: C.Caller)
    requires c.Valid()
  {
    && UasSafety.Safe(call.server) && CallerFits(call.caller, c) && ServerFits(call.server, call.caller, c)
    && (call.caller.final.Some? ==> call.caller.final == call.server.final)
  }

  lemma OwnMoveFinal(u: C.Uac, c: C.Caller, e: C.Event)
    requires c.Valid() && !e.Receive?
    ensures C.Step(u, c, e).final == u.final
  {
    if e.Proceed? {
      ProceedFinal(u, c, e.sent, e.bye, e.verified, e.branch);
    }
  }

  lemma ProceedFinal(u: C.Uac, c: C.Caller, sent: bool, bye: bool, verified: bool, branch: string)
    requires c.Valid()
    ensures C.OnProceed(u, c, sent, bye, verified, branch).final == u.final
  {
  }

  lemma ReceiveFinal(u: C.Uac, c: C.Caller, m: Message)
    requires c.Valid()
    ensures var t := C.OnReceive(u, c, m).final;
            t == u.final || (t == Some(m) && C.AnswersInvite(c, m) && m.status >= 200)
  {
  }

  lemma CallerMoveFinal(call: Call, c: C.Caller, e: C.Event)
    requires c.Valid() && Joint(call, c) && Enabled(call, CallerMoves(e))
    ensures var t := C.Step(call.caller, c, e); t.final.Some? ==> t.final == call.server.final
  {
    if e.Receive? {
      ReceiveFinal(call.caller, c, e.message);
      if C.AnswersInvite(c, e.message) && e.message.status >= 200 {
        FinalFromServer(call.server, c, call.caller, e.message);
      }
    } else {
      OwnMoveFinal(call.caller, c, e);
    }
  }

  lemma ReceiveCounts(u: C.Uac, c: C.Caller, m: Message)
    requires c.Valid()
    ensures C.OnReceive(u, c, m).issued == u.issued
    ensures var t := C.OnReceive(u, c, m);
            t.completed == u.completed ||
            (t.completed == u.completed + 1 && u.phase.InfoWait? && m.Response? && C.AnswersRequest(u, m, u.phase.info)
             && 200 <= m.status < 300)
  {
    if u.phase.InfoWait? && m.Request? {
      HandledCounts(u, m);
    }
  }

  lemma CallerCompletes(call: Call, c: C.Caller, m: Message)
    requires c.Valid() && Joint(call, c) && FromServer(call, m)
    ensures C.OnReceive(call.caller, c, m).completed <= |call.server.recorded|
    ensures C.OnReceive(call.caller, c, m).issued == call.caller.issued
  {
    var u := call.caller;
    ReceiveCounts(u, c, m);
    if u.phase.InfoWait? && m.Response? && C.AnswersRequest(u, m, u.phase.info) && 200 <= m.status < 300 {
      SuccessFromServer(call.server, m, u.phase.info.cseq.value.number);
    }
  }

  lemma ProceedCounts(u: C.Uac, c: C.Caller, sent: bool, bye: bool, verified: bool, branch: string)
    requires c.Valid()
    ensures var t := C.OnProceed(u, c, sent, bye, verified, branch); t.completed == u.completed && u.issued <= t.issued
  {
  }

  lemma CallerOnlyReceives(u: C.Uac, c: C.Caller, e: C.Event)
    requires c.Valid() && !e.Receive?
    ensures C.Step(u, c, e).completed == u.completed && u.issued <= C.Step(u, c, e).issued
  {
    if e.Proceed? {
      ProceedCounts(u, c, e.sent, e.bye, e.verified, e.branch);
    }
  }

  lemma AcknowledgedStays(u: C.Uac, c: C.Caller, e: C.Event)
    requires c.Valid() && CallerFits(u, c) && Acknowledged(u)
    ensures Acknowledged(C.Step(u, c, e))
  {
    if e.Receive? {
      AcknowledgedReceives(u, c, e.message);
    }
  }

  lemma AcknowledgedReceives(u: C.Uac, c: C.Caller, m: Message)
    requires c.Valid() && CallerFits(u, c) && Acknowledged(u)
    ensures Acknowledged(C.OnReceive(u, c, m))
  {
  }

  lemma CallerProgress(call: Call, c: C.Caller, e: C.Event)
    requires c.Valid() && Joint(call, c) && Enabled(call, CallerMoves(e))
    ensures var t, u := C.Step(call.caller, c, e), call.caller;
            && u.issued <= t.issued && t.completed <= |call.server.recorded|
            && (Acknowledged(u) ==> Acknowledged(t))
  {
    if Acknowledged(call.caller) {
      AcknowledgedStays(call.caller, c, e);
    }
    if e.Receive? {
      CallerCompletes(call, c, e.message);
    } else {
      CallerOnlyReceives(call.caller, c, e);
    }
  }

  lemma ServerFitsLater(s: S.Uas, u: C.Uac, t: C.Uac, c: C.Caller)
    requires c.Valid() && ServerFits(s, u, c)
    requires u.issued <= t.issued && t.completed <= |s.recorded| && (Acknowledged(u) ==> Acknowledged(t))
    ensures ServerFits(s, t, c)
  {
  }

  lemma JointCaller(call: Call, c: C.Caller, b: S.Behavior, e: C.Event)
    requires c.Valid() && b.Valid() && Joint(call, c) && Enabled(call, CallerMoves(e))
    ensures Joint(Step(call, c, b, CallerMoves(e)), c)
  {
    CallerStepFits(call.caller, c, e);
    CallerMoveFinal(call, c, e);
    CallerProgress(call, c, e);
    ServerFitsLater(call.server, call.caller, C.Step(call.caller, c, e), c);
  }

  lemma FinalStays(s: S.Uas, b: S.Behavior, e: S.Event)
    requires UasSafety.PhaseFits(s)
    ensures s.final.Some? ==> S.Step(s, b, e).final == s.final
  {
    if e.Receive? {
      FinalKept(s, b, e.message, e.validation);
    }
  }

  lemma FinalKept(s: S.Uas, b: S.Behavior, m: Message, validation: S.Validation)
    requires UasSafety.PhaseFits(s)
    ensures s.final.Some? ==> S.OnReceive(s, b, m, validation).final == s.final
  {
  }

  lemma JointServer(call: Call, c: C.Caller, b: S.Behavior, e: S.Event)
    requires c.Valid() && b.Valid() && Joint(call, c) && Enabled(call, ServerMoves(e))
    ensures Joint(Step(call, c, b, ServerMoves(e)), c)
  {
    UasSafety.StepSafe(call.server, b, e);
    ServerStepFits(call.server, call.caller, c, b, e);
    FinalStays(call.server, b, e);
  }

  lemma JointStart(c: C.Caller, b: S.Behavior)
    requires c.Valid()
    ensures Joint(Call(C.IDLE, S.Waiting(b)), c)
  {
  }

  lemma {:induction false} RunJoint(c: C.Caller, b: S.Behavior, moves: seq<Move>)
    requires c.Valid() && b.Valid() && Possible(c, b, moves)
    ensures Joint(Run(c, b, moves), c)
  {
    if moves == [] {
      JointStart(c, b);
    } else {
      var front, move := moves[..|moves| - 1], moves[|moves| - 1];
      RunJoint(c, b, front);
      match move
      case CallerMoves(e) => JointCaller(Run(c, b, front), c, b, e);
      case ServerMoves(e) => JointServer(Run(c, b, front), c, b, e);
    }
  }

  lemma JointAgreement(call: Call, c: C.Caller)
    requires c.Valid() && Joint(call, c)
    ensures var u, s := call.caller.outcome, call.server.outcome;
            && (u.inviteFinalStatus != 0 && s.inviteFinalStatus != 0 ==> u.inviteFinalStatus == s.inviteFinalStatus)
            && (s.established ==> u.inviteFinalStatus == 200)
            && (u.established ==> call.server.final.Some? && call.server.final == call.caller.final)
  {
  }

  /**
   * The two sides never disagree about the final status; a call that is established to the server is answered to
   * the caller; and a call that is established to the caller rests on the server's one final answer.
   */
  lemma InviteAgreement(c: C.Caller, b: S.Behavior, moves: seq<Move>)
    requires c.Valid() && b.Valid() && Possible(c, b, moves)
    ensures var call := Run(c, b, moves);
            var u, s := call.caller.outcome, call.server.outcome;
            && (u.inviteFinalStatus != 0 && s.inviteFinalStatus != 0 ==> u.inviteFinalStatus == s.inviteFinalStatus)
            && (s.established ==> u.inviteFinalStatus == 200)
            && (u.established ==> call.server.final.Some? && call.server.final == call.caller.final)
  {
    RunJoint(c, b, moves);
    JointAgreement(Run(c, b, moves), c);
  }

  /** The recorded digits are the issued ones up to the last completed INFO, or one more. */
  lemma ExactlyOnceInfo(c: C.Caller, b: S.Behavior, moves: seq<Move>)
    requires c.Valid() && b.Valid() && Possible(c, b, moves)
    ensures var u, s := Run(c, b, moves).caller, Run(c, b, moves).server;
            && s.recorded <= u.issued <= c.digits
            && u.completed <= |s.recorded| <= u.completed + 1
  {
    RunJoint(c, b, moves);
  }
}
