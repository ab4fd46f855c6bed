/** What every run of the called side keeps, whatever arrives. */
module UasSafety {
  import opened Options
  import opened SipMessages
  import opened UserAgentServer

  /** The tag all tagged answers to the INVITE carry. */
  function ToTag(s: Uas): string {
    if s.invite.Request? && s.invite.to.tag != "" then s.invite.to.tag else s.tag
  }

  /** An answer to the INVITE: a provisional one, or the one final message. */
  ghost predicate AnswerFits(s: Uas, m: Message) {
    && m.Response?
    && (m.to.tag == "" || m.to.tag == ToTag(s))
    && (m.status >= 200 ==> s.final == Some(m))
  }

  ghost predicate AnswersFit(s: Uas) {
    forall i :: 0 <= i < |s.sent| && s.sent[i].toInvite ==> AnswerFits(s, s.sent[i].message)
  }

  /** Once a final answer went out, every answer is final. */
  ghost predicate FinalLast(sent: seq<Sent>) {
    forall i, j :: 0 <= i < j < |sent| && sent[i].toInvite && sent[j].toInvite
                   && sent[i].message.Response? && sent[j].message.Response? ==>
      sent[i].message.status >= 200 ==> sent[j].message.status >= 200
  }

  predicate GoodAct(act: Act) {
    match act
    case Say(status) => 100 <= status < 200
    case Finish(status, lenient) => 200 <= status && (status < 300 ==> status == 200 && !lenient)
    case _ => true
  }

  ghost predicate GoodActs(acts: seq<Act>) {
    forall i :: 0 <= i < |acts| ==> GoodAct(acts[i])
  }

  ghost predicate DialogFits(s: Uas) {
    && s.dialog.inviteACK.None?
    && (s.dialog.lastInviteOK.Some? ==> s.dialog.lastInviteOK == s.final)
  }

  predicate Undecided(s: Uas) {
    s.final.None? && s.outcome == NO_OUTCOME && s.acked.None? && s.recorded == []
  }

  ghost predicate NothingAnswered(sent: seq<Sent>) {
    forall i :: 0 <= i < |sent| ==> !sent[i].toInvite
  }

  ghost predicate PhaseFits(s: Uas) {
    match s.phase
    case Idle => Undecided(s) && s.dialog.lastInviteOK.None? && s.latest.None? && NothingAnswered(s.sent)
    case Acting(acts) =>
      && Undecided(s) && s.dialog.lastInviteOK.None? && s.invite.Request? && s.dialog.localTag == s.tag
      && GoodActs(acts)
    case Canceling => Undecided(s) && s.dialog.lastInviteOK.None? && s.invite.Request? && s.dialog.localTag == s.tag
    case AwaitAck =>
      && s.final.Some? && s.invite.Request? && !s.outcome.established && s.outcome.terminatedBy == Nobody
      && s.recorded == []
    case InDialog => s.outcome.established && s.outcome.terminatedBy == Nobody
    case Closing(_) => s.outcome.established && s.outcome.terminatedBy == Nobody
    case Done => true
  }

  ghost predicate OutcomeFits(s: Uas) {
    var o := s.outcome;
    && (s.final.Some? ==>
        && s.final.value.Response? && s.final.value.status >= 200
        && (s.final.value.to.tag == "" || s.final.value.to.tag == ToTag(s)))
    && (o.inviteFinalStatus != 0 ==> s.final.Some? && s.final.value.status == o.inviteFinalStatus)
    && (o.established ==> o.inviteFinalStatus == 200 && s.acked.Some? && ValidAck(s, s.acked.value))
    && (o.canceled ==> o.inviteFinalStatus == 487 && !o.established)
    && (o.terminatedBy != Nobody ==> o.established && s.phase == Done)
    && (s.recorded != [] ==> o.established)
    && (s.latest.Some? ==>
        && s.latest.value.Response? && s.latest.value.status < 200
        && (s.latest.value.to.tag == "" || s.latest.value.to.tag == ToTag(s)))
  }

  ghost predicate Safe(s: Uas) {
    AnswersFit(s) && FinalLast(s.sent) && DialogFits(s) && PhaseFits(s) && OutcomeFits(s)
  }

  // Sending keeps the log in order.

  ghost predicate LogFits(s: Uas) {
    AnswersFit(s) && FinalLast(s.sent)
  }

  lemma LogAnswer(s: Uas, t: Uas, m: Message)
    requires LogFits(s) && t.sent == s.sent + [Sent(m, true)] && AnswerFits(t, m)
    requires ToTag(t) == ToTag(s) && (s.final.Some? ==> t.final == s.final && m.status >= 200)
    ensures LogFits(t)
  {
    forall i | 0 <= i < |t.sent| && t.sent[i].toInvite
      ensures AnswerFits(t, t.sent[i].message)
    {
      if i < |s.sent| {
        assert AnswerFits(s, s.sent[i].message);
      }
    }
    forall i | 0 <= i < |s.sent| && s.sent[i].toInvite
      ensures s.sent[i].message.status >= 200 ==> m.status >= 200
    {
      assert AnswerFits(s, s.sent[i].message);
    }
  }

  lemma LogOther(s: Uas, t: Uas)
    requires LogFits(s) && (t.sent == s.sent || exists m :: t.sent == s.sent + [Sent(m, false)])
    requires ToTag(t) == ToTag(s) && t.final == s.final
    ensures LogFits(t)
  {
    forall i | 0 <= i < |t.sent| && t.sent[i].toInvite
      ensures AnswerFits(t, t.sent[i].message)
    {
      assert t.sent[i] == s.sent[i];
      assert AnswerFits(s, s.sent[i].message);
    }
  }

  lemma LogSays(s: Uas, t: Uas, m: Message)
    requires LogFits(s) && t.sent == s.sent + [Sent(m, false)]
    requires ToTag(t) == ToTag(s) && t.final == s.final
    ensures LogFits(t)
  {
    LogOther(s, t);
  }

  lemma LogFirst(s: Uas, t: Uas)
    requires NothingAnswered(s.sent)
    requires t.sent == s.sent || (exists m :: t.sent == s.sent + [Sent(m, true)] && AnswerFits(t, m))
    ensures LogFits(t)
  {
  }

  // The acts of every behaviour.

  lemma ActsGood(b: Behavior, negotiation: Negotiation)
    requires b.Valid()
    ensures GoodActs(ActsOf(b, negotiation))
  {
  }

  // Every step keeps everything.

  lemma InviteSafe(s: Uas, b: Behavior, m: Message, validation: Validation)
    requires Safe(s) && s.phase == Idle && b.Valid() && m.Request?
    ensures Safe(OnInvite(s, b, m, validation))
  {
    var t := OnInvite(s, b, m, validation);
    if validation.Admit? && Admissible(m) {
      ActsGood(b, validation.negotiation);
      LogFirst(s, t);
    } else {
      assert AnswerFits(t, t.final.value);
      LogFirst(s, t);
    }
  }

  lemma IdleSafe(s: Uas, b: Behavior, m: Message, validation: Validation)
    requires Safe(s) && s.phase == Idle && b.Valid()
    ensures Safe(OnIdle(s, b, m, validation))
  {
    if m.Request? && m.verb == INVITE {
      InviteSafe(s, b, m, validation);
    } else if m.Request? && (m.verb == INFO || m.verb == BYE) {
      LogSays(s, OnIdle(s, b, m, validation), ResponseFor(m, 481, ""));
    }
  }

  lemma ListenSafe(s: Uas, m: Message)
    requires Safe(s) && s.phase.Acting?
    ensures Safe(OnListen(s, m)) && Safe(OnRing(s, m))
  {
    if RepeatedInvite(s, m) {
      if s.latest.Some? {
        LogAnswer(s, OnListen(s, m), s.latest.value);
      }
    } else if ValidCancel(s, m) {
      LogSays(s, OnListen(s, m), ResponseFor(m, 200, s.dialog.localTag));
    } else if m.Request? && (m.verb == CANCEL || m.verb == BYE || m.verb == INFO) {
      LogSays(s, s.Says(ResponseFor(m, 481, "")), ResponseFor(m, 481, ""));
    }
  }

  lemma AckSafe(s: Uas, m: Message)
    requires Safe(s) && s.phase == AwaitAck && ValidAck(s, m)
    ensures Safe(OnAwaitAck(s, m))
  {
    LogOther(s, OnAwaitAck(s, m));
  }

  lemma UnacknowledgedSafe(s: Uas, m: Message)
    requires Safe(s) && s.phase == AwaitAck && !ValidAck(s, m)
    ensures Safe(OnAwaitAck(s, m))
  {
    var t := OnAwaitAck(s, m);
    if t == s.Answers(s.final.value) {
      LogAnswer(s, t, s.final.value);
    } else if m.Request? && (m.verb == CANCEL || m.verb == BYE || m.verb == INFO) {
      LogSays(s, t, ResponseFor(m, 481, ""));
    }
  }

  lemma AwaitAckSafe(s: Uas, m: Message)
    requires Safe(s) && s.phase == AwaitAck
    ensures Safe(OnAwaitAck(s, m))
  {
    if ValidAck(s, m) {
      AckSafe(s, m);
    } else {
      UnacknowledgedSafe(s, m);
    }
  }

  lemma HandleKeepsDialog(d: Dialog, m: Message)
    ensures var h := Handle(d, m);
            && h.dialog == d.(remoteCSeq := h.dialog.remoteCSeq)
            && (m.Request? && RepeatsInvite(d, m) && h.sent.Some? ==> h.sent == d.lastInviteOK && h.ending == Continues)
  {
  }

  lemma HandledSafe(s: Uas, m: Message)
    requires Safe(s) && (s.phase == InDialog || s.phase.Closing?)
    ensures Safe(OnHandled(s, m))
  {
    var t, h := OnHandled(s, m), Handle(s.dialog, m);
    HandleKeepsDialog(s.dialog, m);
    if h.sent.None? {
      LogOther(s, t);
    } else if m.Request? && RepeatsInvite(s.dialog, m) {
      LogAnswer(s, t, h.sent.value);
    } else {
      LogSays(s, t, h.sent.value);
    }
  }

  lemma ClosedSafe(s: Uas, m: Message, bye: Message)
    requires Safe(s) && s.phase == Closing(bye) && m.Response?
    ensures Safe(OnClosing(s, m, bye))
  {
    var t := OnClosing(s, m, bye);
    if t != s {
      EndedSafe(s, t, t.outcome.terminatedBy);
    }
  }

  lemma EndedSafe(s: Uas, t: Uas, party: CallParty)
    requires Safe(s) && s.phase.Closing? && t == s.(outcome := s.outcome.(terminatedBy := party), phase := Done)
    ensures Safe(t)
  {
    LogOther(s, t);
  }

  lemma ClosingSafe(s: Uas, m: Message, bye: Message)
    requires Safe(s) && s.phase == Closing(bye)
    ensures Safe(OnClosing(s, m, bye))
  {
    if m.Request? {
      HandledSafe(s, m);
    } else {
      ClosedSafe(s, m, bye);
    }
  }

  lemma ProceedSafe(s: Uas)
    requires Safe(s)
    ensures Safe(OnProceed(s))
  {
    var t := OnProceed(s);
    if s.invite.Request? && s.phase == Canceling {
      LogAnswer(s, t, ResponseFor(s.invite, 487, s.dialog.localTag));
    } else if s.invite.Request? && s.phase.Acting? && s.phase.acts != [] {
      var act := s.phase.acts[0];
      assert GoodAct(act);
      if act.Say? || act.Finish? {
        LogAnswer(s, t, t.sent[|s.sent|].message);
      }
    }
  }

  lemma LostSafe(s: Uas)
    requires Safe(s)
    ensures Safe(OnSendLost(s))
  {
    var t := OnSendLost(s);
    if t != s {
      assert GoodAct(s.phase.acts[0]);
      forall i | 0 <= i < |t.sent| && t.sent[i].toInvite
        ensures AnswerFits(t, t.sent[i].message)
      {
        assert AnswerFits(s, s.sent[i].message);
      }
    }
  }

  lemma RetransmitSafe(s: Uas)
    requires Safe(s)
    ensures Safe(OnRetransmit(s))
  {
    if s.phase == AwaitAck {
      LogAnswer(s, OnRetransmit(s), s.final.value);
    } else if s.phase.Closing? {
      LogSays(s, OnRetransmit(s), s.phase.bye);
    }
  }

  lemma DeadlineSafe(s: Uas)
    requires Safe(s)
    ensures Safe(OnDeadline(s))
  {
    LogOther(s, OnDeadline(s));
  }

  lemma HangUpSafe(s: Uas, branch: string)
    requires Safe(s)
    ensures Safe(OnHangUp(s, branch))
  {
    if s.phase == InDialog && !s.lossy {
      LogSays(s, OnHangUp(s, branch), s.dialog.NextRequest(BYE, branch, NO_SIGNAL));
    }
  }

  lemma FailSafe(s: Uas, cleanup: bool, branch: string)
    requires Safe(s)
    ensures Safe(OnFail(s, cleanup, branch))
  {
    if s.phase == InDialog && !s.lossy && cleanup {
      LogSays(s, OnFail(s, cleanup, branch), s.dialog.NextRequest(BYE, branch, NO_SIGNAL));
    } else {
      LogOther(s, OnFail(s, cleanup, branch));
    }
  }

  lemma ReceiveSafe(s: Uas, b: Behavior, m: Message, validation: Validation)
    requires Safe(s) && b.Valid()
    ensures Safe(OnReceive(s, b, m, validation))
  {
    match s.phase
    case Idle => IdleSafe(s, b, m, validation);
    case Acting(_) => ListenSafe(s, m);
    case AwaitAck => AwaitAckSafe(s, m);
    case InDialog => HandledSafe(s, m);
    case Closing(bye) => ClosingSafe(s, m, bye);
    case _ =>
  }

  lemma StepSafe(s: Uas, b: Behavior, e: Event)
    requires Safe(s) && b.Valid()
    ensures Safe(Step(s, b, e))
  {
    match e
    case Receive(m, validation) => ReceiveSafe(s, b, m, validation);
    case Proceed => ProceedSafe(s);
    case SendLost => LostSafe(s);
    case Deadline => DeadlineSafe(s);
    case Retransmit => RetransmitSafe(s);
    case HangUp(branch) => HangUpSafe(s, branch);
    case Fail(cleanup, branch) => FailSafe(s, cleanup, branch);
  }

  /** Every run of the called side, under any input, is safe. */
  lemma {:induction false} RunSafe(b: Behavior, events: seq<Event>)
    requires b.Valid()
    ensures Safe(Run(b, events))
  {
    if events != [] {
      RunSafe(b, events[..|events| - 1]);
      StepSafe(Run(b, events[..|events| - 1]), b, events[|events| - 1]);
    }
  }

  // Where a 487 comes from.

  /** The behaviour itself ends the call with a 487. */
  predicate FailsAsCanceled(b: Behavior) {
    b.EarlyFailure? && b.finalStatus == 487
  }

  predicate IsTermination(act: Act) {
    act.Finish? && act.status == 487
  }

  /** No act gives a 487, and a 487 that was given answers a CANCEL. */
  ghost predicate CancelOnly(s: Uas) {
    && (s.phase.Acting? ==> forall i :: 0 <= i < |s.phase.acts| ==> !IsTermination(s.phase.acts[i]))
    && (s.final.Some? && s.final.value.Response? && s.final.value.status == 487 ==> s.outcome.canceled)
  }

  lemma ActsCancelOnly(b: Behavior, negotiation: Negotiation)
    requires !FailsAsCanceled(b)
    ensures forall i :: 0 <= i < |ActsOf(b, negotiation)| ==> !IsTermination(ActsOf(b, negotiation)[i])
  {
  }

  /** The final answer stays what it is, and no act is added. */
  predicate Keeps(s: Uas, t: Uas) {
    t.final == s.final && t.outcome.canceled == s.outcome.canceled && (t.phase.Acting? ==> t.phase == s.phase)
  }

  lemma HandledKeeps(s: Uas, m: Message)
    ensures Keeps(s, OnHandled(s, m))
  {
  }

  lemma ListenKeeps(s: Uas, m: Message)
    ensures Keeps(s, OnListen(s, m)) && Keeps(s, OnRing(s, m))
  {
  }

  lemma AwaitAckKeeps(s: Uas, m: Message)
    requires s.final.Some?
    ensures Keeps(s, OnAwaitAck(s, m))
  {
  }

  lemma ClosingKeeps(s: Uas, m: Message, bye: Message)
    ensures Keeps(s, OnClosing(s, m, bye))
  {
    HandledKeeps(s, m);
  }

  lemma ReceiveKeeps(s: Uas, b: Behavior, m: Message, validation: Validation)
    requires s.phase != Idle
    ensures Keeps(s, OnReceive(s, b, m, validation))
  {
    match s.phase
    case Acting(_) => ListenKeeps(s, m);
    case AwaitAck =>
      if s.final.Some? {
        AwaitAckKeeps(s, m);
      }
    case InDialog => HandledKeeps(s, m);
    case Closing(bye) => ClosingKeeps(s, m, bye);
    case _ =>
  }

  lemma InviteCancelOnly(s: Uas, b: Behavior, m: Message, validation: Validation)
    requires m.Request? && !FailsAsCanceled(b) && CancelOnly(s)
    ensures CancelOnly(OnInvite(s, b, m, validation))
  {
    if validation.Admit? {
      ActsCancelOnly(b, validation.negotiation);
    }
  }

  lemma IdleCancelOnly(s: Uas, b: Behavior, m: Message, validation: Validation)
    requires CancelOnly(s) && s.phase == Idle && !FailsAsCanceled(b)
    ensures CancelOnly(OnIdle(s, b, m, validation))
  {
    if m.Request? && m.verb == INVITE {
      InviteCancelOnly(s, b, m, validation);
    }
  }

  lemma ReceiveCancelOnly(s: Uas, b: Behavior, m: Message, validation: Validation)
    requires CancelOnly(s) && !FailsAsCanceled(b)
    ensures CancelOnly(OnReceive(s, b, m, validation))
  {
    if s.phase == Idle {
      IdleCancelOnly(s, b, m, validation);
    } else {
      ReceiveKeeps(s, b, m, validation);
    }
  }

  lemma StepCancelOnly(s: Uas, b: Behavior, e: Event)
    requires CancelOnly(s) && !FailsAsCanceled(b)
    ensures CancelOnly(Step(s, b, e))
  {
    if e.Receive? {
      ReceiveCancelOnly(s, b, e.message, e.validation);
    }
  }

  /** Unless the behaviour itself fails with it, a 487 is given exactly to a CANCEL. */
  lemma {:induction false} RunCanceled(b: Behavior, events: seq<Event>)
    requires b.Valid() && !FailsAsCanceled(b)
    ensures var s := Run(b, events);
            && CancelOnly(s)
            && (s.outcome.canceled <==> s.final.Some? && s.final.value.Response? && s.final.value.status == 487)
  {
    RunSafe(b, events);
    if events != [] {
      RunCanceled(b, events[..|events| - 1]);
      StepCancelOnly(Run(b, events[..|events| - 1]), b, events[|events| - 1]);
    }
  }

  /** What a reader of the outcome may rely on. */
  lemma RunOutcome(b: Behavior, events: seq<Event>)
    requires b.Valid()
    ensures var s := Run(b, events);
            && (s.outcome.established ==>
                s.outcome.inviteFinalStatus == 200 && s.acked.Some? && ValidAck(s, s.acked.value))
            && (s.outcome.canceled ==> s.outcome.inviteFinalStatus == 487 && !s.outcome.established)
            && (s.outcome.terminatedBy != Nobody ==> s.outcome.established)
            && (s.recorded != [] ==> s.outcome.established)
    ensures var sent := Run(b, events).sent;
            forall i, j :: 0 <= i < j < |sent| && sent[i].toInvite && sent[j].toInvite ==>
              && sent[i].message.Response? && sent[j].message.Response?
              && (sent[i].message.status >= 200 ==> sent[j].message == sent[i].message)
              && (sent[i].message.to.tag != "" && sent[j].message.to.tag != "" ==>
                  sent[i].message.to.tag == sent[j].message.to.tag)
  {
    RunSafe(b, events);
    var s := Run(b, events);
    forall i, j | 0 <= i < j < |s.sent| && s.sent[i].toInvite && s.sent[j].toInvite
      ensures s.sent[i].message.Response? && s.sent[j].message.Response?
      ensures s.sent[i].message.status >= 200 ==> s.sent[j].message == s.sent[i].message
      ensures s.sent[i].message.to.tag != "" && s.sent[j].message.to.tag != "" ==>
              s.sent[i].message.to.tag == s.sent[j].message.to.tag
    {
      assert AnswerFits(s, s.sent[i].message) && AnswerFits(s, s.sent[j].message);
    }
  }

  /** What is decided stays decided. */
  ghost predicate Settled(o: Outcome, later: Outcome) {
    && (o.inviteFinalStatus != 0 ==> later.inviteFinalStatus == o.inviteFinalStatus)
    && (o.established ==> later.established)
    && (o.canceled ==> later.canceled)
    && (o.terminatedBy != Nobody ==> later.terminatedBy == o.terminatedBy)
  }

  lemma StepSettled(s: Uas, b: Behavior, e: Event)
    requires Safe(s)
    ensures Settled(s.outcome, Step(s, b, e).outcome)
  {
    if e.Receive? {
      ReceiveSettled(s, b, e.message, e.validation);
    }
  }

  lemma ReceiveSettled(s: Uas, b: Behavior, m: Message, validation: Validation)
    requires Safe(s)
    ensures Settled(s.outcome, OnReceive(s, b, m, validation).outcome)
  {
    match s.phase
    case AwaitAck => AcknowledgedSettled(s, m);
    case InDialog => HandledSettled(s, m);
    case Closing(bye) => HandledSettled(s, m);
    case _ =>
  }

  lemma AcknowledgedSettled(s: Uas, m: Message)
    requires Safe(s) && s.phase == AwaitAck
    ensures Settled(s.outcome, OnAwaitAck(s, m).outcome)
  {
  }

  lemma HandledSettled(s: Uas, m: Message)
    requires Safe(s) && s.outcome.terminatedBy == Nobody
    ensures Settled(s.outcome, OnHandled(s, m).outcome)
  {
  }

  lemma StepAcked(s: Uas, b: Behavior, e: Event)
    ensures var t := Step(s, b, e); t.acked != s.acked ==> e.Receive? && t.acked == Some(e.message)
  {
  }

  /** No part of the outcome changes twice. */
  lemma {:induction false} RunSettled(b: Behavior, events: seq<Event>, n: nat)
    requires b.Valid() && n <= |events|
    ensures Settled(Run(b, events[..n]).outcome, Run(b, events).outcome)
  {
    if n == |events| {
      assert events[..n] == events;
    } else {
      var front := events[..|events| - 1];
      assert front[..n] == events[..n];
      RunSettled(b, front, n);
      RunSafe(b, front);
      StepSettled(Run(b, front), b, events[|events| - 1]);
    }
  }

  /** The ACK of an established call really arrived. */
  lemma {:induction false} AckArrived(b: Behavior, events: seq<Event>) returns (i: nat)
    requires b.Valid() && Run(b, events).acked.Some?
    ensures i < |events| && events[i].Receive? && Some(events[i].message) == Run(b, events).acked
  {
    var front := events[..|events| - 1];
    StepAcked(Run(b, front), b, events[|events| - 1]);
    i := |events| - 1;
    if Run(b, events).acked == Run(b, front).acked {
      i := AckArrived(b, front);
    }
  }
}
