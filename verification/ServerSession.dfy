/** The called side as the object that runs it: its waiting loops, update by update (outbound.go, signaling.go). */
module ServerSession {
  import opened Ints
  import opened Options
  import opened SipMessages
  import opened UserAgentServer
  import R = Retransmissions

  function StepAll(s: Uas, b: Behavior, events: seq<Event>): Uas {
    if events == [] then s else Step(StepAll(s, b, events[..|events| - 1]), b, events[|events| - 1])
  }

  lemma StepNext(s: Uas, b: Behavior, events: seq<Event>, n: nat)
    requires n < |events|
    ensures StepAll(s, b, events[..n + 1]) == Step(StepAll(s, b, events[..n]), b, events[n])
  {
    assert events[..n + 1][..n] == events[..n];
  }

  predicate IsRetransmit(e: Event) {
    e.Retransmit?
  }

  class ServerSession {
    const behavior: Behavior
    var phase: Phase
    var invite: Message
    var tag: string
    var dialog: Dialog
    var latest: Option<Message>
    var final: Option<Message>
    var acked: Option<Message>
    var outcome: Outcome
    var recorded: seq<char>
    var sent: seq<Sent>

    constructor (behavior: Behavior)
      ensures View() == Waiting(behavior) && this.behavior == behavior
    {
      this.behavior := behavior;
      phase, invite, tag, dialog := Idle, NO_MESSAGE, "", NO_DIALOG;
      latest, final, acked := None, None, None;
      outcome, recorded, sent := NO_OUTCOME, [], [];
    }

    ghost function View(): Uas
      reads this
    {
      Uas(phase, behavior.NetworkLoss?, invite, tag, dialog, latest, final, acked, outcome, recorded, sent)
    }

    /** Handles one message of an established dialog. */
    method HandleDialogRequest(message: Message) returns (ended: bool)
      requires phase == InDialog || phase.Closing?
      modifies this`dialog, this`sent, this`recorded, this`outcome, this`phase
      ensures View() == OnHandled(old(View()), message)
      ensures ended == (Handle(old(dialog), message).ending != Continues)
    {
      if message.Response? {
        if dialog.inviteACK.Some? && 200 <= message.status < 300
           && IsMatching(message, dialog.callId, dialog.inviteCSeq, INVITE) {
          if message.to.tag != dialog.remoteTag {
            phase := Done;
            return true;
          }
          sent := sent + [Sent(dialog.inviteACK.value, false)];
        }
        return false;
      }
      if message.callId != dialog.callId || message.verb == ACK {
        return false;
      }
      if RepeatsInvite(dialog, message) {
        sent := sent + [Sent(dialog.lastInviteOK.value, true)];
        return false;
      }
      if !OfDialog(dialog, message) {
        sent := sent + [Sent(ResponseFor(message, 481, ""), false)];
        return false;
      }
      if message.cseq.None? || message.cseq.value.verb != message.verb {
        sent := sent + [Sent(ResponseFor(message, 400, ""), false)];
        return false;
      }
      ended := HandleTransaction(message);
    }

    /** A request whose number decides whether it is new. */
    method HandleTransaction(message: Message) returns (ended: bool)
      requires message.Request? && message.callId == dialog.callId && message.verb != ACK
               && !RepeatsInvite(dialog, message)
      requires OfDialog(dialog, message) && message.cseq.Some? && message.cseq.value.verb == message.verb
      modifies this`dialog, this`sent, this`recorded, this`outcome, this`phase
      ensures View() == OnHandled(old(View()), message)
      ensures ended == (Handle(old(dialog), message).ending != Continues)
    {
      var duplicate := message.cseq.value.number <= dialog.remoteCSeq;
      if !duplicate {
        dialog := dialog.(remoteCSeq := message.cseq.value.number);
      }
      if message.verb == BYE {
        sent := sent + [Sent(ResponseFor(message, 200, ""), false)];
        if !duplicate {
          outcome := outcome.(terminatedBy := SystemUnderTest);
          phase := Done;
          return true;
        }
      } else if message.verb == INFO {
        sent := sent + [Sent(ResponseFor(message, message.signal.status, ""), false)];
        if message.signal.status == 200 && !duplicate {
          recorded := recorded + [message.signal.digit];
        }
      } else {
        sent := sent + [Sent(ResponseFor(message, 501, ""), false)];
      }
      ended := false;
    }

    /** One message while the final answer waits for its ACK. */
    method AcceptWhileWaiting(message: Message) returns (acknowledged: bool)
      requires phase == AwaitAck && final.Some?
      modifies this`acked, this`sent, this`outcome, this`phase
      ensures View() == OnAwaitAck(old(View()), message)
      ensures acknowledged == (phase != AwaitAck)
    {
      if ValidAck(Uas(phase, false, invite, tag, dialog, latest, final, acked, outcome, recorded, sent), message) {
        acked := Some(message);
        if outcome.inviteFinalStatus == 200 {
          phase := InDialog;
          outcome := outcome.(established := true);
        } else {
          phase := Done;
        }
        return true;
      }
      if message.Request? && message.verb == INVITE && invite.Request? && invite.cseq.Some?
         && IsMatching(message, invite.callId, invite.cseq.value.number, INVITE) && message.branch == invite.branch {
        sent := sent + [Sent(final.value, true)];
      } else if message.Request? && (message.verb == CANCEL || message.verb == BYE || message.verb == INFO) {
        sent := sent + [Sent(ResponseFor(message, 481, ""), false)];
      }
      acknowledged := false;
    }

    /** One event while the final answer waits for its ACK. */
    method ServeWhileWaiting(e: Event)
      requires phase == AwaitAck && final.Some?
      modifies this`acked, this`sent, this`outcome, this`phase
      ensures View() == Step(old(View()), behavior, e)
    {
      match e
      case Receive(message, _) =>
        var acknowledged := AcceptWhileWaiting(message);
      case Retransmit =>
        sent := sent + [Sent(final.value, true)];
      case Fail(_, _) =>
        phase := Done;
      case _ =>
    }

    /**
     * Retransmits the final answer until its ACK comes, the input ends or something fails. `waits` are the
     * durations the retransmission timer was armed with.
     */
    method WaitForInviteAck(events: seq<Event>, t1: nat, t2: nat) returns (n: nat, waits: seq<nat>)
      requires phase == AwaitAck && final.Some? && t1 <= t2
      modifies this`acked, this`sent, this`outcome, this`phase
      ensures n <= |events| && View() == StepAll(old(View()), behavior, events[..n])
      ensures n < |events| ==> phase != AwaitAck
      ensures |waits| == 1 + R.Fired(events[..n], IsRetransmit) && R.Scheduled(waits, t1, t2)
      ensures R.Bounded(waits, R.Fired(events[..n], IsRetransmit), t1, t2)
    {
      n := 0;
      var interval := t1;
      waits := [interval];
      while n < |events| && phase == AwaitAck
        invariant n <= |events| && View() == StepAll(old(View()), behavior, events[..n])
        invariant |waits| == 1 + R.Fired(events[..n], IsRetransmit) && interval == waits[|waits| - 1]
        invariant R.Scheduled(waits, t1, t2)
      {
        StepNext(old(View()), behavior, events, n);
        R.FiredNext(events, IsRetransmit, n);
        ServeWhileWaiting(events[n]);
        if events[n].Retransmit? {
          R.ScheduledNext(waits, t1, t2);
          interval := Min(interval * 2, t2);
          waits := waits + [interval];
        }
        n := n + 1;
      }
      R.LoopBounded(waits, R.Fired(events[..n], IsRetransmit), t1, t2);
    }

    /** One message while the server waits for the time of its next act. */
    method AcceptWhileListening(message: Message)
      requires phase.Acting?
      modifies this`sent, this`phase
      ensures View() == OnListen(old(View()), message)
    {
      var s := Uas(phase, false, invite, tag, dialog, latest, final, acked, outcome, recorded, sent);
      if RepeatedInvite(s, message) {
        if latest.Some? {
          sent := sent + [Sent(latest.value, true)];
        }
      } else if ValidCancel(s, message) {
        sent := sent + [Sent(ResponseFor(message, 200, dialog.localTag), false)];
        phase := Canceling;
      } else if message.Request? && (message.verb == CANCEL || message.verb == BYE || message.verb == INFO) {
        sent := sent + [Sent(ResponseFor(message, 481, ""), false)];
      }
    }

    /** Waits for the time of the next act; a valid CANCEL ends the waiting for good. */
    method WaitForBehaviorDeadline(events: seq<Event>) returns (n: nat, canceled: bool)
      requires phase.Acting? && phase.acts != [] && phase.acts[0] == Listen
      modifies this`sent, this`phase
      ensures n <= |events| && View() == StepAll(old(View()), behavior, events[..n])
      ensures canceled == (phase == Canceling)
      ensures n < |events| ==> phase == Canceling || phase == Done || phase == Acting(old(phase.acts)[1..])
    {
      n := 0;
      var waiting := true;
      while n < |events| && waiting
        invariant n <= |events| && View() == StepAll(old(View()), behavior, events[..n])
        invariant waiting ==> phase == old(phase)
        invariant !waiting ==> phase == Canceling || phase == Done || phase == Acting(old(phase.acts)[1..])
      {
        StepNext(old(View()), behavior, events, n);
        match events[n] {
          case Receive(message, _) =>
            AcceptWhileListening(message);
            waiting := phase != Canceling;
          case Deadline =>
            phase := Acting(phase.acts[1..]);
            waiting := false;
          case Fail(_, _) =>
            phase := Done;
            waiting := false;
          case _ =>
        }
        n := n + 1;
      }
      canceled := phase == Canceling;
    }
  }
}
