/** The calling side as the object that runs it: its transaction loops, update by update (inbound.go, dialog.go). */
module ClientSession {
  import opened Ints
  import opened Options
  import opened SipMessages
  import opened UserAgentClient
  import R = Retransmissions

  function StepAll(s: Uac, c: Caller, events: seq<Event>): Uac
    requires c.Valid()
  {
    if events == [] then s else Step(StepAll(s, c, events[..|events| - 1]), c, events[|events| - 1])
  }

  lemma StepNext(s: Uac, c: Caller, events: seq<Event>, n: nat)
    requires c.Valid() && n < |events|
    ensures StepAll(s, c, events[..n + 1]) == Step(StepAll(s, c, events[..n]), c, events[n])
  {
    assert events[..n + 1][..n] == events[..n];
  }

  predicate IsRetransmit(e: Event) {
    e.Retransmit?
  }

  /** A provisional answer to the INVITE has come. */
  predicate Ringing(c: Caller, events: seq<Event>)
    requires c.Valid()
  {
    events != [] &&
    (Ringing(c, events[..|events| - 1]) || IsProvisional(c, events[|events| - 1]))
  }

  predicate IsProvisional(c: Caller, e: Event)
    requires c.Valid()
  {
    e.Receive? && AnswersInvite(c, e.message) && e.message.status < 200
  }

  /** How often the retransmission timer ran out before the first provisional answer. */
  function Resends(c: Caller, events: seq<Event>): nat
    requires c.Valid()
  {
    if events == [] then 0
    else Resends(c, events[..|events| - 1])
         + if events[|events| - 1].Retransmit? && !Ringing(c, events[..|events| - 1]) then 1 else 0
  }

  lemma ResendsNext(c: Caller, events: seq<Event>, n: nat)
    requires c.Valid() && n < |events|
    ensures Ringing(c, events[..n + 1]) == (Ringing(c, events[..n]) || IsProvisional(c, events[n]))
    ensures Resends(c, events[..n + 1])
         == Resends(c, events[..n]) + if events[n].Retransmit? && !Ringing(c, events[..n]) then 1 else 0
  {
    assert events[..n + 1][..n] == events[..n];
  }

  /** How many copies of a message went out. */
  function Copies(sent: seq<Message>, m: Message): nat {
    if sent == [] then 0 else Copies(sent[..|sent| - 1], m) + if sent[|sent| - 1] == m then 1 else 0
  }

  lemma CopiesNext(sent: seq<Message>, x: Message, m: Message)
    ensures Copies(sent + [x], m) == Copies(sent, m) + if x == m then 1 else 0
  {
    assert (sent + [x])[..|sent|] == sent;
  }

  lemma CallingStep(s: Uac, c: Caller, e: Event)
    requires c.Valid() && s.phase.Calling?
    ensures var t := Step(s, c, e);
            && (t.phase.Calling? ==> t.phase.provisional == (s.phase.provisional || IsProvisional(c, e)))
            && Copies(t.sent, c.invite)
               == Copies(s.sent, c.invite) + if e.Retransmit? && !s.phase.provisional then 1 else 0
  {
    CopiesNext(s.sent, CancelOf(c.invite), c.invite);
    CopiesNext(s.sent, c.invite, c.invite);
  }

  /** While the INVITE waits, it is sent again for every timer before the first provisional answer, not after it. */
  lemma {:induction false} InviteCopies(s: Uac, c: Caller, events: seq<Event>)
    requires c.Valid() && s.phase.Calling? && !s.phase.provisional
    requires forall n :: 0 <= n < |events| ==> StepAll(s, c, events[..n]).phase.Calling?
    ensures var t := StepAll(s, c, events);
            && Copies(t.sent, c.invite) == Copies(s.sent, c.invite) + Resends(c, events)
            && (t.phase.Calling? ==> t.phase.provisional == Ringing(c, events))
  {
    if events != [] {
      var front := events[..|events| - 1];
      assert StepAll(s, c, front).phase.Calling?;
      forall n | 0 <= n < |front|
        ensures StepAll(s, c, front[..n]).phase.Calling?
      {
        assert front[..n] == events[..n];
      }
      InviteCopies(s, c, front);
      CallingStep(StepAll(s, c, front), c, events[|events| - 1]);
    }
  }

  class ClientSession {
    const caller: Caller
    var phase: Phase
    var dialog: Dialog
    var final: Option<Message>
    var outcome: Outcome
    var issued: seq<char>
    var completed: nat
    var sent: seq<Message>

    constructor (caller: Caller)
      ensures View() == IDLE && this.caller == caller
    {
      this.caller := caller;
      phase, dialog, final := Start, NO_DIALOG, None;
      outcome, issued, completed, sent := NO_OUTCOME, [], 0, [];
    }

    ghost function View(): Uac
      reads this
    {
      Uac(phase, dialog, final, outcome, issued, completed, sent)
    }

    /** One event while the INVITE waits for its final answer. */
    method ServeWhileCalling(e: Event)
      requires caller.Valid() && phase.Calling?
      modifies this`phase, this`final, this`outcome, this`sent
      ensures View() == Step(old(View()), caller, e)
      ensures phase.Calling? ==> phase.provisional == (old(phase.provisional) || IsProvisional(caller, e))
    {
      match e
      case CancelTimer(written) =>
        if phase.cancelArmed {
          outcome := outcome.(canceled := true);
          if written {
            sent := sent + [CancelOf(caller.invite)];
            phase := Calling(phase.provisional, false);
          } else {
            phase := Done;
          }
        }
      case RingTimer(written) =>
        if phase.provisional && written {
          sent := sent + [CancelOf(caller.invite)];
          phase := Cancelling;
        } else {
          phase := Done;
        }
      case Retransmit =>
        if !phase.provisional {
          sent := sent + [caller.invite];
        }
      case Receive(message) =>
        if AnswersInvite(caller, message) {
          if message.status < 200 {
            phase := Calling(true, phase.cancelArmed);
          } else {
            final := Some(message);
            outcome := outcome.(inviteFinalStatus := message.status);
            phase := if message.status < 300 then Answered else Refused;
          }
        }
      case Fail(_, _) =>
        phase := Done;
      case _ =>
    }

    /**
     * Retransmits the INVITE until a final answer, a timeout, a failure or the end of the input. The timer is
     * armed with `waits`, and never again after the first provisional answer.
     */
    method RunInviteClientTransaction(events: seq<Event>, t1: nat, t2: nat) returns (n: nat, waits: seq<nat>)
      requires caller.Valid() && phase.Calling? && !phase.provisional
      modifies this`phase, this`final, this`outcome, this`sent
      ensures n <= |events| && View() == StepAll(old(View()), caller, events[..n])
      ensures n < |events| ==> !phase.Calling?
      ensures |waits| == 1 + Resends(caller, events[..n]) && R.Scheduled(waits, t1, t2)
      ensures R.Bounded(waits, Resends(caller, events[..n]), t1, t2)
    {
      n := 0;
      var interval := t1;
      waits := [interval];
      while n < |events| && phase.Calling?
        invariant n <= |events| && View() == StepAll(old(View()), caller, events[..n])
        invariant phase.Calling? ==> phase.provisional == Ringing(caller, events[..n])
        invariant |waits| == 1 + Resends(caller, events[..n]) && interval == waits[|waits| - 1]
        invariant R.Scheduled(waits, t1, t2)
      {
        StepNext(old(View()), caller, events, n);
        ResendsNext(caller, events, n);
        var provisional := phase.provisional;
        ServeWhileCalling(events[n]);
        if events[n].Retransmit? && !provisional {
          R.ScheduledNext(waits, t1, t2);
          interval := Min(interval * 2, t2);
          waits := waits + [interval];
        }
        n := n + 1;
      }
      R.LoopBounded(waits, Resends(caller, events[..n]), t1, t2);
    }

    /** Handles one message of the dialog. */
    method HandleMessage(message: Message) returns (ended: bool)
      modifies this`phase, this`dialog, this`outcome, this`sent
      ensures View() == OnHandled(old(View()), message)
      ensures ended == (Handle(old(dialog), message).ending != Continues)
    {
      if message.Response? {
        if dialog.inviteACK.Some? && 200 <= message.status < 300
           && IsMatching(message, dialog.callId, dialog.inviteCSeq, INVITE) {
          if message.to.tag != dialog.remoteTag {
            phase := Abandoning;
            return true;
          }
          sent := sent + [dialog.inviteACK.value];
        }
        return false;
      }
      if message.callId != dialog.callId || message.verb == ACK {
        return false;
      }
      if RepeatsInvite(dialog, message) {
        sent := sent + [dialog.lastInviteOK.value];
        return false;
      }
      if !OfDialog(dialog, message) {
        sent := sent + [ResponseFor(message, 481, "")];
        return false;
      }
      if message.cseq.None? || message.cseq.value.verb != message.verb {
        sent := sent + [ResponseFor(message, 400, "")];
        return false;
      }
      ended := HandleTransaction(message);
    }

    /** A request whose number decides whether it is new. */
    method HandleTransaction(message: Message) returns (ended: bool)
      requires message.Request? && message.callId == dialog.callId && message.verb != ACK
      requires !RepeatsInvite(dialog, message) && OfDialog(dialog, message)
      requires message.cseq.Some? && message.cseq.value.verb == message.verb
      modifies this`phase, this`dialog, this`outcome, this`sent
      ensures View() == OnHandled(old(View()), message)
      ensures ended == (Handle(old(dialog), message).ending != Continues)
    {
      var duplicate := message.cseq.value.number <= dialog.remoteCSeq;
      if !duplicate {
        dialog := dialog.(remoteCSeq := message.cseq.value.number);
      }
      if message.verb == BYE {
        sent := sent + [ResponseFor(message, 200, "")];
        if !duplicate {
          outcome := outcome.(terminatedBy := SystemUnderTest);
          phase := Done;
          return true;
        }
      } else if message.verb == INFO {
        sent := sent + [ResponseFor(message, message.signal.status, "")];
      } else {
        sent := sent + [ResponseFor(message, 501, "")];
      }
      ended := false;
    }

    /** One event while a request inside the dialog waits for its answer. */
    method ServeWhileAsking(e: Event)
      requires caller.Valid() && (phase.InfoWait? || phase.Closing?) && !e.Fail?
      modifies this`phase, this`dialog, this`outcome, this`completed, this`sent
      ensures View() == Step(old(View()), caller, e)
    {
      match e
      case Retransmit =>
        sent := sent + [if phase.InfoWait? then phase.info else phase.bye];
      case Receive(message) =>
        AcceptWhileAsking(message);
      case _ =>
    }

    /** One message while a request inside the dialog waits for its answer. */
    method AcceptWhileAsking(message: Message)
      requires caller.Valid() && (phase.InfoWait? || phase.Closing?)
      modifies this`phase, this`dialog, this`outcome, this`completed, this`sent
      ensures View() == OnReceive(old(View()), caller, message)
    {
      var request := if phase.InfoWait? then phase.info else phase.bye;
      if message.Request? {
        var ended := HandleMessage(message);
      } else if request.Request? && request.cseq.Some? && message.status >= 200
                && IsMatching(message, dialog.callId, request.cseq.value.number, request.verb) {
        FinishRequest(message.status);
      }
    }

    /** A final answer to a request inside the dialog. */
    method FinishRequest(status: nat)
      requires phase.InfoWait? || phase.Closing?
      modifies this`phase, this`outcome, this`completed
      ensures View() == (
        var s := old(View());
        if s.phase.InfoWait? then
          if status < 300 then s.(completed := s.completed + 1, phase := Pausing(s.phase.left)) else s.Moves(Abandoning)
        else if status < 300 then s.(outcome := s.outcome.(terminatedBy := Sutel), phase := Done) else s.Moves(Done))
    {
      if phase.InfoWait? {
        if status < 300 {
          completed := completed + 1;
          phase := Pausing(phase.left);
        } else {
          phase := Abandoning;
        }
      } else {
        if status < 300 {
          outcome := outcome.(terminatedBy := Sutel);
        }
        phase := Done;
      }
    }

    /** The n-th event of a run that began at `start`. */
    method ServeNext(events: seq<Event>, n: nat, ghost start: Uac)
      requires caller.Valid() && (phase.InfoWait? || phase.Closing?) && n < |events| && !events[n].Fail?
      requires View() == StepAll(start, caller, events[..n])
      modifies this`phase, this`dialog, this`outcome, this`completed, this`sent
      ensures View() == StepAll(start, caller, events[..n + 1])
    {
      StepNext(start, caller, events, n);
      ServeWhileAsking(events[n]);
    }

    /** Retransmits an INFO or a BYE until its final answer or the end of the dialog; failures are the caller's. */
    method SendNonInviteTransaction(events: seq<Event>, t1: nat, t2: nat) returns (n: nat, waits: seq<nat>)
      requires caller.Valid() && (phase.InfoWait? || phase.Closing?)
      modifies this`phase, this`dialog, this`outcome, this`completed, this`sent
      ensures n <= |events| && View() == StepAll(old(View()), caller, events[..n])
      ensures n < |events| ==> events[n].Fail? || (!phase.InfoWait? && !phase.Closing?)
      ensures |waits| == 1 + R.Fired(events[..n], IsRetransmit) && R.Scheduled(waits, t1, t2)
      ensures R.Bounded(waits, R.Fired(events[..n], IsRetransmit), t1, t2)
    {
      n := 0;
      var interval := t1;
      waits := [interval];
      while n < |events| && !events[n].Fail? && (phase.InfoWait? || phase.Closing?)
        invariant n <= |events| && View() == StepAll(old(View()), caller, events[..n])
        invariant |waits| == 1 + R.Fired(events[..n], IsRetransmit) && interval == waits[|waits| - 1]
        invariant R.Scheduled(waits, t1, t2)
      {
        R.FiredNext(events, IsRetransmit, n);
        ServeNext(events, n, old(View()));
        if events[n].Retransmit? {
          R.ScheduledNext(waits, t1, t2);
          interval := Min(interval * 2, t2);
          waits := waits + [interval];
        }
        n := n + 1;
      }
      R.LoopBounded(waits, R.Fired(events[..n], IsRetransmit), t1, t2);
    }
  }
}
