/** Two things a caller may not expect: a call that is cancelled and answered, and a BYE that does not count. */
module LateAnswers {
  import opened Options
  import opened SipMessages
  import opened Calls
  import UasSafety
  import C = UserAgentClient
  import S = UserAgentServer

  // A cancelled call that is answered.

  lemma {:induction false} ServerCancelOnly(c: C.Caller, b: S.Behavior, moves: seq<Move>)
    requires c.Valid() && b.Valid() && Possible(c, b, moves) && !UasSafety.FailsAsCanceled(b)
    ensures UasSafety.CancelOnly(Run(c, b, moves).server)
  {
    if moves != [] {
      var front, move := moves[..|moves| - 1], moves[|moves| - 1];
      ServerCancelOnly(c, b, front);
      if move.ServerMoves? {
        UasSafety.StepCancelOnly(Run(c, b, front).server, b, move.s);
      }
    }
  }

  /**
   * A caller that cancelled has whatever final status the server gave: a success exactly when the server had answered
   * with one, and, unless the server fails with a 487 of its own, a 487 exactly when the server took the CANCEL.
   */
  lemma CanceledStatus(c: C.Caller, b: S.Behavior, moves: seq<Move>)
    requires c.Valid() && b.Valid() && Possible(c, b, moves)
    ensures var u, s := Run(c, b, moves).caller.outcome, Run(c, b, moves).server;
            u.canceled && u.inviteFinalStatus != 0 ==>
              && s.final.Some? && s.final.value.Response?
              && (u.inviteFinalStatus == 200 <==> s.final.value.status == 200)
              && (s.outcome.canceled ==> u.inviteFinalStatus == 487)
              && (!UasSafety.FailsAsCanceled(b) ==> (u.inviteFinalStatus == 487 <==> s.outcome.canceled))
  {
    RunJoint(c, b, moves);
    if !UasSafety.FailsAsCanceled(b) {
      ServerCancelOnly(c, b, moves);
    }
  }

  const FROM := Party("sip:a@192.0.2.1", "f")
  const TO := Party("sip:b@192.0.2.2", "")
  const OFFER := Request(INVITE, "sip:b@192.0.2.2", "z9hG4bK1", FROM, TO, "call", Some(CSeq(1, INVITE)),
                         "sip:a@192.0.2.1", NO_SIGNAL)
  const HASTY := C.Caller(OFFER, true, [])
  const PROMPT := S.Answer(true)
  const ADMIT := S.Admit("t", S.Agreed)
  const OK := ResponseFor(OFFER, 200, "t").(contact := LOCAL_CONTACT)

  /** A run and where it ends. */
  ghost predicate Reaches(moves: seq<Move>, call: Call) {
    Possible(HASTY, PROMPT, moves) && Run(HASTY, PROMPT, moves) == call
  }

  lemma Next(moves: seq<Move>, call: Call, move: Move)
    requires Reaches(moves, call) && Enabled(call, move)
    ensures Reaches(moves + [move], Step(call, HASTY, PROMPT, move))
  {
    assert (moves + [move])[..|moves|] == moves;
  }

  /** The server has answered; the caller has its INVITE out and may still cancel. */
  ghost predicate Answered(call: Call) {
    && call.caller.phase == C.Calling(false, true) && S.Sent(OK, true) in call.server.sent
  }

  lemma Ask() returns (moves: seq<Move>, call: Call)
    ensures Reaches(moves, call) && call.caller.phase == C.Calling(false, true)
    ensures call.server == S.Step(S.Waiting(PROMPT), PROMPT, S.Receive(OFFER, ADMIT))
  {
    var start := Call(C.IDLE, S.Waiting(PROMPT));
    var invite, receive := CallerMoves(C.Proceed(true, false, false, "")), ServerMoves(S.Receive(OFFER, ADMIT));
    assert Reaches([], start);
    Next([], start, invite);
    var asked := Step(start, HASTY, PROMPT, invite);
    Next([] + [invite], asked, receive);
    moves, call := [] + [invite] + [receive], Step(asked, HASTY, PROMPT, receive);
  }

  lemma ServerAlone(moves: seq<Move>, call: Call, e: S.Event)
    requires Reaches(moves, call) && !e.Receive?
    ensures Reaches(moves + [ServerMoves(e)], call.(server := S.Step(call.server, PROMPT, e)))
  {
    Next(moves, call, ServerMoves(e));
  }

  lemma Acts()
    ensures var s := S.Step(S.Waiting(PROMPT), PROMPT, S.Receive(OFFER, ADMIT));
            && s.phase == S.Acting([S.Listen, S.Say(180), S.Listen, S.Finish(200, false)])
            && s.invite == OFFER && s.dialog.localTag == "t"
  {
    assert S.BranchOk("z9hG4bK1");
  }

  lemma ServerAnswers(s: S.Uas) returns (a: S.Uas, b: S.Uas, c: S.Uas, d: S.Uas)
    requires s.phase == S.Acting([S.Listen, S.Say(180), S.Listen, S.Finish(200, false)]) && s.invite == OFFER
             && s.dialog.localTag == "t"
    ensures a == S.Step(s, PROMPT, S.Deadline) && b == S.Step(a, PROMPT, S.Proceed)
    ensures c == S.Step(b, PROMPT, S.Deadline) && d == S.Step(c, PROMPT, S.Proceed)
    ensures S.Sent(OK, true) in d.sent
  {
    a := S.Step(s, PROMPT, S.Deadline);
    assert a.phase == S.Acting([S.Say(180), S.Listen, S.Finish(200, false)]);
    b := S.Step(a, PROMPT, S.Proceed);
    assert b.phase == S.Acting([S.Listen, S.Finish(200, false)]);
    c := S.Step(b, PROMPT, S.Deadline);
    assert c.phase == S.Acting([S.Finish(200, false)]);
    d := S.Step(c, PROMPT, S.Proceed);
  }

  lemma ServerDone() returns (moves: seq<Move>, call: Call)
    ensures Reaches(moves, call) && Answered(call)
  {
    var asked;
    moves, asked := Ask();
    Acts();
    var a, b, c, d := ServerAnswers(asked.server);
    ServerAlone(moves, asked, S.Deadline);
    ServerAlone(moves + [ServerMoves(S.Deadline)], asked.(server := a), S.Proceed);
    moves := moves + [ServerMoves(S.Deadline)] + [ServerMoves(S.Proceed)];
    ServerAlone(moves, asked.(server := b), S.Deadline);
    ServerAlone(moves + [ServerMoves(S.Deadline)], asked.(server := c), S.Proceed);
    moves, call := moves + [ServerMoves(S.Deadline)] + [ServerMoves(S.Proceed)], asked.(server := d);
  }

  /** The 200 is on its way when the caller cancels: the call is both cancelled and answered. */
  lemma CanceledYetAnswered() returns (moves: seq<Move>)
    ensures Possible(HASTY, PROMPT, moves)
    ensures var u := Run(HASTY, PROMPT, moves).caller.outcome; u.canceled && u.inviteFinalStatus == 200
  {
    var before, call := ServerDone();
    var cancel, receive := CallerMoves(C.CancelTimer(true)), CallerMoves(C.Receive(OK));
    Next(before, call, cancel);
    var canceled := Step(call, HASTY, PROMPT, cancel);
    assert C.AnswersInvite(HASTY, OK);
    Next(before + [cancel], canceled, receive);
    moves := before + [cancel] + [receive];
  }

  // A BYE numbered zero.

  /** Inside the dialog of an answered call the peer's BYE ends the call exactly when its number is above zero. */
  lemma ByeEnds(c: C.Caller, final: Message, ack: Option<Message>, m: Message)
    requires c.Valid() && final.Response? && m.Request? && m.verb == BYE && m.callId == c.invite.callId
    requires OfDialog(C.DialogOf(c.invite, final, ack), m) && m.cseq.Some? && m.cseq.value.verb == BYE
    ensures Handle(C.DialogOf(c.invite, final, ack), m).ending == EndedByPeer <==> m.cseq.value.number > 0
  {
  }

  const PATIENT := C.Caller(OFFER, false, [])

  function Bye(number: nat): Message {
    Request(BYE, "sip:a@192.0.2.1", "z9hG4bK2", Party("sip:b@192.0.2.2", "t"), FROM, "call", Some(CSeq(number, BYE)),
            "", NO_SIGNAL)
  }

  const ON := C.Proceed(true, true, true, "")

  /** The caller's run up to the answer, and from there into the dialog. */
  function AnsweredCaller(): C.Uac {
    C.Step(C.Step(C.IDLE, PATIENT, ON), PATIENT, C.Receive(OK))
  }

  function DialogCaller(): C.Uac {
    C.Step(C.Step(C.Step(AnsweredCaller(), PATIENT, ON), PATIENT, ON), PATIENT, ON)
  }

  lemma CallerAnswered()
    ensures AnsweredCaller().phase == C.Answered && AnsweredCaller().final == Some(OK)
  {
    var calling := C.Step(C.IDLE, PATIENT, ON);
    assert calling.phase == C.Calling(false, false);
    assert C.AnswersInvite(PATIENT, OK);
  }

  lemma DialogMade(s: C.Uac) returns (ack: Option<Message>)
    requires s.phase == C.Answered && s.final == Some(OK)
    ensures var t := C.Step(s, PATIENT, ON);
            t.phase == C.Verifying && t.dialog == C.DialogOf(OFFER, OK, ack) && t.final == Some(OK)
  {
    ack := Some(C.AckOf(OFFER, OK, C.TargetOf(OFFER, OK), "", true));
  }

  lemma DialogEntered(s: C.Uac)
    requires s.phase == C.Verifying && s.final == Some(OK)
    ensures var t := C.Step(C.Step(s, PATIENT, ON), PATIENT, ON); t.phase == C.InDialog && t.dialog == s.dialog
  {
    var dialling := C.Step(s, PATIENT, ON);
    assert dialling.phase == C.Dialling([]) && dialling.dialog == s.dialog;
  }

  lemma DialogReached(s: C.Uac) returns (ack: Option<Message>)
    requires s.phase == C.Answered && s.final == Some(OK)
    ensures var t := C.Step(C.Step(C.Step(s, PATIENT, ON), PATIENT, ON), PATIENT, ON);
            t.phase == C.InDialog && t.dialog == C.DialogOf(OFFER, OK, ack)
  {
    ack := DialogMade(s);
    DialogEntered(C.Step(s, PATIENT, ON));
  }

  lemma ByeStep(s: C.Uac, ack: Option<Message>, number: nat)
    requires s.phase == C.InDialog && s.dialog == C.DialogOf(OFFER, OK, ack)
    ensures C.Step(s, PATIENT, C.Receive(Bye(number))).phase == if number == 0 then C.InDialog else C.Done
  {
    ByeEnds(PATIENT, OK, ack, Bye(number));
  }

  /** A call that is up stays up when the peer sends a BYE numbered zero, and ends when it sends another. */
  lemma ZeroByeIgnored()
    ensures DialogCaller().phase == C.InDialog
    ensures C.Step(DialogCaller(), PATIENT, C.Receive(Bye(0))).phase == C.InDialog
    ensures C.Step(DialogCaller(), PATIENT, C.Receive(Bye(1))).phase == C.Done
  {
    CallerAnswered();
    var ack := DialogReached(AnsweredCaller());
    ByeStep(DialogCaller(), ack, 0);
    ByeStep(DialogCaller(), ack, 1);
  }
}
