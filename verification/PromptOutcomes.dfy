/**
 * What one event does to an admission (apps/remote/server/prompt-admissions.ts): which answer is recorded, which prompt is sent, and
 * who is told what.
 */
module PromptOutcomes {
  import opened Options
  import opened PromptAdmissions

  /** The refusals that are final, and their statuses; any other failure leaves the outcome open. */
  predicate Refusal(code: Code, status: nat) {
    match code
    case InvalidRequest => status == 400
    case Oversized => status == 413
    case NotFound => status == 404
    case Conflict => status == 409
    case Forbidden => status == 403
    case _ => false
  }

  /** The admission of a request that a process has under way. */
  function FlightIn(w: World, p: nat, id: string): Option<Flight> {
    if p in w.processes && id in w.processes[p].flights then Some(w.processes[p].flights[id]) else None
  }

  predicate PreparingIn(w: World, p: nat, id: string) {
    FlightIn(w, p, id).Some? && FlightIn(w, p, id).value.Preparing? && id in w.rows
  }

  predicate SendingIn(w: World, p: nat, id: string) {
    FlightIn(w, p, id).Some? && FlightIn(w, p, id).value.Sending? && id in w.rows
  }

  // ---------------------------------------------------------------- what is recorded

  /** An acceptance names the work and the delivery asked for, and the owner's own delivery exactly if that is another one. */
  predicate Accepts(asked: Delivery, workId: string, delivery: Delivery, r: Response) {
    && r.Accepted? && workId != "" && r.workId == workId && r.delivery == asked
    && (r.effective.Some? <==> delivery != asked) && (r.effective.Some? ==> r.effective.value == delivery)
  }

  /** The terminal outcome of an answer: an acceptance of real work in a known way, or a final refusal. */
  ghost predicate Terminates(w: World, e: Event, id: string, r: Response) {
    match e
    case SendAnswered(p, i, SentAs(workId, Some(delivery)), _) =>
      i == id && SendingIn(w, p, id) && Accepts(FlightIn(w, p, id).value.input.delivery, workId, delivery, r)
    case SendAnswered(p, i, NotSent(code), _) => i == id && SendingIn(w, p, id) && r.Rejected? && r.code == code && Refusal(code, r.status)
    case PrepareAnswered(p, i, NotPrepared(code), _) => i == id && PreparingIn(w, p, id) && r.Rejected? && r.code == code && Refusal(code, r.status)
    case _ => false
  }

  function FaultOf(e: Event): Fault {
    if e.Submitted? || e.PrepareAnswered? || e.SendAnswered? then e.fault else NoFault
  }

  lemma FailureIsRefusal(code: Code)
    ensures FailureResponse(code).Rejected? <==> exists status: nat :: Refusal(code, status)
    ensures FailureResponse(code).Rejected? ==> FailureResponse(code).code == code && Refusal(code, FailureResponse(code).status)
    ensures !FailureResponse(code).Rejected? ==> FailureResponse(code) == Pending
  {
    if FailureResponse(code).Rejected? { assert Refusal(code, FailureResponse(code).status); }
  }

  lemma OneOutcome(w: World, e: Event, id: string, r: Response, q: Response)
    requires Terminates(w, e, id, r) && Terminates(w, e, id, q)
    ensures r == q
  {}

  /** A response is recorded exactly for such an answer, unless the database fails before the write; nothing else changes one. */
  lemma RecordsExactly(w: World, e: Event, id: string)
    requires id in w.rows
    ensures id in Step(w, e).rows
    ensures forall r :: Terminates(w, e, id, r) && FaultOf(e) != Before ==> Step(w, e).rows[id].response == Some(r)
    ensures (FaultOf(e) == Before || !exists r :: Terminates(w, e, id, r)) ==> Step(w, e).rows[id].response == w.rows[id].response
  {
    match e
    case SendAnswered(p, i, sent, fault) => SendRecords(w, p, i, sent, fault, id);
    case PrepareAnswered(p, i, prepared, fault) => PrepareRecords(w, p, i, prepared, fault, id);
    case Submitted(_, _, _, _) =>
    case Released(_, _) =>
    case Died(_) =>
  }

  lemma SendRecords(w: World, p: nat, i: string, sent: SendResult, fault: Fault, id: string)
    requires id in w.rows
    ensures var e, rows := SendAnswered(p, i, sent, fault), AfterSend(At(w, p), i, sent, fault).rows;
      && id in rows
      && (forall r :: Terminates(w, e, id, r) && fault != Before ==> rows[id].response == Some(r))
      && ((fault == Before || !exists r :: Terminates(w, e, id, r)) ==> rows[id].response == w.rows[id].response)
  {
    var e := SendAnswered(p, i, sent, fault);
    if SendingIn(w, p, i) {
      match sent
      case NotSent(code) =>
        FailureIsRefusal(code);
        if FailureResponse(code).Rejected? { assert Terminates(w, e, i, FailureResponse(code)); }
      case SentAs(workId, Some(delivery)) =>
        if workId != "" { assert Terminates(w, e, i, Acceptance(FlightIn(w, p, i).value.input, workId, delivery)); }
      case _ =>
    }
  }

  lemma PrepareRecords(w: World, p: nat, i: string, prepared: PrepareResult, fault: Fault, id: string)
    requires id in w.rows
    ensures var e, rows := PrepareAnswered(p, i, prepared, fault), AfterPrepare(At(w, p), i, prepared, fault).rows;
      && id in rows
      && (forall r :: Terminates(w, e, id, r) && fault != Before ==> rows[id].response == Some(r))
      && ((fault == Before || !exists r :: Terminates(w, e, id, r)) ==> rows[id].response == w.rows[id].response)
  {
    if prepared.NotPrepared? { RefusalRecords(w, p, i, prepared.code, fault, id); }
  }

  lemma RefusalRecords(w: World, p: nat, i: string, code: Code, fault: Fault, id: string)
    requires id in w.rows
    ensures var e, rows := PrepareAnswered(p, i, NotPrepared(code), fault), AfterPrepare(At(w, p), i, NotPrepared(code), fault).rows;
      && id in rows
      && (forall r :: Terminates(w, e, id, r) && fault != Before ==> rows[id].response == Some(r))
      && ((fault == Before || !exists r :: Terminates(w, e, id, r)) ==> rows[id].response == w.rows[id].response)
  {
    FailureIsRefusal(code);
    if PreparingIn(w, p, i) && FailureResponse(code).Rejected? {
      assert Terminates(w, PrepareAnswered(p, i, NotPrepared(code), fault), i, FailureResponse(code));
    }
  }

  // ---------------------------------------------------------------- what is sent

  /** The receipt of a request is for this recipient and input, and is still open here. */
  predicate OpenReceipt(w: World, p: nat, session: string, input: Input) {
    var id := input.requestId;
    && session != "" && (id in w.rows ==> w.rows[id].session == session && w.rows[id].input == input && w.rows[id].response.None?)
    && FlightIn(w, p, id).None?
  }

  ghost predicate SendsOut(w: World, e: Event, s: Send) {
    match e
    case Submitted(p, session, Some(input), NoFault) =>
      && s.id == input.requestId && s.session == session && OpenReceipt(w, p, session, input)
      && s.id in w.rows && w.rows[s.id].resolved == Some(s.prompt)
    case PrepareAnswered(p, id, PreparedAs(prompt), NoFault) =>
      && s.id == id && PreparingIn(w, p, id) && s.session == w.rows[id].session
      && s.prompt == if w.rows[id].resolved.Some? then w.rows[id].resolved.value else prompt
    case _ => false
  }

  /** A prompt goes out exactly when a request is taken up whose prompt is fixed, or when its preparation comes back. */
  lemma SendsExactly(w: World, e: Event)
    requires Inv(w)
    ensures forall s :: SendsOut(w, e, s) ==> Step(w, e).sends == w.sends + [s]
    ensures (forall s :: !SendsOut(w, e, s)) ==> Step(w, e).sends == w.sends
  {
    match e
    case Submitted(p, session, body, fault) => SubmitSends(w, p, session, body, fault);
    case PrepareAnswered(p, id, prepared, fault) => PrepareSends(w, p, id, prepared, fault);
    case SendAnswered(_, _, _, _) =>
    case Released(_, _) =>
    case Died(_) =>
  }

  lemma SubmitSends(w: World, p: nat, session: string, body: Option<Input>, fault: Fault)
    requires Inv(w)
    ensures var e, sends := Submitted(p, session, body, fault), Submit(At(w, p), session, body, fault).sends;
      && (forall s :: SendsOut(w, e, s) ==> sends == w.sends + [s])
      && ((forall s :: !SendsOut(w, e, s)) ==> sends == w.sends)
  {
    var e := Submitted(p, session, body, fault);
    if body.Some? && fault == NoFault && OpenReceipt(w, p, session, body.value) {
      var id := body.value.requestId;
      if id in w.rows && w.rows[id].resolved.Some? { assert SendsOut(w, e, Send(id, session, w.rows[id].resolved.value)); }
    }
  }

  lemma PrepareSends(w: World, p: nat, id: string, prepared: PrepareResult, fault: Fault)
    requires Inv(w)
    ensures var e, sends := PrepareAnswered(p, id, prepared, fault), AfterPrepare(At(w, p), id, prepared, fault).sends;
      && (forall s :: SendsOut(w, e, s) ==> sends == w.sends + [s])
      && ((forall s :: !SendsOut(w, e, s)) ==> sends == w.sends)
  {
    if PreparingIn(w, p, id) {
      assert FlightOk(w.rows, w.sends, FlightIn(w, p, id).value, id);
      if prepared.PreparedAs? && fault == NoFault { PreparedIsSent(w, p, id, prepared.prompt); } else { NothingPrepared(w, p, id, prepared, fault); }
    }
  }

  lemma PreparedIsSent(w: World, p: nat, id: string, prompt: Prepared)
    requires PreparingIn(w, p, id) && FlightIn(w, p, id).value.session == w.rows[id].session && FlightIn(w, p, id).value.input.requestId == id
    ensures var s := Send(id, w.rows[id].session, if w.rows[id].resolved.Some? then w.rows[id].resolved.value else prompt);
      SendsOut(w, PrepareAnswered(p, id, PreparedAs(prompt), NoFault), s)
      && AfterPrepare(At(w, p), id, PreparedAs(prompt), NoFault).sends == w.sends + [s]
  {}

  lemma NothingPrepared(w: World, p: nat, id: string, prepared: PrepareResult, fault: Fault)
    requires PreparingIn(w, p, id) && !(prepared.PreparedAs? && fault == NoFault)
    ensures AfterPrepare(At(w, p), id, prepared, fault).sends == w.sends
  {}

  // ---------------------------------------------------------------- who is told what

  /** How an admission ends when its effect comes back: as recorded, or open when the write fails or the answer is not terminal. */
  lemma EffectsEnd(w: World, e: Event, id: string)
    requires Inv(w) && ((e.SendAnswered? && e.id == id && SendingIn(w, e.p, id)) || (e.PrepareAnswered? && e.id == id && PreparingIn(w, e.p, id)))
    ensures EndsAs(w, e, id, FlightIn(Step(w, e), e.p, id))
  {
    assert FlightOk(w.rows, w.sends, FlightIn(w, e.p, id).value, id) && RowOk(w.rows, w.sends, id);
    if e.SendAnswered? { SendEnds(w, e.p, id, e.sent, e.fault); } else { PrepareEnds(w, e.p, id, e.prepared, e.fault); }
  }

  ghost predicate EndsAs(w: World, e: Event, id: string, flight: Option<Flight>)
    requires id in w.rows && (e.SendAnswered? || e.PrepareAnswered?)
  {
    && flight.Some? && flight.value.session == w.rows[id].session && flight.value.input == w.rows[id].input
    && (forall r :: Terminates(w, e, id, r) ==>
          flight.value.Finished? && flight.value.response == if e.fault == NoFault then r else Pending)
    && ((forall r :: !Terminates(w, e, id, r)) ==>
          if e.PrepareAnswered? && e.prepared.PreparedAs? && e.fault == NoFault then flight.value.Sending?
          else flight.value.Finished? && flight.value.response == Pending)
  }

  predicate ForReceipt(w: World, p: nat, id: string) {
    FlightIn(w, p, id).Some? && id in w.rows && w.rows[id].input.requestId == id
    && FlightIn(w, p, id).value.session == w.rows[id].session && FlightIn(w, p, id).value.input == w.rows[id].input
  }

  lemma SendEnds(w: World, p: nat, id: string, sent: SendResult, fault: Fault)
    requires SendingIn(w, p, id) && ForReceipt(w, p, id)
    ensures var e := SendAnswered(p, id, sent, fault); EndsAs(w, e, id, FlightIn(Step(w, e), p, id))
  {
    var e := SendAnswered(p, id, sent, fault);
    match sent
    case NotSent(code) =>
      FailureIsRefusal(code);
      if FailureResponse(code).Rejected? { assert Terminates(w, e, id, FailureResponse(code)); }
    case SentAs(workId, Some(delivery)) =>
      if workId != "" { assert Terminates(w, e, id, Acceptance(FlightIn(w, p, id).value.input, workId, delivery)); }
    case _ =>
  }

  lemma PrepareEnds(w: World, p: nat, id: string, prepared: PrepareResult, fault: Fault)
    requires PreparingIn(w, p, id) && ForReceipt(w, p, id)
    ensures var e := PrepareAnswered(p, id, prepared, fault); EndsAs(w, e, id, FlightIn(Step(w, e), p, id))
  {
    var e := PrepareAnswered(p, id, prepared, fault);
    if prepared.NotPrepared? {
      FailureIsRefusal(prepared.code);
      if FailureResponse(prepared.code).Rejected? { assert Terminates(w, e, id, FailureResponse(prepared.code)); }
    }
  }

  /** What a submit is answered at once; none means that it waits for an admission under way. */
  function AtOnce(w: World, session: string, body: Option<Input>, fault: Fault): Option<Response> {
    if body.None? || session == "" then Some(Rejected(400, InvalidRequest))
    else if fault != NoFault then Some(Pending)
    else if body.value.requestId !in w.rows then None
    else
      var receipt := w.rows[body.value.requestId];
      if receipt.session != session || receipt.input != body.value then Some(Rejected(409, Conflict)) else receipt.response
  }

  /** A submit is answered at once, or joins or begins the one admission of its request; the others hear of its end. */
  lemma RepliesExactly(w: World, e: Event)
    ensures e.Submitted? ==> SubmitReplies(w, e, Step(w, e))
    ensures e.Released? ==> ReleaseReplies(w, e, Step(w, e))
    ensures !e.Submitted? && !e.Released? ==> Step(w, e).replies == w.replies
  {
    if e.Submitted? { SubmitAnswers(w, e); }
  }

  ghost predicate SubmitReplies(w: World, e: Event, w': World)
    requires e.Submitted?
  {
    var r := AtOnce(w, e.session, e.body, e.fault);
    && w'.replies == w.replies + (if r.Some? then [Reply(e.session, e.body, r.value)] else [])
    && (r.None? ==>
          var flight, flight' := FlightIn(w, e.p, e.body.value.requestId), FlightIn(w', e.p, e.body.value.requestId);
          flight'.Some? && (flight.Some? ==> flight' == flight))
  }

  ghost predicate ReleaseReplies(w: World, e: Event, w': World)
    requires e.Released?
  {
    var flight := FlightIn(w, e.p, e.id);
    if flight.Some? && flight.value.Finished?
    then w'.replies == w.replies + [Reply(flight.value.session, Some(flight.value.input), flight.value.response)]
         && FlightIn(w', e.p, e.id).None?
    else w'.replies == w.replies
  }

  lemma SubmitAnswers(w: World, e: Event)
    requires e.Submitted?
    ensures SubmitReplies(w, e, Step(w, e))
  {}

}
