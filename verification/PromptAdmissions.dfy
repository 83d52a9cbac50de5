/**
 * Admission of prompts (apps/remote/server/prompt-admissions.ts): one durable receipt per request id, a prepared prompt that
 * is fixed before it is first sent, and a recorded terminal response.  Every await is a step boundary; several processes may
 * share the database, die and start again; each database statement may fail before or after it took effect.
 */
module PromptAdmissions {
  import opened Options

  datatype Delivery = Queue | Steer | HardSteer
  datatype Input = Input(requestId: string, text: string, delivery: Delivery, replyTo: Option<string>, images: Option<bool>)
  datatype Prepared = Prepared(text: string, delivery: Delivery, images: seq<string>)

  datatype Code = InvalidRequest | Oversized | NotFound | Conflict | Forbidden | Unavailable | NoPendingMessages | CancellationFailed
  datatype Response = Accepted(workId: string, delivery: Delivery, effective: Option<Delivery>) | Rejected(status: nat, code: Code) | Pending

  function FailureResponse(code: Code): Response {
    match code
    case InvalidRequest => Rejected(400, code)
    case Oversized => Rejected(413, code)
    case NotFound => Rejected(404, code)
    case Conflict => Rejected(409, code)
    case Forbidden => Rejected(403, code)
    case _ => Pending
  }

  datatype Receipt = Receipt(session: string, input: Input, resolved: Option<Prepared>, response: Option<Response>)

  /** What the effects come back with; the owner's delivery is absent when it is not one of the known ones. */
  datatype PrepareResult = PreparedAs(prompt: Prepared) | NotPrepared(code: Code) | PrepareThrew
  datatype SendResult = SentAs(workId: string, delivery: Option<Delivery>) | NotSent(code: Code) | SendThrew

  /** A database statement that works, fails without effect, or fails after its effect. */
  datatype Fault = NoFault | Before | After

  /** An admission of this process, up to the moment its promise is removed from `inFlight`. */
  datatype Flight = Preparing(session: string, input: Input) | Sending(session: string, input: Input)
    | Finished(session: string, input: Input, response: Response)

  datatype Send = Send(id: string, session: string, prompt: Prepared)
  datatype Reply = Reply(session: string, input: Option<Input>, response: Response)

  /** One process beside the database; `open` counts the effects it has started and not heard from. */
  datatype Local = Local(
    rows: map<string, Receipt>,
    flights: map<string, Flight>,
    open: multiset<string>,
    sends: seq<Send>,
    replies: seq<Reply>)

  // ---------------------------------------------------------------- submit

  function Answer(l: Local, session: string, body: Option<Input>, response: Response): Local {
    l.(replies := l.replies + [Reply(session, body, response)])
  }

  function Inserted(l: Local, session: string, input: Input): Local {
    if input.requestId in l.rows then l else l.(rows := l.rows[input.requestId := Receipt(session, input, None, None)])
  }

  function Submit(l: Local, session: string, body: Option<Input>, fault: Fault): Local {
    if body.None? || session == "" then Answer(l, session, body, Rejected(400, InvalidRequest))
    else if fault.Before? then Answer(l, session, body, Pending)
    else
      var l1 := Inserted(l, session, body.value);
      if fault.After? then Answer(l1, session, body, Pending) else Consider(l1, session, body.value)
  }

  /** The receipt has been read back. */
  function Consider(l: Local, session: string, input: Input): Local
    requires input.requestId in l.rows
  {
    var receipt := l.rows[input.requestId];
    if receipt.session != session || receipt.input != input then Answer(l, session, Some(input), Rejected(409, Conflict))
    else if receipt.response.Some? then Answer(l, session, Some(input), receipt.response.value)
    else if input.requestId in l.flights then l
    else Begin(l, receipt, input)
  }

  /** `admit`, up to its first await. */
  function Begin(l: Local, receipt: Receipt, input: Input): Local {
    var id := input.requestId;
    if receipt.resolved.Some? then Dispatch(l, receipt.session, input, receipt.resolved.value)
    else l.(flights := l.flights[id := Preparing(receipt.session, input)], open := l.open + multiset{id})
  }

  function Dispatch(l: Local, session: string, input: Input, prompt: Prepared): Local {
    var id := input.requestId;
    l.(flights := l.flights[id := Sending(session, input)], open := l.open + multiset{id}, sends := l.sends + [Send(id, session, prompt)])
  }

  // ---------------------------------------------------------------- after an await

  function Heard(l: Local, id: string): Local { l.(open := l.open - multiset{id}) }

  function Finish(l: Local, id: string, flight: Flight, response: Response): Local {
    l.(flights := l.flights[id := Finished(flight.session, flight.input, response)])
  }

  /** `terminal`: record the response of an admission. */
  function Terminal(l: Local, id: string, flight: Flight, response: Response, fault: Fault): Local {
    var l1 := if fault.Before? || id !in l.rows then l else l.(rows := l.rows[id := l.rows[id].(response := Some(response))]);
    Finish(l1, id, flight, if fault.NoFault? then response else Pending)
  }

  function Failure(l: Local, id: string, flight: Flight, code: Code, fault: Fault): Local {
    if FailureResponse(code).Rejected? then Terminal(l, id, flight, FailureResponse(code), fault)
    else Finish(l, id, flight, FailureResponse(code))
  }

  function AfterPrepare(l: Local, id: string, result: PrepareResult, fault: Fault): Local {
    if id !in l.flights || !l.flights[id].Preparing? || id !in l.rows then l
    else
      var flight, l1 := l.flights[id], Heard(l, id);
      match result
      case PrepareThrew => Finish(l1, id, flight, Pending)
      case NotPrepared(code) => Failure(l1, id, flight, code, fault)
      case PreparedAs(prompt) =>
        if fault.Before? then Finish(l1, id, flight, Pending)
        else
          var l2 := Resolved(l1, id, prompt);
          if fault.After? then Finish(l2, id, flight, Pending)
          else Dispatch(l2, flight.session, flight.input, if l.rows[id].resolved.Some? then l.rows[id].resolved.value else prompt)
  }

  /** `UPDATE … SET resolved=? WHERE … resolved IS NULL` */
  function Resolved(l: Local, id: string, prompt: Prepared): Local {
    if id in l.rows && l.rows[id].resolved.None? then l.(rows := l.rows[id := l.rows[id].(resolved := Some(prompt))]) else l
  }

  function Acceptance(input: Input, workId: string, delivery: Delivery): Response {
    Accepted(workId, input.delivery, if delivery != input.delivery then Some(delivery) else None)
  }

  function AfterSend(l: Local, id: string, result: SendResult, fault: Fault): Local {
    if id !in l.flights || !l.flights[id].Sending? then l
    else
      var flight, l1 := l.flights[id], Heard(l, id);
      match result
      case SendThrew => Finish(l1, id, flight, Pending)
      case NotSent(code) => Failure(l1, id, flight, code, fault)
      case SentAs(workId, delivery) =>
        if workId == "" || delivery.None? then Finish(l1, id, flight, Pending)
        else Terminal(l1, id, flight, Acceptance(flight.input, workId, delivery.value), fault)
  }

  /** `finally`: the promise leaves `inFlight` and its callers have their response. */
  function Release(l: Local, id: string): Local {
    if id !in l.flights || !l.flights[id].Finished? then l
    else
      var flight := l.flights[id];
      Answer(l.(flights := l.flights - {id}), flight.session, Some(flight.input), flight.response)
  }

  // ---------------------------------------------------------------- processes on one database

  datatype Process = Process(flights: map<string, Flight>, open: multiset<string>)
  datatype World = World(rows: map<string, Receipt>, processes: map<nat, Process>, sends: seq<Send>, replies: seq<Reply>)

  datatype Event =
    | Submitted(p: nat, session: string, body: Option<Input>, fault: Fault)
    | PrepareAnswered(p: nat, id: string, prepared: PrepareResult, fault: Fault)
    | SendAnswered(p: nat, id: string, sent: SendResult, fault: Fault)
    | Released(p: nat, id: string)
    | Died(p: nat)

  function ProcessOf(w: World, p: nat): Process {
    if p in w.processes then w.processes[p] else Process(map[], multiset{})
  }

  function At(w: World, p: nat): Local {
    Local(w.rows, ProcessOf(w, p).flights, ProcessOf(w, p).open, w.sends, w.replies)
  }

  function Back(w: World, p: nat, l: Local): World {
    World(l.rows, w.processes[p := Process(l.flights, l.open)], l.sends, l.replies)
  }

  function LocalStep(l: Local, e: Event): Local {
    match e
    case Submitted(_, session, body, fault) => Submit(l, session, body, fault)
    case PrepareAnswered(_, id, prepared, fault) => AfterPrepare(l, id, prepared, fault)
    case SendAnswered(_, id, sent, fault) => AfterSend(l, id, sent, fault)
    case Released(_, id) => Release(l, id)
    case Died(_) => l.(flights := map[], open := multiset{})
  }

  function Step(w: World, e: Event): World {
    Back(w, e.p, LocalStep(At(w, e.p), e))
  }

  function Run(w: World, events: seq<Event>): World {
    if events == [] then w else Step(Run(w, events[..|events| - 1]), events[|events| - 1])
  }

  const START: World := World(map[], map[], [], [])

  // ---------------------------------------------------------------- invariant

  /** A send carries its receipt's session and resolved prompt. */
  ghost predicate SendOk(rows: map<string, Receipt>, s: Send) {
    s.id in rows && rows[s.id].session == s.session && rows[s.id].resolved == Some(s.prompt)
  }

  ghost predicate RowOk(rows: map<string, Receipt>, sends: seq<Send>, id: string)
    requires id in rows
  {
    && rows[id].input.requestId == id
    && (rows[id].response.Some? ==> Recordable(rows[id].input, rows[id].response.value))
    && (rows[id].response.Some? && rows[id].response.value.Accepted? ==> WasSent(sends, id))
  }

  /**
   * A terminal response: a rejection of the owner or of the preparation, or an acceptance of real work with the delivery that was
   * asked for, which names the owner's delivery exactly if it is another.
   */
  ghost predicate Recordable(input: Input, response: Response) {
    match response
    case Pending => false
    case Rejected(_, code) => response == FailureResponse(code)
    case Accepted(workId, delivery, effective) => workId != "" && delivery == input.delivery && effective != Some(delivery)
  }

  ghost predicate WasSent(sends: seq<Send>, id: string) {
    exists s :: s in sends && s.id == id
  }

  /** An admission is for its receipt, and has one effect open unless it is finished. */
  ghost predicate FlightOk(rows: map<string, Receipt>, sends: seq<Send>, flight: Flight, id: string) {
    && id in rows && rows[id].session == flight.session && rows[id].input == flight.input
    && (flight.Sending? ==> WasSent(sends, id))
  }

  predicate Waiting(flights: map<string, Flight>, id: string) {
    id in flights && !flights[id].Finished?
  }

  ghost predicate ProcessOk(rows: map<string, Receipt>, sends: seq<Send>, p: Process) {
    && (forall id :: id in p.flights ==> FlightOk(rows, sends, p.flights[id], id))
    && (forall id :: p.open[id] == if Waiting(p.flights, id) then 1 else 0)
  }

  ghost predicate TablesOk(rows: map<string, Receipt>, sends: seq<Send>) {
    && (forall s :: s in sends ==> SendOk(rows, s))
    && (forall id :: id in rows ==> RowOk(rows, sends, id))
  }

  ghost predicate LocalOk(l: Local) {
    TablesOk(l.rows, l.sends) && ProcessOk(l.rows, l.sends, Process(l.flights, l.open))
  }

  ghost predicate Inv(w: World) {
    TablesOk(w.rows, w.sends) && forall p :: p in w.processes ==> ProcessOk(w.rows, w.sends, w.processes[p])
  }

  /** Receipts stay, with session and input; a resolved prompt never changes; the log of sends grows. */
  ghost predicate Grows(rows: map<string, Receipt>, sends: seq<Send>, rows': map<string, Receipt>, sends': seq<Send>) {
    && (forall id :: id in rows ==> ReceiptStays(rows, rows', id))
    && sends <= sends'
  }

  ghost predicate ReceiptStays(rows: map<string, Receipt>, rows': map<string, Receipt>, id: string)
    requires id in rows
  {
    && id in rows' && rows'[id].session == rows[id].session && rows'[id].input == rows[id].input
    && (rows[id].resolved.Some? ==> rows'[id].resolved == rows[id].resolved)
    && (rows[id].response.Some? ==> rows'[id].response.Some?)
  }

  lemma SentStays(sends: seq<Send>, sends': seq<Send>, id: string)
    requires sends <= sends' && WasSent(sends, id)
    ensures WasSent(sends', id)
  {
    var s :| s in sends && s.id == id;
    assert s in sends';
  }

  lemma ProcessStaysOk(rows: map<string, Receipt>, sends: seq<Send>, rows': map<string, Receipt>, sends': seq<Send>, p: Process)
    requires Grows(rows, sends, rows', sends') && ProcessOk(rows, sends, p)
    ensures ProcessOk(rows', sends', p)
  {
    forall id | id in p.flights ensures FlightOk(rows', sends', p.flights[id], id) {
      assert FlightOk(rows, sends, p.flights[id], id);
      assert ReceiptStays(rows, rows', id);
      if p.flights[id].Sending? { SentStays(sends, sends', id); }
    }
  }

  ghost predicate Good(l: Local, l': Local) {
    LocalOk(l') && Grows(l.rows, l.sends, l'.rows, l'.sends)
  }

  lemma InsertKeeps(l: Local, session: string, input: Input)
    requires LocalOk(l)
    ensures Good(l, Inserted(l, session, input)) && input.requestId in Inserted(l, session, input).rows
  {
    var l1 := Inserted(l, session, input);
    forall s | s in l1.sends ensures SendOk(l1.rows, s) { assert SendOk(l.rows, s); }
    forall id | id in l1.rows ensures RowOk(l1.rows, l1.sends, id) { if id in l.rows { assert RowOk(l.rows, l.sends, id); } }
    ProcessStaysOk(l.rows, l.sends, l1.rows, l1.sends, Process(l.flights, l.open));
  }

  /** A prompt goes out only as its receipt has it, when nothing of that admission is open. */
  lemma DispatchKeeps(l: Local, session: string, input: Input, prompt: Prepared)
    requires TablesOk(l.rows, l.sends)
    requires input.requestId in l.rows && l.rows[input.requestId].session == session && l.rows[input.requestId].input == input
    requires l.rows[input.requestId].resolved == Some(prompt) && l.open[input.requestId] == 0
    requires ProcessOk(l.rows, l.sends, Process(l.flights - {input.requestId}, l.open))
    ensures Good(l, Dispatch(l, session, input, prompt))
  {
    var l1 := Dispatch(l, session, input, prompt);
    var id := input.requestId;
    var out := Send(id, session, prompt);
    assert out in l1.sends;
    assert WasSent(l1.sends, id);
    forall s | s in l1.sends ensures SendOk(l1.rows, s) { if s != out { assert SendOk(l.rows, s); } }
    forall x | x in l1.rows ensures RowOk(l1.rows, l1.sends, x) {
      assert RowOk(l.rows, l.sends, x);
      if WasSent(l.sends, x) { SentStays(l.sends, l1.sends, x); }
    }
    var rest := Process(l.flights - {id}, l.open);
    forall x | x in l1.flights ensures FlightOk(l1.rows, l1.sends, l1.flights[x], x) {
      if x != id {
        assert x in rest.flights && FlightOk(l.rows, l.sends, rest.flights[x], x);
        if l.flights[x].Sending? { SentStays(l.sends, l1.sends, x); }
      }
    }
    forall x ensures l1.open[x] == if Waiting(l1.flights, x) then 1 else 0 {
      assert rest.open[x] == if Waiting(rest.flights, x) then 1 else 0;
    }
  }

  lemma SubmitKeeps(l: Local, session: string, body: Option<Input>, fault: Fault)
    requires LocalOk(l)
    ensures Good(l, Submit(l, session, body, fault))
  {
    if body.Some? && session != "" && !fault.Before? {
      InsertKeeps(l, session, body.value);
      if fault.NoFault? { ConsiderKeeps(Inserted(l, session, body.value), session, body.value); }
    }
  }

  lemma ConsiderKeeps(l: Local, session: string, input: Input)
    requires LocalOk(l) && input.requestId in l.rows
    ensures Good(l, Consider(l, session, input))
  {
    var id := input.requestId;
    var receipt := l.rows[id];
    if receipt.session == session && receipt.input == input && receipt.response.None? && id !in l.flights {
      assert l.flights - {id} == l.flights;
      assert l.open[id] == 0 by { assert !Waiting(l.flights, id); }
      if receipt.resolved.Some? {
        DispatchKeeps(l, session, input, receipt.resolved.value);
      } else {
        var l1 := Begin(l, receipt, input);
        forall x ensures l1.open[x] == if Waiting(l1.flights, x) then 1 else 0 {
          assert l.open[x] == if Waiting(l.flights, x) then 1 else 0;
        }
        forall x | x in l1.flights ensures FlightOk(l1.rows, l1.sends, l1.flights[x], x) {
          if x != id { assert FlightOk(l.rows, l.sends, l.flights[x], x); }
        }
      }
    }
  }

  /** An admission that is heard from and finishes; its row may get a response. */
  lemma FinishKeeps(l: Local, id: string, recorded: Option<Response>, response: Response)
    requires LocalOk(l) && Waiting(l.flights, id)
    requires recorded.Some? ==> Recordable(l.flights[id].input, recorded.value) && (recorded.value.Accepted? ==> WasSent(l.sends, id))
    ensures id in l.rows
    ensures var rows := if recorded.Some? then l.rows[id := l.rows[id].(response := recorded)] else l.rows;
      Good(l, Finish(Heard(l, id).(rows := rows), id, l.flights[id], response))
  {
    var rows := if recorded.Some? then l.rows[id := l.rows[id].(response := recorded)] else l.rows;
    assert FlightOk(l.rows, l.sends, l.flights[id], id);
    RecordedTables(l.rows, l.sends, id, recorded);
    ProcessStaysOk(l.rows, l.sends, rows, l.sends, Process(l.flights, l.open));
    FinishedProcess(rows, l.sends, Process(l.flights, l.open), id, response);
  }

  lemma RecordedTables(rows: map<string, Receipt>, sends: seq<Send>, id: string, recorded: Option<Response>)
    requires TablesOk(rows, sends) && id in rows
    requires recorded.Some? ==> Recordable(rows[id].input, recorded.value) && (recorded.value.Accepted? ==> WasSent(sends, id))
    ensures var rows' := if recorded.Some? then rows[id := rows[id].(response := recorded)] else rows;
      TablesOk(rows', sends) && Grows(rows, sends, rows', sends)
  {
    if recorded.Some? {
      var rows' := rows[id := rows[id].(response := recorded)];
      forall s | s in sends ensures SendOk(rows', s) { assert SendOk(rows, s); }
      forall x | x in rows' ensures RowOk(rows', sends, x) { assert RowOk(rows, sends, x); }
    }
  }

  lemma FinishedProcess(rows: map<string, Receipt>, sends: seq<Send>, p: Process, id: string, response: Response)
    requires ProcessOk(rows, sends, p) && Waiting(p.flights, id)
    ensures ProcessOk(rows, sends, Process(p.flights[id := Finished(p.flights[id].session, p.flights[id].input, response)], p.open - multiset{id}))
  {
    var p1 := Process(p.flights[id := Finished(p.flights[id].session, p.flights[id].input, response)], p.open - multiset{id});
    forall x | x in p1.flights ensures FlightOk(rows, sends, p1.flights[x], x) { assert FlightOk(rows, sends, p.flights[x], x); }
    forall x ensures p1.open[x] == if Waiting(p1.flights, x) then 1 else 0 { assert p.open[x] == if Waiting(p.flights, x) then 1 else 0; }
  }

  lemma TerminalKeeps(l: Local, id: string, response: Response, fault: Fault)
    requires LocalOk(l) && Waiting(l.flights, id) && Recordable(l.flights[id].input, response) && (response.Accepted? ==> WasSent(l.sends, id))
    ensures Good(l, Terminal(Heard(l, id), id, l.flights[id], response, fault))
  {
    FinishKeeps(l, id, if fault.Before? then None else Some(response), if fault.NoFault? then response else Pending);
    assert Heard(l, id).(rows := l.rows) == Heard(l, id);
  }

  lemma FailureKeeps(l: Local, id: string, code: Code, fault: Fault)
    requires LocalOk(l) && Waiting(l.flights, id)
    ensures Good(l, Failure(Heard(l, id), id, l.flights[id], code, fault))
  {
    if FailureResponse(code).Rejected? { TerminalKeeps(l, id, FailureResponse(code), fault); } else { PendingKeeps(l, id); }
  }

  lemma PendingKeeps(l: Local, id: string)
    requires LocalOk(l) && Waiting(l.flights, id)
    ensures Good(l, Finish(Heard(l, id), id, l.flights[id], Pending))
  {
    FinishKeeps(l, id, None, Pending);
    assert Heard(l, id).(rows := l.rows) == Heard(l, id);
  }

  lemma ResolvedKeeps(l: Local, id: string, prompt: Prepared)
    requires LocalOk(l)
    ensures Good(l, Resolved(l, id, prompt))
  {
    var l1 := Resolved(l, id, prompt);
    forall s | s in l1.sends ensures SendOk(l1.rows, s) { assert SendOk(l.rows, s); }
    forall x | x in l1.rows ensures RowOk(l1.rows, l1.sends, x) { assert RowOk(l.rows, l.sends, x); }
    ProcessStaysOk(l.rows, l.sends, l1.rows, l1.sends, Process(l.flights, l.open));
  }

  lemma AfterPrepareKeeps(l: Local, id: string, result: PrepareResult, fault: Fault)
    requires LocalOk(l)
    ensures Good(l, AfterPrepare(l, id, result, fault))
  {
    if id in l.flights && l.flights[id].Preparing? && id in l.rows {
      match result
      case PrepareThrew => PendingKeeps(l, id);
      case NotPrepared(code) => FailureKeeps(l, id, code, fault);
      case PreparedAs(prompt) =>
        if fault.Before? {
          PendingKeeps(l, id);
        } else {
          var r := Resolved(l, id, prompt);
          ResolvedKeeps(l, id, prompt);
          assert Resolved(Heard(l, id), id, prompt) == Heard(r, id);
          if fault.After? { PendingKeeps(r, id); } else { PreparedKeeps(r, id); }
        }
    }
  }

  lemma PreparedKeeps(l: Local, id: string)
    requires LocalOk(l) && id in l.flights && l.flights[id].Preparing? && id in l.rows && l.rows[id].resolved.Some?
    ensures Good(l, Dispatch(Heard(l, id), l.flights[id].session, l.flights[id].input, l.rows[id].resolved.value))
  {
    var h := Heard(l, id);
    assert FlightOk(l.rows, l.sends, l.flights[id], id) && RowOk(l.rows, l.sends, id);
    var rest := Process(h.flights - {id}, h.open);
    forall x ensures rest.open[x] == if Waiting(rest.flights, x) then 1 else 0 {
      assert l.open[x] == if Waiting(l.flights, x) then 1 else 0;
    }
    DispatchKeeps(h, l.flights[id].session, l.flights[id].input, l.rows[id].resolved.value);
  }

  lemma AfterSendKeeps(l: Local, id: string, result: SendResult, fault: Fault)
    requires LocalOk(l)
    ensures Good(l, AfterSend(l, id, result, fault))
  {
    if id in l.flights && l.flights[id].Sending? {
      assert FlightOk(l.rows, l.sends, l.flights[id], id);
      match result
      case SendThrew => PendingKeeps(l, id);
      case NotSent(code) => FailureKeeps(l, id, code, fault);
      case SentAs(workId, delivery) =>
        if workId == "" || delivery.None? { PendingKeeps(l, id); }
        else { TerminalKeeps(l, id, Acceptance(l.flights[id].input, workId, delivery.value), fault); }
    }
  }

  lemma ReleaseKeeps(l: Local, id: string)
    requires LocalOk(l)
    ensures Good(l, Release(l, id))
  {
    var l1 := Release(l, id);
    forall x ensures l1.open[x] == if Waiting(l1.flights, x) then 1 else 0 {
      assert l.open[x] == if Waiting(l.flights, x) then 1 else 0;
    }
  }

  lemma LocalStepKeeps(l: Local, e: Event)
    requires LocalOk(l)
    ensures Good(l, LocalStep(l, e))
  {
    match e
    case Submitted(_, session, body, fault) => SubmitKeeps(l, session, body, fault);
    case PrepareAnswered(_, id, prepared, fault) => AfterPrepareKeeps(l, id, prepared, fault);
    case SendAnswered(_, id, sent, fault) => AfterSendKeeps(l, id, sent, fault);
    case Released(_, id) => ReleaseKeeps(l, id);
    case Died(_) =>
  }

  lemma StepKeeps(w: World, e: Event)
    requires Inv(w)
    ensures Inv(Step(w, e)) && Grows(w.rows, w.sends, Step(w, e).rows, Step(w, e).sends)
  {
    LocalStepKeeps(At(w, e.p), e);
    var w1 := Step(w, e);
    forall p | p in w1.processes ensures ProcessOk(w1.rows, w1.sends, w1.processes[p]) {
      if p != e.p { ProcessStaysOk(w.rows, w.sends, w1.rows, w1.sends, w.processes[p]); }
    }
  }

  lemma {:induction false} RunKeeps(w: World, events: seq<Event>)
    requires Inv(w)
    ensures Inv(Run(w, events))
    decreases |events|
  {
    if events != [] {
      RunKeeps(w, events[..|events| - 1]);
      StepKeeps(Run(w, events[..|events| - 1]), events[|events| - 1]);
    }
  }

  // ---------------------------------------------------------------- theorems

  /** All sends of a request, from any process and at any time, carry one session and one prompt. */
  lemma SendsAreIdentical(events: seq<Event>, s: Send, t: Send)
    requires s in Run(START, events).sends && t in Run(START, events).sends && s.id == t.id
    ensures s == t
  {
    RunKeeps(START, events);
    var w := Run(START, events);
    assert SendOk(w.rows, s) && SendOk(w.rows, t);
  }

  /** A process never has two effects of one request open. */
  lemma OneEffectAtATime(events: seq<Event>, p: nat, id: string)
    ensures ProcessOf(Run(START, events), p).open[id] <= 1
  {
    RunKeeps(START, events);
    var w := Run(START, events);
    if p in w.processes { assert ProcessOk(w.rows, w.sends, w.processes[p]); }
  }

  predicate IsAccepted(rows: map<string, Receipt>, id: string) {
    id in rows && rows[id].response.Some? && rows[id].response.value.Accepted?
  }

  /** Nothing but a terminal response is ever recorded. */
  lemma RecordsAreTerminal(events: seq<Event>, id: string)
    requires HasResponse(Run(START, events).rows, id)
    ensures var row := Run(START, events).rows[id]; Recordable(row.input, row.response.value)
  {
    RunKeeps(START, events);
    assert RowOk(Run(START, events).rows, Run(START, events).sends, id);
  }

  /** A recorded acceptance was sent. */
  lemma AcceptanceWasSent(events: seq<Event>, id: string)
    requires IsAccepted(Run(START, events).rows, id)
    ensures exists s :: s in Run(START, events).sends && s.id == id && s.session == Run(START, events).rows[id].session
  {
    RunKeeps(START, events);
    var w := Run(START, events);
    assert RowOk(w.rows, w.sends, id);
    var s :| s in w.sends && s.id == id;
    assert SendOk(w.rows, s);
  }

  /** A different input or recipient gets a conflict and changes nothing else. */
  lemma OthersConflict(w: World, p: nat, session: string, input: Input)
    requires input.requestId in w.rows && session != ""
    requires w.rows[input.requestId].session != session || w.rows[input.requestId].input != input
    ensures var w1 := Step(w, Submitted(p, session, Some(input), NoFault));
      w1 == w.(processes := w1.processes, replies := w.replies + [Reply(session, Some(input), Rejected(409, Conflict))])
      && forall q :: ProcessOf(w1, q) == ProcessOf(w, q)
  {
  }

  /** An equal submit of a request whose response is recorded gets that response and changes nothing else. */
  lemma EqualSubmitRepeats(w: World, p: nat, id: string)
    requires id in w.rows && w.rows[id].response.Some? && w.rows[id].session != "" && w.rows[id].input.requestId == id
    ensures var row := w.rows[id];
      var w1 := Step(w, Submitted(p, row.session, Some(row.input), NoFault));
      w1 == w.(processes := w1.processes, replies := w.replies + [Reply(row.session, Some(row.input), row.response.value)])
      && forall q :: ProcessOf(w1, q) == ProcessOf(w, q)
  {
  }

  // finality, with one process at a time for the request

  ghost predicate OneProcess(w: World, id: string) {
    forall p, q :: id in ProcessOf(w, p).flights && id in ProcessOf(w, q).flights ==> p == q
  }

  ghost predicate AlwaysOneProcess(events: seq<Event>, id: string) {
    forall n :: 0 <= n <= |events| ==> OneProcess(Run(START, events[..n]), id)
  }

  predicate HasResponse(rows: map<string, Receipt>, id: string) {
    id in rows && rows[id].response.Some?
  }

  /** Once a response is recorded, no admission of the request does anything more. */
  ghost predicate Quiet(w: World, id: string) {
    HasResponse(w.rows, id) ==> forall p :: !Waiting(ProcessOf(w, p).flights, id)
  }

  function SendsOf(sends: seq<Send>, id: string): nat {
    if sends == [] then 0 else SendsOf(sends[..|sends| - 1], id) + if sends[|sends| - 1].id == id then 1 else 0
  }

  /** A step for request `x` leaves every other request alone, and records a response only by finishing its admission. */
  ghost predicate Touches(l: Local, l1: Local, x: string) {
    && (forall y :: y != x ==> Same(l, l1, y))
    && (l.sends == l1.sends || exists s: Send :: s.id == x && l1.sends == l.sends + [s])
    && (!HasResponse(l.rows, x) && HasResponse(l1.rows, x) ==> x in l.flights && !Waiting(l1.flights, x))
  }

  ghost predicate Same(l: Local, l1: Local, y: string) {
    && (y in l.flights <==> y in l1.flights) && (y in l.flights ==> l.flights[y] == l1.flights[y])
    && (y in l.rows <==> y in l1.rows) && (y in l.rows ==> l.rows[y] == l1.rows[y])
  }

  lemma SendsOfOthers(l: Local, l1: Local, x: string, y: string)
    requires Touches(l, l1, x) && (y != x || l.sends == l1.sends)
    ensures SendsOf(l1.sends, y) == SendsOf(l.sends, y)
  {
    if l.sends != l1.sends {
      var s: Send :| s.id == x && l1.sends == l.sends + [s];
      assert l1.sends[..|l1.sends| - 1] == l.sends;
    }
  }

  lemma FinishTouches(l: Local, id: string, rows: map<string, Receipt>, response: Response)
    requires id in l.flights && (forall y :: y != id ==> (y in rows <==> y in l.rows) && (y in rows ==> rows[y] == l.rows[y]))
    ensures Touches(l, Finish(Heard(l, id).(rows := rows), id, l.flights[id], response), id)
  {
  }

  lemma FailureTouches(l: Local, id: string, code: Code, fault: Fault)
    requires id in l.flights && id in l.rows
    ensures Touches(l, Failure(Heard(l, id), id, l.flights[id], code, fault), id)
  {
    if FailureResponse(code).Rejected? { TerminalTouches(l, id, FailureResponse(code), fault); }
    else { PendingTouches(l, id); }
  }

  lemma TerminalTouches(l: Local, id: string, response: Response, fault: Fault)
    requires id in l.flights && id in l.rows
    ensures Touches(l, Terminal(Heard(l, id), id, l.flights[id], response, fault), id)
  {
    FinishTouches(l, id, l.rows[id := l.rows[id].(response := Some(response))], if fault.NoFault? then response else Pending);
    if fault.Before? { PendingTouches(l, id); }
  }

  lemma PendingTouches(l: Local, id: string)
    requires id in l.flights
    ensures Touches(l, Finish(Heard(l, id), id, l.flights[id], Pending), id)
  {
    FinishTouches(l, id, l.rows, Pending);
    assert Heard(l, id).(rows := l.rows) == Heard(l, id);
  }

  lemma DispatchTouches(l: Local, id: string, rows: map<string, Receipt>, session: string, input: Input, prompt: Prepared)
    requires input.requestId == id && (forall y :: y != id ==> (y in rows <==> y in l.rows) && (y in rows ==> rows[y] == l.rows[y]))
    requires !HasResponse(l.rows, id) ==> !HasResponse(rows, id)
    ensures Touches(l, Dispatch(Heard(l, id).(rows := rows), session, input, prompt), id)
    ensures Touches(l, Dispatch(l.(rows := rows), session, input, prompt), id)
  {
    assert Send(id, session, prompt).id == id;
  }

  lemma PrepareTouches(l: Local, id: string, result: PrepareResult, fault: Fault)
    requires id in l.flights ==> l.flights[id].input.requestId == id
    ensures Touches(l, AfterPrepare(l, id, result, fault), id)
  {
    if id in l.flights && l.flights[id].Preparing? && id in l.rows {
      match result
      case PrepareThrew => PendingTouches(l, id);
      case NotPrepared(code) => FailureTouches(l, id, code, fault);
      case PreparedAs(prompt) =>
        if fault.Before? { PendingTouches(l, id); }
        else {
          var rows := Resolved(l, id, prompt).rows;
          assert Resolved(Heard(l, id), id, prompt) == Heard(l, id).(rows := rows);
          if fault.After? { FinishTouches(l, id, rows, Pending); }
          else { DispatchTouches(l, id, rows, l.flights[id].session, l.flights[id].input, rows[id].resolved.value); }
        }
    }
  }

  lemma SendTouches(l: Local, id: string, result: SendResult, fault: Fault)
    requires id in l.flights ==> id in l.rows
    ensures Touches(l, AfterSend(l, id, result, fault), id)
  {
    if id in l.flights && l.flights[id].Sending? {
      match result
      case SendThrew => PendingTouches(l, id);
      case NotSent(code) => FailureTouches(l, id, code, fault);
      case SentAs(workId, delivery) =>
        if workId == "" || delivery.None? { PendingTouches(l, id); }
        else { TerminalTouches(l, id, Acceptance(l.flights[id].input, workId, delivery.value), fault); }
    }
  }

  lemma SubmitTouches(l: Local, session: string, body: Option<Input>, fault: Fault)
    requires LocalOk(l)
    ensures body.Some? ==> Touches(l, Submit(l, session, body, fault), body.value.requestId)
    ensures body.None? || HasResponse(l.rows, body.value.requestId) ==> Submit(l, session, body, fault).(replies := l.replies) == l
  {
    if body.Some? && session != "" && fault.NoFault? {
      var id := body.value.requestId;
      if id in l.rows { assert RowOk(l.rows, l.sends, id); }
      ConsiderTouches(l, Inserted(l, session, body.value), session, body.value);
    }
  }

  lemma ConsiderTouches(l: Local, l0: Local, session: string, input: Input)
    requires input.requestId in l0.rows && l0 == l.(rows := l0.rows) && (HasResponse(l0.rows, input.requestId) <==> HasResponse(l.rows, input.requestId))
    requires forall y :: y != input.requestId ==> (y in l0.rows <==> y in l.rows) && (y in l.rows ==> l0.rows[y] == l.rows[y])
    ensures Touches(l, Consider(l0, session, input), input.requestId)
    ensures HasResponse(l.rows, input.requestId) ==> Consider(l0, session, input).(replies := l.replies) == l0
  {
    var receipt := l0.rows[input.requestId];
    if receipt.session == session && receipt.input == input && receipt.response.None? && input.requestId !in l.flights && receipt.resolved.Some? {
      DispatchTouches(l, input.requestId, l0.rows, session, input, receipt.resolved.value);
    }
  }

  /** The request a step is for. */
  function Subject(e: Event): Option<string> {
    match e
    case Submitted(_, _, Some(input), _) => Some(input.requestId)
    case Submitted(_, _, None, _) => None
    case PrepareAnswered(_, id, _, _) => Some(id)
    case SendAnswered(_, id, _, _) => Some(id)
    case Released(_, id) => Some(id)
    case Died(_) => None
  }

  lemma StepTouches(l: Local, e: Event)
    requires LocalOk(l)
    ensures var l1 := LocalStep(l, e);
      if Subject(e).Some? then Touches(l, l1, Subject(e).value) else l1.rows == l.rows && l1.sends == l.sends && (l1.flights == l.flights || l1.flights == map[])
  {
    match e
    case Submitted(_, session, body, fault) => SubmitTouches(l, session, body, fault);
    case PrepareAnswered(_, id, prepared, fault) =>
      if id in l.flights { assert FlightOk(l.rows, l.sends, l.flights[id], id) && RowOk(l.rows, l.sends, id); }
      PrepareTouches(l, id, prepared, fault);
    case SendAnswered(_, id, sent, fault) =>
      assert id in l.flights ==> FlightOk(l.rows, l.sends, l.flights[id], id);
      SendTouches(l, id, sent, fault);
    case Released(_, id) =>
    case Died(_) =>
  }

  /** A quiet request keeps its response and is sent no more. */
  lemma QuietStep(l: Local, e: Event, id: string)
    requires LocalOk(l) && HasResponse(l.rows, id) && !Waiting(l.flights, id)
    ensures var l1 := LocalStep(l, e);
      !Waiting(l1.flights, id) && HasResponse(l1.rows, id) && l1.rows[id].response == l.rows[id].response && SendsOf(l1.sends, id) == SendsOf(l.sends, id)
  {
    StepTouches(l, e);
    if Subject(e).Some? && Subject(e).value != id {
      assert Same(l, LocalStep(l, e), id);
      SendsOfOthers(l, LocalStep(l, e), Subject(e).value, id);
    } else if Subject(e).Some? {
      match e
      case Submitted(_, session, body, fault) => SubmitTouches(l, session, body, fault);
      case PrepareAnswered(_, _, _, _) =>
      case SendAnswered(_, _, _, _) =>
      case Released(_, _) =>
      case Died(_) =>
    }
  }

  /** A response is recorded by the step that finishes the admission. */
  lemma RecordingFinishes(l: Local, e: Event, id: string)
    requires LocalOk(l) && !HasResponse(l.rows, id) && HasResponse(LocalStep(l, e).rows, id)
    ensures id in l.flights && !Waiting(LocalStep(l, e).flights, id)
  {
    StepTouches(l, e);
    assert Subject(e).Some? && Subject(e).value != id ==> Same(l, LocalStep(l, e), id);
  }

  lemma StepStaysQuiet(w: World, e: Event, id: string)
    requires Inv(w) && OneProcess(w, id) && Quiet(w, id)
    ensures Quiet(Step(w, e), id)
    ensures HasResponse(w.rows, id) ==> Unchanged(w, Step(w, e), id)
  {
    if HasResponse(w.rows, id) {
      QuietStepAll(w, e, id);
    } else if HasResponse(Step(w, e).rows, id) {
      RecordingIsQuiet(w, e, id);
    }
  }

  lemma RecordingIsQuiet(w: World, e: Event, id: string)
    requires Inv(w) && OneProcess(w, id) && !HasResponse(w.rows, id) && HasResponse(Step(w, e).rows, id)
    ensures Quiet(Step(w, e), id)
  {
    var l, w1 := At(w, e.p), Step(w, e);
    assert LocalOk(l);
    RecordingFinishes(l, e, id);
    forall p ensures !Waiting(ProcessOf(w1, p).flights, id) {
      if p != e.p { assert ProcessOf(w1, p) == ProcessOf(w, p); }
    }
  }

  lemma {:induction false} RunStaysQuiet(events: seq<Event>, id: string)
    requires AlwaysOneProcess(events, id)
    ensures Quiet(Run(START, events), id)
    decreases |events|
  {
    if events != [] {
      var front := events[..|events| - 1];
      FrontAlone(events, id);
      RunStaysQuiet(front, id);
      RunKeeps(START, front);
      StepStaysQuiet(Run(START, front), events[|events| - 1], id);
    }
  }

  lemma FrontAlone(events: seq<Event>, id: string)
    requires events != [] && AlwaysOneProcess(events, id)
    ensures AlwaysOneProcess(events[..|events| - 1], id) && OneProcess(Run(START, events[..|events| - 1]), id)
  {
    var front := events[..|events| - 1];
    forall n | 0 <= n <= |front| ensures OneProcess(Run(START, front[..n]), id) { assert front[..n] == events[..n]; }
    assert front[..|front|] == front;
  }

  /** The recorded response is the same later, and nothing of the request has been sent in between. */
  predicate Unchanged(w: World, w': World, id: string)
    requires HasResponse(w.rows, id)
  {
    HasResponse(w'.rows, id) && w'.rows[id].response == w.rows[id].response && SendsOf(w'.sends, id) == SendsOf(w.sends, id)
  }

  /** The first recorded response is final: it is in force for ever, whatever happens. */
  ghost predicate IsFinal(w: World, id: string)
    requires HasResponse(w.rows, id)
  {
    forall events :: Unchanged(w, Run(w, events), id)
  }

  lemma QuietStepAll(w: World, e: Event, id: string)
    requires Inv(w) && HasResponse(w.rows, id) && Quiet(w, id)
    ensures Unchanged(w, Step(w, e), id) && Quiet(Step(w, e), id)
  {
    var l, w1 := At(w, e.p), Step(w, e);
    assert LocalOk(l) && !Waiting(ProcessOf(w, e.p).flights, id);
    QuietStep(l, e, id);
    forall p ensures !Waiting(ProcessOf(w1, p).flights, id) {
      if p != e.p { assert ProcessOf(w1, p) == ProcessOf(w, p); }
    }
  }

  lemma {:induction false} QuietForever(w: World, events: seq<Event>, id: string)
    requires Inv(w) && HasResponse(w.rows, id) && Quiet(w, id)
    ensures Unchanged(w, Run(w, events), id) && Quiet(Run(w, events), id)
    decreases |events|
  {
    if events != [] {
      var front := events[..|events| - 1];
      QuietForever(w, front, id);
      RunKeeps(w, front);
      QuietStepAll(Run(w, front), events[|events| - 1], id);
    }
  }

  /** A rejection that is not the recorded response. */
  function OtherCode(response: Response): Code {
    if response == FailureResponse(NotFound) then Conflict else NotFound
  }

  /** An admission that still waits may be answered by another rejection, which replaces the response. */
  lemma WaitingOverwrites(w: World, p: nat, id: string) returns (e: Event)
    requires HasResponse(w.rows, id) && Waiting(ProcessOf(w, p).flights, id)
    ensures HasResponse(Step(w, e).rows, id) && Step(w, e).rows[id].response != w.rows[id].response
  {
    var code := OtherCode(w.rows[id].response.value);
    assert FailureResponse(code).Rejected? && FailureResponse(code) != w.rows[id].response.value;
    if ProcessOf(w, p).flights[id].Preparing? {
      e := PrepareAnswered(p, id, NotPrepared(code), NoFault);
    } else {
      e := SendAnswered(p, id, NotSent(code), NoFault);
    }
  }

  /** Exactly when a recorded response is final: no process has an admission of the request that still waits for an answer. */
  lemma FinalIffQuiet(w: World, id: string)
    requires Inv(w) && HasResponse(w.rows, id)
    ensures IsFinal(w, id) <==> Quiet(w, id)
  {
    if Quiet(w, id) {
      forall events ensures Unchanged(w, Run(w, events), id) { QuietForever(w, events, id); }
    }
    if !Quiet(w, id) {
      var p: nat :| Waiting(ProcessOf(w, p).flights, id);
      var e := WaitingOverwrites(w, p, id);
      RunOne(w, e);
      assert !Unchanged(w, Run(w, [e]), id);
    }
  }

  lemma RunOne(w: World, e: Event)
    ensures Run(w, [e]) == Step(w, e)
  {
    assert [e][..0] == [] && Run(w, []) == w;
  }

  lemma StartIsGood()
    ensures Inv(START)
  {}

  /**
   * While one process at a time works on a request, across crashes and retries: the first recorded response is final, and
   * nothing of the request is sent after it.
   */
  lemma ResponseIsFinal(events: seq<Event>, id: string)
    requires AlwaysOneProcess(events, id) && HasResponse(Run(START, events).rows, id)
    ensures IsFinal(Run(START, events), id)
  {
    StartIsGood();
    RunKeeps(START, events);
    RunStaysQuiet(events, id);
    FinalIffQuiet(Run(START, events), id);
  }

  /** Two processes on one database: the second admission sends again after an acceptance and replaces it by a rejection. */
  lemma OverlappingProcessesOverwrite(input: Input, prompt: Prepared)
    requires input.requestId == "r"
    ensures var events := Overlap(input, prompt);
      var early, late := Run(START, events[..4]), Run(START, events);
      HasResponse(early.rows, "r") && early.rows["r"].response == Some(Accepted("w", input.delivery, None))
      && HasResponse(late.rows, "r") && late.rows["r"].response == Some(Rejected(409, Conflict))
      && |late.sends| == |early.sends| + 1
  {
    OverlapRuns(input, prompt, 4);
    OverlapRuns(input, prompt, 6);
    assert Overlap(input, prompt)[..6] == Overlap(input, prompt);
  }

  lemma {:induction false} OverlapRuns(input: Input, prompt: Prepared, n: nat)
    requires input.requestId == "r" && n <= 6
    ensures Run(START, Overlap(input, prompt)[..n]) == OverlapWorld(input, prompt, n)
  {
    if n > 0 {
      OverlapRuns(input, prompt, n - 1);
      RunNext(Overlap(input, prompt), n - 1);
      OverlapStep(input, prompt, n - 1);
    }
  }

  lemma OverlapStep(input: Input, prompt: Prepared, n: nat)
    requires input.requestId == "r" && n < 6
    ensures Step(OverlapWorld(input, prompt, n), Overlap(input, prompt)[n]) == OverlapWorld(input, prompt, n + 1)
  {
    if n < 2 {
      OverlapSubmit(input, prompt, n);
    } else if n < 4 {
      OverlapFirst(input, prompt, n);
    } else {
      OverlapSecond(input, prompt, n);
    }
  }

  lemma OverlapFirst(input: Input, prompt: Prepared, n: nat)
    requires input.requestId == "r" && 2 <= n < 4
    ensures Step(OverlapWorld(input, prompt, n), Overlap(input, prompt)[n]) == OverlapWorld(input, prompt, n + 1)
  {
    var w, e, w1 := OverlapWorld(input, prompt, n), Overlap(input, prompt)[n], OverlapWorld(input, prompt, n + 1);
    OneRow(w, e, w.rows["r"], w.processes[0].flights["r"], w1.rows["r"], w1.processes[0].flights["r"]);
  }

  lemma OverlapSecond(input: Input, prompt: Prepared, n: nat)
    requires input.requestId == "r" && 4 <= n < 6
    ensures Step(OverlapWorld(input, prompt, n), Overlap(input, prompt)[n]) == OverlapWorld(input, prompt, n + 1)
  {
    var w, e, w1 := OverlapWorld(input, prompt, n), Overlap(input, prompt)[n], OverlapWorld(input, prompt, n + 1);
    OneRow(w, e, w.rows["r"], w.processes[1].flights["r"], w1.rows["r"], w1.processes[1].flights["r"]);
  }

  lemma OverlapSubmit(input: Input, prompt: Prepared, n: nat)
    requires input.requestId == "r" && n < 2
    ensures Step(OverlapWorld(input, prompt, n), Overlap(input, prompt)[n]) == OverlapWorld(input, prompt, n + 1)
  {
    var w, e, w1 := OverlapWorld(input, prompt, n), Overlap(input, prompt)[n], OverlapWorld(input, prompt, n + 1);
    var l := LocalStep(At(w, e.p), e);
    assert l.rows == w1.rows && l.open == w1.processes[e.p].open && l.flights == w1.processes[e.p].flights;
    assert w.processes[e.p := Process(l.flights, l.open)] == w1.processes;
  }

  /** What an answer makes of a row and its admission. */
  predicate Effect(e: Event, row: Receipt, flight: Flight, row1: Receipt, flight1: Flight) {
    match e
    case PrepareAnswered(_, id, PreparedAs(prompt), NoFault) =>
      id == "r" && flight.Preparing? && row1 == row.(resolved := if row.resolved.Some? then row.resolved else Some(prompt))
      && flight1 == Sending(flight.session, flight.input)
    case SendAnswered(_, id, SentAs(workId, Some(delivery)), NoFault) =>
      var response := Acceptance(flight.input, workId, delivery);
      id == "r" && flight.Sending? && workId != "" && row1 == row.(response := Some(response)) && flight1 == Finished(flight.session, flight.input, response)
    case SendAnswered(_, id, NotSent(Conflict), NoFault) =>
      var response := Rejected(409, Conflict);
      id == "r" && flight.Sending? && row1 == row.(response := Some(response)) && flight1 == Finished(flight.session, flight.input, response)
    case _ => false
  }

  /** A step of process 1 or 0 on the one row there is. */
  lemma OneRow(w: World, e: Event, row: Receipt, flight: Flight, row1: Receipt, flight1: Flight)
    requires w.rows == map["r" := row] && ProcessOf(w, e.p) == Process(map["r" := flight], multiset{"r"}) && row.input.requestId == "r"
    requires flight.input == row.input && flight.session == row.session
    requires Effect(e, row, flight, row1, flight1)
    ensures Step(w, e).rows == map["r" := row1] && Step(w, e).replies == w.replies
    ensures Step(w, e).processes == w.processes[e.p := Process(map["r" := flight1], if flight1.Sending? then multiset{"r"} else multiset{})]
    ensures Step(w, e).sends == w.sends + if flight1.Sending? then [Send("r", row.session, row1.resolved.value)] else []
  {
    OneRowAt(At(w, e.p), e, row, flight, row1, flight1);
  }

  lemma OneRowAt(l: Local, e: Event, row: Receipt, flight: Flight, row1: Receipt, flight1: Flight)
    requires l.rows == map["r" := row] && l.flights == map["r" := flight] && l.open == multiset{"r"} && row.input.requestId == "r"
    requires flight.input == row.input && flight.session == row.session
    requires Effect(e, row, flight, row1, flight1)
    ensures LocalStep(l, e) == if flight1.Sending?
      then Local(map["r" := row1], map["r" := flight1], multiset{"r"}, l.sends + [Send("r", row.session, row1.resolved.value)], l.replies)
      else Local(map["r" := row1], map["r" := flight1], multiset{}, l.sends, l.replies)
  {
    if e.PrepareAnswered? {
      OneRowPrepared(l, e.p, e.prepared.prompt, row, flight);
    } else {
      var response := row1.response.value;
      OneRowRecorded(l, row, flight, response);
      if e.sent.NotSent? { assert FailureResponse(e.sent.code) == response; }
    }
  }

  lemma OneRowPrepared(l: Local, p: nat, prompt: Prepared, row: Receipt, flight: Flight)
    requires l.rows == map["r" := row] && l.flights == map["r" := flight] && l.open == multiset{"r"}
    requires flight.Preparing? && flight.input.requestId == "r"
    ensures var row1 := row.(resolved := if row.resolved.Some? then row.resolved else Some(prompt));
      AfterPrepare(l, "r", PreparedAs(prompt), NoFault)
      == Local(map["r" := row1], map["r" := Sending(flight.session, flight.input)], multiset{"r"},
               l.sends + [Send("r", flight.session, row1.resolved.value)], l.replies)
  {
    var l1 := AfterPrepare(l, "r", PreparedAs(prompt), NoFault);
    assert l1.rows == map["r" := row.(resolved := if row.resolved.Some? then row.resolved else Some(prompt))];
    assert l1.flights == map["r" := Sending(flight.session, flight.input)];
    assert l1.open == multiset{"r"};
  }

  lemma OneRowRecorded(l: Local, row: Receipt, flight: Flight, response: Response)
    requires l.rows == map["r" := row] && l.flights == map["r" := flight] && l.open == multiset{"r"}
    ensures Terminal(Heard(l, "r"), "r", flight, response, NoFault)
         == Local(map["r" := row.(response := Some(response))], map["r" := Finished(flight.session, flight.input, response)], multiset{}, l.sends, l.replies)
  {
    var l1 := Terminal(Heard(l, "r"), "r", flight, response, NoFault);
    assert l1.rows == map["r" := row.(response := Some(response))];
    assert l1.flights == map["r" := Finished(flight.session, flight.input, response)];
    assert l1.open == multiset{};
  }

  function OverlapWorld(input: Input, prompt: Prepared, n: nat): World {
    var row := Receipt("s", input, None, None);
    var resolved := row.(resolved := Some(prompt));
    var busy := Process(map["r" := Preparing("s", input)], multiset{"r"});
    var sending := Process(map["r" := Sending("s", input)], multiset{"r"});
    var done := Process(map["r" := Finished("s", input, Accepted("w", input.delivery, None))], multiset{});
    var refused := Process(map["r" := Finished("s", input, Rejected(409, Conflict))], multiset{});
    var sent := Send("r", "s", prompt);
    match n
    case 0 => START
    case 1 => World(map["r" := row], map[0 := busy], [], [])
    case 2 => World(map["r" := row], map[0 := busy, 1 := busy], [], [])
    case 3 => World(map["r" := resolved], map[0 := sending, 1 := busy], [sent], [])
    case 4 => World(map["r" := resolved.(response := Some(Accepted("w", input.delivery, None)))], map[0 := done, 1 := busy], [sent], [])
    case 5 => World(map["r" := resolved.(response := Some(Accepted("w", input.delivery, None)))], map[0 := done, 1 := sending], [sent, sent], [])
    case _ => World(map["r" := resolved.(response := Some(Rejected(409, Conflict)))], map[0 := done, 1 := refused], [sent, sent], [])
  }

  function Overlap(input: Input, prompt: Prepared): seq<Event> {
    [Submitted(0, "s", Some(input), NoFault), Submitted(1, "s", Some(input), NoFault),
     PrepareAnswered(0, "r", PreparedAs(prompt), NoFault), SendAnswered(0, "r", SentAs("w", Some(input.delivery)), NoFault),
     PrepareAnswered(1, "r", PreparedAs(prompt), NoFault), SendAnswered(1, "r", NotSent(Conflict), NoFault)]
  }

  lemma RunNext(events: seq<Event>, n: nat)
    requires n < |events|
    ensures Run(START, events[..n + 1]) == Step(Run(START, events[..n]), events[n])
  {
    assert events[..n + 1][..n] == events[..n];
  }

  // ---------------------------------------------------------------- the object

  class Database {
    var rows: map<string, Receipt>
    ghost var sends: seq<Send>
    ghost var replies: seq<Reply>

    constructor ()
      ensures rows == map[] && sends == [] && replies == []
    {
      rows, sends, replies := map[], [], [];
    }
  }

  class PromptAdmissions {
    const db: Database
    var inFlight: map<string, Flight>
    ghost var open: multiset<string>

    ghost function View(): Local
      reads this, db
    {
      Local(db.rows, inFlight, open, db.sends, db.replies)
    }

    ghost predicate Valid()
      reads this, db
    {
      LocalOk(View())
    }

    constructor (db: Database)
      requires TablesOk(db.rows, db.sends)
      ensures this.db == db && Valid() && inFlight == map[]
    {
      this.db := db;
      inFlight, open := map[], multiset{};
    }

    /** The response, or none while the admission that the caller joined is in flight. */
    method SubmitPrompt(session: string, body: Option<Input>, fault: Fault) returns (response: Option<Response>)
      requires Valid()
      modifies this, db
      ensures Valid() && View() == Submit(old(View()), session, body, fault)
      ensures response.Some? ==> db.replies == old(db.replies) + [Reply(session, body, response.value)]
      ensures response.None? ==> body.Some? && body.value.requestId in inFlight && inFlight[body.value.requestId].input == body.value
    {
      SubmitKeeps(View(), session, body, fault);
      if body.None? || session == "" {
        response := Some(Rejected(400, InvalidRequest));
      } else if fault.Before? {
        response := Some(Pending);
      } else {
        var id := body.value.requestId;
        if id !in db.rows { db.rows := db.rows[id := Receipt(session, body.value, None, None)]; }
        var receipt := db.rows[id];
        if fault.After? { response := Some(Pending); }
        else if receipt.session != session || receipt.input != body.value { response := Some(Rejected(409, Conflict)); }
        else if receipt.response.Some? { response := receipt.response; }
        else {
          if id !in inFlight { StartAdmission(receipt, body.value); }
          return None;
        }
      }
      db.replies := db.replies + [Reply(session, body, response.value)];
    }

    method StartAdmission(receipt: Receipt, input: Input)
      modifies this, db`sends
      ensures View() == Begin(old(View()), receipt, input)
    {
      if receipt.resolved.Some? {
        Forward(receipt.session, input, receipt.resolved.value);
      } else {
        inFlight := inFlight[input.requestId := Preparing(receipt.session, input)];
        open := open + multiset{input.requestId};
      }
    }

    method Forward(session: string, input: Input, prompt: Prepared)
      modifies this, db`sends
      ensures View() == Dispatch(old(View()), session, input, prompt)
    {
      inFlight := inFlight[input.requestId := Sending(session, input)];
      open := open + multiset{input.requestId};
      db.sends := db.sends + [Send(input.requestId, session, prompt)];
    }

    method Record(id: string, flight: Flight, response: Response, fault: Fault)
      modifies this, db`rows
      ensures View() == Terminal(old(View()), id, flight, response, fault)
    {
      if !fault.Before? && id in db.rows { db.rows := db.rows[id := db.rows[id].(response := Some(response))]; }
      inFlight := inFlight[id := Finished(flight.session, flight.input, if fault.NoFault? then response else Pending)];
    }

    method Refuse(id: string, flight: Flight, code: Code, fault: Fault)
      modifies this, db`rows
      ensures View() == Failure(old(View()), id, flight, code, fault)
    {
      var response := FailureResponse(code);
      if response.Rejected? { Record(id, flight, response, fault); }
      else { inFlight := inFlight[id := Finished(flight.session, flight.input, response)]; }
    }

    method PrepareReturned(id: string, result: PrepareResult, fault: Fault)
      requires Valid() && id in inFlight && inFlight[id].Preparing?
      modifies this, db
      ensures Valid() && View() == AfterPrepare(old(View()), id, result, fault)
    {
      AfterPrepareKeeps(View(), id, result, fault);
      assert FlightOk(db.rows, db.sends, inFlight[id], id);
      var flight := inFlight[id];
      open := open - multiset{id};
      match result
      case PrepareThrew => inFlight := inFlight[id := Finished(flight.session, flight.input, Pending)];
      case NotPrepared(code) => Refuse(id, flight, code, fault);
      case PreparedAs(prompt) =>
        if !fault.Before? { Fix(id, prompt); }
        if !fault.NoFault? { inFlight := inFlight[id := Finished(flight.session, flight.input, Pending)]; }
        else { Forward(flight.session, flight.input, db.rows[id].resolved.value); }
    }

    method Fix(id: string, prompt: Prepared)
      modifies db`rows
      ensures View() == Resolved(old(View()), id, prompt)
    {
      if id in db.rows && db.rows[id].resolved.None? { db.rows := db.rows[id := db.rows[id].(resolved := Some(prompt))]; }
    }

    method SendReturned(id: string, result: SendResult, fault: Fault)
      requires Valid() && id in inFlight && inFlight[id].Sending?
      modifies this, db
      ensures Valid() && View() == AfterSend(old(View()), id, result, fault)
    {
      AfterSendKeeps(View(), id, result, fault);
      var flight := inFlight[id];
      open := open - multiset{id};
      match result
      case SendThrew => inFlight := inFlight[id := Finished(flight.session, flight.input, Pending)];
      case NotSent(code) => Refuse(id, flight, code, fault);
      case SentAs(workId, delivery) =>
        if workId == "" || delivery.None? { inFlight := inFlight[id := Finished(flight.session, flight.input, Pending)]; }
        else { Record(id, flight, Acceptance(flight.input, workId, delivery.value), fault); }
    }

    method Settle(id: string) returns (response: Response)
      requires Valid() && id in inFlight && inFlight[id].Finished?
      modifies this, db`replies
      ensures Valid() && View() == Release(old(View()), id) && response == old(inFlight[id].response)
    {
      ReleaseKeeps(View(), id);
      var flight := inFlight[id];
      response := flight.response;
      inFlight := inFlight - {id};
      db.replies := db.replies + [Reply(flight.session, Some(flight.input), response)];
    }
  }
}
