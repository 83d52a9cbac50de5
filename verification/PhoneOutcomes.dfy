/**
 * What becomes of a phone command, and why (apps/remote/server/phones.ts): each settlement has one cause, each event one effect
 * on the commands in flight, and a connection ends for the reasons listed here and no other.
 */
module PhoneOutcomes {
  import opened Options
  import opened PhoneBroker

  /** The connection a device has registered. */
  predicate Registered(b: Broker, device: string, c: nat) {
    device in b.devices && b.devices[device] == Some(c) && c in b.table
  }

  predicate Online(b: Broker, device: string) {
    !b.stopped && device in b.devices && b.devices[device].Some? && b.devices[device].value in b.table
  }

  function InFlightOf(b: Broker, device: string): nat
    requires Online(b, device)
  {
    |b.table[b.devices[device].value].pending|
  }

  /** The first reason in this order that keeps a command from being handed over. */
  ghost predicate RefusedFor(b: Broker, e: Event, reason: Reason)
    requires e.Execute?
  {
    match reason
    case InvalidRequest => !e.valid
    case Offline => e.valid && !Online(b, e.device)
    case Cancelled => e.valid && Online(b, e.device) && e.aborted
    case Busy => e.valid && Online(b, e.device) && !e.aborted && InFlightOf(b, e.device) == 32
    case JournalUnavailable => e.valid && Online(b, e.device) && !e.aborted && InFlightOf(b, e.device) < 32 && !e.journaled
    case TransportRejected => Transported(b, e) && e.sent == Rejected
  }

  ghost predicate Transported(b: Broker, e: Event)
    requires e.Execute?
  {
    e.valid && Online(b, e.device) && !e.aborted && InFlightOf(b, e.device) < 32 && e.journaled
  }

  /** The one cause of a settlement. */
  ghost predicate Because(b: Broker, e: Event, b': Broker, s: Settlement) {
    match s.outcome
    case Reported(ok) =>
      && s.connection.Some? && PendingAt(b, s.command, s.connection.value) && b.table[s.connection.value].device.Some?
      && e == Receive(s.connection.value, Result(true, s.command, ok))
    case NotDispatched(reason) =>
      && e.Execute? && e.command == s.command && RefusedFor(b, e, reason)
      && (if reason == TransportRejected then s.connection.Some? && Registered(b, e.device, s.connection.value) else s.connection.None?)
    case Unconfirmed =>
      && s.connection.Some?
      && (|| (PendingAt(b, s.command, s.connection.value) && Unanswered(b, e, b', s.command, s.connection.value))
          || (e.Execute? && e.command == s.command && Transported(b, e) && e.sent == Threw && Registered(b, e.device, s.connection.value)))
  }

  /** The deadline, the caller's abort, or the end of the connection. */
  ghost predicate Unanswered(b: Broker, e: Event, b': Broker, x: nat, c: nat)
    requires c in b.table
  {
    e == Deadline(c, x) || e == Abort(c, x) || (!b.table[c].closed && c in b'.table && b'.table[c].closed)
  }

  // ---------------------------------------------------------------- the end of a connection

  /** The settlements of commands that lose their connection, in the order in which they were sent. */
  function Lost(c: nat, pending: seq<nat>): (lost: seq<Settlement>)
    ensures |lost| == |pending|
    ensures forall i :: 0 <= i < |pending| ==> lost[i] == Settlement(pending[i], Some(c), Unconfirmed)
  {
    seq(|pending|, i requires 0 <= i < |pending| => Settlement(pending[i], Some(c), Unconfirmed))
  }

  lemma {:induction false} RemoveOther(s: seq<nat>, x: nat)
    requires x !in s
    ensures Remove(s, x) == s
  {
    if s != [] { RemoveOther(s[1..], x); }
  }

  lemma {:induction false} SettleAllLoses(b: Broker, c: nat)
    requires c in b.table && NoRepeats(b.table[c].pending)
    ensures SettleAll(b, c).settled == b.settled + Lost(c, b.table[c].pending)
    decreases |b.table[c].pending|
  {
    var pending := b.table[c].pending;
    if pending != [] {
      var b1 := Settle(b, c, pending[0], Unconfirmed);
      RemoveFirst(pending);
      SettleAllLoses(b1, c);
      assert Lost(c, pending) == [Settlement(pending[0], Some(c), Unconfirmed)] + Lost(c, pending[1..]);
    }
  }

  lemma RemoveFirst(s: seq<nat>)
    requires NoRepeats(s) && s != []
    ensures Remove(s, s[0]) == s[1..] && NoRepeats(s[1..])
  {
    RemoveOther(s[1..], s[0]);
  }

  /** The end of a connection settles exactly what was in flight on it, as unconfirmed. */
  lemma CloseLoses(b: Broker, c: nat)
    requires Inv(b) && c in b.table
    ensures Close(b, c).settled == b.settled + (if b.table[c].closed then [] else Lost(c, b.table[c].pending))
  {
    if !b.table[c].closed {
      assert InFlight(b, c);
      SettleAllLoses(Unregister(b, c), c);
    }
  }

  lemma ClosedBecause(b: Broker, e: Event, c: nat, b': Broker, s: Settlement)
    requires Inv(b) && c in b.table && s in Close(b, c).settled && s !in b.settled
    requires c in b'.table && b'.table[c].closed
    ensures Because(b, e, b', s)
  {
    CloseLoses(b, c);
    assert !b.table[c].closed;
  }

  // ---------------------------------------------------------------- the cause of every settlement

  lemma ReceivedBecause(b: Broker, c: nat, frame: Frame, s: Settlement)
    requires Inv(b) && c in b.table
    requires s in Received(b, c, frame).settled && s !in b.settled
    ensures Because(b, Receive(c, frame), Received(b, c, frame), s)
  {
    CloseInv(b, c);
    match frame
    case Hello(valid, id, reply) =>
      if valid && (b.table[c].device.None? || b.table[c].device.value == id) { GreetedBecause(b, c, id, reply, s); }
      else { ClosedBecause(b, Receive(c, frame), c, Close(b, c), s); }
    case Result(wellFormed, command, ok) =>
      if b.table[c].device.None? || !wellFormed { ClosedBecause(b, Receive(c, frame), c, Close(b, c), s); }
    case _ => ClosedBecause(b, Receive(c, frame), c, Close(b, c), s);
  }

  lemma GreetedBecause(b: Broker, c: nat, id: string, reply: Sent, s: Settlement)
    requires Inv(b) && c in b.table && !b.table[c].closed && (b.table[c].device.None? || b.table[c].device == Some(id))
    requires s in Greet(b, c, id, reply).settled && s !in b.settled
    ensures Because(b, Receive(c, Hello(true, id, reply)), Greet(b, c, id, reply), s)
  {
    var previous := if id in b.devices then b.devices[id] else None;
    var e := Receive(c, Hello(true, id, reply));
    if previous.Some? && previous.value != c {
      var b1 := Close(b, previous.value);
      CloseInv(b, previous.value);
      RegisterInv(b1, c, id, reply);
      RegisterKeeps(b1, c, id, reply);
      if s in b1.settled { ClosedBecause(b, e, previous.value, Greet(b, c, id, reply), s); }
      else { RegisteredBecause(b1, c, id, reply, s); }
    } else {
      RegisteredBecause(b, c, id, reply, s);
    }
  }

  lemma RegisterKeeps(b: Broker, c: nat, id: string, reply: Sent)
    requires Inv(b) && c in b.table && !b.table[c].closed && (b.table[c].device.None? || b.table[c].device == Some(id))
    ensures var b' := Register(b, c, id, reply);
      && c in b'.table && b'.table[c].device == Some(id) && b'.table[c].closed == (reply != Accepted)
      && (reply == Accepted ==> b'.table[c].pending == b.table[c].pending)
      && (forall d :: d in b.table && d != c ==> d in b'.table && b'.table[d] == b.table[d])
      && b'.settled == b.settled + (if reply == Accepted then [] else Lost(c, b.table[c].pending))
      && b'.handed == b.handed && b'.stopped == b.stopped
      && b'.devices == b.devices[id := if reply == Accepted then Some(c) else None]
  {
    NamedInv(b, c, id);
    if reply != Accepted { NamedCloses(b, Named(b, c, id), c, id); }
  }

  lemma NamedCloses(b: Broker, b1: Broker, c: nat, id: string)
    requires c in b.table && !b.table[c].closed && Inv(b1) && b1 == Named(b, c, id)
    ensures var b' := Close(b1, c);
      && c in b'.table && b'.table[c].device == Some(id) && b'.table[c].closed
      && (forall d :: d in b.table && d != c ==> d in b'.table && b'.table[d] == b.table[d])
      && b'.settled == b.settled + Lost(c, b.table[c].pending)
      && b'.handed == b.handed && b'.stopped == b.stopped
      && b'.devices == b.devices[id := None]
  {
    CloseInv(b1, c);
    CloseLoses(b1, c);
    CoreFrame(b1, Unregister(b1, c));
    SettleAllCore(Unregister(b1, c), c);
    assert b1.devices[id := None] == b.devices[id := None];
  }

  function Named(b: Broker, c: nat, id: string): Broker
    requires c in b.table
  {
    b.(table := b.table[c := b.table[c].(device := Some(id))], devices := b.devices[id := Some(c)])
  }

  lemma NamedInv(b: Broker, c: nat, id: string)
    requires Inv(b) && c in b.table && !b.table[c].closed && (b.table[c].device.None? || b.table[c].device == Some(id))
    ensures Inv(Named(b, c, id))
  {
    CoreFrame(b, Named(b, c, id));
  }

  lemma RegisteredBecause(b: Broker, c: nat, id: string, reply: Sent, s: Settlement)
    requires Inv(b) && c in b.table && !b.table[c].closed && (b.table[c].device.None? || b.table[c].device == Some(id))
    requires s in Register(b, c, id, reply).settled && s !in b.settled
    ensures s.outcome.Unconfirmed? && s.connection == Some(c) && PendingAt(b, s.command, c)
    ensures c in Register(b, c, id, reply).table && Register(b, c, id, reply).table[c].closed
  {
    RegisterKeeps(b, c, id, reply);
  }

  lemma ExecutedBecause(b: Broker, e: Event, s: Settlement)
    requires Inv(b) && e.Execute? && Fresh(b, e.command)
    requires s in Executed(b, e.device, e.command, e.valid, e.aborted, e.journaled, e.sent).settled && s !in b.settled
    ensures Because(b, e, Executed(b, e.device, e.command, e.valid, e.aborted, e.journaled, e.sent), s)
  {
    if Online(b, e.device) {
      var c := b.devices[e.device].value;
      assert InFlight(b, c);
      if Transported(b, e) { DispatchedBecause(b, e, c, s); }
    }
  }

  lemma DispatchedBecause(b: Broker, e: Event, c: nat, s: Settlement)
    requires Inv(b) && e.Execute? && Fresh(b, e.command) && Transported(b, e) && Registered(b, e.device, c)
    requires s in Dispatched(b, c, e.command, e.sent).settled && s !in b.settled
    ensures Because(b, e, Dispatched(b, c, e.command, e.sent), s)
  {
    NotInFlight(b, c, e.command);
    DispatchEnds(b, c, e.command, e.sent);
  }

  lemma NotInFlight(b: Broker, c: nat, command: nat)
    requires Inv(b) && c in b.table && Fresh(b, command)
    ensures command !in b.table[c].pending
  {
    assert InFlight(b, c);
  }

  /** A command that the transport does not take ends the connection too, with everything that was in flight on it. */
  lemma DispatchEnds(b: Broker, c: nat, command: nat, sent: Sent)
    requires Inv(b) && c in b.table && !b.table[c].closed && Fresh(b, command) && command !in b.table[c].pending
    requires |b.table[c].pending| < 32
    ensures var b' := Dispatched(b, c, command, sent);
      && c in b'.table
      && b'.handed == b.handed + [Handed(command, c, sent)]
      && b'.table[c].closed == (sent != Accepted)
      && (sent == Accepted ==> b'.table[c].pending == b.table[c].pending + [command] && b'.settled == b.settled && b'.devices == b.devices)
      && (sent == Rejected ==> b'.settled == b.settled + [Settlement(command, Some(c), NotDispatched(TransportRejected))] + Lost(c, b.table[c].pending))
      && (sent == Threw ==> b'.settled == b.settled + [Settlement(command, Some(c), Unconfirmed)] + Lost(c, b.table[c].pending))
      && (forall d :: d in b.table && d != c ==> d in b'.table && b'.table[d] == b.table[d])
  {
    if sent != Accepted {
      var outcome := if sent == Rejected then NotDispatched(TransportRejected) else Unconfirmed;
      var h, last := Handed(command, c, sent), Settlement(command, Some(c), outcome);
      var b1 := b.(handed := b.handed + [h], settled := b.settled + [last]);
      SettledAtOnce(b, c, command, sent, outcome);
      assert h in b.handed + [h];
      RecordCore(b, command, [h], last);
      CloseInv(b1, c);
      CloseLoses(b1, c);
    }
  }

  lemma {:induction false} CloseAllLoses(b: Broker, cs: seq<nat>, s: Settlement)
    requires Inv(b.(stopped := false)) && (forall c :: c in cs ==> c in b.table)
    requires s in CloseAll(b, cs).settled && s !in b.settled
    ensures s.outcome.Unconfirmed? && s.connection.Some? && s.connection.value in cs
    ensures PendingAt(b, s.command, s.connection.value) && !b.table[s.connection.value].closed
    decreases cs
  {
    if cs != [] {
      var b0, b1 := b.(stopped := false), Close(b, cs[0]);
      CloseUnstopped(b, cs[0]);
      CloseInv(b0, cs[0]);
      CloseLoses(b0, cs[0]);
      if s !in b1.settled { CloseAllLoses(b1, cs[1..], s); }
    }
  }

  lemma StopBecause(b: Broker, b': Broker, s: Settlement)
    requires Inv(b) && Next(b, Stop, b') && s in b'.settled && s !in b.settled
    ensures Because(b, Stop, b', s)
  {
    var cs :| (forall c :: c in cs <==> c in b.open) && (forall c :: c in cs ==> c in b.table) && b' == CloseAll(b.(stopped := true), cs);
    StopInv(b, b');
    StopCloses(b, b');
    CoreFrame(b, b.(stopped := false));
    assert b.(stopped := true).(stopped := false) == b.(stopped := false);
    CloseAllLoses(b.(stopped := true), cs, s);
  }

  lemma StopCloses(b: Broker, b': Broker)
    requires Inv(b) && Next(b, Stop, b')
    ensures b'.table.Keys == b.table.Keys && forall c :: c in b.table ==> c in b'.table && b'.table[c].closed
  {
    var cs :| (forall c :: c in cs <==> c in b.open) && (forall c :: c in cs ==> c in b.table) && b' == CloseAll(b.(stopped := true), cs);
    assert b.(stopped := true).(stopped := false) == b.(stopped := false);
    CoreFrame(b, b.(stopped := false));
    CloseAllInv(b.(stopped := true), cs);
    StopInv(b, b');
    forall c | c in b.table ensures c in b'.table && b'.table[c].closed {
      assert c in b'.table.Keys;
    }
  }

  /** An event settles a command only as its cause. */
  lemma SettledByEvent(b: Broker, e: Event, b': Broker, s: Settlement)
    requires Inv(b) && Next(b, e, b') && s in b'.settled && s !in b.settled
    ensures Because(b, e, b', s)
  {
    match e
    case Receive(c, frame) => ReceivedBecause(b, c, frame, s);
    case Disconnect(c) => CloseInv(b, c); ClosedBecause(b, e, c, b', s);
    case HelloTimeout(c) => CloseInv(b, c); ClosedBecause(b, e, c, b', s);
    case Execute(_, _, _, _, _, _) => ExecutedBecause(b, e, s);
    case Stop => StopBecause(b, b', s);
    case Open(_) =>
    case Deadline(_, _) =>
    case Abort(_, _) =>
  }

  /** Every settlement of every run has its cause: the result that is reported is the one the phone sent for this command. */
  lemma {:induction false} SettledBecause(trace: seq<Broker>, events: seq<Event>, i: nat, s: Settlement)
    requires Run(trace, events) && i < |trace| && s in trace[i].settled
    ensures exists j :: 0 <= j < i && s !in trace[j].settled && Because(trace[j], events[j], trace[j + 1], s)
  {
    if i > 0 {
      if s in trace[i - 1].settled {
        SettledBecause(trace, events, i - 1, s);
      } else {
        InvAlongRun(trace, events, i - 1);
        SettledByEvent(trace[i - 1], events[i - 1], trace[i - 1 + 1], s);
      }
    }
  }

  // ---------------------------------------------------------------- the effect of every event

  /** A settlement takes its command out of flight, and nothing else changes. */
  ghost predicate SettledAs(b: Broker, c: nat, x: nat, outcome: Outcome, b': Broker) {
    && PendingAt(b, x, c) && c in b'.table
    && b'.settled == b.settled + [Settlement(x, Some(c), outcome)]
    && (forall y :: y in b'.table[c].pending <==> y in b.table[c].pending && y != x)
    && b' == b.(table := b.table[c := b.table[c].(pending := b'.table[c].pending)], settled := b'.settled)
  }

  /** A result for a command in flight settles it as it was reported; deadline and abort leave it unconfirmed. */
  lemma InFlightSettles(b: Broker, e: Event, c: nat, x: nat, b': Broker)
    requires Inv(b) && Next(b, e, b') && PendingAt(b, x, c) && b.table[c].device.Some?
    ensures forall ok :: e == Receive(c, Result(true, x, ok)) ==> SettledAs(b, c, x, Reported(ok), b')
    ensures e == Deadline(c, x) || e == Abort(c, x) ==> SettledAs(b, c, x, Unconfirmed, b')
  {
    assert !b.table[c].closed;
  }

  /** A result, deadline or abort for a command that is not in flight there changes nothing. */
  lemma LateAnswersAreIgnored(b: Broker, e: Event, c: nat, x: nat, b': Broker)
    requires Next(b, e, b') && c in b.table && b.table[c].device.Some? && !PendingAt(b, x, c)
    requires e == Deadline(c, x) || e == Abort(c, x) || (e.Receive? && e.connection == c && e.frame.Result? && e.frame.wellFormed && e.frame.command == x)
    ensures b' == b
  {}

  /** Execution answers a refused command at once, hands over any other, and registers it as in flight exactly if it is taken. */
  lemma ExecuteAnswers(b: Broker, e: Event, b': Broker)
    requires Inv(b) && e.Execute? && Next(b, e, b')
    ensures forall reason :: reason != TransportRejected && RefusedFor(b, e, reason) ==>
      b' == b.(settled := b.settled + [Settlement(e.command, None, NotDispatched(reason))])
    ensures Transported(b, e) || exists reason :: reason != TransportRejected && RefusedFor(b, e, reason)
    ensures Transported(b, e) ==> var c := b.devices[e.device].value;
      && b'.handed == b.handed + [Handed(e.command, c, e.sent)]
      && c in b'.table && b'.table[c].closed == (e.sent != Accepted)
      && (e.sent == Accepted ==> b'.table[c].pending == b.table[c].pending + [e.command] && b'.settled == b.settled)
      && (e.sent == Rejected ==> b'.settled == b.settled + [Settlement(e.command, Some(c), NotDispatched(TransportRejected))] + Lost(c, b.table[c].pending))
      && (e.sent == Threw ==> b'.settled == b.settled + [Settlement(e.command, Some(c), Unconfirmed)] + Lost(c, b.table[c].pending))
  {
    if Online(b, e.device) {
      assert InFlight(b, b.devices[e.device].value);
    }
    if Transported(b, e) {
      var c := b.devices[e.device].value;
      NotInFlight(b, c, e.command);
      DispatchEnds(b, c, e.command, e.sent);
    } else {
      var reason := if !e.valid then InvalidRequest else if !Online(b, e.device) then Offline else if e.aborted then Cancelled
        else if InFlightOf(b, e.device) == 32 then Busy else JournalUnavailable;
      assert RefusedFor(b, e, reason);
    }
  }

  /** A greeting registers the connection under its device and ends the one that was registered before. */
  lemma HelloRegisters(b: Broker, c: nat, id: string, reply: Sent, b': Broker)
    requires Inv(b) && Next(b, Receive(c, Hello(true, id, reply)), b')
    requires !b.table[c].closed && (b.table[c].device.None? || b.table[c].device == Some(id))
    ensures c in b'.table && b'.table[c].device == Some(id) && b'.table[c].closed == (reply != Accepted)
    ensures b'.handed == b.handed && id in b'.devices && b'.devices[id] == if reply == Accepted then Some(c) else None
    ensures forall d :: d in b.table && d != c ==> d in b'.table && if Registered(b, id, d) then b'.table[d].closed else b'.table[d] == b.table[d]
  {
    var previous := if id in b.devices then b.devices[id] else None;
    if previous.Some? && previous.value != c {
      CloseInv(b, previous.value);
      RegisterKeeps(Close(b, previous.value), c, id, reply);
    } else {
      RegisterKeeps(b, c, id, reply);
    }
  }

  /** Why a frame ends the connection it came over. */
  ghost predicate BadFrame(b: Broker, c: nat, frame: Frame)
    requires c in b.table
  {
    var device := b.table[c].device;
    match frame
    case Unreadable => true
    case Unknown => true
    case Hello(valid, id, reply) => !valid || (device.Some? && device.value != id) || reply != Accepted
    case Heartbeat(reply) => device.None? || !Registered(b, device.value, c) || reply != Accepted
    case OverlayMessage(valid) => device.None? || !valid
    case Result(wellFormed, _, _) => device.None? || !wellFormed
  }

  /** Another connection greets with the device that this one has registered. */
  ghost predicate Replaces(b: Broker, d: nat, frame: Frame, c: nat)
    requires d in b.table
  {
    && frame.Hello? && frame.valid && Registered(b, frame.device, c)
    && (b.table[d].device.None? || b.table[d].device == Some(frame.device))
  }

  /** The reasons for which an open connection ends. */
  ghost predicate Ends(b: Broker, e: Event, c: nat)
    requires c in b.table
  {
    match e
    case Open(_) => false
    case Receive(d, frame) => d in b.table && !b.table[d].closed && if d == c then BadFrame(b, c, frame) else Replaces(b, d, frame, c)
    case Disconnect(d) => d == c
    case HelloTimeout(d) => d == c
    case Execute(device, _, _, _, _, sent) => Transported(b, e) && Registered(b, device, c) && sent != Accepted
    case Deadline(_, _) => false
    case Abort(_, _) => false
    case Stop => true
  }

  /** A connection ends exactly for these reasons. */
  lemma EndsExactly(b: Broker, e: Event, c: nat, b': Broker)
    requires Inv(b) && Next(b, e, b') && c in b.table && !b.table[c].closed
    ensures c in b'.table && (b'.table[c].closed <==> Ends(b, e, c))
  {
    match e
    case Receive(d, frame) => ReceiveEnds(b, d, frame, c, b');
    case Disconnect(d) => CloseInv(b, d);
    case HelloTimeout(d) => CloseInv(b, d);
    case Execute(_, _, _, _, _, _) => ExecuteEnds(b, e, c, b');
    case Stop => StopCloses(b, b');
    case Open(_) =>
    case Deadline(_, _) =>
    case Abort(_, _) =>
  }

  lemma ReceiveEnds(b: Broker, d: nat, frame: Frame, c: nat, b': Broker)
    requires Inv(b) && Next(b, Receive(d, frame), b') && c in b.table && !b.table[c].closed
    ensures c in b'.table && (b'.table[c].closed <==> Ends(b, Receive(d, frame), c))
  {
    if Greets(b, d, frame) { HelloEnds(b, d, frame, c, b'); } else { OthersEnd(b, d, frame, c, b'); }
  }

  predicate Greets(b: Broker, c: nat, frame: Frame)
    requires c in b.table
  {
    frame.Hello? && frame.valid && !b.table[c].closed && (b.table[c].device.None? || b.table[c].device.value == frame.device)
  }

  lemma HelloEnds(b: Broker, d: nat, frame: Frame, c: nat, b': Broker)
    requires Inv(b) && Next(b, Receive(d, frame), b') && c in b.table && !b.table[c].closed && Greets(b, d, frame)
    ensures c in b'.table && (b'.table[c].closed <==> Ends(b, Receive(d, frame), c))
  {
    HelloRegisters(b, d, frame.device, frame.reply, b');
  }

  lemma OthersEnd(b: Broker, d: nat, frame: Frame, c: nat, b': Broker)
    requires Inv(b) && Next(b, Receive(d, frame), b') && c in b.table && !b.table[c].closed && !Greets(b, d, frame)
    ensures c in b'.table && (b'.table[c].closed <==> Ends(b, Receive(d, frame), c))
  {
    CloseInv(b, d);
  }

  lemma ExecuteEnds(b: Broker, e: Event, c: nat, b': Broker)
    requires Inv(b) && e.Execute? && Next(b, e, b') && c in b.table && !b.table[c].closed
    ensures c in b'.table && (b'.table[c].closed <==> Ends(b, e, c))
  {
    if Transported(b, e) {
      var d := b.devices[e.device].value;
      NotInFlight(b, d, e.command);
      DispatchEnds(b, d, e.command, e.sent);
    } else {
      ExecuteAnswers(b, e, b');
    }
  }

  lemma HandedStays(b: Broker, e: Event, b': Broker, h: Handed)
    requires Inv(b) && Next(b, e, b') && h in b.handed
    ensures h in b'.handed
  {
    match e
    case Receive(c, frame) => ReceiveHands(b, c, frame, b');
    case Disconnect(c) => CloseInv(b, c);
    case HelloTimeout(c) => CloseInv(b, c);
    case Execute(_, _, _, _, _, _) => ExecuteAnswers(b, e, b');
    case Stop => StopInv(b, b');
    case Open(_) =>
    case Deadline(_, _) =>
    case Abort(_, _) =>
  }

  lemma ReceiveHands(b: Broker, c: nat, frame: Frame, b': Broker)
    requires Inv(b) && Next(b, Receive(c, frame), b')
    ensures b'.handed == b.handed
  {
    CloseInv(b, c);
    if Greets(b, c, frame) { HelloRegisters(b, c, frame.device, frame.reply, b'); }
  }

  /** Each command in flight on a connection that ends is settled as unconfirmed. */
  lemma EndSettles(b: Broker, e: Event, c: nat, b': Broker, x: nat)
    requires Inv(b) && Next(b, e, b') && PendingAt(b, x, c) && Ends(b, e, c)
    ensures Settlement(x, Some(c), Unconfirmed) in b'.settled
  {
    EventKeepsInv(b, e, b');
    EndsExactly(b, e, c, b');
    assert InFlight(b, c) && Handed(x, c, Accepted) in b.handed;
    HandedStays(b, e, b', Handed(x, c, Accepted));
    var s :| s in b'.settled && s.command == x;
    SettledByEvent(b, e, b', s);
    if s.connection.Some? && PendingAt(b, x, s.connection.value) { SameConnection(b, c, s.connection.value, x); }
  }

}
