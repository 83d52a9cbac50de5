/**
 * The phone command broker (apps/remote/server/phones.ts).  Commands go to the one connection a device has registered;
 * results, deadlines, aborts, disconnects, replacements and stop may come in any order.
 */
module PhoneBroker {
  import opened Options

  const MAX_IN_FLIGHT: nat := 32

  /** `pending` is a JavaScript Map, in insertion order; connections and commands are named by numbers. */
  datatype Connection = Connection(device: Option<string>, pending: seq<nat>, closed: bool)

  /** What came of one `transport.send`. */
  datatype Sent = Accepted | Rejected | Threw

  datatype Outcome = Reported(ok: bool) | Unconfirmed | NotDispatched(reason: Reason)
  datatype Reason = InvalidRequest | Offline | Cancelled | Busy | JournalUnavailable | TransportRejected

  datatype Handed = Handed(command: nat, connection: nat, sent: Sent)
  datatype Settlement = Settlement(command: nat, connection: Option<nat>, outcome: Outcome)

  /** `devices` holds the registered connection of each known device; the last two fields are history. */
  datatype Broker = Broker(
    table: map<nat, Connection>,
    devices: map<string, Option<nat>>,
    open: set<nat>,
    stopped: bool,
    handed: seq<Handed>,
    settled: seq<Settlement>)

  datatype Frame =
    | Unreadable
    | Hello(valid: bool, device: string, reply: Sent)
    | Heartbeat(reply: Sent)
    | OverlayMessage(valid: bool)
    | Result(wellFormed: bool, command: nat, ok: bool)
    | Unknown

  datatype Event =
    | Open(connection: nat)
    | Receive(connection: nat, frame: Frame)
    | Disconnect(connection: nat)
    | HelloTimeout(connection: nat)
    | Execute(device: string, command: nat, valid: bool, aborted: bool, journaled: bool, sent: Sent)
    | Deadline(connection: nat, command: nat)
    | Abort(connection: nat, command: nat)
    | Stop

  // ---------------------------------------------------------------- the operations

  function Remove(s: seq<nat>, x: nat): (r: seq<nat>)
    ensures forall y :: y in r <==> y in s && y != x
    ensures |r| <= |s| && (x in s ==> |r| < |s|)
  {
    if s == [] then [] else (if s[0] == x then [] else [s[0]]) + Remove(s[1..], x)
  }

  /** `settle`: only the first settlement of a pending command counts. */
  function Settle(b: Broker, c: nat, command: nat, outcome: Outcome): Broker
    requires c in b.table
  {
    if command !in b.table[c].pending then b
    else b.(table := b.table[c := b.table[c].(pending := Remove(b.table[c].pending, command))],
            settled := b.settled + [Settlement(command, Some(c), outcome)])
  }

  function SettleAll(b: Broker, c: nat): Broker
    requires c in b.table
    decreases |b.table[c].pending|
  {
    if b.table[c].pending == [] then b else SettleAll(Settle(b, c, b.table[c].pending[0], Unconfirmed), c)
  }

  /** `disconnected` before its loop: closed, and no longer registered. */
  function Unregister(b: Broker, c: nat): Broker
    requires c in b.table
  {
    var device := b.table[c].device;
    b.(table := b.table[c := b.table[c].(closed := true)],
       open := b.open - {c},
       devices := if device.Some? && device.value in b.devices && b.devices[device.value] == Some(c)
                  then b.devices[device.value := None] else b.devices)
  }

  function Close(b: Broker, c: nat): Broker
    requires c in b.table
  {
    if b.table[c].closed then b else SettleAll(Unregister(b, c), c)
  }

  function CloseAll(b: Broker, cs: seq<nat>): Broker
    requires forall c :: c in cs ==> c in b.table
    decreases cs
  {
    if cs == [] then b else
      CloseKeepsTable(b, cs[0]);
      CloseAll(Close(b, cs[0]), cs[1..])
  }

  function AfterReply(b: Broker, c: nat, reply: Sent): Broker
    requires c in b.table
  {
    if reply == Accepted then b else Close(b, c)
  }

  function Greet(b: Broker, c: nat, device: string, reply: Sent): Broker
    requires c in b.table
    requires forall d :: d in b.devices && b.devices[d].Some? ==> b.devices[d].value in b.table
  {
    var previous := if device in b.devices then b.devices[device] else None;
    var b1 := if previous.Some? && previous.value != c then Close(b, previous.value) else b;
    if previous.Some? && previous.value != c then
      CloseKeepsTable(b, previous.value);
      Register(b1, c, device, reply)
    else Register(b1, c, device, reply)
  }

  function Register(b: Broker, c: nat, device: string, reply: Sent): Broker
    requires c in b.table
  {
    AfterReply(b.(table := b.table[c := b.table[c].(device := Some(device))], devices := b.devices[device := Some(c)]), c, reply)
  }

  function Received(b: Broker, c: nat, frame: Frame): Broker
    requires c in b.table
    requires forall d :: d in b.devices && b.devices[d].Some? ==> b.devices[d].value in b.table
  {
    var device := b.table[c].device;
    if b.table[c].closed then b
    else match frame
      case Unreadable => Close(b, c)
      case Unknown => Close(b, c)
      case Hello(valid, id, reply) =>
        if !valid || (device.Some? && device.value != id) then Close(b, c) else Greet(b, c, id, reply)
      case Heartbeat(reply) =>
        if device.None? || device.value !in b.devices || b.devices[device.value] != Some(c) then Close(b, c)
        else AfterReply(b, c, reply)
      case OverlayMessage(valid) => if device.None? || !valid then Close(b, c) else b
      case Result(wellFormed, command, ok) =>
        if device.None? || !wellFormed then Close(b, c) else Settle(b, c, command, Reported(ok))
  }

  function Refused(b: Broker, command: nat, reason: Reason): Broker {
    b.(settled := b.settled + [Settlement(command, None, NotDispatched(reason))])
  }

  function Executed(b: Broker, device: string, command: nat, valid: bool, aborted: bool, journaled: bool, sent: Sent): Broker
    requires forall d :: d in b.devices && b.devices[d].Some? ==> b.devices[d].value in b.table
  {
    var connection := if device in b.devices then b.devices[device] else None;
    if !valid then Refused(b, command, InvalidRequest)
    else if connection.None? || b.table[connection.value].closed || b.stopped then Refused(b, command, Offline)
    else if aborted then Refused(b, command, Cancelled)
    else if |b.table[connection.value].pending| >= MAX_IN_FLIGHT then Refused(b, command, Busy)
    else if !journaled then Refused(b, command, JournalUnavailable)
    else Dispatched(b, connection.value, command, sent)
  }

  function Dispatched(b: Broker, c: nat, command: nat, sent: Sent): Broker
    requires c in b.table
  {
    var b1 := b.(table := b.table[c := b.table[c].(pending := b.table[c].pending + [command])],
                 handed := b.handed + [Handed(command, c, sent)]);
    match sent
    case Accepted => b1
    case Rejected => Close(Settle(b1, c, command, NotDispatched(TransportRejected)), c)
    case Threw => Close(Settle(b1, c, command, Unconfirmed), c)
  }

  ghost predicate Next(b: Broker, e: Event, b': Broker) {
    match e
    case Open(c) =>
      && c !in b.table
      && b' == b.(table := b.table[c := Connection(None, [], b.stopped)], open := if b.stopped then b.open else b.open + {c})
    case Receive(c, frame) => c in b.table && Linked(b) && b' == Received(b, c, frame)
    case Disconnect(c) => c in b.table && b' == Close(b, c)
    case HelloTimeout(c) => c in b.table && b.table[c].device.None? && b' == Close(b, c)
    case Execute(device, command, valid, aborted, journaled, sent) =>
      && Linked(b) && Fresh(b, command)
      && b' == Executed(b, device, command, valid, aborted, journaled, sent)
    case Deadline(c, command) => c in b.table && b' == Settle(b, c, command, Unconfirmed)
    case Abort(c, command) => c in b.table && b' == Settle(b, c, command, Unconfirmed)
    case Stop =>
      exists cs :: (forall c :: c in cs <==> c in b.open) && (forall c :: c in cs ==> c in b.table) &&
        b' == CloseAll(b.(stopped := true), cs)
  }

  /** Command ids are random and never repeat. */
  ghost predicate Fresh(b: Broker, command: nat) {
    && (forall h :: h in b.handed ==> h.command != command)
    && (forall s :: s in b.settled ==> s.command != command)
  }

  // ---------------------------------------------------------------- invariants

  /** A registered connection is open and carries that device's id; `open` lists the connections that are not closed. */
  ghost predicate Linked(b: Broker) {
    && (forall d :: d in b.devices && b.devices[d].Some? ==>
          b.devices[d].value in b.table && !b.table[b.devices[d].value].closed && b.table[b.devices[d].value].device == Some(d))
    && (forall c :: c in b.open <==> c in b.table && !b.table[c].closed)
    && (b.stopped ==> b.open == {})
  }

  ghost predicate NoRepeats(s: seq<nat>) {
    forall i, j :: 0 <= i < j < |s| ==> s[i] != s[j]
  }

  /** At most 32 commands are in flight on a connection, each handed to it and accepted. */
  ghost predicate InFlight(b: Broker, c: nat)
    requires c in b.table
  {
    var pending := b.table[c].pending;
    && |pending| <= MAX_IN_FLIGHT && NoRepeats(pending)
    && forall x :: x in pending ==> Handed(x, c, Accepted) in b.handed
  }

  /** Each command is handed over at most once, settled at most once, and never lost. */
  ghost predicate Accounted(b: Broker) {
    && (forall i, j :: 0 <= i < j < |b.handed| ==> b.handed[i].command != b.handed[j].command)
    && (forall i, j :: 0 <= i < j < |b.settled| ==> b.settled[i].command != b.settled[j].command)
    && (forall c, x :: c in b.table && x in b.table[c].pending ==> forall s :: s in b.settled ==> s.command != x)
    && (forall h :: h in b.handed ==>
          (h.connection in b.table && h.command in b.table[h.connection].pending) || exists s :: s in b.settled && s.command == h.command)
  }

  /** An outcome says what happened: a report came from the connection of the command, "not dispatched" was not accepted. */
  ghost predicate Truthful(b: Broker, s: Settlement) {
    match s.outcome
    case Reported(_) => s.connection.Some? && Handed(s.command, s.connection.value, Accepted) in b.handed
    case NotDispatched(_) => forall h :: h in b.handed && h.command == s.command ==> h.sent == Rejected
    case Unconfirmed => s.connection.Some? && exists h :: h in b.handed && h.command == s.command && h.connection == s.connection.value && h.sent != Rejected
  }

  ghost predicate Core(b: Broker) {
    && Accounted(b)
    && (forall c :: c in b.table ==> InFlight(b, c))
    && (forall s :: s in b.settled ==> Truthful(b, s))
  }

  /** A closed connection has nothing in flight. */
  ghost predicate ClosedIsEmpty(b: Broker) {
    forall c :: c in b.table && b.table[c].closed ==> b.table[c].pending == []
  }

  ghost predicate Inv(b: Broker) {
    Linked(b) && Core(b) && ClosedIsEmpty(b)
  }

  lemma {:induction false} SettleAllKeepsTable(b: Broker, c: nat)
    requires c in b.table
    ensures SettleAll(b, c).table.Keys == b.table.Keys
    decreases |b.table[c].pending|
  {
    if b.table[c].pending != [] { SettleAllKeepsTable(Settle(b, c, b.table[c].pending[0], Unconfirmed), c); }
  }

  lemma CloseKeepsTable(b: Broker, c: nat)
    requires c in b.table
    ensures Close(b, c).table.Keys == b.table.Keys
  {
    if !b.table[c].closed { SettleAllKeepsTable(Unregister(b, c), c); }
  }

  // ---------------------------------------------------------------- every operation keeps them

  lemma {:induction false} RemoveKeepsOrder(s: seq<nat>, x: nat)
    requires NoRepeats(s)
    ensures NoRepeats(Remove(s, x))
  {
    if s != [] {
      RemoveKeepsOrder(s[1..], x);
      assert forall i :: 0 <= i < |s[1..]| ==> s[1..][i] == s[i + 1];
      assert s[0] !in s[1..] && s[0] !in Remove(s[1..], x);
    }
  }

  lemma {:induction false} RemoveLast(s: seq<nat>, x: nat)
    requires x !in s
    ensures Remove(s + [x], x) == s
  {
    if s != [] {
      assert (s + [x])[1..] == s[1..] + [x];
      RemoveLast(s[1..], x);
    }
  }

  /** Only the pending list of `c` and the settlements differ. */
  ghost predicate SettledOnly(b: Broker, c: nat, b': Broker)
    requires c in b.table
  {
    && b' == b.(table := b'.table, settled := b'.settled)
    && c in b'.table && b'.table == b.table[c := b.table[c].(pending := b'.table[c].pending)]
  }

  lemma SettleCore(b: Broker, c: nat, x: nat, outcome: Outcome)
    requires Core(b) && c in b.table && !outcome.NotDispatched?
    ensures Core(Settle(b, c, x, outcome)) && SettledOnly(b, c, Settle(b, c, x, outcome))
  {
    if x in b.table[c].pending {
      var b' := Settle(b, c, x, outcome);
      assert Handed(x, c, Accepted) in b.handed;
      RemoveKeepsOrder(b.table[c].pending, x);
      forall d | d in b'.table ensures InFlight(b', d) { assert InFlight(b, d); }
      forall s | s in b'.settled ensures Truthful(b', s) {
        if s in b.settled { assert Truthful(b, s); }
      }
      SettleAccounts(b, c, x, outcome);
    }
  }

  lemma SettleAccounts(b: Broker, c: nat, x: nat, outcome: Outcome)
    requires Core(b) && c in b.table && x in b.table[c].pending
    ensures Accounted(Settle(b, c, x, outcome))
  {
    var b' := Settle(b, c, x, outcome);
    var last := Settlement(x, Some(c), outcome);
    assert b'.settled[|b.settled|] == last;
    forall h | h in b'.handed
      ensures (h.connection in b'.table && h.command in b'.table[h.connection].pending) || exists s :: s in b'.settled && s.command == h.command
    {
      if h.command == x {
        assert last in b'.settled;
      } else if h.connection in b.table && h.command in b.table[h.connection].pending {
      } else {
        var s :| s in b.settled && s.command == h.command;
        assert s in b'.settled;
      }
    }
    forall d, y, s | d in b'.table && y in b'.table[d].pending && s in b'.settled ensures s.command != y {
      assert y in b.table[d].pending;
      if s == last && y == x {
        assert InFlight(b, d) && InFlight(b, c);
        SameConnection(b, c, d, x);
      }
    }
  }

  /** A pending command is pending on one connection. */
  lemma SameConnection(b: Broker, c: nat, d: nat, x: nat)
    requires Core(b) && c in b.table && d in b.table && x in b.table[c].pending && x in b.table[d].pending
    ensures c == d
  {
    assert InFlight(b, c) && InFlight(b, d);
    var i :| 0 <= i < |b.handed| && b.handed[i] == Handed(x, c, Accepted);
    var j :| 0 <= j < |b.handed| && b.handed[j] == Handed(x, d, Accepted);
  }

  lemma {:induction false} SettleAllCore(b: Broker, c: nat)
    requires Core(b) && c in b.table
    ensures Core(SettleAll(b, c)) && SettledOnly(b, c, SettleAll(b, c)) && SettleAll(b, c).table[c].pending == []
    decreases |b.table[c].pending|
  {
    if b.table[c].pending != [] {
      var b1 := Settle(b, c, b.table[c].pending[0], Unconfirmed);
      SettleCore(b, c, b.table[c].pending[0], Unconfirmed);
      SettleAllCore(b1, c);
      SettledTwice(b, c, b1, SettleAll(b1, c));
    }
  }

  lemma SettledTwice(b: Broker, c: nat, b1: Broker, b2: Broker)
    requires c in b.table && SettledOnly(b, c, b1) && SettledOnly(b1, c, b2)
    ensures SettledOnly(b, c, b2)
  {
    var pending := b2.table[c].pending;
    assert b.table[c := b1.table[c]][c := b1.table[c].(pending := pending)] == b.table[c := b.table[c].(pending := pending)];
  }

  lemma SettledOnlyLinked(b: Broker, c: nat, b': Broker)
    requires Linked(b) && c in b.table && SettledOnly(b, c, b')
    ensures Linked(b')
  {}

  /** Before its commands are settled, a closed connection is already out of reach. */
  lemma UnregisterLinked(b: Broker, c: nat)
    requires Linked(b) && c in b.table && !b.table[c].closed
    ensures var b' := Unregister(b, c);
      && Linked(b') && b'.table.Keys == b.table.Keys && b'.table[c].closed
      && (forall d :: d in b'.devices ==> d in b.devices && b'.devices[d] in {b.devices[d], None})
  {}

  lemma SettleInv(b: Broker, c: nat, command: nat, outcome: Outcome)
    requires Inv(b) && c in b.table && !outcome.NotDispatched?
    ensures Inv(Settle(b, c, command, outcome))
  {
    SettleCore(b, c, command, outcome);
    SettledOnlyLinked(b, c, Settle(b, c, command, outcome));
  }

  lemma CoreFrame(b: Broker, b': Broker)
    requires Core(b) && b'.handed == b.handed && b'.settled == b.settled
    requires forall c :: c in b.table ==> c in b'.table && b'.table[c].pending == b.table[c].pending
    requires forall c :: c in b'.table && c !in b.table ==> b'.table[c].pending == []
    ensures Core(b')
  {
    forall c | c in b'.table ensures InFlight(b', c) { if c in b.table { assert InFlight(b, c); } }
    forall s | s in b'.settled ensures Truthful(b', s) { assert Truthful(b, s); }
  }

  /** Closing settles everything that was in flight on the connection, and leaves every other connection alone. */
  lemma CloseInv(b: Broker, c: nat)
    requires Inv(b) && c in b.table
    ensures Inv(Close(b, c)) && Close(b, c).table.Keys == b.table.Keys
    ensures c in Close(b, c).table && Close(b, c).table[c].closed && Close(b, c).table[c].pending == []
    ensures forall d :: d in b.table && d != c ==> d in Close(b, c).table && Close(b, c).table[d] == b.table[d]
    ensures Close(b, c).stopped == b.stopped && Close(b, c).handed == b.handed
    ensures Close(b, c).open == b.open - {c}
    ensures forall d :: d in Close(b, c).devices ==> d in b.devices && Close(b, c).devices[d] in {b.devices[d], None}
  {
    if !b.table[c].closed {
      var b1 := Unregister(b, c);
      CoreFrame(b, b1);
      UnregisterLinked(b, c);
      SettleAllCore(b1, c);
      SettledOnlyLinked(b1, c, SettleAll(b1, c));
    }
  }

  lemma AfterReplyInv(b: Broker, c: nat, reply: Sent)
    requires Inv(b) && c in b.table
    ensures Inv(AfterReply(b, c, reply))
  {
    CloseInv(b, c);
  }

  lemma GreetInv(b: Broker, c: nat, device: string, reply: Sent)
    requires Inv(b) && c in b.table && !b.table[c].closed && (b.table[c].device.None? || b.table[c].device == Some(device))
    ensures Inv(Greet(b, c, device, reply))
  {
    var previous := if device in b.devices then b.devices[device] else None;
    if previous.Some? && previous.value != c {
      CloseInv(b, previous.value);
      RegisterInv(Close(b, previous.value), c, device, reply);
    } else {
      RegisterInv(b, c, device, reply);
    }
  }

  lemma RegisterInv(b: Broker, c: nat, device: string, reply: Sent)
    requires Inv(b) && c in b.table && !b.table[c].closed && (b.table[c].device.None? || b.table[c].device == Some(device))
    ensures Inv(Register(b, c, device, reply))
  {
    var b1 := b.(table := b.table[c := b.table[c].(device := Some(device))], devices := b.devices[device := Some(c)]);
    CoreFrame(b, b1);
    assert Linked(b1);
    AfterReplyInv(b1, c, reply);
  }

  lemma ReceivedInv(b: Broker, c: nat, frame: Frame)
    requires Inv(b) && c in b.table
    ensures Inv(Received(b, c, frame))
  {
    if !b.table[c].closed {
      CloseInv(b, c);
      match frame
      case Hello(valid, id, reply) => HelloInv(b, c, valid, id, reply);
      case Heartbeat(reply) => AfterReplyInv(b, c, reply);
      case Result(wellFormed, command, ok) => SettleInv(b, c, command, Reported(ok));
      case _ =>
    }
  }

  lemma HelloInv(b: Broker, c: nat, valid: bool, id: string, reply: Sent)
    requires Inv(b) && c in b.table && !b.table[c].closed
    ensures Inv(Received(b, c, Hello(valid, id, reply)))
  {
    CloseInv(b, c);
    var device := b.table[c].device;
    if valid && (device.None? || device.value == id) { GreetInv(b, c, id, reply); }
  }

  /** A command that never became pending: handed over or not, it is settled at once. */
  lemma RecordCore(b: Broker, command: nat, handed: seq<Handed>, last: Settlement)
    requires Core(b) && Fresh(b, command) && last.command == command
    requires |handed| <= 1 && forall h :: h in handed ==> h.command == command
    requires Truthful(b.(handed := b.handed + handed), last)
    ensures Core(b.(handed := b.handed + handed, settled := b.settled + [last]))
  {
    var b' := b.(handed := b.handed + handed, settled := b.settled + [last]);
    assert last in b'.settled;
    forall c | c in b'.table ensures InFlight(b', c) { assert InFlight(b, c); }
    forall s | s in b'.settled ensures Truthful(b', s) {
      if s in b.settled { TruthStays(b, s, handed, command); } else { assert s == last; }
    }
    forall c, x, s | c in b'.table && x in b'.table[c].pending && s in b'.settled ensures s.command != x {
      assert InFlight(b, c) && Handed(x, c, Accepted) in b.handed;
    }
    forall h | h in b'.handed
      ensures (h.connection in b'.table && h.command in b'.table[h.connection].pending) || exists s :: s in b'.settled && s.command == h.command
    {
      if h in b.handed && !(h.connection in b.table && h.command in b.table[h.connection].pending) {
        var s :| s in b.settled && s.command == h.command;
        assert s in b'.settled;
      }
    }
    forall i, j | 0 <= i < j < |b'.handed| ensures b'.handed[i].command != b'.handed[j].command {
      if j >= |b.handed| { assert b'.handed[j] in handed; assert b'.handed[i] == b.handed[i]; assert b.handed[i] in b.handed; }
    }
    forall i, j | 0 <= i < j < |b'.settled| ensures b'.settled[i].command != b'.settled[j].command {
      if j == |b.settled| { assert b.settled[i] in b.settled; }
    }
  }

  lemma TruthStays(b: Broker, s: Settlement, handed: seq<Handed>, command: nat)
    requires Truthful(b, s) && s.command != command && forall h :: h in handed ==> h.command == command
    ensures Truthful(b.(handed := b.handed + handed), s)
  {
    var b' := b.(handed := b.handed + handed);
    if s.outcome.Unconfirmed? {
      var h :| h in b.handed && h.command == s.command && h.connection == s.connection.value && h.sent != Rejected;
      assert h in b'.handed;
    }
  }

  lemma DispatchedInv(b: Broker, c: nat, command: nat, sent: Sent)
    requires Inv(b) && Fresh(b, command) && c in b.table && !b.table[c].closed && |b.table[c].pending| < MAX_IN_FLIGHT
    ensures Inv(Dispatched(b, c, command, sent))
  {
    var h := Handed(command, c, sent);
    assert InFlight(b, c);
    assert forall x :: x in b.table[c].pending ==> Handed(x, c, Accepted) in b.handed;
    if sent == Accepted {
      DispatchAcceptedInv(b, c, command);
    } else {
      var outcome := if sent == Rejected then NotDispatched(TransportRejected) else Unconfirmed;
      var last := Settlement(command, Some(c), outcome);
      var b' := b.(handed := b.handed + [h], settled := b.settled + [last]);
      assert h in b.handed + [h];
      RecordCore(b, command, [h], last);
      SettledAtOnce(b, c, command, sent, outcome);
      CloseInv(b', c);
    }
  }

  /** A command that the transport does not take is pending only until it is settled. */
  lemma SettledAtOnce(b: Broker, c: nat, command: nat, sent: Sent, outcome: Outcome)
    requires c in b.table && command !in b.table[c].pending
    ensures var b1 := b.(table := b.table[c := b.table[c].(pending := b.table[c].pending + [command])], handed := b.handed + [Handed(command, c, sent)]);
      Settle(b1, c, command, outcome)
        == b.(handed := b.handed + [Handed(command, c, sent)], settled := b.settled + [Settlement(command, Some(c), outcome)])
  {
    var pending := b.table[c].pending + [command];
    RemoveLast(b.table[c].pending, command);
    assert command in pending;
    var b1 := b.(table := b.table[c := b.table[c].(pending := pending)], handed := b.handed + [Handed(command, c, sent)]);
    assert b1.table[c := b1.table[c].(pending := Remove(pending, command))] == b.table;
  }

  lemma DispatchAcceptedInv(b: Broker, c: nat, command: nat)
    requires Inv(b) && Fresh(b, command) && c in b.table && !b.table[c].closed && |b.table[c].pending| < MAX_IN_FLIGHT
    requires command !in b.table[c].pending
    ensures Inv(Dispatched(b, c, command, Accepted))
  {
    var h := Handed(command, c, Accepted);
    var b' := Dispatched(b, c, command, Accepted);
    assert h in b'.handed && b'.handed[|b.handed|] == h;
    forall d | d in b'.table ensures InFlight(b', d) { assert InFlight(b, d); }
    forall s | s in b'.settled ensures Truthful(b', s) { TruthStays(b, s, [h], command); }
    AcceptedAccounts(b, c, command);
  }

  lemma AcceptedAccounts(b: Broker, c: nat, command: nat)
    requires Accounted(b) && Fresh(b, command) && c in b.table
    ensures Accounted(Dispatched(b, c, command, Accepted))
  {
    var b' := Dispatched(b, c, command, Accepted);
    forall i, j | 0 <= i < j < |b'.handed| ensures b'.handed[i].command != b'.handed[j].command {
      assert b'.handed[i] == b.handed[i];
    }
    forall d, x, s | d in b'.table && x in b'.table[d].pending && s in b'.settled ensures s.command != x {
      assert x == command || x in b.table[d].pending;
    }
  }

  lemma ExecutedInv(b: Broker, device: string, command: nat, valid: bool, aborted: bool, journaled: bool, sent: Sent)
    requires Inv(b) && Fresh(b, command)
    ensures Inv(Executed(b, device, command, valid, aborted, journaled, sent))
  {
    var connection := if device in b.devices then b.devices[device] else None;
    if valid && connection.Some? && !b.stopped && !aborted && |b.table[connection.value].pending| < MAX_IN_FLIGHT && journaled {
      DispatchedInv(b, connection.value, command, sent);
    } else {
      var b' := Executed(b, device, command, valid, aborted, journaled, sent);
      assert b.handed + [] == b.handed;
      RecordCore(b, command, [], b'.settled[|b.settled|]);
    }
  }

  lemma {:induction false} CloseAllInv(b: Broker, cs: seq<nat>)
    requires Inv(b.(stopped := false)) && forall c :: c in cs ==> c in b.table
    ensures
      var b' := CloseAll(b, cs);
      && Inv(b'.(stopped := false)) && b'.stopped == b.stopped && b'.table.Keys == b.table.Keys
      && (forall c :: c in b'.open <==> c in b.open && c !in cs)
    decreases cs
  {
    if cs != [] {
      CloseUnstopped(b, cs[0]);
      CloseInv(b.(stopped := false), cs[0]);
      CloseAllInv(Close(b, cs[0]), cs[1..]);
    }
  }

  lemma {:induction false} CloseUnstopped(b: Broker, c: nat)
    requires c in b.table
    ensures Close(b, c).(stopped := false) == Close(b.(stopped := false), c) && Close(b, c).stopped == b.stopped
  {
    if !b.table[c].closed { SettleAllUnstopped(Unregister(b, c), c); }
  }

  lemma {:induction false} SettleAllUnstopped(b: Broker, c: nat)
    requires c in b.table
    ensures SettleAll(b, c).(stopped := false) == SettleAll(b.(stopped := false), c) && SettleAll(b, c).stopped == b.stopped
    decreases |b.table[c].pending|
  {
    if b.table[c].pending != [] { SettleAllUnstopped(Settle(b, c, b.table[c].pending[0], Unconfirmed), c); }
  }

  lemma StopInv(b: Broker, b': Broker)
    requires Inv(b) && Next(b, Stop, b')
    ensures Inv(b') && b'.open == {} && b'.handed == b.handed
  {
    var cs :| (forall c :: c in cs <==> c in b.open) && (forall c :: c in cs ==> c in b.table) && b' == CloseAll(b.(stopped := true), cs);
    assert b.(stopped := true).(stopped := false) == b.(stopped := false);
    CoreFrame(b, b.(stopped := false));
    CloseAllInv(b.(stopped := true), cs);
    CoreFrame(b'.(stopped := false), b');
    CloseAllHanded(b.(stopped := true), cs);
  }

  lemma {:induction false} CloseAllHanded(b: Broker, cs: seq<nat>)
    requires forall c :: c in cs ==> c in b.table
    ensures CloseAll(b, cs).handed == b.handed
    decreases cs
  {
    if cs != [] {
      CloseKeepsTable(b, cs[0]);
      if !b.table[cs[0]].closed { SettleAllHanded(Unregister(b, cs[0]), cs[0]); }
      CloseAllHanded(Close(b, cs[0]), cs[1..]);
    }
  }

  lemma {:induction false} SettleAllHanded(b: Broker, c: nat)
    requires c in b.table
    ensures SettleAll(b, c).handed == b.handed
    decreases |b.table[c].pending|
  {
    if b.table[c].pending != [] { SettleAllHanded(Settle(b, c, b.table[c].pending[0], Unconfirmed), c); }
  }

  lemma EventKeepsInv(b: Broker, e: Event, b': Broker)
    requires Inv(b) && Next(b, e, b')
    ensures Inv(b')
  {
    match e
    case Open(c) => OpenInv(b, c);
    case Receive(c, frame) => ReceivedInv(b, c, frame);
    case Disconnect(c) => CloseInv(b, c);
    case HelloTimeout(c) => CloseInv(b, c);
    case Execute(device, command, valid, aborted, journaled, sent) => ExecutedInv(b, device, command, valid, aborted, journaled, sent);
    case Deadline(c, command) => SettleInv(b, c, command, Unconfirmed);
    case Abort(c, command) => SettleInv(b, c, command, Unconfirmed);
    case Stop => StopInv(b, b');
  }

  lemma OpenInv(b: Broker, c: nat)
    requires Inv(b) && c !in b.table
    ensures Inv(b.(table := b.table[c := Connection(None, [], b.stopped)], open := if b.stopped then b.open else b.open + {c}))
  {
    CoreFrame(b, b.(table := b.table[c := Connection(None, [], b.stopped)], open := if b.stopped then b.open else b.open + {c}));
  }

  // ---------------------------------------------------------------- every run

  function Initial(): Broker {
    Broker(map[], map[], {}, false, [], [])
  }

  ghost predicate Run(trace: seq<Broker>, events: seq<Event>) {
    |trace| == |events| + 1 && trace[0] == Initial() && forall i :: 0 <= i < |events| ==> Next(trace[i], events[i], trace[i + 1])
  }

  lemma {:induction false} InvAlongRun(trace: seq<Broker>, events: seq<Event>, i: nat)
    requires Run(trace, events) && i < |trace|
    ensures Inv(trace[i])
  {
    if i > 0 {
      InvAlongRun(trace, events, i - 1);
      EventKeepsInv(trace[i - 1], events[i - 1], trace[i]);
    }
  }

  /** In flight, or settled. */
  predicate PendingAt(b: Broker, x: nat, c: nat) {
    c in b.table && x in b.table[c].pending
  }

  function TimesSettled(settled: seq<Settlement>, x: nat): nat {
    if settled == [] then 0
    else TimesSettled(settled[..|settled| - 1], x) + if settled[|settled| - 1].command == x then 1 else 0
  }

  lemma {:induction false} SettledOnceAtMost(settled: seq<Settlement>, x: nat)
    requires forall i, j :: 0 <= i < j < |settled| ==> settled[i].command != settled[j].command
    ensures TimesSettled(settled, x) <= 1
    ensures TimesSettled(settled, x) == 1 <==> exists s :: s in settled && s.command == x
  {
    if settled != [] {
      var front, last := settled[..|settled| - 1], settled[|settled| - 1];
      SettledOnceAtMost(front, x);
      assert forall s :: s in settled <==> s in front || s == last;
      if last.command == x {
        assert last in settled;
        forall s | s in front ensures s.command != x { var i :| 0 <= i < |front| && front[i] == s; assert settled[i] == s; }
      }
    }
  }

  /**
   * Through every interleaving: a command handed to a transport is in flight on the one connection it was handed to, or it
   * has been settled, exactly once, and never both.
   */
  lemma EachCommandSettlesOnce(trace: seq<Broker>, events: seq<Event>, i: nat, h: Handed)
    requires Run(trace, events) && i < |trace| && h in trace[i].handed
    ensures var b := trace[i];
      if PendingAt(b, h.command, h.connection) then TimesSettled(b.settled, h.command) == 0
      else TimesSettled(b.settled, h.command) == 1
    ensures forall c :: PendingAt(trace[i], h.command, c) ==> c == h.connection && h.sent == Accepted
    ensures forall g :: g in trace[i].handed && g.command == h.command ==> g == h
  {
    InvAlongRun(trace, events, i);
    SettlesOnce(trace[i], h);
  }

  lemma SettlesOnce(b: Broker, h: Handed)
    requires Core(b) && h in b.handed
    ensures if PendingAt(b, h.command, h.connection) then TimesSettled(b.settled, h.command) == 0
            else TimesSettled(b.settled, h.command) == 1
    ensures forall c :: PendingAt(b, h.command, c) ==> c == h.connection && h.sent == Accepted
    ensures forall g :: g in b.handed && g.command == h.command ==> g == h
  {
    SettledOnceAtMost(b.settled, h.command);
    forall c | PendingAt(b, h.command, c) ensures c == h.connection && h.sent == Accepted {
      assert InFlight(b, c) && Handed(h.command, c, Accepted) in b.handed;
    }
  }

  /** A reported result came over the connection its command was handed to; "not dispatched" was never taken by a transport. */
  lemma OutcomesAreTrue(trace: seq<Broker>, events: seq<Event>, i: nat, s: Settlement)
    requires Run(trace, events) && i < |trace| && s in trace[i].settled
    ensures s.outcome.Reported? ==> s.connection.Some? && Handed(s.command, s.connection.value, Accepted) in trace[i].handed
    ensures s.outcome.NotDispatched? ==> forall h :: h in trace[i].handed && h.command == s.command ==> h.sent == Rejected
  {
    InvAlongRun(trace, events, i);
    assert Truthful(trace[i], s);
  }

  /** Stop leaves nothing in flight: every command ever handed over has its one settlement. */
  lemma StopSettlesEverything(trace: seq<Broker>, events: seq<Event>, i: nat, h: Handed)
    requires Run(trace, events) && i < |events| && events[i] == Stop && h in trace[i].handed
    ensures TimesSettled(trace[i + 1].settled, h.command) == 1
  {
    InvAlongRun(trace, events, i);
    InvAlongRun(trace, events, i + 1);
    StopInv(trace[i], trace[i + 1]);
    EachCommandSettlesOnce(trace, events, i + 1, h);
  }

  // ---------------------------------------------------------------- the broker object

  class PhoneBroker {
    var table: map<nat, Connection>
    var devices: map<string, Option<nat>>
    var open: set<nat>
    var stopped: bool
    ghost var handed: seq<Handed>
    ghost var settled: seq<Settlement>

    ghost function View(): Broker
      reads this
    {
      Broker(table, devices, open, stopped, handed, settled)
    }

    ghost predicate Valid()
      reads this
    {
      Inv(View())
    }

    constructor ()
      ensures Valid() && View() == Initial()
    {
      table, devices, open, stopped, handed, settled := map[], map[], {}, false, [], [];
    }

    method OpenConnection(c: nat)
      requires Valid() && c !in table
      modifies this
      ensures Valid() && Next(old(View()), Open(c), View())
    {
      table := table[c := Connection(None, [], stopped)];
      if !stopped { open := open + {c}; }
      EventKeepsInv(old(View()), Open(c), View());
    }

    method SettlePending(c: nat, command: nat, outcome: Outcome)
      requires c in table
      modifies this`table, this`settled
      ensures View() == Settle(old(View()), c, command, outcome)
    {
      if command !in table[c].pending { return; }
      table := table[c := table[c].(pending := Remove(table[c].pending, command))];
      settled := settled + [Settlement(command, Some(c), outcome)];
    }

    /** `disconnected`: unregister, then settle whatever is in flight. */
    method CloseConnection(c: nat)
      requires c in table
      modifies this
      ensures View() == Close(old(View()), c) && table.Keys == old(table).Keys
    {
      CloseKeepsTable(View(), c);
      if table[c].closed { return; }
      ghost var start := View();
      var device := table[c].device;
      table := table[c := table[c].(closed := true)];
      open := open - {c};
      if device.Some? && device.value in devices && devices[device.value] == Some(c) {
        devices := devices[device.value := None];
      }
      assert View() == Unregister(start, c);
      while table[c].pending != []
        invariant c in table && SettleAll(View(), c) == Close(start, c)
        decreases |table[c].pending|
      {
        SettlePending(c, table[c].pending[0], Unconfirmed);
      }
    }

    method ReceiveFrame(c: nat, frame: Frame)
      requires Valid() && c in table
      modifies this
      ensures Valid() && Next(old(View()), Receive(c, frame), View())
    {
      ghost var start := View();
      EventKeepsInv(start, Receive(c, frame), Received(start, c, frame));
      if table[c].closed { return; }
      var device := table[c].device;
      match frame
      case Hello(valid, id, reply) =>
        if !valid || (device.Some? && device.value != id) { CloseConnection(c); } else { RegisterDevice(c, id, reply); }
      case Heartbeat(reply) =>
        if device.None? || device.value !in devices || devices[device.value] != Some(c) { CloseConnection(c); }
        else if reply != Accepted { CloseConnection(c); }
      case OverlayMessage(valid) => if device.None? || !valid { CloseConnection(c); }
      case Result(wellFormed, command, ok) =>
        if device.None? || !wellFormed { CloseConnection(c); } else { SettlePending(c, command, Reported(ok)); }
      case _ => CloseConnection(c);
    }

    method RegisterDevice(c: nat, id: string, reply: Sent)
      requires c in table && forall d :: d in devices && devices[d].Some? ==> devices[d].value in table
      modifies this
      ensures View() == Greet(old(View()), c, id, reply)
    {
      var previous := if id in devices then devices[id] else None;
      if previous.Some? && previous.value != c { CloseConnection(previous.value); }
      table := table[c := table[c].(device := Some(id))];
      devices := devices[id := Some(c)];
      if reply != Accepted { CloseConnection(c); }
    }

    method Refuse(command: nat, reason: Reason)
      modifies this`settled
      ensures View() == Refused(old(View()), command, reason)
    {
      settled := settled + [Settlement(command, None, NotDispatched(reason))];
    }

    method Dispatch(c: nat, command: nat, sent: Sent)
      requires c in table
      modifies this
      ensures View() == Dispatched(old(View()), c, command, sent)
    {
      table := table[c := table[c].(pending := table[c].pending + [command])];
      handed := handed + [Handed(command, c, sent)];
      if sent == Rejected {
        SettlePending(c, command, NotDispatched(TransportRejected));
        CloseConnection(c);
      } else if sent == Threw {
        SettlePending(c, command, Unconfirmed);
        CloseConnection(c);
      }
    }

    method ExecuteCommand(device: string, command: nat, valid: bool, aborted: bool, journaled: bool, sent: Sent)
      requires Valid() && Fresh(View(), command)
      modifies this
      ensures Valid() && Next(old(View()), Execute(device, command, valid, aborted, journaled, sent), View())
    {
      ghost var start := View();
      ExecutedInv(start, device, command, valid, aborted, journaled, sent);
      var connection := if device in devices then devices[device] else None;
      if !valid { Refuse(command, InvalidRequest); return; }
      if connection.None? || table[connection.value].closed || stopped { Refuse(command, Offline); return; }
      if aborted { Refuse(command, Cancelled); return; }
      var c := connection.value;
      if |table[c].pending| >= MAX_IN_FLIGHT { Refuse(command, Busy); return; }
      if !journaled { Refuse(command, JournalUnavailable); return; }
      Dispatch(c, command, sent);
    }
  }
}
