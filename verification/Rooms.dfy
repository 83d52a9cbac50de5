/**
 * Accounts of shared rooms (apps/remote/server/rooms.ts): a durable outbox of notices, one inbox per room and person, the
 * questions and members of a room, and its forwarded prompts.  Operations on one room run one at a time and each transport
 * call is a step boundary; the process may die between any two steps, which loses the operations but none of the tables.
 */
module Rooms {
  import opened Options

  /** Receipts are strings that hold a room id of fixed length, so that receipts of different kinds or rooms differ. */
  datatype Receipt = Invite(room: string) | OwnerReply(room: string, id: string) | Asked(room: string, id: string)
    | Joined(room: string, user: string) | Answered(room: string, id: string) | Message(room: string, id: string)

  datatype Room = Room(creator: string, title: string, members: seq<string>, ready: bool, pendingQuestions: nat, questionIds: seq<string>)
  datatype Inbox = Inbox(current: bool, received: nat, readReceived: nat)
  datatype Prompt = Prompt(actor: string, kind: string, text: string, accepted: bool)
  datatype Delivery = Delivery(receipt: Receipt, person: string)
  datatype Snapshot = Snapshot(questions: seq<string>, notification: Option<string>)

  /** An operation that holds its room's lock across an await, with the room as it read it. */
  datatype Operation = Creating(actor: string, room: Room) | Adding(actor: string, room: Room, members: seq<string>)
    | Answering(actor: string, room: Room, question: string) | Aborting(room: Room) | Prompting(actor: string, room: Room, requestId: string)
    | Refreshing(room: Room)

  datatype Forward = Forward(room: string, requestId: string)

  datatype State = State(
    rooms: map<string, Room>,
    deliveries: set<Delivery>,
    inboxes: map<(string, string), Inbox>,
    activity: set<Receipt>,
    prompts: map<Forward, Prompt>,
    running: map<string, Operation>,
    forwards: seq<Forward>)

  // ---------------------------------------------------------------- inboxes and notices

  function InboxOf(s: State, room: string, person: string): Inbox {
    if (room, person) in s.inboxes then s.inboxes[(room, person)] else Inbox(true, 0, 0)
  }

  function SetCurrent(s: State, room: string, person: string, current: bool): State {
    s.(inboxes := s.inboxes[(room, person) := InboxOf(s, room, person).(current := current)])
  }

  /** Insert the delivery or ignore it; count it if it is new. */
  function Deliver(s: State, receipt: Receipt, person: string): State {
    var d := Delivery(receipt, person);
    if d in s.deliveries then s
    else
      var inbox := InboxOf(s, receipt.room, person);
      s.(deliveries := s.deliveries + {d}, inboxes := s.inboxes[(receipt.room, person) := Inbox(true, inbox.received + 1, inbox.readReceived)])
  }

  function DeliverEach(s: State, receipt: Receipt, members: seq<string>, exclude: Option<string>): State
    decreases |members|
  {
    if members == [] then s
    else DeliverEach(if exclude == Some(members[0]) then s else Deliver(s, receipt, members[0]), receipt, members[1..], exclude)
  }

  function Notice(s: State, receipt: Receipt, members: seq<string>, exclude: Option<string>): State {
    DeliverEach(s.(activity := s.activity + {receipt}), receipt, members, exclude)
  }

  function NoticeQuestions(s: State, id: string, members: seq<string>, questions: seq<string>): State
    decreases |questions|
  {
    if questions == [] then s else NoticeQuestions(Notice(s, Asked(id, questions[0]), members, None), id, members, questions[1..])
  }

  function NoticeJoined(s: State, id: string, members: seq<string>, added: seq<string>, actor: string): State
    decreases |added|
  {
    if added == [] then s else NoticeJoined(Notice(s, Joined(id, added[0]), members, Some(actor)), id, members, added[1..], actor)
  }

  // ---------------------------------------------------------------- members

  function Distinct(users: seq<string>): seq<string> {
    if users == [] then []
    else
      var front, last := Distinct(users[..|users| - 1]), users[|users| - 1];
      if last in front then front else front + [last]
  }

  function Roster(people: set<string>, users: seq<string>, actor: string): Option<seq<string>> {
    if |users| > 63 then None
    else
      var ids := Distinct(users);
      var members := if actor in ids then ids else [actor] + ids;
      if forall u :: u in members ==> u in people then Some(members) else None
  }

  function Without(xs: seq<string>, dropped: seq<string>): seq<string> {
    if xs == [] then []
    else (if xs[0] in dropped then [] else [xs[0]]) + Without(xs[1..], dropped)
  }

  // ---------------------------------------------------------------- requests, when they hold the lock

  datatype Request =
    | Create(actor: string, title: string, named: seq<string>)
    | Read(actor: string, through: Option<nat>)
    | Show(actor: string, current: bool)
    | AddMembers(actor: string, users: Option<seq<string>>)
    | Answer(actor: string, question: string)
    | Abort(actor: string)
    | SendPrompt(actor: string, kind: string, requestId: string, text: string)
    | Refresh(actor: string)

  function Hold(s: State, id: string, op: Operation): State { s.(running := s.running[id := op]) }
  function Drop(s: State, id: string): State { s.(running := s.running - {id}) }

  function Begin(s: State, id: string, request: Request, people: set<string>): State {
    if id in s.running then s
    else if request.Create? then BeginCreate(s, id, request, people)
    else if id !in s.rooms || !s.rooms[id].ready || request.actor !in s.rooms[id].members then s
    else
      var room := s.rooms[id];
      match request
      case Read(actor, through) => MarkRead(s, id, actor, through)
      case Show(actor, current) => SetCurrent(s, id, actor, current)
      case AddMembers(actor, users) =>
        if users.None? then s
        else
          var members := Roster(people, room.members + users.value, actor);
          if members.None? then s else Hold(s, id, Adding(actor, room, members.value))
      case Answer(actor, question) => Hold(s, id, Answering(actor, room, question))
      case Abort(_) => Hold(s, id, Aborting(room))
      case SendPrompt(actor, kind, requestId, text) => BeginPrompt(s, id, room, actor, kind, requestId, text)
      case _ => Hold(s, id, Refreshing(room))
  }

  function BeginCreate(s: State, id: string, request: Request, people: set<string>): State
    requires request.Create?
  {
    match Roster(people, request.named, request.actor)
    case None => s
    case Some(members) =>
      if id in s.rooms && (s.rooms[id].creator != request.actor || s.rooms[id].title != request.title || s.rooms[id].members != members) then s
      else
        var room := if id in s.rooms then s.rooms[id] else Room(request.actor, request.title, members, false, 0, []);
        Hold(s.(rooms := s.rooms[id := room]), id, if room.ready then Refreshing(room) else Creating(request.actor, room))
  }

  function MarkRead(s: State, id: string, actor: string, through: Option<nat>): State {
    var inbox := InboxOf(s, id, actor);
    if through.Some? && through.value > inbox.received then s
    else
      var upTo := if through.Some? then through.value else inbox.received;
      s.(inboxes := s.inboxes[(id, actor) := inbox.(readReceived := if upTo > inbox.readReceived then upTo else inbox.readReceived)])
  }

  function BeginPrompt(s: State, id: string, room: Room, actor: string, kind: string, requestId: string, text: string): State {
    var key := Forward(id, requestId);
    if key in s.prompts && (s.prompts[key].actor != actor || s.prompts[key].kind != kind || s.prompts[key].text != text) then s
    else if key in s.prompts && s.prompts[key].accepted then s
    else
      var s1 := if key in s.prompts then s else s.(prompts := s.prompts[key := Prompt(actor, kind, text, false)]);
      Hold(s1.(forwards := s1.forwards + [key]), id, Prompting(actor, room, requestId))
  }

  // ---------------------------------------------------------------- after a transport call

  function Return(s: State, id: string, ok: bool): State {
    if id !in s.running || id !in s.rooms || s.running[id].Refreshing? then s
    else if !ok then Drop(s, id)
    else
      var s1 := Apply(s, id, s.running[id]);
      if id in s1.rooms then Hold(s1, id, Refreshing(s1.rooms[id])) else s1
  }

  /** The transaction that follows the owner's agreement. */
  function Apply(s: State, id: string, op: Operation): State
    requires id in s.rooms
  {
    match op
    case Creating(actor, room) =>
      Notice(s.(rooms := s.rooms[id := s.rooms[id].(ready := true)]), Invite(id), room.members, Some(actor))
    case Adding(actor, room, members) =>
      NoticeJoined(s.(rooms := s.rooms[id := s.rooms[id].(members := members)]), id, members, Without(members, room.members), actor)
    case Answering(actor, room, question) =>
      var s1 := if Answered(id, question) in s.activity then s else CloseQuestion(s, id, room, actor, question);
      Notice(s1, Answered(id, question), room.members, Some(actor))
    case Prompting(actor, room, requestId) =>
      var s1 := if Forward(id, requestId) in s.prompts
                then s.(prompts := s.prompts[Forward(id, requestId) := s.prompts[Forward(id, requestId)].(accepted := true)]) else s;
      var s2 := if Message(id, requestId) in s.activity then s1 else SetCurrent(s1, id, actor, true);
      Notice(s2, Message(id, requestId), room.members, Some(actor))
    case _ => s
  }

  function CloseQuestion(s: State, id: string, room: Room, actor: string, question: string): State
    requires id in s.rooms
  {
    var ids := Without(room.questionIds, [question]);
    SetCurrent(s.(rooms := s.rooms[id := s.rooms[id].(pendingQuestions := |ids|, questionIds := ids)]), id, actor, true)
  }

  /** `refresh` comes back, with the owner's snapshot or without. */
  function Refreshed(s: State, id: string, snapshot: Option<Snapshot>): State {
    if id !in s.running || !s.running[id].Refreshing? || id !in s.rooms then s
    else Drop(if snapshot.Some? then Reconcile(s, id, s.running[id].room, snapshot.value) else s, id)
  }

  function Reconcile(s: State, id: string, room: Room, snapshot: Snapshot): State
    requires id in s.rooms
  {
    var s1 := s.(rooms := s.rooms[id := s.rooms[id].(pendingQuestions := |snapshot.questions|, questionIds := snapshot.questions)]);
    var s2 := if snapshot.notification.Some? then Notice(s1, OwnerReply(id, snapshot.notification.value), room.members, None) else s1;
    NoticeQuestions(s2, id, room.members, snapshot.questions)
  }

  // ---------------------------------------------------------------- runs

  datatype Event = Begun(id: string, request: Request, people: set<string>) | Returned(id: string, ok: bool)
    | SnapshotReturned(id: string, snapshot: Option<Snapshot>) | Died

  function Step(s: State, e: Event): State {
    match e
    case Begun(id, request, people) => Begin(s, id, request, people)
    case Returned(id, ok) => Return(s, id, ok)
    case SnapshotReturned(id, snapshot) => Refreshed(s, id, snapshot)
    case Died => s.(running := map[])
  }

  function Run(s: State, events: seq<Event>): State {
    if events == [] then s else Step(Run(s, events[..|events| - 1]), events[|events| - 1])
  }

  const EMPTY: State := State(map[], {}, map[], {}, map[], map[], [])

  // ---------------------------------------------------------------- invariant

  /** The notices recorded for one person in one room. */
  ghost function Notices(s: State, room: string, person: string): set<Delivery> {
    set d | d in s.deliveries && d.receipt.room == room && d.person == person
  }

  ghost predicate Counted(s: State, room: string, person: string) {
    var inbox := InboxOf(s, room, person);
    inbox.received == |Notices(s, room, person)| && inbox.readReceived <= inbox.received
  }

  ghost predicate CountsOk(s: State) {
    forall room, person :: Counted(s, room, person)
  }

  ghost predicate RoomsOk(rooms: map<string, Room>) {
    forall id :: id in rooms ==> rooms[id].pendingQuestions == |rooms[id].questionIds|
  }

  /** The lock keeps an operation's copy of its room current. */
  ghost predicate LocksOk(rooms: map<string, Room>, running: map<string, Operation>) {
    forall id :: id in running ==> LockOk(rooms, id, running[id])
  }

  ghost predicate LockOk(rooms: map<string, Room>, id: string, op: Operation) {
    && id in rooms && rooms[id] == op.room
    && (op.Adding? ==> forall u :: u in op.room.members ==> u in op.members)
  }

  /** A prompt on its way has its row. */
  ghost predicate PromptsOk(s: State) {
    && (forall f :: f in s.forwards ==> f in s.prompts)
    && (forall id :: id in s.running && s.running[id].Prompting? ==> Forward(id, s.running[id].requestId) in s.prompts)
  }

  ghost predicate Inv(s: State) {
    CountsOk(s) && RoomsOk(s.rooms) && LocksOk(s.rooms, s.running) && PromptsOk(s)
  }

  /** What no step takes back. */
  ghost predicate Grows(s: State, s': State) {
    && (forall id :: id in s.rooms ==> id in s'.rooms && RoomGrows(s.rooms[id], s'.rooms[id]))
    && (forall room, person :: InboxGrows(InboxOf(s, room, person), InboxOf(s', room, person)))
    && s.deliveries <= s'.deliveries && s.activity <= s'.activity
    && (forall f :: f in s.prompts ==> f in s'.prompts && PromptStays(s.prompts[f], s'.prompts[f]))
  }

  predicate RoomGrows(a: Room, b: Room) {
    a.creator == b.creator && a.title == b.title && (a.ready ==> b.ready) && forall u :: u in a.members ==> u in b.members
  }

  predicate InboxGrows(a: Inbox, b: Inbox) { a.received <= b.received && a.readReceived <= b.readReceived }

  predicate PromptStays(a: Prompt, b: Prompt) {
    a.actor == b.actor && a.kind == b.kind && a.text == b.text && (a.accepted ==> b.accepted)
  }

  // notices keep the counts

  lemma DeliverKeeps(s: State, receipt: Receipt, person: string)
    requires CountsOk(s)
    ensures Kept(s, Deliver(s, receipt, person))
  {
    var s1 := Deliver(s, receipt, person);
    forall r, p ensures Counted(s1, r, p) && InboxGrows(InboxOf(s, r, p), InboxOf(s1, r, p)) { DeliverCounts(s, receipt, person, r, p); }
  }

  lemma DeliverCounts(s: State, receipt: Receipt, person: string, r: string, p: string)
    requires CountsOk(s)
    ensures var s1 := Deliver(s, receipt, person);
      Counted(s1, r, p) && InboxGrows(InboxOf(s, r, p), InboxOf(s1, r, p))
  {
    var d, s1 := Delivery(receipt, person), Deliver(s, receipt, person);
    assert Counted(s, r, p);
    if d !in s.deliveries {
      if r == receipt.room && p == person {
        assert Notices(s1, r, p) == Notices(s, r, p) + {d};
      } else {
        assert Notices(s1, r, p) == Notices(s, r, p);
      }
    }
  }

  lemma GrowsTogether(a: State, b: State, c: State)
    requires Grows(a, b) && Grows(b, c)
    ensures Grows(a, c)
  {
    forall r, p ensures InboxGrows(InboxOf(a, r, p), InboxOf(c, r, p)) {
      assert InboxGrows(InboxOf(a, r, p), InboxOf(b, r, p)) && InboxGrows(InboxOf(b, r, p), InboxOf(c, r, p));
    }
    forall id | id in a.rooms ensures id in c.rooms && RoomGrows(a.rooms[id], c.rooms[id]) {
      assert RoomGrows(a.rooms[id], b.rooms[id]) && RoomGrows(b.rooms[id], c.rooms[id]);
    }
    forall f | f in a.prompts ensures f in c.prompts && PromptStays(a.prompts[f], c.prompts[f]) {
      assert PromptStays(a.prompts[f], b.prompts[f]) && PromptStays(b.prompts[f], c.prompts[f]);
    }
  }

  /** Only notices differ. */
  predicate OnlyNotices(s: State, s': State) {
    s'.rooms == s.rooms && s'.prompts == s.prompts && s'.running == s.running && s'.forwards == s.forwards
  }

  ghost predicate Kept(s: State, s': State) {
    CountsOk(s') && Grows(s, s') && OnlyNotices(s, s')
  }

  lemma {:induction false} DeliverEachKeeps(s: State, receipt: Receipt, members: seq<string>, exclude: Option<string>)
    requires CountsOk(s)
    ensures Kept(s, DeliverEach(s, receipt, members, exclude))
    decreases |members|
  {
    if members == [] {
      KeptItself(s);
    } else {
      var s1 := if exclude == Some(members[0]) then s else Deliver(s, receipt, members[0]);
      KeptItself(s);
      DeliverKeeps(s, receipt, members[0]);
      DeliverEachKeeps(s1, receipt, members[1..], exclude);
      KeptTogether(s, s1, DeliverEach(s1, receipt, members[1..], exclude));
    }
  }

  lemma KeptItself(s: State)
    requires CountsOk(s)
    ensures Kept(s, s)
  {
    GrowsItself(s);
  }

  lemma KeptTogether(a: State, b: State, c: State)
    requires Kept(a, b) && Kept(b, c)
    ensures Kept(a, c)
  {
    GrowsTogether(a, b, c);
  }

  lemma NoticeKeeps(s: State, receipt: Receipt, members: seq<string>, exclude: Option<string>)
    requires CountsOk(s)
    ensures Kept(s, Notice(s, receipt, members, exclude))
  {
    var s1 := s.(activity := s.activity + {receipt});
    SameCounts(s, s1);
    DeliverEachKeeps(s1, receipt, members, exclude);
    GrowsTogether(s, s1, Notice(s, receipt, members, exclude));
  }

  lemma SameCounts(s: State, s': State)
    requires s'.deliveries == s.deliveries && s'.inboxes == s.inboxes
    ensures CountsOk(s') == CountsOk(s)
    ensures forall r, p :: InboxOf(s', r, p) == InboxOf(s, r, p)
  {
    forall r, p ensures Counted(s', r, p) == Counted(s, r, p) { assert Notices(s', r, p) == Notices(s, r, p); }
  }

  lemma {:induction false} NoticeQuestionsKeeps(s: State, id: string, members: seq<string>, questions: seq<string>)
    requires CountsOk(s)
    ensures Kept(s, NoticeQuestions(s, id, members, questions))
    decreases |questions|
  {
    if questions != [] {
      var s1 := Notice(s, Asked(id, questions[0]), members, None);
      NoticeKeeps(s, Asked(id, questions[0]), members, None);
      NoticeQuestionsKeeps(s1, id, members, questions[1..]);
      GrowsTogether(s, s1, NoticeQuestions(s1, id, members, questions[1..]));
    }
  }

  lemma {:induction false} NoticeJoinedKeeps(s: State, id: string, members: seq<string>, added: seq<string>, actor: string)
    requires CountsOk(s)
    ensures Kept(s, NoticeJoined(s, id, members, added, actor))
    decreases |added|
  {
    if added != [] {
      var s1 := Notice(s, Joined(id, added[0]), members, Some(actor));
      NoticeKeeps(s, Joined(id, added[0]), members, Some(actor));
      NoticeJoinedKeeps(s1, id, members, added[1..], actor);
      GrowsTogether(s, s1, NoticeJoined(s1, id, members, added[1..], actor));
    }
  }

  /** An inbox changed by hand: not its count, and its read mark only up. */
  lemma InboxSet(s: State, room: string, person: string, inbox: Inbox)
    requires CountsOk(s) && inbox.received == InboxOf(s, room, person).received
    requires InboxOf(s, room, person).readReceived <= inbox.readReceived <= inbox.received
    ensures var s1 := s.(inboxes := s.inboxes[(room, person) := inbox]); Kept(s, s1)
  {
    var s1 := s.(inboxes := s.inboxes[(room, person) := inbox]);
    forall r, p ensures Counted(s1, r, p) && InboxGrows(InboxOf(s, r, p), InboxOf(s1, r, p)) {
      assert Counted(s, r, p) && Notices(s1, r, p) == Notices(s, r, p);
    }
  }

  // members

  lemma {:induction false} DistinctMembers(users: seq<string>)
    ensures forall u :: u in Distinct(users) <==> u in users
    ensures forall i, j :: 0 <= i < j < |Distinct(users)| ==> Distinct(users)[i] != Distinct(users)[j]
  {
    if users != [] {
      DistinctMembers(users[..|users| - 1]);
      assert users == users[..|users| - 1] + [users[|users| - 1]];
    }
  }

  /** A roster names everyone asked for and the actor, once, and only known people. */
  lemma RosterIsExact(people: set<string>, users: seq<string>, actor: string)
    requires Roster(people, users, actor).Some?
    ensures var members := Roster(people, users, actor).value;
      (forall u :: u in members <==> u == actor || u in users) && (forall u :: u in members ==> u in people)
      && forall i, j :: 0 <= i < j < |members| ==> members[i] != members[j]
  {
    DistinctMembers(users);
  }

  lemma {:induction false} WithoutIsExact(xs: seq<string>, dropped: seq<string>)
    ensures forall x :: x in Without(xs, dropped) <==> x in xs && x !in dropped
  {
    if xs != [] {
      WithoutIsExact(xs[1..], dropped);
      assert xs == [xs[0]] + xs[1..];
    }
  }

  // every step keeps the invariant and takes nothing back

  ghost predicate Good(s: State, s': State) {
    Inv(s') && Grows(s, s')
  }

  lemma KeptIsGood(s: State, s': State)
    requires Inv(s) && Kept(s, s')
    ensures Good(s, s')
  {
  }

  /** Taking the lock with a current copy of the room. */
  lemma HoldKeeps(s: State, id: string, op: Operation)
    requires Inv(s) && LockOk(s.rooms, id, op) && (op.Prompting? ==> Forward(id, op.requestId) in s.prompts)
    ensures Good(s, Hold(s, id, op))
  {
    SameCounts(s, Hold(s, id, op));
  }

  lemma BeginKeeps(s: State, id: string, request: Request, people: set<string>)
    requires Inv(s)
    ensures Good(s, Begin(s, id, request, people))
  {
    GrowsItself(s);
    if id !in s.running {
      if request.Create? {
        BeginCreateKeeps(s, id, request, people);
      } else if id in s.rooms && s.rooms[id].ready && request.actor in s.rooms[id].members {
        var room := s.rooms[id];
        match request
        case Read(actor, through) => MarkReadKeeps(s, id, actor, through); KeptIsGood(s, MarkRead(s, id, actor, through));
        case Show(actor, current) =>
          assert Counted(s, id, actor);
          InboxSet(s, id, actor, InboxOf(s, id, actor).(current := current));
          KeptIsGood(s, SetCurrent(s, id, actor, current));
        case AddMembers(actor, users) =>
          if users.Some? && Roster(people, room.members + users.value, actor).Some? {
            RosterIsExact(people, room.members + users.value, actor);
            HoldKeeps(s, id, Adding(actor, room, Roster(people, room.members + users.value, actor).value));
          }
        case SendPrompt(actor, kind, requestId, text) => BeginPromptKeeps(s, id, room, actor, kind, requestId, text);
        case Answer(actor, question) => HoldKeeps(s, id, Answering(actor, room, question));
        case Abort(_) => HoldKeeps(s, id, Aborting(room));
        case _ => HoldKeeps(s, id, Refreshing(room));
      }
    }
  }

  lemma BeginCreateKeeps(s: State, id: string, request: Request, people: set<string>)
    requires Inv(s) && id !in s.running && request.Create?
    ensures Good(s, BeginCreate(s, id, request, people))
  {
    GrowsItself(s);
    var members := Roster(people, request.named, request.actor);
    if members.Some? && !(id in s.rooms && (s.rooms[id].creator != request.actor || s.rooms[id].title != request.title || s.rooms[id].members != members.value)) {
      var room := if id in s.rooms then s.rooms[id] else Room(request.actor, request.title, members.value, false, 0, []);
      var s1 := s.(rooms := s.rooms[id := room]);
      RoomStored(s, id, room);
      HoldKeeps(s1, id, if room.ready then Refreshing(room) else Creating(request.actor, room));
      GrowsTogether(s, s1, BeginCreate(s, id, request, people));
    }
  }

  lemma RoomStored(s: State, id: string, room: Room)
    requires Inv(s) && id !in s.running && (id in s.rooms ==> room == s.rooms[id]) && room.pendingQuestions == |room.questionIds|
    ensures Good(s, s.(rooms := s.rooms[id := room]))
  {
    var s1 := s.(rooms := s.rooms[id := room]);
    SameCounts(s, s1);
    forall x | x in s1.running ensures LockOk(s1.rooms, x, s1.running[x]) { assert LockOk(s.rooms, x, s.running[x]); }
  }

  lemma BeginPromptKeeps(s: State, id: string, room: Room, actor: string, kind: string, requestId: string, text: string)
    requires Inv(s) && id in s.rooms && room == s.rooms[id]
    ensures Good(s, BeginPrompt(s, id, room, actor, kind, requestId, text))
  {
    var key, s2 := Forward(id, requestId), BeginPrompt(s, id, room, actor, kind, requestId, text);
    GrowsItself(s);
    if s2 != s {
      var s1 := (if key in s.prompts then s else s.(prompts := s.prompts[key := Prompt(actor, kind, text, false)])).(forwards := s.forwards + [key]);
      SameCounts(s, s1);
      HoldKeeps(s1, id, Prompting(actor, room, requestId));
      GrowsTogether(s, s1, s2);
    }
  }

  lemma MarkReadKeeps(s: State, id: string, actor: string, through: Option<nat>)
    requires CountsOk(s)
    ensures Kept(s, MarkRead(s, id, actor, through))
  {
    var inbox := InboxOf(s, id, actor);
    assert Counted(s, id, actor);
    if !(through.Some? && through.value > inbox.received) {
      var upTo := if through.Some? then through.value else inbox.received;
      InboxSet(s, id, actor, inbox.(readReceived := if upTo > inbox.readReceived then upTo else inbox.readReceived));
    }
  }

  /** A transaction changes one room's row, and otherwise inboxes and prompts. */
  ghost predicate Applied(s: State, s': State, id: string) {
    && CountsOk(s') && Grows(s, s') && s'.running == s.running && s'.forwards == s.forwards
    && s'.prompts.Keys == s.prompts.Keys && s'.rooms.Keys == s.rooms.Keys && RoomsOk(s'.rooms)
    && forall x :: x in s.rooms && x != id ==> s'.rooms[x] == s.rooms[x]
  }

  lemma ApplyKeeps(s: State, id: string)
    requires Inv(s) && id in s.running && id in s.rooms
    ensures Applied(s, Apply(s, id, s.running[id]), id)
  {
    var op := s.running[id];
    assert LockOk(s.rooms, id, op);
    match op
    case Creating(actor, room) =>
      var s1 := s.(rooms := s.rooms[id := s.rooms[id].(ready := true)]);
      RowKeeps(s, id, s.rooms[id].(ready := true));
      NoticeKeeps(s1, Invite(id), room.members, Some(actor));
      NoticedKeeps(s, s1, Apply(s, id, op), id);
    case Adding(actor, room, members) =>
      var s1 := s.(rooms := s.rooms[id := s.rooms[id].(members := members)]);
      RowKeeps(s, id, s.rooms[id].(members := members));
      NoticeJoinedKeeps(s1, id, members, Without(members, room.members), actor);
      NoticedKeeps(s, s1, Apply(s, id, op), id);
    case Answering(actor, room, question) => AnswerKeeps(s, id, actor, question);
    case Prompting(actor, room, requestId) => AcceptKeeps(s, id, actor, requestId);
    case _ => GrowsItself(s);
  }

  lemma RowKeeps(s: State, id: string, row: Room)
    requires Inv(s) && id in s.rooms && RoomGrows(s.rooms[id], row) && row.pendingQuestions == |row.questionIds|
    ensures Applied(s, s.(rooms := s.rooms[id := row]), id)
  {
    SameCounts(s, s.(rooms := s.rooms[id := row]));
    GrowsItself(s);
  }

  lemma NoticedKeeps(s: State, s1: State, s2: State, id: string)
    requires Applied(s, s1, id) && Kept(s1, s2)
    ensures Applied(s, s2, id)
  {
    GrowsTogether(s, s1, s2);
  }

  lemma AnswerKeeps(s: State, id: string, actor: string, question: string)
    requires Inv(s) && id in s.running && id in s.rooms && s.running[id] == Answering(actor, s.rooms[id], question)
    ensures Applied(s, Apply(s, id, s.running[id]), id)
  {
    var room := s.rooms[id];
    if Answered(id, question) !in s.activity {
      var ids := Without(room.questionIds, [question]);
      var row := room.(pendingQuestions := |ids|, questionIds := ids);
      var s0 := s.(rooms := s.rooms[id := row]);
      RowKeeps(s, id, row);
      assert Counted(s0, id, actor);
      InboxSet(s0, id, actor, InboxOf(s0, id, actor).(current := true));
      NoticedKeeps(s, s0, CloseQuestion(s, id, room, actor, question), id);
    } else {
      GrowsItself(s);
    }
    var s1 := if Answered(id, question) in s.activity then s else CloseQuestion(s, id, room, actor, question);
    NoticeKeeps(s1, Answered(id, question), room.members, Some(actor));
    NoticedKeeps(s, s1, Apply(s, id, s.running[id]), id);
  }

  lemma AcceptKeeps(s: State, id: string, actor: string, requestId: string)
    requires Inv(s) && id in s.running && id in s.rooms && s.running[id] == Prompting(actor, s.rooms[id], requestId)
    ensures Applied(s, Apply(s, id, s.running[id]), id)
  {
    var key := Forward(id, requestId);
    var s1 := s.(prompts := s.prompts[key := s.prompts[key].(accepted := true)]);
    SameCounts(s, s1);
    assert Applied(s, s1, id);
    var s2 := if Message(id, requestId) in s.activity then s1 else SetCurrent(s1, id, actor, true);
    assert Counted(s1, id, actor);
    InboxSet(s1, id, actor, InboxOf(s1, id, actor).(current := true));
    GrowsItself(s1);
    NoticedKeeps(s, s1, s2, id);
    NoticeKeeps(s2, Message(id, requestId), s.rooms[id].members, Some(actor));
    NoticedKeeps(s, s2, Apply(s, id, s.running[id]), id);
  }

  lemma ReturnKeeps(s: State, id: string, ok: bool)
    requires Inv(s)
    ensures Good(s, Return(s, id, ok))
  {
    if id in s.running && id in s.rooms && !s.running[id].Refreshing? {
      if ok {
        var s1 := Apply(s, id, s.running[id]);
        ApplyKeeps(s, id);
        AppliedHeld(s, s1, id);
      } else {
        SameCounts(s, Drop(s, id));
      }
    }
  }

  lemma AppliedHeld(s: State, s1: State, id: string)
    requires Inv(s) && Applied(s, s1, id) && id in s.rooms
    ensures Good(s, Hold(s1, id, Refreshing(s1.rooms[id]))) && Good(s, Drop(s1, id))
  {
    var s2 := Hold(s1, id, Refreshing(s1.rooms[id]));
    SameCounts(s1, s2);
    SameCounts(s1, Drop(s1, id));
    forall x | x in s2.running ensures LockOk(s2.rooms, x, s2.running[x]) {
      if x != id { assert LockOk(s.rooms, x, s.running[x]); }
    }
  }

  lemma RefreshedKeeps(s: State, id: string, snapshot: Option<Snapshot>)
    requires Inv(s)
    ensures Good(s, Refreshed(s, id, snapshot))
  {
    if id in s.running && s.running[id].Refreshing? && id in s.rooms {
      if snapshot.Some? {
        ReconcileKeeps(s, id, s.running[id].room, snapshot.value);
        AppliedHeld(s, Reconcile(s, id, s.running[id].room, snapshot.value), id);
      } else {
        SameCounts(s, Drop(s, id));
      }
    }
  }

  lemma ReconcileKeeps(s: State, id: string, room: Room, snapshot: Snapshot)
    requires Inv(s) && id in s.rooms
    ensures Applied(s, Reconcile(s, id, room, snapshot), id)
  {
    var row := s.rooms[id].(pendingQuestions := |snapshot.questions|, questionIds := snapshot.questions);
    var s1 := s.(rooms := s.rooms[id := row]);
    RowKeeps(s, id, row);
    var s2 := if snapshot.notification.Some? then Notice(s1, OwnerReply(id, snapshot.notification.value), room.members, None) else s1;
    if snapshot.notification.Some? {
      NoticeKeeps(s1, OwnerReply(id, snapshot.notification.value), room.members, None);
      NoticedKeeps(s, s1, s2, id);
    }
    NoticeQuestionsKeeps(s2, id, room.members, snapshot.questions);
    NoticedKeeps(s, s2, Reconcile(s, id, room, snapshot), id);
  }

  lemma StepKeeps(s: State, e: Event)
    requires Inv(s)
    ensures Good(s, Step(s, e))
  {
    match e
    case Begun(id, request, people) => BeginKeeps(s, id, request, people);
    case Returned(id, ok) => ReturnKeeps(s, id, ok);
    case SnapshotReturned(id, snapshot) => RefreshedKeeps(s, id, snapshot);
    case Died => SameCounts(s, Step(s, e));
  }

  lemma {:induction false} RunKeeps(s: State, events: seq<Event>)
    requires Inv(s)
    ensures Good(s, Run(s, events))
    decreases |events|
  {
    if events == [] {
      GrowsItself(s);
    } else {
      var front := events[..|events| - 1];
      RunKeeps(s, front);
      StepKeeps(Run(s, front), events[|events| - 1]);
      GrowsTogether(s, Run(s, front), Run(s, events));
    }
  }

  lemma GrowsItself(s: State)
    ensures Grows(s, s)
  {
  }

  lemma EmptyIsGood()
    ensures Inv(EMPTY)
  {
    forall r, p ensures Counted(EMPTY, r, p) { assert Notices(EMPTY, r, p) == {}; }
  }

  // ---------------------------------------------------------------- theorems

  /** In every run: what an inbox has received is the number of distinct notices recorded for it, and no more is marked read. */
  lemma ReceivedCountsNotices(events: seq<Event>, room: string, person: string)
    ensures var s := Run(EMPTY, events);
      var inbox := InboxOf(s, room, person);
      inbox.received == |Notices(s, room, person)| && inbox.readReceived <= inbox.received
  {
    EmptyIsGood();
    RunKeeps(EMPTY, events);
    assert Counted(Run(EMPTY, events), room, person);
  }

  lemma RunLast(events: seq<Event>, e: Event)
    ensures Run(EMPTY, events + [e]) == Step(Run(EMPTY, events), e)
  {
    assert (events + [e])[..|events|] == events;
  }

  lemma {:induction false} RunOnward(events: seq<Event>, more: seq<Event>)
    ensures Run(EMPTY, events + more) == Run(Run(EMPTY, events), more)
    decreases |more|
  {
    if more == [] {
      assert events + more == events;
    } else {
      var all := events + more;
      assert all[..|all| - 1] == events + more[..|more| - 1] && all[|all| - 1] == more[|more| - 1];
      RunOnward(events, more[..|more| - 1]);
    }
  }

  /** Read marks and members only grow, through crashes too. */
  lemma NothingIsTakenBack(events: seq<Event>, more: seq<Event>, room: string, person: string)
    ensures var s, s' := Run(EMPTY, events), Run(EMPTY, events + more);
      InboxOf(s, room, person).readReceived <= InboxOf(s', room, person).readReceived
      && (room in s.rooms ==> room in s'.rooms && forall u :: u in s.rooms[room].members ==> u in s'.rooms[room].members)
  {
    EmptyIsGood();
    RunKeeps(EMPTY, events);
    RunOnward(events, more);
    RunKeeps(Run(EMPTY, events), more);
    assert InboxGrows(InboxOf(Run(EMPTY, events), room, person), InboxOf(Run(EMPTY, events + more), room, person));
  }

  lemma PendingQuestionsAreListed(events: seq<Event>, room: string)
    requires room in Run(EMPTY, events).rooms
    ensures var s := Run(EMPTY, events); s.rooms[room].pendingQuestions == |s.rooms[room].questionIds|
  {
    EmptyIsGood();
    RunKeeps(EMPTY, events);
  }

  /** The first answer to a question is with the room's owner. */
  predicate IsAnswering(s: State, id: string) {
    id in s.running && s.running[id].Answering? && Answered(id, s.running[id].question) !in s.activity
  }

  /** An answer closes its question and no other, however long the owner took: nothing else touched the room meanwhile. */
  lemma AnswerClosesOne(events: seq<Event>, id: string)
    requires IsAnswering(Run(EMPTY, events), id)
    ensures var s := Run(EMPTY, events);
      var s' := Step(s, Returned(id, true));
      id in s.rooms && id in s'.rooms
      && forall q :: q in s'.rooms[id].questionIds <==> q in s.rooms[id].questionIds && q != s.running[id].question
  {
    EmptyIsGood();
    RunKeeps(EMPTY, events);
    var s := Run(EMPTY, events);
    var op := s.running[id];
    assert LockOk(s.rooms, id, op);
    WithoutIsExact(op.room.questionIds, [op.question]);
    NoticeKeepsRooms(CloseQuestion(s, id, op.room, op.actor, op.question), Answered(id, op.question), op.room.members, Some(op.actor));
  }

  lemma NoticeKeepsRooms(s: State, receipt: Receipt, members: seq<string>, exclude: Option<string>)
    ensures Notice(s, receipt, members, exclude).rooms == s.rooms
  {
    DeliverEachKeepsRooms(s.(activity := s.activity + {receipt}), receipt, members, exclude);
  }

  lemma {:induction false} DeliverEachKeepsRooms(s: State, receipt: Receipt, members: seq<string>, exclude: Option<string>)
    ensures DeliverEach(s, receipt, members, exclude).rooms == s.rooms
    decreases |members|
  {
    if members != [] {
      DeliverEachKeepsRooms(if exclude == Some(members[0]) then s else Deliver(s, receipt, members[0]), receipt, members[1..], exclude);
    }
  }

  /** A notice reaches every member but the excluded one. */
  lemma {:induction false} EveryoneIsNotified(s: State, receipt: Receipt, members: seq<string>, exclude: Option<string>)
    ensures forall u :: u in members && exclude != Some(u) ==> Delivery(receipt, u) in DeliverEach(s, receipt, members, exclude).deliveries
    ensures s.deliveries <= DeliverEach(s, receipt, members, exclude).deliveries
    decreases |members|
  {
    if members != [] {
      EveryoneIsNotified(if exclude == Some(members[0]) then s else Deliver(s, receipt, members[0]), receipt, members[1..], exclude);
    }
  }

  /** A notice counts once, and brings the room back, for exactly the members who had not had it; other inboxes stay as they are. */
  lemma NoticeCountsOnce(s: State, receipt: Receipt, members: seq<string>, exclude: Option<string>, room: string, person: string)
    ensures var inbox := InboxOf(s, room, person);
      InboxOf(Notice(s, receipt, members, exclude), room, person) ==
        if room == receipt.room && person in members && exclude != Some(person) && Delivery(receipt, person) !in s.deliveries
        then Inbox(true, inbox.received + 1, inbox.readReceived) else inbox
  {
    DeliverEachCountsOnce(s.(activity := s.activity + {receipt}), receipt, members, exclude, room, person);
  }

  lemma {:induction false} DeliverEachCountsOnce(s: State, receipt: Receipt, members: seq<string>, exclude: Option<string>, room: string, person: string)
    ensures var inbox := InboxOf(s, room, person);
      InboxOf(DeliverEach(s, receipt, members, exclude), room, person) ==
        if room == receipt.room && person in members && exclude != Some(person) && Delivery(receipt, person) !in s.deliveries
        then Inbox(true, inbox.received + 1, inbox.readReceived) else inbox
    decreases |members|
  {
    if members != [] {
      var s1 := if exclude == Some(members[0]) then s else Deliver(s, receipt, members[0]);
      DeliverEachCountsOnce(s1, receipt, members[1..], exclude, room, person);
      DeliverCountsOnce(s, receipt, members[0], room, person);
      assert person in members <==> person == members[0] || person in members[1..];
    }
  }

  lemma DeliverCountsOnce(s: State, receipt: Receipt, member: string, room: string, person: string)
    ensures var s1, inbox := Deliver(s, receipt, member), InboxOf(s, room, person);
      && InboxOf(s1, room, person) == (if room == receipt.room && person == member && Delivery(receipt, person) !in s.deliveries
                                       then Inbox(true, inbox.received + 1, inbox.readReceived) else inbox)
      && (Delivery(receipt, person) in s1.deliveries <==> person == member || Delivery(receipt, person) in s.deliveries)
  {}

  /** A replayed receipt changes nothing. */
  lemma ReplayChangesNothing(s: State, receipt: Receipt, members: seq<string>, exclude: Option<string>)
    ensures var s1 := Notice(s, receipt, members, exclude); Notice(s1, receipt, members, exclude) == s1
  {
    var s0 := s.(activity := s.activity + {receipt});
    var s1 := Notice(s, receipt, members, exclude);
    EveryoneIsNotified(s0, receipt, members, exclude);
    DeliverEachActivity(s0, receipt, members, exclude);
    assert s1.(activity := s1.activity + {receipt}) == s1;
    NobodyNew(s1, receipt, members, exclude);
  }

  lemma {:induction false} DeliverEachActivity(s: State, receipt: Receipt, members: seq<string>, exclude: Option<string>)
    ensures DeliverEach(s, receipt, members, exclude).activity == s.activity
    decreases |members|
  {
    if members != [] {
      DeliverEachActivity(if exclude == Some(members[0]) then s else Deliver(s, receipt, members[0]), receipt, members[1..], exclude);
    }
  }

  lemma {:induction false} NobodyNew(s: State, receipt: Receipt, members: seq<string>, exclude: Option<string>)
    requires forall u :: u in members && exclude != Some(u) ==> Delivery(receipt, u) in s.deliveries
    ensures DeliverEach(s, receipt, members, exclude) == s
    decreases |members|
  {
    if members != [] {
      assert members == [members[0]] + members[1..];
      NobodyNew(s, receipt, members[1..], exclude);
    }
  }

  // prompts

  function TimesForwarded(forwards: seq<Forward>, f: Forward): nat {
    if forwards == [] then 0
    else TimesForwarded(forwards[..|forwards| - 1], f) + if forwards[|forwards| - 1] == f then 1 else 0
  }

  predicate IsAccepted(s: State, f: Forward) {
    f in s.prompts && s.prompts[f].accepted
  }

  lemma AcceptedStep(s: State, e: Event, f: Forward)
    requires Inv(s) && IsAccepted(s, f)
    ensures TimesForwarded(Step(s, e).forwards, f) == TimesForwarded(s.forwards, f)
  {
    var s1 := Step(s, e);
    match e
    case Begun(id, request, people) =>
      BeginForwards(s, id, request, people);
      if s1.forwards != s.forwards { assert s1.forwards[..|s1.forwards| - 1] == s.forwards; }
    case Returned(id, ok) => if id in s.running && id in s.rooms && !s.running[id].Refreshing? { ApplyKeeps(s, id); }
    case SnapshotReturned(id, snapshot) =>
      if id in s.running && id in s.rooms && snapshot.Some? { ReconcileKeeps(s, id, s.running[id].room, snapshot.value); }
    case Died =>
  }

  /** A request forwards at most its own prompt, and only if it is not accepted. */
  lemma BeginForwards(s: State, id: string, request: Request, people: set<string>)
    ensures var s1 := Begin(s, id, request, people);
      s1.forwards == s.forwards
      || (request.SendPrompt? && !IsAccepted(s, Forward(id, request.requestId)) && s1.forwards == s.forwards + [Forward(id, request.requestId)])
  {}

  lemma AcceptedStays(events: seq<Event>, more: seq<Event>, f: Forward)
    requires IsAccepted(Run(EMPTY, events), f)
    ensures Inv(Run(EMPTY, events + more)) && IsAccepted(Run(EMPTY, events + more), f)
  {
    EmptyIsGood();
    RunKeeps(EMPTY, events);
    RunOnward(events, more);
    RunKeeps(Run(EMPTY, events), more);
  }

  /** A prompt whose acceptance is recorded is never forwarded again, in any later state of any run. */
  lemma {:induction false} AcceptedIsNotForwardedAgain(events: seq<Event>, more: seq<Event>, f: Forward)
    requires IsAccepted(Run(EMPTY, events), f)
    ensures TimesForwarded(Run(EMPTY, events + more).forwards, f) == TimesForwarded(Run(EMPTY, events).forwards, f)
    decreases |more|
  {
    if more == [] {
      assert events + more == events;
    } else {
      var front, last := more[..|more| - 1], more[|more| - 1];
      assert events + more == events + front + [last];
      RunLast(events + front, last);
      AcceptedIsNotForwardedAgain(events, front, f);
      AcceptedStays(events, front, f);
      AcceptedStep(Run(EMPTY, events + front), last, f);
    }
  }

  // ---------------------------------------------------------------- the object

  class Rooms {
    var rooms: map<string, Room>
    var deliveries: set<Delivery>
    var inboxes: map<(string, string), Inbox>
    var activity: set<Receipt>
    var prompts: map<Forward, Prompt>
    var running: map<string, Operation>
    ghost var forwards: seq<Forward>

    ghost function View(): State
      reads this
    {
      State(rooms, deliveries, inboxes, activity, prompts, running, forwards)
    }

    ghost predicate Valid()
      reads this
    {
      Inv(View())
    }

    constructor ()
      ensures Valid() && View() == EMPTY
    {
      rooms, deliveries, inboxes, activity, prompts, running, forwards := map[], {}, map[], {}, map[], map[], [];
      EmptyIsGood();
    }

    method ReadInbox(room: string, person: string) returns (inbox: Inbox)
      ensures inbox == InboxOf(View(), room, person)
    {
      inbox := if (room, person) in inboxes then inboxes[(room, person)] else Inbox(true, 0, 0);
    }

    method Notify(receipt: Receipt, members: seq<string>, exclude: Option<string>)
      modifies this`deliveries, this`inboxes, this`activity
      ensures View() == Notice(old(View()), receipt, members, exclude)
    {
      activity := activity + {receipt};
      ghost var start := View();
      var i := 0;
      while i < |members|
        invariant i <= |members|
        invariant DeliverEach(View(), receipt, members[i..], exclude) == DeliverEach(start, receipt, members, exclude)
      {
        assert members[i..][1..] == members[i + 1..];
        var person := members[i];
        if exclude != Some(person) && Delivery(receipt, person) !in deliveries {
          var inbox := ReadInbox(receipt.room, person);
          deliveries := deliveries + {Delivery(receipt, person)};
          inboxes := inboxes[(receipt.room, person) := Inbox(true, inbox.received + 1, inbox.readReceived)];
        }
        i := i + 1;
      }
    }

    /** A request that has the lock, up to its first await or its end. */
    method Handle(id: string, request: Request, people: set<string>)
      requires Valid()
      modifies this
      ensures Valid() && View() == Begin(old(View()), id, request, people)
    {
      BeginKeeps(View(), id, request, people);
      if id in running { return; }
      if request.Create? { HandleCreate(id, request.actor, request.title, request.named, people); return; }
      if id !in rooms || !rooms[id].ready || request.actor !in rooms[id].members { return; }
      match request
      case Read(actor, through) => HandleRead(id, actor, through);
      case Show(actor, current) => ShowRoom(id, actor, current);
      case AddMembers(actor, users) =>
        if users.None? { return; }
        var members := Roster(people, rooms[id].members + users.value, actor);
        if members.Some? { TakeLock(id, Adding(actor, rooms[id], members.value)); }
      case Answer(actor, question) => TakeLock(id, Answering(actor, rooms[id], question));
      case Abort(_) => TakeLock(id, Aborting(rooms[id]));
      case SendPrompt(actor, kind, requestId, text) => HandlePrompt(id, actor, kind, requestId, text);
      case Refresh(_) => TakeLock(id, Refreshing(rooms[id]));
      case Create(_, _, _) =>
    }

    method TakeLock(id: string, op: Operation)
      modifies this`running
      ensures View() == Hold(old(View()), id, op)
    {
      running := running[id := op];
    }

    method HandleCreate(id: string, actor: string, title: string, named: seq<string>, people: set<string>)
      modifies this`rooms, this`running
      ensures View() == BeginCreate(old(View()), id, Create(actor, title, named), people)
    {
      var members := Roster(people, named, actor);
      if members.None? { return; }
      if id in rooms {
        var room := rooms[id];
        if room.creator != actor || room.title != title || room.members != members.value { return; }
        assert rooms == rooms[id := room];
      } else {
        rooms := rooms[id := Room(actor, title, members.value, false, 0, [])];
      }
      running := running[id := if rooms[id].ready then Refreshing(rooms[id]) else Creating(actor, rooms[id])];
    }

    method HandleRead(id: string, actor: string, through: Option<nat>)
      modifies this`inboxes
      ensures View() == MarkRead(old(View()), id, actor, through)
    {
      var inbox := ReadInbox(id, actor);
      if through.Some? && through.value > inbox.received { return; }
      var upTo := if through.Some? then through.value else inbox.received;
      inboxes := inboxes[(id, actor) := inbox.(readReceived := if upTo > inbox.readReceived then upTo else inbox.readReceived)];
    }

    method ShowRoom(id: string, actor: string, current: bool)
      modifies this`inboxes
      ensures View() == SetCurrent(old(View()), id, actor, current)
    {
      var inbox := ReadInbox(id, actor);
      inboxes := inboxes[(id, actor) := inbox.(current := current)];
    }

    method HandlePrompt(id: string, actor: string, kind: string, requestId: string, text: string)
      requires id in rooms
      modifies this`prompts, this`forwards, this`running
      ensures View() == BeginPrompt(old(View()), id, rooms[id], actor, kind, requestId, text)
    {
      var key := Forward(id, requestId);
      if key in prompts {
        var previous := prompts[key];
        if previous.actor != actor || previous.kind != kind || previous.text != text || previous.accepted { return; }
      } else {
        prompts := prompts[key := Prompt(actor, kind, text, false)];
      }
      forwards := forwards + [key];
      running := running[id := Prompting(actor, rooms[id], requestId)];
    }

    /** The owner has answered; the transaction, and on to the refresh. */
    method OwnerReplied(id: string, ok: bool)
      requires Valid() && id in running && !running[id].Refreshing?
      modifies this
      ensures Valid() && View() == Return(old(View()), id, ok)
    {
      ReturnKeeps(View(), id, ok);
      assert LockOk(rooms, id, running[id]);
      if !ok { running := running - {id}; return; }
      ghost var start := View();
      Commit(id, running[id]);
      assert View() == Apply(start, id, start.running[id]) && id in rooms by { ApplyKeeps(start, id); }
      running := running[id := Refreshing(rooms[id])];
    }

    method Commit(id: string, op: Operation)
      requires id in rooms
      modifies this
      ensures View() == Apply(old(View()), id, op)
    {
      match op
      case Creating(actor, room) =>
        rooms := rooms[id := rooms[id].(ready := true)];
        Notify(Invite(id), room.members, Some(actor));
      case Adding(actor, room, members) =>
        rooms := rooms[id := rooms[id].(members := members)];
        NotifyJoined(id, members, Without(members, room.members), actor);
      case Answering(actor, room, question) =>
        if Answered(id, question) !in activity {
          var ids := Without(room.questionIds, [question]);
          rooms := rooms[id := rooms[id].(pendingQuestions := |ids|, questionIds := ids)];
          ShowRoom(id, actor, true);
        }
        Notify(Answered(id, question), room.members, Some(actor));
      case Prompting(actor, room, requestId) =>
        var key := Forward(id, requestId);
        if key in prompts { prompts := prompts[key := prompts[key].(accepted := true)]; }
        if Message(id, requestId) !in activity { ShowRoom(id, actor, true); }
        Notify(Message(id, requestId), room.members, Some(actor));
      case _ =>
    }

    method NotifyJoined(id: string, members: seq<string>, added: seq<string>, actor: string)
      modifies this`deliveries, this`inboxes, this`activity
      ensures View() == NoticeJoined(old(View()), id, members, added, actor)
    {
      ghost var start := View();
      var i := 0;
      while i < |added|
        invariant i <= |added|
        invariant NoticeJoined(View(), id, members, added[i..], actor) == NoticeJoined(start, id, members, added, actor)
      {
        assert added[i..][1..] == added[i + 1..];
        Notify(Joined(id, added[i]), members, Some(actor));
        i := i + 1;
      }
    }

    method ReconcileRoom(id: string, room: Room, snapshot: Snapshot)
      requires id in rooms
      modifies this`rooms, this`deliveries, this`inboxes, this`activity
      ensures View() == Reconcile(old(View()), id, room, snapshot)
    {
      rooms := rooms[id := rooms[id].(pendingQuestions := |snapshot.questions|, questionIds := snapshot.questions)];
      if snapshot.notification.Some? { Notify(OwnerReply(id, snapshot.notification.value), room.members, None); }
      NotifyQuestions(id, room.members, snapshot.questions);
    }

    method NotifyQuestions(id: string, members: seq<string>, questions: seq<string>)
      modifies this`deliveries, this`inboxes, this`activity
      ensures View() == NoticeQuestions(old(View()), id, members, questions)
    {
      ghost var start := View();
      var i := 0;
      while i < |questions|
        invariant i <= |questions|
        invariant NoticeQuestions(View(), id, members, questions[i..]) == NoticeQuestions(start, id, members, questions)
      {
        assert questions[i..][1..] == questions[i + 1..];
        Notify(Asked(id, questions[i]), members, None);
        i := i + 1;
      }
    }

    method SnapshotArrived(id: string, snapshot: Option<Snapshot>)
      requires Valid() && id in running && running[id].Refreshing?
      modifies this
      ensures Valid() && View() == Refreshed(old(View()), id, snapshot)
    {
      RefreshedKeeps(View(), id, snapshot);
      assert LockOk(rooms, id, running[id]);
      if snapshot.Some? { ReconcileRoom(id, running[id].room, snapshot.value); }
      running := running - {id};
    }
  }
}
