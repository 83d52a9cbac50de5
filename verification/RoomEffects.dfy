/**
 * What each request to a room does (apps/remote/server/rooms.ts), table by table: which rows it writes, who gets which notice, and
 * that everything else is left alone.
 */
module RoomEffects {
  import opened Options
  import opened Rooms

  // ---------------------------------------------------------------- requests

  /** Someone else's inbox, or that of another room. */
  ghost predicate OtherInboxes(s: State, s': State, room: string, person: string) {
    forall r, p :: (r, p) != (room, person) ==> InboxOf(s', r, p) == InboxOf(s, r, p)
  }

  /** No table but the inboxes differs. */
  predicate OnlyInboxes(s: State, s': State) {
    s' == s.(inboxes := s'.inboxes)
  }

  predicate Admitted(s: State, id: string, actor: string) {
    id !in s.running && id in s.rooms && s.rooms[id].ready && actor in s.rooms[id].members
  }

  /** Nobody outside a room, and nobody while its lock is held, changes anything. */
  lemma OnlyMembersAct(s: State, id: string, request: Request, people: set<string>)
    requires !request.Create? && !Admitted(s, id, request.actor)
    ensures Begin(s, id, request, people) == s
  {}

  /** Reading through a count raises the read mark to it and never lowers it; reading ahead of the inbox is refused. */
  lemma ReadEffect(s: State, id: string, actor: string, through: Option<nat>, people: set<string>)
    requires Admitted(s, id, actor)
    ensures var s', inbox := Begin(s, id, Read(actor, through), people), InboxOf(s, id, actor);
      if through.Some? && through.value > inbox.received then s' == s
      else
        var n := if through.Some? then through.value else inbox.received;
        && OnlyInboxes(s, s') && OtherInboxes(s, s', id, actor)
        && InboxOf(s', id, actor) == Inbox(inbox.current, inbox.received, if n < inbox.readReceived then inbox.readReceived else n)
  {}

  lemma ShowEffect(s: State, id: string, actor: string, current: bool, people: set<string>)
    requires Admitted(s, id, actor)
    ensures var s', inbox := Begin(s, id, Show(actor, current), people), InboxOf(s, id, actor);
      && OnlyInboxes(s, s') && OtherInboxes(s, s', id, actor)
      && InboxOf(s', id, actor) == Inbox(current, inbox.received, inbox.readReceived)
  {}

  /** A list of users becomes a roster exactly if it is short enough and everyone, the actor too, is known. */
  lemma RosterAccepts(people: set<string>, users: seq<string>, actor: string)
    ensures Roster(people, users, actor).Some? <==> |users| <= 63 && actor in people && forall u :: u in users ==> u in people
  {
    DistinctMembers(users);
  }

  /** `a` is named before `b` is named at all. */
  ghost predicate NamedBefore(users: seq<string>, a: string, b: string) {
    exists k :: 0 <= k < |users| && users[k] == a && b !in users[..k]
  }

  ghost predicate InOrderOfMention(users: seq<string>, ids: seq<string>) {
    forall i, j :: 0 <= i < j < |ids| ==> NamedBefore(users, ids[i], ids[j])
  }

  lemma {:induction false} DistinctInOrder(users: seq<string>)
    ensures InOrderOfMention(users, Distinct(users))
  {
    if users != [] {
      var front, last, ids := users[..|users| - 1], users[|users| - 1], Distinct(users);
      DistinctInOrder(front);
      DistinctMembers(front);
      forall i, j | 0 <= i < j < |ids| ensures NamedBefore(users, ids[i], ids[j]) {
        if j < |Distinct(front)| {
          assert NamedBefore(front, ids[i], ids[j]);
          var k :| 0 <= k < |front| && front[k] == ids[i] && ids[j] !in front[..k];
          assert users[k] == ids[i] && users[..k] == front[..k];
        } else {
          assert ids[i] == Distinct(front)[i] && ids[i] in front;
          var k :| 0 <= k < |front| && front[k] == ids[i];
          assert users[k] == ids[i] && users[..k] == front[..k];
        }
      }
    }
  }

  /** A roster keeps the order in which people are named; an actor who is not comes first. */
  lemma RosterInOrder(people: set<string>, users: seq<string>, actor: string)
    requires Roster(people, users, actor).Some?
    ensures var members := Roster(people, users, actor).value;
      if actor in users then InOrderOfMention(users, members)
      else members != [] && members[0] == actor && InOrderOfMention(users, members[1..])
  {
    DistinctMembers(users);
    DistinctInOrder(users);
  }

  /** Dropping questions keeps the order of the others. */
  lemma {:induction false} WithoutKeepsOrder(a: seq<string>, b: seq<string>, dropped: seq<string>)
    ensures Without(a + b, dropped) == Without(a, dropped) + Without(b, dropped)
    ensures forall x :: Without([x], dropped) == if x in dropped then [] else [x]
  {
    forall x ensures Without([x], dropped) == if x in dropped then [] else [x] { assert [x][1..] == []; }
    if a == [] {
      assert a + b == b;
    } else {
      assert (a + b)[1..] == a[1..] + b;
      WithoutKeepsOrder(a[1..], b, dropped);
    }
  }

  /** A room shows as current, with nothing received or read, until something is recorded for the person. */
  lemma NewInboxIsCurrent(s: State, room: string, person: string)
    requires (room, person) !in s.inboxes
    ensures InboxOf(s, room, person).current && InboxOf(s, room, person).received == InboxOf(s, room, person).readReceived == 0
  {}

  /** A room is created once: the same request again goes on where it was, a different one with its id is refused. */
  lemma CreateEffect(s: State, id: string, actor: string, title: string, named: seq<string>, people: set<string>)
    requires id !in s.running
    ensures var s', members := Begin(s, id, Create(actor, title, named), people), Roster(people, named, actor);
      if members.None? then s' == s
      else if id !in s.rooms then
        && s'.rooms == s.rooms[id := Room(actor, title, members.value, false, 0, [])]
        && s' == s.(rooms := s'.rooms, running := s.running[id := Creating(actor, s'.rooms[id])])
      else if s.rooms[id].creator != actor || s.rooms[id].title != title || s.rooms[id].members != members.value then s' == s
      else s' == s.(running := s.running[id := if s.rooms[id].ready then Refreshing(s.rooms[id]) else Creating(actor, s.rooms[id])])
  {
    if id in s.rooms { assert s.rooms[id := s.rooms[id]] == s.rooms; }
  }

  /** Requests that go to the owner first take the lock, with the room as it is, and write nothing else. */
  lemma LockEffect(s: State, id: string, request: Request, people: set<string>)
    requires !request.Create? && Admitted(s, id, request.actor)
    ensures request.AddMembers? ==>
      var members := if request.users.Some? then Roster(people, s.rooms[id].members + request.users.value, request.actor) else None;
      Begin(s, id, request, people)
        == if members.Some? then s.(running := s.running[id := Adding(request.actor, s.rooms[id], members.value)]) else s
    ensures request.Answer? ==>
      Begin(s, id, request, people) == s.(running := s.running[id := Answering(request.actor, s.rooms[id], request.question)])
    ensures request.Abort? ==> Begin(s, id, request, people) == s.(running := s.running[id := Aborting(s.rooms[id])])
    ensures request.Refresh? ==> Begin(s, id, request, people) == s.(running := s.running[id := Refreshing(s.rooms[id])])
  {}

  /** A prompt is recorded before it is forwarded; the same one is forwarded until it is accepted, and its id is good for no other. */
  lemma PromptEffect(s: State, id: string, actor: string, kind: string, requestId: string, text: string, people: set<string>)
    requires Admitted(s, id, actor)
    ensures var s', key := Begin(s, id, SendPrompt(actor, kind, requestId, text), people), Forward(id, requestId);
      if key in s.prompts && s.prompts[key] != Prompt(actor, kind, text, false) then s' == s
      else s' == s.(prompts := s.prompts[key := Prompt(actor, kind, text, false)], forwards := s.forwards + [key],
                    running := s.running[id := Prompting(actor, s.rooms[id], requestId)])
  {
    var key := Forward(id, requestId);
    if key in s.prompts { assert s.prompts[key := s.prompts[key]] == s.prompts; }
  }

  // ---------------------------------------------------------------- notices

  ghost function To(receipt: Receipt, members: seq<string>, exclude: Option<string>): set<Delivery> {
    set u | u in members && exclude != Some(u) :: Delivery(receipt, u)
  }

  lemma ToOneMore(receipt: Receipt, members: seq<string>, exclude: Option<string>)
    requires members != []
    ensures To(receipt, members, exclude)
      == (if exclude == Some(members[0]) then {} else {Delivery(receipt, members[0])}) + To(receipt, members[1..], exclude)
  {
    assert members == [members[0]] + members[1..];
  }

  /** A notice is recorded for every member but the excluded one, and for nobody else. */
  lemma {:induction false} DeliversExactly(s: State, receipt: Receipt, members: seq<string>, exclude: Option<string>)
    ensures DeliverEach(s, receipt, members, exclude).deliveries == s.deliveries + To(receipt, members, exclude)
    decreases |members|
  {
    if members != [] {
      var s1 := if exclude == Some(members[0]) then s else Deliver(s, receipt, members[0]);
      DeliversExactly(s1, receipt, members[1..], exclude);
      ToOneMore(receipt, members, exclude);
    }
  }

  /** A notice touches deliveries, inboxes and the record of receipts, and nothing else. */
  lemma {:induction false} DeliversOnly(s: State, receipt: Receipt, members: seq<string>, exclude: Option<string>)
    ensures var s' := DeliverEach(s, receipt, members, exclude); s' == s.(deliveries := s'.deliveries, inboxes := s'.inboxes)
    decreases |members|
  {
    if members != [] { DeliversOnly(if exclude == Some(members[0]) then s else Deliver(s, receipt, members[0]), receipt, members[1..], exclude); }
  }

  lemma NoticeEffect(s: State, receipt: Receipt, members: seq<string>, exclude: Option<string>)
    ensures var s' := Notice(s, receipt, members, exclude);
      && s' == s.(deliveries := s.deliveries + To(receipt, members, exclude), activity := s.activity + {receipt}, inboxes := s'.inboxes)
  {
    DeliversExactly(s.(activity := s.activity + {receipt}), receipt, members, exclude);
    DeliversOnly(s.(activity := s.activity + {receipt}), receipt, members, exclude);
  }

  /** Whom a new notice reaches, in one room: one more for each, and the room comes back; all other inboxes stay. */
  ghost predicate InboxesAfter(s: State, s': State, receipt: Receipt, members: seq<string>, exclude: Option<string>) {
    forall r, p :: InboxOf(s', r, p) == NoticedInbox(s, receipt, members, exclude, r, p)
  }

  ghost function NoticedInbox(s: State, receipt: Receipt, members: seq<string>, exclude: Option<string>, r: string, p: string): Inbox {
    var inbox := InboxOf(s, r, p);
    if r == receipt.room && Delivery(receipt, p) in To(receipt, members, exclude) - s.deliveries
    then Inbox(true, inbox.received + 1, inbox.readReceived) else inbox
  }

  lemma NoticeInboxes(s: State, receipt: Receipt, members: seq<string>, exclude: Option<string>)
    ensures InboxesAfter(s, Notice(s, receipt, members, exclude), receipt, members, exclude)
  {
    forall r, p ensures InboxOf(Notice(s, receipt, members, exclude), r, p) == NoticedInbox(s, receipt, members, exclude, r, p) {
      NoticeCountsOnce(s, receipt, members, exclude, r, p);
    }
  }

  // ---------------------------------------------------------------- after the owner's answer

  /** The owner refuses: the lock is given back, and nothing else happens. */
  lemma RefusalEffect(s: State, id: string)
    requires Inv(s) && id in s.running && !s.running[id].Refreshing?
    ensures Step(s, Returned(id, false)) == s.(running := s.running - {id})
  {
    assert LockOk(s.rooms, id, s.running[id]);
  }

  /** Every agreement goes on to a refresh of the room as it is by then. */
  ghost predicate GoesOn(s: State, s': State, id: string) {
    id in s'.rooms && s'.running == s.running[id := Refreshing(s'.rooms[id])]
  }

  /** The owner made the room: it is ready, and everyone but its creator is invited. */
  lemma CreatedEffect(s: State, id: string)
    requires Inv(s) && id in s.running && s.running[id].Creating?
    ensures var s', room, actor := Step(s, Returned(id, true)), s.running[id].room, s.running[id].actor;
      && id in s.rooms && s.rooms[id] == room && GoesOn(s, s', id)
      && s'.rooms == s.rooms[id := room.(ready := true)]
      && s'.deliveries == s.deliveries + To(Invite(id), room.members, Some(actor)) && s'.activity == s.activity + {Invite(id)}
      && InboxesAfter(s, s', Invite(id), room.members, Some(actor))
      && s'.prompts == s.prompts && s'.forwards == s.forwards
  {
    var op := s.running[id];
    assert LockOk(s.rooms, id, op);
    var s1 := s.(rooms := s.rooms[id := s.rooms[id].(ready := true)]);
    NoticeEffect(s1, Invite(id), op.room.members, Some(op.actor));
    NoticeInboxes(s1, Invite(id), op.room.members, Some(op.actor));
    SameInboxes(s, s1, Step(s, Returned(id, true)), Invite(id), op.room.members, Some(op.actor));
  }

  lemma SameInboxes(s: State, s1: State, s': State, receipt: Receipt, members: seq<string>, exclude: Option<string>)
    requires s1.inboxes == s.inboxes && s1.deliveries == s.deliveries
    requires s'.inboxes == Notice(s1, receipt, members, exclude).inboxes
    ensures InboxesAfter(s, s', receipt, members, exclude)
  {
    NoticeInboxes(s1, receipt, members, exclude);
    forall r, p ensures InboxOf(s', r, p) == NoticedInbox(s, receipt, members, exclude, r, p) {
      assert InboxOf(Notice(s1, receipt, members, exclude), r, p) == NoticedInbox(s1, receipt, members, exclude, r, p);
    }
  }

  ghost function Newcomers(s: State, op: Operation): set<string>
    requires op.Adding?
  {
    set u | u in op.members && u !in op.room.members
  }

  /** The owner admitted members: they are in the room, and each is announced to everyone but the actor. */
  lemma AddedEffect(s: State, id: string)
    requires Inv(s) && id in s.running && s.running[id].Adding?
    ensures var s', op := Step(s, Returned(id, true)), s.running[id];
      && id in s.rooms && s.rooms[id] == op.room && GoesOn(s, s', id)
      && s'.rooms == s.rooms[id := op.room.(members := op.members)]
      && (forall d :: d in s'.deliveries <==> d in s.deliveries || exists u :: u in Newcomers(s, op) && d in To(Joined(id, u), op.members, Some(op.actor)))
      && (forall a :: a in s'.activity <==> a in s.activity || exists u :: u in Newcomers(s, op) && a == Joined(id, u))
      && s'.prompts == s.prompts && s'.forwards == s.forwards
  {
    var op := s.running[id];
    assert LockOk(s.rooms, id, op);
    var s1 := s.(rooms := s.rooms[id := s.rooms[id].(members := op.members)]);
    WithoutIsExact(op.members, op.room.members);
    JoinedEffect(s1, id, op.members, Without(op.members, op.room.members), op.actor);
  }

  lemma {:induction false} JoinedEffect(s: State, id: string, members: seq<string>, added: seq<string>, actor: string)
    ensures var s' := NoticeJoined(s, id, members, added, actor);
      && s' == s.(deliveries := s'.deliveries, activity := s'.activity, inboxes := s'.inboxes)
      && (forall d :: d in s'.deliveries <==> d in s.deliveries || exists u :: u in added && d in To(Joined(id, u), members, Some(actor)))
      && (forall a :: a in s'.activity <==> a in s.activity || exists u :: u in added && a == Joined(id, u))
    decreases |added|
  {
    if added != [] {
      NoticeEffect(s, Joined(id, added[0]), members, Some(actor));
      JoinedEffect(Notice(s, Joined(id, added[0]), members, Some(actor)), id, members, added[1..], actor);
      assert added == [added[0]] + added[1..];
    }
  }

  /** The inbox of the actor, whom the room comes back to, and then the notice. */
  ghost predicate InboxesAfterOwn(s: State, s': State, first: bool, actor: string, receipt: Receipt, members: seq<string>) {
    forall r, p :: InboxOf(s', r, p)
      == if first && r == receipt.room && p == actor then InboxOf(s, r, p).(current := true)
         else NoticedInbox(s, receipt, members, Some(actor), r, p)
  }

  lemma OwnInboxes(s: State, s1: State, s': State, first: bool, actor: string, receipt: Receipt, members: seq<string>)
    requires s1.deliveries == s.deliveries
    requires s1.inboxes == if first then s.inboxes[(receipt.room, actor) := InboxOf(s, receipt.room, actor).(current := true)] else s.inboxes
    requires s'.inboxes == Notice(s1, receipt, members, Some(actor)).inboxes
    ensures InboxesAfterOwn(s, s', first, actor, receipt, members)
  {
    NoticeInboxes(s1, receipt, members, Some(actor));
    forall r, p
      ensures InboxOf(s', r, p) == if first && r == receipt.room && p == actor then InboxOf(s, r, p).(current := true)
                                   else NoticedInbox(s, receipt, members, Some(actor), r, p)
    {
      assert InboxOf(Notice(s1, receipt, members, Some(actor)), r, p) == NoticedInbox(s1, receipt, members, Some(actor), r, p);
    }
  }

  /** The owner took an answer: the first one closes its question, and everyone but the actor has the notice once. */
  lemma AnsweredEffect(s: State, id: string)
    requires Inv(s) && id in s.running && s.running[id].Answering?
    ensures var s', op := Step(s, Returned(id, true)), s.running[id];
      var first := Answered(id, op.question) !in s.activity;
      && id in s.rooms && GoesOn(s, s', id)
      && s'.rooms == s.rooms[id := s.rooms[id].(pendingQuestions := s'.rooms[id].pendingQuestions, questionIds := s'.rooms[id].questionIds)]
      && (!first ==> s'.rooms == s.rooms)
      && (first ==> s'.rooms[id].pendingQuestions == |s'.rooms[id].questionIds|)
      && (first ==> forall q :: q in s'.rooms[id].questionIds <==> q in s.rooms[id].questionIds && q != op.question)
      && s'.deliveries == s.deliveries + To(Answered(id, op.question), op.room.members, Some(op.actor))
      && s'.activity == s.activity + {Answered(id, op.question)}
      && InboxesAfterOwn(s, s', first, op.actor, Answered(id, op.question), op.room.members)
      && s'.prompts == s.prompts && s'.forwards == s.forwards
  {
    var op := s.running[id];
    assert LockOk(s.rooms, id, op);
    var receipt := Answered(id, op.question);
    var s1 := if receipt in s.activity then s else CloseQuestion(s, id, op.room, op.actor, op.question);
    WithoutIsExact(op.room.questionIds, [op.question]);
    NoticeEffect(s1, receipt, op.room.members, Some(op.actor));
    OwnInboxes(s, s1, Step(s, Returned(id, true)), receipt !in s.activity, op.actor, receipt, op.room.members);
    assert s.rooms[id := s.rooms[id]] == s.rooms;
  }

  /** The owner took a prompt: it is accepted, and everyone but its sender has the notice once. */
  lemma PromptedEffect(s: State, id: string)
    requires Inv(s) && id in s.running && s.running[id].Prompting?
    ensures var s', op, key := Step(s, Returned(id, true)), s.running[id], Forward(id, s.running[id].requestId);
      var receipt := Message(id, op.requestId);
      && id in s.rooms && GoesOn(s, s', id) && s'.rooms == s.rooms && s'.forwards == s.forwards
      && key in s.prompts && s'.prompts == s.prompts[key := s.prompts[key].(accepted := true)]
      && s'.deliveries == s.deliveries + To(receipt, op.room.members, Some(op.actor)) && s'.activity == s.activity + {receipt}
      && InboxesAfterOwn(s, s', receipt !in s.activity, op.actor, receipt, op.room.members)
  {
    var op, key := s.running[id], Forward(id, s.running[id].requestId);
    assert LockOk(s.rooms, id, op);
    var receipt := Message(id, op.requestId);
    var s0 := s.(prompts := s.prompts[key := s.prompts[key].(accepted := true)]);
    var s1 := if receipt in s.activity then s0 else SetCurrent(s0, id, op.actor, true);
    NoticeEffect(s1, receipt, op.room.members, Some(op.actor));
    OwnInboxes(s, s1, Step(s, Returned(id, true)), receipt !in s.activity, op.actor, receipt, op.room.members);
  }

  lemma AbortedEffect(s: State, id: string)
    requires Inv(s) && id in s.running && s.running[id].Aborting?
    ensures id in s.rooms && Step(s, Returned(id, true)) == s.(running := s.running[id := Refreshing(s.rooms[id])])
  {
    assert LockOk(s.rooms, id, s.running[id]);
  }

  // ---------------------------------------------------------------- the owner's snapshot

  /**
   * A snapshot gives the room its open questions, and every member, whoever asked, a notice of the owner's reply and of each
   * question; the lock is given back.  Without a snapshot that is all.
   */
  lemma SnapshotEffect(s: State, id: string, snapshot: Option<Snapshot>)
    requires Inv(s) && id in s.running && s.running[id].Refreshing?
    ensures var s' := Step(s, SnapshotReturned(id, snapshot));
      && id in s.rooms && s'.running == s.running - {id}
      && (snapshot.None? ==> s' == s.(running := s.running - {id}))
      && (snapshot.Some? ==>
            && s'.rooms == s.rooms[id := s.rooms[id].(pendingQuestions := |snapshot.value.questions|, questionIds := snapshot.value.questions)]
            && (forall d :: d in s'.deliveries <==> d in s.deliveries || exists a :: Announced(snapshot.value, id, a) && d in To(a, s.rooms[id].members, None))
            && (forall a :: a in s'.activity <==> a in s.activity || Announced(snapshot.value, id, a))
            && s'.prompts == s.prompts && s'.forwards == s.forwards)
  {
    var op := s.running[id];
    assert LockOk(s.rooms, id, op);
    if snapshot.Some? {
      var s1 := s.(rooms := s.rooms[id := s.rooms[id].(pendingQuestions := |snapshot.value.questions|, questionIds := snapshot.value.questions)]);
      ReconcileEffect(s1, id, op.room.members, snapshot.value);
    }
  }

  /** What a snapshot announces: the owner's last reply, and every open question. */
  ghost predicate Announced(snapshot: Snapshot, id: string, receipt: Receipt) {
    || (snapshot.notification.Some? && receipt == OwnerReply(id, snapshot.notification.value))
    || (exists q :: q in snapshot.questions && receipt == Asked(id, q))
  }

  lemma ReconcileEffect(s1: State, id: string, members: seq<string>, snapshot: Snapshot)
    ensures
      var s2 := if snapshot.notification.Some? then Notice(s1, OwnerReply(id, snapshot.notification.value), members, None) else s1;
      var s' := NoticeQuestions(s2, id, members, snapshot.questions);
      && s' == s1.(deliveries := s'.deliveries, activity := s'.activity, inboxes := s'.inboxes)
      && (forall d :: d in s'.deliveries <==> d in s1.deliveries || exists a :: Announced(snapshot, id, a) && d in To(a, members, None))
      && (forall a :: a in s'.activity <==> a in s1.activity || Announced(snapshot, id, a))
  {
    var s2 := if snapshot.notification.Some? then Notice(s1, OwnerReply(id, snapshot.notification.value), members, None) else s1;
    if snapshot.notification.Some? { NoticeEffect(s1, OwnerReply(id, snapshot.notification.value), members, None); }
    QuestionsEffect(s2, id, members, snapshot.questions);
    var s' := NoticeQuestions(s2, id, members, snapshot.questions);
    forall d ensures d in s'.deliveries <==> d in s1.deliveries || exists a :: Announced(snapshot, id, a) && d in To(a, members, None) {
      if snapshot.notification.Some? && d in To(OwnerReply(id, snapshot.notification.value), members, None) {
        assert Announced(snapshot, id, OwnerReply(id, snapshot.notification.value));
      }
      if q :| q in snapshot.questions && d in To(Asked(id, q), members, None) { assert Announced(snapshot, id, Asked(id, q)); }
    }
  }

  lemma {:induction false} QuestionsEffect(s: State, id: string, members: seq<string>, questions: seq<string>)
    ensures var s' := NoticeQuestions(s, id, members, questions);
      && s' == s.(deliveries := s'.deliveries, activity := s'.activity, inboxes := s'.inboxes)
      && (forall d :: d in s'.deliveries <==> d in s.deliveries || exists q :: q in questions && d in To(Asked(id, q), members, None))
      && (forall a :: a in s'.activity <==> a in s.activity || exists q :: q in questions && a == Asked(id, q))
    decreases |questions|
  {
    if questions != [] {
      NoticeEffect(s, Asked(id, questions[0]), members, None);
      QuestionsEffect(Notice(s, Asked(id, questions[0]), members, None), id, members, questions[1..]);
      assert questions == [questions[0]] + questions[1..];
    }
  }

  /** The death of the process gives every lock back and takes nothing from the tables. */
  lemma DeathEffect(s: State)
    ensures Step(s, Died) == s.(running := map[])
  {}
}
