/** The sessions that a client always carries, with their ancestors (apps/remote/server/stream-sessions.ts:9-23). */
module StreamSessions {
  import opened Options

  datatype Session = Session(id: string, parentId: Option<string>, foreground: bool, state: string, activity: string, updatedAt: Option<int>)

  const RECENT_FLEET_MS: int := 3600000

  predicate Working(s: Session) {
    s.state == "running" || s.state == "waiting" || s.activity != "idle"
  }

  /** An unreadable date is not recent. */
  predicate Carried(s: Session, selected: Option<string>, now: int) {
    s.foreground || selected == Some(s.id) || Working(s) || (s.updatedAt.Some? && s.updatedAt.value >= now - RECENT_FLEET_MS)
  }

  /** Sessions listed under the same id name the same parent. */
  predicate OneParent(sessions: seq<Session>) {
    forall i, j :: 0 <= i < j < |sessions| && sessions[i].id == sessions[j].id ==> sessions[i].parentId == sessions[j].parentId
  }

  /** An empty parent id is none. */
  function Parent(s: Session, byId: map<string, Session>): (p: Option<Session>)
    ensures p.Some? ==> p.value in byId.Values
    ensures p.None? <==> s.parentId.None? || s.parentId.value == "" || s.parentId.value !in byId
    ensures p.Some? ==> p.value == byId[s.parentId.value]
  {
    if s.parentId.Some? && s.parentId.value != "" && s.parentId.value in byId then Some(byId[s.parentId.value]) else None
  }

  /** `n` steps up from a session. */
  function Up(s: Session, byId: map<string, Session>, n: nat): Option<Session> {
    if n == 0 then Some(s)
    else match Up(s, byId, n - 1) case None => None case Some(p) => Parent(p, byId)
  }

  ghost predicate Table(byId: map<string, Session>, sessions: seq<Session>) {
    && (forall id :: id in byId ==> byId[id].id == id && byId[id] in sessions)
    && (forall s :: s in sessions ==> s.id in byId)
  }

  /** The table names the parent of every listed session. */
  ghost predicate Agreeing(byId: map<string, Session>, sessions: seq<Session>) {
    Table(byId, sessions) && forall s :: s in sessions ==> byId[s.id].parentId == s.parentId
  }

  /** A carried session or one of its ancestors. */
  ghost predicate Ancestral(sessions: seq<Session>, byId: map<string, Session>, selected: Option<string>, now: int, id: string) {
    exists s, n: nat :: s in sessions && Carried(s, selected, now) && IsUp(s, byId, n, id)
  }

  predicate IsUp(s: Session, byId: map<string, Session>, n: nat, id: string) {
    Up(s, byId, n).Some? && Up(s, byId, n).value.id == id
  }

  ghost predicate ChildOfWorking(byId: map<string, Session>, s: Session) {
    Parent(s, byId).Some? && Working(Parent(s, byId).value)
  }

  ghost predicate Keeps(sessions: seq<Session>, byId: map<string, Session>, selected: Option<string>, now: int, s: Session) {
    Ancestral(sessions, byId, selected, now, s.id) || ChildOfWorking(byId, s)
  }

  /** A kept session's parent is kept, or is where the walk stands. */
  ghost predicate ClosedBut(kept: set<string>, byId: map<string, Session>, cursor: Option<Session>) {
    forall id :: id in kept ==> id in byId && (Parent(byId[id], byId).None? || Parent(byId[id], byId).value.id in kept || Parent(byId[id], byId) == cursor)
  }

  ghost predicate Justified(kept: set<string>, sessions: seq<Session>, byId: map<string, Session>, selected: Option<string>, now: int) {
    forall id :: id in kept ==> Ancestral(sessions, byId, selected, now, id)
  }

  /** What the walk up from a session keeps, besides what is kept already. */
  function Walked(cursor: Option<Session>, kept: set<string>, byId: map<string, Session>): set<string>
    requires (forall id :: id in byId ==> byId[id].id == id) && (cursor.Some? ==> cursor.value.id in byId)
    decreases byId.Keys - kept
  {
    if cursor.None? || cursor.value.id in kept then kept
    else Walked(Parent(cursor.value, byId), kept + {cursor.value.id}, byId)
  }

  function WalkedAll(listed: seq<Session>, byId: map<string, Session>, selected: Option<string>, now: int): set<string>
    requires (forall id :: id in byId ==> byId[id].id == id) && (forall s :: s in listed ==> s.id in byId)
  {
    if listed == [] then {}
    else
      var before, last := WalkedAll(listed[..|listed| - 1], byId, selected, now), listed[|listed| - 1];
      if Carried(last, selected, now) then Walked(Some(last), before, byId) else before
  }

  /** Walk up from a session until the rest is kept already; a cycle of parents ends the walk as well. */
  method Keep(s: Session, kept: set<string>, sessions: seq<Session>, byId: map<string, Session>, selected: Option<string>, now: int)
    returns (result: set<string>)
    requires Table(byId, sessions) && s in sessions && Carried(s, selected, now)
    requires Justified(kept, sessions, byId, selected, now)
    ensures result == Walked(Some(s), kept, byId)
    ensures kept <= result && s.id in result && Justified(result, sessions, byId, selected, now)
    ensures Agreeing(byId, sessions) && ClosedBut(kept, byId, None) ==> ClosedBut(result, byId, None)
  {
    result := kept;
    var cursor := Some(s);
    ghost var n: nat := 0;
    ghost var closing := Agreeing(byId, sessions) && ClosedBut(kept, byId, None);
    while cursor.Some? && cursor.value.id !in result
      invariant cursor.Some? ==> cursor.value.id in byId
      invariant Walked(cursor, result, byId) == Walked(Some(s), kept, byId)
      invariant kept <= result && Justified(result, sessions, byId, selected, now)
      invariant closing ==> ClosedBut(result, byId, cursor)
      invariant cursor.Some? ==> cursor == Up(s, byId, n) && cursor.value in sessions
      invariant s.id in result || cursor == Some(s)
      decreases byId.Keys - result
    {
      var id := cursor.value.id;
      JustifiedOn(result, sessions, byId, selected, now, s, n, id);
      if closing { ClosedOn(result, byId, cursor.value, byId[id]); }
      result := result + {id};
      cursor := Parent(cursor.value, byId);
      n := n + 1;
    }
  }

  lemma JustifiedOn(kept: set<string>, sessions: seq<Session>, byId: map<string, Session>, selected: Option<string>, now: int,
                    s: Session, n: nat, id: string)
    requires Justified(kept, sessions, byId, selected, now) && s in sessions && Carried(s, selected, now) && IsUp(s, byId, n, id)
    ensures Justified(kept + {id}, sessions, byId, selected, now)
  {
    assert Ancestral(sessions, byId, selected, now, id);
  }

  lemma ClosedOn(kept: set<string>, byId: map<string, Session>, s: Session, known: Session)
    requires ClosedBut(kept, byId, Some(s)) && s.id in byId && byId[s.id] == known && known.parentId == s.parentId
    ensures ClosedBut(kept + {s.id}, byId, Parent(s, byId))
  {
    assert Parent(known, byId) == Parent(s, byId);
  }

  /** A set that holds a session and is closed under parents holds its ancestors. */
  lemma {:induction false} ClosedHoldsAncestors(kept: set<string>, sessions: seq<Session>, byId: map<string, Session>, s: Session, n: nat)
    requires Agreeing(byId, sessions) && ClosedBut(kept, byId, None) && s in sessions && s.id in kept && Up(s, byId, n).Some?
    ensures Up(s, byId, n).value in sessions && Up(s, byId, n).value.id in kept
    decreases n
  {
    if n > 0 {
      ClosedHoldsAncestors(kept, sessions, byId, s, n - 1);
      var p := Up(s, byId, n - 1).value;
      assert Parent(byId[p.id], byId) == Parent(p, byId);
    }
  }

  /** `new Map(sessions.map(session => [session.id, session]))` */
  function ById(sessions: seq<Session>): map<string, Session> {
    if sessions == [] then map[] else ById(sessions[..|sessions| - 1])[sessions[|sessions| - 1].id := sessions[|sessions| - 1]]
  }

  lemma {:induction false} ByIdIsTable(sessions: seq<Session>)
    ensures Table(ById(sessions), sessions) && (OneParent(sessions) ==> Agreeing(ById(sessions), sessions))
  {
    if sessions != [] {
      var front, last := sessions[..|sessions| - 1], sessions[|sessions| - 1];
      ByIdIsTable(front);
      assert sessions == front + [last];
    }
  }

  function Ids(sessions: seq<Session>): set<string> {
    set s | s in sessions :: s.id
  }

  /**
   * Whatever the list, carried sessions and children of working ones come back, only sessions that share the id of such a session or
   * of an ancestor do, and sessions that share an id stay together, in the order of the input.  If they share their parent as well,
   * the result is exact.
   */
  method StreamedSessions(sessions: seq<Session>, selected: Option<string>, now: int) returns (result: seq<Session>)
    ensures result == Select(sessions, Ids(result))
    ensures forall s :: s in sessions && (Carried(s, selected, now) || ChildOfWorking(ById(sessions), s)) ==> s in result
    ensures forall s :: s in result ==> s in sessions && MayKeep(sessions, ById(sessions), selected, now, s.id)
    ensures Table(ById(sessions), sessions)
    ensures forall s :: s in result <==> s in sessions && (s.id in WalkedAll(sessions, ById(sessions), selected, now) || HasWorkingParent(sessions, ById(sessions), s.id))
    ensures OneParent(sessions) ==> result == Chosen(sessions, sessions, ById(sessions), selected, now)
  {
    var byId := ById(sessions);
    ByIdIsTable(sessions);
    var ancestors := KeepCarried(sessions, byId, selected, now);
    var kept := KeepChildren(sessions, byId, ancestors);
    KeptRight(sessions, byId, ancestors, kept, selected, now);
    if |kept| == |sessions| {
      AllKept(sessions, kept);
      result := sessions;
    } else {
      result := Select(sessions, kept);
    }
    Selected(sessions, kept);
    if OneParent(sessions) {
      KeptExactly(sessions, byId, ancestors, kept, selected, now);
      SelectIsChosen(sessions, sessions, kept, byId, selected, now);
    }
  }

  /**
   * Sessions that share an id but not their parent are walked by the first of them: the parent of the second, which is carried as
   * well, does not come along.
   */
  lemma SecondParentIsLost(now: int)
    ensures var sessions := [Listed("a", Some("p"), true), Listed("a", Some("q"), true), Listed("p", None, false), Listed("q", None, false)];
      var byId := ById(sessions);
      Table(byId, sessions) && Parent(sessions[1], byId) == Some(sessions[3]) && Carried(sessions[1], None, now)
      && "p" in WalkedAll(sessions, byId, None, now) && "q" !in WalkedAll(sessions, byId, None, now) && !HasWorkingParent(sessions, byId, "q")
  {
    var a, b, p, q := Listed("a", Some("p"), true), Listed("a", Some("q"), true), Listed("p", None, false), Listed("q", None, false);
    var sessions := [a, b, p, q];
    ByIdIsTable(sessions);
    ByIdOfFour(a, b, p, q);
    var byId := ById(sessions);
    WalkOfFour(a, b, p, q, byId, now);
  }

  lemma WalkOfFour(a: Session, b: Session, p: Session, q: Session, byId: map<string, Session>, now: int)
    requires (forall id :: id in byId ==> byId[id].id == id) && a.id in byId && p.id in byId && q.id in byId
    requires a.id == b.id && a.id != p.id && Parent(a, byId) == Some(p) && p.parentId == None
    requires Carried(a, None, now) && !Carried(p, None, now) && !Carried(q, None, now)
    ensures WalkedAll([a, b, p, q], byId, None, now) == {a.id, p.id}
  {
    FirstParentWalked(a, p, byId);
    WalkedLast([], a, byId, None, now);
    assert [] + [a] == [a] && WalkedAll([a], byId, None, now) == {a.id, p.id};
    WalkedLast([a], b, byId, None, now);
    assert [a] + [b] == [a, b] && WalkedAll([a, b], byId, None, now) == {a.id, p.id};
    WalkedLast([a, b], p, byId, None, now);
    assert [a, b] + [p] == [a, b, p] && WalkedAll([a, b, p], byId, None, now) == {a.id, p.id};
    WalkedLast([a, b, p], q, byId, None, now);
    assert [a, b, p] + [q] == [a, b, p, q];
  }

  lemma FirstParentWalked(a: Session, p: Session, byId: map<string, Session>)
    requires (forall id :: id in byId ==> byId[id].id == id) && a.id in byId && Parent(a, byId) == Some(p) && p.id in byId && p.id != a.id
    requires p.parentId == None
    ensures Walked(Some(a), {}, byId) == {a.id, p.id}
  {
    assert Walked(Some(p), {} + {a.id}, byId) == {a.id, p.id};
  }

  lemma ByIdOfFour(a: Session, b: Session, c: Session, d: Session)
    ensures ById([a, b, c, d]) == map[][a.id := a][b.id := b][c.id := c][d.id := d]
  {
    assert [a, b, c, d][..3] == [a, b, c] && [a, b, c][..2] == [a, b] && [a, b][..1] == [a] && [a][..0] == [];
    assert ById([a]) == map[][a.id := a];
    assert ById([a, b]) == ById([a])[b.id := b];
    assert ById([a, b, c]) == ById([a, b])[c.id := c];
  }

  lemma WalkedLast(listed: seq<Session>, last: Session, byId: map<string, Session>, selected: Option<string>, now: int)
    requires (forall id :: id in byId ==> byId[id].id == id) && (forall s :: s in listed ==> s.id in byId) && last.id in byId
    ensures WalkedAll(listed + [last], byId, selected, now) ==
      var before := WalkedAll(listed, byId, selected, now); if Carried(last, selected, now) then Walked(Some(last), before, byId) else before
  {
    assert (listed + [last])[..|listed|] == listed;
  }

  function Listed(id: string, parentId: Option<string>, foreground: bool): Session {
    Session(id, parentId, foreground, "idle", "idle", None)
  }

  /** Some session with the id is to be kept. */
  ghost predicate MayKeep(sessions: seq<Session>, byId: map<string, Session>, selected: Option<string>, now: int, id: string) {
    exists t :: t in sessions && t.id == id && Keeps(sessions, byId, selected, now, t)
  }

  ghost predicate HasWorkingParent(sessions: seq<Session>, byId: map<string, Session>, id: string) {
    exists j :: 0 <= j < |sessions| && sessions[j].id == id && ChildOfWorking(byId, sessions[j])
  }

  lemma KeptRight(sessions: seq<Session>, byId: map<string, Session>, ancestors: set<string>, kept: set<string>, selected: Option<string>, now: int)
    requires ancestors <= Ids(sessions) && Justified(ancestors, sessions, byId, selected, now)
    requires forall s :: s in sessions && Carried(s, selected, now) ==> s.id in ancestors
    requires forall id :: id in kept <==> id in ancestors || HasWorkingParent(sessions, byId, id)
    ensures kept <= Ids(sessions)
    ensures forall s :: s in sessions && (Carried(s, selected, now) || ChildOfWorking(byId, s)) ==> s.id in kept
    ensures forall id :: id in kept ==> MayKeep(sessions, byId, selected, now, id)
  {
    forall s | s in sessions && ChildOfWorking(byId, s) ensures s.id in kept { assert HasWorkingParent(sessions, byId, s.id); }
    forall id | id in kept ensures id in Ids(sessions) && MayKeep(sessions, byId, selected, now, id) {
      if id in ancestors {
        var s :| s in sessions && s.id == id;
        assert Keeps(sessions, byId, selected, now, s);
      }
    }
  }

  lemma KeptExactly(sessions: seq<Session>, byId: map<string, Session>, ancestors: set<string>, kept: set<string>, selected: Option<string>, now: int)
    requires OneParent(sessions)
    requires forall id :: id in ancestors <==> Ancestral(sessions, byId, selected, now, id)
    requires forall id :: id in kept <==> id in ancestors || HasWorkingParent(sessions, byId, id)
    ensures forall s :: s in sessions ==> (s.id in kept <==> Keeps(sessions, byId, selected, now, s))
  {
    forall s | s in sessions ensures HasWorkingParent(sessions, byId, s.id) <==> ChildOfWorking(byId, s) { SameParents(sessions, byId, s); }
  }

  lemma SameParents(sessions: seq<Session>, byId: map<string, Session>, s: Session)
    requires OneParent(sessions) && s in sessions
    ensures HasWorkingParent(sessions, byId, s.id) <==> ChildOfWorking(byId, s)
  {
    var i :| 0 <= i < |sessions| && sessions[i] == s;
    forall j | 0 <= j < |sessions| && sessions[j].id == s.id ensures Parent(sessions[j], byId) == Parent(s, byId) {
      assert sessions[j].parentId == sessions[i].parentId;
    }
  }

  lemma {:induction false} FewIds(sessions: seq<Session>)
    ensures |Ids(sessions)| <= |sessions|
  {
    if sessions != [] {
      var front, last := sessions[..|sessions| - 1], sessions[|sessions| - 1];
      FewIds(front);
      assert sessions == front + [last];
      assert Ids(sessions) == Ids(front) + {last.id};
    }
  }

  /** As many kept ids as sessions are all of the ids: the shortcut loses nothing. */
  lemma AllKept(sessions: seq<Session>, kept: set<string>)
    requires kept <= Ids(sessions) && |kept| == |sessions|
    ensures Select(sessions, kept) == sessions
  {
    FewIds(sessions);
    Whole(Ids(sessions), kept);
    SelectsAll(sessions, kept);
  }

  lemma Whole<T>(all: set<T>, part: set<T>)
    requires part <= all && |all| <= |part|
    ensures part == all
  {
    if x :| x in all && x !in part {
      Smaller(part, all - {x});
    }
  }

  lemma {:induction false} Smaller<T>(part: set<T>, all: set<T>)
    requires part <= all
    ensures |part| <= |all|
  {
    if x :| x in part { Smaller(part - {x}, all - {x}); }
  }

  lemma {:induction false} SelectsAll(sessions: seq<Session>, kept: set<string>)
    requires forall s :: s in sessions ==> s.id in kept
    ensures Select(sessions, kept) == sessions
  {
    if sessions != [] { SelectsAll(sessions[1..], kept); }
  }

  lemma {:induction false} SelectedAre(sessions: seq<Session>, kept: set<string>)
    ensures forall s :: s in Select(sessions, kept) <==> s in sessions && s.id in kept
  {
    if sessions != [] {
      SelectedAre(sessions[1..], kept);
      assert sessions == [sessions[0]] + sessions[1..];
    }
  }

  lemma {:induction false} SelectSame(sessions: seq<Session>, kept: set<string>, ids: set<string>)
    requires forall s :: s in sessions ==> (s.id in kept <==> s.id in ids)
    ensures Select(sessions, kept) == Select(sessions, ids)
  {
    if sessions != [] {
      assert sessions[0] in sessions;
      SelectSame(sessions[1..], kept, ids);
    }
  }

  lemma Selected(sessions: seq<Session>, kept: set<string>)
    ensures Select(sessions, kept) == Select(sessions, Ids(Select(sessions, kept)))
    ensures forall s :: s in Select(sessions, kept) <==> s in sessions && s.id in kept
  {
    SelectedAre(sessions, kept);
    SelectSame(sessions, kept, Ids(Select(sessions, kept)));
  }

  method KeepIfCarried(s: Session, kept: set<string>, sessions: seq<Session>, byId: map<string, Session>, selected: Option<string>, now: int)
    returns (result: set<string>)
    requires Table(byId, sessions) && s in sessions && Justified(kept, sessions, byId, selected, now)
    ensures result == if Carried(s, selected, now) then Walked(Some(s), kept, byId) else kept
    ensures kept <= result && (Carried(s, selected, now) ==> s.id in result) && Justified(result, sessions, byId, selected, now)
    ensures Agreeing(byId, sessions) && ClosedBut(kept, byId, None) ==> ClosedBut(result, byId, None)
  {
    result := kept;
    if Carried(s, selected, now) { result := Keep(s, kept, sessions, byId, selected, now); }
  }

  /** The loop has passed the first `i` sessions. */
  ghost predicate KeptUpTo(kept: set<string>, i: nat, sessions: seq<Session>, byId: map<string, Session>, selected: Option<string>, now: int)
    requires Table(byId, sessions) && i <= |sessions|
  {
    && kept == WalkedAll(sessions[..i], byId, selected, now)
    && Justified(kept, sessions, byId, selected, now) && (Agreeing(byId, sessions) ==> ClosedBut(kept, byId, None))
    && forall j :: 0 <= j < i && Carried(sessions[j], selected, now) ==> sessions[j].id in kept
  }

  lemma KeptNext(before: set<string>, kept: set<string>, i: nat, sessions: seq<Session>, byId: map<string, Session>,
                 selected: Option<string>, now: int)
    requires Table(byId, sessions) && i < |sessions| && KeptUpTo(before, i, sessions, byId, selected, now)
    requires kept == if Carried(sessions[i], selected, now) then Walked(Some(sessions[i]), before, byId) else before
    requires before <= kept && (Carried(sessions[i], selected, now) ==> sessions[i].id in kept)
    requires Justified(kept, sessions, byId, selected, now) && (Agreeing(byId, sessions) ==> ClosedBut(kept, byId, None))
    ensures KeptUpTo(kept, i + 1, sessions, byId, selected, now)
  {
    assert sessions[..i + 1] == sessions[..i] + [sessions[i]];
    WalkedLast(sessions[..i], sessions[i], byId, selected, now);
  }

  method KeepCarried(sessions: seq<Session>, byId: map<string, Session>, selected: Option<string>, now: int) returns (kept: set<string>)
    requires Table(byId, sessions)
    ensures kept == WalkedAll(sessions, byId, selected, now)
    ensures kept <= Ids(sessions) && Justified(kept, sessions, byId, selected, now)
    ensures forall s :: s in sessions && Carried(s, selected, now) ==> s.id in kept
    ensures Agreeing(byId, sessions) ==> forall id :: id in kept <==> Ancestral(sessions, byId, selected, now, id)
  {
    kept := {};
    var i := 0;
    while i < |sessions|
      invariant i <= |sessions| && KeptUpTo(kept, i, sessions, byId, selected, now)
    {
      ghost var before := kept;
      kept := KeepIfCarried(sessions[i], kept, sessions, byId, selected, now);
      KeptNext(before, kept, i, sessions, byId, selected, now);
      i := i + 1;
    }
    assert sessions[..|sessions|] == sessions;
    if Agreeing(byId, sessions) { ClosureReached(kept, sessions, byId, selected, now); }
    forall id | id in kept ensures id in Ids(sessions) { AncestorsListed(sessions, byId, selected, now, id); }
  }

  lemma AncestorsListed(sessions: seq<Session>, byId: map<string, Session>, selected: Option<string>, now: int, id: string)
    requires Table(byId, sessions) && Ancestral(sessions, byId, selected, now, id)
    ensures id in Ids(sessions)
  {
    var s, n: nat :| s in sessions && Carried(s, selected, now) && IsUp(s, byId, n, id);
    UpStays(sessions, byId, s, n);
  }

  method KeepChildren(sessions: seq<Session>, byId: map<string, Session>, before: set<string>) returns (kept: set<string>)
    ensures forall id :: id in kept <==> id in before || HasWorkingParent(sessions, byId, id)
  {
    kept := before;
    var i := 0;
    while i < |sessions|
      invariant i <= |sessions|
      invariant forall id :: id in kept <==> id in before || exists j :: 0 <= j < i && sessions[j].id == id && ChildOfWorking(byId, sessions[j])
    {
      var parent := Parent(sessions[i], byId);
      if parent.Some? && Working(parent.value) { kept := kept + {sessions[i].id}; }
      i := i + 1;
    }
  }

  lemma ClosureReached(kept: set<string>, sessions: seq<Session>, byId: map<string, Session>, selected: Option<string>, now: int)
    requires Agreeing(byId, sessions) && ClosedBut(kept, byId, None) && Justified(kept, sessions, byId, selected, now)
    requires forall j :: 0 <= j < |sessions| && Carried(sessions[j], selected, now) ==> sessions[j].id in kept
    ensures forall id :: id in kept <==> Ancestral(sessions, byId, selected, now, id)
  {
    forall id | Ancestral(sessions, byId, selected, now, id) ensures id in kept {
      var s, n: nat :| s in sessions && Carried(s, selected, now) && IsUp(s, byId, n, id);
      ClosedHoldsAncestors(kept, sessions, byId, s, n);
    }
  }

  function Select(sessions: seq<Session>, kept: set<string>): seq<Session> {
    if sessions == [] then [] else (if sessions[0].id in kept then [sessions[0]] else []) + Select(sessions[1..], kept)
  }

  /** The kept sessions, in the order of the input. */
  ghost function Chosen(rest: seq<Session>, sessions: seq<Session>, byId: map<string, Session>, selected: Option<string>, now: int): seq<Session> {
    if rest == [] then []
    else (if Keeps(sessions, byId, selected, now, rest[0]) then [rest[0]] else []) + Chosen(rest[1..], sessions, byId, selected, now)
  }

  lemma {:induction false} SelectIsChosen(
    rest: seq<Session>, sessions: seq<Session>, kept: set<string>, byId: map<string, Session>, selected: Option<string>, now: int)
    requires forall s :: s in rest ==> s in sessions
    requires forall s :: s in sessions ==> (s.id in kept <==> Keeps(sessions, byId, selected, now, s))
    ensures Select(rest, kept) == Chosen(rest, sessions, byId, selected, now)
    decreases |rest|
  {
    if rest != [] {
      assert rest[0] in rest;
      SelectIsChosen(rest[1..], sessions, kept, byId, selected, now);
    }
  }

  /** Every chosen session comes with its parent, where the parent is known at all. */
  lemma ParentsAreCarried(sessions: seq<Session>, byId: map<string, Session>, selected: Option<string>, now: int, s: Session)
    requires Agreeing(byId, sessions) && s in sessions && Keeps(sessions, byId, selected, now, s) && Parent(s, byId).Some?
    ensures Parent(s, byId).value in sessions && Keeps(sessions, byId, selected, now, Parent(s, byId).value)
  {
    var parent := Parent(s, byId).value;
    if Working(parent) {
      assert IsUp(parent, byId, 0, parent.id);
    } else {
      var seed, n: nat :| seed in sessions && Carried(seed, selected, now) && IsUp(seed, byId, n, s.id);
      UpStays(sessions, byId, seed, n);
      assert Parent(Up(seed, byId, n).value, byId) == Parent(s, byId);
      assert IsUp(seed, byId, n + 1, parent.id);
    }
  }

  lemma {:induction false} UpStays(sessions: seq<Session>, byId: map<string, Session>, s: Session, n: nat)
    requires Table(byId, sessions) && s in sessions && Up(s, byId, n).Some?
    ensures Up(s, byId, n).value in sessions
  {
    if n > 0 { UpStays(sessions, byId, s, n - 1); }
  }

  /** What is carried: what is shown or chosen, what works, and what changed within the last hour. */
  lemma CarriedMeans(s: Session, selected: Option<string>, now: int)
    ensures Working(s) <==> s.state in {"running", "waiting"} || s.activity != "idle"
    ensures Carried(s, selected, now) <==>
      s.foreground || selected == Some(s.id) || Working(s) || exists at :: s.updatedAt == Some(at) && now - at <= 3_600_000
  {}

  /** Of several sessions with one id the table has the last. */
  lemma {:induction false} TableHasTheLast(sessions: seq<Session>, i: nat)
    requires i < |sessions| && forall j :: i < j < |sessions| ==> sessions[j].id != sessions[i].id
    ensures sessions[i].id in ById(sessions) && ById(sessions)[sessions[i].id] == sessions[i]
  {
    if i < |sessions| - 1 { TableHasTheLast(sessions[..|sessions| - 1], i); }
  }
}
