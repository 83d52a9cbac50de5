/** The ancestors of live threads that another owner holds (apps/remote/server/peer-directory.ts:35-53). */
module PeerDirectory {
  import opened Options

  datatype Thread = Thread(id: string, parentId: Option<string>, archived: bool)
  datatype Listed = Page(threads: seq<Thread>) | NotListed
  datatype Ancestors = Found(threads: map<string, Thread>) | Oversized | MissingAncestor(id: string) | ListFailed

  const BOUND: nat := 10000

  /** What the owner lists for an id, by the number of calls made. */
  type Directory = (string, nat) -> Listed

  function WithId(threads: seq<Thread>, id: string): (t: Option<Thread>)
    ensures t.Some? ==> FirstWithId(threads, id, t.value)
    ensures t.None? ==> forall x :: x in threads ==> x.id != id
  {
    if threads == [] then None
    else if threads[0].id == id then assert FirstWithId(threads, id, threads[0]); Some(threads[0])
    else
      var t := WithId(threads[1..], id);
      assert t.Some? ==> FirstWithId(threads, id, t.value) by { if t.Some? { FirstBehind(threads, id, t.value); } }
      t
  }

  lemma FirstBehind(threads: seq<Thread>, id: string, t: Thread)
    requires threads != [] && threads[0].id != id && FirstWithId(threads[1..], id, t)
    ensures FirstWithId(threads, id, t)
  {
    var k :| 0 <= k < |threads[1..]| && threads[1..][k] == t && t.id == id && forall j :: 0 <= j < k ==> threads[1..][j].id != id;
    assert threads[k + 1] == t;
    forall j | 0 <= j < k + 1 ensures threads[j].id != id { if j > 0 { assert threads[j] == threads[1..][j - 1]; } }
  }

  /** The parent that must be present; an empty id is none. */
  function ParentOf(t: Thread): (p: Option<string>)
    ensures p.None? <==> t.parentId.None? || t.parentId.value == ""
    ensures p.Some? ==> p == t.parentId
  {
    if t.parentId == Some("") then None else t.parentId
  }

  ghost predicate Had(id: string, t: Thread, known: map<string, Thread>, list: Directory, calls: nat) {
    if Cached(id, known) then known[id] == t else exists n: nat :: n < calls && FromDirectory(list, id, n, t)
  }

  predicate Cached(id: string, known: map<string, Thread>) {
    id in known && known[id].archived
  }

  ghost predicate FirstWithId(threads: seq<Thread>, id: string, t: Thread) {
    exists k :: 0 <= k < |threads| && threads[k] == t && t.id == id && forall j :: 0 <= j < k ==> threads[j].id != id
  }

  ghost predicate FromDirectory(list: Directory, id: string, n: nat, t: Thread) {
    list(id, n).Page? && FirstWithId(list(id, n).threads, id, t)
  }

  ghost predicate Absent(list: Directory, id: string, n: nat) {
    list(id, n).Page? && forall t :: t in list(id, n).threads ==> t.id != id
  }

  /** The map of the given threads. */
  function FromThreads(threads: seq<Thread>): (next: map<string, Thread>)
    ensures forall id :: id in next ==> next[id] in threads && next[id].id == id
    ensures forall t :: t in threads ==> t.id in next
  {
    if threads == [] then map[]
    else
      var front, last := threads[..|threads| - 1], threads[|threads| - 1];
      assert threads == front + [last];
      FromThreads(front)[last.id := last]
  }

  /** Of the threads given under one id the last counts. */
  lemma {:induction false} LastGivenCounts(threads: seq<Thread>, i: nat)
    requires i < |threads| && forall j :: i < j < |threads| ==> threads[j].id != threads[i].id
    ensures threads[i].id in FromThreads(threads) && FromThreads(threads)[threads[i].id] == threads[i]
  {
    if i < |threads| - 1 { LastGivenCounts(threads[..|threads| - 1], i); }
  }

  lemma {:induction false} SizeFromThreads(threads: seq<Thread>)
    ensures |FromThreads(threads)| <= |threads|
  {
    if threads != [] {
      var front, last := threads[..|threads| - 1], threads[|threads| - 1];
      SizeFromThreads(front);
      var a := FromThreads(front);
      assert FromThreads(threads).Keys == a.Keys + {last.id};
    }
  }

  predicate Anchored(t: Thread, next: map<string, Thread>, local: string -> bool) {
    ParentOf(t).None? || ParentOf(t).value in next || local(ParentOf(t).value)
  }

  /** The k-th parent that was added: one of a thread before it that was neither there nor local. */
  ghost predicate FoundAt(ids: seq<string>, k: nat, next: map<string, Thread>, frontier: seq<Thread>, given: nat, local: string -> bool, known: map<string, Thread>,
                          list: Directory, calls: nat) {
    && k < |ids| && given + k < |frontier|
    && ids[k] in next && next[ids[k]] == frontier[given + k] && ids[k] !in ids[..k] && !local(ids[k])
    && Wanted(ids[k], frontier, given + k)
    && Had(ids[k], frontier[given + k], known, list, calls)
  }

  ghost predicate Wanted(id: string, frontier: seq<Thread>, end: nat) {
    exists j :: 0 <= j < end <= |frontier| && ParentOf(frontier[j]) == Some(id)
  }

  /** The map holds the given threads and the parents that were added behind them, and nothing else. */
  ghost predicate Collected(ids: seq<string>, next: map<string, Thread>, given: map<string, Thread>) {
    && (forall id :: id in given ==> id in next && next[id] == given[id] && id !in ids)
    && (forall id :: id in next ==> id in given || id in ids)
  }

  ghost predicate AllFound(ids: seq<string>, next: map<string, Thread>, frontier: seq<Thread>, given: nat, local: string -> bool, known: map<string, Thread>,
                           list: Directory, calls: nat) {
    forall k :: 0 <= k < |ids| ==> FoundAt(ids, k, next, frontier, given, local, known, list, calls)
  }

  /** The worklist: the given threads and the parents in the order in which they were added. */
  ghost predicate Listing(ids: seq<string>, next: map<string, Thread>, frontier: seq<Thread>, threads: seq<Thread>, given: map<string, Thread>,
                          local: string -> bool, known: map<string, Thread>, list: Directory, calls: nat) {
    && |frontier| == |threads| + |ids| && threads <= frontier
    && AllFound(ids, next, frontier, |threads|, local, known, list, calls)
    && Collected(ids, next, given)
  }

  ghost predicate AnchoredAt(frontier: seq<Thread>, i: nat, next: map<string, Thread>, local: string -> bool) {
    i < |frontier| && Anchored(frontier[i], next, local)
  }

  ghost predicate Behind(next: map<string, Thread>, frontier: seq<Thread>, position: nat, local: string -> bool) {
    forall i :: 0 <= i < position ==> AnchoredAt(frontier, i, next, local)
  }

  /** Everyone's parent is absent, local or there. */
  ghost predicate Complete(next: map<string, Thread>, threads: seq<Thread>, local: string -> bool) {
    GivenAnchored(next, threads, local) && KeptAnchored(next, local) && |next| <= 10_000
  }

  ghost predicate GivenAnchored(next: map<string, Thread>, threads: seq<Thread>, local: string -> bool) {
    forall t :: t in threads ==> Anchored(t, next, local)
  }

  ghost predicate KeptAnchored(next: map<string, Thread>, local: string -> bool) {
    forall id :: id in next ==> Anchored(next[id], next, local)
  }

  /** The last call was for the parent of a thread on the worklist that is neither there, nor local, nor cached. */
  ghost predicate Asked(id: string, next: map<string, Thread>, frontier: seq<Thread>, local: string -> bool, known: map<string, Thread>) {
    Wanted(id, frontier, |frontier|) && id !in next && !local(id) && !Cached(id, known)
  }

  ghost predicate Refused(next: map<string, Thread>, frontier: seq<Thread>, local: string -> bool, known: map<string, Thread>, list: Directory, n: nat) {
    exists id :: Asked(id, next, frontier, local, known) && list(id, n).NotListed?
  }

  ghost predicate Missed(id: string, next: map<string, Thread>, frontier: seq<Thread>, local: string -> bool, known: map<string, Thread>, list: Directory, n: nat) {
    Asked(id, next, frontier, local, known) && Absent(list, id, n)
  }

  /** The worklist of the source, with its map and list at the end and the ids of the added parents. */
  method ReadPeerAncestors(list: Directory, threads: seq<Thread>, local: string -> bool, known: map<string, Thread>)
    returns (result: Ancestors, calls: nat, ghost next: map<string, Thread>, ghost frontier: seq<Thread>, ghost ids: seq<string>)
    ensures calls <= 10_000
    ensures Listing(ids, next, frontier, threads, FromThreads(threads), local, known, list, calls)
    ensures result.Found? ==> result.threads == next && Complete(next, threads, local) && |frontier| <= 10_000
    ensures result.Oversized? ==> |frontier| > 10_000
    ensures result.MissingAncestor? ==> calls > 0 && Missed(result.id, next, frontier, local, known, list, calls - 1)
    ensures result.ListFailed? ==> calls > 0 && Refused(next, frontier, local, known, list, calls - 1)
    ensures |threads| > 10_000 ==> result.Oversized? && calls == 0
  {
    SizeFromThreads(threads);
    result, calls, next, frontier, ids := Climb(list, threads, FromThreads(threads), local, known);
  }

  /** The loop of the source, from the map of the given threads. */
  method Climb(list: Directory, threads: seq<Thread>, given: map<string, Thread>, local: string -> bool, known: map<string, Thread>)
    returns (result: Ancestors, calls: nat, ghost next: map<string, Thread>, ghost frontier: seq<Thread>, ghost ids: seq<string>)
    requires |given| <= |threads| && forall id :: id in given ==> given[id] in threads
    ensures calls <= BOUND
    ensures Listing(ids, next, frontier, threads, given, local, known, list, calls)
    ensures result.Found? ==> result.threads == next && Complete(next, threads, local) && |frontier| <= BOUND
    ensures result.Oversized? ==> |frontier| > BOUND
    ensures result.MissingAncestor? ==> calls > 0 && Missed(result.id, next, frontier, local, known, list, calls - 1)
    ensures result.ListFailed? ==> calls > 0 && Refused(next, frontier, local, known, list, calls - 1)
    ensures |threads| > BOUND ==> result.Oversized? && calls == 0
  {
    var have, listed, position := given, threads, 0;
    calls, ids := 0, [];
    while position < |listed|
      invariant position <= |listed| && Listing(ids, have, listed, threads, given, local, known, list, calls)
      invariant Behind(have, listed, position, local)
      invariant |listed| <= BOUND + 1 || listed == threads
      invariant calls <= position && (|listed| > BOUND ==> position < |listed|)
      invariant |threads| > BOUND ==> calls == 0 && listed == threads
      decreases if |listed| <= BOUND then BOUND + 1 - |listed| else 0, |listed| - position
    {
      if |listed| > BOUND { return Oversized, calls, have, listed, ids; }
      var more, longer, failure, after, added := Advance(list, have, listed, position, threads, given, local, known, calls, ids);
      if failure.Some? { return failure.value, after, have, listed, ids; }
      have, listed, calls, ids, position := more, longer, after, added, position + 1;
    }
    ListingDone(ids, have, listed, threads, given, local, known, list, calls);
    return Found(have), calls, have, listed, ids;
  }

  /** One turn of the loop: the thread at `position` gets its parent. */
  method Advance(list: Directory, next: map<string, Thread>, frontier: seq<Thread>, position: nat, ghost threads: seq<Thread>, ghost given: map<string, Thread>,
                 local: string -> bool, known: map<string, Thread>, before: nat, ghost ids: seq<string>)
    returns (more: map<string, Thread>, longer: seq<Thread>, failure: Option<Ancestors>, calls: nat, ghost added: seq<string>)
    requires Listing(ids, next, frontier, threads, given, local, known, list, before) && position < |frontier|
    requires Behind(next, frontier, position, local)
    ensures before <= calls <= before + 1 && |frontier| <= |longer| <= |frontier| + 1
    ensures failure.None? ==> Listing(added, more, longer, threads, given, local, known, list, calls) && Behind(more, longer, position + 1, local)
    ensures failure.Some? ==> calls == before + 1 && Listing(ids, next, frontier, threads, given, local, known, list, calls)
    ensures failure.Some? ==> failure.value.MissingAncestor? || failure.value.ListFailed?
    ensures failure.Some? && failure.value.MissingAncestor? ==> Missed(failure.value.id, next, frontier, local, known, list, before)
    ensures failure.Some? && failure.value.ListFailed? ==> Refused(next, frontier, local, known, list, before)
  {
    more, longer, failure, calls, added := next, frontier, None, before, ids;
    var parentId := ParentOf(frontier[position]);
    if parentId.None? || parentId.value in next || local(parentId.value) {
      assert AnchoredAt(frontier, position, next, local);
      return;
    }
    var parent, why;
    parent, why, calls := FindParent(list, parentId.value, known, before);
    LaterSources(ids, next, frontier, |threads|, local, known, list, before, calls);
    assert Wanted(parentId.value, frontier, |frontier|);
    if parent.None? {
      assert Asked(parentId.value, next, frontier, local, known);
      failure := Some(why);
      return;
    }
    Grown(ids, next, frontier, |threads|, local, known, list, calls, parentId.value, parent.value);
    AnchoredMore(next, frontier, position, local, parentId.value, parent.value);
    more, longer, added := next[parentId.value := parent.value], frontier + [parent.value], ids + [parentId.value];
  }

  lemma ListingDone(ids: seq<string>, next: map<string, Thread>, frontier: seq<Thread>, threads: seq<Thread>, given: map<string, Thread>, local: string -> bool,
                    known: map<string, Thread>, list: Directory, calls: nat)
    requires |given| <= |threads| && forall id :: id in given ==> given[id] in threads
    requires Listing(ids, next, frontier, threads, given, local, known, list, calls) && |frontier| <= 10_000
    requires Behind(next, frontier, |frontier|, local)
    ensures Complete(next, threads, local)
  {
    forall t | t in threads ensures Anchored(t, next, local) {
      var i :| 0 <= i < |threads| && threads[i] == t;
      assert AnchoredAt(frontier, i, next, local);
    }
    forall id | id in next && id !in given ensures Anchored(next[id], next, local) {
      var k :| 0 <= k < |ids| && ids[k] == id;
      assert FoundAt(ids, k, next, frontier, |threads|, local, known, list, calls);
      assert AnchoredAt(frontier, |threads| + k, next, local);
    }
    KeysCount(next.Keys, given.Keys, ids);
  }

  lemma {:induction false} KeysCount(keys: set<string>, given: set<string>, ids: seq<string>)
    requires forall id :: id in keys ==> id in given || id in ids
    ensures |keys| <= |given| + |ids|
  {
    if ids == [] {
      Subset(keys, given);
    } else {
      KeysCount(keys - {ids[0]}, given, ids[1..]);
      if ids[0] in keys { assert keys == (keys - {ids[0]}) + {ids[0]}; } else { assert keys == keys - {ids[0]}; }
    }
  }

  lemma {:induction false} Subset(a: set<string>, b: set<string>)
    requires a <= b
    ensures |a| <= |b|
  {
    assert b == a + (b - a);
  }

  lemma AnchoredMore(next: map<string, Thread>, frontier: seq<Thread>, position: nat, local: string -> bool, id: string, parent: Thread)
    requires position < |frontier| && ParentOf(frontier[position]) == Some(id) && Behind(next, frontier, position, local)
    ensures Behind(next[id := parent], frontier + [parent], position + 1, local)
  {
    var more, longer := next[id := parent], frontier + [parent];
    forall i | 0 <= i <= position ensures AnchoredAt(longer, i, more, local) {
      if i < position { assert AnchoredAt(frontier, i, next, local); }
    }
  }

  /** An archived thread from the cache, or the owner's record. */
  method FindParent(list: Directory, id: string, known: map<string, Thread>, before: nat) returns (parent: Option<Thread>, failure: Ancestors, calls: nat)
    ensures before <= calls <= before + 1
    ensures parent.Some? ==> Had(id, parent.value, known, list, calls)
    ensures parent.None? ==> calls == before + 1 && !Cached(id, known)
    ensures parent.None? ==> (failure == ListFailed && list(id, before).NotListed?) || (failure == MissingAncestor(id) && Absent(list, id, before))
  {
    calls, failure := before, ListFailed;
    if id in known && known[id].archived { return Some(known[id]), failure, calls; }
    var found := list(id, calls);
    calls := calls + 1;
    if found.NotListed? { return None, failure, calls; }
    parent := WithId(found.threads, id);
    if parent.None? { failure := MissingAncestor(id); } else { assert FromDirectory(list, id, before, parent.value); }
  }

  /** Later calls do not take a source away. */
  lemma LaterSources(ids: seq<string>, next: map<string, Thread>, frontier: seq<Thread>, given: nat, local: string -> bool, known: map<string, Thread>,
                     list: Directory, before: nat, calls: nat)
    requires AllFound(ids, next, frontier, given, local, known, list, before) && before <= calls
    ensures AllFound(ids, next, frontier, given, local, known, list, calls)
  {
    forall k | 0 <= k < |ids| ensures FoundAt(ids, k, next, frontier, given, local, known, list, calls) {
      assert FoundAt(ids, k, next, frontier, given, local, known, list, before);
    }
  }

  /** One more thread leaves the others as they were found. */
  lemma Grown(ids: seq<string>, next: map<string, Thread>, frontier: seq<Thread>, given: nat, local: string -> bool, known: map<string, Thread>,
              list: Directory, calls: nat, id: string, parent: Thread)
    requires AllFound(ids, next, frontier, given, local, known, list, calls) && |frontier| == given + |ids|
    requires id !in next && !local(id) && Wanted(id, frontier, |frontier|) && Had(id, parent, known, list, calls)
    ensures AllFound(ids + [id], next[id := parent], frontier + [parent], given, local, known, list, calls)
  {
    var more, longer, added := next[id := parent], frontier + [parent], ids + [id];
    forall k | 0 <= k < |added| ensures FoundAt(added, k, more, longer, given, local, known, list, calls) {
      if k < |ids| {
        assert FoundAt(ids, k, next, frontier, given, local, known, list, calls);
        assert added[..k] == ids[..k];
        WantedStill(ids[k], frontier, parent, given + k);
      } else {
        assert added[..k] == ids;
        WantedStill(id, frontier, parent, |frontier|);
        NewId(ids, next, frontier, given, local, known, list, calls, id);
      }
    }
  }

  lemma WantedStill(id: string, frontier: seq<Thread>, parent: Thread, end: nat)
    requires Wanted(id, frontier, end)
    ensures Wanted(id, frontier + [parent], end)
  {
    var j :| 0 <= j < end <= |frontier| && ParentOf(frontier[j]) == Some(id);
    assert (frontier + [parent])[j] == frontier[j];
  }

  lemma NewId(ids: seq<string>, next: map<string, Thread>, frontier: seq<Thread>, given: nat, local: string -> bool, known: map<string, Thread>,
              list: Directory, calls: nat, id: string)
    requires AllFound(ids, next, frontier, given, local, known, list, calls) && id !in next
    ensures id !in ids
  {
    forall k | 0 <= k < |ids| ensures ids[k] != id { assert FoundAt(ids, k, next, frontier, given, local, known, list, calls); }
  }
}
