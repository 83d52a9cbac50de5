/**
 * The supervisor's object (apps/remote/server/inline-images.ts, class `InlineImages`).  Every method performs
 * events of the protocol: its effect is a run of steps, so the theorems over all runs apply to it.
 */
module InlineImageService {
  import opened Options
  import opened InlineImageGraph
  import opened InlineImageProtocol

  // ---------------------------------------------------------------- what resolution leaves behind

  /** Nothing queued refers to a failed or missing image, waiting lists are exact, and no references run in a circle. */
  ghost predicate Exact(images: Images) {
    && Acyclic(images)
    && forall id :: HasState(images, id, Queued) ==>
         Settled(images, id) && images[id].waitingFor == Incomplete(images, IdRefs(images[id].refs))
  }

  lemma ResolvedIsExact(before: Session, after: Session)
    requires Resolved(before, after)
    ensures Exact(after.images)
  {
    forall id | HasState(after.images, id, Queued)
      ensures Settled(after.images, id) && after.images[id].waitingFor == Incomplete(after.images, IdRefs(after.images[id].refs))
    {
      ResolvedIsSettled(before, after, id);
    }
  }

  lemma ClaimKeepsExact(images: Images, id: string)
    requires Exact(images) && HasState(images, id, Queued)
    ensures Exact(images[id := ClaimedImage(images[id])])
  {
    var images' := images[id := ClaimedImage(images[id])];
    var order :| Ordered(images, order) && Covers(images, order);
    forall i | 0 <= i < |order| ensures Placed(images', order, i) { assert Placed(images, order, i); }
    assert Ordered(images', order) && Covers(images', order);
    forall x | HasState(images', x, Queued)
      ensures Settled(images', x) && images'[x].waitingFor == Incomplete(images', IdRefs(images'[x].refs))
    {
      assert HasState(images, x, Queued);
      SameIncomplete(images, images', IdRefs(images[x].refs));
    }
  }

  /** With nothing generating, an exact store with work in it has an image that waits for nothing. */
  lemma ExactHasReady(images: Images, start: string)
    requires Exact(images) && HasState(images, start, Queued)
    requires forall id :: !HasState(images, id, Generating)
    ensures exists id :: HasState(images, id, Queued) && images[id].waitingFor == []
  {
    var order :| Ordered(images, order) && Covers(images, order);
    var i := FirstQueued(images, order, First(order, start));
    LeastIsReady(images, order, i);
  }

  /** The image ids of one session in row order, and the sessions in row order. */
  function IdsOf(order: seq<Key>, s: string): (ids: seq<string>)
    ensures forall id :: id in ids <==> (s, id) in order
  {
    if order == [] then []
    else (if order[0].0 == s then [order[0].1] else []) + IdsOf(order[1..], s)
  }

  function SessionsOf(order: seq<Key>): (ids: seq<string>)
    ensures forall s :: s in ids <==> exists k :: k in order && k.0 == s
  {
    if order == [] then [] else
      var rest := SessionsOf(order[..|order| - 1]);
      var last := order[|order| - 1];
      assert forall k :: k in order <==> k in order[..|order| - 1] || k == last;
      if last.0 in rest then rest else rest + [last.0]
  }

  // ---------------------------------------------------------------- facts about reachable worlds

  lemma RowsAreIndexed(concurrency: nat, w: World)
    requires Reaches(Initial(concurrency), w)
    ensures Listed(w)
  {
    ReachableInv(concurrency, w);
  }

  lemma ReferencesNonempty(concurrency: nat, w: World, s: string)
    requires Reaches(Initial(concurrency), w) && s in w.sessions
    ensures RefsNonempty(w.sessions[s].images)
  {
    ReachableInv(concurrency, w);
    forall id | HasState(w.sessions[s].images, id, Queued) ensures "" !in w.sessions[s].images[id].refs {
      assert RowTrue(w.sessions, w.receipts, (s, id));
    }
  }

  lemma TagsAccepted(concurrency: nat, w: World, s: string, message: string, tags: seq<Tag>)
    requires Reaches(Initial(concurrency), w) && s in w.sessions && Parsed(tags)
    ensures
      var w' := AcceptTags(AcceptMessage(w, s, message), s, tags);
      s in w'.sessions && RefsNonempty(w'.sessions[s].images) && Listed(w')
  {
    ReachableInv(concurrency, w);
    MessageKeeps(w, s, message);
    AcceptTagsAccepting(AcceptMessage(w, s, message), s, tags);
    var w' := AcceptTags(AcceptMessage(w, s, message), s, tags);
    forall id | HasState(w'.sessions[s].images, id, Queued) ensures "" !in w'.sessions[s].images[id].refs {
      assert RowSound(w'.sessions, w'.receipts, (s, id));
    }
  }

  /** Every thread with queued images has one generating. */
  ghost predicate NoneStandsStill(ss: Sessions) {
    forall s, id :: s in ss && HasState(ss[s].images, id, Queued) ==> exists g :: HasState(ss[s].images, g, Generating)
  }

  lemma NothingStandsStill(w: World)
    requires Listed(w) && AllExact(w.sessions)
    requires forall k :: k in w.order ==> !Ready(w.sessions, k)
    ensures NoneStandsStill(w.sessions)
  {
    forall s, id | s in w.sessions && HasState(w.sessions[s].images, id, Queued)
      ensures exists g :: HasState(w.sessions[s].images, g, Generating)
    {
      assert forall x :: x in w.sessions[s].images ==> HasRow(w.sessions, (s, x)) && !Ready(w.sessions, (s, x));
      if forall g :: !HasState(w.sessions[s].images, g, Generating) {
        ExactHasReady(w.sessions[s].images, id);
        assert false;
      }
    }
  }

  lemma EmptyIsExact(images: Images)
    requires images == map[]
    ensures Exact(images)
  {
    var none: seq<string> := [];
    assert Ordered(images, none) && Covers(images, none);
  }

  /** `rows()` lists the rows there are. */
  ghost predicate Listed(w: World) {
    forall k :: k in w.order <==> HasRow(w.sessions, k)
  }

  ghost predicate AllExact(ss: Sessions) {
    forall s :: s in ss ==> Exact(ss[s].images)
  }

  ghost predicate ExactUpTo(ss: Sessions, ids: seq<string>, i: nat) {
    i <= |ids| && forall j :: 0 <= j < i ==> ids[j] in ss && Exact(ss[ids[j]].images)
  }

  lemma ResolvedNext(before: Sessions, after: Sessions, ids: seq<string>, i: nat)
    requires ExactUpTo(before, ids, i) && i < |ids| && after.Keys == before.Keys && ids[i] in after && Exact(after[ids[i]].images)
    requires forall r :: r in before && r != ids[i] ==> after[r] == before[r]
    ensures ExactUpTo(after, ids, i + 1)
  {}

  lemma ResolvedAll(w: World, ids: seq<string>)
    requires Listed(w) && ExactUpTo(w.sessions, ids, |ids|) && forall s :: s in w.sessions && s !in ids ==> forall k :: k in w.order ==> k.0 != s
    ensures AllExact(w.sessions)
  {
    forall s | s in w.sessions ensures Exact(w.sessions[s].images) {
      if s !in ids {
        forall id ensures id !in w.sessions[s].images { assert HasRow(w.sessions, (s, id)) <==> (s, id) in w.order; }
        EmptyIsExact(w.sessions[s].images);
      }
    }
  }

  /** The claim loop has passed the first `i` rows. */
  ghost predicate Scanned(start: World, w: World, i: nat) {
    && Reaches(start, w) && i <= |w.order|
    && Listed(w) && AllExact(w.sessions)
    && forall j :: 0 <= j < i ==> !Ready(w.sessions, w.order[j])
  }

  lemma RowIsThere(start: World, w: World, i: nat)
    requires Scanned(start, w, i) && i < |w.order|
    ensures HasRow(w.sessions, w.order[i])
    ensures !Ready(w.sessions, w.order[i]) ==> Scanned(start, w, i + 1)
  {
    assert w.order[i] in w.order;
  }

  lemma ScannedAll(start: World, w: World)
    requires Scanned(start, w, |w.order|)
    ensures NoneStandsStill(w.sessions)
  {
    NothingStandsStill(w);
  }

  lemma DidClaim(start: World, w: World, i: nat)
    requires Scanned(start, w, i) && i < |w.order| && Ready(w.sessions, w.order[i])
    requires !w.stopped && w.owner && |w.active| < w.concurrency
    ensures Scanned(start, ClaimRow(w, w.order[i]), i + 1)
  {
    var k := w.order[i];
    var w' := ClaimRow(w, k);
    ReachesStep(start, w, Claim(k), w');
    ClaimKeepsExact(w.sessions[k.0].images, k.1);
    SavedFacts(w.sessions, k, ClaimedImage(Row(w.sessions, k)));
  }

  lemma DidResolve(concurrency: nat, start: World, before: World, s: string, after: World)
    requires Reaches(Initial(concurrency), before) && Reaches(start, before) && ResolvesTo(before, s, after)
    ensures Reaches(Initial(concurrency), after) && Reaches(start, after) && Exact(after.sessions[s].images)
    ensures after.sessions.Keys == before.sessions.Keys
    ensures forall r :: r in before.sessions && r != s ==> after.sessions[r] == before.sessions[r]
  {
    ReachesStep(start, before, ResolveSession(s), after);
    ReachesStep(Initial(concurrency), before, ResolveSession(s), after);
    ResolvedIsExact(before.sessions[s], after.sessions[s]);
  }

  /** An event of the protocol, seen from the object's invariant. */
  lemma Did(concurrency: nat, w: World, e: Event, w': World)
    requires Reaches(Initial(concurrency), w) && Next(w, e, w')
    ensures Reaches(Initial(concurrency), w') && Reaches(w, w')
  {
    ReachesSelf(w);
    ReachesStep(w, w, e, w');
    ReachesStep(Initial(concurrency), w, e, w');
  }

  lemma DidStart(concurrency: nat, w: World)
    requires Reaches(Initial(concurrency), w) && w.recovering && w.stale == map[]
    ensures Reaches(w, Started(w)) && Reaches(Initial(concurrency), Started(w))
  {
    Did(concurrency, w, Start, Started(w));
  }

  lemma DidRead(concurrency: nat, w: World, w': World)
    requires Reaches(Initial(concurrency), w) && w.stopped && !w.recovering && w' == w.(recovering := true, stale := GeneratingRows(w))
    ensures Next(w, ReadRows, w') && Reaches(Initial(concurrency), w')
  {
    Did(concurrency, w, ReadRows, w');
  }

  lemma DidLook(concurrency: nat, w: World, k: Key, w': World)
    requires Reaches(Initial(concurrency), w) && k in w.stale && w.stale[k].receipt.None? && w' == w.(stale := w.stale[k := ReceiptRead(w, k)])
    ensures Next(w, ReadReceipt(k), w') && Reaches(Initial(concurrency), w')
  {
    Did(concurrency, w, ReadReceipt(k), w');
  }

  lemma DidRecover(concurrency: nat, w: World, k: Key, w': World)
    requires Reaches(Initial(concurrency), w) && k in w.stale && w.stale[k].receipt.Some? && w' == RecoverRow(w, k)
    ensures Next(w, Recover(k), w') && Reaches(Initial(concurrency), w')
  {
    Did(concurrency, w, Recover(k), w');
  }

  lemma DidThrow(concurrency: nat, w: World, t: nat, w': World)
    requires Reaches(Initial(concurrency), w) && t in w.tasks && w.tasks[t].phase != Ended && ThrownCode(w.tasks[t].phase) == InputError
    requires w' == Move(Finished(w, t, FailWith(InputError)), t, Ended)
    ensures Next(w, Throw(t), w') && Reaches(Initial(concurrency), w')
  {
    Did(concurrency, w, Throw(t), w');
  }

  lemma DidMake(concurrency: nat, w: World, t: nat, w': World)
    requires Reaches(Initial(concurrency), w) && At(w, t, Claimed) && w.tasks[t].key !in w.directories
    requires w' == Move(w, t, Prepared).(directories := w.directories + {w.tasks[t].key})
    ensures Next(w, MakeDirectory(t), w') && Reaches(Initial(concurrency), w')
  {
    Did(concurrency, w, MakeDirectory(t), w');
  }

  lemma DidSource(concurrency: nat, w: World, t: nat, w': World)
    requires Reaches(Initial(concurrency), w) && At(w, t, Prepared) && SourcesReady(w, t) && w' == Move(w, t, Sourced)
    ensures Next(w, ReadSources(t), w') && Reaches(Initial(concurrency), w')
  {
    Did(concurrency, w, ReadSources(t), w');
  }

  lemma DidCall(concurrency: nat, w: World, t: nat, w': World)
    requires Reaches(Initial(concurrency), w) && At(w, t, Sourced) && Live(w, t) && w' == CallingOrEnded(w, t)
    ensures Next(w, CallProvider(t), w') && Reaches(Initial(concurrency), w')
  {
    Did(concurrency, w, CallProvider(t), w');
  }

  lemma DidAccept(concurrency: nat, w: World, s: string, message: string, tags: seq<Tag>, w': World)
    requires Reaches(Initial(concurrency), w) && s in w.sessions && message !in w.sessions[s].messages && Parsed(tags)
    requires ResolvesTo(AcceptTags(AcceptMessage(w, s, message), s, tags), s, w')
    ensures Next(w, InlineImageProtocol.Accept(s, message, tags), w') && Reaches(Initial(concurrency), w')
  {
    Did(concurrency, w, InlineImageProtocol.Accept(s, message, tags), w');
  }

  lemma DidReap(concurrency: nat, w: World, t: nat, w': World)
    requires Reaches(Initial(concurrency), w) && At(w, t, Ended) && w' == Reaped(w, t)
    ensures Reaches(w, w') && Reaches(Initial(concurrency), w')
  {
    Did(concurrency, w, Reap(t), w');
  }

  class InlineImages {
    var sessions: map<string, Session>
    var order: seq<Key>
    var directories: set<Key>
    var receipts: map<Key, Output>
    const concurrency: nat
    var instance: nat
    var stopped: bool
    var owner: bool
    var pumping: bool
    var scheduled: bool
    var active: set<Key>
    var tasks: map<nat, Task>
    var nextTask: nat
    var recovering: bool
    var stale: map<Key, Stale>
    ghost var nextEpoch: nat
    ghost var deletions: nat
    ghost var reclaims: nat
    ghost var calls: seq<Key>
    ghost var asked: map<Key, Request>

    ghost function View(): World
      reads this
    {
      World(sessions, order, directories, receipts, concurrency, instance, stopped, owner, active, tasks, nextTask,
            recovering, stale, nextEpoch, deletions, reclaims, calls, asked)
    }

    /** The object is in a state that some run of the protocol reaches. */
    ghost predicate Valid()
      reads this
    {
      Reaches(Initial(concurrency), View())
    }

    constructor (concurrency: nat)
      requires 1 <= concurrency <= 8
      ensures Valid() && !pumping && View() == Initial(concurrency)
    {
      sessions, order, directories, receipts := map[], [], {}, map[];
      this.concurrency := concurrency;
      instance, stopped, owner, pumping, scheduled := 0, true, true, false, false;
      active, tasks, nextTask, recovering, stale := {}, map[], 0, false, map[];
      nextEpoch, deletions, reclaims, calls, asked := 0, 0, 0, [], map[];
      new;
      ReachesSelf(View());
    }

    method Save(k: Key, image: Image) returns (saved: bool)
      modifies this`sessions, this`order
      ensures View() == SaveRow(old(View()), k, image) && saved == (k.0 in old(sessions))
    {
      saved := k.0 in sessions;
      if saved {
        if k.1 !in sessions[k.0].images { order := order + [k]; }
        sessions := sessions[k.0 := Saved(sessions[k.0], k.1, image)];
      }
    }

    method ResolveDependencies(s: string)
      requires s in sessions && RefsNonempty(sessions[s].images)
      requires Listed(View())
      modifies this`sessions
      ensures ResolvesTo(old(View()), s, View())
    {
      var ids := IdsOf(order, s);
      forall id ensures id in ids <==> id in sessions[s].images { assert (s, id) in order <==> HasRow(sessions, (s, id)); }
      var after := Resolve(sessions[s], ids);
      sessions := sessions[s := after];
    }

    /** The loop over the tags of a message. */
    method AcceptDefinitions(s: string, tags: seq<Tag>)
      requires s in sessions
      modifies this`sessions, this`order
      ensures View() == AcceptTags(old(View()), s, tags) && s in sessions
    {
      ghost var start := View();
      for i := 0 to |tags|
        invariant View() == AcceptTags(start, s, tags[..i]) && s in sessions
      {
        assert tags[..i + 1][..|tags[..i + 1]| - 1] == tags[..i];
        var tag := tags[i];
        if tag.definition.Some? && ValidId(tag.id) {
          var k := (s, tag.id);
          if k.1 in sessions[s].images {
            var existing := sessions[s].images[k.1];
            if Redefines(tag, tag.id, existing) && !existing.conflict { var _ := Save(k, existing.(conflict := true)); }
          } else {
            var _ := Save(k, NewImage(tag.definition.value, tag.invalid));
          }
        }
      }
      assert tags[..|tags|] == tags;
    }

    /** One transaction: definitions enter custody with their dependencies resolved, or nothing changes. */
    method Accept(s: string, message: string, tags: seq<Tag>, acceptsThread: bool, mentionsTag: bool)
      requires Valid() && Parsed(tags)
      modifies this`sessions, this`order, this`scheduled
      ensures Valid()
      ensures
        if acceptsThread && mentionsTag && s in old(sessions) && message !in old(sessions)[s].messages
        then Next(old(View()), InlineImageProtocol.Accept(s, message, tags), View()) && scheduled
        else View() == old(View())
    {
      if !acceptsThread || !mentionsTag || s !in sessions || message in sessions[s].messages { return; }
      ghost var start := View();
      AcceptNew(s, message, tags);
      scheduled := true;
      DidAccept(concurrency, start, s, message, tags, View());
    }

    /** The transaction of a message not seen before. */
    method AcceptNew(s: string, message: string, tags: seq<Tag>)
      requires Valid() && Parsed(tags) && s in sessions
      modifies this`sessions, this`order
      ensures s in old(sessions) && ResolvesTo(AcceptTags(AcceptMessage(old(View()), s, message), s, tags), s, View())
    {
      ghost var start := View();
      sessions := sessions[s := sessions[s].(messages := sessions[s].messages + {message})];
      assert View() == AcceptMessage(start, s, message);
      AcceptDefinitions(s, tags);
      TagsAccepted(concurrency, start, s, message, tags);
      ResolveDependencies(s);
    }

    /** Claims every ready image that fits.  Afterwards no thread with queued images stands still. */
    method Pump()
      requires Valid()
      modifies this`sessions, this`order, this`active, this`tasks, this`nextTask, this`reclaims, this`pumping
      ensures Valid() && Reaches(old(View()), View()) && pumping == old(pumping)
      ensures old(stopped || !owner || pumping) ==> View() == old(View())
      ensures !old(stopped || !owner || pumping) ==> |active| >= concurrency || NoneStandsStill(sessions)
    {
      ghost var start := View();
      ReachesSelf(start);
      if stopped || !owner || pumping { return; }
      pumping := true;
      ResolveAll(start);
      ReachesTransitive(Initial(concurrency), start, View());
      RowsAreIndexed(concurrency, View());
      ClaimReady(start);
      pumping := false;
      ReachesTransitive(Initial(concurrency), start, View());
    }

    /** The second half of `pump`: claims in row order until the slots are full. */
    method ClaimReady(ghost start: World)
      requires Reaches(start, View()) && !stopped && owner
      requires Listed(View()) && AllExact(sessions)
      modifies this`sessions, this`order, this`active, this`tasks, this`nextTask, this`reclaims
      ensures Reaches(start, View()) && order == old(order)
      ensures |active| >= concurrency || NoneStandsStill(sessions)
    {
      var rows := order;
      var i := 0;
      while i < |rows| && |active| < concurrency
        invariant i <= |rows| && order == rows && Scanned(start, View(), i) && !stopped && owner
      {
        ClaimNext(start, i);
        i := i + 1;
      }
      if |active| < concurrency { ScannedAll(start, View()); }
    }

    method ClaimNext(ghost start: World, i: nat)
      requires Scanned(start, View(), i) && i < |order| && !stopped && owner && |active| < concurrency
      modifies this`sessions, this`order, this`active, this`tasks, this`nextTask, this`reclaims
      ensures Scanned(start, View(), i + 1) && order == old(order)
    {
      var k := order[i];
      RowIsThere(start, View(), i);
      var image := sessions[k.0].images[k.1];
      if image.state == Queued && image.waitingFor == [] {
        DidClaim(start, View(), i);
        ClaimOne(k, image);
      }
    }

    /** The first half of `pump`: every session with rows is resolved. */
    method ResolveAll(ghost start: World)
      requires Valid() && Reaches(start, View())
      modifies this`sessions
      ensures Reaches(start, View())
      ensures AllExact(sessions)
    {
      ghost var first := View();
      var ids := SessionsOf(order);
      RowsAreIndexed(concurrency, View());
      assert forall s :: s in ids ==> s in sessions;
      for i := 0 to |ids|
        invariant Valid() && Reaches(start, View()) && order == first.order
        invariant sessions.Keys == first.sessions.Keys && ExactUpTo(sessions, ids, i)
      {
        ghost var before := View();
        ReferencesNonempty(concurrency, before, ids[i]);
        RowsAreIndexed(concurrency, before);
        ResolveDependencies(ids[i]);
        DidResolve(concurrency, start, before, ids[i], View());
        ResolvedNext(before.sessions, sessions, ids, i);
      }
      RowsAreIndexed(concurrency, View());
      ResolvedAll(View(), ids);
    }

    /** A durable claim, before any other effect of the job. */
    method ClaimOne(k: Key, image: Image)
      requires HasRow(sessions, k) && image == Row(sessions, k)
      modifies this`sessions, this`order, this`active, this`tasks, this`nextTask, this`reclaims
      ensures View() == ClaimRow(old(View()), k) && order == old(order)
    {
      var saved := Save(k, ClaimedImage(image));
      if saved { Enlist(Task(k, image, instance, sessions[k.0].epoch, Claimed)); }
    }

    method Enlist(task: Task)
      modifies this`active, this`tasks, this`nextTask, this`reclaims
      ensures View() == old(View()).(active := old(active) + {task.key}, nextTask := old(nextTask) + 1, tasks := old(tasks)[old(nextTask) := task],
                                     reclaims := old(reclaims) + if task.key in old(active) then 1 else 0)
    {
      if task.key in active { reclaims := reclaims + 1; }
      active := active + {task.key};
      tasks := tasks[nextTask := task];
      nextTask := nextTask + 1;
    }

    /** `start`, up to its first await: the rows that the last supervisor left generating are read at once. */
    method BeginStart()
      requires Valid() && stopped && !recovering
      modifies this`recovering, this`stale
      ensures Valid() && Next(old(View()), ReadRows, View())
    {
      ghost var before := View();
      stale := ReadGenerating();
      recovering := true;
      DidRead(concurrency, before, View());
    }

    method ReadGenerating() returns (found: map<Key, Stale>)
      ensures found == GeneratingRows(View())
    {
      found := map[];
      for i := 0 to |order|
        invariant found == map k | k in order[..i] && HasRow(sessions, k) && Row(sessions, k).state == Generating
          :: Stale(Row(sessions, k), sessions[k.0].epoch, None)
      {
        var k := order[i];
        assert order[..i + 1] == order[..i] + [k];
        if k.0 in sessions && k.1 in sessions[k.0].images && sessions[k.0].images[k.1].state == Generating {
          found := found[k := Stale(sessions[k.0].images[k.1], sessions[k.0].epoch, None)];
        }
      }
      assert order[..|order|] == order;
    }

    /** `recover`: the receipt of one row, if there is one by now. */
    method LookForReceipt(k: Key)
      requires Valid() && k in stale && stale[k].receipt.None?
      modifies this`stale
      ensures Valid() && Next(old(View()), ReadReceipt(k), View())
    {
      ghost var before := View();
      var found: Option<Output> := if stale[k].image.attempted && k in receipts then Some(receipts[k]) else None;
      stale := stale[k := stale[k].(receipt := Some(found))];
      DidLook(concurrency, before, k, View());
    }

    /** The row as it was read is written: complete with its receipt, or interrupted. */
    method WriteRecovered(k: Key)
      requires Valid() && k in stale && stale[k].receipt.Some?
      modifies this`sessions, this`order, this`stale
      ensures Valid() && Next(old(View()), Recover(k), View())
    {
      ghost var before := View();
      var attempted := k.0 in sessions && k.1 in sessions[k.0].images && sessions[k.0].images[k.1].attempted;
      var image := stale[k].image;
      if stale[k].receipt.value.Some? {
        image := CompletedImage(image, stale[k].receipt.value.value);
      } else {
        image := FailedImage(image, Interrupted);
      }
      StoreRecovered(k, image.(attempted := attempted));
      DidRecover(concurrency, before, k, View());
    }

    method StoreRecovered(k: Key, image: Image)
      requires k in stale && image == Reconciled(sessions, k, stale[k])
      modifies this`sessions, this`order, this`stale
      ensures View() == RecoverRow(old(View()), k)
    {
      var _ := Save(k, image);
      stale := stale - {k};
    }

    /** Only when every row is reconciled does the new supervisor begin to pump. */
    method CompleteStart()
      requires Valid() && recovering && stale == map[] && !pumping
      modifies this
      ensures Valid() && Reaches(old(View()), View()) && !stopped && !pumping
    {
      ghost var start := View();
      TakeOver();
      DidStart(concurrency, start);
      ghost var middle := View();
      Pump();
      ReachesTransitive(start, middle, View());
    }

    method TakeOver()
      modifies this`stopped, this`recovering, this`instance, this`active
      ensures View() == Started(old(View()))
    {
      stopped, recovering, instance, active := false, false, instance + 1, {};
    }

    /** In-flight rows stay generating until the next owner reconciles them. */
    method StopSupervisor()
      requires Valid()
      modifies this`stopped
      ensures Valid() && Next(old(View()), Stop, View())
    {
      ghost var before := View();
      stopped := true;
      ReachesStep(Initial(concurrency), before, Stop, View());
    }

    /** `finish`, then the end of the job. */
    method FinishTask(t: nat, image: Image -> Image)
      requires t in tasks
      modifies this`sessions, this`order, this`tasks
      ensures View() == Move(Finished(old(View()), t, image), t, Ended)
    {
      var k := tasks[t].key;
      if !stopped && tasks[t].instance == instance && owner && k.0 in sessions && k.1 in sessions[k.0].images {
        var current := sessions[k.0].images[k.1];
        if current.state == Generating { var _ := Save(k, image(current)); }
      }
      tasks := tasks[t := tasks[t].(phase := Ended)];
    }

    predicate SourcesExist(task: Task)
      reads this
    {
      forall r :: r in IdRefs(task.image.refs) ==>
        task.key.0 in sessions && r in sessions[task.key.0].images && sessions[task.key.0].images[r].output.Some?
    }

    /** The first await of `run`: an attempt directory that exists already belongs to an earlier attempt. */
    method MakeAttemptDirectory(t: nat)
      requires Valid() && At(View(), t, Claimed)
      modifies this`directories, this`tasks, this`sessions, this`order
      ensures Valid()
      ensures Next(old(View()), if old(tasks)[t].key in old(directories) then Throw(t) else MakeDirectory(t), View())
    {
      ghost var before := View();
      if tasks[t].key in directories {
        FinishTask(t, FailWith(InputError));
        DidThrow(concurrency, before, t, View());
      } else {
        TakeDirectory(t);
        DidMake(concurrency, before, t, View());
      }
    }

    method TakeDirectory(t: nat)
      requires t in tasks
      modifies this`directories, this`tasks
      ensures View() == Move(old(View()), t, Prepared).(directories := old(directories) + {old(tasks)[t].key})
    {
      directories := directories + {tasks[t].key};
      tasks := tasks[t := tasks[t].(phase := Prepared)];
    }

    method ReadInputs(t: nat)
      requires Valid() && At(View(), t, Prepared)
      modifies this`tasks, this`sessions, this`order
      ensures Valid()
      ensures Next(old(View()), if old(SourcesExist(tasks[t])) then ReadSources(t) else Throw(t), View())
    {
      ghost var before := View();
      if SourcesExist(tasks[t]) {
        SnapshotInputs(t);
        DidSource(concurrency, before, t, View());
      } else {
        FinishTask(t, FailWith(InputError));
        DidThrow(concurrency, before, t, View());
      }
    }

    method SnapshotInputs(t: nat)
      requires t in tasks
      modifies this`tasks
      ensures View() == Move(old(View()), t, Sourced)
    {
      tasks := tasks[t := tasks[t].(phase := Sourced)];
    }

    /** The provider is called by a live owner for a row that still exists, and never a second time for its key. */
    method Generate(t: nat) returns (called: bool)
      requires Valid() && At(View(), t, Sourced)
      modifies this`tasks, this`sessions, this`order, this`calls, this`asked
      ensures Valid()
      ensures Next(old(View()), if old(Live(View(), t)) then CallProvider(t) else Throw(t), View())
      ensures called == old(Live(View(), t) && owner && HasRow(sessions, tasks[t].key))
      ensures calls == if called then old(calls) + [old(tasks)[t].key] else old(calls)
      ensures called ==> old(tasks)[t].key !in old(calls) && asked == old(asked)[old(tasks)[t].key := Asking(old(tasks)[t])]
    {
      ghost var before := View();
      NeverCalledBefore(concurrency, before, t);
      if stopped || tasks[t].instance != instance {
        called := false;
        FinishTask(t, FailWith(InputError));
        DidThrow(concurrency, before, t, View());
      } else {
        called := CallIfOwned(t);
        DidCall(concurrency, before, t, View());
      }
    }

    method CallIfOwned(t: nat) returns (called: bool)
      requires t in tasks
      modifies this`tasks, this`calls, this`asked
      ensures View() == CallingOrEnded(old(View()), t)
      ensures called == old(owner && HasRow(sessions, tasks[t].key))
      ensures calls == if called then old(calls) + [old(tasks)[t].key] else old(calls)
      ensures called ==> asked == old(asked)[old(tasks)[t].key := Asking(old(tasks)[t])]
    {
      var task := tasks[t];
      called := owner && task.key.0 in sessions && task.key.1 in sessions[task.key.0].images;
      if called { calls, asked := calls + [task.key], asked[task.key := Asking(task)]; }
      tasks := tasks[t := task.(phase := if called then Called else Ended)];
    }

    /** `.finally`: the slot is freed, and a live supervisor pumps again. */
    method ReapTask(t: nat)
      requires Valid() && At(View(), t, Ended) && !pumping
      modifies this
      ensures Valid() && Reaches(old(View()), View())
    {
      ghost var before := View();
      var mine := tasks[t].instance == instance;
      FreeSlot(t);
      DidReap(concurrency, before, t, View());
      ghost var middle := View();
      if !stopped && mine {
        Pump();
        ReachesTransitive(before, middle, View());
      }
    }

    method FreeSlot(t: nat)
      requires t in tasks
      modifies this`tasks, this`active
      ensures View() == Reaped(old(View()), t)
    {
      if tasks[t].instance == instance { active := active - {tasks[t].key}; }
      tasks := tasks - {t};
    }
  }

  lemma NeverCalledBefore(concurrency: nat, w: World, t: nat)
    requires Reaches(Initial(concurrency), w) && At(w, t, Sourced)
    ensures w.tasks[t].key !in w.calls
  {
    ReachableInv(concurrency, w);
    assert TaskOk(w.calls, w.directories, w.receipts, w.tasks[t]);
  }
}
