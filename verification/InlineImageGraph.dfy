/**
 * Dependency resolution of one thread's inline images
 * (apps/remote/server/inline-images.ts, `resolveDependencies`).
 *
 * The executable part is the memoised depth-first search and the failure fixpoint, written as
 * the loops of the source.  Its specification does not mention either: an image is `Doomed` when
 * some chain of references through queued images ends in a missing, failed or repeated image.
 */
module InlineImageGraph {
  import opened Options

  datatype State = Queued | Generating | Complete | Error

  datatype ErrorCode =
    | InvalidDefinition | MissingDependency | DependencyCycle | DependencyFailed
    | InputError | ProviderError | Interrupted | PublicationError

  /** The published artifact of a completed image. */
  datatype Output = Output(path: string, responseId: string)

  /** A row of `inline_images`; `attempted` says that `attempt_dir` is set. */
  datatype Image = Image(
    prompt: string,
    refs: seq<string>,
    state: State,
    waitingFor: seq<string>,
    error: Option<ErrorCode>,
    conflict: bool,
    output: Option<Output>,
    attempted: bool)

  type Images = map<string, Image>

  /** One thread: its rows, its version counter and the messages already accepted. */
  datatype Session = Session(epoch: nat, images: Images, version: nat, messages: set<string>)

  // ---------------------------------------------------------------- references

  /** References starting with a slash are file paths, the others are image ids. */
  predicate IsPath(ref: string) {
    |ref| > 0 && ref[0] == '/'
  }

  function IdRefs(refs: seq<string>): (ids: seq<string>)
    ensures forall r :: r in ids <==> r in refs && !IsPath(r)
  {
    if refs == [] then []
    else if IsPath(refs[0]) then IdRefs(refs[1..])
    else [refs[0]] + IdRefs(refs[1..])
  }

  predicate HasState(images: Images, id: string, state: State) {
    id in images && images[id].state == state
  }

  /** The references an image still waits for, in the order they were written. */
  function Incomplete(images: Images, ids: seq<string>): (waiting: seq<string>)
    ensures forall r :: r in waiting <==> r in ids && !HasState(images, r, Complete)
  {
    if ids == [] then []
    else if HasState(images, ids[0], Complete) then Incomplete(images, ids[1..])
    else [ids[0]] + Incomplete(images, ids[1..])
  }

  /** Id references and waiting lists keep the order in which the references were written, and repetitions. */
  lemma ReferencesKeepOrder(images: Images, a: seq<string>, b: seq<string>)
    ensures IdRefs(a + b) == IdRefs(a) + IdRefs(b) && Incomplete(images, a + b) == Incomplete(images, a) + Incomplete(images, b)
    ensures forall r: string :: IdRefs([r]) == if r != "" && r[0] == '/' then [] else [r]
    ensures forall r: string :: Incomplete(images, [r]) == if r in images && images[r].state == Complete then [] else [r]
  {
    forall r: string ensures IdRefs([r]) == if r != "" && r[0] == '/' then [] else [r] { assert [r][1..] == []; }
    forall r: string ensures Incomplete(images, [r]) == if r in images && images[r].state == Complete then [] else [r] { assert [r][1..] == []; }
    IdRefsAdd(a, b);
    IncompleteAdds(images, a, b);
  }

  lemma {:induction false} IdRefsAdd(a: seq<string>, b: seq<string>)
    ensures IdRefs(a + b) == IdRefs(a) + IdRefs(b)
  {
    if a == [] {
      assert a + b == b;
    } else {
      assert (a + b)[1..] == a[1..] + b;
      IdRefsAdd(a[1..], b);
    }
  }

  lemma {:induction false} IncompleteAdds(images: Images, a: seq<string>, b: seq<string>)
    ensures Incomplete(images, a + b) == Incomplete(images, a) + Incomplete(images, b)
  {
    if a == [] {
      assert a + b == b;
    } else {
      assert (a + b)[1..] == a[1..] + b;
      IncompleteAdds(images, a[1..], b);
    }
  }

  /** JavaScript `find`: an absent result and an empty string are both falsy. */
  function FirstMissing(images: Images, ids: seq<string>): (ref: string)
    ensures ref != "" ==> ref in ids && ref !in images
    ensures ref == "" && "" !in ids ==> forall r :: r in ids ==> r in images
  {
    if ids == [] then ""
    else if ids[0] !in images then ids[0]
    else FirstMissing(images, ids[1..])
  }

  function FirstFailed(images: Images, ids: seq<string>): (ref: string)
    ensures ref != "" ==> ref in ids && HasState(images, ref, Error)
    ensures ref == "" && "" !in ids ==> forall r :: r in ids ==> !HasState(images, r, Error)
  {
    if ids == [] then ""
    else if HasState(images, ids[0], Error) then ids[0]
    else FirstFailed(images, ids[1..])
  }

  /** What tag validation guarantees of a queued definition: no reference is the empty string. */
  ghost predicate RefsNonempty(images: Images) {
    forall id :: HasState(images, id, Queued) ==> "" !in images[id].refs
  }

  // ---------------------------------------------------------------- the declarative reading

  ghost predicate Edge(images: Images, a: string, b: string) {
    HasState(images, a, Queued) && b in IdRefs(images[a].refs)
  }

  /** A chain of references in which every image but the last is queued. */
  ghost predicate Walk(images: Images, w: seq<string>) {
    |w| > 0 && forall i :: 0 <= i < |w| - 1 ==> Link(images, w, i)
  }

  ghost predicate Link(images: Images, w: seq<string>, i: int) {
    0 <= i < |w| - 1 && Edge(images, w[i], w[i + 1])
  }

  ghost predicate EndsInCycle(w: seq<string>) {
    |w| > 1 && w[|w| - 1] in w[..|w| - 1]
  }

  ghost predicate DeadEnd(images: Images, w: seq<string>) {
    |w| > 1 && (w[|w| - 1] !in images || HasState(images, w[|w| - 1], Error) || EndsInCycle(w))
  }

  ghost predicate ReachesCycle(images: Images, id: string) {
    exists w :: Walk(images, w) && w[0] == id && EndsInCycle(w)
  }

  /** No schedule can ever complete this image. */
  ghost predicate Doomed(images: Images, id: string) {
    exists w :: Walk(images, w) && w[0] == id && DeadEnd(images, w)
  }

  /** Along `order` every queued image comes after its queued references. */
  ghost predicate Ordered(images: Images, order: seq<string>) {
    forall i :: 0 <= i < |order| ==> Placed(images, order, i)
  }

  ghost predicate Placed(images: Images, order: seq<string>, i: int)
    requires 0 <= i < |order|
  {
    forall r :: Edge(images, order[i], r) && HasState(images, r, Queued) ==> r in order[..i]
  }

  ghost predicate Covers(images: Images, order: seq<string>) {
    forall id :: HasState(images, id, Queued) ==> id in order
  }

  ghost predicate Acyclic(images: Images) {
    exists order :: Ordered(images, order) && Covers(images, order)
  }

  // ---------------------------------------------------------------- lemmas on walks

  lemma PrependWalk(images: Images, id: string, w: seq<string>)
    requires Walk(images, w) && Edge(images, id, w[0])
    ensures Walk(images, [id] + w)
    ensures EndsInCycle(w) ==> EndsInCycle([id] + w)
    ensures DeadEnd(images, w) ==> DeadEnd(images, [id] + w)
  {
    var v := [id] + w;
    forall i | 0 <= i < |v| - 1 ensures Link(images, v, i) {
      if i > 0 { assert Link(images, w, i - 1); }
    }
    if EndsInCycle(w) {
      var j :| 0 <= j < |w| - 1 && w[j] == w[|w| - 1];
      assert v[j + 1] == v[|v| - 1] && v[..|v| - 1][j + 1] == v[j + 1];
    }
  }

  lemma EdgeIntoDoom(images: Images, id: string, ref: string)
    requires Edge(images, id, ref)
    requires ref !in images || HasState(images, ref, Error) || Doomed(images, ref)
    ensures Doomed(images, id)
  {
    if Doomed(images, ref) {
      var w :| Walk(images, w) && w[0] == ref && DeadEnd(images, w);
      PrependWalk(images, id, w);
      assert ([id] + w)[0] == id;
    } else {
      var w := [id, ref];
      assert Walk(images, w) && w[0] == id && DeadEnd(images, w);
    }
  }

  /** Position of the first occurrence. */
  ghost function First(order: seq<string>, x: string): (i: nat)
    requires x in order
    ensures i < |order| && order[i] == x
    ensures forall k :: 0 <= k < i ==> order[k] != x
  {
    if order[0] == x then 0 else
      assert order == [order[0]] + order[1..];
      var i := First(order[1..], x) + 1;
      i
  }

  /** References strictly descend in an order. */
  lemma WalkDescends(images: Images, order: seq<string>, w: seq<string>, i: nat, j: nat)
    requires Ordered(images, order) && Covers(images, order) && Walk(images, w)
    requires i < j < |w| && HasState(images, w[j], Queued)
    ensures w[i] in order && w[j] in order && First(order, w[j]) < First(order, w[i])
    decreases j - i
  {
    assert Link(images, w, i);
    if i + 1 < j {
      WalkDescends(images, order, w, i + 1, j);
      assert Link(images, w, i + 1);
    }
    EdgeDescends(images, order, w[i], w[i + 1]);
  }

  lemma EdgeDescends(images: Images, order: seq<string>, a: string, b: string)
    requires Ordered(images, order) && Covers(images, order) && Edge(images, a, b) && HasState(images, b, Queued)
    ensures a in order && b in order && First(order, b) < First(order, a)
  {
    var at := First(order, a);
    assert Placed(images, order, at);
    var k :| 0 <= k < at && order[k] == b;
    assert First(order, b) <= k;
  }

  lemma ExtendOrder(images: Images, order: seq<string>, id: string)
    requires Ordered(images, order)
    requires forall r :: Edge(images, id, r) && HasState(images, r, Queued) ==> r in order
    ensures Ordered(images, order + [id])
  {
    var order' := order + [id];
    forall i | 0 <= i < |order'| ensures Placed(images, order', i) {
      if i < |order| {
        assert Placed(images, order, i) && order'[..i] == order[..i];
      } else {
        assert order'[..i] == order;
      }
    }
  }

  /** The meaning of an order: no chain of queued images returns to itself. */
  lemma AcyclicHasNoCycle(images: Images, w: seq<string>)
    requires Acyclic(images) && Walk(images, w)
    ensures !EndsInCycle(w)
  {
    if EndsInCycle(w) {
      var order :| Ordered(images, order) && Covers(images, order);
      var j :| 0 <= j < |w| - 1 && w[j] == w[|w| - 1];
      assert Link(images, w, j);
      WalkDescends(images, order, w, j, |w| - 1);
      assert false;
    }
  }

  // ---------------------------------------------------------------- memoised depth-first search

  ghost predicate ReturnsTo(w: seq<string>, path: set<string>) {
    |w| > 0 && (w[|w| - 1] in path || EndsInCycle(w))
  }

  /**
   * `visit`.  The memo `acyclic` is a JavaScript Set, kept in insertion order.  The caller's `path`
   * is the same on return, because the id is deleted again.  The memo is filled under differing paths;
   * that it stays an order of the queued images is what makes it sound.
   */
  method Visit(images: Images, id: string, path: set<string>, acyclic: seq<string>)
    returns (cyclic: bool, acyclic': seq<string>, ghost walk: seq<string>)
    requires path <= images.Keys && Ordered(images, acyclic)
    ensures Ordered(images, acyclic') && acyclic <= acyclic'
    ensures cyclic ==> Walk(images, walk) && walk[0] == id && ReturnsTo(walk, path)
    ensures !cyclic ==> id !in path && (HasState(images, id, Queued) ==> id in acyclic')
    decreases images.Keys - path
  {
    cyclic, acyclic', walk := false, acyclic, [id];
    if id in path { cyclic := true; return; }
    if id in acyclic { return; }
    if id !in images || images[id].state != Queued { return; }
    var dependencies := IdRefs(images[id].refs);
    var k := 0;
    while k < |dependencies| && !cyclic
      invariant 0 <= k <= |dependencies|
      invariant Ordered(images, acyclic') && acyclic <= acyclic'
      invariant !cyclic ==> forall j :: 0 <= j < k && HasState(images, dependencies[j], Queued) ==> dependencies[j] in acyclic'
      invariant cyclic ==> Walk(images, walk) && walk[0] == id && ReturnsTo(walk, path)
    {
      ghost var tail;
      cyclic, acyclic', tail := Visit(images, dependencies[k], path + {id}, acyclic');
      if cyclic {
        assert Edge(images, id, tail[0]);
        PrependWalk(images, id, tail);
        walk := [id] + tail;
        if tail[|tail| - 1] == id { assert walk[..|walk| - 1][0] == walk[|walk| - 1]; }
      }
      k := k + 1;
    }
    if !cyclic {
      ExtendOrder(images, acyclic', id);
      acyclic' := acyclic' + [id];
    }
  }

  // ---------------------------------------------------------------- resolution of one session

  /** `save` of an existing row: the row is replaced and the version rises by one. */
  function Saved(session: Session, id: string, image: Image): Session {
    session.(images := session.images[id := image], version := session.version + 1)
  }

  function FailedImage(image: Image, code: ErrorCode): Image {
    image.(state := Error, waitingFor := [], error := Some(code))
  }

  /** Each error code tells the truth about the references of the image. */
  ghost predicate Explains(before: Images, after: Images, id: string, code: ErrorCode)
    requires id in before
  {
    match code
    case DependencyCycle => ReachesCycle(before, id)
    case MissingDependency => exists r :: r in IdRefs(before[id].refs) && r !in before
    case DependencyFailed => exists r :: r in IdRefs(before[id].refs) && HasState(after, r, Error)
    case _ => false
  }

  ghost predicate FailedTruly(before: Images, after: Images, id: string) {
    && HasState(before, id, Queued) && id in after
    && exists code :: after[id] == FailedImage(before[id], code) && Explains(before, after, id, code)
  }

  /** Every saved change raised the version. */
  ghost predicate Versioned(before: Session, after: Session) {
    && before.version <= after.version
    && (before.images != after.images ==> before.version < after.version)
    && after == before.(images := after.images, version := after.version)
  }

  /** What resolution must establish, independently of any order of evaluation. */
  ghost predicate Resolved(before: Session, after: Session) {
    && Versioned(before, after)
    && after.images.Keys == before.images.Keys
    && Acyclic(after.images)
    && forall id :: id in before.images ==> Verdict(before.images, after.images, id)
  }

  /** A queued image fails exactly when it is doomed; otherwise only its waiting list is made exact. */
  ghost predicate Verdict(before: Images, after: Images, id: string)
    requires id in before && id in after
  {
    if !HasState(before, id, Queued) then after[id] == before[id]
    else if Doomed(before, id) then FailedTruly(before, after, id)
    else after[id] == Refreshed(before, id)
  }

  /** The state during resolution: some doomed images have failed, some waiting lists are refreshed. */
  ghost predicate Resolving(before: Session, after: Session) {
    && Versioned(before, after)
    && after.images.Keys == before.images.Keys
    && forall id :: id in before.images ==> Evolved(before.images, after.images, id)
  }

  ghost predicate Evolved(before: Images, after: Images, id: string)
    requires id in before && id in after
  {
    || after[id] == before[id]
    || (Doomed(before, id) && FailedTruly(before, after, id))
    || (HasState(before, id, Queued) && after[id] == Refreshed(before, id))
  }

  ghost function Refreshed(before: Images, id: string): Image
    requires id in before
  {
    before[id].(waitingFor := Incomplete(before, IdRefs(before[id].refs)))
  }

  /** The parsed copies agree with the stored rows on every state, and on everything still queued. */
  ghost predicate Mirrors(images: Images, stored: Images) {
    && images.Keys == stored.Keys
    && forall id :: id in images ==>
         && images[id].state == stored[id].state
         && images[id].refs == stored[id].refs
         && (images[id].state == Queued ==> images[id] == stored[id])
  }

  lemma SubgraphWalk(before: Session, session: Session, images: Images, w: seq<string>)
    requires Resolving(before, session) && Mirrors(images, session.images) && Walk(images, w)
    ensures Walk(before.images, w)
  {
    forall i | 0 <= i < |w| - 1 ensures Link(before.images, w, i) {
      assert Link(images, w, i);
    }
  }

  /** Failing one more image, truly, keeps the state within resolution. */
  lemma FailStep(before: Session, session: Session, id: string, code: ErrorCode)
    requires Resolving(before, session) && HasState(session.images, id, Queued)
    requires Doomed(before.images, id)
    requires Explains(before.images, session.images, id, code)
    ensures HasState(before.images, id, Queued)
    ensures Resolving(before, Saved(session, id, FailedImage(session.images[id], code)))
  {
    var after := Saved(session, id, FailedImage(session.images[id], code));
    assert after.images[id] != session.images[id];
    forall x | x in before.images ensures Evolved(before.images, after.images, x) {
      assert Evolved(before.images, session.images, x);
      if x == id {
        assert after.images[id] == FailedImage(before.images[id], code);
        assert Explains(before.images, after.images, id, code);
      } else if FailedTruly(before.images, session.images, x) {
        var c :| session.images[x] == FailedImage(before.images[x], c) && Explains(before.images, session.images, x, c);
        assert Explains(before.images, after.images, x, c);
      }
    }
  }

  /** Failing an image removes queued nodes only, so copies stay in step and an order stays an order. */
  lemma FailMirror(session: Session, images: Images, id: string, code: ErrorCode, order: seq<string>)
    requires Mirrors(images, session.images) && HasState(images, id, Queued) && Ordered(images, order)
    ensures
      var images' := images[id := images[id].(state := Error)];
      && Mirrors(images', Saved(session, id, FailedImage(images[id], code)).images)
      && Ordered(images', order)
      && QueuedIds(images') < QueuedIds(images)
      && (Covers(images, order) ==> Covers(images', order))
  {
    var images' := images[id := images[id].(state := Error)];
    forall i | 0 <= i < |order| ensures Placed(images', order, i) {
      assert Placed(images, order, i);
    }
    assert id in QueuedIds(images) && id !in QueuedIds(images');
  }

  /** The cycle pass has examined the first `i` ids. */
  ghost predicate Marking(before: Session, session: Session, images: Images, ids: seq<string>, i: nat, acyclic: seq<string>) {
    && Resolving(before, session) && Mirrors(images, session.images) && Ordered(images, acyclic) && i <= |ids|
    && forall j :: 0 <= j < i && HasState(images, ids[j], Queued) ==> ids[j] in acyclic
  }

  lemma CycleIsDoom(before: Session, session: Session, images: Images, walk: seq<string>)
    requires Resolving(before, session) && Mirrors(images, session.images) && Walk(images, walk) && EndsInCycle(walk)
    ensures ReachesCycle(before.images, walk[0]) && Doomed(before.images, walk[0])
  {
    SubgraphWalk(before, session, images, walk);
    assert DeadEnd(before.images, walk);
  }

  lemma MarkOne(before: Session, session: Session, images: Images, ids: seq<string>, i: nat, acyclic: seq<string>, walk: seq<string>)
    requires Marking(before, session, images, ids, i, acyclic) && i < |ids| && HasState(images, ids[i], Queued)
    requires Walk(images, walk) && walk[0] == ids[i] && EndsInCycle(walk)
    ensures Marking(before, Saved(session, ids[i], FailedImage(images[ids[i]], DependencyCycle)),
                    images[ids[i] := images[ids[i]].(state := Error)], ids, i + 1, acyclic)
  {
    CycleIsDoom(before, session, images, walk);
    FailStep(before, session, ids[i], DependencyCycle);
    FailMirror(session, images, ids[i], DependencyCycle, acyclic);
  }

  /** The cycle pass. */
  method MarkCycles(before: Session, ids: seq<string>)
    returns (images: Images, session: Session, ghost order: seq<string>)
    requires forall id :: id in ids <==> id in before.images
    ensures Consistent(before, session, images, order)
  {
    images, session := before.images, before;
    var acyclic: seq<string> := [];
    for i := 0 to |ids|
      invariant Marking(before, session, images, ids, i, acyclic)
    {
      var id := ids[i];
      if images[id].state == Queued {
        var cyclic; ghost var walk;
        ghost var sofar := acyclic;
        cyclic, acyclic, walk := Visit(images, id, {}, acyclic);
        assert Marking(before, session, images, ids, i, acyclic) by { assert forall x :: x in sofar ==> x in acyclic; }
        if cyclic {
          MarkOne(before, session, images, ids, i, acyclic, walk);
          session := Saved(session, id, FailedImage(images[id], DependencyCycle));
          images := images[id := images[id].(state := Error)];
        }
      }
    }
    order := acyclic;
  }

  /** A queued image whose references are all defined and not failed, waiting for exactly the incomplete ones. */
  ghost predicate Settled(images: Images, id: string) {
    HasState(images, id, Queued) ==>
      forall r :: r in IdRefs(images[id].refs) ==> r in images && images[r].state != Error
  }

  ghost predicate Waits(before: Session, session: Session, id: string) {
    HasState(session.images, id, Queued) ==>
      id in before.images && session.images[id].waitingFor == Incomplete(before.images, IdRefs(before.images[id].refs))
  }

  lemma SameIncomplete(a: Images, b: Images, ids: seq<string>)
    requires forall id :: HasState(a, id, Complete) <==> HasState(b, id, Complete)
    ensures Incomplete(a, ids) == Incomplete(b, ids)
  {}

  ghost function QueuedIds(images: Images): set<string> {
    set id | id in images && images[id].state == Queued
  }

  /** The failure fixpoint. */
  method Propagate(before: Session, ids: seq<string>, images0: Images, session0: Session, ghost order: seq<string>)
    returns (session: Session)
    requires forall id :: id in ids <==> id in before.images
    requires RefsNonempty(before.images)
    requires Consistent(before, session0, images0, order)
    ensures Resolving(before, session) && Acyclic(session.images)
    ensures AllDone(before, session, ids, |ids|)
  {
    var images := images0;
    session := session0;
    var progress := true;
    while progress
      invariant Consistent(before, session, images, order)
      invariant !progress ==> AllDone(before, session, ids, |ids|)
      decreases QueuedIds(images), progress
    {
      progress := false;
      ghost var started := images;
      for i := 0 to |ids|
        invariant Consistent(before, session, images, order)
        invariant if progress then QueuedIds(images) < QueuedIds(started) else QueuedIds(images) == QueuedIds(started)
        invariant !progress ==> AllDone(before, session, ids, i)
      {
        var failed;
        images, session, failed := Examine(before, ids, i, images, session, order);
        progress := progress || failed;
      }
    }
    MirroredOrder(images, session.images, order);
  }

  lemma MirroredOrder(images: Images, stored: Images, order: seq<string>)
    requires Mirrors(images, stored) && Ordered(images, order) && Covers(images, order)
    ensures Acyclic(stored)
  {
    forall i | 0 <= i < |order| ensures Placed(stored, order, i) {
      assert Placed(images, order, i);
    }
    assert Covers(stored, order);
  }

  ghost predicate Consistent(before: Session, session: Session, images: Images, order: seq<string>) {
    Resolving(before, session) && Mirrors(images, session.images) && Ordered(images, order) && Covers(images, order)
  }

  /** One image is final for this fixpoint. */
  ghost predicate Done(before: Session, session: Session, id: string) {
    Settled(session.images, id) && Waits(before, session, id)
  }

  ghost predicate AllDone(before: Session, session: Session, ids: seq<string>, n: nat)
    requires n <= |ids|
  {
    forall j :: 0 <= j < n ==> Done(before, session, ids[j])
  }

  /** The body of the fixpoint's inner loop. */
  method Examine(before: Session, ids: seq<string>, i: nat, images0: Images, session0: Session, ghost order: seq<string>)
    returns (images: Images, session: Session, failed: bool)
    requires i < |ids| && ids[i] in before.images && RefsNonempty(before.images)
    requires Consistent(before, session0, images0, order)
    ensures Consistent(before, session, images, order)
    ensures failed ==> QueuedIds(images) < QueuedIds(images0)
    ensures !failed ==> QueuedIds(images) == QueuedIds(images0)
    ensures !failed && AllDone(before, session0, ids, i) ==> AllDone(before, session, ids, i + 1)
  {
    var id := ids[i];
    assert Evolved(before.images, session0.images, id);
    images, session, failed := images0, session0, false;
    if images[id].state == Queued {
      var dependencies := IdRefs(images[id].refs);
      var missing := FirstMissing(images, dependencies);
      var broken := FirstFailed(images, dependencies);
      if missing != "" || broken != "" {
        var code := if missing != "" then MissingDependency else DependencyFailed;
        FailOne(before, session, images, id, if missing != "" then missing else broken, order);
        session := Saved(session, id, FailedImage(images[id], code));
        images := images[id := images[id].(state := Error)];
        failed := true;
      } else {
        var waitingFor := Incomplete(images, dependencies);
        RefreshOne(before, session, images, ids, i, order);
        if waitingFor != images[id].waitingFor {
          images := images[id := images[id].(waitingFor := waitingFor)];
          session := Saved(session, id, images[id]);
        }
      }
    }
  }

  lemma FailOne(before: Session, session: Session, images: Images, id: string, ref: string, order: seq<string>)
    requires Consistent(before, session, images, order)
    requires HasState(images, id, Queued) && ref in IdRefs(images[id].refs)
    requires ref !in images || HasState(images, ref, Error)
    ensures
      var code := if ref !in images then MissingDependency else DependencyFailed;
      var images' := images[id := images[id].(state := Error)];
      && Consistent(before, Saved(session, id, FailedImage(images[id], code)), images', order)
      && QueuedIds(images') < QueuedIds(images)
  {
    var code := if ref !in images then MissingDependency else DependencyFailed;
    FailureIsDoom(before, session, images, id, ref);
    FailStep(before, session, id, code);
    FailMirror(session, images, id, code, order);
  }

  lemma RefreshOne(before: Session, session: Session, images: Images, ids: seq<string>, i: nat, order: seq<string>)
    requires i < |ids|
    requires Consistent(before, session, images, order) && HasState(images, ids[i], Queued)
    requires forall r :: r in IdRefs(images[ids[i]].refs) ==> r in images && images[r].state != Error
    ensures
      var id := ids[i];
      var waiting := Incomplete(images, IdRefs(images[id].refs));
      var images' := images[id := images[id].(waitingFor := waiting)];
      var session' := Saved(session, id, images'[id]);
      if waiting == images[id].waitingFor then
        AllDone(before, session, ids, i) ==> AllDone(before, session, ids, i + 1)
      else
        && Consistent(before, session', images', order) && QueuedIds(images') == QueuedIds(images)
        && (AllDone(before, session, ids, i) ==> AllDone(before, session', ids, i + 1))
  {
    var id := ids[i];
    var waiting := Incomplete(images, IdRefs(images[id].refs));
    assert Evolved(before.images, session.images, id);
    assert IdRefs(images[id].refs) == IdRefs(before.images[id].refs);
    SameComplete(before, session, images, IdRefs(images[id].refs));
    assert Settled(session.images, id);
    if waiting != images[id].waitingFor {
      RefreshStep(before, session, id, waiting);
      RefreshMirror(session, images, id, waiting, order);
      if AllDone(before, session, ids, i) { RefreshKeepsAllDone(before, session, ids, i, waiting); }
    } else {
      assert Done(before, session, id);
    }
  }

  lemma RefreshKeepsAllDone(before: Session, session: Session, ids: seq<string>, i: nat, waiting: seq<string>)
    requires i < |ids| && AllDone(before, session, ids, i)
    requires HasState(session.images, ids[i], Queued) && Settled(session.images, ids[i]) && ids[i] in before.images
    requires waiting == Incomplete(before.images, IdRefs(before.images[ids[i]].refs))
    ensures AllDone(before, Saved(session, ids[i], session.images[ids[i]].(waitingFor := waiting)), ids, i + 1)
  {
    var session' := Saved(session, ids[i], session.images[ids[i]].(waitingFor := waiting));
    forall j | 0 <= j < i + 1 ensures Done(before, session', ids[j]) {
      if j < i { RefreshKeepsDone(before, session, ids[i], waiting, ids[j]); }
    }
  }

  lemma RefreshKeepsDone(before: Session, session: Session, id: string, waiting: seq<string>, x: string)
    requires HasState(session.images, id, Queued) && id in before.images
    requires waiting == Incomplete(before.images, IdRefs(before.images[id].refs))
    requires Done(before, session, x)
    ensures Done(before, Saved(session, id, session.images[id].(waitingFor := waiting)), x)
  {}

  lemma FailureIsDoom(before: Session, session: Session, images: Images, id: string, ref: string)
    requires Resolving(before, session) && Mirrors(images, session.images)
    requires HasState(images, id, Queued) && ref in IdRefs(images[id].refs)
    requires ref !in images || HasState(images, ref, Error)
    ensures Doomed(before.images, id)
    ensures ref !in images ==> Explains(before.images, session.images, id, MissingDependency)
    ensures HasState(images, ref, Error) ==> Explains(before.images, session.images, id, DependencyFailed)
  {
    assert Edge(before.images, id, ref);
    EdgeIntoDoom(before.images, id, ref);
  }

  lemma SameComplete(before: Session, session: Session, images: Images, ids: seq<string>)
    requires Resolving(before, session) && Mirrors(images, session.images)
    ensures Incomplete(images, ids) == Incomplete(before.images, ids)
  {
    SameIncomplete(images, before.images, ids);
  }

  lemma RefreshMirror(session: Session, images: Images, id: string, waiting: seq<string>, order: seq<string>)
    requires Mirrors(images, session.images) && HasState(images, id, Queued) && Ordered(images, order) && Covers(images, order)
    ensures
      var images' := images[id := images[id].(waitingFor := waiting)];
      && Mirrors(images', Saved(session, id, images'[id]).images)
      && Ordered(images', order) && Covers(images', order)
      && QueuedIds(images') == QueuedIds(images)
  {
    var images' := images[id := images[id].(waitingFor := waiting)];
    forall i | 0 <= i < |order| ensures Placed(images', order, i) {
      assert Placed(images, order, i);
    }
  }

  lemma RefreshStep(before: Session, session: Session, id: string, waiting: seq<string>)
    requires Resolving(before, session) && HasState(session.images, id, Queued)
    requires waiting == Incomplete(before.images, IdRefs(before.images[id].refs))
    requires waiting != session.images[id].waitingFor
    ensures Resolving(before, Saved(session, id, session.images[id].(waitingFor := waiting)))
  {
    var after := Saved(session, id, session.images[id].(waitingFor := waiting));
    assert after.images[id] != session.images[id];
    forall x | x in before.images ensures Evolved(before.images, after.images, x) {
      assert Evolved(before.images, session.images, x);
      if x != id && FailedTruly(before.images, session.images, x) {
        var c :| session.images[x] == FailedImage(before.images[x], c) && Explains(before.images, session.images, x, c);
        assert Explains(before.images, after.images, x, c);
      }
    }
  }

  ghost predicate AllSettled(before: Images, images: Images) {
    forall x :: x in before ==> Settled(images, x)
  }

  /** An image that survives the fixpoint was never doomed: every chain through it stays alive, so it cannot end badly. */
  lemma SurvivorsWereNotDoomed(before: Session, session: Session, id: string)
    requires Resolving(before, session) && Acyclic(session.images)
    requires AllSettled(before.images, session.images)
    requires HasState(session.images, id, Queued)
    ensures !Doomed(before.images, id)
  {
    if Doomed(before.images, id) {
      var w :| Walk(before.images, w) && w[0] == id && DeadEnd(before.images, w);
      SurvivorChain(before, session, w, |w| - 1);
      forall i | 0 <= i < |w| - 1 ensures Link(session.images, w, i) {
        assert Link(before.images, w, i);
        SurvivorChain(before, session, w, i);
      }
      AcyclicHasNoCycle(session.images, w);
    }
  }

  /** Along a chain of the old graph that starts at a survivor, every image is still defined and not failed. */
  lemma {:induction false} SurvivorChain(before: Session, session: Session, w: seq<string>, i: nat)
    requires Resolving(before, session)
    requires AllSettled(before.images, session.images)
    requires Walk(before.images, w) && HasState(session.images, w[0], Queued) && i < |w|
    ensures w[i] in session.images && session.images[w[i]].state != Error
    ensures i < |w| - 1 ==> HasState(session.images, w[i], Queued)
  {
    if i > 0 {
      SurvivorChain(before, session, w, i - 1);
      SurvivorNext(before, session, w, i);
    }
  }

  lemma SurvivorNext(before: Session, session: Session, w: seq<string>, i: nat)
    requires Resolving(before, session) && AllSettled(before.images, session.images)
    requires Walk(before.images, w) && 0 < i < |w| && HasState(session.images, w[i - 1], Queued)
    ensures w[i] in session.images && session.images[w[i]].state != Error
    ensures i < |w| - 1 ==> HasState(session.images, w[i], Queued)
  {
    var a, b := w[i - 1], w[i];
    assert Edge(before.images, a, b) by { assert Link(before.images, w, i - 1); }
    assert i < |w| - 1 ==> HasState(before.images, b, Queued) by {
      if i < |w| - 1 { assert Link(before.images, w, i); }
    }
    SurvivorEdge(before, session, a, b);
  }

  lemma SurvivorEdge(before: Session, session: Session, a: string, b: string)
    requires Resolving(before, session) && Edge(before.images, a, b)
    requires HasState(session.images, a, Queued) && AllSettled(before.images, session.images)
    ensures b in session.images && session.images[b].state != Error
    ensures HasState(before.images, b, Queued) ==> HasState(session.images, b, Queued)
  {
    assert Evolved(before.images, session.images, a);
    assert b in IdRefs(session.images[a].refs);
    assert Evolved(before.images, session.images, b);
  }

  /** `resolveDependencies`: both passes together establish the order-free specification. */
  method Resolve(before: Session, ids: seq<string>) returns (after: Session)
    requires forall id :: id in ids <==> id in before.images
    requires RefsNonempty(before.images)
    ensures Resolved(before, after)
  {
    var images, session; ghost var order;
    images, session, order := MarkCycles(before, ids);
    after := Propagate(before, ids, images, session, order);
    forall id | id in before.images ensures Done(before, after, id) {
      var j :| 0 <= j < |ids| && ids[j] == id;
    }
    forall id | id in before.images ensures Verdict(before.images, after.images, id) {
      assert Evolved(before.images, after.images, id);
      if HasState(after.images, id, Queued) { SurvivorsWereNotDoomed(before, after, id); }
    }
  }

  // ---------------------------------------------------------------- consequences

  /** Resolution leaves no broken or failed reference, and exact waiting lists. */
  lemma ResolvedIsSettled(before: Session, after: Session, id: string)
    requires Resolved(before, after) && HasState(after.images, id, Queued)
    ensures Settled(after.images, id)
    ensures after.images[id].waitingFor == Incomplete(after.images, IdRefs(after.images[id].refs))
  {
    forall r | r in IdRefs(after.images[id].refs) ensures r in after.images && after.images[r].state != Error {
      assert Edge(before.images, id, r);
      if r !in before.images || HasState(before.images, r, Error) || Doomed(before.images, r) {
        EdgeIntoDoom(before.images, id, r);
      }
    }
    SameIncomplete(before.images, after.images, IdRefs(after.images[id].refs));
  }

  /** No deadlock: with something queued and nothing generating, some image waits for nothing. */
  lemma SomethingIsReady(before: Session, after: Session, start: string)
    requires Resolved(before, after) && HasState(after.images, start, Queued)
    requires forall id :: !HasState(after.images, id, Generating)
    ensures exists id :: HasState(after.images, id, Queued) && after.images[id].waitingFor == []
  {
    var order :| Ordered(after.images, order) && Covers(after.images, order);
    var i := FirstQueued(after.images, order, First(order, start));
    ResolvedIsSettled(before, after, order[i]);
    LeastIsReady(after.images, order, i);
  }

  lemma LeastIsReady(images: Images, order: seq<string>, i: nat)
    requires Ordered(images, order) && i < |order| && HasState(images, order[i], Queued)
    requires forall j :: 0 <= j < i ==> !HasState(images, order[j], Queued)
    requires forall id :: !HasState(images, id, Generating)
    requires Settled(images, order[i]) && images[order[i]].waitingFor == Incomplete(images, IdRefs(images[order[i]].refs))
    ensures images[order[i]].waitingFor == []
  {
    assert Placed(images, order, i);
    var waiting := images[order[i]].waitingFor;
    if waiting != [] {
      var r := waiting[0];
      assert r in waiting;
      assert r in IdRefs(images[order[i]].refs) && !HasState(images, r, Generating);
      assert Edge(images, order[i], r) && HasState(images, r, Queued);
      assert false;
    }
  }

  lemma FirstQueued(images: Images, order: seq<string>, k: nat) returns (i: nat)
    requires k < |order| && HasState(images, order[k], Queued)
    ensures i < |order| && HasState(images, order[i], Queued)
    ensures forall j :: 0 <= j < i ==> !HasState(images, order[j], Queued)
  {
    i := 0;
    while !HasState(images, order[i], Queued)
      invariant i <= k
      invariant forall j :: 0 <= j < i ==> !HasState(images, order[j], Queued)
      decreases k - i
    { i := i + 1; }
  }
}
