/**
 * Runs of the image protocol (apps/remote/server/inline-images.ts) in which a promise fails: the cap on running tasks, a conflict
 * mark across a recovery, the definition of a thread that was added during a recovery, and the prompt that a result answers.
 */
module InlineImageRuns {
  import opened Options
  import opened InlineImageGraph
  import opened InlineImageProtocol

  // ---------------------------------------------------------------- plain threads

  /** Images without references wait for nothing. */
  predicate Plain(session: Session) {
    forall id :: id in session.images ==> session.images[id].refs == [] && session.images[id].waitingFor == []
  }

  lemma PlainSessionIsResolved(session: Session)
    requires Plain(session)
    ensures Resolved(session, session)
  {
    var order := SetToSeq(session.images.Keys);
    forall i | 0 <= i < |order| ensures Placed(session.images, order, i) {}
    assert Covers(session.images, order);
    forall id | id in session.images ensures Verdict(session.images, session.images, id) {
      forall w | Walk(session.images, w) ensures |w| == 1 { WalkWithoutRefs(session.images, w); }
    }
  }

  lemma WalkWithoutRefs(images: Images, w: seq<string>)
    requires Walk(images, w) && forall id :: id in images ==> images[id].refs == []
    ensures |w| == 1
  {
    assert |w| > 1 ==> Link(images, w, 0);
  }

  ghost function SetToSeq(s: set<string>): (order: seq<string>)
    ensures forall x :: x in order <==> x in s
  {
    if s == {} then [] else var x :| x in s; [x] + SetToSeq(s - {x})
  }

  function PlainTag(id: string, prompt: string): Tag {
    Tag(id, Some(Definition(id, prompt, [])), false)
  }

  function AcceptPlain(w: World, s: string, message: string, id: string, prompt: string): World
    requires s in w.sessions
  {
    AcceptTag(AcceptMessage(w, s, message), s, PlainTag(id, prompt))
  }

  lemma AcceptPlainStep(w0: World, w: World, s: string, message: string, id: string, prompt: string)
    requires Reaches(w0, w) && s in w.sessions && message !in w.sessions[s].messages && Plain(w.sessions[s])
    ensures Reaches(w0, AcceptPlain(w, s, message, id, prompt))
    ensures s in AcceptPlain(w, s, message, id, prompt).sessions && Plain(AcceptPlain(w, s, message, id, prompt).sessions[s])
  {
    var tags, a := [PlainTag(id, prompt)], AcceptMessage(w, s, message);
    OneTag(a, s, PlainTag(id, prompt));
    PlainStays(a, s, PlainTag(id, prompt));
    var w' := AcceptTag(a, s, PlainTag(id, prompt));
    PlainResolves(w', s);
    ReachesStep(w0, w, Accept(s, message, tags), w');
  }

  lemma PlainResolves(w: World, s: string)
    requires s in w.sessions && Plain(w.sessions[s])
    ensures ResolvesTo(w, s, w)
  {
    PlainSessionIsResolved(w.sessions[s]);
    assert w.sessions[s := w.sessions[s]] == w.sessions;
  }

  lemma OneTag(w: World, s: string, tag: Tag)
    requires s in w.sessions
    ensures AcceptTags(w, s, [tag]) == AcceptTag(w, s, tag)
  {
    assert [tag][..0] == [] && AcceptTags(w, s, []) == w;
  }

  lemma PlainStays(w: World, s: string, tag: Tag)
    requires s in w.sessions && Plain(w.sessions[s]) && (tag.definition.Some? ==> tag.definition.value.refs == [])
    ensures s in AcceptTag(w, s, tag).sessions && Plain(AcceptTag(w, s, tag).sessions[s])
  {}

  // ---------------------------------------------------------------- one image

  /** The thread has this one image, and no others. */
  ghost predicate Only(w: World, k: Key, image: Image) {
    HasRow(w.sessions, k) && w.sessions[k.0].images == map[k.1 := image]
  }

  function PlainImage(prompt: string): Image { Image(prompt, [], Queued, [], None, false, None, false) }

  /** A supervisor with cap 2 whose `n` tasks, all current, hold the given jobs. */
  ghost predicate Busy(w: World, jobs: set<Key>, n: nat) {
    && !w.stopped && w.owner && w.concurrency == 2 && w.active == jobs && w.nextTask == n && w.stale == map[] && !w.recovering
    && forall t: nat :: (t in w.tasks <==> t < n) && (t in w.tasks ==> w.tasks[t].instance == w.instance)
  }

  lemma Begin() returns (w: World)
    ensures Reaches(Initial(2), w) && Busy(w, {}, 0) && w.sessions == map[] && w.directories == {} && w.receipts == map[] && w.asked == map[]
  {
    var w0 := Initial(2);
    var reading := w0.(recovering := true, stale := GeneratingRows(w0));
    assert GeneratingRows(w0) == map[];
    ReachesSelf(w0);
    ReachesStep(w0, w0, ReadRows, reading);
    w := Started(reading);
    ReachesStep(w0, reading, Start, w);
  }

  /** A thread is added, and a message defines one image in it. */
  function AddDefined(w: World, k: Key, message: string, prompt: string): World
    requires k.0 !in w.sessions
  {
    AcceptPlain(Added(w, k.0), k.0, message, k.1, prompt)
  }

  lemma AddDefinedStep(w0: World, w: World, k: Key, message: string, prompt: string)
    requires Reaches(w0, w) && k.0 !in w.sessions && ValidId(k.1)
    ensures var w' := AddDefined(w, k, message, prompt);
      && Reaches(w0, w') && Only(w', k, PlainImage(prompt)) && w'.sessions[k.0].messages == {message} && w'.sessions[k.0].epoch == w.nextEpoch
      && w'.sessions.Keys == w.sessions.Keys + {k.0} && w' == Added(w, k.0).(sessions := w'.sessions, order := w'.order)
  {
    var added := Added(w, k.0);
    ReachesStep(w0, w, AddThread(k.0), added);
    assert Plain(added.sessions[k.0]);
    AcceptPlainStep(w0, added, k.0, message, k.1, prompt);
    DefinedAlone(w, k, message, prompt);
  }

  lemma DefinedAlone(w: World, k: Key, message: string, prompt: string)
    requires k.0 !in w.sessions && ValidId(k.1)
    ensures var w' := AddDefined(w, k, message, prompt);
      && Only(w', k, PlainImage(prompt)) && w'.sessions[k.0].messages == {message} && w'.sessions[k.0].epoch == w.nextEpoch
      && w'.sessions.Keys == w.sessions.Keys + {k.0} && w' == Added(w, k.0).(sessions := w'.sessions, order := w'.order)
  {
    var a := AcceptMessage(Added(w, k.0), k.0, message);
    assert a.sessions[k.0] == Session(w.nextEpoch, map[], 0, {message});
    assert !HasRow(a.sessions, k) && TagSaves(a.sessions, k.0, PlainTag(k.1, prompt));
    assert TagImage(a.sessions, k.0, PlainTag(k.1, prompt)) == PlainImage(prompt);
    assert AddDefined(w, k, message, prompt).sessions == SavedIn(a.sessions, k, PlainImage(prompt));
  }

  lemma ClaimOnly(w0: World, w: World, k: Key, prompt: string, jobs: set<Key>, n: nat)
    requires Reaches(w0, w) && Busy(w, jobs, n) && |jobs| < 2 && Only(w, k, PlainImage(prompt))
    ensures var w' := ClaimRow(w, k);
      && Reaches(w0, w') && Busy(w', jobs + {k}, n + 1) && Only(w', k, ClaimedImage(PlainImage(prompt)))
      && w'.sessions[k.0].epoch == w.sessions[k.0].epoch && w'.sessions[k.0].messages == w.sessions[k.0].messages
      && w'.sessions.Keys == w.sessions.Keys && w'.tasks[n] == Task(k, PlainImage(prompt), w.instance, w.sessions[k.0].epoch, Claimed)
  {
    assert Row(w.sessions, k) == PlainImage(prompt);
    ReachesStep(w0, w, Claim(k), ClaimRow(w, k));
  }

  lemma DeleteStep(w0: World, w: World, s: string)
    requires Reaches(w0, w) && s in w.sessions
    ensures Reaches(w0, Deleted(w, s))
  {
    ReachesStep(w0, w, DeleteThread(s), Deleted(w, s));
  }

  const THREAD: string := "t"
  const IMAGE: Key := ("t", "a")
  const OTHER: Key := ("t", "b")

  /** The first job of a run: one image, defined and claimed. */
  lemma FirstJob() returns (w: World)
    ensures Reaches(Initial(2), w) && Busy(w, {IMAGE}, 1) && Only(w, IMAGE, ClaimedImage(PlainImage("p")))
    ensures w.sessions[THREAD].messages == {"m"} && w.sessions.Keys == {THREAD}
    ensures w.directories == {} && w.receipts == map[] && w.asked == map[]
    ensures w.tasks[0] == Task(IMAGE, PlainImage("p"), w.instance, w.sessions[THREAD].epoch, Claimed)
  {
    var started := Begin();
    AddDefinedStep(Initial(2), started, IMAGE, "m", "p");
    var defined := AddDefined(started, IMAGE, "m", "p");
    ClaimOnly(Initial(2), defined, IMAGE, "p", {}, 0);
    w := ClaimRow(defined, IMAGE);
  }

  // ---------------------------------------------------------------- more tasks than slots

  /** A thread deleted and added again while its job runs: with cap 2, three tasks run at once. */
  lemma ReusedThreadOverbooks()
    ensures exists w :: Reaches(Initial(2), w) && |Running(w)| == 3 && |w.active| == 2
  {
    var w0 := Initial(2);
    var first := FirstJob();
    var second := ClaimedAgain(first);
    var third := OtherClaimed(second);
    assert Running(third) == {0, 1, 2};
    assert |third.active| == |{IMAGE, OTHER}|;
  }

  lemma ClaimedAgain(w: World) returns (w': World)
    requires Reaches(Initial(2), w) && Busy(w, {IMAGE}, 1) && w.sessions.Keys == {THREAD}
    ensures Reaches(Initial(2), w') && Busy(w', {IMAGE}, 2) && Only(w', IMAGE, ClaimedImage(PlainImage("p")))
    ensures w'.sessions[THREAD].messages == {"m"}
  {
    DeleteStep(Initial(2), w, THREAD);
    var gone := Deleted(w, THREAD);
    AddDefinedStep(Initial(2), gone, IMAGE, "m", "p");
    ClaimOnly(Initial(2), AddDefined(gone, IMAGE, "m", "p"), IMAGE, "p", {IMAGE}, 1);
    assert {IMAGE} + {IMAGE} == {IMAGE};
    w' := ClaimRow(AddDefined(gone, IMAGE, "m", "p"), IMAGE);
  }

  lemma OtherClaimed(w: World) returns (w': World)
    requires Reaches(Initial(2), w) && Busy(w, {IMAGE}, 2) && Only(w, IMAGE, ClaimedImage(PlainImage("p"))) && w.sessions[THREAD].messages == {"m"}
    ensures Reaches(Initial(2), w') && Busy(w', {IMAGE, OTHER}, 3)
  {
    assert Plain(w.sessions[THREAD]);
    AcceptPlainStep(Initial(2), w, THREAD, "n", "b", "p");
    var mid := AcceptPlain(w, THREAD, "n", "b", "p");
    OtherDefined(w);
    w' := ClaimRow(mid, OTHER);
    ReachesStep(Initial(2), mid, Claim(OTHER), w');
    assert {IMAGE} + {OTHER} == {IMAGE, OTHER};
  }

  lemma OtherDefined(w: World)
    requires Busy(w, {IMAGE}, 2) && Only(w, IMAGE, ClaimedImage(PlainImage("p")))
    ensures var mid := AcceptPlain(w, THREAD, "n", "b", "p"); Busy(mid, {IMAGE}, 2) && Ready(mid.sessions, OTHER)
  {
    var a := AcceptMessage(w, THREAD, "n");
    assert !HasRow(a.sessions, OTHER) && TagSaves(a.sessions, THREAD, PlainTag("b", "p"));
  }

  // ---------------------------------------------------------------- what a recovery writes over

  /** The process dies with the job claimed, and the next supervisor has read its row. */
  lemma RowRead() returns (w: World)
    ensures Reaches(Initial(2), w) && Only(w, IMAGE, ClaimedImage(PlainImage("p"))) && w.stopped && w.recovering
    ensures w.sessions[THREAD].messages == {"m"} && w.receipts == map[] && w.sessions[THREAD].epoch < w.nextEpoch
    ensures w.stale == map[IMAGE := Stale(ClaimedImage(PlainImage("p")), w.sessions[THREAD].epoch, None)]
  {
    var claimed := FirstJob();
    ReachableInv(2, claimed);
    var dead := Crashed(claimed);
    ReachesStep(Initial(2), claimed, Crash, dead);
    w := dead.(recovering := true, stale := GeneratingRows(dead));
    ReachesStep(Initial(2), dead, ReadRows, w);
    OneRowRead(dead);
  }

  lemma OneRowRead(w: World)
    requires Indexed(w.sessions, w.order, w.nextEpoch) && w.sessions.Keys == {THREAD} && Only(w, IMAGE, ClaimedImage(PlainImage("p")))
    ensures GeneratingRows(w) == map[IMAGE := Stale(ClaimedImage(PlainImage("p")), w.sessions[THREAD].epoch, None)]
  {
    assert HasRow(w.sessions, IMAGE) && IMAGE in w.order;
    forall k | HasRow(w.sessions, k) ensures k == IMAGE {}
  }

  /** The receipt is looked for in vain, and the row is written. */
  lemma InterruptedWrite(w: World, k: Key) returns (w': World)
    requires Reaches(Initial(2), w) && k in w.stale && w.stale[k].receipt.None? && k !in w.receipts && HasRow(w.sessions, k)
    ensures Reaches(Initial(2), w') && HasRow(w'.sessions, k)
    ensures Row(w'.sessions, k) == FailedImage(w.stale[k].image, Interrupted).(attempted := Row(w.sessions, k).attempted)
    ensures w'.sessions[k.0].epoch == w.sessions[k.0].epoch && w'.sessions[k.0].messages == w.sessions[k.0].messages
  {
    var looked := w.(stale := w.stale[k := ReceiptRead(w, k)]);
    ReachesStep(Initial(2), w, ReadReceipt(k), looked);
    w' := RecoverRow(looked, k);
    ReachesStep(Initial(2), looked, Recover(k), w');
    SavedFacts(w.sessions, k, Reconciled(w.sessions, k, looked.stale[k]));
  }

  /** A message that defines the image again between the read and the write: the mark is made, and gone again, and its message is used up. */
  lemma RecoveryLosesMark()
    ensures exists w, w' :: Reaches(Initial(2), w) && Reaches(Initial(2), w') && MarkLost(w, w')
  {
    var w0 := RowRead();
    assert Plain(w0.sessions[THREAD]);
    AcceptPlainStep(Initial(2), w0, THREAD, "n", "a", "q");
    var w := AcceptPlain(w0, THREAD, "n", "a", "q");
    MarkMade(w0);
    var w' := InterruptedWrite(w, IMAGE);
    assert MarkLost(w, w');
  }

  ghost predicate MarkLost(w: World, w': World) {
    && HasRow(w.sessions, IMAGE) && Row(w.sessions, IMAGE).conflict && HasRow(w'.sessions, IMAGE) && !Row(w'.sessions, IMAGE).conflict
    && w'.sessions[THREAD].epoch == w.sessions[THREAD].epoch && "n" in w'.sessions[THREAD].messages
  }

  lemma MarkMade(w: World)
    requires Only(w, IMAGE, ClaimedImage(PlainImage("p")))
    ensures var w' := AcceptPlain(w, THREAD, "n", "a", "q");
      && HasRow(w'.sessions, IMAGE) && Row(w'.sessions, IMAGE).conflict && w'.stale == w.stale && w'.receipts == w.receipts
      && w'.sessions[THREAD].epoch == w.sessions[THREAD].epoch && "n" in w'.sessions[THREAD].messages
  {
    var a := AcceptMessage(w, THREAD, "n");
    assert HasRow(a.sessions, IMAGE) && Row(a.sessions, IMAGE) == ClaimedImage(PlainImage("p"));
    assert TagSaves(a.sessions, THREAD, PlainTag("a", "q"));
  }

  /** A thread deleted and added again between the read and the write gets the old row, over its own new definition. */
  lemma RecoveryOverwritesNewLife()
    ensures exists w, w' :: Reaches(Initial(2), w) && Reaches(Initial(2), w') && Overwritten(w, w')
  {
    var w0 := RowRead();
    DeleteStep(Initial(2), w0, THREAD);
    var gone := Deleted(w0, THREAD);
    AddDefinedStep(Initial(2), gone, IMAGE, "m", "q");
    var w := AddDefined(gone, IMAGE, "m", "q");
    var w' := InterruptedWrite(w, IMAGE);
    assert Overwritten(w, w');
  }

  ghost predicate Overwritten(w: World, w': World) {
    && Only(w, IMAGE, PlainImage("q")) && HasRow(w'.sessions, IMAGE) && w'.sessions[THREAD].epoch == w.sessions[THREAD].epoch
    && Row(w'.sessions, IMAGE).prompt == "p" && Row(w'.sessions, IMAGE).error == Some(Interrupted)
  }

  // ---------------------------------------------------------------- an answer to another prompt

  const ANSWER: Output := Output("1.png", "r")

  function PublishedWorld(w: World): World
    requires 0 in w.tasks
  {
    w.(directories := {IMAGE}, receipts := map[IMAGE := ANSWER], calls := w.calls + [IMAGE],
       asked := w.asked[IMAGE := Asking(w.tasks[0])], tasks := w.tasks[0 := w.tasks[0].(phase := Published)])
  }

  /** The first job up to its published receipt. */
  lemma Worked(w: World)
    requires Reaches(Initial(2), w) && Busy(w, {IMAGE}, 1) && Only(w, IMAGE, ClaimedImage(PlainImage("p")))
    requires w.directories == {} && w.receipts == map[] && w.tasks[0] == Task(IMAGE, PlainImage("p"), w.instance, w.sessions[THREAD].epoch, Claimed)
    ensures Reaches(Initial(2), PublishedWorld(w))
  {
    var made := Move(w, 0, Prepared).(directories := {IMAGE});
    assert {} + {IMAGE} == {IMAGE};
    ReachesStep(Initial(2), w, MakeDirectory(0), made);
    assert SourcesReady(made, 0);
    var sourced := Move(made, 0, Sourced);
    ReachesStep(Initial(2), made, ReadSources(0), sourced);
    var called := Calling(sourced, 0);
    assert CallingOrEnded(sourced, 0) == called;
    ReachesStep(Initial(2), sourced, CallProvider(0), called);
    Answered(w, called);
  }

  lemma Answered(w: World, called: World)
    requires 0 in w.tasks && w.tasks[0].key == IMAGE && w.receipts == map[] && Reaches(Initial(2), called)
    requires called == w.(directories := {IMAGE}, calls := w.calls + [IMAGE], asked := w.asked[IMAGE := Asking(w.tasks[0])],
                          tasks := w.tasks[0 := w.tasks[0].(phase := Called)])
    ensures Reaches(Initial(2), PublishedWorld(w))
  {
    var delivered := Move(called, 0, Delivered);
    ReachesStep(Initial(2), called, Deliver(0), delivered);
    var published := Move(delivered, 0, Published).(receipts := delivered.receipts[IMAGE := ANSWER]);
    ReachesStep(Initial(2), delivered, Publish(0, ANSWER), published);
    assert published == PublishedWorld(w);
  }

  /** A job outlives its thread, which is added again with another prompt: the new row shows the answer to the old one. */
  lemma AnswersAnotherPrompt()
    ensures exists w :: Reaches(Initial(2), w) && WrongAnswer(w)
  {
    var first := FirstJob();
    Worked(first);
    var published := PublishedWorld(first);
    assert Busy(published, {IMAGE}, 1);
    DeleteStep(Initial(2), published, THREAD);
    var gone := Deleted(published, THREAD);
    AddDefinedStep(Initial(2), gone, IMAGE, "m", "q");
    var again := AddDefined(gone, IMAGE, "m", "q");
    ClaimOnly(Initial(2), again, IMAGE, "q", {IMAGE}, 1);
    OldJobFinishes(ClaimRow(again, IMAGE));
  }

  ghost predicate WrongAnswer(w: World) {
    && HasRow(w.sessions, IMAGE) && Row(w.sessions, IMAGE).state == Complete && IMAGE in w.asked
    && Row(w.sessions, IMAGE).prompt == "q" && w.asked[IMAGE].prompt == "p"
  }

  lemma OldJobFinishes(w: World)
    requires Reaches(Initial(2), w) && Busy(w, {IMAGE} + {IMAGE}, 2) && Only(w, IMAGE, ClaimedImage(PlainImage("q")))
    requires w.tasks[0].key == IMAGE && w.tasks[0].phase == Published && w.receipts == map[IMAGE := ANSWER] && IMAGE in w.asked && w.asked[IMAGE].prompt == "p"
    ensures exists w' :: Reaches(Initial(2), w') && WrongAnswer(w')
  {
    var w' := Move(Finished(w, 0, CompleteWith(ANSWER)), 0, Ended);
    ReachesStep(Initial(2), w, Finish(0), w');
    assert Writes(w, 0);
    SavedFacts(w.sessions, IMAGE, CompletedImage(ClaimedImage(PlainImage("q")), ANSWER));
    assert WrongAnswer(w');
  }
}
