/**
 * The history of one thread's images (apps/remote/server/inline-images.ts).  Within one life of a thread, rows only advance and
 * definitions stay.  The exception is `start`: it writes rows that it read before its awaits, over whatever is there by then.
 */
module InlineImageHistory {
  import opened Options
  import opened InlineImageGraph
  import opened InlineImageProtocol

  /** queued -> generating -> complete or error, and queued -> error. */
  predicate Advances(a: State, b: State) {
    a == b || (a == Queued && b != Complete) || (a == Generating && (b == Complete || b == Error))
  }

  predicate Later(a: State, b: State) {
    a == b || a == Queued || (a == Generating && (b == Complete || b == Error))
  }

  /** The first definition and a final result are immutable. */
  predicate KeepsDefinition(a: Image, b: Image) {
    && b.prompt == a.prompt && b.refs == a.refs
    && (a.state == Complete || a.state == Error ==> b.output == a.output && b.error == a.error)
  }

  /** The history of one thread: no row lost, every saved change raises the version. */
  ghost predicate Follows(a: Session, b: Session, states: (State, State) -> bool) {
    && a.version <= b.version && (a.images != b.images ==> a.version < b.version)
    && a.messages <= b.messages
    && forall id :: id in a.images ==>
         id in b.images && KeepsDefinition(a.images[id], b.images[id]) && states(a.images[id].state, b.images[id].state)
  }

  /** Conflict marks stay. */
  ghost predicate MarksStay(a: Session, b: Session) {
    forall id :: id in a.images ==> id in b.images && (a.images[id].conflict ==> b.images[id].conflict)
  }

  /** The thread exists in both worlds, and was not deleted in between. */
  predicate SameThread(w: World, w': World, s: string) {
    s in w.sessions && s in w'.sessions && w.sessions[s].epoch == w'.sessions[s].epoch
  }

  // ---------------------------------------------------------------- one step

  lemma FollowsItself(a: Session)
    ensures Follows(a, a, Advances) && Follows(a, a, Later) && MarksStay(a, a)
  {}

  lemma DraftFollows(a: Session, b: Session)
    requires Drafts(a, b)
    ensures Follows(a, b, Advances) && MarksStay(a, b)
  {
    forall id | id in a.images
      ensures id in b.images && KeepsDefinition(a.images[id], b.images[id]) && Advances(a.images[id].state, b.images[id].state)
    {
      assert Drafted(a.images[id], b.images[id]);
    }
  }

  lemma SaveFollows(a: Session, id: string, image: Image)
    requires id in a.images && image != a.images[id]
    requires KeepsDefinition(a.images[id], image) && Advances(a.images[id].state, image.state) && image.conflict == a.images[id].conflict
    ensures Follows(a, Saved(a, id, image), Advances) && MarksStay(a, Saved(a, id, image))
  {
    assert Saved(a, id, image).images[id] != a.images[id];
  }

  /** What a step does to a thread that lives through it. */
  ghost predicate StepFollows(w: World, w': World, s: string) {
    s in w.sessions && s in w'.sessions && Follows(w.sessions[s], w'.sessions[s], Advances) && MarksStay(w.sessions[s], w'.sessions[s])
  }

  lemma SavedStepFollows(w: World, k: Key, image: Image, s: string)
    requires HasRow(w.sessions, k) && image != Row(w.sessions, k) && s in w.sessions
    requires KeepsDefinition(Row(w.sessions, k), image) && Advances(Row(w.sessions, k).state, image.state) && image.conflict == Row(w.sessions, k).conflict
    ensures StepFollows(w, SaveRow(w, k, image), s)
  {
    if s == k.0 { SaveFollows(w.sessions[s], k.1, image); } else { FollowsItself(w.sessions[s]); }
  }

  lemma DraftStepFollows(w: World, r: string, w': World, s: string)
    requires DraftsIn(w.sessions, r, w'.sessions) && s in w.sessions
    ensures StepFollows(w, w', s)
  {
    if s == r { DraftFollows(w.sessions[s], w'.sessions[s]); } else { FollowsItself(w.sessions[s]); }
  }

  lemma AcceptFollows(w: World, r: string, message: string, tags: seq<Tag>, w': World, s: string)
    requires Inv(w) && Next(w, Accept(r, message, tags), w') && s in w.sessions
    ensures StepFollows(w, w', s) && w'.nextEpoch == w.nextEpoch && SameEpochs(w.sessions, w'.sessions) && w'.stale == w.stale
  {
    AcceptDrafts(w, r, message, tags, w');
    DraftStepFollows(w, r, w', s);
  }

  lemma ResolutionFollows(w: World, r: string, w': World, s: string)
    requires Inv(w) && ResolvesTo(w, r, w') && s in w.sessions
    ensures StepFollows(w, w', s)
  {
    TrueIsTrueExcept(w.sessions, w.receipts, r);
    ResolveKeeps(w, r, w');
    DraftStepFollows(w, r, w', s);
  }

  lemma EndFollows(w: World, t: nat, image: Image -> Image, s: string)
    requires t in w.tasks && s in w.sessions
    requires Writes(w, t) ==> EndsRow(Row(w.sessions, w.tasks[t].key), image(Row(w.sessions, w.tasks[t].key)))
    ensures StepFollows(w, Finished(w, t, image), s)
  {
    if Writes(w, t) {
      SavedStepFollows(w, w.tasks[t].key, image(Row(w.sessions, w.tasks[t].key)), s);
    } else {
      FollowsItself(w.sessions[s]);
    }
  }

  lemma EndEventFollows(w: World, e: Event, w': World, s: string)
    requires Next(w, e, w') && s in w.sessions && (e.Throw? || e.Refuse? || e.Finish?)
    ensures StepFollows(w, w', s)
  {
    match e
    case Throw(t) => EndFollows(w, t, FailWith(ThrownCode(w.tasks[t].phase)), s);
    case Refuse(t) => EndFollows(w, t, FailWith(ProviderError), s);
    case Finish(t) => EndFollows(w, t, CompleteWith(w.receipts[w.tasks[t].key]), s);
  }

  /** Events that concern no row. */
  predicate Quiet(e: Event) {
    !e.Accept? && !e.ResolveSession? && !e.Claim? && !e.Throw? && !e.Refuse? && !e.Finish? && !e.Recover?
  }

  lemma QuietFollows(w: World, e: Event, w': World, s: string)
    requires Next(w, e, w') && Quiet(e) && SameThread(w, w', s) && w.sessions[s].epoch < w.nextEpoch
    ensures w'.sessions[s] == w.sessions[s] && StepFollows(w, w', s)
  {
    FollowsItself(w.sessions[s]);
    if e.AddThread? || e.DeleteThread? { QuietThreads(w, e, w', s); } else { QuietSessions(w, e, w'); }
  }

  lemma QuietThreads(w: World, e: Event, w': World, s: string)
    requires Next(w, e, w') && (e.AddThread? || e.DeleteThread?) && SameThread(w, w', s) && w.sessions[s].epoch < w.nextEpoch
    ensures w'.sessions[s] == w.sessions[s]
  {}

  predicate IsTaskEvent(e: Event) {
    e.MakeDirectory? || e.ReadSources? || e.CallProvider? || e.Deliver? || e.Publish? || e.Reap?
  }

  lemma TaskEventQuiet(w: World, e: Event, w': World)
    requires Next(w, e, w') && IsTaskEvent(e)
    ensures w'.sessions == w.sessions && w'.nextEpoch == w.nextEpoch && w'.stale == w.stale
  {
    match e
    case CallProvider(t) => CallQuiet(w, t, w');
    case Reap(t) => ReapQuiet(w, t, w');
    case _ => MoveEventQuiet(w, e, w');
  }

  lemma MoveEventQuiet(w: World, e: Event, w': World)
    requires Next(w, e, w') && (e.MakeDirectory? || e.ReadSources? || e.Deliver? || e.Publish?)
    ensures w'.sessions == w.sessions && w'.nextEpoch == w.nextEpoch && w'.stale == w.stale
  {}

  lemma CallQuiet(w: World, t: nat, w': World)
    requires t in w.tasks && w' == CallingOrEnded(w, t)
    ensures w'.sessions == w.sessions && w'.nextEpoch == w.nextEpoch && w'.stale == w.stale
  {
    if !w.owner || !HasRow(w.sessions, w.tasks[t].key) {
      assert w' == Move(w, t, Ended);
    } else {
      CallingQuiet(w, t);
    }
  }

  lemma CallingQuiet(w: World, t: nat)
    requires t in w.tasks
    ensures var w' := Calling(w, t); w'.sessions == w.sessions && w'.nextEpoch == w.nextEpoch && w'.stale == w.stale
  {}

  lemma ReapQuiet(w: World, t: nat, w': World)
    requires t in w.tasks && w' == Reaped(w, t)
    ensures w'.sessions == w.sessions && w'.nextEpoch == w.nextEpoch && w'.stale == w.stale
  {}

  lemma QuietSessions(w: World, e: Event, w': World)
    requires Next(w, e, w') && Quiet(e) && !e.AddThread? && !e.DeleteThread?
    ensures w'.sessions == w.sessions && w'.nextEpoch == w.nextEpoch
  {
    if IsTaskEvent(e) { TaskEventQuiet(w, e, w'); } else { ControlQuiet(w, e, w'); }
  }

  lemma ControlQuiet(w: World, e: Event, w': World)
    requires Next(w, e, w') && (e.SetOwner? || e.Stop? || e.Crash? || e.ReadRows? || e.ReadReceipt? || e.Start?)
    ensures w'.sessions == w.sessions && w'.nextEpoch == w.nextEpoch
  {}

  /** Every event but a write of the recovery advances each living thread, and takes no mark back. */
  lemma StepHistory(w: World, e: Event, w': World, s: string)
    requires Inv(w) && Next(w, e, w') && SameThread(w, w', s) && !(e.Recover? && e.key.0 == s)
    ensures Follows(w.sessions[s], w'.sessions[s], Advances) && MarksStay(w.sessions[s], w'.sessions[s])
  {
    if Quiet(e) {
      QuietFollows(w, e, w', s);
    } else if e.Throw? || e.Refuse? || e.Finish? {
      EndEventFollows(w, e, w', s);
    } else if e.Accept? || e.ResolveSession? {
      DraftEventFollows(w, e, w', s);
    } else {
      RowEventFollows(w, e, w', s);
    }
  }

  lemma DraftEventFollows(w: World, e: Event, w': World, s: string)
    requires Inv(w) && Next(w, e, w') && s in w.sessions && (e.Accept? || e.ResolveSession?)
    ensures StepFollows(w, w', s)
  {
    match e
    case Accept(r, message, tags) => AcceptFollows(w, r, message, tags, w', s);
    case ResolveSession(r) => ResolutionFollows(w, r, w', s);
  }

  lemma RowEventFollows(w: World, e: Event, w': World, s: string)
    requires Next(w, e, w') && s in w.sessions && (e.Claim? || (e.Recover? && e.key.0 != s))
    ensures StepFollows(w, w', s)
  {
    match e
    case Claim(k) => ClaimFollows(w, k, s);
    case Recover(k) => ElsewhereFollows(w, k, s);
  }

  lemma ElsewhereFollows(w: World, k: Key, s: string)
    requires k in w.stale && s in w.sessions && s != k.0
    ensures StepFollows(w, RecoverRow(w, k), s)
  {
    FollowsItself(w.sessions[s]);
  }

  lemma ClaimFollows(w: World, k: Key, s: string)
    requires HasRow(w.sessions, k) && Row(w.sessions, k).state == Queued && s in w.sessions
    ensures StepFollows(w, ClaimRow(w, k), s)
  {
    SavedStepFollows(w, k, ClaimedImage(Row(w.sessions, k)), s);
    assert SaveRow(w, k, ClaimedImage(Row(w.sessions, k))).sessions == ClaimRow(w, k).sessions;
  }

  // ---------------------------------------------------------------- a write of the recovery

  /**
   * The row that is to be written belongs to this life of the thread; or there is no row now; or a queued one with the same
   * definition, and no receipt.
   */
  predicate Fits(w: World, k: Key)
    requires k in w.stale
  {
    || !HasRow(w.sessions, k) || w.sessions[k.0].epoch == w.stale[k].life
    || (Row(w.sessions, k).state == Queued && Row(w.sessions, k).prompt == w.stale[k].image.prompt && Row(w.sessions, k).refs == w.stale[k].image.refs
        && w.stale[k].receipt == Some(None))
  }

  /** The row that was read carries the mark that the row carries now. */
  predicate SeesMark(w: World, k: Key)
    requires k in w.stale
  {
    HasRow(w.sessions, k) && Row(w.sessions, k).conflict ==> w.stale[k].image.conflict
  }

  /**
   * Exactly when a write of the recovery advances the thread, and exactly when it keeps the marks: it writes the row as it was
   * read, so a mark made since is gone, and a row of a later life is overwritten.
   */
  lemma RecoveryHistory(w: World, k: Key, w': World)
    requires Inv(w) && Next(w, Recover(k), w') && k.0 in w.sessions
    ensures k.0 in w'.sessions
    ensures Follows(w.sessions[k.0], w'.sessions[k.0], Advances) <==> Fits(w, k)
    ensures MarksStay(w.sessions[k.0], w'.sessions[k.0]) <==> SeesMark(w, k)
  {
    assert StaleOk(w.sessions, w.receipts, k, w.stale[k], w.nextEpoch);
    WrittenHistory(w, k);
  }

  lemma WrittenHistory(w: World, k: Key)
    requires k in w.stale && k.0 in w.sessions && StaleOk(w.sessions, w.receipts, k, w.stale[k], w.nextEpoch) && w.stale[k].receipt.Some?
    ensures var a, b := w.sessions[k.0], RecoverRow(w, k).sessions[k.0];
      (Follows(a, b, Advances) <==> Fits(w, k)) && (MarksStay(a, b) <==> SeesMark(w, k))
  {
    var a, image := w.sessions[k.0], Reconciled(w.sessions, k, w.stale[k]);
    assert RecoverRow(w, k).sessions[k.0] == Saved(a, k.1, image);
    if HasRow(w.sessions, k) {
      ReconciledFollows(a, k.1, image);
      FitsIff(w, k);
    }
  }

  lemma FitsIff(w: World, k: Key)
    requires k in w.stale && HasRow(w.sessions, k) && StaleOk(w.sessions, w.receipts, k, w.stale[k], w.nextEpoch) && w.stale[k].receipt.Some?
    ensures var image := Reconciled(w.sessions, k, w.stale[k]);
      image != Row(w.sessions, k)
      && (KeepsDefinition(Row(w.sessions, k), image) && Advances(Row(w.sessions, k).state, image.state) <==> Fits(w, k))
      && ((Row(w.sessions, k).conflict ==> image.conflict) <==> SeesMark(w, k))
  {}

  lemma ReconciledFollows(a: Session, id: string, image: Image)
    requires id in a.images && image != a.images[id]
    ensures Follows(a, Saved(a, id, image), Advances) <==> KeepsDefinition(a.images[id], image) && Advances(a.images[id].state, image.state)
    ensures MarksStay(a, Saved(a, id, image)) <==> (a.images[id].conflict ==> image.conflict)
  {
    assert Saved(a, id, image).images[id] == image;
  }

  // ---------------------------------------------------------------- whole runs

  /** No row of an earlier life of the thread waits to be written. */
  ghost predicate Undisturbed(w: World, s: string) {
    s in w.sessions ==> forall k :: k in w.stale && k.0 == s ==> w.stale[k].life == w.sessions[s].epoch
  }

  /** No mark has been made since the rows were read. */
  ghost predicate MarksSeen(w: World, s: string) {
    forall k :: k in w.stale && k.0 == s ==> SeesMark(w, k)
  }

  lemma UndisturbedStays(w: World, e: Event, w': World, s: string)
    requires Inv(w) && Next(w, e, w') && SameThread(w, w', s) && Undisturbed(w, s)
    ensures Undisturbed(w', s)
  {
    if e.Accept? {
      AcceptFollows(w, e.session, e.message, e.tags, w', s);
    } else if e.ReadRows? {
      RowsReadAreCurrent(w);
    } else {
      ReadsOnlyFewer(w, e, w');
    }
  }

  lemma RowsReadAreCurrent(w: World)
    ensures forall k :: k in GeneratingRows(w) ==> InLife(w.sessions, k, GeneratingRows(w)[k].life)
  {}

  lemma ReadsOnlyFewer(w: World, e: Event, w': World)
    requires Next(w, e, w') && !e.Accept? && !e.ReadRows?
    ensures SameReads(w.stale, w'.stale)
  {
    if IsEnd(e) { EndKeepsReads(w, e, w'); }
    else if !Quiet(e) { RowsKeepReads(w, e, w'); }
    else { QuietKeepsReads(w, e, w'); }
  }

  lemma RowsKeepReads(w: World, e: Event, w': World)
    requires Next(w, e, w') && (e.ResolveSession? || e.Claim? || e.Recover?)
    ensures SameReads(w.stale, w'.stale)
  {}

  lemma QuietKeepsReads(w: World, e: Event, w': World)
    requires Next(w, e, w') && Quiet(e) && !e.ReadRows?
    ensures SameReads(w.stale, w'.stale) && SameImages(w.stale, w'.stale)
  {
    if e.ReadReceipt? { ReceiptKeepsReads(w, e.key); } else { OthersKeepReads(w, e, w'); }
  }

  predicate SameImages(stale: map<Key, Stale>, stale': map<Key, Stale>) {
    forall k :: k in stale' ==> k in stale && stale'[k].image == stale[k].image
  }

  lemma ReceiptKeepsReads(w: World, k: Key)
    requires k in w.stale
    ensures SameReads(w.stale, w.stale[k := ReceiptRead(w, k)]) && SameImages(w.stale, w.stale[k := ReceiptRead(w, k)])
  {}

  lemma OthersKeepReads(w: World, e: Event, w': World)
    requires Next(w, e, w') && Quiet(e) && !e.ReadRows? && !e.ReadReceipt?
    ensures w'.stale == w.stale || w'.stale == map[]
  {
    if IsTaskEvent(e) { TaskEventQuiet(w, e, w'); }
  }

  predicate IsEnd(e: Event) { e.Throw? || e.Refuse? || e.Finish? }

  lemma EndKeepsReads(w: World, e: Event, w': World)
    requires Next(w, e, w') && IsEnd(e)
    ensures w'.stale == w.stale
  {}

  lemma LivingStep(w: World, e: Event, w': World, s: string)
    requires Inv(w) && Next(w, e, w') && SameThread(w, w', s) && Undisturbed(w, s)
    ensures Follows(w.sessions[s], w'.sessions[s], Advances) && Undisturbed(w', s)
    ensures MarksSeen(w, s) ==> MarksStay(w.sessions[s], w'.sessions[s])
  {
    UndisturbedStays(w, e, w', s);
    if e.Recover? && e.key.0 == s { RecoveryHistory(w, e.key, w'); } else { StepHistory(w, e, w', s); }
  }

  lemma FollowsTogether(a: Session, b: Session, c: Session)
    requires Follows(a, b, Later) && Follows(b, c, Advances)
    ensures Follows(a, c, Later)
  {}

  /** Epochs identify one life of a thread: a thread that is back with its old epoch was never gone. */
  lemma EpochsGrow(w: World, e: Event, w': World, s: string)
    requires Inv(w) && Next(w, e, w')
    ensures w.nextEpoch <= w'.nextEpoch
    ensures s in w'.sessions && w'.sessions[s].epoch < w.nextEpoch ==> SameThread(w, w', s)
  {
    if e.Accept? { AcceptEpochs(w, e, w'); }
    else { OtherEpochs(w, e, w', s); }
  }

  lemma AcceptEpochs(w: World, e: Event, w': World)
    requires Inv(w) && Next(w, e, w') && e.Accept?
    ensures w'.nextEpoch == w.nextEpoch && SameEpochs(w.sessions, w'.sessions)
  {
    AcceptDrafts(w, e.session, e.message, e.tags, w');
  }

  lemma OtherEpochs(w: World, e: Event, w': World, s: string)
    requires Next(w, e, w') && !e.Accept?
    ensures w.nextEpoch <= w'.nextEpoch
    ensures s in w'.sessions && w'.sessions[s].epoch < w.nextEpoch ==> SameThread(w, w', s)
  {
    if IsEnd(e) { EndEpochs(w, e, w'); }
    else if !Quiet(e) { RowEpochs(w, e, w'); }
    else if !e.AddThread? && !e.DeleteThread? { QuietSessions(w, e, w'); }
  }

  lemma RowEpochs(w: World, e: Event, w': World)
    requires Next(w, e, w') && (e.ResolveSession? || e.Claim? || e.Recover?)
    ensures w'.nextEpoch == w.nextEpoch && SameEpochs(w.sessions, w'.sessions)
  {
    match e
    case ResolveSession(r) =>
    case Claim(k) => SavedFacts(w.sessions, k, ClaimedImage(Row(w.sessions, k)));
    case Recover(k) => SavedEpochs(w, k, Reconciled(w.sessions, k, w.stale[k]));
  }

  lemma SavedEpochs(w: World, k: Key, image: Image)
    ensures SaveRow(w, k, image).nextEpoch == w.nextEpoch && SameEpochs(w.sessions, SaveRow(w, k, image).sessions)
  {
    if k.0 in w.sessions { SavedFacts(w.sessions, k, image); }
  }

  lemma EndEpochs(w: World, e: Event, w': World)
    requires Next(w, e, w') && (e.Throw? || e.Refuse? || e.Finish?)
    ensures w'.nextEpoch == w.nextEpoch && SameEpochs(w.sessions, w'.sessions)
  {
    match e
    case Throw(t) => FinishedEpochs(w, t, FailWith(ThrownCode(w.tasks[t].phase)));
    case Refuse(t) => FinishedEpochs(w, t, FailWith(ProviderError));
    case Finish(t) => FinishedEpochs(w, t, CompleteWith(w.receipts[w.tasks[t].key]));
  }

  lemma FinishedEpochs(w: World, t: nat, image: Image -> Image)
    requires t in w.tasks
    ensures Finished(w, t, image).nextEpoch == w.nextEpoch && SameEpochs(w.sessions, Finished(w, t, image).sessions)
  {
    if Writes(w, t) { SavedEpochs(w, w.tasks[t].key, image(Row(w.sessions, w.tasks[t].key))); }
  }

  lemma StepEpochs(w: World, w': World, s: string)
    requires Inv(w) && Step(w, w')
    ensures w.nextEpoch <= w'.nextEpoch
    ensures s in w'.sessions && w'.sessions[s].epoch < w.nextEpoch ==> SameThread(w, w', s)
  {
    var e :| Next(w, e, w');
    EpochsGrow(w, e, w', s);
  }

  lemma EpochsAt(trace: seq<World>, i: nat, s: string)
    requires Run(trace) && Inv(trace[0]) && i + 1 < |trace|
    ensures trace[i].nextEpoch <= trace[i + 1].nextEpoch
    ensures s in trace[i + 1].sessions && trace[i + 1].sessions[s].epoch < trace[i].nextEpoch ==> SameThread(trace[i], trace[i + 1], s)
    ensures s in trace[i].sessions ==> trace[i].sessions[s].epoch < trace[i].nextEpoch
  {
    InvAlongRun(trace, i);
    StepAlongRun(trace, i);
    StepEpochs(trace[i], trace[i + 1], s);
  }

  lemma {:induction false} EpochsOnly(trace: seq<World>, i: nat, j: nat)
    requires Run(trace) && Inv(trace[0]) && i <= j < |trace|
    ensures trace[i].nextEpoch <= trace[j].nextEpoch
    decreases j
  {
    if i < j {
      EpochsOnly(trace, i, j - 1);
      EpochsAt(trace, j - 1, "");
    }
  }

  /** The thread lives through the last step, and was there before it. */
  lemma LivesBefore(trace: seq<World>, i: nat, j: nat, s: string)
    requires Run(trace) && Inv(trace[0]) && i < j < |trace| && SameThread(trace[i], trace[j], s)
    ensures SameThread(trace[j - 1], trace[j], s) && SameThread(trace[i], trace[j - 1], s)
  {
    EpochsAt(trace, i, s);
    EpochsOnly(trace, i, j - 1);
    EpochsAt(trace, j - 1, s);
  }

  lemma StepLives(w: World, w': World, s: string)
    requires Inv(w) && Step(w, w') && SameThread(w, w', s) && Undisturbed(w, s)
    ensures Follows(w.sessions[s], w'.sessions[s], Advances) && Undisturbed(w', s)
    ensures MarksSeen(w, s) ==> MarksStay(w.sessions[s], w'.sessions[s])
  {
    var e :| Next(w, e, w');
    LivingStep(w, e, w', s);
  }

  lemma LivesAt(trace: seq<World>, i: nat, s: string)
    requires Run(trace) && Inv(trace[0]) && i + 1 < |trace| && SameThread(trace[i], trace[i + 1], s) && Undisturbed(trace[i], s)
    ensures Follows(trace[i].sessions[s], trace[i + 1].sessions[s], Advances) && Undisturbed(trace[i + 1], s)
    ensures MarksSeen(trace[i], s) ==> MarksStay(trace[i].sessions[s], trace[i + 1].sessions[s])
  {
    InvAlongRun(trace, i);
    StepAlongRun(trace, i);
    StepLives(trace[i], trace[i + 1], s);
  }

  /**
   * Between any two moments of one life of a thread: no image is lost, its first prompt and references never change, its state
   * only moves forward, a final result is final, and every change raised the version.  It is enough that at the earlier moment no
   * recovery held rows of a former life of the thread.
   */
  lemma {:induction false} ThreadHistory(trace: seq<World>, i: nat, j: nat, s: string)
    requires Run(trace) && Inv(trace[0]) && i <= j < |trace|
    requires SameThread(trace[i], trace[j], s) && Undisturbed(trace[i], s)
    ensures Follows(trace[i].sessions[s], trace[j].sessions[s], Later) && Undisturbed(trace[j], s)
    decreases j
  {
    if i < j {
      LivesBefore(trace, i, j, s);
      ThreadHistory(trace, i, j - 1, s);
      LivesAt(trace, j - 1, s);
      FollowsTogether(trace[i].sessions[s], trace[j - 1].sessions[s], trace[j].sessions[s]);
    } else {
      FollowsItself(trace[i].sessions[s]);
    }
  }

  lemma MarksTogether(a: Session, b: Session, c: Session)
    requires MarksStay(a, b) && MarksStay(b, c)
    ensures MarksStay(a, c)
  {}

  /** And conflict marks stay as well, while no recovery holds a row that was marked since it was read. */
  lemma {:induction false} MarksHistory(trace: seq<World>, i: nat, j: nat, s: string)
    requires Run(trace) && Inv(trace[0]) && i <= j < |trace|
    requires SameThread(trace[i], trace[j], s) && Undisturbed(trace[i], s) && forall n :: i <= n < j ==> MarksSeen(trace[n], s)
    ensures MarksStay(trace[i].sessions[s], trace[j].sessions[s])
    decreases j
  {
    if i < j {
      LivesBefore(trace, i, j, s);
      ThreadHistory(trace, i, j - 1, s);
      MarksHistory(trace, i, j - 1, s);
      LivesAt(trace, j - 1, s);
      MarksTogether(trace[i].sessions[s], trace[j - 1].sessions[s], trace[j].sessions[s]);
    }
  }

  // ---------------------------------------------------------------- the mark that a recovery may lose

  /** An accepted message defines the image again, otherwise. */
  predicate RedefinesIn(e: Event, k: Key, image: Image) {
    e.Accept? && e.session == k.0 && RedefinedBy(e.tags, k.1, image)
  }

  predicate RedefinedBy(tags: seq<Tag>, id: string, image: Image) {
    exists i :: 0 <= i < |tags| && Redefines(tags[i], id, image)
  }

  function Marked(image: Image, mark: bool): Image { if mark then image.(conflict := true) else image }

  lemma {:induction false} TagsMark(w: World, s: string, tags: seq<Tag>, id: string)
    requires HasRow(w.sessions, (s, id))
    ensures HasRow(AcceptTags(w, s, tags).sessions, (s, id))
    ensures Row(AcceptTags(w, s, tags).sessions, (s, id)) == Marked(Row(w.sessions, (s, id)), RedefinedBy(tags, id, Row(w.sessions, (s, id))))
  {
    if tags != [] {
      var front, last := tags[..|tags| - 1], tags[|tags| - 1];
      TagsMark(w, s, front, id);
      TagMarks(AcceptTags(w, s, front), s, last, id);
      RedefinedByMore(tags, id, Row(w.sessions, (s, id)));
    }
  }

  lemma TagMarks(w: World, s: string, tag: Tag, id: string)
    requires HasRow(w.sessions, (s, id))
    ensures HasRow(AcceptTag(w, s, tag).sessions, (s, id))
    ensures Row(AcceptTag(w, s, tag).sessions, (s, id)) == Marked(Row(w.sessions, (s, id)), Redefines(tag, id, Row(w.sessions, (s, id))))
  {
    if TagSaves(w.sessions, s, tag) { SavedFacts(w.sessions, (s, tag.id), TagImage(w.sessions, s, tag)); }
  }

  lemma RedefinedByMore(tags: seq<Tag>, id: string, image: Image)
    requires tags != []
    ensures RedefinedBy(tags, id, image) <==> RedefinedBy(tags[..|tags| - 1], id, image) || Redefines(tags[|tags| - 1], id, image)
  {
    var front := tags[..|tags| - 1];
    if RedefinedBy(front, id, image) {
      var i :| 0 <= i < |front| && Redefines(front[i], id, image);
      assert Redefines(tags[i], id, image);
    }
    if RedefinedBy(tags, id, image) {
      var i :| 0 <= i < |tags| && Redefines(tags[i], id, image);
      if i < |front| { assert Redefines(front[i], id, image); }
    }
  }

  /** While its row is held by a recovery, a living image changes only by a redefinition, which marks it. */
  lemma HeldRowStep(w: World, e: Event, w': World, k: Key)
    requires Inv(w) && Next(w, e, w') && k in w.stale && k in w'.stale
    requires SameThread(w, w', k.0) && w.sessions[k.0].epoch == w.stale[k].life
    ensures HasRow(w.sessions, k) && HasRow(w'.sessions, k) && w'.stale[k].image == w.stale[k].image && w'.stale[k].life == w.stale[k].life
    ensures Row(w'.sessions, k) == Marked(Row(w.sessions, k), RedefinesIn(e, k, Row(w.sessions, k)))
  {
    HeldFacts(w, k);
    if e.Accept? {
      HeldRowAccepted(w, e.session, e.message, e.tags, w', k);
    } else {
      HeldRowKept(w, e, w', k);
    }
  }

  lemma HeldRowKept(w: World, e: Event, w': World, k: Key)
    requires Next(w, e, w') && !e.Accept? && k in w.stale && k in w'.stale && w.recovering && w.stopped
    requires SameThread(w, w', k.0) && w.sessions[k.0].epoch < w.nextEpoch && HasRow(w.sessions, k) && Row(w.sessions, k).state == Generating
    ensures HasRow(w'.sessions, k) && Row(w'.sessions, k) == Row(w.sessions, k)
    ensures w'.stale[k].image == w.stale[k].image && w'.stale[k].life == w.stale[k].life
  {
    if Quiet(e) {
      HeldRowQuiet(w, e, w', k);
    } else if IsEnd(e) {
      HeldRowNotEnded(w, e, w');
    } else {
      HeldRowSame(w, e, w', k);
    }
  }

  lemma HeldRowQuiet(w: World, e: Event, w': World, k: Key)
    requires Next(w, e, w') && Quiet(e) && k in w.stale && k in w'.stale && w.recovering
    requires SameThread(w, w', k.0) && w.sessions[k.0].epoch < w.nextEpoch && HasRow(w.sessions, k)
    ensures HasRow(w'.sessions, k) && Row(w'.sessions, k) == Row(w.sessions, k)
    ensures w'.stale[k].image == w.stale[k].image && w'.stale[k].life == w.stale[k].life
  {
    assert !e.ReadRows?;
    QuietFollows(w, e, w', k.0);
    QuietKeepsReads(w, e, w');
  }

  lemma HeldFacts(w: World, k: Key)
    requires Inv(w) && k in w.stale && InLife(w.sessions, k, w.stale[k].life)
    ensures w.recovering && w.stopped && HasRow(w.sessions, k) && Row(w.sessions, k).state == Generating && w.sessions[k.0].epoch < w.nextEpoch
  {
    assert StaleOk(w.sessions, w.receipts, k, w.stale[k], w.nextEpoch);
  }

  lemma HeldRowNotEnded(w: World, e: Event, w': World)
    requires Next(w, e, w') && w.stopped && IsEnd(e)
    ensures w'.stale == w.stale && w'.sessions == w.sessions
  {}

  /** In a stopped supervisor no other event writes the row. */
  lemma HeldRowSame(w: World, e: Event, w': World, k: Key)
    requires Next(w, e, w') && (e.ResolveSession? || e.Recover? || e.Claim?) && k in w.stale && k in w'.stale && w.stopped
    requires HasRow(w.sessions, k) && Row(w.sessions, k).state == Generating
    ensures w'.stale[k] == w.stale[k] && HasRow(w'.sessions, k) && Row(w'.sessions, k) == Row(w.sessions, k)
  {
    match e
    case ResolveSession(s) => HeldRowResolved(w, s, w', k);
    case Recover(j) => if j.0 in w.sessions { SavedFacts(w.sessions, j, Reconciled(w.sessions, j, w.stale[j])); }
    case Claim(_) =>
  }

  lemma HeldRowResolved(w: World, s: string, w': World, k: Key)
    requires ResolvesTo(w, s, w') && HasRow(w.sessions, k) && Row(w.sessions, k).state == Generating
    ensures HasRow(w'.sessions, k) && Row(w'.sessions, k) == Row(w.sessions, k)
  {
    if s == k.0 { assert Verdict(w.sessions[s].images, w'.sessions[s].images, k.1); }
  }

  lemma HeldRowAccepted(w: World, s: string, message: string, tags: seq<Tag>, w': World, k: Key)
    requires Inv(w) && Next(w, Accept(s, message, tags), w') && HasRow(w.sessions, k) && Row(w.sessions, k).state == Generating
    ensures HasRow(w'.sessions, k) && w'.stale == w.stale
    ensures Row(w'.sessions, k) == Marked(Row(w.sessions, k), RedefinesIn(Accept(s, message, tags), k, Row(w.sessions, k)))
  {
    AcceptDrafts(w, s, message, tags, w');
    if s == k.0 {
      var a := AcceptMessage(w, s, message);
      assert HasRow(a.sessions, k) && Row(a.sessions, k) == Row(w.sessions, k);
      TagsMark(a, s, tags, k.1);
      var mid := AcceptTags(a, s, tags);
      assert Verdict(mid.sessions[s].images, w'.sessions[s].images, k.1);
    }
  }

  /** Every step of the trace is the named event. */
  ghost predicate RunBy(trace: seq<World>, events: seq<Event>) {
    |trace| == |events| + 1 && Inv(trace[0]) && forall i :: 0 <= i < |events| ==> NextAt(trace, events, i)
  }

  ghost predicate NextAt(trace: seq<World>, events: seq<Event>, i: int) {
    0 <= i < |events| && i + 1 < |trace| && Next(trace[i], events[i], trace[i + 1])
  }

  lemma {:induction false} InvBy(trace: seq<World>, events: seq<Event>, i: nat)
    requires RunBy(trace, events) && i < |trace|
    ensures Inv(trace[i])
  {
    if i > 0 {
      InvBy(trace, events, i - 1);
      assert NextAt(trace, events, i - 1);
      InvStep(trace[i - 1], events[i - 1], trace[i]);
    }
  }

  /** From the read before step `r + 1` on, `k` is held by one recovery, in one life of its thread. */
  ghost predicate HeldSince(trace: seq<World>, r: nat, n: nat, k: Key) {
    r < n < |trace| && k in trace[r + 1].stale && HeldFrom(trace, r, n, k, trace[r + 1].stale[k].life)
  }

  ghost predicate HeldFrom(trace: seq<World>, r: nat, n: nat, k: Key, life: nat) {
    forall m :: r < m <= n ==> HeldAt(trace, m, k, life)
  }

  ghost predicate HeldAt(trace: seq<World>, m: int, k: Key, life: nat) {
    0 <= m < |trace| && k in trace[m].stale && InLife(trace[m].sessions, k, life)
  }

  ghost predicate RedefinedBetween(events: seq<Event>, r: nat, n: nat, k: Key, image: Image) {
    exists m :: r < m < n && m < |events| && RedefinesIn(events[m], k, image)
  }

  lemma RedefinedLater(events: seq<Event>, r: nat, n: nat, k: Key, image: Image)
    requires r < n < |events|
    ensures RedefinedBetween(events, r, n + 1, k, image) <==> RedefinedBetween(events, r, n, k, image) || RedefinesIn(events[n], k, image)
  {}

  /** What the recovery and the row have of a held image, and whether it has been marked since. */
  ghost predicate HeldAs(w: World, k: Key, image: Image, life: nat, mark: bool) {
    && k in w.stale && w.stale[k].image == image && w.stale[k].life == life
    && HasRow(w.sessions, k) && Row(w.sessions, k) == Marked(image, mark)
  }

  lemma HeldFirst(w: World, w': World, k: Key)
    requires Next(w, ReadRows, w') && k in w'.stale
    ensures HasRow(w.sessions, k) && HeldAs(w', k, Row(w.sessions, k), w'.stale[k].life, false)
  {}

  lemma HeldNext(w: World, e: Event, w': World, k: Key, image: Image, life: nat, mark: bool)
    requires Inv(w) && Next(w, e, w') && HeldAs(w, k, image, life, mark)
    requires k in w'.stale && InLife(w.sessions, k, life) && InLife(w'.sessions, k, life)
    ensures HeldAs(w', k, image, life, mark || RedefinesIn(e, k, image))
  {
    HeldRowStep(w, e, w', k);
    RedefinesMarked(e, k, image);
  }

  lemma HeldFirstAt(trace: seq<World>, events: seq<Event>, r: nat, k: Key)
    requires RunBy(trace, events) && r < |events| && events[r] == ReadRows && k in trace[r + 1].stale
    ensures HasRow(trace[r].sessions, k) && HeldAs(trace[r + 1], k, Row(trace[r].sessions, k), trace[r + 1].stale[k].life, false)
  {
    assert NextAt(trace, events, r);
    HeldFirst(trace[r], trace[r + 1], k);
  }

  lemma HeldNextAt(trace: seq<World>, events: seq<Event>, n: nat, k: Key, image: Image, life: nat, mark: bool)
    requires RunBy(trace, events) && n < |events| && HeldAs(trace[n], k, image, life, mark)
    requires k in trace[n + 1].stale && InLife(trace[n].sessions, k, life) && InLife(trace[n + 1].sessions, k, life)
    ensures HeldAs(trace[n + 1], k, image, life, mark || RedefinesIn(events[n], k, image))
  {
    InvBy(trace, events, n);
    assert NextAt(trace, events, n);
    HeldNext(trace[n], events[n], trace[n + 1], k, image, life, mark);
  }

  lemma {:induction false} HeldRow(trace: seq<World>, events: seq<Event>, r: nat, n: nat, k: Key)
    requires RunBy(trace, events) && HeldSince(trace, r, n, k) && events[r] == ReadRows
    ensures HasRow(trace[r].sessions, k)
    ensures var image := Row(trace[r].sessions, k);
      HeldAs(trace[n], k, image, trace[r + 1].stale[k].life, RedefinedBetween(events, r, n, k, image))
    decreases n
  {
    HeldFirstAt(trace, events, r, k);
    if n > r + 1 {
      HeldBefore(trace, r, n, k);
      HeldRow(trace, events, r, n - 1, k);
      HeldRowNext(trace, events, r, n, k, Row(trace[r].sessions, k));
    }
  }

  lemma HeldRowNext(trace: seq<World>, events: seq<Event>, r: nat, n: nat, k: Key, image: Image)
    requires RunBy(trace, events) && HeldSince(trace, r, n, k) && r + 1 < n
    requires HeldAs(trace[n - 1], k, image, trace[r + 1].stale[k].life, RedefinedBetween(events, r, n - 1, k, image))
    ensures HeldAs(trace[n], k, image, trace[r + 1].stale[k].life, RedefinedBetween(events, r, n, k, image))
  {
    HeldBefore(trace, r, n, k);
    HeldNextAt(trace, events, n - 1, k, image, trace[r + 1].stale[k].life, RedefinedBetween(events, r, n - 1, k, image));
    RedefinedLater(events, r, n - 1, k, image);
  }

  lemma HeldBefore(trace: seq<World>, r: nat, n: nat, k: Key)
    requires HeldSince(trace, r, n, k) && n > r + 1
    ensures HeldSince(trace, r, n - 1, k) && k in trace[n].stale
    ensures InLife(trace[n - 1].sessions, k, trace[r + 1].stale[k].life) && InLife(trace[n].sessions, k, trace[r + 1].stale[k].life)
  {
    assert HeldAt(trace, n - 1, k, trace[r + 1].stale[k].life) && HeldAt(trace, n, k, trace[r + 1].stale[k].life);
  }

  lemma RedefinesMarked(e: Event, k: Key, image: Image)
    ensures RedefinesIn(e, k, image.(conflict := true)) == RedefinesIn(e, k, image)
  {
    if e.Accept? { forall i | 0 <= i < |e.tags| ensures Redefines(e.tags[i], k.1, image.(conflict := true)) == Redefines(e.tags[i], k.1, image) {} }
  }

  /**
   * A recovery writes the mark that it read.  So a mark survives it exactly if it was there at the read already, or if no message
   * that was accepted between the read and the write defined the image again.
   */
  lemma MarkSurvivesIff(trace: seq<World>, events: seq<Event>, r: nat, n: nat, k: Key)
    requires RunBy(trace, events) && HeldSince(trace, r, n, k) && n < |events| && events[r] == ReadRows && events[n] == Recover(k)
    ensures HasRow(trace[r].sessions, k) && HasRow(trace[n].sessions, k) && HasRow(trace[n + 1].sessions, k)
    ensures Row(trace[n + 1].sessions, k).conflict == Row(trace[r].sessions, k).conflict
    ensures (Row(trace[n].sessions, k).conflict ==> Row(trace[n + 1].sessions, k).conflict) <==>
      Row(trace[r].sessions, k).conflict || !RedefinedBetween(events, r, n, k, Row(trace[r].sessions, k))
  {
    HeldRow(trace, events, r, n, k);
    assert NextAt(trace, events, n) && HeldAt(trace, n, k, trace[r + 1].stale[k].life);
    WrittenMark(trace[n], trace[n + 1], k);
  }

  lemma WrittenMark(w: World, w': World, k: Key)
    requires Next(w, Recover(k), w') && k.0 in w.sessions
    ensures HasRow(w'.sessions, k) && Row(w'.sessions, k).conflict == w.stale[k].image.conflict
  {
    SavedFacts(w.sessions, k, Reconciled(w.sessions, k, w.stale[k]));
  }
}
