/**
 * Whose answer a completed image shows (apps/remote/server/inline-images.ts).  Attempts are keyed by session and image id, so a job
 * or a receipt of a deleted thread may answer for the thread that came back.  At the claim it is decided whether that can happen.
 */
module InlineImageAnswers {
  import opened Options
  import opened InlineImageGraph
  import opened InlineImageProtocol
  import opened InlineImageHistory

  // ---------------------------------------------------------------- references of a former life are spent

  predicate Early(phase: Phase) { phase == Claimed || phase == Prepared }

  /** No job of the instance works in the attempt directory. */
  ghost predicate NobodyWorks(tasks: map<nat, Task>, instance: nat, j: Key) {
    forall u :: Current(tasks, instance, u) && tasks[u].key == j ==> !InDirectory(tasks[u].phase)
  }

  /** The referenced image has had its attempt; in a later life of the thread it has no output to read. */
  ghost predicate RefSpent(ss: Sessions, receipts: map<Key, Output>, tasks: map<nat, Task>, instance: nat, task: Task, r: string) {
    var j := (task.key.0, r);
    && j in receipts && NobodyWorks(tasks, instance, j)
    && (HasRow(ss, j) && ss[j.0].epoch != task.life ==> Row(ss, j).output.None?)
  }

  ghost predicate RefsSpent(ss: Sessions, receipts: map<Key, Output>, tasks: map<nat, Task>, instance: nat, task: Task) {
    forall r :: r in IdRefs(task.image.refs) ==> RefSpent(ss, receipts, tasks, instance, task, r)
  }

  ghost predicate CompleteIsSpent(ss: Sessions, tasks: map<nat, Task>, instance: nat) {
    forall j :: HasRow(ss, j) && Row(ss, j).state == Complete ==> NobodyWorks(tasks, instance, j)
  }

  ghost predicate Spent(ss: Sessions, receipts: map<Key, Output>, tasks: map<nat, Task>, instance: nat) {
    && (forall t :: Current(tasks, instance, t) && Early(tasks[t].phase) ==> RefsSpent(ss, receipts, tasks, instance, tasks[t]))
    && CompleteIsSpent(ss, tasks, instance)
  }

  /** While the supervisor runs: nobody works for a completed image, and jobs of a former life find nothing to read. */
  ghost predicate Sources(w: World) {
    !w.stopped ==> Spent(w.sessions, w.receipts, w.tasks, w.instance)
  }

  /** Jobs only go on outside directories, or end. */
  ghost predicate FewerWork(tasks: map<nat, Task>, tasks': map<nat, Task>) {
    forall t :: t in tasks' ==> t in tasks && GoesOn(tasks[t], tasks'[t])
  }

  predicate GoesOn(a: Task, b: Task) {
    b.(phase := a.phase) == a && (InDirectory(b.phase) ==> InDirectory(a.phase)) && (Early(b.phase) ==> Early(a.phase))
  }

  /** No image is completed, and none gets an output. */
  ghost predicate NothingNew(ss: Sessions, ss': Sessions) {
    forall j :: HasRow(ss', j) && (Row(ss', j).state == Complete || Row(ss', j).output.Some?) ==> HadThat(ss, ss', j)
  }

  ghost predicate HadThat(ss: Sessions, ss': Sessions, j: Key)
    requires HasRow(ss', j)
  {
    && HasRow(ss, j) && ss[j.0].epoch == ss'[j.0].epoch
    && (Row(ss', j).state == Complete ==> Row(ss, j).state == Complete)
    && (Row(ss', j).output.Some? ==> Row(ss, j).output.Some?)
  }

  lemma NobodyMore(tasks: map<nat, Task>, tasks': map<nat, Task>, instance: nat, j: Key)
    requires FewerWork(tasks, tasks') && NobodyWorks(tasks, instance, j)
    ensures NobodyWorks(tasks', instance, j)
  {
    forall u | Current(tasks', instance, u) && tasks'[u].key == j ensures !InDirectory(tasks'[u].phase) {
      assert GoesOn(tasks[u], tasks'[u]) && Current(tasks, instance, u);
    }
  }

  lemma FewerKeepSpent(ss: Sessions, ss': Sessions, receipts: map<Key, Output>, receipts': map<Key, Output>,
                       tasks: map<nat, Task>, tasks': map<nat, Task>, instance: nat)
    requires Spent(ss, receipts, tasks, instance) && FewerWork(tasks, tasks') && NothingNew(ss, ss')
    requires forall j :: j in receipts ==> j in receipts'
    ensures Spent(ss', receipts', tasks', instance)
  {
    forall t | Current(tasks', instance, t) && Early(tasks'[t].phase) ensures RefsSpent(ss', receipts', tasks', instance, tasks'[t]) {
      assert GoesOn(tasks[t], tasks'[t]) && Current(tasks, instance, t);
      RefsStaySpent(ss, ss', receipts, receipts', tasks, tasks', instance, tasks[t], tasks'[t]);
    }
    forall j | HasRow(ss', j) && Row(ss', j).state == Complete ensures NobodyWorks(tasks', instance, j) {
      assert HadThat(ss, ss', j);
      NobodyMore(tasks, tasks', instance, j);
    }
  }

  lemma RefsStaySpent(ss: Sessions, ss': Sessions, receipts: map<Key, Output>, receipts': map<Key, Output>,
                      tasks: map<nat, Task>, tasks': map<nat, Task>, instance: nat, task: Task, task': Task)
    requires RefsSpent(ss, receipts, tasks, instance, task) && FewerWork(tasks, tasks') && NothingNew(ss, ss')
    requires (forall j :: j in receipts ==> j in receipts') && task'.(phase := task.phase) == task
    ensures RefsSpent(ss', receipts', tasks', instance, task')
  {
    forall r | r in IdRefs(task'.image.refs) ensures RefSpent(ss', receipts', tasks', instance, task', r) {
      var j := (task.key.0, r);
      assert RefSpent(ss, receipts, tasks, instance, task, r);
      NobodyMore(tasks, tasks', instance, j);
      if HasRow(ss', j) && Row(ss', j).output.Some? { assert HadThat(ss, ss', j); }
    }
  }

  /** A job enters a directory that nobody has had. */
  lemma MakeKeepsSpent(ss: Sessions, receipts: map<Key, Output>, tasks: map<nat, Task>, instance: nat, t: nat)
    requires Spent(ss, receipts, tasks, instance) && t in tasks && Early(tasks[t].phase) && tasks[t].key !in receipts
    requires HasRow(ss, tasks[t].key) ==> Row(ss, tasks[t].key).state != Complete
    ensures Spent(ss, receipts, tasks[t := tasks[t].(phase := Prepared)], instance)
  {
    var tasks' := tasks[t := tasks[t].(phase := Prepared)];
    forall j | j != tasks[t].key && NobodyWorks(tasks, instance, j) ensures NobodyWorks(tasks', instance, j) { OthersWork(tasks, instance, t, Prepared, j); }
    forall u | Current(tasks', instance, u) && Early(tasks'[u].phase) ensures RefsSpent(ss, receipts, tasks', instance, tasks'[u]) {
      assert Current(tasks, instance, u) && RefsSpent(ss, receipts, tasks, instance, tasks[u]);
      forall r | r in IdRefs(tasks'[u].image.refs) ensures RefSpent(ss, receipts, tasks', instance, tasks'[u], r) {
        assert RefSpent(ss, receipts, tasks, instance, tasks[u], r);
      }
    }
  }

  lemma OthersWork(tasks: map<nat, Task>, instance: nat, t: nat, phase: Phase, j: Key)
    requires t in tasks && tasks[t].key != j && NobodyWorks(tasks, instance, j)
    ensures NobodyWorks(tasks[t := tasks[t].(phase := phase)], instance, j)
  {
    var tasks' := tasks[t := tasks[t].(phase := phase)];
    forall u | Current(tasks', instance, u) && tasks'[u].key == j ensures !InDirectory(tasks'[u].phase) { assert Current(tasks, instance, u); }
  }

  /** A claim: every reference of the job is complete, so it has had its attempt and nobody works for it. */
  lemma ClaimKeepsSpent(w: World, k: Key)
    requires Inv(w) && Spent(w.sessions, w.receipts, w.tasks, w.instance) && Ready(w.sessions, k)
    ensures var w' := ClaimRow(w, k); Spent(w'.sessions, w'.receipts, w'.tasks, w'.instance)
  {
    var w', image := ClaimRow(w, k), ClaimedImage(Row(w.sessions, k));
    SavedFacts(w.sessions, k, image);
    forall j ensures NobodyWorks(w.tasks, w.instance, j) ==> NobodyWorks(w'.tasks, w.instance, j) { NobodyBeside(w, k, j); }
    forall t | Current(w'.tasks, w.instance, t) && Early(w'.tasks[t].phase) ensures RefsSpent(w'.sessions, w.receipts, w'.tasks, w.instance, w'.tasks[t]) {
      if t == w.nextTask { ClaimedRefsSpent(w, k); } else { OldRefsSpent(w, k, t); }
    }
  }

  lemma NobodyBeside(w: World, k: Key, j: Key)
    requires HasRow(w.sessions, k)
    ensures NobodyWorks(w.tasks, w.instance, j) ==> NobodyWorks(ClaimRow(w, k).tasks, w.instance, j)
  {
    var tasks' := ClaimRow(w, k).tasks;
    if NobodyWorks(w.tasks, w.instance, j) {
      forall u | Current(tasks', w.instance, u) && tasks'[u].key == j ensures !InDirectory(tasks'[u].phase) {
        if u != w.nextTask { assert Current(w.tasks, w.instance, u); }
      }
    }
  }

  lemma OldRefsSpent(w: World, k: Key, t: nat)
    requires Spent(w.sessions, w.receipts, w.tasks, w.instance) && HasRow(w.sessions, k) && w.nextTask != t
    requires Current(w.tasks, w.instance, t) && Early(w.tasks[t].phase)
    requires forall j :: NobodyWorks(w.tasks, w.instance, j) ==> NobodyWorks(ClaimRow(w, k).tasks, w.instance, j)
    ensures RefsSpent(ClaimRow(w, k).sessions, w.receipts, ClaimRow(w, k).tasks, w.instance, w.tasks[t])
  {
    SavedFacts(w.sessions, k, ClaimedImage(Row(w.sessions, k)));
    assert RefsSpent(w.sessions, w.receipts, w.tasks, w.instance, w.tasks[t]);
    forall r | r in IdRefs(w.tasks[t].image.refs) ensures RefSpent(ClaimRow(w, k).sessions, w.receipts, ClaimRow(w, k).tasks, w.instance, w.tasks[t], r) {
      assert RefSpent(w.sessions, w.receipts, w.tasks, w.instance, w.tasks[t], r);
    }
  }

  lemma ClaimedRefsSpent(w: World, k: Key)
    requires RowsTrue(w.sessions, w.receipts) && CompleteIsSpent(w.sessions, w.tasks, w.instance) && Ready(w.sessions, k)
    requires forall j :: NobodyWorks(w.tasks, w.instance, j) ==> NobodyWorks(ClaimRow(w, k).tasks, w.instance, j)
    ensures RefsSpent(ClaimRow(w, k).sessions, w.receipts, ClaimRow(w, k).tasks, w.instance, ClaimTask(w, k))
  {
    var task := ClaimTask(w, k);
    SavedFacts(w.sessions, k, ClaimedImage(Row(w.sessions, k)));
    assert RowTrue(w.sessions, w.receipts, k);
    forall r | r in IdRefs(task.image.refs) ensures RefSpent(ClaimRow(w, k).sessions, w.receipts, ClaimRow(w, k).tasks, w.instance, task, r) {
      assert HasState(w.sessions[k.0].images, r, Complete);
      assert RowTrue(w.sessions, w.receipts, (k.0, r));
    }
  }

  /** A job that ends may write its row: nobody else works for it, and no early job refers to it. */
  lemma EndKeepsSpent(w: World, t: nat, image: Image)
    requires Inv(w) && Spent(w.sessions, w.receipts, w.tasks, w.instance) && Current(w.tasks, w.instance, t) && InDirectory(w.tasks[t].phase)
    requires HasRow(w.sessions, w.tasks[t].key)
    ensures Spent(SavedIn(w.sessions, w.tasks[t].key, image), w.receipts, w.tasks[t := w.tasks[t].(phase := Ended)], w.instance)
  {
    var key, tasks' := w.tasks[t].key, w.tasks[t := w.tasks[t].(phase := Ended)];
    var ss' := SavedIn(w.sessions, key, image);
    EndedAlone(w.tasks, w.instance, t);
    assert FewerWork(w.tasks, tasks');
    forall u | Current(tasks', w.instance, u) && Early(tasks'[u].phase) ensures RefsSpent(ss', w.receipts, tasks', w.instance, tasks'[u]) {
      assert u != t && tasks'[u] == w.tasks[u] && Current(w.tasks, w.instance, u);
      EarlyRefersElsewhere(w, t, u, image);
    }
    CompletedIsSpent(w.sessions, w.tasks, tasks', w.instance, key, image);
  }

  lemma CompletedIsSpent(ss: Sessions, tasks: map<nat, Task>, tasks': map<nat, Task>, instance: nat, key: Key, image: Image)
    requires CompleteIsSpent(ss, tasks, instance) && FewerWork(tasks, tasks') && NobodyWorks(tasks', instance, key) && HasRow(ss, key)
    ensures CompleteIsSpent(SavedIn(ss, key, image), tasks', instance)
  {
    SavedFacts(ss, key, image);
    forall j | HasRow(SavedIn(ss, key, image), j) && Row(SavedIn(ss, key, image), j).state == Complete ensures NobodyWorks(tasks', instance, j) {
      if j != key { NobodyMore(tasks, tasks', instance, j); }
    }
  }

  lemma EndedAlone(tasks: map<nat, Task>, instance: nat, t: nat)
    requires Alone(tasks) && t in tasks && InDirectory(tasks[t].phase)
    ensures NobodyWorks(tasks[t := tasks[t].(phase := Ended)], instance, tasks[t].key)
  {}

  lemma EarlyRefersElsewhere(w: World, t: nat, u: nat, image: Image)
    requires Spent(w.sessions, w.receipts, w.tasks, w.instance) && Current(w.tasks, w.instance, t) && InDirectory(w.tasks[t].phase)
    requires HasRow(w.sessions, w.tasks[t].key) && u != t && Current(w.tasks, w.instance, u) && Early(w.tasks[u].phase)
    ensures RefsSpent(SavedIn(w.sessions, w.tasks[t].key, image), w.receipts, w.tasks[t := w.tasks[t].(phase := Ended)], w.instance, w.tasks[u])
  {
    var tasks' := w.tasks[t := w.tasks[t].(phase := Ended)];
    SavedFacts(w.sessions, w.tasks[t].key, image);
    assert RefsSpent(w.sessions, w.receipts, w.tasks, w.instance, w.tasks[u]) && FewerWork(w.tasks, tasks');
    forall r | r in IdRefs(w.tasks[u].image.refs)
      ensures RefSpent(SavedIn(w.sessions, w.tasks[t].key, image), w.receipts, tasks', w.instance, w.tasks[u], r)
    {
      var j := (w.tasks[u].key.0, r);
      assert RefSpent(w.sessions, w.receipts, w.tasks, w.instance, w.tasks[u], r);
      assert j != w.tasks[t].key;
      NobodyMore(w.tasks, tasks', w.instance, j);
    }
  }

  // ---------------------------------------------------------------- every event keeps that

  lemma DraftsNothingNew(ss: Sessions, s: string, ss': Sessions)
    requires DraftsIn(ss, s, ss')
    ensures NothingNew(ss, ss')
  {
    forall j | HasRow(ss', j) && (Row(ss', j).state == Complete || Row(ss', j).output.Some?) ensures HadThat(ss, ss', j) {
      if j.0 == s {
        if HasRow(ss, j) { assert Drafted(Row(ss, j), Row(ss', j)); }
      }
    }
  }

  lemma SavedNothingNew(ss: Sessions, key: Key, image: Image)
    requires HasRow(ss, key) && image.state != Complete && image.output == Row(ss, key).output
    ensures NothingNew(ss, SavedIn(ss, key, image))
  {
    SavedFacts(ss, key, image);
  }

  /** Whatever completes nothing, gives no output and lets nobody into a directory. */
  lemma FewerKeepSources(w: World, w': World)
    requires Sources(w) && (!w'.stopped ==> !w.stopped && w'.instance == w.instance)
    requires FewerWork(w.tasks, w'.tasks) && NothingNew(w.sessions, w'.sessions) && forall j :: j in w.receipts ==> j in w'.receipts
    ensures Sources(w')
  {
    if !w'.stopped { FewerKeepSpent(w.sessions, w'.sessions, w.receipts, w'.receipts, w.tasks, w'.tasks, w.instance); }
  }

  lemma ThreadEventSources(w: World, e: Event, w': World)
    requires Inv(w) && Sources(w) && Next(w, e, w') && (e.AddThread? || e.DeleteThread? || e.Accept? || e.ResolveSession?)
    ensures Sources(w')
  {
    match e
    case AddThread(s) => AddedNothingNew(w, s); FewerKeepSources(w, w');
    case DeleteThread(s) => DeletedNothingNew(w, s); FewerKeepSources(w, w');
    case Accept(s, message, tags) => AcceptSources(w, s, message, tags, w');
    case ResolveSession(s) => ResolutionSources(w, s, w');
  }

  lemma AddedNothingNew(w: World, s: string)
    requires s !in w.sessions
    ensures NothingNew(w.sessions, Added(w, s).sessions)
  {
    forall j | HasRow(Added(w, s).sessions, j) ensures HasRow(w.sessions, j) {}
  }

  lemma DeletedNothingNew(w: World, s: string)
    ensures NothingNew(w.sessions, Deleted(w, s).sessions)
  {
    forall j | HasRow(Deleted(w, s).sessions, j) ensures HasRow(w.sessions, j) {}
  }

  lemma AcceptSources(w: World, s: string, message: string, tags: seq<Tag>, w': World)
    requires Inv(w) && Sources(w) && Next(w, Accept(s, message, tags), w')
    ensures Sources(w')
  {
    AcceptDrafts(w, s, message, tags, w');
    DraftsNothingNew(w.sessions, s, w'.sessions);
    FewerKeepSources(w, w');
  }

  lemma ResolutionSources(w: World, s: string, w': World)
    requires Inv(w) && Sources(w) && ResolvesTo(w, s, w')
    ensures Sources(w')
  {
    TrueIsTrueExcept(w.sessions, w.receipts, s);
    ResolveKeeps(w, s, w');
    DraftsNothingNew(w.sessions, s, w'.sessions);
    FewerKeepSources(w, w');
  }

  /** The phases that a job goes on to, except into its directory. */
  predicate Onward(a: Phase, b: Phase) { !Early(b) && (InDirectory(b) ==> InDirectory(a)) }

  lemma MoveSources(w: World, t: nat, phase: Phase, w': World)
    requires Sources(w) && t in w.tasks && Onward(w.tasks[t].phase, phase)
    requires w'.tasks == w.tasks[t := w.tasks[t].(phase := phase)] && w'.sessions == w.sessions && w'.stopped == w.stopped && w'.instance == w.instance
    requires forall j :: j in w.receipts ==> j in w'.receipts
    ensures Sources(w')
  {
    FewerKeepSources(w, w');
  }

  lemma MakeSources(w: World, t: nat)
    requires Inv(w) && Sources(w) && At(w, t, Claimed) && w.tasks[t].key !in w.directories
    ensures Sources(Move(w, t, Prepared).(directories := w.directories + {w.tasks[t].key}))
  {
    var key := w.tasks[t].key;
    assert key !in w.calls && key !in w.receipts;
    if HasRow(w.sessions, key) { assert RowTrue(w.sessions, w.receipts, key); }
    if !w.stopped { MakeKeepsSpent(w.sessions, w.receipts, w.tasks, w.instance, t); }
  }

  lemma WorkEventSources(w: World, e: Event, w': World)
    requires Inv(w) && Sources(w) && Next(w, e, w') && (e.Claim? || e.MakeDirectory? || e.ReadSources? || e.Reap?)
    ensures Sources(w')
  {
    if e.Claim? { ClaimSources(w, e.key); }
    else if e.MakeDirectory? { MakeSources(w, e.task); }
    else if e.ReadSources? { SourcedSources(w, e.task); }
    else { ReapSources(w, e.task); }
  }

  lemma SourcedSources(w: World, t: nat)
    requires Sources(w) && At(w, t, Prepared)
    ensures Sources(Move(w, t, Sourced))
  {
    MoveSources(w, t, Sourced, Move(w, t, Sourced));
  }

  lemma ClaimSources(w: World, k: Key)
    requires Inv(w) && Sources(w) && Ready(w.sessions, k)
    ensures Sources(ClaimRow(w, k))
  {
    if !w.stopped { ClaimKeepsSpent(w, k); }
  }

  lemma ReapSources(w: World, t: nat)
    requires Sources(w) && t in w.tasks
    ensures Sources(Reaped(w, t))
  {
    FewerKeepSources(w, Reaped(w, t));
  }

  lemma ProviderEventSources(w: World, e: Event, w': World)
    requires Sources(w) && Next(w, e, w') && (e.CallProvider? || e.Deliver? || e.Publish?)
    ensures Sources(w')
  {
    match e
    case CallProvider(t) => CallSources(w, t);
    case Deliver(t) => MoveSources(w, t, Delivered, w');
    case Publish(t, output) => MoveSources(w, t, Published, w');
  }

  lemma CallSources(w: World, t: nat)
    requires Sources(w) && At(w, t, Sourced)
    ensures Sources(CallingOrEnded(w, t))
  {
    if !w.owner || !HasRow(w.sessions, w.tasks[t].key) {
      MoveSources(w, t, Ended, Move(w, t, Ended));
    } else {
      MoveSources(w, t, Called, Calling(w, t));
    }
  }

  lemma FailSources(w: World, t: nat, code: ErrorCode)
    requires Sources(w) && t in w.tasks
    ensures Sources(Move(Finished(w, t, FailWith(code)), t, Ended))
  {
    if Writes(w, t) {
      FailedSources(w, t, w.tasks[t].key, FailedImage(Row(w.sessions, w.tasks[t].key), code));
    } else {
      MoveSources(w, t, Ended, Move(w, t, Ended));
    }
  }

  lemma FailedSources(w: World, t: nat, key: Key, image: Image)
    requires Sources(w) && t in w.tasks && HasRow(w.sessions, key) && image.state != Complete && image.output == Row(w.sessions, key).output
    ensures Sources(Move(SaveRow(w, key, image), t, Ended))
  {
    SavedNothingNew(w.sessions, key, image);
    var saved := SaveRow(w, key, image);
    FewerKeepSources(w, saved);
    MoveSources(saved, t, Ended, Move(saved, t, Ended));
  }

  lemma FinishSources(w: World, t: nat, output: Output)
    requires Inv(w) && Sources(w) && At(w, t, Published)
    ensures Sources(Move(Finished(w, t, CompleteWith(output)), t, Ended))
  {
    if Writes(w, t) {
      EndKeepsSpent(w, t, CompleteWith(output)(Row(w.sessions, w.tasks[t].key)));
    } else {
      MoveSources(w, t, Ended, Move(w, t, Ended));
    }
  }

  lemma EndEventSources(w: World, e: Event, w': World)
    requires Inv(w) && Sources(w) && Next(w, e, w') && IsEnd(e)
    ensures Sources(w')
  {
    match e
    case Throw(t) => FailSources(w, t, ThrownCode(w.tasks[t].phase));
    case Refuse(t) => FailSources(w, t, ProviderError);
    case Finish(t) => FinishSources(w, t, w.receipts[w.tasks[t].key]);
  }

  lemma ControlEventSources(w: World, e: Event, w': World)
    requires Inv(w) && Sources(w) && Next(w, e, w')
    requires e.SetOwner? || e.Stop? || e.Crash? || e.ReadRows? || e.ReadReceipt? || e.Recover? || e.Start?
    ensures Sources(w')
  {
    if e.SetOwner? {
      FewerKeepSources(w, w');
    } else if e.Start? {
      StartSources(w);
    } else {
      StoppedSources(w, e, w');
    }
  }

  lemma StoppedSources(w: World, e: Event, w': World)
    requires Recovery(w) && Next(w, e, w') && (e.Stop? || e.Crash? || e.ReadRows? || e.ReadReceipt? || e.Recover?)
    ensures w'.stopped
  {}

  /** The jobs of earlier instances do nothing more. */
  lemma StartSources(w: World)
    requires Slots(w)
    ensures Sources(Started(w))
  {
    var next := w.instance + 1;
    assert forall t :: !Current(w.tasks, next, t);
  }

  lemma SourcesStep(w: World, e: Event, w': World)
    requires Inv(w) && Sources(w) && Next(w, e, w')
    ensures Sources(w')
  {
    if e.AddThread? || e.DeleteThread? || e.Accept? || e.ResolveSession? {
      ThreadEventSources(w, e, w');
    } else if e.Claim? || e.MakeDirectory? || e.ReadSources? || e.Reap? {
      WorkEventSources(w, e, w');
    } else if e.CallProvider? || e.Deliver? || e.Publish? {
      ProviderEventSources(w, e, w');
    } else if IsEnd(e) {
      EndEventSources(w, e, w');
    } else {
      ControlEventSources(w, e, w');
    }
  }

  ghost predicate Sane(w: World) { Inv(w) && Sources(w) }

  lemma StepKeepsSane(w: World, w': World)
    requires Sane(w) && Step(w, w')
    ensures Sane(w')
  {
    var e :| Next(w, e, w');
    InvStep(w, e, w');
    SourcesStep(w, e, w');
  }

  lemma {:induction false} SaneAlongRun(trace: seq<World>, i: nat)
    requires Run(trace) && Sane(trace[0]) && i < |trace|
    ensures Sane(trace[i])
  {
    if i > 0 {
      SaneAlongRun(trace, i - 1);
      SaneNext(trace, i);
    }
  }

  lemma SaneNext(trace: seq<World>, i: nat)
    requires Run(trace) && 0 < i < |trace| && Sane(trace[i - 1])
    ensures Sane(trace[i])
  {
    StepAlongRun(trace, i - 1);
    StepKeepsSane(trace[i - 1], trace[i]);
  }

  lemma ReachableSane(concurrency: nat, w: World)
    requires Reaches(Initial(concurrency), w)
    ensures Sane(w)
  {
    var trace :| Run(trace) && trace[0] == Initial(concurrency) && trace[|trace| - 1] == w;
    InitialInv(concurrency);
    InitialSources(concurrency);
    SaneAlongRun(trace, |trace| - 1);
  }

  lemma InitialSources(concurrency: nat)
    ensures Sources(Initial(concurrency))
  {}

  // ---------------------------------------------------------------- what may still be answered

  predicate Asks(r: Request, prompt: string, refs: seq<string>) { r.prompt == prompt && r.refs == refs }

  /**
   * A job of the running supervisor that may yet call the provider for `k`: its sources are read, or it has none to read and has
   * the attempt directory or can make it.  A job that waits for sources of a former life waits in vain.
   */
  predicate MayAsk(w: World, t: nat, k: Key) {
    t in w.tasks && w.tasks[t].key == k && w.tasks[t].instance == w.instance
    && (w.tasks[t].phase == Sourced
        || (IdRefs(w.tasks[t].image.refs) == [] && (w.tasks[t].phase == Prepared || (w.tasks[t].phase == Claimed && k !in w.directories))))
  }

  /** The provider has been asked, and its answer is published or may yet be. */
  ghost predicate Underway(receipts: map<Key, Output>, tasks: map<nat, Task>, k: Key) {
    k in receipts || exists t :: Delivering(tasks, t, k)
  }

  predicate Delivering(tasks: map<nat, Task>, t: nat, k: Key) {
    t in tasks && tasks[t].key == k && (tasks[t].phase == Called || tasks[t].phase == Delivered)
  }

  /** No answer to another definition is there or on its way, and no job may yet ask for one. */
  ghost predicate Clear(w: World, k: Key, prompt: string, refs: seq<string>) {
    && (k in w.asked && Underway(w.receipts, w.tasks, k) ==> Asks(w.asked[k], prompt, refs))
    && (k !in w.asked && !w.stopped ==> forall t :: MayAsk(w, t, k) ==> Asks(Asking(w.tasks[t]), prompt, refs))
  }

  /** Nothing more is underway for `k`, and nobody more may ask. */
  ghost predicate NoMore(w: World, w': World, k: Key) {
    && (k in w'.asked <==> k in w.asked) && (k in w.asked ==> w'.asked[k] == w.asked[k])
    && (Underway(w'.receipts, w'.tasks, k) ==> Underway(w.receipts, w.tasks, k))
    && (!w'.stopped ==> forall t :: MayAsk(w', t, k) ==> !w.stopped && MayAsk(w, t, k) && Asking(w'.tasks[t]) == Asking(w.tasks[t]))
  }

  lemma NoMoreStaysClear(w: World, w': World, k: Key, prompt: string, refs: seq<string>)
    requires Clear(w, k, prompt, refs) && NoMore(w, w', k)
    ensures Clear(w', k, prompt, refs)
  {}

  /** The history of calls is as it was, and so are the jobs up to those that are gone. */
  lemma FewerNoMore(w: World, w': World, k: Key)
    requires w'.asked == w.asked && w'.receipts == w.receipts && w'.directories == w.directories
    requires (!w'.stopped ==> !w.stopped) && w'.instance == w.instance
    requires forall t :: t in w'.tasks ==> t in w.tasks && w'.tasks[t] == w.tasks[t]
    ensures NoMore(w, w', k)
  {
    UnderwayFewer(w.receipts, w.tasks, w.receipts, w'.tasks, k);
  }

  lemma UnderwayFewer(receipts: map<Key, Output>, tasks: map<nat, Task>, receipts': map<Key, Output>, tasks': map<nat, Task>, k: Key)
    requires k in receipts' ==> Underway(receipts, tasks, k)
    requires forall t :: Delivering(tasks', t, k) ==> Delivering(tasks, t, k)
    ensures Underway(receipts', tasks', k) ==> Underway(receipts, tasks, k)
  {}

  /** A job that stops, or goes on without asking. */
  lemma MovedNoMore(w: World, t: nat, phase: Phase, k: Key)
    requires t in w.tasks && (phase == Ended || (phase == Delivered && w.tasks[t].phase == Called))
    ensures NoMore(w, Move(w, t, phase), k)
  {
    UnderwayFewer(w.receipts, w.tasks, w.receipts, Move(w, t, phase).tasks, k);
  }

  lemma MadeNoMore(w: World, t: nat, k: Key)
    requires At(w, t, Claimed) && w.tasks[t].key !in w.directories
    ensures NoMore(w, Move(w, t, Prepared).(directories := w.directories + {w.tasks[t].key}), k)
  {
    UnderwayFewer(w.receipts, w.tasks, w.receipts, Move(w, t, Prepared).tasks, k);
  }

  lemma PublishedNoMore(w: World, t: nat, output: Output, k: Key)
    requires At(w, t, Delivered)
    ensures NoMore(w, Move(w, t, Published).(receipts := w.receipts[w.tasks[t].key := output]), k)
  {
    PublishedUnderway(w.receipts, w.tasks, t, output, k);
    PublishedMayAsk(w, t, output, k);
  }

  lemma PublishedUnderway(receipts: map<Key, Output>, tasks: map<nat, Task>, t: nat, output: Output, k: Key)
    requires t in tasks && tasks[t].phase == Delivered
    ensures Underway(receipts[tasks[t].key := output], tasks[t := tasks[t].(phase := Published)], k) ==> Underway(receipts, tasks, k)
  {
    if tasks[t].key == k {
      assert Delivering(tasks, t, k);
    } else {
      UnderwayFewer(receipts, tasks, receipts[tasks[t].key := output], tasks[t := tasks[t].(phase := Published)], k);
    }
  }

  lemma PublishedMayAsk(w: World, t: nat, output: Output, k: Key)
    requires At(w, t, Delivered)
    ensures var w' := Move(w, t, Published).(receipts := w.receipts[w.tasks[t].key := output]);
      forall u :: MayAsk(w', u, k) ==> MayAsk(w, u, k) && w'.tasks[u] == w.tasks[u]
  {}

  /** In this life of the thread the row of `k` has this definition. */
  ghost predicate DefinedAs(w: World, k: Key, prompt: string, refs: seq<string>) {
    HasRow(w.sessions, k) && Row(w.sessions, k).prompt == prompt && Row(w.sessions, k).refs == refs
  }

  lemma ClaimedClear(w: World, j: Key, k: Key, prompt: string, refs: seq<string>)
    requires Clear(w, k, prompt, refs) && DefinedAs(w, k, prompt, refs) && HasRow(w.sessions, j) && !w.stopped
    ensures Clear(ClaimRow(w, j), k, prompt, refs)
  {
    var w' := ClaimRow(w, j);
    forall t | Delivering(w'.tasks, t, k) ensures Delivering(w.tasks, t, k) { assert t != w.nextTask; }
    UnderwayFewer(w.receipts, w.tasks, w.receipts, w'.tasks, k);
    if k !in w.asked {
      forall t | MayAsk(w', t, k) ensures Asks(Asking(w'.tasks[t]), prompt, refs) {
        if t != w.nextTask { assert MayAsk(w, t, k); }
      }
    }
  }

  /** A job that reads its sources asks for what the row says: it is of this life, or had nothing to read. */
  lemma ReadyAsks(w: World, t: nat, k: Key, prompt: string, refs: seq<string>)
    requires Requests(w) && Sources(w) && !w.stopped && DefinedAs(w, k, prompt, refs)
    requires At(w, t, Prepared) && w.tasks[t].key == k && w.tasks[t].instance == w.instance && SourcesReady(w, t)
    ensures Asks(Asking(w.tasks[t]), prompt, refs) || MayAsk(w, t, k)
  {
    var task := w.tasks[t];
    assert RequestTrue(w.sessions, k, Asking(task), w.nextEpoch);
    FormerLifeReadsNothing(w, t);
  }

  lemma FormerLifeReadsNothing(w: World, t: nat)
    requires Sources(w) && !w.stopped && At(w, t, Prepared) && w.tasks[t].instance == w.instance && w.tasks[t].key.0 in w.sessions
    ensures IdRefs(w.tasks[t].image.refs) != [] && w.sessions[w.tasks[t].key.0].epoch != w.tasks[t].life ==> !SourcesReady(w, t)
  {
    if IdRefs(w.tasks[t].image.refs) != [] {
      var r := IdRefs(w.tasks[t].image.refs)[0];
      assert r in IdRefs(w.tasks[t].image.refs);
      assert Current(w.tasks, w.instance, t);
      assert RefSpent(w.sessions, w.receipts, w.tasks, w.instance, w.tasks[t], r);
    }
  }

  lemma ReadClear(w: World, t: nat, k: Key, prompt: string, refs: seq<string>)
    requires Requests(w) && Sources(w) && Clear(w, k, prompt, refs) && DefinedAs(w, k, prompt, refs) && At(w, t, Prepared) && SourcesReady(w, t)
    ensures Clear(Move(w, t, Sourced), k, prompt, refs)
  {
    var w' := Move(w, t, Sourced);
    UnderwayFewer(w.receipts, w.tasks, w.receipts, w'.tasks, k);
    if k !in w.asked && !w.stopped {
      if w.tasks[t].key == k && w.tasks[t].instance == w.instance { ReadyAsks(w, t, k, prompt, refs); }
      forall u | MayAsk(w', u, k) ensures Asks(Asking(w'.tasks[u]), prompt, refs) {
        if u != t { assert MayAsk(w, u, k); }
      }
    }
  }

  lemma CalledClear(w: World, t: nat, k: Key, prompt: string, refs: seq<string>)
    requires Attempts(w) && Requests(w) && Clear(w, k, prompt, refs) && At(w, t, Sourced) && Live(w, t)
    ensures Clear(CallingOrEnded(w, t), k, prompt, refs)
  {
    if !w.owner || !HasRow(w.sessions, w.tasks[t].key) {
      MovedNoMore(w, t, Ended, k);
      NoMoreStaysClear(w, Move(w, t, Ended), k, prompt, refs);
    } else if w.tasks[t].key == k {
      assert TaskOk(w.calls, w.directories, w.receipts, w.tasks[t]);
      assert MayAsk(w, t, k) && k !in w.asked;
    } else {
      OtherCalledNoMore(w, t, k);
      NoMoreStaysClear(w, Calling(w, t), k, prompt, refs);
    }
  }

  lemma OtherCalledNoMore(w: World, t: nat, k: Key)
    requires At(w, t, Sourced) && w.tasks[t].key != k
    ensures NoMore(w, Calling(w, t), k)
  {
    UnderwayFewer(w.receipts, w.tasks, w.receipts, Calling(w, t).tasks, k);
  }

  /** The end of a job does not depend on what it writes. */
  lemma EndedNoMore(w: World, t: nat, image: Image -> Image, k: Key)
    requires t in w.tasks
    ensures NoMore(w, Move(Finished(w, t, image), t, Ended), k)
  {
    var saved := Finished(w, t, image);
    FewerNoMore(w, saved, k);
    MovedNoMore(saved, t, Ended, k);
    NoMoreTogether(w, saved, Move(saved, t, Ended), k);
  }

  lemma NoMoreTogether(a: World, b: World, c: World, k: Key)
    requires NoMore(a, b, k) && NoMore(b, c, k)
    ensures NoMore(a, c, k)
  {}

  lemma StartedNoMore(w: World, k: Key)
    requires Slots(w)
    ensures NoMore(w, Started(w), k)
  {
    forall t ensures !MayAsk(Started(w), t, k) {}
    UnderwayFewer(w.receipts, w.tasks, w.receipts, w.tasks, k);
  }

  // ---------------------------------------------------------------- every event keeps it so, within the life of the thread

  lemma QuietClear(w: World, w': World, k: Key, prompt: string, refs: seq<string>)
    requires Clear(w, k, prompt, refs) && w'.asked == w.asked && w'.receipts == w.receipts && w'.directories == w.directories
    requires (!w'.stopped ==> !w.stopped) && w'.instance == w.instance && forall t :: t in w'.tasks ==> t in w.tasks && w'.tasks[t] == w.tasks[t]
    ensures Clear(w', k, prompt, refs)
  {
    FewerNoMore(w, w', k);
    NoMoreStaysClear(w, w', k, prompt, refs);
  }

  lemma AcceptClear(w: World, e: Event, w': World, k: Key, prompt: string, refs: seq<string>)
    requires Inv(w) && Clear(w, k, prompt, refs) && Next(w, e, w') && (e.Accept? || e.ResolveSession?)
    ensures Clear(w', k, prompt, refs)
  {
    if e.Accept? { AcceptDrafts(w, e.session, e.message, e.tags, w'); }
    QuietClear(w, w', k, prompt, refs);
  }

  lemma ControlClear(w: World, e: Event, w': World, k: Key, prompt: string, refs: seq<string>)
    requires Slots(w) && Clear(w, k, prompt, refs) && Next(w, e, w')
    requires e.AddThread? || e.DeleteThread? || e.SetOwner? || e.Stop? || e.Crash? || e.Start? || e.Reap?
    ensures Clear(w', k, prompt, refs)
  {
    if e.Start? {
      StartedNoMore(w, k);
      NoMoreStaysClear(w, w', k, prompt, refs);
    } else {
      QuietControl(w, e, w');
      QuietClear(w, w', k, prompt, refs);
    }
  }

  lemma QuietControl(w: World, e: Event, w': World)
    requires Next(w, e, w') && (e.AddThread? || e.DeleteThread? || e.SetOwner? || e.Stop? || e.Crash? || e.Reap?)
    ensures w'.asked == w.asked && w'.receipts == w.receipts && w'.directories == w.directories && w'.instance == w.instance
    ensures (!w'.stopped ==> !w.stopped) && forall t :: t in w'.tasks ==> t in w.tasks && w'.tasks[t] == w.tasks[t]
  {}

  lemma RecoveryClear(w: World, e: Event, w': World, k: Key, prompt: string, refs: seq<string>)
    requires Clear(w, k, prompt, refs) && Next(w, e, w') && (e.ReadRows? || e.ReadReceipt? || e.Recover?)
    ensures Clear(w', k, prompt, refs)
  {
    QuietRecovery(w, e, w');
    QuietClear(w, w', k, prompt, refs);
  }

  lemma QuietRecovery(w: World, e: Event, w': World)
    requires Next(w, e, w') && (e.ReadRows? || e.ReadReceipt? || e.Recover?)
    ensures w'.asked == w.asked && w'.receipts == w.receipts && w'.directories == w.directories && w'.instance == w.instance
    ensures w'.stopped == w.stopped && w'.tasks == w.tasks
  {}

  lemma WorkClear(w: World, e: Event, w': World, k: Key, prompt: string, refs: seq<string>)
    requires Attempts(w) && Requests(w) && Sources(w) && Clear(w, k, prompt, refs) && DefinedAs(w, k, prompt, refs) && Next(w, e, w')
    requires e.Claim? || e.MakeDirectory? || e.ReadSources? || e.CallProvider?
    ensures Clear(w', k, prompt, refs)
  {
    if e.Claim? {
      ClaimedClear(w, e.key, k, prompt, refs);
    } else if e.MakeDirectory? {
      MadeNoMore(w, e.task, k);
      NoMoreStaysClear(w, w', k, prompt, refs);
    } else if e.ReadSources? {
      ReadClear(w, e.task, k, prompt, refs);
    } else {
      CalledClear(w, e.task, k, prompt, refs);
    }
  }

  lemma OutcomeClear(w: World, e: Event, w': World, k: Key, prompt: string, refs: seq<string>)
    requires Clear(w, k, prompt, refs) && Next(w, e, w') && (e.Deliver? || e.Publish? || IsEnd(e))
    ensures Clear(w', k, prompt, refs)
  {
    if IsEnd(e) {
      EndEventClear(w, e, w', k, prompt, refs);
    } else {
      if e.Deliver? { MovedNoMore(w, e.task, Delivered, k); } else { PublishedNoMore(w, e.task, e.output, k); }
      NoMoreStaysClear(w, w', k, prompt, refs);
    }
  }

  lemma EndEventClear(w: World, e: Event, w': World, k: Key, prompt: string, refs: seq<string>)
    requires Clear(w, k, prompt, refs) && Next(w, e, w') && IsEnd(e)
    ensures Clear(w', k, prompt, refs)
  {
    match e
    case Throw(t) => EndedClear(w, t, FailWith(ThrownCode(w.tasks[t].phase)), k, prompt, refs);
    case Refuse(t) => EndedClear(w, t, FailWith(ProviderError), k, prompt, refs);
    case Finish(t) => EndedClear(w, t, CompleteWith(w.receipts[w.tasks[t].key]), k, prompt, refs);
  }

  lemma EndedClear(w: World, t: nat, image: Image -> Image, k: Key, prompt: string, refs: seq<string>)
    requires Clear(w, k, prompt, refs) && t in w.tasks
    ensures Clear(Move(Finished(w, t, image), t, Ended), k, prompt, refs)
  {
    EndedNoMore(w, t, image, k);
    NoMoreStaysClear(w, Move(Finished(w, t, image), t, Ended), k, prompt, refs);
  }

  lemma ClearStep(w: World, e: Event, w': World, k: Key, prompt: string, refs: seq<string>)
    requires Inv(w) && Sources(w) && Clear(w, k, prompt, refs) && DefinedAs(w, k, prompt, refs) && Next(w, e, w')
    ensures Clear(w', k, prompt, refs)
  {
    if e.Accept? || e.ResolveSession? {
      AcceptClear(w, e, w', k, prompt, refs);
    } else if e.ReadRows? || e.ReadReceipt? || e.Recover? {
      RecoveryClear(w, e, w', k, prompt, refs);
    } else if e.Claim? || e.MakeDirectory? || e.ReadSources? || e.CallProvider? {
      WorkClear(w, e, w', k, prompt, refs);
    } else if e.Deliver? || e.Publish? || IsEnd(e) {
      OutcomeClear(w, e, w', k, prompt, refs);
    } else {
      ControlClear(w, e, w', k, prompt, refs);
    }
  }

  lemma StepKeepsClear(w: World, w': World, k: Key, prompt: string, refs: seq<string>)
    requires Sane(w) && Clear(w, k, prompt, refs) && DefinedAs(w, k, prompt, refs) && Step(w, w')
    ensures Clear(w', k, prompt, refs)
  {
    var e :| Next(w, e, w');
    ClearStep(w, e, w', k, prompt, refs);
  }

  /** A life of the thread that begins with no recovery on. */
  ghost predicate LifeFrom(trace: seq<World>, k: Key, prompt: string, refs: seq<string>) {
    && Run(trace) && Sane(trace[0]) && Undisturbed(trace[0], k.0)
    && DefinedAs(trace[0], k, prompt, refs) && Clear(trace[0], k, prompt, refs)
  }

  lemma StillDefined(trace: seq<World>, i: nat, k: Key, prompt: string, refs: seq<string>)
    requires LifeFrom(trace, k, prompt, refs) && i < |trace| && SameThread(trace[0], trace[i], k.0)
    ensures DefinedAs(trace[i], k, prompt, refs)
  {
    ThreadHistory(trace, 0, i, k.0);
    assert k.1 in trace[0].sessions[k.0].images;
  }

  lemma {:induction false} ClearAlongRun(trace: seq<World>, i: nat, k: Key, prompt: string, refs: seq<string>)
    requires LifeFrom(trace, k, prompt, refs) && i < |trace| && SameThread(trace[0], trace[i], k.0)
    ensures Clear(trace[i], k, prompt, refs)
  {
    if i > 0 {
      LivesBefore(trace, 0, i, k.0);
      ClearAlongRun(trace, i - 1, k, prompt, refs);
      StillDefined(trace, i - 1, k, prompt, refs);
      SaneAlongRun(trace, i - 1);
      ClearNext(trace, i, k, prompt, refs);
    }
  }

  lemma ClearNext(trace: seq<World>, i: nat, k: Key, prompt: string, refs: seq<string>)
    requires Run(trace) && 0 < i < |trace| && Sane(trace[i - 1])
    requires Clear(trace[i - 1], k, prompt, refs) && DefinedAs(trace[i - 1], k, prompt, refs)
    ensures Clear(trace[i], k, prompt, refs)
  {
    StepAlongRun(trace, i - 1);
    StepKeepsClear(trace[i - 1], trace[i], k, prompt, refs);
  }

  /** A complete row shows the answer to its own definition. */
  ghost predicate Answered(w: World, k: Key) {
    HasRow(w.sessions, k) && Row(w.sessions, k).state == Complete ==>
      k in w.asked && Asks(w.asked[k], Row(w.sessions, k).prompt, Row(w.sessions, k).refs)
  }

  lemma ClearIsAnswered(w: World, k: Key, prompt: string, refs: seq<string>)
    requires Inv(w) && Clear(w, k, prompt, refs) && DefinedAs(w, k, prompt, refs)
    ensures Answered(w, k)
  {
    if Row(w.sessions, k).state == Complete {
      assert RowTrue(w.sessions, w.receipts, k);
      assert k in w.calls;
    }
  }

  /** So it is in the whole life of the thread. */
  lemma ClearAnswers(w: World, w': World, k: Key, prompt: string, refs: seq<string>)
    requires Sane(w) && Undisturbed(w, k.0) && Clear(w, k, prompt, refs) && DefinedAs(w, k, prompt, refs)
    requires Reaches(w, w') && SameThread(w, w', k.0)
    ensures Answered(w', k)
  {
    var trace :| Run(trace) && trace[0] == w && trace[|trace| - 1] == w';
    ClearAlongRun(trace, |trace| - 1, k, prompt, refs);
    StillDefined(trace, |trace| - 1, k, prompt, refs);
    SaneAlongRun(trace, |trace| - 1);
    ClearIsAnswered(w', k, prompt, refs);
  }

  // ---------------------------------------------------------------- otherwise a wrong answer is possible

  /** In this life of the thread the image may come to show another answer. */
  ghost predicate MayMislead(w: World, k: Key) {
    exists w' :: Reaches(w, w') && SameThread(w, w', k.0) && !Answered(w', k)
  }

  lemma MisleadsBefore(w: World, e: Event, w': World, k: Key)
    requires Next(w, e, w') && SameThread(w, w', k.0) && MayMislead(w', k)
    ensures MayMislead(w, k)
  {
    var w2 :| Reaches(w', w2) && SameThread(w', w2, k.0) && !Answered(w2, k);
    ReachesSelf(w);
    ReachesStep(w, w, e, w');
    ReachesTransitive(w, w', w2);
  }

  /** Generating, with an attempt directory: a recovery would look for a receipt. */
  predicate Attempted(w: World, k: Key) {
    HasRow(w.sessions, k) && Row(w.sessions, k).state == Generating && Row(w.sessions, k).attempted
  }

  ghost predicate OtherAsked(w: World, k: Key) {
    HasRow(w.sessions, k) && k in w.asked && !Asks(w.asked[k], Row(w.sessions, k).prompt, Row(w.sessions, k).refs)
  }

  /** A restart completes the row from the receipt that is there. */
  lemma ReceiptMisleads(w: World, k: Key)
    requires Inv(w) && !w.recovering && Attempted(w, k) && OtherAsked(w, k) && k in w.receipts
    ensures MayMislead(w, k)
  {
    var stopped := w.(stopped := true);
    assert k in w.order;
    RowsReadMislead(stopped, k);
    MisleadsBefore(w, Stop, stopped, k);
  }

  lemma RowsReadMislead(w: World, k: Key)
    requires w.stopped && !w.recovering && k in w.order && Attempted(w, k) && OtherAsked(w, k) && k in w.receipts
    ensures MayMislead(w, k)
  {
    var reading := w.(recovering := true, stale := GeneratingRows(w));
    LookMisleads(reading, k);
    MisleadsBefore(w, ReadRows, reading, k);
  }

  lemma LookMisleads(w: World, k: Key)
    requires OtherAsked(w, k) && k in w.receipts && k in w.stale && w.stale[k].receipt.None?
    requires w.stale[k].image == Row(w.sessions, k) && Row(w.sessions, k).attempted
    ensures MayMislead(w, k)
  {
    var looked := w.(stale := w.stale[k := ReceiptRead(w, k)]);
    WrittenMisleads(looked, k);
    MisleadsBefore(w, ReadReceipt(k), looked, k);
  }

  lemma WrittenMisleads(w: World, k: Key)
    requires k in w.stale && w.stale[k].receipt.Some? && w.stale[k].receipt.value.Some? && OtherAsked(w, k)
    requires w.stale[k].image.prompt == Row(w.sessions, k).prompt && w.stale[k].image.refs == Row(w.sessions, k).refs
    ensures MayMislead(w, k)
  {
    var w' := RecoverRow(w, k);
    SavedFacts(w.sessions, k, Reconciled(w.sessions, k, w.stale[k]));
    ReachesSelf(w);
    ReachesStep(w, w, Recover(k), w');
    assert !Answered(w', k);
  }

  /** The answer that is on its way is published first. */
  lemma DeliveryMisleads(w: World, t: nat, k: Key)
    requires Inv(w) && !w.recovering && Attempted(w, k) && OtherAsked(w, k) && Delivering(w.tasks, t, k)
    ensures MayMislead(w, k)
  {
    if w.tasks[t].phase == Called {
      var delivered := Move(w, t, Delivered);
      InvStep(w, Deliver(t), delivered);
      PublicationMisleads(delivered, t, k);
      MisleadsBefore(w, Deliver(t), delivered, k);
    } else {
      PublicationMisleads(w, t, k);
    }
  }

  lemma PublicationMisleads(w: World, t: nat, k: Key)
    requires Inv(w) && !w.recovering && Attempted(w, k) && OtherAsked(w, k) && At(w, t, Delivered) && w.tasks[t].key == k
    ensures MayMislead(w, k)
  {
    var output := Output("1.png", "r");
    var published := Move(w, t, Published).(receipts := w.receipts[k := output]);
    InvStep(w, Publish(t, output), published);
    ReceiptMisleads(published, k);
    MisleadsBefore(w, Publish(t, output), published, k);
  }

  /** The job that may yet ask gets as far as asking. */
  lemma AskingMisleads(w: World, t: nat, k: Key)
    requires Inv(w) && !w.recovering && !w.stopped && w.owner && Attempted(w, k) && k !in w.asked && MayAsk(w, t, k)
    requires !Asks(Asking(w.tasks[t]), Row(w.sessions, k).prompt, Row(w.sessions, k).refs)
    ensures MayMislead(w, k)
  {
    if w.tasks[t].phase == Sourced {
      CallMisleads(w, t, k);
    } else if w.tasks[t].phase == Prepared {
      ReadingMisleads(w, t, k);
    } else {
      var made := Move(w, t, Prepared).(directories := w.directories + {k});
      InvStep(w, MakeDirectory(t), made);
      ReadingMisleads(made, t, k);
      MisleadsBefore(w, MakeDirectory(t), made, k);
    }
  }

  lemma ReadingMisleads(w: World, t: nat, k: Key)
    requires Inv(w) && !w.recovering && !w.stopped && w.owner && Attempted(w, k) && k !in w.asked
    requires At(w, t, Prepared) && w.tasks[t].key == k && w.tasks[t].instance == w.instance && IdRefs(w.tasks[t].image.refs) == []
    requires !Asks(Asking(w.tasks[t]), Row(w.sessions, k).prompt, Row(w.sessions, k).refs)
    ensures MayMislead(w, k)
  {
    var read := Move(w, t, Sourced);
    InvStep(w, ReadSources(t), read);
    CallMisleads(read, t, k);
    MisleadsBefore(w, ReadSources(t), read, k);
  }

  lemma CallMisleads(w: World, t: nat, k: Key)
    requires Inv(w) && !w.recovering && !w.stopped && w.owner && Attempted(w, k)
    requires At(w, t, Sourced) && w.tasks[t].key == k && w.tasks[t].instance == w.instance
    requires !Asks(Asking(w.tasks[t]), Row(w.sessions, k).prompt, Row(w.sessions, k).refs)
    ensures MayMislead(w, k)
  {
    var called := Calling(w, t);
    InvStep(w, CallProvider(t), called);
    DeliveryMisleads(called, t, k);
    MisleadsBefore(w, CallProvider(t), called, k);
  }

  lemma UnclearMisleads(w: World, k: Key)
    requires Inv(w) && !w.stopped && w.owner && Attempted(w, k) && !Clear(w, k, Row(w.sessions, k).prompt, Row(w.sessions, k).refs)
    ensures MayMislead(w, k)
  {
    assert !w.recovering;
    var prompt, refs := Row(w.sessions, k).prompt, Row(w.sessions, k).refs;
    if k in w.asked {
      if k in w.receipts {
        ReceiptMisleads(w, k);
      } else {
        var t: nat :| Delivering(w.tasks, t, k);
        DeliveryMisleads(w, t, k);
      }
    } else {
      var t: nat :| MayAsk(w, t, k) && !Asks(Asking(w.tasks[t]), prompt, refs);
      AskingMisleads(w, t, k);
    }
  }

  // ---------------------------------------------------------------- decided at the claim

  /** A claim leaves it clear exactly if it was: the new job asks for what the row says. */
  lemma ClaimClearIff(w: World, k: Key)
    requires HasRow(w.sessions, k) && !w.stopped && w.nextTask !in w.tasks
    ensures var prompt, refs := Row(w.sessions, k).prompt, Row(w.sessions, k).refs;
      Clear(ClaimRow(w, k), k, prompt, refs) <==> Clear(w, k, prompt, refs)
  {
    var w', prompt, refs := ClaimRow(w, k), Row(w.sessions, k).prompt, Row(w.sessions, k).refs;
    if Clear(w, k, prompt, refs) { ClaimedClear(w, k, k, prompt, refs); }
    if Clear(w', k, prompt, refs) {
      forall t | Delivering(w.tasks, t, k) ensures Delivering(w'.tasks, t, k) { assert t != w.nextTask; }
      UnderwayFewer(w'.receipts, w'.tasks, w.receipts, w.tasks, k);
      forall t | MayAsk(w, t, k) ensures MayAsk(w', t, k) && w'.tasks[t] == w.tasks[t] { assert t != w.nextTask; }
    }
  }

  /**
   * Exactly when a claimed image can only come to show the answer to its own prompt and references, in every continuation of this
   * life of its thread: at the claim no answer to another definition is there or on its way, and no job may yet ask for one.
   */
  lemma AnswersItsOwnIffClear(concurrency: nat, w: World, k: Key, w': World)
    requires Reaches(Initial(concurrency), w) && Next(w, Claim(k), w')
    ensures (forall later :: Reaches(w', later) && SameThread(w', later, k.0) ==> Answered(later, k)) <==>
      Clear(w, k, Row(w.sessions, k).prompt, Row(w.sessions, k).refs)
  {
    var prompt, refs := Row(w.sessions, k).prompt, Row(w.sessions, k).refs;
    ReachableSane(concurrency, w);
    ReachesStep(Initial(concurrency), w, Claim(k), w');
    ReachableSane(concurrency, w');
    ClaimedWorld(w, k);
    if Clear(w, k, prompt, refs) {
      forall later | Reaches(w', later) && SameThread(w', later, k.0) ensures Answered(later, k) { ClearAnswers(w', later, k, prompt, refs); }
    } else {
      UnclearMisleads(w', k);
    }
  }

  lemma ClaimedWorld(w: World, k: Key)
    requires Inv(w) && HasRow(w.sessions, k) && !w.stopped
    ensures var w', prompt, refs := ClaimRow(w, k), Row(w.sessions, k).prompt, Row(w.sessions, k).refs;
      && DefinedAs(w', k, prompt, refs) && Attempted(w', k) && Undisturbed(w', k.0)
      && (Clear(w', k, prompt, refs) <==> Clear(w, k, prompt, refs))
  {
    SavedFacts(w.sessions, k, ClaimedImage(Row(w.sessions, k)));
    assert w.stale == map[];
    assert w.nextTask !in w.tasks;
    ClaimClearIff(w, k);
  }

  /** An image that has no attempt directory yet, and whose key no job holds, is claimed clear. */
  lemma NewKeyIsClear(w: World, k: Key, prompt: string, refs: seq<string>)
    requires Inv(w) && k !in w.directories && forall t :: t in w.tasks && w.tasks[t].key == k ==> w.tasks[t].phase == Ended
    ensures Clear(w, k, prompt, refs)
  {
    assert k !in w.calls;
  }
}
