/**
 * The life of inline image jobs over whole runs (apps/remote/server/inline-images.ts): accepts, resolution,
 * durable claims, the awaits of `run` and of `start`, stops, crashes and thread deletions are atomic events on a `World`.
 * The class in InlineImageService.dfy performs these events; the theorems here hold of every run of them.
 */
module InlineImageProtocol {
  import opened Options
  import opened InlineImageGraph

  /** Session id and image id: the primary key of a row, and the name of its attempt directory. */
  type Key = (string, string)

  type Sessions = map<string, Session>

  datatype Definition = Definition(id: string, prompt: string, refs: seq<string>)
  datatype Tag = Tag(id: string, definition: Option<Definition>, invalid: bool)

  /** How far `run` has come.  Each phase ends at an await. */
  datatype Phase = Claimed | Prepared | Sourced | Called | Delivered | Published | Ended

  /** `life` is the epoch of the thread at the claim; no step reads it. */
  datatype Task = Task(key: Key, image: Image, instance: nat, life: nat, phase: Phase)

  /** What a provider call asked for, and in which life of its thread the job was claimed. */
  datatype Request = Request(prompt: string, refs: seq<string>, life: nat)

  /** A generating row as `start` read it before its awaits; then the receipt as it read it, or that there was none. */
  datatype Stale = Stale(image: Image, life: nat, receipt: Option<Option<Output>>)

  datatype World = World(
    // durable: the database and the attempt directories
    sessions: Sessions,
    order: seq<Key>,
    directories: set<Key>,
    receipts: map<Key, Output>,
    // the supervisor in charge
    concurrency: nat,
    instance: nat,
    stopped: bool,
    owner: bool,
    active: set<Key>,
    tasks: map<nat, Task>,
    nextTask: nat,
    recovering: bool,
    stale: map<Key, Stale>,
    // history, read by no step
    nextEpoch: nat,
    deletions: nat,
    reclaims: nat,
    calls: seq<Key>,
    asked: map<Key, Request>)

  datatype Event =
    | AddThread(session: string)
    | DeleteThread(session: string)
    | SetOwner(owner: bool)
    | Accept(session: string, message: string, tags: seq<Tag>)
    | ResolveSession(session: string)
    | Claim(key: Key)
    | MakeDirectory(task: nat)
    | ReadSources(task: nat)
    | CallProvider(task: nat)
    | Deliver(task: nat)
    | Publish(task: nat, output: Output)
    | Throw(task: nat)
    | Refuse(task: nat)
    | Finish(task: nat)
    | Reap(task: nat)
    | Stop
    | Crash
    | ReadRows
    | ReadReceipt(key: Key)
    | Recover(key: Key)
    | Start

  // ---------------------------------------------------------------- rows

  predicate HasRow(ss: Sessions, k: Key) {
    k.0 in ss && k.1 in ss[k.0].images
  }

  function Row(ss: Sessions, k: Key): Image
    requires HasRow(ss, k)
  {
    ss[k.0].images[k.1]
  }

  function SavedIn(ss: Sessions, k: Key, image: Image): Sessions
    requires k.0 in ss
  {
    ss[k.0 := Saved(ss[k.0], k.1, image)]
  }

  /** `save`: nothing without the thread, otherwise an upsert that raises the version. */
  function SaveRow(w: World, k: Key, image: Image): World {
    if k.0 !in w.sessions then w
    else w.(sessions := SavedIn(w.sessions, k, image), order := if HasRow(w.sessions, k) then w.order else w.order + [k])
  }

  predicate Letter(c: char) { 'a' <= c <= 'z' || 'A' <= c <= 'Z' }
  predicate Digit(c: char) { '0' <= c <= '9' }

  predicate ValidId(id: string) {
    && 1 <= |id| <= 64 && Letter(id[0])
    && forall c :: c in id ==> Letter(c) || Digit(c) || c == '_' || c == '-'
  }

  function NewImage(definition: Definition, invalid: bool): Image {
    Image(definition.prompt, definition.refs, if invalid then Error else Queued, [],
          if invalid then Some(InvalidDefinition) else None, false, None, false)
  }

  /** The tag defines an existing image again, and not as it was defined first. */
  predicate Redefines(tag: Tag, id: string, existing: Image) {
    && tag.id == id && ValidId(id) && tag.definition.Some?
    && (existing.prompt != tag.definition.value.prompt || existing.refs != tag.definition.value.refs || tag.invalid)
  }

  /** A tag of an accepted message that changes the store: a new definition, or the first that contradicts an earlier one. */
  predicate TagSaves(ss: Sessions, s: string, tag: Tag) {
    && tag.definition.Some? && ValidId(tag.id)
    && (HasRow(ss, (s, tag.id)) ==> Redefines(tag, tag.id, Row(ss, (s, tag.id))) && !Row(ss, (s, tag.id)).conflict)
  }

  function TagImage(ss: Sessions, s: string, tag: Tag): Image
    requires tag.definition.Some?
  {
    if HasRow(ss, (s, tag.id)) then Row(ss, (s, tag.id)).(conflict := true) else NewImage(tag.definition.value, tag.invalid)
  }

  function AcceptTag(w: World, s: string, tag: Tag): World {
    if TagSaves(w.sessions, s, tag) then SaveRow(w, (s, tag.id), TagImage(w.sessions, s, tag)) else w
  }

  function AcceptTags(w: World, s: string, tags: seq<Tag>): World {
    if tags == [] then w else AcceptTag(AcceptTags(w, s, tags[..|tags| - 1]), s, tags[|tags| - 1])
  }

  function AcceptMessage(w: World, s: string, message: string): World
    requires s in w.sessions
  {
    w.(sessions := w.sessions[s := w.sessions[s].(messages := w.sessions[s].messages + {message})])
  }

  /** What the tag parser promises: a valid definition carries the tag's id and no empty reference. */
  ghost predicate Parsed(tags: seq<Tag>) {
    forall tag :: tag in tags && tag.definition.Some? ==>
      tag.definition.value.id == tag.id && (!tag.invalid ==> "" !in tag.definition.value.refs)
  }

  function Without(order: seq<Key>, s: string): seq<Key> {
    if order == [] then []
    else if order[0].0 == s then Without(order[1..], s)
    else [order[0]] + Without(order[1..], s)
  }

  // ---------------------------------------------------------------- tasks

  predicate At(w: World, t: nat, phase: Phase) {
    t in w.tasks && w.tasks[t].phase == phase
  }

  function Move(w: World, t: nat, phase: Phase): World
    requires t in w.tasks
  {
    w.(tasks := w.tasks[t := w.tasks[t].(phase := phase)])
  }

  /** `this.stopped` of the instance that runs the job is still false. */
  predicate Live(w: World, t: nat)
    requires t in w.tasks
  {
    !w.stopped && w.tasks[t].instance == w.instance
  }

  /** `finish` writes only for a live owner, and only to a row that is still generating. */
  predicate Writes(w: World, t: nat)
    requires t in w.tasks
  {
    Live(w, t) && w.owner && HasRow(w.sessions, w.tasks[t].key) && Row(w.sessions, w.tasks[t].key).state == Generating
  }

  function Finished(w: World, t: nat, image: Image -> Image): World
    requires t in w.tasks
  {
    if Writes(w, t) then SaveRow(w, w.tasks[t].key, image(Row(w.sessions, w.tasks[t].key))) else w
  }

  function CompletedImage(image: Image, output: Output): Image {
    image.(state := Complete, error := None, output := Some(output))
  }

  function FailWith(code: ErrorCode): Image -> Image {
    (image: Image) => FailedImage(image, code)
  }

  function CompleteWith(output: Output): Image -> Image {
    (image: Image) => CompletedImage(image, output)
  }

  /** Each id reference of the job names a row with a path. */
  predicate SourcesReady(w: World, t: nat)
    requires t in w.tasks
  {
    forall r :: r in IdRefs(w.tasks[t].image.refs) ==>
      HasRow(w.sessions, (w.tasks[t].key.0, r)) && Row(w.sessions, (w.tasks[t].key.0, r)).output.Some?
  }

  predicate Ready(ss: Sessions, k: Key) {
    HasRow(ss, k) && Row(ss, k).state == Queued && Row(ss, k).waitingFor == []
  }

  function ClaimedImage(image: Image): Image { image.(state := Generating, attempted := true) }

  function ClaimTask(w: World, k: Key): Task
    requires HasRow(w.sessions, k)
  {
    Task(k, Row(w.sessions, k), w.instance, w.sessions[k.0].epoch, Claimed)
  }

  function ClaimRow(w: World, k: Key): World
    requires HasRow(w.sessions, k)
  {
    w.(sessions := SavedIn(w.sessions, k, ClaimedImage(Row(w.sessions, k))),
       active := w.active + {k}, nextTask := w.nextTask + 1,
       reclaims := w.reclaims + if k in w.active then 1 else 0,
       tasks := w.tasks[w.nextTask := ClaimTask(w, k)])
  }

  function Asking(task: Task): Request {
    Request(task.image.prompt, task.image.refs, task.life)
  }

  // ---------------------------------------------------------------- recovery

  /** `start` reads all rows at once. */
  function GeneratingRows(w: World): map<Key, Stale> {
    map k | k in w.order && HasRow(w.sessions, k) && Row(w.sessions, k).state == Generating
      :: Stale(Row(w.sessions, k), w.sessions[k.0].epoch, None)
  }

  function ReceiptRead(w: World, k: Key): Stale
    requires k in w.stale
  {
    var read := w.stale[k];
    read.(receipt := Some(if read.image.attempted && k in w.receipts then Some(w.receipts[k]) else None))
  }

  /** The row as it was read, completed or failed.  An upsert keeps the attempt directory of the row that is there. */
  function Reconciled(ss: Sessions, k: Key, read: Stale): Image {
    var image := if read.receipt.Some? && read.receipt.value.Some? then CompletedImage(read.image, read.receipt.value.value)
                 else FailedImage(read.image, Interrupted);
    image.(attempted := HasRow(ss, k) && Row(ss, k).attempted)
  }

  function RecoverRow(w: World, k: Key): World
    requires k in w.stale
  {
    SaveRow(w, k, Reconciled(w.sessions, k, w.stale[k])).(stale := w.stale - {k})
  }

  ghost predicate ResolvesTo(w: World, s: string, w': World) {
    && s in w.sessions && s in w'.sessions
    && Resolved(w.sessions[s], w'.sessions[s])
    && w' == w.(sessions := w.sessions[s := w'.sessions[s]])
  }

  // ---------------------------------------------------------------- the step relation

  ghost predicate Next(w: World, e: Event, w': World) {
    match e
    case AddThread(s) => s !in w.sessions && w' == Added(w, s)
    case DeleteThread(s) => s in w.sessions && w' == Deleted(w, s)
    case SetOwner(b) => w' == w.(owner := b)
    case Accept(s, message, tags) =>
      && s in w.sessions && message !in w.sessions[s].messages && Parsed(tags)
      && ResolvesTo(AcceptTags(AcceptMessage(w, s, message), s, tags), s, w')
    case ResolveSession(s) => ResolvesTo(w, s, w')
    case Claim(k) => !w.stopped && w.owner && |w.active| < w.concurrency && Ready(w.sessions, k) && w' == ClaimRow(w, k)
    case MakeDirectory(t) =>
      At(w, t, Claimed) && w.tasks[t].key !in w.directories && w' == Move(w, t, Prepared).(directories := w.directories + {w.tasks[t].key})
    case ReadSources(t) => At(w, t, Prepared) && SourcesReady(w, t) && w' == Move(w, t, Sourced)
    case CallProvider(t) =>
      At(w, t, Sourced) && Live(w, t)
      && w' == CallingOrEnded(w, t)
    case Deliver(t) => At(w, t, Called) && w' == Move(w, t, Delivered)
    case Publish(t, output) => At(w, t, Delivered) && w' == Move(w, t, Published).(receipts := w.receipts[w.tasks[t].key := output])
    case Throw(t) => t in w.tasks && w.tasks[t].phase != Ended && w' == Move(Finished(w, t, FailWith(ThrownCode(w.tasks[t].phase))), t, Ended)
    case Refuse(t) => At(w, t, Called) && w' == Move(Finished(w, t, FailWith(ProviderError)), t, Ended)
    case Finish(t) =>
      At(w, t, Published) && w.tasks[t].key in w.receipts
      && w' == Move(Finished(w, t, CompleteWith(w.receipts[w.tasks[t].key])), t, Ended)
    case Reap(t) => At(w, t, Ended) && w' == Reaped(w, t)
    case Stop => w' == w.(stopped := true)
    case Crash => w' == Crashed(w)
    case ReadRows => w.stopped && !w.recovering && w' == w.(recovering := true, stale := GeneratingRows(w))
    case ReadReceipt(k) => k in w.stale && w.stale[k].receipt.None? && w' == w.(stale := w.stale[k := ReceiptRead(w, k)])
    case Recover(k) => k in w.stale && w.stale[k].receipt.Some? && w' == RecoverRow(w, k)
    case Start => w.recovering && w.stale == map[] && w' == Started(w)
  }

  function Added(w: World, s: string): World {
    w.(sessions := w.sessions[s := Session(w.nextEpoch, map[], 0, {})], nextEpoch := w.nextEpoch + 1)
  }

  function Deleted(w: World, s: string): World {
    w.(sessions := w.sessions - {s}, order := Without(w.order, s), deletions := w.deletions + 1)
  }

  function Calling(w: World, t: nat): World
    requires t in w.tasks
  {
    Move(w, t, Called).(calls := w.calls + [w.tasks[t].key], asked := w.asked[w.tasks[t].key := Asking(w.tasks[t])])
  }

  /** The last look before the call: still the owner, and the row still there. */
  function CallingOrEnded(w: World, t: nat): World
    requires t in w.tasks
  {
    if !w.owner || !HasRow(w.sessions, w.tasks[t].key) then Move(w, t, Ended) else Calling(w, t)
  }

  function ThrownCode(phase: Phase): ErrorCode {
    if phase == Delivered || phase == Published then PublicationError else InputError
  }

  function Reaped(w: World, t: nat): World
    requires t in w.tasks
  {
    w.(tasks := w.tasks - {t}, active := if w.tasks[t].instance == w.instance then w.active - {w.tasks[t].key} else w.active)
  }

  ghost predicate Step(w: World, w': World) {
    exists e :: Next(w, e, w')
  }

  ghost predicate Run(trace: seq<World>) {
    |trace| > 0 && forall i :: 0 <= i < |trace| - 1 ==> StepAt(trace, i)
  }

  ghost predicate StepAt(trace: seq<World>, i: int) {
    0 <= i < |trace| - 1 && Step(trace[i], trace[i + 1])
  }

  ghost predicate Reaches(w: World, w': World) {
    exists trace :: Run(trace) && trace[0] == w && trace[|trace| - 1] == w'
  }

  function Initial(concurrency: nat): World {
    World(map[], [], {}, map[], concurrency, 0, true, true, {}, map[], 0, false, map[], 0, 0, 0, [], map[])
  }

  lemma ReachesSelf(w: World)
    ensures Reaches(w, w)
  {
    assert Run([w]) && [w][0] == w;
  }

  lemma ReachesStep(w: World, mid: World, e: Event, w': World)
    requires Reaches(w, mid) && Next(mid, e, w')
    ensures Reaches(w, w')
  {
    assert Step(mid, w');
    ReachesOneMore(w, mid, w');
  }

  lemma ReachesOneMore(w: World, mid: World, w': World)
    requires Reaches(w, mid) && Step(mid, w')
    ensures Reaches(w, w')
  {
    var trace :| Run(trace) && trace[0] == w && trace[|trace| - 1] == mid;
    var longer := trace + [w'];
    forall i | 0 <= i < |longer| - 1 ensures StepAt(longer, i) {
      if i < |trace| - 1 { assert StepAt(trace, i); }
    }
    assert longer[|longer| - 1] == w';
  }

  lemma ReachesTransitive(a: World, b: World, c: World)
    requires Reaches(a, b) && Reaches(b, c)
    ensures Reaches(a, c)
  {
    var trace :| Run(trace) && trace[0] == b && trace[|trace| - 1] == c;
    ReachesAlong(a, trace, |trace| - 1);
  }

  lemma {:induction false} ReachesAlong(a: World, trace: seq<World>, i: nat)
    requires Run(trace) && i < |trace| && Reaches(a, trace[0])
    ensures Reaches(a, trace[i])
  {
    if i > 0 {
      ReachesAlong(a, trace, i - 1);
      StepAlongRun(trace, i - 1);
      ReachesOneMore(a, trace[i - 1], trace[i]);
    }
  }

  // ---------------------------------------------------------------- one attempt

  ghost predicate NoDuplicates<T>(s: seq<T>) {
    forall i, j :: 0 <= i < j < |s| ==> s[i] != s[j]
  }

  /** The job made the attempt directory and still works in it. */
  predicate InDirectory(phase: Phase) { phase != Claimed && phase != Ended }

  ghost predicate TaskOk(calls: seq<Key>, directories: set<Key>, receipts: map<Key, Output>, task: Task) {
    match task.phase
    case Claimed => true
    case Prepared => task.key in directories && task.key !in calls && task.key !in receipts
    case Sourced => task.key in directories && task.key !in calls && task.key !in receipts
    case Called => task.key in directories && task.key in calls && task.key !in receipts
    case Delivered => task.key in directories && task.key in calls && task.key !in receipts
    case Published => task.key in directories && task.key in calls && task.key in receipts
    case Ended => true
  }

  /** Two jobs of one key do not both work in its directory. */
  ghost predicate Alone(tasks: map<nat, Task>) {
    forall t, u :: t in tasks && u in tasks && InDirectory(tasks[t].phase) && InDirectory(tasks[u].phase) && tasks[t].key == tasks[u].key ==> t == u
  }

  /** One attempt directory, one working task, one provider call, one receipt. */
  ghost predicate OneAttempt(calls: seq<Key>, directories: set<Key>, receipts: map<Key, Output>, tasks: map<nat, Task>, nextTask: nat) {
    && NoDuplicates(calls)
    && (forall k :: k in calls ==> k in directories)
    && (forall k :: k in receipts ==> k in calls)
    && (forall t :: t in tasks ==> t < nextTask && TaskOk(calls, directories, receipts, tasks[t]))
    && Alone(tasks)
  }

  ghost predicate Attempts(w: World) {
    OneAttempt(w.calls, w.directories, w.receipts, w.tasks, w.nextTask)
  }

  lemma AttemptsFewer(calls: seq<Key>, directories: set<Key>, receipts: map<Key, Output>, tasks: map<nat, Task>, nextTask: nat, fewer: map<nat, Task>)
    requires OneAttempt(calls, directories, receipts, tasks, nextTask)
    requires forall t :: t in fewer ==> t in tasks && fewer[t] == tasks[t]
    ensures OneAttempt(calls, directories, receipts, fewer, nextTask)
  {}

  lemma AttemptsClaim(calls: seq<Key>, directories: set<Key>, receipts: map<Key, Output>, tasks: map<nat, Task>, nextTask: nat, task: Task)
    requires OneAttempt(calls, directories, receipts, tasks, nextTask) && task.phase == Claimed
    ensures OneAttempt(calls, directories, receipts, tasks[nextTask := task], nextTask + 1)
  {}

  /** A task that leaves its directory, or advances on one side of the provider call. */
  lemma AttemptsMove(calls: seq<Key>, directories: set<Key>, receipts: map<Key, Output>, tasks: map<nat, Task>, nextTask: nat, t: nat, phase: Phase)
    requires OneAttempt(calls, directories, receipts, tasks, nextTask) && t in tasks
    requires phase == Ended || (phase == Sourced && tasks[t].phase == Prepared) || (phase == Delivered && tasks[t].phase == Called)
    ensures OneAttempt(calls, directories, receipts, tasks[t := tasks[t].(phase := phase)], nextTask)
  {}

  /** The working tasks when one more has a directory that no other works in. */
  lemma AloneIn(tasks: map<nat, Task>, t: nat, phase: Phase)
    requires Alone(tasks) && t in tasks
    requires InDirectory(tasks[t].phase) || forall u :: u in tasks && InDirectory(tasks[u].phase) ==> tasks[u].key != tasks[t].key
    ensures Alone(tasks[t := tasks[t].(phase := phase)])
  {}

  lemma AttemptsMake(calls: seq<Key>, directories: set<Key>, receipts: map<Key, Output>, tasks: map<nat, Task>, nextTask: nat, t: nat)
    requires OneAttempt(calls, directories, receipts, tasks, nextTask) && t in tasks && tasks[t].key !in directories
    ensures OneAttempt(calls, directories + {tasks[t].key}, receipts, tasks[t := tasks[t].(phase := Prepared)], nextTask)
  {
    forall u | u in tasks && InDirectory(tasks[u].phase) ensures tasks[u].key != tasks[t].key {
      assert TaskOk(calls, directories, receipts, tasks[u]);
    }
    AloneIn(tasks, t, Prepared);
    OthersOk(calls, directories, receipts, calls, directories + {tasks[t].key}, receipts, tasks, tasks[t].key);
  }

  /** What happens to one key does not concern tasks of other keys, or tasks of this key that have no directory. */
  lemma OthersOk(calls: seq<Key>, directories: set<Key>, receipts: map<Key, Output>,
                 calls': seq<Key>, directories': set<Key>, receipts': map<Key, Output>, tasks: map<nat, Task>, key: Key)
    requires forall t :: t in tasks ==> TaskOk(calls, directories, receipts, tasks[t])
    requires forall k :: k != key ==> (k in calls' <==> k in calls) && (k in directories' <==> k in directories) && (k in receipts' <==> k in receipts)
    ensures forall t :: t in tasks && (tasks[t].key != key || !InDirectory(tasks[t].phase)) ==> TaskOk(calls', directories', receipts', tasks[t])
  {}

  lemma AttemptsCall(calls: seq<Key>, directories: set<Key>, receipts: map<Key, Output>, tasks: map<nat, Task>, nextTask: nat, t: nat)
    requires OneAttempt(calls, directories, receipts, tasks, nextTask) && t in tasks && tasks[t].phase == Sourced
    ensures tasks[t].key !in calls
    ensures OneAttempt(calls + [tasks[t].key], directories, receipts, tasks[t := tasks[t].(phase := Called)], nextTask)
  {
    assert TaskOk(calls, directories, receipts, tasks[t]);
    AloneIn(tasks, t, Called);
    OthersOk(calls, directories, receipts, calls + [tasks[t].key], directories, receipts, tasks, tasks[t].key);
    OthersAway(tasks, t);
  }

  lemma OthersAway(tasks: map<nat, Task>, t: nat)
    requires Alone(tasks) && t in tasks && InDirectory(tasks[t].phase)
    ensures forall u :: u in tasks && u != t ==> tasks[u].key != tasks[t].key || !InDirectory(tasks[u].phase)
  {}

  lemma AttemptsPublish(calls: seq<Key>, directories: set<Key>, receipts: map<Key, Output>, tasks: map<nat, Task>, nextTask: nat, t: nat, output: Output)
    requires OneAttempt(calls, directories, receipts, tasks, nextTask) && t in tasks && tasks[t].phase == Delivered
    ensures tasks[t].key !in receipts
    ensures OneAttempt(calls, directories, receipts[tasks[t].key := output], tasks[t := tasks[t].(phase := Published)], nextTask)
  {
    assert TaskOk(calls, directories, receipts, tasks[t]);
    AloneIn(tasks, t, Published);
    OthersOk(calls, directories, receipts, calls, directories, receipts[tasks[t].key := output], tasks, tasks[t].key);
    OthersAway(tasks, t);
  }

  // ---------------------------------------------------------------- true rows

  /** A completed image shows the receipt of its provider call; a queued one refers to nothing nameless. */
  ghost predicate RowSound(ss: Sessions, receipts: map<Key, Output>, k: Key)
    requires HasRow(ss, k)
  {
    && (Row(ss, k).state == Complete ==> k in receipts && Row(ss, k).output == Some(receipts[k]))
    && (Row(ss, k).state == Queued ==> "" !in Row(ss, k).refs)
  }

  /** And a queued one waits for every incomplete reference. */
  ghost predicate RowTrue(ss: Sessions, receipts: map<Key, Output>, k: Key)
    requires HasRow(ss, k)
  {
    && RowSound(ss, receipts, k)
    && (Row(ss, k).state == Queued ==>
          forall r :: r in IdRefs(Row(ss, k).refs) ==> r in Row(ss, k).waitingFor || HasState(ss[k.0].images, r, Complete))
  }

  ghost predicate RowsTrue(ss: Sessions, receipts: map<Key, Output>) {
    forall k :: HasRow(ss, k) ==> RowTrue(ss, receipts, k)
  }

  lemma SavedFacts(ss: Sessions, k: Key, image: Image)
    requires k.0 in ss
    ensures var ss' := SavedIn(ss, k, image);
      && (forall j: Key :: HasRow(ss', j) <==> HasRow(ss, j) || j == k)
      && (forall j: Key :: HasRow(ss', j) ==> Row(ss', j) == if j == k then image else Row(ss, j))
      && ss'.Keys == ss.Keys && (forall s :: s in ss ==> ss'[s].epoch == ss[s].epoch)
  {}

  /** Saving a row cannot falsify another one, unless it takes a completed image back. */
  lemma SaveKeepsRows(ss: Sessions, receipts: map<Key, Output>, k: Key, image: Image)
    requires RowsTrue(ss, receipts) && k.0 in ss
    requires HasRow(ss, k) && Row(ss, k).state == Complete ==> image.state == Complete
    requires image.state == Complete ==> k in receipts && image.output == Some(receipts[k])
    requires image.state != Queued
    ensures RowsTrue(SavedIn(ss, k, image), receipts)
  {
    var ss' := SavedIn(ss, k, image);
    SavedFacts(ss, k, image);
    forall j | HasRow(ss', j) ensures RowTrue(ss', receipts, j) {
      if j != k {
        assert RowTrue(ss, receipts, j);
        CompleteStays(ss, k, image, j.0);
      }
    }
  }

  lemma CompleteStays(ss: Sessions, k: Key, image: Image, s: string)
    requires k.0 in ss && s in ss && (HasRow(ss, k) && Row(ss, k).state == Complete ==> image.state == Complete)
    ensures forall r :: HasState(ss[s].images, r, Complete) ==> HasState(SavedIn(ss, k, image)[s].images, r, Complete)
  {}

  lemma RowsWithout(ss: Sessions, receipts: map<Key, Output>, s: string)
    requires RowsTrue(ss, receipts)
    ensures RowsTrue(ss - {s}, receipts)
  {
    forall k | HasRow(ss - {s}, k) ensures RowTrue(ss - {s}, receipts, k) { assert RowTrue(ss, receipts, k); }
  }

  lemma RowsWithNew(ss: Sessions, receipts: map<Key, Output>, s: string, epoch: nat)
    requires RowsTrue(ss, receipts) && s !in ss
    ensures RowsTrue(ss[s := Session(epoch, map[], 0, {})], receipts)
  {
    var ss' := ss[s := Session(epoch, map[], 0, {})];
    forall k | HasRow(ss', k) ensures RowTrue(ss', receipts, k) { assert RowTrue(ss, receipts, k); }
  }

  lemma RowsWithReceipt(ss: Sessions, receipts: map<Key, Output>, key: Key, output: Output)
    requires RowsTrue(ss, receipts) && key !in receipts
    ensures RowsTrue(ss, receipts[key := output])
  {
    forall k | HasRow(ss, k) ensures RowTrue(ss, receipts[key := output], k) { assert RowTrue(ss, receipts, k); }
  }

  // ---------------------------------------------------------------- the index

  ghost predicate Indexed(ss: Sessions, order: seq<Key>, nextEpoch: nat) {
    && NoDuplicates(order)
    && (forall k :: k in order <==> HasRow(ss, k))
    && forall s :: s in ss ==> ss[s].epoch < nextEpoch
  }

  lemma SaveKeepsIndex(w: World, k: Key, image: Image)
    requires Indexed(w.sessions, w.order, w.nextEpoch)
    ensures Indexed(SaveRow(w, k, image).sessions, SaveRow(w, k, image).order, w.nextEpoch)
  {
    if k.0 in w.sessions { SavedFacts(w.sessions, k, image); }
  }

  lemma {:induction false} WithoutFacts(order: seq<Key>, s: string)
    requires NoDuplicates(order)
    ensures NoDuplicates(Without(order, s))
    ensures forall k :: k in Without(order, s) <==> k in order && k.0 != s
  {
    if order != [] {
      var rest := order[1..];
      assert forall i, j :: 0 <= i < j < |rest| ==> rest[i] == order[i + 1] && rest[j] == order[j + 1];
      assert forall i :: 0 <= i < |rest| ==> rest[i] != order[0];
      WithoutFacts(rest, s);
    }
  }

  lemma IndexWithout(ss: Sessions, order: seq<Key>, nextEpoch: nat, s: string)
    requires Indexed(ss, order, nextEpoch)
    ensures Indexed(ss - {s}, Without(order, s), nextEpoch)
  {
    WithoutFacts(order, s);
    forall k ensures HasRow(ss - {s}, k) <==> HasRow(ss, k) && k.0 != s {}
  }

  lemma IndexWithNew(ss: Sessions, order: seq<Key>, nextEpoch: nat, s: string)
    requires Indexed(ss, order, nextEpoch) && s !in ss
    ensures Indexed(ss[s := Session(nextEpoch, map[], 0, {})], order, nextEpoch + 1)
  {
    forall k ensures HasRow(ss[s := Session(nextEpoch, map[], 0, {})], k) <==> HasRow(ss, k) {}
  }

  // ---------------------------------------------------------------- what accepts and resolution do to a thread

  /** Only queued images fail, and not as interrupted; the others at most get a conflict mark. */
  predicate Drafted(a: Image, b: Image) {
    && b.prompt == a.prompt && b.refs == a.refs && b.output == a.output && (a.conflict ==> b.conflict)
    && if a.state == Queued then Fresh(b) else b == a || b == a.(conflict := true)
  }

  predicate Fresh(image: Image) {
    image.state == Queued || (image.state == Error && image.error != Some(Interrupted))
  }

  /** A new row has nothing to show. */
  predicate Defined(image: Image) { Fresh(image) && image.output.None? }

  ghost predicate Drafts(a: Session, b: Session) {
    && b.epoch == a.epoch && a.messages <= b.messages
    && a.version <= b.version && (a.images != b.images ==> a.version < b.version)
    && (forall id :: id in a.images ==> id in b.images && Drafted(a.images[id], b.images[id]))
    && (forall id :: id in b.images && id !in a.images ==> Defined(b.images[id]))
  }

  ghost predicate DraftsIn(ss: Sessions, s: string, ss': Sessions) {
    && s in ss && ss'.Keys == ss.Keys && Drafts(ss[s], ss'[s])
    && forall r :: r in ss && r != s ==> ss'[r] == ss[r]
  }

  lemma DraftsTogether(a: Session, b: Session, c: Session)
    requires Drafts(a, b) && Drafts(b, c)
    ensures Drafts(a, c)
  {
    forall id | id in a.images ensures id in c.images && Drafted(a.images[id], c.images[id]) {
      assert Drafted(a.images[id], b.images[id]) && Drafted(b.images[id], c.images[id]);
    }
    forall id | id in c.images && id !in a.images ensures Defined(c.images[id]) {
      if id in b.images { assert Defined(b.images[id]) && Drafted(b.images[id], c.images[id]); }
    }
  }

  lemma ResolvedDrafts(a: Session, b: Session)
    requires Resolved(a, b)
    ensures Drafts(a, b)
  {
    forall id | id in a.images ensures id in b.images && Drafted(a.images[id], b.images[id]) {
      assert Verdict(a.images, b.images, id);
    }
  }

  /** During an accept: only thread `s` changes, and its rows are sound though not yet resolved. */
  ghost predicate Accepting(w: World, s: string, w': World) {
    && w' == w.(sessions := w'.sessions, order := w'.order)
    && Indexed(w'.sessions, w'.order, w.nextEpoch) && DraftsIn(w.sessions, s, w'.sessions)
    && w'.sessions[s].messages == w.sessions[s].messages
    && SoundIn(w'.sessions, w.receipts, s)
  }

  ghost predicate SoundIn(ss: Sessions, receipts: map<Key, Output>, s: string) {
    forall k :: HasRow(ss, k) && k.0 == s ==> RowSound(ss, receipts, k)
  }

  lemma {:induction false} AcceptTagsAccepting(w: World, s: string, tags: seq<Tag>)
    requires Indexed(w.sessions, w.order, w.nextEpoch) && s in w.sessions && Parsed(tags) && SoundIn(w.sessions, w.receipts, s)
    ensures Accepting(w, s, AcceptTags(w, s, tags))
  {
    if tags != [] {
      var mid, tag := AcceptTags(w, s, tags[..|tags| - 1]), tags[|tags| - 1];
      AcceptTagsAccepting(w, s, tags[..|tags| - 1]);
      AcceptTagKeeps(w, mid, s, tag);
    }
  }

  lemma AcceptTagKeeps(w: World, mid: World, s: string, tag: Tag)
    requires Accepting(w, s, mid) && Parsed([tag])
    ensures Accepting(w, s, AcceptTag(mid, s, tag))
  {
    assert tag in [tag];
    if TagSaves(mid.sessions, s, tag) { AcceptSave(w, mid, (s, tag.id), TagImage(mid.sessions, s, tag)); }
  }

  lemma AcceptSave(w: World, mid: World, k: Key, image: Image)
    requires Accepting(w, k.0, mid)
    requires HasRow(mid.sessions, k) ==> image == Row(mid.sessions, k).(conflict := true) && image != Row(mid.sessions, k)
    requires !HasRow(mid.sessions, k) ==> Defined(image) && (image.state == Queued ==> "" !in image.refs)
    ensures Accepting(w, k.0, SaveRow(mid, k, image))
  {
    SaveKeepsIndex(mid, k, image);
    SaveDrafts(mid.sessions[k.0], k.1, image);
    DraftsTogether(w.sessions[k.0], mid.sessions[k.0], Saved(mid.sessions[k.0], k.1, image));
    SaveSound(mid.sessions, w.receipts, k, image);
  }

  lemma SaveSound(ss: Sessions, receipts: map<Key, Output>, k: Key, image: Image)
    requires k.0 in ss && SoundIn(ss, receipts, k.0)
    requires HasRow(ss, k) ==> image == Row(ss, k).(conflict := true)
    requires !HasRow(ss, k) ==> Defined(image) && (image.state == Queued ==> "" !in image.refs)
    ensures SoundIn(SavedIn(ss, k, image), receipts, k.0)
  {
    SavedFacts(ss, k, image);
    forall j | HasRow(SavedIn(ss, k, image), j) && j.0 == k.0 ensures RowSound(SavedIn(ss, k, image), receipts, j) {
      if HasRow(ss, j) { assert RowSound(ss, receipts, j); }
    }
  }

  lemma SaveDrafts(a: Session, id: string, image: Image)
    requires if id in a.images then image == a.images[id].(conflict := true) && image != a.images[id] else Defined(image)
    ensures Drafts(a, Saved(a, id, image))
  {
    var b := Saved(a, id, image);
    assert b.images[id] == image;
  }

  /** An accept as a whole: the thread is drafted and its waiting lists are exact again. */
  lemma AcceptDrafts(w: World, s: string, message: string, tags: seq<Tag>, w': World)
    requires RowsTrue(w.sessions, w.receipts) && Indexed(w.sessions, w.order, w.nextEpoch) && Next(w, Accept(s, message, tags), w')
    ensures w' == w.(sessions := w'.sessions, order := w'.order)
    ensures DraftsIn(w.sessions, s, w'.sessions) && RowsTrue(w'.sessions, w.receipts) && Indexed(w'.sessions, w'.order, w.nextEpoch)
  {
    var a := AcceptMessage(w, s, message);
    MessageKeeps(w, s, message);
    AcceptTagsAccepting(a, s, tags);
    var mid := AcceptTags(a, s, tags);
    OthersTrue(a.sessions, mid.sessions, w.receipts, s);
    ResolveKeeps(mid, s, w');
    DraftsTogether(a.sessions[s], mid.sessions[s], w'.sessions[s]);
    DraftsTogether(w.sessions[s], a.sessions[s], w'.sessions[s]);
  }

  lemma MessageKeeps(w: World, s: string, message: string)
    requires RowsTrue(w.sessions, w.receipts) && Indexed(w.sessions, w.order, w.nextEpoch) && s in w.sessions
    ensures var a := AcceptMessage(w, s, message);
      && Indexed(a.sessions, a.order, a.nextEpoch) && RowsTrue(a.sessions, a.receipts) && SoundIn(a.sessions, a.receipts, s)
      && Drafts(w.sessions[s], a.sessions[s])
  {
    var a := AcceptMessage(w, s, message);
    forall k ensures HasRow(a.sessions, k) <==> HasRow(w.sessions, k) {}
    forall k | HasRow(a.sessions, k) ensures RowTrue(a.sessions, a.receipts, k) { assert RowTrue(w.sessions, w.receipts, k); }
  }

  ghost predicate TrueExcept(ss: Sessions, receipts: map<Key, Output>, s: string) {
    forall k :: HasRow(ss, k) ==> RowSound(ss, receipts, k) && (k.0 != s ==> RowTrue(ss, receipts, k))
  }

  lemma OthersTrue(ss: Sessions, ss': Sessions, receipts: map<Key, Output>, s: string)
    requires RowsTrue(ss, receipts) && DraftsIn(ss, s, ss') && SoundIn(ss', receipts, s)
    ensures TrueExcept(ss', receipts, s)
  {
    forall k | HasRow(ss', k) ensures RowSound(ss', receipts, k) && (k.0 != s ==> RowTrue(ss', receipts, k)) {
      if k.0 != s { assert HasRow(ss, k) && RowTrue(ss, receipts, k); }
    }
  }

  /** Resolution restores the waiting lists of its thread, whatever an accept put into it. */
  lemma ResolveKeeps(w: World, s: string, w': World)
    requires Indexed(w.sessions, w.order, w.nextEpoch) && ResolvesTo(w, s, w') && TrueExcept(w.sessions, w.receipts, s)
    ensures DraftsIn(w.sessions, s, w'.sessions) && RowsTrue(w'.sessions, w.receipts) && Indexed(w'.sessions, w.order, w.nextEpoch)
  {
    ResolvedDrafts(w.sessions[s], w'.sessions[s]);
    forall k ensures HasRow(w'.sessions, k) <==> HasRow(w.sessions, k) {}
    forall k | HasRow(w'.sessions, k) ensures RowTrue(w'.sessions, w.receipts, k) {
      assert HasRow(w.sessions, k) && RowSound(w.sessions, w.receipts, k);
      if k.0 == s {
        assert Verdict(w.sessions[s].images, w'.sessions[s].images, k.1);
        if Row(w'.sessions, k).state == Queued { ResolvedIsSettled(w.sessions[s], w'.sessions[s], k.1); }
      } else {
        assert RowTrue(w.sessions, w.receipts, k);
      }
    }
  }

  lemma TrueIsTrueExcept(ss: Sessions, receipts: map<Key, Output>, s: string)
    requires RowsTrue(ss, receipts)
    ensures TrueExcept(ss, receipts, s)
  {
    forall k | HasRow(ss, k) ensures RowSound(ss, receipts, k) && RowTrue(ss, receipts, k) { assert RowTrue(ss, receipts, k); }
  }

  // ---------------------------------------------------------------- slots

  predicate Current(tasks: map<nat, Task>, instance: nat, t: nat) {
    t in tasks && tasks[t].instance == instance
  }

  ghost predicate Carried(tasks: map<nat, Task>, instance: nat, k: Key) {
    exists t: nat :: Current(tasks, instance, t) && tasks[t].key == k
  }

  /** The active jobs are carried by jobs of the current instance. */
  ghost predicate AllCarried(tasks: map<nat, Task>, instance: nat, active: set<Key>) {
    forall k :: k in active ==> Carried(tasks, instance, k)
  }

  /** The jobs of the current instance are counted by the active jobs, one each. */
  ghost predicate Counted(tasks: map<nat, Task>, instance: nat, active: set<Key>) {
    && (forall t :: Current(tasks, instance, t) ==> tasks[t].key in active)
    && (forall t, u :: Current(tasks, instance, t) && Current(tasks, instance, u) && tasks[t].key == tasks[u].key ==> t == u)
  }

  ghost predicate Held(ss: Sessions, active: set<Key>) {
    forall k :: k in active ==> HasRow(ss, k) && Row(ss, k).state != Queued
  }

  /**
   * The cap.  Active jobs never exceed it; they count every running task unless a job was claimed
   * while an older task of the same key was still active, which takes the deletion of a thread.
   */
  ghost predicate Slots(w: World) {
    && |w.active| <= w.concurrency
    && (forall t :: t in w.tasks ==> w.tasks[t].instance <= w.instance)
    && AllCarried(w.tasks, w.instance, w.active)
    && (w.reclaims == 0 ==> Counted(w.tasks, w.instance, w.active))
    && (w.deletions == 0 ==> w.reclaims == 0 && Held(w.sessions, w.active))
  }

  /** Nothing about slots depends on phases. */
  predicate SameJobs(tasks: map<nat, Task>, tasks': map<nat, Task>) {
    tasks'.Keys == tasks.Keys && forall t :: t in tasks ==> tasks'[t].key == tasks[t].key && tasks'[t].instance == tasks[t].instance
  }

  lemma CountedSame(tasks: map<nat, Task>, tasks': map<nat, Task>, instance: nat, active: set<Key>)
    requires SameJobs(tasks, tasks')
    ensures Counted(tasks', instance, active) == Counted(tasks, instance, active)
    ensures AllCarried(tasks, instance, active) ==> AllCarried(tasks', instance, active)
  {
    forall t ensures Current(tasks', instance, t) == Current(tasks, instance, t) {}
    if AllCarried(tasks, instance, active) {
      forall k | k in active ensures Carried(tasks', instance, k) {
        assert Carried(tasks, instance, k);
        var t: nat :| Current(tasks, instance, t) && tasks[t].key == k;
        assert Current(tasks', instance, t);
      }
    }
  }

  lemma SlotsSame(w: World, w': World)
    requires Slots(w) && SameJobs(w.tasks, w'.tasks) && (w.deletions == 0 ==> Held(w'.sessions, w.active))
    requires w'.active == w.active && w'.concurrency == w.concurrency && w'.instance == w.instance
    requires w'.deletions == w.deletions && w'.reclaims == w.reclaims
    ensures Slots(w')
  {
    CountedSame(w.tasks, w'.tasks, w.instance, w.active);
  }

  lemma SlotsDeleted(w: World, s: string)
    requires Slots(w)
    ensures Slots(Deleted(w, s))
  {}

  lemma HeldSaved(ss: Sessions, active: set<Key>, k: Key, image: Image)
    requires Held(ss, active) && k.0 in ss && image.state != Queued
    ensures Held(SavedIn(ss, k, image), active)
  {
    SavedFacts(ss, k, image);
  }

  lemma HeldDrafted(ss: Sessions, s: string, ss': Sessions, active: set<Key>)
    requires Held(ss, active) && DraftsIn(ss, s, ss')
    ensures Held(ss', active)
  {
    forall k | k in active ensures HasRow(ss', k) && Row(ss', k).state != Queued {
      if k.0 == s { assert Drafted(ss[s].images[k.1], ss'[s].images[k.1]); }
    }
  }

  lemma SlotsEmpty(w: World, w': World)
    requires Slots(w) && w'.active == {} && w.instance <= w'.instance && w'.deletions == w.deletions && w'.reclaims == w.reclaims
    requires (w'.tasks == w.tasks && w.instance < w'.instance) || w'.tasks == map[]
    ensures Slots(w')
  {
    assert forall t :: !Current(w'.tasks, w'.instance, t);
  }

  lemma Smaller<T>(a: set<T>, b: set<T>)
    requires a <= b
    ensures |a| <= |b|
  {
    if a != {} {
      var x :| x in a;
      Smaller(a - {x}, b - {x});
    }
  }

  lemma CountedWithout(tasks: map<nat, Task>, instance: nat, active: set<Key>, t: nat)
    requires t in tasks && Counted(tasks, instance, active)
    ensures Counted(tasks - {t}, instance, if tasks[t].instance == instance then active - {tasks[t].key} else active)
  {
    forall u | Current(tasks - {t}, instance, u) ensures Current(tasks, instance, u) && u != t {}
    if tasks[t].instance == instance { assert Current(tasks, instance, t); }
  }

  lemma CarriedWithout(tasks: map<nat, Task>, instance: nat, active: set<Key>, t: nat)
    requires t in tasks && AllCarried(tasks, instance, active)
    ensures AllCarried(tasks - {t}, instance, if tasks[t].instance == instance then active - {tasks[t].key} else active)
  {
    var less := if tasks[t].instance == instance then active - {tasks[t].key} else active;
    forall k | k in less ensures Carried(tasks - {t}, instance, k) {
      assert Carried(tasks, instance, k);
      var u: nat :| Current(tasks, instance, u) && tasks[u].key == k;
      assert Current(tasks - {t}, instance, u);
    }
  }

  lemma SlotsReaped(w: World, t: nat)
    requires Slots(w) && t in w.tasks
    ensures Slots(Reaped(w, t))
  {
    Smaller(Reaped(w, t).active, w.active);
    CarriedWithout(w.tasks, w.instance, w.active, t);
    if w.reclaims == 0 { CountedWithout(w.tasks, w.instance, w.active, t); }
  }

  lemma CarriedClaim(tasks: map<nat, Task>, instance: nat, active: set<Key>, t: nat, task: Task)
    requires AllCarried(tasks, instance, active) && t !in tasks && task.instance == instance
    ensures AllCarried(tasks[t := task], instance, active + {task.key})
  {
    var tasks' := tasks[t := task];
    forall k | k in active + {task.key} ensures Carried(tasks', instance, k) {
      if k in active {
        assert Carried(tasks, instance, k);
        var u: nat :| Current(tasks, instance, u) && tasks[u].key == k;
        assert Current(tasks', instance, u) && tasks'[u].key == k;
      } else {
        assert Current(tasks', instance, t);
      }
    }
  }

  /** A claim keeps the count exactly if its key was not active already. */
  lemma CountedClaim(tasks: map<nat, Task>, instance: nat, active: set<Key>, t: nat, task: Task)
    requires Counted(tasks, instance, active) && AllCarried(tasks, instance, active) && t !in tasks && task.instance == instance
    ensures task.key !in active <==> Counted(tasks[t := task], instance, active + {task.key})
  {
    var tasks' := tasks[t := task];
    assert Current(tasks', instance, t);
    forall u ensures Current(tasks', instance, u) <==> Current(tasks, instance, u) || u == t {}
    if task.key in active {
      assert Carried(tasks, instance, task.key);
      var u: nat :| Current(tasks, instance, u) && tasks[u].key == task.key;
      assert Current(tasks', instance, u) && u != t && tasks'[u].key == tasks'[t].key;
    }
  }

  lemma SlotsClaim(w: World, k: Key)
    requires Slots(w) && w.nextTask !in w.tasks && |w.active| < w.concurrency && Ready(w.sessions, k)
    ensures Slots(ClaimRow(w, k))
  {
    CarriedClaim(w.tasks, w.instance, w.active, w.nextTask, ClaimTask(w, k));
    CountedClaim'(w, k);
    if w.deletions == 0 {
      assert k !in w.active;
      SavedFacts(w.sessions, k, ClaimedImage(Row(w.sessions, k)));
      HeldSaved(w.sessions, w.active, k, ClaimedImage(Row(w.sessions, k)));
    }
  }

  lemma CountedClaim'(w: World, k: Key)
    requires Slots(w) && w.nextTask !in w.tasks && HasRow(w.sessions, k)
    ensures ClaimRow(w, k).reclaims == 0 ==> Counted(ClaimRow(w, k).tasks, w.instance, ClaimRow(w, k).active)
  {
    if ClaimRow(w, k).reclaims == 0 { CountedClaim(w.tasks, w.instance, w.active, w.nextTask, ClaimTask(w, k)); }
  }

  // ---------------------------------------------------------------- recovery under way

  /**
   * While its thread lives on, a row that was read is still generating, and at most marked since.  In a later life of the thread
   * there is no such row, or a fresh one.  A receipt that was read is there.
   */
  ghost predicate StaleOk(ss: Sessions, receipts: map<Key, Output>, k: Key, read: Stale, nextEpoch: nat) {
    && read.image.state == Generating && read.life < nextEpoch
    && (read.receipt.Some? && read.receipt.value.Some? ==> k in receipts && receipts[k] == read.receipt.value.value)
    && (k.0 in ss && ss[k.0].epoch == read.life ==> HasRow(ss, k) && (Row(ss, k) == read.image || Row(ss, k) == read.image.(conflict := true)))
    && (HasRow(ss, k) && ss[k.0].epoch != read.life ==> Fresh(Row(ss, k)))
  }

  ghost predicate AllStaleOk(ss: Sessions, receipts: map<Key, Output>, stale: map<Key, Stale>, nextEpoch: nat) {
    forall k :: k in stale ==> StaleOk(ss, receipts, k, stale[k], nextEpoch)
  }

  /** Every generating row has been read in its own life and waits to be reconciled. */
  ghost predicate AllRead(ss: Sessions, stale: map<Key, Stale>) {
    forall k :: HasRow(ss, k) && Row(ss, k).state == Generating ==> k in stale && stale[k].life == ss[k.0].epoch
  }

  ghost predicate Recovery(w: World) {
    && (w.recovering ==> w.stopped && AllRead(w.sessions, w.stale))
    && (!w.recovering ==> w.stale == map[])
    && AllStaleOk(w.sessions, w.receipts, w.stale, w.nextEpoch)
  }

  lemma StaleDrafted(ss: Sessions, s: string, ss': Sessions, receipts: map<Key, Output>, stale: map<Key, Stale>, nextEpoch: nat)
    requires AllStaleOk(ss, receipts, stale, nextEpoch) && DraftsIn(ss, s, ss')
    ensures AllStaleOk(ss', receipts, stale, nextEpoch)
  {
    forall k | k in stale ensures StaleOk(ss', receipts, k, stale[k], nextEpoch) {
      assert StaleOk(ss, receipts, k, stale[k], nextEpoch);
      if HasRow(ss, k) && k.0 == s { assert Drafted(Row(ss, k), Row(ss', k)); }
    }
  }

  lemma ReadDrafted(ss: Sessions, s: string, ss': Sessions, stale: map<Key, Stale>)
    requires AllRead(ss, stale) && DraftsIn(ss, s, ss')
    ensures AllRead(ss', stale)
  {
    forall k | HasRow(ss', k) && Row(ss', k).state == Generating ensures k in stale && stale[k].life == ss'[k.0].epoch {
      if k.0 == s { assert HasRow(ss, k) && Drafted(Row(ss, k), Row(ss', k)); }
    }
  }

  lemma RecoveryDrafted(w: World, s: string, w': World)
    requires Recovery(w) && DraftsIn(w.sessions, s, w'.sessions)
    requires w'.recovering == w.recovering && w'.stale == w.stale && w'.stopped == w.stopped && w'.receipts == w.receipts && w'.nextEpoch == w.nextEpoch
    ensures Recovery(w')
  {
    StaleDrafted(w.sessions, s, w'.sessions, w.receipts, w.stale, w.nextEpoch);
    if w.recovering { ReadDrafted(w.sessions, s, w'.sessions, w.stale); }
  }

  lemma RecoveryAdded(w: World, s: string)
    requires Recovery(w) && s !in w.sessions
    ensures Recovery(Added(w, s))
  {
    var w' := Added(w, s);
    forall k ensures HasRow(w'.sessions, k) <==> HasRow(w.sessions, k) {}
    forall k | k in w.stale ensures StaleOk(w'.sessions, w.receipts, k, w.stale[k], w'.nextEpoch) {
      assert StaleOk(w.sessions, w.receipts, k, w.stale[k], w.nextEpoch);
    }
  }

  lemma RecoveryDeleted(w: World, s: string)
    requires Recovery(w)
    ensures Recovery(Deleted(w, s))
  {
    var w' := Deleted(w, s);
    forall k ensures HasRow(w'.sessions, k) <==> HasRow(w.sessions, k) && k.0 != s {}
    forall k | k in w.stale ensures StaleOk(w'.sessions, w.receipts, k, w.stale[k], w'.nextEpoch) {
      assert StaleOk(w.sessions, w.receipts, k, w.stale[k], w.nextEpoch);
    }
  }

  lemma RecoveryPublished(w: World, key: Key, output: Output)
    requires Recovery(w) && key !in w.receipts
    ensures AllStaleOk(w.sessions, w.receipts[key := output], w.stale, w.nextEpoch)
  {
    forall k | k in w.stale ensures StaleOk(w.sessions, w.receipts[key := output], k, w.stale[k], w.nextEpoch) {
      assert StaleOk(w.sessions, w.receipts, k, w.stale[k], w.nextEpoch);
    }
  }

  lemma RowsRead(w: World)
    requires Indexed(w.sessions, w.order, w.nextEpoch)
    ensures AllRead(w.sessions, GeneratingRows(w)) && AllStaleOk(w.sessions, w.receipts, GeneratingRows(w), w.nextEpoch)
  {}

  lemma ReceiptIsThere(w: World, k: Key)
    requires Recovery(w) && k in w.stale && w.stale[k].receipt.None?
    ensures Recovery(w.(stale := w.stale[k := ReceiptRead(w, k)]))
  {
    var stale := w.stale[k := ReceiptRead(w, k)];
    assert w.recovering;
    forall j | j in stale ensures StaleOk(w.sessions, w.receipts, j, stale[j], w.nextEpoch) {
      assert StaleOk(w.sessions, w.receipts, j, w.stale[j], w.nextEpoch);
    }
    forall j | HasRow(w.sessions, j) && Row(w.sessions, j).state == Generating ensures j in stale && stale[j].life == w.sessions[j.0].epoch {
      assert j in w.stale;
    }
  }

  lemma RecoveryWrites(w: World, k: Key)
    requires Recovery(w) && k in w.stale && k.0 in w.sessions
    ensures Recovery(RecoverRow(w, k))
  {
    var image := Reconciled(w.sessions, k, w.stale[k]);
    var ss' := SavedIn(w.sessions, k, image);
    var w' := RecoverRow(w, k);
    assert w'.sessions == ss' && w'.stale == w.stale - {k};
    SavedFacts(w.sessions, k, image);
    forall j | j in w'.stale ensures StaleOk(ss', w.receipts, j, w.stale[j], w.nextEpoch) {
      assert StaleOk(w.sessions, w.receipts, j, w.stale[j], w.nextEpoch);
    }
    forall j | HasRow(ss', j) && Row(ss', j).state == Generating ensures j in w'.stale && w'.stale[j].life == ss'[j.0].epoch {
      assert j != k && HasRow(w.sessions, j);
    }
  }

  lemma RecoverySkips(w: World, k: Key)
    requires Recovery(w) && k in w.stale && k.0 !in w.sessions
    ensures Recovery(RecoverRow(w, k))
  {
    var w' := RecoverRow(w, k);
    assert w'.sessions == w.sessions && w'.stale == w.stale - {k};
    forall j | j in w'.stale ensures StaleOk(w.sessions, w.receipts, j, w.stale[j], w.nextEpoch) {
      assert StaleOk(w.sessions, w.receipts, j, w.stale[j], w.nextEpoch);
    }
  }

  // ---------------------------------------------------------------- requests and lives

  /** In the life of the thread that it was claimed in, the row still says what the request asks for. */
  ghost predicate RequestTrue(ss: Sessions, k: Key, r: Request, nextEpoch: nat) {
    r.life < nextEpoch
    && (k.0 in ss && ss[k.0].epoch == r.life ==> HasRow(ss, k) && Row(ss, k).prompt == r.prompt && Row(ss, k).refs == r.refs)
  }

  ghost predicate AllRequestsTrue(ss: Sessions, tasks: map<nat, Task>, asked: map<Key, Request>, nextEpoch: nat) {
    && (forall t :: t in tasks ==> RequestTrue(ss, tasks[t].key, Asking(tasks[t]), nextEpoch))
    && (forall k :: k in asked ==> RequestTrue(ss, k, asked[k], nextEpoch))
  }

  /** No request was made in this life of the thread. */
  ghost predicate Unasked(ss: Sessions, tasks: map<nat, Task>, asked: map<Key, Request>, s: string)
    requires s in ss
  {
    && (forall t :: t in tasks && tasks[t].key.0 == s ==> tasks[t].life != ss[s].epoch)
    && (forall k :: k in asked && k.0 == s ==> asked[k].life != ss[s].epoch)
  }

  /** A thread that was added while rows of an earlier life wait to be written has made no request. */
  ghost predicate LaterLivesUnasked(ss: Sessions, stale: map<Key, Stale>, tasks: map<nat, Task>, asked: map<Key, Request>) {
    forall k :: k in stale && k.0 in ss && ss[k.0].epoch != stale[k].life ==> Unasked(ss, tasks, asked, k.0)
  }

  predicate InLife(ss: Sessions, k: Key, life: nat) {
    k.0 in ss && ss[k.0].epoch == life
  }

  /** Without deletions there is only one life. */
  ghost predicate OneLife(ss: Sessions, stale: map<Key, Stale>, tasks: map<nat, Task>, asked: map<Key, Request>) {
    && (forall k :: k in stale ==> InLife(ss, k, stale[k].life))
    && (forall t :: t in tasks ==> InLife(ss, tasks[t].key, tasks[t].life))
    && (forall k :: k in asked ==> InLife(ss, k, asked[k].life))
  }

  ghost predicate Requests(w: World) {
    && (forall k :: k in w.calls <==> k in w.asked)
    && AllRequestsTrue(w.sessions, w.tasks, w.asked, w.nextEpoch)
    && LaterLivesUnasked(w.sessions, w.stale, w.tasks, w.asked)
    && (w.deletions == 0 ==> OneLife(w.sessions, w.stale, w.tasks, w.asked))
  }

  /** Lives and definitions of rows stay; what a request says of a row remains true. */
  ghost predicate SameLives(ss: Sessions, ss': Sessions) {
    && SameEpochs(ss, ss')
    && forall k :: HasRow(ss, k) ==> HasRow(ss', k) && Row(ss', k).prompt == Row(ss, k).prompt && Row(ss', k).refs == Row(ss, k).refs
  }

  lemma TrueSameLives(ss: Sessions, ss': Sessions, tasks: map<nat, Task>, tasks': map<nat, Task>, asked: map<Key, Request>, nextEpoch: nat)
    requires AllRequestsTrue(ss, tasks, asked, nextEpoch) && SameLives(ss, ss') && SameRequests(tasks, tasks')
    ensures AllRequestsTrue(ss', tasks', asked, nextEpoch)
  {
    forall t | t in tasks' ensures RequestTrue(ss', tasks'[t].key, Asking(tasks'[t]), nextEpoch) {
      assert RequestTrue(ss, tasks[t].key, Asking(tasks[t]), nextEpoch);
    }
    forall k | k in asked ensures RequestTrue(ss', k, asked[k], nextEpoch) { assert RequestTrue(ss, k, asked[k], nextEpoch); }
  }

  /** Nobody asks for anything new. */
  predicate SameRequests(tasks: map<nat, Task>, tasks': map<nat, Task>) {
    forall t :: t in tasks' ==> t in tasks && tasks'[t].key == tasks[t].key && Asking(tasks'[t]) == Asking(tasks[t])
  }

  predicate SameReads(stale: map<Key, Stale>, stale': map<Key, Stale>) {
    forall k :: k in stale' ==> k in stale && stale'[k].life == stale[k].life
  }

  predicate SameEpochs(ss: Sessions, ss': Sessions) {
    ss'.Keys == ss.Keys && forall s :: s in ss ==> ss'[s].epoch == ss[s].epoch
  }

  lemma UnaskedSame(ss: Sessions, ss': Sessions, stale: map<Key, Stale>, stale': map<Key, Stale>,
                    tasks: map<nat, Task>, tasks': map<nat, Task>, asked: map<Key, Request>)
    requires LaterLivesUnasked(ss, stale, tasks, asked) && SameEpochs(ss, ss') && SameReads(stale, stale') && SameRequests(tasks, tasks')
    ensures LaterLivesUnasked(ss', stale', tasks', asked)
  {
    forall k | k in stale' && k.0 in ss' && ss'[k.0].epoch != stale'[k].life ensures Unasked(ss', tasks', asked, k.0) {
      assert Unasked(ss, tasks, asked, k.0);
      forall t | t in tasks' && tasks'[t].key.0 == k.0 ensures tasks'[t].life != ss'[k.0].epoch { assert Asking(tasks'[t]).life == Asking(tasks[t]).life; }
    }
  }

  lemma OneLifeSame(ss: Sessions, ss': Sessions, stale: map<Key, Stale>, stale': map<Key, Stale>,
                    tasks: map<nat, Task>, tasks': map<nat, Task>, asked: map<Key, Request>)
    requires OneLife(ss, stale, tasks, asked) && SameEpochs(ss, ss') && SameReads(stale, stale') && SameRequests(tasks, tasks')
    ensures OneLife(ss', stale', tasks', asked)
  {
    forall t | t in tasks' ensures InLife(ss', tasks'[t].key, tasks'[t].life) {
      assert InLife(ss, tasks[t].key, tasks[t].life) && Asking(tasks'[t]).life == Asking(tasks[t]).life;
    }
    forall k | k in stale' ensures InLife(ss', k, stale'[k].life) { assert InLife(ss, k, stale[k].life); }
    forall k | k in asked ensures InLife(ss', k, asked[k].life) { assert InLife(ss, k, asked[k].life); }
  }

  lemma RequestsSameLives(w: World, w': World)
    requires Requests(w) && SameLives(w.sessions, w'.sessions) && SameReads(w.stale, w'.stale) && SameRequests(w.tasks, w'.tasks)
    requires w'.calls == w.calls && w'.asked == w.asked && w'.nextEpoch == w.nextEpoch && w'.deletions == w.deletions
    ensures Requests(w')
  {
    TrueSameLives(w.sessions, w'.sessions, w.tasks, w'.tasks, w.asked, w.nextEpoch);
    UnaskedSame(w.sessions, w'.sessions, w.stale, w'.stale, w.tasks, w'.tasks, w.asked);
    if w.deletions == 0 { OneLifeSame(w.sessions, w'.sessions, w.stale, w'.stale, w.tasks, w'.tasks, w.asked); }
  }

  lemma DraftsSameLives(ss: Sessions, s: string, ss': Sessions)
    requires DraftsIn(ss, s, ss')
    ensures SameLives(ss, ss')
  {
    forall k | HasRow(ss, k) ensures HasRow(ss', k) && Row(ss', k).prompt == Row(ss, k).prompt && Row(ss', k).refs == Row(ss, k).refs {
      if k.0 == s { assert Drafted(Row(ss, k), Row(ss', k)); }
    }
  }

  lemma SavedSameLives(ss: Sessions, k: Key, image: Image)
    requires k.0 in ss && (HasRow(ss, k) ==> image.prompt == Row(ss, k).prompt && image.refs == Row(ss, k).refs)
    ensures SameLives(ss, SavedIn(ss, k, image))
  {
    SavedFacts(ss, k, image);
  }

  lemma RequestsAdded(w: World, s: string)
    requires Requests(w) && s !in w.sessions
    ensures Requests(Added(w, s))
  {
    TrueWhenNew(w, s);
    UnaskedWhenNew(w, s);
    UnaskedBesideNew(w, s);
    if w.deletions == 0 { OneLifeBesideNew(w, s); }
  }

  lemma TrueWhenNew(w: World, s: string)
    requires Requests(w) && s !in w.sessions
    ensures AllRequestsTrue(Added(w, s).sessions, w.tasks, w.asked, w.nextEpoch + 1)
  {
    var ss' := Added(w, s).sessions;
    forall k ensures HasRow(ss', k) <==> HasRow(w.sessions, k) {}
    forall t | t in w.tasks ensures RequestTrue(ss', w.tasks[t].key, Asking(w.tasks[t]), w.nextEpoch + 1) {
      assert RequestTrue(w.sessions, w.tasks[t].key, Asking(w.tasks[t]), w.nextEpoch);
    }
    forall k | k in w.asked ensures RequestTrue(ss', k, w.asked[k], w.nextEpoch + 1) {
      assert RequestTrue(w.sessions, k, w.asked[k], w.nextEpoch);
    }
  }

  lemma UnaskedBesideNew(w: World, s: string)
    requires LaterLivesUnasked(w.sessions, w.stale, w.tasks, w.asked) && s !in w.sessions
    requires Unasked(Added(w, s).sessions, w.tasks, w.asked, s)
    ensures LaterLivesUnasked(Added(w, s).sessions, w.stale, w.tasks, w.asked)
  {
    var ss' := Added(w, s).sessions;
    forall k | k in w.stale && k.0 in ss' && ss'[k.0].epoch != w.stale[k].life ensures Unasked(ss', w.tasks, w.asked, k.0) {
      if k.0 != s { assert Unasked(w.sessions, w.tasks, w.asked, k.0); }
    }
  }

  lemma OneLifeBesideNew(w: World, s: string)
    requires OneLife(w.sessions, w.stale, w.tasks, w.asked) && s !in w.sessions
    ensures OneLife(Added(w, s).sessions, w.stale, w.tasks, w.asked)
  {}

  lemma UnaskedWhenNew(w: World, s: string)
    requires Requests(w) && s !in w.sessions
    ensures Unasked(Added(w, s).sessions, w.tasks, w.asked, s)
  {
    forall t | t in w.tasks ensures w.tasks[t].life < w.nextEpoch { assert RequestTrue(w.sessions, w.tasks[t].key, Asking(w.tasks[t]), w.nextEpoch); }
    forall k | k in w.asked ensures w.asked[k].life < w.nextEpoch { assert RequestTrue(w.sessions, k, w.asked[k], w.nextEpoch); }
  }

  lemma RequestsDeleted(w: World, s: string)
    requires Requests(w)
    ensures Requests(Deleted(w, s))
  {
    var w' := Deleted(w, s);
    forall t | t in w.tasks ensures RequestTrue(w'.sessions, w.tasks[t].key, Asking(w.tasks[t]), w.nextEpoch) {
      assert RequestTrue(w.sessions, w.tasks[t].key, Asking(w.tasks[t]), w.nextEpoch);
    }
    forall k | k in w.asked ensures RequestTrue(w'.sessions, k, w.asked[k], w.nextEpoch) {
      assert RequestTrue(w.sessions, k, w.asked[k], w.nextEpoch);
    }
    forall k | k in w.stale && k.0 in w'.sessions && w'.sessions[k.0].epoch != w.stale[k].life ensures Unasked(w'.sessions, w.tasks, w.asked, k.0) {
      assert Unasked(w.sessions, w.tasks, w.asked, k.0);
    }
  }

  lemma RequestsClaimed(w: World, k: Key)
    requires Requests(w) && Recovery(w) && !w.stopped && HasRow(w.sessions, k) && Indexed(w.sessions, w.order, w.nextEpoch)
    ensures Requests(ClaimRow(w, k))
  {
    var w' := ClaimRow(w, k);
    var image := ClaimedImage(Row(w.sessions, k));
    SavedSameLives(w.sessions, k, image);
    RequestsSameLives(w, w.(sessions := w'.sessions));
    assert w.stale == map[];
    SavedFacts(w.sessions, k, image);
    forall t | t in w'.tasks ensures RequestTrue(w'.sessions, w'.tasks[t].key, Asking(w'.tasks[t]), w.nextEpoch) {
      if t != w.nextTask { assert RequestTrue(w'.sessions, w.tasks[t].key, Asking(w.tasks[t]), w.nextEpoch); }
    }
  }

  lemma RequestsCalled(w: World, t: nat)
    requires Requests(w) && t in w.tasks && w.tasks[t].key !in w.calls && (w.stale == map[])
    ensures Requests(Calling(w, t))
  {
    var w' := Calling(w, t);
    forall k ensures k in w'.calls <==> k in w'.asked {}
    assert RequestTrue(w.sessions, w.tasks[t].key, Asking(w.tasks[t]), w.nextEpoch);
    forall u | u in w'.tasks ensures RequestTrue(w.sessions, w'.tasks[u].key, Asking(w'.tasks[u]), w.nextEpoch) {
      assert RequestTrue(w.sessions, w.tasks[u].key, Asking(w.tasks[u]), w.nextEpoch);
    }
    forall k | k in w'.asked ensures RequestTrue(w.sessions, k, w'.asked[k], w.nextEpoch) {
      if k != w.tasks[t].key { assert RequestTrue(w.sessions, k, w.asked[k], w.nextEpoch); }
    }
  }

  /** A row written by recovery says what it said, or is in a life without requests. */
  lemma RequestsRecovered(w: World, k: Key)
    requires Requests(w) && Recovery(w) && k in w.stale && k.0 in w.sessions
    ensures Requests(RecoverRow(w, k))
  {
    var image := Reconciled(w.sessions, k, w.stale[k]);
    assert StaleOk(w.sessions, w.receipts, k, w.stale[k], w.nextEpoch);
    if w.sessions[k.0].epoch == w.stale[k].life {
      SavedSameLives(w.sessions, k, image);
      RequestsSameLives(w, RecoverRow(w, k));
    } else {
      RequestsElsewhere(w, k);
    }
  }

  lemma RequestsElsewhere(w: World, k: Key)
    requires Requests(w) && k in w.stale && k.0 in w.sessions && w.sessions[k.0].epoch != w.stale[k].life
    ensures Requests(RecoverRow(w, k))
  {
    var w' := RecoverRow(w, k);
    assert Unasked(w.sessions, w.tasks, w.asked, k.0);
    SavedFacts(w.sessions, k, Reconciled(w.sessions, k, w.stale[k]));
    forall t | t in w.tasks ensures RequestTrue(w'.sessions, w.tasks[t].key, Asking(w.tasks[t]), w.nextEpoch) {
      assert RequestTrue(w.sessions, w.tasks[t].key, Asking(w.tasks[t]), w.nextEpoch);
    }
    forall j | j in w.asked ensures RequestTrue(w'.sessions, j, w.asked[j], w.nextEpoch) {
      assert RequestTrue(w.sessions, j, w.asked[j], w.nextEpoch);
    }
    forall j | j in w'.stale && j.0 in w'.sessions && w'.sessions[j.0].epoch != w'.stale[j].life ensures Unasked(w'.sessions, w.tasks, w.asked, j.0) {
      assert Unasked(w.sessions, w.tasks, w.asked, j.0);
    }
  }

  // ---------------------------------------------------------------- every event keeps the invariant

  ghost predicate Inv(w: World) {
    && Attempts(w) && RowsTrue(w.sessions, w.receipts) && Indexed(w.sessions, w.order, w.nextEpoch)
    && Slots(w) && Recovery(w) && Requests(w)
  }

  lemma InitialInv(concurrency: nat)
    ensures Inv(Initial(concurrency))
  {}

  lemma AddKeeps(w: World, s: string)
    requires Inv(w) && s !in w.sessions
    ensures Inv(Added(w, s))
  {
    RowsWithNew(w.sessions, w.receipts, s, w.nextEpoch);
    IndexWithNew(w.sessions, w.order, w.nextEpoch, s);
    RecoveryAdded(w, s);
    RequestsAdded(w, s);
    SlotsSame(w, Added(w, s));
  }

  lemma DeleteKeeps(w: World, s: string)
    requires Inv(w)
    ensures Inv(Deleted(w, s))
  {
    RowsWithout(w.sessions, w.receipts, s);
    IndexWithout(w.sessions, w.order, w.nextEpoch, s);
    RecoveryDeleted(w, s);
    RequestsDeleted(w, s);
    SlotsDeleted(w, s);
  }

  /** A thread that is only drafted on keeps whatever else is there. */
  lemma DraftKeeps(w: World, s: string, w': World)
    requires Inv(w) && DraftsIn(w.sessions, s, w'.sessions) && w' == w.(sessions := w'.sessions, order := w'.order)
    requires RowsTrue(w'.sessions, w.receipts) && Indexed(w'.sessions, w'.order, w.nextEpoch)
    ensures Inv(w')
  {
    RecoveryDrafted(w, s, w');
    DraftsSameLives(w.sessions, s, w'.sessions);
    RequestsSameLives(w, w');
    if w.deletions == 0 { HeldDrafted(w.sessions, s, w'.sessions, w.active); }
    SlotsSame(w, w');
  }

  lemma AcceptKeeps(w: World, s: string, message: string, tags: seq<Tag>, w': World)
    requires Inv(w) && Next(w, Accept(s, message, tags), w')
    ensures Inv(w') && w'.concurrency == w.concurrency
  {
    AcceptDrafts(w, s, message, tags, w');
    DraftKeeps(w, s, w');
  }

  lemma ResolutionKeeps(w: World, s: string, w': World)
    requires Inv(w) && ResolvesTo(w, s, w')
    ensures Inv(w')
  {
    TrueIsTrueExcept(w.sessions, w.receipts, s);
    ResolveKeeps(w, s, w');
    DraftKeeps(w, s, w');
  }

  lemma ClaimKeeps(w: World, k: Key)
    requires Inv(w) && !w.stopped && |w.active| < w.concurrency && Ready(w.sessions, k)
    ensures Inv(ClaimRow(w, k))
  {
    var image := ClaimedImage(Row(w.sessions, k));
    AttemptsClaim(w.calls, w.directories, w.receipts, w.tasks, w.nextTask, ClaimTask(w, k));
    SaveKeepsRows(w.sessions, w.receipts, k, image);
    SaveKeepsIndex(w, k, image);
    SlotsClaim(w, k);
    RequestsClaimed(w, k);
  }

  /** A task that only advances. */
  lemma MoveKeeps(w: World, t: nat, phase: Phase)
    requires Inv(w) && t in w.tasks
    requires phase == Ended || (phase == Sourced && w.tasks[t].phase == Prepared) || (phase == Delivered && w.tasks[t].phase == Called)
    ensures Inv(Move(w, t, phase))
  {
    AttemptsMove(w.calls, w.directories, w.receipts, w.tasks, w.nextTask, t, phase);
    MovedKeeps(w, t, phase);
  }

  lemma MovedKeeps(w: World, t: nat, phase: Phase)
    requires Slots(w) && Recovery(w) && Requests(w) && t in w.tasks
    ensures Slots(Move(w, t, phase)) && Recovery(Move(w, t, phase)) && Requests(Move(w, t, phase))
  {
    SlotsSame(w, Move(w, t, phase));
    RequestsSameLives(w, Move(w, t, phase));
  }

  lemma MakeKeeps(w: World, t: nat)
    requires Inv(w) && t in w.tasks && w.tasks[t].key !in w.directories
    ensures Inv(Move(w, t, Prepared).(directories := w.directories + {w.tasks[t].key}))
  {
    AttemptsMake(w.calls, w.directories, w.receipts, w.tasks, w.nextTask, t);
    MovedKeeps(w, t, Prepared);
  }

  lemma CallKeeps(w: World, t: nat)
    requires Inv(w) && At(w, t, Sourced) && !w.stopped
    ensures Inv(Calling(w, t)) && w.tasks[t].key !in w.calls
  {
    AttemptsCall(w.calls, w.directories, w.receipts, w.tasks, w.nextTask, t);
    SlotsSame(w, Calling(w, t));
    RequestsCalled(w, t);
  }

  lemma CallOrEndKeeps(w: World, t: nat)
    requires Inv(w) && At(w, t, Sourced) && !w.stopped
    ensures Inv(CallingOrEnded(w, t)) && CallingOrEnded(w, t).concurrency == w.concurrency
  {
    if !w.owner || !HasRow(w.sessions, w.tasks[t].key) { MoveKeeps(w, t, Ended); } else { CallKeeps(w, t); }
  }

  lemma PublishKeeps(w: World, t: nat, output: Output)
    requires Inv(w) && At(w, t, Delivered)
    ensures Inv(Move(w, t, Published).(receipts := w.receipts[w.tasks[t].key := output]))
  {
    AttemptsPublish(w.calls, w.directories, w.receipts, w.tasks, w.nextTask, t, output);
    RowsWithReceipt(w.sessions, w.receipts, w.tasks[t].key, output);
    RecoveryPublished(w, w.tasks[t].key, output);
    MovedKeeps(w, t, Published);
  }

  /** `finish`: the row becomes complete with its receipt, or fails. */
  lemma FinishKeeps(w: World, t: nat, image: Image -> Image)
    requires Inv(w) && t in w.tasks && (Writes(w, t) ==> Ends(w, t, image(Row(w.sessions, w.tasks[t].key))))
    ensures Inv(Finished(w, t, image))
  {
    if Writes(w, t) { WriteKeeps(w, w.tasks[t].key, image(Row(w.sessions, w.tasks[t].key))); }
  }

  predicate Ends(w: World, t: nat, image: Image)
    requires t in w.tasks && HasRow(w.sessions, w.tasks[t].key)
  {
    EndsRow(Row(w.sessions, w.tasks[t].key), image)
    && (image.state == Complete ==> w.tasks[t].key in w.receipts && image.output == Some(w.receipts[w.tasks[t].key]))
  }

  predicate EndsRow(a: Image, b: Image) {
    b.prompt == a.prompt && b.refs == a.refs && b.conflict == a.conflict && (b.state == Complete || b.state == Error)
  }

  lemma WriteKeeps(w: World, k: Key, image: Image)
    requires Inv(w) && !w.stopped && HasRow(w.sessions, k) && Row(w.sessions, k).state == Generating && EndsRow(Row(w.sessions, k), image)
    requires image.state == Complete ==> k in w.receipts && image.output == Some(w.receipts[k])
    ensures Inv(SaveRow(w, k, image))
  {
    SaveKeepsRows(w.sessions, w.receipts, k, image);
    SaveKeepsIndex(w, k, image);
    SavedSameLives(w.sessions, k, image);
    RequestsSameLives(w, SaveRow(w, k, image));
    if w.deletions == 0 { HeldSaved(w.sessions, w.active, k, image); }
    SlotsSame(w, SaveRow(w, k, image));
  }

  lemma EndKeeps(w: World, t: nat, image: Image -> Image)
    requires Inv(w) && t in w.tasks && (Writes(w, t) ==> Ends(w, t, image(Row(w.sessions, w.tasks[t].key))))
    ensures Inv(Move(Finished(w, t, image), t, Ended))
  {
    FinishKeeps(w, t, image);
    MoveKeeps(Finished(w, t, image), t, Ended);
  }

  lemma FailKeeps(w: World, t: nat, code: ErrorCode)
    requires Inv(w) && t in w.tasks
    ensures Inv(Move(Finished(w, t, FailWith(code)), t, Ended)) && Finished(w, t, FailWith(code)).concurrency == w.concurrency
  {
    if Writes(w, t) { assert EndsRow(Row(w.sessions, w.tasks[t].key), FailWith(code)(Row(w.sessions, w.tasks[t].key))); }
    EndKeeps(w, t, FailWith(code));
  }

  lemma CompleteKeeps(w: World, t: nat)
    requires Inv(w) && t in w.tasks && w.tasks[t].key in w.receipts
    ensures Inv(Move(Finished(w, t, CompleteWith(w.receipts[w.tasks[t].key])), t, Ended))
    ensures Finished(w, t, CompleteWith(w.receipts[w.tasks[t].key])).concurrency == w.concurrency
  {
    var image := CompleteWith(w.receipts[w.tasks[t].key]);
    if Writes(w, t) { assert EndsRow(Row(w.sessions, w.tasks[t].key), image(Row(w.sessions, w.tasks[t].key))); }
    EndKeeps(w, t, image);
  }

  lemma ReapKeeps(w: World, t: nat)
    requires Inv(w) && t in w.tasks
    ensures Inv(Reaped(w, t))
  {
    AttemptsFewer(w.calls, w.directories, w.receipts, w.tasks, w.nextTask, w.tasks - {t});
    SlotsReaped(w, t);
    RequestsSameLives(w, Reaped(w, t));
  }

  function Crashed(w: World): World {
    w.(stopped := true, tasks := map[], active := {}, recovering := false, stale := map[])
  }

  lemma CrashKeeps(w: World)
    requires Inv(w)
    ensures Inv(Crashed(w))
  {
    var w' := Crashed(w);
    AttemptsFewer(w.calls, w.directories, w.receipts, w.tasks, w.nextTask, map[]);
    SlotsEmpty(w, w');
    RequestsSameLives(w, w');
  }

  lemma OwnerKeeps(w: World, b: bool)
    requires Inv(w)
    ensures Inv(w.(owner := b))
  {
    SlotsSame(w, w.(owner := b));
    RequestsSameLives(w, w.(owner := b));
  }

  lemma StopKeeps(w: World)
    requires Inv(w)
    ensures Inv(w.(stopped := true))
  {
    SlotsSame(w, w.(stopped := true));
    RequestsSameLives(w, w.(stopped := true));
  }

  lemma ReadRowsKeeps(w: World)
    requires Inv(w) && w.stopped && !w.recovering
    ensures Inv(w.(recovering := true, stale := GeneratingRows(w)))
  {
    RowsRead(w);
  }

  lemma ReadReceiptKeeps(w: World, k: Key)
    requires Inv(w) && k in w.stale && w.stale[k].receipt.None?
    ensures Inv(w.(stale := w.stale[k := ReceiptRead(w, k)]))
  {
    ReceiptIsThere(w, k);
    RequestsSameLives(w, w.(stale := w.stale[k := ReceiptRead(w, k)]));
  }

  lemma RecoverKeeps(w: World, k: Key)
    requires Inv(w) && k in w.stale && w.stale[k].receipt.Some?
    ensures Inv(RecoverRow(w, k))
  {
    var image := Reconciled(w.sessions, k, w.stale[k]);
    if k.0 in w.sessions {
      RecoveredRowTrue(w, k);
      SaveKeepsIndex(w, k, image);
      if w.deletions == 0 { HeldSaved(w.sessions, w.active, k, image); }
      SlotsSame(w, RecoverRow(w, k));
      RecoveryWrites(w, k);
      RequestsRecovered(w, k);
    } else {
      RecoverySkips(w, k);
      RequestsSameLives(w, RecoverRow(w, k));
    }
  }

  lemma RecoveredRowTrue(w: World, k: Key)
    requires RowsTrue(w.sessions, w.receipts) && Recovery(w) && k in w.stale && k.0 in w.sessions
    ensures RowsTrue(RecoverRow(w, k).sessions, w.receipts)
  {
    assert StaleOk(w.sessions, w.receipts, k, w.stale[k], w.nextEpoch);
    SaveKeepsRows(w.sessions, w.receipts, k, Reconciled(w.sessions, k, w.stale[k]));
  }

  function Started(w: World): World {
    w.(stopped := false, recovering := false, instance := w.instance + 1, active := {})
  }

  lemma StartKeeps(w: World)
    requires Inv(w) && w.recovering && w.stale == map[]
    ensures Inv(Started(w))
  {
    SlotsEmpty(w, Started(w));
    RequestsSameLives(w, Started(w));
  }

  lemma ThreadEventKeeps(w: World, e: Event, w': World)
    requires Inv(w) && Next(w, e, w') && (e.AddThread? || e.DeleteThread? || e.Accept? || e.ResolveSession?)
    ensures Inv(w') && w'.concurrency == w.concurrency
  {
    match e
    case AddThread(s) => AddKeeps(w, s);
    case DeleteThread(s) => DeleteKeeps(w, s);
    case Accept(s, message, tags) => AcceptKeeps(w, s, message, tags, w');
    case ResolveSession(s) => ResolutionKeeps(w, s, w');
  }

  lemma WorkEventKeeps(w: World, e: Event, w': World)
    requires Inv(w) && Next(w, e, w') && (e.Claim? || e.MakeDirectory? || e.ReadSources? || e.Reap?)
    ensures Inv(w') && w'.concurrency == w.concurrency
  {
    match e
    case Claim(k) => ClaimKeeps(w, k);
    case MakeDirectory(t) => MakeKeeps(w, t);
    case ReadSources(t) => MoveKeeps(w, t, Sourced);
    case Reap(t) => ReapKeeps(w, t);
  }

  lemma ProviderEventKeeps(w: World, e: Event, w': World)
    requires Inv(w) && Next(w, e, w') && (e.CallProvider? || e.Deliver? || e.Publish?)
    ensures Inv(w') && w'.concurrency == w.concurrency
  {
    match e
    case CallProvider(t) => CallOrEndKeeps(w, t);
    case Deliver(t) => MoveKeeps(w, t, Delivered);
    case Publish(t, output) => PublishKeeps(w, t, output);
  }

  lemma EndEventKeeps(w: World, e: Event, w': World)
    requires Inv(w) && Next(w, e, w') && (e.Throw? || e.Refuse? || e.Finish?)
    ensures Inv(w') && w'.concurrency == w.concurrency
  {
    match e
    case Throw(t) => FailKeeps(w, t, ThrownCode(w.tasks[t].phase));
    case Refuse(t) => FailKeeps(w, t, ProviderError);
    case Finish(t) => CompleteKeeps(w, t);
  }

  lemma ControlEventKeeps(w: World, e: Event, w': World)
    requires Inv(w) && Next(w, e, w') && (e.SetOwner? || e.Stop? || e.Crash? || e.Start?)
    ensures Inv(w') && w'.concurrency == w.concurrency
  {
    match e
    case SetOwner(b) => OwnerKeeps(w, b);
    case Stop => StopKeeps(w);
    case Crash => CrashKeeps(w);
    case Start => StartKeeps(w);
  }

  lemma RecoveryEventKeeps(w: World, e: Event, w': World)
    requires Inv(w) && Next(w, e, w') && (e.ReadRows? || e.ReadReceipt? || e.Recover?)
    ensures Inv(w') && w'.concurrency == w.concurrency
  {
    match e
    case ReadRows => ReadRowsKeeps(w);
    case ReadReceipt(k) => ReadReceiptKeeps(w, k);
    case Recover(k) => RecoverKeeps(w, k);
  }

  lemma InvStep(w: World, e: Event, w': World)
    requires Inv(w) && Next(w, e, w')
    ensures Inv(w') && w'.concurrency == w.concurrency
  {
    if e.AddThread? || e.DeleteThread? || e.Accept? || e.ResolveSession? {
      ThreadEventKeeps(w, e, w');
    } else if e.Claim? || e.MakeDirectory? || e.ReadSources? || e.Reap? {
      WorkEventKeeps(w, e, w');
    } else if e.CallProvider? || e.Deliver? || e.Publish? {
      ProviderEventKeeps(w, e, w');
    } else if e.Throw? || e.Refuse? || e.Finish? {
      EndEventKeeps(w, e, w');
    } else if e.ReadRows? || e.ReadReceipt? || e.Recover? {
      RecoveryEventKeeps(w, e, w');
    } else {
      ControlEventKeeps(w, e, w');
    }
  }

  lemma StepKeepsInv(w: World, w': World)
    requires Inv(w) && Step(w, w')
    ensures Inv(w') && w'.concurrency == w.concurrency
  {
    var e :| Next(w, e, w');
    InvStep(w, e, w');
  }

  lemma InvNext(trace: seq<World>, i: nat)
    requires Run(trace) && 0 < i < |trace| && Inv(trace[i - 1])
    ensures Inv(trace[i]) && trace[i].concurrency == trace[i - 1].concurrency
  {
    StepAlongRun(trace, i - 1);
    StepKeepsInv(trace[i - 1], trace[i]);
  }

  lemma {:induction false} InvAlongRun(trace: seq<World>, i: nat)
    requires Run(trace) && Inv(trace[0]) && i < |trace|
    ensures Inv(trace[i]) && trace[i].concurrency == trace[0].concurrency
  {
    if i > 0 {
      InvAlongRun(trace, i - 1);
      InvNext(trace, i);
    }
  }

  lemma StepAlongRun(trace: seq<World>, i: nat)
    requires Run(trace) && i + 1 < |trace|
    ensures Step(trace[i], trace[i + 1])
  {
    assert StepAt(trace, i);
  }

  // ---------------------------------------------------------------- theorems over every run

  lemma ReachableInv(concurrency: nat, w: World)
    requires Reaches(Initial(concurrency), w)
    ensures Inv(w) && w.concurrency == concurrency
  {
    var trace :| Run(trace) && trace[0] == Initial(concurrency) && trace[|trace| - 1] == w;
    InitialInv(concurrency);
    InvAlongRun(trace, |trace| - 1);
  }

  /**
   * Through every interleaving of accepts, stops, crashes, restarts and thread deletions the provider is called
   * at most once for each session and image id, and a completed image shows what that call published.
   */
  lemma ProviderCalledAtMostOnce(concurrency: nat, w: World)
    requires Reaches(Initial(concurrency), w)
    ensures NoDuplicates(w.calls)
    ensures forall k :: HasRow(w.sessions, k) && Row(w.sessions, k).state == Complete ==>
      k in w.calls && k in w.receipts && Row(w.sessions, k).output == Some(w.receipts[k])
  {
    ReachableInv(concurrency, w);
    forall k | HasRow(w.sessions, k) && Row(w.sessions, k).state == Complete
      ensures k in w.calls && k in w.receipts && Row(w.sessions, k).output == Some(w.receipts[k])
    {
      assert RowTrue(w.sessions, w.receipts, k);
    }
  }

  /**
   * A completed image shows the answer to its own prompt and references, if the job was claimed in this life of the thread;
   * and so it always does while no thread has been deleted.
   */
  lemma AnswersItsOwnPrompt(concurrency: nat, w: World, k: Key)
    requires Reaches(Initial(concurrency), w) && HasRow(w.sessions, k) && Row(w.sessions, k).state == Complete
    ensures k in w.asked
    ensures w.asked[k].life == w.sessions[k.0].epoch ==>
      w.asked[k].prompt == Row(w.sessions, k).prompt && w.asked[k].refs == Row(w.sessions, k).refs
    ensures w.deletions == 0 ==> w.asked[k].life == w.sessions[k.0].epoch
  {
    ReachableInv(concurrency, w);
    ProviderCalledAtMostOnce(concurrency, w);
    assert RequestTrue(w.sessions, k, w.asked[k], w.nextEpoch);
  }

  /** An image is claimed only when every image it references is complete, with a path to read. */
  lemma ClaimedOnlyWhenReferencesComplete(concurrency: nat, w: World, k: Key, w': World)
    requires Reaches(Initial(concurrency), w) && Next(w, Claim(k), w')
    ensures forall r :: r in IdRefs(Row(w.sessions, k).refs) ==>
      HasRow(w.sessions, (k.0, r)) && Row(w.sessions, (k.0, r)).state == Complete && Row(w.sessions, (k.0, r)).output.Some?
  {
    ReachableInv(concurrency, w);
    assert RowTrue(w.sessions, w.receipts, k);
    forall r | r in IdRefs(Row(w.sessions, k).refs)
      ensures HasRow(w.sessions, (k.0, r)) && Row(w.sessions, (k.0, r)).state == Complete && Row(w.sessions, (k.0, r)).output.Some?
    {
      assert HasState(w.sessions[k.0].images, r, Complete);
      assert RowTrue(w.sessions, w.receipts, (k.0, r));
    }
  }

  // ---------------------------------------------------------------- the concurrency cap

  ghost function RunningIn(tasks: map<nat, Task>, instance: nat): set<nat> {
    set t | t in tasks && tasks[t].instance == instance
  }

  ghost function Running(w: World): set<nat> { RunningIn(w.tasks, w.instance) }

  lemma {:induction false} InjectiveIsNoLarger(tasks: map<nat, Task>, ts: set<nat>, keys: set<Key>)
    requires forall t :: t in ts ==> t in tasks && tasks[t].key in keys
    requires forall t, u :: t in ts && u in ts && tasks[t].key == tasks[u].key ==> t == u
    ensures |ts| <= |keys|
    decreases ts
  {
    if ts != {} {
      var t :| t in ts;
      InjectiveIsNoLarger(tasks, ts - {t}, keys - {tasks[t].key});
    }
  }

  /** Each key has its own task; if there are no more tasks than keys, that is all of them. */
  lemma {:induction false} CarriedIsNoLarger(tasks: map<nat, Task>, ts: set<nat>, keys: set<Key>)
    requires forall t :: t in ts ==> t in tasks
    requires forall k :: k in keys ==> exists t :: t in ts && tasks[t].key == k
    ensures |keys| <= |ts|
    ensures |keys| == |ts| ==> forall t :: t in ts ==> tasks[t].key in keys
    ensures |keys| == |ts| ==> forall t, u :: t in ts && u in ts && tasks[t].key == tasks[u].key ==> t == u
    decreases keys
  {
    if keys != {} {
      var k :| k in keys;
      var t, mine := Carriers(tasks, ts, k);
      forall j | j in keys - {k} ensures exists u :: u in ts - mine && tasks[u].key == j {
        var u :| u in ts && tasks[u].key == j;
        assert u in ts - mine;
      }
      CarriedIsNoLarger(tasks, ts - mine, keys - {k});
      if |keys| == |ts| { OnlyOne(mine, t); }
    }
  }

  /** The tasks of one key. */
  lemma Carriers(tasks: map<nat, Task>, ts: set<nat>, k: Key) returns (t: nat, mine: set<nat>)
    requires (forall t :: t in ts ==> t in tasks) && exists t :: t in ts && tasks[t].key == k
    ensures mine <= ts && t in mine && |mine| >= 1 && |ts - mine| == |ts| - |mine|
    ensures forall u :: u in ts ==> (u in mine <==> tasks[u].key == k)
  {
    t :| t in ts && tasks[t].key == k;
    mine := set u | u in ts && tasks[u].key == k;
    Smaller({t}, mine);
  }

  lemma OnlyOne<T>(s: set<T>, x: T)
    requires x in s && |s| <= 1
    ensures s == {x}
  {
    if s != {x} {
      var y :| y in s && y != x;
      Smaller({x, y}, s);
    }
  }

  /** The active jobs count the running tasks exactly if there are as many of them. */
  lemma CountedIffAsMany(w: World)
    requires Slots(w)
    ensures |w.active| <= |Running(w)|
    ensures |w.active| == |Running(w)| <==> Counted(w.tasks, w.instance, w.active)
  {
    var ts := Running(w);
    forall k | k in w.active ensures exists t :: t in ts && w.tasks[t].key == k {
      assert Carried(w.tasks, w.instance, k);
      var t: nat :| Current(w.tasks, w.instance, t) && w.tasks[t].key == k;
      assert t in ts;
    }
    CarriedIsNoLarger(w.tasks, ts, w.active);
    if Counted(w.tasks, w.instance, w.active) {
      assert forall t :: t in ts ==> Current(w.tasks, w.instance, t);
      InjectiveIsNoLarger(w.tasks, ts, w.active);
    }
    if |w.active| == |ts| { assert forall t :: Current(w.tasks, w.instance, t) ==> t in ts; }
  }

  /** Concurrency: the cap bounds the active jobs in every run, and the running tasks as long as no thread is deleted. */
  lemma ConcurrencyCap(concurrency: nat, w: World)
    requires Reaches(Initial(concurrency), w)
    ensures |w.active| <= concurrency
    ensures w.deletions == 0 || w.reclaims == 0 ==> |Running(w)| <= concurrency
  {
    ReachableInv(concurrency, w);
    CountedIffAsMany(w);
  }

  /** The running tasks that the active jobs do not count. */
  ghost function Uncounted(w: World): int { |Running(w)| - |w.active| }

  /**
   * Exactly when a claim keeps the cap on running tasks: the free slots that it sees must outnumber the uncounted tasks.
   * A claim into the last slot keeps it exactly if the active jobs count every running task.
   */
  lemma ClaimKeepsCapIff(concurrency: nat, w: World, k: Key, w': World)
    requires Reaches(Initial(concurrency), w) && Next(w, Claim(k), w')
    ensures |Running(w')| <= concurrency <==> Uncounted(w) < concurrency - |w.active|
    ensures |w.active| + 1 == concurrency ==> (|Running(w')| <= concurrency <==> Counted(w.tasks, w.instance, w.active))
  {
    ReachableInv(concurrency, w);
    CountedIffAsMany(w);
    assert w.nextTask !in w.tasks;
    ClaimRuns(w, k);
    OneMore(Running(w), w.nextTask);
  }

  lemma ClaimRuns(w: World, k: Key)
    requires w.nextTask !in w.tasks && HasRow(w.sessions, k)
    ensures Running(ClaimRow(w, k)) == Running(w) + {w.nextTask} && w.nextTask !in Running(w)
  {}

  /** Where tasks go uncounted: the active jobs go on counting the running tasks exactly if the claimed key was not active already. */
  lemma ClaimCountsIffNotActive(concurrency: nat, w: World, k: Key, w': World)
    requires Reaches(Initial(concurrency), w) && Counted(w.tasks, w.instance, w.active) && Next(w, Claim(k), w')
    ensures k !in w.active <==> Counted(w'.tasks, w'.instance, w'.active)
    ensures Uncounted(w') == if k in w.active then 1 else 0
  {
    ReachableInv(concurrency, w);
    assert w.nextTask !in w.tasks;
    CountedClaim(w.tasks, w.instance, w.active, w.nextTask, ClaimTask(w, k));
    CountedIffAsMany(w);
    UncountedClaim(w, k);
  }

  lemma UncountedClaim(w: World, k: Key)
    requires HasRow(w.sessions, k) && Uncounted(w) == 0 && w.nextTask !in w.tasks
    ensures Uncounted(ClaimRow(w, k)) == if k in w.active then 1 else 0
  {
    ClaimRuns(w, k);
    OneMore(Running(w), w.nextTask);
    OneMore(w.active, k);
  }

  lemma OneMore<T>(s: set<T>, x: T)
    ensures |s + {x}| == |s| + if x in s then 0 else 1
  {
    assert x in s ==> s + {x} == s;
  }
}
