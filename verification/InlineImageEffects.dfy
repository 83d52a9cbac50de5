/**
 * What each event writes (apps/remote/server/inline-images.ts), row by row: a row changes only by its claim, by the end of its job
 * in the hands of the running owner, by a recovery, or with a resolution of its thread.
 */
module InlineImageEffects {
  import opened Options
  import opened InlineImageGraph
  import opened InlineImageProtocol
  import opened InlineImageHistory
  import opened InlineImageAccepts

  /** Thread by thread and row by row nothing differs but perhaps the row of `k`. */
  ghost predicate OnlyRow(w: World, k: Key, w': World) {
    && w'.sessions.Keys == w.sessions.Keys
    && (forall j: Key :: j != k ==> (HasRow(w'.sessions, j) <==> HasRow(w.sessions, j)))
    && (forall j: Key :: j != k && HasRow(w.sessions, j) ==> Row(w'.sessions, j) == Row(w.sessions, j))
    && (forall s :: s in w.sessions && s != k.0 ==> w'.sessions[s] == w.sessions[s])
    && (k.0 in w.sessions ==> w'.sessions[k.0] == w.sessions[k.0].(images := w'.sessions[k.0].images, version := w'.sessions[k.0].version))
  }

  // ---------------------------------------------------------------- claims

  /** A claim takes a queued row that waits for nothing, while there is a free slot, for the running owner alone. */
  lemma ClaimEffect(w: World, k: Key, w': World)
    requires Next(w, Claim(k), w')
    ensures !w.stopped && w.owner && |w.active| < w.concurrency
    ensures HasRow(w.sessions, k) && Row(w.sessions, k).state == Queued && Row(w.sessions, k).waitingFor == []
    ensures OnlyRow(w, k, w') && HasRow(w'.sessions, k)
    ensures Row(w'.sessions, k) == Row(w.sessions, k).(state := Generating, attempted := true)
    ensures w'.active == w.active + {k} && w.nextTask in w'.tasks
    ensures w'.tasks == w.tasks[w.nextTask := Task(k, Row(w.sessions, k), w.instance, w.sessions[k.0].epoch, Claimed)]
    ensures w'.order == w.order && w'.directories == w.directories && w'.receipts == w.receipts && w'.calls == w.calls && w'.stale == w.stale
  {
    SavedFacts(w.sessions, k, ClaimedImage(Row(w.sessions, k)));
  }

  // ---------------------------------------------------------------- the job

  /** An attempt makes its own directory, reads a published image for each id reference, and calls once for a row that is there. */
  lemma AttemptEffect(w: World, e: Event, t: nat, w': World)
    requires Next(w, e, w') && (e == MakeDirectory(t) || e == ReadSources(t) || e == CallProvider(t) || e == Deliver(t))
    ensures t in w.tasks && t in w'.tasks
    ensures w'.sessions == w.sessions && w'.receipts == w.receipts && w'.active == w.active
    ensures e == MakeDirectory(t) ==>
      w.tasks[t].key !in w.directories && w'.directories == w.directories + {w.tasks[t].key} && w'.calls == w.calls
    ensures e == ReadSources(t) ==>
      w'.directories == w.directories && w'.calls == w.calls && SourcesThere(w, t)
    ensures e == CallProvider(t) ==>
      && !w.stopped && w.tasks[t].instance == w.instance && w'.directories == w.directories
      && if w.owner && HasRow(w.sessions, w.tasks[t].key)
         then w'.calls == w.calls + [w.tasks[t].key] && w'.tasks[t].phase == Called
              && w'.asked == w.asked[w.tasks[t].key := Request(w.tasks[t].image.prompt, w.tasks[t].image.refs, w.tasks[t].life)]
         else w'.calls == w.calls && w'.asked == w.asked && w'.tasks[t].phase == Ended
  {
    if e == CallProvider(t) { CallEffect(w, t, w'); } else { WorkIsQuiet(w, e, t, w'); }
  }

  lemma WorkIsQuiet(w: World, e: Event, t: nat, w': World)
    requires Next(w, e, w') && (e == MakeDirectory(t) || e == ReadSources(t) || e == Deliver(t))
    ensures t in w.tasks && t in w'.tasks
    ensures w'.sessions == w.sessions && w'.receipts == w.receipts && w'.active == w.active && w'.calls == w.calls
    ensures e == MakeDirectory(t) ==> w.tasks[t].key !in w.directories && w'.directories == w.directories + {w.tasks[t].key}
    ensures e == ReadSources(t) ==> w'.directories == w.directories
    ensures e == ReadSources(t) ==> SourcesThere(w, t)
  {}

  predicate SourcesThere(w: World, t: nat)
    requires t in w.tasks
  {
    forall r :: r in w.tasks[t].image.refs && (r == "" || r[0] != '/') ==>
      HasRow(w.sessions, (w.tasks[t].key.0, r)) && Row(w.sessions, (w.tasks[t].key.0, r)).output.Some?
  }

  lemma CallEffect(w: World, t: nat, w': World)
    requires Next(w, CallProvider(t), w')
    ensures t in w.tasks && t in w'.tasks && !w.stopped && w.tasks[t].instance == w.instance
    ensures w'.sessions == w.sessions && w'.receipts == w.receipts && w'.active == w.active && w'.directories == w.directories
    ensures
      if w.owner && HasRow(w.sessions, w.tasks[t].key)
      then w'.calls == w.calls + [w.tasks[t].key] && w'.tasks[t].phase == Called
           && w'.asked == w.asked[w.tasks[t].key := Request(w.tasks[t].image.prompt, w.tasks[t].image.refs, w.tasks[t].life)]
      else w'.calls == w.calls && w'.asked == w.asked && w'.tasks[t].phase == Ended
  {}

  /** The receipt of a job is the output it was published with, under its own key. */
  lemma PublishEffect(w: World, t: nat, output: Output, w': World)
    requires Next(w, Publish(t, output), w')
    ensures t in w.tasks && w.tasks[t].phase == Delivered
    ensures w'.receipts == w.receipts[w.tasks[t].key := output]
    ensures w'.sessions == w.sessions && w'.directories == w.directories && w'.calls == w.calls
  {}

  /** A job ends with a result that only the running owner writes, and only on a row still generating. */
  predicate MayWrite(w: World, t: nat)
    requires t in w.tasks
  {
    && !w.stopped && w.tasks[t].instance == w.instance && w.owner
    && HasRow(w.sessions, w.tasks[t].key) && Row(w.sessions, w.tasks[t].key).state == Generating
  }

  /** The row as the end of the job writes it: the published result, or the error of the phase that was reached. */
  predicate EndsAs(w: World, e: Event, t: nat, row: Image, row': Image)
    requires t in w.tasks
  {
    match e
    case Finish(_) => w.tasks[t].key in w.receipts && row' == row.(state := Complete, error := None, output := Some(w.receipts[w.tasks[t].key]))
    case Refuse(_) => row' == row.(state := Error, waitingFor := [], error := Some(ProviderError))
    case Throw(_) =>
      row' == row.(state := Error, waitingFor := [],
                   error := Some(if w.tasks[t].phase in {Delivered, Published} then PublicationError else InputError))
    case _ => false
  }

  lemma EndEffect(w: World, e: Event, t: nat, w': World)
    requires Next(w, e, w') && (e == Throw(t) || e == Refuse(t) || e == Finish(t))
    ensures t in w.tasks && t in w'.tasks && w'.tasks[t].phase == Ended && w.tasks[t].phase != Ended
    ensures e == Finish(t) ==> w.tasks[t].phase == Published
    ensures w'.receipts == w.receipts && w'.directories == w.directories && w'.calls == w.calls && w'.active == w.active
    ensures !MayWrite(w, t) ==> w'.sessions == w.sessions
    ensures MayWrite(w, t) ==>
      && OnlyRow(w, w.tasks[t].key, w') && HasRow(w'.sessions, w.tasks[t].key)
      && EndsAs(w, e, t, Row(w.sessions, w.tasks[t].key), Row(w'.sessions, w.tasks[t].key))
  {
    EndMoves(w, e, t, w');
    if MayWrite(w, t) { WrittenRow(w, t, EndOf(w, e, t)); }
  }

  function EndOf(w: World, e: Event, t: nat): Image -> Image
    requires t in w.tasks && (e.Throw? || e.Refuse? || (e.Finish? && w.tasks[t].key in w.receipts))
  {
    match e
    case Throw(_) => FailWith(ThrownCode(w.tasks[t].phase))
    case Refuse(_) => FailWith(ProviderError)
    case Finish(_) => CompleteWith(w.receipts[w.tasks[t].key])
  }

  lemma EndMoves(w: World, e: Event, t: nat, w': World)
    requires Next(w, e, w') && (e == Throw(t) || e == Refuse(t) || e == Finish(t))
    ensures t in w.tasks && w.tasks[t].phase != Ended && (e == Finish(t) ==> w.tasks[t].phase == Published && w.tasks[t].key in w.receipts)
    ensures w' == Move(Finished(w, t, EndOf(w, e, t)), t, Ended)
  {}

  lemma WrittenRow(w: World, t: nat, image: Image -> Image)
    requires t in w.tasks && MayWrite(w, t)
    ensures var k := w.tasks[t].key;
      OnlyRow(w, k, Finished(w, t, image)) && HasRow(Finished(w, t, image).sessions, k)
      && Row(Finished(w, t, image).sessions, k) == image(Row(w.sessions, k))
  {
    SavedFacts(w.sessions, w.tasks[t].key, image(Row(w.sessions, w.tasks[t].key)));
  }

  /** A job that is over leaves the table, and the slot of the instance that claimed it. */
  lemma ReapEffect(w: World, t: nat, w': World)
    requires Next(w, Reap(t), w')
    ensures t in w.tasks && w.tasks[t].phase == Ended && w'.tasks == w.tasks - {t}
    ensures w'.active == if w.tasks[t].instance == w.instance then w.active - {w.tasks[t].key} else w.active
    ensures w'.sessions == w.sessions && w'.receipts == w.receipts && w'.directories == w.directories && w'.calls == w.calls
  {}

  // ---------------------------------------------------------------- recovery

  /** A start holds every generating row as it is at one moment, with no receipt looked for yet. */
  lemma ReadRowsEffect(w: World, w': World)
    requires Inv(w) && Next(w, Event.ReadRows, w')
    ensures w.stopped && w'.recovering && w'.stopped && w'.sessions == w.sessions
    ensures forall k :: k in w'.stale <==> HasRow(w.sessions, k) && Row(w.sessions, k).state == Generating
    ensures forall k :: k in w'.stale ==> w'.stale[k] == Stale(Row(w.sessions, k), w.sessions[k.0].epoch, None)
  {
    forall k: Key ensures HasRow(w.sessions, k) <==> k in w.order {}
  }

  /** The receipt is looked for where the row that was read had an attempt directory, and found if it was published. */
  lemma ReadReceiptEffect(w: World, k: Key, w': World)
    requires Next(w, Event.ReadReceipt(k), w')
    ensures k in w.stale && k in w'.stale && w'.stale == w.stale[k := w'.stale[k]] && w'.sessions == w.sessions
    ensures w'.stale[k] == w.stale[k].(receipt :=
      Some(if w.stale[k].image.attempted && k in w.receipts then Some(w.receipts[k]) else None))
  {}

  /** The row that was read is written as complete with its receipt, or else as interrupted, if the thread is there. */
  lemma RecoverEffect(w: World, k: Key, w': World)
    requires Next(w, Recover(k), w')
    ensures k in w.stale && w.stale[k].receipt.Some? && w'.stale == w.stale - {k}
    ensures k.0 !in w.sessions ==> w'.sessions == w.sessions
    ensures k.0 in w.sessions ==>
      && OnlyRow(w, k, w') && HasRow(w'.sessions, k)
      && var read, row := w.stale[k].image, Row(w'.sessions, k);
         row.(attempted := read.attempted) ==
           match w.stale[k].receipt.value
           case Some(output) => read.(state := Complete, error := None, output := Some(output))
           case None => read.(state := Error, waitingFor := [], error := Some(Interrupted))
    ensures k.0 in w.sessions ==> (Row(w'.sessions, k).attempted <==> HasRow(w.sessions, k) && Row(w.sessions, k).attempted)
  {
    if k.0 in w.sessions { SavedFacts(w.sessions, k, Reconciled(w.sessions, k, w.stale[k])); }
  }

  // ---------------------------------------------------------------- stops, crashes, deletions

  /** What is durable survives a stop, a crash and a start; deleting a thread takes its rows and leaves its attempts. */
  lemma DurableStays(w: World, e: Event, w': World)
    requires Next(w, e, w') && (e.Stop? || e.Crash? || e.Start? || e.SetOwner? || e.DeleteThread? || e.AddThread?)
    ensures w'.directories == w.directories && w'.receipts == w.receipts && w'.calls == w.calls
    ensures e.Stop? ==> w' == w.(stopped := true)
    ensures e.SetOwner? ==> w' == w.(owner := e.owner)
    ensures e.Crash? ==> w'.sessions == w.sessions && w'.order == w.order && w'.stopped && w'.tasks == map[] && w'.active == {} && !w'.recovering && w'.stale == map[]
    ensures e.Start? ==>
      && w.recovering && w.stale == map[] && !w'.stopped && !w'.recovering
      && w'.sessions == w.sessions && w'.tasks == w.tasks && w'.instance == w.instance + 1
    ensures e.AddThread? ==>
      && e.session !in w.sessions && e.session in w'.sessions && w'.sessions == w.sessions[e.session := w'.sessions[e.session]]
      && w'.sessions[e.session].images == map[] && w'.sessions[e.session].version == 0 && w'.sessions[e.session].messages == {}
    ensures e.DeleteThread? ==>
      && e.session in w.sessions && w'.sessions == w.sessions - {e.session} && w'.tasks == w.tasks && w'.active == w.active
  {}

  // ---------------------------------------------------------------- who writes a row

  /** The events that may change a row that stays. */
  ghost predicate Writer(w: World, e: Event, k: Key) {
    match e
    case Accept(s, _, _) => s == k.0
    case ResolveSession(s) => s == k.0
    case Claim(j) => j == k
    case Throw(t) => t in w.tasks && w.tasks[t].key == k && MayWrite(w, t)
    case Refuse(t) => t in w.tasks && w.tasks[t].key == k && MayWrite(w, t)
    case Finish(t) => t in w.tasks && w.tasks[t].key == k && MayWrite(w, t)
    case Recover(j) => j == k
    case _ => false
  }

  /** Any other event leaves the row as it is. */
  lemma RowsHaveOneWriter(w: World, e: Event, w': World, k: Key)
    requires Next(w, e, w') && HasRow(w.sessions, k) && HasRow(w'.sessions, k) && !Writer(w, e, k)
    ensures Row(w'.sessions, k) == Row(w.sessions, k)
  {
    if e.Accept? || e.ResolveSession? {
      ThreadsApart(w, e, w', k);
    } else if IsEnd(e) {
      EndKeepsOthers(w, e, w', k);
    } else if e.Claim? {
      ClaimKeepsOthers(w, e.key, w', k);
    } else if e.Recover? {
      RecoverKeepsOthers(w, e.key, w', k);
    } else {
      OtherRowsStay(w, e, w', k);
    }
  }

  lemma ThreadsApart(w: World, e: Event, w': World, k: Key)
    requires Next(w, e, w') && (e.Accept? || e.ResolveSession?) && HasRow(w.sessions, k) && e.session != k.0
    ensures HasRow(w'.sessions, k) && Row(w'.sessions, k) == Row(w.sessions, k)
  {
    if e.Accept? { AcceptKeepsTheRest(w, e.session, e.message, e.tags, w'); }
  }

  lemma ClaimKeepsOthers(w: World, j: Key, w': World, k: Key)
    requires Next(w, Claim(j), w') && j != k && HasRow(w.sessions, k)
    ensures HasRow(w'.sessions, k) && Row(w'.sessions, k) == Row(w.sessions, k)
  {
    ClaimEffect(w, j, w');
  }

  lemma RecoverKeepsOthers(w: World, j: Key, w': World, k: Key)
    requires Next(w, Recover(j), w') && j != k && HasRow(w.sessions, k)
    ensures HasRow(w'.sessions, k) && Row(w'.sessions, k) == Row(w.sessions, k)
  {
    RecoverEffect(w, j, w');
  }

  lemma EndKeepsOthers(w: World, e: Event, w': World, k: Key)
    requires Next(w, e, w') && IsEnd(e) && HasRow(w.sessions, k) && HasRow(w'.sessions, k)
    requires e.task in w.tasks && w.tasks[e.task].key == k ==> !MayWrite(w, e.task)
    ensures Row(w'.sessions, k) == Row(w.sessions, k)
  {
    EndEffect(w, e, e.task, w');
  }

  lemma OtherRowsStay(w: World, e: Event, w': World, k: Key)
    requires Next(w, e, w') && HasRow(w.sessions, k) && HasRow(w'.sessions, k)
    requires !e.Accept? && !e.ResolveSession? && !e.Claim? && !IsEnd(e) && !e.Recover?
    ensures Row(w'.sessions, k) == Row(w.sessions, k)
  {
    if IsTaskEvent(e) { TaskEventQuiet(w, e, w'); }
  }
}
