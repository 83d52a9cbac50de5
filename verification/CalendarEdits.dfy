/** Editing, deleting and undoing owned events (apps/remote/server/calendar.ts, `CalendarStore.handle`). */
module CalendarEdits {
  import opened Options
  import opened CalendarRecurrence

  const UNDO_LIFETIME: int := 600_000

  datatype Undo = Undo(before: Event, after: Option<Event>, expires: int)

  /** The `events` and `delete_undo` tables. */
  datatype Store = Store(events: map<string, Event>, undos: map<string, Undo>)

  datatype Reply = Done | Undoable(token: string) | Refused(status: int)

  datatype Scope = OneOccurrence | WholeSeries | UnknownScope

  /** `id~occurrence` in the path, `scope` and `occurrence` in the query. */
  datatype Target = Target(id: string, pathOccurrence: Option<Value>, scope: Option<Scope>, queryOccurrence: Option<Value>)

  /** A delete, or a patch with the validated event it results in (none when validation fails). */
  datatype Change = Delete(token: string) | Patch(edited: Option<Event>)

  function SaveEvent(store: Store, e: Event): Store {
    store.(events := store.events[SeriesId(e) := e])
  }

  /** `deleteWithUndo`: expired undos go, this one is recorded, and the event is replaced or removed. */
  function DeletedWithUndo(store: Store, before: Event, after: Option<Event>, token: string, now: int): Store {
    var kept := map t | t in store.undos && store.undos[t].expires >= now :: store.undos[t];
    Store(if after.Some? then store.events[SeriesId(after.value) := after.value] else store.events - {SeriesId(before)},
          kept[token := Undo(before, after, now + UNDO_LIFETIME)])
  }

  function Current(store: Store, id: string): Option<Event> {
    if id in store.events then Some(store.events[id]) else None
  }

  function Undone(store: Store, token: string, now: int): (Store, Reply) {
    if token !in store.undos || store.undos[token].expires < now then (store, Refused(404))
    else
      var undo := store.undos[token];
      if Current(store, SeriesId(undo.before)) != undo.after then (store, Refused(409))
      else (SaveEvent(store, undo.before).(undos := store.undos - {token}), Done)
  }

  function ScopeOf(target: Target): Option<Scope> {
    if target.scope.Some? then target.scope
    else if target.pathOccurrence.Some? then Some(OneOccurrence) else None
  }

  function Original(target: Target): Option<Value> {
    if target.pathOccurrence.Some? then target.pathOccurrence else target.queryOccurrence
  }

  /** `exceptions[original] === null` */
  predicate AlreadyDeleted(xs: seq<Exception>, v: Value) {
    exists i :: 0 <= i < |xs| && xs[i].original == v && xs[i].replacement.None?
  }

  /** The `/events/` branch for PATCH and DELETE. */
  function Changed(tz: Zones, store: Store, target: Target, change: Change, now: int): (Store, Reply)
    requires target.id in store.events ==> WellFormed(store.events[target.id])
  {
    if target.id !in store.events then (store, Refused(404))
    else
      var previous, scope := store.events[target.id], ScopeOf(target);
      if scope == Some(UnknownScope) || (previous.repeat.Some? && scope.None?) then (store, Refused(400))
      else if scope == Some(OneOccurrence) then ChangedOccurrence(tz, store, previous, Original(target), change, now)
      else match change
        case Delete(token) => (DeletedWithUndo(store, previous, None, token, now), Undoable(token))
        case Patch(edited) => if edited.None? then (store, Refused(400)) else (SaveEvent(store, edited.value), Done)
  }

  function ChangedOccurrence(tz: Zones, store: Store, previous: Event, original: Option<Value>, change: Change, now: int): (Store, Reply)
    requires WellFormed(previous)
  {
    if original.None? || OwnedOccurrence(tz, previous, original.value).None? then (store, Refused(404))
    else match change
      case Delete(token) =>
        if AlreadyDeleted(previous.exceptions, original.value) then (store, Refused(404))
        else (DeletedWithUndo(store, previous, Some(DeleteOccurrence(previous, original.value, now)), token, now), Undoable(token))
      case Patch(edited) =>
        if edited.None? || edited.value.allDay != previous.allDay then (store, Refused(400))
        else (SaveEvent(store, EditOccurrence(previous, original.value, edited, now)), Done)
  }

  class CalendarStore {
    var events: map<string, Event>
    var undos: map<string, Undo>

    function Tables(): Store
      reads this
    {
      Store(events, undos)
    }

    constructor ()
      ensures Tables() == Store(map[], map[])
    {
      events, undos := map[], map[];
    }

    method Save(e: Event)
      modifies this`events
      ensures Tables() == SaveEvent(old(Tables()), e)
    {
      events := events[SeriesId(e) := e];
    }

    method DeleteWithUndo(before: Event, after: Option<Event>, token: string, now: int)
      modifies this
      ensures Tables() == DeletedWithUndo(old(Tables()), before, after, token, now)
    {
      undos := map t | t in undos && undos[t].expires >= now :: undos[t];
      undos := undos[token := Undo(before, after, now + UNDO_LIFETIME)];
      if after.Some? { Save(after.value); } else { events := events - {SeriesId(before)}; }
    }

    method HandleUndo(token: string, now: int) returns (reply: Reply)
      modifies this
      ensures (Tables(), reply) == Undone(old(Tables()), token, now)
    {
      if token !in undos || undos[token].expires < now { return Refused(404); }
      var undo := undos[token];
      var id := SeriesId(undo.before);
      var current := if id in events then Some(events[id]) else None;
      if current != undo.after { return Refused(409); }
      Save(undo.before);
      undos := undos - {token};
      return Done;
    }

    method HandleChange(tz: Zones, target: Target, change: Change, now: int) returns (reply: Reply)
      requires target.id in events ==> WellFormed(events[target.id])
      modifies this
      ensures (Tables(), reply) == Changed(tz, old(Tables()), target, change, now)
    {
      if target.id !in events { return Refused(404); }
      var previous := events[target.id];
      var scope := ScopeOf(target);
      if scope == Some(UnknownScope) { return Refused(400); }
      if previous.repeat.Some? && scope.None? { return Refused(400); }
      if scope == Some(OneOccurrence) {
        var original := Original(target);
        if original.None? || OwnedOccurrence(tz, previous, original.value).None? { return Refused(404); }
        if change.Delete? {
          if AlreadyDeleted(previous.exceptions, original.value) { return Refused(404); }
          DeleteWithUndo(previous, Some(DeleteOccurrence(previous, original.value, now)), change.token, now);
          return Undoable(change.token);
        }
        if change.edited.None? || change.edited.value.allDay != previous.allDay { return Refused(400); }
        Save(EditOccurrence(previous, original.value, change.edited, now));
        return Done;
      }
      if change.Delete? {
        DeleteWithUndo(previous, None, change.token, now);
        return Undoable(change.token);
      }
      if change.edited.None? { return Refused(400); }
      Save(change.edited.value);
      return Done;
    }
  }

  // ---------------------------------------------------------------- runs

  datatype Action =
    | CreateEvent(event: Event)
    | ChangeEvent(tz: Zones, target: Target, change: Change, at: int)
    | UndoDelete(token: string, at: int)

  /** An event of the store: values of the right kind, and an exception at most once for each start. */
  ghost predicate Sound(e: Event) {
    e.id.Own? && WellFormed(e) && DistinctKeys(e.exceptions)
  }

  /** The store files each event under its own id. */
  ghost predicate Filed(store: Store) {
    forall id :: id in store.events ==> store.events[id].id == Own(id) && Sound(store.events[id])
  }

  /** What validation makes of a new event, and of a patch: a series keeps its id and exceptions, an occurrence its own id. */
  ghost predicate Validated(store: Store, target: Target, edited: Event) {
    WellFormed(edited)
    && if ScopeOf(target) == Some(OneOccurrence)
       then Original(target).Some? ==> edited.id == Occurrence(target.id, Original(target).value) && edited.repeat.None? && edited.exceptions == []
       else edited.id == Own(target.id)
            && (target.id in store.events ==> edited.exceptions == if edited.repeat.Some? then store.events[target.id].exceptions else [])
  }

  /** What validation and token generation promise of a request. */
  ghost predicate Genuine(store: Store, action: Action) {
    match action
    case CreateEvent(e) => e.id.Own? && WellFormed(e) && e.exceptions == []
    case ChangeEvent(_, target, Delete(token), _) => token !in store.undos
    case ChangeEvent(_, target, Patch(edited), _) => edited.Some? ==> Validated(store, target, edited.value)
    case UndoDelete(_, _) => true
  }

  ghost function After(store: Store, action: Action): Store
    requires Filed(store)
  {
    match action
    case CreateEvent(e) => SaveEvent(store, e)
    case ChangeEvent(tz, target, change, at) => Changed(tz, store, target, change, at).0
    case UndoDelete(token, at) => Undone(store, token, at).0
  }

  /** Records under undo were events of the store. */
  ghost predicate UndosFiled(store: Store) {
    forall t :: t in store.undos ==>
      && Sound(store.undos[t].before)
      && (store.undos[t].after.Some? ==> store.undos[t].after.value.id == store.undos[t].before.id)
  }

  ghost predicate Run(trace: seq<Store>, actions: seq<Action>) {
    && |trace| == |actions| + 1 && Filed(trace[0]) && UndosFiled(trace[0])
    && forall i :: 0 <= i < |actions| ==> Filed(trace[i]) && Genuine(trace[i], actions[i]) && trace[i + 1] == After(trace[i], actions[i])
  }

  lemma ActionKeepsFiles(store: Store, action: Action)
    requires Filed(store) && UndosFiled(store) && Genuine(store, action)
    ensures Filed(After(store, action)) && UndosFiled(After(store, action))
  {
    match action
    case CreateEvent(e) => SavingKeepsFiles(store, e);
    case ChangeEvent(tz, target, change, at) => ChangeKeepsFiles(tz, store, target, change, at);
    case UndoDelete(token, at) => UndoKeepsFiles(store, token, at);
  }

  lemma SavingKeepsFiles(store: Store, e: Event)
    requires Filed(store) && UndosFiled(store) && Sound(e)
    ensures Filed(SaveEvent(store, e)) && UndosFiled(SaveEvent(store, e))
  {}

  lemma DeletingKeepsFiles(store: Store, before: Event, after: Option<Event>, token: string, now: int)
    requires Filed(store) && UndosFiled(store) && Sound(before)
    requires after.Some? ==> after.value.id == before.id && Sound(after.value)
    ensures Filed(DeletedWithUndo(store, before, after, token, now)) && UndosFiled(DeletedWithUndo(store, before, after, token, now))
  {}

  lemma ChangeKeepsFiles(tz: Zones, store: Store, target: Target, change: Change, now: int)
    requires Filed(store) && UndosFiled(store) && Genuine(store, ChangeEvent(tz, target, change, now))
    ensures Filed(Changed(tz, store, target, change, now).0) && UndosFiled(Changed(tz, store, target, change, now).0)
  {
    if target.id in store.events {
      var previous, original := store.events[target.id], Original(target);
      match change
      case Delete(token) =>
        DeletingKeepsFiles(store, previous, None, token, now);
        if original.Some? {
          EditedIsSound(previous, original.value, None, now);
          DeletingKeepsFiles(store, previous, Some(DeleteOccurrence(previous, original.value, now)), token, now);
        }
      case Patch(edited) =>
        if edited.Some? && edited.value.id.Own? && Sound(edited.value) { SavingKeepsFiles(store, edited.value); }
        if original.Some? {
          EditedIsSound(previous, original.value, edited, now);
          SavingKeepsFiles(store, EditOccurrence(previous, original.value, edited, now));
        }
    }
  }

  lemma EditedIsSound(e: Event, v: Value, replacement: Option<Event>, now: int)
    requires Sound(e)
    ensures Sound(EditOccurrence(e, v, replacement, now))
  {
    WithExceptionDistinct(e.exceptions, v, replacement);
  }

  /** Setting an exception keeps the keys distinct. */
  lemma {:induction false} WithExceptionDistinct(xs: seq<Exception>, v: Value, replacement: Option<Event>)
    requires DistinctKeys(xs)
    ensures DistinctKeys(WithException(xs, v, replacement))
  {
    if xs != [] && xs[0].original != v {
      var ys := WithException(xs[1..], v, replacement);
      WithExceptionDistinct(xs[1..], v, replacement);
      assert !Excepted(xs[1..], xs[0].original);
      ExceptedWith(xs[1..], v, replacement, xs[0].original);
    }
  }

  lemma UndoKeepsFiles(store: Store, token: string, now: int)
    requires Filed(store) && UndosFiled(store)
    ensures Filed(Undone(store, token, now).0) && UndosFiled(Undone(store, token, now).0)
  {
    if token in store.undos { SavingKeepsFiles(store, store.undos[token].before); }
  }

  /** An action takes an undo record: its own undo, if that succeeds, and a successful deletion after the record has expired. */
  ghost predicate Takes(store: Store, action: Action, token: string)
    requires Filed(store)
  {
    token in store.undos
    && match action
       case CreateEvent(_) => false
       case ChangeEvent(tz, target, change, at) => Changed(tz, store, target, change, at).1.Undoable? && store.undos[token].expires < at
       case UndoDelete(t, at) => t == token && Undone(store, t, at).1 == Done
  }

  ghost predicate Taken(trace: seq<Store>, actions: seq<Action>, token: string, n: nat)
    requires Run(trace, actions) && n <= |actions|
  {
    exists j :: 0 <= j < n && Takes(trace[j], actions[j], token)
  }

  /** No deletion is given the token again. */
  ghost predicate Unrepeated(actions: seq<Action>, token: string) {
    forall j :: 0 <= j < |actions| && actions[j].ChangeEvent? && actions[j].change.Delete? ==> actions[j].change.token != token
  }

  lemma RecordStep(store: Store, action: Action, token: string)
    requires Filed(store) && (action.ChangeEvent? && action.change.Delete? ==> action.change.token != token)
    ensures token in After(store, action).undos <==> token in store.undos && !Takes(store, action, token)
    ensures token in After(store, action).undos ==> After(store, action).undos[token] == store.undos[token]
  {}

  /** An undo record stays as it is exactly until its own undo, or a deletion after its expiry, takes it. */
  lemma {:induction false} RecordStays(trace: seq<Store>, actions: seq<Action>, token: string, i: nat)
    requires Run(trace, actions) && i < |trace| && token in trace[0].undos && Unrepeated(actions, token)
    ensures token in trace[i].undos <==> !Taken(trace, actions, token, i)
    ensures token in trace[i].undos ==> trace[i].undos[token] == trace[0].undos[token]
  {
    if i > 0 {
      RecordStays(trace, actions, token, i - 1);
      RecordStep(trace[i - 1], actions[i - 1], token);
    }
  }

  /**
   * Whatever happened since a deletion, its undo either refuses without any effect, or puts back the exact record from before
   * the deletion and changes nothing else.  It refuses with a conflict exactly when the event is no longer what the deletion left,
   * and as expired exactly when its time is over or something has taken the record.
   */
  lemma UndoIsExactOrRefused(trace: seq<Store>, actions: seq<Action>, token: string, before: Event, after: Option<Event>,
                             store: Store, deletedAt: int, now: int)
    requires Run(trace, actions) && Current(store, SeriesId(before)) == Some(before)
    requires trace[0] == DeletedWithUndo(store, before, after, token, deletedAt) && Unrepeated(actions, token)
    ensures
      var last := trace[|actions|];
      var (restored, reply) := Undone(last, token, now);
      var open := !Taken(trace, actions, token, |actions|) && now <= deletedAt + 600_000;
      && (reply == Done <==> open && Current(last, SeriesId(before)) == after)
      && (reply == Refused(409) <==> open && Current(last, SeriesId(before)) != after)
      && (reply == Refused(404) <==> !open)
      && (reply == Done ==> restored.events == last.events[SeriesId(before) := before])
      && (reply == Done ==> Undone(restored, token, now).1 == Refused(404))
      && (reply != Done ==> restored == last)
  {
    RecordStays(trace, actions, token, |actions|);
  }

  /** A deleted occurrence that is patched since cannot be brought back as it was. */
  lemma PatchBlocksUndo(tz: Zones, store: Store, target: Target, token: string, edited: Event, deletedAt: int, patchedAt: int, now: int)
    requires Filed(store) && token !in store.undos && ScopeOf(target) == Some(OneOccurrence) && now <= deletedAt + UNDO_LIFETIME
    requires Changed(tz, store, target, Delete(token), deletedAt).1 == Undoable(token)
    ensures
      var deleted := Changed(tz, store, target, Delete(token), deletedAt).0;
      var (patched, reply) := Changed(tz, deleted, target, Patch(Some(edited)), patchedAt);
      reply == Done ==> Undone(patched, token, now) == (patched, Refused(409))
  {
    var previous, v := store.events[target.id], Original(target).value;
    var after := DeleteOccurrence(previous, v, deletedAt);
    DeletionChanges(previous.exceptions, v);
    EditedIsSound(previous, v, None, deletedAt);
    PatchUndeletes(after.exceptions, v, edited);
    assert Changed(tz, store, target, Delete(token), deletedAt).0.events[target.id] == after;
  }

  lemma PatchIsRun(tz: Zones, store: Store, target: Target, token: string, edited: Event, deletedAt: int, patchedAt: int)
    requires Filed(store) && UndosFiled(store) && token !in store.undos
    requires Validated(Changed(tz, store, target, Delete(token), deletedAt).0, target, edited)
    ensures
      var deleted, action := Changed(tz, store, target, Delete(token), deletedAt).0, ChangeEvent(tz, target, Patch(Some(edited)), patchedAt);
      Filed(deleted) && Run([deleted, After(deleted, action)], [action])
  {
    ChangeKeepsFiles(tz, store, target, Delete(token), deletedAt);
  }

  lemma {:induction false} PatchUndeletes(xs: seq<Exception>, v: Value, r: Event)
    requires DistinctKeys(xs)
    ensures !AlreadyDeleted(WithException(xs, v, Some(r)), v)
  {
    var ys := WithException(xs, v, Some(r));
    if xs != [] && xs[0].original != v {
      PatchUndeletes(xs[1..], v, r);
      forall i | 0 <= i < |ys| ensures !(ys[i].original == v && ys[i].replacement.None?) {
        if i > 0 { assert ys[i] == WithException(xs[1..], v, Some(r))[i - 1]; }
      }
    }
  }

  /** Undoing at once gives back every event, so every expansion is what it was. */
  lemma DeleteThenUndo(tz: Zones, store: Store, target: Target, token: string, at: int, now: int)
    requires Filed(store) && token !in store.undos && now <= at + UNDO_LIFETIME
    requires Changed(tz, store, target, Delete(token), at).1 == Undoable(token)
    ensures
      var deleted := Changed(tz, store, target, Delete(token), at).0;
      deleted.events != store.events && Undone(deleted, token, now).1 == Done && Undone(deleted, token, now).0.events == store.events
  {
    var previous := store.events[target.id];
    var deleted := Changed(tz, store, target, Delete(token), at).0;
    if ScopeOf(target) == Some(OneOccurrence) {
      var v := Original(target).value;
      var after := DeleteOccurrence(previous, v, at);
      DeletionChanges(previous.exceptions, v);
      assert deleted.events[target.id] == after;
      assert AlreadyDeleted(after.exceptions, v);
    } else {
      assert target.id !in deleted.events;
    }
    assert store.events[target.id := previous] == store.events;
  }

  lemma {:induction false} DeletionChanges(xs: seq<Exception>, v: Value)
    ensures AlreadyDeleted(WithException(xs, v, None), v)
  {
    var ys := WithException(xs, v, None);
    if xs == [] || xs[0].original == v {
      assert ys[0] == Exception(v, None);
    } else {
      DeletionChanges(xs[1..], v);
      var rest := WithException(xs[1..], v, None);
      var i :| 0 <= i < |rest| && rest[i].original == v && rest[i].replacement.None?;
      assert ys[i + 1] == rest[i];
    }
  }

  /** Exactly when a patch of one occurrence is accepted, and what it leaves: the series with that occurrence replaced. */
  lemma PatchedOccurrence(tz: Zones, store: Store, target: Target, edited: Option<Event>, now: int, from: int, to: int)
    requires Filed(store) && target.id in store.events && ScopeOf(target) == Some(OneOccurrence)
    ensures
      var previous, original := store.events[target.id], Original(target);
      var (changed, reply) := Changed(tz, store, target, Patch(edited), now);
      && (reply == Done <==> original.Some? && OwnedOccurrence(tz, previous, original.value).Some? && edited.Some? && edited.value.allDay == previous.allDay)
      && (reply != Done ==> changed == store)
      && (reply == Done ==>
            changed == store.(events := store.events[target.id := EditOccurrence(previous, original.value, edited, now)])
            && Only(Expansion(tz, changed.events[target.id], from, to), original.value)
               == Moved(tz, previous, Exception(original.value, edited), from, to)
            && Unstamped(Without(Expansion(tz, changed.events[target.id], from, to), original.value))
               == Unstamped(Without(Expansion(tz, previous, from, to), original.value)))
  {
    var previous, original := store.events[target.id], Original(target);
    PatchAccepted(tz, store, target, edited, now);
    if original.Some? && edited.Some? && previous.repeat.Some? {
      EditChangesOne(tz, previous, original.value, edited, now, from, to);
    }
  }

  lemma PatchAccepted(tz: Zones, store: Store, target: Target, edited: Option<Event>, now: int)
    requires Filed(store) && target.id in store.events && ScopeOf(target) == Some(OneOccurrence)
    ensures
      var previous, original := store.events[target.id], Original(target);
      Changed(tz, store, target, Patch(edited), now) ==
        if original.None? || OwnedOccurrence(tz, previous, original.value).None? then (store, Refused(404))
        else if edited.None? || edited.value.allDay != previous.allDay then (store, Refused(400))
        else (store.(events := store.events[target.id := EditOccurrence(previous, original.value, edited, now)]), Done)
  {
    var previous, original := store.events[target.id], Original(target);
    if original.Some? { assert SeriesId(EditOccurrence(previous, original.value, edited, now)) == target.id; }
  }

  /** What a deletion leaves of the undo records: those still valid, and its own for ten minutes. */
  ghost predicate UndosAfter(undos: map<string, Undo>, undos': map<string, Undo>, token: string, undo: Undo, now: int) {
    && token in undos' && undos'[token] == undo && undo.expires == now + 600_000
    && forall t :: t != token ==> (t in undos' <==> t in undos && undos[t].expires >= now) && (t in undos' ==> undos'[t] == undos[t])
  }

  /** Exactly when a deletion of one occurrence is accepted, and what it leaves: every expansion without that occurrence alone. */
  lemma DeletedOccurrence(tz: Zones, store: Store, target: Target, token: string, now: int, from: int, to: int)
    requires Filed(store) && target.id in store.events && ScopeOf(target) == Some(OneOccurrence)
    ensures
      var previous, original := store.events[target.id], Original(target);
      var (changed, reply) := Changed(tz, store, target, Delete(token), now);
      && (reply == Undoable(token) <==>
            && original.Some? && OwnedOccurrence(tz, previous, original.value).Some?
            && forall x :: x in previous.exceptions && x.original == original.value ==> x.replacement.Some?)
      && (reply != Undoable(token) ==> changed == store && reply == Refused(404))
      && (reply == Undoable(token) ==>
            && target.id in changed.events
            && changed.events == store.events[target.id := changed.events[target.id]]
            && Unstamped(Expansion(tz, changed.events[target.id], from, to))
               == Unstamped(Without(Expansion(tz, previous, from, to), original.value))
            && UndosAfter(store.undos, changed.undos, token, Undo(previous, Some(changed.events[target.id]), now + 600_000), now))
  {
    var previous, original := store.events[target.id], Original(target);
    DeletionAccepted(tz, store, target, token, now);
    if original.Some? && OwnedOccurrence(tz, previous, original.value).Some? {
      DeletedIsException(previous.exceptions, original.value);
      DeletionRemovesOne(tz, previous, original.value, now, from, to);
      assert SeriesId(DeleteOccurrence(previous, original.value, now)) == target.id;
    }
  }

  lemma DeletionAccepted(tz: Zones, store: Store, target: Target, token: string, now: int)
    requires Filed(store) && target.id in store.events && ScopeOf(target) == Some(OneOccurrence)
    ensures
      var previous, original := store.events[target.id], Original(target);
      Changed(tz, store, target, Delete(token), now) ==
        if original.None? || OwnedOccurrence(tz, previous, original.value).None? || AlreadyDeleted(previous.exceptions, original.value)
        then (store, Refused(404))
        else (DeletedWithUndo(store, previous, Some(DeleteOccurrence(previous, original.value, now)), token, now), Undoable(token))
  {}

  lemma DeletedIsException(xs: seq<Exception>, v: Value)
    ensures AlreadyDeleted(xs, v) <==> !forall x :: x in xs && x.original == v ==> x.replacement.Some?
  {
    if x :| x in xs && x.original == v && x.replacement.None? {
      var i :| 0 <= i < |xs| && xs[i] == x;
    }
  }

  /** A request means one occurrence if it says so, or names one in its path and says nothing. */
  predicate OnOccurrence(target: Target) {
    target.scope == Some(OneOccurrence) || (target.scope.None? && target.pathOccurrence.Some?)
  }

  /** Which event or occurrence a request is about, and what becomes of a whole series; a refusal changes nothing. */
  lemma ChangesWhatIsMeant(tz: Zones, store: Store, target: Target, change: Change, now: int)
    requires Filed(store)
    ensures target.id !in store.events ==> Changed(tz, store, target, change, now) == (store, Refused(404))
    ensures target.id in store.events ==>
      var previous, (changed, reply) := store.events[target.id], Changed(tz, store, target, change, now);
      if target.scope == Some(UnknownScope) || (previous.repeat.Some? && target.scope.None? && target.pathOccurrence.None?) then
        changed == store && reply == Refused(400)
      else if OnOccurrence(target) then
        && ScopeOf(target) == Some(OneOccurrence)
        && Original(target) == (if target.pathOccurrence.Some? then target.pathOccurrence else target.queryOccurrence)
      else match change
        case Patch(None) => changed == store && reply == Refused(400)
        case Patch(Some(edited)) => edited.id == Own(target.id) ==> changed == store.(events := store.events[target.id := edited]) && reply == Done
        case Delete(token) =>
          && changed.events == store.events - {target.id} && reply == Undoable(token)
          && UndosAfter(store.undos, changed.undos, token, Undo(previous, None, now + 600_000), now)
  {}
}
