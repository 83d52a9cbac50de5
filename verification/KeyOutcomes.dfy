/**
 * Logins and unlocking call by call (apps/remote/server/one-kenan-keys.ts): which external calls are made and in which order, what
 * each failure answers and leaves behind, and what a successful one has done.
 */
module KeyOutcomes {
  import opened Options
  import opened KeyCustody

  /** The answer of a failed call: its own status, or that of the operation when it threw. */
  predicate Answers(answer: Answer, reason: Reason, thrown: Reason, r: Result) {
    match answer
    case Yes => false
    case No(status) => r == Refused(status, reason)
    case Threw => r == Refused(503, thrown)
  }

  // ---------------------------------------------------------------- retaining one key

  /** The content of the file with one more key: a new salt, and a new master only if there was none. */
  ghost predicate OneMore(w: World, s: State, user: string, key: string, next: Store) {
    var master := if s.master.Some? then s.master.value else Master(w.random(s.calls), 32);
    var salt := w.random(s.calls + 1);
    && next.vault == Box(master, s.keys[user := key], OfKeys)
    && next.wrappers == (if s.disk.Some? then s.disk.value.wrappers else map[])
         [user := Wrapper(salt, Box(Wrapping(key, salt), master, OfMaster(user)))]
  }

  /** A known key is not written again; a new one is in memory only once the write has succeeded. */
  ghost predicate Retained(w: World, s: State, user: string, key: string, s': State, ok: bool) {
    if user in s.keys then s' == s && ok
    else
      exists next :: OneMore(w, s, user, key, next)
        && (ok <==> w.persist(s.calls) == Written)
        && s' == s.(calls := s.calls + 2,
                    writes := if w.persist(s.calls) == Persisted.Before then s.writes else s.writes + [Write(next, s.accepted)],
                    disk := if ok then Some(next) else s.disk,
                    keys := if ok then next.vault.plain else s.keys,
                    master := if ok then Some(next.vault.sealedWith) else s.master)
  }

  lemma RetainExact(w: World, s: State, user: string, key: string)
    ensures Retained(w, s, user, key, Retain(w, s, user, key).0, Retain(w, s, user, key).1)
  {
    if user !in s.keys { assert OneMore(w, s, user, key, Extended(w, s, user, key)); }
  }

  /** The waiting keys are retained in the order in which they came; the first that fails goes on waiting, with the others. */
  ghost predicate KeptWaiting(w: World, s: State, s': State, ok: bool)
    decreases |s.pending|
  {
    if s.pending == [] then s' == s && ok
    else
      exists mid, kept :: Retained(w, s, s.pending[0].0, s.pending[0].1, mid, kept) && mid.pending == s.pending
        && if kept then KeptWaiting(w, mid.(pending := s.pending[1..]), s', ok) else s' == mid && !ok
  }

  lemma {:induction false} RetainPendingExact(w: World, s: State)
    ensures KeptWaiting(w, s, RetainPending(w, s).0, RetainPending(w, s).1)
    decreases |s.pending|
  {
    if s.pending != [] {
      var (mid, kept) := Retain(w, s, s.pending[0].0, s.pending[0].1);
      RetainExact(w, s, s.pending[0].0, s.pending[0].1);
      if kept { RetainPendingExact(w, mid.(pending := s.pending[1..])); }
    }
  }

  // ---------------------------------------------------------------- mounting the known folders

  /** The people whose folders are mounted: those with a known key, except the caller, or else whoever is mounted already. */
  function ToMount(people: seq<Person>, keys: map<string, string>, mounted: set<string>, except: Option<string>): (users: seq<string>)
    ensures forall u :: u in users ==> u in keys
  {
    if people == [] then []
    else
      var p, rest := people[0], people[1..];
      if !p.unlock || p.user !in keys || (except.Some? && p.user == except.value) || (except.None? && p.user in mounted)
      then ToMount(rest, keys, mounted, except)
      else [p.user] + ToMount(rest, keys, mounted + {p.user}, except)
  }

  /** They are mounted one after the other, each with its own key, up to the first that fails. */
  ghost predicate FoldersMounted(w: World, s: State, users: seq<string>, s': State, failure: Option<(string, Answer)>)
    requires forall u :: u in users ==> u in s.keys
    decreases users
  {
    if users == [] then s' == s && failure.None?
    else
      var u, answer := users[0], w.mount(users[0], s.keys[users[0]], s.calls);
      if answer.Yes?
      then FoldersMounted(w, s.(calls := s.calls + 1, accepted := s.accepted + {(u, s.keys[u])}, mounted := s.mounted + {u}), users[1..], s', failure)
      else s' == s.(calls := s.calls + 1) && failure == Some((u, answer))
  }

  lemma {:induction false} MountEachExact(w: World, s: State, people: seq<Person>, except: Option<string>)
    ensures FoldersMounted(w, s, ToMount(people, s.keys, s.mounted, except), MountEach(w, s, people, except).0, MountEach(w, s, people, except).1)
    decreases |people|
  {
    if people != [] {
      var p := people[0];
      if Passed(s, p, except) {
        MountEachExact(w, s, people[1..], except);
      } else {
        var (s1, answer) := Mount(w, s, p.user, s.keys[p.user]);
        if answer.Yes? {
          var s2 := s1.(mounted := s1.mounted + {p.user});
          MountEachExact(w, s2, people[1..], except);
          OneMounted(w, s, p.user, s2, ToMount(people[1..], s2.keys, s2.mounted, except), MountEach(w, s2, people[1..], except).0,
                     MountEach(w, s2, people[1..], except).1);
        }
      }
    }
  }

  lemma OneMounted(w: World, s: State, u: string, s2: State, rest: seq<string>, s': State, failure: Option<(string, Answer)>)
    requires u in s.keys && w.mount(u, s.keys[u], s.calls).Yes?
    requires s2 == s.(calls := s.calls + 1, accepted := s.accepted + {(u, s.keys[u])}, mounted := s.mounted + {u})
    requires (forall x :: x in rest ==> x in s.keys) && FoldersMounted(w, s2, rest, s', failure)
    ensures FoldersMounted(w, s, [u] + rest, s', failure)
  {
    assert ([u] + rest)[1..] == rest;
  }

  // ---------------------------------------------------------------- the checks

  /** The first person of that name. */
  ghost predicate IsPerson(people: seq<Person>, i: int, user: string) {
    0 <= i < |people| && people[i].user == user && forall j :: 0 <= j < i ==> people[j].user != user
  }

  lemma {:induction false} FindsTheFirst(people: seq<Person>, user: string)
    ensures FindPerson(people, user).None? <==> forall i :: 0 <= i < |people| ==> people[i].user != user
    ensures forall i :: IsPerson(people, i, user) ==> FindPerson(people, user) == Some(people[i])
  {
    if people != [] {
      FindsTheFirst(people[1..], user);
      assert forall i :: 0 <= i < |people[1..]| ==> people[1..][i] == people[i + 1];
      forall i | IsPerson(people, i, user) ensures FindPerson(people, user) == Some(people[i]) {
        if i > 0 { assert people[0].user != user && IsPerson(people[1..], i - 1, user); }
      }
    }
  }

  /** Another key of that person is waiting. */
  ghost predicate WaitsWithAnother(pending: seq<(string, string)>, user: string, key: string) {
    exists i :: 0 <= i < |pending| && pending[i].0 == user && pending[i].1 != key && forall j :: 0 <= j < i ==> pending[j].0 != user
  }

  lemma {:induction false} WaitingKey(pending: seq<(string, string)>, user: string, key: string)
    ensures PendingKey(pending, user).Some? && PendingKey(pending, user).value != key <==> WaitsWithAnother(pending, user, key)
    ensures PendingKey(pending, user).None? <==> forall i :: 0 <= i < |pending| ==> pending[i].0 != user
  {
    if pending != [] {
      var rest := pending[1..];
      WaitingKey(rest, user, key);
      assert forall i :: 0 <= i < |rest| ==> rest[i] == pending[i + 1];
      if pending[0].0 != user {
        if WaitsWithAnother(pending, user, key) {
          var i :| 0 <= i < |pending| && pending[i].0 == user && pending[i].1 != key && forall j :: 0 <= j < i ==> pending[j].0 != user;
          assert rest[i - 1].0 == user;
        }
        if WaitsWithAnother(rest, user, key) {
          var i :| 0 <= i < |rest| && rest[i].0 == user && rest[i].1 != key && forall j :: 0 <= j < i ==> rest[j].0 != user;
          assert pending[i + 1].0 == user;
        }
      }
    }
  }

  /** The refusals before any key is tried, in this order; none of them has an effect. */
  ghost predicate RefusedAtOnce(w: World, s: State, user: string, key: string, r: Result) {
    || ((forall i :: 0 <= i < |w.people| ==> w.people[i].user != user) && r == Refused(403, UnknownPerson))
    || (exists i :: IsPerson(w.people, i, user) && !w.people[i].unlock && r == Refused(403, NoFolder))
    || (exists i :: IsPerson(w.people, i, user) && w.people[i].unlock
          && if !w.wellFormed(key) then r == Refused(400, KeyRequired)
             else WaitsWithAnother(s.pending, user, key) && r == Refused(403, WrongKey))
  }

  lemma ChecksExact(w: World, s: State, user: string, key: string)
    ensures forall r :: RefusedAtOnce(w, s, user, key, r) ==> Authenticate(w, s, user, key) == (s, r)
    ensures (forall r :: !RefusedAtOnce(w, s, user, key, r)) ==> Authenticate(w, s, user, key) == Tried(w, s, user, key)
  {
    FindsTheFirst(w.people, user);
    WaitingKey(s.pending, user, key);
    if FindPerson(w.people, user).Some? {
      SomePerson(w.people, user);
      var i :| IsPerson(w.people, i, user);
      if !w.people[i].unlock { assert RefusedAtOnce(w, s, user, key, Refused(403, NoFolder)); }
      else if !w.wellFormed(key) { assert RefusedAtOnce(w, s, user, key, Refused(400, KeyRequired)); }
      else if WaitsWithAnother(s.pending, user, key) { assert RefusedAtOnce(w, s, user, key, Refused(403, WrongKey)); }
    } else {
      assert RefusedAtOnce(w, s, user, key, Refused(403, UnknownPerson));
    }
  }

  lemma {:induction false} SomePerson(people: seq<Person>, user: string)
    requires exists i :: 0 <= i < |people| && people[i].user == user
    ensures exists i :: IsPerson(people, i, user)
  {
    if people[0].user == user {
      assert IsPerson(people, 0, user);
    } else {
      var i :| 0 <= i < |people| && people[i].user == user;
      assert people[1..][i - 1].user == user;
      SomePerson(people[1..], user);
      var k :| IsPerson(people[1..], k, user);
      assert forall j :: 0 <= j < |people[1..]| ==> people[1..][j] == people[j + 1];
      assert IsPerson(people, k + 1, user);
    }
  }

  /** What a login goes on to: locked custody is opened or the key waits, open custody is entered. */
  function Tried(w: World, s: State, user: string, key: string): (State, Result) {
    if s.master.Some? || s.disk.None? then Enter(w, s, user, key)
    else if user in s.disk.value.wrappers then Open(w, s, s.disk.value, user, key)
    else Wait(w, s, user, key)
  }

  // ---------------------------------------------------------------- the three ways on

  /** A key of someone not enrolled is tried on the folder, and waits behind the others if it mounts. */
  lemma WaitExact(w: World, s: State, user: string, key: string)
    ensures var (s1, r), answer := Wait(w, s, user, key), w.mount(user, key, s.calls);
      if answer.Yes? then
        && r == Done
        && s1 == s.(calls := s.calls + 1, accepted := s.accepted + {(user, key)}, mounted := s.mounted + {user},
                    pending := if forall i :: 0 <= i < |s.pending| ==> s.pending[i].0 != user then s.pending + [(user, key)] else s.pending)
      else s1 == s.(calls := s.calls + 1) && Answers(answer, NotMounted, NotRetained, r)
  {
    WaitingKey(s.pending, user, key);
  }

  /** Locked custody: the wrapper must open with the key, the vault with what was in it, and hold this very key. */
  lemma OpenExact(w: World, s: State, store: Store, user: string, key: string)
    requires user in store.wrappers
    ensures var wrapper := store.wrappers[user];
      if wrapper.box.sealedWith != Wrapping(key, wrapper.salt) || wrapper.box.context != OfMaster(user) then
        Open(w, s, store, user, key) == (s, Refused(403, WrongKey))
      else if store.vault.sealedWith != wrapper.box.plain || store.vault.context != OfKeys then
        Open(w, s, store, user, key) == (s, Refused(503, StoreUnreadable))
      else if user !in store.vault.plain || store.vault.plain[user] != key then
        Open(w, s, store, user, key) == (s, Refused(403, WrongKey))
      else Open(w, s, store, user, key) == Enter(w, s.(keys := store.vault.plain, master := Some(wrapper.box.plain)), user, key)
  {}

  /** Open custody: the folder is mounted, the key and all waiting ones are kept, the master is shared, the other folders mounted. */
  ghost predicate EnteredAs(w: World, s: State, user: string, key: string, s': State, r: Result) {
    if user in s.keys && s.keys[user] != key then s' == s && r == Refused(403, WrongKey)
    else
      var answer := w.mount(user, key, s.calls);
      if !answer.Yes? then s' == s.(calls := s.calls + 1) && Answers(answer, NotMounted, NotRetained, r)
      else KeyKept(w, s.(calls := s.calls + 1, accepted := s.accepted + {(user, key)}, mounted := s.mounted + {user}), user, key, s', r)
  }

  ghost predicate KeyKept(w: World, s: State, user: string, key: string, s': State, r: Result) {
    exists s2, ok :: Retained(w, s, user, key, s2, ok)
      && if !ok then s' == s2 && r == Refused(503, NotRetained) else WaitingEntered(w, s2, user, s', r)
  }

  ghost predicate WaitingEntered(w: World, s: State, user: string, s': State, r: Result) {
    exists s3, all :: KeptWaiting(w, s, s3, all)
      && if !all then s' == s3 && r == Refused(503, NotRetained) else OpenedAs(w, s3, user, s', r)
  }

  /** The master goes to whoever shares it; without one there is nothing to share. */
  function Sharing(w: World, s: State): Answer {
    if s.master.Some? then w.share(s.master.value, s.calls) else Threw
  }

  ghost predicate OpenedAs(w: World, s: State, user: string, s': State, r: Result) {
    if !Sharing(w, s).Yes? then s' == s.(calls := s.calls + 1) && Answers(Sharing(w, s), NotShared, NotRetained, r)
    else OthersMounted(w, s.(calls := s.calls + 1), ToMount(w.people, s.keys, s.mounted, Some(user)), s', r)
  }

  ghost predicate OthersMounted(w: World, s: State, users: seq<string>, s': State, r: Result)
    requires forall u :: u in users ==> u in s.keys
  {
    exists failure :: FoldersMounted(w, s, users, s', failure)
      && r == match failure
              case None => Done
              case Some((other, Threw)) => Refused(503, NotRetained)
              case Some((other, _)) => Refused(503, FolderNotMounted(other))
  }

  lemma OpenFoldersExact(w: World, s: State, user: string)
    ensures OpenedAs(w, s, user, OpenFolders(w, s, user).0, OpenFolders(w, s, user).1)
  {
    MountEachExact(w, s.(calls := s.calls + 1), w.people, Some(user));
  }

  lemma EnterExact(w: World, s: State, user: string, key: string)
    ensures EnteredAs(w, s, user, key, Enter(w, s, user, key).0, Enter(w, s, user, key).1)
  {
    var (s1, answer) := Mount(w, s, user, key);
    if !(user in s.keys && s.keys[user] != key) && answer.Yes? {
      var s1' := s1.(mounted := s1.mounted + {user});
      RetainExact(w, s1', user, key);
      var (s2, ok) := Retain(w, s1', user, key);
      if ok { WaitingExact(w, s2, user); }
    }
  }

  function Rest(w: World, s: State, user: string): (State, Result) {
    var (s3, all) := RetainPending(w, s);
    if !all then (s3, Refused(503, NotRetained)) else OpenFolders(w, s3, user)
  }

  lemma WaitingExact(w: World, s: State, user: string)
    ensures WaitingEntered(w, s, user, Rest(w, s, user).0, Rest(w, s, user).1)
  {
    RetainPendingExact(w, s);
    var (s3, all) := RetainPending(w, s);
    if all { OpenFoldersExact(w, s3, user); }
  }

  // ---------------------------------------------------------------- the provider

  /** The provider's master opens custody if it is the vault's; then come the waiting keys, the sharing and the folders. */
  ghost predicate ProvidedAs(w: World, s: State, master: Master, s': State, r: Result) {
    if s.disk.None? || master.length != 32 || s.disk.value.vault.sealedWith != master || s.disk.value.vault.context != OfKeys then
      s' == s && r == Refused(503, ProviderRefused)
    else WaitingProvided(w, s.(master := Some(master), keys := s.disk.value.vault.plain), s', r)
  }

  ghost predicate WaitingProvided(w: World, s: State, s': State, r: Result) {
    exists s2, all :: KeptWaiting(w, s, s2, all)
      && if !all then s' == s2 && r == Refused(503, ProviderRefused) else UnlockedAs(w, s2, s', r)
  }

  ghost predicate UnlockedAs(w: World, s: State, s': State, r: Result) {
    if !Sharing(w, s).Yes? then s' == s.(calls := s.calls + 1) && Answers(Sharing(w, s), NotShared, ProviderRefused, r)
    else AllMounted(w, s.(calls := s.calls + 1), ToMount(w.people, s.keys, s.mounted, None), s', r)
  }

  ghost predicate AllMounted(w: World, s: State, users: seq<string>, s': State, r: Result)
    requires forall u :: u in users ==> u in s.keys
  {
    exists failure :: FoldersMounted(w, s, users, s', failure)
      && if failure.None? then r == Done else Answers(failure.value.1, NotMounted, ProviderRefused, r)
  }

  lemma ProviderExact(w: World, s: State, master: Master)
    ensures ProvidedAs(w, s, master, UnlockFromProvider(w, s, master).0, UnlockFromProvider(w, s, master).1)
  {
    if !(s.disk.None? || master.length != 32 || s.disk.value.vault.sealedWith != master || s.disk.value.vault.context != OfKeys) {
      WaitingOpened(w, s.(master := Some(master), keys := s.disk.value.vault.plain));
    }
  }

  lemma WaitingOpened(w: World, s: State)
    ensures WaitingProvided(w, s, OpenAll(w, s).0, OpenAll(w, s).1)
  {
    RetainPendingExact(w, s);
    var (s2, all) := RetainPending(w, s);
    if all && Sharing(w, s2).Yes? {
      MountEachExact(w, s2.(calls := s2.calls + 1), w.people, None);
      FailureStops(w, s2.(calls := s2.calls + 1), ToMount(w.people, s2.keys, s2.mounted, None),
        MountEach(w, s2.(calls := s2.calls + 1), w.people, None).0, MountEach(w, s2.(calls := s2.calls + 1), w.people, None).1);
    }
  }

  lemma {:induction false} FailureStops(w: World, s: State, users: seq<string>, s': State, failure: Option<(string, Answer)>)
    requires (forall u :: u in users ==> u in s.keys) && FoldersMounted(w, s, users, s', failure)
    ensures failure.Some? ==> !failure.value.1.Yes?
    decreases users
  {
    if users != [] && w.mount(users[0], s.keys[users[0]], s.calls).Yes? {
      FailureStops(w, s.(calls := s.calls + 1, accepted := s.accepted + {(users[0], s.keys[users[0]])}, mounted := s.mounted + {users[0]}), users[1..], s', failure);
    }
  }

}
