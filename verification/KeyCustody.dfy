/**
 * Custody of folder keys (apps/remote/server/one-kenan-keys.ts): every person's key is kept in one vault, sealed with a
 * master that is wrapped once per person under that person's key.  Sealing is ideal: a box opens with exactly the key and
 * context it was made with.  `exclusive` runs one operation at a time, so that only a crash can cut one short.
 */
module KeyCustody {
  import opened Options

  // ---------------------------------------------------------------- sealing

  /** 32 random bytes, or what the provider supplies. */
  datatype Master = Master(bits: nat, length: nat)
  datatype Wrapping = Wrapping(key: string, salt: nat)
  datatype Context = OfMaster(user: string) | OfKeys
  datatype Box<K, P> = Box(sealedWith: K, plain: P, context: Context)
  datatype Wrapper = Wrapper(salt: nat, box: Box<Wrapping, Master>)
  datatype Store = Store(wrappers: map<string, Wrapper>, vault: Box<Master, map<string, string>>)

  function Unseal<K(==), P>(key: K, box: Box<K, P>, context: Context): Option<P> {
    if box.sealedWith == key && box.context == context then Some(box.plain) else None
  }

  // ---------------------------------------------------------------- the environment

  datatype Person = Person(user: string, unlock: bool)
  datatype Answer = Yes | No(status: nat) | Threw
  /** `persist`: it failed before its rename, succeeded, or failed after the rename had replaced the file. */
  datatype Persisted = Before | Written | Late

  /** What each external call answers, by the number of calls made so far. */
  datatype World = World(
    people: seq<Person>,
    wellFormed: string -> bool,
    mount: (string, string, nat) -> Answer,
    share: (Master, nat) -> Answer,
    persist: nat -> Persisted,
    random: nat -> nat)

  function FindPerson(people: seq<Person>, user: string): Option<Person> {
    if people == [] then None else if people[0].user == user then Some(people[0]) else FindPerson(people[1..], user)
  }

  // ---------------------------------------------------------------- the state

  /** A content of the file, with the (user, key) pairs whose mounts had succeeded when it was written. */
  datatype Write = Write(store: Store, accepted: set<(string, string)>)

  datatype State = State(
    master: Option<Master>,
    keys: map<string, string>,
    disk: Option<Store>,
    mounted: set<string>,
    pending: seq<(string, string)>,
    writes: seq<Write>,
    accepted: set<(string, string)>,
    calls: nat)

  datatype Reason = UnknownPerson | NoFolder | KeyRequired | WrongKey | StoreUnreadable | NotMounted | FolderNotMounted(user: string)
    | NotShared | NotRetained | ProviderRefused
  datatype Result = Done | Refused(status: nat, reason: Reason)

  function File(s: State): Option<Store> {
    if s.writes == [] then None else Some(s.writes[|s.writes| - 1].store)
  }

  function PendingKey(pending: seq<(string, string)>, user: string): Option<string> {
    if pending == [] then None else if pending[0].0 == user then Some(pending[0].1) else PendingKey(pending[1..], user)
  }

  /** `Map.set` of a key that is equal to the one it replaces. */
  function SetPending(pending: seq<(string, string)>, user: string, key: string): seq<(string, string)> {
    if PendingKey(pending, user).Some? then pending else pending + [(user, key)]
  }

  function Mount(w: World, s: State, user: string, key: string): (State, Answer) {
    var answer := w.mount(user, key, s.calls);
    (s.(calls := s.calls + 1, accepted := if answer.Yes? then s.accepted + {(user, key)} else s.accepted), answer)
  }

  /** The store that retains one more key. */
  function Extended(w: World, s: State, user: string, key: string): Store {
    var master := if s.master.Some? then s.master.value else Master(w.random(s.calls), 32);
    var salt := w.random(s.calls + 1);
    var before := if s.disk.Some? then s.disk.value.wrappers else map[];
    Store(before[user := Wrapper(salt, Box(Wrapping(key, salt), master, OfMaster(user)))], Box(master, s.keys[user := key], OfKeys))
  }

  function Retain(w: World, s: State, user: string, key: string): (State, bool) {
    if user in s.keys then (s, true)
    else
      var next := Extended(w, s, user, key);
      var outcome := w.persist(s.calls);
      var s1 := s.(calls := s.calls + 2, writes := if outcome.Before? then s.writes else s.writes + [Write(next, s.accepted)]);
      if outcome.Written? then (s1.(disk := Some(next), keys := next.vault.plain, master := Some(next.vault.sealedWith)), true)
      else (s1, false)
  }

  function RetainPending(w: World, s: State): (State, bool)
    decreases |s.pending|
  {
    if s.pending == [] then (s, true)
    else
      var (s1, ok) := Retain(w, s, s.pending[0].0, s.pending[0].1);
      if ok then RetainPending(w, s1.(pending := s.pending[1..])) else (s1, false)
  }

  /** Mount the folders whose keys are known, up to the first that fails; `except`: the caller, or else whoever is mounted. */
  function MountEach(w: World, s: State, people: seq<Person>, except: Option<string>): (State, Option<(string, Answer)>)
    decreases |people|
  {
    if people == [] then (s, None)
    else if Passed(s, people[0], except) then MountEach(w, s, people[1..], except)
    else
      var (s1, answer) := Mount(w, s, people[0].user, s.keys[people[0].user]);
      if !answer.Yes? then (s1, Some((people[0].user, answer)))
      else MountEach(w, s1.(mounted := s1.mounted + {people[0].user}), people[1..], except)
  }

  predicate Passed(s: State, person: Person, except: Option<string>) {
    !person.unlock || person.user !in s.keys || (if except.Some? then person.user == except.value else person.user in s.mounted)
  }

  function Failed(answer: Answer, reason: Reason, thrown: Reason): Result {
    match answer case No(status) => Refused(status, reason) case _ => Refused(503, thrown)
  }

  function Share(w: World, s: State): (State, Answer) {
    (s.(calls := s.calls + 1), if s.master.Some? then w.share(s.master.value, s.calls) else Threw)
  }

  // ---------------------------------------------------------------- authenticate

  function Authenticate(w: World, s: State, user: string, key: string): (State, Result) {
    var person := FindPerson(w.people, user);
    if person.None? then (s, Refused(403, UnknownPerson))
    else if !person.value.unlock then (s, Refused(403, NoFolder))
    else if !w.wellFormed(key) then (s, Refused(400, KeyRequired))
    else if PendingKey(s.pending, user).Some? && PendingKey(s.pending, user).value != key then (s, Refused(403, WrongKey))
    else if s.master.None? && s.disk.Some? then
      (if user in s.disk.value.wrappers then Open(w, s, s.disk.value, user, key) else Wait(w, s, user, key))
    else Enter(w, s, user, key)
  }

  /** A key that custody does not hold waits in memory until custody opens. */
  function Wait(w: World, s: State, user: string, key: string): (State, Result) {
    var (s1, answer) := Mount(w, s, user, key);
    if answer.Yes? then (s1.(mounted := s1.mounted + {user}, pending := SetPending(s1.pending, user, key)), Done)
    else (s1, Failed(answer, NotMounted, NotRetained))
  }

  function Open(w: World, s: State, store: Store, user: string, key: string): (State, Result)
    requires user in store.wrappers
  {
    var wrapper := store.wrappers[user];
    match Unseal(Wrapping(key, wrapper.salt), wrapper.box, OfMaster(user))
    case None => (s, Refused(403, WrongKey))
    case Some(candidate) =>
      match Unseal(candidate, store.vault, OfKeys)
      case None => (s, Refused(503, StoreUnreadable))
      case Some(keys) =>
        if user !in keys || keys[user] != key then (s, Refused(403, WrongKey))
        else Enter(w, s.(keys := keys, master := Some(candidate)), user, key)
  }

  function Enter(w: World, s: State, user: string, key: string): (State, Result) {
    if user in s.keys && s.keys[user] != key then (s, Refused(403, WrongKey))
    else
      var (s1, answer) := Mount(w, s, user, key);
      if !answer.Yes? then (s1, Failed(answer, NotMounted, NotRetained))
      else
        var (s2, ok) := Retain(w, s1.(mounted := s1.mounted + {user}), user, key);
        if !ok then (s2, Refused(503, NotRetained))
        else
          var (s3, all) := RetainPending(w, s2);
          if !all then (s3, Refused(503, NotRetained)) else OpenFolders(w, s3, user)
  }

  function OpenFolders(w: World, s: State, user: string): (State, Result) {
    var (s4, shared) := Share(w, s);
    if !shared.Yes? then (s4, Failed(shared, NotShared, NotRetained))
    else
      var (s5, failure) := MountEach(w, s4, w.people, Some(user));
      match failure
      case None => (s5, Done)
      case Some((other, answer)) => (s5, Refused(503, if answer.Threw? then NotRetained else FolderNotMounted(other)))
  }

  // ---------------------------------------------------------------- unlockFromProvider

  function UnlockFromProvider(w: World, s: State, master: Master): (State, Result) {
    if s.disk.None? || master.length != 32 then (s, Refused(503, ProviderRefused))
    else
      match Unseal(master, s.disk.value.vault, OfKeys)
      case None => (s, Refused(503, ProviderRefused))
      case Some(keys) => OpenAll(w, s.(master := Some(master), keys := keys))
  }

  /** The waiting keys are retained, the master is shared and every folder is mounted. */
  function OpenAll(w: World, s: State): (State, Result) {
    var (s1, all) := RetainPending(w, s);
    if !all then (s1, Refused(503, ProviderRefused))
    else
      var (s2, shared) := Share(w, s1);
      if !shared.Yes? then (s2, Failed(shared, NotShared, ProviderRefused))
      else
        var (s3, failure) := MountEach(w, s2, w.people, None);
        match failure
        case None => (s3, Done)
        case Some((_, answer)) => (s3, Failed(answer, NotMounted, ProviderRefused))
  }

  // ---------------------------------------------------------------- what custody promises

  /** Wrapper users are vault users; every wrapper opens under its user's key, to one master; that master opens the vault. */
  ghost predicate Sealed(store: Store) {
    && store.wrappers.Keys == store.vault.plain.Keys
    && Unseal(store.vault.sealedWith, store.vault, OfKeys) == Some(store.vault.plain)
    && store.vault.sealedWith.length == 32
    && forall u :: u in store.wrappers ==> WrapperOpens(store, u)
  }

  ghost predicate WrapperOpens(store: Store, u: string)
    requires u in store.wrappers && store.wrappers.Keys == store.vault.plain.Keys
  {
    var wrapper := store.wrappers[u];
    Unseal(Wrapping(store.vault.plain[u], wrapper.salt), wrapper.box, OfMaster(u)) == Some(store.vault.sealedWith)
  }

  /** Each key in the vault has opened its owner's folder. */
  ghost predicate Proven(store: Store, accepted: set<(string, string)>) {
    forall u :: u in store.vault.plain ==> (u, store.vault.plain[u]) in accepted
  }

  ghost predicate Vouched(w: World, accepted: set<(string, string)>) {
    forall p :: p in accepted ==> MountedOnce(w, p.0, p.1)
  }

  ghost predicate MountedOnce(w: World, user: string, key: string) {
    exists t :: w.mount(user, key, t) == Yes
  }

  ghost predicate WriteOk(w: World, write: Write) {
    Sealed(write.store) && Proven(write.store, write.accepted) && Vouched(w, write.accepted)
  }

  /** Memory agrees with the store it was read from or last wrote. */
  ghost predicate MemoryOk(s: State) {
    && (s.disk.Some? ==> Sealed(s.disk.value) && Proven(s.disk.value, s.accepted))
    && (s.master.Some? ==> s.disk.Some? && s.disk.value.vault == Box(s.master.value, s.keys, OfKeys))
    && (s.master.None? ==> s.keys == map[])
  }

  ghost predicate PendingOk(s: State) {
    && (s.disk.None? ==> s.pending == [])
    && (forall p :: p in s.pending ==> p in s.accepted)
    && (s.master.None? && s.disk.Some? ==> forall p :: p in s.pending ==> p.0 !in s.disk.value.wrappers)
  }

  ghost predicate Good(w: World, s: State) {
    && MemoryOk(s) && PendingOk(s) && Vouched(w, s.accepted)
    && forall x :: x in s.writes ==> WriteOk(w, x)
  }

  /** Unlocked, or nothing kept yet: a key may be retained. */
  predicate Ready(s: State) { s.master.Some? || s.disk.None? }

  lemma MountKeeps(w: World, s: State, user: string, key: string)
    requires Good(w, s)
    ensures Good(w, Mount(w, s, user, key).0)
    ensures Mount(w, s, user, key).1.Yes? ==> (user, key) in Mount(w, s, user, key).0.accepted
  {
    var s1 := Mount(w, s, user, key).0;
    forall p | p in s1.accepted ensures MountedOnce(w, p.0, p.1) {
      if p !in s.accepted { assert w.mount(user, key, s.calls) == Yes; }
    }
  }

  lemma ExtendedIsSealed(w: World, s: State, user: string, key: string)
    requires MemoryOk(s) && Ready(s) && user !in s.keys && (user, key) in s.accepted
    ensures Sealed(Extended(w, s, user, key)) && Proven(Extended(w, s, user, key), s.accepted)
  {
    var next := Extended(w, s, user, key);
    forall u | u in next.wrappers ensures WrapperOpens(next, u) {
      if u != user { assert WrapperOpens(s.disk.value, u); }
    }
  }

  lemma RetainKeeps(w: World, s: State, user: string, key: string)
    requires Good(w, s) && Ready(s) && (user, key) in s.accepted
    ensures var (s1, ok) := Retain(w, s, user, key);
      Good(w, s1) && Ready(s1) && s1.pending == s.pending && s1.mounted == s.mounted && s1.accepted == s.accepted
      && (ok ==> s1.master.Some? && user in s1.keys && s.keys.Keys <= s1.keys.Keys && forall u :: u in s.keys ==> s1.keys[u] == s.keys[u])
      && (ok && user !in s.keys ==> s1.keys[user] == key)
      && (s.master.Some? ==> s1.master == s.master)
  {
    if user !in s.keys {
      ExtendedIsSealed(w, s, user, key);
      RetainedIsGood(w, s, user, key);
    }
  }

  lemma RetainedIsGood(w: World, s: State, user: string, key: string)
    requires Good(w, s) && Ready(s) && user !in s.keys
    requires Sealed(Extended(w, s, user, key)) && Proven(Extended(w, s, user, key), s.accepted)
    ensures Good(w, Retain(w, s, user, key).0)
  {
    var s1 := Retain(w, s, user, key).0;
    var x := Write(Extended(w, s, user, key), s.accepted);
    assert WriteOk(w, x);
    assert forall y :: y in s1.writes ==> y in s.writes || y == x;
    assert MemoryOk(s1);
    assert PendingOk(s1);
  }

  lemma {:induction false} RetainPendingKeeps(w: World, s: State)
    requires Good(w, s) && s.master.Some?
    ensures var (s1, ok) := RetainPending(w, s);
      Good(w, s1) && s1.master == s.master && s1.mounted == s.mounted && s1.accepted == s.accepted && (ok ==> s1.pending == [])
      && s.keys.Keys <= s1.keys.Keys && forall u :: u in s.keys ==> s1.keys[u] == s.keys[u]
    decreases |s.pending|
  {
    if s.pending != [] {
      var p := s.pending[0];
      assert p in s.pending && p == (p.0, p.1);
      RetainKeeps(w, s, p.0, p.1);
      var (s1, ok) := Retain(w, s, p.0, p.1);
      if ok {
        assert forall q :: q in s.pending[1..] ==> q in s.pending;
        assert Good(w, s1.(pending := s.pending[1..]));
        RetainPendingKeeps(w, s1.(pending := s.pending[1..]));
      }
    }
  }

  /** Everyone whose key is known has a mounted folder. */
  ghost predicate AllMounted(s: State, people: seq<Person>) {
    forall p :: p in people && p.unlock && p.user in s.keys ==> p.user in s.mounted
  }

  lemma {:induction false} MountEachKeeps(w: World, s: State, people: seq<Person>, except: Option<string>)
    requires Good(w, s) && (except.Some? ==> except.value in s.mounted)
    ensures var (s1, failure) := MountEach(w, s, people, except);
      Good(w, s1) && s1.keys == s.keys && s1.master == s.master && s1.pending == s.pending && s1.disk == s.disk
      && s1.writes == s.writes && s.mounted <= s1.mounted && s.accepted <= s1.accepted && (failure.None? ==> AllMounted(s1, people))
    decreases |people|
  {
    if people != [] {
      var person := people[0];
      if Passed(s, person, except) {
        MountEachKeeps(w, s, people[1..], except);
      } else {
        MountKeeps(w, s, person.user, s.keys[person.user]);
        var (s1, answer) := Mount(w, s, person.user, s.keys[person.user]);
        if answer.Yes? { MountEachKeeps(w, s1.(mounted := s1.mounted + {person.user}), people[1..], except); }
      }
    }
  }

  lemma EnterKeeps(w: World, s: State, user: string, key: string)
    requires Good(w, s) && Ready(s)
    ensures var (s1, r) := Enter(w, s, user, key);
      Good(w, s1) && (s.master.Some? ==> s1.master == s.master) && (r.Done? ==> Entered(w, s1, user, key))
      && (s.master.Some? ==> Kept(s.keys, s1.keys))
  {
    if !(user in s.keys && s.keys[user] != key) {
      MountKeeps(w, s, user, key);
      var (s1, answer) := Mount(w, s, user, key);
      if answer.Yes? {
        var m := s1.(mounted := s1.mounted + {user});
        assert Good(w, m);
        RetainKeeps(w, m, user, key);
        var (s2, ok) := Retain(w, m, user, key);
        if ok {
          RetainPendingKeeps(w, s2);
          var (s3, all) := RetainPending(w, s2);
          if all { OpenFoldersKeeps(w, s3, user); }
        }
      }
    }
  }

  lemma OpenFoldersKeeps(w: World, s: State, user: string)
    requires Good(w, s) && user in s.mounted
    ensures var (s1, r) := OpenFolders(w, s, user);
      Good(w, s1) && s1.keys == s.keys && s1.master == s.master && s1.pending == s.pending && s1.disk == s.disk
      && s.accepted <= s1.accepted && (r.Done? ==> AllMounted(s1, w.people))
  {
    var s4 := Share(w, s).0;
    assert Good(w, s4);
    MountEachKeeps(w, s4, w.people, Some(user));
  }

  ghost predicate Kept(before: map<string, string>, after: map<string, string>) {
    forall u :: u in before ==> u in after && after[u] == before[u]
  }

  /** Custody is open, holds the caller's proven key and every waiting one, and has every known folder mounted. */
  ghost predicate Entered(w: World, s: State, user: string, key: string) {
    && s.master.Some? && user in s.keys && s.keys[user] == key && (user, key) in s.accepted
    && s.pending == [] && AllMounted(s, w.people)
  }

  /** No branch of a login breaks custody. */
  lemma AuthenticateKeeps(w: World, s: State, user: string, key: string)
    requires Good(w, s)
    ensures Good(w, Authenticate(w, s, user, key).0)
  {
    if s.master.None? && s.disk.Some? {
      if user in s.disk.value.wrappers {
        if Opens(s.disk.value, user, key) {
          OpenState(w, s, user, key);
          EnterKeeps(w, s.(keys := s.disk.value.vault.plain, master := Some(s.disk.value.vault.sealedWith)), user, key);
        }
      } else {
        MountKeeps(w, s, user, key);
      }
    } else {
      EnterKeeps(w, s, user, key);
    }
  }

  predicate Opens(store: Store, user: string, key: string) {
    user in store.vault.plain && store.vault.plain[user] == key
  }

  /** A wrapper opens for its user's key alone, and that unlocks custody. */
  lemma OpenState(w: World, s: State, user: string, key: string)
    requires Good(w, s) && s.master.None? && s.disk.Some? && user in s.disk.value.wrappers
    ensures var store := s.disk.value;
      var unlocked := s.(keys := store.vault.plain, master := Some(store.vault.sealedWith));
      Good(w, unlocked) && Open(w, s, store, user, key) == if Opens(store, user, key) then Enter(w, unlocked, user, key) else (s, Refused(403, WrongKey))
  {
    assert WrapperOpens(s.disk.value, user);
  }

  lemma UnlockedIsGood(w: World, s: State)
    requires Good(w, s) && s.disk.Some?
    ensures Good(w, s.(master := Some(s.disk.value.vault.sealedWith), keys := s.disk.value.vault.plain))
  {}

  lemma OpenAllKeeps(w: World, s: State)
    requires Good(w, s) && s.master.Some?
    ensures var (s1, r) := OpenAll(w, s);
      Good(w, s1) && s1.master == s.master && Kept(s.keys, s1.keys) && (r.Done? ==> s1.pending == [] && AllMounted(s1, w.people))
  {
    RetainPendingKeeps(w, s);
    OpenAllStops(w, s);
    if RetainPending(w, s).1 { SharedKeeps(w, RetainPending(w, s).0); }
  }

  /** Where opening everything ends. */
  lemma OpenAllStops(w: World, s: State)
    ensures
      var (s1, all) := RetainPending(w, s);
      var (s2, shared) := Share(w, s1);
      var (s3, failure) := MountEach(w, s2, w.people, None);
      var (end, r) := OpenAll(w, s);
      end == (if !all then s1 else if !shared.Yes? then s2 else s3) && (r.Done? ==> all && failure.None?)
  {}

  lemma SharedKeeps(w: World, s: State)
    requires Good(w, s)
    ensures var (s1, failure) := MountEach(w, Share(w, s).0, w.people, None);
      Good(w, Share(w, s).0) && Good(w, s1) && s1.keys == s.keys && s1.master == s.master && s1.pending == s.pending
      && (failure.None? ==> AllMounted(s1, w.people))
  {
    assert Good(w, Share(w, s).0);
    MountEachKeeps(w, Share(w, s).0, w.people, None);
  }

  /** The provider's master opens the vault exactly if it is the vault's. */
  lemma Provided(w: World, s: State, master: Master)
    requires Good(w, s)
    ensures UnlockFromProvider(w, s, master) ==
      if s.disk.Some? && master == s.disk.value.vault.sealedWith
      then OpenAll(w, s.(master := Some(s.disk.value.vault.sealedWith), keys := s.disk.value.vault.plain))
      else (s, Refused(503, ProviderRefused))
  {}

  lemma UnlockKeeps(w: World, s: State, master: Master)
    requires Good(w, s)
    ensures var (s1, r) := UnlockFromProvider(w, s, master);
      Good(w, s1) && (r.Done? ==> s1.pending == [] && s1.master == Some(master) && AllMounted(s1, w.people))
  {
    Provided(w, s, master);
    if s.disk.Some? && master == s.disk.value.vault.sealedWith {
      UnlockedIsGood(w, s);
      OpenAllKeeps(w, s.(master := Some(s.disk.value.vault.sealedWith), keys := s.disk.value.vault.plain));
    }
  }

  // ---------------------------------------------------------------- logins

  predicate MayTry(w: World, user: string, key: string) {
    FindPerson(w.people, user).Some? && FindPerson(w.people, user).value.unlock && w.wellFormed(key)
  }

  lemma {:induction false} WaitingIsPending(pending: seq<(string, string)>, user: string)
    ensures PendingKey(pending, user).Some? <==> exists p :: p in pending && p.0 == user
    ensures PendingKey(pending, user).Some? ==> (user, PendingKey(pending, user).value) in pending
  {
    if pending != [] {
      WaitingIsPending(pending[1..], user);
      assert pending == [pending[0]] + pending[1..];
      assert pending[0] == (pending[0].0, pending[0].1);
    }
  }

  /** Locked custody opens to an enrolled person exactly with the retained key; any other key changes nothing. */
  lemma LockedLogin(w: World, s: State, user: string, key: string)
    requires Good(w, s) && s.master.None? && s.disk.Some? && user in s.disk.value.wrappers && MayTry(w, user, key)
    ensures var (s1, r) := Authenticate(w, s, user, key);
      var vault := s.disk.value.vault;
      if vault.plain[user] == key then s1.master == Some(vault.sealedWith) && Kept(vault.plain, s1.keys)
      else s1 == s && r == Refused(403, WrongKey)
  {
    WaitingIsPending(s.pending, user);
    OpenState(w, s, user, key);
    if Opens(s.disk.value, user, key) {
      EnterKeeps(w, s.(keys := s.disk.value.vault.plain, master := Some(s.disk.value.vault.sealedWith)), user, key);
    }
  }

  /** Someone not enrolled cannot open custody: a key that mounts waits, and the file stays as it is. */
  lemma WaitingLogin(w: World, s: State, user: string, key: string)
    requires Good(w, s) && s.master.None? && s.disk.Some? && user !in s.disk.value.wrappers
    ensures var (s1, r) := Authenticate(w, s, user, key);
      s1.master.None? && s1.disk == s.disk && s1.writes == s.writes
      && (r.Done? ==> PendingKey(s1.pending, user) == Some(key) && (user, key) in s1.accepted)
      && (!r.Done? ==> s1.pending == s.pending)
  {
    if Authenticate(w, s, user, key).1.Done? { PendingAppended(s.pending, user, key); }
  }

  lemma {:induction false} PendingAppended(pending: seq<(string, string)>, user: string, key: string)
    ensures PendingKey(pending + [(user, key)], user) ==
      if PendingKey(pending, user).Some? then PendingKey(pending, user) else Some(key)
  {
    if pending != [] {
      assert (pending + [(user, key)])[1..] == pending[1..] + [(user, key)];
      if pending[0].0 != user { PendingAppended(pending[1..], user, key); }
    }
  }

  /** A login that succeeds leaves the caller waiting in locked custody, or fully entered. */
  lemma LoginSucceeds(w: World, s: State, user: string, key: string)
    requires Good(w, s) && Authenticate(w, s, user, key).1.Done?
    ensures var s1 := Authenticate(w, s, user, key).0;
      if s.master.None? && s.disk.Some? && user !in s.disk.value.wrappers
      then s1.master.None? && PendingKey(s1.pending, user) == Some(key) && (user, key) in s1.accepted
      else Entered(w, s1, user, key)
  {
    if s.master.None? && s.disk.Some? {
      if user !in s.disk.value.wrappers {
        WaitingLogin(w, s, user, key);
      } else {
        OpenState(w, s, user, key);
        EnterKeeps(w, s.(keys := s.disk.value.vault.plain, master := Some(s.disk.value.vault.sealedWith)), user, key);
      }
    } else {
      EnterKeeps(w, s, user, key);
    }
  }

  /** "Wrong key" has no effect at all, whichever check found it. */
  lemma WrongKeyChangesNothing(w: World, s: State, user: string, key: string)
    requires Good(w, s) && Authenticate(w, s, user, key).1 == Refused(403, WrongKey)
    ensures Authenticate(w, s, user, key).0 == s
  {
    if s.master.None? && s.disk.Some? && user in s.disk.value.wrappers {
      OpenState(w, s, user, key);
      EnterRefusesFirst(w, s.(keys := s.disk.value.vault.plain, master := Some(s.disk.value.vault.sealedWith)), user, key);
    } else {
      EnterRefusesFirst(w, s, user, key);
    }
  }

  /** Once past the comparison with the known key, a login is not refused as a wrong key. */
  lemma EnterRefusesFirst(w: World, s: State, user: string, key: string)
    ensures Enter(w, s, user, key).1 == Refused(403, WrongKey) ==> user in s.keys && s.keys[user] != key && Enter(w, s, user, key).0 == s
  {}

  /** The master provider opens custody exactly with the vault's master. */
  lemma ProviderOpens(w: World, s: State, master: Master)
    requires Good(w, s) && s.disk.Some?
    ensures var (s1, r) := UnlockFromProvider(w, s, master);
      if master == s.disk.value.vault.sealedWith then s1.master == Some(master) && Kept(s.disk.value.vault.plain, s1.keys)
      else s1 == s && r == Refused(503, ProviderRefused)
  {
    Provided(w, s, master);
    if master == s.disk.value.vault.sealedWith {
      UnlockedIsGood(w, s);
      OpenAllKeeps(w, s.(master := Some(s.disk.value.vault.sealedWith), keys := s.disk.value.vault.plain));
    }
  }

  // ---------------------------------------------------------------- runs with crashes

  datatype Op = Login(user: string, key: string) | Provide(master: Master)
  /** An operation runs to its end, or the process dies when so many of its writes are in the file. */
  datatype Event = Completed(op: Op) | Crashed(op: Op, written: nat)

  function Do(w: World, s: State, op: Op): State {
    match op
    case Login(user, key) => Authenticate(w, s, user, key).0
    case Provide(master) => UnlockFromProvider(w, s, master).0
  }

  /** A process that starts from the file. */
  function Boot(writes: seq<Write>, calls: nat): State {
    var last := if writes == [] then None else Some(writes[|writes| - 1]);
    State(None, map[], if last.Some? then Some(last.value.store) else None, {}, [], writes,
          if last.Some? then last.value.accepted else {}, calls)
  }

  function Step(w: World, s: State, e: Event): State {
    var s1 := Do(w, s, e.op);
    match e
    case Completed(_) => s1
    case Crashed(_, n) => Boot(if |s.writes| + n < |s1.writes| then s1.writes[..|s.writes| + n] else s1.writes, s1.calls)
  }

  function Run(w: World, s: State, events: seq<Event>): State
    decreases events
  {
    if events == [] then s else Run(w, Step(w, s, events[0]), events[1..])
  }

  lemma DoKeeps(w: World, s: State, op: Op)
    requires Good(w, s)
    ensures Good(w, Do(w, s, op))
  {
    match op
    case Login(user, key) => AuthenticateKeeps(w, s, user, key);
    case Provide(master) => UnlockKeeps(w, s, master);
  }

  lemma BootIsGood(w: World, writes: seq<Write>, calls: nat)
    requires forall x :: x in writes ==> WriteOk(w, x)
    ensures Good(w, Boot(writes, calls))
  {
    if writes != [] { assert WriteOk(w, writes[|writes| - 1]); }
  }

  lemma StepKeeps(w: World, s: State, e: Event)
    requires Good(w, s)
    ensures Good(w, Step(w, s, e))
  {
    DoKeeps(w, s, e.op);
    if e.Crashed? {
      var s1 := Do(w, s, e.op);
      BootIsGood(w, Step(w, s, e).writes, s1.calls);
    }
  }

  /** Custody holds in every state of every run, whatever mounts and writes do and wherever the process dies. */
  lemma {:induction false} CustodyHolds(w: World, s: State, events: seq<Event>)
    requires Good(w, s)
    ensures Good(w, Run(w, s, events))
    decreases events
  {
    if events != [] {
      StepKeeps(w, s, events[0]);
      CustodyHolds(w, Step(w, s, events[0]), events[1..]);
    }
  }

  /** The keys that mounts accept are the folders' own. */
  ghost predicate Honest(w: World, folderKey: string -> string) {
    forall u, k, t :: w.mount(u, k, t) == Yes ==> k == folderKey(u)
  }

  /** Every content the file has had in a run from nothing. */
  function WritesOf(w: World, events: seq<Event>): seq<Write> { Run(w, Boot([], 0), events).writes }

  predicate EnrolledAt(writes: seq<Write>, i: nat, user: string) {
    i < |writes| && user in writes[i].store.vault.plain
  }

  /** No enrolled key is ever replaced: any two contents the file has had agree on everyone in both, with the folder's own key. */
  lemma KeysAreNeverReplaced(w: World, events: seq<Event>, folderKey: string -> string, i: nat, j: nat, user: string)
    requires Honest(w, folderKey)
    requires EnrolledAt(WritesOf(w, events), i, user) && EnrolledAt(WritesOf(w, events), j, user)
    ensures var writes := WritesOf(w, events);
      writes[i].store.vault.plain[user] == writes[j].store.vault.plain[user] == folderKey(user)
  {
    CustodyHolds(w, Boot([], 0), events);
    var writes := WritesOf(w, events);
    KeyIsReal(w, writes[i], folderKey, user);
    KeyIsReal(w, writes[j], folderKey, user);
  }

  lemma KeyIsReal(w: World, x: Write, folderKey: string -> string, user: string)
    requires Honest(w, folderKey) && WriteOk(w, x) && user in x.store.vault.plain
    ensures x.store.vault.plain[user] == folderKey(user)
  {
    var key := x.store.vault.plain[user];
    assert (user, key) in x.accepted;
    assert MountedOnce(w, (user, key).0, (user, key).1);
  }

  // ---------------------------------------------------------------- nobody enrolled is lost, unless a write fails late

  /** The same master, and everyone's key and wrapper as they were. */
  ghost predicate Extends(a: Store, b: Store) {
    && a.vault.sealedWith == b.vault.sealedWith
    && Kept(a.vault.plain, b.vault.plain)
    && forall u :: u in a.wrappers ==> u in b.wrappers && b.wrappers[u] == a.wrappers[u]
  }

  ghost predicate Chained(writes: seq<Write>) {
    forall i :: 0 < i < |writes| ==> Extends(writes[i - 1].store, writes[i].store)
  }

  ghost predicate NeverLate(w: World) {
    forall t :: w.persist(t) != Late
  }

  /** Memory is what the file says. */
  ghost predicate Current(s: State) {
    s.disk == File(s) && Chained(s.writes)
  }

  lemma RetainStaysCurrent(w: World, s: State, user: string, key: string)
    requires NeverLate(w) && Good(w, s) && Ready(s) && Current(s)
    ensures Current(Retain(w, s, user, key).0)
  {
  }

  lemma {:induction false} RetainPendingStaysCurrent(w: World, s: State)
    requires NeverLate(w) && Good(w, s) && s.master.Some? && Current(s)
    ensures Current(RetainPending(w, s).0)
    decreases |s.pending|
  {
    if s.pending != [] {
      var p := s.pending[0];
      assert p in s.pending && p == (p.0, p.1);
      RetainKeeps(w, s, p.0, p.1);
      RetainStaysCurrent(w, s, p.0, p.1);
      var (s1, ok) := Retain(w, s, p.0, p.1);
      if ok {
        assert forall q :: q in s.pending[1..] ==> q in s.pending;
        RetainPendingStaysCurrent(w, s1.(pending := s.pending[1..]));
      }
    }
  }

  lemma EnterStaysCurrent(w: World, s: State, user: string, key: string)
    requires NeverLate(w) && Good(w, s) && Ready(s) && Current(s)
    ensures Current(Enter(w, s, user, key).0)
  {
    if !(user in s.keys && s.keys[user] != key) {
      MountKeeps(w, s, user, key);
      var (s1, answer) := Mount(w, s, user, key);
      if answer.Yes? {
        var m := s1.(mounted := s1.mounted + {user});
        assert Good(w, m);
        MountedStaysCurrent(w, m, user, key);
      }
    }
  }

  lemma MountedStaysCurrent(w: World, m: State, user: string, key: string)
    requires NeverLate(w) && Good(w, m) && Ready(m) && Current(m) && (user, key) in m.accepted
    ensures var (s2, ok) := Retain(w, m, user, key);
      Current(s2) && (ok ==> var (s3, all) := RetainPending(w, s2); Current(s3) && Current(OpenFolders(w, s3, user).0))
  {
    RetainKeeps(w, m, user, key);
    RetainStaysCurrent(w, m, user, key);
    var (s2, ok) := Retain(w, m, user, key);
    if ok {
      RetainPendingStaysCurrent(w, s2);
      OpenFoldersWrite(w, RetainPending(w, s2).0, user);
    }
  }

  lemma OpenFoldersWrite(w: World, s: State, user: string)
    ensures OpenFolders(w, s, user).0.writes == s.writes && OpenFolders(w, s, user).0.disk == s.disk
  {
    MountEachWrites(w, Share(w, s).0, w.people, Some(user));
  }

  lemma {:induction false} MountEachWrites(w: World, s: State, people: seq<Person>, except: Option<string>)
    ensures MountEach(w, s, people, except).0.writes == s.writes && MountEach(w, s, people, except).0.disk == s.disk
    decreases |people|
  {
    if people != [] {
      if Passed(s, people[0], except) {
        MountEachWrites(w, s, people[1..], except);
      } else {
        var s1 := Mount(w, s, people[0].user, s.keys[people[0].user]).0;
        MountEachWrites(w, s1.(mounted := s1.mounted + {people[0].user}), people[1..], except);
      }
    }
  }

  lemma LoginStaysCurrent(w: World, s: State, user: string, key: string)
    requires NeverLate(w) && Good(w, s) && Current(s)
    ensures Current(Authenticate(w, s, user, key).0)
  {
    if s.master.None? && s.disk.Some? {
      if user in s.disk.value.wrappers {
        OpenState(w, s, user, key);
        if Opens(s.disk.value, user, key) {
          EnterStaysCurrent(w, s.(keys := s.disk.value.vault.plain, master := Some(s.disk.value.vault.sealedWith)), user, key);
        }
      }
    } else {
      EnterStaysCurrent(w, s, user, key);
    }
  }

  lemma UnlockStaysCurrent(w: World, s: State, master: Master)
    requires NeverLate(w) && Good(w, s) && Current(s)
    ensures Current(UnlockFromProvider(w, s, master).0)
  {
    Provided(w, s, master);
    if s.disk.Some? && master == s.disk.value.vault.sealedWith {
      UnlockedIsGood(w, s);
      OpenAllStaysCurrent(w, s.(master := Some(s.disk.value.vault.sealedWith), keys := s.disk.value.vault.plain));
    }
  }

  lemma OpenAllStaysCurrent(w: World, s: State)
    requires NeverLate(w) && Good(w, s) && s.master.Some? && Current(s)
    ensures Current(OpenAll(w, s).0)
  {
    RetainPendingStaysCurrent(w, s);
    MountEachWrites(w, Share(w, RetainPending(w, s).0).0, w.people, None);
  }

  lemma DoStaysCurrent(w: World, s: State, op: Op)
    requires NeverLate(w) && Good(w, s) && Current(s)
    ensures Current(Do(w, s, op))
  {
    match op
    case Login(user, key) => LoginStaysCurrent(w, s, user, key);
    case Provide(master) => UnlockStaysCurrent(w, s, master);
  }

  /** When no write fails after its rename, each content of the file extends the one before, through crashes too. */
  lemma {:induction false} EnrolledStay(w: World, s: State, events: seq<Event>)
    requires NeverLate(w) && Good(w, s) && Current(s)
    ensures Current(Run(w, s, events))
    decreases events
  {
    if events != [] {
      DoStaysCurrent(w, s, events[0].op);
      StepKeeps(w, s, events[0]);
      EnrolledStay(w, Step(w, s, events[0]), events[1..]);
    }
  }

  /** After a write that failed late, the next one keeps everyone enrolled exactly if it enrols the same person again. */
  lemma LateWriteIsForgotten(w: World, s: State, user: string, key: string, next: string, nextKey: string)
    requires Good(w, s) && Ready(s) && Current(s) && user !in s.keys && w.persist(s.calls) == Late
    requires next !in s.keys && !w.persist(s.calls + 2).Before?
    ensures var s1 := Retain(w, s, user, key).0;
      var s2 := Retain(w, s1, next, nextKey).0;
      user in File(s1).value.wrappers && (File(s1).value.wrappers.Keys <= File(s2).value.wrappers.Keys <==> next == user)
  {
    var s1 := Retain(w, s, user, key).0;
    var s2 := Retain(w, s1, next, nextKey).0;
    assert File(s1) == Some(Extended(w, s, user, key));
    assert File(s2) == Some(Extended(w, s1, next, nextKey));
    assert user in Extended(w, s, user, key).wrappers;
  }

  // ---------------------------------------------------------------- the object

  class KenanKeys {
    var master: Option<Master>
    var keys: map<string, string>
    var disk: Option<Store>
    var mounted: set<string>
    var pending: seq<(string, string)>
    ghost var writes: seq<Write>
    ghost var accepted: set<(string, string)>
    var calls: nat
    const world: World

    ghost function View(): State
      reads this
    {
      State(master, keys, disk, mounted, pending, writes, accepted, calls)
    }

    ghost predicate Valid()
      reads this
    {
      Good(world, View())
    }

    /** Reads the file that earlier processes have left. */
    constructor (world: World, file: Option<Store>, ghost writes: seq<Write>, calls: nat)
      requires (forall x :: x in writes ==> WriteOk(world, x)) && file == Boot(writes, calls).disk
      ensures Valid() && View() == Boot(writes, calls) && this.world == world
    {
      this.world := world;
      master, keys, disk, mounted, pending := None, map[], file, {}, [];
      this.writes, accepted, this.calls := writes, Boot(writes, calls).accepted, calls;
      BootIsGood(world, writes, calls);
    }

    method MountFolder(user: string, key: string) returns (answer: Answer)
      modifies this`calls, this`accepted
      ensures (View(), answer) == Mount(world, old(View()), user, key)
    {
      answer := world.mount(user, key, calls);
      if answer.Yes? { accepted := accepted + {(user, key)}; }
      calls := calls + 1;
    }

    method RetainKey(user: string, key: string) returns (ok: bool)
      modifies this
      ensures (View(), ok) == Retain(world, old(View()), user, key)
    {
      if user in keys { return true; }
      var chosen := if master.Some? then master.value else Master(world.random(calls), 32);
      var salt := world.random(calls + 1);
      var wrappers := if disk.Some? then disk.value.wrappers else map[];
      var next := Store(wrappers[user := Wrapper(salt, Box(Wrapping(key, salt), chosen, OfMaster(user)))],
                        Box(chosen, keys[user := key], OfKeys));
      var outcome := world.persist(calls);
      calls := calls + 2;
      if !outcome.Before? { writes := writes + [Write(next, accepted)]; }
      if !outcome.Written? { return false; }
      disk := Some(next);
      keys := next.vault.plain;
      master := Some(chosen);
      return true;
    }

    method RetainWaiting() returns (ok: bool)
      modifies this
      ensures (View(), ok) == RetainPending(world, old(View()))
    {
      ghost var start := View();
      while pending != []
        invariant RetainPending(world, View()) == RetainPending(world, start)
        decreases |pending|
      {
        ghost var before := View();
        ok := RetainKey(pending[0].0, pending[0].1);
        if !ok { return; }
        pending := pending[1..];
        assert View() == Retain(world, before, before.pending[0].0, before.pending[0].1).0.(pending := before.pending[1..]);
      }
      ok := true;
    }

    method MountFolders(except: Option<string>) returns (failure: Option<(string, Answer)>)
      modifies this
      ensures (View(), failure) == MountEach(world, old(View()), world.people, except)
    {
      ghost var start := View();
      var i := 0;
      while i < |world.people|
        invariant i <= |world.people|
        invariant MountEach(world, View(), world.people[i..], except) == MountEach(world, start, world.people, except)
      {
        ghost var before := View();
        var person := world.people[i];
        assert world.people[i..][1..] == world.people[i + 1..];
        if person.unlock && person.user in keys && (if except.Some? then person.user != except.value else person.user !in mounted) {
          var answer := MountFolder(person.user, keys[person.user]);
          if !answer.Yes? { return Some((person.user, answer)); }
          mounted := mounted + {person.user};
        }
        i := i + 1;
      }
      return None;
    }

    method Login(user: string, key: string) returns (r: Result)
      requires Valid()
      modifies this
      ensures Valid() && (View(), r) == Authenticate(world, old(View()), user, key)
    {
      AuthenticateKeeps(world, View(), user, key);
      var person := FindPerson(world.people, user);
      if person.None? { return Refused(403, UnknownPerson); }
      if !person.value.unlock { return Refused(403, NoFolder); }
      if !world.wellFormed(key) { return Refused(400, KeyRequired); }
      var waiting := PendingKey(pending, user);
      if waiting.Some? && waiting.value != key { return Refused(403, WrongKey); }
      if master.None? && disk.Some? {
        if user !in disk.value.wrappers {
          r := WaitInMemory(user, key);
          return;
        }
        var wrapper := disk.value.wrappers[user];
        var candidate := Unseal(Wrapping(key, wrapper.salt), wrapper.box, OfMaster(user));
        if candidate.None? { return Refused(403, WrongKey); }
        var vault := Unseal(candidate.value, disk.value.vault, OfKeys);
        if vault.None? { return Refused(503, StoreUnreadable); }
        if user !in vault.value || vault.value[user] != key { return Refused(403, WrongKey); }
        keys := vault.value;
        master := candidate;
      }
      r := EnterCustody(user, key);
    }

    method WaitInMemory(user: string, key: string) returns (r: Result)
      modifies this
      ensures (View(), r) == Wait(world, old(View()), user, key)
    {
      var answer := MountFolder(user, key);
      if !answer.Yes? { return Failed(answer, NotMounted, NotRetained); }
      mounted := mounted + {user};
      pending := SetPending(pending, user, key);
      return Done;
    }

    method EnterCustody(user: string, key: string) returns (r: Result)
      modifies this
      ensures (View(), r) == Enter(world, old(View()), user, key)
    {
      if user in keys && keys[user] != key { return Refused(403, WrongKey); }
      var answer := MountFolder(user, key);
      if !answer.Yes? { return Failed(answer, NotMounted, NotRetained); }
      mounted := mounted + {user};
      var ok := RetainKey(user, key);
      if !ok { return Refused(503, NotRetained); }
      ok := RetainWaiting();
      if !ok { return Refused(503, NotRetained); }
      var shared := if master.Some? then world.share(master.value, calls) else Threw;
      calls := calls + 1;
      if !shared.Yes? { return Failed(shared, NotShared, NotRetained); }
      var failure := MountFolders(Some(user));
      match failure
      case None => return Done;
      case Some((other, why)) => return Refused(503, if why.Threw? then NotRetained else FolderNotMounted(other));
    }

    method Unlock(provided: Master) returns (r: Result)
      requires Valid()
      modifies this
      ensures Valid() && (View(), r) == UnlockFromProvider(world, old(View()), provided)
    {
      UnlockKeeps(world, View(), provided);
      r := OpenWith(provided);
    }

    method OpenWith(provided: Master) returns (r: Result)
      modifies this
      ensures (View(), r) == UnlockFromProvider(world, old(View()), provided)
    {
      if disk.None? || provided.length != 32 { return Refused(503, ProviderRefused); }
      var vault := Unseal(provided, disk.value.vault, OfKeys);
      if vault.None? { return Refused(503, ProviderRefused); }
      master := Some(provided);
      keys := vault.value;
      r := OpenAllFolders();
    }

    method OpenAllFolders() returns (r: Result)
      modifies this
      ensures (View(), r) == OpenAll(world, old(View()))
    {
      var ok := RetainWaiting();
      if !ok { return Refused(503, ProviderRefused); }
      var shared := if master.Some? then world.share(master.value, calls) else Threw;
      calls := calls + 1;
      if !shared.Yes? { return Failed(shared, NotShared, ProviderRefused); }
      var failure := MountFolders(None);
      match failure
      case None => return Done;
      case Some((_, why)) => return Failed(why, NotMounted, ProviderRefused);
    }
  }
}
