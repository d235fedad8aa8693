/** Device ids in circulation: the injector's store hands them to pods, ended pods give them
    back through the identity manager, whose lists reach the store as watch events. A run is
    any interleaving of these. */
module DeviceExclusion {
  import opened Collections
  import opened Identities
  import opened DeviceStore
  import opened Uuids
  import ManagerModel

  datatype Lease = Lease(service: string, uuid: Uuid)

  /** `users` are the users of the manager's identities and `live` the pods that run with a
      device id. The rest is history: `listed` has every id ever listed for a service, `ended`
      the leases of pods that ended, `gone` the unregistered services, `home` the service each
      id ever known belongs to, and `handed` the ids handed out. */
  datatype State = State(
    store: Store,
    users: map<string, ServiceUser>,
    live: map<string, Lease>,
    listed: map<string, set<Uuid>>,
    ended: set<Lease>,
    gone: set<string>,
    home: map<Uuid, string>,
    handed: multiset<Uuid>)

  datatype Event =
    | Snapshot(identity: ServiceIdentity)
    | Admit(pod: string, service: string, random: Uuid, delivered: bool)
    | End(pod: string)
    | Release(lease: Lease)
    | Replace(service: string, user: ServiceUser)
    | Drop(service: string)
    | Unregister(service: string)

  function Listed(s: State, k: string): set<Uuid> {
    if k in s.listed then s.listed[k] else {}
  }

  /** `text` is the canonical text of one of the ids. */
  predicate Names(us: set<Uuid>, text: string) {
    Parse(text).Some? && Parse(text).value in us && text == ToText(Parse(text).value)
  }

  /** Every id of the user has been listed for the service. */
  predicate Drawn(s: State, k: string, u: ServiceUser) {
    forall text :: text in OrEmpty(u.deviceIds) ==> Names(Listed(s, k), text)
  }

  /** A watch event shows any list made of ids listed so far: versions may be skipped,
      repeated or late. An unregistered service does not come back. Drawn UUIDs are new. */
  predicate Enabled(s: State, e: Event) {
    match e
    case Snapshot(service) => service.ServiceId() !in s.gone && Drawn(s, service.ServiceId(), service.user)
    case Admit(pod, _, random, _) => pod !in s.live && random !in s.home
    case End(pod) => pod in s.live
    case Release(lease) => lease in s.ended
    case Replace(k, user) => Drawn(s, k, user)
    case Drop(_) => true
    case Unregister(_) => true
  }

  /** Pod `pod` of service `k` is given `u`; a lost answer leaves the id with nobody. */
  function Granted(s: State, st: Store, pod: string, k: string, u: Uuid, delivered: bool): State {
    s.(store := st, live := if delivered then s.live[pod := Lease(k, u)] else s.live,
       home := s.home[u := k], handed := s.handed + multiset{u})
  }

  function Assign(s: State, pod: string, k: string, random: Uuid, delivered: bool): State {
    var (store, popped) := Pop(s.store, k, random);
    match popped
    case NotFound => s
    case Assigned(_, uuid) => Granted(s, store, pod, k, uuid, delivered)
  }

  /** The manager handles a release message for an ended pod. */
  function Returned(s: State, lease: Lease): State {
    if lease.service in s.users && s.users[lease.service].deviceIds.Some? then
      s.(users := s.users[lease.service := ManagerModel.AddDeviceId(s.users[lease.service], lease.uuid)],
         listed := s.listed[lease.service := Listed(s, lease.service) + {lease.uuid}])
    else s
  }

  function Next(s: State, e: Event): State
    requires Enabled(s, e)
  {
    match e
    case Snapshot(service) => s.(store := Registered(s.store, service, None))
    case Admit(pod, k, random, delivered) => Assign(s, pod, k, random, delivered)
    case End(pod) => s.(live := s.live - {pod}, ended := s.ended + {s.live[pod]})
    case Release(lease) => Returned(s, lease)
    case Replace(k, user) => s.(users := s.users[k := user])
    case Drop(k) => s.(users := s.users - {k})
    case Unregister(k) => s.(store := Unregistered(s.store, k), gone := s.gone + {k})
  }

  predicate Runs(s: State, es: seq<Event>)
    decreases es
  {
    es == [] || (Enabled(s, es[0]) && Runs(Next(s, es[0]), es[1..]))
  }

  function After(s: State, es: seq<Event>): State
    requires Runs(s, es)
    decreases es
  {
    if es == [] then s else After(Next(s, es[0]), es[1..])
  }

  /** A service first seen comes with a list, possibly empty. */
  predicate FirstListed(s: State, e: Event) {
    e.Snapshot? && e.identity.ServiceId() !in s.store.identities ==> e.identity.user.deviceIds.Some?
  }

  predicate AllFirstListed(s: State, es: seq<Event>)
    requires Runs(s, es)
    decreases es
  {
    es == [] || (FirstListed(s, es[0]) && AllFirstListed(Next(s, es[0]), es[1..]))
  }

  // ---------- The invariant ----------

  function LiveIds(s: State): set<Uuid> {
    set pod | pod in s.live :: s.live[pod].uuid
  }

  /** No two live pods hold the same device id. */
  predicate Exclusive(s: State) {
    forall p, q :: p in s.live && q in s.live && p != q ==> s.live[p].uuid != s.live[q].uuid
  }

  /** Every id belongs to one service. */
  predicate AtHome(s: State) {
    && (forall k, u :: k in s.listed && u in s.listed[k] ==> u in s.home && s.home[u] == k)
    && (forall p :: p in s.live ==> s.live[p].uuid in s.home && s.home[s.live[p].uuid] == s.live[p].service)
    && (forall l :: l in s.ended ==> l.uuid in s.home && s.home[l.uuid] == l.service)
  }

  /** A service is stored with its list, which was drawn from the ids listed. */
  predicate StoreDrawn(s: State) {
    forall k :: k in s.store.identities ==>
      && k !in s.gone
      && s.store.identities[k].user.deviceIds.Some?
      && (forall text :: text in s.store.identities[k].user.deviceIds.value ==> Names(Listed(s, k), text))
  }

  /** An id offered to pods is recorded in the list and in use by nobody. */
  predicate Offered(s: State) {
    forall k, u :: k in s.store.pools && u in s.store.pools[k] ==> ToText(u) in Known(s.store, k) && u !in LiveIds(s)
  }

  /** An id in use that the manager lists has been recorded: the list cannot offer it again. */
  predicate Recorded(s: State) {
    forall p :: p in s.live && s.live[p].uuid in Listed(s, s.live[p].service) ==>
      s.live[p].service in s.gone || ToText(s.live[p].uuid) in Known(s.store, s.live[p].service)
  }

  /** A returned id that is in use again was listed before. */
  predicate Reused(s: State) {
    forall l :: l in s.ended && l.uuid in LiveIds(s) ==> l.uuid in Listed(s, l.service)
  }

  /** How often an id may have been handed out. */
  ghost predicate Sparing(s: State) {
    forall u :: s.handed[u] > 0 ==>
      && u in s.home
      && s.handed[u] <= 2
      && (s.handed[u] == 2 ==>
            || s.home[u] in s.gone
            || (ToText(u) in Known(s.store, s.home[u]) && u !in Pool(s.store, s.home[u])))
  }

  /** What the manager shows at any time may be delivered. */
  predicate Deliverable(s: State) {
    forall k :: k in s.users ==> Drawn(s, k, s.users[k])
  }

  ghost predicate Safe(s: State) {
    && Deliverable(s) && WellFormed(s.store) && Exclusive(s) && AtHome(s) && StoreDrawn(s)
    && Offered(s) && Recorded(s) && Reused(s) && Sparing(s)
  }

  /** The injector starts with an empty store; pods may be running, with ids nobody lists. */
  predicate Start(s: State) {
    && s.store == Store(map[], map[]) && s.ended == {} && s.gone == {} && s.handed == multiset{}
    && Exclusive(s) && AtHome(s) && Deliverable(s)
    && (forall p, k :: p in s.live && k in s.listed ==> s.live[p].uuid !in s.listed[k])
  }

  // ---------- Watch events ----------

  /** An id pushed by an update was listed and not recorded. */
  lemma NewlyOffered(s: State, i: ServiceIdentity, u: Uuid)
    requires Enabled(s, Snapshot(i))
    requires u in Pool(Registered(s.store, i, None), i.ServiceId()) && u !in Pool(s.store, i.ServiceId())
    ensures u in Listed(s, i.ServiceId()) && ToText(u) !in Known(s.store, i.ServiceId())
    ensures ToText(u) in OrEmpty(i.user.deviceIds)
  {
    var k, texts := i.ServiceId(), OrEmpty(i.user.deviceIds);
    var current := Known(s.store, k);
    PushAllMembers(Pool(s.store, k), Collect(texts, Unlisted(current)));
    CollectMember(texts, Unlisted(current), u);
    var n :| 0 <= n < |texts| && Unlisted(current)(texts[n]) == Some(u);
    assert Names(Listed(s, k), texts[n]);
  }

  /** An update records what it lists, keeps what was recorded, and leaves other services. */
  ghost predicate Updated(st: Store, st': Store, i: ServiceIdentity) {
    && i.ServiceId() in st'.identities && st'.identities[i.ServiceId()].user.deviceIds.Some?
    && (forall text :: text in Known(st', i.ServiceId()) ==> text in Known(st, i.ServiceId()) || text in OrEmpty(i.user.deviceIds))
    && (forall text :: text in Known(st, i.ServiceId()) ==> text in Known(st', i.ServiceId()))
    && (forall text :: text in OrEmpty(i.user.deviceIds) ==> text in Known(st', i.ServiceId()))
    && (forall k :: k != i.ServiceId() ==> Known(st', k) == Known(st, k) && Pool(st', k) == Pool(st, k))
  }

  lemma UpdateRecords(s: State, i: ServiceIdentity)
    requires StoreDrawn(s) && FirstListed(s, Snapshot(i))
    ensures Updated(s.store, Registered(s.store, i, None), i)
  {
    UpdateReversesNewIds(s.store, i, None);
  }

  /** Whoever holds an id is of the service that lists it. */
  lemma Unrecorded(s: State, k: string, u: Uuid)
    requires AtHome(s) && Recorded(s) && k !in s.gone && u in Listed(s, k) && ToText(u) !in Known(s.store, k)
    ensures u !in LiveIds(s)
  {
  }

  lemma SnapshotOffered(s: State, i: ServiceIdentity)
    requires Enabled(s, Snapshot(i)) && AtHome(s) && Recorded(s) && Offered(s)
    requires Updated(s.store, Registered(s.store, i, None), i)
    ensures Offered(Next(s, Snapshot(i)))
  {
    var s' := Next(s, Snapshot(i));
    assert LiveIds(s') == LiveIds(s);
    forall k, u | k in s'.store.pools && u in s'.store.pools[k]
      ensures ToText(u) in Known(s'.store, k) && u !in LiveIds(s')
    {
      OfferedAfterUpdate(s, i, k, u);
    }
  }

  lemma OfferedAfterUpdate(s: State, i: ServiceIdentity, k: string, u: Uuid)
    requires Enabled(s, Snapshot(i)) && AtHome(s) && Recorded(s) && Offered(s)
    requires Updated(s.store, Registered(s.store, i, None), i) && u in Pool(Registered(s.store, i, None), k)
    ensures ToText(u) in Known(Registered(s.store, i, None), k) && u !in LiveIds(s)
  {
    if u in Pool(s.store, k) {
      assert u in s.store.pools[k];
    } else {
      NewlyOffered(s, i, u);
      Unrecorded(s, k, u);
    }
  }

  lemma SnapshotSparing(s: State, i: ServiceIdentity)
    requires Enabled(s, Snapshot(i)) && Sparing(s) && Updated(s.store, Registered(s.store, i, None), i)
    ensures Sparing(Next(s, Snapshot(i)))
  {
    var k, s' := i.ServiceId(), Next(s, Snapshot(i));
    forall u | s.handed[u] == 2 && s.home[u] !in s.gone
      ensures ToText(u) in Known(s'.store, s.home[u]) && u !in Pool(s'.store, s.home[u])
    {
      if s.home[u] == k && u in Pool(s'.store, k) {
        NewlyOffered(s, i, u);
      }
    }
  }

  lemma SnapshotDrawn(s: State, i: ServiceIdentity)
    requires Enabled(s, Snapshot(i)) && StoreDrawn(s) && Updated(s.store, Registered(s.store, i, None), i)
    ensures StoreDrawn(Next(s, Snapshot(i)))
  {
  }

  lemma SnapshotRecorded(s: State, i: ServiceIdentity)
    requires Enabled(s, Snapshot(i)) && Recorded(s) && Updated(s.store, Registered(s.store, i, None), i)
    ensures Recorded(Next(s, Snapshot(i)))
  {
  }

  lemma SnapshotSafe(s: State, i: ServiceIdentity)
    requires Safe(s) && Enabled(s, Snapshot(i)) && FirstListed(s, Snapshot(i))
    ensures Safe(Next(s, Snapshot(i)))
  {
    UpdateRecords(s, i);
    SnapshotOffered(s, i);
    SnapshotSparing(s, i);
    SnapshotDrawn(s, i);
    SnapshotRecorded(s, i);
    ProvideWellFormed(s.store, FoundServiceIdentity(i, None));
    SameHolders(s, Next(s, Snapshot(i)));
  }

  /** What does not speak of the store. */
  lemma SameHolders(s: State, s': State)
    requires s'.live == s.live && s'.ended == s.ended && s'.listed == s.listed && s'.home == s.home
    requires Exclusive(s) && AtHome(s) && Reused(s)
    ensures Exclusive(s') && AtHome(s') && Reused(s') && LiveIds(s') == LiveIds(s)
  {
  }

  // ---------- Admissions ----------

  /** The pools are disjoint and hold ids of their own service. */
  lemma OfferedAtHome(s: State, k: string, u: Uuid)
    requires AtHome(s) && StoreDrawn(s) && Offered(s) && WellFormed(s.store) && u in Pool(s.store, k)
    ensures u in Listed(s, k) && u in s.home && s.home[u] == k
  {
    assert ToText(u) in Known(s.store, k);
    assert Names(Listed(s, k), ToText(u));
    ParseToText(u);
  }

  /** What a request hands out: an id offered to this service alone, or a new one. */
  ghost predicate Free(s: State, st: Store, k: string, u: Uuid) {
    && st.identities == s.store.identities && st.pools.Keys == s.store.pools.Keys
    && u !in LiveIds(s)
    && (u in s.home ==> s.home[u] == k && u in Listed(s, k) && ToText(u) in Known(s.store, k))
    && (forall other, x :: other in st.pools && x in st.pools[other] ==> x in Pool(s.store, other) && x != u)
    && s.handed[u] <= 1
  }

  lemma TopIsFree(s: State, k: string, random: Uuid)
    requires Safe(s) && k in s.store.pools && s.store.pools[k] != []
    ensures var u := s.store.pools[k][0];
            && u !in LiveIds(s) && s.handed[u] <= 1
            && u in s.home && s.home[u] == k && u in Listed(s, k) && ToText(u) in Known(s.store, k)
  {
    var u := s.store.pools[k][0];
    assert u in Pool(s.store, k);
    OfferedAtHome(s, k, u);
  }

  lemma PoppedIsFree(s: State, k: string, random: Uuid)
    requires Safe(s) && random !in s.home && Pop(s.store, k, random).1.Assigned?
    ensures Free(s, Pop(s.store, k, random).0, k, Pop(s.store, k, random).1.uuid)
  {
    var st, u := Pop(s.store, k, random).0, Pop(s.store, k, random).1.uuid;
    if s.store.pools[k] != [] {
      TopIsFree(s, k, random);
    }
    forall other, x | other in st.pools && x in st.pools[other] ensures x in Pool(s.store, other) && x != u {
      OfferedAtHome(s, other, x);
    }
  }

  lemma GrantOffered(s: State, st: Store, pod: string, k: string, u: Uuid, delivered: bool)
    requires pod !in s.live && Free(s, st, k, u) && Offered(s)
    ensures Offered(Granted(s, st, pod, k, u, delivered))
  {
  }

  lemma GrantHolders(s: State, st: Store, pod: string, k: string, u: Uuid, delivered: bool)
    requires pod !in s.live && Free(s, st, k, u) && Exclusive(s) && AtHome(s) && Reused(s)
    ensures var s' := Granted(s, st, pod, k, u, delivered);
            Exclusive(s') && AtHome(s') && Reused(s')
  {
  }

  lemma GrantRecorded(s: State, st: Store, pod: string, k: string, u: Uuid, delivered: bool)
    requires pod !in s.live && Free(s, st, k, u) && Recorded(s) && AtHome(s)
    ensures Recorded(Granted(s, st, pod, k, u, delivered))
  {
  }

  lemma GrantSparing(s: State, st: Store, pod: string, k: string, u: Uuid, delivered: bool)
    requires Free(s, st, k, u) && Sparing(s)
    ensures Sparing(Granted(s, st, pod, k, u, delivered))
  {
  }

  lemma AdmitSafe(s: State, pod: string, k: string, random: Uuid, delivered: bool)
    requires Safe(s) && Enabled(s, Admit(pod, k, random, delivered))
    ensures Safe(Assign(s, pod, k, random, delivered))
  {
    var (st, popped) := Pop(s.store, k, random);
    if popped.Assigned? {
      PoppedIsFree(s, k, random);
      ProvideWellFormed(s.store, RequestDeviceId(k, random));
      GrantSafe(s, st, pod, k, popped.uuid, delivered);
    }
  }

  lemma GrantSafe(s: State, st: Store, pod: string, k: string, u: Uuid, delivered: bool)
    requires Safe(s) && pod !in s.live && Free(s, st, k, u) && WellFormed(st)
    ensures Safe(Granted(s, st, pod, k, u, delivered))
  {
    GrantOffered(s, st, pod, k, u, delivered);
    GrantHolders(s, st, pod, k, u, delivered);
    GrantRecorded(s, st, pod, k, u, delivered);
    GrantSparing(s, st, pod, k, u, delivered);
  }

  // ---------- Ended pods ----------

  lemma EndSafe(s: State, pod: string)
    requires Safe(s) && pod in s.live
    ensures Safe(Next(s, End(pod)))
  {
    EndHolders(s, pod);
  }

  lemma EndHolders(s: State, pod: string)
    requires pod in s.live && Exclusive(s) && AtHome(s) && Reused(s) && Offered(s)
    ensures var s' := Next(s, End(pod));
            Exclusive(s') && AtHome(s') && Reused(s') && Offered(s')
  {
    var s' := Next(s, End(pod));
    assert LiveIds(s') <= LiveIds(s);
    assert s.live[pod].uuid !in LiveIds(s');
  }

  /** Listing an id again changes nothing for a pod that holds it. */
  lemma ReturnedRecorded(s: State, lease: Lease)
    requires lease in s.ended && Recorded(s) && Reused(s) && AtHome(s)
    ensures Recorded(Returned(s, lease)) && Reused(Returned(s, lease)) && AtHome(Returned(s, lease))
  {
  }

  lemma ReturnedDrawn(s: State, lease: Lease)
    requires StoreDrawn(s) && Deliverable(s)
    ensures StoreDrawn(Returned(s, lease)) && Deliverable(Returned(s, lease))
  {
    var s' := Returned(s, lease);
    assert forall k :: Listed(s, k) <= Listed(s', k);
    assert forall k, text :: Names(Listed(s, k), text) ==> Names(Listed(s', k), text);
    ParseToText(lease.uuid);
    assert Names({lease.uuid}, ToText(lease.uuid));
  }

  lemma ReleaseSafe(s: State, lease: Lease)
    requires Safe(s) && lease in s.ended
    ensures Safe(Returned(s, lease))
  {
    ReturnedRecorded(s, lease);
    ReturnedDrawn(s, lease);
    assert LiveIds(Returned(s, lease)) == LiveIds(s);
  }

  lemma UnregisterSafe(s: State, k: string)
    requires Safe(s)
    ensures Safe(Next(s, Unregister(k)))
  {
    SameHolders(s, Next(s, Unregister(k)));
    UnregisterStore(s, k);
    UnregisterOffered(s, k);
    UnregisterHistory(s, k);
  }

  lemma UnregisterStore(s: State, k: string)
    requires WellFormed(s.store) && StoreDrawn(s)
    ensures WellFormed(Next(s, Unregister(k)).store) && StoreDrawn(Next(s, Unregister(k)))
  {
  }

  lemma UnregisterOffered(s: State, k: string)
    requires Offered(s)
    ensures Offered(Next(s, Unregister(k)))
  {
  }

  lemma UnregisterHistory(s: State, k: string)
    requires Recorded(s) && Sparing(s)
    ensures Recorded(Next(s, Unregister(k))) && Sparing(Next(s, Unregister(k)))
  {
  }

  /** The manager takes another user for a service, or forgets the service. */
  lemma UsersSafe(s: State, users: map<string, ServiceUser>)
    requires Safe(s) && Deliverable(s.(users := users))
    ensures Safe(s.(users := users))
  {
    SameHolders(s, s.(users := users));
  }

  lemma StepSafe(s: State, e: Event)
    requires Safe(s) && Enabled(s, e) && FirstListed(s, e)
    ensures Safe(Next(s, e))
  {
    match e
    case Snapshot(i) => SnapshotSafe(s, i);
    case Admit(pod, k, random, delivered) => AdmitSafe(s, pod, k, random, delivered);
    case End(pod) => EndSafe(s, pod);
    case Release(lease) => ReleaseSafe(s, lease);
    case Unregister(k) => UnregisterSafe(s, k);
    case Replace(k, user) => UsersSafe(s, s.users[k := user]);
    case Drop(k) => UsersSafe(s, s.users - {k});
  }

  lemma {:induction false} RunSafe(s: State, es: seq<Event>)
    requires Safe(s) && Runs(s, es) && AllFirstListed(s, es)
    ensures Safe(After(s, es))
    decreases es
  {
    if es != [] {
      StepSafe(s, es[0]);
      RunSafe(Next(s, es[0]), es[1..]);
    }
  }

  lemma StartSafe(s: State)
    requires Start(s)
    ensures Safe(s)
  {
  }

  /** The list the manager currently shows for a service is among those a watch event may
      bring, after every run. */
  lemma CurrentListMayArrive(s: State, es: seq<Event>, i: ServiceIdentity)
    requires Start(s) && Runs(s, es) && AllFirstListed(s, es)
    requires var t := After(s, es);
             i.ServiceId() !in t.gone && i.ServiceId() in t.users && t.users[i.ServiceId()] == i.user
    ensures Enabled(After(s, es), Snapshot(i))
  {
    StartSafe(s);
    RunSafe(s, es);
  }

  lemma NotOffered(s: State)
    requires Offered(s)
    ensures forall p, k :: p in s.live && k in s.store.pools ==> s.live[p].uuid !in s.store.pools[k]
  {
    forall p, k | p in s.live && k in s.store.pools ensures s.live[p].uuid !in s.store.pools[k] {
      assert s.live[p].uuid in LiveIds(s);
    }
  }

  /** In every run no two live pods hold the same device id, no pool offers an id in use, and
      no id is handed out more than twice. */
  lemma DeviceIdsAreExclusive(s: State, es: seq<Event>)
    requires Start(s) && Runs(s, es) && AllFirstListed(s, es)
    ensures var t := After(s, es);
            && (forall p, q :: p in t.live && q in t.live && p != q ==> t.live[p].uuid != t.live[q].uuid)
            && (forall p, k :: p in t.live && k in t.store.pools ==> t.live[p].uuid !in t.store.pools[k])
            && (forall u :: t.handed[u] <= 2)
  {
    StartSafe(s);
    RunSafe(s, es);
    NotOffered(After(s, es));
  }

  // ---------- A service first seen without a list ----------

  /** An identity stored without a list records nothing: every later update offers all the
      ids it lists, in use or not. */
  lemma UnlistedServiceOffersAll(s: State, i: ServiceIdentity, u: Uuid)
    requires i.ServiceId() in s.store.identities && s.store.identities[i.ServiceId()].user.deviceIds.None?
    requires ToText(u) in OrEmpty(i.user.deviceIds) && Enabled(s, Snapshot(i))
    ensures var s' := Next(s, Snapshot(i));
            u in Pool(s'.store, i.ServiceId()) && s'.store.identities[i.ServiceId()].user.deviceIds.None?
  {
    var texts := OrEmpty(i.user.deviceIds);
    ParseToText(u);
    PushAllMembers(Pool(s.store, i.ServiceId()), Collect(texts, Unlisted([])));
    CollectMember(texts, Unlisted([]), u);
    var n :| 0 <= n < |texts| && texts[n] == ToText(u);
    assert Unlisted([])(texts[n]) == Some(u);
  }

  /** The state of a service whose first identity had no list, after its only pod ended and
      the manager listed the id the pod gave back. */
  function Relisted(i: ServiceIdentity, u: Uuid): State {
    var k := i.ServiceId();
    State(Store(map[k := WithIds(i, None)], map[k := []]), map[k := i.user.(deviceIds := Some([ToText(u)]))], map[],
          map[k := {u}], {Lease(k, u)}, {}, map[u := k], multiset{u})
  }

  /** From an empty start such a state is reached. */
  lemma RelistedIsReached(i: ServiceIdentity, u: Uuid)
    requires i.user.deviceIds == Some([])
    ensures var k := i.ServiceId();
            var s := State(Store(map[], map[]), map[k := i.user], map[], map[], {}, {}, map[], multiset{});
            var es := [Snapshot(WithIds(i, None)), Admit("pod", k, u, true), End("pod"), Release(Lease(k, u))];
            Start(s) && Runs(s, es) && After(s, es) == Relisted(i, u) && AllListedOr(s, es, WithIds(i, None))
  {
    var k := i.ServiceId();
    var s := State(Store(map[], map[]), map[k := i.user], map[], map[], {}, {}, map[], multiset{});
    UnlistedRegistered(s, i, u);
    var s1 := Next(s, Snapshot(WithIds(i, None)));
    AdmittedAndEnded(s1, i, u);
    RunFour(s, Snapshot(WithIds(i, None)), Admit("pod", k, u, true), End("pod"), Release(Lease(k, u)),
            WithIds(i, None));
  }

  lemma UnlistedRegistered(s: State, i: ServiceIdentity, u: Uuid)
    requires s == State(Store(map[], map[]), map[i.ServiceId() := i.user], map[], map[], {}, {}, map[], multiset{})
    ensures Start(s) || i.user.deviceIds != Some([])
    ensures Enabled(s, Snapshot(WithIds(i, None)))
    ensures Next(s, Snapshot(WithIds(i, None)))
            == s.(store := Store(map[i.ServiceId() := WithIds(i, None)], map[i.ServiceId() := []]))
  {
  }

  lemma AdmittedAndEnded(s: State, i: ServiceIdentity, u: Uuid)
    requires var k := i.ServiceId();
             s == State(Store(map[k := WithIds(i, None)], map[k := []]), map[k := i.user], map[], map[], {}, {}, map[], multiset{})
    requires i.user.deviceIds == Some([])
    ensures var k := i.ServiceId();
            && Enabled(s, Admit("pod", k, u, true))
            && var s2 := Next(s, Admit("pod", k, u, true));
            && Enabled(s2, End("pod"))
            && var s3 := Next(s2, End("pod"));
            && Enabled(s3, Release(Lease(k, u)))
            && Next(s3, Release(Lease(k, u))) == Relisted(i, u)
  {
    var k := i.ServiceId();
    var s2 := Next(s, Admit("pod", k, u, true));
    assert s2.live == map["pod" := Lease(k, u)];
    var s3 := Next(s2, End("pod"));
    assert s3.live == map[] && s3.ended == {Lease(k, u)} && s3.handed == multiset{u};
    assert [] + [ToText(u)] == [ToText(u)] && Listed(s3, k) + {u} == {u};
  }

  /** A service first seen comes with a list, unless it comes as the identity `i`. */
  predicate ListedOr(s: State, e: Event, i: ServiceIdentity) {
    FirstListed(s, e) || e == Snapshot(i)
  }

  predicate AllListedOr(s: State, es: seq<Event>, i: ServiceIdentity)
    requires Runs(s, es)
    decreases es
  {
    es == [] || (ListedOr(s, es[0], i) && AllListedOr(Next(s, es[0]), es[1..], i))
  }

  lemma {:induction false} AllListed(s: State, es: seq<Event>, i: ServiceIdentity)
    requires Runs(s, es) && AllListedOr(s, es, i) && i.user.deviceIds.Some?
    ensures AllFirstListed(s, es)
    decreases es
  {
    if es != [] {
      AllListed(Next(s, es[0]), es[1..], i);
    }
  }

  lemma {:induction false} RunsConcat(s: State, es: seq<Event>, fs: seq<Event>, i: ServiceIdentity)
    requires Runs(s, es) && Runs(After(s, es), fs) && AllListedOr(s, es, i) && AllListedOr(After(s, es), fs, i)
    ensures Runs(s, es + fs) && After(s, es + fs) == After(After(s, es), fs) && AllListedOr(s, es + fs, i)
    decreases es
  {
    if es == [] {
      assert es + fs == fs;
    } else {
      assert (es + fs)[1..] == es[1..] + fs;
      RunsConcat(Next(s, es[0]), es[1..], fs, i);
    }
  }

  lemma RunFour(s: State, e0: Event, e1: Event, e2: Event, e3: Event, i: ServiceIdentity)
    requires Enabled(s, e0) && Enabled(Next(s, e0), e1) && Enabled(Next(Next(s, e0), e1), e2)
    requires Enabled(Next(Next(Next(s, e0), e1), e2), e3)
    requires ListedOr(s, e0, i) && FirstListed(Next(s, e0), e1) && FirstListed(Next(Next(s, e0), e1), e2)
    requires FirstListed(Next(Next(Next(s, e0), e1), e2), e3)
    ensures Runs(s, [e0, e1, e2, e3]) && AllListedOr(s, [e0, e1, e2, e3], i)
    ensures After(s, [e0, e1, e2, e3]) == Next(Next(Next(Next(s, e0), e1), e2), e3)
  {
    var s1 := Next(s, e0);
    var s2 := Next(s1, e1);
    var s3 := Next(s2, e2);
    var s4 := Next(s3, e3);
    assert [e0, e1, e2, e3][1..] == [e1, e2, e3] && [e1, e2, e3][1..] == [e2, e3];
    assert [e2, e3][1..] == [e3] && [e3][1..] == [];
    assert Runs(s4, []) && After(s4, []) == s4;
    assert Runs(s3, [e3]) && After(s3, [e3]) == s4 && AllListedOr(s3, [e3], i);
    assert Runs(s2, [e2, e3]) && After(s2, [e2, e3]) == s4 && AllListedOr(s2, [e2, e3], i);
    assert Runs(s1, [e1, e2, e3]) && After(s1, [e1, e2, e3]) == s4 && AllListedOr(s1, [e1, e2, e3], i);
  }

  /** There the same watch event, seen twice, puts one id into two live pods. */
  lemma UnlistedServiceShares(i: ServiceIdentity, u: Uuid, v: Uuid)
    requires u != v
    ensures var k := i.ServiceId();
            var show := Snapshot(WithIds(i, Some([ToText(u)])));
            var es := [show, Admit("first", k, v, true), show, Admit("second", k, v, true)];
            && Runs(Relisted(i, u), es) && AllListedOr(Relisted(i, u), es, WithIds(i, None))
            && After(Relisted(i, u), es).live == map["first" := Lease(k, u), "second" := Lease(k, u)]
  {
    var k, s := i.ServiceId(), Relisted(i, u);
    var show := Snapshot(WithIds(i, Some([ToText(u)])));
    var e1, e3 := Admit("first", k, v, true), Admit("second", k, v, true);
    ParseToText(u);
    assert Collect([ToText(u)], Unlisted([])) == [u];
    assert PushAll([], [u]) == [u] by { assert [u][1..] == []; }
    var s1 := Next(s, show);
    assert s1.store == Store(map[k := WithIds(i, None)], map[k := [u]]);
    var s2 := Next(s1, e1);
    assert s2.live == map["first" := Lease(k, u)] && s2.store == s.store;
    var s3 := Next(s2, show);
    assert s3.store == s1.store;
    var s4 := Next(s3, e3);
    assert s4.live == map["first" := Lease(k, u), "second" := Lease(k, u)];
    RunFour(s, show, e1, show, e3, WithIds(i, None));
  }

  /** Whether no two live pods share an id in any run in which every other service comes with a
      list depends on one thing: that this one does, too. */
  lemma ExclusiveExactly(i: ServiceIdentity)
    ensures (forall s, es :: Start(s) && Runs(s, es) && AllListedOr(s, es, i) ==> Exclusive(After(s, es)))
            <==> i.user.deviceIds.Some?
  {
    if i.user.deviceIds.Some? {
      forall s, es | Start(s) && Runs(s, es) && AllListedOr(s, es, i) ensures Exclusive(After(s, es)) {
        AllListed(s, es, i);
        DeviceIdsAreExclusive(s, es);
      }
    } else {
      var s, es := SharingRun(i);
      assert !Exclusive(After(s, es));
    }
  }

  lemma SharingRun(i: ServiceIdentity) returns (s: State, es: seq<Event>)
    requires i.user.deviceIds.None?
    ensures Start(s) && Runs(s, es) && AllListedOr(s, es, i) && !Exclusive(After(s, es))
  {
    var j, k := WithIds(i, Some([])), i.ServiceId();
    var u: Uuid, v: Uuid := seq(32, _ => 0), seq(32, _ => 1);
    assert u[0] != v[0] && WithIds(j, None) == i;
    RelistedIsReached(j, u);
    UnlistedServiceShares(j, u, v);
    s := State(Store(map[], map[]), map[k := j.user], map[], map[], {}, {}, map[], multiset{});
    var show := Snapshot(WithIds(j, Some([ToText(u)])));
    var before := [Snapshot(i), Admit("pod", k, u, true), End("pod"), Release(Lease(k, u))];
    var more := [show, Admit("first", k, v, true), show, Admit("second", k, v, true)];
    RunsConcat(s, before, more, i);
    es := before + more;
    var live := After(s, es).live;
    assert "first" in live && "second" in live && |"first"| != |"second"|;
    assert live["first"].uuid == live["second"].uuid;
  }
}
