/** The injector's in-memory store: the identities it has seen, and for each of them a stack
    of device ids that pods have given back. */
module DeviceStore {
  import opened Collections
  import opened Identities
  import opened Uuids

  datatype Store = Store(identities: map<string, ServiceIdentity>, pools: map<string, seq<Uuid>>)

  function OrEmpty<T>(ids: Option<seq<T>>): seq<T> {
    if ids.Some? then ids.value else []
  }

  // ---------- Merging the listed ids into the stored identity ----------

  function MergeOne(dest: seq<string>, id: string, used: seq<string>): seq<string> {
    if id in dest || id in used then dest else dest + [id]
  }

  function Merge(dest: seq<string>, src: seq<string>, used: seq<string>): seq<string>
    decreases src
  {
    if src == [] then dest else Merge(MergeOne(dest, src[0], used), src[1..], used)
  }

  /** An identity stored without a list never gets one. */
  function MergeIds(dest: Option<seq<string>>, src: seq<string>, used: seq<string>): Option<seq<string>> {
    if dest.Some? then Some(Merge(dest.value, src, used)) else None
  }

  lemma {:induction false} MergeMembers(dest: seq<string>, src: seq<string>, used: seq<string>)
    ensures forall id :: id in Merge(dest, src, used) <==> id in dest || (id in src && id !in used)
    ensures dest <= Merge(dest, src, used)
    decreases src
  {
    if src != [] {
      MergeMembers(MergeOne(dest, src[0], used), src[1..], used);
      assert forall id :: id in src <==> id == src[0] || id in src[1..];
    }
  }

  lemma {:induction false} MergeNothing(dest: seq<string>, src: seq<string>, used: seq<string>)
    requires forall id :: id in src ==> id in dest || id in used
    ensures Merge(dest, src, used) == dest
    decreases src
  {
    if src != [] {
      MergeNothing(dest, src[1..], used);
    }
  }

  lemma MergeIdempotent(dest: seq<string>, src: seq<string>, used: seq<string>)
    ensures Merge(Merge(dest, src, used), src, used) == Merge(dest, src, used)
  {
    MergeMembers(dest, src, used);
    MergeNothing(Merge(dest, src, used), src, used);
  }

  // ---------- The pool of one identity ----------

  function Push(pool: seq<Uuid>, u: Uuid): seq<Uuid> {
    if u in pool then pool else [u] + pool
  }

  function PushAll(pool: seq<Uuid>, us: seq<Uuid>): seq<Uuid>
    decreases us
  {
    if us == [] then pool else PushAll(Push(pool, us[0]), us[1..])
  }

  function Reversed<T>(s: seq<T>): seq<T> {
    if s == [] then [] else Reversed(s[1..]) + [s[0]]
  }

  lemma {:induction false} ReversedAppend<T>(s: seq<T>, x: T)
    ensures Reversed(s + [x]) == [x] + Reversed(s)
  {
    if s != [] {
      assert (s + [x])[1..] == s[1..] + [x];
      ReversedAppend(s[1..], x);
    }
  }

  /** The ids of `us` that are not in `pool`, each where it occurs first. */
  function Novel(us: seq<Uuid>, pool: seq<Uuid>): seq<Uuid> {
    if us == [] then []
    else
      var before, last := Novel(us[..|us| - 1], pool), us[|us| - 1];
      if last in before || last in pool then before else before + [last]
  }

  predicate FirstSeenBefore(us: seq<Uuid>, u: Uuid, v: Uuid) {
    exists n :: 0 <= n <= |us| && u in us[..n] && v !in us[..n]
  }

  /** Duplicate-free, complete, and in the order of the first occurrences. */
  lemma {:induction false} NovelIsExact(us: seq<Uuid>, pool: seq<Uuid>)
    ensures NoDup(Novel(us, pool))
    ensures forall u :: u in Novel(us, pool) <==> u in us && u !in pool
    ensures forall i, j :: 0 <= i < j < |Novel(us, pool)| ==> FirstSeenBefore(us, Novel(us, pool)[i], Novel(us, pool)[j])
  {
    if us != [] {
      var front, last := us[..|us| - 1], us[|us| - 1];
      NovelIsExact(front, pool);
      assert us == front + [last];
      var before, all := Novel(front, pool), Novel(us, pool);
      forall i, j | 0 <= i < j < |all| ensures FirstSeenBefore(us, all[i], all[j]) {
        if j < |before| {
          assert FirstSeenBefore(front, before[i], before[j]);
          var n :| 0 <= n <= |front| && before[i] in front[..n] && before[j] !in front[..n];
          assert us[..n] == front[..n];
        } else {
          assert us[..|front|] == front;
          assert all[i] in before && last !in front;
        }
      }
    }
  }

  lemma {:induction false} PushAllAppend(pool: seq<Uuid>, us: seq<Uuid>, u: Uuid)
    ensures PushAll(pool, us + [u]) == Push(PushAll(pool, us), u)
    decreases us
  {
    if us == [] {
      assert us + [u] == [u] && [u][1..] == [];
    } else {
      assert (us + [u])[1..] == us[1..] + [u];
      PushAllAppend(Push(pool, us[0]), us[1..], u);
    }
  }

  lemma {:induction false} ReversedMembers<T>(s: seq<T>)
    ensures forall x :: x in Reversed(s) <==> x in s
  {
    if s != [] {
      ReversedMembers(s[1..]);
    }
  }

  /** Pushing ids one by one puts the new ones in front, the last one first. */
  lemma {:induction false} PushAllReverses(pool: seq<Uuid>, us: seq<Uuid>)
    ensures PushAll(pool, us) == Reversed(Novel(us, pool)) + pool
  {
    if us != [] {
      var front, last := us[..|us| - 1], us[|us| - 1];
      assert us == front + [last];
      PushAllAppend(pool, front, last);
      PushAllReverses(pool, front);
      ReversedMembers(Novel(front, pool));
      ReversedAppend(Novel(front, pool), last);
      assert [last] + (Reversed(Novel(front, pool)) + pool) == ([last] + Reversed(Novel(front, pool))) + pool;
    }
  }

  lemma {:induction false} PushAllMembers(pool: seq<Uuid>, us: seq<Uuid>)
    ensures forall u :: u in PushAll(pool, us) <==> u in pool || u in us
    ensures NoDup(pool) ==> NoDup(PushAll(pool, us))
    decreases us
  {
    if us != [] {
      PushAllMembers(Push(pool, us[0]), us[1..]);
      assert forall u :: u in us <==> u == us[0] || u in us[1..];
      if NoDup(pool) && us[0] !in pool {
        NoDupConcat([us[0]], pool);
      }
    }
  }

  // ---------- Operations ----------

  /** A listed id that the stored identity does not list yet, if it is a UUID. */
  function Unlisted(current: seq<string>): string -> Option<Uuid> {
    (id: string) => if id in current then None else Parse(id)
  }

  /** The ids stored for a service before an update. */
  function Known(st: Store, id: string): seq<string> {
    if id in st.identities then OrEmpty(st.identities[id].user.deviceIds) else []
  }

  function Pool(st: Store, id: string): seq<Uuid> {
    if id in st.pools then st.pools[id] else []
  }

  /** The identity that stays stored is the first one seen; later ones only contribute ids. */
  function Stored(st: Store, service: ServiceIdentity): ServiceIdentity {
    if service.ServiceId() in st.identities then st.identities[service.ServiceId()] else service
  }

  function WithIds(service: ServiceIdentity, ids: Option<seq<string>>): ServiceIdentity {
    service.(user := service.user.(deviceIds := ids))
  }

  function Registered(st: Store, service: ServiceIdentity, used: Option<seq<string>>): Store {
    var id, listed, stored := service.ServiceId(), OrEmpty(service.user.deviceIds), Stored(st, service);
    Store(st.identities[id := WithIds(stored, MergeIds(stored.user.deviceIds, listed, OrEmpty(used)))],
          st.pools[id := PushAll(Pool(st, id), Collect(listed, Unlisted(Known(st, id))))])
  }

  function Unregistered(st: Store, id: string): Store {
    Store(st.identities - {id}, st.pools - {id})
  }

  datatype Popped = NotFound | Assigned(identity: ServiceIdentity, uuid: Uuid)

  /** The most recently returned id, or a fresh one; `random` is the UUID drawn. */
  function Pop(st: Store, id: string, random: Uuid): (Store, Popped) {
    if id !in st.identities || id !in st.pools then (st, NotFound)
    else if st.pools[id] == [] then (st, Assigned(st.identities[id], random))
    else (st.(pools := st.pools[id := st.pools[id][1..]]), Assigned(st.identities[id], st.pools[id][0]))
  }

  /** Messages of the device id provider. */
  datatype Request =
    | FoundServiceIdentity(service: ServiceIdentity, used: Option<seq<string>>)
    | DeletedServiceIdentity(service: ServiceIdentity)
    | RequestDeviceId(id: string, random: Uuid)

  function Provide(st: Store, r: Request): Store {
    match r
    case FoundServiceIdentity(service, used) => Registered(st, service, used)
    case DeletedServiceIdentity(service) => Unregistered(st, service.ServiceId())
    case RequestDeviceId(id, random) => Pop(st, id, random).0
  }

  function ProvideAll(st: Store, rs: seq<Request>): Store
    decreases rs
  {
    if rs == [] then st else ProvideAll(Provide(st, rs[0]), rs[1..])
  }

  // ---------- What holds of every sequence of requests ----------

  /** Both maps speak of the same services, identities are filed under their own id, and no
      pool offers an id twice. */
  predicate WellFormed(st: Store) {
    && st.identities.Keys == st.pools.Keys
    && (forall id :: id in st.identities ==> st.identities[id].ServiceId() == id)
    && (forall id :: id in st.pools ==> NoDup(st.pools[id]))
  }

  lemma ProvideWellFormed(st: Store, r: Request)
    requires WellFormed(st)
    ensures WellFormed(Provide(st, r))
  {
    if r.FoundServiceIdentity? {
      var id := r.service.ServiceId();
      PushAllMembers(Pool(st, id), Collect(OrEmpty(r.service.user.deviceIds), Unlisted(Known(st, id))));
    }
  }

  lemma {:induction false} StoreStaysWellFormed(st: Store, rs: seq<Request>)
    requires WellFormed(st)
    ensures WellFormed(ProvideAll(st, rs))
    decreases rs
  {
    if rs != [] {
      ProvideWellFormed(st, rs[0]);
      StoreStaysWellFormed(Provide(st, rs[0]), rs[1..]);
    }
  }

  /** An update puts the newly listed ids that are not waiting yet in front of the old pool,
      last listed first, and touches no other service. */
  lemma UpdateReversesNewIds(st: Store, service: ServiceIdentity, used: Option<seq<string>>)
    ensures var id := service.ServiceId();
            var listed := Collect(OrEmpty(service.user.deviceIds), Unlisted(Known(st, id)));
            var st' := Registered(st, service, used);
            && Pool(st', id) == Reversed(Novel(listed, Pool(st, id))) + Pool(st, id)
            && (forall other :: other != id ==> Pool(st', other) == Pool(st, other) && Known(st', other) == Known(st, other))
            && (Stored(st, service).user.deviceIds.None? ==> Known(st', id) == [])
            && (Stored(st, service).user.deviceIds.Some? ==> forall text :: text in Known(st', id) <==>
                  || text in Stored(st, service).user.deviceIds.value
                  || (text in OrEmpty(service.user.deviceIds) && text !in OrEmpty(used)))
  {
    var id := service.ServiceId();
    PushAllReverses(Pool(st, id), Collect(OrEmpty(service.user.deviceIds), Unlisted(Known(st, id))));
    UpdateMerges(st, service, used);
  }

  /** The recorded list after an update; an identity stored without one records nothing. */
  lemma UpdateMerges(st: Store, service: ServiceIdentity, used: Option<seq<string>>)
    ensures var id, stored := service.ServiceId(), Stored(st, service).user.deviceIds;
            var known := Known(Registered(st, service, used), id);
            if stored.None? then known == []
            else forall text :: text in known <==>
                   text in stored.value || (text in OrEmpty(service.user.deviceIds) && text !in OrEmpty(used))
  {
    if Stored(st, service).user.deviceIds.Some? {
      MergeMembers(Stored(st, service).user.deviceIds.value, OrEmpty(service.user.deviceIds), OrEmpty(used));
    }
  }

  lemma {:induction false} PushNothing(pool: seq<Uuid>, us: seq<Uuid>)
    requires forall u :: u in us ==> u in pool
    ensures PushAll(pool, us) == pool
    decreases us
  {
    if us != [] {
      assert us[0] in us;
      PushNothing(pool, us[1..]);
    }
  }

  lemma CollectWithin(q: seq<string>, less: seq<string>, more: seq<string>)
    requires forall x :: x in less ==> x in more || x !in q
    ensures forall u :: u in Collect(q, Unlisted(more)) ==> u in Collect(q, Unlisted(less))
  {
  }

  /** Delivering the same identity twice in a row is delivering it once, whatever was stored
      before and whatever ids are in use. */
  lemma RegisterIdempotent(st: Store, service: ServiceIdentity, used: Option<seq<string>>)
    ensures Registered(Registered(st, service, used), service, used) == Registered(st, service, used)
  {
    var id, listed := service.ServiceId(), OrEmpty(service.user.deviceIds);
    var st' := Registered(st, service, used);
    var stored := Stored(st, service).user.deviceIds;
    if stored.Some? {
      MergeIdempotent(stored.value, listed, OrEmpty(used));
      MergeMembers(stored.value, listed, OrEmpty(used));
    }
    PushAllMembers(Pool(st, id), Collect(listed, Unlisted(Known(st, id))));
    CollectWithin(listed, Known(st, id), Known(st', id));
    PushNothing(Pool(st', id), Collect(listed, Unlisted(Known(st', id))));
    assert Registered(st', service, used).identities == st'.identities;
    assert Registered(st', service, used).pools == st'.pools;
  }

  /** What `n` requests for one service in a row are given. */
  function Given(st: Store, id: string, randoms: seq<Uuid>): seq<Popped>
    decreases randoms
  {
    if randoms == [] then []
    else
      var (st', p) := Pop(st, id, randoms[0]);
      [p] + Given(st', id, randoms[1..])
  }

  /** Ids come back last in, first out; a drawn UUID is handed out exactly when the pool has
      run empty. */
  lemma {:induction false} PopsAreLifo(st: Store, id: string, randoms: seq<Uuid>)
    requires id in st.identities && id in st.pools
    ensures var given := Given(st, id, randoms);
            && |given| == |randoms|
            && (forall i :: 0 <= i < |given| ==>
                  given[i] == Assigned(st.identities[id], if i < |st.pools[id]| then st.pools[id][i] else randoms[i]))
    decreases randoms
  {
    if randoms != [] {
      PopsAreLifo(Pop(st, id, randoms[0]).0, id, randoms[1..]);
    }
  }

  /** An update keeps the identity first stored in everything but its list, and touches no other
      service; unregistering removes the service from both maps and touches no other. */
  lemma FirstIdentityStays(st: Store, service: ServiceIdentity, used: Option<seq<string>>, gone: string)
    ensures var id, st' := service.ServiceId(), Registered(st, service, used);
            var first := if id in st.identities then st.identities[id] else service;
            && id in st'.identities && id in st'.pools
            && st'.identities[id] == first.(user := first.user.(deviceIds := st'.identities[id].user.deviceIds))
            && st'.identities - {id} == st.identities - {id} && st'.pools - {id} == st.pools - {id}
    ensures var st' := Unregistered(st, gone);
            && gone !in st'.identities && gone !in st'.pools
            && st'.identities == st.identities - {gone} && st'.pools == st.pools - {gone}
  {
  }
}
