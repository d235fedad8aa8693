/** What the manager's handlers do, said over the state they find and the message they get. */
module HandlerLaws {
  import opened Collections
  import opened Identities
  import opened Uuids
  import opened ManagerModel
  import opened IdentitySystem
  import opened Reconciliation
  import Naming

  // ---------- Requests ----------

  /** The API stores every new identity as submitted. */
  predicate Accepts(api: Api) {
    AllCreated(api) && Honest(api)
  }

  /** The manager's state after identity `i` was registered for the new service `id` with the
      first user of the pool. */
  predicate Serves(m: Manager, m': Manager, id: string, i: ServiceIdentity) {
    && m.pool == [i.user] + m'.pool
    && id in m'.services && m'.services[id] == i
    && (forall k :: k in m.services && k != id ==> k in m'.services && m'.services[k] == m.services[k])
    && (forall k :: k in m'.services ==> k in m.services || k == id)
    && m' == m.(pool := m'.pool, services := m'.services)
  }

  /** A new service is registered under the candidate's namespace, name and labels with the first
      user of the pool, whatever the API answers. */
  lemma NewServiceIsRegistered(m: Manager, namespace: string, name: string, labels: map<string, string>, api: Api)
    requires Naming.ServiceId(namespace, name) !in m.services && m.pool != []
    ensures var id, u := Naming.ServiceId(namespace, name), m.pool[0];
            var e := Request(m, ServiceCandidate(Some(namespace), name, labels), api);
            && Serves(m, e.manager, id, ServiceIdentity(u, name, namespace, labels, false))
            && e.granted == [Assignment(id, u)] && e.toSelf == [] && e.deletes == []
  {
    assert m.pool == [m.pool[0]] + m.pool[1..];
  }

  /** Its activation is sent last, exactly if the API stored it: for that user, to the manager's
      cluster and under the candidate's namespace, name and labels. A refill is asked for before
      it exactly when fewer than ten users remain. */
  lemma NewServiceIsActivated(m: Manager, namespace: string, name: string, labels: map<string, string>, api: Api)
    requires Naming.ServiceId(namespace, name) !in m.services && m.pool != []
    ensures var outcome := api.Create(Naming.ServiceId(namespace, name));
            var sent := Request(m, ServiceCandidate(Some(namespace), name, labels), api).toCreator;
            && (outcome.CreateFailed? ==> sent == [])
            && (outcome.CreatedNew? ==>
                  sent == (if |m.pool| <= 10 then [CreateIdentity] else [])
                          + [ActivateServiceUser(m.pool[0], m.cluster, namespace, name, labels)])
            && (outcome.FoundExisting? ==>
                  var i := outcome.identity;
                  sent == (if |m.pool| <= 10 then [CreateIdentity] else [])
                          + [ActivateServiceUser(i.user, m.cluster, i.namespace, i.name, labels)])
  {
  }

  /** A known service, an empty pool or a missing namespace: nothing happens. */
  lemma OtherRequestsDoNothing(m: Manager, c: ServiceCandidate, api: Api)
    requires c.namespace.None? || Naming.ServiceId(c.namespace.value, c.name) in m.services || m.pool == []
    ensures var e := Request(m, c, api);
            e.manager == m && e.toCreator == [] && e.toSelf == [] && e.granted == [] && e.deletes == []
  {
  }

  function Activation(msg: CreatorMsg): Option<CreatorMsg> {
    if msg.ActivateServiceUser? then Some(msg) else None
  }

  /** The activations of the first `n` candidates with the first `n` users. */
  function Activations(cluster: string, f: seq<ServiceCandidate>, pool: seq<ServiceUser>, n: nat): seq<CreatorMsg>
    requires n <= |f| && n <= |pool| && forall i :: 0 <= i < |f| ==> f[i].namespace.Some?
  {
    seq(n, i requires 0 <= i < n => ActivateServiceUser(pool[i], cluster, f[i].namespace.value, f[i].name, f[i].labels))
  }

  lemma OneActivation(m: Manager, c: ServiceCandidate, api: Api)
    requires c.namespace.Some? && c.ServiceId().value !in m.services && m.pool != [] && Accepts(api)
    ensures Collect(Request(m, c, api).toCreator, Activation)
            == [ActivateServiceUser(m.pool[0], m.cluster, c.namespace.value, c.name, c.labels)]
  {
    NewServiceIsActivated(m, c.namespace.value, c.name, c.labels, api);
    var refill := if |m.pool| <= 10 then [CreateIdentity] else [];
    CollectAppend(refill, ActivateServiceUser(m.pool[0], m.cluster, c.namespace.value, c.name, c.labels), Activation);
    CollectNone(refill, Activation);
  }

  lemma {:induction false} LoopActivates(m: Manager, cs: seq<ServiceCandidate>, api: Api)
    requires DistinctCandidates(cs) && Accepts(api)
    ensures var f := Collect(cs, Unserved(m.services));
            && (forall i :: 0 <= i < |f| ==> f[i].namespace.Some?)
            && Collect(RequestAll(m, cs, api).toCreator, Activation) == Activations(m.cluster, f, m.pool, Min(|m.pool|, |f|))
    decreases cs
  {
    var f := Collect(cs, Unserved(m.services));
    UnservedNamespaced(cs, m.services);
    assert forall i :: 0 <= i < |f| ==> f[i] in f;
    if m.pool == [] {
      RequestAllSilent(m, cs, api);
    } else if cs != [] {
      var e := Request(m, cs[0], api);
      LoopActivates(e.manager, cs[1..], api);
      CollectConcat(e.toCreator, RequestAll(e.manager, cs[1..], api).toCreator, Activation);
      if Unserved(m.services)(cs[0]).Some? {
        SameUnserved(m, cs, e.manager.services);
        OneActivation(m, cs[0], api);
        FirstActivation(m.cluster, cs[0], Collect(cs[1..], Unserved(m.services)), m.pool);
      } else {
        assert e == Silent(m);
      }
    }
  }

  lemma FirstActivation(cluster: string, c: ServiceCandidate, f: seq<ServiceCandidate>, pool: seq<ServiceUser>)
    requires pool != [] && c.namespace.Some? && forall i :: 0 <= i < |f| ==> f[i].namespace.Some?
    ensures Activations(cluster, [c] + f, pool, Min(|pool|, 1 + |f|)) ==
            [ActivateServiceUser(pool[0], cluster, c.namespace.value, c.name, c.labels)]
            + Activations(cluster, f, pool[1..], Min(|pool| - 1, |f|))
  {
  }

  /** The candidates `f` are given the users of the pool in order; each new identity is named
      after its candidate and activated exactly once, in that order. */
  ghost predicate ServedInOrder(m: Manager, e: Effect, f: seq<ServiceCandidate>) {
    var n := Min(|m.pool|, |f|);
    && (forall i :: 0 <= i < |f| ==> f[i].namespace.Some?)
    && (forall i :: 0 <= i < n ==>
          var id := Naming.ServiceId(f[i].namespace.value, f[i].name);
          && id in e.manager.services
          && e.manager.services[id] == ServiceIdentity(m.pool[i], f[i].name, f[i].namespace.value, f[i].labels, false))
    && Collect(e.toCreator, Activation) == Activations(m.cluster, f, m.pool, n)
  }

  lemma LoopServesInOrder(m: Manager, cs: seq<ServiceCandidate>, api: Api)
    requires DistinctCandidates(cs) && Accepts(api)
    ensures ServedInOrder(m, RequestAll(m, cs, api), Collect(cs, Unserved(m.services)))
  {
    var f := Collect(cs, Unserved(m.services));
    RequestAllGrants(m, cs, api);
    LoopActivates(m, cs, api);
    GrantedIdentities(m, RequestAll(m, cs, api), f, Min(|m.pool|, |f|));
  }

  /** In the last loop of the reconciliation these are the missing candidates that have no
      identity after the deletions, in the order of the loop. */
  lemma MissingLoopActivates(m: Manager, sched: Schedule, api: Api) returns (f: seq<ServiceCandidate>)
    requires Keyed(m) && ValidSchedule(m, sched, api) && Accepts(api)
    ensures ServedInOrder(m, MissingLoop(m, sched, api), f)
    ensures Enumerates(CandidateIds(f, |f|), m.missing.Keys - DeletionLoops(m, sched, api).manager.services.Keys)
    ensures forall i :: 0 <= i < |f| ==> f[i] in m.missing.Values
  {
    var before, cs := DeletionLoops(m, sched, api).manager, Pick(m.missing, sched.missing);
    f := Collect(cs, Unserved(before.services));
    DeletionLoopsLeaveSurvivors(m, sched, api);
    SameLoop(m, before, MissingLoop(m, sched, api), f) by {
      MissingDistinct(m, sched.missing);
      LoopServesInOrder(before, cs, api);
    }
    UnservedIds(m, sched.missing, before.services);
    PickedAreMissing(m.missing, sched.missing, before.services);
  }

  lemma PickedAreMissing(missing: map<string, ServiceCandidate>, keys: seq<string>, services: map<string, ServiceIdentity>)
    requires forall k :: k in keys ==> k in missing
    ensures var f := Collect(Pick(missing, keys), Unserved(services));
            forall i :: 0 <= i < |f| ==> f[i] in missing.Values
  {
    var cs := Pick(missing, keys);
    var f := Collect(cs, Unserved(services));
    UnservedMembers(cs, services);
    forall i | 0 <= i < |f| ensures f[i] in missing.Values {
      assert f[i] in f;
      assert f[i] in cs;
    }
  }

  lemma SameLoop(m: Manager, before: Manager, e: Effect, f: seq<ServiceCandidate>)
    requires ServedInOrder(before, e, f) && before.pool == m.pool && before.cluster == m.cluster
    ensures ServedInOrder(m, e, f)
  {
  }

  lemma GrantedIdentities(m: Manager, e: Effect, f: seq<ServiceCandidate>, n: nat)
    requires Granted(m, e, f, n)
    ensures forall i :: 0 <= i < n ==>
              var id := Naming.ServiceId(f[i].namespace.value, f[i].name);
              && id in e.manager.services
              && e.manager.services[id] == ServiceIdentity(m.pool[i], f[i].name, f[i].namespace.value, f[i].labels, false)
  {
    var ids, xs := CandidateIds(f, n), NewIdentities(f, m.pool, n);
    forall i | 0 <= i < n
      ensures var id := Naming.ServiceId(f[i].namespace.value, f[i].name);
              id in e.manager.services
              && e.manager.services[id] == ServiceIdentity(m.pool[i], f[i].name, f[i].namespace.value, f[i].labels, false)
    {
      assert ids[i] in e.manager.services && e.manager.services[ids[i]] == xs[i];
    }
  }

  // ---------- Deletions ----------

  /** A deleted candidate takes two messages: the first queues the identity as registered, the
      second unregisters it and asks for the deletion of its user, if the API agrees. */
  lemma DeletedServiceIsDropped(m: Manager, namespace: string, name: string, labels: map<string, string>, api: Api)
    requires IdentitySystem.FiledByKey(m)
    ensures var k := Naming.ServiceId(namespace, name);
            var e := Handle(m, DeletedServiceCandidate(ServiceCandidate(Some(namespace), name, labels)), api);
            && e.manager == m && e.toCreator == []
            && (k !in m.services ==> e.toSelf == [])
            && (k in m.services ==>
                  var i := m.services[k];
                  && e.toSelf == [DeleteServiceIdentity(i)]
                  && var d := Handle(m, e.toSelf[0], api);
                  && d.deletes == [k] && d.toSelf == []
                  && d.manager == m.(services := d.manager.services)
                  && (k in api.failedDeletes ==> d.manager == m && d.toCreator == [])
                  && (k !in api.failedDeletes ==>
                        && k !in d.manager.services && d.manager.services == m.services - {k}
                        && d.toCreator == [DeleteServiceUser(i.user, i.namespace, i.name)]))
  {
  }

  /** The names handed to the creator, once, are exactly those of the survivors' users. */
  lemma SurvivorNamesAnnounced(m: Manager, sched: Schedule, api: Api) returns (names: set<string>)
    requires Keyed(m) && ValidSchedule(m, sched, api)
    ensures Collect(Reconcile(m, sched, api).toCreator, NamesOf) == [names]
    ensures forall n :: n in names <==> exists k :: k in m.services && Survives(m, k, api) && m.services[k].user.name == n
  {
    var e := DeletionLoops(m, sched, api);
    names := UserNames(e.manager);
    NamesSentOnce(m, sched, api);
    DeletionLoopsLeaveSurvivors(m, sched, api);
    forall n ensures n in names <==> exists k :: k in m.services && Survives(m, k, api) && m.services[k].user.name == n {
      if n in names {
        var k :| k in e.manager.services && e.manager.services[k].user.name == n;
        assert k in m.services && m.services[k].user.name == n;
      }
      if k :| k in m.services && Survives(m, k, api) && m.services[k].user.name == n {
        assert k in e.manager.services && e.manager.services[k].user.name == n;
      }
    }
  }

  lemma NamesSentOnce(m: Manager, sched: Schedule, api: Api)
    requires Keyed(m) && ValidSchedule(m, sched, api)
    ensures Collect(Reconcile(m, sched, api).toCreator, NamesOf) == [UserNames(DeletionLoops(m, sched, api).manager)]
  {
    DeletionsNameNobody(m, sched, api);
    RequestsNameNobody(m, sched, api);
    var e, loop := DeletionLoops(m, sched, api), MissingLoop(m, sched, api);
    var msg := ReconcileSDPUsers(UserNames(e.manager));
    CollectAppend(e.toCreator, msg, NamesOf);
    CollectConcat(e.toCreator + [msg], loop.toCreator, NamesOf);
  }

  lemma DeletionsNameNobody(m: Manager, sched: Schedule, api: Api)
    requires Keyed(m) && ValidSchedule(m, sched, api)
    ensures Collect(DeletionLoops(m, sched, api).toCreator, NamesOf) == []
  {
    DeletionLoopsMessages(m, sched, api);
    CollectNone(DeletionLoops(m, sched, api).toCreator, NamesOf);
  }

  lemma RequestsNameNobody(m: Manager, sched: Schedule, api: Api)
    requires ValidSchedule(m, sched, api)
    ensures Collect(MissingLoop(m, sched, api).toCreator, NamesOf) == []
  {
    RequestAllMessages(DeletionLoops(m, sched, api).manager, Pick(m.missing, sched.missing), api);
    CollectNone(MissingLoop(m, sched, api).toCreator, NamesOf);
  }

  function NamesOf(msg: CreatorMsg): Option<set<string>> {
    if msg.ReconcileSDPUsers? then Some(msg.names) else None
  }

  // ---------- Users and device ids ----------

  /** A confirmed user replaces the one its service holds; other services and unregistered
      ones are not touched. */
  lemma ConfirmedUserIsHeld(m: Manager, u: ServiceUser, namespace: string, name: string, api: Api)
    requires IdentitySystem.FiledByKey(m)
    ensures var k := Naming.ServiceId(namespace, name);
            var e := Handle(m, ActivatedServiceUser(u, namespace, name), api);
            && e.toCreator == [] && e.toSelf == [] && e.manager == m.(services := e.manager.services)
            && e.manager.services.Keys == m.services.Keys
            && (forall l :: l in m.services ==> e.manager.services[l] == m.services[l].(user := if l == k then u else m.services[l].user))
  {
    var k := Naming.ServiceId(namespace, name);
    if k in m.services {
      assert m.services[k].(user := u).ServiceId() == k;
    }
  }

  /** A released id is in the list of its service afterwards, once, after the ids already
      there; the creator is told, with the new list, exactly when the API stored it. */
  lemma ReleasedIdIsListed(m: Manager, namespace: string, name: string, uuid: Uuid, api: Api)
    ensures var k := Naming.ServiceId(namespace, name);
            var e := Handle(m, ReleaseDeviceId(namespace, name, uuid), api);
            && e.toSelf == [] && e.manager == m.(services := e.manager.services)
            && e.manager.services.Keys == m.services.Keys
            && (k !in m.services ==> e.manager == m && e.toCreator == [])
            && (k in m.services ==>
                  var was, now := m.services[k].user.deviceIds, e.manager.services[k].user.deviceIds;
                  && e.manager.services == m.services[k := m.services[k].(user := m.services[k].user.(deviceIds := now))]
                  && (was.None? ==> now.None?)
                  && (was.Some? ==> now.Some? && ToText(uuid) in now.value && was.value <= now.value
                                    && |now.value| == |was.value| + (if ToText(uuid) in was.value then 0 else 1))
                  && e.toCreator == (if api.updateOk then [UnregisterDeviceId(e.manager.services[k].user, uuid)] else []))
  {
  }

  /** A listed candidate is filed as existing or as missing, under its id; a user found
      deactivated goes to the end of the pool. */
  lemma FoundIsFiled(m: Manager, namespace: string, name: string, labels: map<string, string>, u: ServiceUser, api: Api)
    ensures var k, c := Naming.ServiceId(namespace, name), ServiceCandidate(Some(namespace), name, labels);
            var e := Handle(m, FoundServiceCandidate(c), api);
            && e == Silent(e.manager)
            && e.manager == (if k in m.services then m.(existing := m.existing + {k}) else m.(missing := m.missing[k := c]))
    ensures Handle(m, FoundServiceUser(u, true), api) == Silent(m.(activated := m.activated + {u.id}))
    ensures Handle(m, FoundServiceUser(u, false), api) == Silent(m.(pool := m.pool + [u], deactivated := m.deactivated + {u.id}))
  {
  }

  /** After a restart every stored identity is registered again, the last one of an id. */
  lemma {:induction false} RestoredIdentities(m: Manager, xs: seq<ServiceIdentity>)
    ensures var r := Restore(m, xs);
            && r == m.(services := r.services)
            && (forall k :: k in r.services <==> k in m.services || exists i :: 0 <= i < |xs| && xs[i].ServiceId() == k)
            && (forall i :: 0 <= i < |xs| && (forall j :: i < j < |xs| ==> xs[j].ServiceId() != xs[i].ServiceId()) ==>
                  r.services[xs[i].ServiceId()] == xs[i])
  {
    if xs != [] {
      var front, last := xs[..|xs| - 1], xs[|xs| - 1];
      RestoredIdentities(m, front);
      assert xs == front + [last];
      forall k | k in Restore(m, xs).services ensures k in m.services || exists i :: 0 <= i < |xs| && xs[i].ServiceId() == k {
        if k in Restore(m, front).services && k !in m.services {
          var i :| 0 <= i < |front| && front[i].ServiceId() == k;
          assert xs[i].ServiceId() == k;
        } else if k !in m.services {
          assert xs[|xs| - 1].ServiceId() == k;
        }
      }
      forall i | 0 <= i < |xs| ensures xs[i].ServiceId() in Restore(m, xs).services {
        if i < |front| {
          assert front[i].ServiceId() == xs[i].ServiceId();
        }
      }
      forall i | 0 <= i < |xs| && (forall j :: i < j < |xs| ==> xs[j].ServiceId() != xs[i].ServiceId())
        ensures Restore(m, xs).services[xs[i].ServiceId()] == xs[i]
      {
        if i < |front| {
          assert xs[|front|].ServiceId() != xs[i].ServiceId();
          assert forall j :: i < j < |front| ==> front[j].ServiceId() == xs[j].ServiceId();
          assert Restore(m, front).services[front[i].ServiceId()] == front[i];
        }
      }
    }
  }
}
