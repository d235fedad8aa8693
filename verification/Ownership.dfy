/** No user is ever in two places: over every run, the users in the pool and those held by
    identities are pairwise distinct, whatever stale activations arrive. */
module Ownership {
  import opened Collections
  import opened Identities
  import opened ManagerModel
  import opened IdentitySystem
  import Naming

  predicate DistinctIds(us: seq<ServiceUser>) {
    forall i, j :: 0 <= i < j < |us| ==> us[i].id != us[j].id
  }

  /** Restored identities hold distinct users, none of which is announced as deactivated,
      and no deactivated user is announced twice. */
  ghost predicate CleanStart(c: Config) {
    var services, spares := Restored(c).services, Collect(c.plan, PlannedSpare);
    && (forall k, l :: k in services && l in services && k != l ==> services[k].user.id != services[l].user.id)
    && DistinctIds(spares)
    && (forall u, k :: u in spares && k in services ==> u.id != services[k].user.id)
  }

  /** Every user belongs to at most one service. */
  predicate Functional(owner: set<(string, string)>) {
    forall p, q :: p in owner && q in owner && p.0 == q.0 ==> p == q
  }

  predicate Filed(s: State) {
    forall k :: k in s.m.services ==>
      s.m.services[k].ServiceId() == k && (s.m.services[k].user.id, k) in s.owner
  }

  predicate SpareUsers(s: State) {
    && DistinctIds(Supply(s))
    && (forall u :: u in Supply(s) ==> u.id in s.used)
    && (forall u, p :: u in Supply(s) && p in s.owner ==> u.id != p.0)
  }

  /** Activations under way, in either direction, concern the owner of their user. */
  predicate Addressed(s: State) {
    && (forall i :: 0 <= i < |s.cq| && s.cq[i].ActivateServiceUser? ==>
          (s.cq[i].user.id, Naming.ServiceId(s.cq[i].namespace, s.cq[i].name)) in s.owner)
    && (forall i :: 0 <= i < |s.mq| && s.mq[i].ActivatedServiceUser? ==>
          (s.mq[i].user.id, Naming.ServiceId(s.mq[i].namespace, s.mq[i].name)) in s.owner)
  }

  predicate Owned(s: State) {
    && Functional(s.owner) && (forall p :: p in s.owner ==> p.0 in s.used)
    && Filed(s) && SpareUsers(s) && Addressed(s) && WakesFirst(s)
  }

  lemma {:induction false} RestoreKeyed(m: Manager, xs: seq<ServiceIdentity>)
    requires forall k :: k in m.services ==> m.services[k].ServiceId() == k
    ensures var r := Restore(m, xs);
            && (forall k :: k in r.services ==> r.services[k].ServiceId() == k)
            && r == m.(services := r.services)
  {
    if xs != [] {
      RestoreKeyed(m, xs[..|xs| - 1]);
    }
  }

  lemma InitOwned(c: Config)
    requires CleanStart(c)
    ensures Owned(Init(c))
  {
    RestoreKeyed(Manager(c.cluster, [], map[], {}, map[], {}, {}, false, 0), c.restored);
    var s := Init(c);
    assert Supply(s) == Collect(c.plan, PlannedSpare);
    forall u | u in Supply(s) ensures u.id in s.used {
      CollectMember(c.plan, PlannedSpare, u);
      var i :| 0 <= i < |c.plan| && PlannedSpare(c.plan[i]) == Some(u);
      assert c.plan[i] in c.plan;
    }
  }

  lemma PopOwned(s: State)
    requires Owned(s) && s.mq != [] && FoundSpare(s.mq[0]).None?
    ensures Owned(Pop(s))
  {
  }

  lemma PushOwned(s: State, msg: ManagerMsg)
    requires Owned(s) && FoundSpare(msg).None? && !msg.ActivatedServiceUser?
    ensures Owned(Push(s, msg))
  {
    SupplyPush(s, msg);
  }

  lemma QuietOwned(s: State, e: Effect)
    requires Owned(s) && Quiet(s.m, e)
    ensures Owned(Absorb(s, e))
  {
    QuietSupply(s, e);
    var s' := Absorb(s, e);
    assert forall i :: |s.cq| <= i < |s'.cq| ==> s'.cq[i] == e.toCreator[i - |s.cq|] && s'.cq[i] in e.toCreator;
    assert forall i :: |s.mq| <= i < |s'.mq| ==> s'.mq[i] == e.toSelf[i - |s.mq|] && s'.mq[i] in e.toSelf;
  }

  /** A user that leaves the supply becomes the property of the service it is granted to. */
  lemma RequestOwned(s: State, c: ServiceCandidate, api: Api)
    requires Owned(s) && Honest(api)
    ensures Owned(Absorb(s, Request(s.m, c, api)))
  {
    var e := Request(s.m, c, api);
    if e.granted == [] {
      assert e == Silent(s.m);
      QuietOwned(s, e);
    } else {
      GrantOwned(s, e, c, s.m.pool[0]);
    }
  }

  lemma GrantOwned(s: State, e: Effect, c: ServiceCandidate, u: ServiceUser)
    requires Owned(s) && s.m.pool != [] && u == s.m.pool[0] && c.namespace.Some?
    requires var id := c.ServiceId().value;
             && e.granted == [Assignment(id, u)] && e.toSelf == []
             && e.manager == s.m.(pool := s.m.pool[1..], services := s.m.services[id := NewIdentity(c, u)])
    requires forall msg :: msg in e.toCreator && msg.ActivateServiceUser? ==>
      msg.user == u && Some(msg.namespace) == c.namespace && msg.name == c.name
    ensures Owned(Absorb(s, e))
  {
    var id := c.ServiceId().value;
    var s' := Absorb(s, e);
    SupplyAbsorb(s, e, 1);
    assert s'.owner == s.owner + {(u.id, id)} by {
      assert (set a | a in e.granted :: (a.user.id, a.service)) == {(u.id, id)};
    }
    assert Supply(s)[0] == u;
    assert u in Supply(s);
    GrantSpares(s, s', u, id);
  }

  /** The first of the supply gets an owner; the others stay spare. */
  lemma GrantSpares(s: State, s': State, u: ServiceUser, id: string)
    requires SpareUsers(s) && Supply(s) != [] && u == Supply(s)[0]
    requires Supply(s') == Supply(s)[1..] && s'.owner == s.owner + {(u.id, id)} && s'.used == s.used
    ensures SpareUsers(s')
  {
  }

  lemma ActivatedOwned(s: State, u: ServiceUser, namespace: string, name: string)
    requires Owned(s) && (u.id, Naming.ServiceId(namespace, name)) in s.owner
    ensures Owned(Absorb(s, Silent(Activated(s.m, u, namespace, name))))
  {
    var e := Silent(Activated(s.m, u, namespace, name));
    SupplyAbsorb(s, e, 0);
    assert s.owner + (set a | a in e.granted :: (a.user.id, a.service)) == s.owner;
    var id := Naming.ServiceId(namespace, name);
    if id in s.m.services {
      assert s.m.services[id].(user := u).ServiceId() == id;
    }
  }

  lemma ArrivesOwned(s: State)
    requires Owned(s) && s.mq != [] && FoundSpare(s.mq[0]).Some?
    ensures Owned(Absorb(Pop(s), Silent(FoundUser(s.m, s.mq[0].user, false))))
  {
    SupplyArrives(s);
    var e := Silent(FoundUser(s.m, s.mq[0].user, false));
    assert s.owner + (set a | a in e.granted :: (a.user.id, a.service)) == s.owner;
  }

  lemma ReceiveOwned(s: State, api: Api, sched: Schedule)
    requires Owned(s) && Enabled(s, ManagerReceive(api, sched))
    ensures Owned(Receive(s, api, sched))
  {
    var msg := s.mq[0];
    if FoundSpare(msg).Some? {
      ArrivesOwned(s);
    } else {
      PopOwned(s);
      if msg.ActivatedServiceUser? {
        ActivatedOwned(Pop(s), msg.user, msg.namespace, msg.name);
      } else if msg.RequestServiceIdentity? {
        RequestOwned(Pop(s), msg.candidate, api);
      } else if msg.IdentityManagerReady? {
        SameSupply(Pop(s), Receive(s, api, sched));
      } else {
        HandleQuiet(s.m, msg, api);
        QuietOwned(Pop(s), Handle(s.m, msg, api));
      }
    }
  }

  lemma SameSupply(s: State, s': State)
    requires Owned(s)
    requires s' == s.(work := s'.work, begun := s'.begun, released := s'.released, watchers := s'.watchers)
    ensures Owned(s')
  {
  }

  lemma WorkOwned(s: State, api: Api, sched: Schedule)
    requires Owned(s) && Enabled(s, ManagerWork(api, sched))
    ensures Owned(DoWork(s, api, sched))
  {
    var (e, work) := WorkStep(s.m, s.work, sched, api);
    if s.work.RequestingMissing? && s.work.candidates != [] {
      RequestOwned(s, s.work.candidates[0], api);
    } else {
      WorkQuiet(s.m, s.work, sched, api);
      QuietOwned(s, e);
    }
    SameSupply(Absorb(s, e), DoWork(s, api, sched));
  }

  lemma PopCreatorOwned(s: State, s': State)
    requires Owned(s) && s.cq != [] && s' == PopCreator(s).(creator := s'.creator)
    requires Supply(s') == Supply(s) && WakesFirst(s')
    ensures Owned(s')
  {
  }

  lemma CreatedOwned(s: State, s': State, u: ServiceUser)
    requires Owned(s) && u.id !in s.used
    requires s' == Push(s, FoundServiceUser(u, false)).(used := s.used + {u.id})
    requires Supply(s') == Supply(s) + [u]
    ensures Owned(s')
  {
  }

  lemma ConfirmedOwned(s: State, u: ServiceUser, namespace: string, name: string)
    requires Owned(s) && (u.id, Naming.ServiceId(namespace, name)) in s.owner
    ensures Owned(Push(s, ActivatedServiceUser(u, namespace, name)))
  {
    SupplyPush(s, ActivatedServiceUser(u, namespace, name));
  }

  lemma ServeOwned(s: State, ok: bool, newId: string, password: string, url: string, suffix: string)
    requires Owned(s) && Enabled(s, CreatorReceive(ok, newId, password, url, suffix))
    ensures Owned(Serve(s, ok, newId, password, url, suffix))
  {
    SupplyServe(s, ok, newId, password, url, suffix);
    var s1, s' := PopCreator(s), Serve(s, ok, newId, password, url, suffix);
    var msg := s.cq[0];
    if s.creator.Running? && msg.CreateIdentity? && ok {
      assert Supply(s1) == Supply(s);
      PopCreatorOwned(s, s1);
      CreatedOwned(s1, s', NewUser(newId, password, url));
    } else if s.creator.Running? && msg.ActivateServiceUser? {
      assert Supply(s1) == Supply(s);
      PopCreatorOwned(s, s1);
      ConfirmedOwned(s1, s'.mq[|s.mq|].user, msg.namespace, msg.name);
    } else {
      PopCreatorOwned(s, s');
    }
  }

  lemma AnnounceOwned(s: State)
    requires Owned(s) && s.creator.Announcing?
    ensures Owned(Announce(s))
  {
    SupplyAnnounce(s);
  }

  lemma StepOwned(s: State, e: Event)
    requires Owned(s) && Enabled(s, e)
    ensures Owned(Next(s, e))
  {
    match e
    case ManagerReceive(api, sched) => ReceiveOwned(s, api, sched);
    case ManagerWork(api, sched) => WorkOwned(s, api, sched);
    case CreatorReceive(ok, newId, password, url, suffix) => ServeOwned(s, ok, newId, password, url, suffix);
    case CreatorAnnounce => AnnounceOwned(s);
    case WatcherList(w) =>
      var cs := s.watchers[w].candidates;
      PushOwned(s, if cs == [] then DeploymentWatcherReady else FoundServiceCandidate(cs[0]));
      SameSupply(Push(s, if cs == [] then DeploymentWatcherReady else FoundServiceCandidate(cs[0])), Next(s, e));
    case WatcherRelease(w) => SameSupply(s, Next(s, e));
    case WatcherSend(_, msg) => PushOwned(s, msg);
    case PodEnd(namespace, name, uuid) => PushOwned(s, ReleaseDeviceId(namespace, name, uuid));
  }

  lemma {:induction false} RunOwned(s: State, es: seq<Event>)
    requires Owned(s) && Runs(s, es)
    ensures Owned(After(s, es))
    decreases es
  {
    if es != [] {
      StepOwned(s, es[0]);
      RunOwned(Next(s, es[0]), es[1..]);
    }
  }

  /** No user is in two places. */
  predicate Unshared(m: Manager) {
    && DistinctIds(m.pool)
    && (forall k, l :: k in m.services && l in m.services && k != l ==> m.services[k].user.id != m.services[l].user.id)
    && (forall u, k :: u in m.pool && k in m.services ==> u.id != m.services[k].user.id)
  }

  /** In every reachable state the users in the pool and in the services map are pairwise
      distinct, and every identity is filed under its own service id. */
  lemma UsersAreNeverShared(c: Config, es: seq<Event>)
    requires CleanStart(c) && Runs(Init(c), es)
    ensures Unshared(After(Init(c), es).m)
    ensures forall k :: k in After(Init(c), es).m.services ==> After(Init(c), es).m.services[k].ServiceId() == k
  {
    InitOwned(c);
    RunOwned(Init(c), es);
    OwnersDiffer(After(Init(c), es));
  }

  lemma OwnersDiffer(s: State)
    requires Functional(s.owner) && Filed(s) && SpareUsers(s)
    ensures Unshared(s.m)
  {
    assert s.m.pool == Supply(s)[..|s.m.pool|];
    assert forall u :: u in s.m.pool ==> u in Supply(s);
    forall k, l | k in s.m.services && l in s.m.services && k != l
      ensures s.m.services[k].user.id != s.m.services[l].user.id
    {
      assert (s.m.services[k].user.id, k) in s.owner && (s.m.services[l].user.id, l) in s.owner;
    }
  }
}
