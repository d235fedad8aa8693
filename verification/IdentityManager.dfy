/** The identity manager as the program keeps it: fields changed in place by the message
    handlers. Each handler is proved against its function in ManagerModel, and the loops of
    the reconciliation against the composed handler. */
module IdentityManagers {
  import opened Collections
  import opened Identities
  import opened ManagerModel
  import opened Reconciliation
  import opened Uuids
  import Naming

  class IdentityManager {
    const cluster: string
    var pool: seq<ServiceUser>
    var services: map<string, ServiceIdentity>
    var existing: set<string>
    var missing: map<string, ServiceCandidate>
    var activated: set<string>
    var deactivated: set<string>
    var creatorReady: bool
    var watchersReady: nat
    // Everything sent so far, in order.
    var toCreator: seq<CreatorMsg>
    var toSelf: seq<ManagerMsg>
    // Whether the watchers have been told to go on.
    var released: bool
    ghost var granted: seq<Assignment>
    ghost var deletes: seq<string>

    ghost function View(): Manager
      reads this
    {
      Manager(cluster, pool, services, existing, missing, activated, deactivated, creatorReady, watchersReady)
    }

    /** The whole history of the object as one effect. */
    ghost function Log(): Effect
      reads this
    {
      Effect(View(), toCreator, toSelf, granted, deletes)
    }

    constructor (cluster: string)
      ensures Log() == Silent(Manager(cluster, [], map[], {}, map[], {}, {}, false, 0)) && !released
    {
      this.cluster := cluster;
      pool, services, existing, missing := [], map[], {}, map[];
      activated, deactivated, creatorReady, watchersReady := {}, {}, false, 0;
      toCreator, toSelf, granted, deletes := [], [], [], [];
      released := false;
    }

    method RegisterOrUpdate(i: ServiceIdentity)
      modifies this`services
      ensures View() == Register(old(View()), i)
    {
      services := services[i.ServiceId() := i];
    }

    method Initialize(xs: seq<ServiceIdentity>)
      modifies this`services, this`toCreator
      ensures Log() == old(Log()).Then(Send(Restore(old(View()), xs), [StartService]))
    {
      ghost var start := View();
      for n := 0 to |xs|
        invariant View() == Restore(start, xs[..n])
        invariant toCreator == old(toCreator)
      {
        RegisterOrUpdate(xs[n]);
        assert xs[..n + 1][..n] == xs[..n];
      }
      assert xs[..|xs|] == xs;
      toCreator := toCreator + [StartService];
    }

    method DeleteIdentity(i: ServiceIdentity, api: Api)
      modifies this`services, this`toCreator, this`deletes
      ensures Log() == old(Log()).Then(Delete(old(View()), i, api))
    {
      deletes := deletes + [i.ServiceId()];
      if i.ServiceId() !in api.failedDeletes {
        toCreator := toCreator + [DeleteServiceUser(i.user, i.namespace, i.name)];
        services := services - {i.ServiceId()};
      }
    }

    /** Known service, new identity from the pool, or nothing when the pool is empty. */
    method NextIdentity(c: ServiceCandidate) returns (r: Option<ServiceIdentity>, isNew: bool)
      requires c.namespace.Some?
      modifies this`pool, this`services, this`granted
      ensures var id := c.ServiceId().value;
              if id in old(services) then
                r == Some(old(services)[id]) && !isNew && Log() == old(Log())
              else if old(pool) == [] then
                r == None && !isNew && Log() == old(Log())
              else
                && r == Some(NewIdentity(c, old(pool)[0])) && isNew
                && View() == Register(old(View()).(pool := old(pool)[1..]), r.value)
                && granted == old(granted) + [Assignment(id, old(pool)[0])]
    {
      var id := c.ServiceId().value;
      if id in services {
        return Some(services[id]), false;
      } else if pool == [] {
        return None, false;
      } else {
        var user := pool[0];
        pool := pool[1..];
        granted := granted + [Assignment(id, user)];
        r, isNew := Some(NewIdentity(c, user)), true;
        RegisterOrUpdate(r.value);
      }
    }

    method RequestIdentity(c: ServiceCandidate, api: Api)
      modifies this`pool, this`services, this`granted, this`toCreator
      ensures Log() == old(Log()).Then(Request(old(View()), c, api))
    {
      if c.namespace.Some? {
        var next, isNew := NextIdentity(c);
        if isNew {
          var outcome := api.Create(c.ServiceId().value);
          if !outcome.CreateFailed? {
            var stored := if outcome.FoundExisting? then outcome.identity else next.value;
            if |pool| < POOL_LOW_MARK {
              toCreator := toCreator + [CreateIdentity];
            }
            toCreator := toCreator +
              [ActivateServiceUser(stored.user, cluster, stored.namespace, stored.name, c.labels)];
          }
        }
      }
    }

    method FoundServiceCandidate(c: ServiceCandidate)
      modifies this`existing, this`missing
      ensures Log() == old(Log()).Then(Silent(FoundCandidate(old(View()), c)))
    {
      if c.namespace.Some? {
        var id := c.ServiceId().value;
        if id in services {
          existing := existing + {id};
        } else {
          missing := missing[id := c];
        }
      }
    }

    method FoundServiceUser(u: ServiceUser, isActivated: bool)
      modifies this`pool, this`activated, this`deactivated
      ensures Log() == old(Log()).Then(Silent(FoundUser(old(View()), u, isActivated)))
    {
      if !isActivated {
        deactivated := deactivated + {u.id};
        pool := pool + [u];
      } else {
        activated := activated + {u.id};
      }
    }

    method ActivatedServiceUser(u: ServiceUser, namespace: string, name: string)
      modifies this`services
      ensures Log() == old(Log()).Then(Silent(Activated(old(View()), u, namespace, name)))
    {
      var id := Naming.ServiceId(namespace, name);
      if id in services {
        RegisterOrUpdate(services[id].(user := u));
      }
    }

    method IdentityCreatorIsReady()
      modifies this`creatorReady, this`toSelf
      ensures Log() == old(Log()).Then(CreatorReady(old(View())))
    {
      creatorReady := true;
      if watchersReady == N_WATCHERS {
        toSelf := toSelf + [IdentityManagerReady];
      }
    }

    method DeploymentWatcherIsReady()
      modifies this`watchersReady, this`toSelf
      ensures Log() == old(Log()).Then(WatcherReady(old(View())))
    {
      watchersReady := watchersReady + 1;
      if watchersReady == N_WATCHERS && creatorReady {
        toSelf := toSelf + [IdentityManagerReady];
      }
    }

    method DeletedServiceCandidate(c: ServiceCandidate)
      modifies this`toSelf
      ensures Log() == old(Log()).Then(DeletedCandidate(old(View()), c))
    {
      if c.namespace.Some? && c.ServiceId().value in services {
        toSelf := toSelf + [DeleteServiceIdentity(services[c.ServiceId().value])];
      }
    }

    method ReleaseDevice(namespace: string, name: string, uuid: Uuid, api: Api)
      modifies this`services, this`toCreator
      ensures Log() == old(Log()).Then(Release(old(View()), namespace, name, uuid, api))
    {
      var id := Naming.ServiceId(namespace, name);
      if id in services {
        var u := AddDeviceId(services[id].user, uuid);
        services := services[id := services[id].(user := u)];
        if api.updateOk {
          toCreator := toCreator + [UnregisterDeviceId(u, uuid)];
        }
      }
    }

    /** First loop: identities without a known candidate. */
    method DeleteExtra(xs: seq<ServiceIdentity>, api: Api) returns (removed: set<string>)
      modifies this`services, this`toCreator, this`deletes
      ensures Log() == old(Log()).Then(DeleteAll(old(View()), xs, api))
      ensures removed == ServiceIds(xs)
    {
      removed := {};
      ghost var total := Log().Then(DeleteAll(View(), xs, api));
      for n := 0 to |xs|
        invariant Log().Then(DeleteAll(View(), xs[n..], api)) == total
        invariant removed == ServiceIds(xs[..n])
      {
        DeleteFirst(Log(), View(), xs, n, api);
        DeleteIdentity(xs[n], api);
        removed := removed + {xs[n].ServiceId()};
        OneMoreId(xs, n);
      }
      assert xs[..|xs|] == xs;
    }

    /** Second loop: activated users nobody holds. */
    method DeleteOrphanUsers(ids: seq<string>)
      modifies this`toCreator
      ensures Log() == old(Log()).Then(DeleteUsers(old(View()), ids))
    {
      for n := 0 to |ids|
        invariant toCreator == old(toCreator) + DeleteUserMessages(ids[..n])
      {
        toCreator := toCreator + [DeleteSDPUser(ids[n])];
        assert DeleteUserMessages(ids[..n + 1]) == DeleteUserMessages(ids[..n]) + [DeleteSDPUser(ids[n])];
      }
      assert ids[..|ids|] == ids;
    }

    /** Third loop: identities holding deactivated users. */
    method DeleteOrphans(xs: seq<ServiceIdentity>, removed: set<string>, api: Api)
      modifies this`services, this`toCreator, this`deletes
      ensures Log() == old(Log()).Then(SweepOrphans(old(View()), xs, removed, api))
    {
      var done := removed;
      ghost var total := Log().Then(SweepOrphans(View(), xs, removed, api));
      for n := 0 to |xs|
        invariant Log().Then(SweepOrphans(View(), xs[n..], done, api)) == total
      {
        assert xs[n..][0] == xs[n] && xs[n..][1..] == xs[n + 1..];
        if xs[n].ServiceId() !in done {
          ghost var before := Log();
          ghost var step := Delete(View(), xs[n], api);
          ThenAssociative(before, step, SweepOrphans(step.manager, xs[n + 1..], done + {xs[n].ServiceId()}, api));
          DeleteIdentity(xs[n], api);
          done := done + {xs[n].ServiceId()};
        }
      }
    }

    /** Last loop: candidates without an identity. */
    method RequestMissing(cs: seq<ServiceCandidate>, api: Api)
      modifies this`pool, this`services, this`granted, this`toCreator
      ensures Log() == old(Log()).Then(RequestAll(old(View()), cs, api))
    {
      ghost var total := Log().Then(RequestAll(View(), cs, api));
      for n := 0 to |cs|
        invariant Log().Then(RequestAll(View(), cs[n..], api)) == total
      {
        RequestFirst(Log(), View(), cs, n, api);
        RequestIdentity(cs[n], api);
      }
    }

    /** The three deletion loops in sequence. */
    method Prune(api: Api) returns (ghost sched: Schedule)
      modifies this`services, this`toCreator, this`deletes
      ensures CanPrune(old(View()), sched, api)
      ensures Log() == old(Log()).Then(DeletionLoops(old(View()), sched, api))
    {
      ghost var start, m := Log(), View();
      var extra := Visit(set k | k in services && services[k].ServiceId() !in existing);
      assert Enumerates(extra, ExtraIdentities(m));
      var removed := DeleteExtra(Pick(services, extra), api);
      ghost var e1 := DeleteAll(m, Pick(m.services, extra), api);
      assert View() == e1.manager;
      var users := Visit(activated - set k | k in services :: services[k].user.id);
      var orphans := Visit(set k | k in services && services[k].user.id in deactivated);
      assert Enumerates(users, OrphanUsers(e1.manager)) && Enumerates(orphans, OrphanIdentities(e1.manager));
      DeleteOrphanUsers(users);
      assert View() == e1.manager;
      ghost var e2 := DeleteUsers(e1.manager, users);
      ghost var e3 := SweepOrphans(e1.manager, Pick(services, orphans), removed, api);
      DeleteOrphans(Pick(services, orphans), removed, api);
      sched := Schedule(extra, users, orphans, []);
      ThenThree(start, e1, e2, e3);
    }

    /** The names of the users in use, for the release of their device ids. */
    method AnnounceUserNames()
      modifies this`toCreator
      ensures Log() == old(Log()).Then(Send(old(View()), [ReconcileSDPUsers(UserNames(old(View())))]))
    {
      toCreator := toCreator + [ReconcileSDPUsers(set k | k in services :: services[k].user.name)];
    }

    /** The handler of IdentityManagerReady, which ends by releasing the watchers; `sched`
        records the orders in which the collections happened to be visited. */
    method Reconciled(api: Api) returns (ghost sched: Schedule)
      modifies this`pool, this`services, this`granted, this`toCreator, this`deletes, this`released
      ensures ValidSchedule(old(View()), sched, api)
      ensures Log() == old(Log()).Then(Reconcile(old(View()), sched, api)) && released
    {
      ghost var start, m := Log(), View();
      sched := Prune(api);
      ghost var e1 := DeletionLoops(m, sched, api);
      ghost var e2 := Send(e1.manager, [ReconcileSDPUsers(UserNames(e1.manager))]);
      AnnounceUserNames();
      var candidates := Visit(missing.Keys);
      ghost var e3 := RequestAll(e1.manager, Pick(m.missing, candidates), api);
      RequestMissing(Pick(missing, candidates), api);
      sched := sched.(missing := candidates);
      ThenThree(start, e1, e2, e3);
      released := true;
    }

    /** The message loop. */
    method Receive(msg: ManagerMsg, api: Api) returns (ghost sched: Schedule)
      modifies this
      ensures msg.IdentityManagerReady? ==>
                && ValidSchedule(old(View()), sched, api)
                && Log() == old(Log()).Then(Reconcile(old(View()), sched, api))
      ensures !msg.IdentityManagerReady? ==> Log() == old(Log()).Then(Handle(old(View()), msg, api))
      ensures released == (old(released) || msg.IdentityManagerReady?)
    {
      sched := Schedule([], [], [], []);
      match msg
      case DeleteServiceIdentity(i) => DeleteIdentity(i, api);
      case RequestServiceIdentity(c) => RequestIdentity(c, api);
      case FoundServiceCandidate(c) => FoundServiceCandidate(c);
      case FoundServiceUser(u, isActivated) => FoundServiceUser(u, isActivated);
      case ActivatedServiceUser(u, namespace, name) => ActivatedServiceUser(u, namespace, name);
      case IdentityCreatorReady => IdentityCreatorIsReady();
      case DeploymentWatcherReady => DeploymentWatcherIsReady();
      case IdentityManagerReady => sched := Reconciled(api);
      case DeletedServiceCandidate(c) => DeletedServiceCandidate(c);
      case ReleaseDeviceId(namespace, name, uuid) => ReleaseDevice(namespace, name, uuid, api);
    }
  }

  lemma OneMoreId(xs: seq<ServiceIdentity>, n: nat)
    requires n < |xs|
    ensures ServiceIds(xs[..n + 1]) == ServiceIds(xs[..n]) + {xs[n].ServiceId()}
  {
  }

  lemma DeleteFirst(log: Effect, m: Manager, xs: seq<ServiceIdentity>, n: nat, api: Api)
    requires n < |xs|
    ensures var step := Delete(m, xs[n], api);
            log.Then(DeleteAll(m, xs[n..], api)) == log.Then(step).Then(DeleteAll(step.manager, xs[n + 1..], api))
  {
    assert xs[n..][0] == xs[n] && xs[n..][1..] == xs[n + 1..];
    var step := Delete(m, xs[n], api);
    ThenAssociative(log, step, DeleteAll(step.manager, xs[n + 1..], api));
  }

  lemma RequestFirst(log: Effect, m: Manager, cs: seq<ServiceCandidate>, n: nat, api: Api)
    requires n < |cs|
    ensures var step := Request(m, cs[n], api);
            log.Then(RequestAll(m, cs[n..], api)) == log.Then(step).Then(RequestAll(step.manager, cs[n + 1..], api))
  {
    assert cs[n..][0] == cs[n] && cs[n..][1..] == cs[n + 1..];
    var step := Request(m, cs[n], api);
    ThenAssociative(log, step, RequestAll(step.manager, cs[n + 1..], api));
  }

  lemma ThenThree(log: Effect, a: Effect, b: Effect, c: Effect)
    ensures log.Then(a).Then(b).Then(c) == log.Then(a.Then(b).Then(c))
  {
  }
}
