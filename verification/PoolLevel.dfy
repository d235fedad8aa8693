/** The pool refills itself: users in the pool, under way to it and asked for never number
    more than before, and in a failure-free run never fewer than ten. */
module PoolLevel {
  import opened Collections
  import opened Identities
  import opened ManagerModel
  import opened IdentitySystem
  import opened Ownership
  import Naming

  /** Unassigned users, counting those the creator has been asked to create. */
  function Level(s: State): nat {
    |Supply(s)| + Refills(s)
  }

  /** No creation of an identity or of a user is refused. */
  predicate FailureFree(e: Event) {
    match e
    case ManagerReceive(api, _) => AllCreated(api)
    case ManagerWork(api, _) => AllCreated(api)
    case CreatorReceive(ok, _, _, _, _) => ok
    case _ => true
  }

  predicate Steady(s: State) {
    FiledByKey(s.m) && WakesFirst(s)
  }

  /** From a level to the next: never up, and never below ten unless something failed. */
  predicate Holds(s: State, s': State, failureFree: bool) {
    && Steady(s')
    && Level(s') <= Level(s)
    && (failureFree && Level(s) >= POOL_LOW_MARK ==> Level(s') >= POOL_LOW_MARK)
  }

  lemma QuietLevel(s: State, e: Effect)
    requires Steady(s) && Quiet(s.m, e)
    ensures Level(Absorb(s, e)) == Level(s) && Steady(Absorb(s, e))
  {
    QuietSupply(s, e);
  }

  /** A grant that leaves fewer than ten users asks for one more. */
  lemma RequestLevel(s: State, c: ServiceCandidate, api: Api)
    requires Steady(s) && Honest(api)
    ensures Holds(s, Absorb(s, Request(s.m, c, api)), AllCreated(api))
  {
    var e := Request(s.m, c, api);
    if e.granted == [] {
      assert e == Silent(s.m);
      QuietLevel(s, e);
    } else {
      SupplyAbsorb(s, e, 1);
      var s' := Absorb(s, e);
      assert |Supply(s)| >= |s.m.pool| && |Supply(s')| >= |s'.m.pool|;
      RefillsSent(e.manager, c, NewIdentity(c, s.m.pool[0]));
      assert Collect([], Refill) == [];
    }
  }

  lemma RefillsSent(m: Manager, c: ServiceCandidate, i: ServiceIdentity)
    ensures |Collect(Onboard(m, c, i), Refill)| == if |m.pool| < POOL_LOW_MARK then 1 else 0
  {
    var activate := ActivateServiceUser(i.user, m.cluster, i.namespace, i.name, c.labels);
    CollectConcat(if |m.pool| < POOL_LOW_MARK then [CreateIdentity] else [], [activate], Refill);
    assert Collect([activate], Refill) == [] && |Collect([CreateIdentity], Refill)| == 1;
  }

  lemma ArrivesLevel(s: State)
    requires Steady(s) && s.mq != [] && FoundSpare(s.mq[0]).Some?
    ensures var s' := Absorb(Pop(s), Silent(FoundUser(s.m, s.mq[0].user, false)));
            Steady(s') && Level(s') == Level(s)
  {
    SupplyArrives(s);
    assert s.cq + [] == s.cq;
  }

  lemma ActivatedLevel(s: State, u: ServiceUser, namespace: string, name: string)
    requires Steady(s)
    ensures var s' := Absorb(s, Silent(Activated(s.m, u, namespace, name)));
            Steady(s') && Level(s') == Level(s)
  {
    SupplyAbsorb(s, Silent(Activated(s.m, u, namespace, name)), 0);
    var id := Naming.ServiceId(namespace, name);
    if id in s.m.services {
      assert s.m.services[id].(user := u).ServiceId() == id;
    }
  }

  lemma ReceiveLevel(s: State, api: Api, sched: Schedule)
    requires Steady(s) && Enabled(s, ManagerReceive(api, sched))
    ensures Holds(s, Receive(s, api, sched), AllCreated(api))
  {
    var msg := s.mq[0];
    if FoundSpare(msg).Some? {
      ArrivesLevel(s);
    } else {
      SupplyPop(s);
      if msg.ActivatedServiceUser? {
        ActivatedLevel(Pop(s), msg.user, msg.namespace, msg.name);
      } else if msg.RequestServiceIdentity? {
        RequestLevel(Pop(s), msg.candidate, api);
      } else if !msg.IdentityManagerReady? {
        HandleQuiet(s.m, msg, api);
        QuietLevel(Pop(s), Handle(s.m, msg, api));
      }
    }
  }

  lemma WorkLevel(s: State, api: Api, sched: Schedule)
    requires Steady(s) && Enabled(s, ManagerWork(api, sched))
    ensures Holds(s, DoWork(s, api, sched), AllCreated(api))
  {
    var (e, work) := WorkStep(s.m, s.work, sched, api);
    if s.work.RequestingMissing? && s.work.candidates != [] {
      RequestLevel(s, s.work.candidates[0], api);
    } else {
      WorkQuiet(s.m, s.work, sched, api);
      QuietLevel(s, e);
    }
  }

  lemma StepLevel(s: State, e: Event)
    requires Steady(s) && Enabled(s, e)
    ensures Holds(s, Next(s, e), FailureFree(e))
  {
    match e
    case ManagerReceive(api, sched) => ReceiveLevel(s, api, sched);
    case ManagerWork(api, sched) => WorkLevel(s, api, sched);
    case CreatorReceive(ok, newId, password, url, suffix) => SupplyServe(s, ok, newId, password, url, suffix);
    case CreatorAnnounce => SupplyAnnounce(s);
    case WatcherList(w) =>
      var cs := s.watchers[w].candidates;
      SupplyPush(s, if cs == [] then DeploymentWatcherReady else FoundServiceCandidate(cs[0]));
    case WatcherRelease(w) =>
    case WatcherSend(_, msg) => SupplyPush(s, msg);
    case PodEnd(namespace, name, uuid) => SupplyPush(s, ReleaseDeviceId(namespace, name, uuid));
  }

  lemma {:induction false} RunLevel(s: State, es: seq<Event>)
    requires Steady(s) && Runs(s, es)
    ensures Holds(s, After(s, es), forall e :: e in es ==> FailureFree(e))
    decreases es
  {
    if es != [] {
      StepLevel(s, es[0]);
      RunLevel(Next(s, es[0]), es[1..]);
      if forall e :: e in es ==> FailureFree(e) {
        assert FailureFree(es[0]);
        assert forall e :: e in es[1..] ==> e in es;
      }
    }
  }

  lemma InitSteady(c: Config)
    ensures Steady(Init(c)) && Level(Init(c)) == |Collect(c.plan, PlannedSpare)|
  {
    RestoreKeyed(Manager(c.cluster, [], map[], {}, map[], {}, {}, false, 0), c.restored);
    assert Collect([StartService], Refill) == [];
  }

  /** Over every run the level only falls; if the creator plans at least ten unassigned users
      and nothing fails, it stays at ten or more. Then a pool with nothing under way holds
      ten users, and a request finds the pool empty only while ten are under way. */
  lemma PoolStaysFilled(c: Config, es: seq<Event>)
    requires Runs(Init(c), es)
    ensures Level(After(Init(c), es)) <= |Collect(c.plan, PlannedSpare)|
    ensures |Collect(c.plan, PlannedSpare)| >= POOL_LOW_MARK && (forall e :: e in es ==> FailureFree(e)) ==>
              var s := After(Init(c), es);
              && Level(s) >= POOL_LOW_MARK
              && (s.creator.Running? && s.mq == [] && s.cq == [] ==> |s.m.pool| >= POOL_LOW_MARK)
              && (s.m.pool == [] ==>
                    Refills(s) + |Collect(s.mq, FoundSpare)| + |Collect(s.creator.Pending(), PlannedSpare)| >= POOL_LOW_MARK)
  {
    InitSteady(c);
    RunLevel(Init(c), es);
  }
}
