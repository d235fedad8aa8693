/** Activations converge, and address the right user: a service that was granted users
    during a run ends up, once the queues are empty, with the one granted last. */
module Activation {
  import opened Collections
  import opened Identities
  import opened ManagerModel
  import opened IdentitySystem
  import opened PoolLevel
  import Naming

  function ConfirmedFor(k: string): ManagerMsg -> Option<string> {
    (msg: ManagerMsg) =>
      if msg.ActivatedServiceUser? && Naming.ServiceId(msg.namespace, msg.name) == k then Some(msg.user.id) else None
  }

  function ActivationFor(k: string): CreatorMsg -> Option<string> {
    (msg: CreatorMsg) =>
      if msg.ActivateServiceUser? && Naming.ServiceId(msg.namespace, msg.name) == k then Some(msg.user.id) else None
  }

  /** Users on their way to service `k`, from the one confirmed next to the one granted last:
      confirmations waiting for the manager, then activations waiting for the creator. */
  function Pipeline(s: State, k: string): seq<string> {
    Collect(s.mq, ConfirmedFor(k)) + Collect(s.cq, ActivationFor(k))
  }

  /** The end of the line is the user granted last. */
  predicate Settles(s: State, k: string) {
    k in s.latest ==>
      var p := Pipeline(s, k);
      if p == [] then k in s.m.services ==> s.m.services[k].user.id == s.latest[k]
      else p[|p| - 1] == s.latest[k]
  }

  ghost predicate Converging(s: State) {
    FiledByKey(s.m) && WakesFirst(s) && forall k :: Settles(s, k)
  }

  /** Nothing of what a quiet handler sends is an activation. */
  lemma QuietPipeline(s: State, e: Effect, k: string)
    requires Quiet(s.m, e)
    ensures Pipeline(Absorb(s, e), k) == Pipeline(s, k)
  {
    CollectConcat(s.mq, e.toSelf, ConfirmedFor(k));
    CollectConcat(s.cq, e.toCreator, ActivationFor(k));
    CollectNone(e.toSelf, ConfirmedFor(k));
    CollectNone(e.toCreator, ActivationFor(k));
  }

  lemma QuietConverging(s: State, e: Effect)
    requires Converging(s) && Quiet(s.m, e)
    ensures Converging(Absorb(s, e))
  {
    QuietSupply(s, e);
    forall k ensures Settles(Absorb(s, e), k) {
      QuietPipeline(s, e, k);
      assert Settles(s, k);
    }
  }

  lemma PopConverging(s: State)
    requires Converging(s) && s.mq != [] && !s.mq[0].ActivatedServiceUser?
    ensures Converging(Pop(s))
  {
    forall k ensures Settles(Pop(s), k) {
      assert Pipeline(Pop(s), k) == Pipeline(s, k);
      assert Settles(s, k);
    }
  }

  lemma PushConverging(s: State, msg: ManagerMsg)
    requires Converging(s) && !msg.ActivatedServiceUser?
    ensures Converging(Push(s, msg))
  {
    forall k ensures Settles(Push(s, msg), k) {
      CollectAppend(s.mq, msg, ConfirmedFor(k));
      assert Settles(s, k);
    }
  }

  lemma {:induction false} OnboardPipeline(m: Manager, c: ServiceCandidate, i: ServiceIdentity, k: string)
    ensures Collect(Onboard(m, c, i), ActivationFor(k)) == if i.ServiceId() == k then [i.user.id] else []
  {
    var activate := ActivateServiceUser(i.user, m.cluster, i.namespace, i.name, c.labels);
    var refill := if |m.pool| < POOL_LOW_MARK then [CreateIdentity] else [];
    CollectConcat(refill, [activate], ActivationFor(k));
    CollectNone(refill, ActivationFor(k));
    assert Collect([activate], ActivationFor(k)) == if i.ServiceId() == k then [i.user.id] else [];
  }

  /** A granted user enters at the end of the line of its service. */
  lemma RequestConverging(s: State, c: ServiceCandidate, api: Api)
    requires Converging(s) && Honest(api) && AllCreated(api)
    ensures Converging(Absorb(s, Request(s.m, c, api)))
  {
    var e := Request(s.m, c, api);
    if e.granted == [] {
      assert e == Silent(s.m);
      QuietConverging(s, e);
    } else {
      var i := NewIdentity(c, s.m.pool[0]);
      assert e.toCreator == Onboard(e.manager, c, i);
      GrantConverging(s, e, c, i);
    }
  }

  lemma GrantConverging(s: State, e: Effect, c: ServiceCandidate, i: ServiceIdentity)
    requires Converging(s)
    requires e.granted == [Assignment(i.ServiceId(), i.user)] && e.toSelf == []
    requires e.manager.services == s.m.services[i.ServiceId() := i]
    requires e.toCreator == Onboard(e.manager, c, i)
    ensures Converging(Absorb(s, e))
  {
    var id := i.ServiceId();
    var s' := Absorb(s, e);
    assert Latest(s.latest, e.granted[..|e.granted| - 1]) == s.latest;
    assert Latest(s.latest, e.granted) == s.latest[id := i.user.id];
    assert s'.latest == s.latest[id := i.user.id];
    forall k ensures Settles(s', k) {
      CollectConcat(s.cq, e.toCreator, ActivationFor(k));
      OnboardPipeline(e.manager, c, i, k);
      assert s'.mq == s.mq;
      assert Settles(s, k);
    }
  }

  /** The manager takes the first of the line: a stale user may overwrite a newer one, but
      the newer one is then still in line. */
  lemma ConfirmConverging(s: State)
    requires Converging(s) && s.mq != [] && s.mq[0].ActivatedServiceUser?
    ensures Converging(Absorb(Pop(s), Silent(Activated(s.m, s.mq[0].user, s.mq[0].namespace, s.mq[0].name))))
  {
    var ActivatedServiceUser(u, namespace, name) := s.mq[0];
    var id := Naming.ServiceId(namespace, name);
    var s' := Absorb(Pop(s), Silent(Activated(s.m, u, namespace, name)));
    ConfirmedState(s);
    forall k ensures Settles(s', k) {
      assert Settles(s, k);
      ConfirmPipeline(s, k);
    }
  }

  /** Nothing but the user of one identity changes. */
  lemma ConfirmedState(s: State)
    requires FiledByKey(s.m) && s.mq != [] && s.mq[0].ActivatedServiceUser?
    ensures var u, id := s.mq[0].user, Naming.ServiceId(s.mq[0].namespace, s.mq[0].name);
            var s' := Absorb(Pop(s), Silent(Activated(s.m, u, s.mq[0].namespace, s.mq[0].name)));
            && s'.mq == s.mq[1..] && s'.cq == s.cq && s'.latest == s.latest && s'.creator == s.creator && FiledByKey(s'.m)
            && s'.m.services.Keys == s.m.services.Keys
            && (forall k :: k in s.m.services ==>
                  s'.m.services[k].user.id == if k == id then u.id else s.m.services[k].user.id)
  {
  }

  lemma ConfirmPipeline(s: State, k: string)
    requires s.mq != [] && s.mq[0].ActivatedServiceUser?
    ensures Pipeline(s, k) ==
            (if k == Naming.ServiceId(s.mq[0].namespace, s.mq[0].name) then [s.mq[0].user.id] else []) + Pipeline(Pop(s), k)
  {
  }

  /** The creator moves the first activation to the end of the confirmations. */
  lemma ServePipeline(s: State, u: ServiceUser, k: string)
    requires s.cq != [] && s.cq[0].ActivateServiceUser? && u.id == s.cq[0].user.id
    ensures Pipeline(Push(PopCreator(s), ActivatedServiceUser(u, s.cq[0].namespace, s.cq[0].name)), k) == Pipeline(s, k)
  {
    CollectAppend(s.mq, ActivatedServiceUser(u, s.cq[0].namespace, s.cq[0].name), ConfirmedFor(k));
  }

  lemma OtherPipeline(s: State, s': State, k: string)
    requires s.cq != [] && !s.cq[0].ActivateServiceUser? && s'.cq == s.cq[1..]
    requires s'.mq == s.mq || exists msg: ManagerMsg :: !msg.ActivatedServiceUser? && s'.mq == s.mq + [msg]
    ensures Pipeline(s', k) == Pipeline(s, k)
  {
    if s'.mq != s.mq {
      CollectAppend(s.mq, s'.mq[|s.mq|], ConfirmedFor(k));
      assert s'.mq == s.mq + [s'.mq[|s.mq|]];
    }
  }

  lemma ServeConverging(s: State, ok: bool, newId: string, password: string, url: string, suffix: string)
    requires Converging(s) && Enabled(s, CreatorReceive(ok, newId, password, url, suffix))
    ensures Converging(Serve(s, ok, newId, password, url, suffix))
  {
    var s' := Serve(s, ok, newId, password, url, suffix);
    SupplyServe(s, ok, newId, password, url, suffix);
    forall k ensures Settles(s', k) {
      if s.cq[0].ActivateServiceUser? {
        ServePipeline(s, s'.mq[|s.mq|].user, k);
      } else {
        OtherPipeline(s, s', k);
      }
      assert Settles(s, k);
    }
  }

  lemma SameConverging(s: State, s': State)
    requires Converging(s) && s'.m == s.m && s'.mq == s.mq && s'.cq == s.cq && s'.latest == s.latest
    requires WakesFirst(s')
    ensures Converging(s')
  {
    forall k ensures Settles(s', k) {
      assert Settles(s, k);
    }
  }

  lemma ReceiveConverging(s: State, api: Api, sched: Schedule)
    requires Converging(s) && Enabled(s, ManagerReceive(api, sched)) && AllCreated(api)
    ensures Converging(Receive(s, api, sched))
  {
    var msg := s.mq[0];
    if msg.ActivatedServiceUser? {
      ConfirmConverging(s);
    } else {
      PopConverging(s);
      if msg.RequestServiceIdentity? {
        RequestConverging(Pop(s), msg.candidate, api);
      } else if msg.IdentityManagerReady? {
        SameConverging(Pop(s), Receive(s, api, sched));
      } else if FoundSpare(msg).Some? {
        var s' := Receive(s, api, sched);
        assert s'.mq == Pop(s).mq && s'.cq == s.cq;
        forall k ensures Settles(s', k) {
          assert Settles(Pop(s), k);
        }
      } else {
        HandleQuiet(s.m, msg, api);
        QuietConverging(Pop(s), Handle(s.m, msg, api));
      }
    }
  }

  lemma WorkConverging(s: State, api: Api, sched: Schedule)
    requires Converging(s) && Enabled(s, ManagerWork(api, sched)) && AllCreated(api)
    ensures Converging(DoWork(s, api, sched))
  {
    var (e, work) := WorkStep(s.m, s.work, sched, api);
    if s.work.RequestingMissing? && s.work.candidates != [] {
      RequestConverging(s, s.work.candidates[0], api);
    } else {
      WorkQuiet(s.m, s.work, sched, api);
      QuietConverging(s, e);
    }
    SameConverging(Absorb(s, e), DoWork(s, api, sched));
  }

  lemma StepConverging(s: State, e: Event)
    requires Converging(s) && Enabled(s, e) && FailureFree(e)
    ensures Converging(Next(s, e))
  {
    match e
    case ManagerReceive(api, sched) => ReceiveConverging(s, api, sched);
    case ManagerWork(api, sched) => WorkConverging(s, api, sched);
    case CreatorReceive(ok, newId, password, url, suffix) => ServeConverging(s, ok, newId, password, url, suffix);
    case CreatorAnnounce =>
      var plan := s.creator.plan;
      var msg := if plan == [] then IdentityCreatorReady else FoundServiceUser(plan[0].user, plan[0].activated);
      PushConverging(s, msg);
      SameConverging(Push(s, msg), Next(s, e));
    case WatcherList(w) =>
      var cs := s.watchers[w].candidates;
      var msg := if cs == [] then DeploymentWatcherReady else FoundServiceCandidate(cs[0]);
      PushConverging(s, msg);
      SameConverging(Push(s, msg), Next(s, e));
    case WatcherRelease(w) => SameConverging(s, Next(s, e));
    case WatcherSend(_, msg) => PushConverging(s, msg);
    case PodEnd(namespace, name, uuid) => PushConverging(s, ReleaseDeviceId(namespace, name, uuid));
  }

  lemma {:induction false} RunConverging(s: State, es: seq<Event>)
    requires Converging(s) && Runs(s, es) && forall e :: e in es ==> FailureFree(e)
    ensures Converging(After(s, es))
    decreases es
  {
    if es != [] {
      assert FailureFree(es[0]);
      StepConverging(s, es[0]);
      RunConverging(Next(s, es[0]), es[1..]);
    }
  }

  /** In every failure-free run, once the queues are empty each service that was granted a
      user during the run and is still registered holds the user granted to it last. */
  lemma ActivationConverges(c: Config, es: seq<Event>, k: string)
    requires Runs(Init(c), es) && forall e :: e in es ==> FailureFree(e)
    requires var s := After(Init(c), es);
             s.mq == [] && s.cq == [] && k in s.latest && k in s.m.services
    ensures var s := After(Init(c), es);
            s.m.services[k].user.id == s.latest[k]
  {
    InitSteady(c);
    RunConverging(Init(c), es);
    assert Settles(After(Init(c), es), k);
  }
}
