/** The controller user an activation modifies is addressed by the name of the service
    user, which must therefore be its id. It is, for every user waiting to be granted. */
module ActivationTarget {
  import opened Collections
  import opened Identities
  import opened ManagerModel
  import opened IdentitySystem
  import opened Ownership
  import opened PoolLevel
  import Naming

  /** Id of the controller user built from a service user: a copy of the name. */
  function ModifiedUser(u: ServiceUser): string { u.name }

  predicate Addressable(us: seq<ServiceUser>) {
    forall u :: u in us ==> ModifiedUser(u) == u.id
  }

  predicate OnTarget(s: State) {
    && Steady(s)
    && Addressable(Supply(s))
    && (forall msg :: msg in s.cq && msg.ActivateServiceUser? ==> ModifiedUser(msg.user) == msg.user.id)
  }

  lemma QuietOnTarget(s: State, e: Effect)
    requires OnTarget(s) && Quiet(s.m, e)
    ensures OnTarget(Absorb(s, e))
  {
    QuietSupply(s, e);
  }

  lemma RequestOnTarget(s: State, c: ServiceCandidate, api: Api)
    requires OnTarget(s) && Honest(api)
    ensures OnTarget(Absorb(s, Request(s.m, c, api)))
  {
    var e := Request(s.m, c, api);
    if e.granted == [] {
      assert e == Silent(s.m);
      QuietOnTarget(s, e);
    } else {
      SupplyAbsorb(s, e, 1);
      assert Supply(s)[0] == s.m.pool[0];
      assert s.m.pool[0] in Supply(s);
      assert forall msg :: msg in e.toCreator && msg.ActivateServiceUser? ==> msg.user == s.m.pool[0];
    }
  }

  lemma ReceiveOnTarget(s: State, api: Api, sched: Schedule)
    requires OnTarget(s) && Enabled(s, ManagerReceive(api, sched))
    ensures OnTarget(Receive(s, api, sched))
  {
    var msg := s.mq[0];
    if FoundSpare(msg).Some? {
      SupplyArrives(s);
      assert Receive(s, api, sched).cq == s.cq;
    } else {
      SupplyPop(s);
      assert OnTarget(Pop(s));
      if msg.ActivatedServiceUser? {
        SupplyAbsorb(Pop(s), Handle(s.m, msg, api), 0);
        assert Receive(s, api, sched).cq == s.cq;
      } else if msg.RequestServiceIdentity? {
        RequestOnTarget(Pop(s), msg.candidate, api);
      } else if msg.IdentityManagerReady? {
        assert Supply(Receive(s, api, sched)) == Supply(Pop(s));
      } else {
        HandleQuiet(s.m, msg, api);
        QuietOnTarget(Pop(s), Handle(s.m, msg, api));
      }
    }
  }

  lemma WorkOnTarget(s: State, api: Api, sched: Schedule)
    requires OnTarget(s) && Enabled(s, ManagerWork(api, sched))
    ensures OnTarget(DoWork(s, api, sched))
  {
    var (e, work) := WorkStep(s.m, s.work, sched, api);
    if s.work.RequestingMissing? && s.work.candidates != [] {
      RequestOnTarget(s, s.work.candidates[0], api);
    } else {
      WorkQuiet(s.m, s.work, sched, api);
      QuietOnTarget(s, e);
    }
    assert Supply(DoWork(s, api, sched)) == Supply(Absorb(s, e));
  }

  lemma PushOnTarget(s: State, s': State, msg: ManagerMsg)
    requires OnTarget(s) && FoundSpare(msg).None? && s' == Push(s, msg).(watchers := s'.watchers)
    ensures OnTarget(s')
  {
    SupplyPush(s, msg);
    assert Supply(s') == Supply(Push(s, msg));
  }

  lemma StepOnTarget(s: State, e: Event)
    requires OnTarget(s) && Enabled(s, e)
    ensures OnTarget(Next(s, e))
  {
    match e
    case ManagerReceive(api, sched) => ReceiveOnTarget(s, api, sched);
    case ManagerWork(api, sched) => WorkOnTarget(s, api, sched);
    case CreatorReceive(ok, newId, password, url, suffix) =>
      SupplyServe(s, ok, newId, password, url, suffix);
    case CreatorAnnounce => SupplyAnnounce(s);
    case WatcherList(w) =>
      var cs := s.watchers[w].candidates;
      PushOnTarget(s, Next(s, e), if cs == [] then DeploymentWatcherReady else FoundServiceCandidate(cs[0]));
    case WatcherRelease(w) => assert Supply(Next(s, e)) == Supply(s);
    case WatcherSend(_, msg) => PushOnTarget(s, Next(s, e), msg);
    case PodEnd(namespace, name, uuid) => PushOnTarget(s, Next(s, e), ReleaseDeviceId(namespace, name, uuid));
  }

  lemma {:induction false} RunOnTarget(s: State, es: seq<Event>)
    requires OnTarget(s) && Runs(s, es)
    ensures OnTarget(After(s, es))
    decreases es
  {
    if es != [] {
      StepOnTarget(s, es[0]);
      RunOnTarget(Next(s, es[0]), es[1..]);
    }
  }

  lemma RunIsOnTarget(c: Config, es: seq<Event>)
    requires Addressable(Collect(c.plan, PlannedSpare)) && Runs(Init(c), es)
    ensures OnTarget(After(Init(c), es)) && Addressable(After(Init(c), es).m.pool)
  {
    InitSteady(c);
    assert Supply(Init(c)) == Collect(c.plan, PlannedSpare);
    RunOnTarget(Init(c), es);
    var s := After(Init(c), es);
    assert forall u :: u in s.m.pool ==> u in Supply(s);
  }

  /** In every run every pooled user is named after its id, and every activation waiting for
      the creator modifies the user that belongs to the service being activated, which no
      other service holds. */
  lemma ActivationModifiesOwnUser(c: Config, es: seq<Event>)
    requires CleanStart(c) && Addressable(Collect(c.plan, PlannedSpare)) && Runs(Init(c), es)
    ensures var s := After(Init(c), es);
            && Addressable(s.m.pool)
            && (forall i :: 0 <= i < |s.cq| && s.cq[i].ActivateServiceUser? ==>
                  var target, service := ModifiedUser(s.cq[i].user), Naming.ServiceId(s.cq[i].namespace, s.cq[i].name);
                  && target == s.cq[i].user.id && (target, service) in s.owner
                  && (forall k :: k in s.m.services && s.m.services[k].user.id == target ==> k == service))
  {
    RunIsOnTarget(c, es);
    InitOwned(c);
    RunOwned(Init(c), es);
    var s := After(Init(c), es);
    assert forall i :: 0 <= i < |s.cq| ==> s.cq[i] in s.cq;
  }
}
