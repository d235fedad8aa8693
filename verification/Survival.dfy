/** What start-up ordering is for: an identity restored for a candidate that is still
    there, whose user was never found deactivated, keeps its user over every run in which
    the candidate is not deleted, and nobody is ever asked to delete that user. */
module Survival {
  import opened Collections
  import opened Identities
  import opened ManagerModel
  import opened IdentitySystem
  import opened StartUp
  import opened Ownership
  import opened Uuids
  import Naming

  /** An identity other than that of service `k`, holding another user than `u`. */
  predicate Unrelated(i: ServiceIdentity, k: string, u: string) {
    i.ServiceId() != k && i.user.id != u
  }

  predicate HarmlessToCreator(msg: CreatorMsg, k: string, u: string) {
    match msg
    case DeleteServiceUser(user, _, _) => user.id != u
    case DeleteSDPUser(id) => id != u
    case ActivateServiceUser(user, _, namespace, name, _) => user.id != u && Naming.ServiceId(namespace, name) != k
    case _ => true
  }

  predicate HarmlessToManager(msg: ManagerMsg, k: string, u: string) {
    match msg
    case DeleteServiceIdentity(i) => Unrelated(i, k, u)
    case DeletedServiceCandidate(c) => c.ServiceId() != Some(k)
    case ActivatedServiceUser(user, namespace, name) => user.id != u && Naming.ServiceId(namespace, name) != k
    case FoundServiceUser(user, activated) => activated || user.id != u
    case _ => true
  }

  predicate HarmlessWork(w: Work, k: string, u: string) {
    match w
    case Idle => true
    case DeletingExtra(xs, _) => forall x :: x in xs ==> Unrelated(x, k, u)
    case DeletingUsers(ids, _) => u !in ids
    case DeletingOrphans(xs, _) => forall x :: x in xs ==> Unrelated(x, k, u)
    case RequestingMissing(_) => true
  }

  predicate Holding(m: Manager, k: string, u: string) {
    && k in m.services && k !in m.missing && u !in m.deactivated
    && (forall j :: j in m.services ==> m.services[j].ServiceId() == j && (m.services[j].user.id == u <==> j == k))
    && (forall v :: v in m.pool ==> v.id != u)
  }

  predicate Protected(s: State, k: string, u: string) {
    && Holding(s.m, k, u) && u in s.used
    && (s.begun ==> k in s.m.existing)
    && (forall msg :: msg in s.mq ==> HarmlessToManager(msg, k, u))
    && (forall msg :: msg in s.cq ==> HarmlessToCreator(msg, k, u))
    && (forall a :: a in s.creator.Pending() ==> a.activated || a.user.id != u)
    && HarmlessWork(s.work, k, u)
  }

  predicate HarmlessEffect(m: Manager, e: Effect, k: string, u: string) {
    && Holding(e.manager, k, u) && m.existing <= e.manager.existing
    && (forall msg :: msg in e.toSelf ==> HarmlessToManager(msg, k, u))
    && (forall msg :: msg in e.toCreator ==> HarmlessToCreator(msg, k, u))
  }

  lemma AbsorbProtected(s: State, e: Effect, k: string, u: string)
    requires Protected(s, k, u) && HarmlessEffect(s.m, e, k, u)
    ensures Protected(Absorb(s, e), k, u)
  {
  }

  lemma DeleteHarmless(m: Manager, i: ServiceIdentity, api: Api, k: string, u: string)
    requires Holding(m, k, u) && Unrelated(i, k, u)
    ensures HarmlessEffect(m, Delete(m, i, api), k, u)
  {
  }

  lemma RequestHarmless(m: Manager, c: ServiceCandidate, api: Api, k: string, u: string)
    requires Holding(m, k, u) && Honest(api)
    ensures HarmlessEffect(m, Request(m, c, api), k, u)
  {
    var e := Request(m, c, api);
    if e.granted != [] {
      assert m.pool[0] in m.pool;
      assert NewIdentity(c, m.pool[0]).ServiceId() == c.ServiceId().value;
    }
  }

  lemma ReleaseHarmless(m: Manager, namespace: string, name: string, uuid: Uuid, api: Api, k: string, u: string)
    requires Holding(m, k, u)
    ensures HarmlessEffect(m, Release(m, namespace, name, uuid, api), k, u)
  {
  }

  lemma ActivatedHarmless(m: Manager, user: ServiceUser, namespace: string, name: string, k: string, u: string)
    requires Holding(m, k, u) && user.id != u && Naming.ServiceId(namespace, name) != k
    ensures HarmlessEffect(m, Silent(Activated(m, user, namespace, name)), k, u)
  {
  }

  /** Messages that only record something. */
  lemma RecordHarmless(m: Manager, msg: ManagerMsg, api: Api, k: string, u: string)
    requires Holding(m, k, u) && HarmlessToManager(msg, k, u)
    requires !msg.DeleteServiceIdentity? && !msg.RequestServiceIdentity? && !msg.ReleaseDeviceId? && !msg.ActivatedServiceUser?
    ensures HarmlessEffect(m, Handle(m, msg, api), k, u)
  {
  }

  lemma HandleHarmless(m: Manager, msg: ManagerMsg, api: Api, k: string, u: string)
    requires Holding(m, k, u) && HarmlessToManager(msg, k, u) && Honest(api)
    ensures HarmlessEffect(m, Handle(m, msg, api), k, u)
  {
    match msg
    case DeleteServiceIdentity(i) => DeleteHarmless(m, i, api, k, u);
    case RequestServiceIdentity(c) => RequestHarmless(m, c, api, k, u);
    case ReleaseDeviceId(namespace, name, uuid) => ReleaseHarmless(m, namespace, name, uuid, api, k, u);
    case ActivatedServiceUser(user, namespace, name) => ActivatedHarmless(m, user, namespace, name, k, u);
    case _ => RecordHarmless(m, msg, api, k, u);
  }

  lemma PopProtected(s: State, k: string, u: string)
    requires Protected(s, k, u) && s.mq != []
    ensures Protected(Pop(s), k, u)
  {
  }

  /** When the reconciliation begins, the candidate of `k` has been seen. */
  lemma BeginProtected(c: Config, s: State, sched: Schedule, x: ServiceCandidate, k: string, u: string)
    requires Protected(s, k, u) && Started(c, s)
    requires x in c.deployments + c.sdpServices && x.ServiceId() == Some(k)
    requires s.mq != [] && s.mq[0].IdentityManagerReady? && CanStart(s.m, sched)
    ensures Protected(Pop(s).(work := Start(s.m, sched), begun := true), k, u)
  {
    assert |Collect(s.mq, ReadySignal)| >= 1;
    AllProcessed(c, s);
    assert CandidateDone(s, x);
    var xs := Pick(s.m.services, sched.extra);
    forall i | 0 <= i < |xs| ensures Unrelated(xs[i], k, u) {
      assert sched.extra[i] in sched.extra;
    }
    PopProtected(s, k, u);
  }

  lemma WorkProtected(s: State, api: Api, sched: Schedule, k: string, u: string)
    requires Protected(s, k, u) && Enabled(s, ManagerWork(api, sched))
    ensures Protected(DoWork(s, api, sched), k, u)
  {
    WorkHarmless(s.m, s.work, sched, api, k, u);
    AbsorbProtected(s, WorkStep(s.m, s.work, sched, api).0, k, u);
  }

  lemma WorkHarmless(m: Manager, w: Work, sched: Schedule, api: Api, k: string, u: string)
    requires Holding(m, k, u) && CanStep(m, w, sched) && Honest(api) && HarmlessWork(w, k, u)
    ensures HarmlessEffect(m, WorkStep(m, w, sched, api).0, k, u)
    ensures HarmlessWork(WorkStep(m, w, sched, api).1, k, u)
  {
    match w
    case DeletingExtra(xs, _) =>
      if xs == [] {
        assert m.services[k].user.id in UsersInUse(m);
      } else {
        DeleteHarmless(m, xs[0], api, k, u);
      }
    case DeletingUsers(ids, _) =>
      if ids == [] {
        var xs := Pick(m.services, sched.orphanIdentities);
        forall i | 0 <= i < |xs| ensures Unrelated(xs[i], k, u) {
          assert sched.orphanIdentities[i] in sched.orphanIdentities;
        }
      }
    case DeletingOrphans(xs, _) => if xs != [] { DeleteHarmless(m, xs[0], api, k, u); }
    case RequestingMissing(cs) => if cs != [] { RequestHarmless(m, cs[0], api, k, u); }
  }

  lemma PushProtected(s: State, s': State, msg: ManagerMsg, k: string, u: string)
    requires Protected(s, k, u) && HarmlessToManager(msg, k, u)
    requires s' == Push(s, msg).(watchers := s'.watchers, creator := s'.creator, used := s'.used) && s.used <= s'.used
    requires forall a :: a in s'.creator.Pending() ==> a in s.creator.Pending()
    ensures Protected(s', k, u)
  {
  }

  lemma ServeProtected(s: State, e: Event, k: string, u: string)
    requires Protected(s, k, u) && Enabled(s, e) && e.CreatorReceive?
    ensures Protected(Next(s, e), k, u)
  {
    assert HarmlessToCreator(s.cq[0], k, u);
    var s1, s' := PopCreator(s), Next(s, e);
    assert Protected(s1, k, u);
    if s'.mq != s.mq {
      PushProtected(s1, s', s'.mq[|s.mq|], k, u);
    }
  }

  lemma AnnounceProtected(s: State, k: string, u: string)
    requires Protected(s, k, u) && s.creator.Announcing?
    ensures Protected(Announce(s), k, u)
  {
    var s' := Announce(s);
    assert s.creator.plan != [] ==> s.creator.plan[0] in s.creator.Pending();
    PushProtected(s, s', s'.mq[|s.mq|], k, u);
  }

  /** The one event that may end the identity. */
  predicate DeletesCandidate(e: Event, k: string) {
    e.WatcherSend? && e.msg.DeletedServiceCandidate? && e.msg.candidate.ServiceId() == Some(k)
  }

  lemma ReceiveProtected(s: State, api: Api, sched: Schedule, k: string, u: string)
    requires Protected(s, k, u) && Enabled(s, ManagerReceive(api, sched)) && !s.mq[0].IdentityManagerReady?
    ensures Protected(Receive(s, api, sched), k, u)
  {
    PopProtected(s, k, u);
    HandleHarmless(s.m, s.mq[0], api, k, u);
    AbsorbProtected(Pop(s), Handle(s.m, s.mq[0], api), k, u);
  }

  predicate Begins(s: State, e: Event) {
    e.ManagerReceive? && s.mq != [] && s.mq[0].IdentityManagerReady?
  }

  lemma OtherProtected(s: State, e: Event, k: string, u: string)
    requires Protected(s, k, u) && Enabled(s, e) && !DeletesCandidate(e, k) && !Begins(s, e)
    ensures Protected(Next(s, e), k, u)
  {
    match e
    case ManagerReceive(api, sched) => ReceiveProtected(s, api, sched, k, u);
    case ManagerWork(api, sched) => WorkProtected(s, api, sched, k, u);
    case CreatorReceive(_, _, _, _, _) => ServeProtected(s, e, k, u);
    case CreatorAnnounce => AnnounceProtected(s, k, u);
    case WatcherList(w) => PushProtected(s, Next(s, e), Next(s, e).mq[|s.mq|], k, u);
    case WatcherRelease(w) =>
    case WatcherSend(_, msg) => PushProtected(s, Next(s, e), msg, k, u);
    case PodEnd(namespace, name, uuid) => PushProtected(s, Next(s, e), ReleaseDeviceId(namespace, name, uuid), k, u);
  }

  lemma StepProtected(c: Config, s: State, e: Event, x: ServiceCandidate, k: string, u: string)
    requires Protected(s, k, u) && Started(c, s) && Enabled(s, e) && !DeletesCandidate(e, k)
    requires x in c.deployments + c.sdpServices && x.ServiceId() == Some(k)
    ensures Protected(Next(s, e), k, u)
  {
    if Begins(s, e) {
      BeginProtected(c, s, e.sched, x, k, u);
    } else {
      OtherProtected(s, e, k, u);
    }
  }

  lemma {:induction false} RunProtected(c: Config, s: State, es: seq<Event>, x: ServiceCandidate, k: string, u: string)
    requires Protected(s, k, u) && Started(c, s) && Runs(s, es)
    requires forall e :: e in es ==> !DeletesCandidate(e, k)
    requires x in c.deployments + c.sdpServices && x.ServiceId() == Some(k)
    ensures Protected(After(s, es), k, u)
    decreases es
  {
    if es != [] {
      StepProtected(c, s, es[0], x, k, u);
      StepCounted(s, es[0]);
      StepOrdered(c, s, es[0]);
      StepCovered(c, s, es[0]);
      RunProtected(c, Next(s, es[0]), es[1..], x, k, u);
    }
  }

  /** A restored identity whose candidate is listed, whose user no other restored identity
      holds and which is never announced as deactivated, is registered with that user in
      every state of every run without a deletion of the candidate, and no deletion of the
      user ever waits for the creator. */
  lemma RestoredIdentitySurvives(c: Config, es: seq<Event>, x: ServiceCandidate, k: string, u: string)
    requires Runs(Init(c), es) && forall e :: e in es ==> !DeletesCandidate(e, k)
    requires x in c.deployments + c.sdpServices && x.ServiceId() == Some(k)
    requires var services := Restored(c).services;
             k in services && forall j :: j in services ==> (services[j].user.id == u <==> j == k)
    requires forall a :: a in c.plan ==> a.activated || a.user.id != u
    ensures var s := After(Init(c), es);
            && k in s.m.services && s.m.services[k].user.id == u
            && (forall msg :: msg in s.cq ==>
                  && (msg.DeleteServiceUser? ==> msg.user.id != u)
                  && (msg.DeleteSDPUser? ==> msg.id != u))
  {
    RestoreKeyed(Manager(c.cluster, [], map[], {}, map[], {}, {}, false, 0), c.restored);
    InitStarted(c);
    assert Protected(Init(c), k, u);
    RunProtected(c, Init(c), es, x, k, u);
    var s := After(Init(c), es);
    assert forall msg :: msg in s.cq ==> HarmlessToCreator(msg, k, u);
  }
}
