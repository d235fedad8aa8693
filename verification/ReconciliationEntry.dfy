/** In which states the reconciliation can start: every reachable one meets the assumptions
    under which its loops and its channels are analysed. */
module ReconciliationEntry {
  import opened Collections
  import opened Identities
  import opened ManagerModel
  import opened IdentitySystem
  import opened Ownership
  import opened StartUp
  import Reconciliation
  import Deadlock

  predicate PoolIsDeactivated(m: Manager) {
    forall u :: u in m.pool ==> u.id in m.deactivated
  }

  predicate Tidy(m: Manager) {
    Reconciliation.Keyed(m) && PoolIsDeactivated(m)
  }

  lemma RequestTidy(m: Manager, c: ServiceCandidate, api: Api)
    requires Tidy(m)
    ensures Tidy(Request(m, c, api).manager)
  {
  }

  lemma ActivatedTidy(m: Manager, u: ServiceUser, namespace: string, name: string)
    requires Tidy(m)
    ensures Tidy(Activated(m, u, namespace, name))
  {
  }

  lemma HandleTidy(m: Manager, msg: ManagerMsg, api: Api)
    requires Tidy(m)
    ensures Tidy(Handle(m, msg, api).manager)
  {
    match msg
    case RequestServiceIdentity(c) => RequestTidy(m, c, api);
    case ActivatedServiceUser(u, namespace, name) => ActivatedTidy(m, u, namespace, name);
    case ReleaseDeviceId(namespace, name, uuid) => ReleaseQuiet(m, namespace, name, uuid, api);
    case _ =>
  }

  lemma WorkTidy(m: Manager, w: Work, sched: Schedule, api: Api)
    requires Tidy(m) && CanStep(m, w, sched)
    ensures Tidy(WorkStep(m, w, sched, api).0.manager)
  {
  }

  /** No candidate is missing that has an identity. */
  predicate MissingUnserved(m: Manager) {
    forall k :: k in m.missing ==> k !in m.services
  }

  lemma HandleKeepsMissing(m: Manager, msg: ManagerMsg, api: Api)
    requires MissingUnserved(m) && Tidy(m) && !msg.RequestServiceIdentity?
    ensures MissingUnserved(Handle(m, msg, api).manager)
  {
    match msg
    case ActivatedServiceUser(u, namespace, name) => ActivatedTidy(m, u, namespace, name);
    case _ =>
  }

  /** Until the reconciliation begins nobody has been granted a user. */
  predicate Untouched(s: State) {
    && Tidy(s.m)
    && (!s.begun ==> s.work.Idle? && MissingUnserved(s.m) && !s.released && Deadlock.NoneAnswered(s.cq) &&
                     forall msg :: msg in s.mq ==> !msg.RequestServiceIdentity?)
    && (!s.released ==> forall w :: w in s.watchers ==> !w.Watching?)
  }

  lemma HandleUnanswered(m: Manager, msg: ManagerMsg, api: Api)
    requires !msg.RequestServiceIdentity?
    ensures Deadlock.NoneAnswered(Handle(m, msg, api).toCreator)
    ensures forall x :: x in Handle(m, msg, api).toSelf ==> !x.RequestServiceIdentity?
  {
  }

  lemma ReceiveUntouched(s: State, api: Api, sched: Schedule)
    requires Untouched(s) && Enabled(s, ManagerReceive(api, sched))
    ensures Untouched(Receive(s, api, sched))
  {
    HandleTidy(s.m, s.mq[0], api);
    if !s.begun {
      assert s.mq[0] in s.mq;
      HandleUnanswered(s.m, s.mq[0], api);
      HandleKeepsMissing(s.m, s.mq[0], api);
    }
  }

  lemma ServeUntouched(s: State, ok: bool, newId: string, password: string, url: string, suffix: string)
    requires Untouched(s) && s.cq != []
    ensures Untouched(Serve(s, ok, newId, password, url, suffix))
  {
    var s' := Serve(s, ok, newId, password, url, suffix);
    assert s'.cq == s.cq[1..];
    assert forall msg :: msg in s'.mq ==> msg in s.mq || !msg.RequestServiceIdentity?;
  }

  lemma StepUntouched(s: State, e: Event)
    requires Untouched(s) && Enabled(s, e)
    ensures Untouched(Next(s, e))
  {
    match e
    case ManagerReceive(api, sched) => ReceiveUntouched(s, api, sched);
    case ManagerWork(api, sched) => WorkTidy(s.m, s.work, sched, api);
    case CreatorReceive(ok, newId, password, url, suffix) => ServeUntouched(s, ok, newId, password, url, suffix);
    case CreatorAnnounce =>
    case WatcherList(w) =>
    case WatcherRelease(w) =>
    case WatcherSend(w, msg) => assert s.watchers[w] in s.watchers;
    case PodEnd(namespace, name, uuid) =>
  }

  lemma {:induction false} RunUntouched(s: State, es: seq<Event>)
    requires Untouched(s) && Runs(s, es)
    ensures Untouched(After(s, es))
    decreases es
  {
    if es != [] {
      StepUntouched(s, es[0]);
      RunUntouched(Next(s, es[0]), es[1..]);
    }
  }

  /** When IdentityManagerReady is about to be received: identities and missing candidates
      are filed under their ids, no missing candidate has an identity, every pooled user was
      found deactivated, and nothing the creator has still to do needs an answer. */
  lemma ReconciliationStartsTidy(c: Config, es: seq<Event>)
    requires Runs(Init(c), es)
    requires IdentityManagerReady in After(Init(c), es).mq
    ensures var s := After(Init(c), es);
            && Reconciliation.Keyed(s.m) && PoolIsDeactivated(s.m) && MissingUnserved(s.m)
            && Deadlock.NoneAnswered(s.cq)
  {
    RestoreKeyed(Manager(c.cluster, [], map[], {}, map[], {}, {}, false, 0), c.restored);
    assert Untouched(Init(c));
    RunUntouched(Init(c), es);
    InitStarted(c);
    RunStarted(c, Init(c), es);
    var s := After(Init(c), es);
    CollectMember(s.mq, ReadySignal, ());
    var p :| 0 <= p < |s.mq| && s.mq[p] == IdentityManagerReady;
    assert ReadySignal(s.mq[p]) == Some(());
    assert Collect(s.mq, ReadySignal) != [];
  }
}
