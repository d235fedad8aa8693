/** Start-up ordering over every interleaving of the two watchers, the creator and the pod
    watcher: the reconciliation is triggered exactly once, after everything listed and
    announced has been processed. */
module StartUp {
  import opened Collections
  import opened Identities
  import opened ManagerModel
  import opened IdentitySystem

  function WatcherSignal(msg: ManagerMsg): Option<()> {
    if msg.DeploymentWatcherReady? then Some(()) else None
  }

  function CreatorSignal(msg: ManagerMsg): Option<()> {
    if msg.IdentityCreatorReady? then Some(()) else None
  }

  function Unit(b: bool): nat { if b then 1 else 0 }

  function ListingCount(s: State): nat
    requires |s.watchers| == N_WATCHERS
  {
    Unit(s.watchers[0].Listing?) + Unit(s.watchers[1].Listing?)
  }

  /** Every readiness signal is due, under way or counted; the last one to be counted
      emits IdentityManagerReady. */
  predicate Counted(s: State) {
    && |s.watchers| == N_WATCHERS
    && s.m.watchersReady + |Collect(s.mq, WatcherSignal)| + ListingCount(s) == N_WATCHERS
    && Unit(s.m.creatorReady) + |Collect(s.mq, CreatorSignal)| + Unit(!s.creator.Running?) == 1
    && s.emitted == Unit(s.m.creatorReady && s.m.watchersReady == N_WATCHERS)
    && |Collect(s.mq, ReadySignal)| + Unit(s.begun) == s.emitted
  }

  /** Handlers that neither count nor emit a signal. */
  predicate Neutral(m: Manager, e: Effect) {
    && e.manager.watchersReady == m.watchersReady && e.manager.creatorReady == m.creatorReady
    && forall msg :: msg in e.toSelf ==> msg.DeleteServiceIdentity?
  }

  lemma HandleNeutral(m: Manager, msg: ManagerMsg, api: Api)
    requires !msg.DeploymentWatcherReady? && !msg.IdentityCreatorReady? && !msg.IdentityManagerReady?
    ensures Neutral(m, Handle(m, msg, api))
  {
  }

  lemma WorkNeutral(m: Manager, w: Work, sched: Schedule, api: Api)
    requires CanStep(m, w, sched)
    ensures Neutral(m, WorkStep(m, w, sched, api).0)
  {
  }

  lemma AbsorbSignals(s: State, e: Effect)
    ensures var s' := Absorb(s, e);
            && Collect(s'.mq, WatcherSignal) == Collect(s.mq, WatcherSignal) + Collect(e.toSelf, WatcherSignal)
            && Collect(s'.mq, CreatorSignal) == Collect(s.mq, CreatorSignal) + Collect(e.toSelf, CreatorSignal)
            && Collect(s'.mq, ReadySignal) == Collect(s.mq, ReadySignal) + Collect(e.toSelf, ReadySignal)
  {
    CollectConcat(s.mq, e.toSelf, WatcherSignal);
    CollectConcat(s.mq, e.toSelf, CreatorSignal);
    CollectConcat(s.mq, e.toSelf, ReadySignal);
  }

  lemma NeutralCounted(s: State, e: Effect)
    requires Counted(s) && Neutral(s.m, e)
    ensures Counted(Absorb(s, e))
  {
    AbsorbSignals(s, e);
    CollectNone(e.toSelf, WatcherSignal);
    CollectNone(e.toSelf, CreatorSignal);
    CollectNone(e.toSelf, ReadySignal);
  }

  lemma PushSignals(s: State, msg: ManagerMsg)
    ensures var q := Push(s, msg).mq;
            && |Collect(q, WatcherSignal)| == |Collect(s.mq, WatcherSignal)| + Unit(msg.DeploymentWatcherReady?)
            && |Collect(q, CreatorSignal)| == |Collect(s.mq, CreatorSignal)| + Unit(msg.IdentityCreatorReady?)
            && |Collect(q, ReadySignal)| == |Collect(s.mq, ReadySignal)| + Unit(msg.IdentityManagerReady?)
  {
    CollectAppend(s.mq, msg, WatcherSignal);
    CollectAppend(s.mq, msg, CreatorSignal);
    CollectAppend(s.mq, msg, ReadySignal);
  }

  lemma ReceiveCounted(s: State, api: Api, sched: Schedule)
    requires Counted(s) && Enabled(s, ManagerReceive(api, sched))
    ensures Counted(Receive(s, api, sched))
  {
    var msg := s.mq[0];
    if msg.DeploymentWatcherReady? || msg.IdentityCreatorReady? {
      SignalCounted(s, msg, api);
    } else if !msg.IdentityManagerReady? {
      assert Counted(Pop(s));
      HandleNeutral(s.m, msg, api);
      NeutralCounted(Pop(s), Handle(s.m, msg, api));
    }
  }

  lemma SignalCounted(s: State, msg: ManagerMsg, api: Api)
    requires Counted(s) && s.mq != [] && msg == s.mq[0]
    requires msg.DeploymentWatcherReady? || msg.IdentityCreatorReady?
    ensures Counted(Absorb(Pop(s), Handle(s.m, msg, api)))
  {
    var e := Handle(s.m, msg, api);
    AbsorbSignals(Pop(s), e);
    if e.toSelf != [] {
      assert e.toSelf == [IdentityManagerReady];
      assert Collect([IdentityManagerReady], WatcherSignal) == [];
      assert Collect([IdentityManagerReady], CreatorSignal) == [];
      assert Collect([IdentityManagerReady], ReadySignal) == [()];
    }
  }

  lemma ServeCounted(s: State, e: Event)
    requires Counted(s) && Enabled(s, e) && e.CreatorReceive?
    ensures Counted(Next(s, e))
  {
    var CreatorReceive(ok, newId, password, url, suffix) := e;
    assert Counted(PopCreator(s));
    if s.creator.Running? {
      match s.cq[0]
      case CreateIdentity => PushCounted(PopCreator(s), FoundServiceUser(NewUser(newId, password, url), false));
      case ActivateServiceUser(u, cluster, namespace, name, _) =>
        PushCounted(PopCreator(s), ActivatedServiceUser(
          u.(name := Naming.ServiceUsername(cluster, namespace, name, suffix)), namespace, name));
      case _ =>
    }
  }

  lemma AnnounceCounted(s: State)
    requires Counted(s) && s.creator.Announcing?
    ensures Counted(Announce(s))
  {
    var plan := s.creator.plan;
    PushSignals(s, if plan == [] then IdentityCreatorReady else FoundServiceUser(plan[0].user, plan[0].activated));
  }

  lemma ListCounted(s: State, w: nat)
    requires Counted(s) && Enabled(s, WatcherList(w))
    ensures Counted(ListCandidate(s, w))
  {
    var cs := s.watchers[w].candidates;
    PushSignals(s, if cs == [] then DeploymentWatcherReady else FoundServiceCandidate(cs[0]));
  }

  lemma PushCounted(s: State, msg: ManagerMsg)
    requires Counted(s) && !msg.DeploymentWatcherReady? && !msg.IdentityCreatorReady? && !msg.IdentityManagerReady?
    ensures Counted(Push(s, msg))
  {
    PushSignals(s, msg);
  }

  lemma StepCounted(s: State, e: Event)
    requires Counted(s) && Enabled(s, e)
    ensures Counted(Next(s, e))
  {
    match e
    case ManagerReceive(api, sched) => ReceiveCounted(s, api, sched);
    case ManagerWork(api, sched) =>
      WorkNeutral(s.m, s.work, sched, api);
      NeutralCounted(s, WorkStep(s.m, s.work, sched, api).0);
    case CreatorReceive(_, _, _, _, _) => ServeCounted(s, e);
    case CreatorAnnounce => AnnounceCounted(s);
    case WatcherList(w) => ListCounted(s, w);
    case WatcherRelease(w) =>
    case WatcherSend(_, msg) => PushCounted(s, msg);
    case PodEnd(namespace, name, uuid) => PushCounted(s, ReleaseDeviceId(namespace, name, uuid));
  }

  // ---------- Order ----------

  /** A listed candidate is announced before its watcher is ready, and a planned user before
      the creator is. */
  predicate CandidateInOrder(s: State, p: nat)
    requires p < |s.mq| && |s.watchers| == N_WATCHERS
  {
    ListingCount(s) >= 1 || exists q :: p < q < |s.mq| && s.mq[q].DeploymentWatcherReady?
  }

  predicate UserInOrder(s: State, p: nat)
    requires p < |s.mq|
  {
    !s.creator.Running? || exists q :: p < q < |s.mq| && s.mq[q].IdentityCreatorReady?
  }

  function Message(a: Announcement): ManagerMsg {
    FoundServiceUser(a.user, a.activated)
  }

  ghost predicate Ordered(c: Config, s: State) {
    && |s.watchers| == N_WATCHERS
    && (forall a :: a in c.plan ==> a.user.id in s.used)
    && (forall p :: 0 <= p < |s.mq| && s.mq[p].FoundServiceCandidate? ==> CandidateInOrder(s, p))
    && (forall a, p :: a in c.plan && 0 <= p < |s.mq| && s.mq[p] == Message(a) ==> UserInOrder(s, p))
  }

  lemma PopOrdered(c: Config, s: State, s': State)
    requires Ordered(c, s) && s.mq != []
    requires s'.mq == s.mq[1..] && s'.watchers == s.watchers && s'.creator == s.creator && s'.used == s.used
    ensures Ordered(c, s')
  {
  }

  /** Messages appended at the end disturb nobody, unless they are themselves a candidate or
      a planned user sent too late. */
  lemma AppendOrdered(c: Config, s: State, s': State, sent: seq<ManagerMsg>)
    requires Ordered(c, s) && s'.mq == s.mq + sent && |s'.watchers| == N_WATCHERS && s.used <= s'.used
    requires ListingCount(s') >= ListingCount(s) || DeploymentWatcherReady in sent
    requires (s'.creator.Running? ==> s.creator.Running?) || IdentityCreatorReady in sent
    requires forall msg :: msg in sent && msg.FoundServiceCandidate? ==> ListingCount(s') >= 1
    requires forall msg, a :: msg in sent && a in c.plan && msg == Message(a) ==> !s'.creator.Running?
    ensures Ordered(c, s')
  {
    var n := |s.mq|;
    assert forall p :: 0 <= p < n ==> s'.mq[p] == s.mq[p];
    assert forall p :: n <= p < |s'.mq| ==> s'.mq[p] == sent[p - n] && s'.mq[p] in sent;
    forall p | 0 <= p < |s'.mq| && s'.mq[p].FoundServiceCandidate? ensures CandidateInOrder(s', p) {
      if p < n {
        assert CandidateInOrder(s, p);
        if q :| p < q < n && s.mq[q].DeploymentWatcherReady? {
          assert s'.mq[q].DeploymentWatcherReady?;
        } else if ListingCount(s') == 0 {
          var j :| 0 <= j < |sent| && sent[j] == DeploymentWatcherReady;
          assert s'.mq[n + j].DeploymentWatcherReady?;
        }
      }
    }
    forall a, p | a in c.plan && 0 <= p < |s'.mq| && s'.mq[p] == Message(a) ensures UserInOrder(s', p) {
      if p < n {
        assert UserInOrder(s, p);
        if q :| p < q < n && s.mq[q].IdentityCreatorReady? {
          assert s'.mq[q].IdentityCreatorReady?;
        } else if s'.creator.Running? {
          var j :| 0 <= j < |sent| && sent[j] == IdentityCreatorReady;
          assert s'.mq[n + j].IdentityCreatorReady?;
        }
      }
    }
  }

  lemma ReceiveOrdered(c: Config, s: State, api: Api, sched: Schedule)
    requires Ordered(c, s) && Enabled(s, ManagerReceive(api, sched))
    ensures Ordered(c, Receive(s, api, sched))
  {
    var s' := Receive(s, api, sched);
    if s.mq[0].IdentityManagerReady? {
      PopOrdered(c, s, s');
    } else {
      PopOrdered(c, s, Pop(s));
      ToSelfKinds(s.m, s.mq[0], api);
      AppendOrdered(c, Pop(s), s', Handle(s.m, s.mq[0], api).toSelf);
    }
  }

  lemma AnnounceOrdered(c: Config, s: State)
    requires Ordered(c, s) && s.creator.Announcing?
    ensures Ordered(c, Announce(s))
  {
    AppendOrdered(c, s, Announce(s), [Announce(s).mq[|s.mq|]]);
  }

  lemma ListOrdered(c: Config, s: State, w: nat)
    requires Ordered(c, s) && Enabled(s, WatcherList(w))
    ensures Ordered(c, ListCandidate(s, w))
  {
    AppendOrdered(c, s, ListCandidate(s, w), [ListCandidate(s, w).mq[|s.mq|]]);
  }

  lemma StepOrdered(c: Config, s: State, e: Event)
    requires Ordered(c, s) && Enabled(s, e)
    ensures Ordered(c, Next(s, e))
  {
    var s' := Next(s, e);
    match e
    case ManagerReceive(api, sched) => ReceiveOrdered(c, s, api, sched);
    case ManagerWork(api, sched) =>
      WorkNeutral(s.m, s.work, sched, api);
      AppendOrdered(c, s, s', WorkStep(s.m, s.work, sched, api).0.toSelf);
    case CreatorReceive(_, _, _, _, _) => ServeOrdered(c, s, e);
    case CreatorAnnounce => AnnounceOrdered(c, s);
    case WatcherList(w) => ListOrdered(c, s, w);
    case WatcherRelease(w) => AppendOrdered(c, s, s', []);
    case WatcherSend(_, msg) => AppendOrdered(c, s, s', [msg]);
    case PodEnd(namespace, name, uuid) => AppendOrdered(c, s, s', [ReleaseDeviceId(namespace, name, uuid)]);
  }

  lemma ToSelfKinds(m: Manager, msg: ManagerMsg, api: Api)
    ensures forall x :: x in Handle(m, msg, api).toSelf ==> x.DeleteServiceIdentity? || x.IdentityManagerReady?
  {
  }

  lemma ServeOrdered(c: Config, s: State, e: Event)
    requires Ordered(c, s) && Enabled(s, e) && e.CreatorReceive?
    ensures Ordered(c, Next(s, e))
  {
    var s' := Next(s, e);
    if s'.mq == s.mq {
      AppendOrdered(c, s, s', []);
    } else {
      var msg := s'.mq[|s.mq|];
      assert msg.FoundServiceUser? ==> msg.user.id !in s.used;
      AppendOrdered(c, s, s', [msg]);
    }
  }

  // ---------- Coverage ----------

  predicate CandidatePending(s: State, x: ServiceCandidate) {
    exists w :: 0 <= w < |s.watchers| && s.watchers[w].Listing? && x in s.watchers[w].candidates
  }

  predicate CandidateDone(s: State, x: ServiceCandidate)
    requires x.namespace.Some?
  {
    x.ServiceId().value in s.m.existing || x.ServiceId().value in s.m.missing
  }

  predicate UserDone(s: State, a: Announcement) {
    a.user.id in (if a.activated then s.m.activated else s.m.deactivated)
  }

  predicate CandidateCovered(s: State, x: ServiceCandidate) {
    x.namespace.Some? ==> CandidatePending(s, x) || FoundServiceCandidate(x) in s.mq || CandidateDone(s, x)
  }

  predicate UserCovered(s: State, a: Announcement) {
    a in s.creator.Pending() || Message(a) in s.mq || UserDone(s, a)
  }

  ghost predicate Covered(c: Config, s: State) {
    && (forall x :: x in c.deployments + c.sdpServices ==> CandidateCovered(s, x))
    && (forall a :: a in c.plan ==> UserCovered(s, a))
  }

  /** What has been processed is remembered. */
  predicate Remembers(m: Manager, m': Manager) {
    && m.existing <= m'.existing && m.missing.Keys <= m'.missing.Keys
    && m.activated <= m'.activated && m.deactivated <= m'.deactivated
  }

  lemma HandleRemembers(m: Manager, msg: ManagerMsg, api: Api)
    ensures Remembers(m, Handle(m, msg, api).manager)
  {
  }

  lemma WorkRemembers(m: Manager, w: Work, sched: Schedule, api: Api)
    requires CanStep(m, w, sched)
    ensures Remembers(m, WorkStep(m, w, sched, api).0.manager)
  {
  }

  lemma KeepsCovered(c: Config, s: State, s': State)
    requires Covered(c, s) && Remembers(s.m, s'.m)
    requires forall msg :: msg in s.mq ==> msg in s'.mq
    requires forall a :: a in s.creator.Pending() ==> a in s'.creator.Pending() || Message(a) in s'.mq
    requires forall x :: CandidatePending(s, x) ==> CandidatePending(s', x) || FoundServiceCandidate(x) in s'.mq
    ensures Covered(c, s')
  {
  }

  lemma ReceiveCovered(c: Config, s: State, api: Api, sched: Schedule)
    requires Covered(c, s) && Enabled(s, ManagerReceive(api, sched))
    ensures Covered(c, Receive(s, api, sched))
  {
    var s' := Receive(s, api, sched);
    var head := s.mq[0];
    HandleRemembers(s.m, head, api);
    assert forall msg :: msg in s.mq ==> msg == head || msg in s'.mq;
    forall x | x in c.deployments + c.sdpServices ensures CandidateCovered(s', x) {
      assert CandidateCovered(s, x);
      assert CandidatePending(s, x) ==> CandidatePending(s', x);
    }
    forall a | a in c.plan ensures UserCovered(s', a) {
      assert UserCovered(s, a);
    }
  }

  lemma ListCovered(c: Config, s: State, w: nat)
    requires Covered(c, s) && Enabled(s, WatcherList(w))
    ensures Covered(c, ListCandidate(s, w))
  {
    var s' := ListCandidate(s, w);
    forall x | CandidatePending(s, x) ensures CandidatePending(s', x) || FoundServiceCandidate(x) in s'.mq {
      var v :| 0 <= v < |s.watchers| && s.watchers[v].Listing? && x in s.watchers[v].candidates;
      var cs := s.watchers[w].candidates;
      if v != w {
        assert s'.watchers[v] == s.watchers[v];
      } else if x != cs[0] {
        assert x in cs[1..];
        assert s'.watchers[w].candidates == cs[1..];
      }
    }
    KeepsCovered(c, s, s');
  }

  lemma StepCovered(c: Config, s: State, e: Event)
    requires Covered(c, s) && Enabled(s, e)
    ensures Covered(c, Next(s, e))
  {
    var s' := Next(s, e);
    match e
    case ManagerReceive(api, sched) => ReceiveCovered(c, s, api, sched);
    case ManagerWork(api, sched) =>
      WorkRemembers(s.m, s.work, sched, api);
      SameListing(s, s');
      KeepsCovered(c, s, s');
    case WatcherList(w) => ListCovered(c, s, w);
    case WatcherRelease(w) =>
      forall x | CandidatePending(s, x) ensures CandidatePending(s', x) {
        var v :| 0 <= v < |s.watchers| && s.watchers[v].Listing? && x in s.watchers[v].candidates;
        assert s'.watchers[v] == s.watchers[v];
      }
      KeepsCovered(c, s, s');
    case _ =>
      SameListing(s, s');
      KeepsCovered(c, s, s');
  }

  lemma SameListing(s: State, s': State)
    requires s'.watchers == s.watchers
    ensures forall x :: CandidatePending(s, x) ==> CandidatePending(s', x)
  {
  }

  // ---------- Whole runs ----------

  ghost predicate Started(c: Config, s: State) {
    Counted(s) && Ordered(c, s) && Covered(c, s)
  }

  lemma {:induction false} RestoreFlags(m: Manager, xs: seq<ServiceIdentity>)
    ensures Restore(m, xs) == m.(services := Restore(m, xs).services)
  {
    if xs != [] {
      RestoreFlags(m, xs[..|xs| - 1]);
    }
  }

  lemma InitStarted(c: Config)
    ensures Started(c, Init(c))
  {
    RestoreFlags(Manager(c.cluster, [], map[], {}, map[], {}, {}, false, 0), c.restored);
    var s := Init(c);
    forall x | x in c.deployments + c.sdpServices ensures CandidatePending(s, x) {
      assert s.watchers[0].candidates == c.deployments && s.watchers[1].candidates == c.sdpServices;
    }
  }

  lemma {:induction false} RunStarted(c: Config, s: State, es: seq<Event>)
    requires Started(c, s) && Runs(s, es)
    ensures Started(c, After(s, es))
    decreases es
  {
    if es != [] {
      StepCounted(s, es[0]);
      StepOrdered(c, s, es[0]);
      StepCovered(c, s, es[0]);
      RunStarted(c, Next(s, es[0]), es[1..]);
    }
  }

  lemma AllProcessed(c: Config, s: State)
    requires Started(c, s) && s.emitted == 1
    ensures forall x :: x in c.deployments + c.sdpServices && x.namespace.Some? ==> CandidateDone(s, x)
    ensures forall a :: a in c.plan ==> UserDone(s, a)
  {
    assert Collect(s.mq, WatcherSignal) == [] && Collect(s.mq, CreatorSignal) == [];
    CollectMember(s.mq, WatcherSignal, ());
    CollectMember(s.mq, CreatorSignal, ());
    assert forall q :: 0 <= q < |s.mq| ==> WatcherSignal(s.mq[q]) != Some(()) && CreatorSignal(s.mq[q]) != Some(());
    forall x | x in c.deployments + c.sdpServices && x.namespace.Some? ensures CandidateDone(s, x) {
      assert CandidateCovered(s, x);
      forall p | 0 <= p < |s.mq| ensures s.mq[p] != FoundServiceCandidate(x) {
        assert !CandidateInOrder(s, p);
      }
    }
    forall a | a in c.plan ensures UserDone(s, a) {
      assert UserCovered(s, a);
      forall p | 0 <= p < |s.mq| ensures s.mq[p] != Message(a) {
        assert !UserInOrder(s, p);
      }
    }
  }

  /** IdentityManagerReady is emitted at most once, never before every listed candidate and
      every announced user has been processed, and it has been emitted once the watchers and
      the creator are done and the queue is empty. */
  lemma ReadyExactlyOnce(c: Config, es: seq<Event>)
    requires Runs(Init(c), es)
    ensures var s := After(Init(c), es);
            && s.emitted <= 1
            && (s.emitted == 1 ==>
                  && (forall x :: x in c.deployments + c.sdpServices && x.namespace.Some? ==> CandidateDone(s, x))
                  && (forall a :: a in c.plan ==> UserDone(s, a)))
            && (s.mq == [] && s.creator.Running? && (forall w :: w in s.watchers ==> !w.Listing?) ==> s.emitted == 1)
  {
    InitStarted(c);
    RunStarted(c, Init(c), es);
    var s := After(Init(c), es);
    if s.emitted == 1 {
      AllProcessed(c, s);
    }
    assert s.watchers[0] in s.watchers && s.watchers[1] in s.watchers;
  }
}
