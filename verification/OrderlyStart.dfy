/** Runs in which the processes take turns: every message is received as soon as it is sent.
    They reach the states that show where the theorems about runs are tight, with queues that
    never hold more than one message. */
module OrderlyStart {
  import opened Collections
  import opened Identities
  import opened ManagerModel
  import opened IdentitySystem
  import opened Ownership

  lemma StepFirst(s: State, e: Event, rest: seq<Event>)
    requires Enabled(s, e) && Runs(Next(s, e), rest)
    ensures Runs(s, [e] + rest) && After(s, [e] + rest) == After(Next(s, e), rest)
  {
    assert ([e] + rest)[1..] == rest;
  }

  lemma FirstStep(s: State, es: seq<Event>)
    requires Runs(s, es) && es != []
    ensures Enabled(s, es[0]) && Runs(Next(s, es[0]), es[1..]) && After(s, es) == After(Next(s, es[0]), es[1..])
  {
  }

  lemma Regroup(es: seq<Event>, fs: seq<Event>)
    requires es != []
    ensures es + fs == [es[0]] + (es[1..] + fs)
  {
  }

  lemma {:induction false} RunsConcat(s: State, es: seq<Event>, fs: seq<Event>)
    requires Runs(s, es) && Runs(After(s, es), fs)
    ensures Runs(s, es + fs) && After(s, es + fs) == After(After(s, es), fs)
    decreases es
  {
    if es == [] {
      assert es + fs == fs;
    } else {
      FirstStep(s, es);
      RunsConcat(Next(s, es[0]), es[1..], fs);
      Regroup(es, fs);
      StepFirst(s, es[0], es[1..] + fs);
    }
  }

  /** The manager's turn; no handler asks the API anything here. */
  function Turn(): Event {
    ManagerReceive(Api({}, map[], true), Schedule([], [], [], []))
  }

  /** One event that sends `msg` to the idle manager, and the manager's turn. */
  lemma SendAndReceive(s: State, e: Event, msg: ManagerMsg)
    requires Enabled(s, e) && s.mq == [] && s.work.Idle?
    requires Next(s, e).mq == [msg] && Next(s, e).m == s.m && Next(s, e).work.Idle? && !msg.IdentityManagerReady?
    requires Handle(s.m, msg, Turn().api).toCreator == [] && Handle(s.m, msg, Turn().api).granted == []
    ensures Runs(s, [e, Turn()])
    ensures var effect := Handle(s.m, msg, Turn().api);
            After(s, [e, Turn()]) == Next(s, e).(m := effect.manager, mq := effect.toSelf,
              emitted := Next(s, e).emitted + |Collect(effect.toSelf, ReadySignal)|)
  {
    var s1, effect := Next(s, e), Handle(s.m, msg, Turn().api);
    var s2 := Absorb(Pop(s1), effect);
    StepFirst(s1, Turn(), []);
    StepFirst(s, e, [Turn()]);
    assert [Turn()] + [] == [Turn()] && [e] + [Turn()] == [e, Turn()];
    assert s1.owner + (set a | a in effect.granted :: (a.user.id, a.service)) == s1.owner;
    assert s1.cq + [] == s1.cq && s1.mq[1..] + effect.toSelf == effect.toSelf;
  }

  // ---------- The creator announces ----------

  /** The manager after the announcements of `plan`. */
  function Told(m: Manager, plan: seq<Announcement>): Manager
    decreases plan
  {
    if plan == [] then m else Told(FoundUser(m, plan[0].user, plan[0].activated), plan[1..])
  }

  lemma {:induction false} ToldPool(m: Manager, plan: seq<Announcement>)
    ensures var r := Told(m, plan);
            && r.pool == m.pool + Collect(plan, PlannedSpare)
            && r == m.(pool := r.pool, activated := r.activated, deactivated := r.deactivated)
    decreases plan
  {
    if plan != [] {
      ToldPool(FoundUser(m, plan[0].user, plan[0].activated), plan[1..]);
    }
  }

  predicate Idling(s: State) {
    s.mq == [] && s.cq == [] && s.work.Idle?
  }

  lemma {:induction false} AnnounceAll(s: State, n: nat) returns (es: seq<Event>)
    requires Idling(s) && s.creator.Announcing? && n <= |s.creator.plan|
    ensures Runs(s, es)
    ensures After(s, es) == s.(m := Told(s.m, s.creator.plan[..n]), creator := Announcing(s.creator.plan[n..]))
    decreases n
  {
    var plan := s.creator.plan;
    if n == 0 {
      es := [];
      assert plan[..0] == [] && plan[0..] == plan;
    } else {
      SendAndReceive(s, CreatorAnnounce, FoundServiceUser(plan[0].user, plan[0].activated));
      var first := [CreatorAnnounce, Turn()];
      var s1 := After(s, first);
      assert s1 == s.(m := FoundUser(s.m, plan[0].user, plan[0].activated), creator := Announcing(plan[1..]));
      var rest := AnnounceAll(s1, n - 1);
      RunsConcat(s, first, rest);
      es := first + rest;
      assert plan[..n][1..] == plan[1..][..n - 1] && plan[1..][n - 1..] == plan[n..];
    }
  }

  lemma Wake(c: Config) returns (es: seq<Event>)
    ensures Runs(Init(c), es) && After(Init(c), es) == Init(c).(cq := [], creator := Announcing(c.plan))
  {
    var e := CreatorReceive(true, "", "", "", "");
    es := [e];
    var s1 := Next(Init(c), e);
    assert es[1..] == [] && Runs(s1, []);
  }

  /** From any start, the manager learns any number of the announced users first. */
  lemma LearnUsers(c: Config, n: nat) returns (es: seq<Event>)
    requires n <= |c.plan|
    ensures Runs(Init(c), es)
    ensures After(Init(c), es) == Init(c).(cq := [], m := Told(Restored(c), c.plan[..n]), creator := Announcing(c.plan[n..]))
  {
    es := Wake(c);
    var more := AnnounceAll(After(Init(c), es), n);
    RunsConcat(Init(c), es, more);
    es := es + more;
  }

  // ---------- The watchers list ----------

  function Shown(m: Manager, cs: seq<ServiceCandidate>): Manager
    decreases cs
  {
    if cs == [] then m else Shown(FoundCandidate(m, cs[0]), cs[1..])
  }

  /** Nothing but what is known of the candidates changes. */
  lemma {:induction false} ShownFrame(m: Manager, cs: seq<ServiceCandidate>)
    ensures var r := Shown(m, cs);
            r == m.(existing := r.existing, missing := r.missing)
    decreases cs
  {
    if cs != [] {
      ShownFrame(FoundCandidate(m, cs[0]), cs[1..]);
    }
  }

  /** The listed candidates without an identity are missing. */
  lemma {:induction false} ShownMissing(m: Manager, cs: seq<ServiceCandidate>)
    ensures Shown(m, cs).missing.Keys ==
            m.missing.Keys + set x | x in cs && x.namespace.Some? && x.ServiceId().value !in m.services :: x.ServiceId().value
    decreases cs
  {
    if cs != [] {
      ShownMissing(FoundCandidate(m, cs[0]), cs[1..]);
      assert forall x :: x in cs <==> x == cs[0] || x in cs[1..];
    }
  }

  lemma {:induction false} ListAll(s: State, w: nat) returns (es: seq<Event>)
    requires Idling(s) && w < |s.watchers| && s.watchers[w].Listing?
    ensures Runs(s, es)
    ensures After(s, es) == s.(m := Shown(s.m, s.watchers[w].candidates), watchers := s.watchers[w := Listing([])])
    decreases s.watchers[w].candidates
  {
    var cs := s.watchers[w].candidates;
    if cs == [] {
      es := [];
      assert s.watchers[w := Listing([])] == s.watchers;
    } else {
      SendAndReceive(s, WatcherList(w), FoundServiceCandidate(cs[0]));
      var first := [WatcherList(w), Turn()];
      var s1 := After(s, first);
      assert s1 == s.(m := FoundCandidate(s.m, cs[0]), watchers := s.watchers[w := Listing(cs[1..])]);
      var rest := ListAll(s1, w);
      RunsConcat(s, first, rest);
      es := first + rest;
      assert s1.watchers[w := Listing([])] == s.watchers[w := Listing([])];
    }
  }

  // ---------- Everybody gets ready ----------

  lemma CreatorIsReady(s: State) returns (es: seq<Event>)
    requires Idling(s) && s.creator == Announcing([]) && s.m.watchersReady == 0
    ensures Runs(s, es) && After(s, es) == s.(m := s.m.(creatorReady := true), creator := Running)
  {
    SendAndReceive(s, CreatorAnnounce, IdentityCreatorReady);
    es := [CreatorAnnounce, Turn()];
  }

  lemma WatcherIsReady(s: State, w: nat) returns (es: seq<Event>)
    requires Idling(s) && w < |s.watchers| && s.watchers[w] == Listing([]) && s.m.creatorReady && s.m.watchersReady < N_WATCHERS
    ensures Runs(s, es)
    ensures var s' := After(s, es);
            && s'.m == s.m.(watchersReady := s.m.watchersReady + 1)
            && s'.mq == (if s.m.watchersReady + 1 == N_WATCHERS then [IdentityManagerReady] else [])
            && s' == s.(m := s'.m, mq := s'.mq, watchers := s.watchers[w := AwaitingManager], emitted := s'.emitted)
  {
    SendAndReceive(s, WatcherList(w), DeploymentWatcherReady);
    es := [WatcherList(w), Turn()];
  }

  /** The manager when the reconciliation is due, after an orderly start. */
  ghost function Prepared(c: Config): Manager {
    Shown(Shown(Told(Restored(c), c.plan), c.deployments), c.sdpServices).(creatorReady := true, watchersReady := N_WATCHERS)
  }

  /** Every configuration has a run that leads to the reconciliation with all users announced,
      all candidates listed and nothing else under way. */
  lemma OrderlyRun(c: Config) returns (es: seq<Event>)
    ensures Runs(Init(c), es)
    ensures var s := After(Init(c), es);
            s.m == Prepared(c) && s.mq == [IdentityManagerReady] && s.cq == [] && s.work.Idle?
  {
    es := LearnUsers(c, |c.plan|);
    assert c.plan[..|c.plan|] == c.plan && c.plan[|c.plan|..] == [];
    var s1 := After(Init(c), es);
    RestoredFlags(c);
    ToldPool(Restored(c), c.plan);
    var more := CreatorIsReady(s1);
    RunsConcat(Init(c), es, more);
    es := es + more;
    var listed := ListBoth(After(Init(c), es), c);
    RunsConcat(Init(c), es, listed);
    es := es + listed;
  }

  lemma RestoredFlags(c: Config)
    ensures Restored(c) == Manager(c.cluster, [], Restored(c).services, {}, map[], {}, {}, false, 0)
  {
    RestoreKeyed(Manager(c.cluster, [], map[], {}, map[], {}, {}, false, 0), c.restored);
  }

  lemma ListBoth(s: State, c: Config) returns (es: seq<Event>)
    requires Idling(s) && s.watchers == [Listing(c.deployments), Listing(c.sdpServices)]
    requires s.m == Told(Restored(c), c.plan).(creatorReady := true) && s.m.watchersReady == 0
    ensures Runs(s, es)
    ensures var t := After(s, es);
            t.m == Prepared(c) && t.mq == [IdentityManagerReady] && t.cq == [] && t.work.Idle?
  {
    es := ListAll(s, 0);
    var s1 := After(s, es);
    var more := ListAll(s1, 1);
    RunsConcat(s, es, more);
    es := es + more;
    var s2 := After(s, es);
    var m := Told(Restored(c), c.plan);
    ShownFlags(m, c.deployments);
    ShownFlags(Shown(m, c.deployments), c.sdpServices);
    ShownFrame(s.m, c.deployments);
    ShownFrame(s1.m, c.sdpServices);
    more := WatcherIsReady(s2, 0);
    RunsConcat(s, es, more);
    es := es + more;
    more := WatcherIsReady(After(s, es), 1);
    RunsConcat(s, es, more);
    es := es + more;
  }

  /** Candidates are filed the same whether or not the creator is ready. */
  lemma {:induction false} ShownFlags(m: Manager, cs: seq<ServiceCandidate>)
    ensures Shown(m.(creatorReady := true), cs) == Shown(m, cs).(creatorReady := true)
    decreases cs
  {
    if cs != [] {
      ShownFlags(FoundCandidate(m, cs[0]), cs[1..]);
      assert FoundCandidate(m.(creatorReady := true), cs[0]) == FoundCandidate(m, cs[0]).(creatorReady := true);
    }
  }
}
