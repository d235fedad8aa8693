/** The deadlock of the reconciliation in the runs of the identity service: when it can
    happen, and start-ups that lead to it. */
module DeadlockInRuns {
  import opened Collections
  import opened Identities
  import opened ManagerModel
  import opened IdentitySystem
  import opened Reconciliation
  import opened ReconciliationEntry
  import opened OrderlyStart
  import D = Deadlock

  /** The channels when the manager takes IdentityManagerReady from its queue. */
  ghost function Channels(s: State, sched: Schedule, api: Api): D.Net
    requires s.mq != [] && ValidSchedule(s.m, sched, api)
  {
    D.Net(Reconcile(s.m, sched, api).toCreator, s.cq, false, |s.mq| - 1)
  }

  ghost predicate DeadlocksWith(s: State, sched: Schedule, api: Api)
    requires s.mq != []
  {
    ValidSchedule(s.m, sched, api) && D.CanDeadlock(Channels(s, sched, api))
  }

  /** For some visiting orders, answers of the API and interleaving, manager and creator wait
      for each other for ever. */
  ghost predicate ReconciliationCanDeadlock(s: State)
    requires s.mq != []
  {
    exists sched, api :: DeadlocksWith(s, sched, api)
  }

  /** The reconciliation is next, and the queues respect their capacity. */
  predicate Due(s: State) {
    s.mq != [] && s.mq[0].IdentityManagerReady? && |s.mq| <= D.CAPACITY && |s.cq| <= D.CAPACITY
  }

  lemma SomeSchedule(m: Manager, api: Api) returns (sched: Schedule)
    ensures ValidSchedule(m, sched, api)
  {
    var extra := Enumeration(ExtraIdentities(m));
    var m1 := DeleteAll(m, Pick(m.services, extra), api).manager;
    var users := Enumeration(OrphanUsers(m1));
    var orphans := Enumeration(OrphanIdentities(m1));
    var missing := Enumeration(m.missing.Keys);
    sched := Schedule(extra, users, orphans, missing);
  }

  lemma AllMissingUnserved(m: Manager, api: Api)
    requires MissingUnserved(m)
    ensures D.UnservedKeys(m, api) == m.missing.Keys && |m.missing.Keys| == |m.missing|
  {
    assert D.UnservedKeys(m, api) == m.missing.Keys;
  }

  lemma StartsFromRun(c: Config, es: seq<Event>, sched: Schedule, api: Api)
    requires Runs(Init(c), es) && Due(After(Init(c), es)) && ValidSchedule(After(Init(c), es).m, sched, api)
    ensures var s := After(Init(c), es);
            D.StartsReconciling(Channels(s, sched, api), s.m, sched, api) && MissingUnserved(s.m)
  {
    assert After(Init(c), es).mq[0] in After(Init(c), es).mq;
    ReconciliationStartsTidy(c, es);
  }

  /** In every run: when the reconciliation is due it can deadlock exactly when the users in the
      pool and the missing candidates are too many. */
  lemma DeadlockAtReconciliation(c: Config, es: seq<Event>)
    requires Runs(Init(c), es) && Due(After(Init(c), es))
    ensures var s := After(Init(c), es);
            ReconciliationCanDeadlock(s) <==> D.TooMany(|s.m.pool|, |s.m.missing|)
  {
    var s := After(Init(c), es);
    if D.TooMany(|s.m.pool|, |s.m.missing|) {
      var api := Api({}, map[], true);
      var sched := SomeSchedule(s.m, api);
      StartsFromRun(c, es, sched, api);
      AllMissingUnserved(s.m, api);
      D.DeadlockExactly(Channels(s, sched, api), s.m, sched, api);
      assert DeadlocksWith(s, sched, api);
    } else {
      forall sched, api ensures !DeadlocksWith(s, sched, api) {
        if ValidSchedule(s.m, sched, api) {
          StartsFromRun(c, es, sched, api);
          AllMissingUnserved(s.m, api);
          NeverStuck(Channels(s, sched, api), s.m, sched, api);
        }
      }
    }
  }

  lemma NeverStuck(n: D.Net, m: Manager, sched: Schedule, api: Api)
    requires D.StartsReconciling(n, m, sched, api) && !D.TooMany(|m.pool|, |D.UnservedKeys(m, api)|)
    ensures !D.CanDeadlock(n)
  {
    forall es ensures !D.DeadlocksBy(n, es) {
      if D.Runs(n, es) {
        D.NoDeadlock(n, m, sched, api, es);
      }
    }
  }

  // ---------- Start-ups that lead to it ----------

  /** The services listed at the start that have no identity. */
  ghost function NewServices(c: Config): set<string> {
    set x | x in c.deployments + c.sdpServices && x.namespace.Some? && x.ServiceId().value !in Restored(c).services
      :: x.ServiceId().value
  }

  /** Every configuration has a run to its reconciliation, and the deadlock threatens there
      exactly when the announced spare users and the new services are too many. */
  lemma StartUpDeadlocks(c: Config) returns (es: seq<Event>)
    ensures Runs(Init(c), es) && Due(After(Init(c), es))
    ensures var s := After(Init(c), es);
            && s.m.pool == Collect(c.plan, PlannedSpare) && s.m.missing.Keys == NewServices(c)
            && (ReconciliationCanDeadlock(s) <==> D.TooMany(|Collect(c.plan, PlannedSpare)|, |NewServices(c)|))
  {
    es := OrderlyRun(c);
    PreparedFor(c);
    var s := After(Init(c), es);
    assert |s.m.missing.Keys| == |s.m.missing|;
    DeadlockAtReconciliation(c, es);
  }

  lemma PreparedFor(c: Config)
    ensures Prepared(c).pool == Collect(c.plan, PlannedSpare) && Prepared(c).missing.Keys == NewServices(c)
  {
    var m := Told(Restored(c), c.plan);
    RestoredFlags(c);
    ToldPool(Restored(c), c.plan);
    ShownFrame(m, c.deployments);
    ShownFrame(Shown(m, c.deployments), c.sdpServices);
    ShownMissing(m, c.deployments);
    ShownMissing(Shown(m, c.deployments), c.sdpServices);
  }

  function Letters(i: nat): string { seq(i, _ => 'a') }

  /** Spare users and services told apart by the lengths of their names. */
  function Spares(n: nat): seq<Announcement> {
    if n == 0 then [] else Spares(n - 1) + [Announcement(NewUser(Letters(n), "", ""), false)]
  }

  function Services(n: nat): seq<ServiceCandidate> {
    if n == 0 then [] else Services(n - 1) + [ServiceCandidate(Some("ns"), Letters(n), map[])]
  }

  ghost function Ids(cs: seq<ServiceCandidate>): set<string> {
    set x | x in cs && x.namespace.Some? :: x.ServiceId().value
  }

  lemma {:induction false} CountSpares(n: nat)
    ensures |Collect(Spares(n), PlannedSpare)| == n
  {
    if n > 0 {
      CountSpares(n - 1);
      CollectAppend(Spares(n - 1), Announcement(NewUser(Letters(n), "", ""), false), PlannedSpare);
    }
  }

  lemma {:induction false} CountServices(n: nat)
    ensures |Ids(Services(n))| == n && forall k :: k in Ids(Services(n)) ==> |k| <= 3 + n
  {
    if n > 0 {
      CountServices(n - 1);
      var x := ServiceCandidate(Some("ns"), Letters(n), map[]);
      assert |x.ServiceId().value| == 3 + n;
      assert Ids(Services(n)) == Ids(Services(n - 1)) + {x.ServiceId().value};
    }
  }

  /** For all numbers that are too many there is a cluster, started afresh, that runs into the
      deadlock; 42 spare users and 42 services are enough. */
  lemma DeadlockHappens(users: nat, waiting: nat) returns (c: Config, es: seq<Event>)
    ensures Runs(Init(c), es) && Due(After(Init(c), es))
    ensures var s := After(Init(c), es);
            && |s.m.pool| == users && |s.m.missing| == waiting
            && (ReconciliationCanDeadlock(s) <==> D.TooMany(users, waiting))
    ensures users == waiting == 42 ==> ReconciliationCanDeadlock(After(Init(c), es))
  {
    c := Config("cluster", [], Spares(users), Services(waiting), []);
    es := StartUpDeadlocks(c);
    CountSpares(users);
    CountServices(waiting);
    assert Services(waiting) + [] == Services(waiting);
    assert NewServices(c) == Ids(Services(waiting));
    assert |After(Init(c), es).m.missing.Keys| == |After(Init(c), es).m.missing|;
  }
}
