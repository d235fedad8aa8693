/** The step-by-step execution of the reconciliation computes the composed handler, and
    accepts exactly the same iteration orders. */
module ReconciliationSteps {
  import opened Collections
  import opened Identities
  import opened ManagerModel
  import opened Reconciliation

  lemma {:induction false} FinishRequests(m: Manager, cs: seq<ServiceCandidate>, sched: Schedule, api: Api)
    ensures ValidFrom(m, RequestingMissing(cs), sched, api)
    ensures Finish(m, RequestingMissing(cs), sched, api) == RequestAll(m, cs, api)
    decreases cs
  {
    if cs == [] {
      assert WorkStep(m, RequestingMissing(cs), sched, api) == (Silent(m), Idle);
    } else {
      FinishRequests(Request(m, cs[0], api).manager, cs[1..], sched, api);
    }
  }

  lemma FinishStep(m: Manager, w: Work, sched: Schedule, api: Api)
    requires !w.Idle? && CanStep(m, w, sched)
    ensures var (e, w') := WorkStep(m, w, sched, api);
            && (ValidFrom(m, w, sched, api) <==> ValidFrom(e.manager, w', sched, api))
            && (ValidFrom(m, w, sched, api) ==> Finish(m, w, sched, api) == e.Then(Finish(e.manager, w', sched, api)))
  {
  }

  lemma SilentFirst(m: Manager, e: Effect)
    ensures Silent(m).Then(e) == e
  {
  }

  /** What remains when the deletions are over. */
  ghost function Closing(m: Manager, sched: Schedule, api: Api): Effect
    requires Enumerates(sched.missing, m.missing.Keys)
  {
    Send(m, [ReconcileSDPUsers(UserNames(m))]).Then(RequestAll(m, Pick(m.missing, sched.missing), api))
  }

  lemma {:induction false} SweepKeepsMissing(m: Manager, xs: seq<ServiceIdentity>, removed: set<string>, api: Api)
    ensures SweepOrphans(m, xs, removed, api).manager.missing == m.missing
    decreases xs
  {
    if xs == [] {
    } else if xs[0].ServiceId() in removed {
      SweepKeepsMissing(m, xs[1..], removed, api);
    } else {
      SweepKeepsMissing(Delete(m, xs[0], api).manager, xs[1..], removed + {xs[0].ServiceId()}, api);
    }
  }

  lemma FinishSwept(m: Manager, removed: set<string>, sched: Schedule, api: Api)
    ensures var w := DeletingOrphans([], removed);
            && (ValidFrom(m, w, sched, api) <==> Enumerates(sched.missing, m.missing.Keys))
            && (ValidFrom(m, w, sched, api) ==>
                  Finish(m, w, sched, api) == Silent(m).Then(Closing(m, sched, api)))
  {
    var w := DeletingOrphans([], removed);
    if Enumerates(sched.missing, m.missing.Keys) {
      var cs := Pick(m.missing, sched.missing);
      assert WorkStep(m, w, sched, api) == (Send(m, [ReconcileSDPUsers(UserNames(m))]), RequestingMissing(cs));
      FinishRequests(m, cs, sched, api);
      FinishStep(m, w, sched, api);
      SilentFirst(m, Closing(m, sched, api));
    } else {
      assert !CanStep(m, w, sched);
    }
  }

  lemma {:induction false} FinishOrphans(m: Manager, xs: seq<ServiceIdentity>, removed: set<string>, sched: Schedule, api: Api)
    ensures var w := DeletingOrphans(xs, removed);
            && (ValidFrom(m, w, sched, api) <==> Enumerates(sched.missing, m.missing.Keys))
            && (ValidFrom(m, w, sched, api) ==>
                  var e := SweepOrphans(m, xs, removed, api);
                  && e.manager.missing == m.missing
                  && Finish(m, w, sched, api) == e.Then(Closing(e.manager, sched, api)))
    decreases xs
  {
    var w := DeletingOrphans(xs, removed);
    SweepKeepsMissing(m, xs, removed, api);
    if xs == [] {
      FinishSwept(m, removed, sched, api);
    } else if xs[0].ServiceId() in removed {
      FinishOrphans(m, xs[1..], removed, sched, api);
      assert WorkStep(m, w, sched, api) == (Silent(m), DeletingOrphans(xs[1..], removed));
    } else {
      var e := Delete(m, xs[0], api);
      var removed' := removed + {xs[0].ServiceId()};
      FinishOrphans(e.manager, xs[1..], removed', sched, api);
      if ValidFrom(m, w, sched, api) {
        var rest := SweepOrphans(e.manager, xs[1..], removed', api);
        ThenAssociative(e, rest, Closing(rest.manager, sched, api));
      }
    }
  }

  /** What remains when the orphan users have been announced. */
  ghost predicate CanSweep(m: Manager, sched: Schedule) {
    && Enumerates(sched.orphanIdentities, OrphanIdentities(m))
    && Enumerates(sched.missing, m.missing.Keys)
  }

  ghost function Sweeping(m: Manager, removed: set<string>, sched: Schedule, api: Api): Effect
    requires CanSweep(m, sched)
  {
    var e := SweepOrphans(m, Pick(m.services, sched.orphanIdentities), removed, api);
    SweepKeepsMissing(m, Pick(m.services, sched.orphanIdentities), removed, api);
    e.Then(Closing(e.manager, sched, api))
  }

  lemma {:induction false} FinishUsers(m: Manager, ids: seq<string>, removed: set<string>, sched: Schedule, api: Api)
    ensures var w := DeletingUsers(ids, removed);
            && (ValidFrom(m, w, sched, api) <==> CanSweep(m, sched))
            && (ValidFrom(m, w, sched, api) ==>
                  Finish(m, w, sched, api) == DeleteUsers(m, ids).Then(Sweeping(m, removed, sched, api)))
    decreases ids
  {
    var w := DeletingUsers(ids, removed);
    if ids == [] {
      if Enumerates(sched.orphanIdentities, OrphanIdentities(m)) {
        FinishOrphans(m, Pick(m.services, sched.orphanIdentities), removed, sched, api);
      }
    } else {
      FinishUsers(m, ids[1..], removed, sched, api);
      if ValidFrom(m, w, sched, api) {
        assert DeleteUserMessages(ids) == [DeleteSDPUser(ids[0])] + DeleteUserMessages(ids[1..]);
        ThenAssociative(Send(m, [DeleteSDPUser(ids[0])]), DeleteUsers(m, ids[1..]), Sweeping(m, removed, sched, api));
      }
    }
  }

  ghost predicate CanAnnounce(m: Manager, sched: Schedule) {
    Enumerates(sched.orphanUsers, OrphanUsers(m)) && CanSweep(m, sched)
  }

  ghost function Announcing(m: Manager, removed: set<string>, sched: Schedule, api: Api): Effect
    requires CanAnnounce(m, sched)
  {
    DeleteUsers(m, sched.orphanUsers).Then(Sweeping(m, removed, sched, api))
  }

  lemma ExtraStep(m: Manager, xs: seq<ServiceIdentity>, removed: set<string>, sched: Schedule, api: Api)
    requires xs != []
    ensures var w, w' := DeletingExtra(xs, removed), DeletingExtra(xs[1..], removed + {xs[0].ServiceId()});
            var e := Delete(m, xs[0], api);
            && (ValidFrom(m, w, sched, api) <==> ValidFrom(e.manager, w', sched, api))
            && (ValidFrom(m, w, sched, api) ==> Finish(m, w, sched, api) == e.Then(Finish(e.manager, w', sched, api)))
  {
    FinishStep(m, DeletingExtra(xs, removed), sched, api);
  }

  lemma {:induction false} FinishExtra(m: Manager, xs: seq<ServiceIdentity>, removed: set<string>, sched: Schedule, api: Api)
    ensures var w := DeletingExtra(xs, removed);
            var e := DeleteAll(m, xs, api);
            && (ValidFrom(m, w, sched, api) <==> CanAnnounce(e.manager, sched))
            && (ValidFrom(m, w, sched, api) ==>
                  Finish(m, w, sched, api) == e.Then(Announcing(e.manager, removed + ServiceIds(xs), sched, api)))
    decreases xs
  {
    var w := DeletingExtra(xs, removed);
    if xs == [] {
      assert removed + ServiceIds(xs) == removed;
      FinishUsers(m, sched.orphanUsers, removed, sched, api);
    } else {
      var e := Delete(m, xs[0], api);
      var removed' := removed + {xs[0].ServiceId()};
      ExtraStep(m, xs, removed, sched, api);
      FinishExtra(e.manager, xs[1..], removed', sched, api);
      assert xs == [xs[0]] + xs[1..];
      assert removed' + ServiceIds(xs[1..]) == removed + ServiceIds(xs);
      if ValidFrom(m, w, sched, api) {
        var rest := DeleteAll(e.manager, xs[1..], api);
        ThenAssociative(e, rest, Announcing(rest.manager, removed + ServiceIds(xs), sched, api));
      }
    }
  }

  /** Small steps and composed handler agree, on the same schedules. */
  lemma StepsComputeReconcile(m: Manager, sched: Schedule, api: Api)
    requires CanStart(m, sched)
    ensures ValidFrom(m, Start(m, sched), sched, api) <==> ValidSchedule(m, sched, api)
    ensures ValidSchedule(m, sched, api) ==>
              Finish(m, Start(m, sched), sched, api) == Reconcile(m, sched, api)
  {
    var xs := Pick(m.services, sched.extra);
    FinishExtra(m, xs, {}, sched, api);
    assert {} + ServiceIds(xs) == ServiceIds(xs);
    DeleteAllEffect(m, xs, api);
    if ValidSchedule(m, sched, api) {
      var e1 := DeleteAll(m, xs, api);
      var users := DeleteUsers(e1.manager, sched.orphanUsers);
      var orphans := Pick(e1.manager.services, sched.orphanIdentities);
      var sweep := SweepOrphans(e1.manager, orphans, ServiceIds(xs), api);
      SweepKeepsMissing(e1.manager, orphans, ServiceIds(xs), api);
      var send := Send(sweep.manager, [ReconcileSDPUsers(UserNames(sweep.manager))]);
      var requests := RequestAll(sweep.manager, Pick(m.missing, sched.missing), api);
      ThenAssociative(e1.Then(users).Then(sweep), send, requests);
      ThenAssociative(e1.Then(users), sweep, send.Then(requests));
      ThenAssociative(e1, users, sweep.Then(send.Then(requests)));
    }
  }
}
