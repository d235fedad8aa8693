/** The handler of IdentityManagerReady as a whole: its loops composed, what they leave
    behind in terms of sets, and its agreement with the step-by-step execution. */
module Reconciliation {
  import opened Collections
  import opened Identities
  import opened ManagerModel

  /** Deletes each listed identity in turn. */
  function DeleteAll(m: Manager, xs: seq<ServiceIdentity>, api: Api): Effect
    decreases xs
  {
    if xs == [] then Silent(m)
    else
      var e := Delete(m, xs[0], api);
      e.Then(DeleteAll(e.manager, xs[1..], api))
  }

  function DeleteUserMessages(ids: seq<string>): seq<CreatorMsg> {
    seq(|ids|, i requires 0 <= i < |ids| => DeleteSDPUser(ids[i]))
  }

  function DeleteUsers(m: Manager, ids: seq<string>): Effect {
    Send(m, DeleteUserMessages(ids))
  }

  /** Deletes each listed identity that was not dealt with before. */
  function SweepOrphans(m: Manager, xs: seq<ServiceIdentity>, removed: set<string>, api: Api): Effect
    decreases xs
  {
    if xs == [] then Silent(m)
    else if xs[0].ServiceId() in removed then SweepOrphans(m, xs[1..], removed, api)
    else
      var e := Delete(m, xs[0], api);
      e.Then(SweepOrphans(e.manager, xs[1..], removed + {xs[0].ServiceId()}, api))
  }

  function RequestAll(m: Manager, cs: seq<ServiceCandidate>, api: Api): Effect
    decreases cs
  {
    if cs == [] then Silent(m)
    else
      var e := Request(m, cs[0], api);
      e.Then(RequestAll(e.manager, cs[1..], api))
  }

  lemma ThenAssociative(a: Effect, b: Effect, c: Effect)
    ensures a.Then(b).Then(c) == a.Then(b.Then(c))
  {
  }

  function Ids(xs: seq<ServiceIdentity>): seq<string> {
    seq(|xs|, i requires 0 <= i < |xs| => xs[i].ServiceId())
  }

  function ServiceIds(xs: seq<ServiceIdentity>): set<string> {
    set x | x in xs :: x.ServiceId()
  }

  ghost function AfterExtra(m: Manager, sched: Schedule, api: Api): Effect
    requires CanStart(m, sched)
  {
    DeleteAll(m, Pick(m.services, sched.extra), api)
  }

  /** The schedule is an iteration order of the collections visited by the deletion loops. */
  ghost predicate CanPrune(m: Manager, sched: Schedule, api: Api) {
    CanStart(m, sched) &&
    var m1 := AfterExtra(m, sched, api).manager;
    && Enumerates(sched.orphanUsers, OrphanUsers(m1))
    && Enumerates(sched.orphanIdentities, OrphanIdentities(m1))
  }

  /** The schedule is an iteration order of every collection the handler visits. */
  ghost predicate ValidSchedule(m: Manager, sched: Schedule, api: Api) {
    CanPrune(m, sched, api) && Enumerates(sched.missing, m.missing.Keys)
  }

  /** The three deletion loops. */
  ghost function DeletionLoops(m: Manager, sched: Schedule, api: Api): Effect
    requires CanPrune(m, sched, api)
  {
    var e1 := AfterExtra(m, sched, api);
    var removed := ServiceIds(Pick(m.services, sched.extra));
    var orphans := Pick(e1.manager.services, sched.orphanIdentities);
    e1.Then(DeleteUsers(e1.manager, sched.orphanUsers)).Then(SweepOrphans(e1.manager, orphans, removed, api))
  }

  /** The loop that serves the candidates without an identity. */
  ghost function MissingLoop(m: Manager, sched: Schedule, api: Api): Effect
    requires ValidSchedule(m, sched, api)
  {
    RequestAll(DeletionLoops(m, sched, api).manager, Pick(m.missing, sched.missing), api)
  }

  ghost function Reconcile(m: Manager, sched: Schedule, api: Api): Effect
    requires ValidSchedule(m, sched, api)
  {
    var e := DeletionLoops(m, sched, api);
    e.Then(Send(e.manager, [ReconcileSDPUsers(UserNames(e.manager))])).Then(MissingLoop(m, sched, api))
  }

  // ---------- The deletion loops as sets ----------

  /** Identities are filed under their own service id. */
  predicate Keyed(m: Manager) {
    && (forall k :: k in m.services ==> m.services[k].ServiceId() == k)
    && (forall k :: k in m.missing ==> m.missing[k].ServiceId() == Some(k))
  }

  /** The specification: an identity survives when its candidate is known and its user is
      not deactivated, or when the API refused to delete it. */
  predicate Survives(m: Manager, k: string, api: Api)
    requires k in m.services
  {
    || (k in m.existing && m.services[k].user.id !in m.deactivated)
    || k in api.failedDeletes
  }

  function DeleteMessage(i: ServiceIdentity): CreatorMsg {
    DeleteServiceUser(i.user, i.namespace, i.name)
  }

  /** The message a successful deletion sends. */
  function Deletable(api: Api): ServiceIdentity -> Option<CreatorMsg> {
    (x: ServiceIdentity) => if x.ServiceId() in api.failedDeletes then None else Some(DeleteMessage(x))
  }

  function Untouched(removed: set<string>): ServiceIdentity -> Option<ServiceIdentity> {
    (x: ServiceIdentity) => if x.ServiceId() in removed then None else Some(x)
  }

  lemma {:induction false} DeleteAllEffect(m: Manager, xs: seq<ServiceIdentity>, api: Api)
    ensures var e := DeleteAll(m, xs, api);
            && e.manager == m.(services := m.services - (ServiceIds(xs) - api.failedDeletes))
            && e.toCreator == Collect(xs, Deletable(api))
            && e.toSelf == [] && e.granted == []
            && e.deletes == Ids(xs)
    decreases xs
  {
    if xs == [] {
      assert m.services - (ServiceIds(xs) - api.failedDeletes) == m.services;
    } else {
      var id := xs[0].ServiceId();
      var e := Delete(m, xs[0], api);
      DeleteAllEffect(e.manager, xs[1..], api);
      RemoveFirst(m.services, xs, api.failedDeletes);
      assert Ids(xs) == [id] + Ids(xs[1..]);
    }
  }

  lemma RemoveFirst(services: map<string, ServiceIdentity>, xs: seq<ServiceIdentity>, failed: set<string>)
    requires xs != []
    ensures var id := xs[0].ServiceId();
            (if id in failed then services else services - {id}) - (ServiceIds(xs[1..]) - failed)
            == services - (ServiceIds(xs) - failed)
  {
  }

  /** With distinct ids, skipping the removed ones is deleting the others. */
  lemma {:induction false} SweepIsDelete(m: Manager, xs: seq<ServiceIdentity>, removed: set<string>, api: Api)
    requires forall i, j :: 0 <= i < j < |xs| ==> xs[i].ServiceId() != xs[j].ServiceId()
    ensures SweepOrphans(m, xs, removed, api)
            == DeleteAll(m, Collect(xs, Untouched(removed)), api)
    decreases xs
  {
    if xs != [] {
      if xs[0].ServiceId() in removed {
        SweepIsDelete(m, xs[1..], removed, api);
      } else {
        var e := Delete(m, xs[0], api);
        var removed' := removed + {xs[0].ServiceId()};
        SweepIsDelete(e.manager, xs[1..], removed', api);
        CollectAgree(xs[1..], Untouched(removed), Untouched(removed'));
        assert Collect(xs, Untouched(removed)) == [xs[0]] + Collect(xs[1..], Untouched(removed));
      }
    }
  }

  /** `xs` lists the identities registered under `keys`, each once. */
  ghost predicate Lists(services: map<string, ServiceIdentity>, xs: seq<ServiceIdentity>, keys: set<string>) {
    && NoDup(Ids(xs))
    && ServiceIds(xs) == keys
    && forall i :: 0 <= i < |xs| ==> xs[i].ServiceId() in services && services[xs[i].ServiceId()] == xs[i]
  }

  lemma PickLists(services: map<string, ServiceIdentity>, keys: seq<string>, all: set<string>)
    requires Enumerates(keys, all) && all <= services.Keys
    requires forall k :: k in services ==> services[k].ServiceId() == k
    ensures Lists(services, Pick(services, keys), all)
  {
  }

  lemma UntouchedLists(services: map<string, ServiceIdentity>, xs: seq<ServiceIdentity>, keys: set<string>, removed: set<string>)
    requires Lists(services, xs, keys)
    ensures Lists(services, Collect(xs, Untouched(removed)), keys - removed)
  {
    var ys := Collect(xs, Untouched(removed));
    forall x ensures x in ys <==> x in xs && x.ServiceId() !in removed {
      CollectMember(xs, Untouched(removed), x);
    }
    assert forall i :: 0 <= i < |xs| ==> Ids(xs)[i] == xs[i].ServiceId();
    CollectNoDup(xs, Untouched(removed));
    forall i, j | 0 <= i < j < |ys| ensures ys[i].ServiceId() != ys[j].ServiceId() {
      assert ys[i] in xs && ys[j] in xs;
    }
  }

  lemma ConcatLists(services: map<string, ServiceIdentity>, xs: seq<ServiceIdentity>, ys: seq<ServiceIdentity>,
                    kx: set<string>, ky: set<string>)
    requires Lists(services, xs, kx) && Lists(services, ys, ky) && kx !! ky
    ensures Lists(services, xs + ys, kx + ky) && Ids(xs + ys) == Ids(xs) + Ids(ys)
  {
    assert Ids(xs + ys) == Ids(xs) + Ids(ys);
    forall i | 0 <= i < |xs| ensures Ids(xs)[i] in kx { assert xs[i] in xs; }
    forall i | 0 <= i < |ys| ensures Ids(ys)[i] in ky { assert ys[i] in ys; }
  }

  lemma ListedIds(services: map<string, ServiceIdentity>, xs: seq<ServiceIdentity>, keys: set<string>)
    requires Lists(services, xs, keys)
    ensures Enumerates(Ids(xs), keys)
  {
    forall k | k in keys ensures k in Ids(xs) {
      var i :| 0 <= i < |xs| && xs[i].ServiceId() == k;
      assert Ids(xs)[i] == k;
    }
    forall k | k in Ids(xs) ensures k in keys {
      var i :| 0 <= i < |xs| && Ids(xs)[i] == k;
      assert xs[i] in xs;
    }
  }

  /** The extra identities, and the orphans left to sweep after them. */
  lemma SweptIdentities(m: Manager, sched: Schedule, api: Api)
    returns (extra: seq<ServiceIdentity>, swept: seq<ServiceIdentity>)
    requires Keyed(m) && ValidSchedule(m, sched, api)
    ensures extra == Pick(m.services, sched.extra)
    ensures var m1 := DeleteAll(m, extra, api).manager;
            SweepOrphans(m1, Pick(m1.services, sched.orphanIdentities), ServiceIds(extra), api)
            == DeleteAll(m1, swept, api)
    ensures Lists(m.services, extra, ExtraIdentities(m))
    ensures Lists(m.services, swept, OrphanIdentities(m) - ExtraIdentities(m))
  {
    extra := Pick(m.services, sched.extra);
    PickLists(m.services, sched.extra, ExtraIdentities(m));
    DeleteAllEffect(m, extra, api);
    var m1 := DeleteAll(m, extra, api).manager;
    var orphans := Pick(m1.services, sched.orphanIdentities);
    PickLists(m1.services, sched.orphanIdentities, OrphanIdentities(m1));
    UntouchedLists(m1.services, orphans, OrphanIdentities(m1), ServiceIds(extra));
    assert forall i :: 0 <= i < |orphans| ==> orphans[i].ServiceId() == Ids(orphans)[i];
    SweepIsDelete(m1, orphans, ServiceIds(extra), api);
    swept := Collect(orphans, Untouched(ServiceIds(extra)));
    OrphansToSweep(m, m1, api);
  }

  lemma OrphansToSweep(m: Manager, m1: Manager, api: Api)
    requires m1 == m.(services := m.services - (ExtraIdentities(m) - api.failedDeletes))
    ensures OrphanIdentities(m1) - ExtraIdentities(m) == OrphanIdentities(m) - ExtraIdentities(m)
  {
  }

  lemma SurvivorMap(m: Manager, api: Api)
    requires Keyed(m)
    ensures var extra, orphans := ExtraIdentities(m), OrphanIdentities(m);
            (m.services - (extra - api.failedDeletes)) - (orphans - extra - api.failedDeletes)
            == map k | k in m.services && Survives(m, k, api) :: m.services[k]
  {
  }

  /** Activated users that no identity left by the first loop holds. */
  ghost function UnusedAfterExtra(m: Manager, api: Api): set<string> {
    set id | id in m.activated &&
             forall k :: k in m.services && (k in m.existing || k in api.failedDeletes) ==> m.services[k].user.id != id
  }

  lemma DeleteMessages(services: map<string, ServiceIdentity>, xs: seq<ServiceIdentity>, keys: set<string>, api: Api)
    requires Lists(services, xs, keys)
    ensures NoDup(Collect(xs, Deletable(api)))
    ensures forall msg :: msg in Collect(xs, Deletable(api)) <==>
              exists k :: k in keys - api.failedDeletes && k in services && msg == DeleteMessage(services[k])
  {
    var f := Deletable(api);
    assert forall i :: 0 <= i < |xs| ==> Ids(xs)[i] == xs[i].ServiceId();
    CollectNoDup(xs, f);
    forall msg ensures msg in Collect(xs, f) <==>
              exists k :: k in keys - api.failedDeletes && k in services && msg == DeleteMessage(services[k])
    {
      CollectMember(xs, f, msg);
      if i :| 0 <= i < |xs| && f(xs[i]) == Some(msg) {
        assert xs[i] in xs;
        assert xs[i].ServiceId() in keys - api.failedDeletes;
      }
      if k :| k in keys - api.failedDeletes && k in services && msg == DeleteMessage(services[k]) {
        var i :| 0 <= i < |xs| && xs[i].ServiceId() == k;
        assert f(xs[i]) == Some(msg);
      }
    }
  }

  lemma OrphansAfterExtra(m: Manager, m1: Manager, api: Api)
    requires Keyed(m) && m1 == m.(services := m.services - (ExtraIdentities(m) - api.failedDeletes))
    ensures OrphanUsers(m1) == UnusedAfterExtra(m, api)
  {
    forall id | id in m.activated
      ensures id in UsersInUse(m1) <==>
              exists k :: k in m.services && (k in m.existing || k in api.failedDeletes) && m.services[k].user.id == id
    {
      if k :| k in m.services && (k in m.existing || k in api.failedDeletes) && m.services[k].user.id == id {
        assert k in m1.services;
      }
    }
  }

  /** The effect of the deletion loops, spelled out on the two lists of identities. */
  lemma LoopsEffect(m: Manager, sched: Schedule, api: Api)
    returns (extra: seq<ServiceIdentity>, swept: seq<ServiceIdentity>)
    requires Keyed(m) && ValidSchedule(m, sched, api)
    ensures Lists(m.services, extra, ExtraIdentities(m))
    ensures Lists(m.services, swept, OrphanIdentities(m) - ExtraIdentities(m))
    ensures Enumerates(sched.orphanUsers, UnusedAfterExtra(m, api))
    ensures DeletionLoops(m, sched, api) == Effect(
              m.(services := map k | k in m.services && Survives(m, k, api) :: m.services[k]),
              Collect(extra, Deletable(api)) + DeleteUserMessages(sched.orphanUsers) + Collect(swept, Deletable(api)),
              [], [], Ids(extra) + Ids(swept))
  {
    extra, swept := SweptIdentities(m, sched, api);
    DeleteAllEffect(m, extra, api);
    var m1 := DeleteAll(m, extra, api).manager;
    DeleteAllEffect(m1, swept, api);
    OrphansAfterExtra(m, m1, api);
    SurvivorMap(m, api);
  }

  /** The deletion loops leave exactly the surviving identities, and ask the API to delete
      every other one exactly once, whatever the iteration orders are. */
  lemma DeletionLoopsLeaveSurvivors(m: Manager, sched: Schedule, api: Api)
    requires Keyed(m) && ValidSchedule(m, sched, api)
    ensures var e := DeletionLoops(m, sched, api);
            && e.manager == m.(services := map k | k in m.services && Survives(m, k, api) :: m.services[k])
            && Enumerates(e.deletes, ExtraIdentities(m) + OrphanIdentities(m))
            && e.toSelf == [] && e.granted == []
  {
    var extra, swept := LoopsEffect(m, sched, api);
    var extras, orphans := ExtraIdentities(m), OrphanIdentities(m);
    ConcatLists(m.services, extra, swept, extras, orphans - extras);
    assert extras + (orphans - extras) == extras + orphans;
    ListedIds(m.services, extra + swept, extras + orphans);
  }

  /** What the creator is asked to delete: the users of the identities that do not survive
      and the activated users nobody holds after the first loop, each exactly once. */
  lemma DeletionLoopsMessages(m: Manager, sched: Schedule, api: Api)
    requires Keyed(m) && ValidSchedule(m, sched, api)
    ensures var sent := DeletionLoops(m, sched, api).toCreator;
            && NoDup(sent)
            && (forall msg :: msg in sent <==>
                  || (msg.DeleteSDPUser? && msg.id in UnusedAfterExtra(m, api))
                  || (exists k :: k in m.services && !Survives(m, k, api) && msg == DeleteMessage(m.services[k])))
  {
    var extra, swept := LoopsEffect(m, sched, api);
    MessagesAreExact(m, extra, swept, sched.orphanUsers, api);
  }

  /** A pooled user whose id an identity holds stays in the pool while its deletion is asked
      for, exactly when the API lets one such identity go. */
  lemma PooledUserIsDeleted(m: Manager, sched: Schedule, api: Api, u: ServiceUser)
    requires Keyed(m) && ValidSchedule(m, sched, api) && u in m.pool && u.id in m.deactivated
    ensures var e := DeletionLoops(m, sched, api);
            && u in e.manager.pool
            && ((exists msg :: msg in e.toCreator && msg.DeleteServiceUser? && msg.user.id == u.id) <==>
                (exists k :: k in m.services && m.services[k].user.id == u.id && k !in api.failedDeletes))
  {
    DeletionLoopsLeaveSurvivors(m, sched, api);
    DeletionLoopsMessages(m, sched, api);
    var sent := DeletionLoops(m, sched, api).toCreator;
    if k :| k in m.services && m.services[k].user.id == u.id && k !in api.failedDeletes {
      assert DeleteMessage(m.services[k]) in sent;
    }
  }

  lemma MessagesAreExact(m: Manager, extra: seq<ServiceIdentity>, swept: seq<ServiceIdentity>, users: seq<string>, api: Api)
    requires Keyed(m)
    requires Lists(m.services, extra, ExtraIdentities(m))
    requires Lists(m.services, swept, OrphanIdentities(m) - ExtraIdentities(m))
    requires Enumerates(users, UnusedAfterExtra(m, api))
    ensures var sent := Collect(extra, Deletable(api)) + DeleteUserMessages(users) + Collect(swept, Deletable(api));
            && NoDup(sent)
            && (forall msg :: msg in sent <==>
                  || (msg.DeleteSDPUser? && msg.id in UnusedAfterExtra(m, api))
                  || (exists k :: k in m.services && !Survives(m, k, api) && msg == DeleteMessage(m.services[k])))
  {
    var extras, orphans := ExtraIdentities(m), OrphanIdentities(m);
    DeleteMessages(m.services, extra, extras, api);
    DeleteMessages(m.services, swept, orphans - extras, api);
    var a, b, c := Collect(extra, Deletable(api)), DeleteUserMessages(users), Collect(swept, Deletable(api));
    assert forall msg :: msg in a ==> msg.DeleteServiceUser?;
    assert forall msg :: msg in c ==> msg.DeleteServiceUser?;
    assert forall msg :: msg in b <==> msg.DeleteSDPUser? && msg.id in UnusedAfterExtra(m, api) by {
      forall id | id in UnusedAfterExtra(m, api) ensures DeleteSDPUser(id) in b {
        var i :| 0 <= i < |users| && users[i] == id;
        assert b[i] == DeleteSDPUser(id);
      }
    }
    assert NoDup(b);
    forall msg | msg in a ensures msg !in c {
      var k :| k in extras - api.failedDeletes && k in m.services && msg == DeleteMessage(m.services[k]);
      assert m.services[k].ServiceId() == k;
    }
    NoDupConcat(a, b);
    NoDupConcat(a + b, c);
    forall k | k in m.services ensures !Survives(m, k, api) <==> k in extras - api.failedDeletes || k in orphans - extras - api.failedDeletes {
    }
  }

  // ---------- The loop over the missing candidates ----------

  function Unserved(services: map<string, ServiceIdentity>): ServiceCandidate -> Option<ServiceCandidate> {
    (c: ServiceCandidate) => if c.namespace.Some? && c.ServiceId().value !in services then Some(c) else None
  }

  predicate DistinctCandidates(cs: seq<ServiceCandidate>) {
    forall i, j :: 0 <= i < j < |cs| ==> cs[i].ServiceId() != cs[j].ServiceId()
  }

  /** `after` extends `before` by the identities `xs`, filed under the new keys `ids`. */
  ghost predicate Extends(before: map<string, ServiceIdentity>, after: map<string, ServiceIdentity>,
                          ids: seq<string>, xs: seq<ServiceIdentity>)
  {
    && |ids| == |xs|
    && (forall i :: 0 <= i < |ids| ==> ids[i] !in before && ids[i] in after && after[ids[i]] == xs[i])
    && (forall k :: k in before ==> k in after && after[k] == before[k])
    && (forall k :: k in after ==> k in before || k in ids)
  }

  lemma ExtendsFirst(before: map<string, ServiceIdentity>, after: map<string, ServiceIdentity>,
                     id: string, x: ServiceIdentity, ids: seq<string>, xs: seq<ServiceIdentity>)
    requires id !in before && Extends(before[id := x], after, ids, xs)
    ensures Extends(before, after, [id] + ids, [x] + xs)
  {
  }

  function CandidateIds(f: seq<ServiceCandidate>, n: nat): seq<string>
    requires n <= |f| && forall i :: 0 <= i < n ==> f[i].namespace.Some?
  {
    seq(n, i requires 0 <= i < n => f[i].ServiceId().value)
  }

  function NewIdentities(f: seq<ServiceCandidate>, pool: seq<ServiceUser>, n: nat): seq<ServiceIdentity>
    requires n <= |f| && n <= |pool| && forall i :: 0 <= i < n ==> f[i].namespace.Some?
  {
    seq(n, i requires 0 <= i < n => NewIdentity(f[i], pool[i]))
  }

  function Assignments(ids: seq<string>, pool: seq<ServiceUser>): seq<Assignment>
    requires |ids| <= |pool|
  {
    seq(|ids|, i requires 0 <= i < |ids| => Assignment(ids[i], pool[i]))
  }

  /** The first `n` of the candidates `f` were granted the first `n` users of the pool. */
  ghost predicate Granted(m: Manager, e: Effect, f: seq<ServiceCandidate>, n: nat) {
    && n <= |f| && n <= |m.pool| && (forall i :: 0 <= i < |f| ==> f[i].namespace.Some?)
    && e.manager == m.(pool := m.pool[n..], services := e.manager.services)
    && Extends(m.services, e.manager.services, CandidateIds(f, n), NewIdentities(f, m.pool, n))
    && e.granted == Assignments(CandidateIds(f, n), m.pool)
    && e.toSelf == [] && e.deletes == []
  }

  /** One grant, without the messages that follow it. */
  predicate GrantsOne(m: Manager, c: ServiceCandidate, e: Effect) {
    && c.namespace.Some? && c.ServiceId().value !in m.services && m.pool != []
    && e.manager == m.(pool := m.pool[1..],
                       services := m.services[c.ServiceId().value := NewIdentity(c, m.pool[0])])
    && e.granted == [Assignment(c.ServiceId().value, m.pool[0])]
    && e.toSelf == [] && e.deletes == []
  }

  lemma ListsFirst(c: ServiceCandidate, f: seq<ServiceCandidate>, pool: seq<ServiceUser>, n: nat)
    requires c.namespace.Some? && n <= |f| && n + 1 <= |pool|
    requires forall i :: 0 <= i < n ==> f[i].namespace.Some?
    ensures var id := c.ServiceId().value;
            && (forall i :: 0 <= i < n + 1 ==> ([c] + f)[i].namespace.Some?)
            && CandidateIds([c] + f, n + 1) == [id] + CandidateIds(f, n)
            && NewIdentities([c] + f, pool, n + 1) == [NewIdentity(c, pool[0])] + NewIdentities(f, pool[1..], n)
            && Assignments([id] + CandidateIds(f, n), pool)
               == [Assignment(id, pool[0])] + Assignments(CandidateIds(f, n), pool[1..])
  {
  }

  lemma GrantFirst(m: Manager, c: ServiceCandidate, e1: Effect, e: Effect, f: seq<ServiceCandidate>, n: nat)
    requires GrantsOne(m, c, e1) && Granted(e1.manager, e, f, n)
    ensures Granted(m, e1.Then(e), [c] + f, n + 1)
  {
    ListsFirst(c, f, m.pool, n);
    ExtendsFirst(m.services, e.manager.services, c.ServiceId().value, NewIdentity(c, m.pool[0]),
                 CandidateIds(f, n), NewIdentities(f, m.pool[1..], n));
    assert m.pool[1..][n..] == m.pool[n + 1..];
  }

  lemma GrantNone(m: Manager, f: seq<ServiceCandidate>)
    requires forall i :: 0 <= i < |f| ==> f[i].namespace.Some?
    ensures Granted(m, Silent(m), f, 0)
  {
  }

  lemma {:induction false} RequestAllSilent(m: Manager, cs: seq<ServiceCandidate>, api: Api)
    requires m.pool == []
    ensures RequestAll(m, cs, api) == Silent(m)
    decreases cs
  {
    if cs != [] {
      RequestAllSilent(m, cs[1..], api);
    }
  }

  lemma {:induction false} UnservedNamespaced(cs: seq<ServiceCandidate>, services: map<string, ServiceIdentity>)
    ensures forall c :: c in Collect(cs, Unserved(services)) ==> c.namespace.Some?
  {
    if cs != [] {
      UnservedNamespaced(cs[1..], services);
    }
  }

  /** The loop grants as many identities as the pool and the candidates allow, in order. */
  lemma {:induction false} RequestAllGrants(m: Manager, cs: seq<ServiceCandidate>, api: Api)
    requires DistinctCandidates(cs)
    ensures var f := Collect(cs, Unserved(m.services));
            Granted(m, RequestAll(m, cs, api), f, Min(|m.pool|, |f|))
    decreases cs
  {
    if cs == [] {
      GrantNone(m, []);
    } else if m.pool == [] {
      RequestAllSilent(m, cs, api);
      UnservedNamespaced(cs, m.services);
      GrantNone(m, Collect(cs, Unserved(m.services)));
    } else {
      var e := Request(m, cs[0], api);
      RequestAllGrants(e.manager, cs[1..], api);
      if Unserved(m.services)(cs[0]).Some? {
        assert GrantsOne(m, cs[0], e);
        SameUnserved(m, cs, e.manager.services);
        GrantStep(m, cs, e, RequestAll(e.manager, cs[1..], api));
      } else {
        assert e == Silent(m);
      }
    }
  }

  lemma GrantStep(m: Manager, cs: seq<ServiceCandidate>, e1: Effect, e: Effect)
    requires cs != [] && GrantsOne(m, cs[0], e1)
    requires var f := Collect(cs[1..], Unserved(m.services));
             Granted(e1.manager, e, f, Min(|m.pool| - 1, |f|))
    ensures var f := Collect(cs, Unserved(m.services));
            Granted(m, e1.Then(e), f, Min(|m.pool|, |f|))
  {
    var f, all := Collect(cs[1..], Unserved(m.services)), Collect(cs, Unserved(m.services));
    assert all == [cs[0]] + f;
    GrantFirst(m, cs[0], e1, e, f, Min(|m.pool| - 1, |f|));
    assert Min(|m.pool|, |all|) == Min(|m.pool| - 1, |f|) + 1;
  }

  lemma SameUnserved(m: Manager, cs: seq<ServiceCandidate>, services: map<string, ServiceIdentity>)
    requires cs != [] && DistinctCandidates(cs) && cs[0].namespace.Some?
    requires services.Keys == m.services.Keys + {cs[0].ServiceId().value}
    ensures Collect(cs[1..], Unserved(m.services)) == Collect(cs[1..], Unserved(services))
  {
    forall i | 0 <= i < |cs[1..]| ensures Unserved(m.services)(cs[1..][i]) == Unserved(services)(cs[1..][i]) {
      assert cs[1..][i] == cs[i + 1];
    }
    CollectAgree(cs[1..], Unserved(m.services), Unserved(services));
  }

  /** Messages caused by granting `n` users from a pool of `p`: an activation each, and a
      refill request once fewer than ten users are left. */
  function GrantMessages(p: nat, n: nat): nat
    requires n <= p
  {
    if n == 0 then 0 else (if p - 1 < POOL_LOW_MARK then 2 else 1) + GrantMessages(p - 1, n - 1)
  }

  lemma {:induction false} GrantMessagesValue(p: nat, n: nat)
    requires n <= p
    ensures GrantMessages(p, n)
            == n + if p <= POOL_LOW_MARK then n else if n <= p - POOL_LOW_MARK then 0 else n - (p - POOL_LOW_MARK)
    ensures n <= GrantMessages(p, n) <= n + Min(n, POOL_LOW_MARK)
    decreases n
  {
    if n > 0 {
      GrantMessagesValue(p - 1, n - 1);
    }
  }

  /** The messages of the loop: only refills and activations, as many as the grants cause,
      or fewer if the API refused some creations. */
  lemma {:induction false} RequestAllMessages(m: Manager, cs: seq<ServiceCandidate>, api: Api)
    ensures var e := RequestAll(m, cs, api);
            && |e.granted| <= |m.pool|
            && |e.toCreator| <= GrantMessages(|m.pool|, |e.granted|)
            && (AllCreated(api) ==> |e.toCreator| == GrantMessages(|m.pool|, |e.granted|))
            && (forall msg :: msg in e.toCreator ==> msg.CreateIdentity? || msg.ActivateServiceUser?)
    decreases cs
  {
    if cs != [] {
      var e := Request(m, cs[0], api);
      RequestAllMessages(e.manager, cs[1..], api);
    }
  }

  lemma MissingDistinct(m: Manager, keys: seq<string>)
    requires Keyed(m) && Enumerates(keys, m.missing.Keys)
    ensures DistinctCandidates(Pick(m.missing, keys))
  {
  }

  lemma UnservedMembers(cs: seq<ServiceCandidate>, services: map<string, ServiceIdentity>)
    ensures forall c :: c in Collect(cs, Unserved(services)) <==> c in cs && c.namespace.Some? && c.ServiceId().value !in services
  {
  }

  lemma UnservedAreListed(m: Manager, keys: seq<string>, services: map<string, ServiceIdentity>)
    requires Keyed(m) && Enumerates(keys, m.missing.Keys)
    requires forall c :: c in Collect(Pick(m.missing, keys), Unserved(services)) ==> c.namespace.Some?
    ensures var f := Collect(Pick(m.missing, keys), Unserved(services));
            forall k :: k in m.missing.Keys - services.Keys ==> k in CandidateIds(f, |f|)
  {
    var cs := Pick(m.missing, keys);
    var f := Collect(cs, Unserved(services));
    UnservedMembers(cs, services);
    forall k | k in m.missing.Keys - services.Keys ensures k in CandidateIds(f, |f|) {
      var i :| 0 <= i < |keys| && keys[i] == k;
      assert cs[i] in f;
      var j :| 0 <= j < |f| && f[j] == cs[i];
      assert CandidateIds(f, |f|)[j] == k;
    }
  }

  lemma ListedAreUnserved(m: Manager, keys: seq<string>, services: map<string, ServiceIdentity>)
    requires Keyed(m) && Enumerates(keys, m.missing.Keys)
    ensures var f := Collect(Pick(m.missing, keys), Unserved(services));
            forall i :: 0 <= i < |f| ==> f[i].namespace.Some? && f[i].ServiceId().value in m.missing.Keys - services.Keys
  {
    var cs := Pick(m.missing, keys);
    var f := Collect(cs, Unserved(services));
    UnservedMembers(cs, services);
    forall i | 0 <= i < |f| ensures f[i].namespace.Some? && f[i].ServiceId().value in m.missing.Keys - services.Keys {
      assert f[i] in f;
      var n :| 0 <= n < |cs| && cs[n] == f[i];
    }
  }

  lemma ListedAreDistinct(cs: seq<ServiceCandidate>, services: map<string, ServiceIdentity>)
    requires DistinctCandidates(cs)
    ensures DistinctCandidates(Collect(cs, Unserved(services)))
  {
    var f := Collect(cs, Unserved(services));
    UnservedMembers(cs, services);
    CollectNoDup(cs, Unserved(services));
    forall i, j | 0 <= i < j < |f| ensures f[i].ServiceId() != f[j].ServiceId() {
      assert f[i] in f && f[j] in f && f[i] != f[j];
    }
  }

  /** The unserved candidates, in the order of the loop, enumerate the missing services
      that have no identity. */
  lemma UnservedIds(m: Manager, keys: seq<string>, services: map<string, ServiceIdentity>)
    requires Keyed(m) && Enumerates(keys, m.missing.Keys)
    ensures var f := Collect(Pick(m.missing, keys), Unserved(services));
            && (forall i :: 0 <= i < |f| ==> f[i].namespace.Some?)
            && Enumerates(CandidateIds(f, |f|), m.missing.Keys - services.Keys)
  {
    ListedAreUnserved(m, keys, services);
    MissingDistinct(m, keys);
    ListedAreDistinct(Pick(m.missing, keys), services);
    UnservedMembers(Pick(m.missing, keys), services);
    UnservedAreListed(m, keys, services);
  }

  /** Number of identities the last loop creates: bounded by the pool and by the missing
      candidates without an identity. */
  ghost function GrantCount(m: Manager, survivors: map<string, ServiceIdentity>): nat {
    Min(|m.pool|, |m.missing.Keys - survivors.Keys|)
  }

  lemma MissingLoopGrants(m: Manager, sched: Schedule, api: Api) returns (f: seq<ServiceCandidate>)
    requires Keyed(m) && ValidSchedule(m, sched, api)
    ensures var before := DeletionLoops(m, sched, api).manager;
            && before == m.(services := before.services)
            && (forall i :: 0 <= i < |f| ==> f[i].namespace.Some?)
            && Enumerates(CandidateIds(f, |f|), m.missing.Keys - before.services.Keys)
            && Granted(before, MissingLoop(m, sched, api), f, GrantCount(m, before.services))
  {
    DeletionLoopsLeaveSurvivors(m, sched, api);
    var before := DeletionLoops(m, sched, api).manager;
    var cs := Pick(m.missing, sched.missing);
    f := Collect(cs, Unserved(before.services));
    UnservedIds(m, sched.missing, before.services);
    EnumerationLength(CandidateIds(f, |f|), m.missing.Keys - before.services.Keys);
    MissingDistinct(m, sched.missing);
    RequestAllGrants(before, cs, api);
  }

  lemma ExtendsKeys(before: map<string, ServiceIdentity>, after: map<string, ServiceIdentity>,
                    ids: seq<string>, xs: seq<ServiceIdentity>)
    requires Extends(before, after, ids, xs) && NoDup(ids)
    ensures |after| == |before| + |ids|
    ensures after.Keys - before.Keys == set k | k in ids
  {
    NoDupCardinality(ids);
    var new_ := set k | k in ids;
    assert after.Keys == before.Keys + new_;
  }

  lemma GrantedServices(before: Manager, e: Effect, f: seq<ServiceCandidate>, n: nat, unserved: set<string>)
    requires Granted(before, e, f, n) && Enumerates(CandidateIds(f, |f|), unserved)
    ensures |e.manager.services| == |before.services| + n
    ensures forall k :: k in e.manager.services && k !in before.services ==>
              k in unserved && e.manager.services[k].user in before.pool[..n]
  {
    var ids, xs := CandidateIds(f, n), NewIdentities(f, before.pool, n);
    assert ids == CandidateIds(f, |f|)[..n];
    ExtendsKeys(before.services, e.manager.services, ids, xs);
    forall k | k in e.manager.services && k !in before.services
      ensures k in unserved && e.manager.services[k].user in before.pool[..n]
    {
      var i :| 0 <= i < n && ids[i] == k;
      assert CandidateIds(f, |f|)[i] == k;
      assert e.manager.services[k] == xs[i] && xs[i].user == before.pool[..n][i];
    }
  }

  /** For every iteration order: exactly min(pool, candidates without identity) new
      identities, each for such a candidate and holding a user from the front of the pool;
      nobody else's identity changes; nothing is sent to the manager itself. */
  lemma MissingLoopServes(m: Manager, sched: Schedule, api: Api)
    requires Keyed(m) && ValidSchedule(m, sched, api)
    ensures var before := DeletionLoops(m, sched, api).manager.services;
            var e := MissingLoop(m, sched, api);
            var n := GrantCount(m, before);
            && e.manager.pool == m.pool[n..] && |e.granted| == n
            && |e.manager.services| == |before| + n
            && (forall k :: k in before ==> k in e.manager.services && e.manager.services[k] == before[k])
            && (forall k :: k in e.manager.services && k !in before ==>
                  k in m.missing && e.manager.services[k].user in m.pool[..n])
            && e.toSelf == [] && |e.toCreator| <= 2 * n
  {
    var f := MissingLoopGrants(m, sched, api);
    var before := DeletionLoops(m, sched, api).manager;
    var e := MissingLoop(m, sched, api);
    var n := GrantCount(m, before.services);
    GrantedServices(before, e, f, n, m.missing.Keys - before.services.Keys);
    RequestAllMessages(before, Pick(m.missing, sched.missing), api);
    GrantMessagesValue(|m.pool|, n);
  }

  /** As long as no user was found both activated and deactivated, no user the creator is
      asked to delete as an orphan is in the pool or held by any identity, old or new,
      when the reconciliation ends. */
  lemma OrphansAreUnused(m: Manager, sched: Schedule, api: Api, id: string)
    requires Keyed(m) && ValidSchedule(m, sched, api)
    requires m.activated !! m.deactivated
    requires forall u :: u in m.pool ==> u.id in m.deactivated
    requires DeleteSDPUser(id) in Reconcile(m, sched, api).toCreator
    ensures forall u :: u in m.pool ==> u.id != id
    ensures var services := Reconcile(m, sched, api).manager.services;
            forall k :: k in services ==> services[k].user.id != id
  {
    var before := DeletionLoops(m, sched, api);
    RequestAllMessages(before.manager, Pick(m.missing, sched.missing), api);
    assert DeleteSDPUser(id) in before.toCreator;
    DeletionLoopsMessages(m, sched, api);
    DeletionLoopsLeaveSurvivors(m, sched, api);
    NobodyHolds(m, sched, api, id);
  }

  lemma NobodyHolds(m: Manager, sched: Schedule, api: Api, id: string)
    requires Keyed(m) && ValidSchedule(m, sched, api)
    requires forall u :: u in m.pool ==> u.id != id
    requires var kept := DeletionLoops(m, sched, api).manager.services;
             forall k :: k in kept ==> kept[k].user.id != id
    ensures var services := Reconcile(m, sched, api).manager.services;
            forall k :: k in services ==> services[k].user.id != id
  {
    MissingLoopServes(m, sched, api);
  }
}
