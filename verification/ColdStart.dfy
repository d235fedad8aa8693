/** Where the assumptions about the start of a run come from: the creator's initialization
    announces what the theorems about runs ask of it, whatever state a crash left behind. */
module ColdStart {
  import opened Collections
  import opened Identities
  import opened ManagerModel
  import opened IdentitySystem
  import opened Ownership
  import opened PoolLevel
  import opened ActivationTarget
  import opened CreatorModel
  import opened IdentityCreators
  import opened OrderlyStart
  import Deadlock

  /** Number of unassigned users the creator prepares. */
  const CREDENTIALS_POOL_SIZE: nat := 10

  /** The messages sent by the initialization as the plan of the creator process. */
  function Plan(sent: seq<ManagerMsg>): seq<Announcement> {
    if sent == [] then []
    else
      (if sent[0].FoundServiceUser? then [Announcement(sent[0].user, sent[0].activated)] else []) + Plan(sent[1..])
  }

  lemma {:induction false} PlannedSpares(sent: seq<ManagerMsg>)
    ensures Collect(Plan(sent), PlannedSpare) == Collect(sent, FoundSpare)
  {
    if sent != [] {
      PlannedSpares(sent[1..]);
      if sent[0].FoundServiceUser? {
        assert Plan(sent)[0] == Announcement(sent[0].user, sent[0].activated) && Plan(sent)[1..] == Plan(sent[1..]);
      } else {
        assert Plan(sent) == Plan(sent[1..]);
      }
    }
  }

  lemma {:induction false} SpareIdsMatch(sent: seq<ManagerMsg>)
    ensures |Collect(sent, SpareId)| == |Collect(sent, FoundSpare)|
    ensures forall i :: 0 <= i < |Collect(sent, SpareId)| ==> Collect(sent, FoundSpare)[i].id == Collect(sent, SpareId)[i]
  {
    if sent != [] {
      SpareIdsMatch(sent[1..]);
    }
  }

  /** A spare user is disabled at the controller, under the name announced. */
  lemma SpareIsDisabled(p: Progress, u: ServiceUser)
    requires Consistent(p) && u in Collect(p.sent, FoundSpare)
    ensures u.id in p.world.users && p.world.users[u.id] == SdpUser(u.name, true)
  {
    CollectMember(p.sent, FoundSpare, u);
    var i :| 0 <= i < |p.sent| && FoundSpare(p.sent[i]) == Some(u);
    assert Faithful(p.world, p.sent[i]);
  }

  /** What the stores have to say before the start: the identities left by an earlier run hold
      distinct users, and none of these is disabled at the controller with a known password
      or created anew. */
  ghost predicate Restartable(c: Config, w: World, ds: seq<Draw>, size: nat)
    requires |ds| == size
  {
    var services := Restored(c).services;
    && (forall k, l :: k in services && l in services && k != l ==> services[k].user.id != services[l].user.id)
    && (forall k :: k in services ==>
          services[k].user.id !in RecoverableSpares(w) && services[k].user.id !in Created(w, ds, size))
  }

  /** Users recovered as disabled are named after their ids. */
  predicate NamedById(w: World) {
    forall id :: id in RecoverableSpares(w) ==> w.users[id].name == id
  }

  /** The creator's announcements as the plan of a run. */
  ghost predicate StartsFrom(c: Config, w: World, order: seq<string>, ds: seq<Draw>, size: nat, x: Context) {
    ValidInput(w, order, ds, size) && c.plan == Plan(Initialize(w, order, ds, size, x).sent)
  }

  /** The spare users of the plan: every disabled user recovered, every user created. */
  lemma PlanSpares(c: Config, w: World, order: seq<string>, ds: seq<Draw>, size: nat, x: Context)
    requires StartsFrom(c, w, order, ds, size, x)
    ensures var spares := Collect(c.plan, PlannedSpare);
            && DistinctIds(spares) && |spares| == Max(size, |RecoverableSpares(w)|)
            && (forall id :: id in RecoverableSpares(w) || id in Created(w, ds, size) <==> exists u :: u in spares && u.id == id)
  {
    InitializeRecovers(w, order, ds, size, x);
    var r := Initialize(w, order, ds, size, x);
    PlannedSpares(r.sent);
    SparesAreDisabled(r);
    SparesAfter(w, order, ds, size, x);
    SparesById(r.sent);
  }

  /** The spare users of the announcements, and their ids. */
  lemma SparesById(sent: seq<ManagerMsg>)
    requires NoDup(AnnouncedIds(sent))
    ensures DistinctIds(Collect(sent, FoundSpare))
    ensures forall id :: id in Collect(sent, SpareId) <==> exists u :: u in Collect(sent, FoundSpare) && u.id == id
  {
    SparesDistinct(sent);
    SpareIdsMatch(sent);
    var spares, ids := Collect(sent, FoundSpare), Collect(sent, SpareId);
    forall id | id in ids ensures exists u :: u in spares && u.id == id {
      var i :| 0 <= i < |ids| && ids[i] == id;
      assert spares[i] in spares && spares[i].id == id;
    }
  }

  /** A spare user goes by its name at the controller. */
  lemma PlanNames(c: Config, w: World, order: seq<string>, ds: seq<Draw>, size: nat, x: Context)
    requires StartsFrom(c, w, order, ds, size, x)
    ensures Addressable(Collect(c.plan, PlannedSpare)) <==> NamedById(w)
  {
    PlanSpares(c, w, order, ds, size, x);
    InitializeRecovers(w, order, ds, size, x);
    var r := Initialize(w, order, ds, size, x);
    PlannedSpares(r.sent);
    var spares := Collect(c.plan, PlannedSpare);
    forall u | u in spares
      ensures u.name == if u.id in RecoverableSpares(w) then w.users[u.id].name else u.id
    {
      SpareIsDisabled(r, u);
    }
  }

  /** The announcements of the initialization are a clean start exactly when the stores allow
      it. */
  lemma InitializationIsClean(c: Config, w: World, order: seq<string>, ds: seq<Draw>, size: nat, x: Context)
    requires StartsFrom(c, w, order, ds, size, x)
    ensures CleanStart(c) <==> Restartable(c, w, ds, size)
  {
    PlanSpares(c, w, order, ds, size, x);
    var spares, services := Collect(c.plan, PlannedSpare), Restored(c).services;
    forall k | k in services
      ensures (forall u :: u in spares ==> u.id != services[k].user.id) <==>
              services[k].user.id !in RecoverableSpares(w) && services[k].user.id !in Created(w, ds, size)
    {
    }
  }

  /** The creator process of a run answers as the creator does. */
  lemma ServeSendsReplies(s: State, d: Draw, suffix: string, x: Context, ok: Calls)
    requires s.creator.Running? && s.cq != []
    ensures Serve(s, ok.Ok(), d.id, d.password, x.url, suffix).mq == s.mq + Replies(s.cq[0], d, suffix, x, ok)
  {
  }

  /** Which messages get an answer when nothing is refused, as the analysis of the channels has
      it, and which user an activation modifies, as the analysis of activations has it. */
  lemma CreatorAsAnalysed(w: World, msg: CreatorMsg, d: Draw, suffix: string, x: Context)
    ensures Deadlock.Answered(msg) <==> Replies(msg, d, suffix, x, Calls(true, true)) != []
    ensures msg.ActivateServiceUser? ==>
              forall id :: id in w.users ==>
                (Handled(w, msg, d, suffix, Calls(true, true)).users[id] == w.users[id] || id == ModifiedUser(msg.user))
                && (id == ModifiedUser(msg.user) ==> !Handled(w, msg, d, suffix, Calls(true, true)).users[id].disabled)
  {
  }

  /** A clean start is what it takes: the run that only delivers the announcements shares a
      user otherwise. */
  lemma CleanStartIsExact(c: Config)
    ensures (forall es :: Runs(Init(c), es) ==> Unshared(After(Init(c), es).m)) <==> CleanStart(c)
  {
    if CleanStart(c) {
      forall es | Runs(Init(c), es) ensures Unshared(After(Init(c), es).m) {
        UsersAreNeverShared(c, es);
      }
    } else {
      var es := LearnUsers(c, |c.plan|);
      AllTold(c);
      assert !Unshared(After(Init(c), es).m);
    }
  }

  lemma AllTold(c: Config)
    ensures var m := Told(Restored(c), c.plan[..|c.plan|]);
            m.pool == Collect(c.plan, PlannedSpare) && m.services == Restored(c).services
  {
    assert c.plan[..|c.plan|] == c.plan;
    RestoredFlags(c);
    ToldPool(Restored(c), c.plan);
  }

  /** Every pooled user can be addressed in all runs exactly when the spare users can. */
  lemma AddressableIsExact(c: Config)
    ensures (forall es :: Runs(Init(c), es) ==> Addressable(After(Init(c), es).m.pool))
            <==> Addressable(Collect(c.plan, PlannedSpare))
  {
    if Addressable(Collect(c.plan, PlannedSpare)) {
      forall es | Runs(Init(c), es) ensures Addressable(After(Init(c), es).m.pool) {
        RunIsOnTarget(c, es);
      }
    } else {
      var es := LearnUsers(c, |c.plan|);
      AllTold(c);
      assert !Addressable(After(Init(c), es).m.pool);
    }
  }

  /** From any crash state: in all runs users are never shared exactly when the stores are
      restartable, and activations find their user exactly when disabled users are named after
      their ids; and without failures the pool is filled again whenever the queues are
      drained. */
  lemma SafeStartExactly(c: Config, w: World, order: seq<string>, ds: seq<Draw>, x: Context)
    requires StartsFrom(c, w, order, ds, CREDENTIALS_POOL_SIZE, x)
    ensures (forall es :: Runs(Init(c), es) ==> Unshared(After(Init(c), es).m)) <==> Restartable(c, w, ds, CREDENTIALS_POOL_SIZE)
    ensures (forall es :: Runs(Init(c), es) ==> Addressable(After(Init(c), es).m.pool)) <==> NamedById(w)
    ensures forall es :: Runs(Init(c), es) && (forall e :: e in es ==> FailureFree(e)) ==>
              var s := After(Init(c), es);
              s.creator.Running? && s.mq == [] && s.cq == [] ==> |s.m.pool| >= POOL_LOW_MARK
  {
    CleanStartIsExact(c);
    AddressableIsExact(c);
    InitializationIsClean(c, w, order, ds, CREDENTIALS_POOL_SIZE, x);
    PlanNames(c, w, order, ds, CREDENTIALS_POOL_SIZE, x);
    PlanSpares(c, w, order, ds, CREDENTIALS_POOL_SIZE, x);
    forall es | Runs(Init(c), es) && (forall e :: e in es ==> FailureFree(e))
      ensures var s := After(Init(c), es);
              s.creator.Running? && s.mq == [] && s.cq == [] ==> |s.m.pool| >= POOL_LOW_MARK
    {
      PoolStaysFilled(c, es);
    }
  }

  /** The crash state that is not restartable: the API has stored an identity whose user is not
      yet activated. The next start restores the identity and announces its user as spare. */
  lemma CrashBeforeActivation(c: Config, w: World, order: seq<string>, ds: seq<Draw>, size: nat, x: Context, k: string)
    returns (es: seq<Event>)
    requires StartsFrom(c, w, order, ds, size, x)
    requires k in Restored(c).services && Restored(c).services[k].user.id in RecoverableSpares(w)
    ensures Runs(Init(c), es)
    ensures var m := After(Init(c), es).m;
            k in m.services && exists u :: u in m.pool && u.id == m.services[k].user.id
  {
    es := LearnUsers(c, |c.plan|);
    AllTold(c);
    PlanSpares(c, w, order, ds, size, x);
  }
}
