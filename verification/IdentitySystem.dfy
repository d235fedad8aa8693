/** The identity service as a whole: manager, creator, two candidate watchers and the pod
    watcher, exchanging messages over first-in-first-out queues. A run is any sequence of
    events; the outside world decides the order and the answers of the APIs. */
module IdentitySystem {
  import opened Collections
  import opened Identities
  import opened ManagerModel
  import opened Uuids
  import Naming

  /** A user the creator reports while it initializes. */
  datatype Announcement = Announcement(user: ServiceUser, activated: bool)

  datatype Creator =
    | Asleep(plan: seq<Announcement>)
    | Announcing(plan: seq<Announcement>)
    | Running
  {
    /** The announcements still to be sent. */
    function Pending(): seq<Announcement> {
      if Running? then [] else plan
    }
  }

  datatype Watcher = Listing(candidates: seq<ServiceCandidate>) | AwaitingManager | Watching

  /** `owner`, `latest`, `used`, `emitted` and `begun` are history: no step reads them.
      `owner` records the service each user was ever granted to, `latest` the user most
      recently granted to each service, `used` every user id ever seen, `emitted` how often
      IdentityManagerReady was sent and `begun` whether it has been received. */
  datatype State = State(
    m: Manager,
    work: Work,
    mq: seq<ManagerMsg>,
    cq: seq<CreatorMsg>,
    creator: Creator,
    watchers: seq<Watcher>,
    released: bool,
    owner: set<(string, string)>,
    latest: map<string, string>,
    used: set<string>,
    emitted: nat,
    begun: bool)

  /** What the outside world contributes to a run before it starts. */
  datatype Config = Config(
    cluster: string,
    restored: seq<ServiceIdentity>,
    plan: seq<Announcement>,
    deployments: seq<ServiceCandidate>,
    sdpServices: seq<ServiceCandidate>)

  ghost function Restored(c: Config): Manager {
    Restore(Manager(c.cluster, [], map[], {}, map[], {}, {}, false, 0), c.restored)
  }

  ghost function Init(c: Config): State {
    var m := Restored(c);
    State(m, Idle, [], [StartService], Asleep(c.plan), [Listing(c.deployments), Listing(c.sdpServices)], false,
          set k | k in m.services :: (m.services[k].user.id, k), map[],
          (set k | k in m.services :: m.services[k].user.id) + (set a | a in c.plan :: a.user.id), 0, false)
  }

  datatype Event =
    | ManagerReceive(api: Api, sched: Schedule)
    | ManagerWork(api: Api, sched: Schedule)
    | CreatorReceive(ok: bool, newId: string, password: string, url: string, suffix: string)
    | CreatorAnnounce
    | WatcherList(w: nat)
    | WatcherRelease(w: nat)
    | WatcherSend(w: nat, msg: ManagerMsg)
    | PodEnd(namespace: string, name: string, uuid: Uuid)

  /** The lookup before a creation asks for an object named after the service id; objects
      are created under the service name, so it never finds one. */
  predicate Honest(api: Api) {
    forall id :: id in api.creates ==> !api.creates[id].FoundExisting?
  }

  ghost predicate Enabled(s: State, e: Event) {
    match e
    case ManagerReceive(api, sched) =>
      s.work.Idle? && s.mq != [] && Honest(api) && (s.mq[0].IdentityManagerReady? ==> CanStart(s.m, sched))
    case ManagerWork(api, sched) => CanStep(s.m, s.work, sched) && Honest(api)
    case CreatorReceive(_, newId, _, _, _) =>
      !s.creator.Announcing? && s.cq != [] && (s.cq[0].CreateIdentity? ==> newId !in s.used)
    case CreatorAnnounce => s.creator.Announcing?
    case WatcherList(w) => w < |s.watchers| && s.watchers[w].Listing?
    case WatcherRelease(w) => w < |s.watchers| && s.watchers[w].AwaitingManager? && s.released
    case WatcherSend(w, msg) =>
      w < |s.watchers| && s.watchers[w].Watching? && (msg.RequestServiceIdentity? || msg.DeletedServiceCandidate?)
    case PodEnd(_, _, _) => true
  }

  function Latest(latest: map<string, string>, granted: seq<Assignment>): map<string, string> {
    if granted == [] then latest
    else Latest(latest, granted[..|granted| - 1])[granted[|granted| - 1].service := granted[|granted| - 1].user.id]
  }

  function ReadySignal(msg: ManagerMsg): Option<()> {
    if msg.IdentityManagerReady? then Some(()) else None
  }

  /** The manager's new state, its messages appended to the queues. */
  function Absorb(s: State, e: Effect): State {
    s.(m := e.manager, cq := s.cq + e.toCreator, mq := s.mq + e.toSelf,
       owner := s.owner + (set a | a in e.granted :: (a.user.id, a.service)),
       latest := Latest(s.latest, e.granted),
       emitted := s.emitted + |Collect(e.toSelf, ReadySignal)|)
  }

  function Pop(s: State): State
    requires s.mq != []
  {
    s.(mq := s.mq[1..])
  }

  function PopCreator(s: State): State
    requires s.cq != []
  {
    s.(cq := s.cq[1..])
  }

  function Push(s: State, msg: ManagerMsg): State {
    s.(mq := s.mq + [msg])
  }

  /** The manager takes one message and runs its handler; IdentityManagerReady only begins
      the reconciliation. */
  ghost function Receive(s: State, api: Api, sched: Schedule): State
    requires Enabled(s, ManagerReceive(api, sched))
  {
    if s.mq[0].IdentityManagerReady? then Pop(s).(work := Start(s.m, sched), begun := true)
    else Absorb(Pop(s), Handle(s.m, s.mq[0], api))
  }

  ghost function DoWork(s: State, api: Api, sched: Schedule): State
    requires Enabled(s, ManagerWork(api, sched))
  {
    var (effect, work) := WorkStep(s.m, s.work, sched, api);
    Absorb(s, effect).(work := work, released := s.released || work.Idle?)
  }

  /** The creator takes one message. Asleep it only reacts to StartService. */
  function Serve(s: State, ok: bool, newId: string, password: string, url: string, suffix: string): State
    requires s.cq != []
  {
    var s' := PopCreator(s);
    if s.creator.Asleep? then
      if s.cq[0].StartService? then s'.(creator := Announcing(s.creator.plan)) else s'
    else
      match s.cq[0]
      case CreateIdentity =>
        if ok then Push(s', FoundServiceUser(NewUser(newId, password, url), false)).(used := s.used + {newId}) else s'
      case ActivateServiceUser(u, cluster, namespace, name, _) =>
        Push(s', ActivatedServiceUser(u.(name := Naming.ServiceUsername(cluster, namespace, name, suffix)), namespace, name))
      case _ => s'
  }

  function Announce(s: State): State
    requires s.creator.Announcing?
  {
    var plan := s.creator.plan;
    if plan == [] then Push(s, IdentityCreatorReady).(creator := Running)
    else Push(s, FoundServiceUser(plan[0].user, plan[0].activated)).(creator := Announcing(plan[1..]))
  }

  function ListCandidate(s: State, w: nat): State
    requires w < |s.watchers| && s.watchers[w].Listing?
  {
    var cs := s.watchers[w].candidates;
    if cs == [] then Push(s, DeploymentWatcherReady).(watchers := s.watchers[w := AwaitingManager])
    else Push(s, FoundServiceCandidate(cs[0])).(watchers := s.watchers[w := Listing(cs[1..])])
  }

  ghost function Next(s: State, e: Event): State
    requires Enabled(s, e)
  {
    match e
    case ManagerReceive(api, sched) => Receive(s, api, sched)
    case ManagerWork(api, sched) => DoWork(s, api, sched)
    case CreatorReceive(ok, newId, password, url, suffix) => Serve(s, ok, newId, password, url, suffix)
    case CreatorAnnounce => Announce(s)
    case WatcherList(w) => ListCandidate(s, w)
    case WatcherRelease(w) => s.(watchers := s.watchers[w := Watching])
    case WatcherSend(_, msg) => Push(s, msg)
    case PodEnd(namespace, name, uuid) => Push(s, ReleaseDeviceId(namespace, name, uuid))
  }

  /** `es` is a run from `s`. */
  ghost predicate Runs(s: State, es: seq<Event>)
    decreases es
  {
    es == [] || (Enabled(s, es[0]) && Runs(Next(s, es[0]), es[1..]))
  }

  ghost function After(s: State, es: seq<Event>): State
    requires Runs(s, es)
    decreases es
  {
    if es == [] then s else After(Next(s, es[0]), es[1..])
  }

  // ---------- The supply of unassigned users ----------

  function PlannedSpare(a: Announcement): Option<ServiceUser> {
    if a.activated then None else Some(a.user)
  }

  function Refill(msg: CreatorMsg): Option<()> {
    if msg.CreateIdentity? then Some(()) else None
  }

  /** Unassigned users, from the one granted next to the one announced last: the pool, then
      those under way to it, then those the creator has still to announce. */
  function Supply(s: State): seq<ServiceUser> {
    s.m.pool + Collect(s.mq, FoundSpare) + Collect(s.creator.Pending(), PlannedSpare)
  }

  function Refills(s: State): nat {
    |Collect(s.cq, Refill)|
  }

  /** The creator cannot miss a message: the one that wakes it comes first. */
  predicate WakesFirst(s: State) {
    s.creator.Asleep? ==> s.cq != [] && s.cq[0].StartService?
  }

  lemma SupplyPop(s: State)
    requires s.mq != [] && FoundSpare(s.mq[0]).None?
    ensures Supply(Pop(s)) == Supply(s)
  {
  }

  /** A handler that takes `n` users from the pool takes the first `n` of the supply. */
  lemma SupplyAbsorb(s: State, e: Effect, n: nat)
    requires n <= |s.m.pool| && e.manager.pool == s.m.pool[n..]
    requires Collect(e.toSelf, FoundSpare) == []
    ensures Supply(Absorb(s, e)) == Supply(s)[n..]
    ensures Refills(Absorb(s, e)) == Refills(s) + |Collect(e.toCreator, Refill)|
  {
    CollectConcat(s.mq, e.toSelf, FoundSpare);
    CollectConcat(s.cq, e.toCreator, Refill);
  }

  /** A message from anywhere but the creator leaves the supply alone. */
  lemma SupplyPush(s: State, msg: ManagerMsg)
    requires FoundSpare(msg).None?
    ensures Supply(Push(s, msg)) == Supply(s)
  {
    CollectAppend(s.mq, msg, FoundSpare);
  }

  /** A deactivated user that arrives joins the pool: it stays where it was in the supply. */
  lemma SupplyArrives(s: State)
    requires s.mq != [] && FoundSpare(s.mq[0]).Some?
    ensures Supply(Absorb(Pop(s), Silent(FoundUser(s.m, s.mq[0].user, false)))) == Supply(s)
  {
    assert s.mq[1..] + [] == s.mq[1..];
  }

  lemma SupplyAnnounce(s: State)
    requires s.creator.Announcing?
    ensures Supply(Announce(s)) == Supply(s) && Refills(Announce(s)) == Refills(s)
  {
    var plan := s.creator.plan;
    CollectAppend(s.mq, if plan == [] then IdentityCreatorReady else FoundServiceUser(plan[0].user, plan[0].activated), FoundSpare);
  }

  /** A served refill turns into one more user at the end of the supply. */
  lemma SupplyServe(s: State, ok: bool, newId: string, password: string, url: string, suffix: string)
    requires s.cq != [] && !s.creator.Announcing? && WakesFirst(s)
    ensures var s' := Serve(s, ok, newId, password, url, suffix);
            && WakesFirst(s')
            && (if s.creator.Running? && s.cq[0].CreateIdentity? then
                  && Supply(s') == Supply(s) + (if ok then [NewUser(newId, password, url)] else [])
                  && Refills(s') == Refills(s) - 1
                else Supply(s') == Supply(s) && Refills(s') == Refills(s))
  {
    if s.creator.Running? {
      match s.cq[0]
      case CreateIdentity => SupplyGrows(PopCreator(s), NewUser(newId, password, url));
      case ActivateServiceUser(u, cluster, namespace, name, _) =>
        SupplyPush(PopCreator(s), ActivatedServiceUser(
          u.(name := Naming.ServiceUsername(cluster, namespace, name, suffix)), namespace, name));
      case _ =>
    }
  }

  lemma SupplyGrows(s: State, u: ServiceUser)
    requires s.creator.Running?
    ensures Supply(Push(s, FoundServiceUser(u, false))) == Supply(s) + [u]
  {
    CollectAppend(s.mq, FoundServiceUser(u, false), FoundSpare);
  }

  // ---------- Handlers that grant and activate nothing ----------

  predicate FiledByKey(m: Manager) {
    forall k :: k in m.services ==> m.services[k].ServiceId() == k
  }

  /** The pool and the users of the identities stay as they are; identities may be dropped. */
  predicate Quiet(m: Manager, e: Effect) {
    && e.granted == [] && e.manager.pool == m.pool
    && (forall k :: k in e.manager.services ==>
          && k in m.services && e.manager.services[k].ServiceId() == k
          && e.manager.services[k].user.id == m.services[k].user.id)
    && (forall msg :: msg in e.toCreator ==> !msg.ActivateServiceUser? && !msg.CreateIdentity?)
    && (forall msg :: msg in e.toSelf ==> msg.DeleteServiceIdentity? || msg.IdentityManagerReady?)
  }

  lemma DeleteQuiet(m: Manager, i: ServiceIdentity, api: Api)
    requires FiledByKey(m)
    ensures Quiet(m, Delete(m, i, api))
  {
  }

  lemma ReleaseQuiet(m: Manager, namespace: string, name: string, uuid: Uuid, api: Api)
    requires FiledByKey(m)
    ensures Quiet(m, Release(m, namespace, name, uuid, api))
  {
  }

  lemma HandleQuiet(m: Manager, msg: ManagerMsg, api: Api)
    requires FiledByKey(m) && FoundSpare(msg).None?
    requires !msg.ActivatedServiceUser? && !msg.RequestServiceIdentity? && !msg.IdentityManagerReady?
    ensures Quiet(m, Handle(m, msg, api))
  {
    match msg
    case DeleteServiceIdentity(i) => DeleteQuiet(m, i, api);
    case ReleaseDeviceId(namespace, name, uuid) => ReleaseQuiet(m, namespace, name, uuid, api);
    case _ =>
  }

  /** So is every step of the reconciliation but the requests. */
  lemma WorkQuiet(m: Manager, w: Work, sched: Schedule, api: Api)
    requires FiledByKey(m) && CanStep(m, w, sched)
    requires w.RequestingMissing? ==> w.candidates == []
    ensures Quiet(m, WorkStep(m, w, sched, api).0)
  {
    match w
    case DeletingExtra(xs, _) => if xs != [] { DeleteQuiet(m, xs[0], api); }
    case DeletingOrphans(xs, _) => if xs != [] { DeleteQuiet(m, xs[0], api); }
    case _ =>
  }

  lemma QuietSupply(s: State, e: Effect)
    requires Quiet(s.m, e)
    ensures Supply(Absorb(s, e)) == Supply(s) && Refills(Absorb(s, e)) == Refills(s)
    ensures Absorb(s, e).owner == s.owner && Absorb(s, e).latest == s.latest
  {
    CollectNone(e.toSelf, FoundSpare);
    CollectNone(e.toCreator, Refill);
    SupplyAbsorb(s, e, 0);
    assert s.owner + (set a | a in e.granted :: (a.user.id, a.service)) == s.owner;
  }
}
