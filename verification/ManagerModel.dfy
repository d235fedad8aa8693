/** The identity manager as values: its state, and each message handler as a function
    from a state and the answers of the Kubernetes API to a state and the messages sent. */
module ManagerModel {
  import opened Collections
  import opened Identities
  import opened Uuids
  import Naming

  const N_WATCHERS: nat := 2
  const POOL_LOW_MARK: nat := 10

  datatype Manager = Manager(
    cluster: string,
    pool: seq<ServiceUser>,
    services: map<string, ServiceIdentity>,
    existing: set<string>,
    missing: map<string, ServiceCandidate>,
    activated: set<string>,
    deactivated: set<string>,
    creatorReady: bool,
    watchersReady: nat)

  /** Answer of the API to the creation of an identity. The lookup that precedes a
      creation may find an object, which is then used instead of the submitted one. */
  datatype CreateOutcome = CreatedNew | FoundExisting(identity: ServiceIdentity) | CreateFailed

  /** Everything the API decides, by service id; ids not listed succeed. */
  datatype Api = Api(failedDeletes: set<string>, creates: map<string, CreateOutcome>, updateOk: bool)
  {
    function Create(id: string): CreateOutcome {
      if id in creates then creates[id] else CreatedNew
    }
  }

  predicate AllCreated(api: Api) {
    forall id :: id in api.creates ==> !api.creates[id].CreateFailed?
  }

  /** A user taken from the pool for a service. */
  datatype Assignment = Assignment(service: string, user: ServiceUser)

  /** Outcome of a handler: the new state, what it sent to the creator and to its own
      queue, the users it granted and the service ids whose deletion it asked of the API. */
  datatype Effect = Effect(
    manager: Manager,
    toCreator: seq<CreatorMsg>,
    toSelf: seq<ManagerMsg>,
    granted: seq<Assignment>,
    deletes: seq<string>)
  {
    function Then(next: Effect): Effect {
      Effect(next.manager, toCreator + next.toCreator, toSelf + next.toSelf,
             granted + next.granted, deletes + next.deletes)
    }
  }

  function Silent(m: Manager): Effect { Effect(m, [], [], [], []) }

  function Send(m: Manager, msgs: seq<CreatorMsg>): Effect { Effect(m, msgs, [], [], []) }

  function SendSelf(m: Manager, msgs: seq<ManagerMsg>): Effect { Effect(m, [], msgs, [], []) }

  function Register(m: Manager, i: ServiceIdentity): Manager {
    m.(services := m.services[i.ServiceId() := i])
  }

  /** Start-up: identities stored in the API are registered again. */
  function Restore(m: Manager, xs: seq<ServiceIdentity>): Manager {
    if xs == [] then m else Register(Restore(m, xs[..|xs| - 1]), xs[|xs| - 1])
  }

  /** The identity is unregistered, and its user handed to the creator for deletion,
      only if the API accepted the deletion. */
  function Delete(m: Manager, i: ServiceIdentity, api: Api): Effect {
    if i.ServiceId() in api.failedDeletes then Effect(m, [], [], [], [i.ServiceId()])
    else Effect(m.(services := m.services - {i.ServiceId()}),
                [DeleteServiceUser(i.user, i.namespace, i.name)], [], [], [i.ServiceId()])
  }

  function NewIdentity(c: ServiceCandidate, u: ServiceUser): ServiceIdentity
    requires c.namespace.Some?
  {
    ServiceIdentity(u, c.name, c.namespace.value, c.labels, false)
  }

  /** What follows a successful creation: a refill request when the pool runs low, and
      the activation of the user of the identity the API answered with. */
  function Onboard(m: Manager, c: ServiceCandidate, i: ServiceIdentity): seq<CreatorMsg> {
    (if |m.pool| < POOL_LOW_MARK then [CreateIdentity] else []) +
    [ActivateServiceUser(i.user, m.cluster, i.namespace, i.name, c.labels)]
  }

  /** An unknown service gets the oldest pooled user. The identity stays registered even
      when the API refuses to store it. */
  function Request(m: Manager, c: ServiceCandidate, api: Api): Effect {
    if c.namespace.None? || c.ServiceId().value in m.services || m.pool == [] then Silent(m)
    else
      var id := c.ServiceId().value;
      var i := NewIdentity(c, m.pool[0]);
      var m' := Register(m.(pool := m.pool[1..]), i);
      var sent := match api.Create(id)
        case CreatedNew => Onboard(m', c, i)
        case FoundExisting(stored) => Onboard(m', c, stored)
        case CreateFailed => [];
      Effect(m', sent, [], [Assignment(id, m.pool[0])], [])
  }

  function FoundCandidate(m: Manager, c: ServiceCandidate): Manager {
    if c.namespace.None? then m
    else
      var id := c.ServiceId().value;
      if id in m.services then m.(existing := m.existing + {id})
      else m.(missing := m.missing[id := c])
  }

  function FoundUser(m: Manager, u: ServiceUser, activated: bool): Manager {
    if activated then m.(activated := m.activated + {u.id})
    else m.(deactivated := m.deactivated + {u.id}, pool := m.pool + [u])
  }

  /** The registered identity takes the activated user, whether or not the API stored it. */
  function Activated(m: Manager, u: ServiceUser, namespace: string, name: string): Manager {
    var id := Naming.ServiceId(namespace, name);
    if id in m.services then Register(m, m.services[id].(user := u)) else m
  }

  function CreatorReady(m: Manager): Effect {
    SendSelf(m.(creatorReady := true),
             if m.watchersReady == N_WATCHERS then [IdentityManagerReady] else [])
  }

  function WatcherReady(m: Manager): Effect {
    SendSelf(m.(watchersReady := m.watchersReady + 1),
             if m.watchersReady + 1 == N_WATCHERS && m.creatorReady then [IdentityManagerReady] else [])
  }

  function DeletedCandidate(m: Manager, c: ServiceCandidate): Effect {
    if c.namespace.Some? && c.ServiceId().value in m.services
    then SendSelf(m, [DeleteServiceIdentity(m.services[c.ServiceId().value])])
    else Silent(m)
  }

  /** A released id joins the list of the identity, once. */
  function AddDeviceId(u: ServiceUser, uuid: Uuid): ServiceUser {
    if u.deviceIds.Some? && ToText(uuid) !in u.deviceIds.value
    then u.(deviceIds := Some(u.deviceIds.value + [ToText(uuid)]))
    else u
  }

  /** The entry is changed in place before the API is asked; a refused update only keeps
      the creator from being told. */
  function Release(m: Manager, namespace: string, name: string, uuid: Uuid, api: Api): Effect {
    var id := Naming.ServiceId(namespace, name);
    if id !in m.services then Silent(m)
    else
      var u := AddDeviceId(m.services[id].user, uuid);
      Send(m.(services := m.services[id := m.services[id].(user := u)]),
           if api.updateOk then [UnregisterDeviceId(u, uuid)] else [])
  }

  /** Every message but IdentityManagerReady, which starts the reconciliation below. */
  function Handle(m: Manager, msg: ManagerMsg, api: Api): Effect {
    match msg
    case RequestServiceIdentity(c) => Request(m, c, api)
    case DeleteServiceIdentity(i) => Delete(m, i, api)
    case FoundServiceCandidate(c) => Silent(FoundCandidate(m, c))
    case DeletedServiceCandidate(c) => DeletedCandidate(m, c)
    case FoundServiceUser(u, activated) => Silent(FoundUser(m, u, activated))
    case ActivatedServiceUser(u, namespace, name) => Silent(Activated(m, u, namespace, name))
    case IdentityCreatorReady => CreatorReady(m)
    case DeploymentWatcherReady => WatcherReady(m)
    case IdentityManagerReady => Silent(m)
    case ReleaseDeviceId(namespace, name, uuid) => Release(m, namespace, name, uuid, api)
  }

  // ---------- Reconciliation ----------

  /** Identities without a known candidate. */
  function ExtraIdentities(m: Manager): set<string> {
    set k | k in m.services && m.services[k].ServiceId() !in m.existing
  }

  function UsersInUse(m: Manager): set<string> {
    set k | k in m.services :: m.services[k].user.id
  }

  /** Activated users that no identity holds. */
  function OrphanUsers(m: Manager): set<string> {
    m.activated - UsersInUse(m)
  }

  /** Identities holding a deactivated user. */
  function OrphanIdentities(m: Manager): set<string> {
    set k | k in m.services && m.services[k].user.id in m.deactivated
  }

  /** Orders in which the hash collections happen to be visited. */
  datatype Schedule = Schedule(
    extra: seq<string>, orphanUsers: seq<string>, orphanIdentities: seq<string>, missing: seq<string>)

  /** Progress of the reconciliation: the elements its current loop has still to visit. */
  datatype Work =
    | Idle
    | DeletingExtra(identities: seq<ServiceIdentity>, removed: set<string>)
    | DeletingUsers(ids: seq<string>, removed: set<string>)
    | DeletingOrphans(identities: seq<ServiceIdentity>, removed: set<string>)
    | RequestingMissing(candidates: seq<ServiceCandidate>)

  /** Clones of the listed identities or candidates, taken before a loop starts. */
  function Pick<T>(services: map<string, T>, keys: seq<string>): (r: seq<T>)
    requires forall k :: k in keys ==> k in services
    ensures |r| == |keys| && forall i :: 0 <= i < |r| ==> r[i] == services[keys[i]]
  {
    seq(|keys|, i requires 0 <= i < |keys| => services[keys[i]])
  }

  ghost predicate CanStart(m: Manager, sched: Schedule) {
    Enumerates(sched.extra, ExtraIdentities(m))
  }

  ghost function Start(m: Manager, sched: Schedule): Work
    requires CanStart(m, sched)
  {
    DeletingExtra(Pick(m.services, sched.extra), {})
  }

  /** A loop that ends collects the elements of the next one from the state it left. */
  ghost predicate CanStep(m: Manager, w: Work, sched: Schedule) {
    match w
    case Idle => false
    case DeletingExtra(identities, _) => identities == [] ==> Enumerates(sched.orphanUsers, OrphanUsers(m))
    case DeletingUsers(ids, _) => ids == [] ==> Enumerates(sched.orphanIdentities, OrphanIdentities(m))
    case DeletingOrphans(identities, _) => identities == [] ==> Enumerates(sched.missing, m.missing.Keys)
    case RequestingMissing(_) => true
  }

  function UserNames(m: Manager): set<string> {
    set k | k in m.services :: m.services[k].user.name
  }

  /** One iteration, or the passage from one loop to the next. */
  ghost function WorkStep(m: Manager, w: Work, sched: Schedule, api: Api): (Effect, Work)
    requires CanStep(m, w, sched)
  {
    match w
    case DeletingExtra(identities, removed) =>
      if identities == [] then (Silent(m), DeletingUsers(sched.orphanUsers, removed))
      else (Delete(m, identities[0], api), DeletingExtra(identities[1..], removed + {identities[0].ServiceId()}))
    case DeletingUsers(ids, removed) =>
      if ids == [] then (Silent(m), DeletingOrphans(Pick(m.services, sched.orphanIdentities), removed))
      else (Send(m, [DeleteSDPUser(ids[0])]), DeletingUsers(ids[1..], removed))
    case DeletingOrphans(identities, removed) =>
      if identities == [] then
        (Send(m, [ReconcileSDPUsers(UserNames(m))]),
         RequestingMissing(Pick(m.missing, sched.missing)))
      else if identities[0].ServiceId() in removed then
        (Silent(m), DeletingOrphans(identities[1..], removed))
      else
        (Delete(m, identities[0], api), DeletingOrphans(identities[1..], removed + {identities[0].ServiceId()}))
    case RequestingMissing(candidates) =>
      if candidates == [] then (Silent(m), Idle)
      else (Request(m, candidates[0], api), RequestingMissing(candidates[1..]))
  }

  ghost function Rank(w: Work): nat {
    match w
    case Idle => 0
    case RequestingMissing(_) => 1
    case DeletingOrphans(_, _) => 2
    case DeletingUsers(_, _) => 3
    case DeletingExtra(_, _) => 4
  }

  ghost function Remaining(w: Work): nat {
    match w
    case Idle => 0
    case RequestingMissing(candidates) => |candidates|
    case DeletingOrphans(identities, _) => |identities|
    case DeletingUsers(ids, _) => |ids|
    case DeletingExtra(identities, _) => |identities|
  }

  /** The schedule is an iteration order of every loop still to come. */
  ghost predicate ValidFrom(m: Manager, w: Work, sched: Schedule, api: Api)
    decreases Rank(w), Remaining(w)
  {
    w.Idle? ||
    (CanStep(m, w, sched) &&
     var (e, w') := WorkStep(m, w, sched, api);
     ValidFrom(e.manager, w', sched, api))
  }

  /** The work run to its end. */
  ghost function Finish(m: Manager, w: Work, sched: Schedule, api: Api): Effect
    requires ValidFrom(m, w, sched, api)
    decreases Rank(w), Remaining(w)
  {
    if w.Idle? then Silent(m)
    else
      var (e, w') := WorkStep(m, w, sched, api);
      e.Then(Finish(e.manager, w', sched, api))
  }
}
