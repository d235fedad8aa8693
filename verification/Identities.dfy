/** Entities and messages of the identity service. */
module Identities {
  import opened Collections
  import opened Uuids
  import Naming

  datatype ServiceUser = ServiceUser(
    id: string, name: string, password: string, profileUrl: string, deviceIds: Option<seq<string>>)

  /** A user just created: its name is its id, and it has no device ids. */
  function NewUser(id: string, password: string, url: string): ServiceUser {
    ServiceUser(id, id, password, url, Some([]))
  }

  datatype ServiceIdentity = ServiceIdentity(
    user: ServiceUser, name: string, namespace: string, labels: map<string, string>, disabled: bool)
  {
    function ServiceId(): string { Naming.ServiceId(namespace, name) }
  }

  /** A deployment or an SDPService that may need an identity. An object without a
      namespace has no service id, and every handler ignores it. */
  datatype ServiceCandidate = ServiceCandidate(
    namespace: Option<string>, name: string, labels: map<string, string>)
  {
    function ServiceId(): Option<string> {
      if namespace.Some? then Some(Naming.ServiceId(namespace.value, name)) else None
    }
  }

  /** Messages received by the identity manager. */
  datatype ManagerMsg =
    | RequestServiceIdentity(candidate: ServiceCandidate)
    | DeleteServiceIdentity(identity: ServiceIdentity)
    | FoundServiceCandidate(candidate: ServiceCandidate)
    | DeletedServiceCandidate(candidate: ServiceCandidate)
    | FoundServiceUser(user: ServiceUser, activated: bool)
    | ActivatedServiceUser(user: ServiceUser, namespace: string, name: string)
    | IdentityCreatorReady
    | DeploymentWatcherReady
    | IdentityManagerReady
    | ReleaseDeviceId(namespace: string, name: string, uuid: Uuid)

  /** The user a message brings to the pool. */
  function FoundSpare(msg: ManagerMsg): Option<ServiceUser> {
    if msg.FoundServiceUser? && !msg.activated then Some(msg.user) else None
  }

  /** Messages received by the identity creator. */
  datatype CreatorMsg =
    | StartService
    | CreateIdentity
    | ActivateServiceUser(
        user: ServiceUser, cluster: string, namespace: string, name: string, labels: map<string, string>)
    | DeleteServiceUser(user: ServiceUser, namespace: string, name: string)
    | DeleteSDPUser(id: string)
    | ReconcileSDPUsers(names: set<string>)
    | UnregisterDeviceId(user: ServiceUser, uuid: Uuid)
}
