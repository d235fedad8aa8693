/** The identity creator as the program runs it: loops over the controller's users and the
    secret, proved against the functions of CreatorModel. */
module IdentityCreators {
  import opened Collections
  import opened Identities
  import opened CreatorModel
  import Naming

  class IdentityCreator {
    const poolSize: nat
    // The stores behind the controller's and the cluster's APIs.
    var users: map<string, SdpUser>
    var secret: map<string, string>
    // Messages to the manager, in order.
    var sent: seq<ManagerMsg>

    ghost function View(missing: nat, known: set<string>): Progress
      reads this
    {
      Progress(World(users, secret), missing, known, sent)
    }

    constructor (poolSize: nat, users: map<string, SdpUser>, secret: map<string, string>)
      ensures this.poolSize == poolSize && View(0, {}) == Progress(World(users, secret), 0, {}, [])
    {
      this.poolSize, this.users, this.secret, this.sent := poolSize, users, secret, [];
    }

    /** The controller user comes first, its password entry second; nothing is returned if
        either is refused. */
    method CreateUser(d: Draw, x: Context, ok: Calls) returns (user: Option<ServiceUser>)
      modifies this`users, this`secret
      ensures user == if ok.Ok() then Some(NewUser(d.id, d.password, x.url)) else None
      ensures World(users, secret) == CreatorModel.CreateUser(old(World(users, secret)), d, ok)
    {
      if !ok.controller {
        return None;
      }
      users := users[d.id := SdpUser(d.id, true)];
      if !ok.secret {
        return None;
      }
      var created := NewUser(d.id, d.password, x.url);
      var field := Naming.PasswordField(created.id);
      if field !in secret {
        secret := secret[field := created.password];
      }
      user := Some(created);
    }

    /** Removes the fields of a user whose password is at hand, then the user. */
    method DeleteSdpUser(id: string, ok: Calls)
      modifies this`users, this`secret
      ensures World(users, secret) == DeleteUser(old(World(users, secret)), id, ok)
    {
      if ok.secret {
        secret := secret - {Naming.UserField(id)};
        secret := secret - {Naming.PasswordField(id)};
        secret := secret - {Naming.UrlField(id)};
        if ok.controller {
          users := users - {id};
        }
      }
    }

    method CleanupSecretEntries(known: set<string>)
      modifies this`secret
      ensures secret == map f | f in old(secret) && f in known :: old(secret)[f]
    {
      var order := Visit(secret.Keys);
      for n := 0 to |order|
        invariant secret.Keys <= old(secret.Keys)
        invariant forall f :: f in secret ==> secret[f] == old(secret)[f]
        invariant forall f :: f in old(secret) ==> (f in secret <==> f in known || f in order[n..])
      {
        assert forall f :: f in order[n..] <==> f == order[n] || f in order[n + 1..];
        assert order[n] !in order[n + 1..];
        if order[n] !in known {
          secret := secret - {order[n]};
        }
      }
    }

    /** One listed user: announced if its password is known, deleted otherwise. */
    method RecoverUser(id: string, x: Context, wasMissing: nat, wasKnown: set<string>)
      returns (missing: nat, known: set<string>)
      requires id in users
      modifies this`users, this`sent
      ensures View(missing, known) == RecoverOne(old(View(wasMissing, wasKnown)), id, x)
    {
      missing, known := wasMissing, wasKnown;
      var user := users[id];
      var field := Naming.PasswordField(id);
      if field in secret {
        if user.disabled && missing > 0 {
          missing := missing - 1;
        }
        known := known + {field};
        sent := sent +
          [FoundServiceUser(ServiceUser(id, user.name, secret[field], x.url, Some(DeviceTexts(x, id))), !user.disabled)];
      } else {
        users := users - {id};
      }
    }

    /** First loop of the initialization: announce the users that can be recovered and delete
        the others. */
    method RecoverUsers(order: seq<string>, x: Context) returns (missing: nat, known: set<string>)
      requires Enumerates(order, users.Keys)
      modifies this`users, this`sent
      ensures View(missing, known) == RecoverAll(old(View(poolSize, {})), order, x)
    {
      missing, known := poolSize, {};
      ghost var total := RecoverAll(View(poolSize, {}), order, x);
      for n := 0 to |order|
        invariant forall id :: id in order[n..] ==> id in users
        invariant NoDup(order[n..]) && RecoverAll(View(missing, known), order[n..], x) == total
      {
        assert order[n..][0] == order[n] && order[n..][1..] == order[n + 1..];
        assert forall other :: other in order[n + 1..] ==> other in order[n..] && other != order[n];
        missing, known := RecoverUser(order[n], x, missing, known);
      }
    }

    /** Last loop of the initialization: fill the pool up. */
    method CreateMissing(ds: seq<Draw>, x: Context, ghost missing: nat, ghost known: set<string>)
      modifies this`users, this`secret, this`sent
      ensures View(missing, known) == CreateAll(old(View(missing, known)), ds, x)
    {
      ghost var total := CreateAll(View(missing, known), ds, x);
      for n := 0 to |ds|
        invariant CreateAll(View(missing, known), ds[n..], x) == total
      {
        assert ds[n..][0] == ds[n] && ds[n..][1..] == ds[n + 1..];
        ghost var next := CreateOne(View(missing, known), ds[n], x);
        var user := CreateUser(ds[n], x, Calls(true, true));
        sent := sent + [FoundServiceUser(user.value, false)];
        assert View(missing, known) == next;
      }
    }

    /** `order` is the order in which the controller listed its users. */
    method Initialize(ds: seq<Draw>, x: Context)
      returns (ghost order: seq<string>, ghost missing: nat, ghost known: set<string>)
      requires FreshDraws(World(users, secret), ds) && |ds| == poolSize && sent == []
      modifies this
      ensures ValidInput(old(World(users, secret)), order, ds, poolSize)
      ensures View(missing, known) == CreatorModel.Initialize(old(World(users, secret)), order, ds, poolSize, x)
    {
      ghost var start := View(poolSize, {});
      var listed := Visit(users.Keys);
      order := listed;
      var m, k := RecoverUsers(listed, x);
      MissingBound(start, listed, x);
      CleanupSecretEntries(k);
      missing, known := m, k;
      assert View(missing, known) == Cleanup(RecoverAll(start, listed, x));
      CreateMissing(ds[..m], x, missing, known);
    }

    /** One message of the running creator; refused calls are logged and the loop goes on. */
    method Receive(msg: CreatorMsg, d: Draw, suffix: string, x: Context, ok: Calls)
      modifies this
      ensures World(users, secret) == Handled(old(World(users, secret)), msg, d, suffix, ok)
      ensures sent == old(sent) + Replies(msg, d, suffix, x, ok)
    {
      match msg
      case CreateIdentity =>
        var user := CreateUser(d, x, ok);
        if user.Some? {
          sent := sent + [FoundServiceUser(user.value, false)];
        }
      case DeleteServiceUser(u, _, _) => DeleteSdpUser(u.id, ok);
      case DeleteSDPUser(id) => DeleteSdpUser(id, ok);
      case ActivateServiceUser(u, cluster, namespace, name, _) =>
        var id, username := u.name, Naming.ServiceUsername(cluster, namespace, name, suffix);
        if ok.controller && id in users {
          users := users[id := SdpUser(username, false)];
        }
        sent := sent + [ActivatedServiceUser(u.(name := username), namespace, name)];
      case _ =>
    }
  }

  /** The answer of the running creator to the manager: an activation is confirmed even when
      the controller refused it. */
  function Replies(msg: CreatorMsg, d: Draw, suffix: string, x: Context, ok: Calls): seq<ManagerMsg> {
    match msg
    case CreateIdentity => if ok.Ok() then [FoundServiceUser(NewUser(d.id, d.password, x.url), false)] else []
    case ActivateServiceUser(u, cluster, namespace, name, _) =>
      [ActivatedServiceUser(u.(name := Naming.ServiceUsername(cluster, namespace, name, suffix)), namespace, name)]
    case _ => []
  }
}
