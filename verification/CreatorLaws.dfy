/** What the creator does to the two stores, message by message and over whole runs, and what
    the next start makes of it. */
module CreatorLaws {
  import opened Collections
  import opened Identities
  import opened Uuids
  import opened CreatorModel
  import opened IdentityCreators
  import Naming

  // ---------- Activation ----------

  /** An accepted activation of a known user enables it under the service's user name; nothing
      else changes, and a refused or unknown one changes nothing. */
  lemma ActivationServed(w: World, msg: CreatorMsg, d: Draw, suffix: string, ok: Calls)
    requires msg.ActivateServiceUser?
    ensures var id, w' := msg.user.name, Handled(w, msg, d, suffix, ok);
            && w'.secret == w.secret && w'.users.Keys == w.users.Keys
            && (forall other :: other in w.users && other != id ==> w'.users[other] == w.users[other])
            && (id in w.users ==>
                  if ok.controller then
                    !w'.users[id].disabled
                    && w'.users[id].name == Naming.ServiceUsername(msg.cluster, msg.namespace, msg.name, suffix)
                  else w'.users[id] == w.users[id])
  {
  }

  /** Messages that do not draw the id `id` again. */
  predicate Spares(ms: seq<Service>, id: string) {
    forall m :: m in ms ==> m.draw.id != id
  }

  /** A user that is enabled stays so until it is deleted. */
  lemma {:induction false} EnabledStays(w: World, ms: seq<Service>, id: string)
    requires id in w.users && !w.users[id].disabled && Spares(ms, id)
    ensures var w' := HandledAll(w, ms);
            id in w'.users ==> !w'.users[id].disabled
    decreases ms
  {
    if ms != [] {
      var m := ms[0];
      var w1 := Handled(w, m.msg, m.draw, m.suffix, m.ok);
      assert m in ms;
      if id in w1.users {
        EnabledStays(w1, ms[1..], id);
      } else {
        GoneStays(w1, ms[1..], id);
      }
    }
  }

  /** Once activated, a user is not announced as a spare by the next start: whatever was served
      in between, it is gone or announced as activated. */
  lemma ActivatedIsNoSpare(w: World, ms: seq<Service>, order: seq<string>, ds: seq<Draw>, size: nat, x: Context, id: string)
    requires id in w.users && !w.users[id].disabled && Spares(ms, id)
    requires ValidInput(HandledAll(w, ms), order, ds, size) && id !in DrawnIds(ds)
    ensures var r := Initialize(HandledAll(w, ms), order, ds, size, x);
            && (forall msg :: msg in r.sent && msg.FoundServiceUser? && msg.user.id == id ==> msg.activated)
            && id !in Collect(r.sent, SpareId)
  {
    EnabledStays(w, ms, id);
    var stopped := HandledAll(w, ms);
    InitializeRecovers(stopped, order, ds, size, x);
    NotCreated(stopped, ds, size, id);
    var r := Initialize(stopped, order, ds, size, x);
    forall msg | msg in r.sent && msg.FoundServiceUser? && msg.user.id == id ensures msg.activated {
      assert Faithful(r.world, msg);
    }
    CollectMember(r.sent, SpareId, id);
    forall i | 0 <= i < |r.sent| ensures SpareId(r.sent[i]) != Some(id) {
      assert r.sent[i] in r.sent;
      assert Faithful(r.world, r.sent[i]);
    }
  }

  lemma NotCreated(w: World, ds: seq<Draw>, size: nat, id: string)
    requires |ds| == size && id !in DrawnIds(ds)
    ensures id !in Created(w, ds, size)
  {
    var spares := |RecoverableSpares(w)|;
    if spares < size {
      assert forall d :: d in ds[..size - spares] ==> d in ds;
    }
  }

  // ---------- Deletion ----------

  predicate DeletionOf(msg: CreatorMsg, id: string) {
    (msg.DeleteSDPUser? && msg.id == id) || (msg.DeleteServiceUser? && msg.user.id == id)
  }

  function OwnFields(id: string): set<string> {
    {id + "-service-username", id + "-service-password", id + "-service-url"}
  }

  /** An accepted deletion takes the user and its three fields and nothing else. If the secret
      refuses, nothing happens; if only the controller does, the user stays without fields. */
  lemma DeletionServed(w: World, msg: CreatorMsg, id: string, d: Draw, suffix: string, ok: Calls)
    requires DeletionOf(msg, id)
    ensures var w' := Handled(w, msg, d, suffix, ok);
            && (!ok.secret ==> w' == w)
            && (ok.secret ==>
                  && (forall f :: f in w'.secret <==> f in w.secret && f !in OwnFields(id))
                  && (forall f :: f in w'.secret ==> w'.secret[f] == w.secret[f])
                  && (ok.controller ==> id !in w'.users)
                  && (!ok.controller ==> w'.users == w.users)
                  && (forall other :: other in w.users && other != id ==> other in w'.users && w'.users[other] == w.users[other])
                  && (forall other :: other in w'.users ==> other in w.users))
  {
  }

  lemma {:induction false} GoneStays(w: World, ms: seq<Service>, id: string)
    requires id !in w.users && Spares(ms, id)
    ensures id !in HandledAll(w, ms).users
    decreases ms
  {
    if ms != [] {
      assert ms[0] in ms;
      GoneStays(Handled(w, ms[0].msg, ms[0].draw, ms[0].suffix, ms[0].ok), ms[1..], id);
    }
  }

  /** A user whose deletion was served without refusal is not announced by the next start. */
  lemma DeletedIsNotAnnounced(w: World, msg: CreatorMsg, d: Draw, suffix: string, ms: seq<Service>,
                              order: seq<string>, ds: seq<Draw>, size: nat, x: Context, id: string)
    requires DeletionOf(msg, id) && Spares(ms, id)
    requires ValidInput(HandledAll(Handled(w, msg, d, suffix, Calls(true, true)), ms), order, ds, size) && id !in DrawnIds(ds)
    ensures id !in AnnouncedIds(Initialize(HandledAll(Handled(w, msg, d, suffix, Calls(true, true)), ms), order, ds, size, x).sent)
  {
    DeletionServed(w, msg, id, d, suffix, Calls(true, true));
    var w1 := Handled(w, msg, d, suffix, Calls(true, true));
    GoneStays(w1, ms, id);
    InitializeRecovers(HandledAll(w1, ms), order, ds, size, x);
    NotCreated(HandledAll(w1, ms), ds, size, id);
  }

  // ---------- Creation ----------

  /** A new user is disabled and named after its id, and its password is stored unless an entry
      is there already; what is left when a call is refused; nobody else is touched. */
  lemma CreationServed(w: World, d: Draw, suffix: string, ok: Calls)
    ensures var w', field := Handled(w, CreateIdentity, d, suffix, ok), d.id + "-service-password";
            && (forall id :: id in w.users && id != d.id ==> id in w'.users && w'.users[id] == w.users[id])
            && (forall id :: id in w'.users ==> id in w.users || id == d.id)
            && (!ok.controller ==> w' == w)
            && (ok.controller ==> d.id in w'.users && w'.users[d.id] == SdpUser(d.id, true))
            && (forall f :: f in w.secret ==> f in w'.secret && w'.secret[f] == w.secret[f])
            && (forall f :: f in w'.secret ==> f in w.secret || f == field)
            && (field !in w.secret ==> (field in w'.secret <==> ok.Ok()) && (ok.Ok() ==> w'.secret[field] == d.password))
  {
  }

  /** In stores that are in step an unknown user has no password entry. */
  lemma NoEntryYet(w: World, id: string)
    requires InStep(w) && id !in w.users
    ensures Naming.PasswordField(id) !in w.secret
  {
    forall other | other in w.users ensures Naming.PasswordField(other) != Naming.PasswordField(id) {
      if Naming.PasswordField(other) == Naming.PasswordField(id) {
        Naming.PasswordFieldInjective(other, id);
      }
    }
  }

  /** What the creator reports is true of the stores it leaves: a user found is there,
      disabled and with its password; an activation is confirmed for the same user and service,
      under the name the controller was given. */
  lemma RepliesAreTrue(w: World, msg: CreatorMsg, d: Draw, suffix: string, x: Context, ok: Calls)
    requires InStep(w) && d.id !in w.users
    ensures var w', rs := Handled(w, msg, d, suffix, ok), Replies(msg, d, suffix, x, ok);
            && (msg.CreateIdentity? && ok.Ok() ==>
                  |rs| == 1 && Faithful(w', rs[0]) && rs[0].user.id == d.id && !rs[0].activated
                  && rs[0].user.profileUrl == x.url && rs[0].user.deviceIds == Some([]))
            && (msg.ActivateServiceUser? ==>
                  |rs| == 1 && rs[0].ActivatedServiceUser?
                  && rs[0].user == msg.user.(name := rs[0].user.name)
                  && rs[0].namespace == msg.namespace && rs[0].name == msg.name
                  && (ok.controller && msg.user.name in w.users ==> rs[0].user.name == w'.users[msg.user.name].name))
            && (!(msg.CreateIdentity? && ok.Ok()) && !msg.ActivateServiceUser? ==> rs == [])
  {
    CreationServed(w, d, suffix, ok);
    NoEntryYet(w, d.id);
  }

  // ---------- What is announced ----------

  /** The device ids registered for a user, in canonical text. */
  predicate Lists(x: Context, id: string, texts: seq<string>) {
    var ids := if id in x.devices then x.devices[id] else [];
    |texts| == |ids| && forall i :: 0 <= i < |ids| ==> texts[i] == ToText(ids[i])
  }

  predicate FullyDescribed(w: World, x: Context, msg: ManagerMsg) {
    && msg.FoundServiceUser? && msg.user.profileUrl == x.url && msg.user.deviceIds.Some?
    && (if msg.user.id in w.users then Lists(x, msg.user.id, msg.user.deviceIds.value) else msg.user.deviceIds.value == [])
  }

  lemma {:induction false} RecoveryDescribes(w: World, p: Progress, ids: seq<string>, x: Context)
    requires NoDup(ids) && (forall id :: id in ids ==> id in p.world.users && id in w.users)
    requires forall msg :: msg in p.sent ==> FullyDescribed(w, x, msg)
    ensures forall msg :: msg in RecoverAll(p, ids, x).sent ==> FullyDescribed(w, x, msg)
    decreases ids
  {
    if ids != [] {
      assert forall id :: id in ids[1..] ==> id in ids && id != ids[0];
      RecoveryDescribes(w, RecoverOne(p, ids[0], x), ids[1..], x);
    }
  }

  lemma {:induction false} CreationDescribes(w: World, p: Progress, ds: seq<Draw>, x: Context)
    requires forall i :: 0 <= i < |ds| ==> ds[i].id !in w.users
    requires forall msg :: msg in p.sent ==> FullyDescribed(w, x, msg)
    ensures forall msg :: msg in CreateAll(p, ds, x).sent ==> FullyDescribed(w, x, msg)
    decreases ds
  {
    if ds != [] {
      CreationDescribes(w, CreateOne(p, ds[0], x), ds[1..], x);
    }
  }

  /** Every announcement carries the profile URL and the device ids registered for the user, in
      their order; a user created has none. */
  lemma AnnouncementsAreComplete(w: World, order: seq<string>, ds: seq<Draw>, size: nat, x: Context)
    requires ValidInput(w, order, ds, size)
    ensures forall msg :: msg in Initialize(w, order, ds, size, x).sent ==> FullyDescribed(w, x, msg)
  {
    var p0 := Progress(w, size, {}, []);
    MissingBound(p0, order, x);
    RecoveryDescribes(w, p0, order, x);
    var p := Cleanup(RecoverAll(p0, order, x));
    CreationDescribes(w, p, ds[..p.missing], x);
  }
}
