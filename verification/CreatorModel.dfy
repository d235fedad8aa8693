/** Initialization of the identity creator on the two stores it reconciles: the users of the
    SDP controller and the global secret that remembers their passwords. */
module CreatorModel {
  import opened Collections
  import opened Identities
  import opened Uuids
  import Naming

  /** A user as the controller lists it; passwords are never listed. */
  datatype SdpUser = SdpUser(name: string, disabled: bool)

  datatype World = World(users: map<string, SdpUser>, secret: map<string, string>)

  /** A UUID and a password drawn for a new user. */
  datatype Draw = Draw(id: string, password: string)

  /** State of the initialization: the two stores, how many users are missing in the pool,
      the secret entries known to be in use, and the announcements sent. */
  datatype Progress = Progress(world: World, missing: nat, known: set<string>, sent: seq<ManagerMsg>)

  /** What does not change: the profile URL and the device ids registered per user. */
  datatype Context = Context(url: string, devices: map<string, seq<Uuid>>)

  function DeviceTexts(x: Context, id: string): seq<string> {
    if id in x.devices then seq(|x.devices[id]|, i requires 0 <= i < |x.devices[id]| => ToText(x.devices[id][i]))
    else []
  }

  predicate Recoverable(w: World, id: string) {
    Naming.PasswordField(id) in w.secret
  }

  function RecoveredUser(w: World, id: string, x: Context): ServiceUser
    requires id in w.users && Recoverable(w, id)
  {
    ServiceUser(id, w.users[id].name, w.secret[Naming.PasswordField(id)], x.url, Some(DeviceTexts(x, id)))
  }

  /** A listed user is announced if its password is known, and deleted otherwise. */
  function RecoverOne(p: Progress, id: string, x: Context): Progress
    requires id in p.world.users
  {
    if Recoverable(p.world, id) then
      var disabled := p.world.users[id].disabled;
      p.(missing := if disabled && p.missing > 0 then p.missing - 1 else p.missing,
         known := p.known + {Naming.PasswordField(id)},
         sent := p.sent + [FoundServiceUser(RecoveredUser(p.world, id, x), !disabled)])
    else
      p.(world := p.world.(users := p.world.users - {id}))
  }

  function RecoverAll(p: Progress, ids: seq<string>, x: Context): Progress
    requires NoDup(ids) && forall id :: id in ids ==> id in p.world.users
    decreases ids
  {
    if ids == [] then p
    else
      var rest := ids[1..];
      assert forall id :: id in rest ==> id in ids && id != ids[0];
      RecoverAll(RecoverOne(p, ids[0], x), rest, x)
  }

  /** Secret entries nobody uses are removed. */
  function Cleanup(p: Progress): Progress {
    p.(world := p.world.(secret := map f | f in p.world.secret && f in p.known :: p.world.secret[f]))
  }

  /** A new user is disabled and named after its id; its password is stored. */
  function CreateOne(p: Progress, d: Draw, x: Context): Progress {
    var field := Naming.PasswordField(d.id);
    var secret := if field in p.world.secret then p.world.secret else p.world.secret[field := d.password];
    p.(world := World(p.world.users[d.id := SdpUser(d.id, true)], secret),
       sent := p.sent + [FoundServiceUser(NewUser(d.id, d.password, x.url), false)])
  }

  function CreateAll(p: Progress, ds: seq<Draw>, x: Context): Progress
    decreases ds
  {
    if ds == [] then p else CreateAll(CreateOne(p, ds[0], x), ds[1..], x)
  }

  predicate FreshDraws(w: World, ds: seq<Draw>) {
    && (forall i, j :: 0 <= i < j < |ds| ==> ds[i].id != ds[j].id)
    && (forall i :: 0 <= i < |ds| ==> ds[i].id !in w.users)
  }

  /** The listing of the controller, the UUIDs drawn and the size of the pool determine the
      outcome when every call succeeds. */
  ghost predicate ValidInput(w: World, order: seq<string>, ds: seq<Draw>, size: nat) {
    Enumerates(order, w.users.Keys) && FreshDraws(w, ds) && |ds| == size
  }

  ghost function Initialize(w: World, order: seq<string>, ds: seq<Draw>, size: nat, x: Context): Progress
    requires ValidInput(w, order, ds, size)
  {
    var p := Cleanup(RecoverAll(Progress(w, size, {}, []), order, x));
    MissingBound(Progress(w, size, {}, []), order, x);
    CreateAll(p, ds[..p.missing], x)
  }

  lemma {:induction false} MissingBound(p: Progress, ids: seq<string>, x: Context)
    requires NoDup(ids) && forall id :: id in ids ==> id in p.world.users
    ensures RecoverAll(p, ids, x).missing <= p.missing
    decreases ids
  {
    if ids != [] {
      assert forall id :: id in ids[1..] ==> id in ids && id != ids[0];
      MissingBound(RecoverOne(p, ids[0], x), ids[1..], x);
    }
  }

  // ---------- What has been announced ----------

  function AnnouncedId(msg: ManagerMsg): Option<string> {
    if msg.FoundServiceUser? then Some(msg.user.id) else None
  }

  predicate Faithful(w: World, msg: ManagerMsg) {
    && msg.FoundServiceUser? && msg.user.id in w.users
    && msg.activated == !w.users[msg.user.id].disabled
    && msg.user.name == w.users[msg.user.id].name
    && Naming.PasswordField(msg.user.id) in w.secret
    && w.secret[Naming.PasswordField(msg.user.id)] == msg.user.password
  }

  function AnnouncedIds(sent: seq<ManagerMsg>): seq<string> {
    Collect(sent, AnnouncedId)
  }

  function Fields(ids: set<string>): set<string> {
    set id | id in ids :: Naming.PasswordField(id)
  }

  /** Invariant of the whole initialization: announcements are faithful to the stores, and
      each user is announced at most once. */
  predicate Consistent(p: Progress) {
    && (forall msg :: msg in p.sent ==> Faithful(p.world, msg))
    && NoDup(AnnouncedIds(p.sent))
  }

  /** The entries recorded as used are those of the announced users. */
  predicate Tracked(p: Progress) {
    p.known == Fields(set id | id in AnnouncedIds(p.sent))
  }

  function Spares(p: Progress): nat {
    |Collect(p.sent, FoundSpare)|
  }

  lemma Announced(sent: seq<ManagerMsg>, msg: ManagerMsg)
    requires msg.FoundServiceUser?
    ensures AnnouncedIds(sent + [msg]) == AnnouncedIds(sent) + [msg.user.id]
    ensures |Collect(sent + [msg], FoundSpare)| == |Collect(sent, FoundSpare)| + if msg.activated then 0 else 1
  {
    CollectAppend(sent, msg, AnnouncedId);
    CollectAppend(sent, msg, FoundSpare);
  }

  lemma SenderAnnounced(sent: seq<ManagerMsg>, msg: ManagerMsg)
    requires msg in sent && msg.FoundServiceUser?
    ensures msg.user.id in AnnouncedIds(sent)
  {
    CollectMember(sent, AnnouncedId, msg.user.id);
    var i :| 0 <= i < |sent| && sent[i] == msg;
    assert AnnouncedId(sent[i]) == Some(msg.user.id);
  }

  /** Announcing one more user that is in both stores. */
  lemma AnnounceConsistent(p: Progress, p': Progress, msg: ManagerMsg)
    requires Consistent(p) && p'.sent == p.sent + [msg] && Faithful(p'.world, msg) && msg.user.id !in AnnouncedIds(p.sent)
    requires forall m :: m in p.sent ==> Faithful(p'.world, m)
    ensures Consistent(p')
  {
    Announced(p.sent, msg);
    NoDupConcat(AnnouncedIds(p.sent), [msg.user.id]);
  }

  lemma RecoverTracked(p: Progress, id: string, x: Context)
    requires Tracked(p) && id in p.world.users
    ensures Tracked(RecoverOne(p, id, x))
  {
    if Recoverable(p.world, id) {
      Announced(p.sent, FoundServiceUser(RecoveredUser(p.world, id, x), !p.world.users[id].disabled));
      var before, after := AnnouncedIds(p.sent), AnnouncedIds(RecoverOne(p, id, x).sent);
      assert (set i | i in after) == (set i | i in before) + {id};
    }
  }

  lemma RecoverConsistent(p: Progress, id: string, x: Context)
    requires Consistent(p) && id in p.world.users && id !in AnnouncedIds(p.sent)
    ensures Consistent(RecoverOne(p, id, x))
  {
    var p' := RecoverOne(p, id, x);
    if Recoverable(p.world, id) {
      AnnounceConsistent(p, p', FoundServiceUser(RecoveredUser(p.world, id, x), !p.world.users[id].disabled));
    } else {
      forall msg | msg in p.sent ensures Faithful(p'.world, msg) {
        SenderAnnounced(p.sent, msg);
      }
    }
  }

  /** Missing users and announced spares add up to the pool size, or spares exceed it. */
  predicate Balanced(p: Progress, size: nat) {
    p.missing == if Spares(p) <= size then size - Spares(p) else 0
  }

  lemma RecoverBalanced(p: Progress, id: string, x: Context, size: nat)
    requires id in p.world.users && Balanced(p, size)
    ensures Balanced(RecoverOne(p, id, x), size)
    ensures Spares(RecoverOne(p, id, x))
            == Spares(p) + if Recoverable(p.world, id) && p.world.users[id].disabled then 1 else 0
  {
    if Recoverable(p.world, id) {
      Announced(p.sent, FoundServiceUser(RecoveredUser(p.world, id, x), !p.world.users[id].disabled));
    }
  }

  function DisabledIn(w: World): string -> Option<string> {
    (id: string) => if id in w.users && w.users[id].disabled && Recoverable(w, id) then Some(id) else None
  }

  /** Of the listed users exactly the recoverable ones stay, each announced; the others are
      not touched, and neither is the secret. */
  ghost predicate Sorted(p: Progress, r: Progress, ids: seq<string>) {
    && r.world.secret == p.world.secret
    && (forall id :: id in r.world.users ==> id in p.world.users && r.world.users[id] == p.world.users[id])
    && (forall id :: id in p.world.users && id !in ids ==> id in r.world.users)
    && (forall id :: id in ids ==> (id in r.world.users <==> Recoverable(p.world, id)))
    && (forall id :: id in AnnouncedIds(r.sent) <==> id in AnnouncedIds(p.sent) || (id in ids && Recoverable(p.world, id)))
  }

  lemma SortFirst(p: Progress, ids: seq<string>, x: Context, r: Progress)
    requires ids != [] && NoDup(ids) && forall id :: id in ids ==> id in p.world.users
    requires Sorted(RecoverOne(p, ids[0], x), r, ids[1..])
    ensures Sorted(p, r, ids)
  {
    var p1 := RecoverOne(p, ids[0], x);
    assert ids == [ids[0]] + ids[1..];
    assert ids[0] !in ids[1..];
    if Recoverable(p.world, ids[0]) {
      Announced(p.sent, p1.sent[|p.sent|]);
    }
  }

  /** The three invariants of the recovery loop. */
  predicate Recovering(p: Progress, size: nat) {
    Consistent(p) && Tracked(p) && Balanced(p, size)
  }

  lemma RecoverStep(p: Progress, id: string, x: Context, size: nat)
    requires Recovering(p, size) && id in p.world.users && id !in AnnouncedIds(p.sent)
    ensures var p' := RecoverOne(p, id, x);
            && Recovering(p', size)
            && Spares(p') == Spares(p) + (if DisabledIn(p.world)(id).Some? then 1 else 0)
            && (forall i :: i in AnnouncedIds(p'.sent) ==> i in AnnouncedIds(p.sent) || i == id)
  {
    RecoverConsistent(p, id, x);
    RecoverTracked(p, id, x);
    RecoverBalanced(p, id, x, size);
    if Recoverable(p.world, id) {
      Announced(p.sent, FoundServiceUser(RecoveredUser(p.world, id, x), !p.world.users[id].disabled));
    }
  }

  lemma {:induction false} RecoverAllSorts(p: Progress, ids: seq<string>, x: Context, size: nat)
    requires Recovering(p, size)
    requires NoDup(ids) && forall id :: id in ids ==> id in p.world.users && id !in AnnouncedIds(p.sent)
    ensures var r := RecoverAll(p, ids, x);
            && Recovering(r, size) && Sorted(p, r, ids)
            && Spares(r) == Spares(p) + |Collect(ids, DisabledIn(p.world))|
    decreases ids
  {
    if ids != [] {
      var p1, rest := RecoverOne(p, ids[0], x), ids[1..];
      assert forall id :: id in rest ==> id in ids && id != ids[0];
      RecoverStep(p, ids[0], x, size);
      RecoverAllSorts(p1, rest, x, size);
      SortFirst(p, ids, x, RecoverAll(p1, rest, x));
      SameDisabled(p, ids[0], rest, x);
    }
  }

  lemma SameDisabled(p: Progress, id: string, rest: seq<string>, x: Context)
    requires id in p.world.users && id !in rest
    ensures Collect(rest, DisabledIn(p.world)) == Collect(rest, DisabledIn(RecoverOne(p, id, x).world))
  {
  }

  // ---------- From the cleanup on ----------

  /** Both stores speak of the same users, and each of them has been announced once. */
  ghost predicate Reconciled(p: Progress) {
    && Consistent(p)
    && p.world.secret.Keys == Fields(p.world.users.Keys)
    && (forall id :: id in p.world.users <==> id in AnnouncedIds(p.sent))
  }

  lemma CleanupReconciles(p: Progress)
    requires Consistent(p) && Tracked(p) && forall id :: id in p.world.users ==> id in AnnouncedIds(p.sent)
    ensures Reconciled(Cleanup(p))
  {
    var p' := Cleanup(p);
    forall id | id in AnnouncedIds(p.sent) ensures id in p.world.users && Naming.PasswordField(id) in p.world.secret {
      CollectMember(p.sent, AnnouncedId, id);
      var i :| 0 <= i < |p.sent| && AnnouncedId(p.sent[i]) == Some(id);
      assert Faithful(p.world, p.sent[i]);
    }
    assert (set id | id in AnnouncedIds(p.sent)) == p.world.users.Keys;
    forall msg | msg in p.sent ensures Faithful(p'.world, msg) {
      SenderAnnounced(p.sent, msg);
      assert Faithful(p.world, msg);
    }
  }

  /** A fresh user keeps the stores in step. */
  lemma CreateReconciles(p: Progress, d: Draw, x: Context)
    requires Reconciled(p) && d.id !in p.world.users
    ensures var p' := CreateOne(p, d, x);
            && Reconciled(p') && Spares(p') == Spares(p) + 1
            && p'.world.users == p.world.users[d.id := SdpUser(d.id, true)]
  {
    var field := Naming.PasswordField(d.id);
    assert field !in p.world.secret by {
      if field in p.world.secret {
        var id :| id in p.world.users && Naming.PasswordField(id) == field;
        Naming.PasswordFieldInjective(id, d.id);
      }
    }
    var p' := CreateOne(p, d, x);
    var msg := FoundServiceUser(NewUser(d.id, d.password, x.url), false);
    forall m | m in p.sent ensures Faithful(p'.world, m) {
      assert Faithful(p.world, m);
    }
    AnnounceConsistent(p, p', msg);
    Announced(p.sent, msg);
    assert p'.world.users.Keys == p.world.users.Keys + {d.id};
  }

  function DrawnIds(ds: seq<Draw>): set<string> {
    set d | d in ds :: d.id
  }

  lemma {:induction false} CreateAllReconciles(p: Progress, ds: seq<Draw>, x: Context)
    requires Reconciled(p) && FreshDraws(p.world, ds)
    ensures var r := CreateAll(p, ds, x);
            && Reconciled(r) && Spares(r) == Spares(p) + |ds|
            && r.world.users.Keys == p.world.users.Keys + DrawnIds(ds)
            && (forall id :: id in p.world.users ==> r.world.users[id] == p.world.users[id])
            && (forall id :: id in DrawnIds(ds) ==> r.world.users[id] == SdpUser(id, true))
    decreases ds
  {
    if ds != [] {
      CreateReconciles(p, ds[0], x);
      var p1 := CreateOne(p, ds[0], x);
      FreshRest(p.world, p1.world, ds);
      CreateAllReconciles(p1, ds[1..], x);
    }
  }

  lemma FreshRest(w: World, w': World, ds: seq<Draw>)
    requires ds != [] && FreshDraws(w, ds) && w'.users == w.users[ds[0].id := SdpUser(ds[0].id, true)]
    ensures FreshDraws(w', ds[1..]) && DrawnIds(ds) == {ds[0].id} + DrawnIds(ds[1..]) && ds[0].id !in DrawnIds(ds[1..])
  {
    assert ds == [ds[0]] + ds[1..];
  }

  // ---------- The main theorem ----------

  function Max(a: nat, b: nat): nat { if a < b then b else a }

  /** Disabled users whose password is known. */
  function RecoverableSpares(w: World): set<string> {
    set id | id in w.users && w.users[id].disabled && Recoverable(w, id)
  }

  lemma CountSpares(w: World, order: seq<string>)
    requires Enumerates(order, w.users.Keys)
    ensures |Collect(order, DisabledIn(w))| == |RecoverableSpares(w)|
  {
    CollectNoDup(order, DisabledIn(w));
    var spares := Collect(order, DisabledIn(w));
    forall id ensures id in spares <==> id in RecoverableSpares(w) {
      CollectMember(order, DisabledIn(w), id);
      if id in RecoverableSpares(w) {
        var i :| 0 <= i < |order| && order[i] == id;
        assert DisabledIn(w)(order[i]) == Some(id);
      }
    }
    EnumerationLength(spares, RecoverableSpares(w));
  }

  /** The users created to fill the pool. */
  function Created(w: World, ds: seq<Draw>, size: nat): set<string>
    requires |ds| == size
  {
    var spares := |RecoverableSpares(w)|;
    if spares < size then DrawnIds(ds[..size - spares]) else {}
  }

  /** Whatever state a crash left behind, after the initialization the controller's users and
      the password entries of the secret are in bijection, every user is announced exactly
      once with its stored password and its activation, the users are those whose password
      was known, unchanged, and the ones created, and max(pool size, recovered disabled users)
      are announced as deactivated. */
  lemma InitializeRecovers(w: World, order: seq<string>, ds: seq<Draw>, size: nat, x: Context)
    requires ValidInput(w, order, ds, size)
    ensures var r := Initialize(w, order, ds, size, x);
            && r.world.secret.Keys == Fields(r.world.users.Keys)
            && (forall msg :: msg in r.sent ==> Faithful(r.world, msg))
            && Enumerates(AnnouncedIds(r.sent), r.world.users.Keys)
            && Spares(r) == Max(size, |RecoverableSpares(w)|)
            && (forall id :: id in r.world.users <==> (id in w.users && Recoverable(w, id)) || id in Created(w, ds, size))
            && (forall id :: id in w.users && Recoverable(w, id) ==> r.world.users[id] == w.users[id])
            && (forall id :: id in Created(w, ds, size) ==> id !in w.users && r.world.users[id] == SdpUser(id, true))
  {
    RecoveryKeeps(w, order, size, x);
    var p := Cleanup(RecoverAll(Progress(w, size, {}, []), order, x));
    var drawn := ds[..p.missing];
    assert FreshDraws(p.world, drawn);
    CreateAllReconciles(p, drawn, x);
    assert DrawnIds(drawn) == Created(w, ds, size);
    forall id | id in Created(w, ds, size) ensures id !in w.users {
      var d :| d in drawn && d.id == id;
      assert d in ds;
    }
  }

  /** Before users are created: exactly those whose password is known are left. */
  lemma RecoveryKeeps(w: World, order: seq<string>, size: nat, x: Context)
    requires Enumerates(order, w.users.Keys)
    ensures var p := Cleanup(RecoverAll(Progress(w, size, {}, []), order, x));
            var spares := |RecoverableSpares(w)|;
            && Reconciled(p) && Spares(p) == spares
            && p.missing == (if spares < size then size - spares else 0)
            && (forall id :: id in p.world.users <==> id in w.users && Recoverable(w, id))
            && (forall id :: id in p.world.users ==> p.world.users[id] == w.users[id])
  {
    var p0 := Progress(w, size, {}, []);
    InitialBalance(w, size);
    RecoverAllSorts(p0, order, x, size);
    CountSpares(w, order);
    CleanupReconciles(RecoverAll(p0, order, x));
  }

  /** The disabled users afterwards: those recovered and those created. */
  lemma SparesAfter(w: World, order: seq<string>, ds: seq<Draw>, size: nat, x: Context)
    requires ValidInput(w, order, ds, size)
    ensures RecoverableSpares(Initialize(w, order, ds, size, x).world) == RecoverableSpares(w) + Created(w, ds, size)
  {
    InitializeRecovers(w, order, ds, size, x);
    AllRecoverable(Initialize(w, order, ds, size, x).world);
  }

  // ---------- Initializing twice ----------

  lemma InitialBalance(w: World, size: nat)
    ensures Recovering(Progress(w, size, {}, []), size)
  {
  }

  /** The users announced as spares are the disabled users of the controller. */
  lemma SparesAreDisabled(p: Progress)
    requires Reconciled(p)
    ensures Spares(p) == |RecoverableSpares(p.world)|
    ensures forall id :: id in Collect(p.sent, SpareId) <==> id in RecoverableSpares(p.world)
  {
    SparesDistinct(p.sent);
    var ids := Collect(p.sent, SpareId);
    forall id ensures id in ids <==> id in RecoverableSpares(p.world) {
      CollectMember(p.sent, SpareId, id);
      CollectMember(p.sent, AnnouncedId, id);
      if id in ids {
        var i :| 0 <= i < |p.sent| && SpareId(p.sent[i]) == Some(id);
        assert Faithful(p.world, p.sent[i]);
      }
      if id in RecoverableSpares(p.world) {
        var i :| 0 <= i < |p.sent| && AnnouncedId(p.sent[i]) == Some(id);
        assert Faithful(p.world, p.sent[i]);
        assert SpareId(p.sent[i]) == Some(id);
      }
    }
    EnumerationLength(ids, RecoverableSpares(p.world));
  }

  function SpareId(msg: ManagerMsg): Option<string> {
    if msg.FoundServiceUser? && !msg.activated then Some(msg.user.id) else None
  }

  lemma SparesAreAnnounced(sent: seq<ManagerMsg>)
    ensures forall id :: id in Collect(sent, SpareId) ==> id in AnnouncedIds(sent)
  {
  }

  lemma {:induction false} SparesDistinct(sent: seq<ManagerMsg>)
    requires NoDup(AnnouncedIds(sent))
    ensures NoDup(Collect(sent, SpareId)) && |Collect(sent, SpareId)| == |Collect(sent, FoundSpare)|
  {
    if sent != [] {
      var rest := sent[1..];
      if AnnouncedId(sent[0]).Some? {
        NoDupHead(sent[0].user.id, AnnouncedIds(rest));
      }
      SparesDistinct(rest);
      if SpareId(sent[0]).Some? {
        SparesAreAnnounced(rest);
        NoDupConcat([sent[0].user.id], Collect(rest, SpareId));
      }
    }
  }

  /** A world whose stores agree and that holds enough spare users is a fixed point: no user
      is created, none deleted, and no secret entry changes. */
  lemma SettledWorld(w: World, order: seq<string>, ds: seq<Draw>, size: nat, x: Context)
    requires ValidInput(w, order, ds, size)
    requires w.secret.Keys == Fields(w.users.Keys) && |RecoverableSpares(w)| >= size
    ensures Initialize(w, order, ds, size, x).world == w
  {
    var p0 := Progress(w, size, {}, []);
    var p1 := RecoverAll(p0, order, x);
    SettledRecovery(w, order, size, x);
    CleanupKeepsAll(p1);
    assert ds[..0] == [];
  }

  lemma SettledRecovery(w: World, order: seq<string>, size: nat, x: Context)
    requires Enumerates(order, w.users.Keys)
    requires w.secret.Keys == Fields(w.users.Keys) && |RecoverableSpares(w)| >= size
    ensures var p := RecoverAll(Progress(w, size, {}, []), order, x);
            p.world == w && p.missing == 0 && Tracked(p) && forall id :: id in w.users ==> id in AnnouncedIds(p.sent)
  {
    var p0 := Progress(w, size, {}, []);
    InitialBalance(w, size);
    RecoverAllSorts(p0, order, x, size);
    CountSpares(w, order);
    var p := RecoverAll(p0, order, x);
    AllRecoverable(w);
    AllStay(p0, p, order);
  }

  lemma AllRecoverable(w: World)
    requires w.secret.Keys == Fields(w.users.Keys)
    ensures forall id :: id in w.users ==> Recoverable(w, id)
  {
  }

  lemma AllStay(p: Progress, r: Progress, ids: seq<string>)
    requires Sorted(p, r, ids) && Enumerates(ids, p.world.users.Keys) && forall id :: id in p.world.users ==> Recoverable(p.world, id)
    ensures r.world == p.world
  {
  }

  lemma CleanupKeepsAll(p: Progress)
    requires Tracked(p) && p.world.secret.Keys == Fields(p.world.users.Keys)
    requires forall id :: id in p.world.users ==> id in AnnouncedIds(p.sent)
    ensures Cleanup(p).world == p.world
  {
  }

  /** Running the initialization again, with any listing order and any draws, is stable. */
  lemma InitializeIsStable(w: World, order: seq<string>, ds: seq<Draw>, size: nat, x: Context,
                           order': seq<string>, ds': seq<Draw>, x': Context)
    requires ValidInput(w, order, ds, size)
    requires ValidInput(Initialize(w, order, ds, size, x).world, order', ds', size)
    ensures var r := Initialize(w, order, ds, size, x);
            Initialize(r.world, order', ds', size, x').world == r.world
  {
    InitializeRecovers(w, order, ds, size, x);
    var r := Initialize(w, order, ds, size, x);
    SparesAreDisabled(r);
    SettledWorld(r.world, order', ds', size, x');
  }

  // ---------- Serving messages ----------

  /** Which calls succeed while a message is served: those to the controller, those to the
      cluster's secret. */
  datatype Calls = Calls(controller: bool, secret: bool)
  {
    predicate Ok() { controller && secret }
  }

  function Deleted(secret: map<string, string>, id: string): map<string, string> {
    secret - {Naming.UserField(id), Naming.PasswordField(id), Naming.UrlField(id)}
  }

  /** A user's fields in the secret go first; a refusal there keeps the user. */
  function DeleteUser(w: World, id: string, ok: Calls): World {
    if !ok.secret then w else World(if ok.controller then w.users - {id} else w.users, Deleted(w.secret, id))
  }

  /** The controller user comes first, its password entry second. */
  function CreateUser(w: World, d: Draw, ok: Calls): World {
    if !ok.controller then w
    else if ok.secret then CreateOne(Progress(w, 0, {}, []), d, Context("", map[])).world
    else w.(users := w.users[d.id := SdpUser(d.id, true)])
  }

  /** The stores after one message. The controller cannot modify a user it does not know. */
  function Handled(w: World, msg: CreatorMsg, d: Draw, suffix: string, ok: Calls): World {
    match msg
    case CreateIdentity => CreateUser(w, d, ok)
    case DeleteServiceUser(u, _, _) => DeleteUser(w, u.id, ok)
    case DeleteSDPUser(id) => DeleteUser(w, id, ok)
    case ActivateServiceUser(u, cluster, namespace, name, _) =>
      if ok.controller && u.name in w.users then
        w.(users := w.users[u.name := SdpUser(Naming.ServiceUsername(cluster, namespace, name, suffix), false)])
      else w
    case _ => w
  }

  datatype Service = Service(msg: CreatorMsg, draw: Draw, suffix: string, ok: Calls)

  function HandledAll(w: World, ms: seq<Service>): World
    decreases ms
  {
    if ms == [] then w else HandledAll(Handled(w, ms[0].msg, ms[0].draw, ms[0].suffix, ms[0].ok), ms[1..])
  }

  /** The password entries are exactly those of the controller's users. */
  predicate InStep(w: World) {
    w.secret.Keys == Fields(w.users.Keys)
  }

  /** Every entry is the password entry of a user. */
  predicate NoStrays(w: World) {
    w.secret.Keys <= Fields(w.users.Keys)
  }

  lemma CreateInStep(w: World, d: Draw)
    requires InStep(w)
    ensures InStep(CreateUser(w, d, Calls(true, true)))
  {
    var w' := CreateUser(w, d, Calls(true, true));
    assert w'.users.Keys == w.users.Keys + {d.id};
    assert w'.secret.Keys == w.secret.Keys + {Naming.PasswordField(d.id)};
  }

  lemma CreateNoStrays(w: World, d: Draw, ok: Calls)
    requires NoStrays(w)
    ensures NoStrays(CreateUser(w, d, ok))
  {
    var w' := CreateUser(w, d, ok);
    assert w.users.Keys <= w'.users.Keys;
    assert w'.secret.Keys <= w.secret.Keys + {Naming.PasswordField(d.id)};
  }

  lemma DeleteInStep(w: World, id: string)
    requires InStep(w)
    ensures InStep(DeleteUser(w, id, Calls(true, true)))
  {
    var w' := DeleteUser(w, id, Calls(true, true));
    DeleteNoStrays(w, id, Calls(true, true));
    forall other | other in w'.users ensures Naming.PasswordField(other) in w'.secret {
      Naming.FieldsApart(id, other);
      if Naming.PasswordField(other) == Naming.PasswordField(id) {
        Naming.PasswordFieldInjective(other, id);
      }
    }
  }

  lemma DeleteNoStrays(w: World, id: string, ok: Calls)
    requires NoStrays(w)
    ensures NoStrays(DeleteUser(w, id, ok))
  {
    var w' := DeleteUser(w, id, ok);
    forall f | f in w'.secret ensures f in Fields(w'.users.Keys) {
      var other :| other in w.users && Naming.PasswordField(other) == f;
      assert other in w'.users.Keys;
    }
  }

  /** Served without refusals, messages keep users and password entries in step. */
  lemma {:induction false} ServingKeepsInStep(w: World, ms: seq<Service>)
    requires InStep(w) && forall m :: m in ms ==> m.ok == Calls(true, true)
    ensures InStep(HandledAll(w, ms))
    decreases ms
  {
    if ms != [] {
      var m := ms[0];
      var w' := Handled(w, m.msg, m.draw, m.suffix, m.ok);
      assert m in ms;
      match m.msg {
        case CreateIdentity => CreateInStep(w, m.draw);
        case DeleteServiceUser(u, _, _) => DeleteInStep(w, u.id);
        case DeleteSDPUser(id) => DeleteInStep(w, id);
        case ActivateServiceUser(_, _, _, _, _) => assert w'.users.Keys == w.users.Keys;
        case _ =>
      }
      ServingKeepsInStep(w', ms[1..]);
    }
  }

  /** Whatever calls are refused, no password entry outlives its user. */
  lemma {:induction false} ServingLeavesNoStrays(w: World, ms: seq<Service>)
    requires NoStrays(w)
    ensures NoStrays(HandledAll(w, ms))
    decreases ms
  {
    if ms != [] {
      var m := ms[0];
      var w' := Handled(w, m.msg, m.draw, m.suffix, m.ok);
      match m.msg {
        case CreateIdentity => CreateNoStrays(w, m.draw, m.ok);
        case DeleteServiceUser(u, _, _) => DeleteNoStrays(w, u.id, m.ok);
        case DeleteSDPUser(id) => DeleteNoStrays(w, id, m.ok);
        case ActivateServiceUser(_, _, _, _, _) => assert w'.users.Keys == w.users.Keys;
        case _ =>
      }
      ServingLeavesNoStrays(w', ms[1..]);
    }
  }

  /** Whatever state a crash left behind and whatever messages the creator serves after its
      initialization, with whatever refusals: the secret holds no stray entry, a restart keeps
      exactly the users whose password entry is there, unchanged and announced, and without
      refusals these are all users. */
  lemma RestartLosesNoUser(w: World, order: seq<string>, ds: seq<Draw>, size: nat, x: Context, ms: seq<Service>,
                           order': seq<string>, ds': seq<Draw>, x': Context)
    requires ValidInput(w, order, ds, size)
    requires ValidInput(HandledAll(Initialize(w, order, ds, size, x).world, ms), order', ds', size)
    ensures var stopped := HandledAll(Initialize(w, order, ds, size, x).world, ms);
            var r := Initialize(stopped, order', ds', size, x');
            && NoStrays(stopped)
            && (forall id :: id in stopped.users ==> (Recoverable(stopped, id) <==> id in r.world.users))
            && (forall id :: id in stopped.users && id in r.world.users ==>
                  id in AnnouncedIds(r.sent) && r.world.users[id] == stopped.users[id])
            && ((forall m :: m in ms ==> m.ok == Calls(true, true)) ==> forall id :: id in stopped.users ==> id in r.world.users)
  {
    InitializeRecovers(w, order, ds, size, x);
    var start := Initialize(w, order, ds, size, x).world;
    ServingLeavesNoStrays(start, ms);
    var stopped := HandledAll(start, ms);
    InitializeRecovers(stopped, order', ds', size, x');
    if forall m :: m in ms ==> m.ok == Calls(true, true) {
      ServingKeepsInStep(start, ms);
      AllRecoverable(stopped);
    }
  }
}
