/** A device id's way round: assigned to a pod at admission, written into its annotations,
    read back when the pod ends, listed by the identity manager and offered again. */
module DeviceRoundTrip {
  import opened Collections
  import opened Identities
  import opened Uuids
  import opened DeviceStore
  import ManagerModel
  import IdentitySystem
  import K = Kube
  import PP = PodPatch
  import PI = PodInjection
  import Naming

  /** UUIDs drawn while the names of one pod are computed, in the order of the calls. */
  datatype Draws = Draws(forId: string, forServiceName: string, forName: string, forDevice: string)

  /** The service a pod asks a device id for. */
  function RequestedService(pod: K.Pod, namespace: string, draws: Draws): string {
    Naming.ServiceId(namespace, Naming.PodServiceName(pod.Names(), draws.forId))
  }

  function ServiceNameOf(pod: K.Pod, namespace: string, draws: Draws): string {
    Naming.ServiceName(namespace, Naming.PodServiceName(pod.Names(), draws.forServiceName))
  }

  /** The environment for an identity and a device id from the store. */
  function FromStore(pod: K.Pod, namespace: string, draws: Draws, i: ServiceIdentity, u: Uuid): PP.Environment {
    var objectName := Naming.ServiceName(i.namespace, i.name);
    PP.Environment(
      Naming.PodServiceName(pod.Names(), draws.forName), RequestedService(pod, namespace, draws),
      ServiceNameOf(pod, namespace, draws), objectName + "-service-config", objectName + "-service-user",
      "service-url", "service-username", "service-password", ToText(u))
  }

  /** The environment of a pod that brings its own secrets. */
  function FromPod(pod: K.Pod, namespace: string, draws: Draws, secret: string): PP.Environment {
    var id, name := RequestedService(pod, namespace, draws), ServiceNameOf(pod, namespace, draws);
    PP.Environment(
      Naming.PodServiceName(pod.Names(), draws.forName), id, name,
      PP.OrElse(K.Lookup(pod.Annotations(), K.ClientConfig), name + "-service-config"), secret,
      id + "-password", id + "-user", id + "-password",
      PP.OrElse(K.Lookup(pod.Annotations(), K.DeviceId), draws.forDevice))
  }

  /** The environment for an admission, unless the store does not know the service. */
  function Environment(pod: K.Pod, namespace: string, draws: Draws, popped: Popped): Option<PP.Environment> {
    var secret := K.Lookup(pod.Annotations(), K.ClientSecrets);
    if secret.Some? then Some(FromPod(pod, namespace, draws, secret.value))
    else if popped.Assigned? then Some(FromStore(pod, namespace, draws, popped.identity, popped.uuid))
    else None
  }

  // ---------- The pod watcher ----------

  /** The message for a pod that ended, if it was a candidate and carries a device id. */
  function ReleaseMessage(pod: K.Pod, draw: string): Option<ManagerMsg> {
    var text := K.Lookup(pod.Annotations(), K.DeviceId);
    if pod.meta.namespace.Some? && K.NeedsInjection(pod.Annotations()) && text.Some? && Parse(text.value).Some?
    then Some(ReleaseDeviceId(pod.meta.namespace.value, Naming.PodServiceName(pod.Names(), draw), Parse(text.value).value))
    else None
  }

  function Deleted(pod: K.Pod, draw: string): Option<ManagerMsg> {
    ReleaseMessage(pod, draw)
  }

  /** A pod that is still there counts as ended only when it was evicted. */
  function Reapplied(pod: K.Pod, draw: string): Option<ManagerMsg> {
    if pod.reason == Some("Evicted") then ReleaseMessage(pod, draw) else None
  }

  /** The cluster runs the pod as admitted, in its namespace; name, status and all else may
      be filled in. */
  predicate RunsAs(admitted: K.Pod, namespace: string, running: K.Pod) {
    running.meta.annotations == admitted.meta.annotations && running.meta.namespace == Some(namespace)
  }

  // ---------- Round trip ----------

  /** What an injected pod reports at its end. */
  lemma InjectedReports(inj: PP.Injector, env: PP.Environment, pod: K.Pod, namespace: string, running: K.Pod, draw: string)
    requires PP.NeedsPatching(inj, pod) && inj.dnsIp.Some? && K.NeedsInjection(pod.Annotations())
    requires RunsAs(PP.Injected(inj, env, pod, namespace), namespace, running)
    ensures Deleted(running, draw) ==
            if Parse(env.deviceId).Some? then Some(ReleaseDeviceId(namespace, env.podName, Parse(env.deviceId).value)) else None
    ensures running.reason == Some("Evicted") ==> Reapplied(running, draw) == Deleted(running, draw)
  {
    PI.PatchKeepsDecision(pod.Annotations(), env);
    PI.MarkedLookup(pod.Annotations(), env, K.DeviceId);
    PI.MarkedLookup(pod.Annotations(), env, K.PodName);
  }

  /** The release names the service and the UUID of the admission, for every candidate pod
      whose name can be resolved; one whose name cannot is released to the right service
      exactly when two independent random draws agree. */
  lemma ReleaseMatchesAdmission(
    inj: PP.Injector, pod: K.Pod, namespace: string, draws: Draws, st: Store, random: Uuid, running: K.Pod, draw: string)
    requires PP.NeedsPatching(inj, pod) && inj.dnsIp.Some? && K.NeedsInjection(pod.Annotations())
    requires K.Lookup(pod.Annotations(), K.ClientSecrets).None?
    requires var popped := Pop(st, RequestedService(pod, namespace, draws), random).1;
             && popped.Assigned?
             && RunsAs(PP.Injected(inj, Environment(pod, namespace, draws, popped).value, pod, namespace), namespace, running)
    ensures var id := RequestedService(pod, namespace, draws);
            var msg := Deleted(running, draw);
            && msg.Some? && msg.value.ReleaseDeviceId? && msg.value.uuid == Pop(st, id, random).1.uuid
            && (Naming.ServiceId(msg.value.namespace, msg.value.name) == id <==>
                  pod.Names().Resolvable() || draws.forId == draws.forName)
            && (running.reason == Some("Evicted") ==> Reapplied(running, draw) == msg)
  {
    var id := RequestedService(pod, namespace, draws);
    var popped := Pop(st, id, random).1;
    var env := FromStore(pod, namespace, draws, popped.identity, popped.uuid);
    InjectedReports(inj, env, pod, namespace, running, draw);
    ParseToText(popped.uuid);
    assert Naming.ServiceId(namespace, env.podName)[|namespace| + 1..] == env.podName;
    assert id[|namespace| + 1..] == Naming.PodServiceName(pod.Names(), draws.forId);
  }

  // ---------- Full circle ----------

  /** The listed texts are canonical, as those written by the manager and the creator are. */
  predicate AllCanonical(texts: seq<string>) {
    forall t :: t in texts ==> Canonical(t)
  }

  /** A list of canonical texts offers an id exactly when it shows it and it is not recorded. */
  lemma ListedIsOffered(pool: seq<Uuid>, current: seq<string>, texts: seq<string>, u: Uuid)
    requires AllCanonical(texts)
    ensures u in PushAll(pool, Collect(texts, Unlisted(current))) <==>
            u in pool || (ToText(u) in texts && ToText(u) !in current)
  {
    ParseToText(u);
    PushAllMembers(pool, Collect(texts, Unlisted(current)));
    CollectMember(texts, Unlisted(current), u);
    forall i | 0 <= i < |texts| ensures Unlisted(current)(texts[i]) == Some(u) <==> texts[i] == ToText(u) && texts[i] !in current {
      assert Canonical(texts[i]);
    }
  }

  lemma LastListedComesFirst(pool: seq<Uuid>, current: seq<string>, texts: seq<string>, u: Uuid)
    requires AllCanonical(texts) && ToText(u) !in texts && ToText(u) !in current && u !in pool
    ensures var p := PushAll(pool, Collect(texts + [ToText(u)], Unlisted(current)));
            p != [] && p[0] == u
  {
    ParseToText(u);
    CollectAppend(texts, ToText(u), Unlisted(current));
    PushAllAppend(pool, Collect(texts, Unlisted(current)), u);
    ListedIsOffered(pool, current, texts, u);
  }

  /** After the manager has handled a release and its list has reached the store, the id waits
      in the pool exactly when it did before or the store had not recorded it: a second
      return of the same id is lost. An id listed for the first time is what the next pod of
      the service is given. */
  lemma ReleasedIdIsReused(m: ManagerModel.Manager, namespace: string, name: string, u: Uuid, api: ManagerModel.Api,
                           st: Store, random: Uuid)
    requires IdentitySystem.FiledByKey(m) && WellFormed(st)
    requires var id := Naming.ServiceId(namespace, name);
             && id in m.services && m.services[id].user.deviceIds.Some? && id in st.identities
             && AllCanonical(m.services[id].user.deviceIds.value)
    ensures var id := Naming.ServiceId(namespace, name);
            var before := m.services[id].user.deviceIds.value;
            var listed := ManagerModel.Release(m, namespace, name, u, api).manager.services[id];
            var st' := Registered(st, listed, None);
            && (u in Pool(st', id) <==> u in Pool(st, id) || ToText(u) !in Known(st, id))
            && (ToText(u) !in before && ToText(u) !in Known(st, id) && u !in Pool(st, id) ==>
                  Pop(st', id, random).1 == Assigned(st'.identities[id], u))
  {
    var id := Naming.ServiceId(namespace, name);
    var before := m.services[id].user.deviceIds.value;
    var listed := ManagerModel.Release(m, namespace, name, u, api).manager.services[id];
    assert listed.ServiceId() == id;
    ParseToText(u);
    ListedIsOffered(Pool(st, id), Known(st, id), listed.user.deviceIds.value, u);
    if ToText(u) !in before && ToText(u) !in Known(st, id) && u !in Pool(st, id) {
      LastListedComesFirst(Pool(st, id), Known(st, id), before, u);
    }
  }

  // ---------- What is reported, and to whom ----------

  /** A pod is reported when it is deleted exactly if it has a namespace, is a candidate and
      carries a legible device id; while it is still there, only if it was evicted as well. */
  lemma ReportedExactly(pod: K.Pod, draw: string)
    ensures var key := K.Annotation.DeviceId.Key();
            var reported := pod.meta.namespace.Some? && K.NeedsInjection(pod.Annotations())
                            && key in pod.Annotations() && Parse(pod.Annotations()[key]).Some?;
            && (Deleted(pod, draw).Some? <==> reported)
            && (Reapplied(pod, draw).Some? <==> reported && pod.reason == Some("Evicted"))
            && (reported ==>
                  Deleted(pod, draw).value == ReleaseDeviceId(
                    pod.meta.namespace.value, Naming.PodServiceName(pod.Names(), draw), Parse(pod.Annotations()[key]).value))
  {
  }

  /** Whose secrets a pod uses: its own, if it names them, under keys made of its service id;
      otherwise those of the identity in the store. */
  lemma EnvironmentSource(pod: K.Pod, namespace: string, draws: Draws, popped: Popped)
    ensures var own := K.Annotation.ClientSecrets.Key();
            var env := Environment(pod, namespace, draws, popped);
            && (env.Some? <==> own in pod.Annotations() || popped.Assigned?)
            && (env.Some? ==>
                  && env.value.serviceId == namespace + "_" + Naming.PodServiceName(pod.Names(), draws.forId)
                  && env.value.serviceName == namespace + "-" + Naming.PodServiceName(pod.Names(), draws.forServiceName)
                  && env.value.podName == Naming.PodServiceName(pod.Names(), draws.forName))
            && (own in pod.Annotations() ==>
                  && env.value.secret == pod.Annotations()[own]
                  && env.value.userKey == env.value.serviceId + "-user"
                  && env.value.passwordKey == env.value.serviceId + "-password" && env.value.urlKey == env.value.passwordKey
                  && env.value.deviceId == (if K.Annotation.DeviceId.Key() in pod.Annotations()
                                            then pod.Annotations()[K.Annotation.DeviceId.Key()] else draws.forDevice)
                  && env.value.config == (if K.Annotation.ClientConfig.Key() in pod.Annotations()
                                          then pod.Annotations()[K.Annotation.ClientConfig.Key()]
                                          else env.value.serviceName + "-service-config"))
            && (own !in pod.Annotations() && popped.Assigned? ==>
                  var prefix := popped.identity.namespace + "-" + popped.identity.name;
                  && env.value.secret == prefix + "-service-user" && env.value.config == prefix + "-service-config"
                  && env.value.userKey == "service-username" && env.value.passwordKey == "service-password"
                  && env.value.urlKey == "service-url" && env.value.deviceId == ToText(popped.uuid))
  {
  }

  /** The service a pod belongs to, over its own fields: the annotation, then the generated name,
      then the given one. */
  lemma ServiceOfPod(pod: K.Pod, name: string, hash: string, draw: string)
    ensures var key, service := K.Annotation.PodName.Key(), Naming.PodServiceName(pod.Names(), draw);
            && (key in pod.Annotations() ==> service == pod.Annotations()[key])
            && (key !in pod.Annotations() && '-' !in hash && pod.meta.generateName == Some(name + "-" + hash + "-") ==> service == name)
            && (key !in pod.Annotations() && pod.meta.generateName.None? && pod.meta.name.Some? ==> service == pod.meta.name.value)
  {
    Naming.GeneratedNameRoundTrip(name, hash, pod.meta.name, draw);
    Naming.PodNameIsTaken(pod.Names(), draw);
  }
}
