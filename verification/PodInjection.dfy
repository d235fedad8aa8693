/** What the injected pod promises: it passes the validator, is not patched again, keeps what
    the pod had, and is decided upon as before. */
module PodInjection {
  import opened Collections
  import opened Strings
  import opened Kube
  import opened PodPatch

  /** The validator accepts exactly the pods that have every required name. */
  lemma ValidateExact(inj: Injector, pod: Pod)
    requires pod.spec.Some?
    ensures Validate(inj, pod).Valid? <==>
            && (forall c :: c in inj.sidecars.containers ==> exists d :: d in pod.spec.value.containers && d.name == c.name)
            && (forall v :: v in inj.sidecars.volumes ==>
                  pod.spec.value.volumes.Some? && exists u :: u in pod.spec.value.volumes.value && u.name == v.name)
  {
    var required := ContainerNames(inj.sidecars.containers);
    var present := set c | c in pod.spec.value.containers && c.name in required :: c.name;
    var volumes := if pod.spec.value.volumes.Some? then VolumeNames(pod.spec.value.volumes.value) else {};
    if Validate(inj, pod).Valid? {
      forall c | c in inj.sidecars.containers ensures exists d :: d in pod.spec.value.containers && d.name == c.name {
        assert c.name in present;
      }
      forall v | v in inj.sidecars.volumes
        ensures pod.spec.value.volumes.Some? && exists u :: u in pod.spec.value.volumes.value && u.name == v.name
      {
        assert v.name in VolumeNames(inj.sidecars.volumes);
        assert v.name in volumes;
      }
    }
  }

  /** What a refusal lists: exactly the required names that are not there. */
  lemma MissingExactly(inj: Injector, pod: Pod)
    requires pod.spec.Some? && Validate(inj, pod).Missing?
    ensures var v := Validate(inj, pod);
            && (forall n :: n in v.containers <==>
                  && (exists c :: c in inj.sidecars.containers && c.name == n)
                  && (forall d :: d in pod.spec.value.containers ==> d.name != n))
            && (forall n :: n in v.volumes <==>
                  && (exists u :: u in inj.sidecars.volumes && u.name == n)
                  && (pod.spec.value.volumes.Some? ==> forall u :: u in pod.spec.value.volumes.value ==> u.name != n))
  {
  }

  /** Every pod with a container and a DNS address, none of whose containers is named like a
      sidecar, is valid once injected. */
  lemma AdmittedPodIsValid(inj: Injector, env: Environment, pod: Pod, namespace: string)
    requires inj.dnsIp.Some? && pod.spec.Some? && |pod.spec.value.containers| > 0
    requires forall c, s :: c in pod.spec.value.containers && s in inj.sidecars.containers ==> c.name != s.name
    ensures NeedsPatching(inj, pod) && Validate(inj, Injected(inj, env, pod, namespace)).Valid?
  {
    NeedsPatchingExactly(inj, pod);
    InjectedPodIsComplete(inj, env, pod, namespace);
  }

  lemma SidecarAdded(inj: Injector, env: Environment, pod: Pod, c: Container)
    requires pod.spec.Some? && c in inj.sidecars.containers
    ensures exists d :: d in AddedContainers(inj, env, pod) && d.name == c.name
  {
    var i :| 0 <= i < |inj.sidecars.containers| && inj.sidecars.containers[i] == c;
    assert AddedContainers(inj, env, pod)[i].name == c.name;
    assert AddedContainers(inj, env, pod)[i] in AddedContainers(inj, env, pod);
  }

  /** The injected pod passes the validator, and is left alone by another admission if there
      is any sidecar at all. */
  lemma InjectedPodIsComplete(inj: Injector, env: Environment, pod: Pod, namespace: string)
    requires NeedsPatching(inj, pod) && inj.dnsIp.Some?
    ensures Validate(inj, Injected(inj, env, pod, namespace)).Valid?
    ensures NeedsPatching(inj, Injected(inj, env, pod, namespace)) <==> inj.sidecars.containers == []
  {
    var r, added := Injected(inj, env, pod, namespace), AddedContainers(inj, env, pod);
    forall c | c in inj.sidecars.containers ensures exists d :: d in r.spec.value.containers && d.name == c.name {
      SidecarAdded(inj, env, pod, c);
      var d :| d in added && d.name == c.name;
      assert d in r.spec.value.containers;
    }
    ValidateExact(inj, r);
    if inj.sidecars.containers != [] {
      var c := inj.sidecars.containers[0];
      assert c in inj.sidecars.containers && c.name in ContainerNames(inj.sidecars.containers);
      var d :| d in r.spec.value.containers && d.name == c.name;
    }
  }

  predicate Written(a: Annotation) {
    a.Strategy? || a.Enabled? || a.DeviceId? || a.ServiceName? || a.ServiceId? || a.PodName?
  }

  /** What each annotation is after the patch. */
  lemma MarkedLookup(annotations: map<string, string>, env: Environment, a: Annotation)
    ensures Lookup(Marked(annotations, env), a) ==
            match a
            case Strategy => Some(StrategyOf(annotations).Text())
            case Enabled => Some(OrElse(Lookup(annotations, Enabled), BoolText(StrategyOf(annotations).EnabledByDefault?)))
            case DeviceId => Some(env.deviceId)
            case ServiceName => Some(env.serviceName)
            case ServiceId => Some(env.serviceId)
            case PodName => Some(env.podName)
            case _ => Lookup(annotations, a)
  {
    var strategy := StrategyOf(annotations);
    var enabled := OrElse(Lookup(annotations, Enabled), BoolText(strategy.EnabledByDefault?));
    var m1 := Write(annotations, Strategy, strategy.Text());
    var m2 := Write(m1, Enabled, enabled);
    var m3 := Write(m2, DeviceId, env.deviceId);
    var m4 := Write(m3, ServiceName, env.serviceName);
    var m5 := Write(m4, ServiceId, env.serviceId);
    LookupWrite(annotations, Strategy, strategy.Text(), a);
    LookupWrite(m1, Enabled, enabled, a);
    LookupWrite(m2, DeviceId, env.deviceId, a);
    LookupWrite(m3, ServiceName, env.serviceName, a);
    LookupWrite(m4, ServiceId, env.serviceId, a);
    LookupWrite(m5, PodName, env.podName, a);
  }

  /** Keys other than the six written keep their values, and none appears. */
  lemma MarkedElsewhere(annotations: map<string, string>, env: Environment, key: string)
    requires forall a: Annotation :: Written(a) ==> a.Key() != key
    ensures key in Marked(annotations, env) <==> key in annotations
    ensures key in annotations ==> Marked(annotations, env)[key] == annotations[key]
  {
  }

  /** The pod's own containers, volumes and sysctls keep their places; init containers are
      only wrapped, and names are resolved by the sidecar. */
  lemma InjectionKeepsOrder(inj: Injector, env: Environment, pod: Pod, namespace: string)
    requires pod.spec.Some? && inj.dnsIp.Some?
    ensures var was, now := pod.spec.value, Injected(inj, env, pod, namespace).spec.value;
            && was.containers <= now.containers && |now.containers| == |was.containers| + |inj.sidecars.containers|
            && now.volumes.Some? && OrElse(was.volumes, []) + inj.sidecars.volumes == now.volumes.value
            && (now.initContainers == was.initContainers ||
                (was.initContainers.Some? && now.initContainers.Some?
                 && |now.initContainers.value| == |was.initContainers.value| + 2
                 && now.initContainers.value[1..|now.initContainers.value| - 1] == was.initContainers.value))
            && (now.securityContext == was.securityContext ||
                (now.securityContext.Some? && now.securityContext.value.sysctls.Some?
                 && now.securityContext.value.sysctls.value[1..]
                    == (if was.securityContext.Some? then OrElse(was.securityContext.value.sysctls, []) else [])
                 && now.securityContext.value.other == (if was.securityContext.Some? then was.securityContext.value.other else map[])))
            && (inj.serverVersion >= 22 ==>
                  now.securityContext.Some? && OrElse(now.securityContext.value.sysctls, []) != []
                  && now.securityContext.value.sysctls.value[0] == Sysctl("net.ipv4.ip_unprivileged_port_start", "0"))
            && now.dnsPolicy == Some("None") && now.dnsConfig.Some? && now.dnsConfig.value.nameservers == ["127.0.0.1"]
            && now.other == was.other
  {
  }

  /** Each sidecar is appended in its place, with the version the pod asks for or else the
      default one. */
  lemma SidecarsInPlace(inj: Injector, env: Environment, pod: Pod, namespace: string, i: nat)
    requires pod.spec.Some? && inj.dnsIp.Some? && i < |inj.sidecars.containers|
    ensures var c, s := Injected(inj, env, pod, namespace).spec.value.containers[|pod.spec.value.containers| + i], inj.sidecars.containers[i];
            var key := ClientVersion.Key();
            var version := if key in pod.Annotations() then pod.Annotations()[key] else inj.defaultVersion;
            && c.name == s.name && c.other == s.other && c.env.Some?
            && (s.image.None? ==> c.image.None?)
            && (s.image.Some? ==> c.image == Some(Retag(s.image.value, version)))
  {
    assert AddedContainers(inj, env, pod)[i] == Sidecar(inj, env, pod, inj.sidecars.containers[i]);
  }

  /** Init containers, if there are any and the pod does not opt out, come between the first and
      the last one of the sidecars, which are told where names are resolved; otherwise they
      stay. The domains are those the pod asks for or else the default ones. */
  lemma InitContainersWrapped(inj: Injector, env: Environment, pod: Pod, namespace: string)
    requires pod.spec.Some? && inj.dnsIp.Some?
    ensures var was, r := pod.spec.value.initContainers, Injected(inj, env, pod, namespace).spec.value;
            var out, custom := DisableInitContainers.Key(), DnsSearches.Key();
            var domains := Domains(if custom in pod.Annotations() then pod.Annotations()[custom] else inj.sidecars.searches);
            var told := Some([EnvVar("K8S_DNS_SERVICE", Literal(inj.dnsIp.value)),
                              EnvVar("K8S_DNS_SEARCHES", Literal(Join(Searches(domains, namespace), ' ')))]);
            && r.dnsConfig == Some(DnsConfig(["127.0.0.1"], Searches(domains, namespace)))
            && (if was.Some? && was.value != [] && (out in pod.Annotations() ==> ToLower(pod.Annotations()[out]) != "true") then
                  r.initContainers ==
                  Some([inj.sidecars.firstInit.(env := told)] + was.value + [inj.sidecars.lastInit.(env := told)])
                else r.initContainers == was)
  {
    assert ToLower("true") == "true";
  }

  /** Whatever variable of a sidecar is called `name` has this source, and there is one. */
  predicate Tells(vs: seq<EnvVar>, name: string, source: EnvSource) {
    EnvVar(name, source) in vs && forall v :: v in vs && v.name == name ==> v.source == source
  }

  lemma TellsAt(vs: seq<EnvVar>, i: nat)
    requires i < |vs| && forall j :: 0 <= j < |vs| && j != i ==> vs[j].name != vs[i].name
    ensures Tells(vs, vs[i].name, vs[i].source)
  {
  }

  /** The names of the client's variables, in order, without the resolver's. */
  const CLIENT_NAMES: seq<string> := [
    "POD_N_CONTAINERS", "SERVICE_NAME", "SERVICE_ID", "APPGATE_LOGLEVEL", "APPGATE_DEVICE_ID", "APPGATE_PROFILE_URL",
    "APPGATE_USERNAME", "APPGATE_PASSWORD", "POD_NODE", "POD_NAME", "POD_NAMESPACE", "POD_SERVICE_ACCOUNT"]

  lemma ClientNamesDiffer()
    ensures forall i, j :: 0 <= i < j < |CLIENT_NAMES| ==> CLIENT_NAMES[i] != CLIENT_NAMES[j]
    ensures forall i :: 0 <= i < |CLIENT_NAMES| ==> CLIENT_NAMES[i] != "K8S_DNS_SERVICE"
  {
    assert "POD_N_CONTAINERS"[0] != "APPGATE_LOGLEVEL"[0] && "POD_N_CONTAINERS"[0] != "APPGATE_USERNAME"[0];
    assert "POD_N_CONTAINERS"[0] != "APPGATE_PASSWORD"[0] && "APPGATE_LOGLEVEL"[8] != "APPGATE_USERNAME"[8];
    assert "APPGATE_LOGLEVEL"[8] != "APPGATE_PASSWORD"[8] && "APPGATE_USERNAME"[8] != "APPGATE_PASSWORD"[8];
    assert "APPGATE_PROFILE_URL"[0] != "POD_SERVICE_ACCOUNT"[0] && "POD_NODE"[5] != "POD_NAME"[5];
  }

  lemma VariablesNamed(env: Environment, containers: nat, dnsIp: Option<string>)
    ensures var vs, n := Variables(env, containers, dnsIp, SERVICE_CONTAINER), if dnsIp.Some? then 1 else 0;
            && |vs| == n + |CLIENT_NAMES|
            && (n == 1 ==> vs[0].name == "K8S_DNS_SERVICE")
            && (forall i :: 0 <= i < |CLIENT_NAMES| ==> vs[n + i].name == CLIENT_NAMES[i])
  {
  }

  lemma VariableNamesDiffer(env: Environment, containers: nat, dnsIp: Option<string>)
    ensures var vs := Variables(env, containers, dnsIp, SERVICE_CONTAINER);
            forall i, j :: 0 <= i < j < |vs| ==> vs[i].name != vs[j].name
  {
    var vs, n := Variables(env, containers, dnsIp, SERVICE_CONTAINER), if dnsIp.Some? then 1 else 0;
    VariablesNamed(env, containers, dnsIp);
    NamesApart(vs, n);
  }

  lemma NamesApart(vs: seq<EnvVar>, n: nat)
    requires n <= 1 && |vs| == n + |CLIENT_NAMES| && (n == 1 ==> vs[0].name == "K8S_DNS_SERVICE")
    requires forall i :: 0 <= i < |CLIENT_NAMES| ==> vs[n + i].name == CLIENT_NAMES[i]
    ensures forall i, j :: 0 <= i < j < |vs| ==> vs[i].name != vs[j].name
  {
    ClientNamesDiffer();
    forall i, j | 0 <= i < j < |vs| ensures vs[i].name != vs[j].name {
      assert vs[j].name == vs[n + (j - n)].name == CLIENT_NAMES[j - n];
      if n <= i {
        assert vs[i].name == vs[n + (i - n)].name == CLIENT_NAMES[i - n];
      }
    }
  }

  /** The variable at one place is told under its name. */
  lemma Told(env: Environment, containers: nat, dnsIp: Option<string>, k: nat, name: string, source: EnvSource)
    requires var vs := Variables(env, containers, dnsIp, SERVICE_CONTAINER);
             k < |vs| && vs[k] == EnvVar(name, source)
    ensures Tells(Variables(env, containers, dnsIp, SERVICE_CONTAINER), name, source)
  {
    VariableNamesDiffer(env, containers, dnsIp);
    TellsAt(Variables(env, containers, dnsIp, SERVICE_CONTAINER), k);
  }

  // What the client container is told about itself, by name: whose pod it is in, under which
  // ids, and where to find its credentials.

  lemma CountTold(env: Environment, containers: nat, dnsIp: Option<string>)
    ensures exists text :: DecimalValue(text) == containers
              && Tells(Variables(env, containers, dnsIp, SERVICE_CONTAINER), "POD_N_CONTAINERS", Literal(text))
  {
    DecimalRoundTrip(containers);
    Told(env, containers, dnsIp, if dnsIp.Some? then 1 else 0, "POD_N_CONTAINERS", Literal(Decimal(containers)));
  }

  lemma ResolverTold(env: Environment, containers: nat, ip: string)
    ensures Tells(Variables(env, containers, Some(ip), SERVICE_CONTAINER), "K8S_DNS_SERVICE", Literal(ip))
  {
    Told(env, containers, Some(ip), 0, "K8S_DNS_SERVICE", Literal(ip));
  }

  lemma ServiceNameTold(env: Environment, containers: nat, dnsIp: Option<string>)
    ensures Tells(Variables(env, containers, dnsIp, SERVICE_CONTAINER), "SERVICE_NAME", Literal(env.serviceName))
  {
    Told(env, containers, dnsIp, (if dnsIp.Some? then 1 else 0) + 1, "SERVICE_NAME", Literal(env.serviceName));
  }

  lemma ServiceIdTold(env: Environment, containers: nat, dnsIp: Option<string>)
    ensures Tells(Variables(env, containers, dnsIp, SERVICE_CONTAINER), "SERVICE_ID", Literal(env.serviceId))
  {
    Told(env, containers, dnsIp, (if dnsIp.Some? then 1 else 0) + 2, "SERVICE_ID", Literal(env.serviceId));
  }

  lemma LogLevelTold(env: Environment, containers: nat, dnsIp: Option<string>)
    ensures Tells(Variables(env, containers, dnsIp, SERVICE_CONTAINER), "APPGATE_LOGLEVEL", FromConfigMap(env.config, "appgate-loglevel"))
  {
    Told(env, containers, dnsIp, (if dnsIp.Some? then 1 else 0) + 3, "APPGATE_LOGLEVEL", FromConfigMap(env.config, "appgate-loglevel"));
  }

  lemma DeviceIdTold(env: Environment, containers: nat, dnsIp: Option<string>)
    ensures Tells(Variables(env, containers, dnsIp, SERVICE_CONTAINER), "APPGATE_DEVICE_ID", Literal(env.deviceId))
  {
    Told(env, containers, dnsIp, (if dnsIp.Some? then 1 else 0) + 4, "APPGATE_DEVICE_ID", Literal(env.deviceId));
  }

  lemma NodeTold(env: Environment, containers: nat, dnsIp: Option<string>)
    ensures Tells(Variables(env, containers, dnsIp, SERVICE_CONTAINER), "POD_NODE", FromField("spec.nodeName"))
  {
    Told(env, containers, dnsIp, (if dnsIp.Some? then 1 else 0) + 8, "POD_NODE", FromField("spec.nodeName"));
  }

  lemma PodNameTold(env: Environment, containers: nat, dnsIp: Option<string>)
    ensures Tells(Variables(env, containers, dnsIp, SERVICE_CONTAINER), "POD_NAME", FromField("metadata.name"))
  {
    Told(env, containers, dnsIp, (if dnsIp.Some? then 1 else 0) + 9, "POD_NAME", FromField("metadata.name"));
  }

  lemma NamespaceTold(env: Environment, containers: nat, dnsIp: Option<string>)
    ensures Tells(Variables(env, containers, dnsIp, SERVICE_CONTAINER), "POD_NAMESPACE", FromField("metadata.namespace"))
  {
    Told(env, containers, dnsIp, (if dnsIp.Some? then 1 else 0) + 10, "POD_NAMESPACE", FromField("metadata.namespace"));
  }

  lemma AccountTold(env: Environment, containers: nat, dnsIp: Option<string>)
    ensures Tells(Variables(env, containers, dnsIp, SERVICE_CONTAINER), "POD_SERVICE_ACCOUNT", FromField("spec.serviceAccountName"))
  {
    Told(env, containers, dnsIp, (if dnsIp.Some? then 1 else 0) + 11, "POD_SERVICE_ACCOUNT", FromField("spec.serviceAccountName"));
  }

  lemma UrlTold(env: Environment, containers: nat, dnsIp: Option<string>)
    ensures Tells(Variables(env, containers, dnsIp, SERVICE_CONTAINER), "APPGATE_PROFILE_URL", FromSecret(env.secret, env.urlKey))
  {
    Told(env, containers, dnsIp, (if dnsIp.Some? then 1 else 0) + 5, "APPGATE_PROFILE_URL", FromSecret(env.secret, env.urlKey));
  }

  lemma UsernameTold(env: Environment, containers: nat, dnsIp: Option<string>)
    ensures Tells(Variables(env, containers, dnsIp, SERVICE_CONTAINER), "APPGATE_USERNAME", FromSecret(env.secret, env.userKey))
  {
    Told(env, containers, dnsIp, (if dnsIp.Some? then 1 else 0) + 6, "APPGATE_USERNAME", FromSecret(env.secret, env.userKey));
  }

  lemma PasswordTold(env: Environment, containers: nat, dnsIp: Option<string>)
    ensures Tells(Variables(env, containers, dnsIp, SERVICE_CONTAINER), "APPGATE_PASSWORD", FromSecret(env.secret, env.passwordKey))
  {
    Told(env, containers, dnsIp, (if dnsIp.Some? then 1 else 0) + 7, "APPGATE_PASSWORD", FromSecret(env.secret, env.passwordKey));
  }

  /** The other sidecars learn no more than the resolver, the number of containers and the
      names of the service: credentials and device id go to the client alone. */
  lemma OthersLearnLess(env: Environment, containers: nat, dnsIp: Option<string>, name: string)
    requires name != "sdp-service"
    ensures var vs := Variables(env, containers, dnsIp, name);
            && |vs| == (if dnsIp.Some? then 4 else 3)
            && (forall v :: v in vs ==> v.source.Literal?)
            && (forall v :: v in vs ==> v.name in {"K8S_DNS_SERVICE", "POD_N_CONTAINERS", "SERVICE_NAME", "SERVICE_ID"})
  {
  }

  /** The client container of the injected pod. */
  function Client(inj: Injector, env: Environment, pod: Pod, namespace: string, i: nat): Container
    requires pod.spec.Some? && inj.dnsIp.Some? && i < |inj.sidecars.containers|
  {
    Injected(inj, env, pod, namespace).spec.value.containers[|pod.spec.value.containers| + i]
  }

  lemma ClientVariables(inj: Injector, env: Environment, pod: Pod, namespace: string, i: nat)
    requires pod.spec.Some? && inj.dnsIp.Some? && i < |inj.sidecars.containers|
    ensures var c, s := Client(inj, env, pod, namespace, i), inj.sidecars.containers[i];
            c.name == s.name && c.env == Some(Variables(env, |pod.spec.value.containers|, inj.dnsIp, s.name))
  {
    assert AddedContainers(inj, env, pod)[i] == Sidecar(inj, env, pod, inj.sidecars.containers[i]);
  }

  /** The client container works under the device id and the service id that the pod's
      annotations name, the ones that come back when the pod ends. */
  lemma ClientMatchesAnnotations(inj: Injector, env: Environment, pod: Pod, namespace: string, i: nat)
    requires pod.spec.Some? && inj.dnsIp.Some?
    requires i < |inj.sidecars.containers| && inj.sidecars.containers[i].name == "sdp-service"
    ensures var annotations, c := Injected(inj, env, pod, namespace).Annotations(), Client(inj, env, pod, namespace, i);
            && c.name == "sdp-service" && c.env.Some?
            && DeviceId.Key() in annotations && Tells(c.env.value, "APPGATE_DEVICE_ID", Literal(annotations[DeviceId.Key()]))
            && ServiceId.Key() in annotations && Tells(c.env.value, "SERVICE_ID", Literal(annotations[ServiceId.Key()]))
  {
    MarkedLookup(pod.Annotations(), env, DeviceId);
    MarkedLookup(pod.Annotations(), env, ServiceId);
    DeviceIdTold(env, |pod.spec.value.containers|, inj.dnsIp);
    ServiceIdTold(env, |pod.spec.value.containers|, inj.dnsIp);
    ClientVariables(inj, env, pod, namespace, i);
  }

  /** It reads user name, password and profile URL from the secret and the keys of its
      environment. */
  lemma ClientHasCredentials(inj: Injector, env: Environment, pod: Pod, namespace: string, i: nat)
    requires pod.spec.Some? && inj.dnsIp.Some?
    requires i < |inj.sidecars.containers| && inj.sidecars.containers[i].name == "sdp-service"
    ensures var c := Client(inj, env, pod, namespace, i);
            && c.env.Some?
            && Tells(c.env.value, "APPGATE_USERNAME", FromSecret(env.secret, env.userKey))
            && Tells(c.env.value, "APPGATE_PASSWORD", FromSecret(env.secret, env.passwordKey))
            && Tells(c.env.value, "APPGATE_PROFILE_URL", FromSecret(env.secret, env.urlKey))
  {
    UrlTold(env, |pod.spec.value.containers|, inj.dnsIp);
    UsernameTold(env, |pod.spec.value.containers|, inj.dnsIp);
    PasswordTold(env, |pod.spec.value.containers|, inj.dnsIp);
    ClientVariables(inj, env, pod, namespace, i);
  }

  /** And it knows its surroundings: service, number of containers, resolver, log level and the
      pod's own fields. */
  lemma ClientKnowsItsPod(inj: Injector, env: Environment, pod: Pod, namespace: string, i: nat)
    requires pod.spec.Some? && inj.dnsIp.Some?
    requires i < |inj.sidecars.containers| && inj.sidecars.containers[i].name == "sdp-service"
    ensures var c := Client(inj, env, pod, namespace, i);
            && c.env.Some?
            && (exists n :: DecimalValue(n) == |pod.spec.value.containers| && Tells(c.env.value, "POD_N_CONTAINERS", Literal(n)))
            && Tells(c.env.value, "K8S_DNS_SERVICE", Literal(inj.dnsIp.value))
            && Tells(c.env.value, "SERVICE_NAME", Literal(env.serviceName))
            && Tells(c.env.value, "APPGATE_LOGLEVEL", FromConfigMap(env.config, "appgate-loglevel"))
            && Tells(c.env.value, "POD_NODE", FromField("spec.nodeName"))
            && Tells(c.env.value, "POD_NAME", FromField("metadata.name"))
            && Tells(c.env.value, "POD_NAMESPACE", FromField("metadata.namespace"))
            && Tells(c.env.value, "POD_SERVICE_ACCOUNT", FromField("spec.serviceAccountName"))
  {
    var n, ip := |pod.spec.value.containers|, inj.dnsIp;
    ClientVariables(inj, env, pod, namespace, i);
    CountTold(env, n, ip);
    ResolverTold(env, n, ip.value);
    ServiceNameTold(env, n, ip);
    LogLevelTold(env, n, ip);
    NodeTold(env, n, ip);
    PodNameTold(env, n, ip);
    NamespaceTold(env, n, ip);
    AccountTold(env, n, ip);
  }

  /** The patch does not change the decision about the pod. */
  lemma PatchKeepsDecision(annotations: map<string, string>, env: Environment)
    ensures NeedsInjection(Marked(annotations, env)) == NeedsInjection(annotations)
    ensures StrategyOf(Marked(annotations, env)) == StrategyOf(annotations)
  {
    var marked := Marked(annotations, env);
    MarkedLookup(annotations, env, Strategy);
    MarkedLookup(annotations, env, Enabled);
    WrittenStrategy(marked, StrategyOf(annotations));
    if Lookup(annotations, Enabled).None? {
      WrittenDecision(marked, StrategyOf(annotations), StrategyOf(annotations).EnabledByDefault?);
    }
  }
}
