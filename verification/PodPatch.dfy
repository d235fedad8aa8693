/** Injection of a pod: the operations the injector emits, what they make of the pod, and the
    validator that looks at the result. */
module PodPatch {
  import opened Collections
  import opened Strings
  import opened Kube
  import opened JsonPatch
  import opened Pointers

  const SAFE_SYSCTL_VERSION: nat := 22
  const SERVICE_CONTAINER: string := "sdp-service"

  /** Containers, volumes and search domains from the sidecar file. */
  datatype Sidecars = Sidecars(
    firstInit: Container, lastInit: Container, containers: seq<Container>, volumes: seq<Volume>, searches: string)

  /** What the injected containers are told about their service. */
  datatype Environment = Environment(
    podName: string, serviceId: string, serviceName: string, config: string, secret: string,
    urlKey: string, userKey: string, passwordKey: string, deviceId: string)

  datatype Injector = Injector(
    sidecars: Sidecars, dnsIp: Option<string>, serverVersion: nat, defaultVersion: string)

  datatype Request = Request(pod: Option<Pod>, namespace: Option<string>)

  datatype PatchError = NoPod | NoNamespace | NoDnsAddress

  datatype PatchResult = Patched(ops: seq<Operation>) | Refused(error: PatchError)

  function OrElse<T>(x: Option<T>, default: T): T {
    if x.Some? then x.value else default
  }

  // ---------- Images ----------

  predicate EndsWith(s: string, suffix: string) {
    |suffix| <= |s| && s[|s| - |suffix|..] == suffix
  }

  /** Drops `suffix` from the end as often as it occurs there. */
  function TrimEnd(s: string, suffix: string): string
    requires suffix != ""
  {
    if EndsWith(s, suffix) then TrimEnd(s[..|s| - |suffix|], suffix) else s
  }

  /** What follows the last colon is taken for the tag. */
  function Tag(image: string): string {
    var parts := Split(image, ':');
    parts[|parts| - 1]
  }

  function Retag(image: string, version: string): string {
    TrimEnd(image, ":" + Tag(image)) + ":" + version
  }

  lemma TagAfterColon(repository: string, tag: string)
    requires ':' !in tag
    ensures Tag(repository + ":" + tag) == tag
  {
    SplitAtSeparator(repository, tag, ':');
    SplitWithoutSeparator(tag, ':');
  }

  lemma {:induction false} TrimEndShortens(s: string, suffix: string)
    requires suffix != ""
    ensures if EndsWith(s, suffix) then |TrimEnd(s, suffix)| < |s| else TrimEnd(s, suffix) == s
    decreases |s|
  {
    if EndsWith(s, suffix) {
      TrimEndShortens(s[..|s| - |suffix|], suffix);
    }
  }

  /** The tag of an image is replaced, exactly when the part before it does not end in the
      very same tag. */
  lemma RetagReplacesTag(repository: string, tag: string, version: string)
    requires ':' !in tag
    ensures Retag(repository + ":" + tag, version) == repository + ":" + version <==> !EndsWith(repository, ":" + tag)
  {
    TagAfterColon(repository, tag);
    var image, suffix := repository + ":" + tag, ":" + tag;
    assert image[|image| - |suffix|..] == suffix && image[..|image| - |suffix|] == repository;
    assert TrimEnd(image, suffix) == TrimEnd(repository, suffix);
    TrimEndShortens(repository, suffix);
    var trimmed := TrimEnd(repository, suffix);
    assert Retag(image, version) == trimmed + ":" + version;
    assert |Retag(image, version)| == |trimmed| + 1 + |version| && |repository + ":" + version| == |repository| + 1 + |version|;
  }

  lemma SplitAtLastColon(image: string)
    requires ':' in image
    ensures EndsWith(image, ":" + Tag(image))
  {
    var parts := Split(image, ':');
    SplitWithoutSeparator(image, ':');
    JoinSplit(image, ':');
    var front, last := parts[..|parts| - 1], parts[|parts| - 1..];
    assert parts == front + last;
    JoinConcat(front, last, ':');
    assert image == Join(front, ':') + (":" + Tag(image));
  }

  /** The version is merely appended exactly when the image has no colon at all: an image
      without a tag but with a registry port loses everything after the port's colon. */
  lemma RetagKeepsImage(image: string, version: string)
    ensures Retag(image, version) == image + ":" + version <==> ':' !in image
  {
    var suffix := ":" + Tag(image);
    SplitWithoutSeparator(image, ':');
    TrimEndShortens(image, suffix);
    if ':' in image {
      SplitAtLastColon(image);
      assert |Retag(image, version)| < |image + ":" + version|;
    }
  }

  // ---------- Search domains ----------

  predicate IsSpace(c: char) {
    c == ' ' || c == '\t' || c == '\n' || c == '\r' || c == 11 as char || c == 12 as char
  }

  function Trim(s: string): string {
    if s == "" then ""
    else if IsSpace(s[0]) then Trim(s[1..])
    else if IsSpace(s[|s| - 1]) then Trim(s[..|s| - 1])
    else s
  }

  function Domains(searches: string): (r: seq<string>)
    ensures |r| >= 1
  {
    var parts := Split(searches, ' ');
    seq(|parts|, i requires 0 <= i < |parts| => Trim(parts[i]))
  }

  /** The first domain without its first label. */
  function Parent(domain: string): string {
    Join(Split(domain, '.')[1..], '.')
  }

  /** The parent of the first domain is put second; if it is listed already, the first domain
      gets the namespace in front of it, unless it starts with it. */
  function Searches(domains: seq<string>, namespace: string): seq<string>
    requires |domains| >= 1
  {
    var head, parent := Split(domains[0], '.')[0], Parent(domains[0]);
    if parent !in domains then [domains[0], parent] + domains[1..]
    else if !EqualsIgnoreCase(head, namespace) then [namespace + "." + domains[0]] + domains
    else domains
  }

  /** No domain is lost or moved, at most one is new, and the parent of the first is among
      them. */
  lemma SearchesKeepDomains(domains: seq<string>, namespace: string)
    requires |domains| >= 1
    ensures var r := Searches(domains, namespace);
            && Parent(domains[0]) in r
            && (r == domains || r[1..] == domains || (|r| > 1 && [r[0]] + r[2..] == domains))
  {
  }

  /** The parent is what follows the first dot. */
  lemma ParentFollowsDot(domain: string)
    ensures '.' !in domain ==> Parent(domain) == ""
    ensures '.' in domain ==> '.' !in Split(domain, '.')[0] && domain == Split(domain, '.')[0] + "." + Parent(domain)
  {
    var parts := Split(domain, '.');
    SplitPieces(domain, '.');
    SplitWithoutSeparator(domain, '.');
    JoinSplit(domain, '.');
    if '.' in domain {
      assert parts == [parts[0]] + parts[1..];
      JoinConcat([parts[0]], parts[1..], '.');
    }
  }

  /** The list of domains, case by case: the parent of the first one is new, or the first one
      lacks the namespace, or all is as it should be. */
  lemma SearchesExactly(domains: seq<string>, namespace: string)
    requires |domains| >= 1
    ensures var r, parent := Searches(domains, namespace), Parent(domains[0]);
            var qualified := ToLower(Split(domains[0], '.')[0]) == ToLower(namespace);
            && (parent !in domains ==> |r| == |domains| + 1 && r[0] == domains[0] && r[1] == parent && r[2..] == domains[1..])
            && (parent in domains && !qualified ==> r[1..] == domains && |r| > 0 && r[0] == namespace + "." + domains[0])
            && (parent in domains && qualified ==> r == domains)
  {
  }

  /** `t` is `s` from `i` to `j`, with nothing but blanks around it. */
  ghost predicate CutOut(s: string, t: string, i: nat, j: nat) {
    i <= j <= |s| && t == s[i..j] && forall n :: 0 <= n < i || j <= n < |s| ==> IsSpace(s[n])
  }

  /** Trimming cuts blanks at both ends and nothing else. */
  lemma {:induction false} TrimExactly(s: string) returns (i: nat, j: nat)
    ensures CutOut(s, Trim(s), i, j)
    ensures Trim(s) != "" ==> !IsSpace(Trim(s)[0]) && !IsSpace(Trim(s)[|Trim(s)| - 1])
    decreases |s|
  {
    if s == "" || (!IsSpace(s[0]) && !IsSpace(s[|s| - 1])) {
      i, j := 0, |s|;
    } else if IsSpace(s[0]) {
      i, j := TrimExactly(s[1..]);
      BlankInFront(s, Trim(s[1..]), i, j);
      i, j := i + 1, j + 1;
    } else {
      i, j := TrimExactly(s[..|s| - 1]);
      BlankAtEnd(s, Trim(s[..|s| - 1]), i, j);
    }
  }

  lemma BlankInFront(s: string, t: string, i: nat, j: nat)
    requires s != "" && IsSpace(s[0]) && CutOut(s[1..], t, i, j)
    ensures CutOut(s, t, i + 1, j + 1)
  {
    assert s[1..][i..j] == s[i + 1..j + 1];
    forall n | 0 <= n < i + 1 || j + 1 <= n < |s| ensures IsSpace(s[n]) {
      if n > 0 {
        assert s[n] == s[1..][n - 1];
      }
    }
  }

  lemma BlankAtEnd(s: string, t: string, i: nat, j: nat)
    requires s != "" && IsSpace(s[|s| - 1]) && CutOut(s[..|s| - 1], t, i, j)
    ensures CutOut(s, t, i, j)
  {
    assert s[..|s| - 1][i..j] == s[i..j];
    forall n | 0 <= n < i || j <= n < |s| ensures IsSpace(s[n]) {
      if n < |s| - 1 {
        assert s[n] == s[..|s| - 1][n];
      }
    }
  }

  lemma {:induction false} TrimNothing(s: string)
    requires forall c :: c in s ==> !IsSpace(c)
    ensures Trim(s) == s
  {
    if s != "" {
      assert s[0] in s && s[|s| - 1] in s;
    }
  }

  /** Domains separated by single blanks are read as they stand. */
  lemma DomainsRoundTrip(domains: seq<string>)
    requires domains != [] && forall d, c :: d in domains && c in d ==> !IsSpace(c)
    ensures Domains(Join(domains, ' ')) == domains
  {
    forall i | 0 <= i < |domains| ensures ' ' !in domains[i] && Trim(domains[i]) == domains[i] {
      assert domains[i] in domains;
      TrimNothing(domains[i]);
    }
    SplitJoin(domains, ' ');
  }

  // ---------- Environment of the sidecars ----------

  function Digit(n: nat): char
    requires n < 10
  {
    "0123456789"[n]
  }

  function Decimal(n: nat): string {
    if n < 10 then [Digit(n)] else Decimal(n / 10) + [Digit(n % 10)]
  }

  function DigitValue(c: char): nat {
    if '0' <= c <= '9' then (c - '0') as nat else 0
  }

  function DecimalValue(s: string): nat {
    if s == "" then 0 else 10 * DecimalValue(s[..|s| - 1]) + DigitValue(s[|s| - 1])
  }

  lemma {:induction false} DecimalRoundTrip(n: nat)
    ensures DecimalValue(Decimal(n)) == n
  {
    if n >= 10 {
      DecimalRoundTrip(n / 10);
      assert Decimal(n)[..|Decimal(n)| - 1] == Decimal(n / 10);
    } else {
      assert Decimal(n)[..0] == "";
    }
  }

  function Variables(env: Environment, containers: nat, dnsIp: Option<string>, name: string): seq<EnvVar> {
    (if dnsIp.Some? then [EnvVar("K8S_DNS_SERVICE", Literal(dnsIp.value))] else []) +
    [EnvVar("POD_N_CONTAINERS", Literal(Decimal(containers))),
     EnvVar("SERVICE_NAME", Literal(env.serviceName)),
     EnvVar("SERVICE_ID", Literal(env.serviceId))] +
    (if name == SERVICE_CONTAINER then
       [EnvVar("APPGATE_LOGLEVEL", FromConfigMap(env.config, "appgate-loglevel")),
        EnvVar("APPGATE_DEVICE_ID", Literal(env.deviceId)),
        EnvVar("APPGATE_PROFILE_URL", FromSecret(env.secret, env.urlKey)),
        EnvVar("APPGATE_USERNAME", FromSecret(env.secret, env.userKey)),
        EnvVar("APPGATE_PASSWORD", FromSecret(env.secret, env.passwordKey)),
        EnvVar("POD_NODE", FromField("spec.nodeName")),
        EnvVar("POD_NAME", FromField("metadata.name")),
        EnvVar("POD_NAMESPACE", FromField("metadata.namespace")),
        EnvVar("POD_SERVICE_ACCOUNT", FromField("spec.serviceAccountName"))]
     else [])
  }

  function DnsVariables(ip: string, dns: DnsConfig): seq<EnvVar> {
    [EnvVar("K8S_DNS_SERVICE", Literal(ip)), EnvVar("K8S_DNS_SEARCHES", Literal(Join(dns.searches, ' ')))]
  }

  // ---------- Which pods are patched ----------

  function ContainerNames(cs: seq<Container>): set<string> {
    set c | c in cs :: c.name
  }

  function VolumeNames(vs: seq<Volume>): set<string> {
    set v | v in vs :: v.name
  }

  predicate HasAnySidecar(inj: Injector, pod: Pod) {
    pod.spec.Some? && exists c :: c in pod.spec.value.containers && c.name in ContainerNames(inj.sidecars.containers)
  }

  predicate NeedsPatching(inj: Injector, pod: Pod) {
    pod.spec.Some? && pod.spec.value.containers != [] && !HasAnySidecar(inj, pod)
  }

  /** A pod is patched if it has a container and none is named like a sidecar. */
  lemma NeedsPatchingExactly(inj: Injector, pod: Pod)
    ensures NeedsPatching(inj, pod) <==>
            && pod.spec.Some? && |pod.spec.value.containers| > 0
            && forall c, s :: c in pod.spec.value.containers && s in inj.sidecars.containers ==> c.name != s.name
  {
    if pod.spec.Some? && HasAnySidecar(inj, pod) {
      var c :| c in pod.spec.value.containers && c.name in ContainerNames(inj.sidecars.containers);
      var s :| s in inj.sidecars.containers && s.name == c.name;
    }
    if pod.spec.Some? && !HasAnySidecar(inj, pod) {
      forall c, s | c in pod.spec.value.containers && s in inj.sidecars.containers ensures c.name != s.name {
        assert s.name in ContainerNames(inj.sidecars.containers);
      }
    }
  }

  datatype Verdict = Valid | Missing(containers: set<string>, volumes: set<string>)

  /** Compares names: required sidecars among the containers, required volumes among the
      volumes. */
  function Validate(inj: Injector, pod: Pod): Verdict {
    var required := ContainerNames(inj.sidecars.containers);
    var present := if pod.spec.None? then {}
                   else set c | c in pod.spec.value.containers && c.name in required :: c.name;
    var volumes := if pod.spec.Some? && pod.spec.value.volumes.Some? then VolumeNames(pod.spec.value.volumes.value) else {};
    var requiredVolumes := VolumeNames(inj.sidecars.volumes);
    if required <= present && requiredVolumes <= volumes then Valid
    else Missing(if required <= present then {} else required - (present * required),
                 if requiredVolumes <= volumes then {} else requiredVolumes - (volumes * requiredVolumes))
  }

  // ---------- What the patch makes of a pod ----------

  /** The six annotations written; strategy and decision spell out what the pod's own
      annotations mean. */
  function Marked(annotations: map<string, string>, env: Environment): map<string, string> {
    var strategy := StrategyOf(annotations);
    var enabled := OrElse(Lookup(annotations, Enabled), BoolText(strategy.EnabledByDefault?));
    Write(Write(Write(Write(Write(Write(annotations,
      Strategy, strategy.Text()), Enabled, enabled), DeviceId, env.deviceId),
      ServiceName, env.serviceName), ServiceId, env.serviceId), PodName, env.podName)
  }

  function Annotated(pod: Pod, annotations: map<string, string>): Pod {
    pod.(meta := pod.meta.(annotations := Some(annotations)))
  }

  function Sidecar(inj: Injector, env: Environment, pod: Pod, c: Container): Container
    requires pod.spec.Some?
  {
    var version := OrElse(Lookup(pod.Annotations(), ClientVersion), inj.defaultVersion);
    c.(image := if c.image.Some? then Some(Retag(c.image.value, version)) else None,
       env := Some(Variables(env, |pod.spec.value.containers|, inj.dnsIp, c.name)))
  }

  function AddedContainers(inj: Injector, env: Environment, pod: Pod): seq<Container>
    requires pod.spec.Some?
  {
    var cs := inj.sidecars.containers;
    seq(|cs|, i requires 0 <= i < |cs| => Sidecar(inj, env, pod, cs[i]))
  }

  function Dns(inj: Injector, pod: Pod, namespace: string): DnsConfig {
    var custom := Lookup(pod.Annotations(), DnsSearches);
    DnsConfig(["127.0.0.1"], Searches(Domains(OrElse(custom, inj.sidecars.searches)), namespace))
  }

  /** Init containers are wrapped, if there are any and the pod does not opt out. */
  predicate WrapsInit(pod: Pod)
    requires pod.spec.Some?
  {
    var disabled := Lookup(pod.Annotations(), DisableInitContainers);
    && pod.spec.value.initContainers.Some? && pod.spec.value.initContainers.value != []
    && !(disabled.Some? && EqualsIgnoreCase(disabled.value, "true"))
  }

  function Wrapped(inj: Injector, ip: string, dns: DnsConfig, cs: seq<Container>): seq<Container> {
    var env := Some(DnsVariables(ip, dns));
    [inj.sidecars.firstInit.(env := env)] + cs + [inj.sidecars.lastInit.(env := env)]
  }

  function Secured(sc: Option<SecurityContext>): SecurityContext {
    var was := OrElse(sc, SecurityContext(None, map[]));
    was.(sysctls := Some([Sysctl("net.ipv4.ip_unprivileged_port_start", "0")] + OrElse(was.sysctls, [])))
  }

  function InjectedSpec(inj: Injector, env: Environment, pod: Pod, namespace: string): PodSpec
    requires pod.spec.Some? && inj.dnsIp.Some?
  {
    var spec, dns := pod.spec.value, Dns(inj, pod, namespace);
    spec.(containers := spec.containers + AddedContainers(inj, env, pod),
          initContainers := if WrapsInit(pod) then Some(Wrapped(inj, inj.dnsIp.value, dns, spec.initContainers.value))
                            else spec.initContainers,
          volumes := Some(OrElse(spec.volumes, []) + inj.sidecars.volumes),
          dnsConfig := Some(dns), dnsPolicy := Some("None"),
          securityContext := if inj.serverVersion >= SAFE_SYSCTL_VERSION then Some(Secured(spec.securityContext))
                             else spec.securityContext)
  }

  function Injected(inj: Injector, env: Environment, pod: Pod, namespace: string): Pod
    requires pod.spec.Some? && inj.dnsIp.Some?
  {
    Annotated(pod, Marked(pod.Annotations(), env)).(spec := Some(InjectedSpec(inj, env, pod, namespace)))
  }

  // ---------- Emitting the operations ----------

  /** One more annotation. */
  method PushAnnotation(ops: seq<Operation>, a: Annotation, value: string, ghost pod: Pod, ghost was: map<string, string>)
    returns (more: seq<Operation>)
    requires ApplyAll(ApplyToPod, pod, ops) == Some(Annotated(pod, was))
    ensures ApplyAll(ApplyToPod, pod, more) == Some(Annotated(pod, Write(was, a, value))) && more != []
  {
    var op := Add(AnnotationPath(["metadata"], a), TextValue(value));
    ApplyOneMore(ApplyToPod, pod, ops, op);
    PlainAnnotation(["metadata"], a);
    AddAnnotation(Annotated(pod, was), op.path, a, value);
    more := ops + [op];
  }

  method CreateAnnotations(ghost pod: Pod) returns (ops: seq<Operation>)
    ensures ApplyAll(ApplyToPod, pod, ops) == Some(Annotated(pod, map[]))
  {
    var op := Add(AnnotationsPath(["metadata"]), AnnotationsValue(map[]));
    PlainAnnotations(["metadata"]);
    AddAnnotations(pod, op.path, map[]);
    ApplyOneMore(ApplyToPod, pod, [], op);
    ops := [] + [op];
  }

  method PatchAnnotations(pod: Pod, env: Environment) returns (ops: seq<Operation>)
    ensures ApplyAll(ApplyToPod, pod, ops) == Some(Annotated(pod, Marked(pod.Annotations(), env))) && ops != []
  {
    ops := [];
    if pod.Annotations() == map[] {
      ops := CreateAnnotations(pod);
    }
    assert ApplyAll(ApplyToPod, pod, ops) == Some(Annotated(pod, pod.Annotations()));
    var strategy := StrategyOf(pod.Annotations());
    var given := Lookup(pod.Annotations(), Enabled);
    var enabled := BoolText(if given.Some? then given.value == "true" else strategy == EnabledByDefault);
    ghost var was := pod.Annotations();
    ops := PushAnnotation(ops, Strategy, strategy.Text(), pod, was);
    was := Write(was, Strategy, strategy.Text());
    ops := PushAnnotation(ops, Enabled, OrElse(given, enabled), pod, was);
    was := Write(was, Enabled, OrElse(given, enabled));
    ops := PushAnnotation(ops, DeviceId, env.deviceId, pod, was);
    was := Write(was, DeviceId, env.deviceId);
    ops := PushAnnotation(ops, ServiceName, env.serviceName, pod, was);
    was := Write(was, ServiceName, env.serviceName);
    ops := PushAnnotation(ops, ServiceId, env.serviceId, pod, was);
    was := Write(was, ServiceId, env.serviceId);
    ops := PushAnnotation(ops, PodName, env.podName, pod, was);
  }

  function WithSpec(pod: Pod, spec: PodSpec): Pod { pod.(spec := Some(spec)) }

  /** Sets a field of the spec, or appends to an array there. */
  method PushField(ops: seq<Operation>, field: seq<string>, v: Value, ghost pod: Pod, ghost now: Pod, ghost spec: PodSpec)
    returns (more: seq<Operation>)
    requires ApplyAll(ApplyToPod, pod, ops) == Some(now) && now.spec.Some?
    requires Plain(field) && AddToSpec(now.spec.value, field, v) == Some(spec)
    ensures ApplyAll(ApplyToPod, pod, more) == Some(WithSpec(now, spec))
  {
    var op := Add(Pointer(["spec"] + field), v);
    ApplyOneMore(ApplyToPod, pod, ops, op);
    ReadBack(["spec"] + field);
    AddUnderSpec(now, op.path, field, v);
    more := ops + [op];
  }

  /** Image and environment of one sidecar. */
  method PrepareSidecar(inj: Injector, env: Environment, pod: Pod, sidecar: Container) returns (c: Container)
    requires pod.spec.Some?
    ensures c == Sidecar(inj, env, pod, sidecar)
  {
    c := sidecar;
    var version := OrElse(Lookup(pod.Annotations(), ClientVersion), inj.defaultVersion);
    if c.image.Some? {
      c := c.(image := Some(Retag(c.image.value, version)));
    }
    c := c.(env := Some(Variables(env, |pod.spec.value.containers|, inj.dnsIp, c.name)));
  }

  method PatchContainers(inj: Injector, env: Environment, pod: Pod, ghost at: Pod) returns (ops: seq<Operation>)
    requires pod.spec.Some? && at.spec.Some?
    ensures ApplyAll(ApplyToPod, at, ops)
            == Some(WithSpec(at, at.spec.value.(containers := at.spec.value.containers + AddedContainers(inj, env, pod))))
  {
    ops := [];
    var cs := inj.sidecars.containers;
    ghost var added, spec := AddedContainers(inj, env, pod), at.spec.value;
    assert spec.containers + added[..0] == spec.containers;
    for n := 0 to |cs|
      invariant ApplyAll(ApplyToPod, at, ops) == Some(WithSpec(at, spec.(containers := spec.containers + added[..n])))
    {
      var c := PrepareSidecar(inj, env, pod, cs[n]);
      assert c == added[n] && spec.containers + added[..n] + [c] == spec.containers + added[..n + 1];
      ops := PushField(ops, ["containers", "-"], ContainerValue(c), at,
                      WithSpec(at, spec.(containers := spec.containers + added[..n])),
                      spec.(containers := spec.containers + added[..n + 1]));
    }
    assert added[..|cs|] == added;
  }

  method PatchVolumes(inj: Injector, pod: Pod, ghost at: Pod) returns (ops: seq<Operation>)
    requires pod.spec.Some? && at.spec.Some? && at.spec.value.volumes == pod.spec.value.volumes
    ensures ApplyAll(ApplyToPod, at, ops)
            == Some(WithSpec(at, at.spec.value.(volumes := Some(OrElse(pod.spec.value.volumes, []) + inj.sidecars.volumes))))
  {
    var vs := inj.sidecars.volumes;
    ghost var spec := at.spec.value;
    ops := [];
    if pod.spec.value.volumes.Some? {
      ghost var was := pod.spec.value.volumes.value;
      assert was + vs[..0] == was;
      for n := 0 to |vs|
        invariant ApplyAll(ApplyToPod, at, ops) == Some(WithSpec(at, spec.(volumes := Some(was + vs[..n]))))
      {
        assert was + vs[..n] + [vs[n]] == was + vs[..n + 1];
        ops := PushField(ops, ["volumes", "-"], VolumeValue(vs[n]), at, WithSpec(at, spec.(volumes := Some(was + vs[..n]))),
                        spec.(volumes := Some(was + vs[..n + 1])));
      }
      assert vs[..|vs|] == vs;
    } else {
      assert [] + vs == vs;
      ops := PushField(ops, ["volumes"], VolumesValue(vs), at, at, spec.(volumes := Some(vs)));
    }
  }

  method PatchInit(inj: Injector, pod: Pod, ip: string, dns: DnsConfig, ghost at: Pod) returns (ops: seq<Operation>)
    requires pod.spec.Some? && at.spec.Some? && at.spec.value.initContainers == pod.spec.value.initContainers
    ensures ApplyAll(ApplyToPod, at, ops) ==
            Some(if WrapsInit(pod) then
                   WithSpec(at, at.spec.value.(initContainers := Some(Wrapped(inj, ip, dns, pod.spec.value.initContainers.value))))
                 else at)
  {
    ops := [];
    if WrapsInit(pod) {
      var env := Some(DnsVariables(ip, dns));
      var cs := [inj.sidecars.firstInit.(env := env)] + pod.spec.value.initContainers.value;
      cs := cs + [inj.sidecars.lastInit.(env := env)];
      ops := PushField(ops, ["initContainers"], ContainersValue(cs), at, at, at.spec.value.(initContainers := Some(cs)));
    }
  }

  method PatchNetwork(inj: Injector, pod: Pod, dns: DnsConfig, ghost at: Pod) returns (ops: seq<Operation>)
    requires pod.spec.Some? && at.spec.Some? && at.spec.value.securityContext == pod.spec.value.securityContext
    ensures ApplyAll(ApplyToPod, at, ops) ==
            Some(WithSpec(at, at.spec.value.(
              dnsConfig := Some(dns), dnsPolicy := Some("None"),
              securityContext := if inj.serverVersion >= SAFE_SYSCTL_VERSION then Some(Secured(pod.spec.value.securityContext))
                                 else pod.spec.value.securityContext)))
  {
    ghost var spec := at.spec.value;
    ops := PushField([], ["dnsConfig"], DnsValue(dns), at, at, spec.(dnsConfig := Some(dns)));
    ghost var now := WithSpec(at, spec.(dnsConfig := Some(dns)));
    spec := now.spec.value;
    ops := PushField(ops, ["dnsPolicy"], TextValue("None"), at, now, spec.(dnsPolicy := Some("None")));
    now := WithSpec(now, spec.(dnsPolicy := Some("None")));
    spec := now.spec.value;
    if inj.serverVersion >= SAFE_SYSCTL_VERSION {
      var sc := OrElse(pod.spec.value.securityContext, SecurityContext(None, map[]));
      var sysctls := [Sysctl("net.ipv4.ip_unprivileged_port_start", "0")];
      if sc.sysctls.Some? {
        sysctls := sysctls + sc.sysctls.value;
      }
      assert [sysctls[0]] + [] == [sysctls[0]];
      sc := sc.(sysctls := Some(sysctls));
      assert sc == Secured(pod.spec.value.securityContext);
      ops := PushField(ops, ["securityContext"], SecurityValue(sc), at, now, spec.(securityContext := Some(sc)));
    }
  }

  /** All operations for a pod that needs them. */
  method PatchPod(inj: Injector, env: Environment, pod: Pod, namespace: string, ip: string) returns (ops: seq<Operation>)
    requires NeedsPatching(inj, pod) && inj.dnsIp == Some(ip)
    ensures ApplyAll(ApplyToPod, pod, ops) == Some(Injected(inj, env, pod, namespace)) && ops != []
  {
    var dns := Dns(inj, pod, namespace);
    ops := PatchAnnotations(pod, env);
    ghost var at := ApplyAll(ApplyToPod, pod, ops).value;
    var more := PatchContainers(inj, env, pod, at);
    ApplyInTwo(ApplyToPod, pod, ops, more);
    ops, at := ops + more, ApplyAll(ApplyToPod, at, more).value;
    more := PatchInit(inj, pod, ip, dns, at);
    ApplyInTwo(ApplyToPod, pod, ops, more);
    ops, at := ops + more, ApplyAll(ApplyToPod, at, more).value;
    more := PatchVolumes(inj, pod, at);
    ApplyInTwo(ApplyToPod, pod, ops, more);
    ops, at := ops + more, ApplyAll(ApplyToPod, at, more).value;
    more := PatchNetwork(inj, pod, dns, at);
    ApplyInTwo(ApplyToPod, pod, ops, more);
    ops := ops + more;
  }

  /** Every operation emitted applies, and together they make the injected pod. Operations are
      emitted exactly for pods with a container and without any named like a sidecar; one that
      cannot be served is refused. */
  method Patch(inj: Injector, env: Environment, request: Request) returns (r: PatchResult)
    ensures request.pod.None? ==> r == Refused(NoPod)
    ensures request.pod.Some? && request.namespace.None? ==> r == Refused(NoNamespace)
    ensures request.pod.Some? && request.namespace.Some? ==>
              var pod := request.pod.value;
              if !NeedsPatching(inj, pod) then r == Patched([])
              else if inj.dnsIp.None? then r == Refused(NoDnsAddress)
              else r.Patched? && ApplyAll(ApplyToPod, pod, r.ops) == Some(Injected(inj, env, pod, request.namespace.value))
    ensures request.pod.Some? && request.namespace.Some? && inj.dnsIp.Some? ==>
              var pod := request.pod.value;
              && r.Patched?
              && (r.ops != [] <==>
                    && pod.spec.Some? && |pod.spec.value.containers| > 0
                    && forall c, s :: c in pod.spec.value.containers && s in inj.sidecars.containers ==> c.name != s.name)
  {
    if request.pod.None? {
      return Refused(NoPod);
    }
    if request.namespace.None? {
      return Refused(NoNamespace);
    }
    var pod := request.pod.value;
    NeedsPatchingExactly(inj, pod);
    if !NeedsPatching(inj, pod) {
      return Patched([]);
    }
    if inj.dnsIp.None? {
      return Refused(NoDnsAddress);
    }
    var ops := PatchPod(inj, env, pod, request.namespace.value, inj.dnsIp.value);
    r := Patched(ops);
  }
}
