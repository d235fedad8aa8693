/** Kubernetes objects as far as the injector reads or writes them, and the decision whether
    an object is injected. `other` holds the remaining fields, by name, as JSON text. */
module Kube {
  import opened Collections
  import opened Strings
  import Naming

  datatype Meta = Meta(
    name: Option<string>,
    generateName: Option<string>,
    namespace: Option<string>,
    annotations: Option<map<string, string>>,
    other: map<string, string>)
  {
    /** Absent and empty annotations read the same. */
    function Annotations(): map<string, string> {
      if annotations.Some? then annotations.value else map[]
    }
  }

  datatype EnvSource =
    | Literal(value: string)
    | FromConfigMap(configMap: string, key: string)
    | FromSecret(secret: string, key: string)
    | FromField(path: string)
    | OtherSource(json: string)

  datatype EnvVar = EnvVar(name: string, source: EnvSource)

  datatype Container = Container(
    name: string, image: Option<string>, env: Option<seq<EnvVar>>, other: map<string, string>)

  datatype Volume = Volume(name: string, other: map<string, string>)

  datatype DnsConfig = DnsConfig(nameservers: seq<string>, searches: seq<string>)

  datatype Sysctl = Sysctl(name: string, value: string)

  datatype SecurityContext = SecurityContext(sysctls: Option<seq<Sysctl>>, other: map<string, string>)

  datatype PodSpec = PodSpec(
    containers: seq<Container>,
    initContainers: Option<seq<Container>>,
    volumes: Option<seq<Volume>>,
    dnsConfig: Option<DnsConfig>,
    dnsPolicy: Option<string>,
    securityContext: Option<SecurityContext>,
    other: map<string, string>)

  datatype Pod = Pod(meta: Meta, spec: Option<PodSpec>, reason: Option<string>)
  {
    function Annotations(): map<string, string> { meta.Annotations() }

    function Names(): Naming.PodNames {
      Naming.PodNames(Lookup(Annotations(), PodName), meta.generateName, meta.name)
    }
  }

  /** A deployment with the metadata of its pod template. */
  datatype DeploymentSpec = DeploymentSpec(template: Option<Meta>, other: map<string, string>)

  datatype Deployment = Deployment(meta: Meta, spec: Option<DeploymentSpec>)
  {
    predicate HasTemplateMeta() { spec.Some? && spec.value.template.Some? }

    function TemplateMeta(): Meta
      requires HasTemplateMeta()
    {
      spec.value.template.value
    }

    function WithTemplate(m: Meta): Deployment
      requires spec.Some?
    {
      this.(spec := Some(spec.value.(template := Some(m))))
    }
  }

  // ---------- Annotations ----------

  datatype Annotation =
    | ServiceId | ServiceName | PodName | Strategy | Enabled | ClientVersion
    | DisableInitContainers | ClientConfig | ClientSecrets | DeviceId | DnsSearches
  {
    function Label(): string {
      match this
      case ServiceId => "service-id"
      case ServiceName => "service-name"
      case PodName => "pod-name"
      case Strategy => "strategy"
      case Enabled => "enabled"
      case ClientVersion => "client-version"
      case DisableInitContainers => "disable-init-containers"
      case ClientConfig => "client-config"
      case ClientSecrets => "client-secrets"
      case DeviceId => "device-id"
      case DnsSearches => "dns-searches"
    }

    function Key(): string { "k8s.appgate.com/sdp-injector." + Label() }
  }

  lemma KeysDiffer(a: Annotation, b: Annotation)
    requires a != b
    ensures a.Key() != b.Key()
  {
    assert a.Key()[|"k8s.appgate.com/sdp-injector."|..] == a.Label();
    assert b.Key()[|"k8s.appgate.com/sdp-injector."|..] == b.Label();
    assert "pod-name"[0] != "strategy"[0];
    assert "service-name"[0] != "dns-searches"[0];
    assert "client-version"[7] != "client-secrets"[7];
    assert a.Label() != b.Label();
  }

  /** The keys: the domain, the component and a name of their own. */
  lemma AnnotationKeys()
    ensures Strategy.Key() == "k8s.appgate.com/sdp-injector." + "strategy"
    ensures Enabled.Key() == "k8s.appgate.com/sdp-injector." + "enabled"
    ensures DeviceId.Key() == "k8s.appgate.com/sdp-injector." + "device-id"
    ensures ServiceId.Key() == "k8s.appgate.com/sdp-injector." + "service-id"
    ensures ServiceName.Key() == "k8s.appgate.com/sdp-injector." + "service-name"
    ensures PodName.Key() == "k8s.appgate.com/sdp-injector." + "pod-name"
    ensures ClientVersion.Key() == "k8s.appgate.com/sdp-injector." + "client-version"
    ensures DisableInitContainers.Key() == "k8s.appgate.com/sdp-injector." + "disable-init-containers"
    ensures ClientConfig.Key() == "k8s.appgate.com/sdp-injector." + "client-config"
    ensures ClientSecrets.Key() == "k8s.appgate.com/sdp-injector." + "client-secrets"
    ensures DnsSearches.Key() == "k8s.appgate.com/sdp-injector." + "dns-searches"
  {
  }

  lemma KeyHasNoTilde(a: Annotation)
    ensures '~' !in a.Key()
  {
    assert '~' !in "k8s.appgate.com/sdp-injector." && '~' !in a.Label();
  }

  function Lookup(annotations: map<string, string>, a: Annotation): Option<string> {
    if a.Key() in annotations then Some(annotations[a.Key()]) else None
  }

  function Write(annotations: map<string, string>, a: Annotation, value: string): map<string, string> {
    annotations[a.Key() := value]
  }

  lemma LookupWrite(annotations: map<string, string>, a: Annotation, value: string, b: Annotation)
    ensures Lookup(Write(annotations, a, value), b) == if a == b then Some(value) else Lookup(annotations, b)
  {
    if a != b {
      KeysDiffer(a, b);
    }
  }

  // ---------- The decision ----------

  datatype InjectionStrategy = EnabledByDefault | DisabledByDefault
  {
    function Text(): string {
      if EnabledByDefault? then "enabledByDefault" else "disabledByDefault"
    }
  }

  function BoolText(b: bool): string {
    if b then "true" else "false"
  }

  /** The strategy named by the annotation in any case; without a legible one the strategy is
      enabled by default, unless the other annotation says `disabled`. */
  function StrategyOf(annotations: map<string, string>): InjectionStrategy {
    var named := Lookup(annotations, Strategy);
    if named.Some? && ToLower(named.value) == "enabledbydefault" then EnabledByDefault
    else if named.Some? && ToLower(named.value) == "disabledbydefault" then DisabledByDefault
    else
      var enabled := Lookup(annotations, Enabled);
      if enabled.Some? && ToLower(enabled.value) == "disabled" then DisabledByDefault else EnabledByDefault
  }

  predicate InjectionDisabled(annotations: map<string, string>) {
    var v := Lookup(annotations, Enabled);
    v.Some? && (ToLower(v.value) == "false" || v.value == "0")
  }

  predicate InjectionEnabled(annotations: map<string, string>) {
    var v := Lookup(annotations, Enabled);
    v.Some? && (ToLower(v.value) == "true" || v.value == "1")
  }

  predicate NeedsInjection(annotations: map<string, string>) {
    if StrategyOf(annotations).EnabledByDefault? then !InjectionDisabled(annotations) else InjectionEnabled(annotations)
  }

  /** Annotations that spell out a strategy are read back as that strategy. */
  lemma WrittenStrategy(annotations: map<string, string>, s: InjectionStrategy)
    requires Lookup(annotations, Strategy) == Some(s.Text())
    ensures StrategyOf(annotations) == s
  {
  }

  /** With strategy and decision both written, the decision is what counts. */
  lemma WrittenDecision(annotations: map<string, string>, s: InjectionStrategy, enabled: bool)
    requires Lookup(annotations, Strategy) == Some(s.Text()) && Lookup(annotations, Enabled) == Some(BoolText(enabled))
    ensures NeedsInjection(annotations) == enabled
  {
  }

  /** The decision over the annotations as they stand: the strategy is the one named, in any
      case; otherwise injection is the default unless the other annotation says `disabled`. By
      default only a plain no stops injection; otherwise only a plain yes allows it. */
  lemma DecisionTable(annotations: map<string, string>)
    ensures var s, e := Strategy.Key(), Enabled.Key();
            var named := s in annotations && ToLower(annotations[s]) in {"enabledbydefault", "disabledbydefault"};
            var byDefault := if named then ToLower(annotations[s]) == "enabledbydefault"
                             else e in annotations ==> ToLower(annotations[e]) != "disabled";
            && (StrategyOf(annotations) == if byDefault then EnabledByDefault else DisabledByDefault)
            && (NeedsInjection(annotations) <==>
                  if byDefault then e in annotations ==> ToLower(annotations[e]) != "false" && annotations[e] != "0"
                  else e in annotations && (ToLower(annotations[e]) == "true" || annotations[e] == "1"))
  {
    assert |"enabledbydefault"| != |"disabledbydefault"|;
  }

  /** An object that says nothing is injected. */
  lemma SilenceMeansInjection(annotations: map<string, string>)
    requires Strategy.Key() !in annotations && Enabled.Key() !in annotations
    ensures NeedsInjection(annotations)
  {
    DecisionTable(annotations);
  }
}
