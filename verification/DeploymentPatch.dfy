/** Injection of a deployment: the decision is taken once, from the namespace and the
    deployment, and written to the deployment and to its pod template. */
module DeploymentPatch {
  import opened Collections
  import opened Strings
  import opened Kube
  import opened JsonPatch

  /** The annotations of the namespace, if there is such an object. */
  type NamespaceAnnotations = Option<map<string, string>>

  function NamespaceStrategy(ns: NamespaceAnnotations): InjectionStrategy {
    if ns.Some? then StrategyOf(ns.value) else EnabledByDefault
  }

  /** The deployment's own annotation, or else that of the namespace. */
  function Inherited(d: Deployment, ns: NamespaceAnnotations, a: Annotation): Option<string> {
    if Lookup(d.meta.Annotations(), a).Some? then Lookup(d.meta.Annotations(), a)
    else if ns.Some? then Lookup(ns.value, a)
    else None
  }

  /** Only the very text `true` enables; without any annotation the strategy decides. */
  predicate Decision(d: Deployment, ns: NamespaceAnnotations) {
    var enabled := Inherited(d, ns, Enabled);
    if enabled.Some? then enabled.value == "true" else NamespaceStrategy(ns).EnabledByDefault?
  }

  predicate InitContainersDisabled(d: Deployment, ns: NamespaceAnnotations) {
    var disabled := Inherited(d, ns, DisableInitContainers);
    disabled.Some? && EqualsIgnoreCase(disabled.value, "true")
  }

  function Decided(annotations: map<string, string>, d: Deployment, ns: NamespaceAnnotations): map<string, string> {
    Write(Write(annotations, Strategy, NamespaceStrategy(ns).Text()), Enabled, BoolText(Decision(d, ns)))
  }

  function TemplateDecided(annotations: map<string, string>, d: Deployment, ns: NamespaceAnnotations): map<string, string> {
    var decided := Write(Decided(annotations, d, ns), DisableInitContainers, BoolText(InitContainersDisabled(d, ns)));
    var version := Inherited(d, ns, ClientVersion);
    if version.Some? then Write(decided, ClientVersion, version.value) else decided
  }

  function Marked(d: Deployment, annotations: map<string, string>): Deployment {
    d.(meta := d.meta.(annotations := Some(annotations)))
  }

  function TemplateMarked(d: Deployment, annotations: map<string, string>): Deployment
    requires d.HasTemplateMeta()
  {
    d.WithTemplate(d.TemplateMeta().(annotations := Some(annotations)))
  }

  function Injected(d: Deployment, ns: NamespaceAnnotations): Deployment
    requires d.HasTemplateMeta()
  {
    TemplateMarked(Marked(d, Decided(d.meta.Annotations(), d, ns)), TemplateDecided(d.TemplateMeta().Annotations(), d, ns))
  }

  // ---------- Emitting the operations ----------

  method PushOwn(ops: seq<Operation>, a: Annotation, value: string, ghost d: Deployment, ghost was: map<string, string>)
    returns (more: seq<Operation>)
    requires ApplyAll(ApplyToDeployment, d, ops) == Some(Marked(d, was))
    ensures ApplyAll(ApplyToDeployment, d, more) == Some(Marked(d, Write(was, a, value)))
  {
    var op := Add(AnnotationPath(["metadata"], a), TextValue(value));
    ApplyOneMore(ApplyToDeployment, d, ops, op);
    PlainAnnotation(["metadata"], a);
    AddDeploymentAnnotation(Marked(d, was), op.path, a, value);
    more := ops + [op];
  }

  method CreateOwn(ghost d: Deployment) returns (ops: seq<Operation>)
    ensures ApplyAll(ApplyToDeployment, d, ops) == Some(Marked(d, map[]))
  {
    var op := Add(AnnotationsPath(["metadata"]), AnnotationsValue(map[]));
    PlainAnnotations(["metadata"]);
    AddDeploymentAnnotations(d, op.path, map[]);
    ApplyOneMore(ApplyToDeployment, d, [], op);
    ops := [] + [op];
  }

  method PatchOwn(d: Deployment, ns: NamespaceAnnotations) returns (ops: seq<Operation>)
    ensures ApplyAll(ApplyToDeployment, d, ops) == Some(Marked(d, Decided(d.meta.Annotations(), d, ns)))
  {
    ops := [];
    if d.meta.Annotations() == map[] {
      ops := CreateOwn(d);
    }
    var strategy := if ns.Some? then StrategyOf(ns.value) else EnabledByDefault;
    ghost var was := d.meta.Annotations();
    ops := PushOwn(ops, Strategy, strategy.Text(), d, was);
    ops := PushOwn(ops, Enabled, BoolText(Decision(d, ns)), d, Write(was, Strategy, strategy.Text()));
  }

  /** What the operations make of the template of `at`, the deployment after the preceding
      operations: nothing applies to a template without metadata. */
  ghost predicate ReachesTemplate(at: Deployment, ops: seq<Operation>, annotations: map<string, string>) {
    ApplyAll(ApplyToDeployment, at, ops) == if at.HasTemplateMeta() then Some(TemplateMarked(at, annotations)) else None
  }

  method PushTemplate(ops: seq<Operation>, a: Annotation, value: string, ghost at: Deployment, ghost was: map<string, string>)
    returns (more: seq<Operation>)
    requires at.HasTemplateMeta() ==> ReachesTemplate(at, ops, was)
    requires !at.HasTemplateMeta() ==> ApplyAll(ApplyToDeployment, at, ops) in {None, Some(at)}
    ensures ReachesTemplate(at, more, Write(was, a, value))
  {
    var op := Add(AnnotationPath(["spec", "template", "metadata"], a), TextValue(value));
    ApplyOneMore(ApplyToDeployment, at, ops, op);
    PlainAnnotation(["spec", "template", "metadata"], a);
    AddTemplateAnnotation(if at.HasTemplateMeta() then TemplateMarked(at, was) else at, op.path, a, value);
    more := ops + [op];
  }

  method CreateAnnotations(d: Deployment, ghost at: Deployment) returns (ops: seq<Operation>)
    requires at.spec == d.spec
    ensures at.HasTemplateMeta() ==> ReachesTemplate(at, ops, at.TemplateMeta().Annotations())
    ensures !at.HasTemplateMeta() ==> ApplyAll(ApplyToDeployment, at, ops) in {None, Some(at)}
  {
    ops := [];
    if !(d.HasTemplateMeta() && d.TemplateMeta().annotations.Some?) {
      var op := Add(AnnotationsPath(["spec", "template", "metadata"]), AnnotationsValue(map[]));
      PlainAnnotations(["spec", "template", "metadata"]);
      AddTemplateAnnotations(at, op.path, map[]);
      ApplyOneMore(ApplyToDeployment, at, [], op);
      ops := [op];
      assert [] + [op] == ops;
    }
  }

  method PatchTemplate(d: Deployment, ns: NamespaceAnnotations, ghost at: Deployment) returns (ops: seq<Operation>)
    requires at.spec == d.spec
    ensures ReachesTemplate(at, ops, if at.HasTemplateMeta() then TemplateDecided(at.TemplateMeta().Annotations(), d, ns) else map[])
  {
    ops := CreateAnnotations(d, at);
    ghost var was := if at.HasTemplateMeta() then at.TemplateMeta().Annotations() else map[];
    var strategy, enabled := NamespaceStrategy(ns).Text(), BoolText(Decision(d, ns));
    ops := PushTemplate(ops, Strategy, strategy, at, was);
    was := Write(was, Strategy, strategy);
    ops := PushTemplate(ops, Enabled, enabled, at, was);
    was := Write(was, Enabled, enabled);
    var disabled := BoolText(InitContainersDisabled(d, ns));
    ops := PushTemplate(ops, DisableInitContainers, disabled, at, was);
    was := Write(was, DisableInitContainers, disabled);
    var version := Inherited(d, ns, ClientVersion);
    if version.Some? {
      ops := PushTemplate(ops, ClientVersion, version.value, at, was);
    }
  }

  /** The patch of a deployment applies exactly when its pod template has metadata. */
  method PatchDeployment(d: Deployment, ns: NamespaceAnnotations) returns (ops: seq<Operation>)
    ensures ApplyAll(ApplyToDeployment, d, ops) == if d.HasTemplateMeta() then Some(Injected(d, ns)) else None
  {
    ops := PatchOwn(d, ns);
    ghost var at := Marked(d, Decided(d.meta.Annotations(), d, ns));
    var more := PatchTemplate(d, ns, at);
    ApplyInTwo(ApplyToDeployment, d, ops, more);
    ops := ops + more;
  }

  // ---------- Agreement ----------

  lemma DecidedLookup(annotations: map<string, string>, d: Deployment, ns: NamespaceAnnotations)
    ensures Lookup(Decided(annotations, d, ns), Strategy) == Some(NamespaceStrategy(ns).Text())
    ensures Lookup(Decided(annotations, d, ns), Enabled) == Some(BoolText(Decision(d, ns)))
  {
  }

  lemma TemplateDecidedLookup(annotations: map<string, string>, d: Deployment, ns: NamespaceAnnotations, a: Annotation)
    requires a.Strategy? || a.Enabled?
    ensures Lookup(TemplateDecided(annotations, d, ns), a) == Lookup(Decided(annotations, d, ns), a)
  {
  }

  /** Whatever the annotations of the namespace, the deployment and the template were, the
      patched deployment and every pod made from its template are decided upon as computed,
      and a further patch of the deployment would decide the same again. */
  lemma DecisionsAgree(d: Deployment, ns: NamespaceAnnotations)
    requires d.HasTemplateMeta()
    ensures NeedsInjection(Injected(d, ns).meta.Annotations()) == Decision(d, ns)
    ensures NeedsInjection(Injected(d, ns).TemplateMeta().Annotations()) == Decision(d, ns)
    ensures Decision(Injected(d, ns), ns) == Decision(d, ns)
  {
    var own, template := d.meta.Annotations(), d.TemplateMeta().Annotations();
    DecidedLookup(own, d, ns);
    WrittenDecision(Decided(own, d, ns), NamespaceStrategy(ns), Decision(d, ns));
    DecidedLookup(template, d, ns);
    TemplateDecidedLookup(template, d, ns, Strategy);
    TemplateDecidedLookup(template, d, ns, Enabled);
    WrittenDecision(TemplateDecided(template, d, ns), NamespaceStrategy(ns), Decision(d, ns));
    assert |"true"| != |"false"|;
  }

  /** The decision of the webhook is stricter than the predicate for pods: an `enabled`
      annotation, the deployment's or else the namespace's, lets its pods be injected exactly
      when it is the text `true`. */
  lemma OnlyTrueEnables(d: Deployment, ns: NamespaceAnnotations)
    requires Inherited(d, ns, Enabled).Some? && d.HasTemplateMeta()
    ensures NeedsInjection(Injected(d, ns).TemplateMeta().Annotations()) <==> Inherited(d, ns, Enabled).value == "true"
  {
    DecisionsAgree(d, ns);
  }

  // ---------- Whose annotation counts ----------

  /** What an annotation says: the deployment's own value alone, if it has one; otherwise the
      namespace's. */
  lemma OwnAnnotationCounts(d: Deployment, ns: NamespaceAnnotations, a: Annotation)
    ensures var own := d.meta.Annotations();
            && (a.Key() in own ==> Inherited(d, ns, a) == Some(own[a.Key()]))
            && (a.Key() !in own && ns.Some? && a.Key() in ns.value ==> Inherited(d, ns, a) == Some(ns.value[a.Key()]))
            && (a.Key() !in own && (ns.None? || a.Key() !in ns.value) ==> Inherited(d, ns, a) == None)
  {
  }

  /** The annotations of the pod template after the patch, over the annotations of deployment and
      namespace: the deployment's own `enabled` decides alone, then the namespace's, then the
      namespace's strategy; likewise for the init containers and the client version. */
  lemma TemplateSays(d: Deployment, ns: NamespaceAnnotations)
    requires d.HasTemplateMeta()
    ensures var own, t := d.meta.Annotations(), Injected(d, ns).TemplateMeta().Annotations();
            var enabled, init, version := Enabled.Key(), DisableInitContainers.Key(), ClientVersion.Key();
            && Lookup(t, Strategy) == Some(if ns.None? || StrategyOf(ns.value).EnabledByDefault? then "enabledByDefault" else "disabledByDefault")
            && Lookup(t, Enabled) == Some(BoolText(
                 if enabled in own then own[enabled] == "true"
                 else if ns.Some? && enabled in ns.value then ns.value[enabled] == "true"
                 else ns.None? || StrategyOf(ns.value).EnabledByDefault?))
            && Lookup(t, DisableInitContainers) == Some(BoolText(
                 if init in own then EqualsIgnoreCase(own[init], "true")
                 else ns.Some? && init in ns.value && EqualsIgnoreCase(ns.value[init], "true")))
            && Lookup(t, ClientVersion) ==
                 (if version in own then Some(own[version])
                  else if ns.Some? && version in ns.value then Some(ns.value[version])
                  else Lookup(d.TemplateMeta().Annotations(), ClientVersion))
  {
    OwnAnnotationCounts(d, ns, Enabled);
    OwnAnnotationCounts(d, ns, DisableInitContainers);
    OwnAnnotationCounts(d, ns, ClientVersion);
    var was := d.TemplateMeta().Annotations();
    DecidedLookup(was, d, ns);
    TemplateDecidedLookup(was, d, ns, Strategy);
    TemplateDecidedLookup(was, d, ns, Enabled);
    TemplateSettings(was, d, ns);
  }

  lemma TemplateSettings(annotations: map<string, string>, d: Deployment, ns: NamespaceAnnotations)
    ensures var t, version := TemplateDecided(annotations, d, ns), Inherited(d, ns, ClientVersion);
            && Lookup(t, DisableInitContainers) == Some(BoolText(InitContainersDisabled(d, ns)))
            && Lookup(t, ClientVersion) == (if version.Some? then version else Lookup(annotations, ClientVersion))
  {
    var s, e, i := NamespaceStrategy(ns).Text(), BoolText(Decision(d, ns)), BoolText(InitContainersDisabled(d, ns));
    var m1 := Write(annotations, Strategy, s);
    var m2 := Write(m1, Enabled, e);
    var m3 := Write(m2, DisableInitContainers, i);
    LookupWrite(annotations, Strategy, s, ClientVersion);
    LookupWrite(m1, Enabled, e, ClientVersion);
    LookupWrite(m2, DisableInitContainers, i, ClientVersion);
    LookupWrite(m2, DisableInitContainers, i, DisableInitContainers);
    var version := Inherited(d, ns, ClientVersion);
    if version.Some? {
      LookupWrite(m3, ClientVersion, version.value, ClientVersion);
      LookupWrite(m3, ClientVersion, version.value, DisableInitContainers);
    }
  }

  /** Nothing but annotations is written. */
  lemma OnlyAnnotationsChange(d: Deployment, ns: NamespaceAnnotations)
    requires d.HasTemplateMeta()
    ensures var r := Injected(d, ns);
            && r.HasTemplateMeta() && r.spec.value.other == d.spec.value.other
            && r.meta == d.meta.(annotations := r.meta.annotations)
            && r.TemplateMeta() == d.TemplateMeta().(annotations := r.TemplateMeta().annotations)
  {
  }

  /** The deployment itself is told the same decision, and keeps its other annotations; so does
      the template. */
  lemma OtherAnnotationsStay(d: Deployment, ns: NamespaceAnnotations, key: string)
    requires d.HasTemplateMeta() && key != Strategy.Key() && key != Enabled.Key()
    ensures var own, now := d.meta.Annotations(), Injected(d, ns).meta.Annotations();
            && (key in now <==> key in own) && (key in own ==> now[key] == own[key])
            && Lookup(now, Enabled) == Lookup(Injected(d, ns).TemplateMeta().Annotations(), Enabled)
            && Lookup(now, Strategy) == Lookup(Injected(d, ns).TemplateMeta().Annotations(), Strategy)
    ensures key != DisableInitContainers.Key() && key != ClientVersion.Key() ==>
              var was, t := d.TemplateMeta().Annotations(), Injected(d, ns).TemplateMeta().Annotations();
              (key in t <==> key in was) && (key in was ==> t[key] == was[key])
  {
    DecidedLookup(d.meta.Annotations(), d, ns);
    DecidedLookup(d.TemplateMeta().Annotations(), d, ns);
    TemplateDecidedLookup(d.TemplateMeta().Annotations(), d, ns, Strategy);
    TemplateDecidedLookup(d.TemplateMeta().Annotations(), d, ns, Enabled);
  }
}
