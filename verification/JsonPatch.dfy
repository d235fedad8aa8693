/** Add operations of a JSON patch (section 4.1 of RFC 6902) on pods and
    deployments: the object that
    is to hold the new member has to exist, an existing member is replaced, and `-` appends
    to an array. Paths the injector never emits do not apply. */
module JsonPatch {
  import opened Collections
  import opened Kube
  import opened Pointers

  datatype Value =
    | TextValue(text: string)
    | AnnotationsValue(annotations: map<string, string>)
    | ContainerValue(container: Container)
    | ContainersValue(containers: seq<Container>)
    | VolumeValue(volume: Volume)
    | VolumesValue(volumes: seq<Volume>)
    | DnsValue(dns: DnsConfig)
    | SecurityValue(security: SecurityContext)

  datatype Operation = Add(path: string, value: Value)

  /** Adding to the annotations of a metadata object. */
  function AddToMeta(m: Meta, tokens: seq<string>, v: Value): Option<Meta> {
    match v
    case AnnotationsValue(annotations) =>
      if tokens == ["annotations"] then Some(m.(annotations := Some(annotations))) else None
    case TextValue(text) =>
      if |tokens| == 2 && tokens[0] == "annotations" && m.annotations.Some?
      then Some(m.(annotations := Some(m.annotations.value[tokens[1] := text])))
      else None
    case _ => None
  }

  function AddToSpec(s: PodSpec, tokens: seq<string>, v: Value): Option<PodSpec> {
    match v
    case ContainerValue(c) =>
      if tokens == ["containers", "-"] then Some(s.(containers := s.containers + [c])) else None
    case ContainersValue(cs) =>
      if tokens == ["initContainers"] then Some(s.(initContainers := Some(cs))) else None
    case VolumeValue(volume) =>
      if tokens == ["volumes", "-"] && s.volumes.Some? then Some(s.(volumes := Some(s.volumes.value + [volume]))) else None
    case VolumesValue(volumes) =>
      if tokens == ["volumes"] then Some(s.(volumes := Some(volumes))) else None
    case DnsValue(dns) =>
      if tokens == ["dnsConfig"] then Some(s.(dnsConfig := Some(dns))) else None
    case TextValue(text) =>
      if tokens == ["dnsPolicy"] then Some(s.(dnsPolicy := Some(text))) else None
    case SecurityValue(security) =>
      if tokens == ["securityContext"] then Some(s.(securityContext := Some(security))) else None
    case AnnotationsValue(_) => None
  }

  function ApplyAt(pod: Pod, tokens: seq<string>, v: Value): Option<Pod> {
    if tokens == [] then None
    else if tokens[0] == "metadata" then
      var m := AddToMeta(pod.meta, tokens[1..], v);
      if m.Some? then Some(pod.(meta := m.value)) else None
    else if tokens[0] == "spec" && pod.spec.Some? then
      var s := AddToSpec(pod.spec.value, tokens[1..], v);
      if s.Some? then Some(pod.(spec := s)) else None
    else None
  }

  function ApplyToPod(pod: Pod, op: Operation): Option<Pod> {
    var tokens := Tokens(op.path);
    if tokens.Some? then ApplyAt(pod, tokens.value, op.value) else None
  }

  /** The operations one after the other; one that does not apply fails the patch. */
  function ApplyAll<D>(apply: (D, Operation) -> Option<D>, doc: D, ops: seq<Operation>): Option<D>
    decreases |ops|
  {
    if ops == [] then Some(doc)
    else
      var before := ApplyAll(apply, doc, ops[..|ops| - 1]);
      if before.Some? then apply(before.value, ops[|ops| - 1]) else None
  }

  lemma ApplyOneMore<D>(apply: (D, Operation) -> Option<D>, doc: D, ops: seq<Operation>, op: Operation)
    ensures ApplyAll(apply, doc, ops + [op])
            == if ApplyAll(apply, doc, ops).Some? then apply(ApplyAll(apply, doc, ops).value, op) else None
  {
  }

  lemma {:induction false} ApplyInTwo<D>(
    apply: (D, Operation) -> Option<D>, doc: D, first: seq<Operation>, second: seq<Operation>)
    ensures ApplyAll(apply, doc, first + second)
            == if ApplyAll(apply, doc, first).Some? then ApplyAll(apply, ApplyAll(apply, doc, first).value, second) else None
    decreases |second|
  {
    if second == [] {
      assert first + second == first;
    } else {
      var init, last := second[..|second| - 1], second[|second| - 1];
      assert second == init + [last] && first + second == (first + init) + [last];
      ApplyInTwo(apply, doc, first, init);
      ApplyOneMore(apply, doc, first + init, last);
    }
  }

  /** A deployment is patched in its own metadata and in that of its pod template. */
  function ApplyToDeployment(d: Deployment, op: Operation): Option<Deployment> {
    var tokens := Tokens(op.path);
    if tokens.None? then None
    else if |tokens.value| >= 1 && tokens.value[0] == "metadata" then
      var m := AddToMeta(d.meta, tokens.value[1..], op.value);
      if m.Some? then Some(d.(meta := m.value)) else None
    else if |tokens.value| >= 3 && tokens.value[..3] == ["spec", "template", "metadata"] && d.HasTemplateMeta() then
      var m := AddToMeta(d.spec.value.template.value, tokens.value[3..], op.value);
      if m.Some? then Some(d.WithTemplate(m.value)) else None
    else None
  }

  // ---------- Paths the injector writes ----------

  /** The annotation `a`, or all annotations, of the object at `place`. */
  function AnnotationPath(place: seq<string>, a: Annotation): string {
    Pointer(place + ["annotations", a.Key()])
  }

  function AnnotationsPath(place: seq<string>): string {
    Pointer(place + ["annotations"])
  }

  predicate Plain(tokens: seq<string>) {
    forall i :: 0 <= i < |tokens| ==> '~' !in tokens[i]
  }

  lemma ReadBack(tokens: seq<string>)
    requires Plain(tokens)
    ensures Tokens(Pointer(tokens)) == Some(tokens)
  {
    PointerRoundTrip(tokens);
  }

  lemma PlainAnnotation(place: seq<string>, a: Annotation)
    requires Plain(place)
    ensures Tokens(AnnotationPath(place, a)) == Some(place + ["annotations", a.Key()])
  {
    KeyHasNoTilde(a);
    ReadBack(place + ["annotations", a.Key()]);
  }

  lemma PlainAnnotations(place: seq<string>)
    requires Plain(place)
    ensures Tokens(AnnotationsPath(place)) == Some(place + ["annotations"])
  {
    ReadBack(place + ["annotations"]);
  }

  lemma AddAnnotation(pod: Pod, path: string, a: Annotation, value: string)
    requires pod.meta.annotations.Some? && Tokens(path) == Some(["metadata"] + ["annotations", a.Key()])
    ensures ApplyToPod(pod, Add(path, TextValue(value)))
            == Some(pod.(meta := pod.meta.(annotations := Some(Write(pod.Annotations(), a, value)))))
  {
  }

  lemma AddAnnotations(pod: Pod, path: string, annotations: map<string, string>)
    requires Tokens(path) == Some(["metadata"] + ["annotations"])
    ensures ApplyToPod(pod, Add(path, AnnotationsValue(annotations)))
            == Some(pod.(meta := pod.meta.(annotations := Some(annotations))))
  {
  }

  /** Setting a field of the spec, or appending to an array there. */
  lemma AddUnderSpec(pod: Pod, path: string, field: seq<string>, v: Value)
    requires pod.spec.Some? && Tokens(path) == Some(["spec"] + field)
    ensures ApplyToPod(pod, Add(path, v))
            == var s := AddToSpec(pod.spec.value, field, v); if s.Some? then Some(pod.(spec := s)) else None
  {
  }

  lemma AddDeploymentAnnotation(d: Deployment, path: string, a: Annotation, value: string)
    requires d.meta.annotations.Some? && Tokens(path) == Some(["metadata"] + ["annotations", a.Key()])
    ensures ApplyToDeployment(d, Add(path, TextValue(value)))
            == Some(d.(meta := d.meta.(annotations := Some(Write(d.meta.Annotations(), a, value)))))
  {
  }

  lemma AddDeploymentAnnotations(d: Deployment, path: string, annotations: map<string, string>)
    requires Tokens(path) == Some(["metadata"] + ["annotations"])
    ensures ApplyToDeployment(d, Add(path, AnnotationsValue(annotations)))
            == Some(d.(meta := d.meta.(annotations := Some(annotations))))
  {
  }

  lemma AddTemplateAnnotation(d: Deployment, path: string, a: Annotation, value: string)
    requires Tokens(path) == Some(["spec", "template", "metadata"] + ["annotations", a.Key()])
    ensures ApplyToDeployment(d, Add(path, TextValue(value))) ==
            if d.HasTemplateMeta() && d.TemplateMeta().annotations.Some? then
              Some(d.WithTemplate(d.TemplateMeta().(annotations := Some(Write(d.TemplateMeta().Annotations(), a, value)))))
            else None
  {
  }

  lemma AddTemplateAnnotations(d: Deployment, path: string, annotations: map<string, string>)
    requires Tokens(path) == Some(["spec", "template", "metadata"] + ["annotations"])
    ensures ApplyToDeployment(d, Add(path, AnnotationsValue(annotations)))
            == if d.HasTemplateMeta() then Some(d.WithTemplate(d.TemplateMeta().(annotations := Some(annotations)))) else None
  {
  }

  /** An operation whose parent is missing does not apply: an annotation without annotations,
      anything in the spec without a spec, an appended volume without volumes. */
  lemma ParentMustExist(pod: Pod, key: string, field: seq<string>, text: string, v: Value, volume: Volume)
    ensures pod.meta.annotations.None? ==> ApplyAt(pod, ["metadata", "annotations", key], TextValue(text)) == None
    ensures pod.spec.None? ==> ApplyAt(pod, ["spec"] + field, v) == None
    ensures pod.spec.Some? && pod.spec.value.volumes.None? ==> ApplyAt(pod, ["spec", "volumes", "-"], VolumeValue(volume)) == None
  {
    assert |"spec"| != |"metadata"|;
    assert ["metadata", "annotations", key][1..] == ["annotations", key];
    assert ["spec", "volumes", "-"][1..] == ["volumes", "-"];
  }
}
