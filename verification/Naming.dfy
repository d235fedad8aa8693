/** The names that tie the two services together: service ids, the service a pod
    belongs to, the SDP user name of a service and the prefix recovered from it.
    Text is ASCII, so a byte offset is a character offset. */
module Naming {
  import opened Collections
  import opened Strings

  const MAX_PREFIX: nat := 122
  const SUFFIX_LENGTH: nat := 5

  /** Key of a service in every map: namespace_name. */
  function ServiceId(namespace: string, name: string): string {
    namespace + "_" + name
  }

  /** Name of the Kubernetes objects of a service: namespace-name. */
  function ServiceName(namespace: string, name: string): string {
    namespace + "-" + name
  }

  /** Two services share an id only if they are the same, as long as neither namespace
      contains an underscore (a Kubernetes namespace never does). */
  lemma ServiceIdInjective(ns1: string, n1: string, ns2: string, n2: string)
    requires '_' !in ns1 && '_' !in ns2
    requires ServiceId(ns1, n1) == ServiceId(ns2, n2)
    ensures ns1 == ns2 && n1 == n2
  {
    FirstPartInjective(ns1, n1, ns2, n2, '_');
  }

  lemma FirstPartInjective(a: string, b: string, c: string, d: string, sep: char)
    requires sep !in a && sep !in c && a + [sep] + b == c + [sep] + d
    ensures a == c && b == d
  {
    var both := a + [sep] + b;
    SplitAtSeparator(a, b, sep);
    SplitAtSeparator(c, d, sep);
    SplitWithoutSeparator(a, sep);
    SplitWithoutSeparator(c, sep);
    assert Split(both, sep)[0] == a;
    assert b == both[|a| + 1..] == d;
  }

  /** Object names do not enjoy that, since dashes are legal in both parts: two services share
      a name exactly when they are the same, or the longer namespace continues the shorter
      one with a dash and its remainder begins the other service's name. */
  lemma ServiceNamesCollide(ns1: string, n1: string, ns2: string, n2: string)
    requires |ns1| <= |ns2|
    ensures ServiceName(ns1, n1) == ServiceName(ns2, n2) <==>
            || (ns1 == ns2 && n1 == n2)
            || (|ns1| < |ns2| && ns2[..|ns1| + 1] == ns1 + "-" && n1 == ns2[|ns1| + 1..] + "-" + n2)
  {
    var full1, full2 := ServiceName(ns1, n1), ServiceName(ns2, n2);
    assert full1[..|ns1| + 1] == ns1 + "-" && full1[|ns1| + 1..] == n1;
    assert full1 == full1[..|ns1| + 1] + full1[|ns1| + 1..] && full2 == full2[..|ns1| + 1] + full2[|ns1| + 1..];
    if |ns1| == |ns2| {
      assert full2[..|ns1| + 1] == ns2 + "-" && full2[|ns1| + 1..] == n2;
      assert (ns1 + "-")[..|ns1|] == ns1 && (ns2 + "-")[..|ns1|] == ns2;
    } else {
      assert full2[..|ns1| + 1] == ns2[..|ns1| + 1] && full2[|ns1| + 1..] == ns2[|ns1| + 1..] + "-" + n2;
      assert ns1 != ns2;
    }
  }

  /** They do identify services whose namespaces have no dash. */
  lemma ServiceNameInjective(ns1: string, n1: string, ns2: string, n2: string)
    requires '-' !in ns1 && '-' !in ns2
    requires ServiceName(ns1, n1) == ServiceName(ns2, n2)
    ensures ns1 == ns2 && n1 == n2
  {
    FirstPartInjective(ns1, n1, ns2, n2, '-');
  }

  lemma ServiceNamesDoCollide()
    ensures ServiceName("a-b", "c") == ServiceName("a", "b-c")
    ensures ServiceId("a-b", "c") != ServiceId("a", "b-c")
  {
    ServiceNamesCollide("a", "b-c", "a-b", "c");
    assert ServiceId("a-b", "c")[1] == '-' && ServiceId("a", "b-c")[1] == '_';
  }

  /** What a pod tells about its name. */
  datatype PodNames = PodNames(annotation: Option<string>, generateName: Option<string>, metadataName: Option<string>)
  {
    /** A name can be computed without inventing one. */
    predicate Resolvable() {
      annotation.Some? ||
      (if generateName.Some? then |Split(generateName.value, '-')| > 2 else metadataName.Some?)
    }
  }

  /** Name of the service a pod belongs to; `random` is the UUID drawn by this very call. */
  function PodServiceName(p: PodNames, random: string): string {
    match p.annotation
    case Some(name) => name
    case None =>
      match p.generateName
      case Some(generated) =>
        var xs := Split(generated, '-');
        if |xs| > 2 then Join(xs[..|xs| - 2], '-') else random
      case None =>
        match p.metadataName
        case Some(name) => name
        case None => random
  }

  /** A replica set names its pods `name-hash-`. The service name comes back exactly
      when the hash contains no dash, whatever the name is. */
  lemma GeneratedNameRoundTrip(name: string, hash: string, metadataName: Option<string>, random: string)
    ensures PodNames(None, Some(name + "-" + hash + "-"), metadataName).Resolvable()
    ensures PodServiceName(PodNames(None, Some(name + "-" + hash + "-"), metadataName), random) == name
            <==> '-' !in hash
  {
    var generated := name + "-" + hash + "-";
    SplitAtSeparator(name + "-" + hash, "", '-');
    assert generated == (name + "-" + hash) + ['-'] + "";
    SplitAtSeparator(name, hash, '-');
    var ns, hs := Split(name, '-'), Split(hash, '-');
    assert Split(generated, '-') == ns + hs + [""];
    assert (ns + hs + [""])[..|ns| + |hs| - 1] == ns + hs[..|hs| - 1];
    SplitWithoutSeparator(hash, '-');
    JoinSplit(name, '-');
    if |hs| == 1 {
      assert ns + hs[..0] == ns;
    } else {
      JoinConcat(ns, hs[..|hs| - 1], '-');
    }
  }

  function Truncate(s: string, n: nat): string {
    if |s| <= n then s else s[..n]
  }

  function UserPrefix(cluster: string, namespace: string, name: string): string {
    Truncate(cluster + "_" + namespace + "_" + name, MAX_PREFIX)
  }

  /** SDP user name of a service; `suffix` is the random lower-case alphanumeric tail. */
  function ServiceUsername(cluster: string, namespace: string, name: string, suffix: string): string {
    UserPrefix(cluster, namespace, name) + "_" + suffix
  }

  /** Everything but the random part of a four-part name; other names are kept. */
  function PrefixName(name: string): string {
    var parts := Split(name, '_');
    if |parts| == 4 || |parts| == 3 then Join(parts[..3], '_') else Join(parts, '_')
  }

  lemma UsernameLength(cluster: string, namespace: string, name: string, suffix: string)
    requires |suffix| == SUFFIX_LENGTH
    ensures |ServiceUsername(cluster, namespace, name, suffix)| <= 128
    ensures |ServiceUsername(cluster, namespace, name, suffix)| == 128 <==>
            |cluster| + |namespace| + |name| >= MAX_PREFIX - 2
  {
  }

  /** The prefix is recovered from a user name exactly when the truncated prefix still
      consists of three underscore-separated parts. */
  lemma PrefixRecovered(cluster: string, namespace: string, name: string, suffix: string)
    requires '_' !in suffix
    ensures PrefixName(ServiceUsername(cluster, namespace, name, suffix)) == UserPrefix(cluster, namespace, name)
            <==> |Split(UserPrefix(cluster, namespace, name), '_')| == 3
  {
    var prefix := UserPrefix(cluster, namespace, name);
    var user := ServiceUsername(cluster, namespace, name, suffix);
    SplitAtSeparator(prefix, suffix, '_');
    SplitWithoutSeparator(suffix, '_');
    var parts := Split(prefix, '_');
    assert Split(user, '_') == parts + [suffix];
    JoinSplit(prefix, '_');
    JoinSplit(user, '_');
    if |parts| == 3 {
      assert (parts + [suffix])[..3] == parts;
    } else if |parts| == 2 {
      assert (parts + [suffix])[..3] == parts + [suffix];
    }
  }

  /** For parts without underscores that is a condition on two lengths. */
  lemma PrefixRecoveredByLength(cluster: string, namespace: string, name: string, suffix: string)
    requires '_' !in cluster && '_' !in namespace && '_' !in name && '_' !in suffix
    ensures PrefixName(ServiceUsername(cluster, namespace, name, suffix)) == UserPrefix(cluster, namespace, name)
            <==> |cluster| + |namespace| <= 120
  {
    PrefixRecovered(cluster, namespace, name, suffix);
    var full := cluster + "_" + namespace + "_" + name;
    var prefix := UserPrefix(cluster, namespace, name);
    if |cluster| + |namespace| <= 120 {
      var tail := prefix[|cluster| + |namespace| + 2..];
      assert prefix == cluster + ['_'] + (namespace + ['_'] + tail);
      assert '_' !in tail by {
        forall i | 0 <= i < |tail| ensures tail[i] == name[i] {
          assert tail[i] == prefix[|cluster| + |namespace| + 2 + i] == full[|cluster| + |namespace| + 2 + i];
        }
      }
      SplitAtSeparator(cluster, namespace + ['_'] + tail, '_');
      SplitAtSeparator(namespace, tail, '_');
      SplitWithoutSeparator(cluster, '_');
      SplitWithoutSeparator(namespace, '_');
      SplitWithoutSeparator(tail, '_');
    } else if |cluster| < MAX_PREFIX {
      var tail := prefix[|cluster| + 1..];
      assert prefix == cluster + ['_'] + tail;
      assert '_' !in tail by {
        forall i | 0 <= i < |tail| ensures tail[i] == namespace[i] {
          assert tail[i] == full[|cluster| + 1 + i];
        }
      }
      SplitAtSeparator(cluster, tail, '_');
      SplitWithoutSeparator(cluster, '_');
      SplitWithoutSeparator(tail, '_');
    } else {
      assert prefix == cluster[..MAX_PREFIX];
      SplitWithoutSeparator(prefix, '_');
    }
  }

  /** Fields of one user in the global secret of the identity service. */
  function UserField(id: string): string { id + "-service-username" }

  function PasswordField(id: string): string { id + "-service-password" }

  function UrlField(id: string): string { id + "-service-url" }

  lemma PasswordFieldInjective(id1: string, id2: string)
    requires PasswordField(id1) == PasswordField(id2)
    ensures id1 == id2
  {
    var field := PasswordField(id1);
    assert id1 == field[..|field| - |"-service-password"|] == id2;
  }

  /** The other two fields of a user are never taken for a password. */
  lemma FieldsApart(id1: string, id2: string)
    ensures UserField(id1) != PasswordField(id2) && UrlField(id1) != PasswordField(id2)
  {
    var user, password, url := UserField(id1), PasswordField(id2), UrlField(id1);
    assert user[|user| - 1] == 'e' && password[|password| - 1] == 'd' && url[|url| - 1] == 'l';
  }

  /** The service name of a pod: its annotation, or the generated name without its last two
      pieces, or the name it was given; only if none is to be had is one invented. */
  lemma PodNameIsTaken(p: PodNames, random: string)
    ensures var name := PodServiceName(p, random);
            && (p.annotation.Some? ==> name == p.annotation.value)
            && (p.annotation.None? && p.generateName.None? && p.metadataName.Some? ==> name == p.metadataName.value)
            && (p.annotation.None? && p.generateName.Some? && p.Resolvable() ==>
                  exists a, b :: '-' !in a && '-' !in b && p.generateName.value == name + "-" + a + "-" + b)
            && (!p.Resolvable() ==> name == random)
  {
    if p.annotation.None? && p.generateName.Some? && p.Resolvable() {
      var generated := p.generateName.value;
      var xs := Split(generated, '-');
      var front, a, b := xs[..|xs| - 2], xs[|xs| - 2], xs[|xs| - 1];
      SplitPieces(generated, '-');
      JoinSplit(generated, '-');
      assert xs == front + [a, b];
      JoinConcat(front, [a, b], '-');
      assert [a, b][1..] == [b];
      assert Join([a, b], '-') == a + ['-'] + b;
      assert generated == Join(front, '-') + "-" + a + "-" + b;
    }
  }

  /** A user name is cluster, namespace and service, joined by underscores and cut at 122
      characters, and the suffix. */
  lemma UsernameIsPrefixed(cluster: string, namespace: string, name: string, suffix: string)
    ensures var full, user := cluster + "_" + namespace + "_" + name, ServiceUsername(cluster, namespace, name, suffix);
            if |full| <= 122 then user == full + "_" + suffix
            else |user| == 123 + |suffix| && user[..122] == full[..122] && user[122..] == "_" + suffix
  {
  }
}
