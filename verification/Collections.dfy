/** Small vocabulary shared by every model: optional values, enumerations of sets,
    and the order-preserving selection of the interesting elements of a queue. */
module Collections {

  datatype Option<+T> = None | Some(value: T)

  predicate NoDup<T(==)>(s: seq<T>) {
    forall i, j :: 0 <= i < j < |s| ==> s[i] != s[j]
  }

  /** `s` lists the elements of `t`, each exactly once, in some order: an iteration
      over a hash set, whose order the program does not control. */
  ghost predicate Enumerates<T>(s: seq<T>, t: set<T>) {
    && NoDup(s)
    && (forall x :: x in s ==> x in t)
    && (forall x :: x in t ==> x in s)
  }

  lemma NoDupCardinality<T>(s: seq<T>)
    requires NoDup(s)
    ensures |(set x | x in s)| == |s|
  {
    if s == [] {
      assert (set x | x in s) == {};
    } else {
      var front, last := s[..|s| - 1], s[|s| - 1];
      NoDupCardinality(front);
      assert (set x | x in s) == (set x | x in front) + {last};
    }
  }

  lemma EnumerationLength<T>(s: seq<T>, t: set<T>)
    requires Enumerates(s, t)
    ensures |s| == |t|
  {
    NoDupCardinality(s);
    assert (set x | x in s) == t;
  }

  /** Every set can be visited. */
  lemma Enumeration<T>(t: set<T>) returns (s: seq<T>)
    ensures Enumerates(s, t)
  {
    if t == {} {
      s := [];
    } else {
      var x :| x in t;
      var rest := Enumeration(t - {x});
      NoDupConcat(rest, [x]);
      s := rest + [x];
    }
  }

  /** The results of `f` on the elements of `q` it selects, in the order of `q`. */
  function Collect<A, B>(q: seq<A>, f: A -> Option<B>): seq<B> {
    if q == [] then []
    else
      var rest := Collect(q[1..], f);
      match f(q[0])
      case Some(b) => [b] + rest
      case None => rest
  }

  lemma {:induction false} CollectConcat<A, B>(p: seq<A>, q: seq<A>, f: A -> Option<B>)
    ensures Collect(p + q, f) == Collect(p, f) + Collect(q, f)
  {
    if p == [] {
      assert p + q == q;
    } else {
      assert (p + q)[1..] == p[1..] + q;
      CollectConcat(p[1..], q, f);
    }
  }

  /** What happens to a selection when messages are appended to the queue. */
  lemma CollectAppend<A, B>(q: seq<A>, x: A, f: A -> Option<B>)
    ensures Collect(q + [x], f) == Collect(q, f) + (match f(x) case Some(b) => [b] case None => [])
  {
    CollectConcat(q, [x], f);
    assert Collect([x], f) == match f(x) case Some(b) => [b] case None => [];
  }

  lemma {:induction false} CollectMember<A, B>(q: seq<A>, f: A -> Option<B>, b: B)
    ensures b in Collect(q, f) <==> exists i :: 0 <= i < |q| && f(q[i]) == Some(b)
  {
    if q != [] {
      CollectMember(q[1..], f, b);
      assert forall i :: 0 <= i < |q[1..]| ==> q[1..][i] == q[i + 1];
      if i :| 0 <= i < |q| && f(q[i]) == Some(b) {
        assert i > 0 ==> f(q[1..][i - 1]) == Some(b);
      }
    }
  }

  lemma NoDupConcat<T>(a: seq<T>, b: seq<T>)
    requires NoDup(a) && NoDup(b) && forall x :: x in a ==> x !in b
    ensures NoDup(a + b)
  {
    forall i, j | 0 <= i < j < |a + b| ensures (a + b)[i] != (a + b)[j] {
      if i < |a| <= j {
        assert a[i] in a && b[j - |a|] in b;
      }
    }
  }

  lemma NoDupHead<T>(x: T, s: seq<T>)
    requires NoDup([x] + s)
    ensures x !in s && NoDup(s)
  {
    forall i | 0 <= i < |s| ensures s[i] != x && ([x] + s)[i + 1] == s[i] {
      assert ([x] + s)[0] == x && ([x] + s)[i + 1] == s[i];
    }
  }

  function Min(a: nat, b: nat): nat { if a <= b then a else b }

  lemma {:induction false} CollectAgree<A, B>(q: seq<A>, f: A -> Option<B>, g: A -> Option<B>)
    requires forall i :: 0 <= i < |q| ==> f(q[i]) == g(q[i])
    ensures Collect(q, f) == Collect(q, g)
  {
    if q != [] {
      CollectAgree(q[1..], f, g);
    }
  }

  /** Selecting distinct things by an injective function leaves them distinct. */
  lemma {:induction false} CollectNoDup<A, B>(q: seq<A>, f: A -> Option<B>)
    requires forall i, j :: 0 <= i < j < |q| && f(q[i]).Some? ==> f(q[i]) != f(q[j])
    ensures NoDup(Collect(q, f))
  {
    if q != [] {
      CollectNoDup(q[1..], f);
      if f(q[0]).Some? {
        CollectMember(q[1..], f, f(q[0]).value);
      }
    }
  }

  lemma {:induction false} CollectNone<A, B>(q: seq<A>, f: A -> Option<B>)
    requires forall x :: x in q ==> f(x).None?
    ensures Collect(q, f) == []
  {
    if q != [] {
      assert q[0] in q;
      CollectNone(q[1..], f);
    }
  }

  /** Visits a set in an order nobody controls. */
  method Visit<T(==)>(s: set<T>) returns (order: seq<T>)
    ensures Enumerates(order, s)
  {
    order := [];
    var rest := s;
    while rest != {}
      invariant NoDup(order) && (forall x :: x in order ==> x in s - rest) && rest <= s
      invariant forall x :: x in s - rest ==> x in order
    {
      var x :| x in rest;
      NoDupConcat(order, [x]);
      order := order + [x];
      rest := rest - {x};
    }
  }
}
