/** The watcher of service candidates: what it remembers as applied, and what it tells the
    identity manager over a whole run. */
module Watchers {
  import opened Collections
  import opened Strings
  import opened Identities

  /** A deployment or SDPService as the watcher sees it: whether its own annotations make it
      a candidate, and the injection label of its namespace, if that could be read. */
  datatype Entity = Entity(candidate: ServiceCandidate, isCandidate: bool, nsLabel: Option<string>)
  {
    function Key(): Option<string> { candidate.ServiceId() }

    predicate Eligible() {
      candidate.namespace.Some? && isCandidate && nsLabel.Some? && EqualsIgnoreCase(nsLabel.value, "enabled")
    }

    function Initialized(): Option<ManagerMsg> { if Eligible() then Some(FoundServiceCandidate(candidate)) else None }

    function Applied(): Option<ManagerMsg> { if Eligible() then Some(RequestServiceIdentity(candidate)) else None }

    function Reapplied(): Option<ManagerMsg> { None }

    function Deleted(): Option<ManagerMsg> { if Eligible() then Some(DeletedServiceCandidate(candidate)) else None }
  }

  datatype WatchEvent = Apply(entity: Entity) | Delete(entity: Entity) | Restarted

  // ---------- What the messages say ----------

  /** The service a message is about. */
  function About(msg: ManagerMsg): Option<string> {
    match msg
    case FoundServiceCandidate(c) => c.ServiceId()
    case RequestServiceIdentity(c) => c.ServiceId()
    case DeletedServiceCandidate(c) => c.ServiceId()
    case _ => None
  }

  predicate Mentioned(sent: seq<ManagerMsg>, key: string) {
    exists i :: 0 <= i < |sent| && About(sent[i]) == Some(key)
  }

  /** The last thing said about the service is that it is there. */
  function Announced(sent: seq<ManagerMsg>, key: string): bool {
    if sent == [] then false
    else
      var front, last := sent[..|sent| - 1], sent[|sent| - 1];
      if About(last) == Some(key) then !last.DeletedServiceCandidate? else Announced(front, key)
  }

  lemma AnnouncedAppend(sent: seq<ManagerMsg>, msg: ManagerMsg, key: string)
    ensures Announced(sent + [msg], key) ==
            if About(msg) == Some(key) then !msg.DeletedServiceCandidate? else Announced(sent, key)
    ensures Mentioned(sent + [msg], key) <==> About(msg) == Some(key) || Mentioned(sent, key)
  {
  }

  lemma {:induction false} AnnouncedIsMentioned(sent: seq<ManagerMsg>, key: string)
    requires Announced(sent, key)
    ensures Mentioned(sent, key)
  {
    var front, last := sent[..|sent| - 1], sent[|sent| - 1];
    assert sent == front + [last];
    AnnouncedAppend(front, last, key);
    if About(last) != Some(key) {
      AnnouncedIsMentioned(front, key);
    }
  }

  /** A service is asked for only while it is not announced: between two requests, or after
      the initial announcement, there is always a deletion. */
  predicate NeverAskedTwice(sent: seq<ManagerMsg>) {
    forall j :: 0 <= j < |sent| && sent[j].RequestServiceIdentity? && About(sent[j]).Some? ==>
      !Announced(sent[..j], About(sent[j]).value)
  }

  /** Messages are remembered exactly: a service counts as applied if it is announced, or if
      it was listed at the start and nothing has been said about it since. */
  ghost predicate Remembers(applied: set<string>, sent: seq<ManagerMsg>, listed: set<string>) {
    && (forall key :: key in applied ==> Announced(sent, key) || (key in listed && !Mentioned(sent, key)))
    && (forall key :: Announced(sent, key) ==> key in applied)
    && (forall key :: key in listed && !Mentioned(sent, key) ==> key in applied)
  }

  /** One more message about `key`, after which it is applied or not. */
  lemma RemembersMessage(applied: set<string>, sent: seq<ManagerMsg>, listed: set<string>, msg: ManagerMsg, key: string)
    requires Remembers(applied, sent, listed) && About(msg) == Some(key)
    ensures Remembers(if msg.DeletedServiceCandidate? then applied - {key} else applied + {key}, sent + [msg], listed)
  {
    forall other ensures Announced(sent + [msg], other) == (if other == key then !msg.DeletedServiceCandidate? else Announced(sent, other))
                 ensures Mentioned(sent + [msg], other) <==> other == key || Mentioned(sent, other)
    {
      AnnouncedAppend(sent, msg, other);
    }
  }

  lemma AskOnce(sent: seq<ManagerMsg>, msg: ManagerMsg)
    requires NeverAskedTwice(sent)
    requires msg.RequestServiceIdentity? && About(msg).Some? ==> !Announced(sent, About(msg).value)
    ensures NeverAskedTwice(sent + [msg])
  {
    var more := sent + [msg];
    forall j | 0 <= j < |more| && more[j].RequestServiceIdentity? && About(more[j]).Some?
      ensures !Announced(more[..j], About(more[j]).value)
    {
      assert more[..j] == sent[..j];
      if j == |sent| {
        assert sent[..j] == sent;
      }
    }
  }

  /** While listing, entities are only reported, each under a key that counts as applied. */
  predicate OnlyFound(sent: seq<ManagerMsg>, applied: set<string>) {
    forall i :: 0 <= i < |sent| ==>
      sent[i].FoundServiceCandidate? && About(sent[i]).Some? && About(sent[i]).value in applied
  }

  lemma {:induction false} FoundIsAnnounced(sent: seq<ManagerMsg>, applied: set<string>, key: string)
    requires OnlyFound(sent, applied) && Mentioned(sent, key)
    ensures Announced(sent, key)
  {
    var front, last := sent[..|sent| - 1], sent[|sent| - 1];
    assert sent == front + [last];
    AnnouncedAppend(front, last, key);
    if About(last) != Some(key) {
      FoundIsAnnounced(front, applied, key);
    }
  }

  lemma ListingRemembers(sent: seq<ManagerMsg>, listed: set<string>)
    requires OnlyFound(sent, listed)
    ensures Remembers(listed, sent, listed) && NeverAskedTwice(sent)
  {
    forall key | Mentioned(sent, key) ensures Announced(sent, key) {
      FoundIsAnnounced(sent, listed, key);
    }
    forall key | Announced(sent, key) ensures key in listed {
      AnnouncedIsMentioned(sent, key);
    }
  }

  function Keys(xs: seq<Entity>): set<string> {
    set e | e in xs && e.Key().Some? :: e.Key().value
  }

  /** The service is listed, and not eligible. */
  predicate ListedSilently(xs: seq<Entity>, key: string) {
    key in Keys(xs) && forall e :: e in xs && e.Key() == Some(key) ==> !e.Eligible()
  }

  predicate Deletes(e: WatchEvent, key: string) {
    e.Delete? && e.entity.Eligible() && e.entity.Key() == Some(key)
  }

  predicate DeletedIn(es: seq<WatchEvent>, key: string) {
    exists i :: 0 <= i < |es| && Deletes(es[i], key)
  }

  lemma DeletedInAppend(es: seq<WatchEvent>, e: WatchEvent, key: string)
    ensures DeletedIn(es + [e], key) <==> DeletedIn(es, key) || Deletes(e, key)
  {
    assert forall i :: 0 <= i < |es| ==> (es + [e])[i] == es[i];
    assert (es + [e])[|es|] == e;
  }

  function Report(e: Entity): Option<ManagerMsg> { e.Initialized() }

  /** The listing does not mention a service that is not eligible. */
  lemma SilentlyListed(xs: seq<Entity>)
    ensures forall key :: ListedSilently(xs, key) ==> !Mentioned(Collect(xs, Report), key)
  {
    var sent := Collect(xs, Report);
    forall key, i | ListedSilently(xs, key) && 0 <= i < |sent| ensures About(sent[i]) != Some(key) {
      CollectMember(xs, Report, sent[i]);
      var n :| 0 <= n < |xs| && Report(xs[n]) == Some(sent[i]);
      assert xs[n] in xs;
    }
  }

  class Watcher {
    var applied: set<string>
    // Messages sent to the manager, in order.
    var sent: seq<ManagerMsg>
    // The services listed before the watch began.
    ghost var listed: set<string>

    ghost predicate Valid()
      reads this
    {
      Remembers(applied, sent, listed) && NeverAskedTwice(sent)
    }

    constructor ()
      ensures Valid() && applied == {} && sent == [] && listed == {}
    {
      applied, sent, listed := {}, [], {};
    }

    /** Eligible entities are reported; every entity counts as applied, eligible or not. */
    method List(xs: seq<Entity>)
      requires Valid() && sent == [] && applied == {} && listed == {}
      modifies this
      ensures Valid() && applied == listed
      ensures listed == Keys(xs) && sent == Collect(xs, Report)
    {
      for n := 0 to |xs|
        invariant applied == Keys(xs[..n])
        invariant sent == Collect(xs[..n], Report)
        invariant OnlyFound(sent, applied)
      {
        var e := xs[n];
        assert xs[..n + 1] == xs[..n] + [e];
        CollectAppend(xs[..n], e, Report);
        var msg := e.Initialized();
        if msg.Some? {
          sent := sent + [msg.value];
        }
        if e.Key().Some? {
          applied := applied + {e.Key().value};
        }
      }
      assert xs[..|xs|] == xs;
      listed := applied;
      ListingRemembers(sent, listed);
    }

    /** One event of the endless loop. An eligible entity that is applied is asked for,
        unless it counts as applied; then nothing is said. */
    method React(e: WatchEvent)
      requires Valid()
      modifies this`applied, this`sent
      ensures Valid()
      ensures e.Apply? && e.entity.Eligible() ==>
                var key := e.entity.Key().value;
                && key in applied
                && (Announced(sent, key) <==> !(key in listed && !Mentioned(old(sent), key)))
                && sent == old(sent) + if key in old(applied) then [] else [RequestServiceIdentity(e.entity.candidate)]
      ensures e.Delete? && e.entity.Eligible() ==>
                && sent == old(sent) + [DeletedServiceCandidate(e.entity.candidate)]
                && applied == old(applied) - {e.entity.Key().value}
      ensures e.Restarted? || !e.entity.Eligible() ==> sent == old(sent) && applied == old(applied)
    {
      match e
      case Apply(x) =>
        var key := x.Key();
        var again := key.Some? && key.value in applied;
        var msg := if again then x.Reapplied() else x.Applied();
        if msg.Some? {
          RemembersMessage(applied, sent, listed, msg.value, key.value);
          AskOnce(sent, msg.value);
          AnnouncedAppend(sent, msg.value, key.value);
          sent := sent + [msg.value];
          if !again {
            applied := applied + {key.value};
          }
        } else if x.Eligible() && Announced(sent, key.value) {
          AnnouncedIsMentioned(sent, key.value);
        }
      case Delete(x) =>
        var msg := x.Deleted();
        if msg.Some? {
          RemembersMessage(applied, sent, listed, msg.value, x.Key().value);
          AskOnce(sent, msg.value);
          sent := sent + [msg.value];
          applied := applied - {x.Key().value};
        }
      case Restarted =>
    }

    /** A whole watch: the listing, then any events. A service that was listed without being
        eligible is not mentioned, whatever becomes of it, until it is deleted while it is. */
    method Watch(xs: seq<Entity>, es: seq<WatchEvent>)
      requires Valid() && sent == [] && applied == {} && listed == {}
      modifies this
      ensures Valid()
      ensures forall key :: ListedSilently(xs, key) ==> (Mentioned(sent, key) <==> DeletedIn(es, key))
    {
      List(xs);
      SilentlyListed(xs);
      for n := 0 to |es|
        invariant Valid() && listed == Keys(xs)
        invariant forall key :: ListedSilently(xs, key) ==> (Mentioned(sent, key) <==> DeletedIn(es[..n], key))
      {
        ghost var before := sent;
        React(es[n]);
        assert es[..n + 1] == es[..n] + [es[n]];
        forall key | ListedSilently(xs, key) ensures Mentioned(sent, key) <==> Mentioned(before, key) || Deletes(es[n], key) {
          if sent != before {
            AnnouncedAppend(before, sent[|before|], key);
          }
        }
        forall key ensures DeletedIn(es[..n + 1], key) <==> DeletedIn(es[..n], key) || Deletes(es[n], key) {
          DeletedInAppend(es[..n], es[n], key);
        }
      }
      assert es[..|es|] == es;
    }
  }

  /** Two requests for one service have a deletion between them. */
  lemma {:induction false} DeletionBetweenRequests(sent: seq<ManagerMsg>, i: nat, j: nat, key: string)
    requires NeverAskedTwice(sent) && i < j < |sent|
    requires sent[i].RequestServiceIdentity? && About(sent[i]) == Some(key)
    requires sent[j].RequestServiceIdentity? && About(sent[j]) == Some(key)
    ensures exists d :: i < d < j && sent[d].DeletedServiceCandidate? && About(sent[d]) == Some(key)
  {
    StillAnnounced(sent, i, j, key);
  }

  lemma {:induction false} StillAnnounced(sent: seq<ManagerMsg>, i: nat, j: nat, key: string)
    requires i < j <= |sent| && About(sent[i]) == Some(key) && !sent[i].DeletedServiceCandidate?
    ensures Announced(sent[..j], key) || exists d :: i < d < j && sent[d].DeletedServiceCandidate? && About(sent[d]) == Some(key)
    decreases j - i
  {
    assert sent[..j] == sent[..j - 1] + [sent[j - 1]];
    AnnouncedAppend(sent[..j - 1], sent[j - 1], key);
    if i < j - 1 {
      StillAnnounced(sent, i, j - 1, key);
    }
  }

  /** Which entities are spoken of at all: those with a namespace that are candidates
      themselves and whose namespace is labelled `enabled`, in any case. */
  lemma EligibleExactly(e: Entity)
    ensures var spoken := e.candidate.namespace.Some? && e.isCandidate && e.nsLabel.Some? && ToLower(e.nsLabel.value) == "enabled";
            && e.Initialized() == (if spoken then Some(FoundServiceCandidate(e.candidate)) else None)
            && e.Applied() == (if spoken then Some(RequestServiceIdentity(e.candidate)) else None)
            && e.Deleted() == (if spoken then Some(DeletedServiceCandidate(e.candidate)) else None)
            && e.Reapplied() == None
  {
    assert ToLower("enabled") == "enabled";
  }
}
