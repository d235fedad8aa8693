/** The injector's store as the program keeps it: two maps changed in place, proved against
    the functions of DeviceStore. */
module IdentityStores {
  import opened Collections
  import opened Identities
  import opened DeviceStore
  import opened Uuids

  method MergeDeviceIds(dest: Option<seq<string>>, src: seq<string>, used: seq<string>)
    returns (merged: Option<seq<string>>)
    ensures merged == MergeIds(dest, src, used)
  {
    merged := dest;
    for n := 0 to |src|
      invariant merged.Some? == dest.Some?
      invariant MergeIds(merged, src[n..], used) == MergeIds(dest, src, used)
    {
      assert src[n..][0] == src[n] && src[n..][1..] == src[n + 1..];
      if merged.Some? && src[n] !in merged.value && src[n] !in used {
        merged := Some(merged.value + [src[n]]);
      }
    }
  }

  class InMemoryIdentityStore {
    var identities: map<string, ServiceIdentity>
    var registered: map<string, seq<Uuid>>

    ghost function View(): Store
      reads this
    {
      Store(identities, registered)
    }

    constructor ()
      ensures View() == Store(map[], map[]) && WellFormed(View())
    {
      identities, registered := map[], map[];
    }

    /** An id joins its pool at the front, unless it is already waiting there. */
    method PushId(id: string, u: Uuid)
      requires id in registered
      modifies this`registered
      ensures registered == old(registered)[id := Push(old(registered)[id], u)]
    {
      if u !in registered[id] {
        registered := registered[id := [u] + registered[id]];
      }
    }

    /** Releases every listed id that was not listed before. */
    method ReleaseListed(id: string, listed: seq<string>, current: seq<string>)
      requires id in registered
      modifies this`registered
      ensures registered == old(registered)[id := PushAll(old(registered)[id], Collect(listed, Unlisted(current)))]
    {
      ghost var total := PushAll(registered[id], Collect(listed, Unlisted(current)));
      for n := 0 to |listed|
        invariant id in registered && registered == old(registered)[id := registered[id]]
        invariant PushAll(registered[id], Collect(listed[n..], Unlisted(current))) == total
      {
        assert listed[n..][0] == listed[n] && listed[n..][1..] == listed[n + 1..];
        if listed[n] !in current {
          var uuid := Parse(listed[n]);
          if uuid.Some? {
            ghost var rest := Collect(listed[n + 1..], Unlisted(current));
            assert Collect(listed[n..], Unlisted(current)) == [uuid.value] + rest;
            assert ([uuid.value] + rest)[1..] == rest;
            PushId(id, uuid.value);
          }
        }
      }
    }

    /** Makes room for a service seen for the first time. */
    method Enter(service: ServiceIdentity)
      modifies this
      ensures identities == old(identities)[service.ServiceId() := Stored(old(View()), service)]
      ensures registered == old(registered)[service.ServiceId() := Pool(old(View()), service.ServiceId())]
    {
      var id := service.ServiceId();
      if id !in identities {
        identities := identities[id := service];
      }
      if id !in registered {
        registered := registered[id := []];
      }
    }

    method RegisterOrUpdate(service: ServiceIdentity, used: Option<seq<string>>) returns (stored: ServiceIdentity)
      modifies this
      ensures View() == Registered(old(View()), service, used)
      ensures stored == Registered(old(View()), service, used).identities[service.ServiceId()]
    {
      ghost var before := View();
      var id := service.ServiceId();
      var current := if id in identities then OrEmpty(identities[id].user.deviceIds) else [];
      Enter(service);
      var listed := OrEmpty(service.user.deviceIds);
      stored := identities[id];
      var merged := MergeDeviceIds(stored.user.deviceIds, listed, OrEmpty(used));
      stored := WithIds(stored, merged);
      identities := identities[id := stored];
      ReleaseListed(id, listed, current);
      assert identities == before.identities[id := stored];
    }

    method UnregisterService(id: string) returns (removed: Option<(ServiceIdentity, seq<Uuid>)>)
      modifies this
      ensures View() == Unregistered(old(View()), id)
      ensures removed == if id in old(identities) && id in old(registered)
                         then Some((old(identities)[id], old(registered)[id])) else None
    {
      removed := if id in identities && id in registered then Some((identities[id], registered[id])) else None;
      registered := registered - {id};
      identities := identities - {id};
    }

    /** `random` is the UUID drawn when nothing waits in the pool. */
    method PopDeviceId(id: string, random: Uuid) returns (popped: Popped)
      modifies this`registered
      ensures (View(), popped) == Pop(old(View()), id, random)
    {
      if id !in identities || id !in registered {
        return NotFound;
      }
      var uuid := random;
      if registered[id] != [] {
        uuid := registered[id][0];
        registered := registered[id := registered[id][1..]];
      }
      popped := Assigned(identities[id], uuid);
    }

    /** One message of the provider; a request is answered. */
    method Receive(r: Request) returns (answer: Option<Popped>)
      modifies this
      ensures View() == Provide(old(View()), r)
      ensures old(WellFormed(View())) ==> WellFormed(View())
      ensures answer == if r.RequestDeviceId? then Some(Pop(old(View()), r.id, r.random).1) else None
    {
      answer := None;
      if WellFormed(View()) {
        ProvideWellFormed(View(), r);
      }
      match r
      case FoundServiceIdentity(service, used) => var _ := RegisterOrUpdate(service, used);
      case DeletedServiceIdentity(service) => var _ := UnregisterService(service.ServiceId());
      case RequestDeviceId(id, random) =>
        var popped := PopDeviceId(id, random);
        answer := Some(popped);
    }
  }
}
