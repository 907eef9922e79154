/** The hub object: its maps are edited in place by short lock sections and by the
    compare-and-swap on an owner's active flag. */
module HubObject {
  import opened Options
  import opened Hub

  class RealtimeHub {
    var streams: seq<StreamOwner>
    var current: Option<nat>
    var closed: bool
    var owners: seq<Owner>
    var registered: set<nat>
    var subscriptions: map<Id, nat>

    constructor ()
      ensures streams == [] && current.None? && !closed && owners == [] && registered == {} && subscriptions == map[]
    {
      streams, current, closed, owners, registered, subscriptions := [], None, false, [], {}, map[];
    }

    /** First section of a registration: the owner belongs to the stream of the moment.
        `healthy` is that stream's status: connected and not terminal. */
    method BeginOwner(healthy: bool) returns (k: Option<nat>)
      modifies this
      ensures k.Some? <==>
                healthy && old(current).Some? && !old(closed) && old(current).value < |old(streams)| &&
                !old(streams)[old(current).value].retired
      ensures k.None? ==> unchanged(this)
      ensures k.Some? ==>
                && k.value == |old(owners)| && registered == old(registered) + {k.value}
                && owners == old(owners) + [Owner(old(current).value, true, None, Subscribing, NotReleased, 0, [])]
                && streams == old(streams) && current == old(current) && closed == old(closed)
                && subscriptions == old(subscriptions)
    {
      if current.None? || closed || current.value >= |streams| || streams[current.value].retired || !healthy {
        return None;
      }
      k := Some(|owners|);
      owners := owners + [Owner(current.value, true, None, Subscribing, NotReleased, 0, [])];
      registered := registered + {k.value};
    }

    /** Second section: stores the acknowledged identifier only while the owner is
        active and its stream is the current, unretired one. */
    method ValidateOwner(k: nat, healthy: bool) returns (valid: bool)
      requires k < |owners| && owners[k].call.Acknowledged?
      modifies this`owners, this`subscriptions
      ensures valid <==> Valid(old(owners)[k], streams, current, closed, healthy)
      ensures valid ==>
                owners == old(owners)[k := Accepted(old(owners)[k])] &&
                subscriptions == old(subscriptions)[old(owners)[k].call.id.value := k]
      ensures !valid ==>
                owners == old(owners)[k := old(owners)[k].(call := Rejecting(old(owners)[k].call.id))] &&
                subscriptions == old(subscriptions)
    {
      var owner := owners[k];
      valid := healthy && owner.active && owner.stream < |streams| && !streams[owner.stream].retired &&
               owner.call.id.Some? && current == Some(owner.stream) && !closed;
      if valid {
        owners := owners[k := owner.(id := owner.call.id, call := ReturnedOwner)];
        subscriptions := subscriptions[owner.call.id.value := k];
      } else {
        owners := owners[k := owner.(call := Rejecting(owner.call.id))];
      }
    }

    /** Compare-and-swap: only one caller ever wins. */
    method ClaimOwner(k: nat, invalidates: bool) returns (won: bool)
      requires k < |owners|
      modifies this`owners
      ensures won <==> old(owners)[k].active
      ensures owners == old(owners)[k := Claim(old(owners)[k], invalidates)]
    {
      if !owners[k].active {
        assert owners[k := owners[k]] == owners;
        return false;
      }
      owners := owners[k := owners[k].(active := false, release := Claimed(invalidates))];
      return true;
    }

    method DetachOwner(k: nat) returns (id: Option<Id>)
      requires k < |owners| && owners[k].release.Claimed?
      modifies this`owners, this`registered, this`subscriptions
      ensures id == old(owners)[k].id && owners == old(owners)[k := Detach(old(owners)[k])]
      ensures registered == old(registered) - {k} && subscriptions == Unmapped(old(subscriptions), id, k)
    {
      id := owners[k].id;
      registered := registered - {k};
      if id.Some? && id.value in subscriptions && subscriptions[id.value] == k {
        subscriptions := subscriptions - {id.value};
      }
      owners := owners[k := owners[k].(release := Detached(owners[k].release.invalidates, id))];
    }

    /** Snapshot of the registered owners of a stream, taken under the lock. */
    method CollectOwners(stream: nat) returns (found: set<nat>)
      ensures found == OwnersOf(owners, registered, stream)
    {
      found := {};
      var rest := registered;
      while rest != {}
        invariant rest <= registered
        invariant found == OwnersOf(owners, registered - rest, stream)
        decreases rest
      {
        var k :| k in rest;
        rest := rest - {k};
        if k < |owners| && owners[k].stream == stream {
          found := found + {k};
        }
      }
      assert registered - rest == registered;
    }

    /** Owners addressed by a delivery, in the order of its identifiers. */
    method CollectDelivery(stream: nat, ids: seq<Id>) returns (found: seq<Delivery>)
      ensures found == Addressed(owners, subscriptions, stream, ids)
    {
      found := [];
      var i := 0;
      while i < |ids|
        invariant 0 <= i <= |ids|
        invariant Addressed(owners, subscriptions, stream, ids) ==
                    found + Addressed(owners, subscriptions, stream, ids[i..])
      {
        var id := ids[i];
        assert ids[i..][0] == id && ids[i..][1..] == ids[i + 1..];
        ghost var rest := Addressed(owners, subscriptions, stream, ids[i + 1..]);
        if id in subscriptions && subscriptions[id] < |owners| && owners[subscriptions[id]].stream == stream {
          assert found + ([Delivery(stream, subscriptions[id])] + rest) ==
                   (found + [Delivery(stream, subscriptions[id])]) + rest;
          found := found + [Delivery(stream, subscriptions[id])];
        }
        i := i + 1;
      }
      assert found + [] == found;
    }
  }
}
