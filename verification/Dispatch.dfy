/** The client's dispatch table: `response_channels` and the operations on it
    (src/tunnel.rs:368-379, 460-539). */
module Dispatch {
  import opened Prelude
  import opened Events
  import C = ClientRelay

  const DISPATCH_STALL_TIMEOUT: nat := 15000

  /** One connection's event queue, as its senders and its receiver share it. */
  class Channel {
    var queue: seq<TunnelEvent>
    var receiverAlive: bool

    constructor ()
      ensures queue == [] && receiverAlive
    {
      queue, receiverAlive := [], true;
    }
  }

  /** What a consumer does while a dispatch waits on its full queue. */
  datatype Wait = Takes(after: nat) | GoesAway(after: nat) | Silent

  /** How one dispatch ends for the event it carries. */
  datatype Fate = Ignored | Queued | ReceiverLost | HandedOff | Evicted

  function FateOf(registered: bool, alive: bool, room: bool, ev: TunnelEvent, wait: Wait): Fate {
    if !registered then Ignored
    else if !alive then ReceiverLost
    else if room then Queued
    else match wait
      case Takes(after) => if after < DISPATCH_STALL_TIMEOUT then Queued else Stalled(ev)
      case GoesAway(after) => if after < DISPATCH_STALL_TIMEOUT then ReceiverLost else Stalled(ev)
      case Silent => Stalled(ev)
  }

  function Stalled(ev: TunnelEvent): Fate {
    if ev.Close? then HandedOff else Evicted
  }

  class DispatchTable {
    var channels: map<nat, Channel>

    /** No two conn_ids share a queue. */
    ghost predicate Valid()
      reads this
    {
      forall a, b :: a in channels && b in channels && a != b ==> channels[a] != channels[b]
    }

    constructor ()
      ensures Valid() && channels == map[]
    {
      channels := map[];
    }

    method Register(cid: nat) returns (rx: Channel)
      requires Valid()
      modifies this
      ensures Valid() && fresh(rx) && rx.queue == [] && rx.receiverAlive
      ensures channels == old(channels)[cid := rx]
    {
      rx := new Channel();
      channels := channels[cid := rx];
    }

    method Unregister(cid: nat)
      requires Valid()
      modifies this
      ensures Valid() && channels == old(channels) - {cid}
    {
      channels := channels - {cid};
    }

    /** `Message::Reset`, and the config watcher's rotation. */
    method Clear() returns (count: nat)
      requires Valid()
      modifies this
      ensures Valid() && channels == map[] && count == |old(channels)|
    {
      count := |channels|;
      channels := map[];
    }

    /** One event for one connection. Whatever its consumer does, the call waits
        for it no longer than the stall timeout, and neither the registration
        nor the queue of any other connection changes. */
    method DispatchEvent(cid: nat, ev: TunnelEvent, wait: Wait) returns (fate: Fate, waited: nat)
      requires Valid()
      modifies this, if cid in channels then {channels[cid]} else {}
      ensures Valid()
      ensures fate == (if cid !in old(channels) then Ignored
                       else FateOf(true, old(channels[cid].receiverAlive),
                                   old(|channels[cid].queue|) < C.CONN_CHANNEL_CAPACITY, ev, wait))
      ensures waited <= DISPATCH_STALL_TIMEOUT
      ensures fate.HandedOff? || fate.Evicted? ==> waited == DISPATCH_STALL_TIMEOUT
      ensures waited > 0 ==> cid in old(channels) && old(channels[cid].receiverAlive)
                             && old(|channels[cid].queue|) >= C.CONN_CHANNEL_CAPACITY
      ensures channels == if fate.Evicted? then old(channels) - {cid} else old(channels)
      ensures forall c :: c in old(channels) && c != cid ==>
        old(channels)[c].queue == old(channels[c].queue) && old(channels)[c].receiverAlive ==
          old(channels[c].receiverAlive)
      ensures cid in old(channels) ==>
        var q, q' := old(channels[cid].queue), old(channels)[cid].queue;
        && (fate.Queued? ==> q' == (if |q| < C.CONN_CHANNEL_CAPACITY then q else q[1..]) + [ev])
        && (!fate.Queued? ==> q' == q)
    {
      waited := 0;
      if cid !in channels {
        return Ignored, waited;
      }
      var tx := channels[cid];
      if !tx.receiverAlive {
        return ReceiverLost, waited;
      }
      if |tx.queue| < C.CONN_CHANNEL_CAPACITY {
        tx.queue := tx.queue + [ev];
        return Queued, waited;
      }
      match wait {
        case Takes(after) =>
          if after < DISPATCH_STALL_TIMEOUT {
            waited := after;
            tx.queue := tx.queue[1..] + [ev];
            return Queued, waited;
          }
        case GoesAway(after) =>
          if after < DISPATCH_STALL_TIMEOUT {
            waited := after;
            tx.receiverAlive := false;
            return ReceiverLost, waited;
          }
        case Silent =>
      }
      waited := DISPATCH_STALL_TIMEOUT;
      if ev.Close? {
        return HandedOff, waited;
      }
      Unregister(cid);
      fate := Evicted;
    }
  }
}
