/** The dispatch table's `DispatchEvent` and the whole tunnel's transitions say
    the same thing about one event (src/tunnel.rs:474-525). */
module DispatchSteps {
  import opened Prelude
  import opened Events
  import opened D = Dispatch
  import opened Tunnel
  import opened TunnelInvariant
  import opened TunnelIsolation
  import C = ClientRelay

  /** The transition by which a dispatch with this fate ends. */
  function StepOf(fate: Fate): Tunnel.Action
    requires !fate.Ignored?
  {
    match fate
    case Queued => DeliverEvent
    case ReceiverLost => ReceiverDropped
    case HandedOff => Stall
    case Evicted => Stall
  }

  /** What that fate means for the connection. */
  function After(cn: Conn, fate: Fate, ev: TunnelEvent): Conn {
    match fate
    case Queued => cn.(cli := C.Next(cn.cli, C.Deliver(ev)))
    case HandedOff => cn.(handoffs := cn.handoffs + 1)
    case Evicted => cn.(registered := false)
    case _ => cn
  }

  predicate Alive(cli: C.Relay) {
    !cli.writer.exited
  }

  predicate Roomy(cli: C.Relay) {
    C.QueueLength(cli) < C.CONN_CHANNEL_CAPACITY
  }

  /** A dispatch that found its consumer alive or not, with room or not, ends with
      the consumer as it is now: at once, or when the wait is over. */
  predicate Ends(alive: bool, room: bool, wait: Wait, now: C.Relay) {
    if !alive || room then Alive(now) == alive && (alive ==> Roomy(now))
    else match wait
      case Takes(after) => Alive(now) && (Roomy(now) <==> after < DISPATCH_STALL_TIMEOUT)
      case GoesAway(after) =>
        if after < DISPATCH_STALL_TIMEOUT then !Alive(now) else Alive(now) && !Roomy(now)
      case Silent => Alive(now) && !Roomy(now)
  }

  /** Of the three ways a dispatch can end, the table's fate picks the only one
      the tunnel allows, whatever the wait was like, and the connection is left as
      that fate says. */
  lemma FateIsTheStep(s: System, a: Tunnel.Action, alive: bool, room: bool, wait: Wait)
    requires TunnelInvariant.Inv(s) && s.air.Some? && (a.DeliverEvent? || a.ReceiverDropped? || a.Stall?)
    requires s.air.value.Item? && s.air.value.cid in s.conns
    requires Ends(alive, room, wait, s.conns[s.air.value.cid].cli)
    ensures var cid := s.air.value.cid; var fate := FateOf(true, alive, room, s.air.value.ev, wait);
      && !fate.Ignored?
      && (a == StepOf(fate) ==>
            Tunnel.Next(s, a) == Put(s, cid, Settle(After(s.conns[cid], fate, s.air.value.ev), false)).(air := None))
      && (a != StepOf(fate) ==> Tunnel.Next(s, a) == s)
  {
    hide Tunnel.Next, ConnInv, Settle, C.Next;
    NextIsAir(s, a);
  }

  /** And it is ignored exactly when the tunnel lets the item fall. */
  lemma IgnoredIsSkipped(s: System, wait: Wait)
    requires TunnelInvariant.Inv(s) && s.air.None? && s.queue != [] && s.queue[0].Item?
    ensures var cid := s.queue[0].cid; cid in s.conns
    ensures var cn := s.conns[s.queue[0].cid];
      && Tunnel.Next(s, Begin).queue == s.queue[1..]
      && (Tunnel.Next(s, Begin).air.None? ==> Tunnel.Next(s, Begin).conns == s.conns)
      && (FateOf(cn.registered, !cn.cli.writer.exited, C.QueueLength(cn.cli) < C.CONN_CHANNEL_CAPACITY,
        s.queue[0].ev, wait).Ignored?
          <==> Tunnel.Next(s, Begin).air.None?)
  {
    hide ConnInv;
    assert Proj(s.queue, s.queue[0].cid) != [];
  }
}
