/** What one action of the tunnel can do to one connection: at most one step of its
    client relay and one of its server relay, and which steps those can be. */
module TunnelSteps {
  import opened Prelude
  import opened Events
  import opened Tunnel
  import opened TunnelInvariant
  import C = ClientRelay
  import S = ServerRelay

  /** The action posts bytes again that are still on their way to the target. */
  predicate Resends(cn: Conn, a: Action, cid: nat) {
    a == PostFailed(cid) && cn.cli.read.Posting? && !cn.retried && Duplicates(cn)
  }

  ghost predicate ClientMoves(cli: C.Relay, cli': C.Relay) {
    || cli' == cli
    || exists ca :: cli' == C.Next(cli, ca) || cli' == C.Next(C.Next(cli, ca), C.SendersGone)
  }

  /** An Abort has to have been posted to arrive, and the read task leaves its loop
      by steps of its own only. */
  predicate Permits(cn: Conn, a: Action, cid: nat, sa: S.Action) {
    && (sa.HandleAbort? ==> C.SendAbort in cn.cli.posts && !cn.astray)
    && (S.Quits(sa) ==> (a == Server(cid, sa) && LocalToServer(sa)) || a == ServerRestart)
  }

  ghost predicate ServerMoves(cn: Conn, a: Action, cid: nat, srv: S.Conn) {
    srv == cn.srv || exists sa :: Permits(cn, a, cid, sa) && srv == S.Next(cn.srv, sa)
  }

  ghost predicate Evolves(cn: Conn, a: Action, cid: nat, cn': Conn) {
    && ClientMoves(cn.cli, cn'.cli) && ServerMoves(cn, a, cid, cn'.srv)
    && (cn.astray ==> cn'.astray) && (cn'.resent ==> cn.resent || Resends(cn, a, cid)) && Forgets(cn, cn')
  }

  /** No connection is registered anew, and none stays so over the end of its relay. */
  predicate Forgets(cn: Conn, cn': Conn) {
    && (cn'.registered ==> cn.registered)
    && (cn'.registered && !cn'.cli.socket.Live? ==> !cn.cli.socket.Live?)
  }

  lemma ByClient(cn: Conn, a: Action, cid: nat, cn': Conn, ca: C.Action)
    requires cn'.srv == cn.srv && cn'.astray == cn.astray && cn'.resent == cn.resent && Forgets(cn, cn')
    requires cn'.cli == C.Next(cn.cli, ca) || cn'.cli == C.Next(C.Next(cn.cli, ca), C.SendersGone)
    ensures Evolves(cn, a, cid, cn')
  {
    hide C.Next, S.Next, Resends;
  }

  lemma ByServer(cn: Conn, a: Action, cid: nat, cn': Conn, sa: S.Action)
    requires cn'.cli == cn.cli && cn'.astray == cn.astray && cn'.resent == cn.resent && Forgets(cn, cn')
    requires cn'.srv == S.Next(cn.srv, sa) && Permits(cn, a, cid, sa)
    ensures Evolves(cn, a, cid, cn')
  {
    hide C.Next, S.Next, Permits, Resends;
  }

  lemma ByNone(cn: Conn, a: Action, cid: nat, cn': Conn)
    requires cn'.cli == cn.cli && cn'.srv == cn.srv && cn'.astray == cn.astray && cn'.resent == cn.resent
    requires cn'.registered ==> cn.registered
    ensures Evolves(cn, a, cid, cn')
  {
    hide C.Next, S.Next, Permits, Resends;
  }

  /** The client's part may go on to lose its last sender. */
  lemma Settled(cn: Conn, a: Action, cid: nat, x: Conn, inAir: bool)
    requires x.srv == cn.srv && x.astray == cn.astray && x.resent == cn.resent && Forgets(cn, x)
    requires x.cli == cn.cli || exists ca :: x.cli == C.Next(cn.cli, ca)
    ensures Evolves(cn, a, cid, Settle(x, inAir))
  {
    SettleForgets(cn, x, inAir);
    hide Evolves, C.Next, Forgets;
    var cn' := Settle(x, inAir);
    if cn'.cli == cn.cli {
      ByNone(cn, a, cid, cn');
    } else if x.cli == cn.cli {
      ByClient(cn, a, cid, cn', C.SendersGone);
    } else {
      var ca :| x.cli == C.Next(cn.cli, ca);
      ByClient(cn, a, cid, cn', ca);
    }
  }

  lemma SettleForgets(cn: Conn, x: Conn, inAir: bool)
    requires Forgets(cn, x)
    ensures Forgets(cn, Settle(x, inAir)) && (Settle(x, inAir).registered ==> cn.registered)
  {
  }

  lemma OnlyJoinEnds(cli: C.Relay, ca: C.Action)
    requires !ca.Join?
    ensures C.Next(cli, ca).socket == cli.socket
  {
  }

  lemma ClientEvolves(s: System, cid: nat, ca: C.Action, c: nat)
    requires c in s.conns
    ensures c in Next(s, Client(cid, ca)).conns
    ensures Evolves(s.conns[c], Client(cid, ca), c, Next(s, Client(cid, ca)).conns[c])
  {
    hide Evolves, C.Next, Settle, InAir, Next;
    var cn, a := s.conns[c], Client(cid, ca);
    ByNone(cn, a, c, cn);
    if cid !in s.conns || !LocalToClient(ca) {
      Idle(s, a);
    } else {
      ClientSteps(s, cid, ca);
      if c == cid {
        MineEvolves(cn, a, c, ca, InAir(s.air, c) != []);
      }
    }
  }

  lemma MineEvolves(cn: Conn, a: Action, cid: nat, ca: C.Action, inAir: bool)
    ensures var x := cn.(cli := C.Next(cn.cli, ca));
      && Evolves(cn, a, cid, Settle(x.(registered := false), inAir))
      && ((ca.Join? ==> x.cli.socket.Live?) ==> Evolves(cn, a, cid, x))
  {
    hide Evolves, C.Next, Settle;
    var x := cn.(cli := C.Next(cn.cli, ca));
    if ca.Join? ==> x.cli.socket.Live? {
      if !ca.Join? {
        OnlyJoinEnds(cn.cli, ca);
      }
      ByClient(cn, a, cid, x, ca);
    }
    Settled(cn, a, cid, x.(registered := false), inAir);
  }

  lemma Idle(s: System, a: Action)
    requires (a.Client? && (a.cid !in s.conns || !LocalToClient(a.ca))) ||
      (a.Server? && (a.cid !in s.conns || !LocalToServer(a.sa)))
    ensures Next(s, a) == s
  {
    hide SendNext, BeginNext, AirNext, HandoffNext, PostNext, StaleAll, Killed, Harmed;
  }

  lemma ServerEvolves(s: System, cid: nat, sa: S.Action, c: nat)
    requires c in s.conns
    ensures c in Next(s, Server(cid, sa)).conns
    ensures Evolves(s.conns[c], Server(cid, sa), c, Next(s, Server(cid, sa)).conns[c])
  {
    hide Evolves, S.Next, Next;
    var cn, a := s.conns[c], Server(cid, sa);
    ByNone(cn, a, c, cn);
    if cid !in s.conns || !LocalToServer(sa) {
      Idle(s, a);
    } else {
      NextServer(s, cid, sa);
      if c == cid {
        ByServer(cn, a, c, cn.(srv := S.Next(cn.srv, sa)), sa);
      }
    }
  }

  lemma EnqueuedConn(s: System, cid: nat, cn: Conn, ev: TunnelEvent, into: Option<nat>)
    ensures Enqueued(s, cid, cn, ev, into).conns == s.conns[cid := cn]
  {
    hide Harms, Reaches;
  }

  lemma SendEvolves(s: System, cid: nat, a: Action, c: nat)
    requires cid in s.conns && c in s.conns
    ensures c in SendNext(s, cid).conns && Evolves(s.conns[c], a, c, SendNext(s, cid).conns[c])
  {
    hide Evolves, S.Next, Enqueued;
    var cn := s.conns[c];
    ByNone(cn, a, c, cn);
    var sent, ended := cn.(srv := S.Next(cn.srv, S.ChunkSent), clone := None), cn.(srv := S.Next(cn.srv, S.EndSent),
      clone := None);
    ByServer(cn, a, c, sent, S.ChunkSent);
    ByServer(cn, a, c, ended, S.EndSent);
    if cn.srv.down.read.SendingChunk? {
      EnqueuedConn(s, c, sent, Data(cn.srv.down.read.chunk), cn.clone);
    }
    if cn.srv.down.read.SendingEnd? {
      EnqueuedConn(s, c, ended, cn.srv.down.read.end, cn.clone);
    }
    if c != cid {
      SendLeavesOthers(s, cid, c);
    }
  }

  lemma SendLeavesOthers(s: System, cid: nat, c: nat)
    requires cid in s.conns && c in s.conns && c != cid
    ensures c in SendNext(s, cid).conns && SendNext(s, cid).conns[c] == s.conns[c]
  {
    hide S.Next, Harms, Reaches;
  }

  lemma ReportEvolves(s: System, cid: nat, c: nat)
    requires c in s.conns
    ensures c in Next(s, SendReport(cid)).conns
    ensures Evolves(s.conns[c], SendReport(cid), c, Next(s, SendReport(cid)).conns[c])
  {
    hide Evolves, S.Next, Enqueued, SendNext, BeginNext, AirNext, HandoffNext, PostNext, StaleAll, Killed, Harmed;
    var cn, a := s.conns[c], SendReport(cid);
    ByNone(cn, a, c, cn);
    ByServer(cn, a, c, cn.(srv := S.Next(cn.srv, S.ReportSent)), S.ReportSent);
    if cid in s.conns {
      var cn' := s.conns[cid].(srv := S.Next(s.conns[cid].srv, S.ReportSent));
      EnqueuedConn(s, cid, cn', Error, Some(s.gen));
    }
  }

  lemma BeginEvolves(s: System, c: nat)
    requires c in s.conns
    ensures c in BeginNext(s).conns && Evolves(s.conns[c], Begin, c, BeginNext(s).conns[c])
  {
    hide Evolves, Settle, InAir;
    var cn := s.conns[c];
    ByNone(cn, Begin, c, cn);
    Settled(cn, Begin, c, cn.(registered := false), InAir(s.air, c) != []);
    forall ev ensures Evolves(cn, Begin, c, cn.(dispatched := cn.dispatched + [ev])) {
      ByNone(cn, Begin, c, cn.(dispatched := cn.dispatched + [ev]));
    }
  }

  lemma AirEvolves(s: System, a: Action, c: nat)
    requires c in s.conns && (a.DeliverEvent? || a.ReceiverDropped? || a.Stall?)
    ensures c in AirNext(s, a).conns && Evolves(s.conns[c], a, c, AirNext(s, a).conns[c])
  {
    hide Evolves, Settle, C.Next, AirNext;
    var cn := s.conns[c];
    AirEnds(s, a, c);
    ByNone(cn, a, c, cn);
    Settled(cn, a, c, cn, false);
    Settled(cn, a, c, cn.(registered := false), false);
    Settled(cn, a, c, cn.(handoffs := cn.handoffs + 1), false);
    if s.air.Some? && s.air.value.Item? {
      OnlyJoinEnds(cn.cli, C.Deliver(s.air.value.ev));
      Settled(cn, a, c, cn.(cli := C.Next(cn.cli, C.Deliver(s.air.value.ev))), false);
    }
  }

  /** How a dispatch can end, for each connection. */
  lemma AirEnds(s: System, a: Action, c: nat)
    requires c in s.conns && (a.DeliverEvent? || a.ReceiverDropped? || a.Stall?)
    ensures c in AirNext(s, a).conns
    ensures var cn, cn' := s.conns[c], AirNext(s, a).conns[c];
      || cn' == cn
      || cn' == Settle(cn, false)
      || cn' == Settle(cn.(registered := false), false)
      || cn' == Settle(cn.(handoffs := cn.handoffs + 1), false)
      || (s.air.Some? && s.air.value.Item? &&
            cn' == Settle(cn.(cli := C.Next(cn.cli, C.Deliver(s.air.value.ev))), false))
  {
    hide Settle, C.Next, Landed;
    if s.air.Some? && s.air.value.Item? && s.air.value.cid in s.conns {
      var cn, ev := s.conns[s.air.value.cid], s.air.value.ev;
      LandsAs(s, cn, c);
      LandsAs(s, cn.(cli := C.Next(cn.cli, C.Deliver(ev))), c);
      LandsAs(s, cn.(handoffs := cn.handoffs + 1), c);
      LandsAs(s, cn.(registered := false), c);
    }
  }

  lemma LandsAs(s: System, cn: Conn, c: nat)
    requires s.air.Some? && s.air.value.Item? && s.air.value.cid in s.conns && c in s.conns
    ensures c in Landed(s, cn).conns
    ensures Landed(s, cn).conns[c] == if c == s.air.value.cid then Settle(cn, false) else s.conns[c]
  {
    hide Settle;
  }

  lemma HandoffEvolves(s: System, a: Action, c: nat)
    requires c in s.conns && (a.HandoffDelivered? || a.HandoffDropped? || a.HandoffTimedOut?)
    ensures c in HandoffNext(s, a).conns && Evolves(s.conns[c], a, c, HandoffNext(s, a).conns[c])
  {
    hide Evolves, Settle, C.Next, InAir, HandoffNext;
    var cn, here := s.conns[c], InAir(s.air, c) != [];
    HandoffEnds(s, a, c);
    ByNone(cn, a, c, cn);
    if cn.handoffs > 0 {
      var over := cn.(handoffs := cn.handoffs - 1);
      OnlyJoinEnds(cn.cli, C.Deliver(Close));
      Settled(cn, a, c, over, here);
      Settled(cn, a, c, over.(registered := false), here);
      Settled(cn, a, c, over.(cli := C.Next(cn.cli, C.Deliver(Close))), here);
    }
  }

  /** How a hand-off can end, for each connection. */
  lemma HandoffEnds(s: System, a: Action, c: nat)
    requires c in s.conns && (a.HandoffDelivered? || a.HandoffDropped? || a.HandoffTimedOut?)
    ensures c in HandoffNext(s, a).conns
    ensures var cn, cn', here := s.conns[c], HandoffNext(s, a).conns[c], InAir(s.air, c) != [];
      || cn' == cn
      || (cn.handoffs > 0 &&
            (var over := cn.(handoffs := cn.handoffs - 1);
             || cn' == Settle(over, here)
             || cn' == Settle(over.(registered := false), here)
             || cn' == Settle(over.(cli := C.Next(cn.cli, C.Deliver(Close))), here)))
  {
    hide Settle, C.Next, InAir;
  }

  lemma PostMoves(cn: Conn, a: Action, cid: nat)
    requires IsPosting(a) && a.cid == cid
    ensures Evolves(cn, a, cid, PostNext(cn, a))
  {
    hide C.Next, S.Next, S.Draining, PostNext, ServerMoves;
    PostRelays(cn, a);
    PostServerMoves(cn, a, cid);
    PostResends(cn, a, cid);
  }

  lemma PostResends(cn: Conn, a: Action, cid: nat)
    requires IsPosting(a) && a.cid == cid
    ensures var cn' := PostNext(cn, a);
      (cn.astray ==> cn'.astray) && (cn'.resent ==> cn.resent || Resends(cn, a, cid)) && Forgets(cn, cn')
  {
    hide C.Next, S.Next, S.Draining;
    OnlyJoinEnds(cn.cli, C.PostOk);
    OnlyJoinEnds(cn.cli, C.PostError);
  }

  lemma PostServerMoves(cn: Conn, a: Action, cid: nat)
    requires IsPosting(a) && a.cid == cid
    ensures ServerMoves(cn, a, cid, PostNext(cn, a).srv)
  {
    hide C.Next, S.Next, Duplicates;
    var srv := PostNext(cn, a).srv;
    if srv != cn.srv {
      var sa := if a.PostArrives? then S.HandleData(cn.cli.read.data)
                else if a.PostHandled? then (if cn.srv.up.write.WriteDone? then S.ReceiverGone else S.Enqueue)
                else if a.PostFailed? then S.Cancel else if a.CloseArrives? then S.HandleClose else S.HandleAbort;
      assert srv == S.Next(cn.srv, sa);
      hide PostNext;
      assert Permits(cn, a, cid, sa);
    }
  }

  lemma PostEvolves(s: System, a: Action, c: nat)
    requires c in s.conns && IsPosting(a)
    ensures c in Next(s, a).conns && Evolves(s.conns[c], a, c, Next(s, a).conns[c])
  {
    hide Evolves, Next, PostNext;
    NextPosts(s, a);
    ByNone(s.conns[c], a, c, s.conns[c]);
    if a.cid in s.conns {
      PostMoves(s.conns[a.cid], a, a.cid);
    }
  }

  lemma NextPosts(s: System, a: Action)
    requires IsPosting(a)
    ensures Next(s, a) == if a.cid in s.conns then Put(s, a.cid, PostNext(s.conns[a.cid], a)) else s
  {
    hide PostNext, SendNext, BeginNext, AirNext, HandoffNext, StaleAll, Killed, Harmed;
  }

  lemma RestartEvolves(s: System, c: nat)
    requires c in s.conns
    ensures c in Next(s, ServerRestart).conns && Next(s, ServerRestart).conns[c] == Killed(s.conns[c])
    ensures Evolves(s.conns[c], ServerRestart, c, Killed(s.conns[c]))
  {
    hide Evolves, S.Next, SendNext, BeginNext, AirNext, HandoffNext, PostNext, StaleAll, Harmed;
    var cn := s.conns[c];
    ByNone(cn, ServerRestart, c, cn);
    if !cn.srv.killed {
      ByServer(cn, ServerRestart, c, Killed(cn), S.Kill);
    }
  }

  lemma RotateEvolves(s: System, c: nat)
    requires c in s.conns
    ensures c in Next(s, Rotate).conns && Evolves(s.conns[c], Rotate, c, Next(s, Rotate).conns[c])
  {
    hide Evolves, Settle, InAir, SendNext, BeginNext, AirNext, HandoffNext, PostNext, Killed, Harmed;
    Settled(s.conns[c], Rotate, c, s.conns[c].(registered := false, stale := true), InAir(s.air, c) != []);
  }

  /** The actions that leave every connection as it was, or make a new one. */
  lemma IdleEvolves(s: System, a: Action, c: nat)
    requires c in s.conns
    requires a.Open? || a.CloneSender? || a.StreamDropped? || a.StreamOpened? || a.Superseded?
    ensures c in Next(s, a).conns && Evolves(s.conns[c], a, c, Next(s, a).conns[c])
  {
    hide Evolves, SendNext, BeginNext, AirNext, HandoffNext, PostNext, StaleAll, Killed, Harmed;
    var cn := s.conns[c];
    ByNone(cn, a, c, cn);
    ByNone(cn, a, c, cn.(clone := Some(s.gen)));
  }

  lemma ConnEvolves(s: System, a: Action, c: nat)
    requires c in s.conns
    ensures c in Next(s, a).conns && Evolves(s.conns[c], a, c, Next(s, a).conns[c])
  {
    hide Evolves, SendNext, BeginNext, AirNext, HandoffNext, PostNext, StaleAll, Killed, Harmed;
    if a.Begin? {
      BeginEvolves(s, c);
    } else if a.DeliverEvent? || a.ReceiverDropped? || a.Stall? {
      AirEvolves(s, a, c);
    } else if a.HandoffDelivered? || a.HandoffDropped? || a.HandoffTimedOut? {
      HandoffEvolves(s, a, c);
    } else if a.Send? {
      ByNone(s.conns[c], a, c, s.conns[c]);
      if a.cid in s.conns {
        SendEvolves(s, a.cid, a, c);
      }
    } else {
      hide Next;
      OtherEvolves(s, a, c);
    }
  }

  lemma OtherEvolves(s: System, a: Action, c: nat)
    requires c in s.conns && !a.Begin? && !a.DeliverEvent? && !a.ReceiverDropped? && !a.Stall? && !a.Send?
    requires !a.HandoffDelivered? && !a.HandoffDropped? && !a.HandoffTimedOut?
    ensures c in Next(s, a).conns && Evolves(s.conns[c], a, c, Next(s, a).conns[c])
  {
    hide Evolves, Next, Killed;
    match a
    case Client(cid, ca) => ClientEvolves(s, cid, ca, c);
    case Server(cid, sa) => ServerEvolves(s, cid, sa, c);
    case SendReport(cid) => ReportEvolves(s, cid, c);
    case ServerRestart => RestartEvolves(s, c);
    case Rotate => RotateEvolves(s, c);
    case _ => if IsPosting(a) { PostEvolves(s, a, c); } else { IdleEvolves(s, a, c); }
  }

  // ---------------------------------------------------------------- single steps

  lemma NobodyAppears(s: System, a: Action, cid: nat)
    requires Inv(s) && cid !in s.conns && !(a.Open? && a.cid == cid)
    ensures cid !in Next(s, a).conns
  {
    hide Inv, SendNext, BeginNext, AirNext, HandoffNext, PostNext, Enqueued, Harmed, Killed;
    if a.Begin? {
      BeginNames(s, cid);
    } else if a.DeliverEvent? || a.ReceiverDropped? || a.Stall? {
      AirNames(s, a, cid);
    } else if a.HandoffDelivered? || a.HandoffDropped? || a.HandoffTimedOut? {
      HandoffNames(s, a, cid);
    } else if a.Send? && a.cid in s.conns {
      SendNames(s, a.cid, cid);
    } else if a.SendReport? && a.cid in s.conns {
      EnqueuedConn(s, a.cid, s.conns[a.cid].(srv := S.Next(s.conns[a.cid].srv, S.ReportSent)), Error, Some(s.gen));
    }
  }

  lemma BeginNames(s: System, cid: nat)
    requires cid !in s.conns
    ensures cid !in BeginNext(s).conns
  {
    hide Settle, InAir;
  }

  lemma AirNames(s: System, a: Action, cid: nat)
    requires cid !in s.conns && (a.DeliverEvent? || a.ReceiverDropped? || a.Stall?)
    ensures cid !in AirNext(s, a).conns
  {
    hide Settle, C.Next;
  }

  lemma HandoffNames(s: System, a: Action, cid: nat)
    requires cid !in s.conns && (a.HandoffDelivered? || a.HandoffDropped? || a.HandoffTimedOut?)
    ensures cid !in HandoffNext(s, a).conns
  {
    hide Settle, C.Next, InAir;
  }

  lemma SendNames(s: System, c: nat, cid: nat)
    requires c in s.conns && cid !in s.conns
    ensures cid !in SendNext(s, c).conns
  {
    hide S.Next, Enqueued;
    var cn := s.conns[c];
    if cn.srv.down.read.SendingChunk? {
      EnqueuedConn(s, c, cn.(srv := S.Next(cn.srv, S.ChunkSent), clone := None), Data(cn.srv.down.read.chunk),
        cn.clone);
    } else if cn.srv.down.read.SendingEnd? {
      EnqueuedConn(s, c, cn.(srv := S.Next(cn.srv, S.EndSent), clone := None), cn.srv.down.read.end, cn.clone);
    }
  }

  /** A stream that nothing is queued on. */
  ghost predicate Fresh(s: System) {
    s.live && s.gen == s.reading && s.queue == [] && s.air.None?
  }

  lemma BeginIs(s: System)
    ensures Next(s, Begin) == BeginNext(s)
  {
    hide BeginNext;
  }

  lemma NextOpens(s: System, cid: nat)
    requires cid !in s.conns
    ensures Next(s, Open(cid)) == Put(s, cid, OPENED)
  {
    hide SendNext, BeginNext, AirNext, HandoffNext, PostNext, StaleAll, Killed, Harmed;
  }

  /** The steps by which the server's tasks reach for the stream. */
  lemma NextReaches(s: System, c: nat)
    requires c in s.conns
    ensures Next(s, Send(c)) == SendNext(s, c)
    ensures Next(s, SendReport(c)) ==
      if s.conns[c].srv.up.write.ReportingWrite?
      then Enqueued(s, c, s.conns[c].(srv := S.Next(s.conns[c].srv, S.ReportSent)), Error, Some(s.gen)) else s
  {
    hide S.Next, SendNext, Enqueued, BeginNext, AirNext, HandoffNext, PostNext, StaleAll, Killed, Harmed;
  }

  lemma NextTakes(s: System, cid: nat)
    requires cid in s.conns
    ensures Next(s, Client(cid, C.TakeEvent(None))) ==
      Put(s, cid, s.conns[cid].(cli := C.Next(s.conns[cid].cli, C.TakeEvent(None))))
  {
    hide C.Next, SendNext, BeginNext, AirNext, HandoffNext, PostNext, StaleAll, Killed, Harmed;
  }

  lemma RoomIsTaken(c: S.Conn)
    requires c.up.handler.Some? && c.up.write.Waiting? && c.up.queue == []
    ensures var u, d := c.up, c.up.handler.value;
      S.Next(c, S.Enqueue).up == u.(handler := None, queue := u.queue + [d], offered := u.offered + d)
  {
  }

  /** The connection's own invariants. */
  lemma RelayIsSound(s: System, cid: nat)
    requires Inv(s) && cid in s.conns
    ensures var cn := s.conns[cid];
      && C.Inv(cn.cli) && S.Inv(cn.srv) && Posted(cn)
      && (cn.cli.open <==> cn.registered || cn.handoffs > 0 || InAir(s.air, cid) != [])
      && (cn.registered ==> !cn.stale)
  {
    hide C.Inv, S.Inv, Posted, Carried;
  }

  // -------------------------------------------------------- runs of one server relay

  lemma {:induction false} RunAppend(s: System, acts: seq<Action>, rest: seq<Action>)
    ensures Run(s, acts + rest) == Run(Run(s, acts), rest)
    decreases |acts|
  {
    hide Next;
    if acts == [] {
      assert acts + rest == rest;
    } else {
      RunAppend(Next(s, acts[0]), acts[1..], rest);
      assert (acts + rest)[0] == acts[0] && (acts + rest)[1..] == acts[1..] + rest;
    }
  }

  lemma RunOne(s: System, a: Action)
    ensures Run(s, [a]) == Next(s, a)
  {
    hide Next;
    assert [a][1..] == [] && Run(Next(s, a), []) == Next(s, a);
  }

  function OfServer(cid: nat, acts: seq<S.Action>): seq<Action> {
    if acts == [] then [] else [Server(cid, acts[0])] + OfServer(cid, acts[1..])
  }

  ghost predicate AllLocal(acts: seq<S.Action>) {
    forall i :: 0 <= i < |acts| ==> LocalToServer(acts[i])
  }

  lemma {:induction false} ServerRun(s: System, cid: nat, acts: seq<S.Action>)
    requires cid in s.conns && AllLocal(acts)
    ensures Run(s, OfServer(cid, acts)) == Put(s, cid, s.conns[cid].(srv := S.Run(s.conns[cid].srv, acts)))
    decreases |acts|
  {
    hide Next, S.Next, Put;
    var cn := s.conns[cid];
    PutTwice(s, cid, cn, cn);
    if acts != [] {
      var srv := S.Next(cn.srv, acts[0]);
      var s' := Put(s, cid, cn.(srv := srv));
      NextServer(s, cid, acts[0]);
      PutTwice(s, cid, cn.(srv := srv), cn.(srv := S.Run(srv, acts[1..])));
      ServerRun(s', cid, acts[1..]);
      var rest := OfServer(cid, acts[1..]);
      assert ([Server(cid, acts[0])] + rest)[1..] == rest;
    }
  }

  lemma PutTwice(s: System, cid: nat, cn: Conn, cn': Conn)
    requires cid in s.conns
    ensures Put(Put(s, cid, cn), cid, cn') == Put(s, cid, cn')
    ensures cid in Put(s, cid, cn).conns && Put(s, cid, cn).conns[cid] == cn
    ensures Put(s, cid, s.conns[cid]) == s
  {
    assert s.conns[cid := cn][cid := cn'] == s.conns[cid := cn'];
    assert s.conns[cid := s.conns[cid]] == s.conns;
  }

  ghost predicate OnlyWrites(acts: seq<S.Action>) {
    forall i :: 0 <= i < |acts| ==> acts[i] == S.TakeWrite || acts[i] == S.TargetWrote(None)
  }

  lemma WriteOnce(c: S.Conn) returns (a: S.Action)
    requires S.Draining(c.up) && !(c.up.write.Waiting? && c.up.queue == [])
    ensures a == S.TakeWrite || a == S.TargetWrote(None)
    ensures var c' := S.Next(c, a);
      && S.Draining(c'.up) && S.Pipe(c'.up) == S.Pipe(c.up)
      && c' == c.(up := c.up.(write := c'.up.write, queue := c'.up.queue, targetWritten := c'.up.targetWritten))
      && |c'.up.queue| <= |c.up.queue|
      && (|c'.up.queue| < |c.up.queue| || (c.up.write.WritingTarget? && c'.up.write.Waiting?))
  {
    a := if c.up.write.Waiting? then S.TakeWrite else S.TargetWrote(None);
    assert S.Pipe(S.Next(c, a).up) == S.Pipe(c.up);
  }

  /** The connection once its write task has written all it had. */
  function Drained(c: S.Conn): S.Conn {
    c.(up := c.up.(write := S.Waiting, queue := [], targetWritten := S.Pipe(c.up)))
  }

  /** The target takes everything. */
  lemma {:induction false} Drain(c: S.Conn) returns (acts: seq<S.Action>)
    requires S.Draining(c.up)
    ensures OnlyWrites(acts) && S.Run(c, acts) == Drained(c)
    decreases |c.up.queue|, if c.up.write.WritingTarget? then 1 else 0
  {
    if c.up.write.Waiting? && c.up.queue == [] {
      acts := [];
      assert S.Pipe(c.up) == c.up.targetWritten;
    } else {
      hide S.Next, S.Pipe;
      var a := WriteOnce(c);
      var rest := Drain(S.Next(c, a));
      acts := [a] + rest;
      assert acts[1..] == rest;
    }
  }
}
