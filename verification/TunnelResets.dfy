/** What becomes of the relays of a server that died: the Reset that releases them,
    and exactly when it is lost. */
module TunnelResets {
  import opened Prelude
  import opened Events
  import opened Tunnel
  import opened TunnelInvariant
  import C = ClientRelay
  import S = ServerRelay

  /** A connection of a server that has died can rely on one of these: the next
      stream will find the session unknown, or its Reset is on the way. */
  ghost predicate ResetAhead(s: System) {
    !s.known || ResetItem in s.queue
  }

  predicate Orphaned(cn: Conn) {
    cn.registered && cn.srv.killed
  }

  ghost predicate ResetInv(s: System) {
    && (!s.live ==> s.queue == [])
    && (s.resetLost ==> !ResetAhead(s))
    && forall c :: c in s.conns && Orphaned(s.conns[c]) && !s.resetLost ==> ResetAhead(s)
  }

  /** The actions that can create an orphan, announce a Reset or consume one. */
  predicate MovesReset(a: Action) {
    a.Begin? || a.StreamDropped? || a.StreamOpened? || a.Superseded? || a.ServerRestart? || a.Rotate?
  }

  /** `s'` has the same Resets as `s` and no orphan that `s` had not. */
  ghost predicate SameResets(s: System, s': System) {
    && s'.known == s.known && s'.resetLost == s.resetLost && s'.live == s.live
    && (ResetItem in s'.queue <==> ResetItem in s.queue) && (!s.live ==> s'.queue == s.queue)
    && forall c :: c in s'.conns && Orphaned(s'.conns[c]) ==> c in s.conns && Orphaned(s.conns[c])
  }

  lemma PutResets(s: System, cid: nat, cn: Conn)
    requires cid in s.conns && (Orphaned(cn) ==> Orphaned(s.conns[cid]))
    ensures SameResets(s, Put(s, cid, cn)) && SameResets(s, Put(s, cid, cn).(air := None))
  {
  }

  lemma SettleOrphans(cn: Conn, inAir: bool)
    ensures Orphaned(Settle(cn, inAir)) <==> Orphaned(cn)
  {
  }

  lemma OnlyKillKills(c: S.Conn, sa: S.Action)
    requires !sa.Kill?
    ensures S.Next(c, sa).killed == c.killed
  {
  }

  lemma EnqueuedResets(s: System, cid: nat, cn: Conn, ev: TunnelEvent, into: Option<nat>)
    requires cid in s.conns && (Orphaned(cn) ==> Orphaned(s.conns[cid]))
    ensures SameResets(s, Enqueued(s, cid, cn, ev, into))
  {
  }

  lemma SendResets(s: System, cid: nat)
    requires cid in s.conns
    ensures SameResets(s, SendNext(s, cid))
  {
    hide S.Next, Enqueued, SameResets;
    var cn := s.conns[cid];
    OnlyKillKills(cn.srv, S.ChunkSent);
    OnlyKillKills(cn.srv, S.EndSent);
    SameResetsRefl(s);
    if cn.srv.down.read.SendingChunk? {
      EnqueuedResets(s, cid, cn.(srv := S.Next(cn.srv, S.ChunkSent), clone := None), Data(cn.srv.down.read.chunk),
        cn.clone);
    } else if cn.srv.down.read.SendingEnd? {
      EnqueuedResets(s, cid, cn.(srv := S.Next(cn.srv, S.EndSent), clone := None), cn.srv.down.read.end, cn.clone);
    }
  }

  lemma ReportResets(s: System, cid: nat)
    requires cid in s.conns
    ensures SameResets(s, Next(s, SendReport(cid)))
  {
    hide S.Next, Enqueued, SameResets, BeginNext, AirNext, HandoffNext, PostNext, StaleAll, Killed, Harmed;
    var cn := s.conns[cid];
    SameResetsRefl(s);
    OnlyKillKills(cn.srv, S.ReportSent);
    EnqueuedResets(s, cid, cn.(srv := S.Next(cn.srv, S.ReportSent)), Error, Some(s.gen));
  }

  lemma CloneResets(s: System, cid: nat)
    requires cid in s.conns
    ensures SameResets(s, Next(s, CloneSender(cid)))
  {
    hide SameResets, BeginNext, AirNext, HandoffNext, PostNext, StaleAll, Killed, Harmed;
    SameResetsRefl(s);
    PutResets(s, cid, s.conns[cid].(clone := Some(s.gen)));
  }

  lemma ClientResets(s: System, cid: nat, ca: C.Action)
    requires cid in s.conns
    ensures SameResets(s, Next(s, Client(cid, ca)))
  {
    hide C.Next, SameResets, Settle, BeginNext, AirNext, HandoffNext, PostNext, StaleAll, Killed, Harmed;
    SameResetsRefl(s);
    var cn := s.conns[cid].(cli := C.Next(s.conns[cid].cli, ca));
    var inAir := InAir(s.air, cid) != [];
    SettleOrphans(cn.(registered := false), inAir);
    PutResets(s, cid, Settle(cn.(registered := false), inAir));
    PutResets(s, cid, cn);
  }

  lemma ServerResets(s: System, cid: nat, sa: S.Action)
    requires cid in s.conns
    ensures SameResets(s, Next(s, Server(cid, sa)))
  {
    hide S.Next, SameResets, BeginNext, AirNext, HandoffNext, PostNext, StaleAll, Killed, Harmed;
    SameResetsRefl(s);
    var cn := s.conns[cid];
    if LocalToServer(sa) {
      OnlyKillKills(cn.srv, sa);
      PutResets(s, cid, cn.(srv := S.Next(cn.srv, sa)));
    }
  }

  lemma AirResets(s: System, a: Action)
    requires a.DeliverEvent? || a.ReceiverDropped? || a.Stall?
    ensures SameResets(s, AirNext(s, a))
  {
    hide C.Next, SameResets, Settle;
    if s.air.Some? && s.air.value.Item? && s.air.value.cid in s.conns {
      var cid, ev := s.air.value.cid, s.air.value.ev;
      var cn := s.conns[cid];
      PutResets(s, cid, cn);
      assert Put(s, cid, cn) == s;
      var next := [cn, cn.(cli := C.Next(cn.cli, C.Deliver(ev))), cn.(handoffs := cn.handoffs + 1),
        cn.(registered := false)];
      forall i | 0 <= i < 4 ensures SameResets(s, Landed(s, next[i])) {
        SettleOrphans(next[i], false);
        PutResets(s, cid, Settle(next[i], false));
      }
      assert next[0] == cn && next[1] == cn.(cli := C.Next(cn.cli, C.Deliver(ev)));
      assert next[2] == cn.(handoffs := cn.handoffs + 1) && next[3] == cn.(registered := false);
    } else {
      SameResetsRefl(s);
    }
  }

  lemma SameResetsRefl(s: System)
    ensures SameResets(s, s)
  {
  }

  lemma HandoffResets(s: System, a: Action)
    requires a.HandoffDelivered? || a.HandoffDropped? || a.HandoffTimedOut?
    ensures SameResets(s, HandoffNext(s, a))
  {
    hide C.Next, SameResets, Settle;
    SameResetsRefl(s);
    if a.cid in s.conns && s.conns[a.cid].handoffs > 0 {
      var cn, here := s.conns[a.cid], InAir(s.air, a.cid) != [];
      var over := cn.(handoffs := cn.handoffs - 1);
      var landed := over.(cli := C.Next(cn.cli, C.Deliver(Close)));
      SettleOrphans(over, here);
      SettleOrphans(landed, here);
      SettleOrphans(over.(registered := false), here);
      PutResets(s, a.cid, Settle(over, here));
      PutResets(s, a.cid, Settle(landed, here));
      PutResets(s, a.cid, Settle(over.(registered := false), here));
    }
  }

  lemma PostResets(s: System, cid: nat, a: Action)
    requires cid in s.conns
    ensures SameResets(s, Put(s, cid, PostNext(s.conns[cid], a)))
  {
    hide PostNext, S.Next, SameResets;
    var cn := s.conns[cid];
    PostRelays(cn, a);
    if PostNext(cn, a).srv != cn.srv {
      var sa :| IsHandlerAction(sa) && PostNext(cn, a).srv == S.Next(cn.srv, sa);
      OnlyKillKills(cn.srv, sa);
    }
    PutResets(s, cid, PostNext(cn, a));
  }

  lemma NoNewOrphans(s: System, a: Action)
    requires !MovesReset(a)
    ensures SameResets(s, Next(s, a))
  {
    hide SameResets, SendNext, AirNext, HandoffNext, PostNext;
    SameResetsRefl(s);
    match a
    case Open(c) => OpenResets(s, c);
    case Client(c, ca) => if c in s.conns { ClientResets(s, c, ca); }
    case Server(c, sa) => if c in s.conns { ServerResets(s, c, sa); }
    case CloneSender(c) => if c in s.conns { CloneResets(s, c); }
    case Send(c) => if c in s.conns { SendResets(s, c); }
    case SendReport(c) => if c in s.conns { ReportResets(s, c); }
    case DeliverEvent => AirResets(s, a);
    case ReceiverDropped => AirResets(s, a);
    case Stall => AirResets(s, a);
    case HandoffDelivered(_) => HandoffResets(s, a);
    case HandoffDropped(_) => HandoffResets(s, a);
    case HandoffTimedOut(_) => HandoffResets(s, a);
    case PostArrives(c) => if c in s.conns { PostResets(s, c, a); }
    case PostAstray(c) => if c in s.conns { PostResets(s, c, a); }
    case PostHandled(c) => if c in s.conns { PostResets(s, c, a); }
    case PostAcked(c) => if c in s.conns { PostResets(s, c, a); }
    case PostFailed(c) => if c in s.conns { PostResets(s, c, a); }
    case CloseArrives(c) => if c in s.conns { PostResets(s, c, a); }
    case AbortArrives(c) => if c in s.conns { PostResets(s, c, a); }
  }

  lemma OpenResets(s: System, c: nat)
    ensures SameResets(s, Next(s, Open(c)))
  {
  }

  lemma ResetMoves(s: System, a: Action)
    requires ResetInv(s) && MovesReset(a)
    ensures ResetInv(Next(s, a))
  {
    hide C.Next, S.Next, InAir;
    if a.Begin? && s.queue != [] && s.air.None? && !s.queue[0].ResetItem? {
      assert s.queue == [s.queue[0]] + s.queue[1..];
    }
  }

  lemma {:induction false} RunKeepsResets(s: System, acts: seq<Action>)
    requires ResetInv(s)
    ensures ResetInv(Run(s, acts))
    decreases |acts|
  {
    hide Next;
    if acts != [] {
      if MovesReset(acts[0]) {
        ResetMoves(s, acts[0]);
      } else {
        NoNewOrphans(s, acts[0]);
      }
      RunKeepsResets(Next(s, acts[0]), acts[1..]);
    }
  }

  /** An orphan is left without a Reset to come exactly when the session's only
      Reset went unread. */
  lemma ResetIsLostExactly(acts: seq<Action>, cid: nat)
    requires var s := Run(INIT, acts); cid in s.conns && Orphaned(s.conns[cid])
    ensures var s := Run(INIT, acts); ResetAhead(s) <==> !s.resetLost
  {
    hide Next;
    RunKeepsResets(INIT, acts);
  }
}
