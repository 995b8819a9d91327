/** Connections do not disturb each other: isolation of a stalled dispatch, and what a
    dispatched Reset does to each of them. */
module TunnelIsolation {
  import opened Prelude
  import opened Events
  import opened Tunnel
  import opened TunnelInvariant
  import opened TunnelSteps
  import C = ClientRelay
  import S = ServerRelay

  /** Whatever its consumer does, the dispatch in the air can land. */
  lemma DispatchCanLand(s: System)
    requires Inv(s) && s.air.Some?
    ensures exists a: Action :: (a.DeliverEvent? || a.ReceiverDropped? || a.Stall?) && Next(s, a).air.None?
  {
    hide C.Next, ConnInv, Settle;
    var cn := s.conns[s.air.value.cid];
    var a := if cn.cli.writer.exited then ReceiverDropped
             else if C.QueueLength(cn.cli) < C.CONN_CHANNEL_CAPACITY then DeliverEvent else Stall;
    assert Next(s, a) == AirNext(s, a);
    assert Next(s, a).air.None?;
  }

  /** It touches no other connection, and a stall costs a `Data` its own
      registration and a `Close` nothing. */
  lemma DispatchIsIsolated(s: System, a: Action)
    requires Inv(s) && s.air.Some? && (a.DeliverEvent? || a.ReceiverDropped? || a.Stall?)
    ensures Isolated(s, Next(s, a), a)
  {
    hide Next, ConnInv, AirNext, Isolated;
    NextIsAir(s, a);
    AirIsolated(s, a);
  }

  ghost predicate Isolated(s: System, s': System, a: Action)
    requires s.air.Some? && s.air.value.Item?
  {
    var cid := s.air.value.cid;
    && s'.queue == s.queue && s'.lost == s.lost && s'.conns.Keys == s.conns.Keys && cid in s.conns
    && (forall c :: c in s.conns && c != cid ==> s'.conns[c] == s.conns[c])
    && (s'.conns[cid].registered != s.conns[cid].registered ==> a.Stall? && !s.air.value.ev.Close?)
  }

  lemma LandedIsolated(s: System, cn: Conn, a: Action)
    requires s.air.Some? && s.air.value.Item? && s.air.value.cid in s.conns
    requires cn.registered != s.conns[s.air.value.cid].registered ==> a.Stall? && !s.air.value.ev.Close?
    ensures Isolated(s, Landed(s, cn), a)
  {
    hide Settle;
    SettleRegistered(cn, false);
    var cid := s.air.value.cid;
    assert s.conns[cid := Settle(cn, false)].Keys == s.conns.Keys;
  }

  lemma AirIsolated(s: System, a: Action)
    requires s.air.Some? && s.air.value.Item? && s.air.value.cid in s.conns
    requires a.DeliverEvent? || a.ReceiverDropped? || a.Stall?
    ensures Isolated(s, AirNext(s, a), a)
  {
    hide Landed, C.Next, Isolated;
    var cn, ev := s.conns[s.air.value.cid], s.air.value.ev;
    assert Isolated(s, s, a) by { StaysIsolated(s, a); }
    LandedIsolated(s, cn, a);
    LandedIsolated(s, cn.(cli := C.Next(cn.cli, C.Deliver(ev))), a);
    LandedIsolated(s, cn.(handoffs := cn.handoffs + 1), a);
    if a.Stall? && !ev.Close? {
      LandedIsolated(s, cn.(registered := false), a);
    }
  }

  lemma StaysIsolated(s: System, a: Action)
    requires s.air.Some? && s.air.value.Item? && s.air.value.cid in s.conns
    ensures Isolated(s, s, a)
  {
  }

  lemma NextIsAir(s: System, a: Action)
    requires a.DeliverEvent? || a.ReceiverDropped? || a.Stall?
    ensures Next(s, a) == AirNext(s, a)
  {
    hide AirNext;
  }

  lemma SettleRegistered(cn: Conn, inAir: bool)
    ensures Settle(cn, inAir).registered == cn.registered
  {
  }

  // ----------------------------------------------------------- a superseded stream

  /** The session's channel is not the one whose stream the client reads. */
  predicate Deaf(s: System) {
    s.reading < s.gen
  }

  lemma GenStep(s: System, a: Action)
    requires s.reading <= s.gen
    ensures Next(s, a).reading <= Next(s, a).gen
    ensures Deaf(s) && !a.StreamOpened? ==> Deaf(Next(s, a))
    ensures a.Superseded? ==> Deaf(Next(s, a))
  {
    hide SendNext, BeginNext, AirNext, HandoffNext, PostNext, StaleAll, Killed, Harmed, Enqueued;
    if a.Send? && a.cid in s.conns {
      SendGen(s, a.cid);
    } else if a.SendReport? && a.cid in s.conns {
      EnqueuedGen(s, a.cid, s.conns[a.cid].(srv := S.Next(s.conns[a.cid].srv, S.ReportSent)), Error, Some(s.gen));
    } else if a.Begin? {
      BeginGen(s);
    } else if a.DeliverEvent? || a.ReceiverDropped? || a.Stall? {
      AirGen(s, a);
    } else if a.HandoffDelivered? || a.HandoffDropped? || a.HandoffTimedOut? {
      HandoffGen(s, a);
    }
  }

  lemma EnqueuedGen(s: System, cid: nat, cn: Conn, ev: TunnelEvent, into: Option<nat>)
    ensures var s' := Enqueued(s, cid, cn, ev, into); s'.reading == s.reading && s'.gen == s.gen
    ensures !Reaches(s, into) ==> Enqueued(s, cid, cn, ev, into).queue == s.queue
  {
    hide Harms;
  }

  lemma SendGen(s: System, cid: nat)
    requires cid in s.conns
    ensures SendNext(s, cid).reading == s.reading && SendNext(s, cid).gen == s.gen
    ensures !Reaches(s, s.conns[cid].clone) ==> SendNext(s, cid).queue == s.queue
  {
    hide S.Next, Enqueued, Reaches;
    var cn := s.conns[cid];
    if cn.srv.down.read.SendingChunk? {
      EnqueuedGen(s, cid, cn.(srv := S.Next(cn.srv, S.ChunkSent), clone := None), Data(cn.srv.down.read.chunk),
        cn.clone);
    } else if cn.srv.down.read.SendingEnd? {
      EnqueuedGen(s, cid, cn.(srv := S.Next(cn.srv, S.EndSent), clone := None), cn.srv.down.read.end, cn.clone);
    }
  }

  lemma BeginGen(s: System)
    ensures BeginNext(s).reading == s.reading && BeginNext(s).gen == s.gen
  {
    hide Settle, InAir;
  }

  lemma AirGen(s: System, a: Action)
    requires a.DeliverEvent? || a.ReceiverDropped? || a.Stall?
    ensures AirNext(s, a).reading == s.reading && AirNext(s, a).gen == s.gen
  {
    hide Settle, C.Next;
  }

  lemma HandoffGen(s: System, a: Action)
    requires a.HandoffDelivered? || a.HandoffDropped? || a.HandoffTimedOut?
    ensures HandoffNext(s, a).reading == s.reading && HandoffNext(s, a).gen == s.gen
  {
    hide Settle, C.Next, InAir;
  }

  lemma {:induction false} GenRun(s: System, acts: seq<Action>)
    requires s.reading <= s.gen
    ensures Run(s, acts).reading <= Run(s, acts).gen
    ensures Deaf(s) && (forall i :: 0 <= i < |acts| ==> !acts[i].StreamOpened?) ==> Deaf(Run(s, acts))
    decreases |acts|
  {
    hide Next;
    if acts != [] {
      GenStep(s, acts[0]);
      GenRun(Next(s, acts[0]), acts[1..]);
    }
  }

  /** Once the server has answered a GET that the client gave up on, the client hears
      nothing new until it opens another stream: in every run, an attempt that
      captures the session's channel from then on enqueues where nobody reads. */
  lemma SupersededStreamIsDeaf(before: seq<Action>, after: seq<Action>, cid: nat)
    requires forall i :: 0 <= i < |after| ==> !after[i].StreamOpened?
    requires cid in Run(Next(Run(INIT, before), Superseded), after).conns
    ensures var s := Run(Next(Run(INIT, before), Superseded), after);
      && Next(s, SendReport(cid)).queue == s.queue
      && (!s.conns[cid].srv.killed ==> Next(Next(s, CloneSender(cid)), Send(cid)).queue == s.queue)
  {
    hide Next;
    GenRun(INIT, before);
    var s0 := Run(INIT, before);
    GenStep(s0, Superseded);
    GenRun(Next(s0, Superseded), after);
    var s := Run(Next(s0, Superseded), after);
    NextClone(s, cid);
    NextReaches(s, cid);
    NextReaches(Next(s, CloneSender(cid)), cid);
    hide SendNext, Enqueued, S.Next;
    EnqueuedGen(s, cid, s.conns[cid].(srv := S.Next(s.conns[cid].srv, S.ReportSent)), Error, Some(s.gen));
    SendGen(Next(s, CloneSender(cid)), cid);
  }

  // ------------------------------------------------------------------ an ended relay

  lemma {:induction false} EndedStays(s: System, acts: seq<Action>, cid: nat)
    requires Inv(s) && (cid in s.conns && !s.conns[cid].cli.socket.Live? ==> !s.conns[cid].registered)
    ensures var s' := Run(s, acts);
      Inv(s') && (cid in s'.conns && !s'.conns[cid].cli.socket.Live? ==> !s'.conns[cid].registered)
    decreases |acts|
  {
    hide Inv, Next;
    if acts != [] {
      NextKeepsInv(s, acts[0]);
      if cid in s.conns {
        ConnEvolves(s, acts[0], cid);
      } else if acts[0] == Open(cid) {
        NextOpens(s, cid);
      } else {
        NobodyAppears(s, acts[0], cid);
      }
      EndedStays(Next(s, acts[0]), acts[1..], cid);
    }
  }

  /** In every run, a relay whose socket has ended is out of the dispatch table: once no
      event for it is in the air or handed off its queue is closed, and whatever else
      comes for it falls. */
  lemma EndedRelayIsForgotten(acts: seq<Action>, cid: nat, ev: TunnelEvent)
    requires var s := Run(INIT, acts); cid in s.conns && !s.conns[cid].cli.socket.Live?
    ensures var s := Run(INIT, acts);
      && !s.conns[cid].registered
      && (s.conns[cid].handoffs == 0 && InAir(s.air, cid) == [] ==> !s.conns[cid].cli.open)
      && (s.air.None? && s.queue != [] && s.queue[0] == Item(cid, ev) ==> Next(s, Begin) == s.(queue := s.queue[1..]))
  {
    hide Inv, Next, InAir;
    InitInv();
    EndedStays(INIT, acts, cid);
    RelayIsSound(Run(INIT, acts), cid);
    BeginIs(Run(INIT, acts));
  }

  /** A restarted server's first message ends every relay of the old one: each
      can move or has a handed-off `Close` to take. */
  lemma ResetReleasesEveryRelay(s: System, cid: nat)
    requires Inv(s) && s.air.None? && s.queue != [] && s.queue[0].ResetItem? && cid in s.conns
    ensures var s' := BeginNext(s);
      cid in s'.conns && (s'.conns[cid].cli.socket.Live? ==> C.CanMove(s'.conns[cid].cli) || s'.conns[cid].handoffs > 0)
  {
    BeginKept(s);
    ResetClears(s, cid);
    hide BeginNext;
    if BeginNext(s).conns[cid].cli.socket.Live? {
      ClearedCanMove(BeginNext(s), cid);
    }
  }

  lemma ClearedCanMove(s: System, cid: nat)
    requires Inv(s) && s.air.None? && cid in s.conns && !s.conns[cid].registered && s.conns[cid].cli.socket.Live?
    ensures C.CanMove(s.conns[cid].cli) || s.conns[cid].handoffs > 0
  {
    hide S.Inv, Posted, Carried;
    assert InAir(s.air, cid) == [];
    C.ParkedIsHalfOpen(s.conns[cid].cli);
  }

  lemma ResetClears(s: System, cid: nat)
    requires s.air.None? && s.queue != [] && s.queue[0].ResetItem? && cid in s.conns
    ensures var s' := BeginNext(s);
      s'.air.None? && cid in s'.conns && !s'.conns[cid].registered
  {
    hide C.Next;
  }
}
