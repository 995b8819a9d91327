/** Who waits in vain: exactly which steps take away the last thing that could tell
    an app the end of its response, and that without such a step nobody does
    (src/relay.rs:158-274, src/server.rs:201-224, 694-749, 1176-1206). */
module TunnelSilence {
  import opened Prelude
  import opened Events
  import opened Tunnel
  import opened TunnelFate
  import opened TunnelInvariant
  import opened TunnelIsolation
  import opened TunnelOrder
  import opened TunnelRelease
  import opened TunnelResets
  import opened TunnelSteps
  import C = ClientRelay
  import S = ServerRelay

  /** The app waits for an end of its response that can never come. */
  ghost predicate Hung(s: System, cid: nat) {
    Stranded(s, cid) && !s.conns[cid].cli.writer.responseClosed
  }

  /** The server relay has nothing more to say but what a failing target may yet
      make its write task report. */
  predicate Dumb(c: S.Conn) {
    ReadSilent(c.down) && !c.up.write.UnlinkingWriter? && !c.up.write.ReportingWrite?
  }

  /** What the client relay has yet to take. */
  function Untaken(cli: C.Relay): seq<TunnelEvent> {
    if cli.taken <= |cli.recv| then cli.recv[cli.taken..] else []
  }

  /** The app has not been told the end of its response, and nothing the client has
      or is about to get will tell it. */
  ghost predicate Unaided(cn: Conn, air: seq<TunnelEvent>) {
    && cn.registered && cn.handoffs == 0 && AllData(air)
    && Untold(cn.cli)
  }

  ghost predicate Untold(cli: C.Relay) {
    !cli.writer.exited && !cli.writer.responseClosed && AllData(Untaken(cli)) && cli.read != C.Reported(C.UploadFailed)
  }

  /** Nor will the server: no end of its is queued, and no Reset is to come. */
  ghost predicate Forsaken(s: System, cid: nat) {
    && cid in s.conns && Unaided(s.conns[cid], InAir(s.air, cid)) && Dumb(s.conns[cid].srv)
    && AllData(Proj(s.queue, cid)) && !ResetAhead(s)
  }

  /** The step takes away the last voice: the queue's, that of the session's only
      Reset, or the server relay's own, enqueued where nobody reads or given up. */
  ghost predicate Silences(s: System, a: Action, cid: nat) {
    && cid in s.conns && Unaided(s.conns[cid], InAir(s.air, cid))
    && (var srv, share := s.conns[cid].srv, Proj(s.queue, cid);
        match a
        case StreamDropped =>
          s.air.None? && Dumb(srv) && s.known && (ResetItem in s.queue || !AllData(share))
        case Superseded =>
          Dumb(srv) && AllData(share) && !s.known && ResetItem !in s.queue
        case Send(c) =>
          c == cid && LosesEnd(s, cid) && AllData(share) && !ResetAhead(s)
        case SendReport(c) =>
          c == cid && LosesReport(s, cid) && AllData(share) && !ResetAhead(s)
        case Server(c, sa) =>
          c == cid && GivesUp(srv, sa) && AllData(share) && !ResetAhead(s)
        case _ => false)
  }

  /** The read task's end is enqueued where nobody reads, and the write task has
      none to report. */
  predicate LosesEnd(s: System, cid: nat)
    requires cid in s.conns
  {
    var cn := s.conns[cid];
    && cn.clone.Some? && !Reaches(s, cn.clone) && cn.srv.down.read.SendingEnd?
    && !cn.srv.up.write.UnlinkingWriter? && !cn.srv.up.write.ReportingWrite?
  }

  predicate LosesReport(s: System, cid: nat)
    requires cid in s.conns
  {
    && s.conns[cid].srv.up.write.ReportingWrite? && !Reaches(s, Some(s.gen))
    && ReadSilent(s.conns[cid].srv.down)
  }

  /** A delivery budget runs out over the last thing there was to say. */
  predicate GivesUp(c: S.Conn, sa: S.Action) {
    || (sa.EndUnsent? && c.down.read.SendingEnd? && !c.up.write.UnlinkingWriter? && !c.up.write.ReportingWrite?)
    || (sa.ReportUnsent? && c.up.write.ReportingWrite? && ReadSilent(c.down))
  }

  // ------------------------------------------------- nothing else takes it away

  /** Whoever is forsaken now was so before. */
  ghost predicate Back(s: System, s': System, cid: nat) {
    Forsaken(s', cid) ==> Forsaken(s, cid)
  }

  lemma ClientBack(cli: C.Relay, ca: C.Action)
    requires C.Inv(cli) && LocalToClient(ca) && Untold(C.Next(cli, ca))
    ensures Untold(cli)
  {
    if ca.TakeEvent? {
      TakeBack(cli, ca.cut);
    } else {
      hide C.PostsInv, C.OutputInv;
      NothingTaken(cli, ca);
      hide Untaken;
    }
  }

  lemma NothingTaken(cli: C.Relay, ca: C.Action)
    requires LocalToClient(ca) && !ca.TakeEvent?
    ensures Untaken(C.Next(cli, ca)) == Untaken(cli)
  {
  }

  lemma TakeBack(cli: C.Relay, cut: Option<nat>)
    requires Untold(C.Next(cli, C.TakeEvent(cut)))
    ensures Untold(cli)
  {
    var cli' := C.Next(cli, C.TakeEvent(cut));
    hide Min;
    if cli'.taken != cli.taken {
      assert cli.recv[cli.taken].Data?;
      assert cli.recv[cli.taken..] == [cli.recv[cli.taken]] + cli.recv[cli.taken + 1..];
    }
  }

  lemma AbortedIsOver(cli: C.Relay)
    requires C.Inv(cli) && C.SendAbort in cli.posts
    ensures cli.writer.exited || cli.read == C.Reported(C.UploadFailed)
  {
  }

  lemma ServerBack(c: S.Conn, sa: S.Action)
    requires LocalToServer(sa) && !c.permit && Dumb(S.Next(c, sa))
    ensures Dumb(c) || GivesUp(c, sa)
  {
    hide Min;
  }

  lemma ServerSilenced(c: S.Conn, sa: S.Action)
    requires LocalToServer(sa) && GivesUp(c, sa)
    ensures Dumb(S.Next(c, sa)) && !Dumb(c)
  {
  }

  /** Another connection's step. */
  lemma OtherBack(s: System, s': System, cid: nat)
    requires cid in s.conns && cid in s'.conns && s'.conns[cid] == s.conns[cid]
    requires InAir(s'.air, cid) == InAir(s.air, cid) && Proj(s'.queue, cid) == Proj(s.queue, cid)
    requires ResetAhead(s') <==> ResetAhead(s)
    ensures Forsaken(s', cid) <==> Forsaken(s, cid)
  {
    hide Dumb, InAir, Proj, ResetAhead;
  }

  lemma SameIsAhead(s: System, a: Action)
    requires !MovesReset(a)
    ensures ResetAhead(Next(s, a)) <==> ResetAhead(s)
  {
    hide Next;
    NoNewOrphans(s, a);
  }

  /** Only its own connection's part changes. */
  lemma MineBack(s: System, s': System, cid: nat)
    requires cid in s.conns && cid in s'.conns && (ResetAhead(s') <==> ResetAhead(s))
    requires InAir(s'.air, cid) == InAir(s.air, cid) && Proj(s'.queue, cid) == Proj(s.queue, cid)
    requires Unaided(s'.conns[cid], InAir(s.air, cid)) ==> Unaided(s.conns[cid], InAir(s.air, cid))
    requires Unaided(s'.conns[cid], InAir(s.air, cid)) && Dumb(s'.conns[cid].srv) ==> Dumb(s.conns[cid].srv)
    ensures Back(s, s', cid)
  {
    hide Dumb, InAir, Proj, ResetAhead, Unaided;
  }

  lemma ClientStepBack(s: System, cid: nat, c: nat, ca: C.Action)
    requires Inv(s) && cid in s.conns && c in s.conns && LocalToClient(ca)
    ensures Back(s, Next(s, Client(c, ca)), cid)
  {
    hide Inv, C.Inv, S.Inv, Posted, C.Next, Settle, InAir, Proj, Next, Dumb, ResetAhead, Untold;
    SameIsAhead(s, Client(c, ca));
    ClientSteps(s, c, ca);
    if c == cid {
      RelayIsSound(s, cid);
      var cn := s.conns[cid].(cli := C.Next(s.conns[cid].cli, ca));
      SettleRegistered(cn.(registered := false), InAir(s.air, cid) != []);
      SettleKeepsServer(cn.(registered := false), InAir(s.air, cid) != []);
      if Untold(cn.cli) {
        ClientBack(s.conns[cid].cli, ca);
      }
      MineBack(s, Next(s, Client(c, ca)), cid);
    } else {
      OtherBack(s, Next(s, Client(c, ca)), cid);
    }
  }

  lemma SettleKeepsServer(cn: Conn, inAir: bool)
    ensures Settle(cn, inAir).srv == cn.srv
  {
  }

  /** An abort can only have been posted by a relay whose app knows. */
  lemma PermitIsHeard(s: System, cid: nat)
    requires Inv(s) && cid in s.conns && s.conns[cid].srv.permit
    ensures !Untold(s.conns[cid].cli)
  {
    hide Inv, C.Inv, S.Inv, Whole;
    RelayIsSound(s, cid);
    AbortedIsOver(s.conns[cid].cli);
  }

  lemma ServerStepBack(s: System, cid: nat, c: nat, sa: S.Action)
    requires Inv(s) && cid in s.conns && c in s.conns && LocalToServer(sa) && !Silences(s, Server(c, sa), cid)
    ensures Back(s, Next(s, Server(c, sa)), cid)
  {
    hide Inv, S.Next, InAir, Proj, Next, Dumb, ResetAhead, Untold, GivesUp;
    SameIsAhead(s, Server(c, sa));
    NextServer(s, c, sa);
    if c == cid {
      var cn := s.conns[cid];
      if cn.srv.permit {
        PermitIsHeard(s, cid);
      } else if Dumb(S.Next(cn.srv, sa)) {
        ServerBack(cn.srv, sa);
      }
    } else {
      OtherBack(s, Next(s, Server(c, sa)), cid);
    }
  }

  lemma CloneStepBack(s: System, cid: nat, c: nat)
    requires cid in s.conns && c in s.conns
    ensures Back(s, Next(s, CloneSender(c)), cid)
  {
    hide InAir, Proj, Next, Dumb, ResetAhead, Untold;
    SameIsAhead(s, CloneSender(c));
    NextClone(s, c);
    if c == cid {
      MineBack(s, Next(s, CloneSender(c)), cid);
    } else {
      OtherBack(s, Next(s, CloneSender(c)), cid);
    }
  }

  // ------------------------------------------------------- what the server enqueues

  /** A relay that is `Dumb` after it has enqueued `ev` was speaking its last. */
  lemma EnqueuedIsForsaken(s: System, cid: nat, cn: Conn, ev: TunnelEvent, into: Option<nat>)
    requires cid in s.conns && cn.cli == s.conns[cid].cli && cn.registered == s.conns[cid].registered
    requires cn.handoffs == s.conns[cid].handoffs && !ev.Data?
    ensures Forsaken(Enqueued(s, cid, cn, ev, into), cid) <==>
      && !Reaches(s, into) && Unaided(s.conns[cid], InAir(s.air, cid)) && Dumb(cn.srv)
      && AllData(Proj(s.queue, cid)) && !ResetAhead(s)
  {
    hide InAir, Proj, Dumb, Untold, Harms, Reaches;
    ProjSnoc(s.queue, Item(cid, ev), cid);
    if Reaches(s, into) {
      var share := Proj(s.queue, cid);
      assert For(Item(cid, ev), cid) == [ev];
      assert (share + [ev])[|share|] == ev;
    }
  }

  lemma OtherEnqueued(s: System, cid: nat, c: nat, cn: Conn, ev: TunnelEvent, into: Option<nat>)
    requires cid in s.conns && c in s.conns && c != cid
    ensures Forsaken(Enqueued(s, c, cn, ev, into), cid) <==> Forsaken(s, cid)
  {
    hide InAir, Proj, Dumb, Harms, Forsaken;
    ProjOther(s.queue, c, ev, cid);
    OtherBack(s, Enqueued(s, c, cn, ev, into), cid);
  }

  lemma EndLeavesDumb(c: S.Conn)
    requires c.down.read.SendingEnd?
    ensures Dumb(S.Next(c, S.EndSent)) <==> !c.up.write.UnlinkingWriter? && !c.up.write.ReportingWrite?
  {
  }

  lemma ReportLeavesDumb(c: S.Conn)
    requires c.up.write.ReportingWrite?
    ensures Dumb(S.Next(c, S.ReportSent)) <==> ReadSilent(c.down)
  {
  }

  lemma ChunkLeavesTalking(c: S.Conn)
    requires c.down.read.SendingChunk?
    ensures !Dumb(S.Next(c, S.ChunkSent)) && !Dumb(c)
  {
  }

  lemma EndIsNoData(s: System, cid: nat)
    requires Inv(s) && cid in s.conns && s.conns[cid].srv.down.read.SendingEnd?
    ensures !s.conns[cid].srv.down.read.end.Data?
  {
    hide Inv, C.Inv, Posted, S.UploadInv, S.TeardownInv;
    RelayIsSound(s, cid);
    S.EndKinds(s.conns[cid].srv.down);
  }

  /** Its own read task's enqueue, exactly. */
  lemma SendSilencesExactly(s: System, cid: nat)
    requires Inv(s) && cid in s.conns
    ensures !Forsaken(s, cid) && Forsaken(SendNext(s, cid), cid) <==> Silences(s, Send(cid), cid)
  {
    hide Inv, S.Next, InAir, Proj, Dumb, Unaided, Enqueued, Forsaken, Reaches, ResetAhead;
    var cn := s.conns[cid];
    if cn.clone.Some? && cn.srv.down.read.SendingChunk? {
      var cn' := cn.(srv := S.Next(cn.srv, S.ChunkSent), clone := None);
      ChunkLeavesTalking(cn.srv);
      EnqueuedConn(s, cid, cn', Data(cn.srv.down.read.chunk), cn.clone);
      TalkingIsNotForsaken(SendNext(s, cid), cid);
    } else if cn.clone.Some? && cn.srv.down.read.SendingEnd? {
      EndIsNoData(s, cid);
      EndLeavesDumb(cn.srv);
      TalkingEndIsNotForsaken(s, cid);
      EnqueuedIsForsaken(s, cid, cn.(srv := S.Next(cn.srv, S.EndSent), clone := None), cn.srv.down.read.end, cn.clone);
    } else {
      assert SendNext(s, cid) == s;
    }
  }

  lemma TalkingIsNotForsaken(s: System, cid: nat)
    requires cid in s.conns && !Dumb(s.conns[cid].srv)
    ensures !Forsaken(s, cid)
  {
    hide Dumb;
  }

  lemma TalkingEndIsNotForsaken(s: System, cid: nat)
    requires cid in s.conns
    requires s.conns[cid].srv.down.read.SendingEnd? || s.conns[cid].srv.up.write.ReportingWrite?
    ensures !Forsaken(s, cid)
  {
    TalkingIsNotForsaken(s, cid);
  }

  lemma ReportSilencesExactly(s: System, cid: nat)
    requires cid in s.conns
    ensures !Forsaken(s, cid) && Forsaken(Next(s, SendReport(cid)), cid) <==> Silences(s, SendReport(cid), cid)
  {
    hide S.Next, InAir, Proj, Dumb, Unaided, Enqueued, Forsaken, Reaches, ResetAhead, Next;
    NextReaches(s, cid);
    var cn := s.conns[cid];
    if cn.srv.up.write.ReportingWrite? {
      ReportLeavesDumb(cn.srv);
      TalkingEndIsNotForsaken(s, cid);
      EnqueuedIsForsaken(s, cid, cn.(srv := S.Next(cn.srv, S.ReportSent)), Error, Some(s.gen));
    }
  }

  lemma OthersSendBack(s: System, cid: nat, c: nat)
    requires cid in s.conns && c in s.conns && c != cid
    ensures Back(s, SendNext(s, c), cid) && Back(s, Next(s, SendReport(c)), cid)
  {
    hide S.Next, Forsaken, Enqueued, Next;
    var cn := s.conns[c];
    NextReaches(s, c);
    OtherEnqueued(s, cid, c, cn.(srv := S.Next(cn.srv, S.ReportSent)), Error, Some(s.gen));
    if cn.srv.down.read.SendingChunk? {
      OtherEnqueued(s, cid, c, cn.(srv := S.Next(cn.srv, S.ChunkSent), clone := None),
        Data(cn.srv.down.read.chunk), cn.clone);
    } else if cn.srv.down.read.SendingEnd? {
      OtherEnqueued(s, cid, c, cn.(srv := S.Next(cn.srv, S.EndSent), clone := None), cn.srv.down.read.end, cn.clone);
    }
  }

  // -------------------------------------------------------- dispatch, posts, stream

  lemma BeginBack(s: System, cid: nat)
    requires cid in s.conns
    ensures Back(s, BeginNext(s), cid)
  {
    hide Dumb, Untold, Settle;
    if s.air.None? && s.queue != [] {
      if s.queue[0].ResetItem? {
        SettleRegistered(s.conns[cid].(registered := false), InAir(s.air, cid) != []);
        assert !Forsaken(BeginNext(s), cid);
      } else {
        assert s.queue == [s.queue[0]] + s.queue[1..];
        BeginOthersOrder(s, s.queue[0].cid);
        hide Proj;
        if s.queue[0].cid == cid {
          BeginMineBack(s, cid);
        } else {
          OtherBack(s, BeginNext(s), cid);
        }
      }
    }
  }

  lemma BeginMineBack(s: System, cid: nat)
    requires cid in s.conns && s.air.None? && s.queue != [] && s.queue[0].Item? && s.queue[0].cid == cid
    requires Proj(s.queue, cid) == [s.queue[0].ev] + Proj(s.queue[1..], cid)
    requires ResetItem in s.queue[1..] <==> ResetItem in s.queue
    ensures Back(s, BeginNext(s), cid)
  {
    hide Dumb, Untold, Proj;
    if s.conns[cid].registered {
      var s' := BeginNext(s);
      assert InAir(s'.air, cid) == [s.queue[0].ev];
      assert AllData([s.queue[0].ev]) ==> s.queue[0].ev.Data? by {
        assert [s.queue[0].ev][0] == s.queue[0].ev;
      }
    }
  }

  lemma AirBack(s: System, cid: nat, a: Action)
    requires Inv(s) && cid in s.conns && EndsDispatch(a)
    ensures Back(s, AirNext(s, a), cid)
  {
    hide Inv, C.Next, Settle, Proj, Dumb, Next, AirNext, Forsaken, Isolated;
    SameIsAhead(s, a);
    NextIsAir(s, a);
    if s.air.Some? {
      AirIsOpen(s);
      if s.air.value.cid == cid {
        LandingBack(s, cid, a);
      } else {
        DispatchIsIsolated(s, a);
        AirElsewhere(s, cid, a);
        OtherBack(s, AirNext(s, a), cid);
      }
    } else {
      NothingLands(s, a);
    }
  }

  lemma NothingLands(s: System, a: Action)
    requires s.air.None? && EndsDispatch(a)
    ensures AirNext(s, a) == s
  {
    hide C.Next, Landed;
  }

  lemma AirElsewhere(s: System, cid: nat, a: Action)
    requires s.air.Some? && s.air.value.Item? && s.air.value.cid != cid && cid in s.conns && EndsDispatch(a)
    ensures var s' := AirNext(s, a);
      && cid in s'.conns && s'.conns[cid] == s.conns[cid] && s'.queue == s.queue
      && InAir(s'.air, cid) == InAir(s.air, cid)
  {
    hide C.Next, Settle;
  }

  lemma Delivered(cli: C.Relay, ev: TunnelEvent)
    requires cli.open && !cli.writer.exited && C.QueueLength(cli) < C.CONN_CHANNEL_CAPACITY && cli.taken <= |cli.recv|
    ensures var cli' := C.Next(cli, C.Deliver(ev));
      && Untaken(cli') == Untaken(cli) + [ev] && cli'.writer == cli.writer && cli'.read == cli.read
  {
  }

  lemma DeliveredBack(cli: C.Relay, ev: TunnelEvent)
    requires cli.open && !cli.writer.exited && C.QueueLength(cli) < C.CONN_CHANNEL_CAPACITY && cli.taken <= |cli.recv|
    ensures Untold(C.Next(cli, C.Deliver(ev))) <==> Untold(cli) && ev.Data?
  {
    hide C.Next;
    Delivered(cli, ev);
    var u := Untaken(cli);
    hide Untaken;
    assert (u + [ev])[|u|] == ev;
    assert forall i :: 0 <= i < |u| ==> (u + [ev])[i] == u[i];
  }

  lemma TakenIsWithin(s: System, cid: nat)
    requires Inv(s) && cid in s.conns
    ensures s.conns[cid].cli.taken <= |s.conns[cid].cli.recv|
  {
    hide Inv, S.Inv, Posted;
    RelayIsSound(s, cid);
  }

  /** The event in the air lands: it tells the app something, or is data. */
  lemma LandingBack(s: System, cid: nat, a: Action)
    requires Inv(s) && cid in s.conns && EndsDispatch(a) && (ResetAhead(AirNext(s, a)) <==> ResetAhead(s))
    requires s.air.Some? && s.air.value.Item? && s.air.value.cid == cid && s.conns[cid].cli.open
    ensures Back(s, AirNext(s, a), cid)
  {
    hide Inv, C.Next, Proj, Dumb, ResetAhead, Untold, Settle, Landed, Forsaken, InAir, Back;
    var cn, ev := s.conns[cid], s.air.value.ev;
    TakenIsWithin(s, cid);
    assert Back(s, s, cid) by { BackToItself(s, cid); }
    if a.DeliverEvent? {
      if !cn.cli.writer.exited && C.QueueLength(cn.cli) < C.CONN_CHANNEL_CAPACITY {
        DeliveredBack(cn.cli, ev);
        LandedBack(s, cid, cn.(cli := C.Next(cn.cli, C.Deliver(ev))));
      }
    } else {
      if cn.cli.writer.exited {
        ExitedIsTold(cn.cli);
        LandedBack(s, cid, cn);
      }
      LandedBack(s, cid, cn.(handoffs := cn.handoffs + 1));
      LandedBack(s, cid, cn.(registered := false));
    }
  }

  lemma BackToItself(s: System, cid: nat)
    ensures Back(s, s, cid)
  {
    hide Forsaken;
  }

  lemma LandedBack(s: System, cid: nat, cn: Conn)
    requires cid in s.conns && s.air.Some? && s.air.value.Item? && s.air.value.cid == cid
    requires cn.srv == s.conns[cid].srv
    requires cn.registered && cn.handoffs == 0 && Untold(cn.cli) ==>
      s.air.value.ev.Data? && s.conns[cid].registered && s.conns[cid].handoffs == 0 && Untold(s.conns[cid].cli)
    ensures Back(s, Landed(s, cn), cid)
  {
    hide Proj, Dumb, Untold, Settle;
    SettleTells(cn, false);
    var ev := s.air.value.ev;
    assert InAir(s.air, cid) == [ev];
    assert ResetAhead(Landed(s, cn)) <==> ResetAhead(s);
  }

  /** Losing the last sender tells the app nothing that the registration's end has not. */
  lemma SettleTells(cn: Conn, inAir: bool)
    ensures var cn' := Settle(cn, inAir);
      && cn'.registered == cn.registered && cn'.handoffs == cn.handoffs && cn'.srv == cn.srv
      && (Untold(cn'.cli) <==> Untold(cn.cli))
  {
    SendersChangeNothing(cn.cli);
    hide C.Next;
  }

  lemma SendersChangeNothing(cli: C.Relay)
    ensures C.Next(cli, C.SendersGone) == cli.(open := false)
  {
  }

  lemma ExitedIsTold(cli: C.Relay)
    requires cli.writer.exited
    ensures !Untold(cli)
  {
  }

  lemma HandoffBack(s: System, cid: nat, a: Action)
    requires Inv(s) && cid in s.conns && (a.HandoffDelivered? || a.HandoffDropped? || a.HandoffTimedOut?)
    ensures Back(s, HandoffNext(s, a), cid)
  {
    hide Inv, C.Next, Proj, Dumb, InAir, Untold, Settle;
    if a.cid in s.conns && s.conns[a.cid].handoffs > 0 {
      if a.cid == cid {
        HandoffIsOpen(s, cid);
        TakenIsWithin(s, cid);
        HandoffMineBack(s, cid, a);
      } else {
        OtherBack(s, HandoffNext(s, a), cid);
      }
    }
  }

  lemma HandoffMineBack(s: System, cid: nat, a: Action)
    requires cid in s.conns && (a.HandoffDelivered? || a.HandoffDropped? || a.HandoffTimedOut?) && a.cid == cid
    requires s.conns[cid].handoffs > 0 && s.conns[cid].cli.open
    requires s.conns[cid].cli.taken <= |s.conns[cid].cli.recv|
    ensures HandoffNext(s, a) == s || !Forsaken(HandoffNext(s, a), cid)
  {
    hide C.Next, Proj, Dumb, InAir, Untold, ResetAhead;
    var cn := s.conns[cid];
    if a.HandoffDelivered? && !cn.cli.writer.exited && C.QueueLength(cn.cli) < C.CONN_CHANNEL_CAPACITY {
      DeliveredBack(cn.cli, Close);
      ClosingIsTold(cn.cli);
    } else if cn.cli.writer.exited {
      ExitedIsTold(cn.cli);
      SendersChangeNothing(cn.cli);
      ExitedIsTold(C.Next(cn.cli, C.SendersGone));
    }
  }

  lemma ClosingIsTold(cli: C.Relay)
    requires cli.open && !cli.writer.exited && C.QueueLength(cli) < C.CONN_CHANNEL_CAPACITY && cli.taken <= |cli.recv|
    ensures var cli' := C.Next(cli, C.Deliver(Close)); !Untold(cli') && !Untold(C.Next(cli', C.SendersGone))
  {
    hide C.Next;
    Delivered(cli, Close);
    var cli' := C.Next(cli, C.Deliver(Close));
    SendersChangeNothing(cli');
    var u := Untaken(cli);
    assert Untaken(cli')[|u|] == Close;
  }

  lemma PostReadEnds(cn: Conn, a: Action)
    requires IsPosting(a)
    ensures var cli, cli' := cn.cli, PostNext(cn, a).cli;
      && cli'.writer == cli.writer && cli'.recv == cli.recv && cli'.taken == cli.taken
      && (cli'.read != C.Reported(C.UploadFailed) ==> cli.read != C.Reported(C.UploadFailed))
  {
    hide S.Next;
  }

  lemma PostKeepsDumb(cn: Conn, a: Action)
    requires IsPosting(a)
    ensures Dumb(PostNext(cn, a).srv) <==> Dumb(cn.srv)
  {
    hide PostNext, C.Next, S.Next, Dumb;
    PostRelays(cn, a);
    if PostNext(cn, a).srv != cn.srv {
      var sa :| IsHandlerAction(sa) && PostNext(cn, a).srv == S.Next(cn.srv, sa);
      HandlersKeepDumb(cn.srv, sa);
    }
  }

  lemma HandlersKeepDumb(c: S.Conn, sa: S.Action)
    requires IsHandlerAction(sa)
    ensures Dumb(S.Next(c, sa)) <==> Dumb(c)
  {
  }

  lemma PostBack(s: System, cid: nat, a: Action)
    requires cid in s.conns && IsPosting(a)
    ensures Back(s, Next(s, a), cid)
  {
    hide Next, PostNext, Dumb, InAir, Proj, ResetAhead;
    SameIsAhead(s, a);
    NextPosts(s, a);
    if a.cid == cid {
      var cn := s.conns[cid];
      PostReadEnds(cn, a);
      PostKeepsDumb(cn, a);
      PostFrames(cn, a);
      MineBack(s, Next(s, a), cid);
    } else if a.cid in s.conns {
      OtherBack(s, Next(s, a), cid);
    }
  }

  lemma PostFrames(cn: Conn, a: Action)
    requires IsPosting(a)
    ensures var cn' := PostNext(cn, a); cn'.registered == cn.registered && cn'.handoffs == cn.handoffs
  {
    hide C.Next, S.Next;
  }

  lemma OpenBack(s: System, cid: nat, c: nat)
    requires cid in s.conns
    ensures Back(s, Next(s, Open(c)), cid)
  {
    hide Proj, InAir, Dumb, Unaided, SendNext, BeginNext, AirNext, HandoffNext, PostNext, StaleAll, Killed, Harmed;
  }

  /** The stream's own steps, exactly. */
  lemma StreamSilencesExactly(s: System, cid: nat, a: Action)
    requires Inv(s) && cid in s.conns && (a.StreamDropped? || a.StreamOpened? || a.Superseded?)
    ensures !Forsaken(s, cid) && Forsaken(Next(s, a), cid) <==> Silences(s, a, cid)
  {
    hide ConnInv, Dumb, InAir, Unaided, SendNext, BeginNext, AirNext, HandoffNext, PostNext, StaleAll, Killed, Harmed;
    assert Proj([], cid) == [];
  }

  /** Neither a restart nor a rotation leaves anybody forsaken. */
  lemma EndsReset(s: System, cid: nat, a: Action)
    requires cid in s.conns && (a.ServerRestart? || a.Rotate?)
    ensures !Forsaken(Next(s, a), cid)
  {
    hide Dumb, InAir, Unaided, Proj, SendNext, BeginNext, AirNext, HandoffNext, PostNext, StaleAll, Killed, Harmed;
  }

  // ------------------------------------------------------------ one step, exactly

  lemma QuietSteps(s: System, a: Action, cid: nat)
    requires !a.StreamDropped? && !a.Superseded? && !a.Send? && !a.SendReport? && !a.Server?
    ensures !Silences(s, a, cid)
  {
  }

  lemma OtherSteps(s: System, a: Action, cid: nat)
    requires (a.Send? || a.SendReport? || a.Server?) && a.cid != cid
    ensures !Silences(s, a, cid)
  {
  }

  lemma ServerSilencesExactly(s: System, cid: nat, c: nat, sa: S.Action)
    requires Inv(s) && cid in s.conns
    ensures !Forsaken(s, cid) && Forsaken(Next(s, Server(c, sa)), cid) <==> Silences(s, Server(c, sa), cid)
  {
    hide Inv, Next, Forsaken;
    if c !in s.conns || !LocalToServer(sa) {
      Idle(s, Server(c, sa));
      assert !Silences(s, Server(c, sa), cid);
    } else if !Silences(s, Server(c, sa), cid) {
      ServerStepBack(s, cid, c, sa);
    } else {
      GivenUpIsForsaken(s, cid, sa);
    }
  }

  lemma GivenUpIsForsaken(s: System, cid: nat, sa: S.Action)
    requires LocalToServer(sa) && Silences(s, Server(cid, sa), cid)
    ensures !Forsaken(s, cid) && Forsaken(Next(s, Server(cid, sa)), cid)
  {
    hide S.Next, Next, InAir, Proj, Dumb, GivesUp, Untold, ResetAhead;
    SameIsAhead(s, Server(cid, sa));
    NextServer(s, cid, sa);
    ServerSilenced(s.conns[cid].srv, sa);
  }

  /** One step makes a connection forsaken exactly if it silences it. */
  lemma SilencedExactly(s: System, a: Action, cid: nat)
    requires Inv(s)
    ensures !Forsaken(s, cid) && Forsaken(Next(s, a), cid) <==> Silences(s, a, cid)
  {
    hide Inv, Next, Forsaken, Silences, BeginNext, AirNext, HandoffNext, SendNext;
    if cid !in s.conns {
      StrangerIsNotForsaken(s, a, cid);
    } else if a.StreamDropped? || a.StreamOpened? || a.Superseded? {
      StreamSilencesExactly(s, cid, a);
    } else if a.Server? {
      ServerSilencesExactly(s, cid, a.cid, a.sa);
    } else if a.Send? || a.SendReport? {
      EnqueueSilencesExactly(s, a, cid);
    } else {
      QuietSteps(s, a, cid);
      QuietBack(s, a, cid);
    }
  }

  lemma EnqueueSilencesExactly(s: System, a: Action, cid: nat)
    requires Inv(s) && cid in s.conns && (a.Send? || a.SendReport?)
    ensures !Forsaken(s, cid) && Forsaken(Next(s, a), cid) <==> Silences(s, a, cid)
  {
    hide Inv, Next, Forsaken, Silences, SendNext;
    if a.cid !in s.conns {
      OtherSteps(s, a, cid);
      NobodySends(s, a);
    } else {
      NextReaches(s, a.cid);
      if a.cid != cid {
        OtherSteps(s, a, cid);
        OthersSendBack(s, cid, a.cid);
      } else if a.Send? {
        SendSilencesExactly(s, cid);
      } else {
        ReportSilencesExactly(s, cid);
      }
    }
  }

  lemma NobodySends(s: System, a: Action)
    requires (a.Send? || a.SendReport?) && a.cid !in s.conns
    ensures Next(s, a) == s
  {
    hide SendNext, BeginNext, AirNext, HandoffNext, PostNext, StaleAll, Killed, Harmed;
  }

  lemma QuietBack(s: System, a: Action, cid: nat)
    requires Inv(s) && cid in s.conns && !a.StreamDropped? && !a.StreamOpened? && !a.Superseded?
    requires !a.Send? && !a.SendReport? && !a.Server?
    ensures Back(s, Next(s, a), cid)
  {
    hide Inv, Next, Forsaken, BeginNext, AirNext, HandoffNext;
    match a
    case Open(c) => OpenBack(s, cid, c);
    case Client(c, ca) =>
      if c in s.conns && LocalToClient(ca) { ClientStepBack(s, cid, c, ca); } else { Idle(s, a); }
    case CloneSender(c) => if c in s.conns { CloneStepBack(s, cid, c); } else { NobodyClones(s, c); }
    case Begin => BeginBack(s, cid); BeginIs(s);
    case DeliverEvent => AirBack(s, cid, a); NextIsAir(s, a);
    case ReceiverDropped => AirBack(s, cid, a); NextIsAir(s, a);
    case Stall => AirBack(s, cid, a); NextIsAir(s, a);
    case HandoffDelivered(_) => HandoffBack(s, cid, a); NextIsHandoff(s, a);
    case HandoffDropped(_) => HandoffBack(s, cid, a); NextIsHandoff(s, a);
    case HandoffTimedOut(_) => HandoffBack(s, cid, a); NextIsHandoff(s, a);
    case ServerRestart => EndsReset(s, cid, a);
    case Rotate => EndsReset(s, cid, a);
    case _ => PostBack(s, cid, a);
  }

  lemma NobodyClones(s: System, c: nat)
    requires c !in s.conns
    ensures Next(s, CloneSender(c)) == s
  {
    hide SendNext, BeginNext, AirNext, HandoffNext, PostNext, StaleAll, Killed, Harmed;
  }

  lemma NextIsHandoff(s: System, a: Action)
    requires a.HandoffDelivered? || a.HandoffDropped? || a.HandoffTimedOut?
    ensures Next(s, a) == HandoffNext(s, a)
  {
    hide HandoffNext;
  }

  /** A new connection's server still talks. */
  lemma StrangerIsNotForsaken(s: System, a: Action, cid: nat)
    requires Inv(s) && cid !in s.conns
    ensures !Forsaken(s, cid) && !Forsaken(Next(s, a), cid) && !Silences(s, a, cid)
  {
    hide Inv, InAir, Proj, ResetAhead, Unaided;
    if a.Open? && a.cid == cid {
      OpenedTalks(s, cid);
    } else {
      NobodyAppears(s, a, cid);
    }
  }

  lemma OpenedTalks(s: System, cid: nat)
    requires cid !in s.conns
    ensures Next(s, Open(cid)).conns[cid] == OPENED && !Dumb(OPENED.srv)
  {
    hide SendNext, BeginNext, AirNext, HandoffNext, PostNext, StaleAll, Killed, Harmed;
  }

  // ------------------------------------------------------------------ whole runs

  /** No step of the run silences the connection. */
  ghost predicate Unsilenced(s: System, acts: seq<Action>, cid: nat)
    decreases |acts|
  {
    acts == [] || (!Silences(s, acts[0], cid) && Unsilenced(Next(s, acts[0]), acts[1..], cid))
  }

  lemma {:induction false} NeverForsaken(s: System, acts: seq<Action>, cid: nat)
    requires Inv(s) && !Forsaken(s, cid) && Unsilenced(s, acts, cid)
    ensures !Forsaken(Run(s, acts), cid)
    decreases |acts|
  {
    hide Inv, Next, Forsaken, Silences;
    if acts != [] {
      SilencedExactly(s, acts[0], cid);
      NextKeepsInv(s, acts[0]);
      NeverForsaken(Next(s, acts[0]), acts[1..], cid);
    }
  }

  lemma HungIsForsaken(s: System, cid: nat)
    requires Inv(s) && Hung(s, cid)
    ensures Forsaken(s, cid)
  {
    hide Inv, C.CanMove, Proj, InAir, ResetAhead;
    ParkedIsIdle(s, cid);
  }

  /** Nobody waits in vain: in every run none of whose steps silences it, a relay that
      waits has told its app the end of its response, or can still move again by
      itself. */
  lemma NobodyWaitsInVain(acts: seq<Action>, cid: nat)
    requires Unsilenced(INIT, acts, cid) && Parked(Run(INIT, acts), cid)
    ensures var s := Run(INIT, acts);
      s.conns[cid].cli.writer.responseClosed || exists rest :: FreedBy(s, rest, cid)
  {
    hide Inv, Next, Forsaken, Silences, FreedBy, Mute, ResetAhead, C.CanMove, Proj, InAir;
    InitInv();
    RunKeepsInv(INIT, acts);
    NobodyIsForsaken(cid);
    NeverForsaken(INIT, acts, cid);
    var s := Run(INIT, acts);
    FateIsExact(s, cid);
    if Stranded(s, cid) && !s.conns[cid].cli.writer.responseClosed {
      HungIsForsaken(s, cid);
    }
  }

  lemma NobodyIsForsaken(cid: nat)
    ensures !Forsaken(INIT, cid)
  {
  }
}
