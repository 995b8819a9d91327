/** Exactly when discarding data breaks a response: a discard marks a connection as
    lost if and only if some continuation, discarding nothing more of it, leads the
    app to a clean end-of-stream on less than its target sent. */
module TunnelLoss {
  import opened Prelude
  import opened Events
  import opened Tunnel
  import opened TunnelIntegrity
  import opened TunnelInvariant
  import opened TunnelIsolation
  import opened TunnelOrder
  import opened TunnelSteps
  import C = ClientRelay
  import S = ServerRelay

  /** What no app should see: bytes that are not its target's, or a clean
      end-of-stream that is not the target's. */
  predicate Broken(cn: Conn) {
    var written, sent := cn.cli.writer.written, cn.srv.down.targetRead;
    || !(written <= sent)
    || (SawEof(cn) && !(cn.srv.down.targetEof && written == sent))
  }

  /** No step of the run harms the connection by a discard. */
  ghost predicate Spares(s: System, acts: seq<Action>, cid: nat)
    decreases |acts|
  {
    acts == [] || (cid !in Discards(s, acts[0]) && Spares(Next(s, acts[0]), acts[1..], cid))
  }

  ghost predicate Leads(s: System, acts: seq<Action>, cid: nat, s': System) {
    s' == Run(s, acts) && Spares(s, acts, cid)
  }

  lemma Stay(s: System, cid: nat) returns (acts: seq<Action>)
    ensures Leads(s, acts, cid, s)
  {
    acts := [];
  }

  lemma Go(s: System, a: Action, cid: nat) returns (acts: seq<Action>)
    requires cid !in Discards(s, a)
    ensures Leads(s, acts, cid, Next(s, a))
  {
    hide Next, Discards;
    acts := [a];
    assert acts[1..] == [];
    assert Run(Next(s, a), []) == Next(s, a) && Spares(Next(s, a), [], cid);
  }

  lemma {:induction false} Chain(s: System, acts: seq<Action>, s1: System, acts1: seq<Action>, s2: System, cid: nat)
    requires Leads(s, acts, cid, s1) && Leads(s1, acts1, cid, s2)
    ensures Leads(s, acts + acts1, cid, s2)
    decreases |acts|
  {
    hide Next, Discards;
    if acts == [] {
      assert acts + acts1 == acts1;
    } else {
      Chain(Next(s, acts[0]), acts[1..], s1, acts1, s2, cid);
      assert (acts + acts1)[0] == acts[0] && (acts + acts1)[1..] == acts[1..] + acts1;
    }
  }

  // ------------------------------------------------ what is not lost stays whole

  lemma EnqueueLosses(s: System, cid: nat, cn: Conn, ev: TunnelEvent, into: Option<nat>)
    ensures Enqueued(s, cid, cn, ev, into).lost ==
      s.lost + (if !Reaches(s, into) && Harms(s, cid, cn, ev) then {cid} else {})
  {
    hide Harms, Reaches;
  }

  lemma SendLosses(s: System, cid: nat)
    requires cid in s.conns && S.ResponseInv(s.conns[cid].srv.down)
    ensures SendNext(s, cid).lost == s.lost + Discards(s, Send(cid))
  {
    hide S.Next, Enqueued;
    var cn := s.conns[cid];
    if cn.clone.Some? && cn.srv.down.read.SendingChunk? {
      EnqueueLosses(s, cid, cn.(srv := S.Next(cn.srv, S.ChunkSent), clone := None), Data(cn.srv.down.read.chunk),
        cn.clone);
    } else if cn.clone.Some? && cn.srv.down.read.SendingEnd? {
      EnqueueLosses(s, cid, cn.(srv := S.Next(cn.srv, S.EndSent), clone := None), cn.srv.down.read.end, cn.clone);
    }
  }

  lemma ReportLosses(s: System, cid: nat)
    ensures Next(s, SendReport(cid)).lost == s.lost && s.conns.Keys <= Next(s, SendReport(cid)).conns.Keys
  {
    hide S.Next, Enqueued, BeginNext, AirNext, HandoffNext, PostNext, SendNext, StaleAll, Killed, Harmed;
    if cid in s.conns && s.conns[cid].srv.up.write.ReportingWrite? {
      var cn := s.conns[cid].(srv := S.Next(s.conns[cid].srv, S.ReportSent));
      EnqueueLosses(s, cid, cn, Error, Some(s.gen));
      EnqueueKeys(s, cid, cn, Error, Some(s.gen));
    }
  }

  lemma EnqueueKeys(s: System, cid: nat, cn: Conn, ev: TunnelEvent, into: Option<nat>)
    requires cid in s.conns
    ensures s.conns.Keys <= Enqueued(s, cid, cn, ev, into).conns.Keys
  {
    hide Harms, Reaches;
  }

  lemma SendKeys(s: System, cid: nat)
    requires cid in s.conns
    ensures s.conns.Keys <= SendNext(s, cid).conns.Keys
  {
    hide S.Next, Enqueued;
    var cn := s.conns[cid];
    if cn.clone.Some? && cn.srv.down.read.SendingChunk? {
      EnqueueKeys(s, cid, cn.(srv := S.Next(cn.srv, S.ChunkSent), clone := None), Data(cn.srv.down.read.chunk),
        cn.clone);
    } else if cn.clone.Some? && cn.srv.down.read.SendingEnd? {
      EnqueueKeys(s, cid, cn.(srv := S.Next(cn.srv, S.EndSent), clone := None), cn.srv.down.read.end, cn.clone);
    }
  }

  /** Only what the stream and the server do can discard; nobody disappears. */
  ghost predicate Harmless(s: System, s': System) {
    s'.lost == s.lost && s.conns.Keys <= s'.conns.Keys
  }

  lemma BeginLosses(s: System)
    ensures Harmless(s, BeginNext(s))
  {
    hide Settle, InAir;
  }

  lemma AirLosses(s: System, a: Action)
    requires a.DeliverEvent? || a.ReceiverDropped? || a.Stall?
    ensures Harmless(s, AirNext(s, a))
  {
    hide Settle, C.Next;
  }

  lemma HandoffLosses(s: System, a: Action)
    requires a.HandoffDelivered? || a.HandoffDropped? || a.HandoffTimedOut?
    ensures Harmless(s, HandoffNext(s, a))
  {
    hide Settle, C.Next, InAir;
  }

  /** The actions whose losses the other lemmas count. */
  predicate IsElsewhere(a: Action) {
    || a.Send? || a.SendReport? || a.Begin? || a.DeliverEvent? || a.ReceiverDropped? || a.Stall?
    || a.HandoffDelivered? || a.HandoffDropped? || a.HandoffTimedOut? || a.Rotate? || a.StreamDropped?
  }

  lemma QuietLosses(s: System, a: Action)
    requires !IsElsewhere(a)
    ensures Harmless(s, Next(s, a))
  {
    hide S.Next, C.Next, SendNext, BeginNext, AirNext, HandoffNext, PostNext, StaleAll, Killed, Harmed, Settle, InAir;
  }

  lemma DropLosses(s: System)
    ensures var s' := Next(s, StreamDropped);
      s'.lost == s.lost + Discards(s, StreamDropped) && s.conns.Keys <= s'.conns.Keys
  {
    hide SendNext, BeginNext, AirNext, HandoffNext, PostNext, StaleAll, Killed, Harmed;
  }

  lemma RotateLosses(s: System)
    ensures Harmless(s, Next(s, Rotate))
  {
    hide SendNext, BeginNext, AirNext, HandoffNext, PostNext, StaleAll, Killed, Harmed;
    StaleKeys(s);
  }

  lemma NextIs(s: System, a: Action)
    ensures a.Begin? ==> Next(s, a) == BeginNext(s)
    ensures a.HandoffDelivered? || a.HandoffDropped? || a.HandoffTimedOut? ==> Next(s, a) == HandoffNext(s, a)
    ensures a.Send? ==> Next(s, a) == if a.cid in s.conns then SendNext(s, a.cid) else s
  {
    hide SendNext, BeginNext, AirNext, HandoffNext, PostNext, StaleAll, Killed, Harmed;
  }

  /** `lost` is what has been discarded so far. */
  lemma LostIsDiscarded(s: System, a: Action)
    requires Inv(s)
    ensures Next(s, a).lost == s.lost + Discards(s, a)
    ensures s.conns.Keys <= Next(s, a).conns.Keys
  {
    hide Inv, Next, SendNext, BeginNext, AirNext, HandoffNext;
    NextIs(s, a);
    if a.Send? {
      if a.cid in s.conns {
        hide Discards;
        SendAccounts(s, a.cid);
        SendKeys(s, a.cid);
      }
    } else if a.StreamDropped? {
      hide Discards;
      DropLosses(s);
    } else {
      TakesDiscardNothing(s, a);
      hide Discards;
      if !IsElsewhere(a) {
        QuietLosses(s, a);
      } else if a.SendReport? {
        ReportLosses(s, a.cid);
      } else if a.Rotate? {
        RotateLosses(s);
      } else if a.Begin? {
        BeginLosses(s);
      } else if a.DeliverEvent? || a.ReceiverDropped? || a.Stall? {
        NextIsAir(s, a);
        AirLosses(s, a);
      } else {
        HandoffLosses(s, a);
      }
    }
  }

  lemma SendAccounts(s: System, cid: nat)
    requires Inv(s) && cid in s.conns
    ensures SendNext(s, cid).lost == s.lost + Discards(s, Send(cid))
  {
    hide Inv, SendNext, Discards, C.Inv, Carried, S.UploadInv, S.TeardownInv, S.ResponseInv;
    Parts(s, cid);
    SendLosses(s, cid);
  }

  lemma StaleKeys(s: System)
    ensures StaleAll(s).Keys == s.conns.Keys
  {
  }

  lemma {:induction false} SparedStaysWhole(s: System, acts: seq<Action>, cid: nat)
    requires Inv(s) && cid in s.conns && cid !in s.lost && Spares(s, acts, cid)
    ensures var s' := Run(s, acts); Inv(s') && cid in s'.conns && cid !in s'.lost && !Broken(s'.conns[cid])
    decreases |acts|
  {
    hide Inv, Next, Discards;
    if acts == [] {
      WholeIsNotBroken(s, cid);
    } else {
      NextKeepsInv(s, acts[0]);
      LostIsDiscarded(s, acts[0]);
      SparedStaysWhole(Next(s, acts[0]), acts[1..], cid);
    }
  }

  lemma WholeIsNotBroken(s: System, cid: nat)
    requires Inv(s) && cid in s.conns && cid !in s.lost
    ensures !Broken(s.conns[cid])
  {
    hide ConnInv;
    OneResponse(s.conns[cid], InAir(s.air, cid), View(s.queue, cid));
  }

  // ------------------------------------------------------------- the gap, carried

  function Bytes(evs: seq<TunnelEvent>): nat {
    |DataBytes(evs)|
  }

  /** Bytes are missing from what has come and will come, and nothing stands in the
      way of what follows them. */
  ghost predicate Missing(cn: Conn, air: seq<TunnelEvent>, view: seq<TunnelEvent>) {
    && cn.registered && !cn.cli.writer.exited && !cn.srv.killed && cn.handoffs == 0 && Streaming(cn.srv.down)
    && AllData(cn.cli.recv) && AllData(air)
    && (forall i :: 0 <= i < |view| ==> view[i].Data? || view[i].Error?) && !Barred(view)
    && Bytes(cn.cli.recv) + Bytes(air) + Bytes(view) < Bytes(cn.srv.down.sent)
  }

  ghost predicate Gap(s: System, cid: nat) {
    && Inv(s) && cid in s.conns
    && Missing(s.conns[cid], InAir(s.air, cid), View(s.queue, cid))
  }

  /** The connection's own invariants, lost or not. */
  lemma Parts(s: System, cid: nat)
    requires Inv(s) && cid in s.conns
    ensures var cn := s.conns[cid];
      && C.Inv(cn.cli) && S.Inv(cn.srv)
      && (cn.cli.open <==> cn.registered || cn.handoffs > 0 || InAir(s.air, cid) != [])
      && (cid !in s.lost ==> Carried(cn, InAir(s.air, cid), View(s.queue, cid)))
      && (s.air.Some? ==> s.air.value.Item? && s.air.value.cid in s.conns)
  {
    hide C.Inv, S.Inv, Posted, Carried;
  }

  lemma SentKinds(d: S.Download, ev: TunnelEvent)
    requires S.ResponseInv(d) && Streaming(d) && ev in d.sent
    ensures ev.Data? || ev.Error?
  {
    if !ev.Error? {
      OrderedHas(d.sent, ev);
    }
  }

  lemma {:induction false} OrderedHas(evs: seq<TunnelEvent>, ev: TunnelEvent)
    requires ev in evs && !ev.Error?
    ensures ev in Ordered(evs)
  {
    if evs[0] != ev {
      OrderedHas(evs[1..], ev);
    }
  }

  lemma {:induction false} SubseqBytes(a: seq<TunnelEvent>, b: seq<TunnelEvent>)
    requires Subseq(a, b)
    ensures Bytes(a) <= Bytes(b)
    decreases |b|
  {
    if a != [] {
      var init, last := b[..|b| - 1], b[|b| - 1];
      DataBytesAppend(init, [last]);
      assert b == init + [last];
      if Subseq(a, init) {
        SubseqBytes(a, init);
      } else {
        SubseqBytes(a[..|a| - 1], init);
        DataBytesAppend(a[..|a| - 1], [last]);
        assert a == a[..|a| - 1] + [last];
      }
    }
  }

  /** What is in sight was dispatched or is queued. */
  lemma {:induction false} ViewBytes(queue: seq<Item>, cid: nat)
    ensures DataBytes(View(queue, cid)) == DataBytes(Proj(queue, cid))
    ensures forall ev :: ev in View(queue, cid) ==> ev == Error || ev in Proj(queue, cid)
  {
    if queue != [] {
      ViewBytes(queue[1..], cid);
      DataBytesAppend(Shows(queue[0], cid), View(queue[1..], cid));
      DataBytesAppend(For(queue[0], cid), Proj(queue[1..], cid));
      assert DataBytes([Error]) == [] + DataBytes([]) == [];
    }
  }

  /** Before a discard everything in sight is accounted for. */
  lemma InSight(s: System, cid: nat)
    requires Inv(s) && InOrder(s) && cid in s.conns && cid !in s.lost
    requires Exposed(s.conns[cid], InAir(s.air, cid))
    ensures var cn, air, view := s.conns[cid], InAir(s.air, cid), View(s.queue, cid);
      && cn.handoffs == 0 && AllData(cn.cli.recv) && AllData(air)
      && (forall i :: 0 <= i < |view| ==> view[i].Data? || view[i].Error?)
      && Bytes(cn.cli.recv) + Bytes(air) + Bytes(view) <= Bytes(cn.srv.down.sent)
  {
    hide Inv, InOrder, C.Inv, S.Inv, Carried, View, Proj, InAir, OrderInv, Exposed, DataBytes, AllData;
    var cn, air, view := s.conns[cid], InAir(s.air, cid), View(s.queue, cid);
    Parts(s, cid);
    HandoffFree(cn, air, view);
    OrderOf(s, cid);
    AccountedFor(cn, air, Proj(s.queue, cid));
    ViewBytes(s.queue, cid);
    ViewKinds(cn, air, Proj(s.queue, cid));
    forall i | 0 <= i < |view| ensures view[i].Data? || view[i].Error? {
      assert view[i] in view;
    }
  }

  lemma OrderOf(s: System, cid: nat)
    requires InOrder(s) && cid in s.conns
    ensures OrderInv(s.conns[cid], InAir(s.air, cid), Proj(s.queue, cid))
  {
    hide OrderInv;
  }

  lemma HandoffFree(cn: Conn, air: seq<TunnelEvent>, view: seq<TunnelEvent>)
    requires Carried(cn, air, view) && S.Inv(cn.srv) && Exposed(cn, air)
    ensures cn.handoffs == 0
  {
    if cn.handoffs > 0 {
      HandoffShields(cn, air, view);
    }
  }

  lemma ViewKinds(cn: Conn, air: seq<TunnelEvent>, queue: seq<TunnelEvent>)
    requires OrderInv(cn, air, queue) && S.Inv(cn.srv) && Exposed(cn, air)
    ensures forall ev :: ev in queue || ev in cn.dispatched ==> ev.Data? || ev.Error?
  {
    SubseqIn(cn.dispatched + queue, cn.srv.down.sent);
    forall ev | ev in queue || ev in cn.dispatched ensures ev.Data? || ev.Error? {
      assert ev in cn.dispatched + queue;
      SentKinds(cn.srv.down, ev);
    }
  }

  lemma AccountedFor(cn: Conn, air: seq<TunnelEvent>, queue: seq<TunnelEvent>)
    requires OrderInv(cn, air, queue) && S.Inv(cn.srv) && Exposed(cn, air)
    ensures AllData(cn.cli.recv) && AllData(air)
    ensures Bytes(cn.cli.recv) + Bytes(air) + Bytes(queue) <= Bytes(cn.srv.down.sent)
  {
    ViewKinds(cn, air, queue);
    var all := cn.dispatched;
    assert Close !in all;
    assert cn.cli.recv + air == all;
    assert forall ev :: ev in cn.cli.recv || ev in air ==> ev in all;
    DataBytesAppend(cn.cli.recv, air);
    DataBytesAppend(all, queue);
    SubseqBytes(all + queue, cn.srv.down.sent);
  }

  lemma DropIs(s: System)
    requires s.air.None?
    ensures var s' := Next(s, StreamDropped); s'.queue == [] && s'.conns == s.conns && s'.air == s.air
  {
    hide SendNext, BeginNext, AirNext, HandoffNext, PostNext, StaleAll, Killed, Harmed;
  }

  lemma DroppedLeavesGap(s: System, cid: nat)
    requires Inv(Next(s, StreamDropped)) && s.air.None? && cid in s.conns && DataBytes(View(s.queue, cid)) != []
    requires var cn := s.conns[cid];
      && Exposed(cn, []) && cn.handoffs == 0 && AllData(cn.cli.recv)
      && Bytes(cn.cli.recv) + Bytes(View(s.queue, cid)) <= Bytes(cn.srv.down.sent)
    ensures Gap(Next(s, StreamDropped), cid)
  {
    hide Inv, View, Next, Streaming, DataBytes;
    DropIs(s);
    ResetInView(cid);
    NoBarrier();
    assert InAir(s.air, cid) == [];
  }

  lemma NoBarrier()
    ensures !Barred([])
  {
  }

  lemma NothingInView(cid: nat)
    ensures View([], cid) == []
  {
  }

  lemma MissFrame(c: S.Conn)
    requires c.down.read.SendingChunk? && S.ResponseInv(c.down)
    ensures var c' := S.Next(c, S.ChunkSent);
      && c'.down.sent == c.down.sent + [Data(c.down.read.chunk)] && c'.down.read.Pulling? && c'.killed == c.killed
      && c'.down.targetRead == c.down.targetRead && c'.down.targetEof == c.down.targetEof
      && Bytes(c'.down.sent) == Bytes(c.down.sent) + |c.down.read.chunk| && c.down.read.chunk != []
  {
    DataBytesAppend(c.down.sent, [Data(c.down.read.chunk)]);
    assert DataBytes([Data(c.down.read.chunk)]) == c.down.read.chunk + [];
  }

  lemma MissedWasExposed(s: System, a: Action, cid: nat)
    requires !a.StreamDropped? && cid in Discards(s, a) && cid in s.conns && S.ResponseInv(s.conns[cid].srv.down)
    ensures a == Send(cid) && WillMiss(s, cid)
    ensures Exposed(s.conns[cid], InAir(s.air, cid)) && !Barred(View(s.queue, cid))
  {
    MissFrame(s.conns[cid].srv);
    hide S.Next, S.ResponseInv, View, InAir, Barred;
  }

  lemma MissedLeavesGap(s: System, cid: nat)
    requires Inv(Next(s, Send(cid))) && cid in s.conns && WillMiss(s, cid) && S.ResponseInv(s.conns[cid].srv.down)
    requires var cn, air, view := s.conns[cid], InAir(s.air, cid), View(s.queue, cid);
      && Exposed(cn, air) && !Barred(view) && cn.handoffs == 0 && AllData(cn.cli.recv) && AllData(air)
      && (forall i :: 0 <= i < |view| ==> view[i].Data? || view[i].Error?)
      && Bytes(cn.cli.recv) + Bytes(air) + Bytes(view) <= Bytes(cn.srv.down.sent)
    ensures Gap(Next(s, Send(cid)), cid)
  {
    MissFrame(s.conns[cid].srv);
    hide Inv, S.Next, S.ResponseInv, View, InAir, Barred, Harms;
    NextReaches(s, cid);
  }

  /** A harmful discard leaves a gap. */
  lemma DiscardLeavesGap(s: System, a: Action, cid: nat)
    requires Inv(s) && InOrder(s) && cid in s.conns && cid !in s.lost && cid in Discards(s, a)
    ensures Gap(Next(s, a), cid)
  {
    hide Inv, InOrder, Next, WillMiss, Gap, Streaming;
    NextKeepsInv(s, a);
    Parts(s, cid);
    if a.StreamDropped? {
      InSight(s, cid);
      hide Carried, C.Inv, S.Inv;
      assert DataBytes([]) == [];
      DroppedLeavesGap(s, cid);
    } else {
      assert S.ResponseInv(s.conns[cid].srv.down);
      hide Carried, C.Inv, S.Inv, S.ResponseInv;
      MissedWasExposed(s, a, cid);
      InSight(s, cid);
      MissedLeavesGap(s, cid);
    }
  }

  // ------------------------------------------------------- from a gap to the harm

  /** The same connection with its relay's consumer further on. */
  function Fed(cn: Conn, cli: C.Relay): Conn {
    cn.(cli := cli)
  }

  /** `cli'` is `cli` after taking some of its queue. */
  ghost predicate Took(cli: C.Relay, cli': C.Relay) {
    && cli'.recv == cli.recv && cli'.open == cli.open && cli'.taken >= cli.taken && !cli'.writer.exited
    && cli'.writer.responseClosed == cli.writer.responseClosed
  }

  lemma TakeFrame(cli: C.Relay)
    requires C.Inv(cli) && !cli.writer.exited && cli.taken < |cli.recv| && AllData(cli.recv)
    ensures var cli' := C.Next(cli, C.TakeEvent(None));
      && Took(cli, cli') && cli'.taken == cli.taken + 1
  {
    assert cli.recv[cli.taken].Data?;
  }

  lemma TakenWithin(cli: C.Relay)
    requires C.Inv(cli)
    ensures cli.taken <= |cli.recv|
  {
  }

  /** Only dropping a stream and sending can discard. */
  lemma TakesDiscardNothing(s: System, a: Action)
    requires !a.StreamDropped? && !a.Send?
    ensures Discards(s, a) == {}
  {
  }

  lemma FedGap(s: System, cid: nat, cli: C.Relay)
    requires Gap(s, cid) && Took(s.conns[cid].cli, cli) && Inv(Put(s, cid, Fed(s.conns[cid], cli)))
    ensures Gap(Put(s, cid, Fed(s.conns[cid], cli)), cid)
  {
    hide Inv, Barred, Streaming, View, InAir;
  }

  /** The consumer takes one event. */
  lemma TakeOne(s: System, cid: nat) returns (acts: seq<Action>, cli: C.Relay)
    requires Gap(s, cid) && s.conns[cid].cli.taken < |s.conns[cid].cli.recv|
    ensures var s' := Put(s, cid, Fed(s.conns[cid], cli)); Leads(s, acts, cid, s') && Gap(s', cid)
    ensures Took(s.conns[cid].cli, cli) && cli.taken == s.conns[cid].cli.taken + 1
  {
    hide Inv, Carried, S.Inv, C.Inv, C.Next, Leads, Next, Discards, Missing, View, InAir;
    var cn, a := s.conns[cid], Client(cid, C.TakeEvent(None));
    cli := C.Next(cn.cli, C.TakeEvent(None));
    Parts(s, cid);
    StillHere(cn, InAir(s.air, cid), View(s.queue, cid));
    TakeFrame(cn.cli);
    NextKeepsInv(s, a);
    NextTakes(s, cid);
    TakesDiscardNothing(s, a);
    acts := Go(s, a, cid);
    FedGap(s, cid, cli);
  }

  lemma CountTaken(s: System, cid: nat)
    requires Gap(s, cid)
    ensures cid in s.conns && s.conns[cid].cli.taken <= |s.conns[cid].cli.recv| && !s.conns[cid].cli.writer.exited
  {
    hide Inv, Carried, S.Inv, Barred, View, InAir;
    Parts(s, cid);
    TakenWithin(s.conns[cid].cli);
  }

  lemma FedTwice(s: System, cid: nat, cli: C.Relay, cli': C.Relay)
    requires cid in s.conns
    ensures var cn := s.conns[cid];
      Put(Put(s, cid, Fed(cn, cli)), cid, Fed(Fed(cn, cli), cli')) == Put(s, cid, Fed(cn, cli'))
    ensures Put(s, cid, Fed(s.conns[cid], s.conns[cid].cli)) == s
  {
  }

  lemma {:induction false} TakeMore(s: System, cid: nat, n: nat) returns (acts: seq<Action>, cli: C.Relay)
    requires Gap(s, cid) && cid in s.conns && n == |s.conns[cid].cli.recv| - s.conns[cid].cli.taken
    requires !s.conns[cid].cli.writer.exited
    ensures var s' := Put(s, cid, Fed(s.conns[cid], cli)); Leads(s, acts, cid, s') && Gap(s', cid)
    ensures Took(s.conns[cid].cli, cli) && cli.taken == |cli.recv|
    decreases n
  {
    hide Gap, Leads, Put;
    var cn := s.conns[cid];
    if n == 0 {
      cli := cn.cli;
      FedTwice(s, cid, cli, cli);
      acts := Stay(s, cid);
    } else {
      var first, cli1 := TakeOne(s, cid);
      var s1 := Put(s, cid, Fed(cn, cli1));
      PutIs(s, cid, Fed(cn, cli1));
      var rest;
      rest, cli := TakeMore(s1, cid, n - 1);
      FedTwice(s, cid, cli1, cli);
      Chain(s, first, s1, rest, Put(s, cid, Fed(cn, cli)), cid);
      acts := first + rest;
    }
  }

  lemma PutIs(s: System, cid: nat, cn: Conn)
    ensures cid in Put(s, cid, cn).conns && Put(s, cid, cn).conns[cid] == cn
  {
  }

  /** The consumer takes all it has. */
  lemma TakeAll(s: System, cid: nat) returns (acts: seq<Action>, cli: C.Relay)
    requires Gap(s, cid)
    ensures cid in s.conns
    ensures var s' := Put(s, cid, Fed(s.conns[cid], cli)); Leads(s, acts, cid, s') && Gap(s', cid)
    ensures Took(s.conns[cid].cli, cli) && cli.taken == |cli.recv|
  {
    CountTaken(s, cid);
    hide Gap, Leads, Put;
    acts, cli := TakeMore(s, cid, |s.conns[cid].cli.recv| - s.conns[cid].cli.taken);
  }

  // -------------------------------------------------------- emptying the dispatch

  /** The dispatch in the air has landed, and the queue is as it was. */
  ghost predicate Clear(s: System, s': System) {
    s'.air.None? && s'.queue == s.queue && s'.live == s.live && s'.reading == s.reading && s'.gen == s.gen
  }

  lemma LandedMissing(cn: Conn, cli: C.Relay, ev: TunnelEvent, view: seq<TunnelEvent>)
    requires Missing(cn, [ev], view) && cli.recv == cn.cli.recv + [ev] && cli.writer == cn.cli.writer
    ensures Missing(cn.(cli := cli), [], view)
  {
    hide Barred, Streaming;
    DataBytesAppend(cn.cli.recv, [ev]);
    assert [ev][0].Data?;
    assert DataBytes([]) == [];
  }

  /** The queue has been emptied into the app, and takes the event in the air. */
  lemma LandDrained(s: System, cid: nat) returns (acts: seq<Action>, s': System)
    requires Gap(s, cid) && s.air.Some? && s.air.value.Item? && s.air.value.cid == cid
    requires C.QueueLength(s.conns[cid].cli) == 0
    ensures Leads(s, acts, cid, s') && Gap(s', cid) && Clear(s, s')
    ensures var cn, cn' := s.conns[cid], s'.conns[cid];
      && cn'.srv == cn.srv && cn'.clone == cn.clone && cn'.cli.recv == cn.cli.recv + [s.air.value.ev]
      && cn'.cli.taken == cn.cli.taken
  {
    hide Inv, Carried, S.Inv, C.Inv, Leads, Next, Discards, Missing, View, C.Next;
    var cn, ev := s.conns[cid], s.air.value.ev;
    Parts(s, cid);
    StillHere(cn, InAir(s.air, cid), View(s.queue, cid));
    NextKeepsInv(s, DeliverEvent);
    NextIsAir(s, DeliverEvent);
    DeliverFrame(cn.cli, ev);
    TakenStays(cn.cli, ev);
    var cli := C.Next(cn.cli, C.Deliver(ev));
    s' := Put(s, cid, cn.(cli := cli)).(air := None);
    assert AirNext(s, DeliverEvent) == s';
    LandedMissing(cn, cli, ev, View(s.queue, cid));
    TakesDiscardNothing(s, DeliverEvent);
    acts := Go(s, DeliverEvent, cid);
  }

  lemma StillHere(cn: Conn, air: seq<TunnelEvent>, view: seq<TunnelEvent>)
    requires Missing(cn, air, view)
    ensures cn.registered && !cn.cli.writer.exited && !cn.srv.killed && cn.handoffs == 0 && AllData(cn.cli.recv)
  {
    hide Barred, Streaming;
  }

  lemma LandMine(s: System, cid: nat) returns (acts: seq<Action>, s': System)
    requires Gap(s, cid) && s.air.Some? && s.air.value.Item? && s.air.value.cid == cid
    ensures Leads(s, acts, cid, s') && Gap(s', cid) && Clear(s, s')
    ensures var cn, cn' := s.conns[cid], s'.conns[cid];
      && cn'.srv == cn.srv && cn'.clone == cn.clone && cn'.cli.recv == cn.cli.recv + [s.air.value.ev]
      && cn'.cli.taken == |cn.cli.recv|
  {
    hide Leads, Gap;
    var cli;
    acts, cli := TakeAll(s, cid);
    var s1 := Put(s, cid, Fed(s.conns[cid], cli));
    var last;
    last, s' := LandDrained(s1, cid);
    Chain(s, acts, s1, last, s', cid);
    acts := acts + last;
  }

  lemma TakenStays(cli: C.Relay, ev: TunnelEvent)
    ensures C.Next(cli, C.Deliver(ev)).taken == cli.taken
  {
  }

  lemma LandOther(s: System, cid: nat) returns (acts: seq<Action>, s': System)
    requires Gap(s, cid) && s.air.Some? && s.air.value.Item? && s.air.value.cid != cid
    ensures Leads(s, acts, cid, s') && Gap(s', cid) && Clear(s, s') && s'.conns[cid] == s.conns[cid]
  {
    hide Inv, Next, Leads, Barred, Streaming, View;
    DispatchCanLand(s);
    var a: Action :| (a.DeliverEvent? || a.ReceiverDropped? || a.Stall?) && Next(s, a).air.None?;
    s' := Next(s, a);
    DispatchIsIsolated(s, a);
    AirStays(s, a);
    NextKeepsInv(s, a);
    assert InAir(s.air, cid) == [] && InAir(s'.air, cid) == [];
    acts := Go(s, a, cid);
  }

  lemma AirStays(s: System, a: Action)
    requires a.DeliverEvent? || a.ReceiverDropped? || a.Stall?
    ensures var s' := Next(s, a); s'.live == s.live && s'.reading == s.reading && s'.gen == s.gen && s'.known == s.known
  {
    NextIsAir(s, a);
    hide Next, C.Next, Settle;
  }

  lemma Land(s: System, cid: nat) returns (acts: seq<Action>, s': System)
    requires Gap(s, cid)
    ensures Leads(s, acts, cid, s') && Gap(s', cid) && Clear(s, s')
  {
    hide Inv, Carried, S.Inv, C.Inv, Missing, Leads, View, InAir;
    Parts(s, cid);
    if s.air.None? {
      acts := Stay(s, cid);
      s' := s;
    } else if s.air.value.cid == cid {
      acts, s' := LandMine(s, cid);
    } else {
      acts, s' := LandOther(s, cid);
    }
  }

  lemma BarredByFirst(rest: seq<TunnelEvent>)
    ensures DataBytes([Error] + rest) != [] ==> Barred([Error] + rest)
  {
    var view := [Error] + rest;
    assert view[0] == Error && view[1..] == rest;
  }

  /** With data for it still queued, the head of the queue is no obstacle. */
  lemma HeadIsFree(s: System, cid: nat)
    requires Gap(s, cid) && s.queue != [] && DataBytes(View(s.queue, cid)) != []
    ensures s.queue[0].Item? && s.queue[0].cid in s.conns && (s.queue[0].cid == cid ==> s.queue[0].ev.Data?)
  {
    hide ConnInv, Streaming, Barred, DataBytes;
    BarredByFirst(View(s.queue[1..], cid));
    ViewCons(s.queue, cid);
    assert Shows(s.queue[0], cid) != [Error];
    if s.queue[0].cid == cid {
      assert View(s.queue, cid)[0] == s.queue[0].ev;
    }
  }

  lemma BegunMissing(cn: Conn, ev: TunnelEvent, view: seq<TunnelEvent>)
    requires Missing(cn, [], [ev] + view) && ev.Data?
    ensures Missing(cn.(dispatched := cn.dispatched + [ev]), [ev], view)
  {
    PastErrorAppend([ev], view);
    DataBytesAppend([ev], view);
    assert forall i :: 0 <= i < |view| ==> view[i] == ([ev] + view)[i + 1];
    assert DataBytes([]) == [];
    hide Streaming, PastError;
  }

  lemma BegunGap(s: System, cid: nat)
    requires Gap(s, cid) && s.air.None? && s.queue != [] && s.queue[0].Item? && Inv(BeginNext(s))
    requires s.queue[0].cid in s.conns && (s.queue[0].cid == cid ==> s.queue[0].ev.Data?)
    ensures Gap(BeginNext(s), cid) && BeginNext(s).queue == s.queue[1..]
  {
    hide Inv, Missing, View;
    BeginOthers(s, s.queue[0].cid);
    assert InAir(s.air, cid) == [];
    if s.queue[0].cid == cid {
      StillHere(s.conns[cid], [], View(s.queue, cid));
      BegunMissing(s.conns[cid], s.queue[0].ev, View(s.queue[1..], cid));
    }
  }

  /** One more item leaves the queue. */
  lemma BeginOne(s: System, cid: nat) returns (acts: seq<Action>, s': System)
    requires Gap(s, cid) && s.air.None? && DataBytes(View(s.queue, cid)) != []
    ensures Leads(s, acts, cid, s') && Gap(s', cid) && |s'.queue| < |s.queue|
  {
    hide Inv, Leads, Next, View, Discards, Gap, BeginNext;
    if s.queue == [] {
      NothingInView(cid);
    }
    HeadIsFree(s, cid);
    GapIsInv(s, cid);
    NextKeepsInv(s, Begin);
    BeginIs(s);
    BegunGap(s, cid);
    TakesDiscardNothing(s, Begin);
    s' := BeginNext(s);
    acts := Go(s, Begin, cid);
  }

  lemma GapIsInv(s: System, cid: nat)
    requires Gap(s, cid)
    ensures Inv(s)
  {
    hide Inv;
  }

  lemma {:induction false} DispatchData(s: System, cid: nat) returns (acts: seq<Action>, s': System)
    requires Gap(s, cid)
    ensures Leads(s, acts, cid, s') && Gap(s', cid) && s'.air.None? && DataBytes(View(s'.queue, cid)) == []
    decreases |s.queue|
  {
    hide Gap, Leads, View;
    var s1;
    acts, s1 := Land(s, cid);
    s' := s1;
    if DataBytes(View(s1.queue, cid)) != [] {
      var begin, s2 := BeginOne(s1, cid);
      Chain(s, acts, s1, begin, s2, cid);
      var rest;
      rest, s' := DispatchData(s2, cid);
      Chain(s, acts + begin, s2, rest, s', cid);
      acts := acts + begin + rest;
    }
  }

  // ------------------------------------------------------------ a fresh stream

  /** The rest of the queue, without data for this connection, is discarded. */
  lemma FreedMissing(cn: Conn, view: seq<TunnelEvent>)
    requires Missing(cn, [], view)
    ensures Missing(cn, [], []) && Missing(cn, [], [Error])
  {
    hide Streaming;
    assert [Error][1..] == [] && DataBytes([]) == [] && DataBytes([Error]) == [] + [];
    assert PastError([]) == [] && PastError([Error]) == [];
  }

  lemma DropStep(s: System, cid: nat)
    requires Gap(s, cid) && s.air.None? && DataBytes(View(s.queue, cid)) == []
    ensures cid !in Discards(s, StreamDropped)
    ensures var s' := Next(s, StreamDropped);
      && Gap(s', cid) && s'.conns == s.conns && s'.air.None? && s'.queue == [] && !s'.live && s'.known == s.known
  {
    hide Inv, Missing, View, SendNext, BeginNext, AirNext, HandoffNext, PostNext, StaleAll, Killed;
    NextKeepsInv(s, StreamDropped);
    NothingInView(cid);
    assert InAir(s.air, cid) == [];
    FreedMissing(s.conns[cid], View(s.queue, cid));
  }

  lemma OpenStep(s: System, cid: nat)
    requires Gap(s, cid) && s.air.None? && s.queue == [] && !s.live
    ensures cid !in Discards(s, StreamOpened)
    ensures var s' := Next(s, StreamOpened);
      && Gap(s', cid) && s'.conns == s.conns && s'.air.None? && s'.live && s'.known && s'.gen == s'.reading
      && s'.queue == (if s.known then [] else [ResetItem]) && DataBytes(View(s'.queue, cid)) == []
  {
    hide Inv, Missing, View, SendNext, BeginNext, AirNext, HandoffNext, PostNext, StaleAll, Killed, Harmed;
    NextKeepsInv(s, StreamOpened);
    ResetInView(cid);
    assert InAir(s.air, cid) == [];
    FreedMissing(s.conns[cid], View(s.queue, cid));
  }

  lemma ResetInView(cid: nat)
    ensures View([], cid) == [] && View([ResetItem], cid) == [Error]
    ensures DataBytes([]) == [] && DataBytes([Error]) == []
  {
    assert View([ResetItem], cid) == [Error] + [];
    assert DataBytes([Error]) == [] + DataBytes([]);
  }

  lemma Reopen(s: System, cid: nat) returns (acts: seq<Action>, s': System)
    requires Gap(s, cid) && s.air.None? && DataBytes(View(s.queue, cid)) == []
    ensures Leads(s, acts, cid, s') && Gap(s', cid) && s'.conns == s.conns && s'.air.None?
    ensures s'.live && s'.gen == s'.reading && s'.known && s'.queue == (if s.known then [] else [ResetItem])
    ensures DataBytes(View(s'.queue, cid)) == []
  {
    hide Gap, Next, Leads, Discards, View;
    DropStep(s, cid);
    var drop := Go(s, StreamDropped, cid);
    var s1 := Next(s, StreamDropped);
    OpenStep(s1, cid);
    var open := Go(s1, StreamOpened, cid);
    s' := Next(s1, StreamOpened);
    Chain(s, drop, s1, open, s', cid);
    acts := drop + open;
  }

  lemma FreshStream(s: System, cid: nat) returns (acts: seq<Action>, s': System)
    requires Gap(s, cid)
    ensures Leads(s, acts, cid, s') && Gap(s', cid) && Fresh(s')
  {
    hide Gap, Next, Leads, View;
    var s1;
    acts, s1 := DispatchData(s, cid);
    var once, s2 := Reopen(s1, cid);
    Chain(s, acts, s1, once, s2, cid);
    var twice, s3 := Reopen(s2, cid);
    Chain(s, acts + once, s2, twice, s3, cid);
    acts, s' := acts + once + twice, s3;
  }

  // ----------------------------------------------------------- the end of it all

  /** The server side after the read task has enqueued `ev` through `sa`. */
  ghost predicate Readies(cn: Conn, sa: S.Action, ev: TunnelEvent) {
    || (sa == S.ChunkSent && cn.srv.down.read.SendingChunk? && ev == Data(cn.srv.down.read.chunk))
    || (sa == S.EndSent && cn.srv.down.read.SendingEnd? && ev == Close && cn.srv.down.read.end.Close?)
  }

  /** The system with that event on its fresh stream. */
  function Queued(s: System, cid: nat, sa: S.Action, ev: TunnelEvent): System
    requires cid in s.conns
  {
    Put(s, cid, s.conns[cid].(srv := S.Next(s.conns[cid].srv, sa), clone := None)).(queue := s.queue + [Item(cid, ev)])
  }

  lemma SendsQueued(s: System, cid: nat, sa: S.Action, ev: TunnelEvent)
    requires cid in s.conns && Fresh(s) && s.conns[cid].clone == Some(s.reading) && Readies(s.conns[cid], sa, ev)
    ensures Next(s, Send(cid)) == Queued(s, cid, sa, ev) && cid !in Discards(s, Send(cid))
  {
    NextReaches(s, cid);
    hide Next, S.Next, Harms;
  }

  lemma NextClones(s: System, cid: nat)
    requires cid in s.conns && !s.conns[cid].srv.killed
    ensures Next(s, CloneSender(cid)) == Put(s, cid, s.conns[cid].(clone := Some(s.gen)))
    ensures Discards(s, CloneSender(cid)) == {}
  {
    hide SendNext, BeginNext, AirNext, HandoffNext, PostNext, StaleAll, Killed, Harmed;
  }

  /** The queue's only item, for this connection, goes up. */
  function Raised(s: System, cid: nat, ev: TunnelEvent): System
    requires cid in s.conns
  {
    Put(s, cid, s.conns[cid].(dispatched := s.conns[cid].dispatched + [ev])).(queue := [], air := Some(Item(cid, ev)))
  }

  lemma NextRaises(s: System, cid: nat, ev: TunnelEvent)
    requires cid in s.conns && s.conns[cid].registered && s.air.None? && s.queue == [Item(cid, ev)]
    ensures Next(s, Begin) == Raised(s, cid, ev)
  {
    BeginIs(s);
    hide Next;
    assert s.queue[1..] == [];
  }

  /** The connection once `sa` has enqueued one more event. */
  function Served(cn: Conn, sa: S.Action): Conn {
    cn.(srv := S.Next(cn.srv, sa), clone := None)
  }

  lemma FreshIs(s: System)
    requires Fresh(s)
    ensures s.live && s.gen == s.reading && s.queue == [] && s.air.None?
  {
  }

  lemma CloneReadies(s: System, cid: nat, sa: S.Action, ev: TunnelEvent)
    requires cid in s.conns && Fresh(s) && Readies(s.conns[cid], sa, ev)
    ensures var s1 := Put(s, cid, s.conns[cid].(clone := Some(s.gen)));
      && Fresh(s1) && Readies(s1.conns[cid], sa, ev)
      && Queued(s1, cid, sa, ev) == Put(s, cid, Served(s.conns[cid], sa)).(queue := [Item(cid, ev)])
  {
    hide S.Next;
    var cn := s.conns[cid];
    assert Served(cn.(clone := Some(s.gen)), sa) == Served(cn, sa);
    assert s.conns[cid := cn.(clone := Some(s.gen))][cid := Served(cn, sa)] == s.conns[cid := Served(cn, sa)];
    assert [] + [Item(cid, ev)] == [Item(cid, ev)];
  }

  lemma QueueOne(s: System, cid: nat, sa: S.Action, ev: TunnelEvent) returns (acts: seq<Action>, s': System)
    requires Inv(s) && cid in s.conns && Fresh(s) && Readies(s.conns[cid], sa, ev) && !s.conns[cid].srv.killed
    ensures Leads(s, acts, cid, s') && Inv(s')
    ensures s' == Put(s, cid, Served(s.conns[cid], sa)).(queue := [Item(cid, ev)])
  {
    hide Inv, Next, Discards, Leads, S.Next, Queued, Readies, Fresh;
    var cn := s.conns[cid];
    FreshIs(s);
    NextClones(s, cid);
    NextKeepsInv(s, CloneSender(cid));
    var first := Go(s, CloneSender(cid), cid);
    var s1 := Put(s, cid, cn.(clone := Some(s.gen)));
    CloneReadies(s, cid, sa, ev);
    SendsQueued(s1, cid, sa, ev);
    NextKeepsInv(s1, Send(cid));
    var second := Go(s1, Send(cid), cid);
    s' := Put(s, cid, Served(cn, sa)).(queue := [Item(cid, ev)]);
    Chain(s, first, s1, second, s', cid);
    acts := first + second;
  }

  /** The way of one event from the server's hand into the air. */
  lemma RaiseOne(s: System, cid: nat, sa: S.Action, ev: TunnelEvent) returns (acts: seq<Action>, s': System)
    requires Inv(s) && cid in s.conns && Fresh(s) && Readies(s.conns[cid], sa, ev)
    requires !s.conns[cid].srv.killed && s.conns[cid].registered
    ensures Leads(s, acts, cid, s') && Inv(s') && cid in s'.conns && s'.air == Some(Item(cid, ev)) && s'.queue == []
    ensures s'.live == s.live && s'.gen == s.gen && s'.reading == s.reading
    ensures s'.conns[cid] == Served(s.conns[cid], sa).(dispatched := s.conns[cid].dispatched + [ev])
  {
    hide Inv, Next, Discards, Leads, S.Next, Readies;
    var first, s1 := QueueOne(s, cid, sa, ev);
    NextRaises(s1, cid, ev);
    NextKeepsInv(s1, Begin);
    TakesDiscardNothing(s1, Begin);
    var second := Go(s1, Begin, cid);
    s' := Raised(s1, cid, ev);
    Chain(s, first, s1, second, s', cid);
    acts := first + second;
  }

  lemma FlushMissing(cn: Conn, cn': Conn)
    requires Missing(cn, [], []) && cn.srv.down.read.SendingChunk? && S.ResponseInv(cn.srv.down)
    requires cn'.srv == S.Next(cn.srv, S.ChunkSent) && cn'.cli == cn.cli
    requires cn'.registered == cn.registered && cn'.handoffs == cn.handoffs
    ensures Missing(cn', [Data(cn.srv.down.read.chunk)], []) && cn'.srv.down.read.Pulling?
  {
    MissFrame(cn.srv);
    var ev := Data(cn.srv.down.read.chunk);
    assert DataBytes([ev]) == ev.bytes + [] && DataBytes([]) == [];
    hide S.Next, S.ResponseInv, Barred;
  }

  lemma GapOf(s: System, cid: nat)
    requires Gap(s, cid) && Fresh(s)
    ensures Inv(s) && cid in s.conns && Missing(s.conns[cid], [], []) && S.Inv(s.conns[cid].srv) &&
      C.Inv(s.conns[cid].cli)
    ensures s.conns[cid].registered && !s.conns[cid].srv.killed && s.conns[cid].handoffs == 0
    ensures !s.conns[cid].cli.writer.exited && Streaming(s.conns[cid].srv.down)
  {
    hide Inv, Carried, S.Inv, C.Inv, View, Streaming;
    Parts(s, cid);
    NothingInView(cid);
  }

  lemma GapFrom(s: System, cid: nat, ev: TunnelEvent)
    requires Inv(s) && cid in s.conns && s.air == Some(Item(cid, ev)) && s.queue == [] &&
      Missing(s.conns[cid], [ev], [])
    ensures Gap(s, cid)
  {
    hide Inv, Missing, View;
    NothingInView(cid);
    assert InAir(s.air, cid) == [ev];
  }

  /** The chunk in hand is delivered, so the read task is back at its target. */
  lemma FlushChunk(s: System, cid: nat) returns (acts: seq<Action>, s': System)
    requires Gap(s, cid) && Fresh(s) && cid in s.conns && s.conns[cid].srv.down.read.SendingChunk?
    ensures Leads(s, acts, cid, s') && Gap(s', cid) && Fresh(s') && cid in s'.conns
    ensures s'.conns[cid].srv.down.read.Pulling?
  {
    hide Inv, Gap, Leads, Missing, S.ResponseInv, S.UploadInv, S.TeardownInv, C.Inv, S.Next;
    GapOf(s, cid);
    var cn := s.conns[cid];
    var ev := Data(cn.srv.down.read.chunk);
    var first, s1 := RaiseOne(s, cid, S.ChunkSent, ev);
    FlushMissing(cn, s1.conns[cid]);
    GapFrom(s1, cid, ev);
    var second;
    second, s' := LandMine(s1, cid);
    GapIsHere(s', cid);
    Chain(s, first, s1, second, s', cid);
    acts := first + second;
  }

  lemma GapIsHere(s: System, cid: nat)
    requires Gap(s, cid)
    ensures cid in s.conns
  {
    hide Inv, Missing;
  }

  lemma NextPulls(s: System, cid: nat)
    requires cid in s.conns
    ensures Next(s, Server(cid, S.PullEof)) == Put(s, cid, s.conns[cid].(srv := S.Next(s.conns[cid].srv, S.PullEof)))
  {
    hide S.Next, SendNext, BeginNext, AirNext, HandoffNext, PostNext, StaleAll, Killed, Harmed;
  }

  lemma EofMissing(cn: Conn)
    requires Missing(cn, [], []) && cn.srv.down.read.Pulling?
    ensures var cn' := cn.(srv := S.Next(cn.srv, S.PullEof));
      Missing(cn', [], []) && cn'.srv.down.read.SendingEnd? && cn'.srv.down.read.end.Close?
  {
    hide Barred;
  }

  lemma GapAgain(s: System, cid: nat)
    requires Inv(s) && Fresh(s) && cid in s.conns && Missing(s.conns[cid], [], [])
    ensures Gap(s, cid)
  {
    hide Inv, Missing, View;
    NothingInView(cid);
    assert InAir(s.air, cid) == [];
  }

  lemma TargetEnds(s: System, cid: nat) returns (acts: seq<Action>, s': System)
    requires Gap(s, cid) && Fresh(s) && cid in s.conns && s.conns[cid].srv.down.read.Pulling?
    ensures Leads(s, acts, cid, s') && Gap(s', cid) && Fresh(s') && cid in s'.conns
    ensures s'.conns[cid].srv.down.read.SendingEnd? && s'.conns[cid].srv.down.read.end.Close?
  {
    hide Inv, Gap, Leads, Missing, S.Inv, C.Inv, S.Next, Next, Discards;
    GapOf(s, cid);
    var a := Server(cid, S.PullEof);
    NextPulls(s, cid);
    NextKeepsInv(s, a);
    TakesDiscardNothing(s, a);
    EofMissing(s.conns[cid]);
    acts := Go(s, a, cid);
    s' := Next(s, a);
    GapAgain(s', cid);
  }

  /** The last step: the app takes the `Close` and has seen the end. */
  lemma CloseBreaks(cli: C.Relay, d: S.Download)
    requires C.Inv(cli) && S.ResponseInv(d) && !cli.writer.exited
    requires cli.recv != [] && cli.taken == |cli.recv| - 1 && cli.recv[cli.taken] == Close
    requires Bytes(cli.recv) < Bytes(d.sent)
    ensures var w := C.Next(cli, C.TakeEvent(None)).writer; w.responseClosed && w.written != d.targetRead
  {
    var seen := C.Seen(cli);
    DataBytesPrefix(seen, cli.recv);
    assert cli.writer.written == DataBytes(seen);
    assert C.Next(cli, C.TakeEvent(None)).writer.written == cli.writer.written;
  }

  /** A `Close` in the air for a relay that has taken all its queue. */
  lemma CloseLands(s: System, cid: nat) returns (acts: seq<Action>, s': System)
    requires Inv(s) && cid in s.conns && s.air == Some(Item(cid, Close))
    requires var cn := s.conns[cid];
      && cn.registered && cn.handoffs == 0 && !cn.cli.writer.exited && C.QueueLength(cn.cli) == 0
      && Bytes(cn.cli.recv) < Bytes(cn.srv.down.sent)
    ensures Leads(s, acts, cid, s') && cid in s'.conns && Broken(s'.conns[cid])
  {
    hide Inv, Leads, Next, Discards, C.Next, S.UploadInv, S.TeardownInv, S.ResponseInv, C.Inv, Carried, View;
    var cn := s.conns[cid];
    Parts(s, cid);
    NextIsAir(s, DeliverEvent);
    DeliverFrame(cn.cli, Close);
    TakenStays(cn.cli, Close);
    TakesDiscardNothing(s, DeliverEvent);
    NextKeepsInv(s, DeliverEvent);
    var cli := C.Next(cn.cli, C.Deliver(Close));
    var s1 := Put(s, cid, cn.(cli := cli)).(air := None);
    assert AirNext(s, DeliverEvent) == s1;
    var first := Go(s, DeliverEvent, cid);
    Parts(s1, cid);
    NextTakes(s1, cid);
    var a := Client(cid, C.TakeEvent(None));
    TakesDiscardNothing(s1, a);
    var second := Go(s1, a, cid);
    s' := Next(s1, a);
    CloseAddsNothing(cn.cli.recv);
    CloseBreaks(cli, cn.srv.down);
    Chain(s, first, s1, second, s', cid);
    acts := first + second;
  }

  lemma CloseAddsNothing(evs: seq<TunnelEvent>)
    ensures Bytes(evs + [Close]) == Bytes(evs)
  {
    DataBytesAppend(evs, [Close]);
    assert DataBytes([Close]) == [] + DataBytes([]);
  }

  lemma EndFrame(c: S.Conn)
    requires c.down.read.SendingEnd? && c.down.read.end.Close?
    ensures S.Next(c, S.EndSent).down.sent == c.down.sent + [Close]
  {
  }

  /** From a fresh stream and the target's end, the harm is four steps away. */
  lemma CloseComes(s: System, cid: nat) returns (acts: seq<Action>, s': System)
    requires Gap(s, cid) && Fresh(s) && cid in s.conns
    requires s.conns[cid].srv.down.read.SendingEnd? && s.conns[cid].srv.down.read.end.Close?
    ensures Leads(s, acts, cid, s') && cid in s'.conns && Broken(s'.conns[cid])
  {
    hide Inv, Gap, Leads, Missing, S.Inv, C.Inv, S.Next, Streaming;
    var first, cli := TakeAll(s, cid);
    var s1 := Put(s, cid, Fed(s.conns[cid], cli));
    GapOf(s1, cid);
    StillMissing(s1.conns[cid]);
    var second, s2 := RaiseOne(s1, cid, S.EndSent, Close);
    Chain(s, first, s1, second, s2, cid);
    EndFrame(s1.conns[cid].srv);
    CloseAddsNothing(s1.conns[cid].srv.down.sent);
    var third;
    third, s' := CloseLands(s2, cid);
    Chain(s, first + second, s2, third, s', cid);
    acts := first + second + third;
  }

  lemma StillMissing(cn: Conn)
    requires Missing(cn, [], [])
    ensures Bytes(cn.cli.recv) < Bytes(cn.srv.down.sent)
  {
    hide Barred, Streaming;
  }

  /** From any gap the app can be led to a clean end on too little. */
  lemma GapBreaks(s: System, cid: nat) returns (acts: seq<Action>)
    requires Gap(s, cid)
    ensures Spares(s, acts, cid) && cid in Run(s, acts).conns && Broken(Run(s, acts).conns[cid])
  {
    hide Inv, Gap, Missing, S.Inv, C.Inv, Next, Discards;
    var s1;
    acts, s1 := FreshStream(s, cid);
    GapOf(s1, cid);
    var s2 := s1;
    if s1.conns[cid].srv.down.read.SendingChunk? {
      var flush;
      flush, s2 := FlushChunk(s1, cid);
      Chain(s, acts, s1, flush, s2, cid);
      acts := acts + flush;
    }
    var s3 := s2;
    if s2.conns[cid].srv.down.read.Pulling? {
      var end;
      end, s3 := TargetEnds(s2, cid);
      Chain(s, acts, s2, end, s3, cid);
      acts := acts + end;
    }
    GapOf(s2, cid);
    var close, s4 := CloseComes(s3, cid);
    Chain(s, acts, s3, close, s4, cid);
    acts := acts + close;
  }

  ghost predicate BreaksLater(s: System, acts: seq<Action>, cid: nat) {
    Spares(s, acts, cid) && cid in Run(s, acts).conns && Broken(Run(s, acts).conns[cid])
  }

  /** The condition of response integrity, exactly: in every state of the tunnel
      and for every action, the action marks an intact connection as lost if and
      only if some continuation that discards nothing more of it leads its app to
      a clean end-of-stream on less than the target sent. */
  lemma LossIsExact(s: System, a: Action, cid: nat)
    requires Inv(s) && InOrder(s) && cid in s.conns && cid !in s.lost
    ensures cid in Next(s, a).lost <==> exists acts :: BreaksLater(Next(s, a), acts, cid)
  {
    hide Inv, InOrder, Next, Discards, Gap, Broken, Spares;
    LostIsDiscarded(s, a);
    NextKeepsInv(s, a);
    if cid in Discards(s, a) {
      DiscardLeavesGap(s, a, cid);
      var acts := GapBreaks(Next(s, a), cid);
      assert BreaksLater(Next(s, a), acts, cid);
    } else {
      forall acts | Spares(Next(s, a), acts, cid) ensures !BreaksLater(Next(s, a), acts, cid) {
        SparedStaysWhole(Next(s, a), acts, cid);
      }
    }
  }

  /** So a dropped stream harms a connection if and only if its app has heard no
      error, its server still streams, and its share of the queue has data in it. */
  lemma DiscardHarmsExactly(s: System, cid: nat)
    requires Inv(s) && InOrder(s) && s.air.None? && cid in s.conns && cid !in s.lost
    ensures (exists acts :: BreaksLater(Next(s, StreamDropped), acts, cid)) <==>
      Exposed(s.conns[cid], []) && DataBytes(View(s.queue, cid)) != []
  {
    hide Inv, InOrder, BreaksLater, Exposed, View, Next, Discards;
    LossIsExact(s, StreamDropped, cid);
    LostIsDiscarded(s, StreamDropped);
    DropDiscards(s, cid);
  }

  lemma DropDiscards(s: System, cid: nat)
    requires s.air.None? && cid in s.conns
    ensures cid in Discards(s, StreamDropped) <==> Exposed(s.conns[cid], []) && DataBytes(View(s.queue, cid)) != []
  {
    hide Exposed, View, DataBytes;
    assert InAir(s.air, cid) == [];
  }

  lemma SendDiscards(s: System, cid: nat)
    requires cid in s.conns && S.ResponseInv(s.conns[cid].srv.down)
    requires s.conns[cid].clone.Some? && !Reaches(s, s.conns[cid].clone) && s.conns[cid].srv.down.read.SendingChunk?
    ensures cid in Discards(s, Send(cid)) <==> Exposed(s.conns[cid], InAir(s.air, cid)) && !Barred(View(s.queue, cid))
  {
    MissFrame(s.conns[cid].srv);
    hide View, Barred, InAir, S.Next, S.ResponseInv;
  }

  /** And an enqueue that nobody reads if and only if what it carries is data, its
      app has heard no error, and no data queued for it lies behind an error or a
      Reset. */
  lemma SwallowHarmsExactly(s: System, cid: nat)
    requires Inv(s) && InOrder(s) && cid in s.conns && cid !in s.lost
    requires s.conns[cid].clone.Some? && !Reaches(s, s.conns[cid].clone) && s.conns[cid].srv.down.read.SendingChunk?
    ensures (exists acts :: BreaksLater(Next(s, Send(cid)), acts, cid)) <==>
      Exposed(s.conns[cid], InAir(s.air, cid)) && !Barred(View(s.queue, cid))
  {
    hide Inv, InOrder, BreaksLater, Exposed, View, Barred, InAir, C.Inv, Carried, Next, Discards, S.ResponseInv;
    LossIsExact(s, Send(cid), cid);
    LostIsDiscarded(s, Send(cid));
    Parts(s, cid);
    SendDiscards(s, cid);
  }
}
