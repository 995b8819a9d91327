/** In what order, and whence, a connection's events come: what the dispatch loop
    begins for it is part of what the server enqueued, in order, and what its queue
    receives is that, except that errors may pass a handed-off `Close`
    (src/tunnel.rs:474-525). */
module TunnelOrder {
  import opened Prelude
  import opened Events
  import opened Tunnel
  import opened TunnelInvariant
  import C = ClientRelay
  import S = ServerRelay

  // -------------------------------------------------------- a `Close` that waits

  /** The index of the first `Close`. */
  function CloseAt(evs: seq<TunnelEvent>): (k: nat)
    requires Close in evs
    ensures k < |evs| && evs[k] == Close && Close !in evs[..k]
  {
    if evs[0].Close? then 0
    else
      var k := CloseAt(evs[1..]) + 1;
      assert evs[..k] == [evs[0]] + evs[1..][..k - 1];
      k
  }

  /** The events without their first `Close`. */
  function Without(evs: seq<TunnelEvent>): seq<TunnelEvent>
    requires Close in evs
  {
    evs[..CloseAt(evs)] + evs[CloseAt(evs) + 1..]
  }

  /** The events with a `Close` put back behind the first `p`. */
  function Inserted(evs: seq<TunnelEvent>, p: nat): seq<TunnelEvent>
    requires p <= |evs|
  {
    evs[..p] + [Close] + evs[p..]
  }

  ghost predicate OnlyErrorsAfterClose(evs: seq<TunnelEvent>) {
    forall i, j :: 0 <= i < j < |evs| && evs[i].Close? ==> evs[j].Error?
  }

  /** Received in order: a prefix of what was dispatched, or of what that becomes
      when its `Close` is delayed behind some of the errors that follow it. */
  ghost predicate ReceivedInOrder(recv: seq<TunnelEvent>, dispatched: seq<TunnelEvent>) {
    || recv <= dispatched
    || (Close in dispatched && exists p ::
          CloseAt(dispatched) <= p <= |Without(dispatched)| && recv <= Inserted(Without(dispatched), p))
  }

  /** Nothing that was dispatched is missing, but for what is in the air or handed off. */
  ghost predicate AllArrived(cn: Conn, air: seq<TunnelEvent>) {
    var here, all := cn.cli.recv + air, cn.dispatched;
    if cn.handoffs > 0 then cn.handoffs == 1 && Close in all && here == Without(all)
    else
      || here == all
      || (Close in all && exists p ::
            CloseAt(all) <= p <= |Without(all)| && here == Inserted(Without(all), p))
  }

  lemma CloseIsAt(evs: seq<TunnelEvent>, k: nat)
    requires k < |evs| && evs[k] == Close && Close !in evs[..k]
    ensures CloseAt(evs) == k && Without(evs) == evs[..k] + evs[k + 1..]
  {
    var j := CloseAt(evs);
    assert forall i :: 0 <= i < k ==> evs[i] in evs[..k];
    assert forall i :: 0 <= i < j ==> evs[i] in evs[..j];
    assert j == k;
  }

  lemma CloseAtSnoc(evs: seq<TunnelEvent>, ev: TunnelEvent)
    requires Close in evs
    ensures CloseAt(evs + [ev]) == CloseAt(evs) && Without(evs + [ev]) == Without(evs) + [ev]
  {
    var all, k := evs + [ev], CloseAt(evs);
    assert all[..k] == evs[..k] && all[k + 1..] == evs[k + 1..] + [ev];
    CloseIsAt(all, k);
    ConcatAssoc(evs[..k], evs[k + 1..], [ev]);
  }

  lemma CloseSnoc(evs: seq<TunnelEvent>)
    requires Close !in evs
    ensures CloseAt(evs + [Close]) == |evs| && Without(evs + [Close]) == evs
  {
    var all := evs + [Close];
    assert all[..|evs|] == evs && all[|evs| + 1..] == [];
    CloseIsAt(all, |evs|);
    assert evs + [] == evs;
  }

  lemma InsertedSnoc(evs: seq<TunnelEvent>, ev: TunnelEvent, p: nat)
    requires p <= |evs|
    ensures Inserted(evs + [ev], p) == Inserted(evs, p) + [ev]
    ensures Inserted(evs, |evs|) == evs + [Close]
  {
    assert (evs + [ev])[..p] == evs[..p] && (evs + [ev])[p..] == evs[p..] + [ev];
    assert evs[..|evs|] == evs && evs[|evs|..] == [];
  }

  lemma WithoutHasNone(evs: seq<TunnelEvent>)
    requires Close in evs && OnlyErrorsAfterClose(evs)
    ensures Close !in Without(evs)
    ensures Inserted(Without(evs), CloseAt(evs)) == evs
    ensures forall i :: CloseAt(evs) <= i < |Without(evs)| ==> Without(evs)[i].Error?
  {
    var k, w := CloseAt(evs), Without(evs);
    assert w[..k] == evs[..k] && w[k..] == evs[k + 1..];
    assert evs == evs[..k] + [Close] + evs[k + 1..];
    forall i | k <= i < |w| ensures w[i].Error? {
      assert w[i] == evs[i + 1] && evs[k].Close?;
    }
    hide CloseAt, Without, OnlyErrorsAfterClose;
    assert forall i :: 0 <= i < k ==> w[i] in evs[..k];
  }

  // ------------------------------------------------------------------- invariant

  /** What has arrived and what is in the air, against an order of arrival. */
  ghost predicate Flows(cn: Conn, air: seq<TunnelEvent>, order: seq<TunnelEvent>) {
    && cn.cli.recv <= order
    && (!cn.cli.writer.exited ==> cn.cli.recv + air <= order)
    && (!cn.cli.writer.exited && cn.registered ==> cn.cli.recv + air == order)
  }

  ghost predicate Placed(cn: Conn, air: seq<TunnelEvent>) {
    var all := cn.dispatched;
    if Close !in all then cn.handoffs == 0 && Flows(cn, air, all)
    else if cn.handoffs > 0 then
      cn.handoffs == 1 && CloseAt(all) <= |cn.cli.recv| && Flows(cn, air, Without(all))
    else exists p :: CloseAt(all) <= p <= |Without(all)| && Flows(cn, air, Inserted(Without(all), p))
  }

  ghost predicate OrderInv(cn: Conn, air: seq<TunnelEvent>, queue: seq<TunnelEvent>) {
    && Subseq(cn.dispatched + queue, cn.srv.down.sent)
    && OnlyErrorsAfterClose(cn.dispatched + queue)
    && Placed(cn, air)
  }

  ghost predicate InOrder(s: System) {
    forall c :: c in s.conns ==> OrderInv(s.conns[c], InAir(s.air, c), Proj(s.queue, c))
  }

  // ------------------------------------------------------- one connection's steps

  /** `cn'` has had no event more than `cn`, and can be sent no more. */
  ghost predicate NoNews(cn: Conn, cn': Conn) {
    && cn'.cli.recv == cn.cli.recv && cn'.handoffs == cn.handoffs && cn'.dispatched == cn.dispatched
    && cn'.srv.down.sent == cn.srv.down.sent
    && (cn.cli.writer.exited ==> cn'.cli.writer.exited) && (cn'.registered ==> cn.registered)
  }

  lemma NoNewsKept(cn: Conn, cn': Conn, air: seq<TunnelEvent>, queue: seq<TunnelEvent>)
    requires OrderInv(cn, air, queue) && NoNews(cn, cn')
    ensures OrderInv(cn', air, queue)
  {
    hide Subseq, OnlyErrorsAfterClose, CloseAt, Without, Inserted;
    if Close in cn.dispatched && cn.handoffs == 0 {
      var all := cn.dispatched;
      var p :| CloseAt(all) <= p <= |Without(all)| && Flows(cn, air, Inserted(Without(all), p));
      assert Flows(cn', air, Inserted(Without(all), p));
    }
  }

  lemma SettleIsNoNews(cn: Conn, inAir: bool)
    ensures NoNews(cn, Settle(cn, inAir))
  {
  }

  lemma SentKept(cn: Conn, srv: S.Conn, clone: Option<nat>, ev: TunnelEvent,
                 air: seq<TunnelEvent>, queue: seq<TunnelEvent>, reaches: bool)
    requires OrderInv(cn, air, queue) && S.ResponseInv(cn.srv.down)
    requires srv.down.sent == cn.srv.down.sent + [ev] && (ev.Error? || !cn.srv.down.read.ReadDone?)
    ensures OrderInv(cn.(srv := srv, clone := clone), air, if reaches then queue + [ev] else queue)
  {
    var had, sent := cn.dispatched + queue, cn.srv.down.sent;
    SubseqSnoc(had, sent, ev);
    SubseqIn(had, sent);
    assert cn.dispatched + (queue + [ev]) == had + [ev];
    assert OnlyErrorsAfterClose(had + [ev]) by {
      if Close in had {
        assert Close in sent;
      }
    }
    PlacedApart(cn, cn.(srv := srv, clone := clone), air);
    hide Subseq, Placed;
  }

  lemma PlacedApart(cn: Conn, cn': Conn, air: seq<TunnelEvent>)
    requires Placed(cn, air)
    requires cn'.cli == cn.cli && cn'.handoffs == cn.handoffs && cn'.dispatched == cn.dispatched
    requires cn'.registered == cn.registered
    ensures Placed(cn', air)
  {
    if Close in cn.dispatched && cn.handoffs == 0 {
      var all := cn.dispatched;
      var p :| CloseAt(all) <= p <= |Without(all)| && Flows(cn, air, Inserted(Without(all), p));
      assert Flows(cn', air, Inserted(Without(all), p));
    }
  }

  lemma BegunFlows(cn: Conn, ev: TunnelEvent, order: seq<TunnelEvent>)
    requires Flows(cn, [], order) && cn.registered
    ensures Flows(cn.(dispatched := cn.dispatched + [ev]), [ev], order + [ev])
  {
    assert cn.cli.recv + [] == cn.cli.recv;
  }

  lemma BegunAfterClose(cn: Conn, ev: TunnelEvent)
    requires Placed(cn, []) && cn.registered && Close in cn.dispatched
    ensures Placed(cn.(dispatched := cn.dispatched + [ev]), [ev])
  {
    hide CloseAt, Without, Inserted, Flows;
    var all := cn.dispatched;
    CloseAtSnoc(all, ev);
    if cn.handoffs == 0 {
      var p :| CloseAt(all) <= p <= |Without(all)| && Flows(cn, [], Inserted(Without(all), p));
      InsertedSnoc(Without(all), ev, p);
      BegunFlows(cn, ev, Inserted(Without(all), p));
      assert p <= |Without(all + [ev])|;
    } else {
      BegunFlows(cn, ev, Without(all));
    }
  }

  lemma BegunClose(cn: Conn)
    requires Placed(cn, []) && cn.registered && Close !in cn.dispatched
    ensures Placed(cn.(dispatched := cn.dispatched + [Close]), [Close])
  {
    hide CloseAt, Without, Inserted, Flows;
    var all := cn.dispatched;
    CloseSnoc(all);
    InsertedSnoc(all, Close, |all|);
    BegunFlows(cn, Close, all);
    assert Flows(cn.(dispatched := all + [Close]), [Close], Inserted(Without(all + [Close]), |all|));
  }

  /** The dispatch loop takes up the next event of a registered connection. */
  lemma BegunPlaced(cn: Conn, ev: TunnelEvent)
    requires Placed(cn, []) && cn.registered
    ensures Placed(cn.(dispatched := cn.dispatched + [ev]), [ev])
  {
    hide CloseAt, Without, Inserted, Flows;
    if Close in cn.dispatched {
      BegunAfterClose(cn, ev);
    } else if ev.Close? {
      BegunClose(cn);
    } else {
      BegunFlows(cn, ev, cn.dispatched);
      assert Close !in cn.dispatched + [ev];
    }
  }

  lemma BegunKeptInOrder(cn: Conn, ev: TunnelEvent, queue: seq<TunnelEvent>)
    requires OrderInv(cn, [], [ev] + queue) && cn.registered
    ensures OrderInv(cn.(dispatched := cn.dispatched + [ev]), [ev], queue)
  {
    assert cn.dispatched + ([ev] + queue) == cn.dispatched + [ev] + queue;
    BegunPlaced(cn, ev);
    hide Subseq, Placed;
  }

  /** Events of the queue fall away: its first, or all of them. */
  lemma FallenKept(cn: Conn, air: seq<TunnelEvent>, gone: seq<TunnelEvent>, queue: seq<TunnelEvent>)
    requires OrderInv(cn, air, gone + queue)
    ensures OrderInv(cn, air, queue)
  {
    var had, has := cn.dispatched + (gone + queue), cn.dispatched + queue;
    ConcatAssoc(cn.dispatched, gone, queue);
    SubseqDrop(cn.dispatched, gone, queue, cn.srv.down.sent);
    hide Subseq, Placed;
    var n := |cn.dispatched|;
    assert forall i :: 0 <= i < |has| ==> has[i] == had[if i < n then i else i + |gone|];
  }

  lemma DeliveredPlaced(cn: Conn, cli: C.Relay, ev: TunnelEvent)
    requires Placed(cn, [ev]) && !cn.cli.writer.exited && !cli.writer.exited && cli.recv == cn.cli.recv + [ev]
    ensures Placed(cn.(cli := cli), [])
  {
    assert cli.recv + [] == cli.recv;
    var all, cn' := cn.dispatched, cn.(cli := cli);
    if Close in all && cn.handoffs == 0 {
      var p :| CloseAt(all) <= p <= |Without(all)| && Flows(cn, [ev], Inserted(Without(all), p));
      assert Flows(cn', [], Inserted(Without(all), p));
    }
  }

  /** The event in the air is dropped, with the registration or the receiver. */
  lemma DroppedPlaced(cn: Conn, cn': Conn, air: seq<TunnelEvent>)
    requires Placed(cn, air) && cn'.cli == cn.cli && cn'.handoffs == cn.handoffs && cn'.dispatched == cn.dispatched
    requires cn.cli.writer.exited || !cn'.registered
    ensures Placed(cn', [])
  {
    assert cn.cli.recv + [] == cn.cli.recv;
    var all := cn.dispatched;
    if Close in all && cn.handoffs == 0 {
      var p :| CloseAt(all) <= p <= |Without(all)| && Flows(cn, air, Inserted(Without(all), p));
      assert Flows(cn', [], Inserted(Without(all), p));
    }
  }

  lemma InsertedClose(w: seq<TunnelEvent>, p: nat, recv: seq<TunnelEvent>)
    requires p <= |w| && Close !in w && recv + [Close] <= Inserted(w, p)
    ensures |recv| == p && recv == w[..p]
  {
    var order := Inserted(w, p);
    assert (recv + [Close])[|recv|] == Close == order[|recv|];
    assert forall i :: 0 <= i < p ==> order[i] == w[i];
    assert forall i :: p < i < |order| ==> order[i] == w[i - 1];
    assert |recv| == p;
    assert order[..p] == w[..p];
  }

  lemma InsertedSize(evs: seq<TunnelEvent>, p: nat)
    requires p <= |evs|
    ensures |Inserted(evs, p)| == |evs| + 1
  {
  }

  lemma PrefixHasClose(recv: seq<TunnelEvent>, evs: seq<TunnelEvent>)
    ensures recv + [Close] <= evs ==> Close in evs
  {
    assert (recv + [Close])[|recv|] == Close;
  }

  lemma HandedOffPlaced(cn: Conn)
    requires Placed(cn, [Close]) && OnlyErrorsAfterClose(cn.dispatched) && !cn.cli.writer.exited
    ensures Placed(cn.(handoffs := cn.handoffs + 1), [])
  {
    hide CloseAt, Without, OnlyErrorsAfterClose, Inserted;
    var all, recv := cn.dispatched, cn.cli.recv;
    assert recv + [] == recv;
    PrefixHasClose(recv, all);
    if Close in all {
      WithoutHasNone(all);
    }
    var w := Without(all);
    PrefixHasClose(recv, w);
    assert cn.handoffs == 0;
    var p :| CloseAt(all) <= p <= |w| && Flows(cn, [Close], Inserted(w, p));
    InsertedClose(w, p, recv);
    InsertedSize(w, p);
    assert cn.registered ==> |recv| == |w| && w[..|w|] == w;
    assert Flows(cn.(handoffs := 1), [], w);
  }

  lemma HandoffLandsPlaced(cn: Conn, cli: C.Relay, air: seq<TunnelEvent>)
    requires Placed(cn, air) && cn.handoffs > 0 && !cn.cli.writer.exited && !cli.writer.exited
    requires cli.recv == cn.cli.recv + [Close]
    ensures Placed(cn.(handoffs := cn.handoffs - 1, cli := cli), air)
  {
    var all, recv := cn.dispatched, cn.cli.recv;
    var w, p := Without(all), |recv|;
    assert recv == w[..p] && air <= w[p..];
    assert cli.recv + air == w[..p] + [Close] + air;
    assert Flows(cn.(handoffs := 0, cli := cli), air, Inserted(w, p));
  }

  lemma HandoffEndsPlaced(cn: Conn, cn': Conn, air: seq<TunnelEvent>)
    requires Placed(cn, air) && cn.handoffs > 0 && cn'.handoffs == cn.handoffs - 1
    requires cn'.cli == cn.cli && cn'.dispatched == cn.dispatched && (cn.cli.writer.exited || !cn'.registered)
    ensures Placed(cn', air)
  {
    var w := Without(cn.dispatched);
    assert Inserted(w, |w|) == w + [Close];
    assert Flows(cn', air, Inserted(w, |w|));
  }

  // ---------------------------------------------------------------- every action

  /** Only `cid`'s part of the system changes. */
  ghost predicate OnlyChanges(s: System, s': System, cid: nat) {
    && s'.conns.Keys == s.conns.Keys
    && forall c :: c in s.conns && c != cid ==>
         && s'.conns[c] == s.conns[c] && InAir(s'.air, c) == InAir(s.air, c) && Proj(s'.queue, c) == Proj(s.queue, c)
  }

  lemma OthersInOrder(s: System, s': System, cid: nat)
    requires InOrder(s) && cid in s.conns && OnlyChanges(s, s', cid)
    requires OrderInv(s'.conns[cid], InAir(s'.air, cid), Proj(s'.queue, cid))
    ensures InOrder(s')
  {
    hide OrderInv, InAir, Proj;
  }

  lemma PutKept(s: System, cid: nat, cn: Conn)
    requires InOrder(s) && cid in s.conns && NoNews(s.conns[cid], cn)
    ensures InOrder(Put(s, cid, cn))
  {
    hide OrderInv, InAir, Proj, NoNews;
    NoNewsKept(s.conns[cid], cn, InAir(s.air, cid), Proj(s.queue, cid));
    OthersInOrder(s, Put(s, cid, cn), cid);
  }

  lemma ClientNoNews(cli: C.Relay, ca: C.Action)
    requires LocalToClient(ca) || ca.PostOk? || ca.PostError?
    ensures C.Next(cli, ca).recv == cli.recv && (cli.writer.exited ==> C.Next(cli, ca).writer.exited)
  {
  }

  lemma ClientInOrder(s: System, cid: nat, ca: C.Action)
    requires InOrder(s) && cid in s.conns && LocalToClient(ca)
    ensures InOrder(Next(s, Client(cid, ca)))
  {
    hide InOrder, C.Next, Settle, InAir, BeginNext, AirNext, HandoffNext, PostNext, SendNext, StaleAll, Killed, Harmed;
    ClientNoNews(s.conns[cid].cli, ca);
    var cn := s.conns[cid].(cli := C.Next(s.conns[cid].cli, ca));
    SettleIsNoNews(cn.(registered := false), InAir(s.air, cid) != []);
    PutKept(s, cid, cn);
    PutKept(s, cid, Settle(cn.(registered := false), InAir(s.air, cid) != []));
  }

  lemma ServerInOrder(s: System, cid: nat, sa: S.Action)
    requires InOrder(s) && cid in s.conns && LocalToServer(sa)
    ensures InOrder(Next(s, Server(cid, sa)))
  {
    hide InOrder, S.Next, BeginNext, AirNext, HandoffNext, PostNext, SendNext, StaleAll, Killed, Harmed;
    LocalServerFrame(s.conns[cid].srv, sa);
    PutKept(s, cid, s.conns[cid].(srv := S.Next(s.conns[cid].srv, sa)));
  }

  lemma PostInOrder(s: System, cid: nat, a: Action)
    requires InOrder(s) && cid in s.conns
    ensures InOrder(Put(s, cid, PostNext(s.conns[cid], a)))
  {
    hide InOrder, PostNext, C.Next, S.Next;
    var cn := s.conns[cid];
    PostRelays(cn, a);
    ClientNoNews(cn.cli, C.PostOk);
    ClientNoNews(cn.cli, C.PostError);
    if PostNext(cn, a).srv != cn.srv {
      var sa :| IsHandlerAction(sa) && PostNext(cn, a).srv == S.Next(cn.srv, sa);
      HandlerFrame(cn.srv, sa);
    }
    PostDispatchesNothing(cn, a);
    PutKept(s, cid, PostNext(cn, a));
  }

  lemma PostDispatchesNothing(cn: Conn, a: Action)
    ensures PostNext(cn, a).dispatched == cn.dispatched
  {
    hide C.Next, S.Next;
  }

  lemma {:induction false} ProjSnoc(queue: seq<Item>, item: Item, cid: nat)
    ensures Proj(queue + [item], cid) == Proj(queue, cid) + For(item, cid)
  {
    if queue == [] {
      assert [] + [item] == [item] && Proj([item], cid) == For(item, cid) + [];
    } else {
      hide For;
      ProjSnoc(queue[1..], item, cid);
      assert (queue + [item])[0] == queue[0] && (queue + [item])[1..] == queue[1..] + [item];
      ConcatAssoc(For(queue[0], cid), Proj(queue[1..], cid), For(item, cid));
    }
  }

  lemma EmittedInOrder(s: System, cid: nat, sa: S.Action, ev: TunnelEvent, into: Option<nat>, clone: Option<nat>)
    requires InOrder(s) && cid in s.conns && S.Inv(s.conns[cid].srv) && Emits(s.conns[cid].srv, sa, ev)
    ensures InOrder(Enqueued(s, cid, s.conns[cid].(srv := S.Next(s.conns[cid].srv, sa), clone := clone), ev, into))
  {
    hide OrderInv, Proj, InAir, Harms, S.Next, S.ResponseInv;
    var cn := s.conns[cid];
    var cn' := cn.(srv := S.Next(cn.srv, sa), clone := clone);
    EmitFrame(cn.srv, sa, ev);
    assert ev.Error? || !cn.srv.down.read.ReadDone?;
    forall c ensures Proj(s.queue + [Item(cid, ev)], c) == Proj(s.queue, c) + (if c == cid then [ev] else []) {
      ProjSnoc(s.queue, Item(cid, ev), c);
    }
    hide S.Inv, Emits;
    assert S.ResponseInv(cn.srv.down);
    SentKept(cn, cn'.srv, clone, ev, InAir(s.air, cid), Proj(s.queue, cid), Reaches(s, into));
    OthersInOrder(s, Enqueued(s, cid, cn', ev, into), cid);
  }

  lemma SentInOrder(s: System, cid: nat)
    requires InOrder(s) && cid in s.conns && S.Inv(s.conns[cid].srv)
    ensures InOrder(SendNext(s, cid))
  {
    hide InOrder, S.Next, S.Inv, Enqueued;
    var cn := s.conns[cid];
    if cn.clone.Some? && cn.srv.down.read.SendingChunk? {
      EmittedInOrder(s, cid, S.ChunkSent, Data(cn.srv.down.read.chunk), cn.clone, None);
    } else if cn.clone.Some? && cn.srv.down.read.SendingEnd? {
      EmittedInOrder(s, cid, S.EndSent, cn.srv.down.read.end, cn.clone, None);
    }
  }

  lemma ReportedInOrder(s: System, cid: nat)
    requires InOrder(s) && cid in s.conns && S.Inv(s.conns[cid].srv)
    ensures InOrder(Next(s, SendReport(cid)))
  {
    hide InOrder, S.Next, S.Inv, Enqueued, BeginNext, AirNext, HandoffNext, PostNext, SendNext, StaleAll, Killed,
      Harmed;
    var cn := s.conns[cid];
    if cn.srv.up.write.ReportingWrite? {
      EmittedInOrder(s, cid, S.ReportSent, Error, Some(s.gen), cn.clone);
      assert cn.(srv := S.Next(cn.srv, S.ReportSent)) == cn.(srv := S.Next(cn.srv, S.ReportSent), clone := cn.clone);
    }
  }

  lemma ClonedInOrder(s: System, cid: nat)
    requires InOrder(s) && cid in s.conns
    ensures InOrder(Next(s, CloneSender(cid)))
  {
    hide InOrder, BeginNext, AirNext, HandoffNext, PostNext, SendNext, StaleAll, Killed, Harmed;
    PutKept(s, cid, s.conns[cid].(clone := Some(s.gen)));
  }

  lemma {:induction false} ProjOfStranger(queue: seq<Item>, cid: nat)
    requires forall i :: 0 <= i < |queue| && queue[i].Item? ==> queue[i].cid != cid
    ensures Proj(queue, cid) == []
  {
    if queue != [] {
      ProjOfStranger(queue[1..], cid);
    }
  }

  lemma OpenInOrder(s: System, cid: nat)
    requires Inv(s) && InOrder(s)
    ensures InOrder(Next(s, Open(cid)))
  {
    hide ConnInv, OrderInv;
    if cid !in s.conns {
      assert InAir(s.air, cid) == [];
      ProjOfStranger(s.queue, cid);
      OpenedInOrder();
    }
  }

  lemma OpenedInOrder()
    ensures OrderInv(OPENED, [], [])
  {
  }

  /** Every connection may lose its registration; nothing else happens. */
  lemma EveryoneKept(s: System, s': System)
    requires InOrder(s) && s'.conns.Keys == s.conns.Keys && s'.air == s.air
    requires forall c :: c in s.conns ==> NoNews(s.conns[c], s'.conns[c]) && Proj(s'.queue, c) == Proj(s.queue, c)
    ensures InOrder(s')
  {
    hide OrderInv, NoNews, Proj, InAir;
    forall c | c in s.conns ensures OrderInv(s'.conns[c], InAir(s'.air, c), Proj(s'.queue, c)) {
      NoNewsKept(s.conns[c], s'.conns[c], InAir(s.air, c), Proj(s.queue, c));
    }
  }

  lemma BeginOthersOrder(s: System, cid: nat)
    requires s.queue != [] && s.queue[0].Item? && s.queue[0].cid == cid
    ensures forall c :: c != cid ==> Proj(s.queue, c) == Proj(s.queue[1..], c) && InAir(Some(s.queue[0]), c) == []
    ensures Proj(s.queue, cid) == [s.queue[0].ev] + Proj(s.queue[1..], cid)
    ensures InAir(Some(s.queue[0]), cid) == [s.queue[0].ev]
  {
    forall c | c != cid ensures Proj(s.queue, c) == Proj(s.queue[1..], c) {
      assert [] + Proj(s.queue[1..], c) == Proj(s.queue[1..], c);
    }
  }

  lemma BeginInOrder(s: System)
    requires InOrder(s)
    ensures InOrder(BeginNext(s))
  {
    hide OrderInv, Settle;
    if s.air.None? && s.queue != [] {
      var item, rest := s.queue[0], s.queue[1..];
      if item.ResetItem? {
        ResetInOrder(s);
      } else {
        BeginOthersOrder(s, item.cid);
        if item.cid in s.conns {
          var cn := s.conns[item.cid];
          if cn.registered {
            BegunKeptInOrder(cn, item.ev, Proj(rest, item.cid));
          } else {
            FallenKept(cn, [], [item.ev], Proj(rest, item.cid));
          }
          hide Proj;
          OthersInOrder(s, BeginNext(s), item.cid);
        }
      }
    }
  }

  lemma ResetInOrder(s: System)
    requires InOrder(s) && s.air.None? && s.queue != [] && s.queue[0].ResetItem?
    ensures InOrder(BeginNext(s))
  {
    hide Settle, OrderInv, NoNews;
    forall c | c in s.conns
      ensures NoNews(s.conns[c], BeginNext(s).conns[c]) && Proj(s.queue, c) == Proj(s.queue[1..], c)
    {
      UnregisteredIsNoNews(s.conns[c], s.conns[c].stale, InAir(s.air, c) != []);
      assert s.conns[c].(registered := false) == s.conns[c].(registered := false, stale := s.conns[c].stale);
      assert Proj(s.queue, c) == [] + Proj(s.queue[1..], c);
    }
    EveryoneKept(s, BeginNext(s));
  }

  lemma UnregisteredIsNoNews(cn: Conn, stale: bool, inAir: bool)
    ensures NoNews(cn, Settle(cn.(registered := false, stale := stale), inAir))
  {
  }

  lemma RotateInOrder(s: System)
    requires InOrder(s)
    ensures InOrder(Next(s, Rotate))
  {
    hide Settle, OrderInv, NoNews, BeginNext, AirNext, HandoffNext, PostNext, SendNext, Killed, Harmed;
    forall c | c in s.conns ensures NoNews(s.conns[c], Next(s, Rotate).conns[c]) {
      UnregisteredIsNoNews(s.conns[c], true, InAir(s.air, c) != []);
    }
    EveryoneKept(s, Next(s, Rotate));
  }

  lemma KilledIsNoNews(cn: Conn)
    ensures NoNews(cn, Killed(cn))
  {
  }

  lemma RestartInOrder(s: System)
    requires InOrder(s)
    ensures InOrder(Next(s, ServerRestart))
  {
    hide Settle, OrderInv, NoNews, BeginNext, AirNext, HandoffNext, PostNext, SendNext, Killed, Harmed, StaleAll;
    forall c | c in s.conns ensures NoNews(s.conns[c], Next(s, ServerRestart).conns[c]) {
      KilledIsNoNews(s.conns[c]);
    }
    EveryoneKept(s, Next(s, ServerRestart));
  }

  lemma EmptiedKept(cn: Conn, air: seq<TunnelEvent>, queue: seq<TunnelEvent>)
    requires OrderInv(cn, air, queue)
    ensures OrderInv(cn, air, [])
  {
    assert queue + [] == queue;
    FallenKept(cn, air, queue, []);
  }

  lemma StreamInOrder(s: System, a: Action)
    requires Inv(s) && InOrder(s) && (a.StreamDropped? || a.StreamOpened? || a.Superseded?)
    ensures InOrder(Next(s, a))
  {
    hide ConnInv, OrderInv, InAir, BeginNext, AirNext, HandoffNext, PostNext, SendNext, StaleAll, Killed, Harmed;
    forall c | c in s.conns
      ensures OrderInv(s.conns[c], InAir(s.air, c), []) && Proj([ResetItem], c) == [] && Proj([], c) == []
    {
      EmptiedKept(s.conns[c], InAir(s.air, c), Proj(s.queue, c));
      assert Proj([ResetItem], c) == [] + Proj([], c);
    }
    hide Proj;
  }

  lemma LandedInOrder(s: System, cn: Conn)
    requires InOrder(s) && s.air.Some? && s.air.value.Item? && s.air.value.cid in s.conns
    requires var cid := s.air.value.cid; OrderInv(cn, [], Proj(s.queue, cid))
    ensures InOrder(Landed(s, cn))
  {
    hide OrderInv, Settle, NoNews, Proj;
    var cid := s.air.value.cid;
    SettleIsNoNews(cn, false);
    NoNewsKept(cn, Settle(cn, false), [], Proj(s.queue, cid));
    OthersInOrder(s, Landed(s, cn), cid);
  }

  lemma DeliverFrame(cli: C.Relay, ev: TunnelEvent)
    requires cli.open && !cli.writer.exited && C.QueueLength(cli) < C.CONN_CHANNEL_CAPACITY
    ensures C.Next(cli, C.Deliver(ev)).recv == cli.recv + [ev] && C.Next(cli, C.Deliver(ev)).writer == cli.writer
  {
  }

  lemma DeliveredInOrder(cn: Conn, cli: C.Relay, ev: TunnelEvent, queue: seq<TunnelEvent>)
    requires OrderInv(cn, [ev], queue) && !cn.cli.writer.exited && !cli.writer.exited && cli.recv == cn.cli.recv + [ev]
    ensures OrderInv(cn.(cli := cli), [], queue)
  {
    DeliveredPlaced(cn, cli, ev);
    hide Subseq, OnlyErrorsAfterClose, Placed;
  }

  lemma DroppedInOrder(cn: Conn, registered: bool, ev: TunnelEvent, queue: seq<TunnelEvent>)
    requires OrderInv(cn, [ev], queue) && (cn.cli.writer.exited || !registered)
    ensures OrderInv(cn.(registered := registered), [], queue)
  {
    DroppedPlaced(cn, cn.(registered := registered), [ev]);
    hide Subseq, OnlyErrorsAfterClose, Placed;
  }

  lemma HandedOffInOrder(cn: Conn, queue: seq<TunnelEvent>)
    requires OrderInv(cn, [Close], queue) && !cn.cli.writer.exited
    ensures OrderInv(cn.(handoffs := cn.handoffs + 1), [], queue)
  {
    PrefixInOrder(cn.dispatched, queue);
    HandedOffPlaced(cn);
    hide Subseq, OnlyErrorsAfterClose, Placed;
  }

  /** The event in the air, as its connection's invariants see it. */
  ghost predicate Landing(s: System) {
    && s.air.Some? && s.air.value.Item? && s.air.value.cid in s.conns
    && s.conns[s.air.value.cid].cli.open
    && OrderInv(s.conns[s.air.value.cid], [s.air.value.ev], Proj(s.queue, s.air.value.cid))
  }

  lemma AirLands(s: System)
    requires Inv(s) && InOrder(s) && s.air.Some?
    ensures Landing(s)
  {
    AirIsOpen(s);
    hide Inv, OrderInv, InAir, Proj;
  }

  lemma DeliverInOrder(s: System)
    requires Landing(s) && InOrder(s)
    ensures InOrder(AirNext(s, DeliverEvent))
  {
    hide OrderInv, Landed, C.Next, InOrder, Proj;
    var cid, ev := s.air.value.cid, s.air.value.ev;
    var cn := s.conns[cid];
    if !cn.cli.writer.exited && C.QueueLength(cn.cli) < C.CONN_CHANNEL_CAPACITY {
      var cli := C.Next(cn.cli, C.Deliver(ev));
      DeliverFrame(cn.cli, ev);
      DeliveredInOrder(cn, cli, ev, Proj(s.queue, cid));
      LandedInOrder(s, cn.(cli := cli));
    }
  }

  lemma DropInOrder(s: System)
    requires Landing(s) && InOrder(s)
    ensures InOrder(AirNext(s, ReceiverDropped))
  {
    hide OrderInv, Landed, C.Next, InOrder, Proj;
    var cid, ev := s.air.value.cid, s.air.value.ev;
    var cn := s.conns[cid];
    if cn.cli.writer.exited {
      DroppedInOrder(cn, cn.registered, ev, Proj(s.queue, cid));
      assert cn.(registered := cn.registered) == cn;
      LandedInOrder(s, cn);
    }
  }

  lemma StallInOrder(s: System)
    requires Landing(s) && InOrder(s)
    ensures InOrder(AirNext(s, Stall))
  {
    hide OrderInv, Landed, C.Next, InOrder, Proj;
    var cid, ev := s.air.value.cid, s.air.value.ev;
    var cn := s.conns[cid];
    if !cn.cli.writer.exited {
      DroppedInOrder(cn, false, ev, Proj(s.queue, cid));
      LandedInOrder(s, cn.(registered := false));
      if ev.Close? {
        HandedOffInOrder(cn, Proj(s.queue, cid));
        LandedInOrder(s, cn.(handoffs := cn.handoffs + 1));
      }
    }
  }

  lemma AirInOrder(s: System, a: Action)
    requires Inv(s) && InOrder(s) && (a.DeliverEvent? || a.ReceiverDropped? || a.Stall?)
    ensures InOrder(AirNext(s, a))
  {
    if s.air.Some? {
      AirLands(s);
      hide *;
      match a
      case DeliverEvent => DeliverInOrder(s);
      case ReceiverDropped => DropInOrder(s);
      case Stall => StallInOrder(s);
    }
  }

  lemma PrefixInOrder(a: seq<TunnelEvent>, b: seq<TunnelEvent>)
    requires OnlyErrorsAfterClose(a + b)
    ensures OnlyErrorsAfterClose(a)
  {
    assert forall i :: 0 <= i < |a| ==> (a + b)[i] == a[i];
  }

  lemma AirIsOpen(s: System)
    requires Inv(s) && s.air.Some?
    ensures s.air.value.Item? && s.air.value.cid in s.conns && s.conns[s.air.value.cid].cli.open
    ensures InAir(s.air, s.air.value.cid) == [s.air.value.ev]
  {
    hide C.Inv, S.Inv, Posted, Carried;
  }

  lemma HandoffLandsInOrder(cn: Conn, cli: C.Relay, air: seq<TunnelEvent>, queue: seq<TunnelEvent>)
    requires OrderInv(cn, air, queue) && cn.handoffs > 0 && !cn.cli.writer.exited && !cli.writer.exited
    requires cli.recv == cn.cli.recv + [Close]
    ensures OrderInv(cn.(handoffs := cn.handoffs - 1, cli := cli), air, queue)
  {
    HandoffLandsPlaced(cn, cli, air);
    hide Subseq, OnlyErrorsAfterClose, Placed;
  }

  lemma HandoffEndsInOrder(cn: Conn, registered: bool, air: seq<TunnelEvent>, queue: seq<TunnelEvent>)
    requires OrderInv(cn, air, queue) && cn.handoffs > 0 && (cn.cli.writer.exited || !registered)
    ensures OrderInv(cn.(handoffs := cn.handoffs - 1, registered := registered), air, queue)
  {
    HandoffEndsPlaced(cn, cn.(handoffs := cn.handoffs - 1, registered := registered), air);
    hide Subseq, OnlyErrorsAfterClose, Placed;
  }

  ghost predicate HandingOff(s: System, cid: nat) {
    && cid in s.conns && s.conns[cid].handoffs > 0 && s.conns[cid].cli.open
    && OrderInv(s.conns[cid], InAir(s.air, cid), Proj(s.queue, cid))
  }

  lemma HandoffLandsKept(s: System, cid: nat)
    requires HandingOff(s, cid) && InOrder(s)
    ensures InOrder(HandoffNext(s, HandoffDelivered(cid)))
  {
    hide OrderInv, Settle, C.Next, InOrder, Proj, InAir;
    var cn, air, queue := s.conns[cid], InAir(s.air, cid), Proj(s.queue, cid);
    if !cn.cli.writer.exited && C.QueueLength(cn.cli) < C.CONN_CHANNEL_CAPACITY {
      var cli := C.Next(cn.cli, C.Deliver(Close));
      DeliverFrame(cn.cli, Close);
      HandoffLandsInOrder(cn, cli, air, queue);
      assert cn.(handoffs := cn.handoffs - 1).(cli := cli) == cn.(handoffs := cn.handoffs - 1, cli := cli);
      SettledInOrder(s, cid, cn.(handoffs := cn.handoffs - 1, cli := cli));
    }
  }

  lemma HandoffOverInOrder(s: System, cid: nat)
    requires HandingOff(s, cid) && InOrder(s)
    ensures InOrder(HandoffNext(s, HandoffDropped(cid))) && InOrder(HandoffNext(s, HandoffTimedOut(cid)))
  {
    hide OrderInv, Settle, C.Next, InOrder, Proj, InAir;
    var cn, air, queue := s.conns[cid], InAir(s.air, cid), Proj(s.queue, cid);
    var over := cn.(handoffs := cn.handoffs - 1);
    if cn.cli.writer.exited {
      HandoffEndsInOrder(cn, cn.registered, air, queue);
      assert over == cn.(handoffs := cn.handoffs - 1, registered := cn.registered);
      SettledInOrder(s, cid, over);
    } else {
      HandoffEndsInOrder(cn, false, air, queue);
      assert over.(registered := false) == cn.(handoffs := cn.handoffs - 1, registered := false);
      SettledInOrder(s, cid, over.(registered := false));
    }
  }

  lemma HandoffInOrder(s: System, a: Action)
    requires Inv(s) && InOrder(s) && (a.HandoffDelivered? || a.HandoffDropped? || a.HandoffTimedOut?)
    ensures InOrder(HandoffNext(s, a))
  {
    hide Inv, InOrder, HandingOff, Settle, C.Next;
    if a.cid in s.conns && s.conns[a.cid].handoffs > 0 {
      hide HandoffNext;
      HandoffStands(s, a.cid);
      match a
      case HandoffDelivered(c) => HandoffLandsKept(s, c);
      case HandoffDropped(c) => HandoffOverInOrder(s, c);
      case HandoffTimedOut(c) => HandoffOverInOrder(s, c);
    }
  }

  lemma HandoffStands(s: System, cid: nat)
    requires Inv(s) && InOrder(s) && cid in s.conns && s.conns[cid].handoffs > 0
    ensures HandingOff(s, cid)
  {
    HandoffIsOpen(s, cid);
    hide Inv, OrderInv, InAir, Proj;
  }

  lemma HandoffIsOpen(s: System, cid: nat)
    requires Inv(s) && cid in s.conns && s.conns[cid].handoffs > 0
    ensures s.conns[cid].cli.open
  {
    hide C.Inv, S.Inv, Posted, Carried;
  }

  lemma SettledInOrder(s: System, cid: nat, cn: Conn)
    requires InOrder(s) && cid in s.conns && OrderInv(cn, InAir(s.air, cid), Proj(s.queue, cid))
    ensures InOrder(Put(s, cid, Settle(cn, InAir(s.air, cid) != [])))
  {
    hide OrderInv, Settle, NoNews, Proj, InAir;
    var inAir := InAir(s.air, cid) != [];
    SettleIsNoNews(cn, inAir);
    NoNewsKept(cn, Settle(cn, inAir), InAir(s.air, cid), Proj(s.queue, cid));
    OthersInOrder(s, Put(s, cid, Settle(cn, inAir)), cid);
  }

  lemma ServersAreSound(s: System, cid: nat)
    requires Inv(s) && cid in s.conns
    ensures S.Inv(s.conns[cid].srv)
  {
    hide C.Inv, S.Inv, Posted, Carried;
  }

  lemma NextKeepsOrder(s: System, a: Action)
    requires Inv(s) && InOrder(s)
    ensures InOrder(Next(s, a))
  {
    hide Inv, InOrder, SendNext, BeginNext, AirNext, HandoffNext, PostNext;
    match a
    case Open(c) => OpenInOrder(s, c);
    case Client(c, ca) => if c in s.conns && LocalToClient(ca) { ClientInOrder(s, c, ca); }
    case Server(c, sa) => if c in s.conns && LocalToServer(sa) { ServerInOrder(s, c, sa); }
    case CloneSender(c) => if c in s.conns { ClonedInOrder(s, c); }
    case Send(c) => if c in s.conns { ServersAreSound(s, c); SentInOrder(s, c); }
    case SendReport(c) => if c in s.conns { ServersAreSound(s, c); ReportedInOrder(s, c); }
    case Begin => BeginInOrder(s);
    case DeliverEvent => AirInOrder(s, a);
    case ReceiverDropped => AirInOrder(s, a);
    case Stall => AirInOrder(s, a);
    case HandoffDelivered(_) => HandoffInOrder(s, a);
    case HandoffDropped(_) => HandoffInOrder(s, a);
    case HandoffTimedOut(_) => HandoffInOrder(s, a);
    case PostArrives(c) => if c in s.conns { PostInOrder(s, c, a); }
    case PostAstray(c) => if c in s.conns { PostInOrder(s, c, a); }
    case PostHandled(c) => if c in s.conns { PostInOrder(s, c, a); }
    case PostAcked(c) => if c in s.conns { PostInOrder(s, c, a); }
    case PostFailed(c) => if c in s.conns { PostInOrder(s, c, a); }
    case CloseArrives(c) => if c in s.conns { PostInOrder(s, c, a); }
    case AbortArrives(c) => if c in s.conns { PostInOrder(s, c, a); }
    case StreamDropped => StreamInOrder(s, a);
    case StreamOpened => StreamInOrder(s, a);
    case Superseded => StreamInOrder(s, a);
    case ServerRestart => RestartInOrder(s);
    case Rotate => RotateInOrder(s);
  }

  lemma {:induction false} RunKeepsOrder(s: System, acts: seq<Action>)
    requires Inv(s) && InOrder(s)
    ensures Inv(Run(s, acts)) && InOrder(Run(s, acts))
    decreases |acts|
  {
    hide Inv, InOrder, Next;
    if acts != [] {
      NextKeepsInv(s, acts[0]);
      NextKeepsOrder(s, acts[0]);
      RunKeepsOrder(Next(s, acts[0]), acts[1..]);
    }
  }

  /** In every run, for every connection: what was dispatched to it is part of what
      the server enqueued for it, in that order and each event at most once; and
      what its queue received is a prefix of what was dispatched, except that
      errors may have passed its handed-off `Close`. In particular the client
      never takes an `Error` that the server did not send; and while its relay
      is registered and listening none of the prefix is missing: an event the
      dispatch loop drops costs the registration. */
  lemma DispatchKeepsOrder(acts: seq<Action>, cid: nat)
    requires cid in Run(INIT, acts).conns
    ensures var cn := Run(INIT, acts).conns[cid];
      && Subseq(cn.dispatched, cn.srv.down.sent) && OnlyErrorsAfterClose(cn.dispatched)
      && ReceivedInOrder(cn.cli.recv, cn.dispatched)
      && (cn.registered && !cn.cli.writer.exited ==> AllArrived(cn, InAir(Run(INIT, acts).air, cid)))
      && forall ev :: ev in cn.cli.recv ==> ev in cn.srv.down.sent
  {
    hide Next, Inv;
    InitInv();
    RunKeepsOrder(INIT, acts);
    var s := Run(INIT, acts);
    ReceivedIsSent(s.conns[cid], InAir(s.air, cid), Proj(s.queue, cid));
  }

  lemma PlacedIsInOrder(cn: Conn, air: seq<TunnelEvent>)
    requires Placed(cn, air)
    ensures ReceivedInOrder(cn.cli.recv, cn.dispatched)
  {
    var all, recv := cn.dispatched, cn.cli.recv;
    if Close in all && cn.handoffs > 0 {
      var w := Without(all);
      InsertedSnoc(w, Close, |w|);
      hide CloseAt, Without, Inserted;
      assert CloseAt(all) <= |w| && recv <= Inserted(w, |w|);
    }
  }

  lemma PlacedHasArrived(cn: Conn, air: seq<TunnelEvent>)
    requires Placed(cn, air)
    ensures cn.registered && !cn.cli.writer.exited ==> AllArrived(cn, air)
  {
    var all := cn.dispatched;
    if Close in all && cn.handoffs == 0 {
      hide CloseAt, Without, Inserted;
      var p :| CloseAt(all) <= p <= |Without(all)| && Flows(cn, air, Inserted(Without(all), p));
    }
  }

  lemma InsertedIsSame(all: seq<TunnelEvent>, p: nat, i: nat)
    requires Close in all && p <= |Without(all)| && i < |Inserted(Without(all), p)|
    ensures Inserted(Without(all), p)[i] in all
  {
    var w, k := Without(all), CloseAt(all);
    if i != p {
      var j := if i < p then i else i - 1;
      assert Inserted(w, p)[i] == w[j];
      assert w[j] == all[if j < k then j else j + 1];
    }
  }

  lemma InOrderIsSame(recv: seq<TunnelEvent>, all: seq<TunnelEvent>)
    requires ReceivedInOrder(recv, all)
    ensures forall ev :: ev in recv ==> ev in all
  {
    hide CloseAt, Without, Inserted;
    if !(recv <= all) {
      var w := Without(all);
      var p :| CloseAt(all) <= p <= |w| && recv <= Inserted(w, p);
      forall i | 0 <= i < |recv| ensures recv[i] in all {
        InsertedIsSame(all, p, i);
      }
    }
  }

  lemma ReceivedIsSent(cn: Conn, air: seq<TunnelEvent>, queue: seq<TunnelEvent>)
    requires OrderInv(cn, air, queue)
    ensures Subseq(cn.dispatched, cn.srv.down.sent) && OnlyErrorsAfterClose(cn.dispatched)
    ensures ReceivedInOrder(cn.cli.recv, cn.dispatched)
    ensures cn.registered && !cn.cli.writer.exited ==> AllArrived(cn, air)
    ensures forall ev :: ev in cn.cli.recv ==> ev in cn.srv.down.sent
  {
    EmptiedKept(cn, air, queue);
    assert cn.dispatched + [] == cn.dispatched;
    hide Subseq, Placed, ReceivedInOrder, AllArrived;
    SubseqIn(cn.dispatched, cn.srv.down.sent);
    PlacedIsInOrder(cn, air);
    PlacedHasArrived(cn, air);
    InOrderIsSame(cn.cli.recv, cn.dispatched);
  }
}
