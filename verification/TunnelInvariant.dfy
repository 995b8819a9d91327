/** What every step of the tunnel keeps: each connection's response and upload, in
    transit, laid end to end; proved action by action. */
module TunnelInvariant {
  import opened Prelude
  import opened Events
  import opened Tunnel
  import C = ClientRelay
  import S = ServerRelay

  function Closes(n: nat): seq<TunnelEvent> {
    if n == 0 then [] else Closes(n - 1) + [Close]
  }

  /** The response's way through the tunnel: what the client's queue has had,
      what is about to enter it, and what is still on the way, laid end to end, is
      a part of what the server enqueued, and all of it while more can follow.
      `air` and `view` are this connection's share. */
  ghost predicate Carried(cn: Conn, air: seq<TunnelEvent>, view: seq<TunnelEvent>) {
    var came, sent := Heard(cn.cli.recv), Ordered(cn.srv.down.sent);
    var held := came + Closes(cn.handoffs) + Ordered(air);
    var hears := !cn.cli.writer.exited && Error !in cn.cli.recv;
    && came <= sent
    && (hears ==> held <= sent)
    && (hears && Error !in air && cn.registered ==> held + Heard(view) <= sent)
    && (Exposed(cn, air) && !Barred(view) ==> held + Ordered(view) == sent)
  }

  function PostedBytes(posts: seq<C.ClientMsg>): Bytes {
    if posts == [] then []
    else (if posts[0].SendData? then posts[0].bytes else []) + PostedBytes(posts[1..])
  }

  /** The data a handler has yet to enqueue. */
  function Held(u: S.Upload): Bytes {
    if u.handler.Some? then u.handler.value else []
  }

  /** The data the current POST has yet to bring. */
  function Pending(cn: Conn): Bytes {
    if cn.cli.read.Posting? && cn.post != Applied then cn.cli.read.data else []
  }

  /** The bytes written, being written, queued and held are a prefix of those
      posted; and while the upload is open at both ends nothing is missing. */
  ghost predicate Whole(cn: Conn) {
    var posted, u := PostedBytes(cn.cli.posts), cn.srv.up;
    && u.targetWritten <= posted
    && (S.Draining(u) ==> S.Pipe(u) + Held(u) <= posted)
    && (u.atClose.Some? && (S.Draining(u) || u.write == S.WriteDone(true)) ==> u.atClose.value == posted)
    && (!cn.astray && u.linked && S.Draining(u) ==>
          (cn.cli.read.Posting? || cn.cli.read.Reading? || C.SendClose in cn.cli.posts ==>
             posted == S.Pipe(u) + Pending(cn)))
  }

  /** The upload's way through the tunnel. */
  ghost predicate Posted(cn: Conn) {
    var u := cn.srv.up;
    && (u.handler.Some? <==> cn.post == Handling)
    && (u.handler.Some? ==> cn.cli.read.Posting? && u.handler.value == cn.cli.read.data)
    && (!cn.cli.read.Posting? ==> cn.post == NotApplied && !cn.retried)
    && (u.atClose.Some? ==> C.SendClose in cn.cli.posts)
    && (cn.srv.permit ==> C.SendAbort in cn.cli.posts)
    && (cn.astray ==> cn.stale && u.handler.None? && u.atClose.None?)
    && (!cn.resent ==> Whole(cn))
  }

  ghost predicate ConnInv(cn: Conn, air: seq<TunnelEvent>, view: seq<TunnelEvent>, lost: bool) {
    && C.Inv(cn.cli)
    && S.Inv(cn.srv)
    && (lost || Carried(cn, air, view))
    && (cn.cli.open <==> cn.registered || cn.handoffs > 0 || air != [])
    && (cn.registered ==> !cn.stale)
    && Posted(cn)
  }

  ghost predicate Inv(s: System) {
    && (!s.live ==> s.queue == [])
    && (s.air.Some? ==> s.air.value.Item? && s.air.value.cid in s.conns)
    && (forall i :: 0 <= i < |s.queue| && s.queue[i].Item? ==> s.queue[i].cid in s.conns)
    && s.lost <= s.conns.Keys
    && forall c :: c in s.conns ==> ConnInv(s.conns[c], InAir(s.air, c), View(s.queue, c), c in s.lost)
  }

  lemma {:induction false} ViewAppend(a: seq<Item>, b: seq<Item>, cid: nat)
    ensures View(a + b, cid) == View(a, cid) + View(b, cid)
  {
    if a == [] {
      assert a + b == b;
    } else {
      hide *;
      ViewAppend(a[1..], b, cid);
      ViewCons(a, cid);
      ViewCons(a + b, cid);
      assert (a + b)[0] == a[0];
      assert (a + b)[1..] == a[1..] + b;
      ConcatAssoc(Shows(a[0], cid), View(a[1..], cid), View(b, cid));
    }
  }

  lemma ViewCons(queue: seq<Item>, cid: nat)
    requires queue != []
    ensures View(queue, cid) == Shows(queue[0], cid) + View(queue[1..], cid)
  {
    hide Shows;
  }

  /** A connection of which the queue holds nothing sees Resets at most. */
  lemma {:induction false} ViewOfStranger(queue: seq<Item>, cid: nat)
    requires forall i :: 0 <= i < |queue| && queue[i].Item? ==> queue[i].cid != cid
    ensures Ordered(View(queue, cid)) == [] && Heard(View(queue, cid)) == []
    ensures DataBytes(PastError(View(queue, cid))) == []
  {
    if queue != [] {
      var rest := queue[1..];
      ViewOfStranger(rest, cid);
      var view, later := View(queue, cid), View(rest, cid);
      DataBytesOrdered(later);
      if queue[0].ResetItem? {
        assert view == [Error] + later && view[0] == Error && view[1..] == later;
      } else {
        assert view == [] + later == later;
      }
    }
  }

  // ------------------------------------------- the response, one step at a time

  lemma CarriedWhenServerMoves(cn: Conn, srv: S.Conn, air: seq<TunnelEvent>, view: seq<TunnelEvent>)
    requires Carried(cn, air, view)
    requires srv.down.sent == cn.srv.down.sent && (cn.srv.killed ==> srv.killed)
    requires Streaming(srv.down) && !srv.killed ==> Streaming(cn.srv.down)
    ensures Carried(cn.(srv := srv), air, view)
  {
    hide Heard, Ordered, Closes, Barred, Streaming;
  }

  lemma CarriedWhenClientMoves(cn: Conn, cli: C.Relay, air: seq<TunnelEvent>, view: seq<TunnelEvent>)
    requires Carried(cn, air, view)
    requires cli.recv == cn.cli.recv && (cn.cli.writer.exited ==> cli.writer.exited)
    ensures Carried(cn.(cli := cli), air, view)
  {
    hide Heard, Ordered, Closes, Barred, Streaming;
  }

  lemma CarriedWhenUnregistered(cn: Conn, air: seq<TunnelEvent>, view: seq<TunnelEvent>, view': seq<TunnelEvent>)
    requires Carried(cn, air, view)
    ensures Carried(cn.(registered := false), air, view')
  {
    hide Heard, Ordered, Closes, Barred, Streaming;
  }

  /** `srv` is the server side after it has enqueued `ev`: an ordered event only
      while it was streaming, and none after a `Close`. */
  ghost predicate Enqueues(cn: Conn, srv: S.Conn, ev: TunnelEvent) {
    && srv.down.sent == cn.srv.down.sent + [ev] && srv.killed == cn.srv.killed && !srv.killed
    && (ev.Error? || Streaming(cn.srv.down)) && (Streaming(srv.down) ==> Streaming(cn.srv.down) && !ev.Close?)
    && !ev.Exit?
  }

  lemma SeenMore(view: seq<TunnelEvent>, ev: TunnelEvent)
    ensures Ordered(view + [ev]) == Ordered(view) + Ordered([ev])
    ensures Heard(view + [ev]) == if Error in view || ev.Error? then Heard(view) else view + [ev]
    ensures Error !in view ==> Heard(view) == Ordered(view) == view && !Barred(view)
    ensures Barred(view) ==> Barred(view + [ev])
  {
    OrderedAppend(view, [ev]);
    HeardAppend(view, [ev]);
    PastErrorAppend(view, [ev]);
    DataBytesAppend(PastError(view), [ev]);
    HeardOfAll(view);
    SingleEvent(ev);
    assert DataBytes([]) == [];
    hide Heard, Ordered, PastError, DataBytes;
    if Error !in view && ev.Error? {
      assert view + [] == view;
    }
  }

  /** A successful enqueue that reaches the queue. */
  lemma CarriedWhenSent(cn: Conn, srv: S.Conn, ev: TunnelEvent, air: seq<TunnelEvent>, view: seq<TunnelEvent>)
    requires Carried(cn, air, view) && Enqueues(cn, srv, ev)
    ensures Carried(cn.(srv := srv), air, view + [ev])
  {
    hide Heard, Ordered, Closes, Barred, Streaming;
    var held := Heard(cn.cli.recv) + Closes(cn.handoffs) + Ordered(air);
    OrderedAppend(cn.srv.down.sent, [ev]);
    SeenMore(view, ev);
    SingleEvent(ev);
    ConcatAssoc(held, Ordered(view), Ordered([ev]));
  }

  lemma SingleEvent(ev: TunnelEvent)
    ensures Ordered([ev]) == (if ev.Error? then [] else [ev]) && Heard([ev]) == Ordered([ev]) && PastError([ev]) == []
  {
    assert [ev][1..] == [];
    assert Ordered([]) == [] && Heard([]) == [] && PastError([]) == [];
    assert [ev] + [] == [ev];
  }

  /** A successful enqueue that the client will never read. */
  lemma CarriedWhenSwallowed(cn: Conn, srv: S.Conn, ev: TunnelEvent, air: seq<TunnelEvent>, view: seq<TunnelEvent>)
    requires Carried(cn, air, view) && Enqueues(cn, srv, ev)
    requires !(ev.Data? && Exposed(cn.(srv := srv), air) && !Barred(view))
    ensures Carried(cn.(srv := srv), air, view)
  {
    OrderedAppend(cn.srv.down.sent, [ev]);
    SingleEvent(ev);
    var held := Heard(cn.cli.recv) + Closes(cn.handoffs) + Ordered(air);
    hide Heard, Ordered, Closes, Barred, Streaming;
    assert Ordered(cn.srv.down.sent) <= Ordered(srv.down.sent);
  }

  lemma CarriedWhenBegun(cn: Conn, ev: TunnelEvent, view: seq<TunnelEvent>)
    requires Carried(cn, [], [ev] + view) && cn.registered
    ensures Carried(cn, [ev], view)
  {
    OrderedAppend([ev], view);
    HeardAppend([ev], view);
    PastErrorAppend([ev], view);
    SingleEvent(ev);
    var held := Heard(cn.cli.recv) + Closes(cn.handoffs);
    assert held + Ordered([]) == held;
    ConcatAssoc(held, Ordered([ev]), Ordered(view));
    ConcatAssoc(held, [ev], Heard(view));
    hide Heard, Ordered, Closes, PastError, Streaming, DataBytes;
    if !ev.Error? {
      assert held + [ev] <= held + [ev] + Heard(view);
    }
  }

  /** Nothing ordered can be in the air behind a handed-off `Close`. */
  lemma HandoffIsLast(cn: Conn, air: seq<TunnelEvent>, view: seq<TunnelEvent>)
    requires Carried(cn, air, view) && !cn.cli.writer.exited && Error !in cn.cli.recv && cn.handoffs > 0
    requires S.ResponseInv(cn.srv.down)
    ensures cn.handoffs == 1 && Ordered(air) == [] && Close in cn.srv.down.sent
  {
    var came, sent := Heard(cn.cli.recv), Ordered(cn.srv.down.sent);
    var held := came + Closes(cn.handoffs) + Ordered(air);
    ClosesLength(cn.handoffs);
    DataBytesOrdered(cn.srv.down.sent);
    assert held[|came|] == Closes(cn.handoffs)[0] == Close;
    assert sent[|came|] == held[|came|];
  }

  lemma {:induction false} ClosesLength(n: nat)
    ensures |Closes(n)| == n && forall i :: 0 <= i < n ==> Closes(n)[i] == Close
  {
    if n > 0 {
      ClosesLength(n - 1);
    }
  }

  /** A handed-off `Close` leaves nobody exposed. */
  lemma HandoffShields(cn: Conn, air: seq<TunnelEvent>, view: seq<TunnelEvent>)
    requires Carried(cn, air, view) && S.ResponseInv(cn.srv.down) && cn.handoffs > 0
    ensures !Exposed(cn, air)
  {
    if Exposed(cn, air) {
      HandoffIsLast(cn, air, view);
    }
  }

  lemma CarriedWhenDelivered(cn: Conn, cli: C.Relay, ev: TunnelEvent, view: seq<TunnelEvent>)
    requires Carried(cn, [ev], view) && S.ResponseInv(cn.srv.down) && !cn.cli.writer.exited
    requires cli.recv == cn.cli.recv + [ev] && !cli.writer.exited
    ensures Carried(cn.(cli := cli), [], view)
  {
    HeardAppend(cn.cli.recv, [ev]);
    SingleEvent(ev);
    var came := Heard(cn.cli.recv);
    HeardOfAll(cn.cli.recv);
    if cn.handoffs > 0 {
      HandoffShields(cn, [ev], view);
      if Error !in cn.cli.recv {
        HandoffIsLast(cn, [ev], view);
      }
    } else {
      assert came + Closes(0) + Ordered([ev]) == came + Ordered([ev]) + Closes(0) + Ordered([]);
    }
    hide Heard, Ordered, Closes, Barred, Streaming, S.ResponseInv;
    assert Error in cli.recv <==> Error in cn.cli.recv || ev.Error?;
  }

  lemma CarriedWhenHandedOff(cn: Conn, view: seq<TunnelEvent>)
    requires Carried(cn, [Close], view)
    ensures Carried(cn.(handoffs := cn.handoffs + 1), [], view)
  {
    SingleEvent(Close);
    var came := Heard(cn.cli.recv);
    assert came + Closes(cn.handoffs) + Ordered([Close]) == came + Closes(cn.handoffs + 1) + Ordered([]);
    hide Heard, Ordered, Closes, Barred, Streaming;
  }

  /** The event is dropped: with the registration, or with the receiver gone. */
  lemma CarriedWhenDropped(cn: Conn, air: seq<TunnelEvent>, view: seq<TunnelEvent>)
    requires Carried(cn, air, view) && (cn.cli.writer.exited || !cn.registered)
    ensures Carried(cn, [], view)
  {
    var came := Heard(cn.cli.recv) + Closes(cn.handoffs);
    assert came + Ordered([]) == came;
    hide Heard, Ordered, Closes, Barred, Streaming;
    assert came <= came + Ordered(air);
  }

  lemma CarriedWhenHandoffLands(cn: Conn, cli: C.Relay, air: seq<TunnelEvent>, view: seq<TunnelEvent>)
    requires Carried(cn, air, view) && S.ResponseInv(cn.srv.down) && !cn.cli.writer.exited && cn.handoffs > 0
    requires cli.recv == cn.cli.recv + [Close] && !cli.writer.exited
    ensures Carried(cn.(handoffs := cn.handoffs - 1, cli := cli), air, view)
  {
    HandoffShields(cn, air, view);
    HeardAppend(cn.cli.recv, [Close]);
    HeardOfAll(cn.cli.recv);
    SingleEvent(Close);
    if Error !in cn.cli.recv {
      HandoffIsLast(cn, air, view);
      var came := Heard(cn.cli.recv);
      assert Closes(1) == [Close] by {
        assert Closes(0) == [];
      }
      assert came + [Close] + Closes(0) + Ordered(air) == came + Closes(1) + Ordered(air);
    }
    hide Heard, Ordered, Closes, Barred, Streaming, S.ResponseInv;
  }

  lemma CarriedWhenHandoffEnds(cn: Conn, air: seq<TunnelEvent>, view: seq<TunnelEvent>)
    requires Carried(cn, air, view) && S.ResponseInv(cn.srv.down) && cn.handoffs > 0
    requires cn.cli.writer.exited || !cn.registered
    ensures Carried(cn.(handoffs := cn.handoffs - 1), air, view)
  {
    if !cn.cli.writer.exited && Error !in cn.cli.recv {
      HandoffIsLast(cn, air, view);
      assert Heard(cn.cli.recv) + Closes(0) + Ordered(air) == Heard(cn.cli.recv);
    }
    hide Heard, Ordered, Closes, Barred, Streaming, S.ResponseInv;
  }

  /** The whole share is discarded. */
  lemma CarriedWhenDiscarded(cn: Conn, view: seq<TunnelEvent>)
    requires Carried(cn, [], view) && S.ResponseInv(cn.srv.down)
    requires !(Exposed(cn, []) && DataBytes(view) != [])
    ensures Carried(cn, [], [])
  {
    var held := Heard(cn.cli.recv) + Closes(cn.handoffs) + Ordered([]);
    assert held + [] == held;
    if Exposed(cn, []) {
      DatalessView(cn, view);
    }
    hide Ordered, Closes, Streaming, S.ResponseInv;
  }

  /** While the server streams, a share without data has nothing ordered in it. */
  lemma DatalessView(cn: Conn, view: seq<TunnelEvent>)
    requires Carried(cn, [], view) && S.ResponseInv(cn.srv.down) && Exposed(cn, [])
    ensures Barred(view) ==> DataBytes(view) != []
    ensures DataBytes(view) == [] ==> Ordered(view) == []
  {
    PastErrorIsLater(view);
    var held, sent := Heard(cn.cli.recv) + Closes(cn.handoffs) + Ordered([]), Ordered(cn.srv.down.sent);
    DataBytesOrdered(view);
    DataBytesOrdered(cn.srv.down.sent);
    if !Barred(view) && Ordered(view) != [] {
      var ev := Ordered(view)[0];
      assert sent[|held|] == ev;
      OrderedIsIn(cn.srv.down.sent, ev);
      assert ev.Data? && ev.bytes != [];
      DataBytesAppend([ev], Ordered(view)[1..]);
      assert Ordered(view) == [ev] + Ordered(view)[1..];
      assert DataBytes([ev]) == ev.bytes + [];
    }
  }

  lemma {:induction false} PastErrorIsLater(evs: seq<TunnelEvent>)
    ensures DataBytes(PastError(evs)) != [] ==> DataBytes(evs) != []
  {
    if evs != [] && !evs[0].Error? {
      PastErrorIsLater(evs[1..]);
    }
  }

  lemma {:induction false} OrderedIsIn(evs: seq<TunnelEvent>, ev: TunnelEvent)
    requires ev in Ordered(evs)
    ensures ev in evs
  {
    if evs[0] != ev {
      OrderedIsIn(evs[1..], ev);
    }
  }

  // ------------------------------------------------- the upload, one step at a time

  lemma {:induction false} PostedBytesSnoc(posts: seq<C.ClientMsg>, m: C.ClientMsg)
    ensures PostedBytes(posts + [m]) == PostedBytes(posts) + (if m.SendData? then m.bytes else [])
  {
    if posts != [] {
      PostedBytesSnoc(posts[1..], m);
      assert (posts + [m])[1..] == posts[1..] + [m];
    }
  }

  lemma PostedWhenReadStays(cn: Conn, cli: C.Relay)
    requires Posted(cn) && cli.posts == cn.cli.posts
    requires cli.read == cn.cli.read || (cn.cli.read.PostingClose? && cli.read.Reported?)
    ensures Posted(cn.(cli := cli))
  {
    hide PostedBytes, S.Pipe;
  }

  lemma PostedWhenPosting(cn: Conn, d: Bytes)
    requires Posted(cn) && cn.cli.read.Reading? && C.SendClose !in cn.cli.posts
    ensures Posted(cn.(cli := cn.cli.(read := C.Posting(d), posts := cn.cli.posts + [C.SendData(d)])))
  {
    PostedBytesSnoc(cn.cli.posts, C.SendData(d));
    hide PostedBytes, S.Pipe;
  }

  lemma PostedWhenEnding(cn: Conn, cli: C.Relay, msgs: seq<C.ClientMsg>)
    requires Posted(cn) && cn.cli.read.Reading? && C.SendClose !in cn.cli.posts
    requires msgs in {[], [C.SendClose], [C.SendAbort]} && cli.posts == cn.cli.posts + msgs
    requires cli.read.PostingClose? || cli.read.Reported?
    ensures Posted(cn.(cli := cli))
  {
    PostedBytesSnoc(cn.cli.posts, C.SendClose);
    PostedBytesSnoc(cn.cli.posts, C.SendAbort);
    hide PostedBytes, S.Pipe;
    assert cn.cli.posts + [] == cn.cli.posts;
    assert PostedBytes(cn.cli.posts) + [] == PostedBytes(cn.cli.posts);
  }

  lemma PostedWhenClientMoves(cn: Conn, ca: C.Action)
    requires C.Inv(cn.cli) && Posted(cn) && (LocalToClient(ca) || ca.SendersGone? || ca.Deliver?)
    ensures Posted(cn.(cli := C.Next(cn.cli, ca)))
  {
    var cli := C.Next(cn.cli, ca);
    if cn.cli.read.Reading? {
      NoCloseYet(cn.cli);
    }
    hide C.Inv, Posted, C.WriteStep;
    if cli.read == cn.cli.read || ca.CloseDone? {
      PostedWhenReadStays(cn, cli);
    } else if ca.AppData? {
      PostedWhenPosting(cn, ca.data);
    } else {
      PostedWhenEnding(cn, cli, if ca.AppEof? then [C.SendClose] else if ca.TakeStop? && cn.cli.stop ==
        Some(C.ServerReported) then [] else [C.SendAbort]);
    }
  }

  lemma NoCloseYet(cli: C.Relay)
    requires C.Inv(cli) && (cli.read.Reading? || cli.read.Posting?)
    ensures C.SendClose !in cli.posts
  {
  }

  /** The server's own steps only carry the bytes further on. */
  ghost predicate Conveys(u: S.Upload, u': S.Upload) {
    && u'.handler == u.handler && u'.atClose == u.atClose && (u'.linked ==> u.linked)
    && (u'.targetWritten == u.targetWritten || (S.Draining(u) && u'.targetWritten <= S.Pipe(u)))
    && (S.Draining(u') ==> S.Draining(u) && S.Pipe(u') == S.Pipe(u))
    && (u'.write == S.WriteDone(true) ==> S.Draining(u) || u.write == S.WriteDone(true))
  }

  lemma WriteConveys(u: S.Upload, sa: S.Action)
    requires sa.TakeWrite? ==> u.write.Waiting? && u.queue != []
    requires sa.TargetWrote? ==> u.write.WritingTarget?
    requires sa.TakeWrite? || sa.TargetWrote?
    ensures Conveys(u, S.UpNext(u, sa))
  {
    hide Min;
    var u' := S.UpNext(u, sa);
    if sa.TargetWrote? && sa.cut.Some? {
      assert u.write.data[..Min(sa.cut.value, |u.write.data|)] <= u.write.data;
      assert u'.targetWritten <= u.targetWritten + u.write.data <= S.Pipe(u);
    } else {
      assert S.Pipe(u') == S.Pipe(u);
    }
  }

  lemma ServerConveys(c: S.Conn, sa: S.Action)
    requires LocalToServer(sa) || sa.ChunkSent? || sa.EndSent? || sa.ReportSent?
    ensures Conveys(c.up, S.Next(c, sa).up)
  {
    if S.Enabled(c, sa) {
      if sa.TakeWrite? || sa.TargetWrote? {
        WriteConveys(c.up, sa);
      } else {
        hide Flatten, S.DownNext;
      }
    }
  }

  lemma PostedWhenServerMoves(cn: Conn, srv: S.Conn)
    requires Posted(cn) && Conveys(cn.srv.up, srv.up) && (srv.permit ==> cn.srv.permit)
    ensures Posted(cn.(srv := srv))
  {
    hide PostedBytes, S.Pipe;
    var u, u', posted := cn.srv.up, srv.up, PostedBytes(cn.cli.posts);
    if !cn.resent && S.Draining(u) {
      assert S.Pipe(u) <= S.Pipe(u) + Held(u);
      PrefixTrans(S.Pipe(u), S.Pipe(u) + Held(u), posted);
      if u'.targetWritten <= S.Pipe(u) {
        PrefixTrans(u'.targetWritten, S.Pipe(u), posted);
      }
    }
  }

  lemma CancelFrame(c: S.Conn)
    ensures S.Next(c, S.Cancel).up == c.up.(handler := None) && S.Next(c, S.Cancel).permit == c.permit
  {
  }

  lemma PostedAfterFirstFailure(cn: Conn)
    requires Posted(cn) && cn.cli.read.Posting? && !cn.retried
    ensures Posted(PostNext(cn, PostFailed(0)))
  {
    CancelFrame(cn.srv);
    var u := cn.srv.up;
    PipeOnly(u, u.(handler := None));
    hide S.Next, PostedBytes, S.Pipe, Flatten;
    if !cn.resent && S.Draining(u) {
      PrefixTrans(S.Pipe(u), S.Pipe(u) + Held(u), PostedBytes(cn.cli.posts));
    }
    assert S.Pipe(u) + [] == S.Pipe(u);
  }

  lemma PostedAfterSecondFailure(cn: Conn)
    requires Posted(cn) && cn.cli.read.Posting? && cn.retried && C.SendClose !in cn.cli.posts
    ensures Posted(PostNext(cn, PostFailed(0)))
  {
    CancelFrame(cn.srv);
    var u := cn.srv.up;
    PipeOnly(u, u.(handler := None));
    PostedBytesSnoc(cn.cli.posts, C.SendAbort);
    FailureReported(cn.cli);
    hide S.Next, PostedBytes, S.Pipe, Flatten, C.Next, S.Draining;
    if !cn.resent && S.Draining(u) {
      PrefixTrans(S.Pipe(u), S.Pipe(u) + Held(u), PostedBytes(cn.cli.posts));
    }
    assert S.Pipe(u) + [] == S.Pipe(u) && PostedBytes(cn.cli.posts) + [] == PostedBytes(cn.cli.posts);
  }

  lemma FailureReported(cli: C.Relay)
    requires cli.read.Posting?
    ensures var cli' := C.Next(cli, C.PostError); cli'.posts == cli.posts + [C.SendAbort] && cli'.read.Reported?
  {
  }

  lemma PipeOnly(u: S.Upload, u': S.Upload)
    requires u'.targetWritten == u.targetWritten && u'.write == u.write && u'.queue == u.queue
    ensures S.Pipe(u') == S.Pipe(u)
  {
    hide Flatten;
  }

  lemma PostedAfterFailure(cn: Conn)
    requires C.Inv(cn.cli) && Posted(cn) && cn.cli.read.Posting?
    ensures Posted(PostNext(cn, PostFailed(0)))
  {
    NoCloseYet(cn.cli);
    hide *;
    if cn.retried {
      PostedAfterSecondFailure(cn);
    } else {
      PostedAfterFirstFailure(cn);
    }
  }

  lemma DataFrame(c: S.Conn, d: Bytes)
    requires c.up.handler.None?
    ensures var c' := S.Next(c, S.HandleData(d));
      && c'.permit == c.permit
      && c'.up == if c.up.linked then c.up.(handler := Some(d)) else c.up.(offered := c.up.offered + d,
        discarded := true)
  {
  }

  lemma PostedWhenArrived(cn: Conn)
    requires Posted(cn)
    ensures Posted(PostNext(cn, PostArrives(0)))
  {
    if cn.cli.read.Posting? && cn.post == NotApplied && !cn.astray {
      var u, d := cn.srv.up, cn.cli.read.data;
      DataFrame(cn.srv, d);
      PipeOnly(u, u.(handler := Some(d)));
      PipeOnly(u, u.(offered := u.offered + d, discarded := true));
      hide S.Next, PostedBytes, S.Pipe, Flatten;
    }
  }

  lemma PostedWhenAstray(cn: Conn)
    requires C.Inv(cn.cli) && Posted(cn)
    ensures Posted(PostNext(cn, PostAstray(0)))
  {
    if cn.cli.read.Posting? {
      NoCloseYet(cn.cli);
    }
    hide C.Inv, PostedBytes, S.Pipe;
  }

  lemma HandlerEndFrame(c: S.Conn)
    requires c.up.handler.Some?
    ensures var u, d := c.up, c.up.handler.value;
      && S.Next(c, S.ReceiverGone).permit == S.Next(c, S.Enqueue).permit == c.permit
      && (u.write.WriteDone? ==>
            S.Next(c, S.ReceiverGone).up == u.(handler := None, offered := u.offered + d, discarded := true))
      && (!u.write.WriteDone? && S.Next(c, S.Enqueue).up.handler.None? ==>
            S.Next(c, S.Enqueue).up == u.(handler := None, queue := u.queue + [d], offered := u.offered + d))
  {
  }

  lemma PipeGrows(u: S.Upload, u': S.Upload, d: Bytes)
    requires u'.targetWritten == u.targetWritten && u'.write == u.write && u'.queue == u.queue + [d]
    ensures S.Pipe(u') == S.Pipe(u) + d
  {
    FlattenSnoc(u.queue, d);
    hide Flatten;
  }

  lemma PostedWhenHandled(cn: Conn)
    requires Posted(cn)
    ensures Posted(PostNext(cn, PostHandled(0)))
  {
    if cn.post == Handling {
      var u, d := cn.srv.up, cn.srv.up.handler.value;
      HandlerEndFrame(cn.srv);
      PipeOnly(u, u.(handler := None, offered := u.offered + d, discarded := true));
      PipeGrows(u, u.(handler := None, queue := u.queue + [d], offered := u.offered + d), d);
      hide S.Next, PostedBytes, S.Pipe, Flatten;
      assert S.Pipe(u) + d + [] == S.Pipe(u) + d;
    }
  }

  lemma PostedWhenAcked(cn: Conn)
    requires C.Inv(cn.cli) && Posted(cn)
    ensures Posted(PostNext(cn, PostAcked(0)))
  {
    if cn.cli.read.Posting? {
      NoCloseYet(cn.cli);
    }
    hide C.Inv, PostedBytes, S.Pipe;
  }

  lemma CloseFrame(c: S.Conn)
    ensures var u, c' := c.up, S.Next(c, S.HandleClose);
      && c'.permit == c.permit
      && c'.up == u.(linked := false, atClose := if u.linked && u.handler.None? then Some(u.offered) else u.atClose)
  {
  }

  /** An open upload has had everything it was offered. */
  lemma OpenHasAll(u: S.Upload)
    requires S.UploadInv(u) && u.linked
    ensures S.Draining(u) ==> S.Pipe(u) == u.offered
    ensures u.write != S.WriteDone(true)
  {
    hide S.Pipe;
  }

  lemma PostedWhenClosed(cn: Conn)
    requires Posted(cn) && C.Inv(cn.cli) && S.UploadInv(cn.srv.up)
    ensures Posted(PostNext(cn, CloseArrives(0)))
  {
    if C.SendClose in cn.cli.posts && !cn.astray {
      var u := cn.srv.up;
      NotPostingPastClose(cn.cli);
      CloseFrame(cn.srv);
      PipeOnly(u, S.Next(cn.srv, S.HandleClose).up);
      hide C.Inv, PostedBytes, S.Next, S.Pipe, Flatten;
      if u.linked {
        OpenHasAll(u);
      }
      hide S.UploadInv;
      assert S.Pipe(u) + [] == S.Pipe(u);
    }
  }

  lemma NotPostingPastClose(cli: C.Relay)
    requires C.Inv(cli) && C.SendClose in cli.posts
    ensures !cli.read.Posting?
  {
    if cli.read.Posting? {
      NoCloseYet(cli);
    }
  }

  lemma AbortFrame(c: S.Conn)
    ensures S.Next(c, S.HandleAbort).up == c.up.(linked := false)
  {
  }

  lemma PostedWhenAborted(cn: Conn)
    requires Posted(cn)
    ensures Posted(PostNext(cn, AbortArrives(0)))
  {
    AbortFrame(cn.srv);
    PipeOnly(cn.srv.up, cn.srv.up.(linked := false));
    hide PostedBytes, S.Next, S.Pipe, Flatten;
  }

  lemma KillFrame(c: S.Conn)
    requires !c.killed
    ensures var u, c' := c.up, S.Next(c, S.Kill);
      && !c'.permit
      && c'.up == u.(write := S.WriteDone(false), linked := false, handler := None, discarded := true)
  {
  }

  lemma PostedWhenKilled(cn: Conn)
    requires Posted(cn)
    ensures Posted(Killed(cn))
  {
    hide S.Next, PostedBytes, S.Pipe;
    if !cn.srv.killed {
      KillFrame(cn.srv);
    }
  }

  predicate IsPosting(a: Action) {
    || a.PostArrives? || a.PostAstray? || a.PostHandled? || a.PostAcked? || a.PostFailed?
    || a.CloseArrives? || a.AbortArrives?
  }

  /** Every step of a POST, with the parts of the connection it leaves alone. */
  lemma PostStep(cn: Conn, a: Action)
    requires C.Inv(cn.cli) && S.Inv(cn.srv) && Posted(cn)
    requires IsPosting(a)
    ensures Posted(PostNext(cn, a))
  {
    hide C.Next, S.Next, Posted, C.Inv, S.ResponseInv, S.UploadInv, S.TeardownInv;
    match a
    case PostArrives(_) => PostedWhenArrived(cn);
    case PostAstray(_) => PostedWhenAstray(cn);
    case PostHandled(_) => PostedWhenHandled(cn);
    case PostAcked(_) => PostedWhenAcked(cn);
    case PostFailed(_) =>
      if cn.cli.read.Posting? {
        PostedAfterFailure(cn);
      }
    case CloseArrives(_) => PostedWhenClosed(cn);
    case AbortArrives(_) => PostedWhenAborted(cn);
  }

  /** What a POST's server action leaves alone. */
  predicate IsHandlerAction(a: S.Action) {
    a.HandleData? || a.Enqueue? || a.ReceiverGone? || a.Cancel? || a.HandleClose? || a.HandleAbort?
  }

  lemma HandlerFrame(c: S.Conn, a: S.Action)
    requires IsHandlerAction(a)
    ensures S.Next(c, a).down == c.down && S.Next(c, a).killed == c.killed
  {
  }

  lemma PostRelays(cn: Conn, a: Action)
    ensures var cn' := PostNext(cn, a);
      && (cn'.srv == cn.srv || exists sa :: IsHandlerAction(sa) && cn'.srv == S.Next(cn.srv, sa))
      && (cn'.cli == cn.cli || cn'.cli == C.Next(cn.cli, C.PostOk) || cn'.cli == C.Next(cn.cli, C.PostError))
      && cn'.registered == cn.registered && cn'.handoffs == cn.handoffs && cn'.stale == cn.stale
  {
    hide C.Next, S.Next;
    assert IsHandlerAction(S.Cancel) && IsHandlerAction(S.HandleClose) && IsHandlerAction(S.HandleAbort);
    assert IsHandlerAction(S.ReceiverGone) && IsHandlerAction(S.Enqueue);
    if a.PostArrives? && cn.cli.read.Posting? {
      assert IsHandlerAction(S.HandleData(cn.cli.read.data));
    }
  }

  lemma PostFrame(cn: Conn, a: Action)
    requires C.Inv(cn.cli) && S.Inv(cn.srv)
    ensures var cn' := PostNext(cn, a);
      && C.Inv(cn'.cli) && S.Inv(cn'.srv)
      && cn'.cli.recv == cn.cli.recv && cn'.cli.writer == cn.cli.writer && cn'.cli.open == cn.cli.open
      && cn'.srv.down == cn.srv.down && cn'.srv.killed == cn.srv.killed
      && cn'.registered == cn.registered && cn'.handoffs == cn.handoffs && cn'.stale == cn.stale
  {
    hide PostNext, C.Inv, S.Inv, S.Next;
    var cn' := PostNext(cn, a);
    PostRelays(cn, a);
    if cn'.srv != cn.srv {
      var sa :| IsHandlerAction(sa) && cn'.srv == S.Next(cn.srv, sa);
      HandlerFrame(cn.srv, sa);
      S.NextKeepsInv(cn.srv, sa);
    }
    C.NextKeepsInv(cn.cli, C.PostOk);
    C.NextKeepsInv(cn.cli, C.PostError);
  }

  lemma PostKept(cn: Conn, a: Action, air: seq<TunnelEvent>, view: seq<TunnelEvent>, lost: bool)
    requires ConnInv(cn, air, view, lost)
    requires IsPosting(a)
    ensures ConnInv(PostNext(cn, a), air, view, lost)
  {
    hide PostNext, Posted, C.Inv, S.Inv;
    PostFrame(cn, a);
    PostStep(cn, a);
  }

  // ------------------------------------------------ every action, every connection

  /** An action on one connection leaves the others as they were. */
  lemma OthersKept(s: System, s': System, cid: nat)
    requires Inv(s) && cid in s.conns
    requires s'.conns.Keys == s.conns.Keys
    requires forall c :: c in s.conns && c != cid ==> s'.conns[c] == s.conns[c]
    requires forall c :: c in s.conns && c != cid ==>
      InAir(s'.air, c) == InAir(s.air, c) && View(s'.queue, c) == View(s.queue, c) && (c in s.lost <==> c in s'.lost)
    requires forall i :: 0 <= i < |s'.queue| && s'.queue[i].Item? ==> s'.queue[i].cid in s'.conns
    requires s'.lost <= s'.conns.Keys
    requires ConnInv(s'.conns[cid], InAir(s'.air, cid), View(s'.queue, cid), cid in s'.lost)
    requires !s'.live ==> s'.queue == []
    requires s'.air.Some? ==> s'.air.value.Item? && s'.air.value.cid in s'.conns
    ensures Inv(s')
  {
    hide ConnInv, InAir, View;
  }

  lemma {:induction false} FreshConn(view: seq<TunnelEvent>)
    requires Ordered(view) == [] && Heard(view) == []
    ensures ConnInv(OPENED, [], view, false)
  {
    C.InitInv();
    S.FreshInv();
    assert Closes(0) == [];
  }

  lemma SettleKept(cn: Conn, air: seq<TunnelEvent>, view: seq<TunnelEvent>, lost: bool)
    requires C.Inv(cn.cli) && S.Inv(cn.srv) && (lost || Carried(cn, air, view)) && Posted(cn)
    requires (cn.registered || cn.handoffs > 0 || air != [] ==> cn.cli.open) && (cn.registered ==> !cn.stale)
    ensures ConnInv(Settle(cn, air != []), air, view, lost)
  {
    hide C.Inv, S.Inv, Posted, Carried;
    C.NextKeepsInv(cn.cli, C.SendersGone);
    PostedWhenClientMoves(cn, C.SendersGone);
    if !lost {
      CarriedWhenClientMoves(cn, C.Next(cn.cli, C.SendersGone), air, view);
    }
  }

  lemma ClientMoveKept(cn: Conn, ca: C.Action, air: seq<TunnelEvent>, view: seq<TunnelEvent>, lost: bool)
    requires ConnInv(cn, air, view, lost) && LocalToClient(ca)
    ensures ConnInv(cn.(cli := C.Next(cn.cli, ca)), air, view, lost)
  {
    hide C.Inv, S.Inv, Posted, Carried;
    C.NextKeepsInv(cn.cli, ca);
    PostedWhenClientMoves(cn, ca);
    if !lost {
      CarriedWhenClientMoves(cn, C.Next(cn.cli, ca), air, view);
    }
  }

  lemma UnregisterKept(cn: Conn, air: seq<TunnelEvent>, view: seq<TunnelEvent>, view': seq<TunnelEvent>, lost: bool)
    requires ConnInv(cn, air, view, lost)
    ensures ConnInv(Settle(cn.(registered := false), air != []), air, view', lost)
  {
    hide C.Inv, S.Inv;
    if !lost {
      CarriedWhenUnregistered(cn, air, view, view');
    }
    SettleKept(cn.(registered := false), air, view', lost);
  }

  lemma ServerMoveKept(cn: Conn, sa: S.Action, air: seq<TunnelEvent>, view: seq<TunnelEvent>, lost: bool)
    requires ConnInv(cn, air, view, lost) && LocalToServer(sa)
    ensures ConnInv(cn.(srv := S.Next(cn.srv, sa)), air, view, lost)
  {
    hide C.Inv, S.Inv, Posted, Carried;
    S.NextKeepsInv(cn.srv, sa);
    LocalServerFrame(cn.srv, sa);
    ServerConveys(cn.srv, sa);
    PostedWhenServerMoves(cn, S.Next(cn.srv, sa));
    if !lost {
      CarriedWhenServerMoves(cn, S.Next(cn.srv, sa), air, view);
    }
  }

  lemma LocalServerFrame(c: S.Conn, sa: S.Action)
    requires LocalToServer(sa)
    ensures var c' := S.Next(c, sa);
      && c'.down.sent == c.down.sent && c'.killed == c.killed
      && (Streaming(c'.down) ==> Streaming(c.down)) && (c'.permit ==> c.permit)
  {
  }

  /** A relay's own step; `relay` unregisters the connection after its join. */
  lemma ClientSteps(s: System, cid: nat, ca: C.Action)
    requires cid in s.conns && LocalToClient(ca)
    ensures var cn := s.conns[cid].(cli := C.Next(s.conns[cid].cli, ca));
      || (Next(s, Client(cid, ca)) == Put(s, cid, cn) && (ca.Join? ==> cn.cli.socket.Live?))
      || Next(s, Client(cid, ca)) == Put(s, cid, Settle(cn.(registered := false), InAir(s.air, cid) != []))
  {
    hide C.Next, Settle, InAir, BeginNext, AirNext, HandoffNext, PostNext, StaleAll, Killed, Harmed, SendNext;
  }

  /** A step that changes one connection's part and nothing else. */
  lemma PutInv(s: System, cid: nat, cn: Conn)
    requires Inv(s) && cid in s.conns && ConnInv(cn, InAir(s.air, cid), View(s.queue, cid), cid in s.lost)
    ensures Inv(Put(s, cid, cn))
  {
    hide ConnInv, InAir, View;
    OthersKept(s, Put(s, cid, cn), cid);
  }

  lemma ClientKept(s: System, cid: nat, ca: C.Action)
    requires Inv(s) && cid in s.conns && LocalToClient(ca)
    ensures Inv(Next(s, Client(cid, ca)))
  {
    hide Inv, ConnInv, C.Next, Settle, InAir, View, Next;
    var cn := s.conns[cid].(cli := C.Next(s.conns[cid].cli, ca));
    var air, view, lost := InAir(s.air, cid), View(s.queue, cid), cid in s.lost;
    ConnOf(s, cid);
    ClientMoveKept(s.conns[cid], ca, air, view, lost);
    UnregisterKept(cn, air, view, view, lost);
    ClientSteps(s, cid, ca);
    PutInv(s, cid, cn);
    PutInv(s, cid, Settle(cn.(registered := false), air != []));
  }

  lemma ConnOf(s: System, cid: nat)
    requires Inv(s) && cid in s.conns
    ensures ConnInv(s.conns[cid], InAir(s.air, cid), View(s.queue, cid), cid in s.lost)
  {
    hide ConnInv, InAir, View;
  }

  lemma NextServer(s: System, cid: nat, sa: S.Action)
    requires cid in s.conns && LocalToServer(sa)
    ensures Next(s, Server(cid, sa)) == Put(s, cid, s.conns[cid].(srv := S.Next(s.conns[cid].srv, sa)))
  {
    hide S.Next, BeginNext, AirNext, HandoffNext, PostNext, StaleAll, Killed, Harmed, SendNext;
  }

  lemma NextClone(s: System, cid: nat)
    requires cid in s.conns
    ensures Next(s, CloneSender(cid)) ==
      if s.conns[cid].srv.killed then s else Put(s, cid, s.conns[cid].(clone := Some(s.gen)))
  {
    hide BeginNext, AirNext, HandoffNext, PostNext, StaleAll, Killed, Harmed, SendNext;
  }

  lemma ServerKept(s: System, cid: nat, sa: S.Action)
    requires Inv(s) && cid in s.conns && LocalToServer(sa)
    ensures Inv(Next(s, Server(cid, sa)))
  {
    hide Inv, ConnInv, S.Next, InAir, View, Next;
    ConnOf(s, cid);
    ServerMoveKept(s.conns[cid], sa, InAir(s.air, cid), View(s.queue, cid), cid in s.lost);
    NextServer(s, cid, sa);
    PutInv(s, cid, s.conns[cid].(srv := S.Next(s.conns[cid].srv, sa)));
  }

  lemma PostingKept(s: System, cid: nat, a: Action)
    requires Inv(s) && cid in s.conns
    requires IsPosting(a)
    ensures Inv(Put(s, cid, PostNext(s.conns[cid], a)))
  {
    hide Inv, ConnInv, PostNext, InAir, View;
    ConnOf(s, cid);
    PostKept(s.conns[cid], a, InAir(s.air, cid), View(s.queue, cid), cid in s.lost);
    PutInv(s, cid, PostNext(s.conns[cid], a));
  }

  /** `sa` is the server action that enqueues `ev`. */
  ghost predicate Emits(c: S.Conn, sa: S.Action, ev: TunnelEvent) {
    && S.Enabled(c, sa)
    && (|| (sa.ChunkSent? && c.down.read.SendingChunk? && ev == Data(c.down.read.chunk))
        || (sa.EndSent? && c.down.read.SendingEnd? && ev == c.down.read.end)
        || (sa.ReportSent? && ev == Error))
  }

  lemma EmitFrame(c: S.Conn, sa: S.Action, ev: TunnelEvent)
    requires S.Inv(c) && Emits(c, sa, ev)
    ensures var c' := S.Next(c, sa);
      && S.Inv(c') && c'.down.sent == c.down.sent + [ev] && c'.killed == c.killed
      && (ev.Error? || Streaming(c.down)) && (Streaming(c'.down) ==> Streaming(c.down) && !ev.Close?) && !ev.Exit?
      && (c'.permit ==> c.permit) && Conveys(c.up, c'.up)
  {
    S.NextKeepsInv(c, sa);
    ServerConveys(c, sa);
    hide S.Inv, Conveys;
  }

  lemma EmitKept(cn: Conn, sa: S.Action, ev: TunnelEvent, clone: Option<nat>,
                 air: seq<TunnelEvent>, view: seq<TunnelEvent>, view': seq<TunnelEvent>, lost: bool, lost': bool)
    requires ConnInv(cn, air, view, lost) && Emits(cn.srv, sa, ev)
    requires var cn' := cn.(srv := S.Next(cn.srv, sa), clone := clone);
      || (view' == view + [ev] && lost' == lost)
      || (view' == view && lost' == (lost || (ev.Data? && Exposed(cn', air) && !Barred(view))))
    ensures ConnInv(cn.(srv := S.Next(cn.srv, sa), clone := clone), air, view', lost')
  {
    hide C.Inv, S.ResponseInv, S.UploadInv, Posted, Carried, Barred, Streaming;
    var srv := S.Next(cn.srv, sa);
    EmitFrame(cn.srv, sa, ev);
    assert !srv.killed;
    PostedWhenServerMoves(cn, srv);
    if !lost && view' == view + [ev] {
      CarriedWhenSent(cn, srv, ev, air, view);
    } else if !lost' {
      CarriedWhenSwallowed(cn, srv, ev, air, view);
    }
    ClonesApart(cn.(srv := srv), clone, air, view');
  }

  lemma ClonesApart(cn: Conn, clone: Option<nat>, air: seq<TunnelEvent>, view: seq<TunnelEvent>)
    ensures Carried(cn.(clone := clone), air, view) <==> Carried(cn, air, view)
    ensures Posted(cn.(clone := clone)) <==> Posted(cn)
  {
    hide Heard, Ordered, Closes, Barred, Streaming, PostedBytes;
  }

  lemma EnqueuedKept(s: System, cid: nat, sa: S.Action, ev: TunnelEvent, into: Option<nat>, clone: Option<nat>)
    requires Inv(s) && cid in s.conns && Emits(s.conns[cid].srv, sa, ev)
    ensures Inv(Enqueued(s, cid, s.conns[cid].(srv := S.Next(s.conns[cid].srv, sa), clone := clone), ev, into))
  {
    hide Inv, ConnInv, Emits, View, InAir, S.Next, Barred, Streaming, Exposed;
    var cn := s.conns[cid];
    var cn' := cn.(srv := S.Next(cn.srv, sa), clone := clone);
    var s' := Enqueued(s, cid, cn', ev, into);
    ConnOf(s, cid);
    forall c ensures View(s.queue + [Item(cid, ev)], c) == View(s.queue, c) + (if c == cid then [ev] else []) {
      ViewSnoc(s.queue, Item(cid, ev), c);
    }
    EmitKept(cn, sa, ev, clone, InAir(s.air, cid), View(s.queue, cid), View(s'.queue, cid), cid in s.lost,
      cid in s'.lost);
    EnqueuedInv(s, cid, cn', ev, into);
  }

  lemma EnqueuedInv(s: System, cid: nat, cn: Conn, ev: TunnelEvent, into: Option<nat>)
    requires Inv(s) && cid in s.conns
    requires forall c :: View(s.queue + [Item(cid, ev)], c) == View(s.queue, c) + (if c == cid then [ev] else [])
    requires var s' := Enqueued(s, cid, cn, ev, into);
      ConnInv(cn, InAir(s.air, cid), View(s'.queue, cid), cid in s'.lost)
    ensures Inv(Enqueued(s, cid, cn, ev, into))
  {
    hide Inv, ConnInv, View, InAir, Harms;
    var s' := Enqueued(s, cid, cn, ev, into);
    if Reaches(s, into) {
      AppendedInv(s, cid, cn, Item(cid, ev));
    } else {
      SwallowedInv(s, cid, cn, s'.lost);
    }
  }

  lemma AppendedInv(s: System, cid: nat, cn: Conn, item: Item)
    requires Inv(s) && s.live && cid in s.conns && item.Item? && item.cid == cid
    requires forall c :: c != cid ==> View(s.queue + [item], c) == View(s.queue, c)
    requires ConnInv(cn, InAir(s.air, cid), View(s.queue + [item], cid), cid in s.lost)
    ensures Inv(Put(s, cid, cn).(queue := s.queue + [item]))
  {
    hide ConnInv, View, InAir;
    OthersKept(s, Put(s, cid, cn).(queue := s.queue + [item]), cid);
  }

  lemma SwallowedInv(s: System, cid: nat, cn: Conn, lost: set<nat>)
    requires Inv(s) && cid in s.conns && (lost == s.lost || lost == s.lost + {cid})
    requires ConnInv(cn, InAir(s.air, cid), View(s.queue, cid), cid in lost)
    ensures Inv(Put(s, cid, cn).(lost := lost))
  {
    hide ConnInv, View, InAir;
    OthersKept(s, Put(s, cid, cn).(lost := lost), cid);
  }

  lemma ViewSnoc(queue: seq<Item>, item: Item, cid: nat)
    ensures View(queue + [item], cid) == View(queue, cid) + Shows(item, cid)
  {
    ViewAppend(queue, [item], cid);
    assert View([item], cid) == Shows(item, cid) + [];
  }

  lemma SendKept(s: System, cid: nat)
    requires Inv(s) && cid in s.conns
    ensures Inv(SendNext(s, cid)) && Inv(Next(s, SendReport(cid)))
  {
    hide Inv, S.Next;
    var cn := s.conns[cid];
    if cn.clone.Some? && cn.srv.down.read.SendingChunk? {
      EnqueuedKept(s, cid, S.ChunkSent, Data(cn.srv.down.read.chunk), cn.clone, None);
    } else if cn.clone.Some? && cn.srv.down.read.SendingEnd? {
      EnqueuedKept(s, cid, S.EndSent, cn.srv.down.read.end, cn.clone, None);
    }
    if cn.srv.up.write.ReportingWrite? {
      EnqueuedKept(s, cid, S.ReportSent, Error, Some(s.gen), cn.clone);
      assert cn.(srv := S.Next(cn.srv, S.ReportSent)) == cn.(srv := S.Next(cn.srv, S.ReportSent), clone := cn.clone);
    }
  }

  lemma CloneApart(cn: Conn, clone: Option<nat>, air: seq<TunnelEvent>, view: seq<TunnelEvent>, lost: bool)
    requires ConnInv(cn, air, view, lost)
    ensures ConnInv(cn.(clone := clone), air, view, lost)
  {
    hide C.Inv, S.Inv, Posted, Carried;
    ClonesApart(cn, clone, air, view);
  }

  lemma CloneKept(s: System, cid: nat)
    requires Inv(s) && cid in s.conns
    ensures Inv(Next(s, CloneSender(cid)))
  {
    hide Inv, ConnInv, InAir, View, Next;
    ConnOf(s, cid);
    CloneApart(s.conns[cid], Some(s.gen), InAir(s.air, cid), View(s.queue, cid), cid in s.lost);
    NextClone(s, cid);
    PutInv(s, cid, s.conns[cid].(clone := Some(s.gen)));
  }

  // -------------------------------------------------------------------- dispatch

  lemma ClearKept(s: System, queue': seq<Item>)
    requires Inv(s) && (!s.live ==> queue' == [])
    requires forall i :: 0 <= i < |queue'| && queue'[i].Item? ==> queue'[i].cid in s.conns
    ensures Inv(s.(conns := ClearAll(s), queue := queue', resetLost := false))
  {
    hide ConnInv;
    forall c | c in s.conns
      ensures ConnInv(ClearAll(s)[c], InAir(s.air, c), View(queue', c), c in s.lost)
    {
      UnregisterKept(s.conns[c], InAir(s.air, c), View(s.queue, c), View(queue', c), c in s.lost);
    }
    assert ClearAll(s).Keys == s.conns.Keys;
  }

  lemma DispatchedApart(cn: Conn, dispatched: seq<TunnelEvent>, air: seq<TunnelEvent>, view: seq<TunnelEvent>)
    ensures Carried(cn.(dispatched := dispatched), air, view) <==> Carried(cn, air, view)
    ensures Posted(cn.(dispatched := dispatched)) <==> Posted(cn)
  {
    hide Heard, Ordered, Closes, Barred, Streaming, PostedBytes;
  }

  lemma BegunKept(cn: Conn, ev: TunnelEvent, view: seq<TunnelEvent>, lost: bool)
    requires ConnInv(cn, [], [ev] + view, lost) && cn.registered
    ensures ConnInv(cn.(dispatched := cn.dispatched + [ev]), [ev], view, lost)
  {
    hide C.Inv, S.Inv, Posted, Carried;
    if !lost {
      CarriedWhenBegun(cn, ev, view);
    }
    DispatchedApart(cn, cn.dispatched + [ev], [ev], view);
  }

  lemma SkippedKept(cn: Conn, air: seq<TunnelEvent>, view: seq<TunnelEvent>, view': seq<TunnelEvent>, lost: bool)
    requires ConnInv(cn, air, view, lost) && !cn.registered
    ensures ConnInv(cn, air, view', lost)
  {
    hide C.Inv, S.Inv, Posted, Heard, Ordered, Closes, Barred, Streaming;
  }

  lemma BeginKept(s: System)
    requires Inv(s)
    ensures Inv(BeginNext(s))
  {
    hide ConnInv, ClearAll;
    if s.air.None? && s.queue != [] {
      var item, rest := s.queue[0], s.queue[1..];
      assert forall i :: 0 <= i < |rest| ==> rest[i] == s.queue[i + 1];
      if item.ResetItem? {
        ClearKept(s, rest);
      } else {
        assert item.cid in s.conns;
        var cn := s.conns[item.cid];
        if cn.registered {
          BegunKept(cn, item.ev, View(rest, item.cid), item.cid in s.lost);
        } else {
          SkippedKept(cn, [], View(s.queue, item.cid), View(rest, item.cid), item.cid in s.lost);
        }
        BeginOthers(s, item.cid);
        OthersKept(s, BeginNext(s), item.cid);
      }
    }
  }

  lemma BeginOthers(s: System, cid: nat)
    requires s.air.None? && s.queue != [] && s.queue[0].Item? && s.queue[0].cid == cid && cid in s.conns
    ensures forall c :: c != cid ==> View(s.queue, c) == View(s.queue[1..], c) && InAir(Some(s.queue[0]), c) == []
    ensures View(s.queue, cid) == [s.queue[0].ev] + View(s.queue[1..], cid) && InAir(Some(s.queue[0]), cid) ==
      [s.queue[0].ev]
  {
    forall c | c != cid ensures View(s.queue, c) == View(s.queue[1..], c) {
      assert [] + View(s.queue[1..], c) == View(s.queue[1..], c);
    }
  }

  lemma DeliveredKept(cn: Conn, ev: TunnelEvent, view: seq<TunnelEvent>, lost: bool)
    requires ConnInv(cn, [ev], view, lost)
    requires !cn.cli.writer.exited && C.QueueLength(cn.cli) < C.CONN_CHANNEL_CAPACITY
    ensures ConnInv(Settle(cn.(cli := C.Next(cn.cli, C.Deliver(ev))), false), [], view, lost)
  {
    hide C.Inv, S.UploadInv, S.TeardownInv, S.ResponseInv, Posted, Carried;
    C.NextKeepsInv(cn.cli, C.Deliver(ev));
    PostedWhenClientMoves(cn, C.Deliver(ev));
    if !lost {
      CarriedWhenDelivered(cn, C.Next(cn.cli, C.Deliver(ev)), ev, view);
    }
    SettleKept(cn.(cli := C.Next(cn.cli, C.Deliver(ev))), [], view, lost);
  }

  lemma DroppedKept(cn: Conn, ev: TunnelEvent, view: seq<TunnelEvent>, lost: bool)
    requires ConnInv(cn, [ev], view, lost)
    ensures cn.cli.writer.exited ==> ConnInv(Settle(cn, false), [], view, lost)
    ensures ConnInv(Settle(cn.(registered := false), false), [], view, lost)
  {
    hide C.Inv, S.Inv, Posted, Carried;
    if !lost {
      if cn.cli.writer.exited {
        CarriedWhenDropped(cn, [ev], view);
      }
      CarriedWhenUnregistered(cn, [ev], view, view);
      CarriedWhenDropped(cn.(registered := false), [ev], view);
    }
    RegistrationApart(cn, false);
    if cn.cli.writer.exited {
      SettleKept(cn, [], view, lost);
    }
    SettleKept(cn.(registered := false), [], view, lost);
  }

  lemma RegistrationApart(cn: Conn, registered: bool)
    ensures Posted(cn.(registered := registered)) <==> Posted(cn)
  {
  }

  lemma HandedOffKept(cn: Conn, view: seq<TunnelEvent>, lost: bool)
    requires ConnInv(cn, [Close], view, lost)
    ensures ConnInv(Settle(cn.(handoffs := cn.handoffs + 1), false), [], view, lost)
  {
    hide C.Inv, S.Inv, Carried;
    if !lost {
      CarriedWhenHandedOff(cn, view);
    }
    SettleKept(cn.(handoffs := cn.handoffs + 1), [], view, lost);
  }

  /** A dispatch that leaves its connection as `cn`. */
  lemma LandInv(s: System, cn: Conn)
    requires Inv(s) && s.air.Some? && s.air.value.Item? && s.air.value.cid in s.conns
    requires var cid := s.air.value.cid; ConnInv(Settle(cn, false), [], View(s.queue, cid), cid in s.lost)
    ensures Inv(Landed(s, cn))
  {
    hide ConnInv, Settle, View;
    OthersKept(s, Landed(s, cn), s.air.value.cid);
  }

  lemma AirOf(s: System)
    requires Inv(s) && s.air.Some?
    ensures s.air.value.Item? && s.air.value.cid in s.conns
    ensures var cid := s.air.value.cid;
      ConnInv(s.conns[cid], [s.air.value.ev], View(s.queue, cid), cid in s.lost)
  {
    hide ConnInv, View;
  }

  lemma DeliverKept(s: System)
    requires Inv(s) && s.air.Some?
    ensures Inv(AirNext(s, DeliverEvent))
  {
    hide Inv, ConnInv, C.Next, Settle, View, Landed;
    AirOf(s);
    var cid, ev := s.air.value.cid, s.air.value.ev;
    var cn := s.conns[cid];
    if !cn.cli.writer.exited && C.QueueLength(cn.cli) < C.CONN_CHANNEL_CAPACITY {
      DeliveredKept(cn, ev, View(s.queue, cid), cid in s.lost);
      LandInv(s, cn.(cli := C.Next(cn.cli, C.Deliver(ev))));
    }
  }

  lemma DropKept(s: System)
    requires Inv(s) && s.air.Some?
    ensures Inv(AirNext(s, ReceiverDropped))
  {
    hide Inv, ConnInv, C.Next, Settle, View, Landed;
    AirOf(s);
    var cid, ev := s.air.value.cid, s.air.value.ev;
    DroppedKept(s.conns[cid], ev, View(s.queue, cid), cid in s.lost);
    if s.conns[cid].cli.writer.exited {
      LandInv(s, s.conns[cid]);
    }
  }

  lemma StallKept(s: System)
    requires Inv(s) && s.air.Some?
    ensures Inv(AirNext(s, Stall))
  {
    hide Inv, ConnInv, C.Next, Settle, View, Landed;
    AirOf(s);
    var cid, ev := s.air.value.cid, s.air.value.ev;
    var cn := s.conns[cid];
    if ev.Close? {
      HandedOffKept(cn, View(s.queue, cid), cid in s.lost);
      LandInv(s, cn.(handoffs := cn.handoffs + 1));
    } else {
      DroppedKept(cn, ev, View(s.queue, cid), cid in s.lost);
      LandInv(s, cn.(registered := false));
    }
  }

  lemma AirKept(s: System, a: Action)
    requires Inv(s) && (a.DeliverEvent? || a.ReceiverDropped? || a.Stall?)
    ensures Inv(AirNext(s, a))
  {
    hide Inv, Landed;
    if s.air.Some? {
      hide AirNext;
      match a
      case DeliverEvent => DeliverKept(s);
      case ReceiverDropped => DropKept(s);
      case Stall => StallKept(s);
    }
  }

  lemma HandoffLandedKept(cn: Conn, air: seq<TunnelEvent>, view: seq<TunnelEvent>, lost: bool)
    requires ConnInv(cn, air, view, lost) && cn.handoffs > 0
    requires !cn.cli.writer.exited && C.QueueLength(cn.cli) < C.CONN_CHANNEL_CAPACITY
    ensures ConnInv(Settle(cn.(handoffs := cn.handoffs - 1, cli := C.Next(cn.cli, C.Deliver(Close))), air != []),
      air, view, lost)
  {
    hide C.Inv, S.UploadInv, S.TeardownInv, S.ResponseInv, Posted, Carried;
    var cli := C.Next(cn.cli, C.Deliver(Close));
    C.NextKeepsInv(cn.cli, C.Deliver(Close));
    PostedWhenClientMoves(cn, C.Deliver(Close));
    if !lost {
      CarriedWhenHandoffLands(cn, cli, air, view);
    }
    HandoffsApart(cn.(cli := cli), cn.handoffs - 1);
    SettleKept(cn.(handoffs := cn.handoffs - 1, cli := cli), air, view, lost);
  }

  lemma HandoffsApart(cn: Conn, handoffs: nat)
    ensures Posted(cn.(handoffs := handoffs)) <==> Posted(cn)
  {
  }

  lemma HandoffOverKept(cn: Conn, air: seq<TunnelEvent>, view: seq<TunnelEvent>, lost: bool)
    requires ConnInv(cn, air, view, lost) && cn.handoffs > 0
    ensures cn.cli.writer.exited ==> ConnInv(Settle(cn.(handoffs := cn.handoffs - 1), air != []), air, view, lost)
    ensures ConnInv(Settle(cn.(handoffs := cn.handoffs - 1, registered := false), air != []), air, view, lost)
  {
    hide C.Inv, S.UploadInv, S.TeardownInv, S.ResponseInv, Posted, Carried;
    var un := cn.(registered := false);
    if !lost {
      if cn.cli.writer.exited {
        CarriedWhenHandoffEnds(cn, air, view);
      }
      CarriedWhenUnregistered(cn, air, view, view);
      CarriedWhenHandoffEnds(un, air, view);
    }
    RegistrationApart(cn, false);
    HandoffsApart(cn, cn.handoffs - 1);
    HandoffsApart(un, cn.handoffs - 1);
    if cn.cli.writer.exited {
      SettleKept(cn.(handoffs := cn.handoffs - 1), air, view, lost);
    }
    SettleKept(un.(handoffs := cn.handoffs - 1), air, view, lost);
  }

  lemma HandoffLandsInv(s: System, cid: nat)
    requires Inv(s) && cid in s.conns && s.conns[cid].handoffs > 0
    ensures Inv(HandoffNext(s, HandoffDelivered(cid)))
  {
    hide Inv, ConnInv, C.Next, Settle, InAir, View;
    var cn, air, view, lost := s.conns[cid], InAir(s.air, cid), View(s.queue, cid), cid in s.lost;
    ConnOf(s, cid);
    if !cn.cli.writer.exited && C.QueueLength(cn.cli) < C.CONN_CHANNEL_CAPACITY {
      HandoffLandedKept(cn, air, view, lost);
      var landed := cn.(handoffs := cn.handoffs - 1, cli := C.Next(cn.cli, C.Deliver(Close)));
      assert landed == cn.(handoffs := cn.handoffs - 1).(cli := C.Next(cn.cli, C.Deliver(Close)));
      PutInv(s, cid, Settle(landed, air != []));
    }
  }

  lemma HandoffEndsInv(s: System, cid: nat)
    requires Inv(s) && cid in s.conns && s.conns[cid].handoffs > 0
    ensures Inv(HandoffNext(s, HandoffDropped(cid))) && Inv(HandoffNext(s, HandoffTimedOut(cid)))
  {
    hide Inv, ConnInv, C.Next, Settle, InAir, View;
    var cn, air, view, lost := s.conns[cid], InAir(s.air, cid), View(s.queue, cid), cid in s.lost;
    var over := cn.(handoffs := cn.handoffs - 1);
    ConnOf(s, cid);
    HandoffOverKept(cn, air, view, lost);
    if cn.cli.writer.exited {
      PutInv(s, cid, Settle(over, air != []));
    } else {
      assert over.(registered := false) == cn.(handoffs := cn.handoffs - 1, registered := false);
      PutInv(s, cid, Settle(over.(registered := false), air != []));
    }
  }

  lemma HandoffKept(s: System, a: Action)
    requires Inv(s) && (a.HandoffDelivered? || a.HandoffDropped? || a.HandoffTimedOut?)
    ensures Inv(HandoffNext(s, a))
  {
    hide Inv, C.Next, Settle, InAir;
    if a.cid in s.conns && s.conns[a.cid].handoffs > 0 {
      hide HandoffNext;
      match a
      case HandoffDelivered(c) => HandoffLandsInv(s, c);
      case HandoffDropped(c) => HandoffEndsInv(s, c);
      case HandoffTimedOut(c) => HandoffEndsInv(s, c);
    }
  }

  // ------------------------------------------------------------------ the stream

  lemma DiscardedKept(cn: Conn, view: seq<TunnelEvent>, lost: bool)
    requires ConnInv(cn, [], view, lost)
    ensures ConnInv(cn, [], [], lost || (Exposed(cn, []) && DataBytes(view) != []))
  {
    hide C.Inv, S.UploadInv, S.TeardownInv, Posted, Carried, Streaming;
    if !lost && !(Exposed(cn, []) && DataBytes(view) != []) {
      CarriedWhenDiscarded(cn, view);
    }
  }

  lemma StreamDroppedKept(s: System)
    requires Inv(s)
    ensures Inv(Next(s, StreamDropped))
  {
    hide ConnInv;
    forall c | c in s.conns
      ensures s.air.None? ==> ConnInv(s.conns[c], [], [], c in s.lost + Harmed(s))
    {
      if s.air.None? {
        DiscardedKept(s.conns[c], View(s.queue, c), c in s.lost);
      }
    }
  }

  lemma KilledKept(cn: Conn, air: seq<TunnelEvent>, view: seq<TunnelEvent>, lost: bool)
    requires ConnInv(cn, air, view, lost)
    ensures ConnInv(Killed(cn), air, view, lost)
  {
    hide C.Inv, S.Inv, Posted, Heard, Ordered, Closes, Barred, Streaming;
    S.NextKeepsInv(cn.srv, S.Kill);
    PostedWhenKilled(cn);
    assert S.Next(cn.srv, S.Kill).down.sent == cn.srv.down.sent && S.Next(cn.srv, S.Kill).killed;
  }

  lemma RestartKept(s: System)
    requires Inv(s)
    ensures Inv(Next(s, ServerRestart))
  {
    hide ConnInv, Killed;
    forall c | c in s.conns
      ensures ConnInv(Killed(s.conns[c]), InAir(s.air, c), View(s.queue, c), c in s.lost)
    {
      KilledKept(s.conns[c], InAir(s.air, c), View(s.queue, c), c in s.lost);
    }
  }

  lemma OpenKept(s: System, cid: nat)
    requires Inv(s)
    ensures Inv(Next(s, Open(cid)))
  {
    hide ConnInv;
    if cid !in s.conns {
      StrangerKept(s, cid);
    }
  }

  lemma StrangerKept(s: System, cid: nat)
    requires Inv(s) && cid !in s.conns
    ensures ConnInv(OPENED, InAir(s.air, cid), View(s.queue, cid), false)
  {
    assert InAir(s.air, cid) == [];
    hide ConnInv;
    ViewOfStranger(s.queue, cid);
    FreshConn(View(s.queue, cid));
  }

  lemma AnnouncedKept(cn: Conn, air: seq<TunnelEvent>, lost: bool)
    requires ConnInv(cn, air, [], lost)
    ensures ConnInv(cn, air, [Error], lost)
  {
    hide C.Inv, S.Inv, Posted, Closes, Streaming;
    SingleEvent(Error);
    assert Heard([]) == [] && Ordered([]) == [];
  }

  lemma OpenedKept(s: System)
    requires Inv(s)
    ensures Inv(Next(s, StreamOpened))
  {
    hide ConnInv;
    assert forall c :: View([ResetItem], c) == [Error] + View([], c) == [Error];
    forall c | c in s.conns && !s.live
      ensures ConnInv(s.conns[c], InAir(s.air, c), View(Next(s, StreamOpened).queue, c), c in s.lost)
    {
      assert View(s.queue, c) == [];
      AnnouncedKept(s.conns[c], InAir(s.air, c), c in s.lost);
    }
  }

  lemma NextKeepsInv(s: System, a: Action)
    requires Inv(s)
    ensures Inv(Next(s, a))
  {
    hide Inv;
    match a
    case Open(c) => OpenKept(s, c);
    case Client(c, ca) => if c in s.conns && LocalToClient(ca) { ClientKept(s, c, ca); }
    case Server(c, sa) => if c in s.conns && LocalToServer(sa) { ServerKept(s, c, sa); }
    case CloneSender(c) => if c in s.conns { CloneKept(s, c); }
    case Send(c) => if c in s.conns { SendKept(s, c); }
    case SendReport(c) => if c in s.conns { SendKept(s, c); }
    case Begin => BeginKept(s);
    case DeliverEvent => AirKept(s, a);
    case ReceiverDropped => AirKept(s, a);
    case Stall => AirKept(s, a);
    case HandoffDelivered(_) => HandoffKept(s, a);
    case HandoffDropped(_) => HandoffKept(s, a);
    case HandoffTimedOut(_) => HandoffKept(s, a);
    case PostArrives(c) => if c in s.conns { PostingKept(s, c, a); }
    case PostAstray(c) => if c in s.conns { PostingKept(s, c, a); }
    case PostHandled(c) => if c in s.conns { PostingKept(s, c, a); }
    case PostAcked(c) => if c in s.conns { PostingKept(s, c, a); }
    case PostFailed(c) => if c in s.conns { PostingKept(s, c, a); }
    case CloseArrives(c) => if c in s.conns { PostingKept(s, c, a); }
    case AbortArrives(c) => if c in s.conns { PostingKept(s, c, a); }
    case StreamDropped => StreamDroppedKept(s);
    case StreamOpened => OpenedKept(s);
    case Superseded => SupersededKept(s);
    case ServerRestart => RestartKept(s);
    case Rotate => RotateKept(s);
  }

  lemma RotateKept(s: System)
    requires Inv(s)
    ensures Inv(Next(s, Rotate))
  {
    hide ConnInv, Settle, View, InAir, SendNext, BeginNext, AirNext, HandoffNext, PostNext, Killed, Harmed;
    forall c | c in s.conns
      ensures ConnInv(StaleAll(s)[c], InAir(s.air, c), View(s.queue, c), c in s.lost)
    {
      var cn, here := s.conns[c], InAir(s.air, c) != [];
      UnregisterKept(cn, InAir(s.air, c), View(s.queue, c), View(s.queue, c), c in s.lost);
      SettleStale(cn.(registered := false), here);
      StaleApart(Settle(cn.(registered := false), here), InAir(s.air, c), View(s.queue, c), c in s.lost);
    }
  }

  lemma SettleStale(cn: Conn, inAir: bool)
    ensures Settle(cn, inAir).(stale := true) == Settle(cn.(stale := true), inAir)
    ensures Settle(cn, inAir).registered == cn.registered
  {
    hide C.Next;
  }

  lemma StaleApart(cn: Conn, air: seq<TunnelEvent>, view: seq<TunnelEvent>, lost: bool)
    requires ConnInv(cn, air, view, lost) && !cn.registered
    ensures ConnInv(cn.(stale := true), air, view, lost)
  {
    hide C.Inv, S.Inv, PostedBytes, S.Pipe, Heard, Ordered, Closes, Barred, Streaming;
  }

  lemma SupersededKept(s: System)
    requires Inv(s)
    ensures Inv(Next(s, Superseded))
  {
    hide ConnInv;
  }

  lemma {:induction false} RunKeepsInv(s: System, acts: seq<Action>)
    requires Inv(s)
    ensures Inv(Run(s, acts))
    decreases |acts|
  {
    hide Inv, Next;
    if acts != [] {
      NextKeepsInv(s, acts[0]);
      RunKeepsInv(Next(s, acts[0]), acts[1..]);
    }
  }

  lemma InitInv()
    ensures Inv(INIT)
  {
  }
}
