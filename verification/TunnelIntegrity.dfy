/** End-to-end integrity of response and upload over every run. */
module TunnelIntegrity {
  import opened Prelude
  import opened Events
  import opened Tunnel
  import opened TunnelInvariant
  import C = ClientRelay
  import S = ServerRelay

  /** The app has read an end-of-stream that is not a reset. */
  predicate SawEof(cn: Conn) {
    cn.cli.writer.responseClosed || cn.cli.socket.Fin?
  }

  /** Where an `Error` can only be the last event, it hides nothing. */
  lemma {:induction false} ErrorLast(evs: seq<TunnelEvent>)
    requires forall i :: 0 <= i < |evs| && evs[i].Error? ==> i == |evs| - 1
    ensures DataBytes(Heard(evs)) == DataBytes(evs) && (Close in evs <==> Close in Heard(evs))
    ensures Close in evs ==> UpToClose(Heard(evs)) == UpToClose(evs)
  {
    if evs != [] {
      var rest := evs[1..];
      assert evs == [evs[0]] + rest;
      if evs[0].Error? {
        assert evs == [Error];
      } else {
        assert forall i :: 0 <= i < |rest| ==> rest[i] == evs[i + 1];
        ErrorLast(rest);
        var tail := Heard(rest);
        assert Heard(evs)[0] == evs[0] && Heard(evs)[1..] == tail;
      }
    }
  }

  lemma {:induction false} HeardPrefix(a: seq<TunnelEvent>, b: seq<TunnelEvent>)
    requires a <= b
    ensures Heard(a) <= Heard(b)
  {
    HeardAppend(a, b[|a|..]);
    HeardOfAll(a);
    assert b == a + b[|a|..];
  }

  /** What the write half has taken, in the client relay's own terms. */
  lemma Taken(r: C.Relay)
    requires C.Inv(r)
    ensures r.taken <= |r.recv|
    ensures var seen := C.Seen(r);
      && seen <= r.recv && (forall i :: 0 <= i < |seen| && seen[i].Error? ==> i == |seen| - 1)
      && r.writer.written <= DataBytes(seen)
      && (r.writer.responseClosed || r.socket.Fin? ==> Close in seen && DataBytes(UpToClose(seen)) <= r.writer.written)
    ensures r.socket.Rst? ==> !r.writer.responseClosed
  {
    hide C.PostsInv;
  }

  /** What the server enqueued, in the server relay's own terms. */
  lemma Emitted(c: S.Conn)
    requires S.Inv(c)
    ensures DataBytes(c.down.sent) <= c.down.targetRead && WellEnded(Ordered(c.down.sent))
    ensures Close in c.down.sent ==> c.down.targetEof && DataBytes(c.down.sent) == c.down.targetRead
  {
    hide S.UploadInv, S.TeardownInv;
  }

  lemma OneResponse(cn: Conn, air: seq<TunnelEvent>, view: seq<TunnelEvent>)
    requires ConnInv(cn, air, view, false)
    ensures cn.cli.writer.written <= cn.srv.down.targetRead
    ensures SawEof(cn) ==> cn.srv.down.targetEof && cn.cli.writer.written == cn.srv.down.targetRead
    ensures cn.cli.socket.Rst? ==> !SawEof(cn)
  {
    hide C.Inv, S.Inv, Posted;
    var cli, d := cn.cli, cn.srv.down;
    Taken(cli);
    Emitted(cn.srv);
    var seen := C.Seen(cli);
    var heard := Heard(seen);
    ErrorLast(seen);
    HeardOfAll(heard);
    HeardPrefix(seen, cli.recv);
    PrefixTrans(heard, Heard(cli.recv), Ordered(d.sent));
    DataBytesPrefix(heard, Ordered(d.sent));
    DataBytesOrdered(d.sent);
    PrefixTrans(cli.writer.written, DataBytes(heard), DataBytes(d.sent));
    PrefixTrans(cli.writer.written, DataBytes(d.sent), d.targetRead);
    if SawEof(cn) {
      assert Close in seen;
      HeardOfAll(seen);
      UpToCloseOfWellEnded(heard, d.sent);
      DataBytesOrdered(heard);
      assert Ordered(heard) == Ordered(d.sent);
    }
  }

  /** End-to-end response integrity, in every interleaving: unless data of its
      response was discarded while it was exposed to that, an app has been given a
      prefix of what its target sent, and a clean end-of-stream only after all
      of it and the target's own end-of-stream. */
  lemma ResponseIntegrity(acts: seq<Action>, cid: nat)
    requires var s := Run(INIT, acts); cid in s.conns && cid !in s.lost
    ensures var cn := Run(INIT, acts).conns[cid];
      && cn.cli.writer.written <= cn.srv.down.targetRead
      && (SawEof(cn) ==> cn.srv.down.targetEof && cn.cli.writer.written == cn.srv.down.targetRead)
      && (cn.cli.socket.Rst? ==> !SawEof(cn))
  {
    hide Next, ConnInv;
    InitInv();
    RunKeepsInv(INIT, acts);
    var s := Run(INIT, acts);
    OneResponse(s.conns[cid], InAir(s.air, cid), View(s.queue, cid));
  }

  /** End-to-end upload integrity: unless bytes on their way were posted again, the
      target has been given a prefix of what the app's read half posted, and all
      of it when the write task ended behind the client's own `Close`. */
  lemma UploadIntegrity(acts: seq<Action>, cid: nat)
    requires var s := Run(INIT, acts); cid in s.conns && !s.conns[cid].resent
    ensures var cn := Run(INIT, acts).conns[cid];
      && cn.srv.up.targetWritten <= PostedBytes(cn.cli.posts)
      && (cn.srv.up.write == S.WriteDone(true) && cn.srv.up.atClose.Some? ==>
            cn.srv.up.targetWritten == PostedBytes(cn.cli.posts))
  {
    hide Next, C.Inv, S.TeardownInv, S.ResponseInv, S.Pipe, PostedBytes, Carried;
    InitInv();
    RunKeepsInv(INIT, acts);
    assert ConnInv(Run(INIT, acts).conns[cid], InAir(Run(INIT, acts).air, cid), View(Run(INIT, acts).queue, cid),
      cid in Run(INIT, acts).lost);
  }
}
