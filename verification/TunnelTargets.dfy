/** Who lets go of a target: a closed upload can always complete; but one whose server
    has reported an error the client leaves to the server, and the server has not
    always let go of it (src/relay.rs:36-41, 122-146, src/server.rs:398-403, 643-694,
    775-805). */
module TunnelTargets {
  import opened Prelude
  import opened Tunnel
  import opened TunnelInvariant
  import opened TunnelSteps
  import C = ClientRelay
  import S = ServerRelay

  /** The client knows of the error from the server, and no Abort of its can reach the
      server relay any more. */
  ghost predicate OutOfReach(cn: Conn) {
    && cn.cli.writer.serverReported && !cn.srv.permit
    && (cn.astray || (C.SendAbort !in cn.cli.posts && !cn.cli.read.Posting?))
  }

  lemma ReportedStays(cli: C.Relay, ca: C.Action)
    requires C.Inv(cli) && cli.writer.serverReported
    ensures C.Next(cli, ca).writer.serverReported
  {
  }

  /** Once told by the server, the client posts no Abort but over a failing POST. */
  lemma NoAbortFollows(cli: C.Relay, cli': C.Relay)
    requires C.Inv(cli) && cli.writer.serverReported && ClientMoves(cli, cli')
    ensures cli'.writer.serverReported
    ensures C.SendAbort !in cli.posts && !cli.read.Posting? ==> C.SendAbort !in cli'.posts && !cli'.read.Posting?
  {
    hide C.Inv, C.Next;
    if cli' != cli {
      var ca :| cli' == C.Next(cli, ca) || cli' == C.Next(C.Next(cli, ca), C.SendersGone);
      var once := C.Next(cli, ca);
      C.NextKeepsInv(cli, ca);
      ReportedStays(cli, ca);
      ReportedStays(once, C.SendersGone);
      if C.SendAbort !in cli.posts && !cli.read.Posting? {
        C.LeftToServerStays(cli, ca);
        C.LeftToServerStays(once, C.SendersGone);
      }
    }
  }

  lemma OnlyAbortPermits(c: S.Conn, sa: S.Action)
    requires !c.permit && !sa.HandleAbort?
    ensures !S.Next(c, sa).permit
  {
  }

  lemma OutOfReachStays(cn: Conn, a: Action, cid: nat, cn': Conn)
    requires C.Inv(cn.cli) && OutOfReach(cn) && Evolves(cn, a, cid, cn')
    ensures OutOfReach(cn')
  {
    hide C.Inv, S.Next, ClientMoves, S.Quits;
    NoAbortFollows(cn.cli, cn'.cli);
    if cn'.srv != cn.srv {
      var sa :| Permits(cn, a, cid, sa) && cn'.srv == S.Next(cn.srv, sa);
      OnlyAbortPermits(cn.srv, sa);
    }
  }

  /** A run by which an Abort reaches the connection's server relay. */
  ghost predicate AbortReaches(s: System, acts: seq<Action>, cid: nat) {
    cid in Run(s, acts).conns && Run(s, acts).conns[cid].srv.permit
  }

  lemma {:induction false} NeverReached(s: System, acts: seq<Action>, cid: nat)
    requires Inv(s) && cid in s.conns && OutOfReach(s.conns[cid])
    ensures cid in Run(s, acts).conns && OutOfReach(Run(s, acts).conns[cid])
    decreases |acts|
  {
    hide Inv, Next, OutOfReach, C.Inv, S.Inv, Posted, Evolves;
    if acts != [] {
      RelayIsSound(s, cid);
      NextKeepsInv(s, acts[0]);
      ConnEvolves(s, acts[0], cid);
      OutOfReachStays(s.conns[cid], acts[0], cid, Next(s, acts[0]).conns[cid]);
      NeverReached(Next(s, acts[0]), acts[1..], cid);
    }
  }

  /** A relay that has left its loop aside, there is an abort signal to fire. */
  ghost predicate Abortable(cn: Conn) {
    !cn.astray && cn.srv.inAborts
  }

  lemma FailsOnce(cn: Conn, cid: nat)
    requires cn.cli.read.Posting? && Abortable(cn)
    ensures var cn' := PostNext(cn, PostFailed(cid));
      && Abortable(cn')
      && (if cn.retried then C.SendAbort in cn'.cli.posts else cn'.cli == cn.cli && cn'.retried)
  {
    hide C.Inv, Duplicates;
    var cli := C.Next(cn.cli, C.PostError);
    assert cli.posts[|cli.posts| - 1] == C.SendAbort;
    hide C.Next;
  }

  lemma AbortLands(cn: Conn, cid: nat)
    requires Abortable(cn) && C.SendAbort in cn.cli.posts
    ensures PostNext(cn, AbortArrives(cid)).srv.permit
  {
  }

  lemma FailingPostAborts(s: System, cid: nat) returns (acts: seq<Action>)
    requires cid in s.conns && s.conns[cid].cli.read.Posting? && Abortable(s.conns[cid])
    ensures AbortReaches(s, acts, cid)
    decreases if s.conns[cid].retried then 0 else 1
  {
    hide Next, PostNext, Abortable;
    var cn := s.conns[cid];
    FailsOnce(cn, cid);
    NextPosts(s, PostFailed(cid));
    RunOne(s, PostFailed(cid));
    var s1 := Next(s, PostFailed(cid));
    if cn.retried {
      AbortLands(s1.conns[cid], cid);
      NextPosts(s1, AbortArrives(cid));
      RunOne(s1, AbortArrives(cid));
      RunAppend(s, [PostFailed(cid)], [AbortArrives(cid)]);
      acts := [PostFailed(cid)] + [AbortArrives(cid)];
    } else {
      var rest := FailingPostAborts(s1, cid);
      RunAppend(s, [PostFailed(cid)], rest);
      acts := [PostFailed(cid)] + rest;
    }
  }

  lemma StillAbortable(s: System, cid: nat)
    requires Inv(s) && cid in s.conns && !S.LeftLoop(s.conns[cid].srv.down) && C.SendAbort !in s.conns[cid].cli.posts
    ensures !s.conns[cid].srv.permit && s.conns[cid].srv.inAborts
  {
    hide Inv, C.Inv, S.ResponseInv, S.UploadInv, Whole;
    RelayIsSound(s, cid);
  }

  /** After a stop that the server's own report caused, an Abort can still reach a
      target that is being read if and only if a POST was under way, in the session
      the target belongs to: it has to fail. */
  lemma AbortReachesExactly(s: System, cid: nat)
    requires Inv(s) && cid in s.conns && C.LeftToServer(s.conns[cid].cli) && !S.LeftLoop(s.conns[cid].srv.down)
    ensures (exists acts :: AbortReaches(s, acts, cid)) <==>
      s.conns[cid].cli.read.Posting? && !s.conns[cid].astray
  {
    hide Inv, S.LeftLoop, Run;
    StillAbortable(s, cid);
    if s.conns[cid].cli.read.Posting? && !s.conns[cid].astray {
      var acts := FailingPostAborts(s, cid);
    } else {
      forall acts ensures !AbortReaches(s, acts, cid) {
        NeverReached(s, acts, cid);
      }
    }
  }

  /** What else lets go of it: the target's own end or failure, a client found gone,
      the end of the process. */
  predicate LetsGo(a: Action, cid: nat) {
    || a.ServerRestart?
    || (a.Server? && a.cid == cid && (a.sa.PullEof? || a.sa.PullError? || a.sa.ReadWatchdog? || a.sa.ChunkUnsent?))
  }

  lemma StepHolds(cn: Conn, a: Action, cid: nat, cn': Conn)
    requires OutOfReach(cn) && !S.LeftLoop(cn.srv.down) && Evolves(cn, a, cid, cn') && !LetsGo(a, cid)
    ensures !S.LeftLoop(cn'.srv.down)
  {
    hide S.Next, ClientMoves, S.LeftLoop;
    if cn'.srv != cn.srv {
      var sa :| Permits(cn, a, cid, sa) && cn'.srv == S.Next(cn.srv, sa);
      S.LoopIsLeftExactly(cn.srv, sa);
    }
  }

  /** Until then the target is held, whatever else happens. */
  lemma {:induction false} TargetStaysHeld(s: System, acts: seq<Action>, cid: nat)
    requires Inv(s) && cid in s.conns && OutOfReach(s.conns[cid]) && !S.LeftLoop(s.conns[cid].srv.down)
    requires forall i :: 0 <= i < |acts| ==> !LetsGo(acts[i], cid)
    ensures cid in Run(s, acts).conns && !S.LeftLoop(Run(s, acts).conns[cid].srv.down)
    decreases |acts|
  {
    hide Inv, Next, OutOfReach, C.Inv, S.Inv, Posted, Evolves, S.LeftLoop, LetsGo;
    if acts != [] {
      RelayIsSound(s, cid);
      NextKeepsInv(s, acts[0]);
      ConnEvolves(s, acts[0], cid);
      OutOfReachStays(s.conns[cid], acts[0], cid, Next(s, acts[0]).conns[cid]);
      StepHolds(s.conns[cid], acts[0], cid, Next(s, acts[0]).conns[cid]);
      TargetStaysHeld(Next(s, acts[0]), acts[1..], cid);
    }
  }

  // ------------------------------------------------------- the end of an upload

  /** A step by which a closed upload comes to its end. */
  predicate EndsUpload(a: Action, cid: nat) {
    a == CloseArrives(cid) || a == Server(cid, S.TakeWrite) || a == Server(cid, S.TargetWrote(None)) ||
    a == Server(cid, S.SeeClosed)
  }

  lemma {:induction false} WritesEndUpload(cid: nat, acts: seq<S.Action>)
    requires OnlyWrites(acts)
    ensures forall i :: 0 <= i < |OfServer(cid, acts)| ==> EndsUpload(OfServer(cid, acts)[i], cid)
  {
    if acts != [] {
      WritesEndUpload(cid, acts[1..]);
      assert acts[0] == S.TakeWrite || acts[0] == S.TargetWrote(None);
      var rest := OfServer(cid, acts[1..]);
      assert OfServer(cid, acts) == [Server(cid, acts[0])] + rest;
    }
  }

  /** An upload that its app has closed, while it is open at both ends. */
  ghost predicate Closing(cn: Conn) {
    C.SendClose in cn.cli.posts && !cn.astray && cn.srv.up.linked && S.Draining(cn.srv.up)
  }

  lemma ClosingIs(s: System, cid: nat)
    requires Inv(s) && cid in s.conns && Closing(s.conns[cid]) && !s.conns[cid].resent
    ensures var cn := s.conns[cid];
      cn.srv.up.handler.None? && S.Pipe(cn.srv.up) == PostedBytes(cn.cli.posts)
  {
    hide Inv, S.Inv, C.Inv, PostedBytes, S.Pipe;
    RelayIsSound(s, cid);
    NotPostingPastClose(s.conns[cid].cli);
    assert S.Pipe(s.conns[cid].srv.up) + [] == S.Pipe(s.conns[cid].srv.up);
  }

  lemma CloseEnds(cn: Conn, cid: nat)
    requires Closing(cn) && cn.srv.up.handler.None? && cn.srv.up.write.Waiting? && cn.srv.up.queue == []
    ensures var closed := PostNext(cn, CloseArrives(cid));
      && closed.cli == cn.cli
      && S.Next(closed.srv, S.SeeClosed).up.write == S.WriteDone(true)
      && S.Next(closed.srv, S.SeeClosed).up.targetWritten == cn.srv.up.targetWritten
  {
  }

  /** It can always complete, whatever else is stuck: its `Close` reaches the server,
      the target is given every byte that was posted, and its input is shut down. */
  lemma ClosedUploadCompletes(s: System, cid: nat) returns (acts: seq<Action>)
    requires Inv(s) && cid in s.conns && Closing(s.conns[cid]) && !s.conns[cid].resent
    ensures forall i :: 0 <= i < |acts| ==> EndsUpload(acts[i], cid)
    ensures cid in Run(s, acts).conns
    ensures var cn := Run(s, acts).conns[cid];
      && cn.cli == s.conns[cid].cli && cn.srv.up.write == S.WriteDone(true)
      && cn.srv.up.targetWritten == PostedBytes(cn.cli.posts)
  {
    hide Inv, Next, Run, S.Run, PostNext, PostedBytes, S.Pipe, S.Next;
    ClosingIs(s, cid);
    var cn := s.conns[cid];
    var sacts := Drain(cn.srv);
    assert AllLocal(sacts);
    ServerRun(s, cid, sacts);
    WritesEndUpload(cid, sacts);
    var drain := OfServer(cid, sacts);
    var cn1 := cn.(srv := Drained(cn.srv));
    var s1 := Put(s, cid, cn1);
    CloseEnds(cn1, cid);
    NextPosts(s1, CloseArrives(cid));
    RunOne(s1, CloseArrives(cid));
    var s2 := Next(s1, CloseArrives(cid));
    NextServer(s2, cid, S.SeeClosed);
    RunOne(s2, Server(cid, S.SeeClosed));
    RunAppend(s, drain, [CloseArrives(cid)]);
    RunAppend(s, drain + [CloseArrives(cid)], [Server(cid, S.SeeClosed)]);
    acts := drain + [CloseArrives(cid)] + [Server(cid, S.SeeClosed)];
  }
}
