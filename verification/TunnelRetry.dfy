/** A failed POST is sent again: exactly when that spoils what the target receives
    (src/tunnel.rs:386-421). */
module TunnelRetry {
  import opened Prelude
  import opened Tunnel
  import opened TunnelInvariant
  import opened TunnelSteps
  import C = ClientRelay
  import S = ServerRelay

  /** The target has been given bytes that were never posted to it. */
  predicate Spoiled(cn: Conn) {
    !(cn.srv.up.targetWritten <= PostedBytes(cn.cli.posts))
  }

  /** No step of the run posts bytes of this connection again that are still on
      their way. */
  ghost predicate SendsOnce(s: System, acts: seq<Action>, cid: nat)
    decreases |acts|
  {
    acts == [] || ((cid in s.conns ==> !Resends(s.conns[cid], acts[0], cid)) && SendsOnce(Next(s, acts[0]), acts[1..],
      cid))
  }

  ghost predicate SpoilsLater(s: System, acts: seq<Action>, cid: nat) {
    SendsOnce(s, acts, cid) && cid in Run(s, acts).conns && Spoiled(Run(s, acts).conns[cid])
  }

  lemma WholeIsNotSpoiled(s: System, cid: nat)
    requires Inv(s) && cid in s.conns && !s.conns[cid].resent
    ensures !Spoiled(s.conns[cid])
  {
    hide C.Inv, S.Inv, Carried, PostedBytes, S.Pipe;
    assert ConnInv(s.conns[cid], InAir(s.air, cid), View(s.queue, cid), cid in s.lost);
  }

  lemma {:induction false} OnceIsSafe(s: System, acts: seq<Action>, cid: nat)
    requires Inv(s) && cid in s.conns && !s.conns[cid].resent && SendsOnce(s, acts, cid)
    ensures cid in Run(s, acts).conns && !Spoiled(Run(s, acts).conns[cid])
    decreases |acts|
  {
    hide Inv, Next, Resends, Spoiled;
    if acts == [] {
      WholeIsNotSpoiled(s, cid);
    } else {
      NextKeepsInv(s, acts[0]);
      ConnEvolves(s, acts[0], cid);
      OnceIsSafe(Next(s, acts[0]), acts[1..], cid);
    }
  }

  // ------------------------------------------------------------- the second copy

  ghost predicate NoFailure(acts: seq<Action>) {
    forall i :: 0 <= i < |acts| ==> !acts[i].PostFailed?
  }

  lemma {:induction false} NoFailureSendsOnce(s: System, acts: seq<Action>, cid: nat)
    requires NoFailure(acts)
    ensures SendsOnce(s, acts, cid)
    decreases |acts|
  {
    hide Next;
    if acts != [] {
      assert forall i :: 0 <= i < |acts| - 1 ==> acts[1..][i] == acts[i + 1];
      NoFailureSendsOnce(Next(s, acts[0]), acts[1..], cid);
    }
  }

  lemma {:induction false} OfServerFailsNothing(cid: nat, acts: seq<S.Action>)
    ensures NoFailure(OfServer(cid, acts))
  {
    if acts != [] {
      OfServerFailsNothing(cid, acts[1..]);
      var rest := OfServer(cid, acts[1..]);
      assert forall i :: 0 <= i < |rest| ==> ([Server(cid, acts[0])] + rest)[i + 1] == rest[i];
    }
  }

  /** The target takes all that is on its way. */
  lemma DrainServer(s: System, cid: nat) returns (acts: seq<Action>)
    requires cid in s.conns && S.Draining(s.conns[cid].srv.up)
    ensures NoFailure(acts) && Run(s, acts) == Put(s, cid, s.conns[cid].(srv := Drained(s.conns[cid].srv)))
  {
    hide Run, S.Run, Drained;
    var sacts := Drain(s.conns[cid].srv);
    assert AllLocal(sacts);
    ServerRun(s, cid, sacts);
    OfServerFailsNothing(cid, sacts);
    acts := OfServer(cid, sacts);
  }

  /** A retry about to reach an open upload that has had the data before. */
  ghost predicate Again(cn: Conn) {
    && cn.cli.read.Posting? && cn.cli.read.data != [] && cn.post == NotApplied && !cn.astray
    && cn.srv.up.linked && S.Draining(cn.srv.up) && cn.srv.up.handler.None?
    && S.Pipe(cn.srv.up) == PostedBytes(cn.cli.posts)
  }

  lemma FailsAgain(cn: Conn)
    requires C.Inv(cn.cli) && Posted(cn) && !cn.resent && cn.cli.read.Posting? && !cn.retried && Duplicates(cn)
    ensures Again(PostNext(cn, PostFailed(0)))
  {
    CancelFrame(cn.srv);
    PipeOnly(cn.srv.up, cn.srv.up.(handler := None));
    hide S.Next, PostedBytes, S.Pipe;
    assert S.Pipe(cn.srv.up) + [] == S.Pipe(cn.srv.up);
  }

  lemma DrainedPipe(u: S.Upload)
    requires S.Draining(u)
    ensures S.Pipe(u.(write := S.Waiting, queue := [], targetWritten := S.Pipe(u))) == S.Pipe(u)
  {
    FlattenNone();
    hide Flatten;
  }

  /** The retry is applied to a drained upload. */
  lemma AppliedTwice(cn: Conn)
    requires Again(cn) && cn.srv.up.write.Waiting? && cn.srv.up.queue == []
    ensures var e := PostNext(PostNext(cn, PostArrives(0)), PostHandled(0));
      && e.cli == cn.cli && S.Draining(e.srv.up)
      && S.Pipe(e.srv.up) == PostedBytes(cn.cli.posts) + cn.cli.read.data
  {
    var u, d := cn.srv.up, cn.cli.read.data;
    DataFrame(cn.srv, d);
    var arrived := PostNext(cn, PostArrives(0));
    RoomIsTaken(arrived.srv);
    PipeGrows(u, u.(handler := None, queue := u.queue + [d], offered := u.offered + d), d);
    hide S.Next, PostedBytes, S.Pipe;
  }

  lemma PostTwice(s: System, cid: nat)
    requires cid in s.conns
    ensures Run(s, [PostArrives(cid), PostHandled(cid)]) ==
      Put(s, cid, PostNext(PostNext(s.conns[cid], PostArrives(cid)), PostHandled(cid)))
  {
    hide Next, PostNext;
    var cn := s.conns[cid];
    var cn1 := PostNext(cn, PostArrives(cid));
    var s1 := Put(s, cid, cn1);
    var cn2 := PostNext(cn1, PostHandled(cid));
    NextPosts(s, PostArrives(cid));
    NextPosts(s1, PostHandled(cid));
    RunOne(s, PostArrives(cid));
    RunOne(s1, PostHandled(cid));
    RunAppend(s, [PostArrives(cid)], [PostHandled(cid)]);
    assert [PostArrives(cid)] + [PostHandled(cid)] == [PostArrives(cid), PostHandled(cid)];
    assert s.conns[cid := cn1][cid := cn2] == s.conns[cid := cn2];
  }

  lemma AgainSpoils(s: System, cid: nat) returns (acts: seq<Action>)
    requires cid in s.conns && Again(s.conns[cid])
    ensures SpoilsLater(s, acts, cid)
  {
    hide Run, PostNext, S.Pipe, PostedBytes, SendsOnce;
    var cn := s.conns[cid];
    DrainedPipe(cn.srv.up);
    var drain := DrainServer(s, cid);
    var cn1 := cn.(srv := Drained(cn.srv));
    var s1 := Put(s, cid, cn1);
    AppliedTwice(cn1);
    PostTwice(s1, cid);
    var post := [PostArrives(cid), PostHandled(cid)];
    PostsAlike(cn1, cid);
    var s2 := Run(s1, post);
    var again := DrainServer(s2, cid);
    RunAppend(s, drain, post);
    RunAppend(s, drain + post, again);
    acts := drain + post + again;
    NoFailureSendsOnce(s, acts, cid);
  }

  lemma PostsAlike(cn: Conn, cid: nat)
    ensures PostNext(PostNext(cn, PostArrives(cid)), PostHandled(cid)) ==
      PostNext(PostNext(cn, PostArrives(0)), PostHandled(0))
  {
    hide S.Next;
  }

  lemma FailuresAlike(cn: Conn, cid: nat)
    ensures PostNext(cn, PostFailed(cid)) == PostNext(cn, PostFailed(0))
  {
    hide S.Next, C.Next, Duplicates;
  }

  lemma ResendLeadsAgain(s: System, a: Action, cid: nat)
    requires Inv(s) && cid in s.conns && !s.conns[cid].resent && Resends(s.conns[cid], a, cid)
    ensures cid in Next(s, a).conns && Again(Next(s, a).conns[cid])
  {
    hide C.Inv, S.Inv, Carried, PostNext, Next, Again, Posted, Duplicates;
    assert ConnInv(s.conns[cid], InAir(s.air, cid), View(s.queue, cid), cid in s.lost);
    NextPosts(s, a);
    FailuresAlike(s.conns[cid], cid);
    FailsAgain(s.conns[cid]);
  }

  /** From every state the invariants allow, and for every action: the tunnel can go
      on, sending nothing again that is still on its way, to give the target bytes
      that were never posted to it, if and only if the action is itself such a
      retry: of a POST that had been applied, while its writer is registered and
      the write task still there to write the second copy. */
  lemma RetryIsSafeExactly(s: System, a: Action, cid: nat)
    requires Inv(s) && cid in s.conns && !s.conns[cid].resent
    ensures (exists acts :: SpoilsLater(Next(s, a), acts, cid)) <==> Resends(s.conns[cid], a, cid)
  {
    hide Inv, Next, Resends, Again, Spoiled;
    if Resends(s.conns[cid], a, cid) {
      ResendLeadsAgain(s, a, cid);
      var acts := AgainSpoils(Next(s, a), cid);
    } else {
      NextKeepsInv(s, a);
      ConnEvolves(s, a, cid);
      hide Evolves;
      forall acts | SendsOnce(Next(s, a), acts, cid) ensures !SpoilsLater(Next(s, a), acts, cid) {
        OnceIsSafe(Next(s, a), acts, cid);
      }
    }
  }
}
