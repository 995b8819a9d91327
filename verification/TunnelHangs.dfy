/** Whom a lost end leaves waiting: from every state in which nothing can tell an app
    the end of its response any more, the run to a relay that waits for good. */
module TunnelHangs {
  import opened Prelude
  import opened Events
  import opened Tunnel
  import opened TunnelFate
  import opened TunnelInvariant
  import opened TunnelIsolation
  import opened TunnelOrder
  import opened TunnelRelease
  import opened TunnelResets
  import opened TunnelSilence
  import opened TunnelSteps
  import C = ClientRelay
  import S = ServerRelay

  /** A run that neither frees the connection from outside nor silences it. */
  ghost predicate Calmly(s: System, acts: seq<Action>, s': System, cid: nat) {
    s' == Run(s, acts) && Undisturbed(acts, cid) && Unsilenced(s, acts, cid)
  }

  lemma {:induction false} CalmlyOn(s: System, acts: seq<Action>, s1: System, rest: seq<Action>, s2: System, cid: nat)
    requires Calmly(s, acts, s1, cid) && Calmly(s1, rest, s2, cid)
    ensures Calmly(s, acts + rest, s2, cid)
    decreases |acts|
  {
    hide Next, Silences, Frees;
    if acts == [] {
      assert acts + rest == rest;
    } else {
      assert forall i :: 0 <= i < |acts| - 1 ==> acts[1..][i] == acts[i + 1];
      CalmlyOn(Next(s, acts[0]), acts[1..], s1, rest, s2, cid);
      assert (acts + rest)[0] == acts[0] && (acts + rest)[1..] == acts[1..] + rest;
    }
  }

  /** The actions that cannot silence anybody, or free this connection from outside. */
  predicate Plain(a: Action, cid: nat) {
    && !Frees(a, cid) && !a.StreamDropped? && !a.Superseded? && !a.Send? && !a.SendReport?
    && (a.Server? ==> !a.sa.EndUnsent? && !a.sa.ReportUnsent?)
  }

  lemma {:induction false} PlainIsCalm(s: System, acts: seq<Action>, cid: nat)
    requires forall i :: 0 <= i < |acts| ==> Plain(acts[i], cid)
    ensures Calmly(s, acts, Run(s, acts), cid)
    decreases |acts|
  {
    if acts != [] {
      assert Plain(acts[0], cid);
      hide Next, Frees, Unaided, InAir, Proj, ResetAhead;
      assert forall i :: 0 <= i < |acts| - 1 ==> acts[1..][i] == acts[i + 1];
      PlainIsCalm(Next(s, acts[0]), acts[1..], cid);
    }
  }

  lemma NoSteps(s: System, cid: nat)
    ensures Calmly(s, [], s, cid)
  {
    hide Next, Silences;
  }

  lemma OnePlain(s: System, a: Action, cid: nat)
    requires Plain(a, cid)
    ensures Calmly(s, [a], Next(s, a), cid)
  {
    hide Plain, Calmly, Next;
    PlainIsCalm(s, [a], cid);
    RunOne(s, a);
  }

  // its queue is emptied

  lemma TakeTold(cli: C.Relay)
    requires Untold(cli) && cli.taken < |cli.recv|
    ensures var cli' := C.Next(cli, C.TakeEvent(None));
      Untold(cli') && cli'.recv == cli.recv && cli'.taken == cli.taken + 1
  {
    var rest, tail := cli.recv[cli.taken..], cli.recv[cli.taken + 1..];
    assert rest[0] == cli.recv[cli.taken];
    assert forall i :: 0 <= i < |tail| ==> tail[i] == rest[i + 1];
  }

  lemma ToldAlike(s: System, cid: nat, cli: C.Relay)
    requires Forsaken(s, cid) && Untold(cli)
    ensures Forsaken(Put(s, cid, s.conns[cid].(cli := cli)), cid)
  {
    hide Untold, Dumb, Proj, InAir;
  }

  lemma {:induction false} TakeRest(s: System, cid: nat, n: nat) returns (acts: seq<Action>, s': System)
    requires Inv(s) && Forsaken(s, cid) && n == |Untaken(s.conns[cid].cli)|
    ensures Calmly(s, acts, s', cid) && Inv(s') && Forsaken(s', cid) && s'.air == s.air
    ensures s'.conns[cid].cli.taken == |s'.conns[cid].cli.recv|
    decreases n
  {
    hide Inv, Next, Calmly, Silences, C.Next, Dumb, Proj, InAir, ResetAhead;
    var cn := s.conns[cid];
    TakenIsWithin(s, cid);
    if n == 0 {
      acts, s' := [], s;
      NoSteps(s, cid);
    } else {
      var a := Client(cid, C.TakeEvent(None));
      TakeTold(cn.cli);
      NextTakes(s, cid);
      NextKeepsInv(s, a);
      ToldAlike(s, cid, C.Next(cn.cli, C.TakeEvent(None)));
      OnePlain(s, a, cid);
      var rest;
      rest, s' := TakeRest(Next(s, a), cid, n - 1);
      CalmlyOn(s, [a], Next(s, a), rest, s', cid);
      acts := [a] + rest;
    }
  }

  lemma DeliverMine(s: System, cid: nat)
    requires Inv(s) && Forsaken(s, cid) && s.air.Some? && s.air.value.Item? && s.air.value.cid == cid
    requires s.conns[cid].cli.taken == |s.conns[cid].cli.recv|
    ensures var s' := Next(s, DeliverEvent); Forsaken(s', cid) && s'.air.None?
  {
    hide Inv, C.Next, Dumb, Proj, Untold, Next;
    AirIsOpen(s);
    NextIsAir(s, DeliverEvent);
    var cn, ev := s.conns[cid], s.air.value.ev;
    assert InAir(s.air, cid) == [ev] && [ev][0] == ev;
    ToldIsListening(cn.cli);
    DeliveredBack(cn.cli, ev);
  }

  lemma ToldIsListening(cli: C.Relay)
    requires Untold(cli)
    ensures !cli.writer.exited && !cli.writer.responseClosed && cli.read != C.Reported(C.UploadFailed)
  {
  }

  lemma EmptyQueue(s: System, cid: nat) returns (acts: seq<Action>, s': System)
    requires Inv(s) && Forsaken(s, cid)
    ensures Calmly(s, acts, s', cid) && Inv(s') && Forsaken(s', cid) && InAir(s'.air, cid) == []
    ensures s'.conns[cid].cli.taken == |s'.conns[cid].cli.recv|
  {
    hide Inv, Next, Calmly, Forsaken, Silences;
    ForsakenIsHere(s, cid);
    acts, s' := TakeRest(s, cid, |Untaken(s.conns[cid].cli)|);
    ForsakenIsHere(s', cid);
    if s'.air.Some? && s'.air.value.Item? && s'.air.value.cid == cid {
      var s1 := s';
      DeliverMine(s1, cid);
      NextKeepsInv(s1, DeliverEvent);
      OnePlain(s1, DeliverEvent, cid);
      var s2 := Next(s1, DeliverEvent);
      ForsakenIsHere(s2, cid);
      CalmlyOn(s, acts, s1, [DeliverEvent], s2, cid);
      var rest;
      rest, s' := TakeRest(s2, cid, |Untaken(s2.conns[cid].cli)|);
      CalmlyOn(s, acts + [DeliverEvent], s2, rest, s', cid);
      acts := acts + [DeliverEvent] + rest;
    }
  }

  lemma ForsakenIsHere(s: System, cid: nat)
    requires Forsaken(s, cid)
    ensures cid in s.conns && s.known && ResetItem !in s.queue && AllData(Proj(s.queue, cid))
    ensures Untold(s.conns[cid].cli) && Dumb(s.conns[cid].srv) && s.conns[cid].registered && s.conns[cid].handoffs == 0
  {
    hide Untold, Dumb, Proj, InAir;
  }

  // the rest of its data is dropped with the stream

  /** It has taken all it has, and nobody will say more. */
  ghost predicate Resting(cn: Conn) {
    && cn.registered && cn.handoffs == 0 && !cn.cli.writer.exited && !cn.cli.writer.responseClosed
    && cn.cli.taken == |cn.cli.recv| && cn.cli.read != C.Reported(C.UploadFailed) && Dumb(cn.srv)
  }

  ghost predicate Idling(s: System, cid: nat) {
    Inv(s) && Fresh(s) && s.known && cid in s.conns && Resting(s.conns[cid])
  }

  lemma LandingIsCalm(s: System, acts: seq<Action>, cid: nat)
    requires forall i :: 0 <= i < |acts| ==> EndsDispatch(acts[i])
    ensures Calmly(s, acts, Run(s, acts), cid)
  {
    hide Calmly;
    forall i | 0 <= i < |acts| ensures Plain(acts[i], cid) {
      assert EndsDispatch(acts[i]);
    }
    PlainIsCalm(s, acts, cid);
  }

  lemma DropIsCalm(s: System, cid: nat)
    requires ResetItem !in s.queue && (cid in s.conns ==> AllData(Proj(s.queue, cid)))
    ensures Calmly(s, [StreamDropped], Next(s, StreamDropped), cid)
  {
    hide Next, Proj, InAir, Unaided, Run;
    RunOne(s, StreamDropped);
    assert [StreamDropped][1..] == [];
  }

  lemma Freshen(s: System, cid: nat) returns (acts: seq<Action>, s': System)
    requires Inv(s) && Forsaken(s, cid) && InAir(s.air, cid) == []
    requires s.conns[cid].cli.taken == |s.conns[cid].cli.recv|
    ensures Calmly(s, acts, s', cid) && Idling(s', cid)
  {
    hide Inv, Run, Next, Calmly, Dumb, InAir, Proj, Along, Forsaken;
    ForsakenIsHere(s, cid);
    ToldIsListening(s.conns[cid].cli);
    var land, s1 := LandAny(s, cid);
    AlongIsHere(s, land, s1, cid);
    LandingIsCalm(s, land, cid);
    DropIsCalm(s1, cid);
    var drop, s2 := DropStep(s1, cid);
    AlongIsHere(s1, drop, s2, cid);
    RunOne(s1, StreamDropped);
    CalmlyOn(s, land, s1, drop, s2, cid);
    OpenKnown(s2);
    NextKeepsInv(s2, StreamOpened);
    OnePlain(s2, StreamOpened, cid);
    s' := Next(s2, StreamOpened);
    CalmlyOn(s, land + drop, s2, [StreamOpened], s', cid);
    acts := land + drop + [StreamOpened];
  }

  // the upload comes to rest

  lemma PutRests(s: System, cid: nat, acts: seq<Action>, cn: Conn)
    requires Idling(s, cid) && Run(s, acts) == Put(s, cid, cn) && Resting(cn)
    requires forall i :: 0 <= i < |acts| ==> Plain(acts[i], cid)
    ensures Calmly(s, acts, Put(s, cid, cn), cid) && Idling(Put(s, cid, cn), cid)
  {
    hide Inv, Run, Calmly, Resting, Plain;
    PlainIsCalm(s, acts, cid);
    RunKeepsInv(s, acts);
  }

  /** The write task waits for more, or is gone. */
  predicate Lull(c: S.Conn) {
    c.up.write.WriteDone? || (c.up.write.Waiting? && c.up.queue == [])
  }

  lemma {:induction false} WritesArePlain(cid: nat, acts: seq<S.Action>)
    requires OnlyWrites(acts)
    ensures forall i :: 0 <= i < |OfServer(cid, acts)| ==> Plain(OfServer(cid, acts)[i], cid)
  {
    if acts != [] {
      WritesArePlain(cid, acts[1..]);
      assert acts[0] == S.TakeWrite || acts[0] == S.TargetWrote(None);
      var rest := OfServer(cid, acts[1..]);
      assert OfServer(cid, acts) == [Server(cid, acts[0])] + rest;
    }
  }

  lemma LullWrites(s: System, cid: nat) returns (acts: seq<Action>, s': System)
    requires Idling(s, cid)
    ensures Calmly(s, acts, s', cid) && Idling(s', cid) && Lull(s'.conns[cid].srv)
    ensures var cn, cn' := s.conns[cid], s'.conns[cid];
      cn'.cli == cn.cli && cn'.post == cn.post && cn'.srv.up.handler == cn.srv.up.handler
  {
    hide Inv, Run, S.Run, Calmly, S.Pipe, S.Next;
    var cn := s.conns[cid];
    if S.Draining(cn.srv.up) {
      var sacts := Drain(cn.srv);
      acts := OfServer(cid, sacts);
      assert AllLocal(sacts);
      ServerRun(s, cid, sacts);
      WritesArePlain(cid, sacts);
      s' := Put(s, cid, cn.(srv := Drained(cn.srv)));
      PutRests(s, cid, acts, cn.(srv := Drained(cn.srv)));
    } else {
      acts, s' := [], s;
      NoSteps(s, cid);
    }
  }

  lemma ArrivalRests(cn: Conn, cid: nat)
    requires Resting(cn) && cn.cli.read.Posting? && cn.post == NotApplied && !cn.astray && cn.srv.up.handler.None?
    ensures var cn' := PostNext(cn, PostArrives(cid));
      Resting(cn') && cn'.cli == cn.cli && cn'.post != NotApplied && (Lull(cn.srv) ==> Lull(cn'.srv))
  {
    DataFrame(cn.srv, cn.cli.read.data);
    PostKeepsDumb(cn, PostArrives(cid));
    hide S.Next, Dumb;
  }

  lemma HandlingRests(cn: Conn, cid: nat)
    requires Resting(cn) && cn.post == Handling && Lull(cn.srv) && cn.srv.up.handler.Some?
    ensures var cn' := PostNext(cn, PostHandled(cid)); Resting(cn') && cn'.cli == cn.cli && cn'.post == Applied
  {
    HandlerEndFrame(cn.srv);
    if cn.srv.up.write.Waiting? {
      RoomIsTaken(cn.srv);
    }
    PostKeepsDumb(cn, PostHandled(cid));
    hide S.Next, Dumb;
  }

  lemma AckRests(cn: Conn, cid: nat)
    requires Resting(cn) && cn.cli.read.Posting? && cn.post == Applied
    ensures var cn' := PostNext(cn, PostAcked(cid)); Resting(cn') && cn'.srv == cn.srv && cn'.cli.read.Reading?
  {
    hide Dumb;
  }

  lemma PostStepRests(s: System, cid: nat, a: Action)
    requires Idling(s, cid) && IsPosting(a) && a.cid == cid && Resting(PostNext(s.conns[cid], a))
    ensures Calmly(s, [a], Put(s, cid, PostNext(s.conns[cid], a)), cid)
    ensures Idling(Put(s, cid, PostNext(s.conns[cid], a)), cid)
  {
    hide Inv, Run, Calmly, Next, PostNext, Resting;
    NextPosts(s, a);
    RunOne(s, a);
    PutRests(s, cid, [a], PostNext(s.conns[cid], a));
  }

  lemma IdlingPost(s: System, cid: nat)
    requires Idling(s, cid)
    ensures var cn := s.conns[cid]; !cn.astray && (cn.srv.up.handler.Some? <==> cn.post == Handling)
    ensures C.Inv(s.conns[cid].cli) && S.Inv(s.conns[cid].srv) && s.conns[cid].cli.open
    ensures s.conns[cid].post == Handling ==> s.conns[cid].cli.read.Posting?
  {
    hide Inv, C.Inv, S.Inv, Whole, Dumb;
    RelayIsSound(s, cid);
  }

  /** The POST under way succeeds. */
  lemma PostsSucceed(s: System, cid: nat) returns (acts: seq<Action>, s': System)
    requires Idling(s, cid) && s.conns[cid].cli.read.Posting? && Lull(s.conns[cid].srv)
    ensures Calmly(s, acts, s', cid) && Idling(s', cid) && s'.conns[cid].cli.read.Reading?
  {
    hide Inv, Run, Calmly, PostNext, Dumb, C.Inv, S.Inv;
    IdlingPost(s, cid);
    acts, s' := [], s;
    NoSteps(s, cid);
    if s'.conns[cid].post == NotApplied {
      ArrivalRests(s'.conns[cid], cid);
      PostStepRests(s', cid, PostArrives(cid));
      var s1 := Put(s', cid, PostNext(s'.conns[cid], PostArrives(cid)));
      CalmlyOn(s, acts, s', [PostArrives(cid)], s1, cid);
      acts, s' := acts + [PostArrives(cid)], s1;
      IdlingPost(s', cid);
    }
    if s'.conns[cid].post == Handling {
      HandlingRests(s'.conns[cid], cid);
      PostStepRests(s', cid, PostHandled(cid));
      var s2 := Put(s', cid, PostNext(s'.conns[cid], PostHandled(cid)));
      CalmlyOn(s, acts, s', [PostHandled(cid)], s2, cid);
      acts, s' := acts + [PostHandled(cid)], s2;
    }
    AckRests(s'.conns[cid], cid);
    PostStepRests(s', cid, PostAcked(cid));
    var s3 := Put(s', cid, PostNext(s'.conns[cid], PostAcked(cid)));
    CalmlyOn(s, acts, s', [PostAcked(cid)], s3, cid);
    acts, s' := acts + [PostAcked(cid)], s3;
  }

  lemma ClientRests(s: System, cid: nat, ca: C.Action)
    requires Idling(s, cid) && (ca.CloseDone? || ca.TakeUpload?)
    requires Resting(s.conns[cid].(cli := C.Next(s.conns[cid].cli, ca)))
    ensures var s' := Put(s, cid, s.conns[cid].(cli := C.Next(s.conns[cid].cli, ca)));
      Calmly(s, [Client(cid, ca)], s', cid) && Idling(s', cid)
  {
    hide Inv, Run, Calmly, C.Next, Dumb, SendNext, BeginNext, AirNext, HandoffNext, PostNext, StaleAll, Killed, Harmed;
    RunOne(s, Client(cid, ca));
    PutRests(s, cid, [Client(cid, ca)], s.conns[cid].(cli := C.Next(s.conns[cid].cli, ca)));
  }

  lemma CloseRests(cn: Conn)
    requires Resting(cn) && cn.cli.read.PostingClose?
    ensures var cli := C.Next(cn.cli, C.CloseDone); Resting(cn.(cli := cli)) && cli.read == C.Reported(C.UploadEof)
  {
    hide Dumb;
  }

  lemma UploadRests(cn: Conn)
    requires Resting(cn) && C.Inv(cn.cli) && cn.cli.open
    requires cn.cli.read == C.Reported(C.UploadEof) && cn.cli.upload.Some?
    ensures var cli := C.Next(cn.cli, C.TakeUpload);
      Resting(cn.(cli := cli)) && cli.read == C.Reported(C.UploadEof) && cli.upload.None?
  {
    hide Dumb, C.PostsInv, C.OutputInv;
  }

  /** The app's end is reported to the write half. */
  lemma UploadEnds(s: System, cid: nat) returns (acts: seq<Action>, s': System)
    requires Idling(s, cid) && !s.conns[cid].cli.read.Posting? && Lull(s.conns[cid].srv)
    ensures Calmly(s, acts, s', cid) && Idling(s', cid) && s'.conns[cid].srv == s.conns[cid].srv
    ensures var cli := s'.conns[cid].cli; cli.read.Reading? || (cli.read == C.Reported(C.UploadEof) && cli.upload.None?)
  {
    hide Inv, Run, Calmly, Dumb, C.Inv, S.Inv, C.Next;
    acts, s' := [], s;
    NoSteps(s, cid);
    if s'.conns[cid].cli.read.PostingClose? {
      CloseRests(s'.conns[cid]);
      ClientRests(s', cid, C.CloseDone);
      var s1 := Put(s', cid, s'.conns[cid].(cli := C.Next(s'.conns[cid].cli, C.CloseDone)));
      CalmlyOn(s, acts, s', [Client(cid, C.CloseDone)], s1, cid);
      acts, s' := acts + [Client(cid, C.CloseDone)], s1;
    }
    if s'.conns[cid].cli.read == C.Reported(C.UploadEof) && s'.conns[cid].cli.upload.Some? {
      IdlingPost(s', cid);
      UploadRests(s'.conns[cid]);
      ClientRests(s', cid, C.TakeUpload);
      var s2 := Put(s', cid, s'.conns[cid].(cli := C.Next(s'.conns[cid].cli, C.TakeUpload)));
      CalmlyOn(s, acts, s', [Client(cid, C.TakeUpload)], s2, cid);
      acts, s' := acts + [Client(cid, C.TakeUpload)], s2;
    }
    EndsAreTwo(s'.conns[cid].cli);
  }

  lemma EndsAreTwo(cli: C.Relay)
    ensures cli.read.Reading? || cli.read.Posting? || cli.read.PostingClose? || cli.read == C.Reported(C.UploadEof) ||
      cli.read == C.Reported(C.UploadFailed)
  {
    if cli.read.Reported? {
      assert cli.read.end.UploadEof? || cli.read.end.UploadFailed?;
    }
  }

  lemma RestIsHung(s: System, cid: nat)
    requires Idling(s, cid) && Lull(s.conns[cid].srv)
    requires var cli := s.conns[cid].cli; cli.read.Reading? || (cli.read == C.Reported(C.UploadEof) && cli.upload.None?)
    ensures Hung(s, cid)
  {
    hide Inv, S.Inv;
    IdlingPost(s, cid);
    RestIsParked(s.conns[cid].cli);
    hide C.Inv, C.CanMove;
    FlattenNone();
    assert Proj([], cid) == [];
  }

  lemma RestIsParked(cli: C.Relay)
    requires C.Inv(cli) && cli.open && !cli.writer.exited && !cli.writer.responseClosed && cli.taken == |cli.recv|
    requires cli.read.Reading? || (cli.read == C.Reported(C.UploadEof) && cli.upload.None?)
    ensures cli.socket.Live? && !C.CanMove(cli)
  {
    hide C.PostsInv, C.OutputInv;
  }

  /** Without an act of the app, a restart or a rotation, and losing nothing more. */
  lemma ForsakenHangs(s: System, cid: nat) returns (acts: seq<Action>)
    requires Inv(s) && Forsaken(s, cid)
    ensures Undisturbed(acts, cid) && Unsilenced(s, acts, cid) && Hung(Run(s, acts), cid)
  {
    hide Inv, Idling, Forsaken, Calmly, Lull, Hung;
    var empty, s1 := EmptyQueue(s, cid);
    var renew, s2 := Freshen(s1, cid);
    CalmlyOn(s, empty, s1, renew, s2, cid);
    var lull, s3 := LullWrites(s2, cid);
    CalmlyOn(s, empty + renew, s2, lull, s3, cid);
    acts := empty + renew + lull;
    IdlingIsHere(s3, cid);
    if s3.conns[cid].cli.read.Posting? {
      var post, s4 := PostsSucceed(s3, cid);
      CalmlyOn(s, acts, s3, post, s4, cid);
      IdlingIsHere(s4, cid);
      acts := acts + post;
      lull, s3 := LullWrites(s4, cid);
      CalmlyOn(s, acts, s4, lull, s3, cid);
      acts := acts + lull;
      IdlingIsHere(s3, cid);
    }
    var end, s5 := UploadEnds(s3, cid);
    CalmlyOn(s, acts, s3, end, s5, cid);
    acts := acts + end;
    IdlingIsHere(s5, cid);
    RestIsHung(s5, cid);
    CalmlyIs(s, acts, s5, cid);
  }

  lemma IdlingIsHere(s: System, cid: nat)
    requires Idling(s, cid)
    ensures cid in s.conns
  {
    hide Inv, Resting;
  }

  lemma CalmlyIs(s: System, acts: seq<Action>, s': System, cid: nat)
    requires Calmly(s, acts, s', cid)
    ensures s' == Run(s, acts) && Undisturbed(acts, cid) && Unsilenced(s, acts, cid)
  {
    hide Run, Undisturbed, Unsilenced;
  }

  // ------------------------------------------------------------------ main results

  /** The connection comes to hang, without an act of its app, a restart, a rotation or
      a further loss. */
  ghost predicate HangsLater(s: System, acts: seq<Action>, cid: nat) {
    Undisturbed(acts, cid) && Unsilenced(s, acts, cid) && Hung(Run(s, acts), cid)
  }

  /** From every state the invariants allow in which the connection is not forsaken
      yet, and for every action: some continuation without an act of the app, a
      restart, a rotation or a further loss leaves the app waiting for good for an
      end of its response, if and only if the action took away the last voice that
      could have told it. */
  lemma SilenceIsExact(s: System, a: Action, cid: nat)
    requires Inv(s) && !Forsaken(s, cid)
    ensures (exists acts :: HangsLater(Next(s, a), acts, cid)) <==> Silences(s, a, cid)
  {
    hide Inv, Next, Forsaken, Silences, Hung;
    SilencedExactly(s, a, cid);
    NextKeepsInv(s, a);
    var s' := Next(s, a);
    if Silences(s, a, cid) {
      var acts := ForsakenHangs(s', cid);
      assert HangsLater(s', acts, cid);
    } else {
      forall acts | Undisturbed(acts, cid) && Unsilenced(s', acts, cid) ensures !HangsLater(s', acts, cid) {
        NeverForsaken(s', acts, cid);
        RunKeepsInv(s', acts);
        if Hung(Run(s', acts), cid) {
          HungIsForsaken(Run(s', acts), cid);
        }
      }
    }
  }

  /** A dropped stream, exactly: it held the `Close` or an `Error` of a connection whose
      server has nothing more to say, or the Reset such a connection relies on. */
  lemma DroppedEndsHangExactly(s: System, cid: nat)
    requires Inv(s) && !Forsaken(s, cid) && s.air.None? && s.known && cid in s.conns
    requires Unaided(s.conns[cid], []) && Dumb(s.conns[cid].srv)
    ensures (exists acts :: HangsLater(Next(s, StreamDropped), acts, cid)) <==>
      ResetItem in s.queue || !AllData(Proj(s.queue, cid))
  {
    hide Inv, Next, Forsaken, HangsLater, Unaided, Dumb, Proj;
    SilenceIsExact(s, StreamDropped, cid);
    assert InAir(s.air, cid) == [];
  }

  /** The read task's end, exactly: it goes to a channel that nobody reads, with no
      report of the write task's still to come. */
  lemma SwallowedEndsHangExactly(s: System, cid: nat)
    requires Inv(s) && cid in s.conns && s.conns[cid].clone.Some? && s.conns[cid].srv.down.read.SendingEnd?
    requires Unaided(s.conns[cid], InAir(s.air, cid)) && AllData(Proj(s.queue, cid)) && !ResetAhead(s)
    ensures (exists acts :: HangsLater(Next(s, Send(cid)), acts, cid)) <==>
      && !Reaches(s, s.conns[cid].clone)
      && !s.conns[cid].srv.up.write.UnlinkingWriter? && !s.conns[cid].srv.up.write.ReportingWrite?
  {
    hide Inv, Next, Forsaken, HangsLater, Unaided, Proj, InAir, Reaches, ResetAhead;
    TalkingEndIsNotForsaken(s, cid);
    SilenceIsExact(s, Send(cid), cid);
  }
}
