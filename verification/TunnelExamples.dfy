/** Runs that show the conditions of the integrity and reset theorems are real. */
module TunnelExamples {
  import opened Prelude
  import opened Events
  import opened Tunnel
  import opened TunnelIntegrity
  import opened TunnelInvariant
  import opened TunnelFate
  import opened TunnelRelease
  import opened TunnelResets
  import opened TunnelSilence
  import opened TunnelSteps
  import opened TunnelTargets
  import C = ClientRelay
  import S = ServerRelay

  lemma {:induction false} RunSnoc(s: System, acts: seq<Action>, a: Action)
    ensures Run(s, acts + [a]) == Next(Run(s, acts), a)
    decreases |acts|
  {
    hide Next;
    if acts == [] {
      assert Run(Next(s, a), []) == Next(s, a);
    } else {
      RunSnoc(Next(s, acts[0]), acts[1..], a);
      assert (acts + [a])[1..] == acts[1..] + [a];
    }
  }

  /** One more step of an example run. */
  lemma Then(acts: seq<Action>, s: System, a: Action) returns (acts': seq<Action>, s': System)
    requires s == Run(INIT, acts)
    ensures s' == Next(s, a) && s' == Run(INIT, acts')
  {
    acts', s' := acts + [a], Next(s, a);
    RunSnoc(INIT, acts, a);
  }

  lemma ThenServer(acts: seq<Action>, s: System, sa: S.Action) returns (acts': seq<Action>, s': System)
    requires s == Run(INIT, acts) && 7 in s.conns && LocalToServer(sa)
    ensures s' == Put(s, 7, s.conns[7].(srv := S.Next(s.conns[7].srv, sa))) && s' == Run(INIT, acts')
  {
    hide S.Next;
    acts', s' := Then(acts, s, Server(7, sa));
  }

  lemma ThenSend(acts: seq<Action>, s: System) returns (acts': seq<Action>, s': System)
    requires s == Run(INIT, acts) && 7 in s.conns && !s.conns[7].srv.killed
    ensures s' == SendNext(Put(s, 7, s.conns[7].(clone := Some(s.gen))), 7) && s' == Run(INIT, acts')
  {
    hide SendNext;
    acts', s' := Then(acts, s, CloneSender(7));
    acts', s' := Then(acts', s', Send(7));
  }

  lemma ThenPost(acts: seq<Action>, s: System, a: Action) returns (acts': seq<Action>, s': System)
    requires s == Run(INIT, acts) && 7 in s.conns && IsPosting(a) && a.cid == 7
    ensures s' == Put(s, 7, PostNext(s.conns[7], a)) && s' == Run(INIT, acts')
  {
    hide PostNext, Next;
    NextPosts(s, a);
    acts', s' := Then(acts, s, a);
  }

  lemma ThenClient(acts: seq<Action>, s: System, ca: C.Action) returns (acts': seq<Action>, s': System)
    requires s == Run(INIT, acts) && 7 in s.conns && LocalToClient(ca) && !ca.Join?
    ensures s' == Put(s, 7, s.conns[7].(cli := C.Next(s.conns[7].cli, ca))) && s' == Run(INIT, acts')
  {
    hide C.Next;
    acts', s' := Then(acts, s, Client(7, ca));
  }

  predicate Listens(cli: C.Relay) {
    cli.open && !cli.writer.exited && cli.recv == [] && cli.taken == 0
  }

  /** The queue's only item is dispatched to a relay with room for it. */
  lemma ThenDispatch(acts: seq<Action>, s: System, ev: TunnelEvent) returns (acts': seq<Action>, s': System)
    requires s == Run(INIT, acts) && 7 in s.conns && s.conns[7].registered && Listens(s.conns[7].cli)
    requires s.air.None? && s.queue == [Item(7, ev)]
    ensures s'.conns.Keys == s.conns.Keys && s' == Run(INIT, acts')
    ensures s'.conns[7] == Upped(s.conns[7], ev).(cli := s.conns[7].cli.(recv := [ev]))
  {
    hide Next, Run;
    acts', s' := Then(acts, s, Begin);
    BeginStep(s, ev);
    acts', s' := Then(acts', s', DeliverEvent);
    LandStep(Upstream(s, ev), ev);
  }

  function Upped(cn: Conn, ev: TunnelEvent): Conn {
    cn.(dispatched := cn.dispatched + [ev])
  }

  function Upstream(s: System, ev: TunnelEvent): System
    requires 7 in s.conns
  {
    Put(s, 7, Upped(s.conns[7], ev)).(queue := [], air := Some(Item(7, ev)))
  }

  lemma BeginStep(s: System, ev: TunnelEvent)
    requires 7 in s.conns && s.conns[7].registered && s.air.None? && s.queue == [Item(7, ev)]
    ensures Next(s, Begin) == Upstream(s, ev)
  {
  }

  lemma LandStep(s: System, ev: TunnelEvent)
    requires 7 in s.conns && s.conns[7].registered && Listens(s.conns[7].cli) && s.air == Some(Item(7, ev))
    ensures var s' := Next(s, DeliverEvent);
      s'.conns.Keys == s.conns.Keys && s'.conns[7] == s.conns[7].(cli := s.conns[7].cli.(recv := [ev]))
  {
    assert [] + [ev] == [ev];
  }

  /** A connection opened on a live stream, in a session the server knows. */
  lemma ExampleStart() returns (acts: seq<Action>, s: System)
    ensures s == Run(INIT, acts)
    ensures s == System(map[7 := OPENED], [], None, 1, 1, true, true, {}, false)
  {
    hide Next;
    FirstStream();
    acts, s := Then([], INIT, StreamOpened);
    acts, s := Then(acts, s, Begin);
    acts, s := Then(acts, s, Open(7));
  }

  lemma FirstStream()
    ensures var start := System(map[], [ResetItem], None, 1, 1, true, true, {}, false);
      && Next(INIT, StreamOpened) == start
      && Next(start, Begin) == start.(queue := [])
      && Next(start.(queue := []), Open(7)) == start.(queue := [], conns := map[7 := OPENED])
  {
    hide SendNext, AirNext, HandoffNext, PostNext, StaleAll, Killed, Harmed;
    var start := System(map[], [ResetItem], None, 1, 1, true, true, {}, false);
    assert Next(INIT, StreamOpened) == start;
    assert Next(start, Begin) == BeginNext(start);
    hide Next;
    assert ClearAll(start) == map[];
    assert BeginNext(start) == start.(queue := []);
    NextOpens(start.(queue := []), 7);
  }

  const PULLED := S.Download(S.SendingChunk([1]), [1], false, [], [])
  const SENT := S.Download(S.Pulling, [1], false, [Data([1])], [Data([1])])
  const ENDING := S.Download(S.SendingEnd(Close, false), [1], true, [Data([1])], [Data([1])])

  lemma SampleServer()
    ensures S.Next(S.FRESH, S.PullData([1])) == S.FRESH.(down := PULLED)
    ensures S.Next(S.FRESH.(down := PULLED), S.ChunkSent) == S.FRESH.(down := SENT)
    ensures S.Next(S.FRESH.(down := SENT), S.PullEof) == S.FRESH.(down := ENDING)
    ensures S.Next(S.FRESH.(down := ENDING), S.EndSent).down.targetRead == [1]
  {
    assert [] + [1] == [1] && [] + [Data([1])] == [Data([1])];
  }

  /** One chunk was read and enqueued, and the stream replaced over it. */
  lemma ExampleReplaced() returns (acts: seq<Action>, s: System)
    ensures s == Run(INIT, acts) && 7 in s.conns
    ensures s.conns[7] == OPENED.(srv := S.FRESH.(down := SENT))
    ensures s.queue == [] && s.air.None? && s.live && s.gen == s.reading
  {
    acts, s := ExampleStart();
    hide S.Next, Next, Run;
    SampleServer();
    acts, s := ThenServer(acts, s, S.PullData([1]));
    acts, s := ThenSend(acts, s);
    assert s.air.None? && s.known && s.conns[7].srv == S.FRESH.(down := SENT);
    acts, s := ThenReopen(acts, s);
  }

  /** And the gap is real: a stream replaced over one undelivered chunk ends in
      a clean end-of-stream on a response that lacks it. */
  lemma ReplacedStreamCanTruncate()
    ensures exists acts: seq<Action> :: var s := Run(INIT, acts);
      7 in s.conns && SawEof(s.conns[7]) && s.conns[7].cli.writer.written != s.conns[7].srv.down.targetRead
  {
    var acts, s := ExampleReplaced();
    hide S.Next, Next, Run, AirNext, BeginNext;
    SampleServer();
    acts, s := ThenServer(acts, s, S.PullEof);
    acts, s := ThenSend(acts, s);
    assert [] + [Item(7, Close)] == [Item(7, Close)];
    acts, s := ThenDispatch(acts, s, Close);
    acts, s := ThenClient(acts, s, C.TakeEvent(None));
    assert s.conns[7].cli.writer.responseClosed && s.conns[7].cli.writer.written == [];
  }

  const QUEUED := S.FRESH.(up := S.FRESH.up.(queue := [[9]], offered := [9]))
  const TWICE := S.FRESH.(up := S.FRESH.up.(queue := [[9], [9]], offered := [9, 9]))

  lemma SampleUpload()
    ensures S.Next(S.FRESH, S.HandleData([9])) == S.FRESH.(up := S.FRESH.up.(handler := Some([9])))
    ensures S.Next(S.FRESH.(up := S.FRESH.up.(handler := Some([9]))), S.Enqueue) == QUEUED
    ensures S.Next(QUEUED, S.HandleData([9])) == QUEUED.(up := QUEUED.up.(handler := Some([9])))
    ensures S.Next(QUEUED.(up := QUEUED.up.(handler := Some([9]))), S.Enqueue) ==
      TWICE
  {
    assert [] + [9] == [9] && [9] + [9] == [9, 9];
  }

  const POSTING := OPENED.(cli := C.FRESH.(read := C.Posting([9]), posts := [C.SendData([9])]))

  lemma SamplePost()
    ensures C.Next(C.FRESH, C.AppData([9])) == POSTING.cli
    ensures PostNext(POSTING, PostArrives(7)) ==
      POSTING.(srv := S.FRESH.(up := S.FRESH.up.(handler := Some([9]))), post := Handling)
  {
    assert [] + [C.SendData([9])] == [C.SendData([9])];
    hide S.Next;
    SampleUpload();
  }

  lemma SampleFailure()
    ensures PostNext(POSTING.(srv := S.FRESH.(up := S.FRESH.up.(handler := Some([9]))), post := Handling),
      PostHandled(7)) ==
      POSTING.(srv := QUEUED, post := Applied)
    ensures PostNext(POSTING.(srv := QUEUED, post := Applied), PostFailed(7)) ==
      POSTING.(srv := QUEUED, retried := true, resent := true)
  {
    hide S.Next, C.Next;
    SampleUpload();
  }

  lemma SampleDrain(c: S.Conn)
    requires c == TWICE
    ensures S.Run(c, [S.TakeWrite, S.TargetWrote(None), S.TakeWrite, S.TargetWrote(None)]).up.targetWritten == [9, 9]
  {
    var c2 := S.Next(S.Next(c, S.TakeWrite), S.TargetWrote(None));
    assert c2.up.targetWritten == [9] && c2.up.queue == [[9]] && c2.up.write.Waiting?;
  }

  /** The first attempt at a POST was applied and then reported as failed. */
  lemma ExampleRetried() returns (acts: seq<Action>, s: System)
    ensures s == Run(INIT, acts) && 7 in s.conns
    ensures s.conns[7] == POSTING.(srv := QUEUED, retried := true, resent := true)
  {
    acts, s := ExampleStart();
    hide S.Next, C.Next, Next, Run, PostNext;
    SamplePost();
    SampleFailure();
    acts, s := ThenClient(acts, s, C.AppData([9]));
    acts, s := ThenPost(acts, s, PostArrives(7));
    acts, s := ThenPost(acts, s, PostHandled(7));
    acts, s := ThenPost(acts, s, PostFailed(7));
  }

  /** And the damage is real: the target can receive the same bytes twice. */
  lemma ResentPostDuplicates()
    ensures exists acts: seq<Action> :: var s := Run(INIT, acts);
      7 in s.conns && !(s.conns[7].srv.up.targetWritten <= PostedBytes(s.conns[7].cli.posts))
  {
    var acts, s := ExampleRetried();
    hide S.Next, C.Next, Next, Run, PostNext;
    SampleAgain();
    acts, s := ThenPost(acts, s, PostArrives(7));
    acts, s := ThenPost(acts, s, PostHandled(7));
    var c := s.conns[7].srv;
    assert s.conns[7].cli.posts == [C.SendData([9])];
    SampleDrain(c);
    DrainIsFour(c);
    acts, s := ThenServer(acts, s, S.TakeWrite);
    acts, s := ThenServer(acts, s, S.TargetWrote(None));
    acts, s := ThenServer(acts, s, S.TakeWrite);
    acts, s := ThenServer(acts, s, S.TargetWrote(None));
    assert s.conns[7].srv.up.targetWritten == [9, 9] && s.conns[7].cli.posts == [C.SendData([9])];
    assert PostedBytes([C.SendData([9])]) == [9] + [];
  }

  lemma SampleAgain()
    ensures var failed := POSTING.(srv := QUEUED, retried := true, resent := true);
      PostNext(PostNext(failed, PostArrives(7)), PostHandled(7)) == failed.(srv := TWICE, post := Applied)
  {
    hide S.Next, C.Next;
    SampleUpload();
  }

  lemma DrainIsFour(c: S.Conn)
    ensures S.Run(c, [S.TakeWrite, S.TargetWrote(None), S.TakeWrite, S.TargetWrote(None)]) ==
      S.Next(S.Next(S.Next(S.Next(c, S.TakeWrite), S.TargetWrote(None)), S.TakeWrite), S.TargetWrote(None))
  {
    hide S.Next;
  }

  /** And that happens: the server restarts, the stream that would have brought
      the Reset is dropped before its first frame, and the relay is left waiting
      on a healthy stream for a server that no longer knows it. */
  lemma LostResetStrands()
    ensures exists acts: seq<Action> :: Stranded(Run(INIT, acts), 7) && Run(INIT, acts).live
  {
    var acts, s := ExampleStart();
    hide C.Next, S.Next, Run, Next, C.CanMove, Mute, Killed;
    OpenedIsKilled();
    acts, s := ThenRestart(acts, s);
    acts, s := ThenReopen(acts, s);
    acts, s := ThenReopen(acts, s);
    assert Proj([], 7) == [];
    KilledIsIdle();
    assert Stranded(s, 7);
  }

  const CLOSING := S.Download(S.SendingEnd(Close, false), [], true, [], [])
  const CLOSED := S.Download(S.ReadDone, [], true, [Close], [Close])

  lemma SampleClose()
    ensures S.Next(S.FRESH, S.PullEof) == S.FRESH.(down := CLOSING)
    ensures S.Next(S.FRESH.(down := CLOSING), S.EndSent) == S.FRESH.(down := CLOSED)
    ensures Mute(S.FRESH.(down := CLOSED)) && !C.CanMove(C.FRESH)
  {
    assert [] + [Close] == [Close];
  }

  /** And nobody need have died: the target ends, its `Close` is dropped with a
      replaced stream, and the app waits for good on a healthy stream of a known
      session whose server has closed the response in full. */
  lemma DroppedCloseHangs()
    ensures exists acts: seq<Action> :: var s := Run(INIT, acts);
      Hung(s, 7) && s.live && s.known && !s.conns[7].srv.killed && Close in s.conns[7].srv.down.sent
  {
    var acts, s := ExampleStart();
    hide C.Next, S.Next, Run, Next, C.CanMove, Mute;
    SampleClose();
    acts, s := ThenServer(acts, s, S.PullEof);
    acts, s := ThenSend(acts, s);
    assert s.air.None? && s.known && s.conns[7] == OPENED.(srv := S.FRESH.(down := CLOSED));
    acts, s := ThenReopen(acts, s);
    assert Proj([], 7) == [];
    assert Hung(s, 7);
  }

  const TAKEN := QUEUED.(up := QUEUED.up.(queue := [], write := S.WritingTarget([9])))
  const REFUSED := QUEUED.(up := QUEUED.up.(queue := [], write := S.ReportingWrite, linked := false))

  lemma SampleRefusal()
    ensures S.Next(QUEUED, S.TakeWrite) == TAKEN
    ensures S.Next(S.Next(TAKEN, S.TargetWrote(Some(0))), S.UnlinkWriter) == REFUSED
    ensures S.Next(REFUSED, S.ReportSent) ==
      REFUSED.(up := REFUSED.up.(write := S.WriteDone(false)), down := REFUSED.down.(sent := [Error]))
  {
    hide S.Next;
    SampleTaken();
    SampleUnlinked();
    SampleReported();
  }

  lemma SampleTaken()
    ensures S.Next(QUEUED, S.TakeWrite) == TAKEN
  {
    assert [[9]][1..] == [];
  }

  lemma SampleUnlinked()
    ensures S.Next(S.Next(TAKEN, S.TargetWrote(Some(0))), S.UnlinkWriter) == REFUSED
  {
    assert [] + [9][..0] == [];
    var broken := S.Next(TAKEN, S.TargetWrote(Some(0)));
    assert broken == TAKEN.(up := TAKEN.up.(write := S.UnlinkingWriter));
  }

  lemma SampleReported()
    ensures S.Next(REFUSED, S.ReportSent) ==
      REFUSED.(up := REFUSED.up.(write := S.WriteDone(false)), down := REFUSED.down.(sent := [Error]))
  {
    assert [] + [Error] == [Error];
  }

  lemma SampleAck()
    ensures PostNext(POSTING.(srv := QUEUED, post := Applied), PostAcked(7)) ==
      POSTING.(srv := QUEUED, cli := POSTING.cli.(read := C.Reading))
  {
  }

  /** An applied POST's data is refused by the target, and the server says so. */
  lemma ExampleRefused() returns (acts: seq<Action>, s: System)
    ensures s == Run(INIT, acts) && 7 in s.conns && s.air.None? && s.queue == [Item(7, Error)]
    ensures s.conns[7] == OPENED.(cli := POSTING.cli.(read := C.Reading),
      srv := REFUSED.(up := REFUSED.up.(write := S.WriteDone(false)), down := REFUSED.down.(sent := [Error])))
  {
    acts, s := ExampleStart();
    hide S.Next, C.Next, Next, Run, PostNext;
    SamplePost();
    SampleFailure();
    SampleAck();
    SampleRefusal();
    acts, s := ThenClient(acts, s, C.AppData([9]));
    acts, s := ThenPost(acts, s, PostArrives(7));
    acts, s := ThenPost(acts, s, PostHandled(7));
    acts, s := ThenPost(acts, s, PostAcked(7));
    acts, s := ThenServer(acts, s, S.TakeWrite);
    acts, s := ThenServer(acts, s, S.TargetWrote(Some(0)));
    acts, s := ThenServer(acts, s, S.UnlinkWriter);
    acts, s := ThenReport(acts, s);
  }

  lemma ThenReport(acts: seq<Action>, s: System) returns (acts': seq<Action>, s': System)
    requires s == Run(INIT, acts) && 7 in s.conns && s.conns[7].srv.up.write.ReportingWrite?
    requires s.live && s.gen == s.reading && s.queue == []
    ensures s' == Put(s, 7, s.conns[7].(srv := S.Next(s.conns[7].srv, S.ReportSent))).(queue := [Item(7, Error)])
    ensures s' == Run(INIT, acts')
  {
    hide S.Next;
    acts', s' := Then(acts, s, SendReport(7));
    assert [] + [Item(7, Error)] == [Item(7, Error)];
  }

  lemma SampleStop(cli: C.Relay)
    requires cli == POSTING.cli.(read := C.Reading, recv := [Error])
    ensures var told := C.Next(C.Next(cli, C.TakeEvent(None)), C.TakeStop);
      && told.writer.serverReported && told.writer.exited && C.Resets(told.writer) && told.read.Reported?
      && told.posts == [C.SendData([9])]
  {
    assert [C.SendData([9])] + [] == [C.SendData([9])];
  }

  /** And the report of a failed write is such a case: both halves of the client's
      relay have left, it is about to reset its app, and no Abort will come; but the
      server relay goes on reading an idle target, with no move of its own left. */
  lemma RefusedWriteHoldsTarget()
    ensures exists acts: seq<Action> :: var s := Run(INIT, acts);
      && 7 in s.conns && OutOfReach(s.conns[7]) && s.conns[7].cli.read.Reported? && C.Resets(s.conns[7].cli.writer)
      && Error in s.conns[7].srv.down.sent && s.conns[7].srv.down.read.Pulling? && !S.CanMove(s.conns[7].srv)
  {
    var acts, s := ExampleRefused();
    hide S.Next, C.Next, Next, Run;
    RefusedIsIdle(s.conns[7].srv);
    SampleStop(s.conns[7].cli.(recv := [Error]));
    hide S.CanMove;
    acts, s := ThenDispatch(acts, s, Error);
    acts, s := ThenClient(acts, s, C.TakeEvent(None));
    acts, s := ThenClient(acts, s, C.TakeStop);
    assert OutOfReach(s.conns[7]);
  }

  lemma RefusedIsIdle(c: S.Conn)
    requires c == REFUSED.(up := REFUSED.up.(write := S.WriteDone(false)), down := REFUSED.down.(sent := [Error]))
    ensures !S.CanMove(c)
  {
  }

  lemma RestartStep(s: System)
    requires s.conns == map[7 := OPENED]
    ensures var s' := Next(s, ServerRestart);
      s'.conns == map[7 := Killed(OPENED)] && s'.air == s.air && !s'.known
  {
    hide Killed, StaleAll, Harmed, SendNext, BeginNext, AirNext, HandoffNext, PostNext;
  }

  lemma OpenedIsKilled()
    ensures Killed(OPENED).srv.killed && Mute(Killed(OPENED).srv) && !C.CanMove(Killed(OPENED).cli)
  {
  }

  lemma KilledIsIdle()
    ensures Killed(OPENED).handoffs == 0 && Killed(OPENED).cli == C.FRESH
  {
    hide S.Next;
  }

  lemma ThenRestart(acts: seq<Action>, s: System) returns (acts': seq<Action>, s': System)
    requires s == Run(INIT, acts) && s.conns == map[7 := OPENED] && s.air.None?
    ensures s' == Run(INIT, acts') && s'.conns == map[7 := Killed(OPENED)] && s'.air.None? && !s'.known
    ensures Killed(OPENED).srv.killed
  {
    hide Next, Killed;
    OpenedIsKilled();
    RestartStep(s);
    acts', s' := Then(acts, s, ServerRestart);
  }

  lemma ThenReopen(acts: seq<Action>, s: System) returns (acts': seq<Action>, s': System)
    requires s == Run(INIT, acts) && s.air.None?
    ensures s' == Run(INIT, acts') && s'.conns == s.conns && s'.air.None?
    ensures s'.live && s'.gen == s'.reading && s'.known && s'.queue == if s.known then [] else [ResetItem]
  {
    hide S.Next, C.Next;
    acts', s' := Then(acts, s, StreamDropped);
    acts', s' := Then(acts', s', StreamOpened);
  }
}
