/** The server relay's two tasks as they are written, each a loop over what its
    select yields, proved to be runs of the transition system
    (src/server.rs:624-750, 754-806). */
module ServerTasks {
  import opened Prelude
  import opened Events
  import opened S = ServerRelay

  /** One turn of the read task's loop, with the fate of the delivery it leads to. */
  datatype PullTurn =
    | Chunk(data: Bytes, sent: bool, lastSent: bool)
    | Eof(sent: bool)
    | Failure(sent: bool)
    | AbortFired
    | StreamDead(lastSent: bool)

  function Ending(sent: bool): Action {
    if sent then EndSent else EndUnsent
  }

  /** The transition system's account of a turn. */
  function PullActs(t: PullTurn): seq<Action> {
    match t
    case Chunk(d, sent, lastSent) =>
      if sent then [PullData(d), ChunkSent] else [PullData(d), ChunkUnsent, Unlink, Ending(lastSent)]
    case Eof(sent) => [PullEof, Ending(sent)] + (if sent then [] else [Unlink])
    case Failure(sent) => [PullError, Unlink, Ending(sent)] + (if sent then [] else [Unlink])
    case AbortFired => [HandleAbort, TakeAbort, Unlink]
    case StreamDead(lastSent) => [ReadWatchdog, Unlink, Ending(lastSent)]
  }

  function Play(c: Conn, turns: seq<PullTurn>): Conn
    decreases |turns|
  {
    if turns == [] || !c.down.read.Pulling? then c else Play(Run(c, PullActs(turns[0])), turns[1..])
  }

  lemma {:induction false} RunFrom(c: Conn, a: Action, rest: seq<Action>)
    ensures Run(c, [a] + rest) == Run(Next(c, a), rest)
  {
    assert ([a] + rest)[1..] == rest;
  }

  lemma RunOne(c: Conn, a: Action)
    ensures Run(c, [a]) == Next(c, a)
  {
    hide Next;
    RunFrom(c, a, []);
    assert [a] + [] == [a];
  }

  lemma RunTwo(c: Conn, a: Action, b: Action)
    ensures Run(c, [a, b]) == Next(Next(c, a), b)
  {
    hide Next;
    RunFrom(c, a, [b]);
    RunFrom(Next(c, a), b, []);
    assert [a] + [b] == [a, b] && [b] + [] == [b];
  }

  lemma RunThree(c: Conn, a: Action, b: Action, d: Action)
    ensures Run(c, [a, b, d]) == Next(Next(Next(c, a), b), d)
  {
    hide Next;
    RunFrom(c, a, [b, d]);
    RunTwo(Next(c, a), b, d);
    assert [a] + [b, d] == [a, b, d];
  }

  lemma RunFour(c: Conn, a: Action, b: Action, d: Action, e: Action)
    ensures Run(c, [a, b, d, e]) == Next(Next(Next(Next(c, a), b), d), e)
  {
    hide Next;
    RunFrom(c, a, [b, d, e]);
    RunThree(Next(c, a), b, d, e);
    assert [a] + [b, d, e] == [a, b, d, e];
  }

  function With(sent: seq<TunnelEvent>, more: bool, ev: TunnelEvent): seq<TunnelEvent> {
    if more then sent + [ev] else sent
  }

  /** The variables the read task leaves behind: what it enqueued, and whether
      it dropped the writer. */
  predicate Leaves(c: Conn, read: ReadTask, sent: seq<TunnelEvent>, linked: bool) {
    c.down.read == read && c.down.readSent == sent && c.up.linked == linked
  }

  lemma PullStep(c: Conn, d: Bytes)
    requires c.down.read.Pulling? && 0 < |d| <= READ_BUFFER
    ensures Leaves(Next(c, PullData(d)), SendingChunk(d), c.down.readSent, c.up.linked)
  {
  }

  lemma DeliveryStep(c: Conn)
    requires c.down.read.SendingChunk?
    ensures Leaves(Next(c, ChunkSent), Pulling, c.down.readSent + [Data(c.down.read.chunk)], c.up.linked)
    ensures Leaves(Next(c, ChunkUnsent), Unlinking(ClientGone), c.down.readSent, c.up.linked)
  {
  }

  lemma LeaveStep(c: Conn)
    requires c.down.read.Pulling?
    ensures Leaves(Next(c, PullEof), SendingEnd(Close, false), c.down.readSent, c.up.linked)
    ensures Leaves(Next(c, PullError), Unlinking(TargetFailed), c.down.readSent, c.up.linked)
    ensures Leaves(Next(c, ReadWatchdog), Unlinking(ClientGone), c.down.readSent, c.up.linked)
    ensures c.permit ==> Leaves(Next(c, TakeAbort), Unlinking(Aborted), c.down.readSent, c.up.linked)
  {
  }

  lemma AbortStep(c: Conn)
    requires c.inAborts || c.permit
    ensures var e := Next(c, HandleAbort); e.permit && Leaves(e, c.down.read, c.down.readSent, false)
  {
  }

  lemma UnlinkStep(c: Conn, why: Why)
    requires c.down.read == Unlinking(why)
    ensures Leaves(Next(c, Unlink), AfterUnlink(why), c.down.readSent, false)
  {
  }

  lemma EndStep(c: Conn, end: TunnelEvent, lastTry: bool)
    requires c.down.read == SendingEnd(end, lastTry)
    ensures Leaves(Next(c, EndSent), ReadDone, c.down.readSent + [end], c.up.linked)
    ensures Leaves(Next(c, EndUnsent), if lastTry then ReadDone else Unlinking(EndUndelivered), c.down.readSent,
      c.up.linked)
  {
  }

  lemma GoneSteps(c: Conn, lastSent: bool)
    requires c.down.read == Unlinking(ClientGone)
    ensures Leaves(Next(Next(c, Unlink), Ending(lastSent)), ReadDone, With(c.down.readSent, lastSent, Error), false)
  {
    hide Next;
    UnlinkStep(c, ClientGone);
    EndStep(Next(c, Unlink), Error, true);
  }

  lemma ChunkTurn(c: Conn, t: PullTurn)
    requires c.down.read.Pulling? && t.Chunk? && 0 < |t.data| <= READ_BUFFER
    ensures t.sent ==> Leaves(Run(c, PullActs(t)), Pulling, c.down.readSent + [Data(t.data)], c.up.linked)
    ensures !t.sent ==>
      Leaves(Run(c, PullActs(t)), ReadDone, With(c.down.readSent, t.lastSent, Error), false)
  {
    hide Next, Run;
    var c1 := Next(c, PullData(t.data));
    PullStep(c, t.data);
    DeliveryStep(c1);
    if t.sent {
      RunTwo(c, PullData(t.data), ChunkSent);
    } else {
      GoneSteps(Next(c1, ChunkUnsent), t.lastSent);
      RunFour(c, PullData(t.data), ChunkUnsent, Unlink, Ending(t.lastSent));
    }
  }

  lemma EofTurn(c: Conn, sent: bool)
    requires c.down.read.Pulling?
    ensures Leaves(Run(c, PullActs(Eof(sent))), ReadDone, With(c.down.readSent, sent, Close), sent && c.up.linked)
  {
    hide Next, Run;
    var c1 := Next(c, PullEof);
    LeaveStep(c);
    EndStep(c1, Close, false);
    if sent {
      assert [PullEof, EndSent] + [] == [PullEof, EndSent];
      RunTwo(c, PullEof, EndSent);
    } else {
      UnlinkStep(Next(c1, EndUnsent), EndUndelivered);
      assert [PullEof, EndUnsent] + [Unlink] == [PullEof, EndUnsent, Unlink];
      RunThree(c, PullEof, EndUnsent, Unlink);
    }
  }

  lemma FailureTurn(c: Conn, sent: bool)
    requires c.down.read.Pulling?
    ensures Leaves(Run(c, PullActs(Failure(sent))), ReadDone, With(c.down.readSent, sent, Error), false)
  {
    hide Next, Run;
    var c1 := Next(c, PullError);
    var c2 := Next(c1, Unlink);
    LeaveStep(c);
    UnlinkStep(c1, TargetFailed);
    EndStep(c2, Error, false);
    if sent {
      assert [PullError, Unlink, EndSent] + [] == [PullError, Unlink, EndSent];
      RunThree(c, PullError, Unlink, EndSent);
    } else {
      UnlinkStep(Next(c2, EndUnsent), EndUndelivered);
      assert [PullError, Unlink, EndUnsent] + [Unlink] == [PullError, Unlink, EndUnsent, Unlink];
      RunFour(c, PullError, Unlink, EndUnsent, Unlink);
    }
  }

  lemma AbortTurn(c: Conn)
    requires c.down.read.Pulling? && (c.inAborts || c.permit)
    ensures Leaves(Run(c, PullActs(AbortFired)), ReadDone, c.down.readSent, false)
  {
    hide Next, Run;
    var c1 := Next(c, HandleAbort);
    AbortStep(c);
    LeaveStep(c1);
    UnlinkStep(Next(c1, TakeAbort), Aborted);
    RunThree(c, HandleAbort, TakeAbort, Unlink);
  }

  lemma DeadTurn(c: Conn, lastSent: bool)
    requires c.down.read.Pulling?
    ensures Leaves(Run(c, PullActs(StreamDead(lastSent))), ReadDone, With(c.down.readSent, lastSent, Error), false)
  {
    hide Next, Run;
    LeaveStep(c);
    GoneSteps(Next(c, ReadWatchdog), lastSent);
    RunThree(c, ReadWatchdog, Unlink, Ending(lastSent));
  }

  lemma AbortsKept(c: Conn, t: PullTurn)
    requires t.Chunk? && t.sent && c.down.read.Pulling? && 0 < |t.data| <= READ_BUFFER
    ensures var e := Run(c, PullActs(t)); e.inAborts == c.inAborts && e.permit == c.permit
  {
    RunTwo(c, PullData(t.data), ChunkSent);
  }

  /** The read task. `linked` is what becomes of its `tcp_writers` entry. */
  method ReadTaskLoop(turns: seq<PullTurn>) returns (sent: seq<TunnelEvent>, linked: bool, finished: bool)
    requires forall t :: t in turns && t.Chunk? ==> 0 < |t.data| <= READ_BUFFER
    ensures var c := Play(FRESH, turns);
      sent == c.down.readSent && linked == c.up.linked && (finished <==> c.down.read.ReadDone?)
    ensures finished && linked ==> Close in sent
  {
    ghost var c := FRESH;
    sent, linked, finished := [], true, false;
    var clientGone, aborted := false, false;
    var readFailure, lastSent, endSent := false, false, false;
    var i := 0;
    while i < |turns| && !finished
      invariant 0 <= i <= |turns|
      invariant Play(c, turns[i..]) == Play(FRESH, turns)
      invariant c.down.readSent == sent && c.up.linked == linked
      invariant !finished ==> linked && c.inAborts && c.down.read.Pulling? && !clientGone && !aborted && !readFailure
      invariant finished ==> c.down.read.ReadDone? && (linked ==> Close in sent)
    {
      ghost var before := c;
      hide Run, PullActs;
      c := Run(c, PullActs(turns[i]));
      assert turns[i..][1..] == turns[i + 1..];
      match turns[i] {
        case Chunk(data, delivered, last) =>
          ChunkTurn(before, turns[i]);
          if delivered {
            AbortsKept(before, turns[i]);
            sent := sent + [Data(data)];
          } else {
            clientGone, lastSent, finished := true, last, true;
          }
        case Eof(delivered) =>
          EofTurn(before, delivered);
          endSent, finished := delivered, true;
        case Failure(delivered) =>
          FailureTurn(before, delivered);
          readFailure, endSent, finished := true, delivered, true;
        case AbortFired =>
          AbortTurn(before);
          aborted, finished := true, true;
        case StreamDead(last) =>
          DeadTurn(before, last);
          clientGone, lastSent, finished := true, last, true;
      }
      if finished {
        if aborted {
          linked := false;
        } else if clientGone {
          linked := false;
          if lastSent {
            sent := sent + [Error];
          }
        } else {
          if readFailure {
            linked := false;
          }
          if endSent {
            sent := sent + [if readFailure then Error else Close];
          } else {
            linked := false;
          }
        }
      }
      i := i + 1;
    }
  }

  /** One turn of the write task's loop, or one thing that happens to it. `Took`
      takes the channel's head; its `cut` is where the socket write failed, and
      `reported` whether the client could be told. */
  datatype WriteTurn =
    | Took(cut: Option<nat>, reported: bool)
    | ChannelClosed
    | WatchdogFired
    // the Data, Close and Abort handlers, and the read task's own turns
    | Offered(data: Bytes)
    | ClientCloses
    | ClientAborts
    | ReadTurn(turn: PullTurn)

  function WriteActs(c: Conn, t: WriteTurn): seq<Action> {
    match t
    case Took(cut, reported) =>
      if c.up.queue == [] || c.up.queue[0] == [] then [TakeWrite]
      else if cut.None? then [TakeWrite, TargetWrote(cut)]
      else [TakeWrite, TargetWrote(cut), UnlinkWriter, if reported then ReportSent else ReportUnsent]
    case ChannelClosed => [SeeClosed]
    case WatchdogFired => [WriteWatchdog]
    // A handler facing a full channel is still waiting.
    case Offered(data) =>
      if c.up.linked && |c.up.queue| >= WRITE_CHANNEL_CAPACITY then [] else [HandleData(data), Enqueue]
    case ClientCloses => [HandleClose]
    case ClientAborts => [HandleAbort]
    case ReadTurn(turn) => if c.down.read.Pulling? then PullActs(turn) else []
  }

  function PlayWrites(c: Conn, turns: seq<WriteTurn>): Conn
    decreases |turns|
  {
    if turns == [] || !c.up.write.Waiting? then c else PlayWrites(Run(c, WriteActs(c, turns[0])), turns[1..])
  }

  /** The upload side after the channel's head has been dealt with. */
  function Dealt(u: Upload, t: WriteTurn): Upload
    requires t.Took? && u.queue != []
  {
    var d := u.queue[0];
    if d == [] || t.cut.None? then u.(queue := u.queue[1..], targetWritten := u.targetWritten + d)
    else u.(queue := u.queue[1..], targetWritten := u.targetWritten + d[..Min(t.cut.value, |d|)],
            write := WriteDone(false), linked := false)
  }

  lemma TakeWriteStep(c: Conn)
    requires c.up.write.Waiting? && c.up.queue != []
    ensures var e := Next(c, TakeWrite);
      && e.up == c.up.(write := if c.up.queue[0] == [] then Waiting else WritingTarget(c.up.queue[0]),
        queue := c.up.queue[1..])
      && e.down == c.down
  {
  }

  lemma WrittenStep(c: Conn, cut: Option<nat>)
    requires c.up.write.WritingTarget?
    ensures var e, d := Next(c, TargetWrote(cut)), c.up.write.data;
      && e.up == c.up.(write := if cut.None? then Waiting else UnlinkingWriter,
                       targetWritten := c.up.targetWritten + (if cut.None? then d else d[..Min(cut.value, |d|)]))
      && e.down == c.down
  {
  }

  lemma ReportSteps(c: Conn, reported: bool)
    requires c.up.write.UnlinkingWriter?
    ensures var e := Next(Next(c, UnlinkWriter), if reported then ReportSent else ReportUnsent);
      e.up == c.up.(write := WriteDone(false), linked := false) && e.down.read == c.down.read
  {
    var c1 := Next(c, UnlinkWriter);
    assert c1.up == c.up.(write := ReportingWrite, linked := false) && c1.down == c.down;
  }

  lemma TookTurn(c: Conn, t: WriteTurn)
    requires c.up.write.Waiting? && t.Took? && c.up.queue != []
    ensures var e := Run(c, WriteActs(c, t)); e.up == Dealt(c.up, t) && e.down.read == c.down.read
  {
    hide Next;
    var d := c.up.queue[0];
    var c1 := Next(c, TakeWrite);
    TakeWriteStep(c);
    if d == [] {
      RunOne(c, TakeWrite);
      assert c.up.targetWritten + [] == c.up.targetWritten;
    } else {
      WrittenStep(c1, t.cut);
      if t.cut.None? {
        RunTwo(c, TakeWrite, TargetWrote(t.cut));
      } else {
        ReportSteps(Next(c1, TargetWrote(t.cut)), t.reported);
        RunFour(c, TakeWrite, TargetWrote(t.cut), UnlinkWriter, if t.reported then ReportSent else ReportUnsent);
      }
    }
  }

  lemma OneStepTurn(c: Conn, t: WriteTurn)
    requires c.up.write.Waiting? && c.up.handler.None?
    requires t.ChannelClosed? || t.WatchdogFired? || t.ClientCloses? || t.ClientAborts? || (t.Took? && c.up.queue == [])
    ensures var e := Run(c, WriteActs(c, t));
      && e.down == c.down && (c.inAborts || c.permit ==> e.inAborts || e.permit)
      && (t.ClientAborts? ==> e.up == c.up.(linked := false))
      && (t.Took? ==> e == c)
      && (t.ChannelClosed? ==> e.up == if c.up.queue == [] && !c.up.linked then c.up.(write := WriteDone(true))
        else c.up)
      && (t.WatchdogFired? ==> e.up == if c.down.read.ReadDone? then c.up.(write := WriteDone(false)) else c.up)
      && (t.ClientCloses? ==>
            e.up == c.up.(linked := false, atClose := if c.up.linked then Some(c.up.offered) else c.up.atClose))
  {
    RunOne(c, WriteActs(c, t)[0]);
  }

  lemma OfferedTurn(c: Conn, data: Bytes)
    requires c.up.write.Waiting? && c.up.handler.None?
    ensures var e := Run(c, WriteActs(c, Offered(data)));
      && e.down == c.down
      && e.up == if !c.up.linked then c.up.(offered := c.up.offered + data, discarded := true)
                 else if |c.up.queue| >= WRITE_CHANNEL_CAPACITY then c.up
                 else c.up.(queue := c.up.queue + [data], offered := c.up.offered + data)
  {
    RunTwo(c, HandleData(data), Enqueue);
  }

  /** The read task's steps, and the abort that ends it. */
  predicate IsReadSide(a: Action) {
    || a.PullData? || a.PullEof? || a.PullError? || a.TakeAbort? || a.ReadWatchdog? || a.ChunkSent? || a.ChunkUnsent?
    || a.EndSent? || a.EndUnsent? || a.Unlink? || a.HandleAbort?
  }

  lemma ReadSideFrame(c: Conn, a: Action)
    requires IsReadSide(a)
    ensures Next(c, a).up == c.up.(linked := Next(c, a).up.linked)
  {
  }

  lemma {:induction false} ReadSideRun(c: Conn, acts: seq<Action>)
    requires forall i :: 0 <= i < |acts| ==> IsReadSide(acts[i])
    ensures Run(c, acts).up == c.up.(linked := Run(c, acts).up.linked)
    decreases |acts|
  {
    hide Next;
    if acts != [] {
      ReadSideFrame(c, acts[0]);
      assert forall i :: 0 <= i < |acts| - 1 ==> acts[1..][i] == acts[i + 1];
      ReadSideRun(Next(c, acts[0]), acts[1..]);
    }
  }

  /** A turn of the read task, as the upload side sees it. */
  lemma ReadTurnFrame(c: Conn, t: PullTurn)
    requires c.down.read.Pulling? && (c.inAborts || c.permit) && (t.Chunk? ==> 0 < |t.data| <= READ_BUFFER)
    ensures var e := Run(c, WriteActs(c, ReadTurn(t)));
      && e.up == c.up.(linked := c.up.linked && (t.Chunk? || t.Eof?) && t.sent)
      && (if t.Chunk? && t.sent then e.down.read == Pulling && (e.inAborts || e.permit) else e.down.read == ReadDone)
  {
    ReadSideRun(c, PullActs(t));
    hide Run, PullActs;
    match t
    case Chunk(_, sent, _) =>
      ChunkTurn(c, t);
      if sent {
        AbortsKept(c, t);
      }
    case Eof(sent) => EofTurn(c, sent);
    case Failure(sent) => FailureTurn(c, sent);
    case AbortFired => AbortTurn(c);
    case StreamDead(last) => DeadTurn(c, last);
  }

  lemma ReadTurnAfterEnd(c: Conn, t: PullTurn)
    requires !c.down.read.Pulling?
    ensures Run(c, WriteActs(c, ReadTurn(t))) == c
  {
  }

  lemma AbortsApart(c: Conn, t: WriteTurn)
    requires c.up.write.Waiting? && c.up.handler.None? && (t.Took? || t.Offered?) && (c.inAborts || c.permit)
    ensures var e := Run(c, WriteActs(c, t)); e.inAborts || e.permit
  {
    var acts := WriteActs(c, t);
    AbortsRun(c, acts);
  }

  lemma {:induction false} AbortsRun(c: Conn, acts: seq<Action>)
    requires c.inAborts || c.permit
    requires forall i :: 0 <= i < |acts| ==> !acts[i].TakeAbort? && !acts[i].JoinTasks? && !acts[i].Kill?
    ensures Run(c, acts).inAborts || Run(c, acts).permit
    decreases |acts|
  {
    if acts != [] {
      AbortsRun(Next(c, acts[0]), acts[1..]);
    }
  }

  lemma PlayWritesStep(c: Conn, turns: seq<WriteTurn>, i: nat)
    requires i < |turns| && c.up.write.Waiting?
    ensures PlayWrites(c, turns[i..]) == PlayWrites(Run(c, WriteActs(c, turns[i])), turns[i + 1..])
  {
    hide Run, WriteActs;
    assert turns[i..][0] == turns[i] && turns[i..][1..] == turns[i + 1..];
  }

  lemma FreshFields()
    ensures FRESH.up.targetWritten == [] && FRESH.up.queue == [] && FRESH.up.linked
    ensures FRESH.up.write.Waiting? && FRESH.up.handler.None? && FRESH.up.offered == []
    ensures FRESH.down.read.Pulling? && FRESH.inAborts
  {
  }

  lemma WritesEnd(c: Conn, turns: seq<WriteTurn>, i: nat)
    requires i <= |turns| && (i == |turns| || !c.up.write.Waiting?)
    ensures PlayWrites(c, turns[i..]) == c
  {
  }

  lemma WrittenFacts(c: Conn)
    requires Inv(c)
    ensures c.up.targetWritten <= c.up.offered
    ensures c.up.write == WriteDone(true) && c.up.atClose.Some? ==> c.up.targetWritten == c.up.atClose.value
  {
    hide ResponseInv, TeardownInv, Pipe;
  }

  /** `TookTurn`, variable by variable. */
  lemma TookFields(c: Conn, t: WriteTurn)
    requires c.up.write.Waiting? && t.Took? && c.up.queue != []
    ensures var u, v, d := c.up, Run(c, WriteActs(c, t)).up, c.up.queue[0];
      && v.queue == u.queue[1..] && v.handler == u.handler && v.atClose == u.atClose && v.offered == u.offered
      && (d == [] || t.cut.None? ==>
            v.targetWritten == u.targetWritten + d && v.write == u.write && v.linked == u.linked)
      && (d != [] && t.cut.Some? ==>
            v.targetWritten == u.targetWritten + d[..Min(t.cut.value, |d|)] && v.write == WriteDone(false) && !v.linked)
    ensures Run(c, WriteActs(c, t)).down.read == c.down.read
  {
    hide Run, WriteActs;
    TookTurn(c, t);
  }

  /** The write task, beside the handlers that feed and close its channel and the
      read task. What reaches the target is a prefix of what the channel accepted,
      and when it ends because the channel closed, exactly that; in
      particular what the Data handlers were given before the client's `Close`. */
  method WriteTaskLoop(turns: seq<WriteTurn>)
    returns (written: Bytes, accepted: Bytes, linked: bool, drained: bool, over: bool)
    requires forall t :: t in turns && t.ReadTurn? && t.turn.Chunk? ==> 0 < |t.turn.data| <= READ_BUFFER
    ensures var e := PlayWrites(FRESH, turns);
      && written == e.up.targetWritten && linked == e.up.linked
      && (over <==> e.up.write.WriteDone?) && (drained <==> e.up.write == WriteDone(true))
      && accepted <= e.up.offered && (drained && e.up.atClose.Some? ==> e.up.atClose == Some(written))
    ensures written <= accepted && (drained ==> written == accepted && over && !linked)
  {
    ghost var c := FRESH;
    var rest: seq<Bytes>, armed := [], false;
    written, accepted, linked, drained, over := [], [], true, false, false;
    FreshInv();
    FreshFields();
    FlattenNone();
    hide *;
    assert turns[0..] == turns;
    var i := 0;
    while i < |turns| && !over
      invariant 0 <= i <= |turns|
      invariant PlayWrites(c, turns[i..]) == PlayWrites(FRESH, turns)
      invariant Inv(c)
      invariant written == c.up.targetWritten && rest == c.up.queue && linked == c.up.linked
      invariant armed <==> c.down.read.ReadDone?
      invariant !armed ==> c.down.read.Pulling? && (c.inAborts || c.permit)
      invariant (drained <==> c.up.write == WriteDone(true)) && (over <==> c.up.write.WriteDone?)
      invariant !over ==> c.up.write.Waiting? && c.up.handler.None?
      invariant drained ==> !linked && rest == []
      invariant !over || drained ==> written + Flatten(rest) == accepted
      invariant written <= accepted <= c.up.offered && (linked ==> accepted == c.up.offered)
    {
      PlayWritesStep(c, turns, i);
      ghost var before := c;
      c := Run(c, WriteActs(c, turns[i]));
      RunKeepsInv(before, WriteActs(before, turns[i]));
      match turns[i] {
        case Took(cut, reported) =>
          if !armed {
            AbortsApart(before, turns[i]);
          }
          if rest == [] {
            OneStepTurn(before, turns[i]);
          } else {
            TookFields(before, turns[i]);
            FlattenFirst(rest);
            var data := rest[0];
            rest := rest[1..];
            ConcatAssoc(written, data, Flatten(rest));
            if data != [] && cut.Some? {
              CutWithin(written, data, Min(cut.value, |data|), Flatten(rest));
              written := written + data[..Min(cut.value, |data|)];
              linked, over := false, true;
            } else {
              written := written + data;
            }
          }
        case ChannelClosed =>
          OneStepTurn(before, turns[i]);
          if rest == [] && !linked {
            drained, over := true, true;
          }
        case WatchdogFired =>
          OneStepTurn(before, turns[i]);
          over := armed;
        case Offered(data) =>
          if !armed {
            AbortsApart(before, turns[i]);
          }
          OfferedTurn(before, data);
          if linked && |rest| < WRITE_CHANNEL_CAPACITY {
            FlattenSnoc(rest, data);
            ConcatAssoc(written, Flatten(rest), data);
            rest := rest + [data];
            accepted := accepted + data;
          }
        case ClientCloses =>
          OneStepTurn(before, turns[i]);
          linked := false;
        case ClientAborts =>
          OneStepTurn(before, turns[i]);
          linked := false;
        case ReadTurn(turn) =>
          if armed {
            ReadTurnAfterEnd(before, turn);
          } else {
            assert turns[i] in turns;
            ReadTurnFrame(before, turn);
            match turn {
              case Chunk(_, sent, _) =>
                linked, armed := linked && sent, !sent;
              case Eof(sent) =>
                linked, armed := linked && sent, true;
              case _ =>
                linked, armed := false, true;
            }
          }
      }
      i := i + 1;
    }
    WritesEnd(c, turns, i);
    WrittenFacts(c);
    FlattenNone();
    assert drained ==> written + [] == written;
  }

  lemma FlattenFirst(chunks: seq<Bytes>)
    requires chunks != []
    ensures Flatten(chunks) == chunks[0] + Flatten(chunks[1..])
  {
  }

  lemma CutWithin(a: Bytes, d: Bytes, k: nat, rest: Bytes)
    requires k <= |d|
    ensures a + d[..k] <= a + (d + rest)
  {
  }
}
