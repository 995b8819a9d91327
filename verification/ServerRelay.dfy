/** One server-side relay: the read task (target to client), the write task
    (client to target), the two session entries that tie them together, and the
    `handle_send` arms that reach them (src/server.rs:382-416, 607-825). */
module ServerRelay {
  import opened Prelude
  import opened Events

  const READ_BUFFER: nat := 32768
  const WRITE_CHANNEL_CAPACITY: nat := 256

  /** Why the read task is dropping the connection's writer. */
  datatype Why = Aborted | ClientGone | TargetFailed | EndUndelivered

  datatype ReadTask =
    | Pulling
    | SendingChunk(chunk: Bytes)
    | Unlinking(why: Why)
    | SendingEnd(end: TunnelEvent, lastTry: bool)
    | ReadDone

  datatype WriteTask =
    | Waiting
    | WritingTarget(data: Bytes)
    | UnlinkingWriter
    | ReportingWrite
    | WriteDone(drained: bool)

  /** Target to client: the read task and what it has enqueued. */
  datatype Download = Download(
    read: ReadTask,
    targetRead: Bytes,             // every byte read from the target
    targetEof: bool,               // the target closed its output
    sent: seq<TunnelEvent>,        // everything enqueued for the client
    readSent: seq<TunnelEvent>)    // the part of it the read task enqueued

  /** Client to target: the write task, its channel, and the Data handler. */
  datatype Upload = Upload(
    write: WriteTask,
    queue: seq<Bytes>,
    targetWritten: Bytes,          // every byte the target's socket accepted
    linked: bool,                  // the conn_id is a key of `tcp_writers`
    handler: Option<Bytes>,        // a Data handler holding a cloned sender
    offered: Bytes,                // the data of every Data message applied
    discarded: bool,               // some of it found no writer
    atClose: Option<Bytes>)        // `offered` when the client's Close removed the writer

  datatype Conn = Conn(
    down: Download,
    up: Upload,
    inAborts: bool,                // the conn_id is a key of `aborts`
    permit: bool,                  // the abort `Notify` holds a permit
    joined: bool,                  // both tasks ended and the entries were cleaned up
    killed: bool)                  // the server process is gone

  const FRESH := Conn(
    Download(Pulling, [], false, [], []),
    Upload(Waiting, [], [], true, None, [], false, None),
    true, false, false, false)

  datatype Action =
    // the target
    | PullData(chunk: Bytes)
    | PullEof
    | PullError
    | TargetWrote(cut: Option<nat>)
    // the read task
    | TakeAbort
    | ReadWatchdog
    | ChunkSent
    | ChunkUnsent
    | EndSent
    | EndUnsent
    | Unlink
    // the write task
    | TakeWrite
    | SeeClosed
    | WriteWatchdog
    | UnlinkWriter
    | ReportSent
    | ReportUnsent
    // the end of the relay
    | JoinTasks
    // handle_send
    | HandleData(data: Bytes)
    | Enqueue
    | ReceiverGone
    | Cancel
    | HandleClose
    | HandleAbort
    // the process
    | Kill

  // ---------------------------------------------------------------- transitions

  predicate Enabled(c: Conn, a: Action) {
    match a
    case PullData(d) => c.down.read.Pulling? && 0 < |d| <= READ_BUFFER
    case PullEof => c.down.read.Pulling?
    case PullError => c.down.read.Pulling?
    case TakeAbort => c.down.read.Pulling? && c.permit
    case ReadWatchdog => c.down.read.Pulling?
    case ChunkSent => c.down.read.SendingChunk?
    case ChunkUnsent => c.down.read.SendingChunk?
    case EndSent => c.down.read.SendingEnd?
    case EndUnsent => c.down.read.SendingEnd?
    case Unlink => c.down.read.Unlinking?
    case TakeWrite => c.up.write.Waiting? && c.up.queue != []
    case TargetWrote(_) => c.up.write.WritingTarget?
    // `recv` yields nothing only when every sender is gone: the map entry and
    // any clone a Data handler still holds.
    case SeeClosed => c.up.write.Waiting? && c.up.queue == [] && !c.up.linked && c.up.handler.None?
    // Armed only once the read task has dropped its end of the one-shot.
    case WriteWatchdog => c.up.write.Waiting? && c.down.read.ReadDone?
    case UnlinkWriter => c.up.write.UnlinkingWriter?
    case ReportSent => c.up.write.ReportingWrite?
    case ReportUnsent => c.up.write.ReportingWrite?
    case JoinTasks => c.down.read.ReadDone? && c.up.write.WriteDone? && !c.joined
    case HandleData(_) => c.up.handler.None?
    case Enqueue => c.up.handler.Some? && !c.up.write.WriteDone? && |c.up.queue| < WRITE_CHANNEL_CAPACITY
    case ReceiverGone => c.up.handler.Some? && c.up.write.WriteDone?
    case Cancel => c.up.handler.Some?
    case HandleClose => true
    case HandleAbort => true
    case Kill => !c.killed
  }

  function Emit(d: Download, ev: TunnelEvent, byRead: bool): Download {
    d.(sent := d.sent + [ev], readSent := if byRead then d.readSent + [ev] else d.readSent)
  }

  /** The read task after it has taken the session lock to drop the writer. */
  function AfterUnlink(why: Why): ReadTask {
    match why
    case Aborted => ReadDone
    case ClientGone => SendingEnd(Error, true)
    case TargetFailed => SendingEnd(Error, false)
    case EndUndelivered => ReadDone
  }

  function DownNext(d: Download, a: Action): Download
    requires a.ChunkSent? ==> d.read.SendingChunk?
    requires a.EndSent? || a.EndUnsent? ==> d.read.SendingEnd?
    requires a.Unlink? ==> d.read.Unlinking?
  {
    match a
    case PullData(chunk) => d.(read := SendingChunk(chunk), targetRead := d.targetRead + chunk)
    case PullEof => d.(read := SendingEnd(Close, false), targetEof := true)
    case PullError => d.(read := Unlinking(TargetFailed))
    case TakeAbort => d.(read := Unlinking(Aborted))
    case ReadWatchdog => d.(read := Unlinking(ClientGone))
    case ChunkSent => Emit(d, Data(d.read.chunk), true).(read := Pulling)
    case ChunkUnsent => d.(read := Unlinking(ClientGone))
    case EndSent => Emit(d, d.read.end, true).(read := ReadDone)
    case EndUnsent => d.(read := if d.read.lastTry then ReadDone else Unlinking(EndUndelivered))
    case Unlink => d.(read := AfterUnlink(d.read.why))
    case ReportSent => Emit(d, Error, false)
    case Kill => d.(read := ReadDone)
    case _ => d
  }

  function UpNext(u: Upload, a: Action): Upload
    requires a.TakeWrite? ==> u.queue != []
    requires a.TargetWrote? ==> u.write.WritingTarget?
    requires a.Enqueue? || a.ReceiverGone? ==> u.handler.Some?
  {
    match a
    case Unlink => u.(linked := false)
    case TakeWrite =>
      u.(write := if u.queue[0] == [] then Waiting else WritingTarget(u.queue[0]), queue := u.queue[1..])
    case TargetWrote(cut) =>
      if cut.None? then u.(targetWritten := u.targetWritten + u.write.data, write := Waiting)
      else u.(targetWritten := u.targetWritten + u.write.data[..Min(cut.value, |u.write.data|)],
        write := UnlinkingWriter)
    case SeeClosed => u.(write := WriteDone(true))
    case WriteWatchdog => u.(write := WriteDone(false))
    case UnlinkWriter => u.(write := ReportingWrite, linked := false)
    case ReportSent => u.(write := WriteDone(false))
    case ReportUnsent => u.(write := WriteDone(false))
    case JoinTasks => u.(linked := false)
    // The lookup clones the sender; with none registered the data is dropped.
    case HandleData(data) =>
      if u.linked then u.(handler := Some(data)) else u.(offered := u.offered + data, discarded := true)
    case Enqueue =>
      u.(handler := None, queue := u.queue + [u.handler.value], offered := u.offered + u.handler.value)
    case ReceiverGone => u.(handler := None, offered := u.offered + u.handler.value, discarded := true)
    case Cancel => u.(handler := None)
    case HandleClose =>
      u.(linked := false, atClose := if u.linked && u.handler.None? then Some(u.offered) else u.atClose)
    case HandleAbort => u.(linked := false)
    case Kill => u.(write := WriteDone(false), linked := false, handler := None, discarded := true)
    case _ => u
  }

  function Next(c: Conn, a: Action): Conn {
    if !Enabled(c, a) then c else
    Conn(
      DownNext(c.down, a),
      UpNext(c.up, a),
      c.inAborts && !a.HandleAbort? && !a.JoinTasks? && !a.Kill?,
      if a.HandleAbort? then c.permit || c.inAborts else c.permit && !a.TakeAbort? && !a.Kill?,
      c.joined || a.JoinTasks? || a.Kill?,
      c.killed || a.Kill?)
  }

  function Run(c: Conn, acts: seq<Action>): Conn
    decreases |acts|
  {
    if acts == [] then c else Run(Next(c, acts[0]), acts[1..])
  }

  // ------------------------------------------------------------------ invariant

  /** The response: what was enqueued is what was read, in order, and a `Close`
      vouches for all of it. */
  ghost predicate ResponseInv(d: Download) {
    && Ordered(d.sent) == Ordered(d.readSent)
    && WellEnded(Ordered(d.sent))
    && (forall i :: 0 <= i < |d.sent| && d.sent[i].Data? ==> d.sent[i].bytes != [])
    && (d.read.SendingChunk? ==> d.read.chunk != [])
    && DataBytes(d.sent) <= d.targetRead
    && (Close in d.sent ==> d.targetEof && DataBytes(d.sent) == d.targetRead)
    && (!d.read.ReadDone? ==> Close !in d.sent)
    && (d.read.Pulling? ==> DataBytes(d.sent) == d.targetRead && !d.targetEof)
    && (d.read.SendingChunk? ==> DataBytes(d.sent) + d.read.chunk == d.targetRead && !d.targetEof)
    && (d.read.SendingEnd? ==>
          || (d.read.end.Close? && !d.read.lastTry && d.targetEof && DataBytes(d.sent) == d.targetRead)
          || d.read.end.Error?)
  }

  predicate Draining(u: Upload) {
    u.write.Waiting? || u.write.WritingTarget?
  }

  /** The upload bytes written, being written, and queued. */
  function Pipe(u: Upload): Bytes {
    u.targetWritten + (if u.write.WritingTarget? then u.write.data else []) + Flatten(u.queue)
  }

  ghost predicate UploadInv(u: Upload) {
    && u.targetWritten <= u.offered
    && (Draining(u) ==> Pipe(u) <= u.offered)
    && (Draining(u) && !u.discarded ==> Pipe(u) == u.offered)
    && (Draining(u) && u.discarded ==> !u.linked && u.handler.None?)
    && (u.write == WriteDone(true) || u.write.ReportingWrite? ==> !u.linked)
    && (u.write == WriteDone(true) ==> u.handler.None? && (!u.discarded ==> u.targetWritten == u.offered))
    && |u.queue| <= WRITE_CHANNEL_CAPACITY
    && (u.atClose.Some? ==>
          && !u.linked && u.handler.None?
          && (Draining(u) ==> Pipe(u) == u.atClose.value)
          && (u.write == WriteDone(true) ==> u.targetWritten == u.atClose.value))
  }

  /** A finished read task leaves its writer registered only behind a `Close`. */
  ghost predicate TeardownInv(c: Conn) {
    && (c.down.read.ReadDone? && c.up.linked ==> Close in c.down.sent)
    && (c.down.read.SendingEnd? && c.down.read.end.Error? ==> !c.up.linked)
    && (c.joined ==> c.down.read.ReadDone? && c.up.write.WriteDone? && !c.up.linked && !c.inAborts)
    && (c.inAborts ==> !c.permit)
    && (c.killed ==> c.joined)
    && (!LeftLoop(c.down) ==> c.inAborts || c.permit)
    && (!c.down.read.ReadDone? && c.up.linked ==> Served(c.up))
  }

  /** Somebody reads the upload channel. */
  predicate Served(u: Upload) {
    Draining(u) || u.write.UnlinkingWriter?
  }

  predicate LeftLoop(d: Download) {
    !d.read.Pulling? && !d.read.SendingChunk?
  }

  ghost predicate Inv(c: Conn) {
    ResponseInv(c.down) && UploadInv(c.up) && TeardownInv(c)
  }

  lemma WellEndedSnoc(evs: seq<TunnelEvent>, ev: TunnelEvent)
    requires WellEnded(evs) && Close !in evs && (ev.Data? || ev.Close?)
    ensures WellEnded(evs + [ev])
  {
    assert forall i :: 0 <= i < |evs| ==> evs[i] in evs;
  }

  lemma EmitFacts(d: Download, ev: TunnelEvent, byRead: bool)
    requires ResponseInv(d) && (!byRead ==> ev.Error?)
    requires byRead ==> !d.read.ReadDone? && !ev.Exit?
    ensures var e := Emit(d, ev, byRead);
      && Ordered(e.sent) == Ordered(e.readSent) && WellEnded(Ordered(e.sent))
      && DataBytes(e.sent) == DataBytes(d.sent) + (if ev.Data? then ev.bytes else [])
      && (Close in e.sent <==> Close in d.sent || ev.Close?)
  {
    OrderedAppend(d.sent, [ev]);
    OrderedAppend(d.readSent, [ev]);
    DataBytesAppend(d.sent, [ev]);
    DataBytesOrdered(d.sent);
    assert Ordered([ev]) == if ev.Error? then [] else [ev];
    if !ev.Error? {
      WellEndedSnoc(Ordered(d.sent), ev);
    } else {
      assert Ordered(d.sent) + [] == Ordered(d.sent);
      assert Ordered(d.readSent) + [] == Ordered(d.readSent);
    }
  }

  lemma DownKeepsInv(c: Conn, a: Action)
    requires ResponseInv(c.down) && Enabled(c, a)
    ensures ResponseInv(DownNext(c.down, a))
  {
    hide WellEnded, Ordered, DataBytes;
    if a.ChunkSent? {
      EmitFacts(c.down, Data(c.down.read.chunk), true);
    } else if a.EndSent? {
      EmitFacts(c.down, c.down.read.end, true);
    } else if a.ReportSent? {
      EmitFacts(c.down, Error, false);
    }
  }

  lemma EnqueueKeepsUpload(u: Upload)
    requires UploadInv(u) && u.handler.Some? && |u.queue| < WRITE_CHANNEL_CAPACITY
    ensures UploadInv(UpNext(u, Enqueue))
  {
    FlattenSnoc(u.queue, u.handler.value);
    assert Draining(u) ==> Pipe(UpNext(u, Enqueue)) == Pipe(u) + u.handler.value;
  }

  lemma WrittenKeepsUpload(u: Upload, cut: Option<nat>)
    requires UploadInv(u) && u.write.WritingTarget?
    ensures UploadInv(UpNext(u, TargetWrote(cut)))
  {
    var u' := UpNext(u, TargetWrote(cut));
    if cut.None? {
      assert Pipe(u') == Pipe(u);
      PrefixTrans(u'.targetWritten, Pipe(u), u.offered);
    } else {
      PrefixTrans(u'.targetWritten, Pipe(u), u.offered);
    }
  }

  lemma TakenKeepsUpload(u: Upload)
    requires UploadInv(u) && u.write.Waiting? && u.queue != []
    ensures UploadInv(UpNext(u, TakeWrite))
  {
    assert Pipe(UpNext(u, TakeWrite)) == Pipe(u);
  }

  lemma UpKeepsInv(c: Conn, a: Action)
    requires UploadInv(c.up) && Enabled(c, a)
    ensures UploadInv(UpNext(c.up, a))
  {
    hide Flatten;
    var u' := UpNext(c.up, a);
    match a
    case Enqueue => EnqueueKeepsUpload(c.up);
    case TargetWrote(cut) => WrittenKeepsUpload(c.up, cut);
    case TakeWrite => TakenKeepsUpload(c.up);
    case SeeClosed => assert Pipe(c.up) == c.up.targetWritten by { assert Flatten([]) == [] by { FlattenNone(); } }
    case _ => assert Draining(u') ==> Pipe(u') == Pipe(c.up);
  }

  lemma EndKinds(d: Download)
    requires ResponseInv(d)
    ensures d.read.SendingEnd? ==> d.read.end.Close? || d.read.end.Error?
  {
    hide WellEnded, Ordered, DataBytes;
  }

  lemma TeardownKept(c: Conn, a: Action)
    requires Inv(c)
    ensures TeardownInv(Next(c, a))
  {
    if Enabled(c, a) {
      if a.ReportSent? || a.EndSent? || a.ChunkSent? {
        TeardownWhenEmitted(c, a);
      } else if IsLate(a) || a.Enqueue? || a.ReceiverGone? || a.Cancel? {
        hide ResponseInv, UploadInv;
      } else if UsesUpload(a) || a.JoinTasks? || a.Kill? {
        TeardownOfUpload(c, a);
      } else {
        TeardownOfRead(c, a);
      }
    }
  }

  lemma TeardownOfRead(c: Conn, a: Action)
    requires Inv(c) && Enabled(c, a) && !IsLate(a) && !UsesUpload(a) && !a.JoinTasks? && !a.Kill?
    requires !a.EndSent? && !a.ChunkSent?
    ensures TeardownInv(Next(c, a))
  {
    EndKinds(c.down);
    hide ResponseInv, UploadInv;
  }

  lemma TeardownOfUpload(c: Conn, a: Action)
    requires Inv(c) && Enabled(c, a) && (UsesUpload(a) || a.JoinTasks? || a.Kill?) && !a.ReportSent?
    ensures TeardownInv(Next(c, a))
  {
    hide ResponseInv, Min, Flatten, Pipe;
  }

  lemma TeardownWhenEmitted(c: Conn, a: Action)
    requires Inv(c) && Enabled(c, a) && (a.ReportSent? || a.EndSent? || a.ChunkSent?)
    ensures TeardownInv(Next(c, a))
  {
    EndKinds(c.down);
    hide ResponseInv, UploadInv;
    assert forall ev :: Close in c.down.sent ==> Close in c.down.sent + [ev];
  }

  lemma NextKeepsInv(c: Conn, a: Action)
    requires Inv(c)
    ensures Inv(Next(c, a))
  {
    if Enabled(c, a) {
      DownKeepsInv(c, a);
      UpKeepsInv(c, a);
      TeardownKept(c, a);
    }
  }

  lemma {:induction false} RunKeepsInv(c: Conn, acts: seq<Action>)
    requires Inv(c)
    ensures Inv(Run(c, acts))
    decreases |acts|
  {
    if acts != [] {
      NextKeepsInv(c, acts[0]);
      RunKeepsInv(Next(c, acts[0]), acts[1..]);
    }
  }

  lemma {:induction false} FreshInv()
    ensures Inv(FRESH)
  {
    assert Pipe(FRESH.up) == [];
  }

  // -------------------------------------------------------------- what it gives

  /** The response as the server reports it: a prefix of what the target sent,
      closed only when it is all of it and the target itself closed. */
  lemma ResponseIsHonest(acts: seq<Action>)
    ensures var d := Run(FRESH, acts).down;
      && DataBytes(d.sent) <= d.targetRead
      && (Close in d.sent ==> d.targetEof && DataBytes(d.sent) == d.targetRead)
  {
    FreshInv();
    RunKeepsInv(FRESH, acts);
  }

  /** The upload as the target receives it: never a gap, and complete when the
      write task ended because the client's own `Close` dropped the writer. It ends
      so only when no handler holds data for it any more, having written all that
      was applied unless some found no writer. Its channel is bounded. */
  lemma UploadIsIntact(acts: seq<Action>)
    ensures var u := Run(FRESH, acts).up;
      && u.targetWritten <= u.offered
      && (u.write == WriteDone(true) && u.atClose.Some? ==> u.targetWritten == u.atClose.value)
      && (u.write == WriteDone(true) ==> u.handler.None? && (!u.discarded ==> u.targetWritten == u.offered))
      && |u.queue| <= WRITE_CHANNEL_CAPACITY
  {
    FreshInv();
    RunKeepsInv(FRESH, acts);
  }

  /** A read task that has ended while its writer is still registered has told
      the client everything, and the write side's watchdog is armed; a relay
      that has returned left neither session entry behind. Until the read task has
      ended, a registered writer has a write task that reads it, or that has just
      failed and is about to drop it: its watchdog does not fire before. */
  lemma TeardownIsBounded(acts: seq<Action>)
    ensures var c := Run(FRESH, acts);
      && (c.down.read.ReadDone? && c.up.linked ==>
            Close in c.down.sent && (c.up.write.Waiting? ==> Enabled(c, WriteWatchdog)))
      && (c.joined ==> !c.up.linked && !c.inAborts && c.down.read.ReadDone? && c.up.write.WriteDone?)
      && (c.up.linked && !c.down.read.ReadDone? ==> Draining(c.up) || c.up.write.UnlinkingWriter?)
  {
    FreshInv();
    RunKeepsInv(FRESH, acts);
  }

  /** An abort permit stays pending until the read task takes it or has left its
      loop for another reason. */
  lemma {:induction false} AbortIsPermanent(c: Conn, acts: seq<Action>)
    requires c.permit || LeftLoop(c.down)
    ensures Run(c, acts).permit || LeftLoop(Run(c, acts).down)
    decreases |acts|
  {
    if acts != [] {
      AbortIsPermanent(Next(c, acts[0]), acts[1..]);
    }
  }

  /** An exit the abort selected says nothing more to the client. */
  lemma {:induction false} AbortedReadIsSilent(c: Conn, acts: seq<Action>)
    requires c.down.read == Unlinking(Aborted) || c.down.read.ReadDone?
    ensures Run(c, acts).down.readSent == c.down.readSent
    ensures Run(c, acts).down.targetRead == c.down.targetRead
    decreases |acts|
  {
    if acts != [] {
      AbortedReadIsSilent(Next(c, acts[0]), acts[1..]);
    }
  }

  /** The Abort handler's promise, for a relay still in its loop: whatever
      happens next, the read task either still has the permit to take or is on
      its way out, the writer is gone for good. */
  lemma AbortReleasesTarget(c: Conn, acts: seq<Action>)
    requires Inv(c) && c.inAborts
    ensures var e := Run(Next(c, HandleAbort), acts);
      && (e.permit || LeftLoop(e.down))
      && !e.up.linked
  {
    AbortIsPermanent(Next(c, HandleAbort), acts);
    UnlinkedStays(Next(c, HandleAbort), acts);
  }

  lemma {:induction false} UnlinkedStays(c: Conn, acts: seq<Action>)
    requires !c.up.linked
    ensures !Run(c, acts).up.linked
    decreases |acts|
  {
    if acts != [] {
      UnlinkedStays(Next(c, acts[0]), acts[1..]);
    }
  }

  /** A client found unreachable is told of the end in a single attempt; one whose
      target failed, with a full budget. */
  lemma OneTryForTheGone(c: Conn, a: Action)
    requires Enabled(c, a) && (a.PullError? || a.ReadWatchdog? || a.ChunkUnsent?)
    ensures var e := Next(Next(c, a), Unlink);
      && e.down.read.SendingEnd? && e.down.read.end.Error?
      && (Next(e, EndUnsent).down.read.ReadDone? <==> !a.PullError?)
  {
  }

  // ------------------------------------------------------ what an `Error` promises

  /** The action enqueues an `Error`. */
  predicate Reports(c: Conn, a: Action) {
    Enabled(c, a) && (a.ReportSent? || (a.EndSent? && c.down.read.end.Error?))
  }

  /** What makes the read task leave its loop: the target's own end or failure, a
      client that is gone or has aborted, the end of the process. */
  predicate Quits(a: Action) {
    a.PullEof? || a.PullError? || a.ReadWatchdog? || a.ChunkUnsent? || a.TakeAbort? || a.Kill?
  }

  lemma LoopIsLeftExactly(c: Conn, a: Action)
    ensures LeftLoop(Next(c, a).down) <==> LeftLoop(c.down) || (Quits(a) && Enabled(c, a))
  {
  }

  lemma {:induction false} LoopGoesOn(c: Conn, acts: seq<Action>)
    requires forall i :: 0 <= i < |acts| ==> !Quits(acts[i])
    ensures LeftLoop(Run(c, acts).down) <==> LeftLoop(c.down)
    decreases |acts|
  {
    hide Next, LeftLoop, Quits;
    if acts != [] {
      LoopIsLeftExactly(c, acts[0]);
      LoopGoesOn(Next(c, acts[0]), acts[1..]);
    }
  }

  /** In every run, an `Error` means that nothing more can be uploaded. It means that
      the target's output has been let go of exactly if the read task sent it or
      had left its loop before: otherwise the target stays held until it ends by
      itself, the client is found gone or aborts, or the process dies. */
  lemma ErrorReleasesExactly(before: seq<Action>, a: Action, after: seq<Action>)
    requires Reports(Run(FRESH, before), a)
    requires forall i :: 0 <= i < |after| ==> !Quits(after[i])
    ensures var c := Run(FRESH, before);
      && Next(c, a).down.sent == c.down.sent + [Error]
      && !Run(Next(c, a), after).up.linked
      && (LeftLoop(Run(Next(c, a), after).down) <==> a.EndSent? || LeftLoop(c.down))
  {
    hide Run, ResponseInv;
    FreshInv();
    RunKeepsInv(FRESH, before);
    var c := Run(FRESH, before);
    UnlinkedStays(Next(c, a), after);
    LoopGoesOn(Next(c, a), after);
  }

  // ------------------------------------------------------------- nothing parks

  function ReadRank(r: ReadTask): nat {
    match r
    case SendingChunk(_) => 7
    case Pulling => 6
    case Unlinking(why) => if why.ClientGone? || why.TargetFailed? then 4 else 1
    case SendingEnd(_, lastTry) => if lastTry then 1 else 3
    case ReadDone => 0
  }

  function WriteRank(w: WriteTask): nat {
    match w
    case WritingTarget(_) => 5
    case Waiting => 4
    case UnlinkingWriter => 3
    case ReportingWrite => 2
    case WriteDone(_) => 0
  }

  /** Bounds what is left of a relay that no longer reads its target and whose
      writer has been dropped. */
  function Rank(c: Conn): int {
    ReadRank(c.down.read) + WriteRank(c.up.write) + 2 * |c.up.queue| + (if c.up.handler.Some? then 3 else 0)
    + (if c.permit then 1 else 0) + (if c.inAborts then 2 else 0) + (if c.joined then 0 else 1)
    + (if c.up.linked then 1 else 0) + (if c.killed then 0 else 1)
  }

  /** A message that comes after the fact. */
  predicate IsLate(a: Action) {
    a.HandleData? || a.HandleClose? || a.HandleAbort?
  }

  predicate Released(c: Conn) {
    LeftLoop(c.down) && !c.up.linked
  }

  /** Once the read task has left its loop and the writer is gone, every action
      uses up rank, except a late Data or Close message, which changes nothing
      but its own bookkeeping. */
  lemma ReleasedRelayTerminates(c: Conn, a: Action)
    requires Released(c)
    ensures Released(Next(c, a))
    ensures 0 <= Rank(Next(c, a)) <= Rank(c)
    ensures Rank(Next(c, a)) < Rank(c) || Next(c, a) == c.(up := Next(c, a).up)
    ensures Enabled(c, a) && !IsLate(a) ==> Rank(Next(c, a)) < Rank(c)
  {
    hide Min;
    if Enabled(c, a) {
      ReleasedDown(c.down, a);
      ReleasedUp(c, a);
      hide DownNext, UpNext;
    }
  }

  lemma ReleasedDown(d: Download, a: Action)
    requires LeftLoop(d)
    requires (a.EndSent? || a.EndUnsent? ==> d.read.SendingEnd?) && (a.Unlink? ==> d.read.Unlinking?)
    requires !a.PullData? && !a.PullEof? && !a.PullError? && !a.TakeAbort? && !a.ReadWatchdog? && !a.ChunkSent? &&
      !a.ChunkUnsent?
    ensures LeftLoop(DownNext(d, a)) && ReadRank(DownNext(d, a).read) <= ReadRank(d.read)
    ensures a.EndSent? || a.EndUnsent? || a.Unlink? ==> ReadRank(DownNext(d, a).read) < ReadRank(d.read)
    ensures IsLate(a) ==> DownNext(d, a) == d
  {
  }

  function UpRank(u: Upload): int {
    WriteRank(u.write) + 2 * |u.queue| + (if u.handler.Some? then 3 else 0) + (if u.linked then 1 else 0)
  }

  predicate UsesUpload(a: Action) {
    || a.TakeWrite? || a.TargetWrote? || a.SeeClosed? || a.WriteWatchdog? || a.UnlinkWriter?
    || a.ReportSent? || a.ReportUnsent? || a.Enqueue? || a.ReceiverGone? || a.Cancel?
  }

  lemma ReleasedUp(c: Conn, a: Action)
    requires !c.up.linked && Enabled(c, a)
    ensures var u := UpNext(c.up, a);
      && !u.linked && 0 <= UpRank(u) <= UpRank(c.up)
      && (UsesUpload(a) ==> UpRank(u) < UpRank(c.up))
  {
    hide Min;
  }

  /** An action of the relay's own, or the end of a wait it is certain to get:
      a delivery budget running out, or a socket write returning. */
  predicate IsOwnMove(a: Action) {
    || a.Unlink? || a.ChunkUnsent? || a.EndUnsent? || a.TakeAbort?
    || a.TakeWrite? || a.TargetWrote? || a.SeeClosed? || a.UnlinkWriter? || a.ReportUnsent?
    || a.JoinTasks? || a.Enqueue? || a.ReceiverGone?
  }

  ghost predicate CanMove(c: Conn) {
    exists a :: IsOwnMove(a) && Enabled(c, a)
  }

  /** What a relay can wait for, exactly: an idle target that no abort has
      released, or, behind a delivered `Close`, a client that may still upload
      (with the watchdog of one task or the other running meanwhile). */
  lemma ParkedIsHalfOpen(c: Conn)
    requires Inv(c) && !c.joined
    ensures !CanMove(c) <==>
      && ((c.down.read.Pulling? && !c.permit) || c.down.read.ReadDone?)
      && (c.up.write.WriteDone? || (c.up.write.Waiting? && c.up.queue == [] && c.up.linked))
      && c.up.handler.None?
      && (c.down.read.Pulling? || c.up.write.Waiting?)
    ensures !CanMove(c) && c.down.read.ReadDone? ==> Close in c.down.sent && Enabled(c, WriteWatchdog)
    ensures !CanMove(c) && c.down.read.Pulling? ==> Enabled(c, ReadWatchdog)
  {
    var r, w := c.down.read, c.up.write;
    var a :=
      if r.Unlinking? then Unlink else if r.SendingChunk? then ChunkUnsent else if r.SendingEnd? then EndUnsent
      else if r.Pulling? && c.permit then TakeAbort
      else if w.WritingTarget? then TargetWrote(None) else if w.UnlinkingWriter? then UnlinkWriter
      else if w.ReportingWrite? then ReportUnsent
      else if w.Waiting? && c.up.queue != [] then TakeWrite
      else if c.up.handler.Some? then (if w.WriteDone? then ReceiverGone else Enqueue)
      else if w.Waiting? then SeeClosed else JoinTasks;
    assert IsOwnMove(a);
    if Enabled(c, a) {
      assert CanMove(c);
    }
  }
}
