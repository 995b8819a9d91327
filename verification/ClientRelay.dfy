/** One client-side relay: the read half (app to tunnel) and the write half
    (tunnel to app), joined by two one-shot signals (src/relay.rs:48-313). */
module ClientRelay {
  import opened Prelude
  import opened Events

  const READ_BUFFER: nat := 32768
  const CONN_CHANNEL_CAPACITY: nat := 256

  datatype ClientMsg = SendData(bytes: Bytes) | SendClose | SendAbort

  datatype UploadEnd = UploadEof | UploadFailed

  datatype Stop = ServerReported | Local

  // ---------------------------------------------------------------- write half

  /** The write half's variables, plus the bytes the app's socket accepted. */
  datatype Writer = Writer(
    failed: bool,
    serverReported: bool,
    responseClosed: bool,
    uploadEnded: bool,
    exited: bool,
    written: Bytes)

  const FRESH_WRITER := Writer(false, false, false, false, false, [])

  /** What one turn of the biased select yields. A `Received` event carries the
      fate of the socket write it may cause: `Some(k)` is a failure after `k`
      accepted bytes. */
  datatype Poll =
    | Received(event: TunnelEvent, cut: Option<nat>)
    | ChannelGone
    | UploadReport(end: UploadEnd)

  function WriteStep(w: Writer, p: Poll): Writer {
    if w.exited then w else
    match p
    case ChannelGone => w.(failed := true, exited := true)
    case UploadReport(UploadEof) => w.(uploadEnded := true, exited := w.responseClosed)
    case UploadReport(UploadFailed) => w.(uploadEnded := true, failed := true, exited := true)
    case Received(Data(d), cut) =>
      if d == [] then w
      else if cut.None? then w.(written := w.written + d)
      else w.(written := w.written + d[..Min(cut.value, |d|)], failed := true, exited := true)
    case Received(Close, _) => w.(responseClosed := true, exited := w.uploadEnded)
    case Received(Error, _) => w.(failed := true, serverReported := true, exited := true)
    case Received(Exit(_), _) => w.(failed := true, exited := true)
  }

  function WriteRun(w: Writer, polls: seq<Poll>): Writer
    decreases |polls|
  {
    if polls == [] then w else WriteRun(WriteStep(w, polls[0]), polls[1..])
  }

  /** The write half's verdict on the socket. */
  predicate Resets(w: Writer) {
    w.failed && !w.responseClosed
  }

  /** The inputs that mean the connection is broken, whatever came before. */
  predicate Breaks(p: Poll) {
    match p
    case ChannelGone => true
    case UploadReport(e) => e.UploadFailed?
    case Received(Data(d), cut) => d != [] && cut.Some?
    case Received(Close, _) => false
    case Received(_, _) => true
  }

  predicate IsClose(p: Poll) {
    p.Received? && p.event.Close?
  }

  /** Some input broke the connection before the response was closed. */
  ghost predicate BrokenBeforeClose(polls: seq<Poll>) {
    exists i :: 0 <= i < |polls| && Breaks(polls[i]) && forall j :: 0 <= j < i ==> !IsClose(polls[j])
  }

  /** The reset decision, for every order of events and upload reports. */
  lemma {:induction false} ResetDecision(w: Writer, polls: seq<Poll>)
    requires !w.exited && !w.failed
    ensures var e := WriteRun(w, polls);
      && (e.exited ==> (Resets(e) <==> !w.responseClosed && BrokenBeforeClose(polls)))
      && (e.exited && !e.failed ==> e.responseClosed && e.uploadEnded)
      && (!e.exited ==> !e.failed && !BrokenBeforeClose(polls))
    decreases |polls|
  {
    if polls != [] {
      var p, rest, w' := polls[0], polls[1..], WriteStep(w, polls[0]);
      if w'.exited {
        ExitedStays(w', rest);
        if IsClose(p) {
          assert !BrokenBeforeClose(polls);
        } else if Breaks(p) {
          assert BrokenBeforeClose(polls);
        }
      } else {
        ResetDecision(w', rest);
        BrokenTail(polls);
      }
    }
  }

  lemma ExitedStays(w: Writer, polls: seq<Poll>)
    requires w.exited
    ensures WriteRun(w, polls) == w
  {
  }

  lemma BrokenTail(polls: seq<Poll>)
    requires polls != [] && !Breaks(polls[0])
    ensures BrokenBeforeClose(polls) <==> !IsClose(polls[0]) && BrokenBeforeClose(polls[1..])
  {
    if BrokenBeforeClose(polls) {
      var i :| 0 <= i < |polls| && Breaks(polls[i]) && forall j :: 0 <= j < i ==> !IsClose(polls[j]);
      assert Breaks(polls[1..][i - 1]);
      assert forall j :: 0 <= j < i - 1 ==> !IsClose(polls[1..][j]) by {
        assert forall j :: 0 <= j < i - 1 ==> polls[1..][j] == polls[j + 1];
      }
    }
    if !IsClose(polls[0]) && BrokenBeforeClose(polls[1..]) {
      var i :| 0 <= i < |polls[1..]| && Breaks(polls[1..][i]) && forall j :: 0 <= j < i ==> !IsClose(polls[1..][j]);
      assert Breaks(polls[i + 1]);
      assert forall j :: 0 <= j < i + 1 ==> !IsClose(polls[j]) by {
        assert forall j :: 1 <= j < i + 1 ==> polls[j] == polls[1..][j - 1];
      }
    }
  }

  /** A response that was closed in full is never reset, whatever happens next. */
  lemma {:induction false} ClosedIsNeverReset(w: Writer, polls: seq<Poll>)
    requires w.responseClosed
    ensures WriteRun(w, polls).responseClosed && !Resets(WriteRun(w, polls))
    decreases |polls|
  {
    if polls != [] {
      ClosedIsNeverReset(WriteStep(w, polls[0]), polls[1..]);
    }
  }

  /** The write half's task: its local variables and its loop. */
  class WriteHalf {
    var failed: bool
    var serverReported: bool
    var responseClosed: bool
    var uploadEnded: bool
    var exited: bool
    var written: Bytes

    function State(): Writer
      reads this
    {
      Writer(failed, serverReported, responseClosed, uploadEnded, exited, written)
    }

    constructor ()
      ensures State() == FRESH_WRITER
    {
      failed, serverReported, responseClosed := false, false, false;
      uploadEnded, exited, written := false, false, [];
    }

    method Handle(event: TunnelEvent, cut: Option<nat>)
      requires !exited
      modifies this
      ensures State() == WriteStep(old(State()), Received(event, cut))
    {
      match event
      case Data(d) =>
        if d == [] {
          return;
        }
        if cut.Some? {
          written := written + d[..Min(cut.value, |d|)];
          failed, exited := true, true;
        } else {
          written := written + d;
        }
      case Close =>
        responseClosed := true;
        if uploadEnded {
          exited := true;
        }
      case Error =>
        failed, serverReported, exited := true, true, true;
      case Exit(_) =>
        failed, exited := true, true;
    }

    /** The loop, over everything its select will yield. Returns the signal sent
        to the read half, if any, and whether the socket is to be reset. */
    method Run(polls: seq<Poll>) returns (stop: Option<Stop>, abort: bool)
      requires State() == FRESH_WRITER
      modifies this
      ensures State() == WriteRun(FRESH_WRITER, polls)
      ensures exited ==> (abort <==> BrokenBeforeClose(polls))
      ensures exited && !failed ==> responseClosed && uploadEnded && stop == None
      ensures exited && failed ==> stop == Some(if serverReported then ServerReported else Local)
    {
      var i := 0;
      while i < |polls| && !exited
        invariant 0 <= i <= |polls|
        invariant WriteRun(State(), polls[i..]) == WriteRun(FRESH_WRITER, polls)
      {
        assert polls[i..][1..] == polls[i + 1..];
        match polls[i] {
          case Received(event, cut) =>
            Handle(event, cut);
          case ChannelGone =>
            failed, exited := true, true;
          case UploadReport(end) =>
            uploadEnded := true;
            if end.UploadFailed? {
              failed, exited := true, true;
            } else if responseClosed {
              exited := true;
            }
        }
        i := i + 1;
      }
      if exited {
        ExitedStays(State(), polls[i..]);
      }
      ResetDecision(FRESH_WRITER, polls);
      stop := if failed then Some(if serverReported then ServerReported else Local) else None;
      abort := failed && !responseClosed;
    }
  }

  // ------------------------------------------------------------ the whole relay

  /** Where the read half is. `Posting` and `PostingClose` await `send_message`;
      `Reported` has sent its one-shot and returned its socket half. */
  datatype ReadHalf =
    | Reading
    | Posting(data: Bytes)
    | PostingClose
    | Reported(end: UploadEnd)

  datatype SocketEnd = Live | Fin | Rst

  datatype Relay = Relay(
    read: ReadHalf,
    posts: seq<ClientMsg>,      // every message handed to the tunnel, in order
    upload: Option<UploadEnd>,  // read half -> write half, not yet consumed
    stop: Option<Stop>,         // write half -> read half
    writer: Writer,
    recv: seq<TunnelEvent>,     // every event that ever entered the queue
    taken: nat,                 // how many of them the write half has taken
    open: bool,                 // some sender of the queue is still alive
    socket: SocketEnd)

  const FRESH := Relay(Reading, [], None, None, FRESH_WRITER, [], 0, true, Live)

  datatype Action =
    // the app and the tunnel
    | AppData(data: Bytes)
    | AppEof
    | AppError
    | PostOk
    | PostError
    | CloseDone
    | Deliver(event: TunnelEvent)
    | SendersGone
    // the relay's own moves
    | TakeStop
    | TakeEvent(cut: Option<nat>)
    | SeeDrop
    | TakeUpload
    | Join

  /** The stop branch of the read half's select: a value was sent, or the write
      half went away without one. It is polled first, so nothing is read from
      the app while it is ready. */
  predicate StopReady(r: Relay) {
    r.stop.Some? || r.writer.exited
  }

  function QueueLength(r: Relay): int {
    |r.recv| - r.taken
  }

  function EndUpload(r: Relay, msgs: seq<ClientMsg>, end: UploadEnd): Relay {
    r.(read := Reported(end), posts := r.posts + msgs, upload := Some(end))
  }

  function Turn(r: Relay, p: Poll): Relay {
    var w := WriteStep(r.writer, p);
    r.(writer := w,
       stop := if w.exited && w.failed then Some(if w.serverReported then ServerReported else Local) else r.stop)
  }

  function Next(r: Relay, a: Action): Relay {
    match a
    case AppData(d) =>
      if r.read.Reading? && !StopReady(r) && 0 < |d| <= READ_BUFFER
      then r.(read := Posting(d), posts := r.posts + [SendData(d)]) else r
    case AppEof =>
      if r.read.Reading? && !StopReady(r) then r.(read := PostingClose, posts := r.posts + [SendClose]) else r
    case AppError =>
      if r.read.Reading? && !StopReady(r) then EndUpload(r, [SendAbort], UploadFailed) else r
    case PostOk =>
      if r.read.Posting? then r.(read := Reading) else r
    case PostError =>
      if r.read.Posting? then EndUpload(r, [SendAbort], UploadFailed) else r
    case CloseDone =>
      if r.read.PostingClose? then EndUpload(r, [], UploadEof) else r
    case TakeStop =>
      if r.read.Reading? && StopReady(r)
      then EndUpload(r, if r.stop == Some(ServerReported) then [] else [SendAbort], UploadEof) else r
    case Deliver(ev) =>
      if r.open && !r.writer.exited && QueueLength(r) < CONN_CHANNEL_CAPACITY
      then r.(recv := r.recv + [ev]) else r
    case SendersGone => r.(open := false)
    case TakeEvent(cut) =>
      if !r.writer.exited && r.taken < |r.recv|
      then Turn(r.(taken := r.taken + 1), Received(r.recv[r.taken], cut)) else r
    case SeeDrop =>
      if !r.writer.exited && r.taken >= |r.recv| && !r.open then Turn(r, ChannelGone) else r
    case TakeUpload =>
      // Biased: only when the queue has nothing to say.
      if !r.writer.exited && r.taken >= |r.recv| && r.open && r.upload.Some? && !r.writer.uploadEnded
      then Turn(r.(upload := None), UploadReport(r.upload.value)) else r
    case Join =>
      if r.read.Reported? && r.writer.exited && r.socket.Live?
      then r.(socket := if Resets(r.writer) then Rst else Fin) else r
  }

  function Run(r: Relay, acts: seq<Action>): Relay
    decreases |acts|
  {
    if acts == [] then r else Run(Next(r, acts[0]), acts[1..])
  }

  // ----------------------------------------------------------- read half, alone

  /** What one turn of the read half's loop meets, with the fate of the POST it
      leads to. `Stopped(None)` is a write half gone without a word. */
  datatype ReadTurn =
    | GotData(data: Bytes, posted: bool)
    | GotEof
    | GotError
    | Stopped(stop: Option<Stop>)

  function ReadStep(r: Relay, t: ReadTurn): Relay {
    match t
    case GotData(d, posted) => Next(Next(r, AppData(d)), if posted then PostOk else PostError)
    case GotEof => Next(Next(r, AppEof), CloseDone)
    case GotError => Next(r, AppError)
    case Stopped(stop) => Next(r.(stop := stop, writer := r.writer.(exited := true)), TakeStop)
  }

  function ReadRun(r: Relay, turns: seq<ReadTurn>): Relay
    decreases |turns|
  {
    if turns == [] || r.read.Reported? then r else ReadRun(ReadStep(r, turns[0]), turns[1..])
  }

  ghost predicate OnlyData(msgs: seq<ClientMsg>) {
    forall i :: 0 <= i < |msgs| ==> msgs[i].SendData?
  }

  /** What one turn posts, and whether it ends the loop. */
  lemma TurnEffect(r: Relay, t: ReadTurn)
    requires r.read.Reading? && !StopReady(r) && (t.GotData? ==> 0 < |t.data| <= READ_BUFFER)
    ensures var e := ReadStep(r, t);
      match t
      case GotData(d, posted) =>
        if posted then e.posts == r.posts + [SendData(d)] && e.upload == r.upload && e.read.Reading? && !StopReady(e)
        else e.posts == r.posts + [SendData(d)] + [SendAbort] && e.upload == Some(UploadFailed) && e.read.Reported?
      case GotEof => e.posts == r.posts + [SendClose] && e.upload == Some(UploadEof) && e.read.Reported?
      case GotError => e.posts == r.posts + [SendAbort] && e.upload == Some(UploadFailed) && e.read.Reported?
      case Stopped(stop) =>
        && e.posts == r.posts + (if stop == Some(ServerReported) then [] else [SendAbort])
        && e.upload == Some(UploadEof) && e.read.Reported?
  {
    assert r.posts + [SendClose] + [] == r.posts + [SendClose];
  }

  /** The read half's task: its loop, and what it reports once the loop ends. */
  method RunReadHalf(turns: seq<ReadTurn>) returns (posts: seq<ClientMsg>, upload: Option<UploadEnd>)
    requires forall t :: t in turns && t.GotData? ==> 0 < |t.data| <= READ_BUFFER
    ensures var r := ReadRun(FRESH, turns); posts == r.posts && upload == r.upload
    ensures upload.None? ==> OnlyData(posts)
    ensures upload == Some(UploadFailed) ==> posts != [] && posts[|posts| - 1] == SendAbort
  {
    hide Next, ReadStep;
    posts, upload := [], None;
    ghost var r := FRESH;
    var i := 0;
    while i < |turns| && upload.None?
      invariant 0 <= i <= |turns|
      invariant ReadRun(r, turns[i..]) == ReadRun(FRESH, turns)
      invariant posts == r.posts && upload == r.upload
      invariant upload.None? ==> r.read.Reading? && !StopReady(r) && OnlyData(posts)
      invariant upload.Some? ==> r.read.Reported?
      invariant upload == Some(UploadFailed) ==> posts != [] && posts[|posts| - 1] == SendAbort
    {
      assert turns[i..][1..] == turns[i + 1..];
      TurnEffect(r, turns[i]);
      match turns[i] {
        case GotData(data, posted) =>
          posts := posts + [SendData(data)];
          if !posted {
            posts, upload := posts + [SendAbort], Some(UploadFailed);
          }
        case GotEof =>
          posts, upload := posts + [SendClose], Some(UploadEof);
        case GotError =>
          posts, upload := posts + [SendAbort], Some(UploadFailed);
        case Stopped(stop) =>
          if stop != Some(ServerReported) {
            posts := posts + [SendAbort];
          }
          upload := Some(UploadEof);
      }
      r := ReadStep(r, turns[i]);
      i := i + 1;
    }
  }

  // ------------------------------------------------------------------ invariant

  function Seen(r: Relay): seq<TunnelEvent>
    requires r.taken <= |r.recv|
  {
    r.recv[..r.taken]
  }

  /** The read half's messages: data, then one terminal message, or none at all
      when the server itself reported the failure. */
  ghost predicate PostsInv(r: Relay) {
    match r.read
    case Reading => OnlyData(r.posts)
    case Posting(d) => d != [] && |r.posts| > 0 && OnlyData(r.posts) && r.posts[|r.posts| - 1] == SendData(d)
    case PostingClose => exists ds :: r.posts == ds + [SendClose] && OnlyData(ds)
    case Reported(e) =>
      || (OnlyData(r.posts) && r.writer.serverReported && e.UploadEof?)
      || ((exists ds :: r.posts == ds + [SendAbort] && OnlyData(ds)) && (e.UploadFailed? || r.writer.exited))
      || ((exists ds :: r.posts == ds + [SendClose] && OnlyData(ds)) && e.UploadEof?)
  }

  /** How the two one-shots and the two tasks fit together. */
  ghost predicate SignalInv(r: Relay) {
    && (!r.read.Reported? ==> r.upload.None? && !r.writer.uploadEnded)
    && (r.upload.Some? ==> r.read == Reported(r.upload.value) && !r.writer.uploadEnded)
    && (r.read.Reported? && r.upload.None? ==>
          r.writer.uploadEnded && (r.read.end.UploadFailed? ==> r.writer.exited && r.writer.failed))
    && (!r.writer.exited ==>
          && r.stop.None? && !r.writer.failed && !r.writer.serverReported
          && !(r.writer.responseClosed && r.writer.uploadEnded))
    && (r.writer.exited && !r.writer.failed ==> r.writer.responseClosed && r.writer.uploadEnded && r.stop.None?)
    && (r.writer.exited && r.writer.failed ==>
          r.stop == Some(if r.writer.serverReported then ServerReported else Local))
    && (r.socket.Live? || (r.read.Reported? && r.writer.exited && (r.socket.Rst? <==> Resets(r.writer))))
  }

  /** What the app has been given, against what the write half has taken. */
  ghost predicate OutputInv(r: Relay) {
    && r.taken <= |r.recv| <= r.taken + CONN_CHANNEL_CAPACITY
    && r.writer.written <= DataBytes(Seen(r))
    && (r.writer.serverReported ==> Error in Seen(r))
    && (forall i :: 0 <= i < r.taken && r.recv[i].Error? ==> i == r.taken - 1 && r.writer.exited)
    && (r.writer.responseClosed ==> Close in Seen(r) && DataBytes(UpToClose(Seen(r))) <= r.writer.written)
    && (!r.writer.exited ==> r.writer.written == DataBytes(Seen(r)))
    && (!r.writer.exited && !r.writer.responseClosed ==> AllData(Seen(r)))
  }

  ghost predicate Inv(r: Relay) {
    PostsInv(r) && SignalInv(r) && OutputInv(r)
  }

  lemma TakeEventKeepsOutput(r: Relay, cut: Option<nat>)
    requires OutputInv(r) && !r.writer.exited && r.taken < |r.recv|
    ensures OutputInv(Next(r, TakeEvent(cut)))
  {
    var r' := Next(r, TakeEvent(cut));
    var ev := r.recv[r.taken];
    assert Seen(r') == Seen(r) + [ev];
    SingleEvent(ev);
    DataBytesAppend(Seen(r), [ev]);
    UpToCloseAppend(Seen(r), [ev]);
    hide DataBytes, UpToClose;
    if r.writer.responseClosed {
      TakeWhenClosed(r, cut);
    } else {
      TakeWhenOpen(r, cut);
    }
  }

  lemma TakeWhenClosed(r: Relay, cut: Option<nat>)
    requires OutputInv(r) && !r.writer.exited && r.taken < |r.recv| && r.writer.responseClosed
    requires Seen(Next(r, TakeEvent(cut))) == Seen(r) + [r.recv[r.taken]]
    requires UpToClose(Seen(r) + [r.recv[r.taken]]) == UpToClose(Seen(r))
    requires var ev := r.recv[r.taken];
      DataBytes(Seen(r) + [ev]) == DataBytes(Seen(r)) + (if ev.Data? then ev.bytes else [])
    ensures OutputInv(Next(r, TakeEvent(cut)))
  {
    hide DataBytes, UpToClose;
    var r' := Next(r, TakeEvent(cut));
    PrefixTrans(DataBytes(UpToClose(Seen(r))), r.writer.written, r'.writer.written);
  }

  lemma TakeWhenOpen(r: Relay, cut: Option<nat>)
    requires OutputInv(r) && !r.writer.exited && r.taken < |r.recv| && !r.writer.responseClosed
    requires Seen(Next(r, TakeEvent(cut))) == Seen(r) + [r.recv[r.taken]]
    requires var ev := r.recv[r.taken];
      DataBytes(Seen(r) + [ev]) == DataBytes(Seen(r)) + (if ev.Data? then ev.bytes else [])
    ensures OutputInv(Next(r, TakeEvent(cut)))
  {
    hide DataBytes, UpToClose;
    var ev := r.recv[r.taken];
    if ev.Close? {
      SingleEvent(ev);
      NoCloseIn(Seen(r));
      UpToCloseAppend(Seen(r), [ev]);
      assert UpToClose(Seen(r) + [ev]) == Seen(r) + [] == Seen(r);
    }
  }

  lemma SingleEvent(ev: TunnelEvent)
    ensures DataBytes([ev]) == (if ev.Data? then ev.bytes else []) && (ev.Close? ==> UpToClose([ev]) == [])
  {
    assert [ev][1..] == [];
  }

  lemma NoCloseIn(evs: seq<TunnelEvent>)
    requires AllData(evs)
    ensures Close !in evs
  {
  }

  lemma {:induction false} InitInv()
    ensures Inv(FRESH)
  {
  }

  predicate IsReadAction(a: Action) {
    a.AppData? || a.AppEof? || a.AppError? || a.PostOk? || a.PostError? || a.CloseDone? || a.TakeStop?
  }

  lemma ReadKeepsOutput(r: Relay, a: Action)
    requires OutputInv(r) && IsReadAction(a)
    ensures OutputInv(Next(r, a))
  {
    var r' := Next(r, a);
    assert r'.writer == r.writer && r'.recv == r.recv && r'.taken == r.taken;
    hide Next, DataBytes, UpToClose;
  }

  lemma ReadKeepsPosts(r: Relay, a: Action)
    requires PostsInv(r) && SignalInv(r) && IsReadAction(a)
    ensures PostsInv(Next(r, a))
  {
    var r' := Next(r, a);
    if a.PostError? && r.read.Posting? {
      assert r'.posts == r.posts + [SendAbort];
    }
    assert r.posts + [] == r.posts;
  }

  lemma ReadKeepsSignals(r: Relay, a: Action)
    requires SignalInv(r) && IsReadAction(a)
    ensures SignalInv(Next(r, a))
  {
  }

  lemma ReadActionKeepsInv(r: Relay, a: Action)
    requires Inv(r) && IsReadAction(a)
    ensures Inv(Next(r, a))
  {
    hide Next, PostsInv, SignalInv, OutputInv;
    ReadKeepsOutput(r, a);
    ReadKeepsPosts(r, a);
    ReadKeepsSignals(r, a);
  }

  lemma TakeEventKeepsInv(r: Relay, cut: Option<nat>)
    requires Inv(r)
    ensures Inv(Next(r, TakeEvent(cut)))
  {
    if !r.writer.exited && r.taken < |r.recv| {
      TakeEventKeepsOutput(r, cut);
    }
  }

  lemma WriteActionKeepsInv(r: Relay, a: Action)
    requires Inv(r)
    requires a.SeeDrop? || a.TakeUpload? || a.Join? || a.SendersGone?
    ensures Inv(Next(r, a))
  {
    assert Seen(Next(r, a)) == Seen(r);
  }

  lemma DeliverKeepsInv(r: Relay, ev: TunnelEvent)
    requires Inv(r)
    ensures Inv(Next(r, Deliver(ev)))
  {
    var r' := Next(r, Deliver(ev));
    assert Seen(r') == Seen(r);
  }

  lemma NextKeepsInv(r: Relay, a: Action)
    requires Inv(r)
    ensures Inv(Next(r, a))
  {
    match a
    case Deliver(ev) => DeliverKeepsInv(r, ev);
    case TakeEvent(cut) => TakeEventKeepsInv(r, cut);
    case SeeDrop => WriteActionKeepsInv(r, a);
    case TakeUpload => WriteActionKeepsInv(r, a);
    case Join => WriteActionKeepsInv(r, a);
    case SendersGone => WriteActionKeepsInv(r, a);
    case _ => ReadActionKeepsInv(r, a);
  }

  lemma {:induction false} RunKeepsInv(r: Relay, acts: seq<Action>)
    requires Inv(r)
    ensures Inv(Run(r, acts))
    decreases |acts|
  {
    if acts != [] {
      NextKeepsInv(r, acts[0]);
      RunKeepsInv(Next(r, acts[0]), acts[1..]);
    }
  }

  // -------------------------------------------------------------- what it gives

  /** The server hears each connection's end once: nothing follows a terminal
      message, and a finished read half has sent exactly one, unless an `Error`
      from the server had already been taken. */
  lemma TerminalReportIsUnique(acts: seq<Action>)
    ensures var r := Run(FRESH, acts);
      && r.taken <= |r.recv|
      && (forall i :: 0 <= i < |r.posts| && !r.posts[i].SendData? ==> i == |r.posts| - 1)
      && (r.read.Reported? ==>
            || (r.posts != [] && !r.posts[|r.posts| - 1].SendData?)
            || Error in Seen(r))
  {
    RunKeepsInv(FRESH, acts);
  }

  /** The reset decision on whole runs of both halves: the socket ends in RST
      exactly when the write half failed before taking a `Close`; a clean end
      means the response closed and the upload had ended; and both halves are
      done when it ends. */
  lemma SocketVerdict(acts: seq<Action>)
    ensures var r := Run(FRESH, acts);
      && (r.writer.exited && !r.writer.failed ==> r.writer.responseClosed && r.read.Reported?)
      && (!r.socket.Live? ==> r.read.Reported? && r.writer.exited)
      && (r.socket.Rst? ==> r.writer.failed && !r.writer.responseClosed)
      && (r.socket.Fin? ==> r.writer.responseClosed && Close in r.recv)
      && r.writer.written <= DataBytes(r.recv)
      && QueueLength(r) <= CONN_CHANNEL_CAPACITY
  {
    RunKeepsInv(FRESH, acts);
    var r := Run(FRESH, acts);
    DataBytesPrefix(Seen(r), r.recv);
    PrefixTrans(r.writer.written, DataBytes(Seen(r)), DataBytes(r.recv));
  }

  // ------------------------------------------------------- a queued Close is honoured

  /** The response is closed, or its `Close` is queued behind data alone. */
  ghost predicate Honoured(r: Relay) {
    || r.writer.responseClosed
    || (!r.writer.exited && exists k :: r.taken <= k < |r.recv| && ClosesAt(r.recv, r.taken, k))
  }

  ghost predicate ClosesAt(recv: seq<TunnelEvent>, from: nat, k: nat)
    requires from <= k < |recv|
  {
    recv[k].Close? && forall i :: from <= i < k ==> recv[i].Data?
  }

  /** Every write to the app's socket succeeds. */
  predicate Writes(a: Action) {
    a.TakeEvent? ==> a.cut.None?
  }

  ghost predicate AllWrite(acts: seq<Action>) {
    forall i :: 0 <= i < |acts| ==> Writes(acts[i])
  }

  lemma HonouredStays(r: Relay, a: Action)
    requires Inv(r) && Honoured(r) && Writes(a)
    ensures Honoured(Next(r, a))
  {
    hide PostsInv, OutputInv, DataBytes, UpToClose;
    var r' := Next(r, a);
    if !r.writer.responseClosed {
      var k :| r.taken <= k < |r.recv| && ClosesAt(r.recv, r.taken, k);
      assert r'.writer.responseClosed || (r'.taken <= k && ClosesAt(r'.recv, r'.taken, k));
    }
  }

  lemma {:induction false} HonouredRuns(r: Relay, acts: seq<Action>)
    requires Inv(r) && Honoured(r) && AllWrite(acts)
    ensures Inv(Run(r, acts)) && Honoured(Run(r, acts))
    decreases |acts|
  {
    hide Inv, Next, Honoured, Writes;
    if acts != [] {
      NextKeepsInv(r, acts[0]);
      HonouredStays(r, acts[0]);
      assert forall i :: 0 <= i < |acts| - 1 ==> acts[1..][i] == acts[i + 1];
      HonouredRuns(Next(r, acts[0]), acts[1..]);
    }
  }

  lemma HonouredIsNotReset(r: Relay)
    requires Inv(r) && Honoured(r)
    ensures !r.socket.Rst?
  {
    hide PostsInv, OutputInv;
  }

  /** A relay that has left without a `Close` ends in a reset: its upload comes to an
      end, and the halves are joined. */
  lemma ExitedResets(r: Relay) returns (acts: seq<Action>)
    requires Inv(r) && r.writer.exited && !r.writer.responseClosed
    ensures AllWrite(acts) && Run(r, acts).socket.Rst?
    decreases ReadRank(r.read)
  {
    acts := [];
    if !r.read.Reported? {
      var a := if r.read.Posting? then PostOk else if r.read.PostingClose? then CloseDone else TakeStop;
      NextKeepsInv(r, a);
      var rest := ExitedResets(Next(r, a));
      acts := [a] + rest;
      assert acts[1..] == rest;
    } else if r.socket.Live? {
      acts := [Join];
      assert Run(Next(r, Join), []) == Next(r, Join) && acts[1..] == [];
    }
  }

  /** The next thing a relay without a `Close` to come does is to take data, or to
      leave; its queue drained, the loss of the last sender makes it leave. */
  lemma Unhonoured(r: Relay) returns (acts: seq<Action>)
    requires Inv(r) && !Honoured(r)
    ensures AllWrite(acts) && Run(r, acts).socket.Rst?
    decreases |r.recv| - r.taken, if r.open then 1 else 0
  {
    if r.writer.exited {
      acts := ExitedResets(r);
    } else {
      assert r.taken <= |r.recv|;
      var a := if r.taken < |r.recv| then TakeEvent(None) else if r.open then SendersGone else SeeDrop;
      NextKeepsInv(r, a);
      HonouredBefore(r, a);
      hide Inv, Honoured;
      var rest;
      if a.SeeDrop? {
        rest := ExitedResets(Next(r, a));
      } else {
        rest := Unhonoured(Next(r, a));
      }
      acts := [a] + rest;
      assert acts[1..] == rest;
    }
  }

  lemma HonouredBefore(r: Relay, a: Action)
    requires Inv(r) && !r.writer.exited
    requires a == if r.taken < |r.recv| then TakeEvent(None) else if r.open then SendersGone else SeeDrop
    ensures Honoured(Next(r, a)) ==> Honoured(r)
    ensures a.SeeDrop? ==> Next(r, a).writer.exited && Next(r, a).writer.responseClosed == r.writer.responseClosed
  {
    hide PostsInv, DataBytes, UpToClose;
    var r' := Next(r, a);
    if a.TakeEvent? && Honoured(r') {
      var ev := r.recv[r.taken];
      if ev.Close? {
        assert ClosesAt(r.recv, r.taken, r.taken);
      }
      if ev.Data? && !r'.writer.responseClosed {
        var k :| r'.taken <= k < |r'.recv| && ClosesAt(r'.recv, r'.taken, k);
        assert ClosesAt(r.recv, r.taken, k);
      }
    }
  }

  /** A complete response is never reset: from every state, some run in which the
      app's socket takes what it is given ends in a reset, if and only if the
      response is not closed and no `Close` is queued behind data alone. */
  lemma QueuedCloseIsHonoured(r: Relay)
    requires Inv(r)
    ensures (exists acts :: AllWrite(acts) && Run(r, acts).socket.Rst?) <==> !Honoured(r)
  {
    hide Inv, Honoured, AllWrite;
    if Honoured(r) {
      forall acts | AllWrite(acts) ensures !Run(r, acts).socket.Rst? {
        HonouredRuns(r, acts);
        HonouredIsNotReset(Run(r, acts));
      }
    } else {
      var acts := Unhonoured(r);
    }
  }

  /** The server has reported the failure itself, and has heard nothing back. */
  predicate LeftToServer(r: Relay) {
    r.writer.serverReported && SendAbort !in r.posts
  }

  lemma LeftToServerStays(r: Relay, a: Action)
    requires Inv(r) && LeftToServer(r) && !r.read.Posting?
    ensures LeftToServer(Next(r, a)) && !Next(r, a).read.Posting?
  {
    assert r.writer.exited;
  }

  lemma {:induction false} NeverAborted(r: Relay, acts: seq<Action>)
    requires Inv(r) && LeftToServer(r) && !r.read.Posting?
    ensures SendAbort !in Run(r, acts).posts
    decreases |acts|
  {
    hide Next, Inv;
    if acts != [] {
      NextKeepsInv(r, acts[0]);
      LeftToServerStays(r, acts[0]);
      NeverAborted(Next(r, acts[0]), acts[1..]);
    }
  }

  /** After the server's own report the read half tells it nothing more, unless a
      POST was under way and fails: then, and only then, an Abort can follow. */
  lemma ReportedAbortsExactly(r: Relay)
    requires Inv(r) && LeftToServer(r)
    ensures (exists acts :: SendAbort in Run(r, acts).posts) <==> r.read.Posting?
  {
    if r.read.Posting? {
      var r' := Next(r, PostError);
      assert r'.posts[|r'.posts| - 1] == SendAbort;
      assert Run(r', []) == r' && [PostError][1..] == [];
      assert SendAbort in Run(r, [PostError]).posts;
    } else {
      forall acts ensures SendAbort !in Run(r, acts).posts {
        NeverAborted(r, acts);
      }
    }
  }

  // ------------------------------------------------------------- nothing parks

  predicate ReadReady(r: Relay) {
    r.read.Reading? && StopReady(r)
  }

  predicate WriteReady(r: Relay) {
    !r.writer.exited && (r.taken < |r.recv| || !r.open || (r.upload.Some? && !r.writer.uploadEnded))
  }

  predicate JoinReady(r: Relay) {
    r.read.Reported? && r.writer.exited && r.socket.Live?
  }

  predicate PostPending(r: Relay) {
    r.read.Posting? || r.read.PostingClose?
  }

  /** The relay can move without hearing from the app or the server again. */
  predicate CanMove(r: Relay) {
    ReadReady(r) || WriteReady(r) || JoinReady(r) || PostPending(r)
  }

  function ReadRank(r: ReadHalf): nat {
    match r
    case Posting(_) => 4
    case Reading => 3
    case PostingClose => 2
    case Reported(_) => 0
  }

  /** Bounds the moves left before the relay has to wait for someone else. */
  function Rank(r: Relay): int {
    ReadRank(r.read) + (|r.recv| - r.taken) + (if r.writer.exited then 0 else 1)
    + (if r.upload.Some? then 1 else 0) + (if r.open then 1 else 0) + (if r.socket.Live? then 1 else 0)
  }

  /** A move the relay or a pending POST makes on its own. */
  predicate IsOwnMove(a: Action) {
    a.PostOk? || a.PostError? || a.CloseDone? || a.TakeStop? || a.TakeEvent? || a.SeeDrop? || a.TakeUpload? || a.Join?
  }

  /** Every own move uses up rank, and rank cannot go below zero: with nothing
      new arriving, a relay stops after at most `Rank` moves. */
  lemma OwnMovesTerminate(r: Relay, a: Action)
    requires Inv(r) && IsOwnMove(a)
    ensures 0 <= Rank(Next(r, a))
    ensures Next(r, a) == r || Rank(Next(r, a)) < Rank(r)
  {
    NextKeepsInv(r, a);
  }

  /** Once the write half has gone, every action whatsoever uses up rank: nothing
      the app or the server does can keep the relay alive. */
  lemma AfterExitEverythingTerminates(r: Relay, a: Action)
    requires Inv(r) && r.writer.exited
    ensures Next(r, a) == r || Rank(Next(r, a)) < Rank(r)
    ensures Next(r, a).writer == r.writer
  {
  }

  /** A relay whose read half has reported failure and whose write half has not
      yet left can still be delayed only by newly delivered events. */
  lemma FailedUploadTerminates(r: Relay, a: Action)
    requires Inv(r) && r.upload == Some(UploadFailed)
    ensures WriteReady(r) || r.writer.exited
    ensures a.Deliver? || Next(r, a) == r || Rank(Next(r, a)) < Rank(r)
  {
  }

  ghost predicate Moves(r: Relay, a: Action) {
    IsOwnMove(a) && Next(r, a) != r
  }

  /** The moves `CanMove` promises really exist. */
  lemma CanMoveMoves(r: Relay)
    requires Inv(r)
    ensures CanMove(r) <==> exists a :: Moves(r, a)
  {
    if CanMove(r) {
      var a :=
        if ReadReady(r) then TakeStop
        else if WriteReady(r) then (if r.taken < |r.recv| then TakeEvent(None) else if !r.open then SeeDrop
          else TakeUpload)
        else if JoinReady(r) then Join
        else if r.read.Posting? then PostOk else CloseDone;
      assert Moves(r, a);
    }
  }

  /** The only states in which a live relay waits: the connection has not failed
      and is half-open or fully open, with the app or the target still due to
      speak. In particular nothing waits once either half has failed. */
  lemma ParkedIsHalfOpen(r: Relay)
    requires Inv(r) && r.socket.Live?
    ensures !CanMove(r) <==>
      && !r.writer.exited && r.open && r.taken == |r.recv|
      && (|| r.read.Reading?
          || (r.read == Reported(UploadEof) && r.writer.uploadEnded && !r.writer.responseClosed))
  {
  }

  /** Once the write half has left, the read half takes the stop at its next
      poll: it can read nothing more from the app. */
  lemma StopWinsTheNextPoll(r: Relay, d: Bytes)
    requires Inv(r) && r.writer.exited && !r.read.Reported?
    ensures Next(r, AppData(d)) == r && Next(r, AppEof) == r && Next(r, AppError) == r
    ensures r.read.Reading? ==> Next(r, TakeStop).read.Reported?
    ensures r.read.Posting? ==> Next(Next(r, PostOk), TakeStop).read.Reported?
  {
  }
}
