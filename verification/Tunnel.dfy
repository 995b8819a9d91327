/** The whole tunnel as one transition system: any number of connections, each a
    client relay and a server relay, sharing one SSE queue, one dispatch loop and
    one session. An action names the actor and every outcome it cannot control,
    so a list of actions is an interleaving. */
module Tunnel {
  import opened Prelude
  import opened Events
  import C = ClientRelay
  import S = ServerRelay

  datatype Item = Item(cid: nat, ev: TunnelEvent) | ResetItem

  /** How far the read half's current POST has come. */
  datatype Post = NotApplied | Handling | Applied

  datatype Conn = Conn(
    cli: C.Relay,
    srv: S.Conn,
    registered: bool,       // the conn_id is a key of `response_channels`
    handoffs: nat,          // tasks holding a stalled `Close` and a sender
    clone: Option<nat>,     // the SSE channel the read task's attempt captured
    post: Post,
    retried: bool,          // the current POST already failed once
    resent: bool,           // bytes that were still on their way to the target were posted again
    dispatched: seq<TunnelEvent>, // every event the dispatch loop has begun for it
    stale: bool,            // the session id was rotated after the connection opened
    astray: bool)           // some POST went to the new session, which dropped it

  datatype System = System(
    conns: map<nat, Conn>,
    queue: seq<Item>,       // enqueued for the client and not yet dispatched
    air: Option<Item>,      // being dispatched, with a cloned sender
    gen: nat,               // which SSE channel `sse_tx` names
    reading: nat,           // whose channel's stream the client reads, or read last
    live: bool,             // it is reading one
    known: bool,            // the server has a session under the client's current id
    lost: set<nat>,         // connections some of whose response was discarded
    resetLost: bool)        // the session's only Reset was discarded unread

  const OPENED := Conn(C.FRESH, S.FRESH, true, 0, None, NotApplied, false, false, [], false, false)

  const INIT := System(map[], [], None, 0, 0, false, false, {}, false)

  datatype Action =
    | Open(cid: nat)
    // steps of one relay alone
    | Client(cid: nat, ca: C.Action)
    | Server(cid: nat, sa: S.Action)
    // server to client
    | CloneSender(cid: nat)
    | Send(cid: nat)
    | SendReport(cid: nat)
    | Begin
    | DeliverEvent
    | ReceiverDropped
    | Stall
    | HandoffDelivered(cid: nat)
    | HandoffDropped(cid: nat)
    | HandoffTimedOut(cid: nat)
    // client to server
    | PostArrives(cid: nat)
    | PostAstray(cid: nat)
    | PostHandled(cid: nat)
    | PostAcked(cid: nat)
    | PostFailed(cid: nat)
    | CloseArrives(cid: nat)
    | AbortArrives(cid: nat)
    // the stream, the session and the process
    | StreamDropped
    | StreamOpened
    | Superseded
    | ServerRestart
    | Rotate

  /** Steps of the client relay that involve nothing shared. */
  predicate LocalToClient(a: C.Action) {
    a.AppData? || a.AppEof? || a.AppError? || a.CloseDone? || a.TakeStop? || a.TakeEvent? || a.SeeDrop? || a.TakeUpload?
    || a.Join?
  }

  /** Steps of the server relay that involve nothing shared. */
  predicate LocalToServer(a: S.Action) {
    || a.PullData? || a.PullEof? || a.PullError? || a.TargetWrote? || a.TakeAbort? || a.ReadWatchdog?
    || a.ChunkUnsent? || a.EndUnsent? || a.Unlink? || a.TakeWrite? || a.SeeClosed? || a.WriteWatchdog?
    || a.UnlinkWriter? || a.ReportUnsent? || a.JoinTasks?
  }

  /** The items of the queue meant for one connection. */
  function Proj(queue: seq<Item>, cid: nat): seq<TunnelEvent> {
    if queue == [] then [] else For(queue[0], cid) + Proj(queue[1..], cid)
  }

  function For(item: Item, cid: nat): seq<TunnelEvent> {
    if item.Item? && item.cid == cid then [item.ev] else []
  }

  /** The queue as one connection sees it. A Reset is to every connection what an
      `Error` is to its own: the app hears nothing from behind it. */
  function View(queue: seq<Item>, cid: nat): seq<TunnelEvent> {
    if queue == [] then [] else Shows(queue[0], cid) + View(queue[1..], cid)
  }

  function Shows(item: Item, cid: nat): seq<TunnelEvent> {
    if item.ResetItem? then [Error] else For(item, cid)
  }

  function InAir(air: Option<Item>, cid: nat): seq<TunnelEvent> {
    if air.Some? then For(air.value, cid) else []
  }

  /** A connection's queue closes when its last sender goes: the map entry, a
      handoff task's, or the dispatch loop's clone. */
  function Settle(cn: Conn, inAir: bool): Conn {
    if cn.registered || cn.handoffs > 0 || inAir then cn else cn.(cli := C.Next(cn.cli, C.SendersGone))
  }

  /** `response_channels.clear()` */
  function ClearAll(s: System): map<nat, Conn> {
    map c | c in s.conns :: Settle(s.conns[c].(registered := false), InAir(s.air, c) != [])
  }

  /** The same, once the session id has been replaced. */
  function StaleAll(s: System): map<nat, Conn> {
    map c | c in s.conns :: Settle(s.conns[c].(registered := false, stale := true), InAir(s.air, c) != [])
  }

  /** The server may still have data or a `Close` for the client. */
  predicate Streaming(d: S.Download) {
    d.read.Pulling? || d.read.SendingChunk? || (d.read.SendingEnd? && d.read.end.Close?)
  }

  /** The app would take what follows a gap for the rest of its response. */
  predicate Exposed(cn: Conn, air: seq<TunnelEvent>) {
    && cn.registered && !cn.cli.writer.exited && Error !in cn.cli.recv && Error !in air
    && !cn.srv.killed && Streaming(cn.srv.down)
  }

  /** The queue's data can only reach the app past the end of its connection. */
  predicate Barred(view: seq<TunnelEvent>) {
    DataBytes(PastError(view)) != []
  }

  /** The connections a dropped stream harms: those exposed to the loss of data. */
  function Harmed(s: System): set<nat> {
    set c | c in s.conns && Exposed(s.conns[c], InAir(s.air, c)) && DataBytes(View(s.queue, c)) != []
  }

  function Put(s: System, cid: nat, cn: Conn): System {
    s.(conns := s.conns[cid := cn])
  }

  // ----------------------------------------------------------- server to client

  /** An enqueue reaches the client only if the attempt captured the channel
      whose stream the client is reading. */
  predicate Reaches(s: System, into: Option<nat>) {
    into == Some(s.reading) && s.live
  }

  /** The harm an enqueue does if it does not. */
  predicate Harms(s: System, cid: nat, cn: Conn, ev: TunnelEvent) {
    ev.Data? && Exposed(cn, InAir(s.air, cid)) && !Barred(View(s.queue, cid))
  }

  /** One successful enqueue. */
  function Enqueued(s: System, cid: nat, cn: Conn, ev: TunnelEvent, into: Option<nat>): System {
    if Reaches(s, into)
    then Put(s, cid, cn).(queue := s.queue + [Item(cid, ev)])
    else Put(s, cid, cn).(lost := if Harms(s, cid, cn, ev) then s.lost + {cid} else s.lost)
  }

  function SendNext(s: System, cid: nat): System
    requires cid in s.conns
  {
    var cn := s.conns[cid];
    if cn.clone.None? then s
    else if cn.srv.down.read.SendingChunk? then
      Enqueued(s, cid, cn.(srv := S.Next(cn.srv, S.ChunkSent), clone := None), Data(cn.srv.down.read.chunk), cn.clone)
    else if cn.srv.down.read.SendingEnd? then
      Enqueued(s, cid, cn.(srv := S.Next(cn.srv, S.EndSent), clone := None), cn.srv.down.read.end, cn.clone)
    else s
  }

  function BeginNext(s: System): System {
    if s.air.Some? || s.queue == [] then s
    else if s.queue[0].ResetItem? then
      s.(queue := s.queue[1..], conns := ClearAll(s), resetLost := false)
    else if s.queue[0].cid in s.conns && s.conns[s.queue[0].cid].registered then
      var cid, ev := s.queue[0].cid, s.queue[0].ev;
      Put(s, cid, s.conns[cid].(dispatched := s.conns[cid].dispatched + [ev])).(queue := s.queue[1..],
        air := Some(s.queue[0]))
    else s.(queue := s.queue[1..])
  }

  /** The end of one dispatch: the clone is dropped, whatever became of the event. */
  function Landed(s: System, cn: Conn): System
    requires s.air.Some? && s.air.value.Item?
  {
    Put(s, s.air.value.cid, Settle(cn, false)).(air := None)
  }

  function AirNext(s: System, a: Action): System
    requires a.DeliverEvent? || a.ReceiverDropped? || a.Stall?
  {
    if s.air.None? || !s.air.value.Item? || s.air.value.cid !in s.conns then s else
    var cn, ev := s.conns[s.air.value.cid], s.air.value.ev;
    var gone, room := cn.cli.writer.exited, C.QueueLength(cn.cli) < C.CONN_CHANNEL_CAPACITY;
    match a
    case DeliverEvent => if !gone && room then Landed(s, cn.(cli := C.Next(cn.cli, C.Deliver(ev)))) else s
    case ReceiverDropped => if gone then Landed(s, cn) else s
    case Stall =>
      if gone || room then s
      else if ev.Close? then Landed(s, cn.(handoffs := cn.handoffs + 1))
      else Landed(s, cn.(registered := false))
  }

  function HandoffNext(s: System, a: Action): System
    requires a.HandoffDelivered? || a.HandoffDropped? || a.HandoffTimedOut?
  {
    if a.cid !in s.conns || s.conns[a.cid].handoffs == 0 then s else
    var cn, here := s.conns[a.cid], InAir(s.air, a.cid) != [];
    var over := cn.(handoffs := cn.handoffs - 1);
    var gone, room := cn.cli.writer.exited, C.QueueLength(cn.cli) < C.CONN_CHANNEL_CAPACITY;
    match a
    case HandoffDelivered(c) =>
      if !gone && room then Put(s, c, Settle(over.(cli := C.Next(cn.cli, C.Deliver(Close))), here)) else s
    case HandoffDropped(c) => if gone then Put(s, c, Settle(over, here)) else s
    case HandoffTimedOut(c) => if !gone then Put(s, c, Settle(over.(registered := false), here)) else s
  }

  // ----------------------------------------------------------- client to server

  /** A failed POST is sent again although it was applied, to an upload that still
      takes what comes. */
  predicate Duplicates(cn: Conn) {
    cn.post == Applied && !cn.astray && cn.srv.up.linked && S.Draining(cn.srv.up)
  }

  function PostNext(cn: Conn, a: Action): Conn {
    match a
    case PostArrives(_) =>
      if !cn.cli.read.Posting? || cn.post != NotApplied || cn.astray then cn else
      var srv := S.Next(cn.srv, S.HandleData(cn.cli.read.data));
      cn.(srv := srv, post := if srv.up.handler.Some? then Handling else Applied)
    // The new session answers 200 for a conn_id it has no writer for. Session
    // ids only move on, so nothing this connection posts later goes elsewhere.
    case PostAstray(_) =>
      if !cn.cli.read.Posting? || cn.post != NotApplied || !cn.stale then cn else cn.(post := Applied, astray := true)
    case PostHandled(_) =>
      if cn.post != Handling then cn else
      var srv := S.Next(cn.srv, if cn.srv.up.write.WriteDone? then S.ReceiverGone else S.Enqueue);
      if srv.up.handler.Some? then cn else cn.(srv := srv, post := Applied)
    case PostAcked(_) =>
      if cn.cli.read.Posting? && cn.post == Applied
      then cn.(cli := C.Next(cn.cli, C.PostOk), post := NotApplied, retried := false) else cn
    case PostFailed(_) =>
      if !cn.cli.read.Posting? then cn else
      var srv := if cn.post == Handling then S.Next(cn.srv, S.Cancel) else cn.srv;
      if cn.retried
      then cn.(srv := srv, cli := C.Next(cn.cli, C.PostError), post := NotApplied, retried := false)
      else cn.(srv := srv, post := NotApplied, retried := true,
        resent := cn.resent || Duplicates(cn))
    case CloseArrives(_) =>
      if C.SendClose in cn.cli.posts && !cn.astray then cn.(srv := S.Next(cn.srv, S.HandleClose)) else cn
    case AbortArrives(_) =>
      if C.SendAbort in cn.cli.posts && !cn.astray then cn.(srv := S.Next(cn.srv, S.HandleAbort)) else cn
    case _ => cn
  }

  /** The server process dies: its relays, its sessions and its queue with it. */
  function Killed(cn: Conn): Conn {
    if cn.srv.killed then cn
    else cn.(srv := S.Next(cn.srv, S.Kill), clone := None, post := if cn.post == Handling then NotApplied else cn.post)
  }

  // ---------------------------------------------------------------- transitions

  function Next(s: System, a: Action): System {
    match a
    case Open(c) =>
      if c in s.conns then s
      else Put(s, c, OPENED)
    case Client(c, ca) =>
      if c !in s.conns || !LocalToClient(ca) then s else
      var cn := s.conns[c].(cli := C.Next(s.conns[c].cli, ca));
      // `relay` unregisters the connection after its join.
      if ca.Join? && !cn.cli.socket.Live?
      then Put(s, c, Settle(cn.(registered := false), InAir(s.air, c) != [])) else Put(s, c, cn)
    case Server(c, sa) =>
      if c !in s.conns || !LocalToServer(sa) then s
      else Put(s, c, s.conns[c].(srv := S.Next(s.conns[c].srv, sa)))
    case CloneSender(c) =>
      if c !in s.conns || s.conns[c].srv.killed then s else Put(s, c, s.conns[c].(clone := Some(s.gen)))
    case Send(c) => if c in s.conns then SendNext(s, c) else s
    case SendReport(c) =>
      if c !in s.conns || !s.conns[c].srv.up.write.ReportingWrite? then s
      else Enqueued(s, c, s.conns[c].(srv := S.Next(s.conns[c].srv, S.ReportSent)), Error, Some(s.gen))
    case Begin => BeginNext(s)
    case DeliverEvent => AirNext(s, a)
    case ReceiverDropped => AirNext(s, a)
    case Stall => AirNext(s, a)
    case HandoffDelivered(_) => HandoffNext(s, a)
    case HandoffDropped(_) => HandoffNext(s, a)
    case HandoffTimedOut(_) => HandoffNext(s, a)
    case PostArrives(c) => if c in s.conns then Put(s, c, PostNext(s.conns[c], a)) else s
    case PostAstray(c) => if c in s.conns then Put(s, c, PostNext(s.conns[c], a)) else s
    case PostHandled(c) => if c in s.conns then Put(s, c, PostNext(s.conns[c], a)) else s
    case PostAcked(c) => if c in s.conns then Put(s, c, PostNext(s.conns[c], a)) else s
    case PostFailed(c) => if c in s.conns then Put(s, c, PostNext(s.conns[c], a)) else s
    case CloseArrives(c) => if c in s.conns then Put(s, c, PostNext(s.conns[c], a)) else s
    case AbortArrives(c) => if c in s.conns then Put(s, c, PostNext(s.conns[c], a)) else s
    // The loop polls its stream only between dispatches.
    case StreamDropped =>
      if s.air.Some? then s
      else s.(live := false, queue := [], lost := s.lost + Harmed(s),
              resetLost := s.resetLost || (s.known && ResetItem in s.queue))
    // A session the server has to create announces itself with Reset.
    case StreamOpened =>
      if s.live || s.air.Some? then s
      else s.(gen := s.gen + 1, reading := s.gen + 1, live := true, known := true,
              queue := if s.known then [] else [ResetItem])
    // The server gets round to a GET the client has given up on: the session's
    // new channel is one that nobody reads.
    case Superseded =>
      s.(gen := s.gen + 1, known := true,
         resetLost := s.resetLost || (!s.known && ResetItem !in s.queue))
    case ServerRestart =>
      s.(known := false, resetLost := false, conns := map c | c in s.conns :: Killed(s.conns[c]))
    // The config watcher changes the session id and clears the dispatch table.
    case Rotate => s.(conns := StaleAll(s), known := false, resetLost := false)
  }

  /** The chunk the read task is about to enqueue will be missed. */
  predicate WillMiss(s: System, cid: nat)
    requires cid in s.conns
  {
    var cn := s.conns[cid];
    && cn.clone.Some? && cn.srv.down.read.SendingChunk? && !Reaches(s, cn.clone)
    && Harms(s, cid, cn.(srv := S.Next(cn.srv, S.ChunkSent), clone := None), Data(cn.srv.down.read.chunk))
  }

  /** The connections an action harms by discarding data of theirs. */
  function Discards(s: System, a: Action): set<nat> {
    match a
    case StreamDropped => if s.air.Some? then {} else Harmed(s)
    case Send(c) => if c in s.conns && WillMiss(s, c) then {c} else {}
    case _ => {}
  }

  function Run(s: System, acts: seq<Action>): System
    decreases |acts|
  {
    if acts == [] then s else Run(Next(s, acts[0]), acts[1..])
  }
}
