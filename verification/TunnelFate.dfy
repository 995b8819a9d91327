/** The fate of a relay that waits: it can ever move again by itself exactly if its
    server can still speak or a Reset is to come (src/relay.rs:57-71,
    src/server.rs:201-239, 643-812). */
module TunnelFate {
  import opened Prelude
  import opened Events
  import opened Tunnel
  import opened TunnelInvariant
  import opened TunnelIsolation
  import opened TunnelOrder
  import opened TunnelRelease
  import opened TunnelResets
  import opened TunnelSteps
  import C = ClientRelay
  import S = ServerRelay

  /** The read task has said its last word, or given it up. */
  predicate ReadSilent(d: S.Download) {
    d.read.ReadDone? || (d.read.Unlinking? && (d.read.why.Aborted? || d.read.why.EndUndelivered?))
  }

  /** The server relay can say nothing more by itself: its process is gone, or its
      read task is through and its write task has nothing left that the target
      could refuse. */
  predicate Mute(c: S.Conn) {
    && ReadSilent(c.down) && c.up.handler.None?
    && (c.up.write.WriteDone? || (c.up.write.Waiting? && Flatten(c.up.queue) == []))
  }

  /** The relay waits, and no event for it is on its way. */
  ghost predicate Parked(s: System, cid: nat) {
    Quiet(s, cid) && s.conns[cid].cli.socket.Live? && !C.CanMove(s.conns[cid].cli)
  }

  /** It waits for a server that will not speak, on a stream that will bring no Reset. */
  ghost predicate Stranded(s: System, cid: nat) {
    Parked(s, cid) && Mute(s.conns[cid].srv) && !ResetAhead(s)
  }

  /** What can free it from outside: its app, a restart, a rotation. */
  predicate Frees(a: Action, cid: nat) {
    || a.ServerRestart? || a.Rotate?
    || (a.Client? && a.cid == cid && (a.ca.AppData? || a.ca.AppEof? || a.ca.AppError?))
  }

  ghost predicate Undisturbed(acts: seq<Action>, cid: nat) {
    forall i :: 0 <= i < |acts| ==> !Frees(acts[i], cid)
  }

  // ------------------------------------------------------------- stranded for good

  /** What parking means for the parts of the connection. */
  lemma ParkedIsIdle(s: System, cid: nat)
    requires Inv(s) && Parked(s, cid)
    ensures var cn := s.conns[cid];
      && cn.registered && !cn.cli.writer.exited && cn.cli.open && cn.cli.taken == |cn.cli.recv|
      && !cn.cli.read.Posting? && cn.post == NotApplied && cn.srv.up.handler.None?
      && (cn.cli.read.Reading? || cn.cli.read == C.Reported(C.UploadEof))
  {
    hide Inv, S.Inv, C.Inv, C.CanMove, Proj, InAir, Whole;
    RelayIsSound(s, cid);
    C.ParkedIsHalfOpen(s.conns[cid].cli);
  }

  lemma {:induction false} MuteStays(c: S.Conn, sa: S.Action)
    requires Mute(c) && LocalToServer(sa)
    ensures Mute(S.Next(c, sa))
  {
    hide Min;
    if c.up.write.Waiting? && c.up.queue != [] {
      assert Flatten(c.up.queue) == c.up.queue[0] + Flatten(c.up.queue[1..]);
      assert |Flatten(c.up.queue)| == |c.up.queue[0]| + |Flatten(c.up.queue[1..])|;
    }
  }

  lemma MuteStaysForHandlers(c: S.Conn, sa: S.Action)
    requires Mute(c) && (sa.HandleClose? || sa.HandleAbort?)
    ensures Mute(S.Next(c, sa))
  {
  }

  /** Nothing of the connection changes but, perhaps, what is left of its server. */
  ghost predicate Unmoved(cn: Conn, cn': Conn) {
    cn'.cli == cn.cli && cn'.handoffs == cn.handoffs && (Mute(cn.srv) ==> Mute(cn'.srv))
  }

  lemma UnmovedStays(s: System, s': System, cid: nat)
    requires Stranded(s, cid) && cid in s'.conns && Unmoved(s.conns[cid], s'.conns[cid])
    requires InAir(s'.air, cid) == [] && Proj(s'.queue, cid) == [] && !ResetAhead(s')
    ensures Stranded(s', cid)
  {
    hide C.CanMove, InAir, Proj, Mute;
  }

  lemma StrandedIs(s: System, cid: nat)
    requires Stranded(s, cid)
    ensures Parked(s, cid) && Quiet(s, cid) && cid in s.conns && Mute(s.conns[cid].srv) && !ResetAhead(s)
    ensures InAir(s.air, cid) == [] && Proj(s.queue, cid) == []
  {
    hide C.CanMove, InAir, Proj, Mute, ResetAhead;
  }

  lemma ParkedDoesNotMove(cli: C.Relay, ca: C.Action)
    requires C.Inv(cli) && cli.socket.Live? && !C.CanMove(cli) && C.IsOwnMove(ca)
    ensures C.Next(cli, ca) == cli
  {
    C.CanMoveMoves(cli);
    if C.Next(cli, ca) != cli {
      assert C.Moves(cli, ca);
    }
  }

  lemma ClientStays(s: System, cid: nat, c: nat, ca: C.Action)
    requires Inv(s) && Stranded(s, cid) && c in s.conns && LocalToClient(ca) && !Frees(Client(c, ca), cid)
    ensures Stranded(Next(s, Client(c, ca)), cid)
  {
    hide Inv, C.Next, C.CanMove, Settle, InAir, Proj, Next, Mute, S.Inv, C.Inv, Posted;
    ClientSteps(s, c, ca);
    if c == cid {
      RelayIsSound(s, cid);
      ParkedDoesNotMove(s.conns[cid].cli, ca);
      ClientLeavesParked(s, cid, ca);
    }
    UnmovedStays(s, Next(s, Client(c, ca)), cid);
  }

  lemma ClientLeavesParked(s: System, cid: nat, ca: C.Action)
    requires cid in s.conns && LocalToClient(ca) && s.conns[cid].cli.socket.Live?
    requires C.Next(s.conns[cid].cli, ca) == s.conns[cid].cli
    ensures Next(s, Client(cid, ca)).conns[cid] == s.conns[cid]
  {
    hide C.Next, Settle, InAir, SendNext, BeginNext, AirNext, HandoffNext, PostNext, StaleAll, Killed, Harmed;
  }

  lemma ServerStays(s: System, cid: nat, c: nat, sa: S.Action)
    requires Stranded(s, cid) && c in s.conns && LocalToServer(sa)
    ensures Stranded(Next(s, Server(c, sa)), cid)
  {
    hide S.Next, C.CanMove, InAir, Proj, Next, Mute;
    NextServer(s, c, sa);
    if c == cid {
      MuteStays(s.conns[cid].srv, sa);
    }
    UnmovedStays(s, Next(s, Server(c, sa)), cid);
  }

  lemma ProjOther(queue: seq<Item>, c: nat, ev: TunnelEvent, cid: nat)
    requires c != cid
    ensures Proj(queue + [Item(c, ev)], cid) == Proj(queue, cid)
  {
    ProjSnoc(queue, Item(c, ev), cid);
    assert Proj(queue, cid) + [] == Proj(queue, cid);
  }

  lemma EnqueuedStays(s: System, cid: nat, c: nat, cn: Conn, ev: TunnelEvent, into: Option<nat>)
    requires Stranded(s, cid) && c in s.conns && c != cid
    ensures Stranded(Enqueued(s, c, cn, ev, into), cid)
  {
    hide C.CanMove, InAir, Proj, Harms, Mute;
    ProjOther(s.queue, c, ev, cid);
    UnmovedStays(s, Enqueued(s, c, cn, ev, into), cid);
  }

  lemma SendStays(s: System, cid: nat, c: nat)
    requires Stranded(s, cid) && c in s.conns
    ensures Stranded(SendNext(s, c), cid) && Stranded(Next(s, SendReport(c)), cid)
  {
    hide S.Next, Stranded, Enqueued, Next;
    var cn := s.conns[c];
    NextReaches(s, c);
    if c == cid {
      StrandedIs(s, cid);
      assert SendNext(s, c) == s && Next(s, SendReport(c)) == s;
    } else {
      hide Mute;
      EnqueuedStays(s, cid, c, cn.(srv := S.Next(cn.srv, S.ReportSent)), Error, Some(s.gen));
      if cn.srv.down.read.SendingChunk? {
        EnqueuedStays(s, cid, c, cn.(srv := S.Next(cn.srv, S.ChunkSent), clone := None),
          Data(cn.srv.down.read.chunk), cn.clone);
      } else if cn.srv.down.read.SendingEnd? {
        EnqueuedStays(s, cid, c, cn.(srv := S.Next(cn.srv, S.EndSent), clone := None), cn.srv.down.read.end, cn.clone);
      }
    }
  }

  lemma ClonedStays(s: System, cid: nat, c: nat)
    requires Stranded(s, cid) && c in s.conns
    ensures Stranded(Next(s, CloneSender(c)), cid)
  {
    hide C.CanMove, InAir, Proj, Next, Mute;
    NextClone(s, c);
    UnmovedStays(s, Next(s, CloneSender(c)), cid);
  }

  lemma BeginStays(s: System, cid: nat)
    requires Inv(s) && Stranded(s, cid)
    ensures Stranded(BeginNext(s), cid)
  {
    hide Inv, C.CanMove, ClearAll, Mute;
    if s.air.None? && s.queue != [] {
      assert s.queue == [s.queue[0]] + s.queue[1..];
      BeginOthersOrder(s, s.queue[0].cid);
      assert s.queue[0].cid != cid;
      UnmovedStays(s, BeginNext(s), cid);
    }
  }

  lemma AirStaysStranded(s: System, cid: nat, a: Action)
    requires Inv(s) && Stranded(s, cid) && (a.DeliverEvent? || a.ReceiverDropped? || a.Stall?)
    ensures Stranded(AirNext(s, a), cid)
  {
    hide Inv, C.CanMove, C.Next, Settle, Proj, Mute;
    if s.air.Some? {
      AirIsOpen(s);
      AirKeepsStream(s, a);
      NextIsAir(s, a);
      hide Next;
      SameResetAhead(s, AirNext(s, a));
      UnmovedStays(s, AirNext(s, a), cid);
    }
  }

  lemma SameResetAhead(s: System, s': System)
    requires SameStream(s, s')
    ensures ResetAhead(s') <==> ResetAhead(s)
  {
  }

  lemma HandoffStaysStranded(s: System, cid: nat, a: Action)
    requires Stranded(s, cid) && (a.HandoffDelivered? || a.HandoffDropped? || a.HandoffTimedOut?)
    ensures Stranded(HandoffNext(s, a), cid)
  {
    hide C.CanMove, C.Next, Settle, Proj, InAir, Mute;
    if HandoffNext(s, a) != s {
      assert a.cid != cid;
      UnmovedStays(s, HandoffNext(s, a), cid);
    }
  }

  /** Of a relay without a POST under way only its Close or Abort can arrive. */
  lemma PostOfParked(cn: Conn, a: Action)
    requires IsPosting(a) && !cn.cli.read.Posting? && cn.post == NotApplied
    ensures var cn' := PostNext(cn, a);
      && cn'.cli == cn.cli && cn'.handoffs == cn.handoffs
      && (cn'.srv == cn.srv || cn'.srv == S.Next(cn.srv, S.HandleClose) || cn'.srv == S.Next(cn.srv, S.HandleAbort))
  {
    hide C.Next, S.Next;
  }

  lemma PostStaysStranded(s: System, cid: nat, a: Action)
    requires Inv(s) && Stranded(s, cid) && IsPosting(a)
    ensures Stranded(Next(s, a), cid)
  {
    hide Inv, PostNext, C.Next, S.Next, InAir, Proj, Next, C.CanMove, Mute;
    NextPosts(s, a);
    if a.cid == cid {
      var cn := s.conns[cid];
      ParkedIsIdle(s, cid);
      PostOfParked(cn, a);
      MuteStaysForHandlers(cn.srv, S.HandleClose);
      MuteStaysForHandlers(cn.srv, S.HandleAbort);
    }
    UnmovedStays(s, Next(s, a), cid);
  }

  lemma OpenStays(s: System, cid: nat, c: nat)
    requires Stranded(s, cid)
    ensures Stranded(Next(s, Open(c)), cid)
  {
    hide C.CanMove, InAir, Proj, SendNext, BeginNext, AirNext, HandoffNext, PostNext, StaleAll, Killed, Harmed, Mute;
    if c !in s.conns {
      UnmovedStays(s, Next(s, Open(c)), cid);
    }
  }

  lemma StreamStays(s: System, cid: nat, a: Action)
    requires Stranded(s, cid) && (a.StreamDropped? || a.StreamOpened? || a.Superseded?)
    ensures Stranded(Next(s, a), cid)
  {
    hide C.CanMove, InAir, SendNext, BeginNext, AirNext, HandoffNext, PostNext, StaleAll, Killed, Harmed, Mute;
    UnmovedStays(s, Next(s, a), cid);
  }

  /** One step: a stranded relay stays stranded, whatever else happens. */
  lemma StrandedStays(s: System, cid: nat, a: Action)
    requires Inv(s) && Stranded(s, cid) && !Frees(a, cid)
    ensures Stranded(Next(s, a), cid)
  {
    hide Inv, Stranded, SendNext, BeginNext, AirNext, HandoffNext, PostNext, StaleAll, Killed, Harmed;
    match a
    case Open(c) => OpenStays(s, cid, c);
    case Client(c, ca) => if c in s.conns && LocalToClient(ca) { ClientStays(s, cid, c, ca); }
    case Server(c, sa) => if c in s.conns && LocalToServer(sa) { ServerStays(s, cid, c, sa); }
    case CloneSender(c) => if c in s.conns { ClonedStays(s, cid, c); }
    case Send(c) => if c in s.conns { SendStays(s, cid, c); }
    case SendReport(c) => if c in s.conns { SendStays(s, cid, c); }
    case Begin => BeginStays(s, cid);
    case DeliverEvent => AirStaysStranded(s, cid, a);
    case ReceiverDropped => AirStaysStranded(s, cid, a);
    case Stall => AirStaysStranded(s, cid, a);
    case HandoffDelivered(_) => HandoffStaysStranded(s, cid, a);
    case HandoffDropped(_) => HandoffStaysStranded(s, cid, a);
    case HandoffTimedOut(_) => HandoffStaysStranded(s, cid, a);
    case StreamDropped => StreamStays(s, cid, a);
    case StreamOpened => StreamStays(s, cid, a);
    case Superseded => StreamStays(s, cid, a);
    case _ => PostStaysStranded(s, cid, a);
  }

  lemma {:induction false} StrandedForGood(s: System, cid: nat, acts: seq<Action>)
    requires Inv(s) && Stranded(s, cid) && Undisturbed(acts, cid)
    ensures Stranded(Run(s, acts), cid)
    decreases |acts|
  {
    hide Inv, Stranded, Next;
    if acts != [] {
      StrandedStays(s, cid, acts[0]);
      NextKeepsInv(s, acts[0]);
      assert forall i :: 0 <= i < |acts| - 1 ==> acts[1..][i] == acts[i + 1];
      StrandedForGood(Next(s, acts[0]), cid, acts[1..]);
    }
  }

  // ------------------------------------------------------------ while it can speak

  /** The next thing the server relay does is to enqueue something. */
  predicate Ready(c: S.Conn) {
    c.down.read.SendingChunk? || c.down.read.SendingEnd? || c.up.write.ReportingWrite?
  }

  function SpeakRank(c: S.Conn): nat {
    if Ready(c) then 0
    else if !ReadSilent(c.down) || c.up.write.UnlinkingWriter? then 1
    else if c.up.write.WritingTarget? then 2 else 3 + |c.up.queue|
  }

  lemma SpeakStep(c: S.Conn) returns (a: S.Action)
    requires !Mute(c) && c.up.handler.None? && !Ready(c)
    ensures LocalToServer(a)
    ensures var c' := S.Next(c, a);
      !Mute(c') && c'.up.handler.None? && c'.killed == c.killed && SpeakRank(c') < SpeakRank(c)
  {
    hide S.Next, Mute, SpeakRank;
    if c.down.read.Pulling? {
      a := S.PullEof;
      SpeakRead(c, a);
    } else if !ReadSilent(c.down) {
      a := S.Unlink;
      SpeakRead(c, a);
    } else {
      a := SpeakWrite(c);
    }
  }

  lemma SpeakRead(c: S.Conn, a: S.Action)
    requires !ReadSilent(c.down) && c.up.handler.None? && !Ready(c)
    requires a == if c.down.read.Pulling? then S.PullEof else S.Unlink
    ensures var c' := S.Next(c, a);
      !Mute(c') && c'.up.handler.None? && c'.killed == c.killed && SpeakRank(c') < SpeakRank(c)
  {
    hide Flatten;
    assert Ready(S.Next(c, a));
  }

  lemma SpeakWrite(c: S.Conn) returns (a: S.Action)
    requires !Mute(c) && ReadSilent(c.down) && c.up.handler.None? && !Ready(c)
    ensures LocalToServer(a)
    ensures var c' := S.Next(c, a);
      !Mute(c') && c'.up.handler.None? && c'.killed == c.killed && SpeakRank(c') < SpeakRank(c)
  {
    hide Min;
    var w := c.up.write;
    a := if w.UnlinkingWriter? then S.UnlinkWriter
         else if w.WritingTarget? then S.TargetWrote(Some(0))
         else S.TakeWrite;
  }

  /** The target ends, or refuses what it is given. */
  lemma {:induction false} Speak(c: S.Conn) returns (acts: seq<S.Action>)
    requires !Mute(c) && c.up.handler.None?
    ensures AllLocal(acts) && Ready(S.Run(c, acts)) && S.Run(c, acts).killed == c.killed
    decreases SpeakRank(c)
  {
    if Ready(c) {
      acts := [];
    } else {
      hide S.Next, Mute, Ready;
      var a := SpeakStep(c);
      var rest := Speak(S.Next(c, a));
      acts := [a] + rest;
      assert acts[1..] == rest;
    }
  }

  lemma StreamFrees(acts: seq<Action>, cid: nat)
    requires OnlyStream(acts)
    ensures Undisturbed(acts, cid)
  {
    forall i | 0 <= i < |acts| ensures !Frees(acts[i], cid) {
      assert IsStreamStep(acts[i]);
    }
  }

  lemma OpenKnown(s: System)
    requires s.air.None? && s.queue == [] && !s.live && s.known
    ensures var s' := Next(s, StreamOpened); Fresh(s') && s'.conns == s.conns && s'.known
  {
    hide SendNext, BeginNext, AirNext, HandoffNext, PostNext, StaleAll, Killed, Harmed;
  }

  /** The dispatch in the air lands and the stream is replaced. */
  lemma Reopened(s: System, cid: nat) returns (acts: seq<Action>, s': System)
    requires Inv(s) && cid in s.conns && InAir(s.air, cid) == [] && s.known
    ensures OnlyStream(acts) && s' == Run(s, acts) && Inv(s') && Fresh(s') && s'.known
    ensures cid in s'.conns && s'.conns[cid] == s.conns[cid]
  {
    hide Inv, Run, Next, Quiet, InAir;
    var land, s1 := LandAny(s, cid);
    var drop, s2 := DropStep(s1, cid);
    OpenKnown(s2);
    RunOne(s2, StreamOpened);
    s' := Next(s2, StreamOpened);
    NextKeepsInv(s2, StreamOpened);
    RunAppend(s, land, drop);
    RunAppend(s, land + drop, [StreamOpened]);
    acts := land + drop + [StreamOpened];
  }

  lemma {:induction false} OfServerFreesNothing(cid: nat, acts: seq<S.Action>)
    ensures Undisturbed(OfServer(cid, acts), cid)
  {
    if acts != [] {
      OfServerFreesNothing(cid, acts[1..]);
      var rest := OfServer(cid, acts[1..]);
      assert forall i :: 0 <= i < |rest| ==> ([Server(cid, acts[0])] + rest)[i + 1] == rest[i];
    }
  }

  /** The system after the server relay has enqueued `ev` on a fresh stream. */
  ghost predicate Uttered(s: System, s': System, cid: nat, ev: TunnelEvent) {
    && s'.air.None? && s'.queue == [Item(cid, ev)] && cid in s.conns && cid in s'.conns
    && s'.conns[cid].cli == s.conns[cid].cli && s'.conns[cid].registered == s.conns[cid].registered
  }

  lemma UtterRead(s: System, cid: nat) returns (ev: TunnelEvent)
    requires Fresh(s) && cid in s.conns && s.conns[cid].clone == Some(s.gen)
    requires s.conns[cid].srv.down.read.SendingChunk? || s.conns[cid].srv.down.read.SendingEnd?
    ensures Uttered(s, SendNext(s, cid), cid, ev)
  {
    hide S.Next, Harms;
    var d := s.conns[cid].srv.down;
    ev := if d.read.SendingChunk? then Data(d.read.chunk) else d.read.end;
    assert [] + [Item(cid, ev)] == [Item(cid, ev)];
  }

  lemma UtterReport(s: System, cid: nat)
    requires Fresh(s) && cid in s.conns && s.conns[cid].srv.up.write.ReportingWrite?
    ensures Uttered(s, Next(s, SendReport(cid)), cid, Error)
  {
    hide S.Next, Harms, Next;
    NextReaches(s, cid);
    assert [] + [Item(cid, Error)] == [Item(cid, Error)];
  }

  lemma Utter(s: System, cid: nat) returns (acts: seq<Action>, ev: TunnelEvent)
    requires Fresh(s) && cid in s.conns && Ready(s.conns[cid].srv) && !s.conns[cid].srv.killed
    ensures Undisturbed(acts, cid) && Uttered(s, Run(s, acts), cid, ev)
  {
    hide S.Next, Next, Run, SendNext;
    var cn := s.conns[cid];
    if cn.srv.up.write.ReportingWrite? {
      acts, ev := [SendReport(cid)], Error;
      UtterReport(s, cid);
      RunOne(s, SendReport(cid));
    } else {
      var s1 := Put(s, cid, cn.(clone := Some(s.gen)));
      NextClone(s, cid);
      RunOne(s, CloneSender(cid));
      ev := UtterRead(s1, cid);
      NextReaches(s1, cid);
      RunOne(s1, Send(cid));
      RunAppend(s, [CloneSender(cid)], [Send(cid)]);
      acts := [CloneSender(cid)] + [Send(cid)];
    }
  }

  /** What is queued is dispatched to a relay with room for it. */
  lemma Heeded(s: System, cid: nat, ev: TunnelEvent)
    requires cid in s.conns && s.air.None? && s.queue == [Item(cid, ev)] && s.conns[cid].registered
    requires var cli := s.conns[cid].cli; cli.open && !cli.writer.exited && cli.taken == |cli.recv|
    ensures var s' := Run(s, [Begin, DeliverEvent]); cid in s'.conns && C.CanMove(s'.conns[cid].cli)
  {
    hide Next, Run, C.CanMove;
    var cn := s.conns[cid];
    var s1 := Put(s, cid, cn.(dispatched := cn.dispatched + [ev])).(queue := [], air := Some(Item(cid, ev)));
    BeginIs(s);
    assert s.queue[1..] == [];
    assert Next(s, Begin) == s1;
    NextIsAir(s1, DeliverEvent);
    DeliveredMoves(s1, cid);
    RunOne(s, Begin);
    RunOne(s1, DeliverEvent);
    RunAppend(s, [Begin], [DeliverEvent]);
    assert [Begin] + [DeliverEvent] == [Begin, DeliverEvent];
  }

  lemma DeliveredMoves(s: System, cid: nat)
    requires s.air.Some? && s.air.value.Item? && s.air.value.cid == cid && cid in s.conns && s.conns[cid].registered
    requires var cli := s.conns[cid].cli; cli.open && !cli.writer.exited && cli.taken == |cli.recv|
    ensures var s' := AirNext(s, DeliverEvent); cid in s'.conns && C.CanMove(s'.conns[cid].cli)
  {
  }

  /** A parked relay of a server that can speak may hear from it. */
  lemma SpeakingFrees(s: System, cid: nat) returns (acts: seq<Action>)
    requires Inv(s) && Parked(s, cid) && s.known && !Mute(s.conns[cid].srv)
    ensures Undisturbed(acts, cid) && cid in Run(s, acts).conns && C.CanMove(Run(s, acts).conns[cid].cli)
  {
    hide Inv, Run, S.Run, C.CanMove, Mute, Ready, Uttered, Proj, InAir, Frees;
    ParkedIsIdle(s, cid);
    NotKilled(s, cid);
    var reopen, s1 := Reopened(s, cid);
    StreamFrees(reopen, cid);
    var cn := s1.conns[cid];
    var sacts := Speak(cn.srv);
    var say := OfServer(cid, sacts);
    ServerRun(s1, cid, sacts);
    OfServerFreesNothing(cid, sacts);
    var s2 := Put(s1, cid, cn.(srv := S.Run(cn.srv, sacts)));
    var utter, ev := Utter(s2, cid);
    var s3 := Run(s2, utter);
    UtteredIs(s2, s3, cid, ev);
    Heeded(s3, cid, ev);
    RunAppend(s, reopen, say);
    RunAppend(s, reopen + say, utter);
    RunAppend(s, reopen + say + utter, [Begin, DeliverEvent]);
    acts := reopen + say + utter + [Begin, DeliverEvent];
    DispatchFrees(cid);
    assert !Frees(Begin, cid) && !Frees(DeliverEvent, cid);
  }

  lemma DispatchFrees(cid: nat)
    ensures !Frees(Begin, cid) && !Frees(DeliverEvent, cid)
  {
  }

  lemma UtteredIs(s: System, s': System, cid: nat, ev: TunnelEvent)
    requires Uttered(s, s', cid, ev)
    ensures s'.air.None? && s'.queue == [Item(cid, ev)] && cid in s.conns && cid in s'.conns
    ensures s'.conns[cid].cli == s.conns[cid].cli && s'.conns[cid].registered == s.conns[cid].registered
  {
  }

  lemma NotKilled(s: System, cid: nat)
    requires Inv(s) && cid in s.conns && s.conns[cid].srv.up.handler.None? && !Mute(s.conns[cid].srv)
    ensures !s.conns[cid].srv.killed
  {
    hide Inv, C.Inv, Posted, S.ResponseInv, S.UploadInv;
    RelayIsSound(s, cid);
  }

  /** A run that frees the relay without help from the app, a restart or a rotation. */
  ghost predicate FreedBy(s: System, acts: seq<Action>, cid: nat) {
    && Undisturbed(acts, cid) && cid in Run(s, acts).conns
    && (Run(s, acts).conns[cid].cli.socket.Live? ==> C.CanMove(Run(s, acts).conns[cid].cli))
  }

  /** The fate of a parked relay, exactly: it can ever move again by itself if and only
      if its server relay can still say something, or its session is unknown to the
      server or a Reset is queued. */
  lemma FateIsExact(s: System, cid: nat)
    requires Inv(s) && Parked(s, cid)
    ensures (exists acts :: FreedBy(s, acts, cid)) <==> !Mute(s.conns[cid].srv) || ResetAhead(s)
  {
    if ResetAhead(s) {
      hide Inv, C.CanMove, Run;
      var acts := RelayIsReleased(s, cid);
      StreamFrees(acts, cid);
      assert FreedBy(s, acts, cid);
    } else if Mute(s.conns[cid].srv) {
      assert Stranded(s, cid);
      hide Inv, C.CanMove, Next, Parked;
      forall acts | Undisturbed(acts, cid) ensures !FreedBy(s, acts, cid) {
        StrandedForGood(s, cid, acts);
      }
    } else {
      hide Inv, C.CanMove, Run, Mute;
      var acts := SpeakingFrees(s, cid);
      assert FreedBy(s, acts, cid);
    }
  }

  lemma DeadIsMute(s: System, cid: nat)
    requires Inv(s) && Parked(s, cid) && s.conns[cid].srv.killed
    ensures Mute(s.conns[cid].srv)
  {
    hide Inv, Mute, C.CanMove, Proj;
    ParkedIsIdle(s, cid);
    if !Mute(s.conns[cid].srv) {
      NotKilled(s, cid);
    }
  }

  /** In every run, a parked relay of a server that has died can ever move again by
      itself if and only if its session's only Reset was not discarded unread: the
      stream that carried it was dropped, or its GET was answered after the client
      had given up on it. */
  lemma OrphansAreReleasedExactly(acts: seq<Action>, cid: nat)
    requires var s := Run(INIT, acts); Parked(s, cid) && Orphaned(s.conns[cid])
    ensures var s := Run(INIT, acts); (exists rest :: FreedBy(s, rest, cid)) <==> !s.resetLost
  {
    hide Next, Inv, FreedBy, ResetAhead, C.CanMove, Mute;
    InitInv();
    RunKeepsInv(INIT, acts);
    FateIsExact(Run(INIT, acts), cid);
    DeadIsMute(Run(INIT, acts), cid);
    ResetIsLostExactly(acts, cid);
  }
}
