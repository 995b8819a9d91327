/** The way of a Reset: while one is to come, the stream and the dispatch loop alone
    release every relay (src/server.rs:201-239, src/tunnel.rs:368-380). */
module TunnelRelease {
  import opened Prelude
  import opened Events
  import opened Tunnel
  import opened TunnelInvariant
  import opened TunnelIsolation
  import opened TunnelOrder
  import opened TunnelResets
  import opened TunnelSteps
  import C = ClientRelay
  import S = ServerRelay

  /** A step of the stream or of the dispatch loop. */
  predicate IsStreamStep(a: Action) {
    a.Begin? || a.DeliverEvent? || a.ReceiverDropped? || a.Stall? || a.StreamDropped? || a.StreamOpened?
  }

  ghost predicate OnlyStream(acts: seq<Action>) {
    forall i :: 0 <= i < |acts| ==> IsStreamStep(acts[i])
  }

  /** No event for this connection is anywhere on its way. */
  ghost predicate Quiet(s: System, cid: nat) {
    && cid in s.conns && s.conns[cid].handoffs == 0 && InAir(s.air, cid) == [] && Proj(s.queue, cid) == []
  }

  ghost predicate Along(s: System, acts: seq<Action>, s': System, cid: nat) {
    && OnlyStream(acts) && s' == Run(s, acts) && cid in s'.conns
    && (Quiet(s, cid) ==> Quiet(s', cid))
  }

  lemma Follow(s: System, acts: seq<Action>, s1: System, rest: seq<Action>, s2: System, cid: nat)
    requires Along(s, acts, s1, cid) && Along(s1, rest, s2, cid)
    ensures Along(s, acts + rest, s2, cid)
  {
    hide Run, Quiet;
    RunAppend(s, acts, rest);
  }

  lemma Step(s: System, a: Action, cid: nat) returns (acts: seq<Action>)
    requires IsStreamStep(a) && cid in Next(s, a).conns && (Quiet(s, cid) ==> Quiet(Next(s, a), cid))
    ensures Along(s, acts, Next(s, a), cid)
  {
    hide Next, Quiet;
    acts := [a];
    assert acts[1..] == [] && Run(Next(s, a), []) == Next(s, a);
  }

  /** What matters of the stream is unchanged. */
  ghost predicate SameStream(s: System, s': System) {
    s'.queue == s.queue && s'.live == s.live && s'.known == s.known
  }

  predicate EndsDispatch(a: Action) {
    a.DeliverEvent? || a.ReceiverDropped? || a.Stall?
  }

  lemma LandAny(s: System, cid: nat) returns (acts: seq<Action>, s': System)
    requires Inv(s) && cid in s.conns
    ensures Along(s, acts, s', cid) && Inv(s') && s'.air.None? && SameStream(s, s')
    ensures InAir(s.air, cid) == [] ==> s'.conns[cid] == s.conns[cid]
    ensures forall i :: 0 <= i < |acts| ==> EndsDispatch(acts[i])
  {
    hide Inv, Next, Isolated, Proj;
    if s.air.None? {
      acts, s' := [], s;
    } else {
      DispatchCanLand(s);
      var a: Action :| (a.DeliverEvent? || a.ReceiverDropped? || a.Stall?) && Next(s, a).air.None?;
      s' := Next(s, a);
      AirIsOpen(s);
      NextKeepsInv(s, a);
      DispatchIsIsolated(s, a);
      IsolatedIsQuiet(s, s', a, cid);
      AirKeepsStream(s, a);
      acts := [a];
      RunOne(s, a);
    }
  }

  lemma IsolatedIsQuiet(s: System, s': System, a: Action, cid: nat)
    requires s.air.Some? && s.air.value.Item? && Isolated(s, s', a) && cid in s.conns && s'.air.None?
    ensures cid in s'.conns && (Quiet(s, cid) ==> Quiet(s', cid))
    ensures InAir(s.air, cid) == [] ==> s'.conns[cid] == s.conns[cid]
  {
    hide Proj;
  }

  lemma AirKeepsStream(s: System, a: Action)
    requires a.DeliverEvent? || a.ReceiverDropped? || a.Stall?
    ensures SameStream(s, Next(s, a))
  {
    NextIsAir(s, a);
    hide Next, C.Next, Settle;
  }

  /** A Reset at the head of the queue reaches every connection. */
  lemma ResetStep(s: System, cid: nat) returns (acts: seq<Action>, s': System)
    requires Inv(s) && cid in s.conns && s.air.None? && s.queue != [] && s.queue[0].ResetItem?
    ensures Along(s, acts, s', cid) && Inv(s') && s'.air.None? && !s'.conns[cid].registered
  {
    hide Inv, Settle;
    NextKeepsInv(s, Begin);
    BeginIs(s);
    hide Next;
    s' := Next(s, Begin);
    SettleRegistered(s.conns[cid].(registered := false), InAir(s.air, cid) != []);
    SettleHandoffs(s.conns[cid].(registered := false), InAir(s.air, cid) != []);
    assert Proj(s.queue, cid) == [] + Proj(s.queue[1..], cid);
    acts := Step(s, Begin, cid);
  }

  lemma SettleHandoffs(cn: Conn, inAir: bool)
    ensures Settle(cn, inAir).handoffs == cn.handoffs
  {
  }

  /** Any other head just leaves the queue. */
  lemma ItemStep(s: System, cid: nat) returns (acts: seq<Action>, s': System)
    requires Inv(s) && cid in s.conns && s.air.None? && s.queue != [] && s.queue[0].Item?
    ensures Along(s, acts, s', cid) && Inv(s') && s'.queue == s.queue[1..] && s'.known == s.known && s'.live == s.live
  {
    hide Inv, Next, BeginNext, Quiet;
    NextKeepsInv(s, Begin);
    BeginIs(s);
    s' := Next(s, Begin);
    ItemBegins(s, cid);
    acts := Step(s, Begin, cid);
  }

  lemma ItemBegins(s: System, cid: nat)
    requires cid in s.conns && s.air.None? && s.queue != [] && s.queue[0].Item?
    ensures var s' := BeginNext(s);
      && s'.queue == s.queue[1..] && s'.known == s.known && s'.live == s.live && cid in s'.conns
      && (Quiet(s, cid) ==> Quiet(s', cid))
  {
    hide ClearAll;
    var head := s.queue[0];
    BeginOthersOrder(s, head.cid);
    hide Proj, InAir;
    if Quiet(s, cid) {
      assert head.cid != cid;
    }
  }

  lemma DropStep(s: System, cid: nat) returns (acts: seq<Action>, s': System)
    requires Inv(s) && cid in s.conns && s.air.None?
    ensures Along(s, acts, s', cid) && Inv(s') && s'.air.None? && s'.queue == [] && !s'.live && s'.known == s.known
    ensures s'.conns == s.conns && acts == [StreamDropped]
  {
    hide Inv, SendNext, BeginNext, AirNext, HandoffNext, PostNext, StaleAll, Killed, Harmed;
    NextKeepsInv(s, StreamDropped);
    s' := Next(s, StreamDropped);
    assert s' == Next(s, StreamDropped);
    assert Proj([], cid) == [];
    hide Next, Proj;
    acts := [StreamDropped];
    RunOne(s, StreamDropped);
  }

  lemma OpenStep(s: System, cid: nat) returns (acts: seq<Action>, s': System)
    requires Inv(s) && cid in s.conns && s.air.None? && s.queue == [] && !s.live && !s.known
    ensures Along(s, acts, s', cid) && Inv(s') && s'.air.None? && s'.queue == [ResetItem]
  {
    hide Inv, SendNext, BeginNext, AirNext, HandoffNext, PostNext, StaleAll, Killed, Harmed;
    NextKeepsInv(s, StreamOpened);
    s' := Next(s, StreamOpened);
    assert s' == Next(s, StreamOpened);
    assert Proj([ResetItem], cid) == [] + Proj([], cid);
    hide Next, Proj;
    acts := Step(s, StreamOpened, cid);
  }

  /** An unknown session's next stream brings the Reset. */
  lemma AnnounceReset(s: System, cid: nat) returns (acts: seq<Action>, s': System)
    requires Inv(s) && cid in s.conns && s.air.None? && !s.known
    ensures Along(s, acts, s', cid) && Inv(s') && s'.air.None? && !s'.conns[cid].registered
  {
    hide Inv, Along;
    var drop, s1 := DropStep(s, cid);
    AlongIsHere(s, drop, s1, cid);
    var open, s2 := OpenStep(s1, cid);
    AlongIsHere(s1, open, s2, cid);
    Follow(s, drop, s1, open, s2, cid);
    var reset;
    reset, s' := ResetStep(s2, cid);
    Follow(s, drop + open, s2, reset, s', cid);
    acts := drop + open + reset;
    AlongIsHere(s, acts, s', cid);
  }

  lemma AlongIsHere(s: System, acts: seq<Action>, s': System, cid: nat)
    requires Along(s, acts, s', cid)
    ensures cid in s'.conns && OnlyStream(acts) && s' == Run(s, acts) && (Quiet(s, cid) ==> Quiet(s', cid))
  {
    hide Run, Quiet, OnlyStream;
  }

  /** While a Reset is to come, the stream and the dispatch loop alone bring it. */
  lemma {:induction false} ResetComes(s: System, cid: nat) returns (acts: seq<Action>, s': System)
    requires Inv(s) && cid in s.conns && ResetAhead(s)
    ensures Along(s, acts, s', cid) && Inv(s') && s'.air.None? && !s'.conns[cid].registered
    decreases |s.queue|
  {
    hide Inv, Along;
    var s1;
    acts, s1 := LandAny(s, cid);
    AlongIsHere(s, acts, s1, cid);
    if ResetItem !in s1.queue {
      var rest;
      rest, s' := AnnounceReset(s1, cid);
      Follow(s, acts, s1, rest, s', cid);
      acts := acts + rest;
    } else if s1.queue[0].ResetItem? {
      var rest;
      rest, s' := ResetStep(s1, cid);
      Follow(s, acts, s1, rest, s', cid);
      acts := acts + rest;
    } else {
      var begin, s2 := ItemStep(s1, cid);
      AlongIsHere(s1, begin, s2, cid);
      Follow(s, acts, s1, begin, s2, cid);
      assert s1.queue == [s1.queue[0]] + s1.queue[1..];
      var rest;
      rest, s' := ResetComes(s2, cid);
      Follow(s, acts + begin, s2, rest, s', cid);
      acts := acts + begin + rest;
    }
    AlongIsHere(s, acts, s', cid);
  }

  /** From any state with a Reset to come, the stream and the dispatch loop alone
      release every relay: it can move, or has a handed-off `Close` to come. */
  lemma RelayIsReleased(s: System, cid: nat) returns (acts: seq<Action>)
    requires Inv(s) && cid in s.conns && ResetAhead(s)
    ensures OnlyStream(acts) && cid in Run(s, acts).conns
    ensures var cn := Run(s, acts).conns[cid];
      cn.cli.socket.Live? ==> C.CanMove(cn.cli) || cn.handoffs > 0
    ensures Quiet(s, cid) ==> Quiet(Run(s, acts), cid)
  {
    hide Inv, Along, Run, C.CanMove, Quiet, OnlyStream, ResetAhead;
    var s';
    acts, s' := ResetComes(s, cid);
    AlongIsHere(s, acts, s', cid);
    if s'.conns[cid].cli.socket.Live? {
      ClearedCanMove(s', cid);
    }
  }
}
