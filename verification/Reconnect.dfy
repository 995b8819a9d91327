/** Reconnect signalling on the client: the SSE loop, any number of failed
    senders asking for a fresh stream, and the config watcher rotating the
    session (src/tunnel.rs:139-248, 288-323, 407-419; src/reload.rs:312-321). */
module Reconnect {

  /** Where the SSE loop is. `Locked` holds the session-id read lock across the
      drain; every phase before `Reading` is between streams. */
  datatype Phase = Between | HotLoaded | Connecting | Connected | Locked | Reading

  datatype Watcher = Idle | HotStored | SidRotated | Cleared

  /** A sender whose POST failed: registered for `sse_ready`, then through with
      its `notify_one`. `woken` is set by `notify_waiters`. */
  datatype Sender = Registered(woken: bool) | Fired(woken: bool)

  datatype State = State(
    phase: Phase,
    loopHot: nat,          // the config snapshot the loop took, for URL and HTTP client
    loopSid: nat,          // the session id it opened its stream for
    ready: bool,           // this stream has signalled `sse_ready`
    isReconnect: bool,
    raced: bool,           // that snapshot was older than the session id's own config
    sid: nat,
    sidHot: nat,           // the config published with the current session id
    hot: nat,
    permit: bool,          // `reconnect_signal`
    watcher: Watcher,
    senders: map<nat, Sender>)

  const INIT := State(Between, 0, 0, false, false, false, 0, 0, 0, false, Idle, map[])

  datatype Action =
    | LoadHot | ReadSid | GetOk | GetFailed | CheckSid | Drain
    | Frame(hasData: bool) | TakePermit | StreamEnded
    | PostFails(id: nat) | Fire(id: nat) | Leave(id: nat)
    | StoreHot | RotateSid | ClearChannels | Notify

  predicate Enabled(s: State, a: Action) {
    match a
    case LoadHot => s.phase.Between?
    case ReadSid => s.phase.HotLoaded?
    case GetOk => s.phase.Connecting?
    case GetFailed => s.phase.Connecting?
    case CheckSid => s.phase.Connected?
    case Drain => s.phase.Locked?
    case Frame(_) => s.phase.Reading?
    case TakePermit => s.phase.Reading? && s.permit
    case StreamEnded => s.phase.Reading?
    case PostFails(id) => id !in s.senders
    case Fire(id) => id in s.senders && s.senders[id].Registered?
    case Leave(id) => id in s.senders && s.senders[id].Fired?
    case StoreHot => s.watcher.Idle?
    // The write lock: not while the loop holds the read lock.
    case RotateSid => s.watcher.HotStored? && !s.phase.Locked?
    case ClearChannels => s.watcher.SidRotated?
    case Notify => s.watcher.Cleared?
  }

  function Wake(senders: map<nat, Sender>): map<nat, Sender> {
    map id | id in senders :: if senders[id].Registered? then Registered(true) else Fired(true)
  }

  /** `sse_read_loop` returned; every later stream is a reconnect. */
  function Back(s: State): State {
    s.(phase := Between, isReconnect := true)
  }

  function Next(s: State, a: Action): State {
    if !Enabled(s, a) then s else
    match a
    case LoadHot => s.(phase := HotLoaded, loopHot := s.hot)
    case ReadSid => s.(phase := Connecting, loopSid := s.sid, raced := s.loopHot < s.sidHot)
    case GetOk => s.(phase := Connected)
    case GetFailed => Back(s)
    case CheckSid => if s.sid == s.loopSid then s.(phase := Locked) else Back(s)
    case Drain => s.(phase := Reading, ready := false, permit := false)
    case Frame(hasData) =>
      if !s.ready && (hasData || s.isReconnect) then s.(ready := true, senders := Wake(s.senders)) else s
    case TakePermit => Back(s.(permit := false))
    case StreamEnded => Back(s)
    case PostFails(id) => s.(senders := s.senders[id := Registered(false)])
    case Fire(id) => s.(senders := s.senders[id := Fired(s.senders[id].woken)], permit := true)
    case Leave(id) => s.(senders := map i | i in s.senders && i != id :: s.senders[i])
    case StoreHot => s.(watcher := HotStored, hot := s.hot + 1)
    case RotateSid => s.(watcher := SidRotated, sid := s.sid + 1, sidHot := s.hot)
    case ClearChannels => s.(watcher := Cleared)
    case Notify => s.(watcher := Idle, permit := true)
  }

  function Run(s: State, acts: seq<Action>): State
    decreases |acts|
  {
    if acts == [] then s else Run(Next(s, acts[0]), acts[1..])
  }

  // ------------------------------------------------------------------ invariants

  /** Someone is waiting for a ready signal it has asked for. */
  predicate WaitsInVain(s: State, id: nat) {
    id in s.senders && s.senders[id] == Fired(false)
  }

  /** A ready signal is still to come: from the current stream, or from the one
      a pending permit or a loop between streams will open. */
  predicate SignalAhead(s: State) {
    s.permit || !s.phase.Reading? || !s.ready
  }

  ghost predicate NoLostWakeup(s: State) {
    forall id :: WaitsInVain(s, id) ==> SignalAhead(s)
  }

  predicate RotationUnannounced(s: State) {
    s.watcher.SidRotated? || s.watcher.Cleared?
  }

  /** A stream for a rotated session is on its way out. */
  predicate NoStaleSession(s: State) {
    s.phase.Reading? && s.loopSid != s.sid ==> s.permit || RotationUnannounced(s)
  }

  predicate HasSid(p: Phase) {
    p.Connecting? || p.Connected? || p.Locked? || p.Reading?
  }

  predicate HotInv(s: State) {
    && s.loopHot <= s.hot
    && s.hot == s.sidHot + (if s.watcher.HotStored? then 1 else 0)
    && s.loopSid <= s.sid
    && (HasSid(s.phase) && s.loopSid == s.sid && !s.raced ==> s.loopHot >= s.sidHot)
  }

  ghost predicate Inv(s: State) {
    && NoLostWakeup(s)
    && NoStaleSession(s)
    && (s.phase.Locked? ==> s.loopSid == s.sid)
    && HotInv(s)
  }

  lemma NextKeepsInv(s: State, a: Action)
    requires Inv(s)
    ensures Inv(Next(s, a))
  {
    var s' := Next(s, a);
    forall id | WaitsInVain(s', id) ensures SignalAhead(s') {
      if a.Fire? && a.id == id {
      } else {
        assert WaitsInVain(s, id);
      }
    }
  }

  lemma {:induction false} RunKeepsInv(s: State, acts: seq<Action>)
    requires Inv(s)
    ensures Inv(Run(s, acts))
    decreases |acts|
  {
    if acts != [] {
      NextKeepsInv(s, acts[0]);
      RunKeepsInv(Next(s, acts[0]), acts[1..]);
    }
  }

  /** No lost wake-up and no stale session, whatever the interleaving of the
      loop, the senders and the watcher. */
  lemma SignalsAreNeverLost(acts: seq<Action>)
    ensures NoLostWakeup(Run(INIT, acts)) && NoStaleSession(Run(INIT, acts))
  {
    RunKeepsInv(INIT, acts);
  }

  /** The drain never eats the only wake-up of a rotation it has not seen: it
      runs for the current session id, and what it leaves behind is a stream
      that still owes every waiter its signal. */
  lemma DrainIsSafe(acts: seq<Action>)
    requires Run(INIT, acts).phase.Locked?
    ensures var s := Run(INIT, acts);
      && s.loopSid == s.sid && Next(s, RotateSid) == s
      && SignalAhead(Next(s, Drain)) && Next(s, Drain).loopSid == Next(s, Drain).sid
  {
    RunKeepsInv(INIT, acts);
  }

  /** The next ready signal wakes every sender registered by then. */
  lemma ReadyWakesAll(s: State, id: nat)
    requires s.phase.Reading? && !s.ready && id in s.senders
    ensures Next(s, Frame(true)).senders[id].woken
    ensures s.isReconnect ==> Next(s, Frame(false)).senders[id].woken
  {
  }

  // -------------------------------------------------------- when a signal is given

  /** The loop comes back from a stream, or from an attempt at one. */
  ghost predicate ComesBack(s: State, acts: seq<Action>)
    decreases |acts|
  {
    && acts != []
    && ((!s.phase.Between? && Next(s, acts[0]).phase.Between?) || ComesBack(Next(s, acts[0]), acts[1..]))
  }

  lemma ReconnectStep(s: State, a: Action)
    ensures Next(s, a).isReconnect <==> s.isReconnect || (!s.phase.Between? && Next(s, a).phase.Between?)
  {
  }

  /** Every stream but the first is a reconnect, and no other. */
  lemma {:induction false} ReconnectIsExact(s: State, acts: seq<Action>)
    ensures Run(s, acts).isReconnect <==> s.isReconnect || ComesBack(s, acts)
    decreases |acts|
  {
    hide Next;
    if acts != [] {
      ReconnectStep(s, acts[0]);
      ReconnectIsExact(Next(s, acts[0]), acts[1..]);
    }
  }

  /** The stream is read throughout. */
  ghost predicate StaysOpen(s: State, acts: seq<Action>)
    decreases |acts|
  {
    s.phase.Reading? && (acts == [] || StaysOpen(Next(s, acts[0]), acts[1..]))
  }

  ghost predicate Sees(acts: seq<Action>, hasData: bool) {
    Frame(hasData) in acts
  }

  lemma ReadyStep(s: State, a: Action)
    requires s.phase.Reading? && Next(s, a).phase.Reading?
    ensures var s' := Next(s, a);
      && s'.isReconnect == s.isReconnect
      && (s'.ready <==> s.ready || a == Frame(true) || (s.isReconnect && a == Frame(false)))
  {
  }

  lemma {:induction false} ReadyIsExact(s: State, acts: seq<Action>)
    requires StaysOpen(s, acts)
    ensures var e := Run(s, acts);
      && e.isReconnect == s.isReconnect
      && (e.ready <==> s.ready || Sees(acts, true) || (s.isReconnect && Sees(acts, false)))
    decreases |acts|
  {
    hide Next;
    if acts != [] {
      ReadyStep(s, acts[0]);
      ReadyIsExact(Next(s, acts[0]), acts[1..]);
      assert acts == [acts[0]] + acts[1..];
    }
  }

  /** A stream has signalled ready if and only if it has seen a data frame or, as a
      reconnect, any frame: the drain leaves it to start anew. */
  lemma StreamSignalsExactly(before: seq<Action>, frames: seq<Action>)
    requires var s := Run(INIT, before); s.phase.Locked? && StaysOpen(Next(s, Drain), frames)
    ensures var s := Run(INIT, before);
      Run(Next(s, Drain), frames).ready <==> Sees(frames, true) || (ComesBack(INIT, before) && Sees(frames, false))
  {
    var s := Run(INIT, before);
    ReconnectIsExact(INIT, before);
    ReadyIsExact(Next(s, Drain), frames);
  }

  lemma FirstReadyStep(s: State, a: Action)
    requires (s.ready ==> s.isReconnect) && a != Frame(true)
    ensures Next(s, a).ready ==> Next(s, a).isReconnect
  {
  }

  /** In particular the first connection waits for data: no keepalive lets a POST
      overtake the Reset of a fresh session. */
  lemma {:induction false} FirstReadyIsData(s: State, acts: seq<Action>)
    requires s.ready ==> s.isReconnect
    ensures var e := Run(s, acts); e.ready && !e.isReconnect ==> Sees(acts, true)
    decreases |acts|
  {
    if acts != [] {
      assert acts == [acts[0]] + acts[1..];
      if acts[0] != Frame(true) {
        FirstReadyStep(s, acts[0]);
        hide Next;
        FirstReadyIsData(Next(s, acts[0]), acts[1..]);
      }
    }
  }

  /** The actions that leave a permit behind. */
  predicate LeavesPermit(a: Action) {
    a.Fire? || a.Notify?
  }

  lemma {:induction false} NoPermitComes(s: State, acts: seq<Action>)
    requires !s.permit && forall i :: 0 <= i < |acts| ==> !LeavesPermit(acts[i])
    ensures !Run(s, acts).permit
    decreases |acts|
  {
    if acts != [] {
      NoPermitComes(Next(s, acts[0]), acts[1..]);
    }
  }

  /** A stream is forced down only by a signal fired since it was established: the
      drain has taken what was buffered while it was connecting. And a signal
      forces one stream down. */
  lemma OnlyNewSignalsForce(s: State, acts: seq<Action>)
    requires s.phase.Locked? && forall i :: 0 <= i < |acts| ==> !LeavesPermit(acts[i])
    ensures var e := Run(Next(s, Drain), acts); Next(e, TakePermit) == e
    ensures forall t: State :: Next(t, TakePermit) == t || !Next(t, TakePermit).permit
  {
    NoPermitComes(Next(s, Drain), acts);
  }

  /** Some stream of the run signals ready. */
  ghost predicate Signals(s: State, acts: seq<Action>)
    decreases |acts|
  {
    acts != [] && ((!s.ready && Next(s, acts[0]).ready) || Signals(Next(s, acts[0]), acts[1..]))
  }

  lemma WokenStep(s: State, id: nat, a: Action)
    requires id in s.senders && a != Leave(id)
    ensures var s' := Next(s, a);
      id in s'.senders && (s'.senders[id].woken <==> s.senders[id].woken || (!s.ready && s'.ready))
  {
  }

  lemma {:induction false} WokenFrom(s: State, id: nat, acts: seq<Action>)
    requires id in s.senders && Leave(id) !in acts
    ensures var e := Run(s, acts); id in e.senders && (e.senders[id].woken <==> s.senders[id].woken || Signals(s, acts))
    decreases |acts|
  {
    if acts != [] {
      hide Next;
      assert acts == [acts[0]] + acts[1..];
      WokenStep(s, id, acts[0]);
      WokenFrom(Next(s, acts[0]), id, acts[1..]);
    }
  }

  /** A sender is woken by a ready signal given since its POST failed, and by nothing
      else; until then it waits. */
  lemma WokenExactly(s: State, id: nat, acts: seq<Action>)
    requires id !in s.senders && Leave(id) !in acts
    ensures var e := Run(Next(s, PostFails(id)), acts);
      id in e.senders && (e.senders[id].woken <==> Signals(Next(s, PostFails(id)), acts))
  {
    WokenFrom(Next(s, PostFails(id)), id, acts);
  }

  /** A path of the loop alone that wakes a waiting sender. */
  function WakingPath(s: State): seq<Action> {
    var open := [LoadHot, ReadSid, GetOk, CheckSid, Drain, Frame(true)];
    match s.phase
    case Between => open
    case HotLoaded => open[1..]
    case Connecting => if s.loopSid == s.sid then open[2..] else [GetFailed] + open
    case Connected => if s.loopSid == s.sid then open[3..] else [CheckSid] + open
    case Locked => open[4..]
    case Reading => if s.ready then [TakePermit] + open else open[5..]
  }

  lemma {:induction false} RunFrom(s: State, a: Action, rest: seq<Action>)
    ensures Run(s, [a] + rest) == Run(Next(s, a), rest)
  {
    assert ([a] + rest)[1..] == rest;
  }

  lemma FromLocked(s: State, id: nat)
    requires s.phase.Locked? && id in s.senders
    ensures var e := Run(s, [Drain, Frame(true)]); id in e.senders && e.senders[id].woken
  {
    RunFrom(s, Drain, [Frame(true)]);
    RunFrom(Next(s, Drain), Frame(true), []);
    assert [Drain] + [Frame(true)] == [Drain, Frame(true)] && [Frame(true)] + [] == [Frame(true)];
  }

  lemma FromConnecting(s: State, id: nat)
    requires s.phase.Connecting? && s.loopSid == s.sid && id in s.senders
    ensures var e := Run(s, [GetOk, CheckSid, Drain, Frame(true)]); id in e.senders && e.senders[id].woken
    ensures var e := Run(Next(s, GetOk), [CheckSid, Drain, Frame(true)]); id in e.senders && e.senders[id].woken
  {
    FromConnected(Next(s, GetOk), id);
    assert [GetOk] + [CheckSid, Drain, Frame(true)] == [GetOk, CheckSid, Drain, Frame(true)];
    RunFrom(s, GetOk, [CheckSid, Drain, Frame(true)]);
  }

  lemma FromConnected(s: State, id: nat)
    requires s.phase.Connected? && s.loopSid == s.sid && id in s.senders
    ensures var e := Run(s, [CheckSid, Drain, Frame(true)]); id in e.senders && e.senders[id].woken
  {
    FromLocked(Next(s, CheckSid), id);
    assert [CheckSid] + [Drain, Frame(true)] == [CheckSid, Drain, Frame(true)];
    RunFrom(s, CheckSid, [Drain, Frame(true)]);
  }

  lemma FromHotLoaded(s: State, id: nat)
    requires s.phase.HotLoaded? && id in s.senders
    ensures var e := Run(s, [ReadSid, GetOk, CheckSid, Drain, Frame(true)]); id in e.senders && e.senders[id].woken
  {
    FromConnecting(Next(s, ReadSid), id);
    assert [ReadSid] + [GetOk, CheckSid, Drain, Frame(true)] == [ReadSid, GetOk, CheckSid, Drain, Frame(true)];
    RunFrom(s, ReadSid, [GetOk, CheckSid, Drain, Frame(true)]);
  }

  lemma FromBetween(s: State, id: nat)
    requires s.phase.Between? && id in s.senders
    ensures var e := Run(s, [LoadHot, ReadSid, GetOk, CheckSid, Drain, Frame(true)]);
      id in e.senders && e.senders[id].woken
  {
    FromHotLoaded(Next(s, LoadHot), id);
    assert [LoadHot] + [ReadSid, GetOk, CheckSid, Drain, Frame(true)] ==
      [LoadHot, ReadSid, GetOk, CheckSid, Drain, Frame(true)];
    RunFrom(s, LoadHot, [ReadSid, GetOk, CheckSid, Drain, Frame(true)]);
  }

  /** A waiter is never stuck: from every reachable state the loop, with nothing
      but its GET and one frame succeeding, gets to the signal that wakes it. */
  lemma EveryWaiterCanBeWoken(s: State, id: nat)
    requires Inv(s) && WaitsInVain(s, id)
    ensures var e := Run(s, WakingPath(s)); id in e.senders && e.senders[id].woken
  {
    var open := [LoadHot, ReadSid, GetOk, CheckSid, Drain, Frame(true)];
    match s.phase
    case Between => FromBetween(s, id);
    case HotLoaded => FromHotLoaded(s, id);
    case Connecting =>
      if s.loopSid == s.sid {
        FromConnecting(s, id);
      } else {
        FromBetween(Next(s, GetFailed), id);
        RunFrom(s, GetFailed, open);
      }
    case Connected =>
      if s.loopSid == s.sid {
        FromConnected(s, id);
      } else {
        FromBetween(Next(s, CheckSid), id);
        RunFrom(s, CheckSid, open);
      }
    case Locked => FromLocked(s, id);
    case Reading =>
      if s.ready {
        assert SignalAhead(s);
        FromBetween(Next(s, TakePermit), id);
        RunFrom(s, TakePermit, open);
      } else {
        RunFrom(s, Frame(true), []);
        assert [Frame(true)] + [] == [Frame(true)];
      }
  }

  /** However a stream ends, the loop alone opens another, a reconnect for the current
      session that owes its signal. */
  lemma LoopReopens(s: State, end: Action)
    requires s.phase.Reading? && (end == StreamEnded || (end == TakePermit && s.permit))
    ensures var e := Run(s, [end, LoadHot, ReadSid, GetOk, CheckSid, Drain]);
      e.phase.Reading? && e.isReconnect && !e.ready && e.loopSid == e.sid == s.sid && e.senders == s.senders
  {
    var s1 := Next(s, end);
    assert s1.phase.Between? && s1.isReconnect && s1.sid == s.sid && s1.senders == s.senders;
    hide Next;
    assert [end] + [LoadHot, ReadSid, GetOk, CheckSid, Drain] == [end, LoadHot, ReadSid, GetOk, CheckSid, Drain];
    RunFrom(s, end, [LoadHot, ReadSid, GetOk, CheckSid, Drain]);
    LoopOpens(s1);
  }

  lemma LoopOpens(s: State)
    requires s.phase.Between?
    ensures var e := Run(s, [LoadHot, ReadSid, GetOk, CheckSid, Drain]);
      && e.phase.Reading? && !e.ready && e.loopSid == e.sid == s.sid
      && e.isReconnect == s.isReconnect && e.senders == s.senders
  {
    var s2 := Next(Next(s, LoadHot), ReadSid);
    assert s2.phase.Connecting? && s2.loopSid == s2.sid == s.sid && s2.isReconnect == s.isReconnect &&
      s2.senders == s.senders;
    StreamOpens(s2);
    hide Next;
    assert [LoadHot] + [ReadSid, GetOk, CheckSid, Drain] == [LoadHot, ReadSid, GetOk, CheckSid, Drain];
    assert [ReadSid] + [GetOk, CheckSid, Drain] == [ReadSid, GetOk, CheckSid, Drain];
    RunFrom(s, LoadHot, [ReadSid, GetOk, CheckSid, Drain]);
    RunFrom(Next(s, LoadHot), ReadSid, [GetOk, CheckSid, Drain]);
  }

  lemma StreamOpens(s: State)
    requires s.phase.Connecting? && s.loopSid == s.sid
    ensures var e := Run(s, [GetOk, CheckSid, Drain]);
      && e.phase.Reading? && !e.ready && e.loopSid == e.sid == s.sid
      && e.isReconnect == s.isReconnect && e.senders == s.senders
  {
    var s1 := Next(s, GetOk);
    var s2 := Next(s1, CheckSid);
    assert [GetOk] + [CheckSid, Drain] == [GetOk, CheckSid, Drain];
    assert [CheckSid] + [Drain] == [CheckSid, Drain] && [Drain] + [] == [Drain];
    RunFrom(s, GetOk, [CheckSid, Drain]);
    RunFrom(s1, CheckSid, [Drain]);
    RunFrom(s2, Drain, []);
  }

  // ------------------------------------------- what does not hold for the config

  /** The stream was opened with the current config, or will be replaced. */
  predicate ConfigCurrent(s: State) {
    s.phase.Reading? ==> s.loopHot == s.hot || s.permit || !s.watcher.Idle?
  }

  /** The snapshot is taken before the session id is read. A stream whose
      snapshot was already older than its session id's config when the id was
      read is the only kind that can keep an outdated one. */
  lemma ConfigIsCurrentUnlessRaced(acts: seq<Action>)
    requires !Run(INIT, acts).raced
    ensures ConfigCurrent(Run(INIT, acts))
  {
    RunKeepsInv(INIT, acts);
  }

  /** A loop that takes its snapshot and the session id without the watcher in between
      is not raced, and its stream is current. */
  lemma AloneIsNotRaced(s: State)
    requires Inv(s) && s.phase.Between?
    ensures var e := Next(Next(s, LoadHot), ReadSid); !e.raced && e.loopHot == s.hot && e.loopSid == s.sid
  {
  }

  /** And such a stream, with the watcher done and its permit drained, stays. */
  lemma RacedConfigIsOutdated(s: State)
    requires Inv(s) && s.phase.HotLoaded? && s.watcher.Idle?
    ensures var e := Run(s, [ReadSid, GetOk, CheckSid, Drain]);
      e.phase.Reading? && (ConfigCurrent(e) <==> !e.raced) && (e.raced <==> s.loopHot < s.hot)
  {
    var s1 := Next(s, ReadSid);
    var s2 := Next(s1, GetOk);
    var s3 := Next(s2, CheckSid);
    assert [ReadSid] + [GetOk, CheckSid, Drain] == [ReadSid, GetOk, CheckSid, Drain];
    assert [GetOk] + [CheckSid, Drain] == [GetOk, CheckSid, Drain];
    assert [CheckSid] + [Drain] == [CheckSid, Drain] && [Drain] + [] == [Drain];
    RunFrom(s, ReadSid, [GetOk, CheckSid, Drain]);
    RunFrom(s1, GetOk, [CheckSid, Drain]);
    RunFrom(s2, CheckSid, [Drain]);
    RunFrom(s3, Drain, []);
  }

  /** The loop has taken its snapshot, and the watcher then publishes and rotates. */
  lemma RaceStates()
    ensures var s := Next(Next(Next(Next(Next(INIT, LoadHot), StoreHot), RotateSid), ClearChannels), Notify);
      s.phase.HotLoaded? && s.watcher.Idle? && s.loopHot < s.hot
  {
    var s2 := Next(Next(INIT, LoadHot), StoreHot);
    assert s2.phase.HotLoaded? && s2.watcher.HotStored? && s2.loopHot < s2.hot;
    hide Next;
    RotationEnds(s2);
  }

  lemma RotationEnds(s: State)
    requires s.phase.HotLoaded? && s.watcher.HotStored? && s.loopHot < s.hot
    ensures var s' := Next(Next(Next(s, RotateSid), ClearChannels), Notify);
      s'.phase.HotLoaded? && s'.watcher.Idle? && s'.loopHot < s'.hot
  {
    var s' := Next(s, RotateSid);
    assert s'.phase.HotLoaded? && s'.watcher.SidRotated? && s'.loopHot < s'.hot;
  }

  lemma RaceIsReachable()
    ensures exists acts: seq<Action> :: var s := Run(INIT, acts);
      s.phase.HotLoaded? && s.watcher.Idle? && s.loopHot < s.hot
  {
    RaceStates();
    hide Next;
    var s1 := Next(INIT, LoadHot);
    var s2 := Next(s1, StoreHot);
    var s3 := Next(s2, RotateSid);
    var s4 := Next(s3, ClearChannels);
    RunFrom(INIT, LoadHot, [StoreHot, RotateSid, ClearChannels, Notify]);
    RunFrom(s1, StoreHot, [RotateSid, ClearChannels, Notify]);
    RunFrom(s2, RotateSid, [ClearChannels, Notify]);
    RunFrom(s3, ClearChannels, [Notify]);
    RunFrom(s4, Notify, []);
    assert [StoreHot] + [RotateSid, ClearChannels, Notify] == [StoreHot, RotateSid, ClearChannels, Notify];
    assert [RotateSid] + [ClearChannels, Notify] == [RotateSid, ClearChannels, Notify];
    assert [ClearChannels] + [Notify] == [ClearChannels, Notify] && [Notify] + [] == [Notify];
    assert Run(INIT, [LoadHot] + [StoreHot, RotateSid, ClearChannels, Notify]) == Next(s4, Notify);
  }
}
