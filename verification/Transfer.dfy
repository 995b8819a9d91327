/** `push` and `pull`: the client sessions (src/transfer.rs:41-100, 117-176), the
    server's side of each (src/server.rs:1210-1319), and the two joined by a
    tunnel that delivers a prefix of what was sent. */
module Transfer {
  import opened Prelude
  import opened Events

  /** What announcing the transfer came back with. */
  datatype Ack = PostFailed | Refused | Accepted

  // ------------------------------------------------------- push, the client's side

  /** One turn of the upload loop's select. */
  datatype Pick = FromChunks(posted: bool) | FromEvents

  /** What the client posts during a `push`. */
  datatype PushMsg = Chunk(data: Bytes) | Done

  /** How the upload loop went: what it posted, with the `Close` behind it, whether
      it went through, and how many events it took meanwhile. */
  datatype Upload = Upload(posts: seq<PushMsg>, through: bool, early: nat)

  /** The upload loop, on the chunks and events still to come. */
  function Uploading(chunks: seq<Bytes>, compressed: bool, picks: seq<Pick>, left: seq<TunnelEvent>): Upload {
    if picks == [] then Upload([], false, 0)
    else match picks[0]
      case FromChunks(posted) =>
        if chunks == [] then Upload([Done], compressed, 0)
        else if !posted then Upload([Done], false, 0)
        else
          var u := Uploading(chunks[1..], compressed, picks[1..], left);
          u.(posts := [Chunk(chunks[0])] + u.posts)
      case FromEvents =>
        if left == [] || Ends(left[0]) then Upload([Done], false, 0)
        else
          var u := Uploading(chunks, compressed, picks[1..], left[1..]);
          u.(early := u.early + 1)
  }

  /** An event on which the upload loop gives up. */
  predicate Ends(ev: TunnelEvent) {
    ev.Error? || ev.Close?
  }

  /** The archive bytes of what was posted, up to the `Close`. */
  function PostData(posts: seq<PushMsg>): Bytes {
    if posts == [] || posts[0].Done? then [] else posts[0].data + PostData(posts[1..])
  }

  /** The upload loop, as it is written. */
  method UploadArchive(chunks: seq<Bytes>, compressed: bool, picks: seq<Pick>, events: seq<TunnelEvent>)
    returns (posts: seq<PushMsg>, through: bool, early: nat)
    ensures Upload(posts, through, early) == Uploading(chunks, compressed, picks, events)
  {
    posts, through, early := [], false, 0;
    var failed := false;
    var c, i := 0, 0;
    ghost var all := Uploading(chunks, compressed, picks, events);
    assert chunks[0..] == chunks && picks[0..] == picks && events[0..] == events;
    while i < |picks| && !through && !failed
      invariant 0 <= i <= |picks| && 0 <= c <= |chunks| && early <= |events| && !(through && failed)
      invariant !through && !failed ==>
        var u := Uploading(chunks[c..], compressed, picks[i..], events[early..]);
        all == Upload(posts + u.posts, u.through, early + u.early)
      invariant through || failed ==> all == Upload(posts + [Done], through, early)
    {
      UploadingStep(chunks, compressed, picks, events, c, i, early);
      hide Uploading;
      match picks[i] {
        case FromChunks(posted) =>
          if c == |chunks| {
            through, failed := compressed, !compressed;
          } else if !posted {
            failed := true;
          } else {
            ConcatAssoc(posts, [Chunk(chunks[c])],
              Uploading(chunks[c + 1..], compressed, picks[i + 1..], events[early..]).posts);
            posts := posts + [Chunk(chunks[c])];
            c := c + 1;
          }
        case FromEvents =>
          if early == |events| || Ends(events[early]) {
            failed := true;
          } else {
            early := early + 1;
          }
      }
      i := i + 1;
    }
    if through || failed {
      // Sent whatever happened, so the server tears its decompressor down.
      posts := posts + [Done];
    } else {
      assert posts + [] == posts;
    }
  }

  lemma UploadingStep(chunks: seq<Bytes>, compressed: bool, picks: seq<Pick>, events: seq<TunnelEvent>, c: nat,
      i: nat, e: nat)
    requires c <= |chunks| && i < |picks| && e <= |events|
    ensures var u := Uploading(chunks[c..], compressed, picks[i..], events[e..]);
      match picks[i]
      case FromChunks(posted) =>
        if c == |chunks| then u == Upload([Done], compressed, 0)
        else if !posted then u == Upload([Done], false, 0)
        else
          var v := Uploading(chunks[c + 1..], compressed, picks[i + 1..], events[e..]);
          u == v.(posts := [Chunk(chunks[c])] + v.posts)
      case FromEvents =>
        if e == |events| || Ends(events[e]) then u == Upload([Done], false, 0)
        else
          var v := Uploading(chunks[c..], compressed, picks[i + 1..], events[e + 1..]);
          u == v.(early := v.early + 1)
  {
    assert picks[i..][0] == picks[i] && picks[i..][1..] == picks[i + 1..];
    if c < |chunks| {
      assert chunks[c..][0] == chunks[c] && chunks[c..][1..] == chunks[c + 1..];
    }
    if e < |events| {
      assert events[e..][0] == events[e] && events[e..][1..] == events[e + 1..];
    }
  }

  /** The first event that is not data confirms the transfer. */
  predicate Confirms(events: seq<TunnelEvent>) {
    events != [] && (events[0] == Exit(0) || (events[0].Data? && Confirms(events[1..])))
  }

  /** In other words: some `Exit(0)` stands behind data alone. */
  lemma {:induction false} ConfirmsExactly(events: seq<TunnelEvent>)
    ensures Confirms(events) <==>
      exists k :: 0 <= k < |events| && events[k] == Exit(0) && forall i :: 0 <= i < k ==> events[i].Data?
  {
    if events != [] && events[0].Data? {
      ConfirmsExactly(events[1..]);
      if Confirms(events[1..]) {
        var k :| 0 <= k < |events| - 1 && events[1..][k] == Exit(0) && forall i :: 0 <= i < k ==> events[1..][i].Data?;
        assert events[k + 1] == Exit(0) && forall i :: 1 <= i < k + 1 ==> events[i] == events[1..][i - 1];
      }
      if exists k :: 0 <= k < |events| && events[k] == Exit(0) && forall i :: 0 <= i < k ==> events[i].Data? {
        var k :| 0 <= k < |events| && events[k] == Exit(0) && forall i :: 0 <= i < k ==> events[i].Data?;
        assert events[1..][k - 1] == Exit(0) && forall i :: 0 <= i < k - 1 ==> events[1..][i] == events[i + 1];
      }
    }
  }

  /** The wait for the server's word, from the event at `from` on. */
  method AwaitConfirmation(events: seq<TunnelEvent>, from: nat) returns (ok: bool)
    requires from <= |events|
    ensures ok <==> Confirms(events[from..])
  {
    var e := from;
    ok := false;
    while e < |events|
      invariant from <= e <= |events|
      invariant !ok && (Confirms(events[from..]) <==> Confirms(events[e..]))
    {
      assert events[e..][0] == events[e] && events[e..][1..] == events[e + 1..];
      match events[e] {
        case Exit(code) =>
          ok := code == 0;
          return;
        case Data(_) =>
          e := e + 1;
        case _ =>
          return;
      }
    }
  }

  /** The turn at which the loop sees the end of `n` chunks: the `n + 1`st that picks
      the channel. */
  function EndTurn(picks: seq<Pick>, n: nat): (k: nat)
    ensures k <= |picks|
  {
    if picks == [] then 0
    else if picks[0].FromEvents? then 1 + EndTurn(picks[1..], n)
    else if n == 0 then 0
    else 1 + EndTurn(picks[1..], n - 1)
  }

  /** There is such a turn, and every POST before it goes through. */
  ghost predicate Streams(picks: seq<Pick>, n: nat) {
    EndTurn(picks, n) < |picks| && forall i :: 0 <= i < EndTurn(picks, n) && picks[i].FromChunks? ==> picks[i].posted
  }

  /** The number of events picked before it: the turns before it that were not
      one of the `n` chunks. */
  function Early(picks: seq<Pick>, n: nat): int {
    EndTurn(picks, n) - n
  }

  lemma {:induction false} UploadIsExact(chunks: seq<Bytes>, compressed: bool, picks: seq<Pick>, left: seq<TunnelEvent>)
    ensures var u, n := Uploading(chunks, compressed, picks, left), |chunks|;
      && (u.through <==> compressed && Streams(picks, n) && 0 <= Early(picks, n) <= |left|
                         && forall i :: 0 <= i < Early(picks, n) ==> left[i].Data? || left[i].Exit?)
      && (u.through ==> u.early == Early(picks, n) && PostData(u.posts) == Flatten(chunks))
      && PostData(u.posts) <= Flatten(chunks)
    decreases |picks|
  {
    if picks != [] {
      var n := |chunks|;
      EndTurnIsLate(picks, n);
      if picks[0].FromEvents? {
        if left != [] {
          UploadIsExact(chunks, compressed, picks[1..], left[1..]);
          EventTurn(picks, n);
          LeftShift(left, Early(picks, n));
        }
        assert Streams(picks, n) ==> Early(picks, n) >= 1;
      } else if n > 0 {
        UploadIsExact(chunks[1..], compressed, picks[1..], left);
        ChunkTurn(picks, n);
        PostedFirst(chunks[0], Uploading(chunks[1..], compressed, picks[1..], left).posts);
      }
    }
  }

  lemma PostedFirst(data: Bytes, posts: seq<PushMsg>)
    ensures PostData([Chunk(data)] + posts) == data + PostData(posts)
  {
    assert ([Chunk(data)] + posts)[1..] == posts;
  }

  /** Before the end turn there are at least the turns of the chunks. */
  lemma {:induction false} EndTurnIsLate(picks: seq<Pick>, n: nat)
    ensures EndTurn(picks, n) < |picks| ==> Early(picks, n) >= 0
    ensures EndTurn(picks, n) < |picks| && picks[0].FromEvents? ==> Early(picks, n) >= 1
  {
    if picks != [] {
      if picks[0].FromEvents? {
        EndTurnIsLate(picks[1..], n);
      } else if n > 0 {
        EndTurnIsLate(picks[1..], n - 1);
      }
    }
  }

  lemma EventTurn(picks: seq<Pick>, n: nat)
    requires picks != [] && picks[0].FromEvents?
    ensures Streams(picks, n) <==> Streams(picks[1..], n)
    ensures Early(picks, n) == Early(picks[1..], n) + 1
  {
    var k := EndTurn(picks[1..], n);
    assert forall i :: 0 <= i < k ==> picks[1..][i] == picks[i + 1];
    assert forall i :: 1 <= i < k + 1 ==> picks[i] == picks[1..][i - 1];
  }

  lemma ChunkTurn(picks: seq<Pick>, n: nat)
    requires picks != [] && picks[0].FromChunks? && n > 0
    ensures Streams(picks, n) <==> picks[0].posted && Streams(picks[1..], n - 1)
    ensures Early(picks, n) == Early(picks[1..], n - 1)
  {
    var k := EndTurn(picks[1..], n - 1);
    assert forall i :: 0 <= i < k ==> picks[1..][i] == picks[i + 1];
    assert forall i :: 1 <= i < k + 1 ==> picks[i] == picks[1..][i - 1];
  }

  lemma LeftShift(left: seq<TunnelEvent>, e: int)
    requires left != []
    ensures 1 <= e <= |left| ==>
      ((forall i :: 0 <= i < e ==> left[i].Data? || left[i].Exit?) <==>
         (left[0].Data? || left[0].Exit?) && forall i :: 0 <= i < e - 1 ==> left[1..][i].Data? || left[1..][i].Exit?)
  {
    if 1 <= e <= |left| {
      assert forall i :: 0 <= i < e - 1 ==> left[1..][i] == left[i + 1];
      assert forall i :: 1 <= i < e ==> left[i] == left[1..][i - 1];
    }
  }

  /** When a `push` reports success: every chunk's POST went through, the loop took
      no event that ends it before it saw the archive's end, and the first event
      after those it took that is not data confirms the transfer. */
  ghost predicate PushSucceeds(ack: Ack, n: nat, compressed: bool, picks: seq<Pick>, events: seq<TunnelEvent>) {
    var e := Early(picks, n);
    && ack.Accepted? && compressed && Streams(picks, n)
    && 0 <= e <= |events| && (forall i :: 0 <= i < e ==> events[i].Data? || events[i].Exit?)
    && Confirms(events[e..])
  }

  /** The messages a client posts after an announcement with this answer. */
  function Posts(ack: Ack, chunks: seq<Bytes>, compressed: bool, picks: seq<Pick>,
      events: seq<TunnelEvent>): seq<PushMsg> {
    if ack.Accepted? then Uploading(chunks, compressed, picks, events).posts else []
  }

  /** The client's side of `push`. `chunks` is all the compressor will produce,
      `events` all the server will say before the queue closes. */
  method PushSession(ack: Ack, chunks: seq<Bytes>, compressed: bool, picks: seq<Pick>, events: seq<TunnelEvent>)
    returns (ok: bool, posts: seq<PushMsg>)
    ensures ok <==> PushSucceeds(ack, |chunks|, compressed, picks, events)
    ensures posts == Posts(ack, chunks, compressed, picks, events)
    ensures PostData(posts) <= Flatten(chunks) && (ok ==> PostData(posts) == Flatten(chunks))
  {
    ok, posts := false, [];
    if !ack.Accepted? {
      return;
    }
    UploadIsExact(chunks, compressed, picks, events);
    hide Uploading, Streams, Early, Ends, Flatten, PostData;
    var through, early;
    posts, through, early := UploadArchive(chunks, compressed, picks, events);
    if through {
      ok := AwaitConfirmation(events, early);
    }
  }

  /** What becomes of a transfer that the server has unpacked and confirmed, every
      POST having gone through: it is reported as a success if and only if the
      upload loop picked no event before it saw the end of the archive. */
  lemma ConfirmationIsLostExactly(n: nat, picks: seq<Pick>)
    requires Streams(picks, n)
    ensures PushSucceeds(Accepted, n, true, picks, [Exit(0), Close]) <==> Early(picks, n) == 0
  {
    EndTurnIsLate(picks, n);
    var events := [Exit(0), Close];
    assert events[0..] == events && events[1..] == [Close] && events[2..] == [];
  }

  // ------------------------------------------------------- push, the server's side

  /** What happens to the unpacker: a Data message, the client's `Close`, the
      watchdog, or its own decision that it is done. */
  datatype Input = Arrives(data: Bytes) | ClientCloses | WatchdogFires | Finishes(ok: bool)

  /** How the unpacker's input ended. */
  datatype InputEnd = Open | AtClose | Forced | ByItself(ok: bool)

  datatype Intake = Intake(fed: Bytes, end: InputEnd)

  /** The unpacker's input: the data up to whatever ends it first. */
  function TakenIn(inputs: seq<Input>): Intake {
    if inputs == [] then Intake([], Open)
    else match inputs[0]
      case Arrives(data) =>
        var rest := TakenIn(inputs[1..]);
        rest.(fed := data + rest.fed)
      case ClientCloses => Intake([], AtClose)
      case WatchdogFires => Intake([], Forced)
      case Finishes(ok) => Intake([], ByItself(ok))
  }

  /** The input runs on exactly while nothing but data comes; what is fed is the data
      before the first thing that is none, which is what ends it. */
  lemma {:induction false} TakenInExactly(inputs: seq<Input>, k: nat)
    requires k <= |inputs| && (forall i :: 0 <= i < k ==> inputs[i].Arrives?)
    requires k < |inputs| ==> !inputs[k].Arrives?
    ensures var t := TakenIn(inputs);
      && PostData(Arrivals(inputs[..k])) == t.fed
      && (t.end.Open? <==> k == |inputs|)
      && (t.end.AtClose? <==> k < |inputs| && inputs[k].ClientCloses?)
      && (t.end.Forced? <==> k < |inputs| && inputs[k].WatchdogFires?)
      && (t.end.ByItself? <==> k < |inputs| && inputs[k].Finishes?)
      && (t.end.ByItself? ==> t.end.ok == inputs[k].ok)
    decreases k
  {
    if k > 0 {
      TakenInExactly(inputs[1..], k - 1);
      assert inputs[..k][1..] == inputs[1..][..k - 1];
      var rest := Arrivals(inputs[1..][..k - 1]);
      assert Arrivals(inputs[..k]) == [Chunk(inputs[0].data)] + rest;
      PostedFirst(inputs[0].data, rest);
    }
  }

  /** The verdict, once there is one: the unpacker's own, on what it was fed. */
  function Verdict(i: Intake, unpack: Bytes -> bool): Option<bool> {
    match i.end
    case Open => None
    case ByItself(ok) => Some(ok)
    case _ => Some(unpack(i.fed))
  }

  /** What the server then says, as far as it can be delivered. */
  function Says(verdict: Option<bool>, firstSent: bool, secondSent: bool): seq<TunnelEvent> {
    if verdict.None? || !firstSent then []
    else if !verdict.value then [Error]
    else [Exit(0)] + (if secondSent then [Close] else [])
  }

  /** The server's side of `push`: the Data handler feeds the unpacker through the
      connection's writer until the client's `Close`, the watchdog or the relay
      itself drops that; `unpack` is the unpacker's verdict on an input that ended. */
  method RelayPush(inputs: seq<Input>, unpack: Bytes -> bool, firstSent: bool, secondSent: bool)
    returns (sent: seq<TunnelEvent>, fed: Bytes, end: InputEnd)
    ensures Intake(fed, end) == TakenIn(inputs)
    ensures sent == Says(Verdict(TakenIn(inputs), unpack), firstSent, secondSent)
    ensures Exit(0) in sent <==> firstSent && !end.Open? && (if end.ByItself? then end.ok else unpack(fed))
    ensures Error in sent <==> firstSent && !end.Open? && !(if end.ByItself? then end.ok else unpack(fed))
    ensures Close in sent <==> Exit(0) in sent && secondSent
  {
    fed, end, sent := [], Open, [];
    var linked := true;
    var i := 0;
    assert inputs[0..] == inputs;
    while i < |inputs| && linked
      invariant 0 <= i <= |inputs| && (linked <==> end.Open?)
      invariant linked ==> TakenIn(inputs) == Intake(fed + TakenIn(inputs[i..]).fed, TakenIn(inputs[i..]).end)
      invariant !linked ==> TakenIn(inputs) == Intake(fed, end)
    {
      assert inputs[i..][0] == inputs[i] && inputs[i..][1..] == inputs[i + 1..];
      match inputs[i] {
        case Arrives(data) =>
          ConcatAssoc(fed, data, TakenIn(inputs[i + 1..]).fed);
          fed := fed + data;
        case ClientCloses =>
          end, linked := AtClose, false;
        case WatchdogFires =>
          end, linked := Forced, false;
        case Finishes(ok) =>
          end, linked := ByItself(ok), false;
      }
      i := i + 1;
    }
    if linked {
      return;
    }
    var unpacked := if end.ByItself? then end.ok else unpack(fed);
    if unpacked {
      if firstSent {
        sent := [Exit(0)];
        if secondSent {
          sent := sent + [Close];
        }
      }
    } else if firstSent {
      sent := [Error];
    }
  }

  /** The client's messages among the inputs. */
  function Arrivals(inputs: seq<Input>): seq<PushMsg> {
    if inputs == [] then []
    else
      (match inputs[0]
       case Arrives(data) => [Chunk(data)]
       case ClientCloses => [Done]
       case _ => []) + Arrivals(inputs[1..])
  }

  /** The unpacker is fed what was posted, in order; all of it when its input ends
      with the client's `Close`. */
  lemma {:induction false} FedIsPosted(inputs: seq<Input>, posts: seq<PushMsg>)
    requires Arrivals(inputs) <= posts
    ensures TakenIn(inputs).fed <= PostData(posts)
    ensures TakenIn(inputs).end.AtClose? ==> TakenIn(inputs).fed == PostData(posts)
    decreases |inputs|
  {
    if inputs != [] {
      var rest := Arrivals(inputs[1..]);
      if inputs[0].Arrives? {
        assert Arrivals(inputs) == [Chunk(inputs[0].data)] + rest;
        assert posts[0] == Chunk(inputs[0].data);
        assert rest <= posts[1..];
        FedIsPosted(inputs[1..], posts[1..]);
      } else if inputs[0].ClientCloses? {
        assert Arrivals(inputs) == [Done] + rest && posts[0] == Done;
      }
    }
  }

  lemma {:induction false} ConfirmsHasExit(events: seq<TunnelEvent>)
    requires Confirms(events)
    ensures Exit(0) in events
  {
    if events[0] != Exit(0) {
      ConfirmsHasExit(events[1..]);
    }
  }

  /** Both sides of a `push`, the server's inputs being a part of what the client
      posts, in order, and the client's events of what the server says. Success
      means that the whole archive was compressed and posted, and that the
      unpacker was content: with all of it, or, having ended early by itself or
      been cut off by the watchdog, with the prefix it was fed. */
  method Push(ack: Ack, chunks: seq<Bytes>, compressed: bool, picks: seq<Pick>, inputs: seq<Input>,
      unpack: Bytes -> bool,
              firstSent: bool, secondSent: bool, arrived: nat)
    returns (ok: bool, posts: seq<PushMsg>, fed: Bytes, end: InputEnd)
    requires arrived <= |Says(Verdict(TakenIn(inputs), unpack), firstSent, secondSent)|
    requires var events := Says(Verdict(TakenIn(inputs), unpack), firstSent, secondSent)[..arrived];
      Arrivals(inputs) <= Posts(ack, chunks, compressed, picks, events)
    ensures ok ==> ack.Accepted? && compressed && PostData(posts) == Flatten(chunks)
    ensures ok ==> !end.Open? && (if end.ByItself? then end.ok else unpack(fed))
    ensures ok && end.AtClose? ==> fed == Flatten(chunks)
    ensures fed <= Flatten(chunks)
  {
    var sent;
    sent, fed, end := RelayPush(inputs, unpack, firstSent, secondSent);
    var events := sent[..arrived];
    ok, posts := PushSession(ack, chunks, compressed, picks, events);
    FedIsPosted(inputs, posts);
    hide Flatten, PostData, TakenIn, Arrivals, Posts, Streams;
    PrefixTrans(fed, PostData(posts), Flatten(chunks));
    if ok {
      ConfirmsHasExit(events[Early(picks, |chunks|)..]);
      hide Confirms;
      assert Exit(0) in sent;
    }
  }

  /** With no event picked early, the client reports what the unpacker said, whatever
      ended its input: also on a prefix that the watchdog cut off. */
  lemma VerdictIsReported(n: nat, picks: seq<Pick>, inputs: seq<Input>, unpack: Bytes -> bool, secondSent: bool)
    requires Streams(picks, n) && Early(picks, n) == 0
    ensures PushSucceeds(Accepted, n, true, picks, Says(Verdict(TakenIn(inputs), unpack), true, secondSent)) <==>
      Verdict(TakenIn(inputs), unpack) == Some(true)
  {
    var events := Says(Verdict(TakenIn(inputs), unpack), true, secondSent);
    assert events[0..] == events;
  }

  /** A run in which a confirmation is lost: one chunk, unpacked in full, and a client
      that picks the confirmation before it sees the end of its archive. */
  lemma UnpackedButFailed(chunk: Bytes)
    ensures var picks, inputs := [FromChunks(true), FromEvents, FromChunks(true)], [Arrives(chunk), Finishes(true)];
      var events := Says(Verdict(TakenIn(inputs), b => true), true, true);
      && TakenIn(inputs).fed == chunk && Arrivals(inputs) <= Posts(Accepted, [chunk], true, picks, events)
      && Streams(picks, 1) && !PushSucceeds(Accepted, 1, true, picks, events)
  {
    var picks, inputs := [FromChunks(true), FromEvents, FromChunks(true)], [Arrives(chunk), Finishes(true)];
    assert inputs[1..] == [Finishes(true)] && inputs[1..][1..] == [];
    assert chunk + [] == chunk;
    assert TakenIn(inputs[1..]) == Intake([], ByItself(true));
    var events := Says(Verdict(TakenIn(inputs), b => true), true, true);
    assert events == [Exit(0), Close];
    assert picks[1..] == [FromEvents, FromChunks(true)] && picks[1..][1..] == [FromChunks(true)];
    assert EndTurn(picks[1..][1..], 0) == 0;
    assert EndTurn(picks[1..], 0) == 1;
    assert EndTurn(picks, 1) == 2;
    ConfirmationIsLostExactly(1, picks);
    assert Arrivals(inputs[1..]) == [] + Arrivals([]) == [];
    assert Arrivals(inputs) == [Chunk(chunk)] + [];
    assert Uploading([], true, [FromChunks(true)], [Close]).posts == [Done];
    assert [Exit(0), Close][1..] == [Close] && [chunk][1..] == [];
    assert Uploading([], true, picks[1..], events).posts == [Done];
  }

  // ----------------------------------------------------------------------- pull

  function DataEvents(chunks: seq<Bytes>): seq<TunnelEvent> {
    if chunks == [] then [] else [Data(chunks[0])] + DataEvents(chunks[1..])
  }

  lemma {:induction false} DataEventsCarry(chunks: seq<Bytes>)
    ensures DataBytes(DataEvents(chunks)) == Flatten(chunks) && AllData(DataEvents(chunks))
  {
    if chunks != [] {
      DataEventsCarry(chunks[1..]);
      DataBytesAppend([Data(chunks[0])], DataEvents(chunks[1..]));
    }
  }

  /** What the server has to say during a `pull`: the archive, and how it came out. */
  function PullDue(chunks: seq<Bytes>, compressed: bool): seq<TunnelEvent> {
    DataEvents(chunks) + (if compressed then [Exit(0), Close] else [Error])
  }

  /** What of it is said: all up to the first delivery that fails. */
  function Delivered(due: seq<TunnelEvent>, sends: seq<bool>): seq<TunnelEvent> {
    if due == [] || sends == [] || !sends[0] then [] else [due[0]] + Delivered(due[1..], sends[1..])
  }

  lemma {:induction false} DeliveredIsExact(due: seq<TunnelEvent>, sends: seq<bool>, n: nat)
    requires n <= |due| && n <= |sends| && (forall i :: 0 <= i < n ==> sends[i])
    requires n == |due| || n == |sends| || !sends[n]
    ensures Delivered(due, sends) == due[..n]
  {
    if n > 0 {
      DeliveredIsExact(due[1..], sends[1..], n - 1);
      assert due[..n] == [due[0]] + due[1..][..n - 1];
    }
  }

  /** The server's side of `pull`. `sends` is the fate of each delivery in turn; one
      that fails ends the relay without another word. */
  method RelayPull(chunks: seq<Bytes>, compressed: bool, sends: seq<bool>) returns (sent: seq<TunnelEvent>)
    requires |sends| >= |chunks| + 2
    ensures sent == Delivered(PullDue(chunks, compressed), sends)
    ensures (forall i :: 0 <= i < |sends| ==> sends[i]) ==>
      sent == DataEvents(chunks) + (if compressed then [Exit(0), Close] else [Error])
  {
    sent := [];
    var i := 0;
    ghost var due := PullDue(chunks, compressed);
    PullDueIs(chunks, compressed);
    while i < |chunks| && sends[i]
      invariant 0 <= i <= |chunks|
      invariant sent == due[..i] && forall j :: 0 <= j < i ==> sends[j]
    {
      sent := sent + [Data(chunks[i])];
      i := i + 1;
    }
    var clientGone := i < |chunks|;
    hide PullDue, Delivered;
    if clientGone || !sends[i] {
      DeliveredIsExact(due, sends, i);
      return;
    }
    if !compressed {
      sent := sent + [Error];
      DeliveredIsExact(due, sends, i + 1);
      return;
    }
    sent := sent + [Exit(0)];
    if sends[i + 1] {
      sent := sent + [Close];
      DeliveredIsExact(due, sends, i + 2);
    } else {
      DeliveredIsExact(due, sends, i + 1);
    }
  }

  lemma PullDueIs(chunks: seq<Bytes>, compressed: bool)
    ensures var due, n := PullDue(chunks, compressed), |chunks|;
      && |due| == n + (if compressed then 2 else 1)
      && (forall i :: 0 <= i < n ==> due[i] == Data(chunks[i]))
      && (if compressed then due[n] == Exit(0) && due[n + 1] == Close else due[n] == Error)
  {
    DataEventsAre(chunks);
    hide DataEvents;
  }

  lemma {:induction false} DataEventsAre(chunks: seq<Bytes>)
    ensures |DataEvents(chunks)| == |chunks|
    ensures forall i :: 0 <= i < |chunks| ==> DataEvents(chunks)[i] == Data(chunks[i])
  {
    if chunks != [] {
      DataEventsAre(chunks[1..]);
    }
  }

  /** How the client's receiving loop ended. */
  datatype PullEnd = Confirmed | UnpackerLeft | Broken

  /** How far the loop gets: up to the first event that is not data which the
      unpacker takes. */
  ghost predicate Gets(events: seq<TunnelEvent>, takes: seq<bool>, k: nat)
    requires |takes| >= |events|
  {
    && k <= |events| && (forall i :: 0 <= i < k ==> events[i].Data? && takes[i])
    && (k < |events| ==> !(events[k].Data? && takes[k]))
  }

  /** The client's side of `pull`. `takes` says whether the unpacker still takes
      each chunk, `unpacked` how it ends. */
  method PullSession(ack: Ack, events: seq<TunnelEvent>, takes: seq<bool>, unpacked: bool)
    returns (ok: bool, fed: Bytes, end: PullEnd, closed: bool)
    requires |takes| >= |events|
    ensures closed <==> ack.Accepted?
    ensures ok <==> ack.Accepted? && unpacked && !end.Broken?
    ensures !ack.Accepted? ==> fed == [] && end.Broken?
    ensures ack.Accepted? ==>
      exists k: nat :: Gets(events, takes, k) && fed == DataBytes(events[..k])
        && (end.Confirmed? <==> k < |events| && events[k] == Exit(0))
        && (end.UnpackerLeft? <==> k < |events| && events[k].Data?)
  {
    fed, end := [], Broken;
    closed := ack.Accepted?;
    if !closed {
      return false, fed, end, closed;
    }
    var i := 0;
    while i < |events|
      invariant 0 <= i <= |events|
      invariant forall j :: 0 <= j < i ==> events[j].Data? && takes[j]
      invariant fed == DataBytes(events[..i]) && end.Broken?
    {
      match events[i] {
        case Data(data) =>
          if !takes[i] {
            end := UnpackerLeft;
            break;
          }
          assert events[..i + 1] == events[..i] + [events[i]];
          DataBytesAppend(events[..i], [events[i]]);
          fed := fed + data;
        case Exit(code) =>
          if code == 0 {
            end := Confirmed;
          }
          break;
        case _ =>
          break;
      }
      i := i + 1;
    }
    assert Gets(events, takes, i);
    ok := unpacked && !end.Broken?;
  }

  /** What a `pull` comes to: it succeeds if and only if it was announced and unpacked,
      and the client either was told, behind the whole archive, that it is complete,
      or lost its unpacker to a chunk that arrived. */
  ghost predicate PullSucceeds(ack: Ack, chunks: seq<Bytes>, compressed: bool, sends: seq<bool>, arrived: nat,
      takes: seq<bool>, unpacked: bool)
    requires |sends| >= |chunks| + 2 && |takes| >= |chunks| + 2
  {
    && ack.Accepted? && unpacked
    && (|| (compressed && arrived > |chunks|
              && forall i :: 0 <= i <= |chunks| ==> sends[i] && (i < |chunks| ==> takes[i]))
        || exists k :: 0 <= k < |chunks| && k < arrived && !takes[k]
             && (forall i :: 0 <= i <= k ==> sends[i]) && forall i :: 0 <= i < k ==> takes[i])
  }

  /** Both sides of a `pull`, of whose events the first `arrived` reach the client. */
  method Pull(ack: Ack, chunks: seq<Bytes>, compressed: bool, sends: seq<bool>, arrived: nat, takes: seq<bool>,
      unpacked: bool)
    returns (ok: bool, fed: Bytes, end: PullEnd)
    requires |sends| >= |chunks| + 2 && |takes| >= |chunks| + 2
    ensures ok <==> PullSucceeds(ack, chunks, compressed, sends, arrived, takes, unpacked)
    ensures ok ==>
      (end.Confirmed? && compressed && fed == Flatten(chunks)) || (end.UnpackerLeft? && fed <= Flatten(chunks))
    ensures fed <= Flatten(chunks)
  {
    var sent := RelayPull(chunks, compressed, sends);
    ghost var n := SentLength(chunks, compressed, sends);
    SentFits(chunks, compressed);
    hide Flatten, DataBytes, Delivered, PullSucceeds, PullDue, DataEvents, Gets;
    var events := sent[..Min(arrived, |sent|)];
    assert events == PullDue(chunks, compressed)[..Min(arrived, n)];
    var closed;
    ok, fed, end, closed := PullSession(ack, events, takes, unpacked);
    if ack.Accepted? {
      ghost var k: nat :| Gets(events, takes, k) && fed == DataBytes(events[..k])
                  && (end.Confirmed? <==> k < |events| && events[k] == Exit(0))
                  && (end.UnpackerLeft? <==> k < |events| && events[k].Data?);
      PullOutcome(ack, chunks, compressed, sends, arrived, takes, unpacked, n, k);
    } else {
      PullRefused(ack, chunks, compressed, sends, arrived, takes, unpacked);
    }
  }

  lemma SentFits(chunks: seq<Bytes>, compressed: bool)
    ensures |PullDue(chunks, compressed)| <= |chunks| + 2 && [] <= Flatten(chunks)
  {
    PullDueIs(chunks, compressed);
  }

  lemma PullOutcome(ack: Ack, chunks: seq<Bytes>, compressed: bool, sends: seq<bool>, arrived: nat,
      takes: seq<bool>, unpacked: bool, n: nat, k: nat)
    requires |sends| >= |chunks| + 2 && |takes| >= |chunks| + 2 && ack.Accepted?
    requires var due := PullDue(chunks, compressed);
      && n <= |due| <= |sends| && (forall i :: 0 <= i < n ==> sends[i]) && (n < |due| ==> !sends[n])
      && |takes| >= Min(arrived, n) && Gets(due[..Min(arrived, n)], takes, k)
    ensures var due := PullDue(chunks, compressed);
      var events := due[..Min(arrived, n)];
      && (PullSucceeds(ack, chunks, compressed, sends, arrived, takes, unpacked) <==>
            unpacked && k < |events| && (events[k] == Exit(0) || events[k].Data?))
      && k <= |events| && DataBytes(events[..k]) <= Flatten(chunks)
      && (k < |events| && events[k] == Exit(0) ==> compressed && DataBytes(events[..k]) == Flatten(chunks))
  {
    hide Flatten, DataBytes, Delivered, PullSucceeds, PullDue, DataEvents;
    var events := PullDue(chunks, compressed)[..Min(arrived, n)];
    GotIsPrefix(chunks, compressed, events, takes, k);
    PullIsExact(ack, chunks, compressed, sends, arrived, takes, unpacked, n, k);
  }

  lemma PullRefused(ack: Ack, chunks: seq<Bytes>, compressed: bool, sends: seq<bool>, arrived: nat,
      takes: seq<bool>, unpacked: bool)
    requires |sends| >= |chunks| + 2 && |takes| >= |chunks| + 2 && !ack.Accepted?
    ensures !PullSucceeds(ack, chunks, compressed, sends, arrived, takes, unpacked)
  {
  }

  /** How many of the messages due are sent. */
  lemma SentLength(chunks: seq<Bytes>, compressed: bool, sends: seq<bool>) returns (n: nat)
    requires |sends| >= |chunks| + 2
    ensures var due := PullDue(chunks, compressed);
      && n <= |due| <= |sends| && Delivered(due, sends) == due[..n] && (forall i :: 0 <= i < n ==> sends[i])
      && (n < |due| ==> !sends[n])
  {
    PullDueIs(chunks, compressed);
    n := 0;
    while n < |PullDue(chunks, compressed)| && sends[n]
      invariant n <= |PullDue(chunks, compressed)|
      invariant forall i :: 0 <= i < n ==> sends[i]
    {
      n := n + 1;
    }
    DeliveredIsExact(PullDue(chunks, compressed), sends, n);
  }

  /** What the loop has fed is a prefix of the archive, and all of it behind it. */
  lemma GotIsPrefix(chunks: seq<Bytes>, compressed: bool, events: seq<TunnelEvent>, takes: seq<bool>, k: nat)
    requires events <= PullDue(chunks, compressed) && |takes| >= |events| && Gets(events, takes, k)
    ensures k <= |chunks| && DataBytes(events[..k]) <= Flatten(chunks)
    ensures k == |chunks| ==> DataBytes(events[..k]) == Flatten(chunks)
  {
    GotIsData(chunks, compressed, events, takes, k);
    FrontCarries(chunks, k);
    hide *;
  }

  lemma FrontCarries(chunks: seq<Bytes>, k: nat)
    requires k <= |chunks|
    ensures DataBytes(DataEvents(chunks[..k])) <= Flatten(chunks)
    ensures k == |chunks| ==> DataBytes(DataEvents(chunks[..k])) == Flatten(chunks)
  {
    hide *;
    DataEventsCarry(chunks[..k]);
    FlattenAppend(chunks[..k], chunks[k..]);
    assert chunks == chunks[..k] + chunks[k..];
    assert k == |chunks| ==> chunks[..k] == chunks;
  }

  lemma GotIsData(chunks: seq<Bytes>, compressed: bool, events: seq<TunnelEvent>, takes: seq<bool>, k: nat)
    requires events <= PullDue(chunks, compressed) && |takes| >= |events| && Gets(events, takes, k)
    ensures k <= |chunks| && events[..k] == DataEvents(chunks[..k])
  {
    PullDueIs(chunks, compressed);
    hide PullDue, DataEvents;
    assert k <= |chunks|;
    DataEventsAre(chunks[..k]);
  }

  lemma PullIsExact(ack: Ack, chunks: seq<Bytes>, compressed: bool, sends: seq<bool>, arrived: nat,
      takes: seq<bool>, unpacked: bool, n: nat, k: nat)
    requires |sends| >= |chunks| + 2 && |takes| >= |chunks| + 2 && ack.Accepted?
    requires var due := PullDue(chunks, compressed);
      && n <= |due| <= |sends| && (forall i :: 0 <= i < n ==> sends[i]) && (n < |due| ==> !sends[n])
      && |takes| >= Min(arrived, n) && Gets(due[..Min(arrived, n)], takes, k)
    ensures var due := PullDue(chunks, compressed);
      var events := due[..Min(arrived, n)];
      PullSucceeds(ack, chunks, compressed, sends, arrived, takes, unpacked) <==>
        unpacked && k < |events| && (events[k] == Exit(0) || events[k].Data?)
    ensures var due := PullDue(chunks, compressed);
      k < Min(arrived, n) && due[k] == Exit(0) ==> compressed && k == |chunks|
  {
    PullDueIs(chunks, compressed);
    hide PullDue;
    var due := PullDue(chunks, compressed);
    var events := due[..Min(arrived, n)];
    if k < |events| && events[k].Data? {
      assert k < |chunks| && !takes[k];
    }
  }
}
