/** What the client's dispatcher hands to one connection, and how a stream of
    such events reads as a response (src/tunnel.rs:59-67). */
module Events {
  import opened Prelude

  datatype TunnelEvent = Data(bytes: Bytes) | Close | Error | Exit(code: int)

  /** The response bytes carried by a list of events. */
  function DataBytes(evs: seq<TunnelEvent>): Bytes {
    if evs == [] then []
    else (if evs[0].Data? then evs[0].bytes else []) + DataBytes(evs[1..])
  }

  /** The ordered part of the stream: an `Error` may overtake a handed-off
      `Close`, everything else keeps its place. */
  function Ordered(evs: seq<TunnelEvent>): seq<TunnelEvent> {
    if evs == [] then []
    else (if evs[0].Error? then [] else [evs[0]]) + Ordered(evs[1..])
  }

  /** What an app can hear of: the events before the first `Error`. */
  function Heard(evs: seq<TunnelEvent>): seq<TunnelEvent> {
    if evs == [] || evs[0].Error? then [] else [evs[0]] + Heard(evs[1..])
  }

  /** The events behind the first `Error`. */
  function PastError(evs: seq<TunnelEvent>): seq<TunnelEvent> {
    if evs == [] then [] else if evs[0].Error? then evs[1..] else PastError(evs[1..])
  }

  ghost predicate AllData(evs: seq<TunnelEvent>) {
    forall i :: 0 <= i < |evs| ==> evs[i].Data?
  }

  /** The events before the first `Close`; the whole list when there is none. */
  function UpToClose(evs: seq<TunnelEvent>): seq<TunnelEvent> {
    if evs == [] || evs[0].Close? then [] else [evs[0]] + UpToClose(evs[1..])
  }

  lemma {:induction false} DataBytesAppend(a: seq<TunnelEvent>, b: seq<TunnelEvent>)
    ensures DataBytes(a + b) == DataBytes(a) + DataBytes(b)
  {
    if a == [] {
      assert a + b == b;
    } else {
      DataBytesAppend(a[1..], b);
      assert (a + b)[0] == a[0] && (a + b)[1..] == a[1..] + b;
      ConcatAssoc(if a[0].Data? then a[0].bytes else [], DataBytes(a[1..]), DataBytes(b));
    }
  }

  lemma {:induction false} OrderedAppend(a: seq<TunnelEvent>, b: seq<TunnelEvent>)
    ensures Ordered(a + b) == Ordered(a) + Ordered(b)
  {
    if a == [] {
      assert a + b == b;
    } else {
      OrderedAppend(a[1..], b);
      assert (a + b)[0] == a[0] && (a + b)[1..] == a[1..] + b;
      ConcatAssoc(if a[0].Error? then [] else [a[0]], Ordered(a[1..]), Ordered(b));
    }
  }

  lemma {:induction false} DataBytesOrdered(evs: seq<TunnelEvent>)
    ensures DataBytes(Ordered(evs)) == DataBytes(evs)
    ensures Close in evs <==> Close in Ordered(evs)
  {
    if evs != [] {
      DataBytesOrdered(evs[1..]);
      DataBytesAppend(if evs[0].Error? then [] else [evs[0]], Ordered(evs[1..]));
      assert evs == [evs[0]] + evs[1..];
    }
  }

  lemma DataBytesPrefix(a: seq<TunnelEvent>, b: seq<TunnelEvent>)
    requires a <= b
    ensures DataBytes(a) <= DataBytes(b)
  {
    DataBytesAppend(a, b[|a|..]);
    assert b == a + b[|a|..];
  }

  lemma {:induction false} HeardAppend(a: seq<TunnelEvent>, b: seq<TunnelEvent>)
    ensures Error in a ==> Heard(a + b) == Heard(a)
    ensures Error !in a ==> Heard(a + b) == a + Heard(b)
  {
    if a == [] {
      assert a + b == b;
    } else {
      assert (a + b)[0] == a[0] && (a + b)[1..] == a[1..] + b;
      assert a == [a[0]] + a[1..];
      HeardAppend(a[1..], b);
    }
  }

  lemma {:induction false} PastErrorAppend(a: seq<TunnelEvent>, b: seq<TunnelEvent>)
    ensures PastError(a + b) == if Error in a then PastError(a) + b else PastError(b)
  {
    if a == [] {
      assert a + b == b;
    } else {
      assert (a + b)[0] == a[0] && (a + b)[1..] == a[1..] + b;
      assert a == [a[0]] + a[1..];
      PastErrorAppend(a[1..], b);
    }
  }

  lemma {:induction false} HeardOfAll(evs: seq<TunnelEvent>)
    ensures Heard(evs) <= evs && Error !in Heard(evs)
    ensures Error !in evs ==> Heard(evs) == evs == Ordered(evs) && PastError(evs) == []
    ensures Heard(evs) <= Ordered(evs)
  {
    if evs != [] {
      assert evs == [evs[0]] + evs[1..];
      HeardOfAll(evs[1..]);
    }
  }

  /** Appending cannot change what came before a `Close` already seen. */
  lemma {:induction false} UpToCloseAppend(a: seq<TunnelEvent>, b: seq<TunnelEvent>)
    ensures Close in a ==> UpToClose(a + b) == UpToClose(a)
    ensures Close !in a ==> UpToClose(a + b) == a + UpToClose(b)
  {
    if a == [] {
      assert a + b == b;
    } else {
      assert (a + b)[1..] == a[1..] + b;
      assert a == [a[0]] + a[1..];
      UpToCloseAppend(a[1..], b);
    }
  }

  /** A response as the server may report it: data, then at most one `Close`,
      and nothing after the `Close`. */
  ghost predicate WellEnded(evs: seq<TunnelEvent>) {
    forall i :: 0 <= i < |evs| ==> (evs[i].Data? || (evs[i].Close? && i == |evs| - 1))
  }

  lemma {:induction false} UpToCloseOfWellEnded(evs: seq<TunnelEvent>, all: seq<TunnelEvent>)
    requires Ordered(evs) <= Ordered(all) && WellEnded(Ordered(all)) && Close in evs
    ensures Ordered(evs) == Ordered(all)
    ensures DataBytes(UpToClose(evs)) == DataBytes(evs) == DataBytes(all)
  {
    DataBytesOrdered(evs);
    DataBytesOrdered(all);
    var k :| 0 <= k < |Ordered(evs)| && Ordered(evs)[k] == Close;
    assert Ordered(all)[k] == Close;
    NoDataAfterClose(evs);
  }

  lemma {:induction false} NoDataAfterClose(evs: seq<TunnelEvent>)
    requires WellEnded(Ordered(evs))
    ensures DataBytes(UpToClose(evs)) == DataBytes(evs)
  {
    if evs != [] {
      var rest := evs[1..];
      assert evs == [evs[0]] + rest;
      if evs[0].Close? {
        assert Ordered(evs)[0] == Close;
        assert Ordered(rest) == [];
        DataBytesOrdered(rest);
      } else {
        if evs[0].Error? {
          assert Ordered(evs) == Ordered(rest);
        } else {
          assert forall i :: 0 <= i < |Ordered(rest)| ==> Ordered(rest)[i] == Ordered(evs)[i + 1];
        }
        NoDataAfterClose(rest);
        DataBytesAppend([evs[0]], UpToClose(rest));
        DataBytesAppend([evs[0]], rest);
      }
    }
  }
}
