/** The byte-stream bridge between a blocking compressor or unpacker and a
    channel of chunks (src/archive.rs:17-81). */
module Archive {
  import opened Prelude

  /** The channel: what has been sent and not yet received. */
  class ChunkChannel {
    var queue: seq<Bytes>
    var receiverAlive: bool

    constructor ()
      ensures queue == [] && receiverAlive
    {
      queue, receiverAlive := [], true;
    }
  }

  class ChannelWriter {
    const tx: ChunkChannel

    constructor (tx: ChunkChannel)
      ensures this.tx == tx
    {
      this.tx := tx;
    }

    /** Ships the whole buffer as one chunk, except that an empty one is never
        sent; fails only when nobody will receive. */
    method Write(buf: Bytes) returns (n: Result<nat>)
      modifies tx`queue
      ensures n == if buf == [] || tx.receiverAlive then Ok(|buf|) else Err
      ensures Flatten(tx.queue) == Flatten(old(tx.queue)) + (if n.Ok? then buf else [])
      ensures [] in tx.queue ==> [] in old(tx.queue)
      ensures old(tx.queue) <= tx.queue
    {
      if buf == [] {
        return Ok(0);
      }
      if !tx.receiverAlive {
        return Err;
      }
      FlattenSnoc(tx.queue, buf);
      tx.queue := tx.queue + [buf];
      n := Ok(|buf|);
    }
  }

  /** The reader's state: the chunks still to come, and how far into the last
      one it is. */
  datatype Source = Source(rx: seq<Bytes>, leftover: Bytes, pos: nat)

  ghost predicate ValidSource(s: Source) {
    s.pos <= |s.leftover|
  }

  /** Every byte not yet handed to the caller. */
  function Pending(s: Source): Bytes
    requires s.pos <= |s.leftover|
  {
    s.leftover[s.pos..] + Flatten(s.rx)
  }

  class ChannelReader {
    var rx: seq<Bytes>       // every chunk the sender will ever send
    var leftover: Bytes
    var pos: nat

    function State(): Source
      reads this
    {
      Source(rx, leftover, pos)
    }

    constructor (chunks: seq<Bytes>)
      ensures ValidSource(State()) && Pending(State()) == Flatten(chunks)
    {
      rx, leftover, pos := chunks, [], 0;
    }

    /** Fills a prefix of the caller's buffer with the next bytes, whatever the
        chunk boundaries, and returns 0 for a non-empty buffer only when the
        sender is gone and every byte has been delivered. */
    method Read(buf: array<byte>) returns (n: nat)
      requires ValidSource(State())
      modifies this, buf
      ensures ValidSource(State()) && n <= buf.Length
      ensures old(Pending(State())) == buf[..n] + Pending(State())
      ensures buf[n..] == old(buf[n..])
      ensures n == 0 <==> buf.Length == 0 || old(Pending(State())) == []
      ensures n == 0 && buf.Length > 0 ==> rx == []
      ensures |rx| <= |old(rx)|
    {
      if buf.Length == 0 {
        return 0;
      }
      while true
        invariant ValidSource(State())
        invariant Pending(State()) == old(Pending(State()))
        invariant buf[..] == old(buf[..]) && |rx| <= |old(rx)|
        decreases |rx|
      {
        if pos < |leftover| {
          n := Min(buf.Length, |leftover| - pos);
          forall i | 0 <= i < n {
            buf[i] := leftover[pos + i];
          }
          assert buf[..n] == leftover[pos..pos + n];
          assert leftover[pos..] == leftover[pos..pos + n] + leftover[pos + n..];
          pos := pos + n;
          return;
        }
        if rx == [] {
          return 0;
        }
        assert leftover[pos..] == [];
        leftover, pos, rx := rx[0], 0, rx[1..];
        assert leftover[pos..] == leftover;
      }
    }
  }

  /** A caller that reads with the given buffer sizes, one after the other. What
      it gets is a prefix of what was written; a zero-length answer to a real
      buffer means it has everything. */
  method ReadAll(chunks: seq<Bytes>, sizes: seq<nat>) returns (got: Bytes, ended: bool)
    ensures got <= Flatten(chunks)
    ensures ended ==> got == Flatten(chunks)
    ensures (forall i :: 0 <= i < |sizes| ==> sizes[i] > 0) && |sizes| > |Flatten(chunks)| ==> ended
  {
    var reader := new ChannelReader(chunks);
    ghost var allReal := forall i :: 0 <= i < |sizes| ==> sizes[i] > 0;
    got, ended := [], false;
    var i := 0;
    hide Pending, Flatten;
    while i < |sizes| && !ended
      invariant 0 <= i <= |sizes| && fresh(reader)
      invariant ValidSource(reader.State())
      invariant got + Pending(reader.State()) == Flatten(chunks)
      invariant ended ==> Pending(reader.State()) == []
      invariant allReal && !ended ==> i <= |got|
    {
      ghost var before := Pending(reader.State());
      var buf := new byte[sizes[i]](_ => 0);
      var n := reader.Read(buf);
      var piece := buf[..n];
      assert before == piece + Pending(reader.State());
      ConcatAssoc(got, piece, Pending(reader.State()));
      got := got + piece;
      ended := n == 0 && buf.Length > 0;
      i := i + 1;
    }
    assert |got| <= |Flatten(chunks)|;
  }

  /** The unpacker's input is the compressor's output: chunks written one by one
      and read back through any buffers. */
  method Bridge(writes: seq<Bytes>, sizes: seq<nat>) returns (got: Bytes, ended: bool)
    ensures got <= Flatten(writes)
    ensures ended ==> got == Flatten(writes)
  {
    var tx := new ChunkChannel();
    var writer := new ChannelWriter(tx);
    var i := 0;
    while i < |writes|
      invariant 0 <= i <= |writes| && writer.tx == tx && fresh(tx) && tx.receiverAlive
      invariant Flatten(tx.queue) == Flatten(writes[..i])
    {
      var n := writer.Write(writes[i]);
      assert writes[..i + 1] == writes[..i] + [writes[i]];
      FlattenSnoc(writes[..i], writes[i]);
      i := i + 1;
    }
    assert writes[..|writes|] == writes;
    got, ended := ReadAll(tx.queue, sizes);
  }
}
