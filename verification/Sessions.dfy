/** A server session's per-connection entries, and the `handle_send` arms and
    teardown paths that change them (src/server.rs:30-47, 348-416, 694-747,
    818-822). */
module Sessions {
  import opened Prelude
  import S = ServerRelay

  /** A relay's upload channel: the map's sender and every clone point here. */
  class WriterChannel {
    var queue: seq<Bytes>
    var receiverAlive: bool

    constructor ()
      ensures queue == [] && receiverAlive
    {
      queue, receiverAlive := [], true;
    }
  }

  /** A `Notify` as the abort path uses it: at most one stored permit. */
  class AbortSignal {
    var permit: bool

    constructor ()
      ensures !permit
    {
      permit := false;
    }

    method NotifyOne()
      modifies this
      ensures permit
    {
      permit := true;
    }
  }

  class Session {
    var tcpWriters: map<nat, WriterChannel>
    var aborts: map<nat, AbortSignal>

    ghost predicate Valid()
      reads this
    {
      && (forall a, b :: a in tcpWriters && b in tcpWriters && a != b ==> tcpWriters[a] != tcpWriters[b])
      && (forall a, b :: a in aborts && b in aborts && a != b ==> aborts[a] != aborts[b])
    }

    constructor ()
      ensures Valid() && tcpWriters == map[] && aborts == map[]
    {
      tcpWriters, aborts := map[], map[];
    }

    /** The session's view of one relay agrees with the transition system's. */
    ghost predicate Shows(cid: nat, c: S.Conn)
      reads this, if cid in aborts then {aborts[cid]} else {}
    {
      && (cid in tcpWriters <==> c.up.linked)
      && (cid in aborts <==> c.inAborts)
      && (cid in aborts ==> aborts[cid].permit == c.permit)
    }

    method Connect(cid: nat) returns (rx: WriterChannel, abort: AbortSignal)
      requires Valid()
      modifies this
      ensures Valid() && fresh(rx) && fresh(abort) && rx.queue == [] && rx.receiverAlive
      ensures tcpWriters == old(tcpWriters)[cid := rx] && aborts == old(aborts)[cid := abort]
      ensures Shows(cid, S.FRESH)
    {
      rx := new WriterChannel();
      abort := new AbortSignal();
      tcpWriters := tcpWriters[cid := rx];
      aborts := aborts[cid := abort];
    }

    /** Data: look the sender up, release the lock, then send on the clone, waiting
        for room. `frees` says how such a wait ends: the relay takes an item, or
        goes away. The answer is 200 whatever happens; `delivered` says what did. */
    method HandleData(cid: nat, data: Bytes, frees: bool) returns (delivered: bool)
      requires Valid()
      modifies if cid in tcpWriters then {tcpWriters[cid]} else {}
      ensures Valid()
      ensures delivered <==> cid in tcpWriters && old(tcpWriters[cid].receiverAlive)
                               && (old(|tcpWriters[cid].queue|) < S.WRITE_CHANNEL_CAPACITY || frees)
      ensures cid in tcpWriters ==>
        var q, tx := old(tcpWriters[cid].queue), tcpWriters[cid];
        var full := |q| >= S.WRITE_CHANNEL_CAPACITY;
        && tx.queue == (if !delivered then q else if full then q[1..] + [data] else q + [data])
        && tx.receiverAlive == (old(tcpWriters[cid].receiverAlive) && (!full || frees))
    {
      delivered := false;
      if cid in tcpWriters {
        var tx := tcpWriters[cid];
        if !tx.receiverAlive {
          return;
        }
        if |tx.queue| >= S.WRITE_CHANNEL_CAPACITY {
          if !frees {
            tx.receiverAlive := false;
            return;
          }
          tx.queue := tx.queue[1..];
        }
        tx.queue := tx.queue + [data];
        delivered := true;
      }
    }

    /** Close: half-close. The writer goes, the abort signal stays. */
    method HandleClose(cid: nat, ghost c: S.Conn)
      requires Valid() && Shows(cid, c)
      modifies this
      ensures Valid() && tcpWriters == old(tcpWriters) - {cid} && aborts == old(aborts)
      ensures Shows(cid, S.Next(c, S.HandleClose))
    {
      RemoveWriter(cid);
    }

    /** Abort: both directions go, and the read task's permit is left behind. */
    method HandleAbort(cid: nat, ghost c: S.Conn) returns (fired: bool)
      requires Valid() && Shows(cid, c)
      modifies this, if cid in aborts then {aborts[cid]} else {}
      ensures Valid() && tcpWriters == old(tcpWriters) - {cid} && aborts == old(aborts) - {cid}
      ensures fired <==> cid in old(aborts)
      ensures fired ==> old(aborts)[cid].permit && S.Next(c, S.HandleAbort).permit
      ensures forall d :: d in aborts ==> aborts[d].permit == old(aborts[d].permit)
      ensures Shows(cid, S.Next(c, S.HandleAbort))
    {
      RemoveWriter(cid);
      fired := cid in aborts;
      if cid in aborts {
        var abort := aborts[cid];
        aborts := aborts - {cid};
        abort.NotifyOne();
      }
    }

    method RemoveWriter(cid: nat)
      requires Valid()
      modifies this`tcpWriters
      ensures Valid() && tcpWriters == old(tcpWriters) - {cid}
    {
      tcpWriters := tcpWriters - {cid};
    }

    /** After both tasks have joined. */
    method Cleanup(cid: nat, ghost c: S.Conn)
      requires Valid() && Shows(cid, c) && S.Enabled(c, S.JoinTasks)
      modifies this
      ensures Valid() && tcpWriters == old(tcpWriters) - {cid} && aborts == old(aborts) - {cid}
      ensures Shows(cid, S.Next(c, S.JoinTasks))
    {
      RemoveWriter(cid);
      aborts := aborts - {cid};
    }
  }
}
