/** A QUIC connection's send buffers: one queue per stream, fed to the transport on demand. */
module QuicQueues {
  import opened Bytes
  import B = Backpressure

  datatype StreamBuf = StreamBuf(out: seq<byte>, off: nat)

  predicate Sound(b: StreamBuf) {
    b.off <= |b.out|
  }

  /** What is still to be sent. */
  function Pending(b: StreamBuf): seq<byte>
    requires Sound(b)
  {
    b.out[b.off..]
  }

  /** Bytes queued on the streams numbered below n. */
  function Queued(streams: map<nat, StreamBuf>, n: nat): nat
    requires forall id | id in streams :: Sound(streams[id])
  {
    if n == 0 then 0 else Queued(streams, n - 1) + (if n - 1 in streams then |Pending(streams[n - 1])| else 0)
  }

  lemma {:induction false} QueuedUpdate(streams: map<nat, StreamBuf>, id: nat, b: StreamBuf, n: nat)
    requires (forall i | i in streams :: Sound(streams[i])) && Sound(b)
    ensures var before := if id in streams then |Pending(streams[id])| else 0;
            Queued(streams[id := b], n) == Queued(streams, n) + (if id < n then |Pending(b)| - before else 0)
  {
    if n > 0 { QueuedUpdate(streams, id, b, n - 1); }
  }

  class Conn {
    var streams: map<nat, StreamBuf>
    var bound: nat
    var dead: bool
    var drained: nat

    ghost predicate Valid()
      reads this
    {
      forall id | id in streams :: id < bound && Sound(streams[id])
    }

    ghost function Total(): nat
      requires Valid()
      reads this
    {
      Queued(streams, bound)
    }

    ghost function Left(id: nat): seq<byte>
      requires Valid()
      reads this
    {
      if id in streams then Pending(streams[id]) else []
    }

    constructor ()
      ensures Valid() && Total() == 0 && !dead && drained == 0
    {
      streams, bound, dead, drained := map[], 0, false, 0;
    }

    /** All streams together, in order of their numbers. */
    method CountQueued() returns (n: nat)
      requires Valid()
      ensures n == Total()
    {
      n := 0;
      var id := 0;
      while id < bound
        invariant 0 <= id <= bound && n == Queued(streams, id)
      {
        if id in streams { n := n + (|streams[id].out| - streams[id].off); }
        id := id + 1;
      }
    }

    /** Appends to a stream's queue; a dead connection takes nothing. */
    method Send(id: nat, data: seq<byte>)
      requires Valid()
      modifies this`streams, this`bound
      ensures Valid()
      ensures Left(id) == if dead then old(Left(id)) else old(Left(id)) + data
      ensures forall other | other != id :: Left(other) == old(Left(other))
      ensures Total() == if dead then old(Total()) else old(Total()) + |data|
    {
      if dead { return; }
      var b := if id in streams then streams[id] else StreamBuf([], 0);
      if id >= bound {
        Widen(streams, bound, id + 1);
        bound := id + 1;
      }
      QueuedUpdate(streams, id, StreamBuf(b.out + data, b.off), bound);
      streams := streams[id := StreamBuf(b.out + data, b.off)];
    }

    static lemma {:induction false} Widen(streams: map<nat, StreamBuf>, n: nat, m: nat)
      requires n <= m && forall id | id in streams :: id < n && Sound(streams[id])
      ensures Queued(streams, m) == Queued(streams, n)
    {
      if n < m { Widen(streams, n, m - 1); }
    }

    /** The transport takes up to `room` bytes of a stream. The owner is told when the connection's queue
        falls below the low mark. */
    method PrepareToSend(id: nat, room: nat) returns (chunk: seq<byte>)
      requires Valid()
      modifies this`streams, this`drained
      ensures Valid() && |chunk| == Min(|old(Left(id))|, room)
      ensures chunk + Left(id) == old(Left(id))
      ensures forall other | other != id :: Left(other) == old(Left(other))
      ensures Total() == old(Total()) - |chunk|
      ensures drained == old(drained) + (if id in old(streams) && old(Total()) >= B.LOW_WATER > Total() && !dead then 1 else 0)
    {
      if id !in streams { return []; }
      var b := streams[id];
      var avail := |b.out| - b.off;
      var n := if avail < room then avail else room;
      var before := CountQueued();
      chunk := b.out[b.off..b.off + n];
      var rest := StreamBuf(b.out, b.off + n);
      if rest.off == |rest.out| { rest := StreamBuf([], 0); }
      QueuedUpdate(streams, id, rest, bound);
      streams := streams[id := rest];
      var after := CountQueued();
      if before >= B.LOW_WATER && after < B.LOW_WATER && !dead { drained := drained + 1; }
    }
  }
}
