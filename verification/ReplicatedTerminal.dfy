/** From bytes to screens: a replica that is exact on bytes shows what the pane shows. */
module ReplicatedTerminal {
  import opened Bytes
  import opened Wrappers
  import opened Replicas
  import opened Snapshots
  import opened SnapshotTheorems
  import opened RemoteViews
  import ReplicationTheorems
  import VtChunking

  /** The pane started as `start` and was fed `head`; then a snapshot of it fits the format. */
  predicate Snapshotted(start: Snapshots.Terminal, head: seq<byte>, order: seq<nat>, max: int) {
    Running(start) && Safe(start, head) && Encodable(Fed(start, head), order, max)
  }

  /** The client's terminal: that snapshot applied over what there was, and the chunks fed to it. */
  function Terminal(start: Snapshots.Terminal, head: seq<byte>, prior: Snapshots.Terminal, order: seq<nat>, max: int,
                    chunks: seq<seq<byte>>): Option<Snapshots.Terminal>
    requires Snapshotted(start, head, order, max)
  {
    match Deserialize(prior, Serialize(Fed(start, head), order, max))
    case None => None
    case Some(t) => if Running(t) && SafeAll(t, chunks) then Some(FedAll(t, chunks)) else None
  }

  /**
    The pane started as `start` and has put out `log`; the client's replica is exact up to `end`.
    Then the client's terminal mirrors the pane as it was after its first `end` bytes, provided
    that the snapshot fitted the format with a proper scroll region, that no read or replay
    boundary since the snapshot cut a string terminator, and that nothing restored a cursor saved
    off the screen, which no output at fixed geometry can do.
  */
  lemma ReplicaShowsThePane(start: Snapshots.Terminal, log: seq<byte>, prior: Snapshots.Terminal, order: seq<nat>, max: int,
                            r: Replica<nat>, head: seq<byte>, end: nat)
    requires ReplicationTheorems.Exact(r, log, end) && head == log[..r.start.value]
    requires Snapshotted(start, head, order, max) && SafeAll(start, [head] + r.chunks)
    requires Fed(start, head).screen.region.top <= Fed(start, head).screen.region.bottom
    requires VtChunking.CleanCuts(start.parser, [head] + r.chunks)
    ensures Safe(start, log[..end])
    ensures var u := Terminal(start, head, prior, order, max, r.chunks);
            && u.Some?
            && u.value.parser == Fed(start, log[..end]).parser
            && Mirrors(Fed(start, log[..end]).screen, u.value.screen)
  {
    hide Encodable, Fed, FedAll, Safe, SafeAll, Running, Serialize, Deserialize, Mirrors, VtChunking.CleanCuts, CallsOf, SameNumbers;
    assert head + Flatten(r.chunks) == log[..end];
    SnapshotThenTail(start, head, r.chunks, prior, order, max);
  }
}
