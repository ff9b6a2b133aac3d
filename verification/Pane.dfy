/**
  A pane: a parser that drives a screen. Daemon and client have one each; what goes into the
  daemon's from its program goes into the client's from the connection.
*/
module Panes {
  import opened Bytes
  import opened Wrappers
  import opened VtParsing
  import opened Replicas
  import opened Snapshots
  import opened SnapshotTheorems
  import S = Screens
  import B = ScreenBuffers
  import SnapshotProgram
  import VtChunking

  class Pane {
    const screen: B.ScreenBuffer
    const parser: VtParser

    ghost function Value(): Terminal
      reads this, screen, parser
    {
      Terminal(screen.View(), parser.Value())
    }

    ghost predicate Valid()
      reads this, screen, parser
    {
      screen.Valid() && parser.Valid()
    }

    constructor (cols: int, rows: int, limit: nat)
      requires cols >= 1 && rows >= 1
      ensures Valid() && Value() == Terminal(S.Fresh(cols, rows, limit), INITIAL)
      ensures fresh(screen) && fresh(parser)
    {
      screen := new B.ScreenBuffer(cols, rows, limit);
      parser := new VtParser();
    }

    /** The calls of one read are handled in order. */
    method Handle(calls: seq<Call>)
      requires screen.Valid() && S.Ready(screen.View(), calls)
      modifies screen
      ensures screen.Valid() && screen.View() == S.ApplyAll(old(screen.View()), calls)
    {
      hide S.Apply;
      ghost var was := screen.View();
      var i := 0;
      assert calls[0..] == calls;
      while i < |calls|
        invariant 0 <= i <= |calls| && screen.Valid() && S.Ready(screen.View(), calls[i..])
        invariant S.ApplyAll(screen.View(), calls[i..]) == S.ApplyAll(was, calls)
      {
        assert calls[i..][1..] == calls[i + 1..];
        screen.Handle(calls[i]);
        i := i + 1;
      }
    }

    /** One read of output, from the program or from the connection. */
    method Output(data: seq<byte>)
      requires Valid() && Safe(Value(), data)
      modifies screen, parser
      ensures Valid() && Value() == Fed(old(Value()), data)
    {
      hide S.ApplyAll, S.Ready, Run;
      parser.calls := [];
      parser.Feed(data);
      assert parser.calls == Run(old(parser.Value()), data).calls;
      Handle(parser.calls);
    }

    /** Read after read, as they come. */
    method Outputs(chunks: seq<seq<byte>>)
      requires Valid() && SafeAll(Value(), chunks)
      modifies screen, parser
      ensures Valid() && Value() == FedAll(old(Value()), chunks)
    {
      hide Fed, Safe;
      ghost var was := Value();
      assert chunks[0..] == chunks;
      var i := 0;
      while i < |chunks|
        invariant 0 <= i <= |chunks| && Valid() && SafeAll(Value(), chunks[i..])
        invariant FedAll(Value(), chunks[i..]) == FedAll(was, chunks)
      {
        assert chunks[i..][1..] == chunks[i + 1..];
        Output(chunks[i]);
        i := i + 1;
      }
    }

    /** What a client that attaches is sent of the pane. */
    method TakeSnapshot(max: int) returns (data: seq<byte>, order: seq<nat>)
      requires Valid()
      ensures EnumeratesLinks(Value().screen.links.uris, order) && data == Serialize(Value(), order, max)
    {
      data, order := SnapshotProgram.Serialize(screen, parser, max);
    }

    /** On false the pane may be partly overwritten. */
    method ApplySnapshot(data: seq<byte>) returns (ok: bool)
      modifies screen, parser
      ensures ok <==> Deserialize(old(Value()), data).Some?
      ensures ok ==> Some(Value()) == Deserialize(old(Value()), data)
      ensures old(screen.InRing()) ==> screen.InRing()
    {
      ok := SnapshotProgram.Deserialize(screen, parser, data);
    }
  }

  /** A snapshot of the terminal fits the format, whatever order its links are written in. */
  ghost predicate FitsTerminal(t: Terminal, max: int) {
    forall order: seq<nat> :: EnumeratesLinks(t.screen.links.uris, order) ==> Encodable(t, order, max)
  }

  /**
    The replication law for the programs themselves. A snapshot of a pane is applied to another
    pane in any state, and then both are fed the same bytes, each in reads of its own that cut no
    terminator: the other pane has come to mirror the first.
  */
  method Replicate(pane: Pane, other: Pane, chunks: seq<seq<byte>>, others: seq<seq<byte>>, max: int)
    requires pane.screen != other.screen && pane.parser != other.parser
    requires pane.Valid() && other.screen.InRing() && FitsTerminal(pane.Value(), max)
    requires pane.Value().screen.region.top <= pane.Value().screen.region.bottom
    requires Flatten(chunks) == Flatten(others) && Safe(pane.Value(), Flatten(chunks))
    requires VtChunking.CleanCuts(pane.parser.Value(), chunks) && VtChunking.CleanCuts(pane.parser.Value(), others)
    modifies pane.screen, pane.parser, other.screen, other.parser
    ensures pane.Valid() && pane.Value() == Fed(old(pane.Value()), Flatten(chunks))
    ensures other.Valid() && other.Value().parser == pane.Value().parser && Mirrors(pane.Value().screen, other.Value().screen)
  {
    hide Run, S.ApplyAll, S.Ready, Serialize, Deserialize, Restored, FitsScreen, Mirrors, CallsOf, Encodable, S.Shaped;
    ghost var (t, before) := (pane.Value(), other.Value());
    var data, order := pane.TakeSnapshot(max);
    Restores(before, t, order, max);
    var ok := other.ApplySnapshot(data);
    ReadsDoNotMatter(t, chunks);
    ReadsDoNotMatter(t, others);
    FedInStep(t, other.Value(), others);
    pane.Outputs(chunks);
    other.Outputs(others);
  }

  lemma Restores(prior: Terminal, t: Terminal, order: seq<nat>, max: int)
    requires Encodable(t, order, max) && t.screen.region.top <= t.screen.region.bottom && Running(t)
    ensures var u := Deserialize(prior, Serialize(t, order, max));
            u.Some? && Running(u.value) && u.value.parser == t.parser && Mirrors(t.screen, u.value.screen)
  {
    hide Serialize, Deserialize, Mirrors, S.Screen.WellFormed;
    SnapshotRoundTrip(prior, t, order, max);
    SnapshotMirrorsIff(prior, t, max);
  }
}
