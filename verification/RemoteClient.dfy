/**
  The client's end of the connection: frames are put together from whatever reads the
  transport makes, pane frames move the pane's offset, and a hello from another daemon
  life voids all offsets.
*/
module RemoteClients {
  import opened Bytes
  import opened Wire
  import opened Wrappers
  import opened Framing
  import opened Frames
  import opened RemoteViews

  const PROTO_VERSION: nat := 5
  const HELLO_OK: nat := 64

  const PANE_OUT: nat := 0
  const PANE_SNAPSHOT: nat := 2
  const PANE_SCROLLBACK: nat := 3
  const PANE_ACK: nat := 4
  const PANE_RESUME: nat := 5

  /** The Unix-domain transport, which has no streams. */
  const NO_STREAM: nat := 0xFFFF_FFFF_FFFF_FFFF

  /** What the client's owner is told. */
  datatype Event =
    | HelloAccepted
    | PaneFrame(pane: nat, frame: Frame<seq<byte>>)
    | Scrollback(pane: nat, payload: seq<byte>)
    | Ack(pane: nat, number: nat, echoOff: bool)
    | Control(kind: nat, payload: seq<byte>)
    | Disconnected

  datatype State = State(connected: bool, epoch: nat, off: map<nat, nat>, paneStream: map<nat, nat>, events: seq<Event>)

  function Tell(s: State, e: Event): State {
    s.(events := s.events + [e])
  }

  function Failed(s: State): State {
    if !s.connected then s else Tell(s.(connected := false, paneStream := map[]), Disconnected)
  }

  /** A different epoch is a different daemon life: offsets into the old one mean nothing. */
  function Hello(s: State, payload: seq<byte>): State {
    var (i, version) := Get(Input(payload, true), 4);
    var epoch := if |i.rest| >= 4 then Get(i, 4).1 else 0;
    var t := if epoch != s.epoch then s.(epoch := epoch, off := map[]) else s;
    if i.ok && version == PROTO_VERSION then Tell(t, HelloAccepted) else Failed(t)
  }

  /** The pane frame in a message, if that is what it is. */
  function FrameOf(m: Message): Option<Frame<seq<byte>>> {
    if m.kind == PANE_OUT then Some(Out(m.payload))
    else if m.kind == PANE_RESUME && |m.payload| >= 8 then Some(Resume(FromLE(m.payload[..8])))
    else if m.kind == PANE_SNAPSHOT then Some(Snap(m.payload, |m.payload|))
    else None
  }

  function OnPane(s: State, m: Message): State {
    match FrameOf(m)
    case Some(f) => Tell(s.(off := Anchored(s.off, m.channel, f)), PaneFrame(m.channel, f))
    case None =>
      if m.kind == PANE_SCROLLBACK then Tell(s, Scrollback(m.channel, m.payload))
      else if m.kind == PANE_ACK && |m.payload| >= 4
      then Tell(s, Ack(m.channel, FromLE(m.payload[..4]), |m.payload| >= 5 && m.payload[4] != 0))
      else s
  }

  function Dispatch(s: State, stream: nat, m: Message): State {
    if m.channel == 0 then
      if m.kind == HELLO_OK then Hello(s, m.payload) else Tell(s, Control(m.kind, m.payload))
    else
      OnPane(if stream != NO_STREAM then s.(paneStream := s.paneStream[m.channel := stream]) else s, m)
  }

  /** Everything that can be taken off a stream's buffer; a failed connection keeps nothing. */
  function Drain(s: State, stream: nat, buffer: seq<byte>): (State, seq<byte>)
    decreases |buffer|
  {
    if !s.connected then (s, [])
    else match Take(buffer)
      case NeedMore => (s, buffer)
      case Bad => (Failed(s), [])
      case Item(m, used) => Drain(Dispatch(s, stream, m), stream, buffer[used..])
  }

  class RemoteClient {
    var connected: bool
    var epoch: nat
    var off: map<nat, nat>
    var paneStream: map<nat, nat>
    var inputs: map<nat, seq<byte>>
    var events: seq<Event>

    function Value(): State
      reads this
    {
      State(connected, epoch, off, paneStream, events)
    }

    function Buffered(stream: nat): seq<byte>
      reads this
    {
      if stream in inputs then inputs[stream] else []
    }

    method Close()
      modifies this`connected, this`inputs, this`paneStream
      ensures !connected && inputs == map[] && paneStream == map[]
    {
      inputs, paneStream, connected := map[], map[], false;
    }

    method Fail()
      modifies this
      ensures Value() == Failed(old(Value()))
      ensures inputs == if old(connected) then map[] else old(inputs)
    {
      if !connected { return; }
      Close();
      events := events + [Disconnected];
    }

    static method ReadHello(payload: seq<byte>) returns (ok: bool, version: nat, life: nat)
      ensures var (i, v) := Get(Input(payload, true), 4);
              ok == i.ok && version == v && life == if |i.rest| >= 4 then Get(i, 4).1 else 0
    {
      hide Get;
      var r := new Reader(payload);
      version := r.Int(4);
      ok, life := r.ok, 0;
      if |payload| - r.p >= 4 { life := r.Int(4); }
    }

    method DispatchHello(payload: seq<byte>)
      modifies this
      ensures Value() == Hello(old(Value()), payload)
      ensures inputs == if old(connected) && !connected then map[] else old(inputs)
    {
      hide Get;
      var ok, version, life := ReadHello(payload);
      if life != epoch {
        off := map[];
        epoch := life;
      }
      if ok && version == PROTO_VERSION { events := events + [HelloAccepted]; } else { Fail(); }
    }

    method DispatchPane(m: Message)
      modifies this`off, this`events
      ensures Value() == OnPane(old(Value()), m)
    {
      if m.kind == PANE_OUT {
        if m.channel in off { off := off[m.channel := off[m.channel] + |m.payload|]; }
        events := events + [PaneFrame(m.channel, Out(m.payload))];
      } else if m.kind == PANE_RESUME {
        if |m.payload| >= 8 {
          off := off[m.channel := FromLE(m.payload[..8])];
          events := events + [PaneFrame(m.channel, Resume(off[m.channel]))];
        }
      } else if m.kind == PANE_SNAPSHOT {
        off := off - {m.channel};
        events := events + [PaneFrame(m.channel, Snap(m.payload, |m.payload|))];
      } else if m.kind == PANE_SCROLLBACK {
        events := events + [Scrollback(m.channel, m.payload)];
      } else if m.kind == PANE_ACK {
        if |m.payload| >= 4 {
          var echoOff := |m.payload| >= 5 && m.payload[4] != 0;
          events := events + [Ack(m.channel, FromLE(m.payload[..4]), echoOff)];
        }
      }
    }

    method DispatchMessage(stream: nat, m: Message)
      modifies this
      ensures Value() == Dispatch(old(Value()), stream, m)
      ensures inputs == if old(connected) && !connected then map[] else old(inputs)
    {
      if m.channel != 0 && stream != NO_STREAM { paneStream := paneStream[m.channel := stream]; }
      if m.channel == 0 {
        if m.kind == HELLO_OK { DispatchHello(m.payload); } else { events := events + [Control(m.kind, m.payload)]; }
      } else {
        DispatchPane(m);
      }
    }

    /** Bytes arrive on a stream; every complete frame is dispatched. */
    method Receive(stream: nat, data: seq<byte>)
      requires connected
      modifies this
      ensures (Value(), Buffered(stream)) == Drain(old(Value()), stream, old(Buffered(stream)) + data)
      ensures forall other | other != stream && connected :: Buffered(other) == old(Buffered(other))
    {
      hide Dispatch, Take;
      inputs := inputs[stream := Buffered(stream) + data];
      ghost var all := Buffered(stream);
      while connected && |Buffered(stream)| >= HEADER
        invariant connected || inputs == map[]
        invariant Drain(old(Value()), stream, all) == Drain(Value(), stream, Buffered(stream))
        invariant forall other | other != stream && connected :: Buffered(other) == old(Buffered(other))
        decreases connected, |Buffered(stream)|
      {
        var buffer := Buffered(stream);
        var taken := Take(buffer);
        TakeIsSteady();
        match taken {
          case Bad =>
            Fail();
          case NeedMore => return;
          case Item(m, used) =>
            DispatchMessage(stream, m);
            if connected { inputs := inputs[stream := buffer[used..]]; }
        }
      }
      ShortIsIncomplete(Value(), stream, Buffered(stream));
    }

    lemma ShortIsIncomplete(s: State, stream: nat, buffer: seq<byte>)
      requires !s.connected ==> buffer == []
      requires |buffer| < HEADER
      ensures Drain(s, stream, buffer) == (s, buffer)
    {
    }
  }

  // ---------- all that arrives, in order ----------

  function DispatchAll(s: State, stream: nat, ms: seq<Message>): State
    decreases |ms|
  {
    if ms == [] then s else DispatchAll(Dispatch(s, stream, ms[0]), stream, ms[1..])
  }

  /** None of the messages is a hello of a version the client does not speak. */
  predicate Welcome(m: Message) {
    m.channel == 0 && m.kind == HELLO_OK ==>
      var (i, version) := Get(Input(m.payload, true), 4);
      i.ok && version == PROTO_VERSION
  }

  predicate Proper(messages: seq<Message>) {
    forall i | 0 <= i < |messages| :: FitsFrame(messages[i]) && Welcome(messages[i])
  }

  lemma ProperTail(messages: seq<Message>)
    requires Proper(messages) && messages != []
    ensures FitsFrame(messages[0]) && Welcome(messages[0]) && Proper(messages[1..])
  {
    assert forall i | 0 <= i < |messages[1..]| :: messages[1..][i] == messages[i + 1];
  }

  lemma {:induction false} DrainDispatches(s: State, stream: nat, messages: seq<Message>, tail: seq<byte>)
    requires s.connected && Proper(messages)
    requires Take(tail).NeedMore?
    ensures Drain(s, stream, EncodeAll(Encode, messages) + tail) == (DispatchAll(s, stream, messages), tail)
    decreases |messages|
  {
    hide Take, Encode;
    if messages == [] {
      assert EncodeAll(Encode, messages) + tail == tail;
    } else {
      var rest := EncodeAll(Encode, messages[1..]) + tail;
      assert EncodeAll(Encode, messages) + tail == Encode(messages[0]) + rest;
      ProperTail(messages);
      TakeOfEncode(messages[0], rest);
      assert (Encode(messages[0]) + rest)[|Encode(messages[0])|..] == rest;
      DrainDispatches(Dispatch(s, stream, messages[0]), stream, messages[1..], tail);
    }
  }

  /** Draining read by read is draining at once, as long as the connection holds. */
  lemma {:induction false} DrainConcat(s: State, stream: nat, a: seq<byte>, b: seq<byte>)
    ensures var (t, rest) := Drain(s, stream, a);
            t.connected ==> Drain(s, stream, a + b) == Drain(t, stream, rest + b)
    decreases |a|
  {
    hide Dispatch;
    TakeIsSteady();
    if s.connected && Take(a).Item? {
      assert Take(a + b) == Take(a) by { StableAt(Take, a, b); }
      assert (a + b)[Take(a).used..] == a[Take(a).used..] + b;
      DrainConcat(Dispatch(s, stream, Take(a).value), stream, a[Take(a).used..], b);
    }
    hide Take;
  }

  function ReceiveAll(s: State, stream: nat, buffer: seq<byte>, chunks: seq<seq<byte>>): (State, seq<byte>)
    decreases |chunks|
  {
    if chunks == [] then (s, buffer)
    else
      var (t, rest) := Drain(s, stream, buffer + chunks[0]);
      ReceiveAll(t, stream, rest, chunks[1..])
  }

  /** Whatever reads a stream comes in, the client acts on exactly its frames, in order, and keeps
      only an incomplete one. */
  lemma FramesAreActedOn(s: State, stream: nat, messages: seq<Message>, tail: seq<byte>, chunks: seq<seq<byte>>)
    requires s.connected && Proper(messages)
    requires Take(tail).NeedMore? && Flatten(chunks) == EncodeAll(Encode, messages) + tail
    ensures ReceiveAll(s, stream, [], chunks) == (DispatchAll(s, stream, messages), tail)
  {
    assert Take([]).NeedMore?;
    hide Take, Encode, Dispatch, Welcome, FitsFrame, Drain, ReceiveAll, DispatchAll, Proper, Flatten, EncodeAll;
    DrainDispatches(s, stream, messages, tail);
    StaysConnected(s, stream, messages);
    assert [] + Flatten(chunks) == Flatten(chunks);
    ReceiveIsDrain(s, stream, [], chunks);
  }

  lemma {:induction false} StaysConnected(s: State, stream: nat, messages: seq<Message>)
    requires s.connected && Proper(messages)
    ensures DispatchAll(s, stream, messages).connected
    decreases |messages|
  {
    if messages != [] {
      ProperTail(messages);
      StaysConnected(Dispatch(s, stream, messages[0]), stream, messages[1..]);
    }
  }

  lemma {:induction false} ReceiveIsDrain(s: State, stream: nat, buffer: seq<byte>, chunks: seq<seq<byte>>)
    requires Take(buffer).NeedMore? && s.connected
    requires Drain(s, stream, buffer + Flatten(chunks)).0.connected
    ensures ReceiveAll(s, stream, buffer, chunks) == Drain(s, stream, buffer + Flatten(chunks))
    decreases |chunks|
  {
    hide Take, Dispatch;
    if chunks == [] {
      assert buffer + Flatten(chunks) == buffer;
    } else {
      var a := buffer + chunks[0];
      var (t, rest) := Drain(s, stream, a);
      assert buffer + Flatten(chunks) == a + Flatten(chunks[1..]);
      DrainStops(s, stream, a, Flatten(chunks[1..]));
      DrainConcat(s, stream, a, Flatten(chunks[1..]));
      ReceiveIsDrain(t, stream, rest, chunks[1..]);
    }
  }

  /** What is left after draining is incomplete, and a connection that holds to the end held all along. */
  lemma {:induction false} DrainStops(s: State, stream: nat, a: seq<byte>, b: seq<byte>)
    requires s.connected && Drain(s, stream, a + b).0.connected
    ensures Drain(s, stream, a).0.connected && Take(Drain(s, stream, a).1).NeedMore?
    decreases |a|
  {
    hide Dispatch;
    TakeIsSteady();
    StableAt(Take, a, b);
    if Take(a).Item? {
      assert (a + b)[Take(a).used..] == a[Take(a).used..] + b;
      var t := Dispatch(s, stream, Take(a).value);
      if t.connected { DrainStops(t, stream, a[Take(a).used..], b); }
    }
    hide Take;
  }

  // ---------- the same offsets as the protocol's ----------

  /** A pane message that carries a frame moves the offset as the protocol says, and is handed on as that frame. */
  lemma DispatchedFrame(s: State, stream: nat, m: Message)
    requires m.channel != 0 && FrameOf(m).Some?
    ensures var t := Dispatch(s, stream, m);
            && t.off == Anchored(s.off, m.channel, FrameOf(m).value) && t.epoch == s.epoch
            && t.events == s.events + [PaneFrame(m.channel, FrameOf(m).value)]
  {
  }

  /** Offsets survive a hello from the same daemon life and no other. */
  lemma HelloOfThisLife(s: State, stream: nat, m: Message, epoch: nat)
    requires m == Message(0, HELLO_OK, LE(PROTO_VERSION, 4) + LE(epoch, 4)) && epoch < 0x1_0000_0000
    ensures Dispatch(s, stream, m) == Tell(s.(epoch := epoch, off := if epoch == s.epoch then s.off else map[]), HelloAccepted)
  {
    RangeValues();
    GetOfSmall(PROTO_VERSION, 4, LE(epoch, 4));
    GetOfSmall(epoch, 4, []);
    assert LE(epoch, 4) + [] == LE(epoch, 4);
  }
}
