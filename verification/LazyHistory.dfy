/**
  Scrollback on demand. A client that was sent only the newest lines asks for older ones as
  the user scrolls up; answers travel in order with the pane's output. Lines have absolute
  numbers, counted from the first line that ever left the screen.
*/
module LazyHistory {
  import opened Bytes
  import opened Cells
  import opened Wire
  import opened Wrappers
  import opened LineCodec
  import opened VtParsing
  import opened Screens
  import opened ScreenHistory
  import opened Replicas
  import opened Snapshots
  import opened SnapshotTheorems
  import VtChunking
  import B = ScreenBuffers

  const FETCH_LIMIT: nat := 1000
  const FETCH_COUNT: nat := 500

  // ---------- the daemon's answer ----------

  datatype Answer = Answer(start: nat, lines: seq<Line>)

  /** The lines before number `end`, at most `count` and not more than are held. */
  function Fetched(s: Screen, end: nat, count: nat): Answer
    requires s.trimmed >= 0
  {
    var lo := s.trimmed;
    var e := Clamp(end, lo, lo + |s.scrollback|);
    var n := Min(count, FETCH_LIMIT);
    var b := if e - lo > n then e - n else lo;
    Answer(b, s.scrollback[b - lo..e - lo])
  }

  function AnswerBytes(a: Answer): seq<byte> {
    LE(a.start, 4) + (LE(|a.lines|, 4) + EncodeLines(a.lines))
  }

  method WriteAnswer(w: Writer, a: Answer)
    modifies w
    ensures w.buf == old(w.buf) + AnswerBytes(a)
  {
    hide EncodeLines, LE;
    w.Int(a.start, 4);
    w.Int(|a.lines|, 4);
    WriteLines(w, a.lines);
  }

  /** Which lines to send is computed from the scrollback in place. */
  method Fetch(sb: B.ScreenBuffer, end: nat, count: nat, w: Writer)
    requires sb.trimmed >= 0
    modifies w
    ensures w.buf == old(w.buf) + AnswerBytes(Fetched(sb.View(), end, count))
  {
    hide AnswerBytes, B.Rotated;
    var n := if count > FETCH_LIMIT then FETCH_LIMIT else count;
    var lo, hi := sb.trimmed, sb.trimmed + |sb.scrollback|;
    var e := if end < lo then lo else if end > hi then hi else end;
    var b := if e - lo > n then e - n else lo;
    WriteAnswer(w, Answer(b, sb.scrollback[b - lo..e - lo]));
  }

  // ---------- the client's reaction ----------

  /** The answer fits exactly before what is held. */
  predicate Continues(s: Screen, a: Answer) {
    a.lines != [] && a.start + |a.lines| == s.trimmed
  }

  function Prepended(s: Screen, a: Answer): Screen {
    if Continues(s, a) then PrependScrollback(s, a.lines) else s
  }

  function DecodeAnswer(payload: seq<byte>): Option<Answer> {
    var (i, start) := Get(Input(payload, true), 4);
    var (j, n) := Get(i, 4);
    match DecodeLines(j, n)
    case None => None
    case Some((k, lines)) => if k.ok then Some(Answer(start, lines)) else None
  }

  lemma AnswerRoundTrip(a: Answer)
    requires a.start < Range(4) && |a.lines| < Range(4) && FitLines(a.lines)
    ensures DecodeAnswer(AnswerBytes(a)) == Some(a)
  {
    hide EncodeLines, DecodeLines, Range;
    GetOfSmall(a.start, 4, LE(|a.lines|, 4) + EncodeLines(a.lines));
    GetOfSmall(|a.lines|, 4, EncodeLines(a.lines));
    LinesRoundTrip(a.lines, []);
    assert EncodeLines(a.lines) + [] == EncodeLines(a.lines);
  }

  method ReadAnswer(payload: seq<byte>) returns (ok: bool, start: nat, lines: seq<Line>)
    ensures DecodeAnswer(payload) == if ok then Some(Answer(start, lines)) else None
  {
    hide DecodeLines, Get;
    var r := new Reader(payload);
    start := r.Int(4);
    var n := r.Int(4);
    ok, lines := ReadLines(r, n);
    ok := ok && r.ok;
  }

  lemma AnswerIs(s: Screen, start: nat, lines: seq<Line>)
    ensures var a := Answer(start, lines);
            && (Continues(s, a) <==> |lines| != 0 && start + |lines| == s.trimmed)
            && Prepended(s, a) == if Continues(s, a) then PrependScrollback(s, lines) else s
  {
  }

  /** Older lines arrive; those that leave a gap or come twice are refused. */
  method OnScrollback(sb: B.ScreenBuffer, payload: seq<byte>) returns (exhausted: bool)
    modifies sb`scrollback, sb`trimmed
    ensures DecodeAnswer(payload).None? ==> sb.View() == old(sb.View()) && !exhausted
    ensures DecodeAnswer(payload).Some? ==>
              sb.View() == Prepended(old(sb.View()), DecodeAnswer(payload).value)
              && exhausted == !Continues(old(sb.View()), DecodeAnswer(payload).value)
  {
    hide B.Rotated, DecodeAnswer;
    ghost var was := sb.View();
    var ok, start, lines := ReadAnswer(payload);
    if !ok { return false; }
    AnswerIs(was, start, lines);
    if |lines| == 0 || start + |lines| != sb.trimmed { return true; }
    sb.PrependScrollback(lines);
    exhausted := false;
  }

  // ---------- the conversation about one pane ----------

  /** On the pane's stream: one chunk of output, or an answer. */
  datatype Item = Output(data: seq<byte>) | Reply(answer: Answer)

  datatype Question = Question(end: nat, count: nat)

  /** `behind` is the daemon's terminal as of the output that the client has been fed. */
  datatype World = World(daemon: Terminal, behind: Terminal, client: Terminal, stream: seq<Item>,
                         questions: seq<Question>, fetching: bool, exhausted: bool)

  datatype Step =
    | PutOut(data: seq<byte>)
    | Ask
    | Serve
    | Receive
    | ReplayGap
    | SendSnapshot(max: int)

  /** Calls that neither erase the scrollback nor reset the terminal. */
  predicate PlainCalls(calls: seq<Call>) {
    NeverErasesScrollback(calls) && NeverResets(calls)
  }

  predicate Plain(t: Terminal, data: seq<byte>)
    requires Running(t)
  {
    Safe(t, data) && PlainCalls(VtParsing.Run(t.parser, data).calls)
  }

  predicate Proper(t: Terminal) {
    t.screen.region.top <= t.screen.region.bottom
  }

  /** The chunks of output that are still on their way. */
  function Unread(stream: seq<Item>): seq<seq<byte>> {
    if stream == [] then []
    else (match stream[0] case Output(data) => [data] case Reply(_) => []) + Unread(stream[1..])
  }

  predicate Sound(w: World) {
    Running(w.daemon) && Running(w.behind) && Running(w.client)
  }

  /** Receiving what comes next is always possible in a faithful run: see ReceiveIsEnabled. */
  predicate Enabled(w: World, step: Step)
    requires Sound(w)
  {
    match step
    case PutOut(data) => Plain(w.daemon, data)
    case Ask => !w.fetching && !w.exhausted && w.client.screen.trimmed > 0
    case Serve => w.questions != [] && w.daemon.screen.trimmed >= 0
    case Receive => w.stream != [] && (w.stream[0].Output? ==> Safe(w.behind, w.stream[0].data) && Safe(w.client, w.stream[0].data))
    case ReplayGap => true
    case SendSnapshot(max) => FitsScreen(w.daemon.screen, max)
  }

  /** A replayed gap joins no two chunks between which a string terminator was cut, and the scroll region
      is not inverted when a snapshot is taken. */
  predicate Faithful(w: World, step: Step)
    requires Sound(w)
  {
    match step
    case ReplayGap => VtChunking.CleanCuts(w.behind.parser, Unread(w.stream))
    case SendSnapshot(_) => Proper(w.daemon)
    case _ => true
  }

  function Onto(t: Terminal, a: Answer): Terminal {
    t.(screen := Prepended(t.screen, a))
  }

  /** What a gap is replayed as: all of it in one chunk, and nothing if there is none. */
  function Joined(chunks: seq<seq<byte>>): seq<Item> {
    if Flatten(chunks) == [] then [] else [Output(Flatten(chunks))]
  }

  function Next(w: World, step: Step): (r: World)
    requires Sound(w) && Enabled(w, step)
    ensures Sound(r)
  {
    match step
    case PutOut(data) => w.(daemon := Fed(w.daemon, data), stream := w.stream + [Output(data)])
    case Ask => w.(questions := w.questions + [Question(w.client.screen.trimmed, FETCH_COUNT)], fetching := true)
    case Serve =>
      var q := w.questions[0];
      w.(questions := w.questions[1..], stream := w.stream + [Reply(Fetched(w.daemon.screen, q.end, q.count))])
    case Receive =>
      (match w.stream[0]
       case Output(data) => w.(behind := Fed(w.behind, data), client := Fed(w.client, data), stream := w.stream[1..])
       case Reply(a) =>
         w.(client := Onto(w.client, a), fetching := false,
            exhausted := w.exhausted || !Continues(w.client.screen, a), stream := w.stream[1..]))
    case ReplayGap => w.(stream := Joined(Unread(w.stream)), questions := [], fetching := false, exhausted := false)
    case SendSnapshot(max) =>
      RestoredRuns(w.client, w.daemon, max);
      w.(client := Restored(w.client, w.daemon, max), behind := w.daemon, stream := [], questions := [],
         fetching := false, exhausted := false)
  }

  lemma RestoredRuns(prior: Terminal, t: Terminal, max: int)
    requires Running(t) && FitsScreen(t.screen, max)
    ensures Running(Restored(prior, t, max)) && Restored(prior, t, max).parser == t.parser
  {
    SnapshotMirrorsIff(prior, t, max);
    hide FitsScreen, Mirrors, SameNumbers, Screen.WellFormed;
  }

  predicate Run(w: World, steps: seq<Step>)
    requires Sound(w)
    decreases |steps|
  {
    steps == [] || (Enabled(w, steps[0]) && Run(Next(w, steps[0]), steps[1..]))
  }

  predicate FaithfulRun(w: World, steps: seq<Step>)
    requires Sound(w) && Run(w, steps)
    decreases |steps|
  {
    steps == [] || (Faithful(w, steps[0]) && FaithfulRun(Next(w, steps[0]), steps[1..]))
  }

  function After(w: World, steps: seq<Step>): World
    requires Sound(w) && Run(w, steps)
    decreases |steps|
  {
    if steps == [] then w else After(Next(w, steps[0]), steps[1..])
  }

  /** The pane is `daemon`; a client in any state has just been sent a snapshot of it. */
  function Attached(daemon: Terminal, prior: Terminal, max: int): (w: World)
    requires Running(daemon) && FitsScreen(daemon.screen, max)
    ensures Sound(w)
  {
    RestoredRuns(prior, daemon, max);
    World(daemon, daemon, Restored(prior, daemon, max), [], [], false, false)
  }

  /** What the client holds is an unbroken stretch of the daemon's history, under the same numbers. */
  predicate Contiguous(w: World) {
    var (c, history) := (w.client.screen, w.daemon.screen.history);
    && 0 <= c.trimmed && c.trimmed + |c.scrollback| <= |history|
    && c.scrollback == history[c.trimmed..c.trimmed + |c.scrollback|]
  }

  // ---------- what every conversation keeps ----------

  /** The output in the stream is plain, and each answer is right for the screen of its place in the stream. */
  predicate StreamOk(t: Terminal, stream: seq<Item>)
    requires Running(t)
    decreases |stream|
  {
    stream == [] ||
    match stream[0]
    case Output(data) => Plain(t, data) && StreamOk(Fed(t, data), stream[1..])
    case Reply(a) => IsSlice(t.screen.history, a) && StreamOk(t, stream[1..])
  }

  /** The answer is lines start, start + 1, ... of the history. */
  predicate IsSlice(history: seq<Line>, a: Answer) {
    a.start + |a.lines| <= |history| && history[a.start..a.start + |a.lines|] == a.lines
  }

  function AfterStream(t: Terminal, stream: seq<Item>): (r: Terminal)
    requires Running(t) && StreamOk(t, stream)
    ensures Running(r)
    decreases |stream|
  {
    if stream == [] then t
    else match stream[0]
      case Output(data) => AfterStream(Fed(t, data), stream[1..])
      case Reply(_) => AfterStream(t, stream[1..])
  }

  lemma {:induction false} StreamAppend(t: Terminal, stream: seq<Item>, item: Item)
    requires Running(t) && StreamOk(t, stream)
    requires item.Output? ==> Plain(AfterStream(t, stream), item.data)
    requires item.Reply? ==> IsSlice(AfterStream(t, stream).screen.history, item.answer)
    ensures StreamOk(t, stream + [item])
    ensures AfterStream(t, stream + [item])
         == if item.Output? then Fed(AfterStream(t, stream), item.data) else AfterStream(t, stream)
    decreases |stream|
  {
    hide Fed, IsSlice, Safe, PlainCalls, Running;
    if stream == [] {
      assert (stream + [item])[1..] == [];
    } else {
      assert (stream + [item])[1..] == stream[1..] + [item];
      StreamAppend(if stream[0].Output? then Fed(t, stream[0].data) else t, stream[1..], item);
    }
  }

  lemma PlainConcat(a: seq<Call>, b: seq<Call>)
    requires PlainCalls(a) && PlainCalls(b)
    ensures PlainCalls(a + b)
  {
  }

  lemma NoCallsArePlain()
    ensures PlainCalls([])
  {
  }

  /** Fed one by one, the unread chunks have the effect of all output still in the stream. */
  lemma {:induction false} UnreadIsTheStream(t: Terminal, stream: seq<Item>)
    requires Running(t) && StreamOk(t, stream)
    ensures SafeAll(t, Unread(stream)) && FedAll(t, Unread(stream)) == AfterStream(t, stream)
    ensures PlainCalls(CallsOf(t.parser, Unread(stream)))
    decreases |stream|
  {
    assert t.parser.Valid();
    hide Fed, IsSlice, PlainCalls, Running, Safe, VtParsing.Run, Machine.Valid;
    if stream == [] {
      NoCallsArePlain();
    } else if stream[0].Output? {
      var data := stream[0].data;
      UnreadIsTheStream(Fed(t, data), stream[1..]);
      var rest := Unread(stream[1..]);
      assert ([data] + rest)[1..] == rest;
      FedParser(t, data);
      PlainConcat(VtParsing.Run(t.parser, data).calls, CallsOf(VtParsing.Run(t.parser, data).machine, rest));
    } else {
      UnreadIsTheStream(t, stream[1..]);
      assert [] + Unread(stream[1..]) == Unread(stream[1..]);
    }
  }

  lemma FedParser(t: Terminal, data: seq<byte>)
    requires Running(t) && Safe(t, data)
    ensures Fed(t, data).parser == VtParsing.Run(t.parser, data).machine
  {
  }

  /** A replayed gap that joins no cut terminator has the effect of the chunks it joins. */
  lemma GapIsWhatIsUnread(t: Terminal, stream: seq<Item>)
    requires Running(t) && StreamOk(t, stream) && VtChunking.CleanCuts(t.parser, Unread(stream))
    ensures StreamOk(t, Joined(Unread(stream))) && AfterStream(t, Joined(Unread(stream))) == AfterStream(t, stream)
  {
    var chunks := Unread(stream);
    var gap := Flatten(chunks);
    UnreadIsTheStream(t, stream);
    ReadsDoNotMatter(t, chunks);
    VtChunking.ChunkingIrrelevant(t.parser, chunks);
    hide *;
    assert CallsOf(t.parser, chunks) == VtParsing.Run(t.parser, gap).calls by { CallsAre(t.parser, chunks); }
    GapAlone(t, chunks);
  }

  lemma CallsAre(m: Machine, chunks: seq<seq<byte>>)
    requires m.Valid()
    ensures CallsOf(m, chunks) == VtChunking.RunAll(m, chunks).calls
  {
  }

  lemma GapAlone(t: Terminal, chunks: seq<seq<byte>>)
    requires Running(t) && Safe(t, Flatten(chunks)) && PlainCalls(VtParsing.Run(t.parser, Flatten(chunks)).calls)
    ensures StreamOk(t, Joined(chunks)) && AfterStream(t, Joined(chunks)) == Fed(t, Flatten(chunks))
  {
    hide PlainCalls, Running, Safe, Fed;
    var gap := Flatten(chunks);
    if gap == [] { FedNothing(t); } else { assert [Output(gap)][1..] == []; }
  }

  lemma FedNothing(t: Terminal)
    requires Running(t)
    ensures Safe(t, []) && Fed(t, []) == t
  {
  }

  /** Plain output only adds to the history, and keeps a scrollback that is the end of it so. */
  lemma {:induction false} PlainKeepsWindow(s: Screen, calls: seq<Call>)
    requires s.WellFormed() && Ready(s, calls) && PlainCalls(calls)
    ensures s.history <= ApplyAll(s, calls).history
    ensures Window(s) ==> Window(ApplyAll(s, calls))
    decreases |calls|
  {
    hide Apply, ErasesScrollback, FullReset, Window;
    if calls != [] {
      assert !ErasesScrollback(calls[0]) && !FullReset(calls[0]);
      CallGrows(s, calls[0]);
      assert forall i | 0 <= i < |calls[1..]| :: calls[1..][i] == calls[i + 1];
      PlainKeepsWindow(Apply(s, calls[0]), calls[1..]);
    }
  }

  /** The client is what the daemon was, but for the lines it holds, and they are the end of its history. */
  predicate Follows(b: Terminal, c: Terminal) {
    && b.parser == c.parser && SameState(b.screen, c.screen) && SameNumbers(b.screen, c.screen)
    && Window(c.screen.(history := b.screen.history))
  }

  ghost predicate Inv(w: World) {
    && Sound(w) && Window(w.daemon.screen) && Window(w.behind.screen) && Follows(w.behind, w.client)
    && StreamOk(w.behind, w.stream) && AfterStream(w.behind, w.stream) == w.daemon
  }

  /** The answer to any question is exactly the lines [start, start + n) of the history. */
  lemma FetchedIsSlice(s: Screen, end: nat, count: nat)
    requires Window(s)
    ensures IsSlice(s.history, Fetched(s, end, count)) && |Fetched(s, end, count).lines| <= Min(count, FETCH_LIMIT)
    ensures s.trimmed <= end <= |s.history| ==> Fetched(s, end, count).start + |Fetched(s, end, count).lines| == end
  {
  }

  /** Plain output leaves the client what the daemon is, but for the lines it holds. */
  lemma FedFollows(b: Terminal, c: Terminal, data: seq<byte>)
    requires Running(b) && Running(c) && Follows(b, c) && Plain(b, data)
    ensures Safe(c, data) && Follows(Fed(b, data), Fed(c, data))
  {
    var calls := VtParsing.Run(b.parser, data).calls;
    var known := c.screen.(history := b.screen.history);
    hide VtParsing.Run, ApplyAll, Ready, HoldsEnd, Window, PlainCalls, NeverErasesScrollback;
    RunInStep(b.screen, c.screen, calls);
    RunInStep(b.screen, known, calls);
    RunInStep(c.screen, known, calls);
    PlainNeverErases(calls);
    PlainKeepsWindow(known, calls);
    KnownIs(ApplyAll(b.screen, calls), ApplyAll(c.screen, calls), ApplyAll(known, calls));
    hide SameState, SameNumbers, SameButHistory, Screen.WellFormed;
  }

  lemma KnownIs(p: Screen, q: Screen, k: Screen)
    requires k.history == p.history && SameButHistory(q, k)
    ensures k == q.(history := p.history)
  {
  }

  lemma PlainNeverErases(calls: seq<Call>)
    requires PlainCalls(calls)
    ensures NeverErasesScrollback(calls)
  {
  }

  lemma FedWindow(b: Terminal, data: seq<byte>)
    requires Running(b) && Plain(b, data)
    ensures b.screen.history <= Fed(b, data).screen.history
    ensures Window(b.screen) ==> Window(Fed(b, data).screen)
  {
    hide VtParsing.Run, ApplyAll, Ready, Window, PlainCalls;
    PlainKeepsWindow(b.screen, VtParsing.Run(b.parser, data).calls);
  }

  lemma ReceiveKeeps(w: World)
    requires Inv(w) && Enabled(w, Receive)
    ensures Inv(Next(w, Receive))
  {
    hide Fed, IsSlice, Follows, Running, Window, Safe, PlainCalls;
    if w.stream[0].Output? {
      var data := w.stream[0].data;
      FedFollows(w.behind, w.client, data);
      FedWindow(w.behind, data);
    } else {
      OntoFollows(w.behind, w.client, w.stream[0].answer);
    }
  }

  /** The client can receive whatever comes next. */
  lemma ReceiveIsEnabled(w: World)
    requires Inv(w) && w.stream != []
    ensures Enabled(w, Receive)
  {
    hide Fed, IsSlice, Follows, Running, Window, Safe, PlainCalls;
    if w.stream[0].Output? { FedFollows(w.behind, w.client, w.stream[0].data); }
  }

  /** A fitting answer makes the client hold more of the same history. */
  lemma OntoFollows(b: Terminal, c: Terminal, a: Answer)
    requires Running(c) && Follows(b, c) && IsSlice(b.screen.history, a)
    ensures Running(Onto(c, a)) && Follows(b, Onto(c, a))
  {
    var h := b.screen.history;
    if Continues(c.screen, a) {
      assert a.lines + h[c.screen.trimmed..] == h[a.start..];
    }
  }

  /** A snapshot with a proper region leaves the client what the daemon is, but for older lines. */
  lemma SnapshotFollows(prior: Terminal, t: Terminal, max: int)
    requires Running(t) && FitsScreen(t.screen, max) && Proper(t) && Window(t.screen)
    ensures Running(Restored(prior, t, max)) && Follows(t, Restored(prior, t, max))
  {
    RestoredRuns(prior, t, max);
    SnapshotMirrorsIff(prior, t, max);
    TailIsEnd(prior, t, max);
    hide Restored, FitsScreen, HoldsEnd, SameState, SameNumbers, Window, Running;
  }

  lemma TailIsEnd(prior: Terminal, t: Terminal, max: int)
    requires Window(t.screen)
    ensures Window(Restored(prior, t, max).screen.(history := t.screen.history))
  {
    hide KnownHistory, RestoredRegion;
    var s := t.screen;
    assert Tail(s, max) == s.history[s.trimmed..][|s.scrollback| - Included(s, max)..] == s.history[Omitted(s, max)..];
  }

  lemma StepKeeps(w: World, step: Step)
    requires Inv(w) && Enabled(w, step) && Faithful(w, step)
    ensures Inv(Next(w, step))
  {
    match step {
      case PutOut(data) =>
        hide Fed, StreamOk, AfterStream, Window, Follows, Running, Safe, PlainCalls;
        StreamAppend(w.behind, w.stream, Output(data));
        FedWindow(w.daemon, data);
      case Ask => hide StreamOk, AfterStream, Window, Follows, Running;
      case Serve =>
        FetchedIsSlice(w.daemon.screen, w.questions[0].end, w.questions[0].count);
        hide Fetched, StreamOk, AfterStream, Window, Follows, Running;
        StreamAppend(w.behind, w.stream, Reply(Fetched(w.daemon.screen, w.questions[0].end, w.questions[0].count)));
      case Receive => ReceiveKeeps(w);
      case ReplayGap =>
        hide Unread, Joined, StreamOk, AfterStream, Window, Follows, Running, VtChunking.CleanCuts;
        GapIsWhatIsUnread(w.behind, w.stream);
      case SendSnapshot(max) =>
        hide Restored, FitsScreen, Window, Follows, Running;
        SnapshotFollows(w.client, w.daemon, max);
    }
  }

  lemma {:induction false} RunKeeps(w: World, steps: seq<Step>)
    requires Sound(w) && Inv(w) && Run(w, steps) && FaithfulRun(w, steps)
    ensures Inv(After(w, steps))
    decreases |steps|
  {
    hide Inv, Next, Enabled, Faithful;
    if steps != [] {
      StepKeeps(w, steps[0]);
      RunKeeps(Next(w, steps[0]), steps[1..]);
    }
  }

  /**
    A client is sent a snapshot of a pane. Through any faithful run of output, questions, answers,
    replayed gaps and further snapshots, what it holds is an unbroken stretch of the daemon's
    history, under the same numbers.
  */
  lemma HistoryIsContiguous(daemon: Terminal, prior: Terminal, max: int, steps: seq<Step>)
    requires Running(daemon) && Window(daemon.screen) && FitsScreen(daemon.screen, max) && Proper(daemon)
    requires Run(Attached(daemon, prior, max), steps) && FaithfulRun(Attached(daemon, prior, max), steps)
    ensures Contiguous(After(Attached(daemon, prior, max), steps))
  {
    hide Run, FaithfulRun, After, FitsScreen, Restored, Window, Follows, Running;
    SnapshotFollows(prior, daemon, max);
    assert Inv(Attached(daemon, prior, max));
    hide Attached, Inv, Contiguous;
    RunKeeps(Attached(daemon, prior, max), steps);
    InvIsContiguous(After(Attached(daemon, prior, max), steps));
  }

  lemma InvIsContiguous(w: World)
    requires Inv(w)
    ensures Contiguous(w)
  {
    HistoryGrows(w.behind, w.stream);
    hide StreamOk, AfterStream, SameState, Running;
  }

  lemma {:induction false} HistoryGrows(t: Terminal, stream: seq<Item>)
    requires Running(t) && StreamOk(t, stream)
    ensures t.screen.history <= AfterStream(t, stream).screen.history
    decreases |stream|
  {
    hide Fed, IsSlice, Running, Safe, PlainCalls;
    if stream != [] {
      if stream[0].Output? {
        FedWindow(t, stream[0].data);
        HistoryGrows(Fed(t, stream[0].data), stream[1..]);
      } else {
        HistoryGrows(t, stream[1..]);
      }
    }
  }

  /** With nothing in between, a question brings lines exactly when the daemon holds older ones: as many as asked or held. */
  lemma FetchExtendsIff(daemon: Screen, client: Screen, count: nat)
    requires Window(daemon) && Window(client) && client.history == daemon.history && 0 < count <= FETCH_LIMIT
    ensures var a := Fetched(daemon, client.trimmed, count);
            && (Continues(client, a) <==> daemon.trimmed < client.trimmed)
            && (Continues(client, a) ==> |a.lines| == Min(count, client.trimmed - daemon.trimmed))
  {
  }
}
