# The terminal-state replication of rivt, modelled and proved

rivt runs shells in a daemon, rivtd, and shows them in clients that may be somewhere else, lose
their connection, and come back. Both ends run the same terminal: a byte parser (`VtParser`) and a
screen with scrollback (`ScreenBuffer`). A client that attaches is sent a snapshot, or only the
output it missed, and from there on the pane's bytes. This project states and proves why client and
daemon then show the same thing, and does the same for five smaller cores: the split-pane layout,
the daemon's tables, the signed membership log, the WebSocket framer and backpressure.

The project file is `dfyconfig.toml`. The whole is built in two layers. What code
does is defined on values, by functions; classes and methods that update their fields in place, with
the loops of the original, are proved against those functions; the theorems are about the functions.

| files | what they model |
|---|---|
| `Bytes`, `Wrappers`, `Wire` | arithmetic helpers, `Option`, the little-endian writer and fail-soft reader |
| `VtParser`, `VtChunking`, `VtRoundTrips` | the 13-state byte machine, its independence of reads, texts and parameters read back |
| `Cells`, `Screen`, `ScreenBuffer`, `ScreenHistory`, `Renditions` | the screen as rows, the ring buffer that implements it, scrolling as splicing and history, what colours mean |
| `Reflow`, `ReflowTheorems`, `Resize` | re-wrapping on a new width, moving rows on a new height, and what both keep |
| `LineCodec`, `Snapshot`, `SnapshotProgram`, `SnapshotTheorems` | the snapshot format, the program that writes and reads it, and the round trip |
| `Replica`, `Pane`, `ReplicatedTerminal` | snapshot followed by the rest of the output is the whole output; a pane, in which the programs meet |
| `RemoteViews`, `Replication`, `ReplicationTheorems`, `ReplacedDaemon` | the attach and resume protocol as a step relation, over every run; one run in which a live pane is lost |
| `WindowResync`, `WindowResyncTheorems` | how a returning client learns which windows exist |
| `Framing`, `Frames`, `RemoteClient`, `RemoteController` | frames over arbitrary reads; the client's two objects |
| `LazyHistory`, `HistoryBreaks` | older scrollback fetched on demand; when the client's history comes apart |
| `Layout`, `LayoutTheorems`, `LayoutNode`, `LayoutHandover` | the split tree on values and as linked nodes; its handover code |
| `DaemonTables`, `DaemonTableTheorems`, `DaemonProgram` | sessions, windows, panes and clients, kept in agreement by every handler |
| `Membership`, `MembershipTheorems`, `MembershipSync` | the hash-chained log, who is a member and why, adopting a server's log |
| `WebSocket` | client frames (sections 5.2 and 5.3 of RFC 6455) |
| `Backpressure`, `QuicQueue` | pausing and waking panes; the send queue that wakes them |

## How the main results fit together

1. *The bytes.* `ChunkingIrrelevant`: reads do not matter, short of cutting a string terminator, and
   `ConcatIff` says that every such cut shows in the handler calls, whatever string and continuation.
2. *The terminal.* `SnapshotThenTail`: output up to any byte, a snapshot, and the rest of the output
   in any reads give the same parser and, up to how much history is held, the same screen.
   `Panes.Replicate` is this law for the programs: parser, ring buffer, writer and reader.
3. *The protocol.* `HeldOffsetsAreExact`: in every run, a client that holds offset X for a pane has a
   snapshot followed by exactly the bytes up to X. In `Replication` a snapshot frame stands for the
   place it was taken at; `ReplicaShowsThePane` puts 2 and 3 together. Here `Exact` means: the
   replica's chunks, joined, are the log from the snapshot's place to the offset.
4. *History.* `HistoryIsContiguous`: together with what is fetched later, the client's scrollback is
   one unbroken stretch of the daemon's history, as long as no snapshot is taken while the scroll region
   is inverted and no replayed gap joins a string terminator that was cut. `ContiguousIff` says that the
   first condition is exact.

## Where the code falls short of the tidy law

Each of these is a lemma with the exact condition, for all inputs, and most have a second one that runs
into it from a fresh terminal.

- A string terminator (ESC, backslash) cut between two reads is not recognised
  (`VtChunking.ConcatIff`, `BoundaryHarmlessIff`). Ring replay joins and cuts reads anew, so the replica can
  differ there; the replication laws therefore ask for clean cuts. The look-ahead in the DcsIgnore
  state is written but never reached, because ESC leaves that state before it.
- ED 3 empties the scrollback without advancing the count of trimmed lines
  (`ScreenHistory.CallKeepsWindowIff`, `Replicas.CallKeepsNumbersIff`); a full reset starts the
  numbering over.
- A view scrolled back as far as the limit allows slips by a line
  (`ScreenHistory.ViewKeepsPlaceIff`).
- A resize leaves the saved cursor where it was, and restoring does not clamp it: ESC 8, or leaving the
  alternate screen, then puts the cursor off the screen (`Resizing.ResizeThenRestoreIff`,
  `SavedThenShrunk`). This is the one way for a screen to stop being well formed (`Screens.Apply`);
  the laws about runs ask that no call of the run does it (`Screens.Ready`), which is always so while
  the saved cursor is on the screen.
- Shrinking and growing back loses rows below the cursor and lines past the limit
  (`Resizing.GrowUndoesShrinkIff`, `TextBelowIsLost`); a higher alternate screen takes lines out of the scrollback
  (`Resizing.AltResizeKeepsScrollbackIff`, `AltTakesScrollback`).
- An inverted scroll region does not survive a snapshot (`SnapshotTheorems.RegionRestoredIff`,
  `Replicas.SnapshotMirrorsIff`), and the same output can then push different lines on the two sides, so
  that fetched history does not fit (`HistoryBreaks.ContiguousIff`, `LineFeedBreaks`). A gap replayed
  across a cut terminator does the same (`HistoryBreaks.CutInGapBreaks`).
- The 65th early frame of a pane is dropped while its bytes are counted
  (`ReplicationTheorems.LostFrameIff`).
- A daemon that was replaced, not upgraded, numbers its panes anew. A client that knew the old ones
  can let go of a live pane when the layout of another window comes
  (`ReplicationTheorems.LayoutDropsLiveIff`; `ReplacedDaemon.LivePaneIsLetGo` is a run that does).
- A paused pane can stay paused when the client that slowed it detaches, or is dropped and swept
  before it has drained (`Backpressure.DesertionStrandsIff`).
- `sync_membership` adopts any longer verified log of the same name, also one that branches off
  before the local log's end (`MembershipSync.AdoptedContinuesIff`). Bytes behind an operation's
  signature are not checked by `parse_op`; they still enter the hash.
- Reflow drops the semantic-zone marks of the lines it re-wraps, and a trailing omitted CSI
  parameter is dropped (`VtRoundTrips.ParamsRoundTrip`).

## Model

| member | source | states |
|---|---|---|
| `VtParsing.VtParser.Feed` | src/terminal/vt_parser.cpp:102-325 | the byte loop, with its one byte of lookahead, makes exactly the handler calls and reaches exactly the state of the recursive machine |
| `VtParsing.VtParser.Consume` | src/terminal/vt_parser.cpp:102-325 | one pass of the loop takes one byte, or two when ESC and backslash end a string, and does what the machine does with them |
| `VtParsing.VtParser.FeedByState` | src/terminal/vt_parser.cpp:141-325 | a byte that is not a control is handled by state: next state, parameters, intermediate and calls |
| `VtParsing.VtParser.FeedString` | src/terminal/vt_parser.cpp:255-318 | inside OSC, APC and DCS strings: what terminates them, what is collected, what is passed over |
| `VtParsing.VtParser.Transition` | src/terminal/vt_parser.cpp:8-31 | entering a state clears exactly the accumulators that belong to it |
| `VtParsing.VtParser.OscDispatch` | src/terminal/vt_parser.cpp:81-96 | the command number is cut off at the first semicolon |
| `VtParsing.ParseCsiParams` | src/terminal/vt_parser.cpp:41-79 | the loop over the parameter text, with sub-parameters, omitted values and the dropped trailing omission, yields the recursive reading |
| `VtRoundTrips.Utf8RoundTrip` | src/terminal/vt_parser.cpp:107-126 | every printable ASCII byte, and every number up to 0x1FFFFF in the 2 to 4 byte form of section 3 of RFC 3629, is printed as itself and leaves the parser in Ground |
| `VtRoundTrips.TextIsPrinted` | src/terminal/vt_parser.cpp:102-177 | any text of such code points is printed code point by code point, in order |
| `VtRoundTrips.ParamsRoundTrip` | src/terminal/vt_parser.cpp:45-79 | CSI parameters with sub-parameters, written in the standard form, are read back, but for a trailing omitted one |
| `VtChunking.BoundaryHarmlessIff` | src/terminal/vt_parser.cpp:255-318 | feeding a then b equals feeding a+b for every b if and only if a does not end in an ESC inside an OSC, APC or DCS string |
| `VtChunking.ConcatIff` | src/terminal/vt_parser.cpp:102-325 | for every state, a and b: feeding a then b gives the calls and the state of feeding a+b, and already the calls, if and only if the cut is not between the ESC and the backslash of a terminator |
| `VtChunking.CutChangesCalls` | src/terminal/vt_parser.cpp:259-306 | a cut inside a terminator changes the calls, whatever the string and whatever follows |
| `VtChunking.BellsRing` | src/terminal/vt_parser.cpp:102-325 | every BEL makes exactly one call of four kinds, in every state, and short of the end of a string nothing else makes one |
| `VtChunking.AlikeRun` | src/terminal/vt_parser.cpp:8-31 | from Ground, what earlier sequences left in the accumulators shows in no call |
| `VtChunking.EmptyOscCanBeCut` | src/terminal/vt_parser.cpp:259-266 | such a cut is there to be met on a fresh parser |
| `VtChunking.ChunkingIrrelevant` | src/terminal/vt_parser.cpp:102-325 | however a stream is cut into reads, short of cutting a terminator, calls and final state are the same |
| `Screens.Apply` | src/terminal/screen_buffer.cpp:578-1133 | every parser call, with any parameters, keeps rows of exactly the announced width on both screens and the region bounds in range even when inverted; the cursor is on the screen afterwards if and only if the call does not restore a saved one that is not |
| `Screens.SavedInRangeIsReady` | src/terminal/screen_buffer.cpp:578-1133 | with the saved cursor on the screen, as on a fresh one, no run of calls whatever takes the cursor off it |
| `Replicas.Fed` | src/terminal/screen_buffer.cpp:578-1133 | whatever bytes a terminal is fed, screen and parser stay well formed, and so does a saved cursor |
| `Replicas.SavedInRangeIsSafe` | src/terminal/screen_buffer.cpp:1093-1102 | a terminal whose saved cursor is on the screen is safe from all output |
| `ScreenBuffers.ScreenBuffer.ScrollUp` | src/terminal/screen_buffer.cpp:449-472 | scrolling the ring, by its offset for the whole screen and row by row otherwise, is scrolling the list of rows, with every index in range |
| `ScreenBuffers.ScreenBuffer.ScrollDown` | src/terminal/screen_buffer.cpp:474-491 | the same downwards |
| `ScreenBuffers.ScreenBuffer.RotateUp` | src/terminal/screen_buffer.cpp:453-461 | moving the ring offset drops the top row and puts a blank one at the bottom |
| `ScreenBuffers.ScreenBuffer.ShiftRegionUp` | src/terminal/screen_buffer.cpp:462-470 | moving rows one by one inside a region takes the top row of the region out and leaves the rest in place |
| `ScreenBuffers.ScreenBuffer.RowAt` | src/terminal/screen_buffer.h:237-239 | the ring access finds the row of that number |
| `ScreenBuffers.ScreenBuffer.PushScrollback` | src/terminal/screen_buffer.cpp:405-418 | a pushed line is appended, the oldest past the limit go, the viewport is pulled in only when something went |
| `ScreenBuffers.ScreenBuffer.LineAt` | src/terminal/screen_buffer.cpp:337-353 | the line shown in a scrolled-back view comes from scrollback, screen or nowhere as its number says |
| `ScreenBuffers.ScreenBuffer.ScrollViewport` | src/terminal/screen_buffer.cpp:371-377 | a scrolled view stays between the oldest held line and the bottom |
| `ScreenBuffers.ScreenBuffer.PutChar` | src/terminal/screen_buffer.cpp:420-439 | deferred wrap at the margin, wrap marks, and the cell written are those of the row model |
| `ScreenBuffers.ScreenBuffer.NewLine` | src/terminal/screen_buffer.cpp:441-447 | line feed at the region bottom, at the screen bottom outside the region, and elsewhere |
| `ScreenBuffers.ScreenBuffer.EraseDisplay` | src/terminal/screen_buffer.cpp:509-533 | all modes of ED, including the one that empties the scrollback |
| `ScreenBuffers.ScreenBuffer.InsertChars` | src/terminal/screen_buffer.cpp:535-545 | moving cells right one by one from the end is inserting blanks at the cursor |
| `ScreenBuffers.ScreenBuffer.DeleteChars` | src/terminal/screen_buffer.cpp:547-557 | moving cells left one by one and erasing the freed ones is deleting at the cursor |
| `ScreenBuffers.ScreenBuffer.InsertLines` | src/terminal/screen_buffer.cpp:559-563 | IL acts only inside the region |
| `ScreenBuffers.ScreenBuffer.DeleteLines` | src/terminal/screen_buffer.cpp:565-569 | DL acts only inside the region |
| `ScreenBuffers.ScreenBuffer.HandleSgr` | src/terminal/screen_buffer.cpp:615-755 | the loop over SGR parameters, with extended colours in both notations, changes the pen as the recursive reading does |
| `Renditions.PenIsPainted` | src/terminal/screen_buffer.cpp:615-755 | a sequence of renditions, its extended colours in any of their forms, sets the pen to what they say one after the other: each form takes all its parameters and no more, and sets the one colour |
| `Renditions.FormsAgree` | src/terminal/screen_buffer.cpp:668-724 | 38;2;r;g;b, 38:2::r:g:b and 38:2:r:g:b, and 38;5;n and 38:5:n, are the same colour anywhere in a sequence; so for 48 |
| `Renditions.ColorsAreDistinct` | src/core/types.h:15-22 | two colours in range are stored alike if and only if they are the same, and never as the default one |
| `ScreenBuffers.ScreenBuffer.SetModes` | src/terminal/screen_buffer.cpp:757-815 | each listed mode in turn, including the switches to and from the alternate screen with save, clear and restore |
| `ScreenBuffers.ScreenBuffer.CsiDispatch` | src/terminal/screen_buffer.cpp:817-950 | every modelled control sequence changes the screen as the row model says |
| `ScreenBuffers.ScreenBuffer.EscDispatch` | src/terminal/screen_buffer.cpp:1087-1133 | save, restore, index, reverse index, charsets and full reset |
| `ScreenBuffers.ScreenBuffer.Handle` | src/terminal/screen_buffer.cpp:578-1133 | any handler call on the ring keeps it a faithful image of the row model |
| `ScreenHistory.ScrollUpIsSplice` | src/terminal/screen_buffer.cpp:449-472 | n single steps up equal one splice, and what leaves the main screen through its top is added to history, in order |
| `ScreenHistory.ScrollDownIsSplice` | src/terminal/screen_buffer.cpp:474-491 | n single steps down equal one splice, and change nothing but the rows |
| `ScreenHistory.RunKeepsWindow` | src/terminal/screen_buffer.cpp:405-418 | over any run of calls without ED 3 the scrollback is exactly the untrimmed end of history and within its limit |
| `ScreenHistory.CallKeepsWindowIff` | src/terminal/screen_buffer.cpp:525-531 | a call breaks that numbering if and only if it is ED 3 with lines in the scrollback, because the trimmed count does not advance |
| `ScreenHistory.ErasedIsNotCounted` | src/terminal/screen_buffer.cpp:525-531 | a line feed and ED 3 on a screen of one row do that |
| `ScreenHistory.PrependKeepsWindowIff` | src/terminal/screen_buffer.cpp:379-388 | lines put in front keep the numbering if and only if they are the last ones trimmed |
| `ScreenHistory.ViewSlips` | src/terminal/screen_buffer.cpp:405-461 | with a limit of one line, scrolled back by it, the second line of output moves the view |
| `ScreenHistory.ViewKeepsPlaceIff` | src/terminal/screen_buffer.cpp:405-461 | a scrolled-back view keeps showing the same line numbers under a line of output if and only if it is not already past what the limit lets stay |
| `ScreenHistory.ViewIsPinned` | src/terminal/screen_buffer.cpp:337-353 | no shown row changes under a line of output except the one whose line was evicted |
| `Reflowing.GroupLogical` | src/terminal/screen_buffer.cpp:157-206 | the gathering loop joins wrapped rows, trims them and finds the cursor as the recursive definition does |
| `Reflowing.Rewrap` | src/terminal/screen_buffer.cpp:208-249 | the wrapping loop yields the lines at the new width and the line that holds the cursor |
| `Reflowing.TrimBelowCursor` | src/terminal/screen_buffer.cpp:140-155 | only blank, unwrapped lines below the cursor go |
| `Reflowing.CursorOnLogicalLine` | src/terminal/screen_buffer.cpp:171-206 | the cursor cell is always part of its logical line after trimming, so the fallbacks for a cursor that was not found are never taken |
| `ScreenBuffers.ScreenBuffer.Reflow` | src/terminal/screen_buffer.cpp:126-335 | the five steps in place compute the reflow of the row model |
| `ReflowTheorems.RewrappingKeepsText` | src/terminal/screen_buffer.cpp:157-249 | grouping rows into logical lines and wrapping them at any width leaves their text |
| `ReflowTheorems.ReflowIsSuffix` | src/terminal/screen_buffer.cpp:251-306 | scrollback and screen together are all re-wrapped lines but the oldest past the limit, which advance the trimmed count |
| `ReflowTheorems.ReflowKeepsText` | src/terminal/screen_buffer.cpp:126-335 | for every new size all logical lines, at least down to the cursor's, have the same text, and below them there are only blank ones |
| `ReflowTheorems.ReflowReadsTheSame` | src/terminal/screen_buffer.cpp:126-335 | the buffer itself reads the same, line by line, from the first logical line on that is neither dropped over the limit nor cut, and does not end before the cursor's line |
| `ReflowTheorems.LastReflowDecides` | src/terminal/screen_buffer.cpp:126-335 | after two reflows in a row, every logical line that none of them drops or cuts reads as after the last one alone, and as before; lines past the end count as blank |
| `ReflowTheorems.CursorLineRemains` | src/terminal/screen_buffer.cpp:251-313 | two reflows in a row leave the cursor's logical line within the buffer, or drop it from the top |
| `ReflowTheorems.ReflowKeepsCursor` | src/terminal/screen_buffer.cpp:264-313 | the cursor stays on its logical line and cell offset whenever that cell is on the new screen, and otherwise goes to the top row |
| `ReflowTheorems.CursorStays` | src/terminal/screen_buffer.cpp:264-313 | with its line neither dropped nor cut, and its cell on the new screen, the cursor has the same place in the buffer, counted in offsets and in logical lines less those dropped |
| `ReflowTheorems.ReflowedWellFormed` | src/terminal/screen_buffer.cpp:264-335 | a reflowed screen is well formed, and the saved cursor is not moved |
| `ScreenBuffers.ScreenBuffer.Resize` | src/terminal/screen_buffer.cpp:57-117 | re-wrapping, or rows pushed out, pulled back from the scrollback, cut and padded in place, as on the row model |
| `ScreenBuffers.ScreenBuffer.Linearize` | src/terminal/screen_buffer.cpp:51-55 | turning the ring to start at its first row changes no row |
| `Resizing.PullLines` | src/terminal/screen_buffer.cpp:81-91 | the loop takes the newest scrollback lines, in order, until the screen is full or none is left |
| `Resizing.ResizedWellFormed` | src/terminal/screen_buffer.cpp:57-117 | a resized screen is well formed, and the saved cursor is not moved |
| `Resizing.ResizeThenRestoreIff` | src/terminal/screen_buffer.cpp:1093-1102 | after a resize, restoring the cursor puts it on the screen if and only if the place saved is still there |
| `Resizing.SavedThenShrunk` | src/terminal/screen_buffer.cpp:1090-1102 | a line feed, ESC 7, one row less and ESC 8 put it off the screen |
| `Resizing.RowsKeepLines` | src/terminal/screen_buffer.cpp:69-99 | when only the height changes, scrollback and screen stay the same lines but for the oldest past the limit and rows cut below the cursor; blank rows come only once the scrollback is used up; lines of another width that come back are made as wide as the screen |
| `Resizing.RowsKeepCursor` | src/terminal/screen_buffer.cpp:69-115 | when only the height changes, the cursor stays on its line, whose absolute number is unchanged |
| `Resizing.GrowUndoesShrinkIff` | src/terminal/screen_buffer.cpp:69-99 | for every main screen, growing back undoes a shrink if and only if no line was evicted and no row below the cursor cut, or there was no scrollback and what was lost was blank: the rows cut, and all rows if any were evicted |
| `Resizing.TextBelowIsLost` | src/terminal/screen_buffer.cpp:93-99 | a letter below the cursor is lost by one row less and one row more |
| `Resizing.AltTakesScrollback` | src/terminal/screen_buffer.cpp:84-92 | a line feed, the alternate screen and one row more take a line out of the scrollback |
| `Resizing.AltResizeKeepsScrollbackIff` | src/terminal/screen_buffer.cpp:84-92 | on the alternate screen a resize leaves the scrollback alone if and only if the screen gets no higher or there is none |
| `Wire.Writer.Int` | src/proto/wire.h:13-34 | little-endian, appended |
| `Wire.Reader.Int` | src/proto/wire.h:36-67 | a read past the end gives 0, consumes nothing and latches the failure |
| `Wire.Reader.Text` | src/proto/wire.h:48-54 | a length-prefixed string, refused when it is longer than what is left |
| `Wire.FieldsRoundTrip` | src/proto/wire.h:13-68 | any sequence of fields that fit their widths is read back and nothing behind it consumed |
| `Wire.SignedRoundTrip` | src/proto/wire.h:20-46 | two's complement, for every value in range |
| `Wire.GetStrOfStr` | src/proto/wire.h:22-54 | strings are read back |
| `LineCodec.WriteLine` | src/proto/snapshot.cpp:39-62 | the loop that measures runs writes the run-length encoding |
| `LineCodec.ReadLine` | src/proto/snapshot.cpp:64-84 | the loop over runs accepts and restores exactly what the recursive decoder does |
| `LineCodec.RunLength` | src/proto/snapshot.cpp:43-60 | a run is as long as cells stay equal, and no longer |
| `LineCodec.LineRoundTrip` | src/proto/snapshot.cpp:39-84 | every line that fits the format, with its wrap flag and zone, is restored and nothing behind it consumed |
| `LineCodec.LinesRoundTrip` | src/proto/snapshot.cpp:39-84 | so is any list of lines |
| `SnapshotProgram.Serialize` | src/proto/snapshot.cpp:92-209 | the program writes the tagged sections of the codec, in order, from the ring buffer and the parser |
| `SnapshotProgram.Deserialize` | src/proto/snapshot.cpp:211-362 | the program accepts exactly the inputs the codec accepts, and leaves buffer and parser in the state it yields |
| `SnapshotProgram.ReadSection` | src/proto/snapshot.cpp:224-347 | each section by its tag: what it overwrites, what makes it fail |
| `SnapshotProgram.ClampState` | src/proto/snapshot.cpp:351-361 | the final clamping of cursor, region and viewport |
| `SnapshotTheorems.SnapshotRoundTrip` | src/proto/snapshot.cpp:92-362 | a snapshot of any terminal that fits the format, applied over any other state, restores every replicated field |
| `SnapshotTheorems.RegionRestoredIff` | src/proto/snapshot.cpp:355-357 | the scroll region comes back unchanged if and only if it is not inverted |
| `SnapshotTheorems.InvertedRegionIsChanged` | src/proto/snapshot.cpp:355-357 | CSI 5 ; 3 r is such a region |
| `SnapshotTheorems.UnknownSectionIsSkipped` | src/proto/snapshot.cpp:217-348 | a section with an unknown tag, wherever sections meet, is as if it were not there |
| `SnapshotTheorems.ModesRoundTrip` | src/proto/snapshot.cpp:154-168 | the packed mode word holds all modes |
| `SnapshotTheorems.StackRoundTrip` | src/proto/snapshot.cpp:176-183 | a keyboard-flag stack of up to 1024 entries is restored |
| `SnapshotTheorems.LinksRoundTrip` | src/proto/snapshot.cpp:184-194 | the hyperlink table is restored whatever order it is iterated in |
| `Replicas.RunInStep` | src/terminal/screen_buffer.cpp:578-1133 | two screens equal in all but held history stay so under any calls; the one with less history keeps holding the newer part of the other's, under the same numbers unless ED 3 comes |
| `Replicas.CallKeepsNumbersIff` | src/terminal/screen_buffer.cpp:525-531 | a call makes the line numbers of two such screens differ if and only if it erases scrollback of which they hold different amounts |
| `Replicas.SnapshotMirrorsIff` | src/proto/snapshot.cpp:92-362 | a snapshot mirrors its screen if and only if the scroll region is not inverted |
| `Replicas.ReadsDoNotMatter` | src/daemon/rivtd.cpp:773-777 | however output is cut into reads, short of cutting a string terminator, the terminal is the same |
| `Replicas.SnapshotThenTail` | src/proto/snapshot.cpp:92-362 | output up to any byte, a snapshot, and the rest of the output in any reads: parser and screen are those of the whole stream, and the lines have the same numbers unless the rest erases the scrollback |
| `Replicas.FedInStep` | src/terminal/screen_buffer.cpp:578-1133 | two terminals that mirror each other still do after the same reads |
| `Panes.Pane.Output` | src/core/pane.cpp:146-153 | one read through the parser and, call by call, through the ring buffer is one step of the terminal |
| `Panes.Pane.TakeSnapshot` | src/daemon/rivtd.cpp:783-795 | the bytes written are the snapshot of the terminal |
| `Panes.Pane.ApplySnapshot` | src/remote/remote_controller.cpp:106-128 | the pane becomes what the snapshot says, or false is returned |
| `Panes.Replicate` | src/daemon/rivtd.cpp:783-795 | a pane, a snapshot of it applied to any other pane, and then the same bytes into both, each in reads of its own: the other mirrors it |
| `ReplicatedTerminal.ReplicaShowsThePane` | src/remote/remote_controller.cpp:106-171 | a client that is exact in the sense of the protocol shows the pane: its terminal mirrors the one fed all output up to its offset |
| `RemoteViews.FramePlaysOnContent` | src/remote/remote_controller.cpp:106-171 | a kept frame is played on its pane's content, at once or when the pane is created; no other pane changes |
| `RemoteViews.LayoutKeepsContent` | src/remote/remote_controller.cpp:282-340 | creating panes from a layout changes no content: what was parked is what a pane starts from |
| `RemoteViews.DroppedFrameIsSkipped` | src/remote/remote_controller.cpp:162-171 | a frame that finds no place changes nothing, though the offset has moved past it |
| `ReplicationTheorems.RecordedOk` | src/daemon/rivtd.cpp:1029-1037 | the ring is the newest bytes of the pane's output, as many as the limit allows, and ends at its count |
| `ReplicationTheorems.GreetingOk` | src/daemon/rivtd.cpp:762-798 | what attach sends a pane takes a client to the end of its output, from the gap if the ring has it, else from a snapshot |
| `ReplicationTheorems.StepKeeps` | src/daemon/rivtd.cpp:736-801 | every step of daemon, channels and client keeps the protocol invariant |
| `ReplicationTheorems.HeldOffsetsAreExact` | src/remote/remote_client.cpp:599-669 | in every run of connects, losses, attaches, evictions, upgrades and replacements: a client with offset X for a pane it kept, and lost no frame of, has exactly the first X bytes, none skipped, none repeated |
| `ReplicationTheorems.DrainedIsCurrent` | src/daemon/rivtd.cpp:736-801 | once an attached pane's stream is drained, the offset is the end of its output |
| `ReplicationTheorems.LivePanesAreKept` | src/remote/remote_controller.cpp:282-340 | unless a new daemon reuses numbers, the client never lets go of a pane that lives |
| `ReplicationTheorems.LostFrameIff` | src/remote/remote_controller.cpp:106-171 | output leaves an exact pane exact if and only if the frame found its pane or a place among the 64 parked ones |
| `ReplicationTheorems.LayoutDropsLiveIff` | src/remote/remote_controller.cpp:282-340 | a layout takes a live pane from the client if and only if its number was filed under that window in an earlier daemon's time and is in another window now |
| `ReplacedDaemon.LivePaneIsLetGo` | src/remote/remote_controller.cpp:327-337 | a concrete run, from a fresh daemon and client, at the end of which the client holds the offset of a live pane and not its content |
| `ReplicationTheorems.OnlyReplacingMisfiles` | src/remote/remote_client.cpp:649-668 | no other step files a number wrongly |
| `WindowResyncTheorems.StepKeeps` | src/remote/remote_controller.cpp:26-98 | every step keeps the resync invariant |
| `WindowResyncTheorems.QuietClientsAgree` | src/remote/remote_controller.cpp:26-98 | whenever nothing is on its way, an attached client has exactly its session's windows |
| `WindowResyncTheorems.BarrierConverges` | src/remote/remote_controller.cpp:26-41 | from the session list on, the client's windows and what is on its way make up the session's windows |
| `WindowResyncTheorems.NoLiveWindowIsDropped` | src/remote/remote_controller.cpp:342-359 | no step but giving up for good drops a window that the session has |
| `WindowResyncTheorems.AnnouncementsHeard` | src/daemon/rivtd.cpp:755-761 | hearing the announcements behind AttachOk marks exactly the session's windows and drops none |
| `Framing.ReadsAreOneStream` | src/remote/remote_client.cpp:599-647 | for any parser whose verdict more bytes do not change, frames and rest do not depend on how the stream is cut into reads |
| `Framing.FramesSurviveReads` | src/remote/remote_client.cpp:599-647 | items encoded one after another and cut into arbitrary reads come out as they went in |
| `Frames.TakeOfEncode` | src/proto/frame.h:25-36 | header and payload of any frame within the cap are read back, whatever follows |
| `Frames.TakeIsSteady` | src/proto/frame.h:31-36 | the verdict on the front of a buffer does not change with more bytes, and every frame consumes some |
| `Frames.FramesArrive` | src/remote/remote_client.cpp:599-647 | frames cut into arbitrary reads arrive, in order, and only an incomplete one stays buffered |
| `RemoteClients.RemoteClient.Receive` | src/remote/remote_client.cpp:599-647 | the buffer loop acts on every complete frame in order and keeps the rest; a desync or a bad hello disconnects; other streams are untouched |
| `RemoteClients.RemoteClient.DispatchPane` | src/remote/remote_client.cpp:620-643 | the offset moves by output, is set by an anchor and voided by a snapshot |
| `RemoteClients.RemoteClient.DispatchHello` | src/remote/remote_client.cpp:652-668 | a hello of another epoch voids all offsets, before the version is looked at |
| `RemoteClients.DrainDispatches` | src/remote/remote_client.cpp:599-647 | draining encoded frames dispatches exactly those |
| `RemoteClients.FramesAreActedOn` | src/remote/remote_client.cpp:599-647 | whatever reads the frames of a stream come in, the client acts on exactly those, in order |
| `RemoteClients.DispatchedFrame` | src/remote/remote_client.cpp:620-632 | a pane message moves the offset as the protocol model says and is handed on as that frame |
| `RemoteClients.HelloOfThisLife` | src/remote/remote_client.cpp:652-659 | offsets survive a hello from the same daemon life and no other |
| `RemoteControllers.RemoteController.OnSessionList` | src/remote/remote_controller.cpp:26-48 | ends the resync by dropping exactly the windows not announced, with their panes; otherwise picks a session |
| `RemoteControllers.RemoteController.OnAttachOk` | src/remote/remote_controller.cpp:59-81 | starts the resync and asks for the list that ends it |
| `RemoteControllers.RemoteController.OnWindowAdded` | src/remote/remote_controller.cpp:83-92 | a window of the own session is added once, and marked while resyncing |
| `RemoteControllers.RemoteController.OnWindowClosed` | src/remote/remote_controller.cpp:94-98 | a window of the own session goes with its panes |
| `RemoteControllers.RemoteController.DropWindow` | src/remote/remote_controller.cpp:342-359 | the window and all panes filed under it go, nothing else |
| `RemoteControllers.RemoteController.OnSessionCreated` | src/remote/remote_controller.cpp:50-57 | attaches to the new session, or gives up |
| `RemoteControllers.RemoteController.OnSessionClosed` | src/remote/remote_controller.cpp:184-189 | gives up if it is the own session |
| `RemoteControllers.RemoteController.OnError` | src/remote/remote_controller.cpp:209-214 | gives up only while reconnecting |
| `RemoteControllers.RemoteController.OnDisconnect` | src/remote/remote_controller.cpp:191-207 | an attached client keeps windows and panes, and will come back |
| `RemoteControllers.RemoteController.OnHelloOk` | src/remote/remote_controller.cpp:14-24 | asks for what its target needs |
| `RemoteControllers.RemoteController.OnPaneFrame` | src/remote/remote_controller.cpp:106-171 | a frame goes to its pane, or is parked: output and snapshots alike go to the end of the queue, up to its cap and the size limit |
| `RemoteControllers.RemoteController.CreateRemotePane` | src/remote/remote_controller.cpp:392-426 | a new pane is given what was parked for it, in order |
| `RemoteControllers.RemoteController.OnLayout` | src/remote/remote_controller.cpp:282-340 | drawable panes that are missing are created, panes of the window that are not listed are let go |
| `RemoteControllers.RemoteController.OnPaneExited` | src/remote/remote_controller.cpp:173-182 | the pane goes |
| `LazyHistory.Fetch` | src/daemon/rivtd.cpp:840-864 | the clamped answer is written from the scrollback in place |
| `LazyHistory.FetchedIsSlice` | src/daemon/rivtd.cpp:840-864 | for any question the answer is exactly the lines [start, start + n) of history, at most 1000, and ends where asked if that is held |
| `LazyHistory.AnswerRoundTrip` | src/daemon/rivtd.cpp:854-862 | an answer is read back as it was |
| `LazyHistory.OnScrollback` | src/remote/remote_controller.cpp:130-160 | lines that continue the scrollback upwards are put in front of it, all others refused; a malformed answer changes nothing |
| `LazyHistory.StepKeeps` | src/remote/remote_controller.cpp:130-160 | every step of output, question, answer, gap and snapshot keeps the invariant, if a gap joins no cut string terminator and the region is proper when a snapshot is taken |
| `LazyHistory.ReceiveIsEnabled` | src/remote/remote_controller.cpp:130-160 | the client can always take what comes next |
| `LazyHistory.GapIsWhatIsUnread` | src/daemon/rivtd.cpp:773-777 | a replayed gap that joins no cut terminator has the effect of the chunks of output it replays |
| `LazyHistory.HistoryIsContiguous` | src/remote/remote_controller.cpp:130-160 | from a snapshot on, in every such run of bytes, what the client holds is an unbroken stretch of the daemon's history under the same numbers |
| `HistoryBreaks.InvertedRegionBreaks` | src/proto/snapshot.cpp:355-357 | after a snapshot of any pane with an inverted region, whatever state pane and parser are in, some plain output breaks that |
| `HistoryBreaks.ContiguousIff` | src/proto/snapshot.cpp:355-357 | history stays contiguous in all such runs after a snapshot if and only if the region was not inverted |
| `HistoryBreaks.LineFeedBreaks` | src/proto/snapshot.cpp:355-357 | CSI 0 ; 0 r, a snapshot and a line feed: the client has a line of history and the pane none |
| `HistoryBreaks.CutInGapBreaks` | src/terminal/vt_parser.cpp:259-266 | two reads cut inside a terminator and replayed as one gap: the same, with a proper region |
| `HistoryBreaks.BreakingIsRead` | src/terminal/vt_parser.cpp:102-325 | whatever state the parser is in, the output that breaks contiguity makes the intended calls, behind one that ends what was going on |
| `LazyHistory.PlainKeepsWindow` | src/terminal/screen_buffer.cpp:379-418 | plain output only adds to history and keeps a scrollback that is its end so |
| `LazyHistory.FetchExtendsIff` | src/remote/remote_controller.cpp:720-728 | with nothing in between, a question brings lines if and only if the daemon holds older ones, and then as many as asked or held |
| `ScreenBuffers.ScreenBuffer.PrependScrollback` | src/terminal/screen_buffer.cpp:379-388 | older lines go in front and the trimmed count goes back by as many |
| `LayoutNodes.LayoutNode.Split` | src/core/layout.cpp:15-36 | in the linked tree, the target's leaf becomes an even split of it and the new pane, or nothing changes when it is not there |
| `LayoutNodes.LayoutNode.Remove` | src/core/layout.cpp:38-69 | in the linked tree, the split above the leaf collapses into the sibling |
| `LayoutNodes.LayoutTree.Remove` | src/core/layout.cpp:38-69 | the last pane takes the tree with it |
| `LayoutNodes.LayoutNode.ComputeNode` | src/core/layout.cpp:77-122 | every node is given its rectangle, and nothing else changes |
| `LayoutNodes.LayoutTree.PaneAt` | src/core/layout.cpp:190-206 | the descent through the stored rectangles finds the pane of the model |
| `LayoutNodes.LayoutTree.ResizeEdge` | src/core/layout.cpp:161-188 | one divider of the linked tree is moved, or none |
| `LayoutTheorems.SplitInsertsAfter` | src/core/layout.cpp:15-36 | the new pane comes right behind its target in leaf order |
| `LayoutTheorems.SplitAddsOneSplit` | src/core/layout.cpp:15-36 | all other splits keep direction and ratio |
| `LayoutTheorems.WithoutIff` | src/core/layout.cpp:38-69 | a pane can be taken out of a tree if and only if it is in it and not alone |
| `LayoutTheorems.WithoutRemovesLeaf` | src/core/layout.cpp:38-69 | exactly one leaf goes |
| `LayoutTheorems.WithoutRemovesOneSplit` | src/core/layout.cpp:38-69 | exactly one split goes, all others keep direction and ratio |
| `LayoutTheorems.RemoveUndoesSplit` | src/core/layout.cpp:15-69 | removing the new pane undoes the split |
| `LayoutTheorems.EditsKeepRatios` | src/core/layout.cpp:15-188 | no edit takes a ratio out of [0.05, 0.95] |
| `LayoutTheorems.ExtentBounds` | src/core/layout.cpp:96-121 | for extents of any sign, cells of any size and any border, the two parts stay within the parent |
| `LayoutTheorems.StepTiles` | src/core/layout.cpp:77-122 | the two halves of a split lie in its rectangle and share no point |
| `LayoutTheorems.PlacesAreInside` | src/core/layout.cpp:77-122 | no pane reaches outside the window, however small it is |
| `LayoutTheorems.PlacesAreDisjoint` | src/core/layout.cpp:77-122 | no point belongs to two panes |
| `LayoutTheorems.PaneAtIff` | src/core/layout.cpp:190-206 | the hit test finds a pane if and only if the point is in its rectangle |
| `LayoutTheorems.EdgeSplitIsEdge` | src/core/layout.cpp:161-175 | the divider found is one of that direction with the pane before it |
| `LayoutTheorems.EdgeSplitIsInnermost` | src/core/layout.cpp:168-175 | and it is the innermost such divider |
| `LayoutTheorems.ResizeMovesOneDivider` | src/core/layout.cpp:177-188 | a resize moves that divider and nothing else; it does nothing if and only if there is none or its split has no extent |
| `LayoutTheorems.WithRatioChangesOne` | src/core/layout.cpp:177-188 | setting one ratio changes no other node |
| `LayoutHandover.WriteTree` | src/daemon/rivtd.cpp:1395-1410 | the recursive writer appends the prefix code |
| `LayoutHandover.ReadTree` | src/daemon/rivtd.cpp:1412-1429 | the recursive reader reads what the decoder reads, and stops where it stops |
| `LayoutHandover.DecodeOfEncode` | src/daemon/rivtd.cpp:1395-1429 | exactly the tree's bytes are read back, as that tree with ratios in millionths; an unknown pane refuses it after just as many bytes |
| `LayoutHandover.QuantizedTwice` | src/daemon/rivtd.cpp:1395-1429 | a second handover changes no ratio any more |
| `DaemonProgram.Daemon.AddWindow` | src/daemon/rivtd.cpp:980-1001 | a window with one pane in all tables, announced and laid out; or a pane number used up |
| `DaemonProgram.Daemon.NewSession` | src/daemon/rivtd.cpp:949-976 | a session with one window; without a shell it goes again and the client hears so |
| `DaemonProgram.Daemon.SplitPane` | src/daemon/rivtd.cpp:1130-1147 | one more pane in tree, window and index |
| `DaemonProgram.Daemon.CloseWindow` | src/daemon/rivtd.cpp:1003-1026 | the window goes from all tables, and the session with its last one |
| `DaemonProgram.Daemon.CloseSession` | src/daemon/rivtd.cpp:1171-1201 | its panes leave the index and its clients are told and detached |
| `DaemonProgram.Daemon.RemoveDeadPane` | src/daemon/rivtd.cpp:1321-1360 | the search through all sessions and windows finds the pane where it is, and takes it out of tree and window, closing an emptied window |
| `DaemonProgram.Daemon.SweepPanes` | src/daemon/rivtd.cpp:1362-1391 | every pane that has died since the last sweep is removed |
| `DaemonProgram.Daemon.ClosePane` | src/daemon/rivtd.cpp:825-839 | a pane of the client's own session is closed at once, any other request ignored |
| `DaemonProgram.Daemon.OnOutput` | src/daemon/rivtd.cpp:1029-1042 | output goes into the ring and to everyone attached |
| `DaemonProgram.Daemon.OnDead` | src/daemon/rivtd.cpp:1076-1080 | a pane that dies leaves the index and waits for the sweep, once |
| `DaemonProgram.Daemon.Attach` | src/daemon/rivtd.cpp:736-801 | refused, or announced window by window and brought up to date pane by pane |
| `DaemonProgram.Daemon.Search` | src/daemon/rivtd.cpp:1323-1335 | finds a pane if and only if some window has it |
| `DaemonTableTheorems.OpenWindowKeeps` | src/daemon/rivtd.cpp:980-1001 | keeps the tables in agreement, and settles a session that had no window yet |
| `DaemonTableTheorems.SplitKeeps` | src/daemon/rivtd.cpp:1130-1147 | keeps the tables in agreement |
| `DaemonTableTheorems.CloseWindowKeeps` | src/daemon/rivtd.cpp:1003-1026 | keeps the tables in agreement, also for a window that is already without panes |
| `DaemonTableTheorems.EndSessionKeeps` | src/daemon/rivtd.cpp:1171-1201 | keeps the tables in agreement, also for a session without windows |
| `DaemonTableTheorems.RemoveDeadKeeps` | src/daemon/rivtd.cpp:1321-1360 | settles the tables for a pane that has left the index but not its window |
| `DaemonTableTheorems.SweepKeeps` | src/daemon/rivtd.cpp:1362-1391 | keeps the tables in agreement and empties the queue |
| `DaemonTableTheorems.HandleKeeps` | src/daemon/rivtd.cpp:684-905 | every modelled request from any client keeps the tables in agreement |
| `DaemonTableTheorems.NextKeeps` | src/daemon/rivtd.cpp:684-1391 | so does every step of the daemon |
| `DaemonTableTheorems.After` | src/daemon/rivtd.cpp:684-1391 | in every run the tables agree: indexed panes, windows, layouts, sessions and attached clients |
| `DaemonTableTheorems.PaneIsWhereItSays` | src/daemon/rivtd.cpp:816-839 | in every run, a pane of a window is in its layout, in the index under that session and window or in the dead queue, and in no other window |
| `DaemonTableTheorems.HomeIsWhereHeld` | src/daemon/rivtd.cpp:1323-1335 | a pane is found in one place only, so the order of the search does not matter |
| `Memberships.MembershipLog.AppendVerified` | src/net/membership.cpp:177-216 | accepts an operation if and only if the longer log verifies; otherwise nothing changes |
| `Memberships.MembershipLog.Load` | src/net/membership.cpp:218-229 | succeeds if and only if the chain verifies, and then holds it; otherwise the log is empty |
| `Memberships.MembershipLog.Members` | src/net/membership.cpp:231-236 | the members that have not expired |
| `MembershipTheorems.ParseOfBuild` | src/net/membership.cpp:36-68 | an operation is read back as it was built whatever follows it, and its signed part is the body's bytes |
| `MembershipTheorems.KeysAreDistinct` | src/net/membership.cpp:192-214 | no device is listed twice |
| `MembershipTheorems.LastWordDecides` | src/net/membership.cpp:192-214 | a device is a member if and only if the last operation about it is no removal, and as that operation named it |
| `MembershipTheorems.NoWordNoMember` | src/net/membership.cpp:192-214 | nobody is a member about whom nothing was said |
| `MembershipTheorems.MembersTraceToFounder` | src/net/membership.cpp:177-216 | every member traces back to the founder through devices that were members when they signed |
| `MembershipTheorems.LastOpDetermines` | src/net/membership.cpp:177-229 | two verified logs of one length with the same last operation are identical, for an injective hash |
| `MembershipTheorems.ContinuesIff` | src/net/membership.cpp:177-229 | of two verified logs the longer continues the shorter if and only if it has the shorter's last operation in its place |
| `MembershipSync.BuiltFollowsIff` | src/net/membership.cpp:126-216 | an operation built by a signer is accepted if and only if the signer is a member and the signature is good |
| `MembershipSync.AppendSigned` | src/net/membership.cpp:151-175 | what is appended, and when nothing is |
| `MembershipSync.FileRoundTrip` | src/net/membership.cpp:260-287 | a saved log is loaded as it was |
| `MembershipSync.HexInjective` | src/net/membership.cpp:76-81 | the hexadecimal form loses nothing |
| `MembershipSync.SameNameSameGenesis` | src/net/membership.cpp:244-247 | two sets of one name have the same founding operation |
| `MembershipSync.LoadOrFound` | src/net/membership.cpp:300-317 | the log on disk if it verifies, else a founded one if allowed |
| `MembershipSync.Sync` | src/net/membership.cpp:300-337 | for arbitrary answers: the log never gets shorter, never changes its name and always verifies; what is pushed completes an honest server |
| `MembershipSync.AdoptedContinuesIff` | src/net/membership.cpp:324-330 | an adopted log goes on from the local one if and only if it has the local log's last operation in its place; a longer branch is adopted all the same |
| `WebSockets.WsClient.EncodeFrame` | src/net/ws_client.cpp:219-241 | header in the right one of three length forms, mask, payload masked in place (sections 5.2 and 5.3 of RFC 6455) |
| `WebSockets.WsClient.ParseFrames` | src/net/ws_client.cpp:181-217 | the offset loop acts on every complete frame and keeps the rest |
| `WebSockets.WsClient.OnFrame` | src/net/ws_client.cpp:202-213 | text is delivered, a ping answered, a close closes |
| `WebSockets.MaskedTwice` | src/net/ws_client.cpp:236-238 | masking undoes itself |
| `WebSockets.TakeIsSteady` | src/net/ws_client.cpp:181-201 | the verdict on the front of a buffer does not change with more bytes |
| `WebSockets.TakeOfEncode` | src/net/ws_client.cpp:181-241 | a frame of any length form, masked or not, is read back whatever follows |
| `WebSockets.FramesArrive` | src/net/ws_client.cpp:181-241 | any frames cut into any reads are taken off as they were put on |
| `WebSockets.DrainActs` | src/net/ws_client.cpp:181-217 | reading a buffer acts on exactly its frames, in order |
| `WebSockets.MessagesArrive` | src/net/ws_client.cpp:181-241 | the client delivers and answers exactly what a peer sent, whatever the reads, and keeps only an incomplete frame |
| `WebSockets.TextIsDelivered` | src/net/ws_client.cpp:202-206 | text payloads are delivered as sent |
| `QuicQueues.Conn.PrepareToSend` | src/net/quic_engine.cpp:302-328 | the bytes handed out and those left are those that were queued; the owner is told exactly when the whole queue falls below the low mark |
| `QuicQueues.Conn.Send` | src/net/quic_engine.cpp:371-379 | appended to one stream; a dead connection takes nothing |
| `QuicQueues.Conn.CountQueued` | src/net/quic_engine.h:47-51 | the sum over all streams |
| `QuicQueues.QueuedUpdate` | src/net/quic_engine.h:47-51 | changing one stream changes the sum by that stream's difference |
| `Backpressure.StepKeeps` | src/daemon/rivtd.cpp:1067-1074 | no step leaves a paused pane without a wake-up on its way, unless a client leaves its session with the low mark or more still queued |
| `Backpressure.RunStrandsNobody` | src/daemon/rivtd.cpp:208-220 | in any run in which no client detaches, moves on or is swept with that much queued, no pane stays paused for good |
| `Backpressure.DesertionStrandsIff` | src/daemon/rivtd.cpp:802-804 | detaching, attaching elsewhere or the sweep of dropped clients strands panes if and only if a paused one is in a session in which nobody who stays has the low mark queued |
| `Backpressure.DroppedStillDrains` | src/daemon/rivtd.cpp:217-220 | dropping a client strands nobody yet: it drains on until the sweep, and then wakes panes as any other |
| `Backpressure.DrainingWakes` | src/daemon/rivtd.cpp:1149-1160 | a drain below the low mark wakes the session's panes unless another client is above it |

## Left out

- Rendering, windows, keyboard and mouse, selection, search, URL detection, images, title, bell, clipboard and cwd events, answers to device queries, and dirty flags: they do not feed back into the replicated state.
- Sockets, event loop, timers, child processes, TLS, QUIC itself, NAT traversal, signalling: bytes arriving, connections breaking and programs ending are steps that may happen at any time.
- SHA-256 and signatures: parameters, an injective hash where a lemma says so and an arbitrary predicate; clocks and random masks are parameters as well.
- The order in which `std::unordered_map` is iterated: a parameter of the snapshot, of the daemon's session search and of the link table; the results hold for every order.
- Machine integers in CSI parameters, in the trimmed count and in a negative scrollback limit: mathematical integers; overflow of a parameter with ten or more digits is not modelled. A scrollback limit of 2^31 or more in a snapshot and a parser state code that names no state are not modelled either.
- Floating-point ratios: reals. Rounding of `float` is not modelled, the truncation to pixels and to millionths is.
- Resizes during protocol runs: geometry is fixed there, and `ComputeNode` leaves out the resize of the panes' own screens.
- `savedViewport`, held history beyond the snapshot's depth and the view: not part of a snapshot, by design of the format; `Replicas.SameState` says what is compared.
- Replicas.SnapshotThenTail: for reads that do not cut a string terminator, a region that is not inverted at the snapshot, and no cursor restored off the screen; each is exact, see above.
- ReplicationTheorems.HeldOffsetsAreExact: a pane of which a frame was dropped at the parking cap is exempt, until its next snapshot; so is a pane that was let go.
- ReplicationTheorems.LivePanesAreKept: runs in which no daemon is replaced, because the claim is false otherwise.
- LazyHistory.HistoryIsContiguous: for a region that is not inverted whenever a snapshot is taken, and replayed gaps that join no cut string terminator, because the claim is false otherwise; and for output that neither erases the scrollback nor resets the terminal, after which numbers start anew.
- HistoryBreaks.ContiguousIff: for a scrollback limit of at least one line; with none the client holds no history.
- Backpressure.RunStrandsNobody: runs in which no client leaves its session with the low mark or more queued, because the claim is false otherwise; writes by the Unix-socket transport are not metered, as in the code.
- Session replacement in `WindowResync`: an upgrade is a disconnect there; a replaced daemon is modelled in `Replication` only.
- Control messages other than HelloOk: `RemoteClient` hands their payload on unread; the fields of each message are not decoded.
- The daemon's ResizePane and Resize requests: they change ratios and sizes, no table; the ratio change is `ResizeEdge`. Input, acknowledgements and agent streams likewise.
- The 16-bit wrap-around of pane numbers, and a corrupt handover file: pane numbers are unbounded and tables come from the handlers; of the handover only the layout code is modelled.
- The layout's `navigate`, `divider_at` and `drag_divider`: user interface over the same rectangles.
- WebSocket frames of 2^63 bytes and more, and fragmentation: the code ignores the FIN bit and so does the model.
- Predictive echo, agent forwarding, tmux control mode, reconnect timing.
