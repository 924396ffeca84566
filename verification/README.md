# YuClash verification

A Dafny model of the parts of YuClash where an algorithm or a protocol carries the weight, and proofs about
that model. It covers five areas.

- **Structure of the edited text.** `Text`, `Brackets`, `Indentation`, `Folds` and `Guides` model the editor's
  fold and guide analysis. Texts are sequences of characters; lines end behind a line feed. The stack scans, the
  depth scans and the viewport computation are loops, each proved against a definition that mentions no stack,
  no scan direction and no viewport.
- **The IPC byte stream.** `Frames` has the frame layout and both readers, `Sender` the core's writer over a
  connection with partial writes, timeouts and failures, `Outbox` the host's queue of frames, and `HostServer`
  the host's session protocol as a state machine whose tasks interleave step by step.
- **Event delivery.** `Channels` has the three queues with their overflow rules, `Batcher` the batching loop,
  `TrafficLedger` the ledger of request totals with its retries.
- **Route freshness.** `RouteTracker` has the epoch and version stamps and the watch calls that arrive out of
  order, `RouteExits` the two ways to name a route's exit, `ProbeScan` the windowed scan of a probe's body, and
  `OutboundRace` the staggered race for the outbound address.
- **Profiles as YAML graphs.** `YamlGraph` has nodes that are shared and may loop, and what they denote;
  `AliasInliner` the in-place inlining of aliases; `ProfileMerge` lookups through merge keys and the merge of an
  overlay with a profile. Anchors and aliases are those of YAML 1.2.2, section 3.2.2.2; `<<` is the YAML 1.1
  merge type.

What happens outside the model comes in as data: a connection's behaviour is a script of write outcomes, other
goroutines are lists of actions taken between a method's own steps, select statements are guarded choices, and
tickers and deadlines may fire at any step. The theorems quantify over all of these. Where a method makes such
choices it keeps a log of its steps; its contract says that its state is what those steps make of the start, and
that the outside's steps among them are the script's, in order. What holds of every log is proved beside it.

`dafny verify dfyconfig.toml` verifies the project.

## Three findings

- Indent folds and colon lines' guides agree except for U+FEFF: the fold scan takes a byte order mark for blank,
  the guide scan does not. `Guides.BomHidesTheGuide` names a text whose colon line folds but has no guide, and
  `Guides.ColonGuideIsItsFold` gives the exact condition, line by line, under which guides and folds agree.
- A section of the overlay is not replaced when the overlay has a merge key spelled like the section's name, as
  in `!!merge sub-rules: {}`: the write finds the merge key, the lookup passes over it, and the section's own
  keys turn up among the overlay's (`ProfileMerge.SpelledSectionLeaks`). `ProfileMerge.AssignedIsFound` and
  `ProfileMerge.LaidOverOwns` state exactly when a written value is there.
- A frame may reach the peer whole and still count as failed, when the write that completes it also reports a
  timeout (`Sender.WholeFrameMayFail`). `Sender.WireReadsBack` and `Sender.Run` count this one frame apart; it is
  the only one, and the connection is closed after it.

## Model

| member | source | states |
|---|---|---|
| `Text.LineStartIsOnItsLine` | plugins/rust_api/rust/src/editor/folds.rs:67-69 | The offset at which a line starts lies on that line, and lines past the last start at the end of the text. |
| `Text.LineHoldsItsOffsets` | plugins/rust_api/rust/src/editor/folds.rs:34-40 | An offset is on line k, counted by line feeds before it, exactly when it lies between the starts of lines k and k + 1. |
| `Brackets.FirstCloserWins` | plugins/rust_api/rust/src/editor/folds.rs:134-148 | An opener has no second, later partner: the first closer at balance zero is the only one. |
| `Brackets.BalancedBothWays` | plugins/rust_api/rust/src/editor/folds.rs:134-165 | Over a balanced stretch, no prefix closing too much is the same as no suffix opening too much; why both scan directions may agree. |
| `Brackets.MatchedBackwards` | plugins/rust_api/rust/src/editor/folds.rs:149-165 | A pair found by a depth scan forward from its opener is exactly one found by a depth scan backward from its closer. |
| `Brackets.LastOpenerWins` | plugins/rust_api/rust/src/editor/folds.rs:149-165 | A closer has no second, earlier partner. |
| `Brackets.PartnerIsUnique` | plugins/rust_api/rust/src/editor/folds.rs:120-172 | Partnership is one to one: a bracket paired with b is paired with nothing else. |
| `Brackets.FindMatchingBracket` | plugins/rust_api/rust/src/editor/folds.rs:120-172 | For every text and offset the matcher returns q if and only if q is the partner, from openers and closers alike; strays, unclosed openers, other characters and offsets past the end get nothing. |
| `Brackets.FindMatchingBracketForward` | plugins/rust_api/rust/src/editor/guides.rs:134-162 | The bounded search returns q if and only if q is the unbounded partner and lies below the limit. |
| `Brackets.StackStep` | plugins/rust_api/rust/src/editor/folds.rs:43-55 | Reading any character keeps a kind's stack equal to the set of its unclosed openers. |
| `Brackets.StackAtHolds` | plugins/rust_api/rust/src/editor/folds.rs:29-60 | At every offset the stack of a kind holds exactly the openers of that kind not closed by then. |
| `Brackets.LastPopIsAMatch` | plugins/rust_api/rust/src/editor/folds.rs:48-55 | What the stack scan pops on reading a closer is the closer's partner by the depth scan, whatever the other kinds do. |
| `Brackets.PopsAreTheMatches` | plugins/rust_api/rust/src/editor/folds.rs:29-60 | Over any prefix, the pairs popped from the three interleaved stacks are exactly the matched pairs closed in it. |
| `Brackets.PairsAreOfAKind` | plugins/rust_api/rust/src/editor/folds.rs:128-136 | A matched pair is `{` and `}`, `[` and `]` or `(` and `)`, the opener first. |
| `Brackets.NearestIsTheMatch` | plugins/rust_api/rust/src/editor/folds.rs:134-148 | An opener and a closer of its kind match if neither character of that kind lies between them. |
| `Brackets.OuterIsMatched` | plugins/rust_api/rust/src/editor/folds.rs:134-148 | So they do around one pair of their kind. |
| `Brackets.InnerClosesFirst` | plugins/rust_api/rust/src/editor/folds.rs:134-148 | An opener inside a matched pair of its kind is matched inside that pair. |
| `Indentation.BomMattersAtTheEnd` | plugins/rust_api/rust/src/editor/folds.rs:99-118 | A line reads the same with and without U+FEFF taken for blank, if and only if its last visible character is not U+FEFF. |
| `Indentation.ReadingsAgree` | plugins/rust_api/rust/src/editor/guides.rs:117-132 | The fold scan's and the guide scan's readings of a text are equal if and only if no line ends, but for whitespace, in U+FEFF. |
| `Indentation.RunEnd` | plugins/rust_api/rust/src/editor/folds.rs:73-77 | A run ends at the first later content line that is not deeper, or at the limit if there is none. |
| `Indentation.LastContent` | plugins/rust_api/rust/src/editor/folds.rs:71-82 | The last line below the limit that is not blank, at or after the given one. |
| `Indentation.RunsMeetExactly` | plugins/rust_api/rust/src/editor/guides.rs:57-78 | A run ends at the same content line with U+FEFF visible as with it blank, if and only if above that line no line of U+FEFF alone is as shallow as the run and the first such line below it, if any, is. |
| `Indentation.TabLeadsToAStop` | plugins/rust_api/rust/src/editor/folds.rs:105-110 | A tab leads to the next multiple of the tab size, one tab size on at most, and one column on if the tab size is zero. |
| `Indentation.IndentIsOfBlanksAndTabs` | plugins/rust_api/rust/src/editor/folds.rs:99-118 | The indent of a line is where its leading blanks and tabs, and nothing else, lead one after the other. |
| `Indentation.WhitespaceIs` | plugins/rust_api/rust/src/editor/folds.rs:112-115 | The characters of the White_Space property, one by one. |
| `Indentation.ReadingIsOfTheLastVisible` | plugins/rust_api/rust/src/editor/folds.rs:99-118 | A line is read as its indent and its last character that is no white space; U+FEFF counts as one for the guides only. |
| `Indentation.BlankLinesAreNotRead` | plugins/rust_api/rust/src/editor/folds.rs:99-118 | A line of white space alone, with U+FEFF for the folds, has no reading. |
| `Folds.CrossingAscends` | plugins/rust_api/rust/src/editor/folds.rs:29-60 | Bracket folds come out in the order of their end lines. |
| `Folds.CrossingIsExact` | plugins/rust_api/rust/src/editor/folds.rs:50-54 | Folds are the popped pairs that span lines, none lost and none made up. |
| `Folds.ScanStep` | plugins/rust_api/rust/src/editor/folds.rs:36-57 | One character moves the line count, the three stacks of lines and the fold list from their values at its offset to those at the next. |
| `Folds.BracketFolds` | plugins/rust_api/rust/src/editor/folds.rs:29-60 | The scan returns exactly the line pairs of matched brackets closing on a later line, ends ascending. |
| `Folds.ScanFindsBracketFolds` | plugins/rust_api/rust/src/editor/folds.rs:29-60 | The folds popped up to the end of the text are those of the matched pairs as the depth scan defines them. |
| `Folds.ScanLine` | plugins/rust_api/rust/src/editor/folds.rs:99-118 | The character loop returns the line's indent columns before its first other character and its last visible character, or nothing for a blank line; U+FEFF and whitespace are blank. |
| `Folds.PopStep` | plugins/rust_api/rust/src/editor/folds.rs:73-77 | Popping an entry that is not shallower keeps the stack exact and strictly increasing, and adds that entry's fold. |
| `Folds.ReadKeepsTheStack` | plugins/rust_api/rust/src/editor/folds.rs:78-80 | Reading a content line keeps the stack exactly the colon lines whose runs are open, indents strictly increasing. |
| `Folds.IndentFolds` | plugins/rust_api/rust/src/editor/folds.rs:62-86 | The one-pass stack scan returns exactly the indent folds of the per-line definition, one per start line. |
| `Folds.IndentFoldMeaning` | plugins/rust_api/rust/src/editor/folds.rs:5-7 | A line folds to line e if and only if it ends in a colon, every content line up to e is deeper, e is content past the start, and the next content line is not deeper or there is none. |
| `Folds.IndentFoldsNest` | plugins/rust_api/rust/src/editor/folds.rs:62-86 | Any two indent folds are nested or disjoint. |
| `Folds.FirstEnds` | plugins/rust_api/rust/src/editor/folds.rs:10-15 | Keeping the first bracket fold per start line keeps the one that ends soonest. |
| `Folds.SmallerEnds` | plugins/rust_api/rust/src/editor/folds.rs:16-23 | Merging the indent folds in keeps, per start line, the soonest end of both lists. |
| `Folds.SortedByStart` | plugins/rust_api/rust/src/editor/folds.rs:24-26 | The map comes out as a list with one fold per key and start lines strictly increasing. |
| `Folds.ComputeAll` | plugins/rust_api/rust/src/editor/folds.rs:8-27 | Start lines strictly increase, and a fold is returned if and only if its end is the minimum over all matched bracket pairs opening on its line and closing later and its line's indent fold. |
| `Folds.EveryFoldLineKeepsOne` | plugins/rust_api/rust/src/editor/folds.rs:8-27 | No line that folds in either way is left without a fold, nor with a larger one. |
| `Folds.PairFoldsOverLines` | plugins/rust_api/rust/src/editor/folds.rs:48-55 | The lines of a matched pair are a bracket fold if and only if they differ. |
| `Folds.KeptFoldIsSmallest` | plugins/rust_api/rust/src/editor/folds.rs:8-27 | A fold kept spans lines, is the lines of a matched pair or an indent fold, and ends no later than any of either kind from its line. |
| `Guides.GuideShape` | plugins/rust_api/rust/src/editor/guides.rs:80-101 | Every guide spans at least one line between its ends, stays within the horizon, and strictly between its start and its last line only deeper or blank lines lie. |
| `Guides.ColonGuideEndsItsRun` | plugins/rust_api/rust/src/editor/guides.rs:18-104 | A colon line whose run closes above the horizon, or with the document's end as horizon, has a guide if and only if its run has content below it, and the guide ends one past the last of it. |
| `Guides.ColonGuideIsItsFold` | plugins/rust_api/rust/src/editor/guides.rs:18-104 | For every text and every line the fold scan reads as ending in a colon, with its run closed above the horizon or the document's end as horizon: its guides are exactly its indent folds one line longer, if and only if, where U+FEFF stands behind the colon, the line does not fold, and elsewhere the run ends at the same content line in both readings, by the condition of `Indentation.RunsMeetExactly`. |
| `Guides.NoBomNoDifference` | plugins/rust_api/rust/src/editor/guides.rs:18-104 | On text no line of which ends in U+FEFF, the guides of colon lines are exactly their folds. |
| `Guides.BomHidesTheGuide` | plugins/rust_api/rust/src/editor/guides.rs:117-119 | A text with U+FEFF whose first line folds and has no guide: without the condition the agreement is false. |
| `Guides.OpenGuideReachesTheHorizon` | plugins/rust_api/rust/src/editor/guides.rs:57-78 | A colon line whose run is still open at the horizon has a guide if and only if it spans a line, and the guide reaches the horizon. |
| `Guides.BracketGuideIsAFold` | plugins/rust_api/rust/src/editor/guides.rs:49-55 | A guide of a bracket matched below the horizon ends one line past the fold of the same bracket. |
| `Guides.LeadingColumns` | plugins/rust_api/rust/src/editor/guides.rs:121-132 | The loop counts the columns of the leading blanks and tabs, tabs going to the next stop and counting one column when the tab size is zero. |
| `Guides.IndentOf` | plugins/rust_api/rust/src/editor/guides.rs:60-68 | The indent of a line below, or nothing if it is blank. |
| `Guides.ScanRun` | plugins/rust_api/rust/src/editor/guides.rs:57-78 | The downward scan with its last-valid marker finds the end of the run by the per-line definition, or the horizon. |
| `Guides.WouldPass` | plugins/rust_api/rust/src/editor/guides.rs:80-93 | The scan tells exactly whether a line that is not deeper lies strictly inside the block. |
| `Guides.TrimmedLine` | plugins/rust_api/rust/src/editor/guides.rs:28-46 | Trimming from the end finds the line's last visible character and its indent, and length zero exactly for blank lines. |
| `Guides.PartnerIsBelow` | plugins/rust_api/rust/src/editor/guides.rs:49-55 | The partner of a line's last visible opener is on a later line. |
| `Guides.BlockEnd` | plugins/rust_api/rust/src/editor/guides.rs:49-78 | The block ends at its bracket's partner if that lies above the horizon, and where the indentation's run ends otherwise. |
| `Guides.OnlyOneGuide` | plugins/rust_api/rust/src/editor/guides.rs:18-104 | A line has at most one guide, and the emission conditions decide whether it has. |
| `Guides.LineGuide` | plugins/rust_api/rust/src/editor/guides.rs:23-103 | The loop body emits a block for a line if and only if it is that line's guide, which the next four rows give for every line by its last visible character. |
| `Guides.BracketDrawsToItsPartner` | plugins/rust_api/rust/src/editor/guides.rs:49-101 | A line whose last visible character is an opener with its partner above the horizon has a guide if and only if all content strictly between the two lines is deeper; it ends just behind the partner's line. |
| `Guides.OthersDrawTheirRun` | plugins/rust_api/rust/src/editor/guides.rs:57-101 | A line that ends in any other `{`, `[` or `(`, or in a colon, has a guide if and only if its run goes on below it: to just behind the run's last content, or to the horizon where the run is open there and lines follow. |
| `Guides.NothingElseDraws` | plugins/rust_api/rust/src/editor/guides.rs:39-42 | A line whose last visible character is any other has none. |
| `Guides.BlankLineHasNoGuide` | plugins/rust_api/rust/src/editor/guides.rs:31-37 | Nor has a line of white space. |
| `Guides.ComputeViewport` | plugins/rust_api/rust/src/editor/guides.rs:6-104 | For every text and viewport: the blocks are exactly the guides, by the four rows above, of the lines from 500 above the viewport to its last line, with the horizon two lines below, in ascending order. |
| `Frames.LengthRoundTrip` | plugins/rust_api/rust/src/ipc/frame.rs:16-36 | A 32-bit length survives its little-endian encoding. |
| `Frames.LengthBytes` | core/server.go:122-136 | Any four header bytes are the encoding of the length read from them. |
| `Frames.LowByteFirst` | plugins/rust_api/rust/src/ipc/frame.rs:16-36 | The length is encoded with its low byte first. |
| `Frames.FrameLayout` | plugins/rust_api/rust/src/ipc/frame.rs:16-24 | A payload fits up to 64 MiB; its frame is four bytes of length and then the payload. |
| `Frames.ReadsRefuse` | plugins/rust_api/rust/src/ipc/frame.rs:26-36 | A read is refused as too large if and only if the header says more than 64 MiB, and as the end of the stream if and only if the header, or a payload of allowed length, is not all there. |
| `Frames.Encode` | plugins/rust_api/rust/src/ipc/frame.rs:16-24 | A payload within the cap encodes to its frame; a larger one is refused. |
| `Frames.Reader.ReadExact` | plugins/rust_api/rust/src/ipc/frame.rs:26-36 | A buffer is filled with the bytes ahead, or the stream's end is reported. |
| `Frames.Reader.ReadFrame` | plugins/rust_api/rust/src/ipc/frame.rs:26-36 | One read takes the frame ahead and leaves the rest, or refuses with the right error: an oversized length before its payload is read. |
| `Frames.FrameReadsBack` | core/server.go:122-136 | What either side encodes, the other reads back, whatever follows. |
| `Frames.ParsedIsAFrame` | plugins/rust_api/rust/src/ipc/frame.rs:26-36 | Conversely, bytes that read as a payload begin with that payload's frame. |
| `Frames.CutFrameIsEndOfStream` | plugins/rust_api/rust/src/ipc/frame.rs:26-36 | A frame cut anywhere reads as the end of the stream, never as a frame. |
| `Frames.FramesDecode` | plugins/rust_api/rust/src/ipc/server.rs:173-181 | A sequence of frames decodes to its payloads in order, and then to what the rest decodes to. |
| `Frames.ReceiveAll` | plugins/rust_api/rust/src/ipc/server.rs:173-181 | The receive loop hands out exactly what the stream decodes to, and ends with the first read's error that fails. |
| `Sender.ResumingWriter.Write` | core/server.go:73-90 | The count reported is what is on the wire; every timeout before the last write was one that may be waited out, and a fault is reported only where the frame does not go on: a hard fault, or a timeout with nothing of the frame out, all of its part out, or no new deadline. |
| `Sender.ResumingWriter.Resume` | core/server.go:92-99 | A write is resumed if and only if it timed out with part of a frame out and the connection takes a new deadline. |
| `Sender.WriteAll` | core/server.go:106-120 | Success means all of it is on the wire; otherwise the count tells which prefix is, and the error which write stopped it. |
| `Sender.WriteFrame` | core/server.go:54-66 | The wire gains the prefix of the frame whose length is reported, which is where the connection's writes bring the frame; no write follows the one that stops it; no error if and only if the frame is out and its last write had no fault, a failure if and only if that was a hard fault, a stall if and only if it was a timeout not to be waited out. |
| `Sender.WhereAFrameGoesOn` | core/server.go:73-97 | After each write of a frame the next follows if and only if it had no fault, or timed out with some of the frame out, its header or its payload still short, and a new deadline granted; each write takes what the connection gives, up to the end of the header or the payload. |
| `Sender.StallsAreWaitedOut` | core/server.go:88-97 | A stall is given up only with nothing out, at the end of the header or of the frame, or for want of a new deadline. |
| `Sender.Server.Send` | core/server.go:138-169 | A send has the result of its frame's writes: without an error the payload is delivered; with an error and nothing out the connection stays usable; with part of the frame out the connection is given up and closed. Without a connection it does nothing. |
| `Sender.Server.HangUp` | core/server.go:179-213 | Losing the connection loses nothing already delivered. |
| `Sender.NoReasonToStop` | core/server.go:54-120 | A frame whose last write took something without a fault is out without an error. |
| `Sender.CleanConnectionSends` | core/server.go:138-169 | A connection that takes what it is given without a fault delivers the payload. |
| `Sender.WholeFrameMayFail` | core/server.go:73-90 | A connection whose last write takes the rest of a frame and times out: the send fails, and yet the peer decodes its payload. |
| `Sender.WireReadsBack` | core/server.go:54-169 | The wire decodes to the delivered payloads, then to at most one frame that got out whole in a send that failed; a truncated one never decodes. |
| `Sender.RunIsSound` | core/server.go:138-213 | Over any run on a new connection: what was sent without an error is delivered, in order; a send has a connection if and only if none before it broke off and nothing was hung up; a tail is the start of the frame that broke off. |
| `Sender.Run` | core/server.go:54-213 | Any run of sends and hang-ups on any connection leaves books that account for each of its writes, and the peer decodes exactly what they have as delivered and at most the one payload whose send broke off with its frame whole. |
| `Outbox.Outbox.Open` | plugins/rust_api/rust/src/ipc/outbox.rs:26-31 | Opening starts from an empty queue. |
| `Outbox.Outbox.Close` | plugins/rust_api/rust/src/ipc/outbox.rs:33-35 | Closing drops what was not taken and refuses further frames. |
| `Outbox.Outbox.Push` | plugins/rust_api/rust/src/ipc/outbox.rs:37-58 | A frame is refused when closed, refused without effect when it exceeds the budget of a queue that is not empty, and else queued last with a wakeup. |
| `Outbox.Outbox.Pop` | plugins/rust_api/rust/src/ipc/outbox.rs:69-74 | Frames leave in the order they came, and the byte count stays exact. |
| `HostServer.PeerDecodesAPrefix` | plugins/rust_api/rust/src/ipc/server.rs:183-188 | From bytes that are whole frames and part of the next, a peer decodes exactly the payloads of the whole ones. |
| `HostServer.HeardIsDecoded` | plugins/rust_api/rust/src/ipc/server.rs:173-181 | The payloads handed on are the first ones the peer's bytes decode to. |
| `HostServer.AcceptedStep` | plugins/rust_api/rust/src/ipc/server.rs:58-60 | A push at any moment of a session keeps every invariant and lands in that session alone. |
| `HostServer.WroteStep` | plugins/rust_api/rust/src/ipc/server.rs:183-188 | A partial write keeps every invariant. |
| `HostServer.ReceivedStep` | plugins/rust_api/rust/src/ipc/server.rs:173-181 | A frame read keeps every invariant: it is heard in its own session, as what the peer sent. |
| `HostServer.StepKeepsInv` | plugins/rust_api/rust/src/ipc/server.rs:79-188 | Every step of the accept loop, the reader, the writer and the pushing threads keeps the invariant, and no session but the current one changes. |
| `HostServer.RunKeepsInv` | plugins/rust_api/rust/src/ipc/server.rs:79-188 | So does every schedule of steps. |
| `HostServer.EveryRunIsSound` | plugins/rust_api/rust/src/ipc/server.rs:79-188 | In every run: the events are whole sessions and at most one open one, then at most one failure; each peer decodes a prefix, in push order, of what was accepted for it; what is heard per session is a prefix of what that peer sent; no wakeup is lost. What every run does is in the rows below. |
| `HostServer.ClosedSessionsStay` | plugins/rust_api/rust/src/ipc/server.rs:145-157 | Once a session's outbox is closed nothing changes it: no frame leaks into a later session or out of one. |
| `HostServer.AfterTheEnd` | plugins/rust_api/rust/src/ipc/server.rs:108-115 | After the server has ended every push is refused and nothing is heard any more. |
| `HostServer.EveryRunIsItsSteps` | plugins/rust_api/rust/src/ipc/server.rs:79-188 | A schedule leads where its steps enabled in their turn lead; the rows below are about any such steps from the start. |
| `HostServer.EndsJustWhenTold` | plugins/rust_api/rust/src/ipc/server.rs:105-157 | The server is at its end, or in its last session, if and only if it was shut down, no listener came, accept failed, or a listener refused Connected or Disconnected. |
| `HostServer.NobodyIsAdmittedThen` | plugins/rust_api/rust/src/ipc/server.rs:148-157 | After any of these no peer is admitted. |
| `HostServer.NextPeerIsServed` | plugins/rust_api/rust/src/ipc/server.rs:128-151 | While it listens the next peer is admitted; greeted, it has an empty session of its own, an open and empty outbox and a writer that looks into it, and Connected is heard. |
| `HostServer.PartedPeersAreFollowed` | plugins/rust_api/rust/src/ipc/server.rs:149-157 | A failed read, a failed write or a message refused ends the exchange, the outbox is closed and Disconnected heard; a listener that takes it has the server listen for the next peer, one that does not ends it. |
| `HostServer.EveryPeerIsHeard` | plugins/rust_api/rust/src/ipc/server.rs:147-157 | In every run, Connected was heard once for every session admitted, but one still to be greeted, and Disconnected once for every session but the current one, and the last once the server ends. |
| `HostServer.FailureIsHeard` | plugins/rust_api/rust/src/ipc/server.rs:130-136 | In every run a failure was heard if and only if accept failed. |
| `HostServer.EventsFollowInOrder` | plugins/rust_api/rust/src/ipc/server.rs:128-158 | The event order of these laws, said event by event: connecting and failing follow a parting or nothing, messages and partings a connecting or a message. |
| `HostServer.SessionsAreOfTheSchedule` | plugins/rust_api/rust/src/ipc/server.rs:58-60 | In every run each session has accepted exactly the payloads sent while it was the last and its outbox was open and had room for them, and has got in exactly the bytes that arrived meanwhile. |
| `HostServer.ArrivedFramesAreRead` | plugins/rust_api/rust/src/ipc/server.rs:173-181 | A frame that has arrived can be read at any time of an exchange and goes to the listener at once. |
| `HostServer.QueuedFramesGoOut` | plugins/rust_api/rust/src/ipc/server.rs:183-188 | A writer that looks into the queue takes its oldest frame and writes it, all at once or in parts, or waits if there is none; a permit, and nothing else, wakes it. |
| `HostServer.DrainedIsDelivered` | plugins/rust_api/rust/src/ipc/server.rs:183-188 | With nothing queued and nothing half written, the peer decodes exactly what was accepted for it. |
| `Channels.StaysSound` | core/message.go:52-92 | Offering to a queue and taking or evicting from it keeps accepted = departed, in order, followed by queued, within capacity. |
| `Channels.NothingEvicted` | core/message.go:69-76 | A queue that never evicts has received, in order, all it accepted but what is still queued. |
| `Channels.KindsOfMessages` | core/message.go:37-67 | Which queue each kind of message goes to, and which kinds may push others out. |
| `Channels.OfferJoinsIfThereIsRoom` | core/message.go:69-76 | An offer to an open queue below 256 messages puts the message behind the others; any other offer changes nothing. |
| `Channels.MakingRoomAndClosing` | core/message.go:86-89 | Making room takes just the oldest message off the queue, where the class may; closing keeps the messages. |
| `Channels.ActKeepsSound` | core/message.go:52-92 | Any act of any producer keeps all queues sound, evicts nothing from the state queue and receives nothing. |
| `Channels.HappenedKeepsSound` | core/message.go:52-92 | So does the batcher's taking a message. |
| `Channels.HistoryGrows` | core/message.go:52-92 | Over any history of acts and takes, nothing accepted or departed is ever taken back. |
| `Channels.Hub.Interleave` | core/message.go:52-92 | What others do between a call's steps, producers and the batcher, is the next part of their script, and nothing else happens to the queues. |
| `Channels.Hub.EnqueueState` | core/message.go:69-76 | One offer and nothing else. With the queue open and below 256 messages the message is put behind the others, no other queue changes, and the answer is that it is queued; otherwise nothing changes and it is not. |
| `Channels.Hub.EnqueueLatest` | core/message.go:78-92 | Whatever others do in between, the call offers at most four times and drops the oldest after each offer that found no room; it reports success if and only if its last step is the one offer that found room, and that step puts the message behind the others of its queue and changes no other. Left alone on an open queue it always succeeds, dropping at most the oldest. |
| `Channels.Hub.SendMessage` | core/message.go:52-67 | Each class of message goes to its queue in its own way: state messages and yielding bulk messages are offered once, priority and other bulk messages as above. |
| `Batcher.StepKeepsSound` | core/message.go:94-186 | Each step of the batcher and of the producers keeps: every queue's books; all taken messages in sent batches and the pending one, in order; sent batches of 1 to 32 and fewer than 32 pending; the deadline armed if and only if any are; queues given up only when closed and drained; and no burst above 8. |
| `Batcher.RunIsSound` | core/message.go:94-186 | So does every history. |
| `Batcher.EveryRunConserves` | core/message.go:94-186 | At any moment of any history, each queue has accepted exactly what was taken off it, what was evicted and what is queued, in order; everything taken is in the sent batches followed by the pending one; and nothing was evicted from the state queue. |
| `Batcher.EveryRunAccounts` | core/message.go:52-186 | At any moment of any history: each queue has accepted exactly the messages offered to it while it was open and below 256, in order; as many left as the batcher took or producers dropped; taken are the oldest at each take, in order; and it is closed if and only if a producer closed it, given up if and only if the batcher did. |
| `Batcher.BatchesGoOutFull` | core/message.go:109-139 | A batch goes out if and only if it is full with its 32nd message or is sent as it is, and whole; else a message taken joins it last. |
| `Batcher.HistoryKept` | core/message.go:94-186 | What was accepted, evicted, taken or sent at some moment of a history stays so ever after. |
| `Batcher.BurstIsBounded` | core/message.go:141-185 | In any stretch of any history in which bulk messages wait and none is taken, at most 8 priority messages are. |
| `Batcher.BurstIsOfTheLast` | core/message.go:141-185 | A priority message is held back if and only if the bulk queue is open and eight were taken since its last message, or since it was last found empty after eight. |
| `Batcher.Batcher.Others` | core/message.go:94-186 | What producers do between two steps is the next part of their script, in order. |
| `Batcher.Batcher.Flush` | core/message.go:109-123 | A pending batch is sent whole and the deadline disarmed; an empty one sends nothing. |
| `Batcher.Batcher.Append` | core/message.go:129-137 | A message joins the batch and arms the deadline; a full batch of 32 goes out. |
| `Batcher.Batcher.Take` | core/message.go:125-139 | The queue's oldest message is taken, or a closed and empty queue is given up. |
| `Batcher.Batcher.TakeCounted` | core/message.go:125-185 | A ready queue gives its oldest message or is given up, as one step of the history that keeps the burst bound. |
| `Batcher.Batcher.Expire` | core/message.go:109-123 | The deadline, or the end, sends the pending batch as one step. |
| `Batcher.Batcher.AwaitAny` | core/message.go:171-184 | The waiting select goes on with the history by some step whenever a queue is ready, the deadline is armed or producers are to act. |
| `Batcher.Batcher.Pass` | core/message.go:142-185 | One pass extends the history. Undisturbed it takes from the state queue if ready, else from the bulk queue if its turn has come and it is ready, else from the priority queue; it blocks only if no queue is ready, no deadline armed and no producer left. |
| `Batcher.DrainedIsDelivered` | core/message.go:142-186 | With all three queues given up and nothing pending, what was accepted and not evicted is in the batches sent, and for the state queue that is all it accepted. |
| `Batcher.RunBatcher` | core/message.go:94-186 | The loop extends the history by legal steps alone, those of the producers being their script's, until all queues are given up, with all of it delivered, or nothing is left that could happen; either way nothing stays pending. |
| `TrafficLedger.ReportedExactly` | core/request_traffic.go:58-90 | A report names an id if and only if it holds that id's totals. |
| `TrafficLedger.SweepAgrees` | core/request_traffic.go:58-90 | Over all histories: recorded totals are those at the add or the last the queue accepted, which a sweep makes the current ones if and only if it is accepted; an entry stays if and only if it was not seen closed, or the sweep was not accepted and closed sweeps are at most five. |
| `TrafficLedger.ReportsAreNews` | core/request_traffic.go:64-75 | A sweep reports exactly the entries whose totals are not those last told, with the totals now. |
| `TrafficLedger.ClosedFromItsSecondSweep` | core/request_traffic.go:66-69 | A request not open counts as closed from its second sweep on, and then every sweep counts. |
| `TrafficLedger.OpenIsNotClosed` | core/request_traffic.go:66-69 | One never seen closed does not count as closed while it is open. |
| `TrafficLedger.AddAgrees` | core/request_traffic.go:43-56 | Adding starts the entry's history afresh and leaves the others alone. |
| `TrafficLedger.Ledger.Add` | core/request_traffic.go:43-56 | The entry is watched with its totals now; a runner is started if and only if none is active. |
| `TrafficLedger.Ledger.Survey` | core/request_traffic.go:61-77 | The reports name exactly the entries whose totals moved, each once, in whatever order the map is read. |
| `TrafficLedger.Ledger.Collect` | core/request_traffic.go:58-90 | After a sweep exactly those entries are left that were not seen closed by now, or were in a sweep that was not accepted and no more than the fifth since; their totals are taken over if and only if it was accepted; the runner goes on if and only if entries remain. |
| `TrafficLedger.Ledger.Clear` | core/request_traffic.go:92-97 | Clearing forgets all entries, and the runner stops with it. |
| `RouteTracker.CurrentRoute.Compare` | core/route.go:93-108 | A reset or a move asked for stays what it is; otherwise the refresh counts as a move if and only if the picks, the providers or the rule sets differ from those last seen. |
| `RouteTracker.CurrentRoute.Refresh` | core/route.go:93-121 | The epoch rises by one if and only if a reset was asked for; the version if and only if a reset or a move was, or something differs from what was last seen; the moved stamp is published if and only if it is watched. |
| `RouteTracker.CurrentRoute.WatchRoute` | core/route.go:137-156 | A call older than the newest seen changes nothing; a newer one sets the watch, and there is one poller if and only if watched. |
| `RouteTracker.CurrentRoute.StopRouteWatch` | core/route.go:158-173 | A stop outranks every call dispatched before it and leaves no poller. |
| `RouteTracker.LatestStep` | core/method.go:37-51 | Every step keeps the watch at the intent of the highest sequence number executed. |
| `RouteTracker.PublishStep` | core/route.go:93-121 | Every step keeps published versions strictly increasing and, while watched, without a gap since the watch. |
| `RouteTracker.RunKeepsInv` | core/route.go:93-190 | Under every interleaving of refreshes, dispatches, watch calls and stops, in any order: the watch is the latest intent, polling exactly while watched, epoch never above version, published versions strictly increasing. |
| `RouteTracker.StampsCountChanges` | core/route.go:93-121 | Over any run the epoch grows by the number of readings taken in that were begun with a reset, and the version by the number of those begun with a reset or a move or showing something else than the one before. |
| `RouteTracker.TakeInMovesTheStamp` | core/route.go:97-120 | Taking a reading in moves the stamp by what it was begun with and what it shows, and leaves a watched tracker with just that stamp to publish. |
| `RouteTracker.EveryReadingIsTakenIn` | core/route.go:93-127 | Over any run, the readings taken in are those begun, in order, but for one still under way. |
| `RouteTracker.EveryCallHasItsPlace` | core/method.go:37-51 | Over any run, the n-th watch call or stop dispatched has number n, wants what it was dispatched with, and waits or has run; there are no others. |
| `RouteTracker.EqualStampsHideNothing` | core/route.go:93-121 | A run leaves the stamp as it was if and only if no reading it took in counts as a move, and then each shows just what was last seen. |
| `RouteTracker.StopIsNotUndone` | core/route.go:158-173 | After a stop, the route is watched only by a call dispatched after it. |
| `RouteTracker.WatchMissesNothing` | core/route.go:137-156 | After a watch reply at version v, every later version is published or about to be, while the watch holds. |
| `RouteExits.ExitThrough` | core/route.go:247-259 | The walk ends at the first load balancer or the innermost proxy, on every acyclic tunnel. |
| `RouteExits.ThroughIsTheFirstStop` | core/route.go:247-259 | From the proxy, each group resolved to the next, a way leads down to the exit: the first on it that is a load balancer or no group. It is a way a connection may take. |
| `RouteExits.ExitOfChains` | core/route.go:261-277 | Read from its outermost end, the chain's exit is the first load balancer, or its innermost name if known. |
| `RouteExits.ChainExitIsTheFirstBalancer` | core/route.go:263-277 | If no name behind a place in the chain is a load balancer's, and that is, the exit is that balancer; with none behind the innermost, what the innermost stands for, if anything. |
| `RouteExits.BothFindTheSameExit` | core/route.go:247-277 | For every way that follows unwrapping up to the first load balancer and picks any member after it, the chain's exit is the walk's. |
| `RouteExits.CheckRoute` | core/route.go:214-227 | One route is held if and only if it is not empty and every hit resolves to its exit; the memo stays exact. |
| `RouteExits.CheckRoutes` | core/route.go:208-230 | For any routes, each is held if and only if it is not empty and every hit still resolves to its exit; the targets resolved are exactly those of hits all before which in some route resolve to their exits, each once. |
| `RouteExits.NeededTargets` | core/route.go:214-227 | The targets meant: those of hits ahead of which, in their route, every hit resolves to the exit recorded. |
| `ProbeScan.TailShowsAnyNewMatch` | core/probe.go:30-31 | If nothing matched before, the text with a new chunk holds a match of at most 257 bytes if and only if the chunk with 256 bytes before it does. |
| `ProbeScan.WindowsLookedAt` | core/probe.go:30-31 | A match lies within 257 bytes, and any such counts. |
| `ProbeScan.LimitedReader.Read` | core/probe.go:359-381 | Each read gives the next bytes of the body, no more than 32 KiB and never past the limit. |
| `ProbeScan.ReadsGetAllTheyMay` | core/probe.go:359-368 | A read gives all the body gives at once, up to 32 KiB, the limit or the body's end. |
| `ProbeScan.ReadProbeBody` | core/probe.go:359-381 | For any script of reads: after no read but the last did the text so far match, and none but the last was the end; the text returned is all that was read; it is reported found if and only if it matches, and then the last read brought the match; otherwise the reading was over. |
| `OutboundRace.StepKeepsSound` | core/outbound_ip.go:60-98 | Each step keeps: sources asked in list order, once each and at most three at a time; every one asked running, with its answer in the channel, or received; only the last answer received usable; none in flight only when all were asked or one has won. |
| `OutboundRace.RunIsSound` | core/outbound_ip.go:60-98 | So does every history. |
| `OutboundRace.DryMeansExhausted` | core/outbound_ip.go:81-98 | With none in flight and no winner, every source was asked and answered unusably. |
| `OutboundRace.AnswersWereHeard` | core/outbound_ip.go:60-98 | Every answer in the channel or received is what some event said, in the order of the events. |
| `OutboundRace.NoAnswerIsLost` | core/outbound_ip.go:60-98 | What the event of a running probe said is in the channel or received ever after. |
| `OutboundRace.StaggeredStarts` | core/outbound_ip.go:62-98 | After t ticks at least 1 + t sources are asked, up to three or all, and never more than 1 + t and one per answer received. |
| `OutboundRace.WhoIsAskedNext` | core/outbound_ip.go:62-88 | A tick asks the next source unless all were asked or three are in flight, and so does an unusable answer; nothing else does. |
| `OutboundRace.NothingFollowsTheEnd` | core/outbound_ip.go:79-93 | Nothing happens after the deadline or after a usable answer. |
| `OutboundRace.Race.Start` | core/outbound_ip.go:62-74 | Starting asks the next source in list order, unless all were asked or three are in flight. |
| `OutboundRace.Race.Deliver` | core/outbound_ip.go:75-78 | A running probe's answer always has room in the channel, and goes behind the others. |
| `OutboundRace.Race.TakeAnswer` | core/outbound_ip.go:83-88 | The oldest answer is received, and if it is unusable one more source is asked. |
| `OutboundRace.Race.Run` | core/outbound_ip.go:45-98 | Over every script of answers, ticks and the deadline, the race hears the script in order, taking answers in between, and its history is a legal one of just these events: found means that the answer received last is usable, exhausted that none is in flight and none was usable, timed out that the deadline was heard or nothing else will come. |
| `YamlGraph.ResolveAlias` | core/profile_base.go:241-246 | Aliases are followed to the first node that is none. |
| `YamlGraph.UnfoldKept` | core/profile_base.go:336-356 | Replacing slots by what they resolve to, anywhere in a shared or looping graph, changes no node's unfolding at any depth. |
| `YamlGraph.AliasesAreFollowed` | core/profile_base.go:241-246 | An alias stands for what its target stands for. |
| `YamlGraph.UnfoldShowsAll` | core/profile_base.go:336-356 | An unfolding shows kind, tag and value of what a node stands for and the unfolding of each of its slots, one level less deep. |
| `AliasInliner.StoreStep` | core/profile_base.go:347-351 | Writing a resolved child into a slot keeps the walk sound and the meaning of every node. |
| `AliasInliner.Inliner.Walk` | core/profile_base.go:340-355 | The walk terminates on every graph whose loops pass through an anchor, adds its node to those walked, and leaves none begun but not done. |
| `AliasInliner.Inliner.WalkSlots` | core/profile_base.go:347-354 | After the loop over a node's slots, none of them is an alias and all were walked, though the recursion may have rewritten the same node. |
| `AliasInliner.PathStaysDone` | core/profile_base.go:336-356 | From a finished node only finished nodes are reached. |
| `AliasInliner.WalkedIsClean` | core/profile_base.go:336-356 | After the walk, no alias and no anchor is reachable from the root. |
| `AliasInliner.LaterUnfoldsTheSame` | core/profile_base.go:336-356 | Any stretch of the walk leaves every node's unfolding as it was. |
| `AliasInliner.InlineAliases` | core/profile_base.go:336-356 | On every graph in which each loop passes through an anchored node the inlining terminates, no alias and no anchor is reachable from the root afterwards, and every node denotes, to any depth, what it denoted before. |
| `AliasInliner.WaysDown` | core/profile_base.go:340-355 | What counts as reachable: any node itself, and what any slot of one reached leads to. |
| `AliasInliner.SelfReference` | core/profile_base.go:336-356 | A list that holds an alias of itself is a graph the inlining takes if the list is anchored, and none if it is not. |
| `ProfileMerge.EarlierWins` | core/profile_base.go:188-203 | The same over two lists of mappings in a row: sources in order, and within a source its mappings in order. |
| `ProfileMerge.OwnEntriesInOrder` | core/profile_base.go:176-189 | A mapping's own entry under a name is the first plain one, wherever it stands. |
| `ProfileMerge.MergeKeysInOrder` | core/profile_base.go:176-189 | Its merge sources are the values of its merge keys, in order. |
| `ProfileMerge.MergedFromOne` | core/profile_base.go:190-198 | A source that leads to a mapping merges it, one that leads to a list the mappings in it, any other nothing. |
| `ProfileMerge.MergedInOrder` | core/profile_base.go:190-203 | Several sources merge one after the other. |
| `ProfileMerge.MappingsInOrder` | core/profile_base.go:196-202 | The mappings in a list come in its order, aliases followed. |
| `ProfileMerge.OwnValue` | core/profile_base.go:176-187 | The first plain entry under the name, and, if there is none, the values of all merge keys. |
| `ProfileMerge.SearchCandidates` | core/profile_base.go:188-203 | The search through merged mappings finds what they hold taken together, earlier over later, aliases followed. |
| `ProfileMerge.MappingValue` | core/profile_base.go:176-205 | The recursive lookup returns what the mapping holds under the key by the meaning of merge keys, at any depth of merging, and nothing if it holds nothing. |
| `ProfileMerge.SetMappingValue` | core/profile_base.go:207-219 | The first entry of that name gets the value, in place; without one a new entry is added last. |
| `ProfileMerge.AssignedEntries` | core/profile_base.go:207-219 | Setting a name changes what is held under it and nothing else; if the name found is a merge key, no own entry changes and the source of just that merge key is replaced. Names are spelled as before. |
| `ProfileMerge.FirstNameDecides` | core/profile_base.go:207-213 | A name counts as spelled by a merge key if and only if the first entry spelled like it is one. |
| `ProfileMerge.AssignedIsOwn` | core/profile_base.go:207-219 | A value set is the own entry of its key if and only if no merge key is spelled like the key ahead of it, or the value was held there already. |
| `ProfileMerge.AssignedIsFound` | core/profile_base.go:176-219 | A lookup finds a value set if and only if the same holds, or there is no own entry and the merge sources as they are then happen to hold that value first. |
| `ProfileMerge.SpelledSectionLeaks` | core/profile_base.go:207-219 | A root with nothing but a merge key spelled `sub-rules`: after the section is set it has no own entry, and holds exactly what the section holds. |
| `ProfileMerge.AppendRules` | core/profile_base.go:221-239 | Rules join as the one list followed by the other, absent and null counting as empty; the merge is refused if and only if both are to be joined and one is no list. |
| `ProfileMerge.RulesAreRefused` | core/profile_base.go:222-235 | Refused if and only if both are there, neither is null, the overlay's are no empty list, and one is no list. |
| `ProfileMerge.ListsOfRules` | core/profile_base.go:222-239 | What counts as which list: a sequence as its items, null and nothing as none. |
| `ProfileMerge.OursComeFirst` | core/profile_base.go:236-238 | Joined rules are one list: the items of the overlay's, and behind them those of the profile's. |
| `ProfileMerge.EntriesStayInside` | core/profile_base.go:176-205 | All a mapping holds, merged or its own, is in the graph. |
| `ProfileMerge.SectionIsOwn` | core/profile_base.go:144-148 | After the sections are taken, each the profile has is the root's own entry if and only if no merge key is spelled like it or it was already; every other own entry is as before. |
| `ProfileMerge.TheSections` | core/profile_base.go:144-148 | Proxies, proxy groups and sub-rules are the sections. |
| `ProfileMerge.TakeSection` | core/profile_base.go:144-148 | A section is set to the profile's if the profile has it, directly or through merge keys; the root is untouched otherwise. |
| `ProfileMerge.TakeSections` | core/profile_base.go:144-148 | After all three, the root has the own entries and merge sources that setting each section the profile has gives, for every overlay. |
| `ProfileMerge.RulesOf` | core/profile_base.go:149-152 | The rules looked up in the root, which has the sections by then, and in the profile: refused if and only if they clash, joined otherwise. |
| `ProfileMerge.JoinRules` | core/profile_base.go:149-155 | The joined rules are set in the root; with none in the profile, or a clash, it is untouched. |
| `ProfileMerge.LayOver` | core/profile_base.go:144-155 | For every overlay: the root is what taking the sections and then setting the joined rules makes of it. |
| `ProfileMerge.LaidOverOwns` | core/profile_base.go:144-155 | Then each section the profile has, and the rules if joined, is the root's own entry if and only if no merge key is spelled like it or it was already, and every other own entry is as before. |
| `ProfileMerge.PlainMerge` | core/profile_base.go:144-155 | If no merge key is spelled like a section the profile has, or `rules` where they are joined, lookups in the root find the profile's sections, the joined rules and else what the overlay held, its merged keys included. |
| `ProfileMerge.MergeProfileBase` | core/profile_base.go:120-160 | All this of the document returned, whose root is the overlay's; there is none if and only if the rules clash. |

## Left out

- `ProfileMerge.MergeProfileBase`: starts behind the reading, decrypting and parsing of both documents and their root check, and does not model the retagging of short ids. It takes merge keys that form no loop (on a loop the source never returns), an overlay root that nothing else refers to, and keys paired with values as the parser yields them. Where `rules` itself is spelled by a merge key, so that the joined list becomes a merge source, it states the root's own entries and sources, and no lookups through that list.
- `AliasInliner.InlineAliases`: takes alias chains that end and a root that is no alias; on a loop without an anchor, which the parser cannot produce, the source would not return.
- `RouteExits.ExitThrough`: takes unwrapping that ends, as on groups that do not contain each other. An exit is the proxy record, where the source formats its name, type and address into a string.
- `Sender.ResumingWriter.Write`: a connection that times out forever is resumed forever; scripts are finite, so each run of the model is a finite beginning of such a run.
- `Batcher.RunBatcher`: each run ends where producers have no more to do and nothing is left to wait for; wall-clock delay of the deadline is not modelled, it may fire at any wait.
- `Sender.Server.HangUp`: comes between sends. In the source it may also close the connection in the middle of one, whose next write then fails; the script may have that write fail in any case, and the hang-up then follows the send.
- `OutboundRace.Race.Run`: the deadline passes in the end; the claims that cancel older requests of the same epoch, the hits recorded and the answer's text are not modelled.
- `ProbeScan.ReadProbeBody`: a call without a stop condition, which reads the body to its limit.
- `RouteTracker.CurrentRoute.Refresh`: counters are unbounded where the source has 64-bit ones, and rule set and provider contents are version numbers.
- `Folds.ComputeAll`: line numbers are unbounded where the source casts them to 32 bits; the final sort is an insertion, since the map's order is arbitrary either way.
- `Guides.ComputeViewport`: line numbers are unbounded, and the rope's line access is slicing of a character sequence.
- `Channels.Hub.SendMessage`: the check for a listener and the JSON encoding. Offering to a closed queue has no effect in the model, where the source's runtime would stop the program.
- `HostServer.StepKeepsInv`: binding, access control and start-up failures come before the model's first state; the text of errors is not modelled, and what a step does between two awaits is one step.
- `Frames.Reader.ReadExact`: the chunks in which bytes arrive; it takes them as one.
- The waiting half of `Outbox::next` is a step of `HostServer`, where the wakeup is shown not to be lost; `Outbox` itself has the synchronous half.
- The logging of failed deliveries, and the goroutine that dispatches a decoded request.
- Writing the configuration file piece by piece, and the traversal that finds outbounds for display.
- `withHit`, `hitRecorder`, `nodeHits`, `mentionsIp`, `claimOutboundIp`: small facts readable from one body.
- The share link printer, service rules, region and provider bookkeeping, the helper service and all user interface code.
