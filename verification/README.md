# What the Go runtime keeps

A model, in Dafny, of the core protocols of the Go agent runtime under
`packages/go-agentenkit/core` and `packages/go-agentenkit/ports`, and proofs of what
they are for: that a thread has one owner, that a parked run resumes after any crash,
that a follower sees exactly the log, that a stream is well formed, that a compacted
history is the same on the next read, that a bill is its rows'. Every main result holds for
all inputs, all runs or all reachable states.

Code that changes things step by step is a class or a method with a loop, proved against
a function; protocols between processes are step relations, and their theorems hold over
every interleaving. Some of the environment is a parameter or a free choice: what a cache
answers, when a bus delivers, what a model or a tool returns, whether a write fails, when
a worker dies.

| file | models |
|---|---|
| `Ownership.dfy` | the compare-and-set on a thread's state and owner, and its callers |
| `RunLock.dfy` | the run lock: a lease with a nonce, its renewal loop in time |
| `SettleClaim.dfy` | the settle claim and its takeover |
| `Hitl.dfy`, `StopRace.dfy` | open parks worked out from events and messages; closing them; a stop beside a worker that parks |
| `Unwind.dfy` | the restartable unwind of one parked chain |
| `Follow.dfy` | replay, cut-over, live tail, gap filling, overflow; SSE ids |
| `StreamEvents.dfy`, `Segment.dfy`, `Interleaving.dfy`, `Alone.dfy` | the run stream's language, the segment that writes it, agents that push in parallel, one agent as if alone |
| `Snapshot.dfy` | cutting a stream to what is not saved yet |
| `ChunkBatcher.dfy` | joining token deltas before they are published |
| `Compaction.dfy`, `Summaries.dfy` | prompt history, compaction, chunked summaries |
| `Repair.dfy` | orphan results dropped, dangling calls closed |
| `Usage.dfy` | usage totals row by row and grouped |
| `Slots.dfy` | the subagent cap per depth |
| `Delays.dfy`, `Redrive.dfy`, `StepLimit.dfy` | retry and redrive delays; deliveries that share a run's redrive count; the step limit |
| `Basics.dfy` | what several of these share |

Where the code does less than its comments or one would expect, the model follows the
code and states exactly when the property holds:

- A settle hook can start on a run that is settled already, but only when its settler
  stalled past the claim's ten minutes between claiming and calling it.
- A job redriven for a held lock is meant to fail its run only once it has waited a lease.
  The tries are counted by run: two deliveries of one run share them, and either can fail
  it early. It is sure only for a lone delivery none of whose tries is lost.
- A stop is meant to leave no park open. It closes parks only if it saw the thread waiting,
  and only those whose requests are stored by then. It is sure to only when nobody is at
  work on the thread as it looks, nobody takes it up until it is done, and the thread waits
  if a park is open: a step that still runs can raise a park afterwards. A caller can check
  for it: the thread reads waiting, its run lock is free with no worker past its lease, and
  no answer, expiry or retry of it is due.
- `CompactContext` is documented to return a history that fits the budget. It is sure to
  only when it summarizes nothing and the prompt fits as it is: a summary has any length,
  the tail may reach back for a user turn, and one turn larger than the window goes as it is.
- An approved tool's kept output is the result of a later try only while the answer key is
  still there and the worker that tries has the tool: once the key has lapsed the result is
  a timeout, and where the tool is gone an unknown-tool error.
- A merge round always halves its parts for text in the basic multilingual plane; outside
  it the trim counts characters where the estimate counts UTF-16 units, a round may merge
  nothing, and no number of rounds is sure to end the loop.
- The sweep's longest retry delay reads the configured attempts; a policy with more of its
  own can schedule a longer delay.
- A row priced in an empty currency is in no cost entry and not among the unpriced calls.

Two remarks on what the runtime rules out elsewhere: the bound on Lost would fail for
leases under about six milliseconds, but a configuration has a second at least; and no
stored result answers a call with an empty id, but the runtime gives every call one.

## Model

| member | source | states |
|---|---|---|
| `Ownership.ThreadRow.TryTransition` | packages/go-agentenkit/ports/types.go:67-82 | the one compare-and-set on a thread: it wins exactly when the state is one of From and the row belongs to the named run, to nobody, or no run is named; a loser leaves the row as it was |
| `Ownership.AttemptKeepsInv` | packages/go-agentenkit/core/publish.go:227-246 | every caller's move (admission, pickup, park, resume, retry, finish, failure, failed dispatch, stop, reclaim), with any stale cache value, keeps the ownership invariant |
| `Ownership.OwnershipOverEveryInterleaving` | packages/go-agentenkit/core/publish.go:227-246 | over every interleaving the runs' ownership stretches never overlap; each run is admitted once, first, and ends at most once, last |
| `Ownership.EveryRunWalksOnePath` | packages/go-agentenkit/ports/types.go:67-82 | one run's moves form one path over the legal edges, each leaving the state the one before wrote |
| `Ownership.OneTerminalChangePerRun` | packages/go-agentenkit/core/engine.go:1265-1301 | a run has at most one terminal STATE_CHANGE published, with the state it really ended in, naming no other run |
| `Ownership.EndedRunNeverMovesTheThread` | packages/go-agentenkit/core/engine.go:515-521 | once a run ended, no call that speaks for it ever wins again, whatever the cache says |
| `Ownership.WinnerActsForTheOwner` | packages/go-agentenkit/core/stop.go:52-63 | a winner acts for the run the thread belongs to (or is a stop that found no run in the cache), and never changes the owner |
| `Ownership.WhatACallDoes` | packages/go-agentenkit/core/publish.go:227-246 | over every run each call wins exactly on its own run's thread in the states it speaks of, writes the state it promises (a stop cancelled, a failure failed, a reclaim what the run's record says it ended in), leaves the thread its run's, and owes the change if it ends the run |
| `RunLock.LockStore.Acquire` | packages/go-agentenkit/core/lease.go:53-68 | set if missing: a new value exactly when the key is free or lapsed |
| `RunLock.LockStore.Renew` | packages/go-agentenkit/core/lease.go:99-106 | set if still this value: the lease restarts exactly when the key still holds it |
| `RunLock.LockStore.Release` | packages/go-agentenkit/core/lease.go:125-138 | delete if still this value; any other holder's key stays |
| `RunLock.OlderHolderIsPowerless` | packages/go-agentenkit/core/lease.go:53-138 | over every interleaving of acquire, expiry, renewal and release only the newest acquirer's value is in the key: an older holder can neither renew nor free it |
| `RunLock.RenewingKeepsReleasingFrees` | packages/go-agentenkit/core/lease.go:99-138 | over every interleaving a holder that renews has the key for exactly a lease more, and one that releases leaves it free: the next acquire takes it, a new holder |
| `RunLock.OneHolderWithinItsLease` | packages/go-agentenkit/core/lease.go:73-79 | at most one holder is within a lease of its last write, the key holds its value, and nobody can take the lock meanwhile |
| `RunLock.Keep` | packages/go-agentenkit/core/lease.go:79-122 | the renewal loop gives up on exactly the first attempt that finds the key taken, or fails more than two thirds of the lease after the last good one |
| `RunLock.LostComesInTime` | packages/go-agentenkit/core/lease.go:79-122 | Lost comes at most two thirds of the lease plus two ticks after the last good renewal |
| `RunLock.GoesOnNoLonger` | packages/go-agentenkit/core/lease.go:79-122 | while the loop goes on, what it has done ended within two thirds of the lease of its last good renewal, and its next attempt ends within that and two ticks |
| `RunLock.LetsGoByThen` | packages/go-agentenkit/core/lease.go:108-115 | an attempt that fails later than two thirds of the lease after the last good renewal is given up on, or comes after the loop gave up |
| `RunLock.LostIsNeverEarly` | packages/go-agentenkit/core/lease.go:79-122 | Lost comes only of a key found taken, or of a failure more than two thirds of the lease after Keep's start or a good renewal |
| `RunLock.WorstCaseIsReal` | packages/go-agentenkit/core/lease.go:79-122 | that bound is reached by a schedule, for every lease |
| `RunLock.LostWithinOneLease` | packages/go-agentenkit/core/lease.go:79-122 | for every lease a configuration may have, Lost comes within one lease of the last good renewal, on every schedule |
| `RunLock.OldHolderGoesOnATickAtMost` | packages/go-agentenkit/core/lease.go:53-122 | no attempt of an old holder's loop that has not given up ends later than a tick, a sixth of the lease, after another's value is in the key, or than the loop began after the acquire's write if that is longer, wherever in an attempt a write happened |
| `SettleClaim.RunRecord.ClaimSettle` | packages/go-agentenkit/ports/admin.go:59-64 | a claim wins exactly when the run is not settled and no claim is as new as staleBefore |
| `SettleClaim.RunRecord.EndSettle` | packages/go-agentenkit/ports/admin.go:65-68 | ending a claim settles the run or drops the claim; a claim that was taken over is left alone |
| `SettleClaim.StepKeepsInv` | packages/go-agentenkit/core/engine.go:341-393 | every settler step (claim, lost answer, hook, end, crash, clock tick) keeps the claim invariant |
| `SettleClaim.OneYoungClaim` | packages/go-agentenkit/core/engine.go:313-316 | at most one settler holds a claim within its time, and until it ends the run is unsettled and unclaimable |
| `SettleClaim.HookStartsUnsettledWithinTheClaim` | packages/go-agentenkit/core/engine.go:341-393 | a hook can start on a settled run after a stall of d between claim and hook exactly when d is past the claim's time |
| `SettleClaim.StalledEnds` | packages/go-agentenkit/core/engine.go:318-331 | the run on which that happens |
| `SettleClaim.SuccessesNeedAgedClaims` | packages/go-agentenkit/core/engine.go:318-331 | the hook succeeds at most once more than claims were taken over, and every one taken over had stood past its time |
| `SettleClaim.OneAnswerOneWay` | packages/go-agentenkit/core/engine.go:341-393 | a settler told it has the claim has it as of then; one told it has not is done for good and never calls the hook |
| `SettleClaim.WhatASettlerLeaves` | packages/go-agentenkit/core/engine.go:341-393 | on every run a settler whose claim still stands leaves the run settled after a hook that went well, and claimable at once after one that failed; one whose claim was taken over changes nothing |
| `SettleClaim.SettledForGood` | packages/go-agentenkit/ports/admin.go:65-68 | a settled run stays settled, by the settler that settled it |
| `Hitl.ThreadStore.LoadOpenHitls` | packages/go-agentenkit/core/hitl.go:445-506 | the open parks are exactly what the stored events and messages say |
| `Hitl.ThreadStore.CloseOpenParks` | packages/go-agentenkit/core/stop.go:135-173 | a stop appends exactly the closing of the open parks; when a write fails, some first part of it |
| `Hitl.WhatIsOpen` | packages/go-agentenkit/core/hitl.go:434-444 | a park of the current run is open exactly when nothing settled its own call or some frame waits; landed, it resumes at the first frame with no result |
| `Hitl.ClosingAnswers` | packages/go-agentenkit/core/stop.go:135-173 | a closing answers exactly the calls that wait (but the empty id, which no result can answer) |
| `Hitl.SharedFramesAreAnsweredOnce` | packages/go-agentenkit/core/stop.go:141-166 | each park's own call is answered once and a frame several parks share once |
| `Hitl.EachAgentHearsOfItsOwnCalls` | packages/go-agentenkit/core/stop.go:135-173 | every message of a closing is the cancellation of an open park's own call, for the agent that parked, or of a frame still waiting, for the frame's agent |
| `Hitl.StoppingClosesEveryPark` | packages/go-agentenkit/core/stop.go:128-173 | on a store nothing else writes to meanwhile, for any events and messages, closing the open parks leaves nothing open, and a second closing appends nothing, exactly when no waiting call has an empty id |
| `Hitl.ClosingIsComplete` | packages/go-agentenkit/core/stop.go:128-173 | so for the parks the runtime writes, whose calls always have ids, nothing is left open and a second closing appends nothing |
| `StopRace.SureToLeaveNothingOpen` | packages/go-agentenkit/core/stop.go:43-80 | beside any workers, whatever order the writes come in, a stop that finishes leaves no park open exactly when nobody is at work on the thread as the stop looks, nobody takes it up until the stop is done, and the thread waits if a park is open |
| `StopRace.LateRequest` | packages/go-agentenkit/core/hitl.go:180-192 | from any moment a worker is at work as the stop looks, even with no park raised yet, things can go on so that a park's request comes after the closing and is left open |
| `StopRace.StopThatSawNoParkClosesNone` | packages/go-agentenkit/core/stop.go:43-80 | a stop that looked while a step ran and no park was there closes nothing, though the step then ended and a whole park was written before it cancelled |
| `StopRace.TakenUpAgain` | packages/go-agentenkit/core/engine.go:557-608 | a worker that takes a waiting thread up after the stop looked answers its park and runs on, where another can be raised |
| `StopRace.ParkedBehindAResume` | packages/go-agentenkit/core/engine.go:604-608 | a worker past its lease can leave a park open on a thread that runs again: the resume answers the parks it found and looks no further |
| `StopRace.StateMoves` | packages/go-agentenkit/ports/types.go:67-82 | who moves the thread in this model: a resume from waiting to running, a park to waiting, a finish from running and a stop from anywhere to its end, and nobody from there |
| `StopRace.MovesGetThere` | packages/go-agentenkit/core/publish.go:227-246 | and each of these gets there from every state it starts from; a stop that finds the thread ended is refused |
| `StopRace.ParksAreOwed` | packages/go-agentenkit/core/hitl.go:180-192 | a step's parks are written one request each, after a move that won; one whose move the thread's end refused is dropped |
| `Unwind.EveryParkIsAChain` | packages/go-agentenkit/core/subagent.go:256-259 | a park raised under any delegations is a chain: each waiting call's producer is the run one level down, the last one the main agent's |
| `Unwind.FramesAreTheDelegations` | packages/go-agentenkit/core/subagent.go:256-259 | its frames are the delegations above it, innermost first, each with the agent that delegated, its call and its child |
| `Unwind.HistorySaysWhereToGoOn` | packages/go-agentenkit/core/hitl.go:485-503 | from any history with results in order the next worker finds exactly the first call still waiting |
| `Unwind.ParkedRun.SettleVerdict` | packages/go-agentenkit/core/engine.go:79-133 | the result by the answer key, whether this worker has the tool, and the kept output: no answer is the timeout, a denial the denial, no tool the error; an approved tool's output is kept the moment it returns and reused |
| `Unwind.KeptOutputIsSavedOnItsApproval` | packages/go-agentenkit/core/engine.go:79-133 | once an output is kept, however many dispatches come after, the result saved in the end is that output exactly when the dispatch that saves it finds the answer key with the approval and the tool among its own |
| `Unwind.KeptOutputCanTimeOut` | packages/go-agentenkit/core/engine.go:82-86 | the tool ran, its output was kept, the worker died, the answer key lapsed: a timeout is saved |
| `Unwind.KeptOutputCanBecomeUnknown` | packages/go-agentenkit/core/engine.go:97-104 | the tool ran, its output was kept, the worker died, the next one has no such tool: an unknown-tool error is saved, the approval and the output there |
| `Unwind.KeptForGood` | packages/go-agentenkit/core/engine.go:100-104 | the first output kept is never replaced by a later dispatch |
| `Unwind.FirstAnswerStands` | packages/go-agentenkit/core/engine.go:79-133 | the first answer stands until it lapses, and once a result is saved neither it nor the kept output changes |
| `Unwind.ParkedRun.SavedOnItsApproval` | packages/go-agentenkit/core/engine.go:79-133 | on every run: what was saved for a tool whose output was kept is that output exactly when the dispatch that saved it found the approval and had the tool |
| `Unwind.ParkedRun.LandVerdict` | packages/go-agentenkit/core/engine.go:142-152 | a verdict is cleared only once its result is in the history: the expiry noted, the answer and the kept output gone |
| `Unwind.ParkedRun.HandUp` | packages/go-agentenkit/core/engine.go:190-240 | one level: the child waited on is run and its outcome as it returned, its error if it failed, its text up to the cap if not, saved for the frame above |
| `Unwind.ParkedRun.UnwindVerdict` | packages/go-agentenkit/core/engine.go:168-244 | from the first call still waiting to the last, one result each in order; nothing saved is taken back |
| `Unwind.ParkedRun.ResumePendingHitl` | packages/go-agentenkit/core/engine.go:557-608 | one dispatch keeps the invariant wherever it dies; one that does not die, and has nothing to wait for, finishes the chain |
| `Unwind.DriveHome` | packages/go-agentenkit/core/engine.go:151-167 | after any number of dispatches that die after any write and one that does not, there is exactly one result for the parked call and each frame, innermost first, by the same child as in a run that never crashed; the first is the ruling on the answer, each other says whether its child failed and its error or text; and the park is closed |
| `Follow.Follower.OnBus` | packages/go-agentenkit/core/follow.go:92-108 | the bus callback, for entries and notices: pending before the cut-over, queued after; at ten thousand the queue is dropped and owed from the log |
| `Follow.Follower.FromStorage` | packages/go-agentenkit/core/follow.go:130-149 | sends exactly the entries after the cursor, in order, and with a prompt store all that were there |
| `Follow.Follower.FillGap` | packages/go-agentenkit/core/follow.go:155-169 | a gap below a live event is read back first; it stays only when a read fails or storage stays behind |
| `Follow.Follower.Deliver` | packages/go-agentenkit/core/follow.go:150-175 | a notice goes out once, as it is; of entries never one at or below the cursor, and never one past a gap |
| `Follow.Follower.CutOver` | packages/go-agentenkit/core/follow.go:187-198 | what came during the replay is delivered in order, and nothing heard is lost by going live |
| `Follow.Follower.Tail` | packages/go-agentenkit/core/follow.go:199-222 | one turn of the live tail: while it goes on every notice of the batch went out once, in order, and an overflow was caught up from the log; it breaks off only when that read failed, or ends when the reader left |
| `Follow.Follower.Follow` | packages/go-agentenkit/core/follow.go:78-226 | at every moment what was sent is the log after the cursor in turn; while it goes on, every entry stored before it began was sent, and every entry and notice the bus brought was sent or is held, but for the notices a full queue dropped |
| `Follow.Follower.NoticesGoOut` | packages/go-agentenkit/core/follow.go:62-77 | while it goes on, notices sent, notices still held and notices dropped are those brought, counted; what is sent and held comes in the order brought, and is all of it before ten thousand events were heard |
| `Follow.SentIsExact` | packages/go-agentenkit/core/follow.go:62-77 | sent in turn means exactly the entries with seq in (Since, lastSeq], ascending, each once |
| `Follow.SentIsOrderly` | packages/go-agentenkit/core/follow.go:62-77 | even with a gap left, only entries of the log, none twice, none out of order |
| `Follow.RangeIsTheEntriesBetween` | packages/go-agentenkit/ports/storage.go:85-88 | an entry is in a range, in its place, exactly when its seq is |
| `Follow.SortSorts` | packages/go-agentenkit/core/follow.go:193-193 | what came during the replay is put in order of seq |
| `Follow.WriteTo` | packages/go-agentenkit/core/follow.go:278-304 | the retry line when one is set, then one frame an event, in order, a notice without an id line; up to the first write that fails |
| `Follow.CursorIsLastSent` | packages/go-agentenkit/core/follow.go:243-249 | the frames tell exactly the events, and the id a client sends back is the last stored one among them: neither a notice nor the retry line moves it |
| `Follow.ReconnectsConcatenate` | packages/go-agentenkit/core/follow.go:236-249 | connections chained by the last id that reached the client concatenate to the log, each entry once |
| `Follow.Connect` | packages/go-agentenkit/core/follow.go:78-226 | a follower's run, cut by a failing write anywhere, is such a connection whenever no gap read failed and storage was prompt; otherwise what reached the client is still a part of the log in order; of the notices a first part reached it, all but the waiting and the dropped while it goes on |
| `StreamEvents.OpenBlockEnds` | packages/go-agentenkit/core/segment.go:363-378 | from an open block to its end only its own contents mention its id |
| `StreamEvents.FinishedIdIsSilent` | packages/go-agentenkit/core/segment.go:363-378 | a finished message id is never mentioned again |
| `StreamEvents.EveryMessageIsBracketed` | packages/go-agentenkit/core/segment.go:363-436 | on an accepted stream that leaves nothing open every message has one start, its contents, then one end |
| `Segment.SegmentStream.Push` | packages/go-agentenkit/core/segment.go:165-186 | pushed events are all kept, in order, and appended at once exactly when one of them may not wait, enough wait, or no delay is configured |
| `Segment.SegmentStream.Flush` | packages/go-agentenkit/core/segment.go:189-207 | what is buffered is appended, once, in order |
| `Segment.SegmentStream.EndBlocksOf` | packages/go-agentenkit/core/segment.go:363-378 | an agent's open blocks end, reasoning then text |
| `Segment.SegmentStream.MapChunkOf` | packages/go-agentenkit/core/segment.go:381-436 | one chunk's events and the agent's blocks after it |
| `Segment.SegmentStream.Forward` | packages/go-agentenkit/core/segment.go:251-338 | a published event's mapping is what is pushed; an ended segment pushes nothing |
| `Segment.SegmentStream.Close` | packages/go-agentenkit/core/segment.go:210-246 | every agent's open block ends once, and a second close does nothing |
| `Segment.RunSegment` | packages/go-agentenkit/core/segment.go:165-246 | a whole segment, timer flushes anywhere, gives the stream its inputs map to, closed in some order of its agents; it is legal, leaves nothing open and bears every input once, in order |
| `Segment.MapReads` | packages/go-agentenkit/core/segment.go:265-436 | one published event maps to events the stream language accepts, and the blocks still say what is open |
| `Segment.StreamIsAccepted` | packages/go-agentenkit/core/segment.go:265-436 | at every moment the stream is legal: no agent has text and reasoning open together, every tool argument or end has an open start, a step ends with nothing open |
| `Segment.ClosedStreamIsAccepted` | packages/go-agentenkit/core/segment.go:210-246 | a closed segment's stream is legal and leaves no block open |
| `Segment.EveryMessageOnce` | packages/go-agentenkit/core/segment.go:381-436 | for any chunks, step ends and subagent ends, then Close: every message id has exactly one start, its contents, exactly one end |
| `Interleaving.AcceptedByAgents` | packages/go-agentenkit/core/segment.go:251-265 | a stream is accepted exactly when every agent's own part of it is |
| `Interleaving.AnyInterleavingIsAccepted` | packages/go-agentenkit/core/segment.go:259-262 | the agents' parts of an accepted stream in any other interleaving are accepted too, and leave nothing open if it did |
| `Interleaving.ReorderedPushesAreAccepted` | packages/go-agentenkit/core/segment.go:251-265 | a closed segment whose agents' pushes changed places, each agent's own in order, is still legal with nothing left open |
| `Segment.StreamSaysWhatWasHeard` | packages/go-agentenkit/core/segment.go:381-411 | each agent's text (and reasoning) on the stream is its input deltas in order |
| `Segment.StreamBearsEveryInput` | packages/go-agentenkit/core/segment.go:265-436 | brackets aside, the stream is its inputs: every text and reasoning delta, tool argument, call, result, source, step end, subagent start and end, park and app event, once each, with its payload and agent, in the order published, and nothing else |
| `Segment.OpenIsWhatTheInputsSay` | packages/go-agentenkit/core/segment.go:363-436 | at every moment a reader of the stream has open, for each agent, the kind of block and the calls its inputs say, and as many messages have begun as they say |
| `Segment.ClosingOnlyEnds` | packages/go-agentenkit/core/segment.go:210-223 | closing appends ends of messages alone, wrapped for no agent |
| `Alone.AsIfAlone` | packages/go-agentenkit/core/segment.go:251-436 | whatever the other agents publish meanwhile, an agent's part of an open segment's stream is the one it would have made alone, but for its messages' numbers, given in the same order |
| `Snapshot.CutCommitted` | packages/go-agentenkit/core/snapshot.go:34-54 | the cut keeps what the definition keeps, by one pass over the last step ends |
| `Snapshot.CutKeepsExactlyTheUncommitted` | packages/go-agentenkit/core/snapshot.go:25-54 | what is kept is exactly the non-content items and each agent's content after its last finished step, in order |
| `Snapshot.KeptContentHasItsStart` | packages/go-agentenkit/core/segment.go:278-293 | of any stream a reader accepts, every content kept has its message's start kept before it |
| `Snapshot.CutOfASegment` | packages/go-agentenkit/core/snapshot.go:34-54 | the same for every stream a segment produces |
| `ChunkBatcher.Batcher.Push` | packages/go-agentenkit/core/stream.go:114-132 | a delta is joined to the held one of its kind, or held after what was held is sent; anything else goes out at once, after what is held |
| `ChunkBatcher.Batcher.Flush` | packages/go-agentenkit/core/stream.go:135-151 | what is held is sent, once |
| `ChunkBatcher.Batch` | packages/go-agentenkit/core/stream.go:95-151 | any timer placement: what is sent is exactly what was pushed, with every delta joined to the one of its kind before it unless the timer went off in between |
| `ChunkBatcher.NormalMapsAlike` | packages/go-agentenkit/core/segment.go:381-411 | joining adjacent deltas changes a segment's events only by joining content of one message |
| `ChunkBatcher.BatchingIsInvisible` | packages/go-agentenkit/core/stream.go:85-94 | for one agent, mapping the batched sequence gives the same segment and the same events, up to joining adjacent content of one message |
| `ChunkBatcher.BatchingBesideOthers` | packages/go-agentenkit/core/stream.go:85-151 | with other agents in between, where ids come in another order, the stream is legal and every agent's text and reasoning are the same; for all its events see the next row |
| `ChunkBatcher.BatchingOnlyRenumbers` | packages/go-agentenkit/core/stream.go:85-151 | with other agents in between, each agent makes the same events on either stream, tool events and step ends included, up to joining adjacent content and to the numbers of its messages, of which there are as many, in the same order |
| `Compaction.ReadPromptHistory` | packages/go-agentenkit/core/messages.go:108-139 | the latest summary and what came after the messages it covers; the whole history without summaries when its mark is not known |
| `Compaction.WhatIsRead` | packages/go-agentenkit/core/messages.go:108-139 | with no summary everything; with one, the latest and the plain messages after the last it covers; with a mark that is empty or unknown all the plain messages |
| `Compaction.TailInBudget` | packages/go-agentenkit/core/context.go:139-150 | the longest tail within its share of the budget |
| `Compaction.UserTurnAtOrAfter` | packages/go-agentenkit/core/context.go:218-231 | the first user turn at or after a place, else the last before it, else the end |
| `Compaction.Thread.CompactContext` | packages/go-agentenkit/core/context.go:119-206 | over the budget's own window, reserve, trigger and share: a prompt within the trigger comes back as it is; past it, the longest tail within the share is kept from a user turn on, the summarizer is sent, for each message before it in order, the role, the raw text and nothing more, and what it made of them is stored; what comes back is what the next read gives |
| `Compaction.CallsHoldTheWords` | packages/go-agentenkit/core/context.go:170-181 | when no line is past the limit the first calls hold the role and the text of every message covered, whole and in order |
| `Compaction.OneChangeIsHeard` | packages/go-agentenkit/core/context.go:170-181 | two histories that differ in one message's role or text send different text |
| `Compaction.TwoHistoriesOneText` | packages/go-agentenkit/core/context.go:170-181 | a text with a line that reads as a message's sends the same as two messages: two histories that differ in more can send the same |
| `Compaction.SureToFit` | packages/go-agentenkit/core/context.go:112-118 | what comes back is sure to fit the budget exactly when nothing is summarized and the prompt fits as it is; what can come back being the cover mark that is written over any summary some answers make |
| `Compaction.FitsWithSummariesUpTo` | packages/go-agentenkit/core/context.go:139-206 | it fits with every summary of at most so many tokens that some answers make exactly when so many tokens fit beside the tail kept |
| `Compaction.TailKeepsToItsShare` | packages/go-agentenkit/core/context.go:139-150 | a tail is within its share exactly when it starts no earlier than the longest tail that is, that is, when no user turn had to be reached back for |
| `Compaction.OneHugeTurn` | packages/go-agentenkit/core/context.go:119-137 | one user turn larger than the window goes as it is, forced or not |
| `Compaction.Thread.Say` | packages/go-agentenkit/core/messages.go:100-107 | a turn saved after a compaction is the prompt's next message |
| `Compaction.SummaryKeepsTheRest` | packages/go-agentenkit/core/messages.go:100-139 | a summary covering the prompt up to one of its messages leaves exactly the rest, none lost and none sent twice |
| `Compaction.PromptAt` | packages/go-agentenkit/core/messages.go:131-138 | what follows a message in the prompt is what follows it in the store |
| `Summaries.ChunkLines` | packages/go-agentenkit/core/context.go:297-315 | the chunks are those of the packing |
| `Summaries.ChunksKeepEveryLine` | packages/go-agentenkit/core/context.go:295-315 | the chunks concatenate to the trimmed lines |
| `Summaries.NoEmptyChunk` | packages/go-agentenkit/core/context.go:299-316 | no chunk is empty unless there is nothing to summarize |
| `Summaries.EveryChunkFits` | packages/go-agentenkit/core/context.go:295-329 | each chunk is at most limit + 4 estimated tokens for text of one code unit a character, at most twice the limit and 4 for any text |
| `Summaries.TrimBound` | packages/go-agentenkit/core/context.go:319-329 | a trimmed line's estimate |
| `Summaries.TrimKeepsBothEnds` | packages/go-agentenkit/core/context.go:317-330 | a line past the limit keeps its first and its last two characters for each token of the limit, the cut named between them; any other line is left alone |
| `Summaries.EveryPartIsMerged` | packages/go-agentenkit/core/context.go:283-290 | a merge round is sent every partial summary, in its place, under its number from one, cut in the middle when past a third of the limit |
| `Summaries.AnotherRound` | packages/go-agentenkit/core/context.go:272-292 | a round keeps what the summary promises and leaves strictly fewer chunks to send |
| `Summaries.SmallLinesPairUp` | packages/go-agentenkit/core/context.go:283-288 | lines of at most half a chunk go at least two to a chunk |
| `Summaries.EachRoundHalves` | packages/go-agentenkit/core/context.go:283-290 | each merge round turns n parts into at most ceil(n/2), whatever the summarizer answers |
| `Summaries.MergeRoundShrinks` | packages/go-agentenkit/core/context.go:283-290 | for any answers at all a merge round leaves fewer parts exactly when some two neighbouring merge lines fit in one chunk together |
| `Summaries.AstralPartsNeverMerge` | packages/go-agentenkit/core/context.go:319-329 | outside the basic multilingual plane a round can leave as many parts as it had, for every chunk limit |
| `Summaries.SomeAnswersNeverEnd` | packages/go-agentenkit/core/context.go:269-293 | from any lines that make more than one chunk, for every number of rounds some answers leave more than one chunk to merge |
| `Summaries.SureToEnd` | packages/go-agentenkit/core/context.go:269-293 | there is a bound on the rounds, whatever is answered, exactly when the lines make one chunk |
| `Summaries.AnyTextCanComeOut` | packages/go-agentenkit/core/context.go:269-293 | from any lines some answers lead to any given text as the summary |
| `Summaries.Summarizer.SummarizeLines` | packages/go-agentenkit/core/context.go:269-293 | whatever text is answered, followed for any number of rounds: every text sent fits; the first round carries every line, each next round the answers of the one before, and the result is the last round's only answer; with answers of the basic multilingual plane it ends within as many rounds as first chunks and three calls each |
| `Repair.DropOrphanResults` | packages/go-agentenkit/core/messages.go:359-388 | drops exactly the orphans of the definition |
| `Repair.OrphansAreJudgedByWhatCameBefore` | packages/go-agentenkit/core/messages.go:357-388 | a message keeps exactly the results that name a call made by then |
| `Repair.OneMessageLosesItsOrphans` | packages/go-agentenkit/core/messages.go:359-388 | a tool message keeps every part but the results of calls not made, and goes when these were all it had; any other message stays |
| `Repair.RepairDanglingToolCalls` | packages/go-agentenkit/core/messages.go:310-355 | gives the repaired prompt of the definition, results kept together right after their turn |
| `Repair.RepairIsLegal` | packages/go-agentenkit/core/messages.go:297-309 | every assistant call is answered before the next turn, every named result has its call earlier, whatever went in |
| `Repair.RepairChangesOnlyIllegal` | packages/go-agentenkit/core/messages.go:297-309 | the repair leaves a prompt alone exactly when it is legal |
| `Repair.RepairIsIdempotent` | packages/go-agentenkit/core/messages.go:310-355 | repairing twice is repairing once |
| `Repair.RepairOnlyInserts` | packages/go-agentenkit/core/messages.go:343-352 | taking out what was put in gives back the prompt without its orphans, and only synthetic results were put in |
| `Repair.TurnsAreRepairedAlone` | packages/go-agentenkit/core/messages.go:310-355 | each turn is repaired on its own: it and its results stay, and after them comes, for each of its calls with no result, in order, a result under the call's id and name that says none was recorded |
| `Repair.KeptInOrder` | packages/go-agentenkit/core/messages.go:357-398 | the results a message keeps stay in their order |
| `Usage.UsageLineMerger.Add` | packages/go-agentenkit/ports/types.go:414-475 | books a group: counters, its currency's cost, the line it joins or starts |
| `Usage.UsageLineMerger.AddCost` | packages/go-agentenkit/ports/types.go:427-434 | one cost entry a currency, in the order first seen |
| `Usage.UsageLineMerger.AddLine` | packages/go-agentenkit/ports/types.go:447-474 | a group joins the first line of its agent and model in its currency or in none yet, an unpriced one any of them |
| `Usage.GroupedGroups` | packages/go-agentenkit/ports/types.go:396-405 | the grouping has one group for each agent, model and currency, in first-seen order, with every counter of its rows summed |
| `Usage.GroupingPreservesTheBill` | packages/go-agentenkit/ports/types.go:393-405 | rows one by one and rows grouped in first-seen order give the same totals, costs and lines, order included |
| `Usage.TheBillAddsUp` | packages/go-agentenkit/ports/types.go:299-328 | for any rows grouped in any way the lines' counters sum to the totals, the lines of a currency to its entry, and the calls left out of the money plus those of its currency are all the calls but for those priced in no currency |
| `Usage.RowsAddUp` | packages/go-agentenkit/ports/types.go:366-391 | the same for a thread's rows of any kind, with as many calls as rows, grouped or not |
| `Usage.TheBillIsItsRows` | packages/go-agentenkit/ports/types.go:366-391 | the totals are the sums of the rows' fields; the currencies come as first seen, each with the money and number of the rows priced in it; an agent and model's lines carry each counter of its rows and their cost in each currency, on one line a currency |
| `Usage.EveryCallIsAccountedFor` | packages/go-agentenkit/ports/types.go:299-328 | Unpriced and the calls of the first currency are every call exactly when no row is priced in an empty currency |
| `Usage.Aggregate` | packages/go-agentenkit/ports/types.go:370-391 | feeding rows one by one gives the grouped bill, balanced, and it is its rows': token sums, currency entries and the lines of each agent and model, field by field |
| `Slots.RunSlots.TryAcquire` | packages/go-agentenkit/core/subagent.go:73-116 | a slot of the depth's own pool is taken exactly when one is free; what is used at a depth is what is taken there |
| `Slots.Slot.Release` | packages/go-agentenkit/core/subagent.go:80-90 | a slot's first release frees exactly one of its depth, any later one nothing |
| `Slots.HoldersWithinCap` | packages/go-agentenkit/core/subagent.go:92-116 | in every reachable state the holders at each depth are within the cap |
| `Slots.SomeCallCanStep` | packages/go-agentenkit/core/subagent.go:206-223 | below any unfinished call there is one that can step |
| `Slots.DeadlockFree` | packages/go-agentenkit/core/subagent.go:92-116 | an unfinished spawn call means some call can step |
| `Slots.EveryCallFinishes` | packages/go-agentenkit/core/subagent.go:206-223 | with nothing more spawned, exactly two steps a waiting call and one a holding call finish all |
| `Slots.OneSharedPoolDeadlocks` | packages/go-agentenkit/core/subagent.go:92-94 | one pool for all depths does deadlock |
| `Delays.RetryBackoff` | packages/go-agentenkit/core/engine.go:1553-1569 | the nth retry's delay: the base doubled n-1 times, capped, plus the jitter drawn |
| `Delays.LongestRetryDelay` | packages/go-agentenkit/core/reclaim.go:207-223 | the base doubled per configured attempt, capped, plus a quarter |
| `Delays.RetryDelaysWithinLongest` | packages/go-agentenkit/core/reclaim.go:205-223 | every delay a policy can schedule is within the longest one exactly when its attempts are within the configured ones plus one, or the cap is reached by then |
| `Delays.SweepOutwaitsEveryRetry` | packages/go-agentenkit/core/reclaim.go:205-223 | with the configured attempts it always is, jitter included |
| `Delays.LongestIsReached` | packages/go-agentenkit/core/reclaim.go:205-223 | and it is no longer than it need be: the retry after the configured attempts can be held back as long |
| `Delays.RedriveDelay` | packages/go-agentenkit/core/engine.go:1398-1408 | a try's delay and what the tries before it waited |
| `Delays.WaitedClosedForm` | packages/go-agentenkit/core/engine.go:1395-1408 | the waits in closed form until the lease caps them |
| `Delays.FailedOnlyAfterALease` | packages/go-agentenkit/core/engine.go:1380-1392 | the run's next counted try fails it exactly when its attempts are used and the delays the tries were given, whichever deliveries took them, add up to a lease |
| `Delays.FailsAtABoundedTry` | packages/go-agentenkit/core/engine.go:1380-1392 | the exact try at which it fails |
| `Delays.TriesAreBounded` | packages/go-agentenkit/core/engine.go:1380-1408 | a bound on tries from maxAttempts and lease/base |
| `Redrive.RedriveCounter.OnLockConflict` | packages/go-agentenkit/core/engine.go:1380-1392 | a conflict takes the run's next try: it comes back with that try's delay, or the count is cleared and the run failed |
| `Redrive.StepKeepsInv` | packages/go-agentenkit/core/engine.go:1375-1392 | on every schedule of deliveries, failed requeues, counts whose answer is lost, resets and clock ticks the delays given to all the deliveries and to none add up to what the count waited |
| `Redrive.DoneLeavesTheQueue` | packages/go-agentenkit/core/engine.go:1375-1392 | a delivery that was executed or failed the run leaves the queue, the others keep their places on it, and the count begins anew |
| `Redrive.DoneForGood` | packages/go-agentenkit/core/engine.go:1375-1392 | such a delivery never conflicts again, on any schedule |
| `Redrive.FailedHavingWaited` | packages/go-agentenkit/core/engine.go:1319-1321 | on every schedule the delivery that fails the run has waited a lease itself exactly when what others were given is within what the count is over the lease |
| `Redrive.LoneDeliveryWaitsALease` | packages/go-agentenkit/core/engine.go:1319-1321 | a delivery that took every try of its count waited a lease, in its delays and on the clock |
| `Redrive.OnlyALoneDeliveryIsSure` | packages/go-agentenkit/core/keys.go:62-66 | no schedule fails the run by a delivery that has not waited a lease exactly when at most one delivery can conflict and no try is counted for nobody, by a requeue that fails or a count whose answer is lost (or there is no lease) |
| `Redrive.TwoWaitersFailTheRunEarly` | packages/go-agentenkit/core/hitl.go:583-583 | three answers of one step with the default configuration: one runs, two wait, and the first of these fails the run after 42 seconds of a two-minute lease |
| `StepLimit.StepTimer.Rearm` | packages/go-agentenkit/core/steplimit.go:105-118 | the end becomes the latest of the base end and the running timed calls' ends, with one timer for it |
| `StepLimit.StepTimer.Begin` | packages/go-agentenkit/core/steplimit.go:121-128 | a timed call is noted and the end set anew |
| `StepLimit.StepTimer.Finish` | packages/go-agentenkit/core/steplimit.go:132-142 | the call goes, the base end moves on, the end is set anew |
| `StepLimit.StepTimer.TimerGoesOff` | packages/go-agentenkit/core/steplimit.go:92-99 | only the newest timer counts, and it marks the limit expired exactly when it is live |
| `StepLimit.EndCoversEveryCall` | packages/go-agentenkit/core/steplimit.go:105-118 | while the limit is live and has a base its end is the latest, over every sequence of events |
| `StepLimit.CallsAreTheRunning` | packages/go-agentenkit/core/steplimit.go:121-142 | on every run the calls counted are those begun and not finished, each under an id no running call has, with its own end |
| `StepLimit.TimerIsNeverEarly` | packages/go-agentenkit/core/steplimit.go:85-142 | a timer never ends a step before the base has passed since its start and since the last timed call returned, nor before a running call's own end |
| `StepLimit.OverrunExpires` | packages/go-agentenkit/core/steplimit.go:92-99 | until the step is stopped, the newest timer going off expires the limit, once, and says whose limit it was |
| `StepLimit.ExpiresOnceAndNeverAfterStop` | packages/go-agentenkit/core/steplimit.go:145-165 | it expires at most once and never after stop |

## Left out

- JSON encoding, SQL and Redis adapters, HTTP handlers, the browser side and the admin records: input and output.
- The model call, tool bodies, hooks and the text they return: any value.
- Agreement of the hot copy of a thread's state with the durable row: the cache is any value, so nothing rests on it.
- Threads that are active with no recorded owner and jobs with no run id: a thread starts idle and unowned, and run ids are fresh.
- Deleting stored events and messages (pruning, editing a turn): the log and the history only grow.
- Clock skew between processes and 64-bit overflow of durations, counters and token sums: times and sums are unbounded integers on one clock.
- Money as floating point: costs are whole micros already on the row.
- Unwind.DriveHome: one park in one chain; a child that parks again on the way up, and two parks in one child, share frames and are not modelled; the kept output's own 24-hour expiry is not either.
- Unwind.ParkedRun.HandUp: the child run's record and the SUBAGENT_COMPLETED and SUBAGENT_FAILED events around its result are not modelled.
- Unwind.ParkedRun.ResumePendingHitl: one open park; where several are open the code returns to waiting after the first, and its last move to RUNNING is in Ownership only.
- Hitl.ThreadStore.CloseOpenParks: ending nested run records as cancelled is best effort and not modelled.
- StopRace.SureToLeaveNothingOpen: one stop beside any number of workers; a second stop and a new run admitted before the stop is done (which leaves the old run's parks to nobody) are not modelled. A park counts as on one write each for its move and its request.
- Parking itself (ParkBox, CommitParks, ParkForApproval) beyond its state move and its request's place in time, and Respond beyond the answer key it sets.
- Follow.Follower.Follow: an entry is stored under the next seq, whole, before it is sent, and it never changes, so the bus and a read carry it as its seq; a sequence of stored entries with holes is not modelled.
- Follow.WriteTo: frames, not bytes: a frame half written by a failed write counts as not written, as a client drops it.
- Segment.SegmentStream.Forward: mapping and pushing are one step in the class; that pushes of parallel agents may change places is in Interleaving. A close racing a forward between the two, failed appends to the stream store and the segment's key in the cache are not modelled.
- Segment.StreamBearsEveryInput: the step number and usage on a step's end, a tool's name on its events and the raw type and time beside a payload are not modelled.
- Segment.SegmentStream.Push: the flush timer is a flush at any moment between pushes; delays are not measured.
- Segment.SegmentStream.Close: the end item, closing the stream in its store and the RUN_ENDED event are not modelled.
- ChunkBatcher.BatchingBesideOthers: text and reasoning only; BatchingOnlyRenumbers has every event.
- ChunkBatcher.BatchingIsInvisible: one agent's chunks alone. Beside other agents message ids may come in another order: BatchingOnlyRenumbers. The unwrapped ends a close writes are not compared there.
- Summaries.Summarizer.SummarizeLines: the loop has no bound, and outside the basic multilingual plane need not end, as SureToEnd has it; it is followed for any number of rounds and then left unfinished.
- Summaries.EveryChunkFits: bytes that are not UTF-8 are not modelled.
- Compaction.Thread.CompactContext: message ids are those a store mints (none empty, none twice); estimates are over the message text, not its JSON; the warning about a prompt over the window, the CONTEXT_COMPACTED event and the fixed instruction put before each chunk (one for the history, one for merging) are not modelled; rounds bounds the summarizer's loop as above.
- Slots.RunSlots.TryAcquire: blocking on a full pool is the step relation's waiting call; cancelling a wait is its GiveUp step.
- Redrive.StepKeepsInv: conflicts that take no try (duplicates dropped, a newer owner, the settle retry) leave the count as it is and are not steps here; due times are exact.
- Delays.RetryBackoff: the jitter is any value up to a quarter of the delay.
- StepLimit.StepTimer.Rearm: stopping the old timer is not relied on: one that was replaced may still go off.
- Run admission's own writes, retries of a failed dispatch and the sweep's search for lost runs: each is here only as its move of the thread's state.
