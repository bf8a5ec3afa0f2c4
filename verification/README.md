# Backhaul, modelled and proved

Backhaul is a reverse tunnel: a server accepts connections, carries each one as a flow over a
pool of multiplexed sessions to a client, and keeps flows alive while the sessions under them
come and go. Its hard logic is in state machines that many goroutines step at once. This project
models those in Dafny and proves what they keep in every run.

How the models are built:

- A machine that goroutines share is a transition system. Its events are the lock-held sections,
  single atomic accesses and channel hand-offs of the code; an event that cannot happen in a state
  leaves it as it is, so **every list of events is a run**, and a theorem about `Run(Start(), es)`
  for all `es` is a theorem about every interleaving. Timers fire at any time, measurements and
  scheduling are arbitrary, time only grows.
- What one goroutine does to an object's fields is a class. Its methods are proved equal to the
  specification functions the transition systems use, or state outright what they compute.
- 32-bit arithmetic, truncation and wrap-around are written out; next to each wrapped counter the
  model carries the true number and proves how the two relate.
- Next to a theorem that says what never happens stands one that says what does: an opening, an
  adoption, a hand-over or a delivery takes place if and only if a condition on the state holds, which
  is written out there.
- Where the code falls short of what its comments say, the model follows the code: there is a
  lemma with the failing run or input, and a lemma saying exactly when the promise holds.

| file | models |
|---|---|
| `Window.dfy`, `WindowStalls.dfy`, `Streams.dfy` | the smux version-2 sliding window between two ends; where it stalls and is overrun; one stream's buffers and writes |
| `Shaper.dfy`, `Integrity.dfy`, `SpanLimits.dfy`, `Closing.dfy` | the priority heap; bytes from a write through the shaper and the connection to a read; how long a request may wait; what EOF means |
| `Tokens.dfy` | the session's receive token bucket |
| `FlowMoves.dfy` | the record of which sessions a live flow is on, while swaps and retirements race |
| `Rotation.dfy` | replacing an aging session before retiring it |
| `GoneFlows.dfy` | the client's memory of flows it has run or reported |
| `Grace.dfy`, `Ownership.dfy` | control-channel loss, generations and restarts; what a generation owns |
| `Setup.dfy` | admission: queue, setup permits, the expiry guard, slots and counters |
| `Placement.dfy` | which session a plain flow is opened on |
| `PeakRate.dfy` | the two-bucket sliding maximum |
| `StripeGroups.dfy` | assembling striped flows from legs |
| `DnsFragments.dfy`, `Base32.dfy`, `DnsNames.dfy`, `DnsMessages.dfy` | payloads as DNS records and names |
| `Bytes.dfy`, `Numbers.dfy`, `Wrappers.dfy` | bytes and big-endian numbers; maxima and sums; options and results |

`dafny verify dfyconfig.toml` checks everything.

## Where the code and what is said of it differ

- **A window update can be dropped.** `tryReadv2` returns the count of bytes read as the notice to
  send an update, and 0 means none (internal/smux/stream.go:192, 201). A read that takes the 32-bit
  count to exactly 0 therefore sends nothing and still resets `incr`. What is then unreported is one
  frame and less than an eighth of the window. A receive window W stalls for good at some wrap
  (`WindowStalls.StuckForever`) if and only if F + max(W/8, 1) - 1 >= W, where F is the longest frame
  (the smaller of MaxFrameSize and the largest Write): that is, windows below about 8/7 of a frame.
  With 32768-byte frames these are the windows up to 37448 bytes; a window of 512 KiB never stalls.
  This holds of MaxStreamBuffer when the window is left alone
  (`WindowStalls.ReopensExactlyWhenRoomy`) and of every window a reader sets
  (`WindowStalls.ResizedReopensExactlyWhenRoomy`).
- **A write that times out before its frame is queued is counted as written**
  (internal/smux/stream.go:500-501). The difference of the counters stays exact, but the window is
  smaller by those bytes for good (`Window.WindowAtRest`, `WindowStalls.UnqueuedWriteStalls`).
- **A single Write of 2^31 bytes or more ignores the window**: its length is compared with the
  window as an int32 (internal/smux/stream.go:481), so it goes out whole and the next look at the
  counters raises ErrConsumed (`WindowStalls.HugeWriteOverruns`). The bound on unacknowledged bytes
  and the absence of ErrConsumed hold in all runs if and only if callers write less than that at a
  time (`WindowStalls.ExactExactlyBelowHalf`).
- **A request that waits in the shaper while 2^31 others are drawn loses its place.** A frame left
  behind by a write given up can then be overtaken by the next frame of its own stream, and the
  reader gets the bytes out of order (`SpanLimits.LateFrameIsOvertaken`). Reads are prefixes of what
  was written in all runs in which no request waits while d others are drawn if and only if d is at
  most 2^31 (`SpanLimits.PrefixesExactlyWithinSpan`); a stream whose writes are not given up in the
  shaper is safe in any case (`Integrity.ReadIsPrefixOfWritten`).
- **A hold can be re-armed after the 90 seconds.** `onControlGraceExpired` measures the time held
  before it counts the live sessions, and what passes in between comes on top:
  `Grace.RearmsWithinExactly` gives the bound for every delay, which is 90 s if and only if there is
  none. What is bounded in any case is the number of re-arms (`Grace.HoldIsBounded`).
- **A FIN can overtake a write still under way**, because control frames go before data frames;
  that write then succeeds after the reader has seen EOF (`Integrity.FinOvertakesConcurrentWrite`).
  EOF comes after everything reported written before the close (`Integrity.EofAfterReportedWrites`);
  it comes after everything ever reported if and only if no Write is under way at the close that has
  a frame still to be drawn, drawn, or waiting (`Closing.EofCoversReportsExactlyWhenIdle`) - a Write
  looks for the close when it starts, not between its frames - and after everything the shaper takes
  if and only if no frame at all is under way (`Closing.CloseLosesNothingExactlyWhenQuiet`).
- **The configuration check does not bound MaxReceiveBuffer from above**, and the bucket is an
  int32 (`Tokens.BucketStartsFull`). A closed session's receive loop files what still arrives
  without looking at the bucket, and so without bound (`Tokens.ClosedSessionOverfills`).
- **`maxQueryData` does not bound the name under a long domain**: it says 0 where not even an empty
  query fits (`DnsMessages.QueryNameFits`).
- **A requested response length over 2040 is shortened** (`DnsMessages.QueryRoundTrip`), though the
  comment on the query type says a request is never silently shortened.
- **A domain ending in an odd number of backslashes** makes names that `decodeName` refuses
  (`DnsNames.NameRoundTrip`).
- **Record widths above 258** would let `fragAnswer` take payloads whose length its header cannot
  hold (`DnsFragments.SurvivesExactlyWhenShort`); the widths in use are 4 and 16.

## Model

| member | source | states |
|---|---|---|
| Window.ModularDifference | internal/smux/stream.go:464-474 | `int32(uint32(a) - uint32(b))` is the true difference while that fits 31 bits, after any number of wraps |
| Window.ModularExactness | internal/smux/stream.go:435-529 | in every run of writes below 2^31 bytes, with failed updates, timed-out writes and resized windows, unacknowledged bytes stay within max(262144, MaxStreamBuffer), the 32-bit difference is the true one and ErrConsumed is never raised |
| WindowStalls.BatchKeepsToWindow | internal/smux/stream.go:477-487 | a write takes no more than the window if and only if what is left of it fits the window or is no less than the window also as an int32; below 2^31 bytes it takes exactly the smaller of the two |
| WindowStalls.HugeWriteOverruns | internal/smux/stream.go:471-483 | if callers may pass 2^31 bytes to a Write, runs exist in which more than max(262144, MaxStreamBuffer) bytes are unacknowledged, and in which ErrConsumed is raised |
| WindowStalls.ExactExactlyBelowHalf | internal/smux/stream.go:460-507 | for every verified configuration: unacknowledged bytes stay within the bound in all reachable states if and only if callers write less than 2^31 bytes at a time, and so does ErrConsumed stay away |
| Window.WindowAtRest | internal/smux/stream.go:161-215 | once everything is drained and delivered, the writer's window is the receive window (262144 as long as no update was sent) less the bytes counted but never queued, less what was read and not reported |
| Window.WindowReopens | internal/smux/stream.go:161-215 | no window deadlock: at rest and with no write given up unqueued, for any interleaving of reads, one buffer at a time, and resizes, the writer's window is positive whenever the window in force is roomy (one frame and an eighth of it leave room), or nothing was read yet, or the 32-bit count of bytes read is not zero |
| WindowStalls.UnqueuedWriteStalls | internal/smux/stream.go:488-507 | for every configuration a run exists in which a write given up before it was queued leaves the writer without a window, although all is drained and delivered |
| WindowStalls.WrapToZeroStalls | internal/smux/stream.go:186-203 | from any start at rest, a window that is not roomy has a run in which a read takes the count to 2^32, no update is sent and the writer is stuck |
| WindowStalls.ReopensExactlyWhenRoomy | internal/smux/stream.go:297-304 | with the window left alone, the writer has room in every state at rest of every run if and only if the longest frame + max(W/8, 1) - 1 is less than W |
| WindowStalls.ResizedReopensExactlyWhenRoomy | internal/smux/stream.go:306-325 | the same for every window a reader may set, in the states in which it is in force |
| WindowStalls.StuckForever | internal/smux/stream.go:333-355 | from a stuck state nothing but a change of the receive window lets another byte through |
| Window.FramesArrive | internal/smux/stream.go:617-623 | any number of deliveries moves that many frames from the connection into the reader's buffer, in order, and changes nothing else |
| WindowStalls.FailedUpdateSendsNothing | internal/smux/stream.go:333-355 | an update write that fails leaves nothing on its way to the writer |
| Streams.Stream.PushBytes | internal/smux/stream.go:617-623 | appends to what the reader will get |
| Streams.Stream.TryRead | internal/smux/stream.go:161-215 | what is read and what stays are together what was there, in order; nothing is read only if there is nothing or no room; counters and notice move as in the window model |
| Streams.Stream.RecycleTokens | internal/smux/stream.go:626-636 | returns as many tokens as bytes were unread and leaves none |
| Streams.Stream.SwapReceiveWindow | internal/smux/stream.go:313-325 | the window is the wanted one held between 1 and MaxStreamBuffer; says whether it changed |
| Streams.Stream.UpdateFromPeer | internal/smux/stream.go:647-654 | stores the peer's count and window and touches nothing else |
| Streams.Stream.SendFrames | internal/smux/stream.go:490-506 | frames are handed out in order until one write fails; they are a prefix of the bytes, all of them if none fails; every one but the last is of exactly the frame size and none is empty or longer; the counter moves by all of them, the failed one included; the bytes sent are those of the frames that succeeded and the part reported of the failed one |
| Streams.Stream.WriteRound | internal/smux/stream.go:460-507 | one round, for writes below 2^31 bytes: unless a write fails, exactly the smaller of what is to be written and the send window goes out, and nothing at all when the window is not open; for longer writes the length counts as an int32; what is sent and what is left are the bytes given; the error is reported exactly when the peer's count is ahead |
| Shaper.LessIffWithinHalf | internal/smux/shaper.go:26-39 | the modular comparison of two request numbers gives the order they were drawn in if and only if they are less than 2^31 apart |
| Shaper.LessIsBefore | internal/smux/shaper.go:34-39 | among requests within that span, Less is the order meant: control first, then by age |
| Shaper.RootIsFirst | internal/smux/shaper.go:30-50 | no entry of a heap is before its root |
| Shaper.ShaperHeap.Push | internal/smux/shaper.go:42-42 | stays a heap and gains exactly the request |
| Shaper.ShaperHeap.Pop | internal/smux/shaper.go:44-50 | stays a heap, loses exactly the request returned, and no other was before it |
| Integrity.LeastIsOldest | internal/smux/session.go:485-523 | what the shaper writes next is the oldest of its class, and control if there is any |
| Integrity.ReadIsPrefixOfWritten | internal/smux/session.go:377-455 | for any interleaving of any streams, bytes read are a prefix of the bytes written on that stream, which are a prefix of the bytes passed to its Writes; all of what was written once shaper, connection and buffers are empty, and all that was passed once no frame is left to queue: always for a stream whose writes are not given up in the shaper, and for all while no request waits as 2^31 others are drawn |
| SpanLimits.PrefixesExactlyWithinSpan | internal/smux/shaper.go:26-39 | in all runs in which no request waits while d others are drawn, and requests are written as the code compares them, reads are prefixes on every stream if and only if d is at most 2^31 |
| SpanLimits.LateFrameIsOvertaken | internal/smux/session.go:485-523 | the run in which a frame given up in the shaper is overtaken, 2^31 draws later, by the next of its stream |
| Integrity.EofAfterReportedWrites | internal/smux/stream.go:357-388 | in every run EOF caused by the peer's FIN is seen only after every byte reported written before the peer closed |
| Integrity.QueuedBeforeDrawnGoesFirst | internal/smux/session.go:192-204 | of two requests of a class the one queued before the other was drawn is written first: a FIN behind a timed-out SYN never precedes it |
| Integrity.FinOvertakesConcurrentWrite | internal/smux/session.go:591-618 | the run in which a FIN overtakes a write under way, which then succeeds after EOF |
| Integrity.ControlHappens | internal/smux/session.go:192-204 | every control request gets the next number when it is drawn and is taken or given up; a FIN behind a timed-out SYN is one of them |
| Closing.QuietCloseLosesNothing | internal/smux/stream.go:532-547 | a stream closed with none of its frames to come, drawn or in the shaper: whoever sees EOF has read every byte taken, whatever the shaper does |
| Closing.QuietCloseIsExact | internal/smux/stream.go:532-547 | and in order, if up to the close no request waited as 2^31 others were drawn or no write was given up in the shaper |
| Closing.CloseLosesNothingExactlyWhenQuiet | internal/smux/stream.go:532-547 | for every run up to a close: in all continuations whoever sees EOF has read every byte the shaper took, if and only if no frame of the stream is still to be drawn, drawn or in the shaper at the close |
| Closing.IdleCloseCoversReports | internal/smux/session.go:591-618 | a stream closed while no Write of it has a frame to come, drawn or waiting: every byte it ever reports is read before EOF, whatever given-up frames are left |
| Closing.EofCoversReportsExactlyWhenIdle | internal/smux/stream.go:435-507 | for every run up to a close: in all continuations whoever sees EOF has read every byte reported by then, if and only if no Write is under way at the close that has a frame still to be drawn, drawn or waiting in the shaper |
| Tokens.Session.PushBytes | internal/smux/session.go:419-429 | files the frame under its stream, if that is registered, and under no other |
| Tokens.Session.TakeFront | internal/smux/stream.go:124-159 | takes from the front buffer as much as there is room for and leaves the rest in place |
| Tokens.Session.ReturnTokens | internal/smux/session.go:370-374 | credits the bucket with 32-bit arithmetic and wakes the loop exactly when it is positive |
| Tokens.Session.Unregister | internal/smux/session.go:358-367 | the stream is gone and the tokens of everything unread on it are given back |
| Tokens.TokensAreConserved | internal/smux/session.go:377-455 | in every run, open or closed and for every MaxReceiveBuffer, bucket + buffered + taken is MaxReceiveBuffer + what is being debited to 32 bits, and exactly, once nothing is being debited, if and only if MaxReceiveBuffer less what is held fits an int32; an open session with MaxReceiveBuffer below 2^31 always keeps to it and never holds more than MaxReceiveBuffer + 65534 bytes |
| Tokens.LoopRunsExactlyBelowMax | internal/smux/session.go:377-392 | the receive loop of an open session goes on to another frame if and only if fewer than MaxReceiveBuffer bytes are held |
| Tokens.FrameIsFiled | internal/smux/session.go:418-434 | a frame for a registered stream is filed behind the others and debited in full |
| Tokens.ReadBytesComeBack | internal/smux/stream.go:124-159 | however many bytes a read takes off the front buffer, the bucket gets that many back |
| Tokens.ClosedStreamsComeBack | internal/smux/session.go:357-367 | closing a stream gives back all that was buffered on it |
| Tokens.StreamsOpen | internal/smux/session.go:401-411 | a stream number not in use can be opened, with nothing buffered |
| Tokens.ClosedSessionOverfills | internal/smux/session.go:377-429 | for every MaxReceiveBuffer and every n a run exists in which a closed session holds n frames of 65535 bytes |
| Tokens.BucketStartsFull | internal/smux/session.go:127-140 | the bucket starts at MaxReceiveBuffer if and only if that is below 2^31; from there to 2^32 the loop never starts |
| FlowMoves.ResumableFlow.Moving | internal/server/transport/wsmux_resume.go:83-89 | the move is recorded before the swap, other moves untouched |
| FlowMoves.ResumableFlow.Stayed | internal/server/transport/wsmux_resume.go:93-97 | a failed move leaves the record as if it had not been |
| FlowMoves.ResumableFlow.Took | internal/server/transport/wsmux_resume.go:102-107 | the move gets the next place in the order of swaps |
| FlowMoves.ResumableFlow.Moved | internal/server/transport/wsmux_resume.go:113-120 | the record becomes the move's tunnel only if no later swap is recorded already |
| FlowMoves.ResumableFlow.DropMove | internal/server/transport/wsmux_resume.go:122-129 | takes out that move and no other |
| FlowMoves.ResumableFlow.On | internal/server/transport/wsmux_resume.go:131-147 | true exactly for the recorded sessions and those of pending moves |
| FlowMoves.SwapKeepsInv | internal/server/transport/wsmux_resume.go:340-353 | every step of every swap, settled in any order, keeps the record's invariant |
| FlowMoves.RecordNeverLosesFlow | internal/server/transport/wsmux_resume.go:45-147 | in every run in which tunnels are installed in the order they were built, all sessions under a live flow are on record, and once no move is pending the record is exactly the last tunnel installed |
| FlowMoves.NoFlowStranded | internal/server/transport/wsmux_resume.go:453-503 | for every interleaving of moves with retirements and lost sessions, once everybody has looked, somebody has found the flow by the very move that put it there, or its mover has started a follow-up (MovesHaveReasons is the other half) |
| FlowMoves.MovesHaveReasons | internal/server/transport/wsmux_resume.go:461-490 | in every run a follow-up, a retirement's list or a regrouping names the flow only by a move that put it on that session, and only if the session has left the registry or was lost: while its sessions stay open and registered nobody moves a flow |
| FlowMoves.PlainFlowsAreNotRegrouped | internal/server/transport/wsmux_resume.go:539-549 | in every run without striped moves nothing is regrouped, and a lost session alone starts no follow-up |
| FlowMoves.EventsHappen | internal/server/transport/wsmux_resume.go:190-200 | sessions are admitted, retired, lost and unregistered from any state; a scan by a retirement or a lost session's watcher takes in every move it finds |
| FlowMoves.SwapsHappen | internal/server/transport/wsmux_resume.go:76-129 | each step of a swap happens when it is due: begin, build under the next number, install, settle as moved or, keeping the recorded place, as stayed |
| FlowMoves.FoundExactlyWhenOn | internal/server/transport/wsmux_resume.go:190-200 | a look at the record finds the flow by some move exactly when the flow counts as on the session |
| FlowMoves.OutOfOrderInstallMisplacesFlow | internal/server/transport/wsmux_resume.go:99-107 | without the order of installations the record ends up naming a tunnel the flow is not on |
| Rotation.Pool.Snapshot | internal/server/transport/wsmux_session.go:285-293 | exactly the registered sessions |
| Rotation.Pool.Unregister | internal/server/transport/wsmux_pool.go:113-120 | one entry of the session goes, the others keep their order |
| Rotation.Pool.RetireIfReplaced | internal/server/transport/wsmux_session.go:300-314 | retires exactly when a live registered session outside the snapshot exists, and says which |
| Rotation.SuccessorsAreDistinct | internal/server/transport/wsmux_session.go:210-260 | in every run each retirement has a successor of its own, live, registered and unknown to its snapshot; so there are no more retirements than sessions admitted since the first snapshot |
| Rotation.RotationKeepsCapacity | internal/server/transport/wsmux_session.go:295-314 | after a retirement at least as many sessions are live as had survived from its snapshot |
| Rotation.RotationNeverShrinksPool | internal/server/transport/wsmux_session.go:210-314 | over whole runs without closes, however many rotations are interleaved, the registry never falls below its size at the first retirement's snapshot |
| Rotation.ReplacementRetires | internal/server/transport/wsmux_session.go:295-314 | in every run, with the gate held and the snapshot taken, a live session admitted since lets the old one, and it alone, leave at once |
| Rotation.NothingNewNothingRetired | internal/server/transport/wsmux_session.go:300-314 | with no live registered session outside the snapshot no attempt to retire changes anything |
| Rotation.RotationHappens | internal/server/transport/wsmux_session.go:210-260 | from every reachable state with the gate free a whole rotation goes through, its snapshot being the registry then |
| Rotation.OthersHappen | internal/server/transport/wsmux_session.go:210-260 | a rotation can be given up without loss, and a closed session leaves the registry |
| GoneFlows.Keeper.Put | internal/client/transport/wsmux_gone.go:37-53 | remembers the entry; a sweep that comes along removes only what has expired |
| GoneFlows.Keeper.Sweep | internal/client/transport/wsmux_gone.go:44-51 | exactly the entries not expired stay |
| GoneFlows.Keeper.Get | internal/client/transport/wsmux_gone.go:55-62 | an expired entry counts as none |
| GoneFlows.Keeper.NeverSeen | internal/client/transport/wsmux_gone.go:72-78 | true exactly when no unexpired entry is kept, or one that expects an opening; then the opening is expected for reopenedFor |
| GoneFlows.Keeper.Admit | internal/client/transport/wsmux_gone.go:82-92 | false exactly for an unexpired entry that expects no opening; an expected opening is expected no more, and remembered for reopenedFor |
| GoneFlows.ExpiredIsUnobservable | internal/client/transport/wsmux_gone.go:37-62 | memories that differ only in expired entries answer one question alike and stay alike |
| GoneFlows.DeletionIsUnobservable | internal/client/transport/wsmux_gone.go:37-62 | every run has the admissions, running flows, looks and unexpired memory of the same run without any lazy deletion or sweep |
| GoneFlows.AtMostOncePerFlow | internal/client/transport/wsmux.go:1502-1527 | in every run, attaches that look and act under separate lock holds included, a flow is admitted again only after its last run has ended and the longest expiry remembered then has passed, which is goneFor after the end at least and reopenedFor after an admission that was asked for |
| GoneFlows.EndedFlowStaysEnded | internal/client/transport/wsmux.go:1587-1610 | while an ended flow is remembered it is neither admitted nor reported as never seen |
| GoneFlows.AdmitsExactlyWhen | internal/client/transport/wsmux_gone.go:72-92 | in every run a flow that is not running is opened if and only if it has not ended before or the expiry remembered at its end has passed, so a flow never heard of always is; an attach reports never seen under the same condition; nobody is kept out longer than reopenedFor from now |
| GoneFlows.ReopeningIsAdmitted | internal/client/transport/wsmux.go:1502-1527 | an attach that finds a flow neither running nor kept out makes its opening expected, and that opening is admitted as expected up to exactly 15 minutes later, and as a new flow after that |
| GoneFlows.RunningIsNotReopened | internal/client/transport/wsmux.go:1502-1527 | no opening of a running flow changes anything, in any run |
| GoneFlows.FinishKeepsOut | internal/client/transport/wsmux.go:1587-1610 | a flow that ends is kept out for two minutes from then, or as long as was already remembered if that is longer |
| GoneFlows.DeletionDeletes | internal/client/transport/wsmux_gone.go:44-51 | a deletion removes exactly the expired entries it is after |
| Grace.Transport.Invalidate | internal/server/transport/wsmux_grace.go:69-75 | a new epoch and no timer |
| Grace.Transport.OnControlLost | internal/server/transport/wsmux_grace.go:37-63 | only the current channel's loss counts; it starts a new epoch with a timer unless the generation stopped |
| Grace.Transport.AdoptControl | internal/server/transport/wsmux_grace.go:93-125 | refuses exactly a stopped generation or one with a claimed restart, else installs the channel in a new epoch without a timer and hands back the old one |
| Grace.Transport.Decide | internal/server/transport/wsmux_grace.go:162-212 | stale for another epoch, a channel back or a stop; else hold with a new timer exactly with a live session and less than 90 s held; else the restart is claimed in a new epoch |
| Grace.ClaimedGenerationIsRefused | internal/server/transport/wsmux_grace.go:93-125 | in every run a generation with a claimed restart has and gets no control channel, and no loss epoch is claimed twice |
| Grace.OneTimerPerLoss | internal/server/transport/wsmux_grace.go:37-75 | at most one timer or callback belongs to the current loss |
| Grace.StaleCallbackIsInert | internal/server/transport/wsmux_grace.go:77-82 | a callback of an older epoch neither re-arms nor claims, wherever it is in its course |
| Grace.HoldIsBounded | internal/server/transport/wsmux_grace.go:145-151 | a loss is held by at most three timers, each re-arm decided on less than 90 s |
| Grace.RearmsWithinExactly | internal/server/transport/wsmux_grace.go:162-212 | in all runs whose callbacks decide at most d after measuring, every re-arm comes before a bound since the loss, if and only if the bound is at least 90 s + d; so none comes after 90 s if and only if d is 0 |
| Grace.SlowCountRearms | internal/server/transport/wsmux_grace.go:162-190 | the run, for every d, in which a callback measures at 89 s and re-arms d later |
| Grace.GenerationsDoNotOverlap | internal/server/transport/wsmux.go:452-542 | in every run no worker of an earlier generation runs once a later one is published, none can start in it, and it adopts nothing |
| Grace.AdoptsExactlyWhen | internal/server/transport/wsmux_grace.go:93-125 | in every run the current generation gets the channel it is offered, in the next epoch with no timer and no callback of that epoch left, if and only if it has not stopped and no restart is claimed |
| Grace.HeldLossCanReattach | internal/server/transport/wsmux_grace.go:106-123 | in every run, as long as a timer or callback of the current loss is left and the generation was not stopped, the client can reattach |
| Grace.LosesExactlyWhen | internal/server/transport/wsmux_grace.go:37-63 | in every run the loss of the current channel starts a new epoch, the clock and one timer, or none once stopped; any other loss changes nothing |
| Grace.DecidesExactlyWhen | internal/server/transport/wsmux_grace.go:162-212 | in every run the callback of the current loss re-arms if and only if a session is live and it measured less than 90 s, and claims the restart otherwise, with no live session at once |
| Grace.FiresExactlyWhenDue | internal/server/transport/wsmux_grace.go:37-63 | an armed timer fires if and only if 30 s have passed since it was armed |
| Grace.RestartPublishes | internal/server/transport/wsmux.go:452-542 | in every run a stopped generation without workers is replaced by one that takes workers and a channel |
| Grace.GenerationsEnd | internal/server/transport/wsmux.go:452-542 | from any state the current generation can be stopped and its workers end one by one |
| Ownership.Generation.Enter | internal/server/transport/wsmux.go:101-112 | counts a worker in exactly while not stopped |
| Ownership.Generation.Own | internal/server/transport/wsmux.go:122-137 | owned, or refused and to be closed by the caller once stopped |
| Ownership.Generation.Release | internal/server/transport/wsmux.go:157-164 | no longer owned, nothing else changed |
| Ownership.Generation.Stop | internal/server/transport/wsmux.go:169-182 | takes everything owned to be closed, once |
| Ownership.NoCloserIsLost | internal/server/transport/wsmux.go:114-182 | everything ever passed to own is owned, released, closed or being closed; a stopped generation owns nothing |
| Ownership.StopIsFinal | internal/server/transport/wsmux.go:166-182 | what a stop took is closed whatever is released or owned afterwards |
| Ownership.ReleasedIsLeftAlone | internal/server/transport/wsmux.go:157-182 | in every run what was released stays unowned and unclosed, whatever stops follow, unless it is owned again |
| Ownership.StopCloses | internal/server/transport/wsmux.go:122-182 | a stop takes each thing owned and closes it; what is owned too late is closed by the one who came; before a stop it is owned |
| Setup.SetupAttempt.Fire | internal/server/transport/wsmux_dispatch.go:259-264 | the socket is closed and the guard fired exactly if the one-shot was still free; after a settle nothing happens |
| Setup.SetupAttempt.Settle | internal/server/transport/wsmux_dispatch.go:279-287 | afterwards the guard has fired, and the socket is closed, or it never will |
| Setup.SetupAttempt.Handoff | internal/server/transport/wsmux_dispatch.go:306-310 | true exactly when the guard will never fire |
| Setup.SetupAttempt.ReleasePermit | internal/server/transport/wsmux_dispatch.go:271-277 | gives the permit back the first time only |
| Setup.SetupAttempt.Drop | internal/server/transport/wsmux_dispatch.go:312-321 | the socket is closed, the guard settled, one stream unit given back |
| Setup.ActBalances | internal/server/transport/wsmux_dispatch.go:374-493 | every move of a setup changes the shared counters by exactly what the connection then holds more or less |
| Setup.CountersAreConserved | internal/server/transport/wsmux_dispatch.go:353-372 | in every run streamCounter, both admission counters and the permits in use are the sums of what the connections hold, permits never exceed capacity, and no admission counter exceeds the largest budget read, with racing compare-and-swaps |
| Setup.EndsExactlyOnce | internal/server/transport/wsmux_dispatch.go:234-334 | a connection ends at most once, closed or in a pump behind a settled guard; when gone it gave back its stream unit once, the one permit it was dequeued with, refused or not, and every slot it took |
| Setup.NothingLeaks | internal/server/transport/wsmux.go:1249-1275 | when all connections are gone and the loop has left, all counters are zero |
| Setup.PumpedIsSafe | internal/server/transport/wsmux_dispatch.go:468-493 | whatever follows, neither guard nor worker closes a connection given to a pump |
| Setup.AdmittedExactlyWhen | internal/server/transport/wsmux_dispatch.go:353-372 | in every run a slot is taken if and only if one flow more fits the budget read, of at least one flow |
| Setup.WidthAndCounter | internal/server/transport/wsmux_dispatch.go:628-656 | a plain flow weighs 1 on its counter, a striped one its legs, at least 1, on the other |
| Setup.HandedExactlyWhenUnfired | internal/server/transport/wsmux_dispatch.go:468-477 | in every run a setup with its streams open is handed over if and only if its guard has not fired |
| Setup.HandedFlows | internal/server/transport/wsmux_dispatch.go:477-493 | and then flows, behind a settled guard, with its permit given back and its slot and stream unit kept |
| Setup.FiresExactlyWhenUnsettled | internal/server/transport/wsmux_dispatch.go:252-270 | in every run a guard fires exactly while it is neither settled nor fired |
| Setup.DequeuedStarts | internal/server/transport/wsmux.go:1249-1275 | in every run the loop's permit goes with a dequeued connection to a worker with an idle guard, or, stopped, the connection is refused |
| Setup.CanAlwaysEnd | internal/server/transport/wsmux_dispatch.go:374-493 | no setup is stuck: from any state a connection out of the queue has at most seven steps of its own to its end |
| Setup.MovesHappen | internal/server/transport/wsmux_dispatch.go:374-410 | the stream is counted once, a failed open frees the slot and tries again, a failed FEC set-up ends only a striped flow |
| Setup.EventsHappen | internal/server/transport/wsmux.go:1249-1275 | connections are accepted, permits taken below capacity and dropped, and a stopped queue is swept |
| Placement.Pool.Available | internal/server/transport/wsmux_pool.go:393-404 | the live sessions not tried, in registry order, and the number of live ones |
| Placement.Pool.Lowest | internal/server/transport/wsmux_pool.go:409-417 | the first with the lowest score, the score being (load + 1) * weight |
| Placement.Pool.ReservePlainLeg | internal/server/transport/wsmux_pool.go:389-420 | none exactly when no live session is untried; else the chosen one has (load + 1) * weight no higher than any eligible one and lower than any before it, gets one reservation, and nothing else changes |
| Placement.Pool.ReleasePlainLeg | internal/server/transport/wsmux_pool.go:422-426 | one reservation less on that session |
| Placement.ReservationsAreOpensInFlight | internal/server/transport/wsmux_pool.go:360-385 | in every run pendingOpens is the number of opens in flight, and no opener tries a session twice or one it avoids |
| Placement.BurstSpreads | internal/server/transport/wsmux_pool.go:194-209 | in a burst, whichever opens have returned, load_i * w_i <= (load_j + 1) * w_j, as products, for all sessions from idle, and for every session used from any loads; weights stay |
| Placement.GreedyIsOptimal | internal/server/transport/wsmux_pool.go:300-335 | no other distribution of the same flows has a lower dearest session (PeakCovers, PeakIsReached say what that is) |
| Placement.PeakCovers | internal/server/transport/wsmux_pool.go:203-209 | no session's load * weight exceeds that of the dearest session |
| Placement.PeakIsReached | internal/server/transport/wsmux_pool.go:203-209 | some session's load * weight is that of the dearest session |
| Placement.LiveCountCounts | internal/server/transport/wsmux_pool.go:393-404 | the number of live sessions is that of the set of them |
| Placement.OpenSucceeds | internal/server/transport/wsmux_pool.go:360-385 | from any state an open goes to the first best session, which ends with one stream more and no reservation |
| Placement.OpenFails | internal/server/transport/wsmux_pool.go:360-385 | a failed open takes its reservation back and that session is not tried again |
| Placement.LegsChange | internal/server/transport/wsmux_pool.go:360-385 | sessions die with their streams on record, and streams end one at a time |
| PeakRate.Rate.Roll | internal/server/transport/wsmux_capacity.go:74-85 | keeps the current bucket, makes it the previous one or clears both by its age: the RollSpec that PeakOfLastBuckets is proved of |
| PeakRate.Rate.Add | internal/server/transport/wsmux_capacity.go:87-92 | the AddSpec of the same theorem: rolls, then raises the current peak |
| PeakRate.Rate.Get | internal/server/transport/wsmux_capacity.go:94-97 | the GetSpec of the same theorem: rolls, then reports the higher peak |
| PeakRate.PeakOfLastBuckets | internal/server/transport/wsmux_capacity.go:68-97 | for any calls at times that do not go back, get is at least the highest sample of the last bucket and at most that of the last two |
| PeakRate.FirstSampleCountsTenMinutes | internal/server/transport/wsmux_capacity.go:74-97 | the first sample is reported for exactly ten minutes, and 0 from then on |
| StripeGroups.Assembler.AddStripeLeg | internal/client/transport/wsmux.go:294-354 | files the leg or closes it; says whether the group is complete |
| StripeGroups.Assembler.Abort | internal/client/transport/wsmux.go:1287-1305 | gives up this very group object if it is still in the table, else does nothing |
| StripeGroups.Assembler.CloseLegs | internal/client/transport/wsmux.go:1300-1304 | closes each leg that arrived once |
| StripeGroups.EveryLegInOnePlace | internal/client/transport/wsmux.go:273-354 | in every run a leg is in exactly one of pending, delivered, being closed, closed once |
| StripeGroups.DeliveredIsWhole | internal/client/transport/wsmux.go:1246-1271 | a delivered group has in every slot a leg announced for it that agrees on kind, promoted flow, shape and destination |
| StripeGroups.GroupEndsOnce | internal/client/transport/wsmux.go:1282-1305 | a group object is pending or was completed or given up exactly once; a timer after that changes nothing, even with its number in use again |
| StripeGroups.RejectionTouchesNothing | internal/client/transport/wsmux.go:287-293 | a rejected leg leaves every group as it was |
| StripeGroups.FiledExactlyWhen | internal/client/transport/wsmux.go:294-354 | in every run an arriving leg is kept if and only if its header is sound and either no group of its number is pending or it agrees with that one on kind, promoted flow, shape and destination and its slot is free; else it is closed |
| StripeGroups.AnyOrderDelivers | internal/client/transport/wsmux.go:294-354 | in every run the legs of a new group, arriving in any order, deliver it with each leg in the slot it was announced for |
| StripeGroups.TimeoutCloses | internal/client/transport/wsmux.go:1287-1305 | in every run a timer that finds its group pending removes it, and every leg in it is closed |
| StripeGroups.RestartCloses | internal/client/transport/wsmux.go:546-560 | in every run a restart empties the table and every leg of every pending group is closed |
| DnsFragments.FragAnswer | internal/transport/dns/codec.go:125-144 | a header and the numbered pieces, or an error exactly when 255 pieces do not suffice |
| DnsFragments.FragExtract | internal/transport/dns/codec.go:146-175 | computes Extract on any records, foreign ones included |
| DnsFragments.PiecesCover | internal/transport/dns/codec.go:132-142 | (n - 1) * d < length <= n * d for n pieces of d bytes |
| DnsFragments.ReassemblesExactlyWhenComplete | internal/transport/dns/codec.go:146-175 | on any reordering with duplicates and omissions the result is the payload if and only if header and all fragments are there, else an error; the no-answer error exactly without the header |
| DnsFragments.WholeAnswer | internal/transport/dns/codec.go:125-175 | a complete answer gives the payload cut to its length modulo 65536 |
| DnsFragments.SurvivesExactlyWhenShort | internal/transport/dns/codec.go:130-131 | a payload that fits the records survives if and only if it is shorter than 65536 bytes, which widths up to 258 guarantee |
| DnsFragments.Layout | internal/transport/dns/codec.go:125-144 | byte by byte what is in the header and in each fragment |
| DnsFragments.WholeAnswerOnce | internal/transport/dns/codec.go:125-175 | the records as made give the payload, cut to its length modulo 65536 |
| Base32.DecodeEncode | internal/transport/dns/wire.go:42-43 | decoding the letters of any bytes gives the bytes back |
| Base32.EncodeAlphabet | internal/transport/dns/wire.go:42-43 | only A to Z and 2 to 7 come out |
| Base32.LetterTable | internal/transport/dns/wire.go:42-43 | the letter of each value: A to Z for 0 to 25, 2 to 7 for the rest |
| Base32.TestVector | internal/transport/dns/wire.go:42-43 | the first test vector of section 10 of RFC 4648, unpadded |
| DnsNames.EncodeName | internal/transport/dns/wire.go:48-62 | the lower-case letters with a dot after every 63 |
| DnsNames.NameRoundTrip | internal/transport/dns/wire.go:66-78 | decodeName of the name in any letter case gives exactly the bytes if and only if the domain with its dot is fully qualified |
| DnsNames.NameLabels | internal/transport/dns/wire.go:46-62 | every label of an encoded payload has 1 to 63 characters |
| DnsNames.EncodedNameLength | internal/transport/dns/wire.go:48-62 | the exact length of the encoded part, dots included |
| DnsNames.OthersAreRefused | internal/transport/dns/wire.go:66-78 | a name that is read is the domain or ends in a dot and the domain, in any case |
| DnsMessages.PutNonce | internal/transport/dns/wire.go:115-119 | writes the low 48 bits, highest byte first, and nothing else |
| DnsMessages.GetNonce | internal/transport/dns/wire.go:121-127 | reads six bytes, highest first |
| DnsMessages.Marshal | internal/transport/dns/wire.go:129-136 | the buffer built in place is the message |
| DnsMessages.QueryRoundTrip | internal/transport/dns/wire.go:129-154 | a marshalled query parses to itself with its nonce cut to 48 bits and its length rounded up to 8 and cut to 2040; it never asks for less if and only if it wanted at most 2040 |
| DnsMessages.QueryCanonical | internal/transport/dns/wire.go:138-154 | a message that parses is the one its query marshals to |
| DnsMessages.ResponseRoundTrip | internal/transport/dns/wire.go:175-204 | a marshalled response parses to itself with its nonce cut to 48 bits |
| DnsMessages.ResponseCanonical | internal/transport/dns/wire.go:187-204 | a message that parses is the one its response marshals to |
| DnsMessages.Layout | internal/transport/dns/wire.go:129-185 | where magic, nonce, count and data are in a query and in a response |
| DnsMessages.RefusalsOfQueries | internal/transport/dns/wire.go:138-154 | a query is refused as short below 18 bytes, for its first byte, or for its hash, each exactly then |
| DnsMessages.RefusalsOfResponses | internal/transport/dns/wire.go:187-204 | a response is refused as short below 19 bytes, for its first byte, or for its hash, each exactly then |
| DnsMessages.QueryNameFits | internal/transport/dns/prober.go:143-153 | a query of at most maxQueryData bytes makes a name of at most 253 characters if and only if the domain with its dot has at most 224; labels are at most 63 always |
| DnsMessages.NestedFloors | internal/transport/dns/prober.go:146-148 | the two rounded divisions leave room for base32's rounding and the dots |
| DnsMessages.ResponseNameFits | internal/transport/dns/codec.go:233-249 | a payload up to the codec's capacity makes a legal name under any legal domain |
| DnsMessages.EstimatesAreClose | internal/transport/dns/prober.go:143-153 | the estimates waste little: under every domain with room, five bytes more of a query, or six more of a response, do not fit |
| DnsMessages.QueryArrives | internal/transport/dns/wire.go:66-154 | a query sent as a name in any letter case is parsed as the query sent |

## Left out

- Sockets, TLS, HTTP upgrade, WebSocket framing, dialing, DNS library calls, logging: input and output.
- The swapper that installs tunnels: only its steps are modelled; two contracts of it are taken over. That tunnels are installed in the order they were built is a hypothesis (`inOrder`) of the two theorems on flow records, and `FlowMoves.OutOfOrderInstallMisplacesFlow` shows it is needed. That it reports an error for a swap only when the flow is not on that tunnel is a condition of the event that settles a move as stayed. The counter of swaps is unbounded.
- The first placement of a flow, which has no look after it, and what a follow-up move or a retirement's list then does with the flow.
- One writer per stream is assumed, as are callers that do not reuse a buffer a timed-out write may still send.
- Streams of a session exist from the start in `Integrity`; accepting and refusing them is not modelled.
- The window is not part of the model of bytes through the shaper: a Write may draw its next frame whenever its last has returned. A Write that waits for a window at the close gives up; that is one of its continuations.
- `WriteTo` with a failing sink, the version-1 stream protocol's timing, keepalive, buffer pools.
- Integrity.EofAfterReportedWrites: covers the bytes reported before the close, since a FIN can overtake a write still under way; module Closing says exactly when it covers the rest.
- The client's Restart, which forgets the gone flows, and flows without replay.
- The lock that keeps two restarts apart is not modelled beyond one restart at a time.
- A gauge of active setups, growth requests, proxy protocol, replay grants and promotion of plain flows.
- Setup.EndsExactlyOnce: how the pump itself closes a connection it was given is not modelled.
- Placement.BurstSpreads: weights are positive reals and fixed during the burst, the moment in which an open counts twice is one step, and a burst has no failing opens or ending streams.
- Spreading a striped flow's legs over providers (`selectLegs`), RTT probing, stall detection, capacity sampling.
- Closing all pending groups at a restart is an event of the runs (`DropAll`), not a method.
- The order in which a dropped group's legs are closed among other closes, FEC construction after a delivery, and holding a leg's window down meanwhile.
- The keyed hash is any function of key and message; nothing is claimed about its strength.
- Base32 is modelled on bits as section 6 of RFC 4648 has it; the library skips line breaks before decoding, which no name contains. Letter case is ASCII.
- A domain's own labels are taken as they are.
- The TXT and NULL record families, and the numeric fields of MX and SRV records, would only add easy members.
- Other transports (tcp, tcpmux, udp, ws), configuration, web interface, sniffer, speed tests.
