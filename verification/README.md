# A verified model of ws-mixer and its service controller

ws-mixer multiplexes byte streams over one WebSocket. `wsmixer/` holds the connection, its streams
and a client that reconnects; `mcpwarp/` puts a registration session, an HTTP/1.1 bridge and a
long-lived tunnel controller on top. This project models their state machines in Dafny 4.11 and
proves what they promise, over every interleaving of their steps. Nothing was executed.

`dafny verify dfyconfig.toml` checks all of it.

## How it is modelled

A goroutine's step is one critical section of a mutex or one operation on a channel. Each state
machine has

- functions from the state before a step to the state after, with the source's branches;
- a class with the source's fields, whose methods update them in place and are proved equal to those
  functions (loops included), wherever the source updates an object;
- a predicate for runs: any sequence of enabled steps, so clocks, random delays, the network, the
  peer and the application are simply steps that may come at any time;
- an invariant kept by every step, and the theorems read off it.

Fields marked as history are read by no step. Every wait may be abandoned at any moment.

| files | source |
|---|---|
| `Stream`, `Frames`, `Duplex`, `DuplexProofs`, `DuplexTheorems`, `DuplexOpening`, `DuplexWitnesses` | two endpoints of one stream over two FIFO wires |
| `Scheduler`, `SchedulerRun` | the writer loop's round-robin of DATA |
| `Reconnect`, `ReconnectDriver`, `ReconnectOwners`, `ReconnectReports`, `ReconnectFates`, `ReconnectBudgets`, `ReconnectRefreshes`, `ReconnectClosing`, `ReconnectSparing`, `ReconnectWaiting`, `ReconnectTheorems`, `ReconnectWitnesses`, `ReconnectClient` | the reconnecting client |
| `FlushQueue`, `TunnelQueues` | the re-entrant callback queues of session and tunnel |
| `Tunnel`, `TunnelProofs`, `TunnelRun`, `TunnelTheorems` | the tunnel controller and its agents |
| `Session`, `SessionProofs`, `SessionTimers`, `SessionRun`, `SessionTheorems`, `SessionPauses`, `SessionObject` | the registration session |
| `ByteStream`, `Chunked` | HTTP/1.1 parsing and section 7.1 of RFC 9112 |
| `ResponseWriter`, `ResponseTheorems`, `ResponseObject` | response framing |
| `Pings`, `DeliveryGate`, `DrainBoundary` | keepalive ids, the delivery gate, stream ids and drains |

## What the code does not give

Each of these is a theorem with the exact condition, and a run that shows it.

- A frame can reach the client ahead of its stream's OPEN, and the client fails the connection. It happens
  in exactly two ways. OpenStream registers the stream before it queues the OPEN
  (`wsmixer/streams.go:105-118`), so a drain that resets the stream in between can queue its RESET first.
  And the writer loop looks for control frames and for DATA in two moments (`wsmixer/sched.go:23-38`), so
  an OPEN and a chunk queued between the two let the DATA go first.
- `Client.Close` asks whether the connection is draining and then drains it
  (`wsmixer/client_reconnect.go:1020`, `1033`). A peer's drain in between turns its own into a no-op: then,
  and only then, the connection is never closed from this side, and Close waits for the peer to end it.
- Token-refresh redials are one per stability period (`wsmixer/client_reconnect.go:1399-1405`, `1679-1681`),
  unless the client is open and an attempt holds an unannounced claim when the stability timer resets the
  budget: then there can be two, and never otherwise.
- The lowest unacknowledged ping id need not be outstanding (`wsmixer/keepalive.go:47-54`): it is not
  exactly when the watchdog pruned it.
- A connection's disconnect report is made exactly once unless a fatal path detaches the connection or
  Close lands before goFatal's critical section (`wsmixer/client_reconnect.go:1812-1817`).
- A register that OVERLOADED dropped is abandoned when the service is disabled during the pause, or is
  disabled when the pause ends, and only then (`mcpwarp/session.go:392-396`, `598-620`): no timer sends it,
  the session takes it for a register in flight, and a later enable only queues behind it
  (`mcpwarp/session.go:546-554`).
- `disposeAsync` goes idle without closing the idle channel (`mcpwarp/tunnel.go:538-541`): a Configure
  waiting for its pump, with nothing up or closing, waits until its context ends.

The comments in `wsmixer/client_reconnect.go` (lines 867-921) say every live connection has exactly
one closer and those of Close (lines 1021-1030) that a draining connection is always closed directly;
the second point above is where the code differs, and the model follows the code.

## Model

| member | source | states |
|---|---|---|
| DuplexTheorems.CreditIsConserved | wsmixer/stream.go:225-251 | In every run and either direction, while the sender may send and the receiver has not closed: send window + credit reserved and queued + DATA on the wire + bytes buffered and not yet credited + WINDOW increments queued or in flight + credit leaked is the initial window |
| DuplexTheorems.FlowControlErrorIsUnreachable | wsmixer/stream.go:490-514 | Two endpoints running this code never reach either FLOW_CONTROL_ERROR, in any run |
| DuplexTheorems.CreditNeverStalls | wsmixer/stream.go:231-251 | A sender out of credit on a stream open both ways, with nothing leaked or in flight either way, means the receiving application has more than half a window unread |
| DuplexTheorems.ReadsArePrefixOfWrites | wsmixer/stream.go:187-303 | What was read is a prefix of what went on the wire, which is a prefix of what was enqueued, under every interleaving |
| DuplexTheorems.EofMeansEverythingWasRead | wsmixer/stream.go:187-229 | A reader that gets io.EOF has read every byte that ever went on the wire, among them every byte of every Write that returned nil |
| DuplexTheorems.NoDataAfterCloseOrReset | wsmixer/sched.go:92-118 | Although control frames overtake DATA, no DATA of a stream follows its CLOSE or RESET on the wire |
| DuplexTheorems.DataViolationsAreLocal | wsmixer/stream.go:477-499 | DATA is found to violate the stream if and only if this side itself has reset it, never because of how the peer ordered its frames |
| DuplexProofs.RunHolds | wsmixer/stream.go:187-303 | The invariant behind these theorems holds in every state of every run of two endpoints over two FIFO wires |
| DuplexOpening.ClientFailsIffSomethingGoesAhead | wsmixer/streams.go:105-118 | In every run from the allocation on, the client fails its connection over the stream's first frames if and only if, before it looked, a RESET was queued while the OPEN was not, or a chunk was found sendable in a turn of the writer loop that had found the control queue empty before the OPEN was queued |
| DuplexWitnesses.DataCanOvertakeItsOpen | wsmixer/sched.go:23-50 | A legal run in which DATA overtakes its own OPEN: control queue found empty, OPEN queued, chunk queued and marked ready, then nextChunk |
| DuplexWitnesses.ResetCanOvertakeItsOpen | wsmixer/drain.go:98-110 | A legal run in which a drain's RESET is queued before the OPEN and fails the client, with no chunk ever written |
| StreamCore.Stream.WriteAll | wsmixer/stream.go:260-303 | The write loop: chunks of 1 to 16 KiB in order, a prefix of the data at most one chunk ahead of what is confirmed; success exactly when everything is; where every unit of credit went |
| StreamCore.Stream.AwaitSendCredit | wsmixer/stream.go:305-362 | Waits only while there is no credit and takes at most one chunk's worth, in exchange for the same amount of window |
| StreamCore.Stream.ReserveSendCredit | wsmixer/stream.go:308-332 | The reservation's critical section does to the fields what the step of the two-endpoint model does |
| StreamCore.Stream.ReadBuffered | wsmixer/stream.go:224-226 | Bytes leave the buffer in order and nothing else changes |
| StreamCore.Stream.Credit | wsmixer/stream.go:234-247 | creditConsumed as the model's step: the window is credited back once half of it is unacknowledged and the stream is not closed |
| StreamCore.Stream.CloseSending | wsmixer/stream.go:368-393 | CloseWrite as the model's step, and whether a CLOSE is owed |
| StreamCore.Stream.Reset | wsmixer/stream.go:449-470 | Reset as the model's step, and whether a RESET is owed |
| StreamCore.Stream.OnData | wsmixer/stream.go:477-499 | handleData as the model's step, with both violations |
| StreamCore.Stream.OnWindow | wsmixer/stream.go:501-518 | handleWindow as the model's step, with the window overflow |
| StreamCore.Stream.OnClose | wsmixer/stream.go:520-541 | handleClose as the model's step |
| StreamCore.Stream.OnReset | wsmixer/stream.go:543-552 | handleReset as the model's step |
| StreamCore.Stream.StopReads | wsmixer/stream.go:413-420 | Close's last critical section as the model's step |
| Scheduler.NextChunkServesFirst | wsmixer/sched.go:92-118 | nextChunk serves the first stream of the rotation that may send, re-queues it behind the others if it has more, and answers nothing exactly when no stream in the rotation may send |
| Scheduler.DataSched.NextReady | wsmixer/sched.go:92-118 | The loop over the rotation, the ready map and the queues computes exactly that, completing closed streams' chunks with an error on the way |
| Scheduler.DataSched.MarkStreamReady | wsmixer/sched.go:69-90 | Marking keeps the rotation free of duplicates and equal to its set, and leaves a wake-up |
| SchedulerRun.RotationIsSound | wsmixer/sched.go:19-118 | In every concurrent run: no duplicates and set equal to rotation; a stream that may send and has a chunk is in the rotation, about to be marked, or in the writer loop's hands; a sleeping loop with work has a wake-up waiting or coming |
| SchedulerRun.NothingSendableIsForgotten | wsmixer/sched.go:19-90 | When the writer loop sleeps and no writer is about to wake it, no chunk that may be sent is queued anywhere |
| SchedulerRun.RoundRobin | wsmixer/sched.go:92-118 | Between two turns of one stream, every stream that stayed ready with a chunk has a chunk of its own written |
| ReconnectTheorems.OneReconnectDriver | wsmixer/client_reconnect.go:1505-1565 | In every run: never two goroutines drive a reconnect; while open and started, exactly one does when there is no connection or a drain is scheduled, and none otherwise; the drain flag is set exactly when the retiring connection is the current one |
| ReconnectTheorems.EveryConnectionHasAnOwner | wsmixer/client_reconnect.go:867-921 | Every live connection nobody has closed is current, or in the hands of a goroutine that will close it or hand it on, unless Close let a drain have it |
| ReconnectTheorems.ClosingIsFinal | wsmixer/client_reconnect.go:1166-1210 | Once closing is set no connection is published, only a goroutine in the wait group adds to it, and a wait group at zero stays at zero |
| ReconnectTheorems.OneReportPerConnection | wsmixer/client_reconnect.go:2022-2099 | A connection that was ever current is reported at most once, and exactly once when everybody dealing with its end is through, if and only if no fatal path detached it and goFatal did not lose the race to closing |
| ReconnectWitnesses.CloseCanSwallowAReport | wsmixer/client_reconnect.go:1812-1817 | A legal run in which Close lands before goFatal's critical section and the ended connection is never reported |
| ReconnectWitnesses.AFatalPathCanDetach | wsmixer/client_reconnect.go:1812-1831 | A legal run in which the replacement's fatal dial detaches the current connection, whose end is never reported |
| ReconnectTheorems.FatesMoveForward | wsmixer/client_reconnect.go:1617-1642 | Which step may report, supersede or drop a connection: a superseded one is reported by its retirer only, never by its watcher |
| ReconnectTheorems.SpendingIsBounded | wsmixer/client_reconnect.go:1664-1684 | Between two stability resets: at most MaxAttempts scheduled redials, at most one immediate 4013 retry, and at most one token-refresh redial besides one carried over the reset |
| ReconnectRefreshes.TwoRedialsIffClaimInFlight | wsmixer/client_reconnect.go:1399-1425 | After any stability reset, two refresh redials can go out before the next one if and only if the client was open and an attempt held an unannounced claim when it came |
| ReconnectWitnesses.TwoRefreshRedials | wsmixer/client_reconnect.go:1664-1684 | A legal run with two token-refresh redials in one stability period: the drained connection turns stable while its replacement's claim is in flight |
| ReconnectSparing.LeftOpenIffDrainLandsBetween | wsmixer/client_reconnect.go:1015-1035 | From Close's own drain on, for good, nobody on this side has closed its connection if and only if the peer's drain landed between the isDraining check and that drain; and while the connection lives, somebody in the wait group waits for it |
| ReconnectSparing.SparingHolds | wsmixer/client_reconnect.go:939-1035 | In every run: nobody but the closer closes the connection it found current, and a connection the closer skipped is closed by nobody |
| ReconnectWitnesses.CloseCanLeaveItsConnectionOpen | wsmixer/client_reconnect.go:1020-1052 | A legal run in which Close drains nothing and closes nothing, and waits for a watcher of an open connection |
| ReconnectWaiting.CloseWaitsOnlyForSkipped | wsmixer/client_reconnect.go:867-957 | In any run, once closing has run its course, every connection anybody closed has ended and no goroutine can move, the wait group is non-empty if and only if somebody watches a live connection Close skipped |
| ReconnectReports.ReportsHold | wsmixer/client_reconnect.go:1543-1583 | Each connection's fate is exactly what the goroutines dealing with it say, in every state of every run |
| ReconnectBudgets.BudgetsHold | wsmixer/client_reconnect.go:1763-1794 | Attempt counter and once-only budgets account for every redial since the last stability reset, in every run |
| ReconnectClient.ReconnectingClient.CloseStart | wsmixer/client_reconnect.go:939-956 | closeStart's critical section does what the model's step does, and hands out the connections to close |
| ReconnectClient.ReconnectingClient.Publish | wsmixer/client_reconnect.go:1506-1565 | onAttemptSucceeded's critical section as the model's step, with the drain race's loser |
| ReconnectClient.ReconnectingClient.TakeDown | wsmixer/client_reconnect.go:1813-1824 | The critical section every fatal path shares, as the model's step |
| ReconnectClient.ReconnectingClient.CountAttempt | wsmixer/client_reconnect.go:1753-1795 | reportAndSchedule's critical section as the model's step: scheduled, exhausted, or already closing |
| ReconnectClient.ReconnectingClient.NoticeEnd | wsmixer/client_reconnect.go:2022-2086 | watchConn's critical section as the model's step: silent, report only, fatal, or decide |
| ReconnectClient.ReconnectingClient.NoticeDrain | wsmixer/client_reconnect.go:1857-1923 | handleServerDrain's critical section as the model's step: stale, stray, disabled, repeated, or a new redial |
| ReconnectClient.ReconnectingClient.TryTrack | wsmixer/client_reconnect.go:1202-1210 | tryTrack allows a new goroutine exactly while the client is open |
| ReconnectClient.ReconnectingClient.ClaimRefreshBudget | wsmixer/client_reconnect.go:1399-1405 | The refresh budget's claim as the model's step |
| ReconnectClient.ReconnectingClient.ClaimImmediateRetry | wsmixer/client_reconnect.go:2111-2118 | The immediate retry's claim as the model's step |
| ReconnectClient.ReconnectingClient.Rearm | wsmixer/client_reconnect.go:1672-1683 | armStability's critical section as the model's step |
| FlushQueue.EachItemRunsOnceInOrder | mcpwarp/session.go:210-231 | Whatever calls and callbacks interleave or nest: one runner, each item once and in order, the flag set exactly while somebody runs, and nothing left when nobody does |
| FlushQueue.RunnerMakesProgress | mcpwarp/session.go:219-230 | The runner executes an item, takes the next batch, or stops with nothing queued |
| FlushQueue.CallbackQueue.UnlockAndFlush | mcpwarp/session.go:214-231 | The loop runs everything queued, and everything appended while it runs, first in first out |
| FlushQueue.CallbackQueue.RunBatch | mcpwarp/session.go:220-228 | One batch with the lock released, while others append |
| FlushQueue.DrainedInOrder | mcpwarp/session.go:214-231 | What a flush runs is what was pending and then the arrivals, in order, up to the first moment nothing is left |
| TunnelQueues.BothQueuesRunInOrder | mcpwarp/tunnel.go:199-247 | Work and user callbacks each run once and in order, one worker and one deliverer at a time, and nothing is left when neither is active |
| TunnelQueues.FlagsHaveTheirFrames | mcpwarp/tunnel.go:207-247 | A set flushing or delivering flag always has the frame that will clear it |
| TunnelTheorems.OneAgentAtATime | mcpwarp/tunnel.go:496-511 | Two agents are never open at once; an active one means nothing drains, and at most one drains |
| TunnelTheorems.StartedOnceBeforeClosing | mcpwarp/tunnel.go:582-627 | An agent is started at most once, and never after its close was asked for |
| TunnelTheorems.LastConfigWins | mcpwarp/tunnel.go:474-511 | With no apply pending the active config is the desired one; idle means it is up exactly when it can start; a pending apply always has its pump coming |
| TunnelTheorems.StaleEventsChangeNothing | mcpwarp/tunnel.go:631-636 | Events of any agent but the active one change nothing at all |
| TunnelTheorems.DisposeDoneClosedOnce | mcpwarp/tunnel.go:526-558 | The dispose channel is closed at most once, and closed once nothing is left to close |
| TunnelTheorems.LeftWaitingIffDisposedUnderConfigure | mcpwarp/tunnel.go:526-541 | A caller is left waiting for the idle channel for good if and only if Dispose comes while it waits with nothing up or closing |
| TunnelTheorems.ConfigureCanWaitForever | mcpwarp/tunnel.go:453-541 | A two-step run in which that happens: Configure, then Dispose before the pump |
| Tunnel.Controller.ConfigureAsync | mcpwarp/tunnel.go:453-469 | configureAsync on the fields as the model's step |
| Tunnel.Controller.PumpLocked | mcpwarp/tunnel.go:474-494 | pump on the fields as the model's step |
| Tunnel.Controller.MaybeStartLocked | mcpwarp/tunnel.go:496-511 | maybeStartLocked on the fields as the model's step |
| Tunnel.Controller.StartLocked | mcpwarp/tunnel.go:582-627 | startLocked on the fields as the model's step, an invalid config included |
| Tunnel.Controller.DetachLocked | mcpwarp/tunnel.go:563-580 | detachLocked on the fields as the model's step |
| Tunnel.Controller.CheckIdleLocked | mcpwarp/tunnel.go:440-451 | checkIdleLocked on the fields as the model's step |
| Tunnel.Controller.StopAsync | mcpwarp/tunnel.go:513-524 | stopAsync on the fields as the model's step |
| Tunnel.Controller.DisposeAsync | mcpwarp/tunnel.go:526-558 | disposeAsync on the fields as the model's step |
| Tunnel.Controller.OnDisposeTimeout | mcpwarp/tunnel.go:547-556 | The dispose timer's callback as the model's step |
| Tunnel.Controller.OnAgentClosed | mcpwarp/tunnel.go:573-578 | The continuation of an agent's close as the model's step |
| Tunnel.Controller.OnEvent | mcpwarp/tunnel.go:631-704 | onAgentEvent on the fields as the model's step |
| Tunnel.Controller.FailLocked | mcpwarp/tunnel.go:706-744 | failLocked and conflictedLocked on the fields as the model's step |
| SessionTheorems.OneRegisterInFlight | mcpwarp/session.go:542-564 | A register is queued only on the live connection of a session neither taken over nor ending, and after every earlier register on that connection the one in flight was settled by its answer or paused by OVERLOADED |
| SessionTheorems.TakeOverIsForGood | mcpwarp/session.go:660-668 | Once taken over, no register or unregister is ever queued again, no second conflict is reported, and the state stays conflict, closing or closed |
| SessionTheorems.TakeOverReportedOnce | mcpwarp/session.go:378-411 | Exactly one conflict event is queued if the session was taken over, and none otherwise |
| SessionTheorems.EndingIsFinal | mcpwarp/session.go:730-779 | Closing leads only to closed, and closed is terminal, in every run |
| SessionTheorems.ContinuationQueuedOnce | mcpwarp/session.go:704-760 | Every close's continuation is queued exactly once, or waits, alone, for the unregister to end |
| SessionTheorems.UnregisterWaitEnds | mcpwarp/session.go:706-779 | From any state in which a close waits for its unregister, in every run: its continuation has been queued by a later state if and only if one of these came in between: the budget, a failed send, an abort, markClosed, the connection's end, an unregistered, or an error that answers the unregister |
| SessionTheorems.StaleTimersChangeNothing | mcpwarp/session.go:517-620 | A timer that was stopped or replaced changes nothing when it fires |
| SessionTheorems.HeldDisableFollowsRegistered | mcpwarp/session.go:449-473 | A held disable follows its registered at once and decides the state; a register asked for meanwhile still goes out behind it |
| SessionPauses.RegisterAbandonedIff | mcpwarp/session.go:579-626 | In every run, a step abandons a register dropped by OVERLOADED if and only if it disables the service during the pause or ends the pause while the service is disabled |
| SessionPauses.AbandonedHoldsUp | mcpwarp/session.go:546-554 | While it is abandoned, no timer, enable, disable or unregistered queues a register or changes that |
| SessionPauses.ADisableCanLoseTheRegister | mcpwarp/session.go:392-396 | A legal run: registered, enabled again, OVERLOADED, disable during the pause; the enable after that only queues |
| SessionTheorems.RegisterRetryDelay | mcpwarp/session.go:566-576 | The doubling loop computes min(1000 * 2^n, 30000) for every n |
| SessionTheorems.RetryDelayDoubles | mcpwarp/session.go:566-576 | Each delay is twice the one before, up to the cap |
| SessionObject.SessionState.Welcomed | mcpwarp/session.go:265-284 | onWelcome on the fields as the model's step |
| SessionObject.SessionState.ConnEnded | mcpwarp/session.go:287-304 | onConnEnd on the fields as the model's step |
| SessionObject.SessionState.RegisteredLocked | mcpwarp/session.go:414-503 | onRegisteredLocked on the fields as the model's step |
| SessionObject.SessionState.ScheduleRegisterRetryLocked | mcpwarp/session.go:507-528 | scheduleRegisterRetryLocked on the fields as the model's step |
| SessionObject.SessionState.SettleLocked | mcpwarp/session.go:532-540 | settleLocked on the fields as the model's step |
| SessionObject.SessionState.RegisterLocked | mcpwarp/session.go:546-554 | registerLocked on the fields as the model's step |
| SessionObject.SessionState.FlushQueuedRegisterLocked | mcpwarp/session.go:556-564 | flushQueuedRegisterLocked on the fields as the model's step |
| SessionObject.SessionState.OverloadedLocked | mcpwarp/session.go:579-626 | The OVERLOADED branch on the fields as the model's step |
| SessionObject.SessionState.OtherErrorLocked | mcpwarp/session.go:630-652 | The branch for every other answering code as the model's step |
| SessionObject.SessionState.RetryTimerFired | mcpwarp/session.go:517-527 | The retry timer's callback as the model's step |
| SessionObject.SessionState.ResendTimerFired | mcpwarp/session.go:598-620 | The OVERLOADED pause's callback as the model's step |
| SessionObject.SessionState.TakeOverLocked | mcpwarp/session.go:660-668 | takeOverLocked on the fields as the model's step |
| SessionObject.SessionState.BeginCloseAsync | mcpwarp/session.go:730-760 | beginCloseAsync on the fields as the model's step |
| SessionObject.SessionState.ReleaseUnregLocked | mcpwarp/session.go:706-716 | releaseUnregLocked on the fields as the model's step |
| SessionObject.SessionState.MarkClosedNow | mcpwarp/session.go:773-779 | markClosed on the fields as the model's step |
| ByteStream.FoundInPrefix | mcpwarp/http1.go:74-90 | A search that skips what was already searched finds what a full search of the whole stream finds |
| ByteStream.ByteReader.Fill | mcpwarp/http1.go:50-69 | Reads until there is more or the stream ends, losing and reordering nothing |
| ByteStream.ByteReader.ReadHead | mcpwarp/http1.go:74-99 | The head up to the first blank line of the whole remaining stream if that ends within max bytes, 431 otherwise as soon as max bytes are there; however the stream is cut up |
| ByteStream.ByteReader.ReadLine | mcpwarp/http1.go:125-150 | The line up to the first CRLF of the whole remaining stream, with the too-long error independent of what is buffered |
| ByteStream.ByteReader.ReadExactly | mcpwarp/http1.go:108-121 | The next n bytes of the whole remaining stream, or the way it ended |
| ByteStream.ByteReader.Discard | mcpwarp/http1.go:152-162 | Everything up to the end is dropped |
| Chunked.ReadChunkedBody | mcpwarp/http1.go:377-424 | The decoder's loops compute the chunked body of the whole remaining stream; the running total never passes the cap |
| Chunked.ReadChunk | mcpwarp/http1.go:383-413 | One turn of the loop: size line, extensions ignored, int64 and cap checks, data and its CRLF |
| Chunked.ReadTrailers | mcpwarp/http1.go:415-423 | Trailer lines are read and dropped up to the empty one |
| Chunked.ReadRequestBody | mcpwarp/http1.go:355-375 | The body a head announces: none, exact length or chunked, never above max, with a clean end inside it reported as malformed |
| Chunked.HexRoundTrip | mcpwarp/bridge.go:548-550 | Parsing a formatted chunk size gives the size back |
| Chunked.DecodeEncode | mcpwarp/bridge.go:548-558 | Any non-empty writes within the cap decode to their concatenation, and what follows the last chunk is untouched |
| Chunked.OverCapIsRefused | mcpwarp/http1.go:398-400 | Writes that exceed the cap together are refused, never truncated |
| Chunked.ReadBack | mcpwarp/http1.go:379-424 | The same through the reader, for every way of cutting the encoded stream into pieces |
| ResponseTheorems.OneHeadOneEnd | mcpwarp/bridge.go:505-639 | For every handler on a working stream: one head, the body its framing allows, and one end: RESET exactly when a declared length was not reached, CLOSE otherwise; bodyless statuses and HEAD carry no body; statuses from 600 get the 500 reply |
| ResponseTheorems.AskedIsWritten | mcpwarp/bridge.go:516-559 | Where a body is allowed, the bytes accounted for are the handler's writes, in order |
| ResponseTheorems.ChunkedResponseReadsBack | mcpwarp/bridge.go:548-638 | A chunked response read by the decoder gives back exactly what the handler wrote |
| ResponseTheorems.NeverTwoEnds | mcpwarp/bridge.go:505-639 | Whatever fails and when: at most one head, no more body than declared, and at most one end |
| ResponseObject.StreamResponseWriter.WriteBytes | mcpwarp/bridge.go:516-559 | Write on the fields as the model's function, with what the handler is told |
| ResponseObject.StreamResponseWriter.SendHeadOnce | mcpwarp/bridge.go:572-615 | sendHead on the fields as the model's function |
| ResponseObject.StreamResponseWriter.WriteStatus | mcpwarp/bridge.go:505-514 | WriteHeader on the fields as the model's function |
| ResponseObject.StreamResponseWriter.FlushHead | mcpwarp/bridge.go:563-568 | Flush on the fields as the model's function |
| ResponseObject.StreamResponseWriter.FinishResponse | mcpwarp/bridge.go:618-639 | finish puts on the stream what the model's function says |
| Pings.WatermarkIsExact | wsmixer/dispatch.go:380-420 | After any sends, pongs and prunes the two counters and the sparse map judge a pong exactly as full sets of sent and settled ids do, and every outstanding id lies between the counters |
| Pings.SecondPongIsDuplicate | wsmixer/dispatch.go:391-405 | A second pong for an id is a duplicate, whatever happened in between |
| Pings.WatermarkStrandedIffPruned | wsmixer/keepalive.go:47-54 | After any sends, pongs and prunes, the low watermark is not outstanding if and only if a prune took it away while it was out |
| Pings.PruningStrandsTheWatermark | wsmixer/keepalive.go:47-54 | A run in which that happens: pruning does not advance the low watermark |
| Pings.PingTracker.HandlePong | wsmixer/dispatch.go:384-420 | handlePong with its advance loop as the model's step |
| Pings.PingTracker.SendPing | wsmixer/keepalive.go:18-22 | A ping's id allocation as the model's step |
| Pings.PingTracker.PruneStale | wsmixer/keepalive.go:47-54 | The watchdog's loop removes exactly the overdue ids |
| DeliveryGate.OwedIsDelivered | wsmixer/conn.go:449-498 | Events are delivered in arrival order, each once, only on a released connection; when the loop returns, a released one has delivered all that had arrived when it closed, a dropped one nothing |
| DeliveryGate.DecidedOnce | wsmixer/conn.go:537-570 | Released or dropped is decided once, whichever of release and close comes first |
| DeliveryGate.Delivery.ReleaseDelivery | wsmixer/conn.go:551-570 | releaseDelivery on the fields: the decision of the model's step, and the gate opened exactly then |
| DeliveryGate.Delivery.SettleAtGate | wsmixer/conn.go:457-467 | The loop at its gate after the close: the decision of the model's step, and whether the queue is still owed |
| DeliveryGate.Delivery.FlushAll | wsmixer/conn.go:489-498 | The flush, bounded by the capacity, delivers everything queued |
| DeliveryGate.Delivery.Enqueue | wsmixer/conn.go:524-532 | A full queue is an error, never a silent drop |
| DrainBoundary.ClientNeverFails | wsmixer/dispatch.go:117-133 | However OpenStream calls and Drain interleave, the client never fails the connection on either of its OPEN checks |
| DrainBoundary.OpensRespectTheBoundary | wsmixer/streams.go:24-49 | OPENs reach the wire in strictly increasing odd ids within the id space, and none, before or after a drain message, exceeds the last id it announces |
| DrainBoundary.BoundaryIsHighestAllocated | wsmixer/drain.go:51-66 | The announced last id is the highest allocated one, and is announced once |
| DrainBoundary.StreamOpener.AllocateStream | wsmixer/streams.go:24-49 | allocateStreamLocked on the fields as the model's step |
| DrainBoundary.StreamOpener.AnnounceDrain | wsmixer/drain.go:51-66 | Drain's first critical section as the model's step |
| DrainBoundary.RemoteOpens.HandleOpen | wsmixer/dispatch.go:117-134 | handleRemoteOpen's two fatal checks as the model's step |
| DrainBoundary.RemoteOpens.HandleDrain | wsmixer/dispatch.go:438-443 | The client's part of handleDrainMsg as the model's step |

## Left out

- WebSocket, TLS, HTTP, JSON and the dial: wires are FIFO queues, frames and messages are datatypes, and failures are steps. Parsing of control messages, envelopes and request heads is not modelled.
- Wall-clock time, jitter and metrics: timers are steps guarded by their generation, and may fire whenever they are armed.
- Stream limits, application delivery and connection teardown inside `Duplex`: one stream is modelled, other streams and stream 0 take turns at the writer loop unseen, and a frame that fails the connection stops the read loop there.
- Stream retirement: the resets and retirements the read loop does itself are separate tasks in `Duplex`, which allows more interleavings than the code.
- `streamIdle` in `wsmixer/stream.go` is never assigned and has no counterpart; `Client.state` is `closed` exactly when `closing` is set and is left out.
- A stream closed with a second chunk queued: the chunk is not put back in the rotation (`wsmixer/sched.go:108-112`), so completeness of the scheduler is stated for streams that may still send.
- Two readers of one stream: `creditConsumed` may set `eof` without waking the other reader (`wsmixer/stream.go:237-239`); the model has no notion of a reader that sleeps.
- StreamCore.Stream.WriteAll: the turns of its waits are given as a list, so window changes by other goroutines between its waits are those of `Duplex`, not of this method.
- Scheduler.DataSched.NextReady: runs with nobody else touching the queues; `SchedulerRun` has the interleavings.
- The client's own callback queue (`wsmixer/client_reconnect.go:732-778`): a plain FIFO run by one goroutine, of the same kind as `FlushQueue` without re-entrancy.
- ReconnectSparing.LeftOpenIffDrainLandsBetween: a drain that Close starts is counted as closing the connection at once, although it first waits for its streams.
- ReconnectTheorems.EveryConnectionHasAnOwner: says who closes a connection, not that the socket's close handshake ends.
- ReconnectTheorems.SpendingIsBounded: the delays between redials are arbitrary.
- Session replies are reduced to their first entry naming this service; urls, reasons and the handle's snapshot are not modelled.
- SessionPauses.AbandonedHoldsUp: says what cannot end an abandoned register, not that anything else comes; the session promises no progress there (`mcpwarp/session.go:392-396`, `546-554`).
- Tunnel listeners, log lines and status texts; the agent is a contract: the continuation of its close runs exactly once.
- TunnelTheorems.LastConfigWins: config equality is by content and a flag for sources that never compare equal; trimming of tokens and comparison of sources are not modelled.
- ByteStream: a read of the stream never returns data together with an error, as `wsmixer/stream.go:187-229` guarantees; an arbitrary io.Reader might.
- Chunked.ReadChunk: spaces around a chunk size are the ASCII ones; the source also trims Unicode spaces.
- ResponseObject.StreamResponseWriter.WriteBytes: how much of a failed stream write got through is not modelled; header names and values are not, apart from Content-Length.
- DrainBoundary: waiting for a stream slot, the client's stream limit and the resets a drain sends. A RESET that precedes its OPEN (`wsmixer/drain.go:99-110`) is not one of the OPEN checks it states; `DuplexOpening` has it.
- Connection.Run, handshakes, close codes, frame encoding, the request side of the bridge, targets and handlers: easy members or library code.
