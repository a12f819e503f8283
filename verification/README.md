# Kinz: a model of its networking core

Kinz is a TCP server and client framework written in Go. This project models the part
of it where a byte stream becomes ordered handler executions while connections start,
stop and drain concurrently, and proves what that part promises. `dafny verify
dfyconfig.toml` checks everything; the files depend only on each other.

| file | what it models |
|---|---|
| `Common.dfy` | runs of transition systems, and values and lemmas shared by the others |
| `Codec.dfy` | the TLV wire format and its streaming decoder (an object with a buffer) |
| `Reader.dfy` | the read loop: what is dispatched, depending on how the stream was cut into reads |
| `WorkerPool.dfy` | sharded queues, workers, senders, and the stop that drains them, as a transition system |
| `Lifecycle.dfy` | one connection: Start, any number of Stop calls, reader, writer, the one-time stop body |
| `HandlerStop.dfy` | one connection and the worker pool together: readers that block, handlers that call Stop |
| `MutualStop.dfy` | any number of connections whose handlers stop each other |
| `Pipeline.dfy` | write queue, writer, network, decoder and worker pool together |
| `StopOrder.dfy` | what stopping the pool does to the order of handlers |
| `Middleware.dfy` | the re-entrant handler chain, with handlers as arbitrary programs |
| `Routing.dfy` | registration of routes and middleware, and `Execute` |
| `Server.dfy` | accept loop, counters, `ClearConn` and `Shutdown` |
| `ShutdownDrain.dfy` | `Shutdown` together with the readers and the worker pool |
| `ConnManager.dfy` | the connection registry as an object |
| `Client.dfy` | backoff and the reconnect loop |
| `Heartbeat.dfy` | liveness checking and its timing |
| `RingBuffer.dfy` | the log ring buffer and the lines read from it |

Concurrent parts are transition systems: a label names one atomic action of one
goroutine, `Enabled` says when it can happen, `Step` what it does, and `After` runs a
sequence of labels. A theorem about all label sequences is a theorem about every
interleaving. Atomics, mutexes, channels, `sync.Once` and `WaitGroup` act as single
steps with their documented meaning. Sockets, timers, user hooks and the random source
are steps or parameters that may behave in any way. Objects whose methods update fields
(codec, request, registry, heartbeat checker, ring buffer) are classes whose methods are
proved against functions of the old state.

## Main results

- End to end, in every interleaving in which the pool is not stopped and for every
  incremental codec (TLV in either byte order being one), handlers begin for the messages
  `SendMsg` was called with, in that order, with the ids and payloads given to it. Whether or not it is
  stopped, the same holds of the handlers begun on a worker, no message begins twice and
  nothing is lost on the way. Once a pool is stopped, requests run in goroutines of their
  own; the exact condition for the order to be kept in every continuation, whatever is
  read or sent from then on, is given for codecs that can get two more messages across (TLV
  can, as long as everything sent was within the limit).
- The decoder is the unique splitting of a stream into frames and a leftover, and how the
  stream is cut into reads is invisible to it. Dispatch by the reader is independent of
  the cutting into reads of at most 4096 bytes exactly when decoding succeeds or fails
  before the first frame.
- The worker pool keeps each connection's requests in order with at most one in flight; a
  drain terminates, and a stop is sure to execute everything exactly once if and only if no
  sender is between its test and its enqueue at the cancel (if channels serve parked senders
  first, as Go's runtime has it: if and only if all such senders are parked in their send).
- No interleaving of `Start` with stoppers leaks a heartbeat or runs the stop body twice. As
  long as the stop hook has not fired, the start hook is sure to come first exactly when it
  has already fired, or when the connection was closed before `Start` was called.
- With blocking enqueues and handlers that may call `Stop` themselves, every `Stop` returns
  unless the reader waits for a full queue whose worker is gone or is itself inside `Stop`
  on that connection; that is a deadlock for good. Unless the pool was stopped, a connection
  is safe from it exactly when its reader has nothing to hand over and can get nothing more;
  beside a stopped pool, exactly when its reader is not waiting to enqueue or fewer requests
  can get in its way than the queue has places.
- With any number of connections and handlers that stop each other's, goroutines left to
  themselves come to rest, and the connections somebody still waits for then are a knot,
  from which no `Stop` ever returns.
- Handler chains of any content are entered in order, each handler once, well nested, and
  follow the schedule that Next and Abort prescribe. The registry means what was intended
  exactly when every `Use` on a group goes through the first handle of its range.
- Server accounting and the connection limit; a `Shutdown` that returned nil has stopped
  acceptance exactly when the listener was published before it was called, and then at most
  one connection was added since its snapshot. It executes everything dispatched, all of it
  in the pool, exactly when, while `ClearConn` waits, nobody outside its snapshot can still
  dispatch. Its nil result is sure to mean that the workers are gone exactly when its
  context cannot expire.
- The client can reconnect by itself exactly as long as a connection is live, a token is
  waiting, or the reconnect loop is at work.

## Where the code and its own words differ

The model follows the code.

- The comment in `run` says that a failed dial is retried with a longer backoff
  (knet/client.go:253). Nothing signals `connGone` after a failed or refused dial. It is
  retried exactly when another connection or token happens to be left
  (`Client.FailureIsRetriedIff`), in a first session never (`Client.FailedRedialIsFinal`).
- The worker pool is described as never dropping messages. A sender that tested "active"
  before the stop can enqueue after its worker has exited: `WorkerPool.LateSenderIsStranded`,
  with the exact conditions in `WorkerPool.NothingLostIff` and `NothingLostPromptlyIff`.
- `Stop` is documented as safe from any goroutine. Called by a handler on the connection's
  own worker it can wait for ever (`HandlerStop.HandlerStopCanBlock`), and so can any `Stop`
  after the pool was stopped (`HandlerStop.StoppedPoolCanBlock`). The exact condition, for
  every reachable state, is `HandlerStop.NeverBlockedIff`. Two handlers that stop each
  other's connections can do the same to each other (`MutualStop.MutualStopsCanKnot`).
- Per-connection order is documented as preserved. A stop of the pool can break it
  (`StopOrder.TlvStopCanReorder`); the exact condition, over all continuations, is
  `StopOrder.OrderIsSureIff`, and `StopOrder.TlvOrderIsSureIff` for TLV.
- `Shutdown` is documented as draining. A connection that left the registry before, because
  its writer failed, is not waited for (`ShutdownDrain.WriterFailureIsMissed`); the exact
  condition for everything to be executed is `ShutdownDrain.ShutdownExecutesAllIff`. It
  returns nil even when its context expired before the workers were done
  (`ShutdownDrain.NilMeansDoneIff`).
- Nothing makes the start hook precede the stop hook: `Lifecycle.HookOrderIff` gives the
  exact condition, `Lifecycle.HooksCanSwap` a run from every state in which it fails.
- `Use` on a group handle is documented as scoped to that group. It extends the first
  group with the same range: `Routing.SharedRangeReorders`, with the exact conditions in
  `Routing.GroupUseKeepsOrderIff` (one call) and `Routing.MeansIntendedIff` (all calls).
- `Shutdown` is documented as stopping acceptance. Called before the listener is published
  it closes nothing and returns nil: `Server.EarlyShutdownStopsNothing`, with the exact
  condition in `Server.ShutdownStopsAcceptingIff`.
- `Lines` is documented as returning non-empty lines; it keeps empty lines and drops only the
  empty part a final newline leaves: `RingBuffer.BlankLineIsReturned`, with the exact
  condition in `RingBuffer.LastLinesNonEmptyIff`. A negative count panics.
- `Clone` of a heartbeat checker is documented as copying the configuration; the metrics
  are not copied, so clones never count missed heartbeats.
- `Pack` trusts the message's length field and ignores the size limit
  (`Codec.PackRoundTripIff` gives the exact condition for a round trip).

## Model

| member | source | states |
|---|---|---|
| Codec.ByteOrders | knet/datapack.go:48-49 | which byte goes where: for a + 256 b + 65536 c + 16777216 d little-endian is a, b, c, d and big-endian d, c, b, a, written and read |
| Codec.FrameLayout | knet/datapack.go:71-83 | a packed message is four bytes of its length, four bytes of its id, its payload, and nothing else |
| Codec.Uint32RoundTrip | knet/datapack.go:73-78 | reading a 32-bit integer back in the byte order it was written gives the integer |
| Codec.PutUint32RoundTrip | knet/datapack.go:48-49 | writing back the integer read from four bytes gives those bytes |
| Codec.ParseIsLossless | knet/datapack.go:41-68 | for any input, decoded messages re-packed plus the leftover are the input; every message has an exact length, a legal size and its 8 header bytes; the leftover holds no further frame; an error means exactly an oversized header in front of it |
| Codec.ParseIsUnique | knet/datapack.go:41-83 | decoding any frames followed by any tail without a takeable frame returns exactly those frames and buffers that tail |
| Codec.PackRoundTripIff | knet/datapack.go:71-83 | a packed message comes back alone and whole if and only if its length field equals its payload length and is within the limit |
| Codec.NewMessageRoundTripIff | knet/message.go:13-15 | what NewMessage makes of an id and a payload arrives alone, with that id and that payload, if and only if the payload is shorter than 2^32 bytes and within the limit |
| Codec.LimitIsInclusive | knet/datapack.go:50-53 | a payload of exactly the limit arrives, one byte more gives the error and no message |
| Codec.ParseAppend | knet/datapack.go:42-68 | decoding a prefix and then feeding the rest to its leftover is decoding the whole, errors included |
| Codec.TlvIsIncremental | knet/datapack.go:41-68 | the TLV decoder obeys the append and split laws that the reader and the pipeline rely on |
| Codec.ChunkingIsInvisible | knet/datapack.go:41-68 | for every cutting into chunks, all messages of all calls and the final buffer equal those of one call on the whole stream, even with an oversized header |
| Codec.ErrorIsForever | knet/datapack.go:50-53 | after the first failing call every later call returns no messages and the error |
| Codec.TLVPack.constructor | knet/datapack.go:25-27 | little-endian, 4096 byte limit, nothing buffered |
| Codec.TLVPack.WithOrder | knet/datapack.go:31-36 | the given order, or little-endian without one, and the given limit, nothing buffered |
| Codec.TLVPack.Decode | knet/datapack.go:41-68 | the framing loop returns messages, buffer and error of the one-shot specification on old buffer plus input |
| Codec.TLVPack.Clone | knet/datapack.go:87-89 | a fresh codec with the same configuration and an empty buffer |
| Reader.ReadLoop | knet/connection.go:118-138 | the read loop dispatches what the specification prescribes for the chunks read |
| Reader.Dispatch | knet/connection.go:132-137 | messages of one read are handed on one by one in order |
| Reader.DispatchStopsBeforeFailingRead | knet/connection.go:127-138 | exactly the frames completed by the reads before the first failing one are dispatched, none from the failing read |
| Reader.DispatchIsPrefix | knet/connection.go:118-138 | whatever the cutting, what is dispatched is a prefix of what the stream decodes to |
| Reader.ChunkIndependentIff | knet/connection.go:115-138 | for every incremental codec and every size of the read buffer, dispatch is the same for all ways of receiving a stream if and only if it decodes without error or nothing is decoded within a buffer's length before the byte that gives the error |
| Reader.TlvChunkIndependentIff | knet/connection.go:118-138 | for TLV and reads of 1 to 4096 bytes: if and only if the stream decodes without error or fails before its first frame |
| WorkerPool.PerConnectionOrder | knet/msgHandler.go:133-180 | in every reachable state and for every connection, executed ++ in flight ++ queued ++ held by its sender = submitted, at most one in flight, every queue within capacity, on the try-then-block path too |
| WorkerPool.OneWorkerPerConnection | knet/msgHandler.go:167-168 | two workers never hold requests of the same connection |
| WorkerPool.ShardSpreads | knet/msgHandler.go:167-167 | connections below the pool size get workers of their own |
| WorkerPool.ShardRepeats | knet/msgHandler.go:167-167 | connections a pool size apart share their worker |
| WorkerPool.SenderMakesProgress | knet/msgHandler.go:169-179 | a sender that saw the pool active can enqueue, or its worker can act, as long as that worker lives |
| WorkerPool.CancelIsQuiet | knet/msgHandler.go:113-121 | cancelling with no sender between test and enqueue starts a drain into which nothing can slip |
| WorkerPool.DrainedMeansExecuted | knet/msgHandler.go:133-151 | after such a drain all queues are empty and every submitted request was executed exactly once, in order per connection |
| WorkerPool.WorkerStepDecreases | knet/msgHandler.go:135-150 | every worker action, whichever select branch, lowers the measure of queued requests and live workers |
| WorkerPool.DrainMakesProgress | knet/msgHandler.go:139-149 | while a worker is alive after the cancel, some worker can act |
| WorkerPool.DrainTerminatesComplete | knet/msgHandler.go:113-151 | a drain takes at most measure-many actions and when none is left all workers exited, queues are empty, everything was executed exactly once |
| WorkerPool.StrandedIff | knet/msgHandler.go:156-180 | with all workers gone, everything submitted was executed if and only if nothing was enqueued late and no sender still holds a request |
| WorkerPool.NothingLostIff | knet/msgHandler.go:113-131 | at the moment of the cancel, for channels as the language specifies them: every run that ends with all workers gone has executed everything submitted if and only if no sender is between its test for active and its enqueue |
| WorkerPool.NothingLostPromptlyIff | knet/msgHandler.go:141-148 | the same for runs in which no worker ends its drain while a sender is parked on its queue, as Go's runtime has it: if and only if every such sender is parked in its send |
| WorkerPool.ForwardStepDecreases | knet/msgHandler.go:133-180 | whatever senders and workers do with what was submitted lowers a measure |
| WorkerPool.StepKeepsWorkerBegins | knet/msgHandler.go:136-144 | handlers begin on workers in the order in which they are executed there |
| WorkerPool.StepKeepsDirectBegins | knet/msgHandler.go:163-166 | what was dispatched directly has begun, once, or is ready to |
| WorkerPool.LateSenderIsStranded | knet/msgHandler.go:157-179 | for every pool and every request, a run after which the request is not executed in any continuation |
| WorkerPool.StoppedPoolNeverRestarts | knet/msgHandler.go:97-99 | a stopped pool is never active again; all requests that come later, and only those, run in goroutines of their own |
| WorkerPool.ActivePoolRunsNothingDirectly | knet/msgHandler.go:163-166 | while a started pool stays active nothing is executed outside its queues |
| Lifecycle.NoHeartbeatLeaks | knet/connection.go:90-104 | for every interleaving of Start with stoppers, once Start is past its heartbeat block and the stop body is over, the clone is not beating and c.hb is nil |
| Lifecycle.HeartbeatRuns | knet/connection.go:90-104 | when Start was called with a heartbeat template, then in every continuation, past its heartbeat block and as long as the connection is not closed, the clone is beating and c.hb refers to it |
| Lifecycle.UntouchedWithoutTemplate | knet/connection.go:90-90 | without a template there is never a heartbeat |
| Lifecycle.PhaseMovesForward | knet/connection.go:87-89 | the state never goes back between any two points of any run |
| Lifecycle.StopIsIdempotentAndThorough | knet/connection.go:163-193 | the stop body runs at most once, the WaitGroup stays in 0..2, a returned Stop has seen the body through and, if it found the goroutines launched, both are gone |
| Lifecycle.HooksFireOnce | knet/connection.go:108-166 | each hook fires exactly once when reached |
| Lifecycle.HookOrderIff | knet/connection.go:86-108 | as long as the stop hook has not fired: in all continuations the start hook comes first if and only if it has already fired, or the connection was closed before Start was called |
| Lifecycle.HooksCanSwap | knet/connection.go:105-108 | from every state with Start under way and the stop hook not fired, a run in which the stop hook fires first |
| Lifecycle.NoDeadlock | knet/connection.go:184-193 | as long as a Stop caller has not returned, some goroutine can take a step that is not an enqueue, unless the reader is in the middle of one |
| Lifecycle.InternalStepDecreases | knet/connection.go:111-193 | every internal step lowers a measure |
| Lifecycle.StopReturns | knet/connection.go:184-193 | from any reachable state internal steps end within the measure; when none but an enqueue is left, every Stop has returned or the reader is in the middle of one |
| HandlerStop.BlockedForEver | knet/msgHandler.go:167-180 | a reader waiting for a full queue whose worker has left or is inside Stop on this connection stays blocked in every continuation, and no pending Stop ever returns |
| HandlerStop.Progress | knet/connection.go:132-193 | unless the reader is blocked, some goroutine can step as long as a Stop caller waits |
| HandlerStop.InternalStepDecreases | knet/msgHandler.go:133-180 | every internal step of connection and pool lowers a common measure |
| HandlerStop.StopReturnsUnlessBlocked | knet/connection.go:184-193 | without taking the enqueue for granted: internal steps end within the measure, and then every Stop has returned or the reader is blocked |
| HandlerStop.NeverBlockedIff | knet/connection.go:118-193 | for every reachable state and every pool with workers: no continuation blocks the reader if and only if, unless the pool was stopped, the reader has nothing to hand over and can get nothing more; once it was stopped, the reader is not waiting to enqueue or the requests that can get in its way are fewer than the queue has places |
| HandlerStop.LoadStep | knet/msgHandler.go:133-180 | beside a stopped pool the requests that can get in a sender's way never grow in number |
| HandlerStop.CanGetBlocked | knet/msgHandler.go:167-180 | from every state of a running pool in which the reader has something to hand over, a run that blocks it |
| HandlerStop.HandlerStopCanBlock | knet/connection.go:188-193 | for every pool, a run in which a handler's Stop deadlocks |
| HandlerStop.StoppedPoolCanBlock | knet/msgHandler.go:113-151 | for every pool, a run in which stopping it blocks a reader for good with no handler inside Stop |
| MutualStop.StopsReturnUnlessKnotted | knet/connection.go:184-193 | for any number of connections, any handlers or other goroutines inside Stop on any of them: internal steps end within a measure, and then the connections somebody still waits for form a knot |
| MutualStop.KnotIsForEver | knet/msgHandler.go:167-180 | readers waiting for full queues whose workers have left or are inside Stop on one of them stay so in every continuation, and no Stop on any of them returns |
| MutualStop.InternalStepDecreases | knet/msgHandler.go:133-180 | every internal step of all connections and the pool lowers a common measure |
| MutualStop.TwoKnotEachOther | knet/connection.go:188-193 | two jammed readers whose handlers each stop the other's connection are a knot |
| MutualStop.MutualStopsCanKnot | knet/connection.go:132-137 | that is reached, for every pool and any two connections on different workers |
| Pipeline.NetStepConserves | knet/connection.go:141-159 | bytes read, on the wire, being written and queued are always the packed messages accepted by SendMsg |
| Pipeline.StepKeepsDecoding | knet/connection.go:118-131 | the reader's messages and buffer are always those of one Decode of all bytes consumed |
| Pipeline.StepKeepsDispatchOrder | knet/connection.go:132-137 | requests submitted, run directly after a stop, and still in the reader are always the decoded messages in order |
| Pipeline.AllAccounted | knet/msgHandler.go:156-180 | every decoded message has begun, waits for its worker, is ready in a goroutine of its own, or is with the reader, exactly one of these |
| Pipeline.SentIsCalled | knet/connection.go:209-220 | what is recorded as sent are the ids and payloads SendMsg was called with, in call order |
| Pipeline.MessagesArriveInOrder | knet/connection.go:209-240 | for every incremental codec that delivers what was sent: in every run without a stop of the pool, the handlers begun for a connection are, in order, those of the first calls of SendMsg, with the ids and payloads given to it; in every run at all that holds of those begun on a worker, every handler begun is that of a call and of no other's, and no decode error occurs |
| Pipeline.NothingIsLost | knet/connection.go:118-159 | when everything between SendMsg and the beginning of handlers is empty, as many have begun as SendMsg was called, one for each call, pool stopped or not |
| Pipeline.TlvDelivers | knet/datapack.go:41-83 | the TLV codec delivers every sequence of messages with honest lengths within the limit |
| Pipeline.TlvMessagesArriveInOrder | knet/msgHandler.go:133-180 | the end-to-end theorem for TLV in either byte order, for payloads shorter than 2^32 bytes and within the receiver's limit |
| StopOrder.OrderIsSureIff | knet/msgHandler.go:156-180 | for every reachable state of a connection beside a started pool, and every incremental codec that can get two more messages across if reader and writer are up: in all continuations handlers begin in the order of the messages if and only if they have so far and no request can be overtaken, by one in a goroutine of its own or one that is still to be handed on or read and that a stop can send there |
| StopOrder.TlvOrderIsSureIff | knet/msgHandler.go:156-180 | the same for TLV, when everything sent was within the receiver's limit |
| StopOrder.ReadKeepsDue | knet/connection.go:118-138 | with the writer down, reading on only takes what was obtainable from the wire into the reader's hands |
| StopOrder.OrderStays | knet/msgHandler.go:163-180 | the sufficient half, over all continuations and for every incremental codec |
| StopOrder.StopCanReorder | knet/msgHandler.go:163-166 | for every started pool and any two small messages, a run in which a stop makes the second begin first |
| StopOrder.TlvStopCanReorder | knet/msgHandler.go:163-166 | the TLV codec provides such messages, whatever the limit |
| Middleware.Request.constructor | knet/request.go:19-21 | a fresh request has no handlers and the given message |
| Middleware.Request.BindRouterSlices | knet/request.go:39-43 | binds the chain and resets cursor and abort flag, keeping the message |
| Middleware.Request.RouterSlicesNext | knet/request.go:46-56 | the re-entrant step does to cursor, message and trace what the chain semantics says |
| Middleware.Request.Call | knet/request.go:53-55 | running a handler's program, nested calls included, agrees with the semantics and terminates |
| Middleware.Request.Abort | knet/request.go:60-60 | sets the abort flag only |
| Middleware.Request.SetMessage | knet/request.go:36-36 | replaces the message only |
| Middleware.NextEntersInOrder | knet/request.go:50-55 | handlers are entered in chain order, each once |
| Middleware.NextFollowsSchedule | knet/request.go:46-56 | a handler starts exactly when a Next call is made with handlers left and no abort, and everyone sees the current message |
| Middleware.NextIsNested | knet/request.go:46-56 | the enter/exit trace is well nested and every event belongs to the innermost open handler |
| Middleware.NextIsDisciplined | knet/request.go:47-60 | nothing is entered after Abort, and after a panic there is unwinding only |
| Middleware.NextIsFollowed | knet/request.go:46-56 | every entered handler does what its program says, step by step, up to its end or to a panic, its own or one that comes back from Next |
| Middleware.NextCompletes | knet/request.go:46-56 | without a panic every entered handler runs its whole program |
| Middleware.ChainDiscipline | knet/msgHandler.go:218-222 | all of these for a whole chain of any handlers, as Execute starts it |
| Routing.MsgHandler.AddSlices | knet/msgHandler.go:53-61 | registers unless the id is taken, and reports which |
| Routing.MsgHandler.NewGroupHandle | knet/msgHandler.go:72-80 | appends a group unless the range is empty |
| Routing.MsgHandler.UseGlobal | knet/msgHandler.go:83-91 | appends global middleware |
| Routing.MsgHandler.UseOnGroup | knet/routerSlices.go:53-63 | the search loop extends the first group with the handle's range and no other |
| Routing.MsgHandler.AddHandlerInGroup | knet/routerSlices.go:67-72 | registers only ids inside the group's range |
| Routing.MsgHandler.CollectGroups | knet/msgHandler.go:206-211 | collects handlers of all covering groups in registration order |
| Routing.MsgHandler.Execute | knet/msgHandler.go:185-222 | runs the chain global ++ groups ++ route of the id on arrival, whatever SetMessage does later, and counts a panic exactly when one occurred and metrics are attached |
| Routing.ChainReadsOffCalls | knet/msgHandler.go:202-219 | the chain of an id, read off the calls: everything passed to Use, then what each group whose range covers the id holds, in the order of the Group calls, then the handlers of the first call that registered the id |
| Routing.GroupsHoldWhatWasPassed | knet/routerSlices.go:53-63 | a group holds what its Group call passed and, if it is the first of its range, everything passed to Use on any handle of that range |
| Routing.RouteIsFirstRegistered | knet/routerSlices.go:67-72 | an id has route handlers exactly if some call registered it, alone or through a group that covers it, and they are those of the first such call |
| Routing.GroupRegistrationStays | knet/routerSlices.go:67-72 | a first registration through a covering group stays, whatever follows |
| Routing.GlobalIsWhatWasUsed | knet/msgHandler.go:83-91 | global middleware is everything passed to Use, in call order |
| Routing.HandleOwnsItsList | knet/msgHandler.go:72-80 | the intended table, read off the calls: a group holds what its Group call passed and then everything passed to Use on its handle |
| Routing.DistinctRangesMeanIntended | knet/routerSlices.go:53-63 | when all ranges differ, the registry equals the intended one after any registrations |
| Routing.ChainsHoldIntendedHandlers | knet/routerSlices.go:53-63 | always, every id's chain has the intended handlers as a multiset |
| Routing.GroupUseKeepsOrderIff | knet/routerSlices.go:53-63 | Use on a handle keeps the intended order for an id if and only if the added handlers commute with what lies between the first group of that range and the handle's own |
| Routing.MeansIntendedIff | knet/routerSlices.go:53-63 | for every sequence of registrations, the registry equals the intended one if and only if every Use that passes a handler is on the first handle of its range |
| Routing.LaterGroupIsFrozen | knet/routerSlices.go:53-63 | a group that is not the first of its range never grows |
| Routing.SharedRangeReorders | knet/routerSlices.go:53-63 | two groups on one range for which the order differs |
| Routing.FirstRegistrationWins | knet/msgHandler.go:56-60 | the first registration of an id stays, whatever follows |
| Routing.RoutesAreStable | knet/msgHandler.go:53-61 | route handlers of an id never change once registered |
| Server.StepKeepsLimit | knet/connmanager.go:26-34 | no step takes the registry above a positive limit |
| Server.EntriesAreOwn | knet/connmanager.go:26-41 | registering finds no entry under its id, and Add and Remove leave all other entries alone |
| Server.AccountingHolds | knet/server.go:223-262 | in every run accepted = total + rejected between iterations, active = total - closed = registered when nothing is under way, registered within the limit |
| Server.CountersCount | knet/server.go:239-262 | between iterations accepted, total and rejected are the numbers of accepted, added and refused connections of the run |
| Server.ShutdownLeavesAtMostOne | knet/server.go:168-200 | a Shutdown that found the listener and returned nil has closed it and stopped its snapshot and everything added before; at most one connection was ever added since, and nothing else is still registered |
| Server.ClosedListenerAcceptsNothing | knet/server.go:223-232 | once the listener is closed nothing is accepted, so that one connection had been accepted before |
| Server.ShutdownStopsAcceptingIff | knet/server.go:168-200 | for every limit and run: after a Shutdown that returned nil the listener is closed and no continuation accepts a connection, if and only if the listener was published when Shutdown was called |
| Server.OneCanRemain | knet/server.go:223-249 | for every limit, a run in which one connection does remain |
| Server.EarlyShutdownStopsNothing | knet/server.go:175-182 | for every limit: called before the listener is published, Shutdown returns nil, any number of connections are accepted afterwards and as many stay registered as the limit admits |
| ShutdownDrain.ShutdownExecutesAllIff | knet/server.go:180-199 | at any moment while ClearConn waits: every continuation that ends with all workers gone has executed everything submitted and run nothing outside the pool if and only if the listener is closed, nothing accepted is still to be added, and everybody who can still dispatch is in the snapshot |
| ShutdownDrain.SnapshotDecides | knet/connmanager.go:79-86 | the same at the moment of the snapshot: if and only if by then the listener is closed, nothing accepted is still to be added, and everybody who can still dispatch is registered |
| ShutdownDrain.RegisteredUntilRemoved | knet/connmanager.go:26-41 | registered is whoever was added, until it is removed or a ClearConn takes everybody out |
| ShutdownDrain.NilMeansDoneIff | knet/msgHandler.go:122-130 | from the call of StopWorkerPool on, nil is sure to mean that all workers are gone if and only if the context cannot expire |
| ShutdownDrain.LifecycleStepIsALabel | knet/connection.go:111-182 | every step of a connection in Lifecycle is a label of this model or leaves it as it is |
| ShutdownDrain.ReturnedStopIsOver | knet/connection.go:188-193 | whenever a Stop returns in Lifecycle, this model lets it return |
| ShutdownDrain.ContainedRun | knet/connmanager.go:79-90 | the sufficient half: whom ClearConn waits for cannot dispatch any more when the pool is stopped |
| ShutdownDrain.StrayLoses | knet/server.go:187-198 | from every state with a connection outside the snapshot that can still dispatch, a run in which its request is never executed |
| ShutdownDrain.WriterFailureIsMissed | knet/connection.go:147-150 | a connection whose writer has failed is such a one, with the listener closed and nothing being added |
| ConnManager.Manager.Add | knet/connmanager.go:26-34 | fails exactly at a positive limit, changing nothing; otherwise Get finds the connection under its id and everything else as before |
| ConnManager.Manager.Remove | knet/connmanager.go:37-51 | afterwards Get does not find the connection and finds everything else as before |
| ConnManager.Connection.Stop | knet/connection.go:163-182 | the stop body runs once and takes out the connection's own entry only |
| ConnManager.Manager.Snapshot | knet/connmanager.go:81-84 | the snapshot loop lists every entry exactly once |
| ConnManager.Manager.Range | knet/connmanager.go:63-75 | visits entries at most once, all of them unless the callback stopped, and none after the one that stopped it |
| ConnManager.Manager.ClearConn | knet/connmanager.go:79-90 | runs the stop body of every entry that was still open exactly once and leaves alone what was added in between |
| Client.BackoffValue | knet/client.go:37-46 | the early-exit loop computes min(initial * multiplier^attempt, max) |
| Client.BackoffNext | knet/client.go:37-46 | it starts at the initial delay and is multiplied from attempt to attempt, up to max |
| Client.BackoffIsMonotone | knet/client.go:37-46 | never decreases with the attempt and never exceeds max |
| Client.BackoffStaysAtMax | knet/client.go:39-44 | constant once max is reached |
| Client.BackoffReachesMax | knet/client.go:39-44 | max is reached after finitely many attempts |
| Client.Delay | knet/client.go:49-52 | between half of the backoff and all of it |
| Client.JitterCoversInterval | knet/client.go:49-52 | every point of that interval is picked by some random number |
| Client.JitterGrows | knet/client.go:51-51 | larger random numbers pick later points |
| Client.DialsNeverExceedSignals | knet/client.go:233-258 | dials by the loop never exceed signals by stop bodies plus a token left by an earlier session; the channel never holds more than one; connections not yet stopped, tokens, the loop at work and failed dials together are at most one plus that token; without it no signal is dropped; the attempt counts unsuccessful dials in a row |
| Client.AttemptStartsAgain | knet/client.go:243-255 | after a dial that succeeded the attempt is the number of sleeps since |
| Client.StopIsFinal | knet/client.go:167-182 | once Stop was called nothing is published any more, and a sleeping loop dials at most once more, in vain |
| Client.StoppedLoopEnds | knet/client.go:233-258 | with the context cancelled the loop can always step, and only towards its end |
| Client.DialsAgainIff | knet/client.go:233-258 | as long as nobody calls Stop, some continuation dials again if and only if a connection is live, a token is waiting, or the loop is at work |
| Client.DeadStaysDead | knet/client.go:236-242 | with none of these left the client never dials again |
| Client.FailureIsRetriedIff | knet/client.go:252-254 | a failed or refused dial is followed by another one in some continuation if and only if a second connection was live or a second token waiting |
| Client.FailedRedialIsFinal | knet/client.go:221-227 | in a session without a leftover token a failed or refused re-dial is never retried, and until Stop is called nothing else can happen |
| Client.OneFailureSuffices | knet/client.go:384-392 | one dropped connection leads to a dial that can fail, or be refused because the old connection is still registered |
| Heartbeat.HeartBeatChecker.constructor | knet/heartbeat.go:41-52 | ten seconds for non-positive intervals, timeout three intervals, default callbacks and message id |
| Heartbeat.HeartBeatChecker.SetTimeout | knet/heartbeat.go:55-59 | only positive timeouts are taken |
| Heartbeat.HeartBeatChecker.BindRouterSlices | knet/heartbeat.go:83-88 | message id and handlers are taken only when there are handlers |
| Heartbeat.HeartBeatChecker.Start | knet/heartbeat.go:99-108 | idempotent, with one goroutine more than have been told to quit |
| Heartbeat.HeartBeatChecker.Stop | knet/heartbeat.go:111-119 | idempotent, every goroutine has been told to quit and no channel is closed twice |
| Heartbeat.HeartBeatChecker.Clone | knet/heartbeat.go:174-185 | the whole configuration, not bound, not started, metrics gone |
| Heartbeat.HeartBeatChecker.Check | knet/heartbeat.go:136-159 | nothing without a connection; reports a dead peer and counts it if metrics are attached; otherwise sends a heartbeat, through the custom function if there is one |
| Heartbeat.HeartBeatChecker.Loop | knet/heartbeat.go:121-132 | the loop serves the ticks before the quit and reports those that find the peer dead |
| Heartbeat.ServedUpToQuit | knet/heartbeat.go:124-130 | those are all wakes up to the first quit, and nothing after it |
| Heartbeat.QuitEndsLoop | knet/heartbeat.go:128-129 | a quit is the end of it |
| Heartbeat.DeadTicksAreReported | knet/heartbeat.go:143-148 | every time start + k * interval, up to the last tick, at which the peer is found dead is reported |
| Heartbeat.ReportsAreDeadTicks | knet/heartbeat.go:122-127 | whatever is reported is such a time |
| Heartbeat.ReportsAscend | knet/heartbeat.go:122-127 | in order, each once |
| Heartbeat.LastTouchHappened | knet/connection.go:248-258 | the timestamp a check finds is a touch that has happened, or 0 if none has |
| Heartbeat.NoFalseAlarm | knet/connection.go:244-253 | a peer heard within the timeout is never reported |
| Heartbeat.SilentPeer | knet/connection.go:244-258 | after its last activity a peer is reported exactly when the timeout is over |
| Heartbeat.DetectionWindow | knet/heartbeat.go:121-148 | a peer silent since t is first reported in (t + timeout, t + timeout + interval], and at every tick from then on |
| RingBuffer.Ring.constructor | klog/ringbuffer.go:21-26 | empty, with the default capacity for non-positive ones |
| RingBuffer.Ring.Write | klog/ringbuffer.go:29-42 | the circular array keeps the last min(capacity, written) bytes of the history |
| RingBuffer.Ring.Bytes | klog/ringbuffer.go:45-53 | those bytes, oldest first |
| RingBuffer.Ring.LastLinesOf | klog/ringbuffer.go:61-75 | for n >= 0 the last n lines of the content, which are the last lines of the whole history but for the front of the oldest in the window, all non-empty if and only if the part they are read from has no blank line; a negative n panics unless the buffer is empty |
| RingBuffer.SplitJoins | klog/ringbuffer.go:66-66 | splitting at newlines is undone by joining and leaves no newline in a part |
| RingBuffer.WindowIsTheEnd | klog/ringbuffer.go:29-42 | the window is the last min(capacity, written) bytes of the history |
| RingBuffer.LastNIsTheEnd | klog/ringbuffer.go:71-74 | min(n, number of lines) lines are taken, from the end |
| RingBuffer.WindowLines | klog/ringbuffer.go:61-75 | lines of any suffix of a text are its last lines, whole except that the oldest may be cut at the front |
| RingBuffer.FewerLinesAreWhole | klog/ringbuffer.go:71-74 | asking for fewer lines than the window holds gives the history's own last lines |
| RingBuffer.LinesNonEmptyIff | klog/ringbuffer.go:60-70 | all lines of a text are non-empty if and only if it does not start with a newline and has no two in a row |
| RingBuffer.LastLinesNonEmptyIff | klog/ringbuffer.go:60-75 | the same for the last n lines and the text behind the newlines they skip |
| RingBuffer.BlankLineIsReturned | klog/ringbuffer.go:66-70 | an input whose lines include an empty one |

## Left out

- kmcp, kmetrics, kconf, kpool, klog/log.go and the examples: adapters and configuration without an algorithm of their own; counters used in accounting are integers in the model.
- TLS, addresses, write deadlines and HTTP endpoints: a socket delivers, fails or closes at any point instead.
- SendMsg's error returns (closed connection, full write queue after a timeout): a call that does not enqueue does not change the modelled state, and the model lets enqueuing happen in every state of the connection.
- Connection properties, request context, Copy, and getters and setters: single-field operations.
- Rebinding the chain from inside a handler (BindRouterSlices called by a handler), which can make a chain endless: handlers use Next, Abort and SetMessage.
- Aliasing of Go slices: decoded payloads, groups' handler lists and chains are values, so that a caller's later change to a slice it passed in is not captured.
- Wrap-around of connection ids after 2^64 connections: ids are natural numbers.
- int narrower than 33 bits, where 8 + DataLen could overflow: lengths are integers, as on 64-bit platforms.
- Lifecycle.NoDeadlock: takes for granted that user hooks return and that the stop hook does not call Stop on its own connection; what becomes of the enqueue is the subject of HandlerStop.
- Lifecycle.StopReturns: takes the same for granted.
- HandlerStop.NeverBlockedIff: one connection; several are the subject of MutualStop, where a connection is reduced to its reader and its socket. A handler that does not call Stop is taken to return.
- StopOrder.OrderIsSureIff: with reader and writer up, the codec is taken to get two more messages across; after a message beyond the receiver's limit was sent, that does not hold of TLV.
- ShutdownDrain.ShutdownExecutesAllIff: handlers are taken to return, so that a Stop waiting for a reader blocked by a handler (HandlerStop, MutualStop) is not composed with it; a ClearConn that outlasts the context, where Shutdown returns an error, is in Server only.
- Routing.MeansIntendedIff: about tables; when two tables differ, an id's chains can still be equal as sequences if the handlers passed happen to commute (Routing.GroupUseKeepsOrderIff says so for one call).
- Client.BackoffValue: over the reals, without floating-point rounding or truncation to nanoseconds.
- Client.DialsNeverExceedSignals: one session from a successful Start; a restarted session may begin with one signal left over, which is a parameter. Publishing, registering and starting a dialled connection is one step, so a Stop called through Conn() in the middle of a dial, or a ClearConn through GetConnMgr, is not captured.
- A second concurrent Shutdown call, which returns nil at once without draining: only the first call is modelled.
- Middleware.ChainDiscipline: a handler's reaction to anything but the request's message appears as a choice of program, since each handler is entered at most once per request.
