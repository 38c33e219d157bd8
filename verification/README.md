# A verified model of mini-Ray

mini-Ray is a small Ray clone: a driver submits tasks to a scheduler, the scheduler assigns them to
workers, workers store results and report them to the GCS, and all of them talk over a
length-prefixed framing around protobuf messages. This project models, in Dafny, the four parts
where something can go wrong that no single function shows, and proves what they guarantee. Where
the code does not guarantee what it seems to promise, the exact condition under which it does is
proved instead. `dafny verify dfyconfig.toml` checks everything.

## The parts

**Frames and streams** (`Bytes`, `Codec`, `Stream`, `Readers`). The in-place encoders, the decoder on
gnet's inbound buffer, the event-loop reader `OnTraffic` and the driver's blocking `readLoop` are
methods; each is proved against a function on byte strings, and the properties are about those
functions: chunking does not matter, a stream round-trips, every run has a declarative account, and
the two readers never deliver contradictory packets.

**The scheduler's ledger** (`Ledger`, `LedgerRuns`, `LedgerSingle`, `LedgerAtomic`,
`LedgerSafety`, `LedgerLimits`).
`Ledger.Scheduler` is the scheduler, each method proved to be a function on an abstract ledger with
its history. `LedgerRuns` is the system at the granularity at which the goroutines interleave: a
popped task sits in the loop's hand between the stores and sends of the broadcast, a rejected one in
its handler's hand between Load, Delete and the push back, and messages can be dropped, delayed,
invented or duplicated. `LedgerSingle` is about one worker and honest messages; `LedgerAtomic` about
handlers that run to completion, which it proves to be runs of the fine-grained system;
`LedgerSafety` proves under which rules nothing is lost, and `LedgerLimits` that these rules are
exact.

**Workers and the object directory** (`Worker`, `Evaluation`, `Directory`). The addTowInt task on
64-bit integers, argument resolution, the object store, the report pump and the GCS's table.

**The outbound connection** (`Backoff`, `Session`, `SessionRuns`, `SessionTiming`, `SessionWatch`). `Session.ClientConn`
is the connection; its runs interleave the loop, ticks, packets, sends and stops with any outcome of
every dial and write and any behaviour of the peer. `SessionWatch` describes the connection by what can
be seen from outside, and proves that its fields agree with that. Time is discrete, in nanoseconds.

## What turned out to be conditional

- With interleaved handlers the scheduler can lose a task although no more tasks are pushed than the
  channel holds. Two workers are enough: one may reject a task before the loop has sent it to the
  other, and then it is queued and pending at once. So is one worker, if two rejections of one task
  are between Load and Delete together. For every channel with a place this is exact: no push back
  ever finds the channel full if and only if there cannot be two workers and, if there can be one,
  either every rejection answers a request or no two of them overlap in that way; acceptances may be
  stale or invented at will (`LedgerLimits.NeverDropsIff`). What is dropped can be a second copy; that
  a task ends up nowhere takes two places in the channel, and is otherwise governed by the same
  condition (`LedgerLimits.NeverStraysIff`). With handlers that run to completion nothing is lost for
  any number of workers and any responses (`LedgerAtomic.NoLossAnyWorkers`).
- Overlapping rejections need two event loops. The scheduler has two: one for all connections it has
  dialled (common/eventHandler.go:79-90), among them those to its workers, and one for connections
  that others have opened to it (core/scheduler/scheduler.go:59-78). Each is taken to handle one packet
  at a time, since neither asks gnet for more than one loop, so with workers alone the handlers are
  `Serialised` and one worker is safe whatever it sends. The second rejection comes from a peer on the listening side: the dispatcher takes an
  AssignTaskResponse from any connection (core/scheduler/connection_manger.go:101-119).
- Requests built by `AssignTask` lack the argument types, so the worker survives one exactly when the
  task has no arguments, and no addTowInt task sent this way is ever accepted
  (`Worker.RequestsWithoutTypes`). Evaluation is therefore proved for requests that reach the worker,
  whatever they hold, and not for tasks pushed to the scheduler.
- An object argument that is not in the local store runs into a type assertion that fails
  (core/worker/connection_manger.go:188). The outcome is modelled as `Panicked`, like an argument
  without a type.
- A declared length below ten stalls an incremental reader for good (`Stream.ShortLengthStalls`); the
  blocking reader skips such a frame, and it alone enforces the size limit (`Readers.ReadersCompared`).
- The code accepts an EstablishAck that comes before Establish has been sent, and then business frames
  can precede Establish. A run keeps the order exactly when no business frame is sent between a dial
  and its Establish (`SessionRuns.EstablishFirstIff`), which early acknowledgements alone make possible
  (`SessionRuns.EstablishFirstIffNoEarlyAck`).
- EncodeAndSend leaves the id it draws in its caller's header, even if it then fails, and does not draw
  again for that header. So a call that is repeated after a failure can send an id lower than one
  already sent, and a header that is sent twice sends one id twice
  (`SessionTiming.HeaderReuseBreaksOrder`). Assigned ids increase exactly when no such header is sent
  after an id as high has gone out, and are distinct exactly when none is sent that has been sent
  before (`SessionTiming.SequenceIdsIff`). With the 2^64th draw the order ends for everyone
  (`SessionTiming.OrderEndsAtWrap`).
- The gap between two sends stays below `shakeEvery` and a second exactly when the establish timeout
  in whole seconds is below `shakeEvery`; the defaults, ten and three seconds, do not satisfy this
  (`SessionTiming.ShakesInTimeIff`). The bound that always holds excepts the second after an
  establishment (`SessionTiming.TimedBounds`).
- The backoff delay is monotone exactly up to the failure count at which its product overflows
  (`Backoff.MonotoneIffNoOverflow`). The timer of a failed dial rounds what is left of the delay down to
  whole seconds a second time, so it keeps the delay exactly when less than a second or a whole number
  of seconds is left when it is set; it cuts off less than a second (`SessionWatch.WaitKeepsBackOffIff`).

## Modelling choices

- A protobuf body is a byte string. `Codec.Env` says which bodies unmarshal for which message and
  whether the packet handler returns nil, as a function of all packets it has been given; every
  theorem is for all such functions.
- gnet's contract is assumed: unconsumed bytes stay in the inbound buffer, and the next call sees them
  followed by the new ones. After a reader has asked to close, later bytes only pile up.
- Go's `int` is taken to be 64 bits; wrap-around is written out.
- A step of a transition system that is not enabled leaves the state alone, so a run over an arbitrary
  list of steps ranges over the reachable states and nothing else.
- In the connection's runs `OnPacket`, `waitClose`, `dialOnce` and the sending functions are atomic, a
  packet arrives only while there is a raw connection, and ticks are on time.
- The connection's `Loop` waits for events, so it appears as the phases of `SessionRuns` (about to dial,
  waiting, dialled, ticking, gone) whose steps are the functions it calls; likewise the scheduler's
  `Loop` is the pop, serve and finish steps of `LedgerRuns`.
- The rejection handlers of the scheduler run one after another, apart from each other on each task,
  or concurrently; `LedgerSafety.Rules` says which, and results that do not mention it hold for all.
- The time between a failed dial and the setting of the timer is a parameter of the dial.
- The clock, the result of each dial, write and packet handler, and the time stamp in an object id are parameters.

## Model

| member | source | states |
|---|---|---|
| `Bytes.PutUint` | codec/header.go:29-39 | writing a big-endian integer into a buffer changes exactly its bytes |
| `Bytes.FromTo` | codec/header.go:29-39 | reading back n written bytes gives the value modulo 256^n |
| `Bytes.ToFrom` | codec/header.go:76-87 | writing back an integer that was read gives the same bytes |
| `Bytes.ToBEAt` | codec/header.go:29-39 | the first written byte is the most significant, and byte i of n has weight 256^(n-1-i) |
| `Bytes.FromBEFirst` | codec/header.go:76-87 | and the first byte read has the highest weight |
| `Codec.EncodePayload` | codec/header.go:29-39 | the fresh buffer holds uri, sequence id and body, in this order |
| `Codec.MakeFrame` | common/rpc_conn.go:45-50 | the fresh buffer holds the 32-bit length and the payload |
| `Codec.GnetConn.Peek` | codec/header.go:43-73 | shows the first n buffered bytes, or nothing when there are fewer |
| `Codec.GnetConn.Next` | codec/header.go:43-73 | consumes exactly what it returns, or nothing when there is too little |
| `Codec.ZeroCopyDecode` | codec/header.go:43-73 | consumes exactly one whole frame, decodable or not, and nothing when the buffer is short |
| `Codec.ScanHead` | codec/header.go:43-73 | whatever is recognised at the front is at least 14 bytes long and all there |
| `Codec.KindsAreDistinct` | codec/header.go:89-191 | the uris with a message are exactly 1 to 4 and 100 to 115, and each has a message of its own |
| `Codec.UrisMeanTheirMessages` | codec/header.go:116-135 | a uri is decoded as the message it is named after, and every place that sends a message puts the uri in front that is decoded as this message |
| `Codec.InnerRoundTrip` | codec/header.go:29-87 | decoding an encoded payload gives header and body back exactly when the body is decodable for the uri |
| `Codec.InnerCanonical` | codec/header.go:76-87 | a payload that decodes is the encoding of what it decodes to |
| `Codec.FrameLengthExact` | common/rpc_conn.go:45-50 | the length field is right exactly for payloads below 4 GiB |
| `Codec.ScanFrame` | codec/header.go:43-73 | a frame in front of any bytes is recognised as exactly itself |
| `Codec.FramesPrefixFree` | common/rpc_conn.go:45-50 | no frame is a proper prefix of another, so a stream of frames splits in one way only |
| `Codec.ScanStable` | codec/header.go:43-73 | bytes that arrive later never change what was recognised at the front |
| `Stream.PacketHandler.OnPacket` | common/eventHandler.go:47-77 | each decoded packet is handed over once, in order, and the answer decides whether the loop goes on |
| `Stream.OnTraffic` | common/eventHandler.go:47-77 | one call brings buffer, deliveries and action to the end of the specified run, whichever exit is taken; without a handler the connection is closed unread |
| `Stream.DrainThenMore` | common/eventHandler.go:47-77 | draining early and then draining what arrives later is draining everything at once |
| `Stream.ChunkingInvariance` | common/eventHandler.go:47-77 | for any bytes, any cut into arrivals gives the deliveries, left-over bytes and outcome of a single arrival |
| `Stream.DrainExplained` | common/eventHandler.go:47-77 | every run is accounted for: delivered frames, at most one culprit frame, the rest; all but perhaps the last packet accepted; open only when no whole frame is left |
| `Stream.ShortLengthStalls` | codec/header.go:52-54 | a declared length below ten leaves the stream open and undecoded for ever |
| `Stream.DrainWire` | common/eventHandler.go:47-77 | the wire image of any list of sendable messages is delivered as that list |
| `Stream.StreamRoundTrip` | codec/header.go:29-73 | encoded, framed and cut in any way, a list of messages arrives as exactly that list with an empty buffer |
| `Stream.KindsSentArrive` | codec/header.go:138-191 | whatever messages the senders send, cut in any way, arrive as messages of the kinds that were sent, in order |
| `Readers.NetConn.ReadFull` | core/driver/connection.go:94-111 | all n bytes, or an error and nothing left to read |
| `Readers.NetConn.Write` | core/driver/connection.go:123-132 | a transport may take any beginning of what it is given |
| `Readers.ReadFrame` | core/driver/connection.go:94-111 | succeeds exactly for a complete frame within the size limit, and consumes exactly that |
| `Readers.ReadLoop` | core/driver/connection.go:70-92 | delivers what the blocking reader's specification says, skipping frames that do not decode, and closes the connection exactly after an error of the handler |
| `Readers.ReadAllAccounted` | core/driver/connection.go:70-111 | an account of what the blocking reader delivers from any bytes: frames and a rest, exactly the decodings of those frames that decode, in order, and a rest that cannot be read unless the last packet was refused |
| `Readers.BadFrameIsSkipped` | core/driver/connection.go:80-83 | a frame that does not decode changes nothing of what is delivered, wherever it is put between frames |
| `Readers.WriteFull` | core/driver/connection.go:123-132 | whatever is taken at a time, no error means all bytes were sent in order, an error means a beginning was |
| `Readers.Send` | core/driver/connection.go:51-60 | the frame of a payload goes to the net.Conn if there is one, else whole or not at all to gnet, and without either the call fails |
| `Readers.ReadersCompared` | core/driver/connection.go:70-111 | on any bytes one reader's deliveries are a prefix of the other's, and the first frame treated differently says whose |
| `Readers.OrdinaryNeverDiffers` | core/driver/connection_manager.go:72-96 | there is no such frame when every complete frame has length 10 to MaxFrameSize and decodes |
| `Readers.TwoReadersAgree` | core/driver/connection_manager.go:72-96 | with any chunking for the incremental reader: one prefix of the other, and equal on ordinary frames |
| `Ledger.Scheduler.constructor` | core/scheduler/scheduler.go:40-57 | a new scheduler has an empty ledger of the given capacity |
| `Ledger.Scheduler.TrySend` | core/scheduler/scheduler.go:94-102 | the channel takes a task at its end exactly when it has room |
| `Ledger.Scheduler.PushTask` | core/scheduler/scheduler.go:94-102 | the whole new ledger; it succeeds exactly when there is room |
| `Ledger.Scheduler.SendToAll` | core/scheduler/scheduler.go:114-124 | each connected worker is sent exactly one request, and the task is pending unless there is no worker |
| `Ledger.Scheduler.AssignTask` | core/scheduler/scheduler.go:104-126 | the first task leaves the queue and is pending, or lost without workers; the requests sent, as a multiset |
| `Ledger.BroadcastAsksForTask` | core/scheduler/scheduler.go:114-124 | every connected worker and nobody else is asked, by id, function and arguments, for the task that is pending now |
| `Ledger.Scheduler.OnAssignTaskResp` | core/scheduler/connection_manger.go:160-175 | the whole new ledger after an acceptance or a rejection; it fails exactly for a rejection of a task not pending |
| `Ledger.Scheduler.OnEstablishAck` | core/scheduler/connection_manger.go:147-158 | a worker joins the workers, a GCS the GCS table, and every connection is marked as established |
| `LedgerRuns.StepKeeps` | core/scheduler/scheduler.go:94-126 | every fine-grained step keeps the account of every task and the order of the channel, and forgets no push, acceptance or worker |
| `LedgerRuns.FullAccounting` | core/scheduler/connection_manger.go:160-175 | under every interleaving each pushed task is queued, in a hand, pending, accepted or recorded lost, and nothing else is held |
| `LedgerRuns.PendingIsPushed` | core/scheduler/scheduler.go:121-121 | with distinct ids a pending entry is the very task pushed under that id |
| `LedgerRuns.LossPoints` | core/scheduler/connection_manger.go:166-171 | a step loses a task if and only if it ends a broadcast that had no worker or pushes back into a full channel |
| `LedgerRuns.FifoAndBoundedWork` | core/scheduler/scheduler.go:80-126 | entries are pops followed by the queue, the queue is within capacity, and pops never exceed pushes and rejections |
| `LedgerRuns.TakesEmptyTheQueue` | core/scheduler/scheduler.go:80-112 | no run pops more often than tasks are pushed and rejected; once nothing enters any more, the queue is empty exactly after as many pops as it held tasks |
| `LedgerRuns.QueueDrains` | core/scheduler/scheduler.go:80-126 | the loop alone can always empty the queue, in as many rounds, and with a worker connected all its tasks are pending then and none is lost |
| `LedgerSingle.StepOnce` | core/scheduler/connection_manger.go:160-175 | the one-worker invariant is kept by every step |
| `LedgerSingle.ExactlyOnePlace` | core/scheduler/connection_manger.go:160-175 | one worker: each task is in exactly one place, at most one message is under way for it and only while it is pending, and no rejection finds its task missing |
| `LedgerSingle.AcceptedAtMostOnce` | core/scheduler/connection_manger.go:160-175 | one worker: an accepted task is accepted once and never queued, held, pending or requested again, however the run goes on |
| `LedgerSingle.Pigeonhole` | core/scheduler/scheduler.go:94-102 | distinct tasks out of some, with one left over, are fewer than all |
| `LedgerAtomic.Exclusivity` | core/scheduler/scheduler.go:104-126 | atomic handlers, any workers, any stale or duplicate responses: a task is never queued twice nor both queued and pending |
| `LedgerAtomic.RoomForPending` | core/scheduler/connection_manger.go:166-171 | atomic handlers: the push back after a rejection finds room |
| `LedgerAtomic.NoLossAnyWorkers` | core/scheduler/scheduler.go:94-126 | atomic handlers, any workers and responses: nothing is lost, and each pushed task is queued, pending or accepted |
| `LedgerAtomic.OpsAreRuns` | core/scheduler/scheduler.go:104-126 | every sequence of atomic operations is a run of the fine-grained system with the same ledger |
| `LedgerAtomic.AtomicAccounting` | core/scheduler/connection_manger.go:160-175 | each pushed task is queued, pending, accepted or recorded lost between operations |
| `LedgerSafety.StepSafe` | core/scheduler/connection_manger.go:160-175 | one worker: the no-loss invariant is kept by every step, with any acceptances, and rejections that are answers or do not overlap on a task |
| `LedgerSafety.RoomForPushBack` | core/scheduler/connection_manger.go:170-171 | one worker, no more pushes than capacity: a task on its way back finds room |
| `LedgerSafety.NoLoss` | core/scheduler/scheduler.go:94-126 | one worker, under every interleaving these rules allow: no more pushes than capacity and a worker before each pop mean that every push back finds room, nothing is lost and each task is still somewhere |
| `LedgerLimits.TwoWorkersDrop` | core/scheduler/scheduler.go:114-124 | for every capacity, a run with two workers, honest messages and serialised rejections that drops a task from the channel |
| `LedgerLimits.TwiceRefusedDrops` | core/scheduler/connection_manger.go:164-171 | for every capacity, the same with one worker and two overlapping rejections of one task |
| `LedgerLimits.TwoWorkersStray` | core/scheduler/scheduler.go:114-124 | for every capacity from two, such a run with two workers after which a task is nowhere |
| `LedgerLimits.TwiceRefusedStrays` | core/scheduler/connection_manger.go:164-171 | for every capacity from two, the same with one worker and two overlapping rejections |
| `LedgerLimits.NeverDropsIff` | core/scheduler/scheduler.go:94-102 | for every channel with a place, no push back ever finds it full if and only if there cannot be two workers and, if there can be one, rejections are honest or do not overlap on a task |
| `LedgerLimits.NeverStraysIff` | core/scheduler/connection_manger.go:160-175 | for every channel, no task is ever nowhere if and only if the same holds or the channel has at most one place |
| `Worker.EncodeInt` | core/worker/codec_util.go:48-52 | the fresh buffer holds the eight bytes of the two's complement |
| `Worker.DecodeEncode` | core/worker/codec_util.go:13-18 | decoding inverts encoding on every int64 |
| `Worker.EncodeDecode` | core/worker/codec_util.go:48-52 | encoding inverts decoding on every eight-byte string |
| `Worker.SignedCongruent` | core/worker/codec_util.go:13-18 | an integer is read as the 64-bit one congruent to its unsigned value |
| `Worker.AddTowIntFunc` | core/worker/task_func.go:10-26 | succeeds exactly for two arguments of at least eight bytes, with the wrapped sum, and gives zero otherwise |
| `Worker.ByteAddition` | core/worker/task_func.go:10-26 | the bytes of the result are the sum of the two unsigned prefixes modulo 2^64 |
| `Worker.ObjectStorage.GetObject` | core/worker/object_storage.go:27-32 | the stored object or nothing, and the store is untouched |
| `Worker.ObjectStorage.SetObject` | core/worker/object_storage.go:34-36 | one entry is written, the others stay |
| `Worker.WorkerNode.OnAddTowInt` | core/worker/worker.go:90-101 | eight bytes are stored and registered for the task, even for a failed one |
| `Worker.WorkerNode.OnAssignTask` | core/worker/connection_manger.go:168-207 | new store and register channel, the response sent, and when the worker panics instead |
| `Worker.WorkerNode.OnGetObjectData` | core/worker/connection_manger.go:209-230 | found with exactly the stored bytes, if and only if the object is in the store |
| `Worker.WorkerNode.OnEstablish` | core/worker/connection_manger.go:148-161 | only a connection from the GCS becomes the GCS connection; every one is marked as established and welcomed |
| `Worker.WorkerNode.Loop` | core/worker/connection_manger.go:243-259 | everything registered is reported once, in order; without a GCS connection the pump dies and the object it took is gone |
| `Worker.ReportsForAt` | core/worker/connection_manger.go:243-259 | the reports are one for each object, in the order of registration |
| `Worker.ObjectArgument` | core/worker/connection_manger.go:177-186 | an argument made from the id of a stored object stands for the data of that object |
| `Worker.ObjectIdsDiffer` | core/worker/worker.go:94-94 | with time stamps of one length, objects of one function have one id if and only if they are from the same task and call |
| `Worker.AnswerSettlesTask` | core/worker/connection_manger.go:202-205 | the answer of a worker to the request of a task takes exactly that task out of the pending table again, and a refusal queues it last if there is room |
| `Worker.RequestsWithoutTypes` | core/scheduler/scheduler.go:115-120 | the worker survives a request from AssignTask exactly when it has no arguments, and accepts exactly those of them that are not for addTowInt |
| `Evaluation.ResultEvaluates` | core/worker/task_func.go:10-26 | a task succeeds exactly when its arguments are two and usable, and what it stores evaluates its tree |
| `Evaluation.RunEvaluates` | core/worker/connection_manger.go:168-207 | over any tasks the store keeps evaluating the dependency trees, which are built from the requests alone |
| `Evaluation.EvaluationCorrect` | core/worker/connection_manger.go:168-207 | every object decodes to the exact sum of the literal leaves of its dependency tree modulo 2^64, as a signed integer |
| `Evaluation.AnswerTellsSuccess` | core/worker/connection_manger.go:168-206 | there is an answer exactly when every argument has a type and every object is known; the answer to an addition says whether its object is a sum or the zero of a failure, and an unknown function is accepted |
| `Evaluation.LaterTasksKeep` | core/worker/object_storage.go:34-36 | later tasks with other object ids never change an object |
| `Directory.GCS.OnReportTaskResult` | core/gcs/connection_manager.go:140-143 | the object's location is the endpoint of the connection the report came in on, and no other entry changes |
| `Directory.GCS.OnGetObjectLocation` | core/gcs/connection_manager.go:157-176 | the recorded location, or the empty address |
| `Directory.StepSound` | core/worker/worker.go:94-96 | the directory invariant, over stores, register channels and reports in flight, is kept by every step |
| `Directory.DirectoryNeverWrong` | core/gcs/connection_manager.go:140-143 | in every run with loss, delay and reordering, a location names an endpoint whose worker holds the object |
| `Directory.LocationsAreLastReports` | core/gcs/connection_manager.go:140-143 | the directory is the last-writer-wins replay of the delivered reports |
| `Directory.LookupIsLastReport` | core/gcs/connection_manager.go:157-176 | the answer to a lookup is the connection of the last delivered report about the object, and empty exactly without one |
| `Directory.LookupThenFetch` | core/gcs/connection_manager.go:157-176 | a non-empty answer leads to the object however much later it is fetched: eight bytes, those held at the lookup unless stored again |
| `Directory.HandlerIsStoreThenRegister` | core/worker/worker.go:94-96 | the worker's handler, run to completion, is the store step followed by the register step |
| `Directory.LoopIsPumps` | core/worker/connection_manger.go:243-259 | with a connection from the GCS, emptying the channel is a run of pump steps that puts every report in flight once |
| `Directory.LoopDies` | core/worker/connection_manger.go:243-259 | without a connection from the GCS the pump dies at the first object, which is gone |
| `Directory.HandlerIsDeliver` | core/gcs/connection_manager.go:140-143 | delivering a report records exactly what the GCS's handler records |
| `Backoff.BackOffBounds` | common/client_conn.go:207-224 | never negative, at most 50ms a failure, whole seconds from one second on |
| `Backoff.BackOffValues` | common/client_conn.go:215-224 | no delay below ten failures, 10ms for each below twenty, then a second for every full twenty |
| `Backoff.BackOffMonotone` | common/client_conn.go:215-224 | more failures never mean a shorter delay, across both thresholds |
| `Backoff.MonotoneIffNoOverflow` | common/client_conn.go:215-224 | monotone up to a failure count if and only if the product does not overflow by then |
| `Session.ClientConn.constructor` | common/client_conn.go:87-130 | a started connection that has not dialled |
| `Session.ClientConn.NextSeq` | common/client_conn.go:250-250 | draws the next id of a 64-bit counter |
| `Session.ClientConn.NotifyReconnect` | common/client_conn.go:179-186 | cancels the latest session context, if there is one |
| `Session.ClientConn.DialOnce` | common/client_conn.go:226-246 | the whole new state: a new session, or one more failure and the delay for it |
| `Session.ClientConn.SendEstablish` | common/client_conn.go:344-352 | the whole new state: a fresh session context and Establish sent, or the connection given up |
| `Session.ClientConn.OnTick` | common/client_conn.go:284-294 | cancels an unestablished session after the establish timeout and a silent one after the idle timeout |
| `Session.ClientConn.MaybeShake` | common/client_conn.go:266-306 | a heartbeat is sent exactly when established and due, and a failed write cancels the session |
| `Session.ClientConn.OnPacket` | common/client_conn.go:374-410 | the whole new state for an acknowledgement, a refusal, a heartbeat and any other packet, established or not; it fails for a refusal and when the handler fails |
| `Session.ClientConn.AcceptAck` | common/client_conn.go:395-400 | an accepted acknowledgement establishes the session, resets the failures and returns what the handler returns |
| `Session.ClientConn.Send` | common/client_conn.go:144-153 | a frame goes out only on a live, established connection, and the time of the last send is left alone |
| `Session.ClientConn.EncodeAndSend` | common/client_conn.go:156-172 | a header without an id is given a drawn one, even if nothing can be sent; the frame carries the id of the header; the time of the last send is updated only when something was sent |
| `Session.ClientConn.WaitClose` | common/client_conn.go:188-205 | neither established nor connected afterwards |
| `Session.ClientConn.Stop` | common/client_conn.go:132-141 | only the first call does anything; it cancels everything |
| `SessionRuns.StepOrdered` | common/client_conn.go:308-410 | the safety invariant is kept by every step |
| `SessionRuns.SessionSafety` | common/client_conn.go:374-410 | against any peer: established means live and acknowledged in this session, nothing is sent or handled before the acknowledgement, and no session sends Establish twice |
| `SessionRuns.EstablishFirstIff` | common/client_conn.go:144-153 | in every run, Establish precedes all other frames of its session if and only if no business frame is sent between a dial and its Establish |
| `SessionRuns.EstablishFirstIffNoEarlyAck` | common/client_conn.go:381-396 | it does so in all runs together if and only if no acknowledgement can come before Establish |
| `SessionTiming.StepTimely` | common/client_conn.go:284-306 | the timing invariant is kept by every step |
| `SessionTiming.TimedBounds` | common/client_conn.go:284-306 | bounds on how long a session lives unestablished or silent and on the gap between sends, in every uncancelled session |
| `SessionTiming.LateAckIsLate` | common/client_conn.go:284-306 | an acknowledgement at the last moment leaves a gap of a second more than the quiet ticks before it |
| `SessionTiming.ShakesInTimeIff` | common/client_conn.go:296-306 | the heartbeat bound holds without exception if and only if the establish timeout in whole seconds is below the interval |
| `SessionTiming.SequenceIdsIff` | common/client_conn.go:156-172 | in runs with fewer than 2^64 draws, assigned ids increase in sending order across reconnects if and only if no header that has its id is sent after an id as high, and are distinct if and only if none is sent twice |
| `SessionTiming.SequenceIdsIncrease` | common/client_conn.go:248-282 | so they increase, and differ, whenever each header is used for one call |
| `SessionTiming.HeaderReuseBreaksOrder` | common/client_conn.go:157-159 | a failed call repeated with its header sends id 1 after id 2, and once more sends it twice |
| `SessionTiming.OrderEndsAtWrap` | common/client_conn.go:156-159 | a run with exactly 2^64 draws, each header used once, that sends zero after the highest id |
| `SessionTiming.DelaysNeverShrink` | common/client_conn.go:226-246 | the delays computed between two establishments never shrink, and are whole seconds from one second on |
| `SessionWatch.FieldsAreWhatWasSeen` | common/client_conn.go:132-410 | in every run the times of the last packet, the last frame and the next dial, the failures in a row, the ids drawn and the establishment are those an observer has seen |
| `SessionWatch.SessionLivesIff` | common/client_conn.go:284-306 | a session is cancelled if and only if it was stopped, closed, refused or failed by the handler, or a tick found the acknowledgement or the next packet overdue or could not write a due heartbeat |
| `SessionWatch.HeartbeatIff` | common/client_conn.go:296-306 | a tick sends a heartbeat if and only if the session is acknowledged, no frame but raw payloads has gone out for the interval, and the write succeeds |
| `SessionWatch.DialsAreApart` | common/client_conn.go:333-342 | in every run a dial after a failed one comes no earlier than the backoff for the failures since the last accepted acknowledgement, as the timer keeps it |
| `SessionWatch.WaitKeepsBackOffIff` | common/client_conn.go:334-334 | the timer keeps the delay if and only if less than a second or whole seconds are left of it when it is set, and cuts off less than a second |
| `SessionWatch.StopIsFinal` | common/client_conn.go:132-141 | after Stop no session is dialled any more and every session is cancelled, whatever happens |
| `SessionWatch.StopLeadsOut` | common/client_conn.go:308-371 | and the loop can always leave by its own steps |

## Left out

- Protobuf marshalling, generated code and encoding failures: library code; bodies are opaque.
- gnet, ants, zap, sockets, signals, options and `main` packages: plumbing. Of gnet only the buffer contract is kept.
- The managers' `OnTraffic` shuts the engine down when its server has not been started (core/driver/connection_manager.go:73-75); the loop is the one modelled.
- `ReadFrameFromGnet`: nothing calls it.
- The copies of `readFrame` and `writeFull` in the gcs, scheduler and worker connections: the driver's is modelled once. Their spinning `Loop`s are left out.
- Stream.OnTraffic: the handler's answer depends on the packets of its own connection only, and a panic in it is not modelled.
- `getRemoteObject` and the handlers of its answers: the maps they need are never created and the connection lookup uses the wrong key type. What is modelled is that the local miss fails before it gets there.
- Directory.GCS.OnGetObjectLocation: taken on the object id, since the dispatcher asserts the wrong message type for location requests (core/gcs/connection_manager.go:117).
- Driver task submission and `NewDriver`: the constructor calls itself, and the connection table is filled and searched with different key types.
- `DecodeFloat64`, `DecodeBool`, `DecodeString` as task arguments and their encoders: no task uses them, and their properties are those of the integer codec or trivial.
- The ids of messages sent by the managers (`nextID`), and the echo of a request's sequence id in its response.
- Worker.WorkerNode.OnAddTowInt: does not model that the send on a full register channel blocks the handler.
- Readers.ReadLoop: does not model the goroutine that closes the connection when the context ends; that is an earlier end of the bytes.
- Worker.WorkerNode.OnAssignTask: does not model what becomes of the process after a panic, nor that resolving arguments also overwrites those of the request object it aliases.
- Worker.WorkerNode.Loop: covers emptying the channel once; waiting for more objects and for cancellation is not modelled.
- Data races on `workerConns`, `gcsConns` and `objectLocationMap`: their accesses are atomic here.
- Workers that crash, restart or disconnect: the code never removes them from `workerConns`.
- Session.ClientConn.OnPacket: does not model interleaving within a packet, nor the panic recovery around the handler.
- Restarting the loop after a panic, and starting a connection again after `Stop`.
- Backoff.BackOffBounds: seconds are computed with integers; the code goes through a float64, and its rounding is not modelled.
- `timeline.md`'s actors, lineage and replay: planned, not implemented.
