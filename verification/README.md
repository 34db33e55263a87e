# SqueueLite: a verified model of the single-writer gateway

SqueueLite sends the write requests of many callers through one writer thread that owns the only
SQLite connection. This project models that engine and the request/reply protocol around it, and
proves what callers rely on.

**The transaction engine.** `Requests` and `Store` hold the data: requests, responses, and a database
made of arbitrary user tables, the commits table with its AUTOINCREMENT counter, and the table of
idempotency keys. `Serving` says what one request means, alone (one transaction) or inside a batch (one
savepoint). `Scheduling` separates *which* commands the loop serves together (`Plan`, a function of the
queue and the arrival schedule) from *what* serving them does (`Execute`, a function of the database).
`Connections` is the connection as an object with a durable database, an open transaction and a
savepoint stack; `Writers` is the writer itself, imperative as in the source, proved equal to
`Execute(Plan(queue))` for every queue, arrival schedule, batch size and failure.

On these functions the main results are proved:

* `Refinement`: the batched path and the batching loop give the same replies, database and checkpoint
  positions as one transaction per request, one command at a time.
* `History`: after any run with any failures and crashes the durable database is a *legal serial
  execution* of the kept requests.
* `Guarantees`: exactly-once effects per key, verbatim replays, truthful replies, gap-free commit
  numbers, linked internal tables.
* `Discipline`: one reply per command, in queue order; control commands as barriers; nothing after Shutdown.
  `Threads` ties this to the interleavings of callers and writer in `Gateway`.
* `Outcomes`: what one request is answered with and leaves behind, in every case, in terms of its fields alone.
* `Durability`: every acknowledgement leaves on a durable database that backs it, and every later one does too.

**The protocol around it.** `Gateway` is the state machine of callers, bounded channel, writer and
counters under arbitrary interleavings, and `Progress` says what each of its steps does and that it never
gets stuck. `Rpc` is the JSON-RPC dispatcher and the Rust client on JSON trees; `Dispatching` says on the
JSON fields alone what they accept and answer. `Lines`, `Clients`, `Sidecar`, `Utf8` and `Pipelining` carry
it down to character streams: chunk re-assembly, the server's read-dispatch-reply loop with its size cap,
and the matching of replies to waiters. `Encoding` shows that what they ask of a serialiser can be met.
`JsonText` is the hand-written encoder of the JVM client and `JsonTree` a reader for RFC 8259 it is held
against. `Latency` is the ring buffer and its percentile.

## How failures are modelled

Each queued job carries a `Faults` record that fixes in advance, and arbitrarily, what will go wrong
while it is served: the key lookup, BEGIN or SAVEPOINT, each statement, the commit row, the dedup row,
COMMIT or RELEASE, the clean-up of a failed savepoint, and BEGIN and COMMIT of the batch it leads. User
SQL is an arbitrary function in `Engine.exec`; a failing statement may leave arbitrary partial effects
behind, so rollback matters even for a single statement. A crash can hit any step before or after its
COMMIT took hold; that no other durable state exists in between is the `seen` clause of `Writer.Apply`,
`Writer.ApplyBatch` and `Writer.Run`, and `Guarantees.CrashIsRun` shows that what a crash of the loop
leaves is a run in the sense of the results above. Arrival is one `prompt` bit per command: each queue
position is polled at most once.

A job *leaks* (`Refinement.Leaks`) if it fails inside its savepoint, had changed something by then
(`Landed`), and ROLLBACK TO fails as well. The results on runs exclude this one failure, and only in batches
whose outer COMMIT succeeds (`CleanStep`, `CleanRun`): `Refinement.AgreeIff` and `History.SerialIff` show
that it is exactly what separates a batch from serial execution. The comparison of the two loops also asks
that outer BEGIN and COMMIT work (`Calm`); `Refinement.OuterFailure` says what happens when they do not.
Where no ROLLBACK TO fails nothing leaks (`Refinement.QuietQueueIsCalm`, `History.QuietRunIsClean`).

Two assumptions about text are named where they are used and shown to be satisfiable: that serialised
operation lists differ for different lists (`Guarantees.InjectiveHash`, `InjectiveHashExists`), needed only
for the claim that other operations always conflict, and that JSON is printed invertibly on one line
(`Clients.OneLineCodec`, `OneLineCodecExists`).

## What the proofs found

* The result of `ROLLBACK TO sp; RELEASE sp;` after a failed savepoint is discarded
  (src/writer.rs:643). If the ROLLBACK TO itself fails, a request answered Failed stays in the outer
  transaction and becomes durable, and a retry with the same key takes effect again:
  `Refinement.LostRollback`, for every engine with tracking and idempotency and every request whose
  statements work twice.
  `Refinement.FailedSavepoint` and `Refinement.LeakIff` say exactly when one request is affected,
  `Refinement.AgreeIff` and `History.SerialIff` exactly when a batch is. A failing RELEASE behind a
  successful ROLLBACK TO is harmless.
* Code -32002 is documented for a stopped writer (src/jsonrpc.rs:32), -32000 for a write answered Failed
  (src/jsonrpc.rs:30). A checkpoint that meets a stopped writer is answered with -32000:
  `Rpc.ClosedCheckpoint` is the request, `Rpc.StoppedWriterCodes` the exact condition.
* The comment at src/writer.rs:470-472 says failed savepoints leave gaps in `commit_seq`. They do not:
  `Guarantees.CommitSequence`, in agreement with tests/stress.rs:146-158.
* A parameter that is NaN or infinite makes the JVM client's request line something that is not JSON
  (clients/jvm/Squeue.java:130): `JsonTree.NotANumber`; `JsonTree.ArrayRoundTrip` and `JsonTree.ExecuteReads` give the exact condition.
* On a replay the gateway answers with the first request's id, but the Rust client reports its own:
  `Rpc.ReplyRoundTrip`.
* A latency entry is documented as one per successful commit; a batch pushes one for all its requests
  (src/writer.rs:594-596), and that is what the model records.

## Model

| member | source | states |
|---|---|---|
| Connections.Connection.Begin | src/writer.rs:364-371 | a transaction starts from the durable database, or nothing changes on failure |
| Connections.Connection.Commit | src/writer.rs:437-445 | the only call that changes the durable database, and only when it succeeds |
| Connections.Connection.Rollback | src/writer.rs:437-445 | dropping a transaction leaves the durable database and an idle connection |
| Connections.Connection.OpenSavepoint | src/writer.rs:636-638 | SAVEPOINT pushes a snapshot of the working state |
| Connections.Connection.RollbackTo | src/writer.rs:641-646 | ROLLBACK TO restores the snapshot of the most recent savepoint of that name and keeps the savepoint |
| Connections.Connection.Release | src/writer.rs:704-707 | RELEASE keeps the changes and removes the savepoint and those above it |
| Connections.Connection.Execute | src/writer.rs:378-389 | one statement changes the user tables only; a failing one may leave partial effects |
| Connections.Connection.InsertCommit | src/writer.rs:393-408 | the commit row gets counter + 1 and the counter moves with it, up to the largest rowid |
| Connections.Connection.InsertRequest | src/writer.rs:420-433 | INSERT OR IGNORE of a dedup row |
| Connections.Connection.Lookup | src/writer.rs:287-301 | the stored row for a key, seen from inside an open transaction if there is one |
| Writers.Receiver.BlockingRecv | src/writer.rs:136 | the next command of the FIFO, or None at its end |
| Writers.Receiver.TryRecv | src/writer.rs:164 | the next command only if it has arrived |
| Writers.Writer.Reject | src/writer.rs:266-270 | the first SQL constraint violation in operation order |
| Writers.Writer.ExecuteAll | src/writer.rs:378-389 | operations run in order up to the first failure |
| Writers.Writer.CheckKey | src/writer.rs:275-324 | replay, conflict, lookup failure or permission to run, as Admit decides |
| Writers.Writer.Apply | src/writer.rs:262-337 | one request moves the durable database as Serve says; no other durable state exists in between |
| Writers.Writer.ApplyInner | src/writer.rs:355-446 | every early return rolls back; success commits operations, commit row and dedup row together and records one latency |
| Writers.Writer.Abandon | src/writer.rs:640-646 | the discarded clean-up of a failed savepoint, with each way it can fail |
| Writers.Writer.ApplySavepoint | src/writer.rs:626-710 | one request inside a savepoint moves the outer transaction as Nest says; its savepoint stays on the stack exactly when it failed past SAVEPOINT and the clean-up did not complete |
| Writers.Writer.ServeInside | src/writer.rs:497-588 | validation, key check and savepoint of one job of a batch, with the exact savepoint stack for every way its clean-up can fail |
| Writers.Writer.ApplyEach | src/writer.rs:497-589 | all jobs of a batch in order inside the outer transaction, replies held back, with the exact savepoint stack behind them |
| Writers.Writer.ApplyBatch | src/writer.rs:476-617 | a batch is ServeGroup: one outer transaction; every reply leaves on the durable database behind its end, rewritten if COMMIT fails |
| Writers.Writer.Drain | src/writer.rs:147-193 | the greedy drain takes exactly the batch of the plan; a command that cannot join is deferred, not lost |
| Writers.Writer.ServeBundle | src/writer.rs:195-204 | a batch of one takes the single path, a larger one the batch path |
| Writers.Writer.ServeDirect | src/writer.rs:226-237 | a lone write, a checkpoint or Shutdown |
| Writers.Writer.FinishBundle | src/writer.rs:195-222 | after a batch the deferred command is served exactly as the next command of the queue would be |
| Writers.Writer.Run | src/writer.rs:135-243 | the loop performs the plan of its queue: same database, replies in order, latencies; every durable database on the way is that of a prefix of the plan, and each reply leaves on the one its step ends with |
| Outcomes.RejectedOutcome | src/writer.rs:266-270 | a request with a rejected operation, wherever it stands, is answered with the first rejection and leaves the database alone, alone and in a batch |
| Outcomes.RejectedNeverKept | src/writer.rs:262-337 | over any run no request with a rejected operation ever takes effect |
| Outcomes.KnownKeyOutcome | src/writer.rs:275-324 | failed lookup, conflict, stored reply and reply without a stored one, each as the caller sees it |
| Outcomes.NewRequestOutcome | src/writer.rs:340-446 | the operations run in order on each other's results; the first thing that goes wrong is what the caller is told; if nothing does, every row and field the request leaves |
| Outcomes.OperationsRun | src/writer.rs:378-389 | the user tables between the operations, and which operation and error end them |
| Durability.RunThread | src/inprocess.rs:86-99 | the writer thread over everything ever queued: message k answers command k up to the first Shutdown, a write with the response it was served with, a checkpoint with its outcome and position; each Committed reply left while the durable database held the request's effects or the replayed reply |
| Durability.SentIsDurable | src/writer.rs:591-616 | every reply leaves on the serial execution of the requests kept by then; a Committed one on a database with its request's effects or the replayed reply |
| Durability.AcknowledgedForever | src/writer.rs:591-616 | what a Committed reply promised holds in every durable database the loop leaves from then on, so after a crash at any later point too |
| Refinement.BatchRefinesSequential | src/writer.rs:476-617 | a batch without a leak equals one transaction per request, in database and replies, whatever fails inside the requests and even with shared keys |
| Refinement.NestingIsServing | src/writer.rs:626-710 | the same for the savepoint bodies alone |
| Refinement.RunRefinesPlain | src/writer.rs:135-243 | the batching loop equals the plain loop in replies, checkpoint positions and final database, for every queue, schedule and batch size |
| Refinement.OuterFailure | src/writer.rs:480-493 | outer BEGIN or COMMIT failure: nothing durable, nothing Committed, and exactly which error each reply carries |
| Refinement.FailedSavepoint | src/writer.rs:640-646 | a failing savepoint restores the state before it if and only if ROLLBACK TO works or neither the statements, the commit row nor the dedup row had changed anything |
| Refinement.LeakIff | src/writer.rs:640-646 | one job in a savepoint and in a transaction: never a different reply, a different database exactly when the job leaks |
| Refinement.AgreeIff | src/writer.rs:497-589 | batch and one-by-one service agree on the database after every prefix of the jobs if and only if no job leaks |
| Refinement.QuietQueueIsCalm | src/writer.rs:135-243 | if every outer BEGIN, COMMIT and every ROLLBACK TO works, every plan of the queue meets the condition of RunRefinesPlain |
| Refinement.LostRollback | src/writer.rs:643 | for any engine, database and new key: if dedup insert and ROLLBACK TO both fail, the request is answered Failed, its commit row is durable, and its retry takes effect a second time |
| History.ServeAtomic | src/writer.rs:355-446 | all effects or none, and INSERT OR IGNORE never ignores |
| History.ServeAllIsSerial | src/writer.rs:262-337 | serving jobs is the serial execution of the kept ones |
| History.StepIsSerial | src/writer.rs:476-617 | after a step, batch included, the database is the fold of exactly the requests that succeeded |
| History.SerialIff | src/writer.rs:497-589 | the state inside a batch is the serial execution of the jobs that succeeded so far, at every point, if and only if no job leaks |
| History.DurableIsSerial | src/writer.rs:262-617 | after any run with failures and crashes the durable database is a legal serial execution of the kept requests |
| History.TablesOf | src/writer.rs:391-411 | one commit row per kept request, numbered without gaps; dedup rows are never changed |
| History.KeyRow | src/writer.rs:413-434 | the dedup row of a kept request stores its hash, its reply and its commit number, for good |
| History.KeysOnce | src/writer.rs:275-332 | two kept requests never carry the same key |
| History.RowsHaveRequests | src/writer.rs:413-434 | every new dedup row belongs to a kept request |
| Guarantees.ExactlyOnce | src/request.rs:6-10 | at most one request per key ever takes effect, over failures and crashes |
| Guarantees.ReplayVerbatim | src/writer.rs:302-322 | same key and serialised operations: the first reply verbatim, nothing executed; otherwise conflict, so always for other operations if the serialiser is injective |
| Guarantees.KeysAreHistory | src/writer.rs:342-350 | a key has a row if and only if a request carrying it took effect |
| Guarantees.CommitsIff | src/writer.rs:340-350 | a request takes effect if and only if it is legal and undisturbed; otherwise it leaves no trace |
| Guarantees.LinkedForever | src/writer.rs:391-434 | dedup rows name the commit row of the request that created them, in every reachable durable state |
| Guarantees.EffectStaysLinked | src/writer.rs:391-434 | one kept request keeps the tables linked |
| Guarantees.RepliesTellTheTruth | src/writer.rs:591-616 | the database behind a step is the serial execution of the kept requests; Committed means the effects, or the replayed reply, are in it; Failed means it is what the other jobs alone made it |
| Guarantees.ReplayHasOrigin | src/writer.rs:302-322 | every replay repeats the reply of a request with the same key and serialised operations whose effects are durable |
| Guarantees.CommitSequence | src/writer.rs:391-411 | fresh replies carry counter + 1, counter + 2, ... in the order they are sent, across all paths and failures |
| Guarantees.LoopIsRun | src/writer.rs:135-243 | the loop's database is the one the run-level guarantees speak about |
| Guarantees.CrashIsRun | src/writer.rs:135-243 | a crash in any step leaves the legal serial execution of what the steps before it, or that step too, kept |
| Discipline.RepliesInQueueOrder | src/writer.rs:161-222 | every write and checkpoint before Shutdown is answered exactly once, in queue order and in kind; nothing later is served |
| Discipline.NothingAfterShutdown | src/writer.rs:213 | commands behind Shutdown make no difference |
| Discipline.ControlIsBarrier | src/writer.rs:181-188 | a checkpoint, multi-operation write or Shutdown ends the drain: what is before it is served as if the queue ended there |
| Discipline.CheckpointPosition | src/writer.rs:214-220 | a checkpoint runs on the database left by exactly the earlier commands |
| Discipline.DrainIsGreedy | src/writer.rs:161-193 | the drain stops only when the batch is full, nothing waits or the next command cannot join |
| Discipline.PlanTakes | src/writer.rs:135-243 | what one iteration takes off the queue and how it serves it, in terms of the queued commands |
| Discipline.ReplyAnswersCommand | src/writer.rs:161-222 | reply k answers command k, in kind, up to the first Shutdown |
| Discipline.StepEntries | src/writer.rs:594-596 | one latency entry for a lone write that took effect and for a batch whose BEGIN and COMMIT worked, none otherwise |
| Discipline.OneEntryPerCommit | src/writer.rs:262-617 | over a run one latency entry per committed transaction, in order |
| Discipline.GroupsAreBatches | src/writer.rs:140-145 | only single-operation writes are grouped, two to max_size of them |
| Gateway.Backpressure | src/inprocess.rs:204-242 | depth never exceeds capacity; a response means applied exactly once, even if the writer panics later; Overloaded, or Closed without a panic, means never applied; order is FIFO |
| Gateway.Conservation | src/jsonrpc.rs:428-461 | accepted = committed + failed + rejected + in flight, each counter being the number of calls with that outcome |
| Gateway.VerdictsAreFinal | src/jsonrpc.rs:431-462 | a finished call never changes its outcome |
| Gateway.WaitNeverRefuses | src/inprocess.rs:214-220 | the waiting policy never answers Overloaded |
| Gateway.RefusedWhenFull | src/inprocess.rs:221-227 | over whole runs: every Overloaded under the rejecting policy was given at an event that found the queue open and filled to its capacity and enqueued nothing |
| Gateway.AnsweredInOrder | src/inprocess.rs:204-242 | under every interleaving the replies sent are a prefix of the writes enqueued before the first Shutdown, and all of them once the writer has stopped, by Shutdown or because every sender is gone |
| Gateway.ResponseIsReply | src/inprocess.rs:236-242 | a caller's response carries the status of the one reply sent for its own call |
| Threads.AnsweredByTheLoop | src/writer.rs:135-243 | the calls answered in the interleaved machine are, in order, those the writer loop answers on the same queue |
| Threads.ResponsesAreTheLoops | src/inprocess.rs:204-242 | if the writer sends the loop's statuses in the loop's order, each caller gets the loop's answer to its own write |
| Gateway.InvKept | src/inprocess.rs:204-242 | every step of callers and writer keeps the pipeline, verdict and counter invariants |
| Progress.SendTakesSlot | src/inprocess.rs:212-220 | a sender gets a slot exactly when the channel is open and has one free, under every policy |
| Progress.SenderTurnedAway | src/inprocess.rs:214-240 | exactly when a sender is refused, times out or finds the channel closed |
| Progress.WaiterComesBack | src/inprocess.rs:242 | a waiter returns with its reply exactly when it is there, and with Closed exactly when it was dropped |
| Progress.WriterTakes | src/writer.rs:136-213 | the writer takes the head of the queue until a Shutdown |
| Progress.ResponseIff | src/inprocess.rs:204-242 | from any reachable state, exactly which calls in progress can still get a response |
| Progress.EverybodyComesBack | src/inprocess.rs:204-242 | the writer's steps and the caller's alone bring every call in progress back, with a response if it can still have one and Closed if not |
| Rpc.IdEcho | src/jsonrpc.rs:262-308 | a reply carries the request's id exactly when the request could be decoded, else null |
| Rpc.ErrorCodes | src/jsonrpc.rs:239-308 | exactly when each of the seven error codes arises |
| Rpc.StoppedWriterCodes | src/jsonrpc.rs:492-497 | with a stopped writer the code is the documented -32002 if and only if the request is not a checkpoint, which gets -32000 |
| Rpc.ClosedCheckpoint | src/jsonrpc.rs:492-497 | the checkpoint request that gets -32000 |
| Rpc.EnvelopeRoundTrip | src/client.rs:191-209 | the dispatcher rebuilds the client's request if and only if it has operations |
| Rpc.SparseParamsRoundTrip | clients/node/squeue.mjs:86-99 | optional fields left out mean the same as null |
| Rpc.ReplyRoundTrip | src/client.rs:214-255 | the client recovers status, commit number and error; the request id only if it is its own |
| Rpc.ExecuteEndToEnd | src/client.rs:191-256 | request to response through envelope, dispatcher and reply |
| Rpc.ReadOperations | src/jsonrpc.rs:363-401 | the operations in order, or the complaint about the first bad one |
| Rpc.DispatchExecute | src/jsonrpc.rs:311-463 | the reply, and accepted plus exactly one outcome counter moved if and only if the parameters are good |
| Dispatching.CallIff | src/jsonrpc.rs:256-294 | exactly which lines are calls, and their method, id and parameters |
| Dispatching.AcceptedIff | src/jsonrpc.rs:318-395 | exactly which parameters of execute are accepted, field by field |
| Dispatching.AcceptedRequest | src/jsonrpc.rs:363-423 | what an accepted call becomes: operations with parameters or none, actor, run id, key and request id |
| Dispatching.RefusedWith | src/jsonrpc.rs:318-395 | which complaint a refused call gets: the first in the order of the checks |
| Dispatching.NatTextReads | src/jsonrpc.rs:417-421 | a numeric id becomes its decimal text |
| Dispatching.EveryReplyIsWellFormed | src/jsonrpc.rs:205-225 | version, id, and either a result or an error with number and text |
| Dispatching.ServiceReplies | src/jsonrpc.rs:296-308 | what stats, health, checkpoint and unknown methods are answered with |
| Dispatching.WriteReplies | src/jsonrpc.rs:428-450 | the reply to a committed and to a failed write, field by field |
| Dispatching.ClientSees | src/client.rs:191-256 | the client's response for everything execute can come to, overload, closing and empty requests included |
| Dispatching.ResultReplyRead | src/client.rs:220-237 | what the client makes of any result, and of a reply with neither result nor error |
| Dispatching.ErrorReplyRead | src/client.rs:237-250 | what the client makes of any error: the message, or the data |
| Lines.FrameInverts | clients/node/squeue.mjs:53-67 | splitting into lines loses nothing |
| Lines.FrameConcat | clients/node/squeue.mjs:53-67 | splitting in two parts with the rest carried over is splitting at once |
| Clients.Squeue.NextId | clients/node/squeue.mjs:69-71 | ids count up from 1 |
| Clients.Squeue.Roundtrip | clients/node/squeue.mjs:73-78 | one more waiter and one more line written |
| Clients.Squeue.OnData | clients/node/squeue.mjs:53-67 | a chunk hands each completed line to the oldest waiter and keeps the unterminated rest |
| Clients.ChunkInvariance | clients/node/squeue.mjs:53-67 | every way of cutting the stream gives the same lines to the same waiters and the same rest |
| Sidecar.HandleConnection | src/sidecar.rs:233-292 | the output is one line per line read, in order, up to the first one over the cap |
| Sidecar.RawLinesAreFrames | src/sidecar.rs:258-284 | what is read are the lines of the stream, plus an unterminated last one |
| Sidecar.OneReplyPerLine | src/sidecar.rs:258-291 | the k-th reply answers the k-th line; a line over the cap gets its own error and ends the connection |
| Sidecar.LinesAnswerLines | src/sidecar.rs:258-291 | split at newlines and parsed, the k-th line written is the dispatcher's reply to the k-th line sent, with its id |
| Sidecar.UnframeInverts | src/sidecar.rs:286-288 | a peer that splits the output at newlines sees exactly the replies |
| Utf8.EncodedReads | src/sidecar.rs:265-267 | the octets measured are UTF-8: reading them gives the text back |
| Utf8.CapIsOneMiB | src/sidecar.rs:265-282 | a line is dispatched if its UTF-8 text has at most 1 MiB, newline included, and gets error -32600 without an id otherwise |
| Pipelining.RepliesMatchWaiters | clients/node/squeue.mjs:53-78 | under every interleaving and chunking the k-th waiter gets the reply to the k-th line, with its own id, or a null id and no later waiter settled if that line is over the cap; while none is, the ids in transit are the waiters' ids in order |
| Pipelining.EveryConnectionMatches | src/sidecar.rs:205-217 | the same on every connection, with any number of clients interleaved in any way |
| Pipelining.OversizeAnswer | src/sidecar.rs:267-282 | a line over the cap is answered with a null id and nothing is read after it |
| Pipelining.ServerConverses | src/sidecar.rs:258-291 | under every interleaving what the server has written is what HandleConnection writes for the client's text, up to the lines read so far |
| Pipelining.WaitersGetSettled | clients/node/squeue.mjs:53-78 | from every reachable state the server and the network can settle every waiter, or every one up to the first line over the cap |
| Pipelining.RequestDecodes | clients/node/squeue.mjs:73-99 | the dispatcher reads from the client's request its id, method and parameters |
| JsonText.JsonStr | clients/jvm/Squeue.java:137-153 | the encoder loop emits the quoted, escaped text |
| JsonText.JsonArray | clients/jvm/Squeue.java:119-126 | the array loop emits the elements with commas between them |
| JsonText.JsonValue | clients/jvm/Squeue.java:128-135 | null, booleans, strings and BLOBs as JSON values, a number as its own text |
| JsonText.StringRoundTrip | clients/jvm/Squeue.java:137-153 | reading the encoded string by RFC 8259 gives the string back, whatever follows it |
| JsonTree.ArrayRoundTrip | clients/jvm/Squeue.java:119-135 | reading the encoded parameter list by RFC 8259 gives the list back if and only if the text of every number in it is a JSON number |
| JsonTree.NotANumber | clients/jvm/Squeue.java:128-135 | with a NaN parameter the encoded list cannot be read |
| JsonTree.ValueRoundTrip | clients/jvm/Squeue.java:119-153 | a JSON value comes back from its text if and only if every number in it is one in JSON |
| JsonTree.ExecuteReads | clients/jvm/Squeue.java:51-97 | the request line is exactly one JSON value: the JSON-RPC call with these fields, run id and key only if given, if and only if its numbers are JSON numbers |
| JsonText.ExecuteIsOneLine | clients/jvm/Squeue.java:51-97 | a request never contains a raw newline, so it is one line on the wire |
| JsonText.ReadLine | clients/jvm/Squeue.java:102-115 | everything up to the next newline, and the rest of the stream |
| Latency.LatencyBuffer.Push | src/writer.rs:64-71 | the ring holds exactly the last 1024 of all recorded latencies, in order |
| Latency.LatencyBuffer.HoldsTheLast | src/writer.rs:64-71 | the buffer is the last 1024 recorded values, or all if there are fewer |
| Latency.LatencyBuffer.Percentile95 | src/inprocess.rs:277-296 | an entry with at least 95% of the entries at or below it, and no smaller entry has that |
| Latency.SortCounts | src/inprocess.rs:290-291 | sorting the snapshot keeps how many entries lie at or below any value |

## Left out

- SQL, rusqlite and the WAL. Assumed: a failing statement fails alone (on a full disk or an I/O error SQLite may roll back the whole transaction by itself, which in mid-batch would take the outer transaction and the earlier jobs' effects away); user SQL is deterministic and touches user tables only, has no transaction control that the first-token check misses, no `OR ROLLBACK` clause, no deferred constraint that only COMMIT reports, and there is no second writer or trigger on the internal tables.
- The rules of `validate_sql`: kept as an arbitrary check that both paths call first.
- Writers.Writer.Run: the shutdown checkpoint after the loop changes nothing modelled; a checkpoint is its position, the database it runs on and its outcome.
- Writers.Writer.Fill: the statements between opening and closing, written out twice in the source, are one method here.
- Guarantees.ExactlyOnce: speaks of runs with idempotency on throughout; with it off the source ignores keys.
- Rollback of a dropped transaction is assumed to succeed; the failure of ROLLBACK TO inside a batch is modelled.
- Timestamps, `max_delay_micros`, real time: a timeout is a step that may happen whenever a caller is still sending under that policy.
- serde_json: stored responses are kept as values (None for NULL or unparseable), operation lists are serialised by an arbitrary function; the wire codec in `Pipelining` is any printer and parser that invert each other on one line.
- base64 and parameter conversion (`json_to_sqlite`): part of the arbitrary `Engine.exec`; a BLOB is its base64 text.
- Latency.LatencyBuffer.Percentile95: uses ceil(19 N / 20) instead of f64; the average is not modelled.
- JsonText.JsonValue: which text Java prints for a given number; it is any text on one line here.
- JsonText: UTF-8 encoding, where Java replaces unpaired surrogates.
- Pipelining.RepliesMatchWaiters: request ids are unbounded integers; JavaScript numbers are exact only up to 2^53.
- Sidecar.HandleConnection: a failing socket read or write and invalid UTF-8, which end the connection early, are not modelled.
- Gateway: `execute`, `checkpoint` and `shutdown` are steps of a state machine on values, because a call is suspended between enqueuing and its reply while others run; what the writer does to the database is in `Writers`, here applying a write is one step.
- Rpc.Dispatch: the parser's own words behind "parse error" and "invalid request structure".
- Threads.ResponsesAreTheLoops: that the writer sends the loop's statuses is its hypothesis; in the interleaved machine a status is arbitrary.
- HTTP transport, authentication, stats and health formatting, the gateway binary, and the other language clients, which repeat the shapes above.
