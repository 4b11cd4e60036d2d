# Risk pipeline: a verified model

The system scores blockchain transactions for risk. A replay producer sends one graph batch a
time step to Kafka; a materializer writes each batch to PostgreSQL together with one scoring
request per transaction in an outbox table; relays copy the outbox to Kafka; an inference worker
scores each transaction on its bounded neighbourhood and sends a result; a projector keeps one
canonical score per transaction and model and leaves an intent to publish; publishers append the
intents to a Redis Stream once per event; gateways fan the stream out to browsers over WebSockets
and serve neighbourhoods through a cache. Every hop promises at-least-once delivery with
idempotent effects.

The project models that system and proves what it promises, over every run, with a crash possible
between any two steps. `dafny verify dfyconfig.toml` checks it.

## How it is organised

| files | subject |
|---|---|
| Options, Events, Identity | optional values; the contract events; the identity strings, hashed ids and keys |
| Tables | the database tables, the two transactions, and a class that performs them |
| MaterializationOrder, CanonicalScore | what any order of delivery, with repetitions, leaves in the tables |
| Consumers | one consumer of one partition: session, queue, offset commits |
| Pipeline, PipelineInvariant, PipelineTransactions, PipelineRuns | the whole pipeline as steps, its invariant, and the proof that every step keeps it |
| Provenance | where scores, stream entries and the graph come from, over every run |
| Paths, ProjectorLosses | continuations of runs; when a partition's losses in a row are bounded |
| Drains, Recovery | runs that finish the work at hand; from which states the pipeline can come to rest |
| PipelineTheorems, PipelineWalk | what follows for every reachable state; three concrete runs |
| Services, WorkerService, RelayService | the service loops as programs that only take steps the pipeline allows |
| StreamIds, RedisStream | stream ids, and the deduplicating append script |
| Ordering, Graph, Subgraph, Admission, SubgraphTheorem | the bounded neighbourhood query, against distance balls |
| GraphBuffer, ModelInput | the in-memory search the query replaced, and the model's input under both |
| SubgraphCache | the subgraph endpoint and its cache, many requests side by side |
| Broadcaster, Delivery, DeliveryTheorems | the fan-out to one browser: replay, live queue, reconnects |
| PendingQueue, RecencyList, EdgeList, EventWindow | what the dashboard keeps in memory |
| ReplayProducer | the producer and its checkpoint |
| Compatibility | the schema compatibility check |

What calls into infrastructure do (which one raises, whether a message arrived, what the clock
says, which stream id the server assigns, which rows a relay finds unlocked) is a parameter of
the step or method concerned. The classes `Database`, `Server`, `GraphBuffer`, `Gateway`,
`RedisStreamBroadcaster`, `Sender`, `PendingQueue`, `RecencyList`, `EdgeList`, `EventWindow`,
`Producer`, `ErrorLog` and `Runtime` update their fields in place as the program does; each
method is tied to a function or a step whose properties are proved beside it.

## What the code does where its documentation says otherwise

- "An offset is committed only after its durable work": the materializer and the projector go on
  to the next record after a general failure without seeking back, and a later commit passes the
  failed one. `CommittedBatchesAreDurable` and `CommittedResultsAreProjected` say exactly what is
  left. Of the graph topic, `GraphLossesAreShort` bounds the losses in a row, and `PassOver` is a
  run that loses a batch. A projector's failure count is shared by its partitions and cleared
  by a success on any of them: it bounds failures in a row over all of them (`RunProjector`).
  It bounds the losses in a row of one partition exactly when the projector owns no other
  partition, or the budget is one, so that no failure is passed over (`LossesAreShortExactly`);
  otherwise any backlog can be lost (`BacklogCanBeLost`), valid results included
  (`LoseInARow`). The worker has no such branch (`CommittedRequestsAreScored`).
- A request whose headers cannot be read (one without a value) raises outside the worker's
  retries: it is neither retried nor dead-lettered, and ends the worker (`ProcessRecord`).
- A send timeout in the live sender is caught as a heartbeat timeout, so the entry at hand is
  given up, and the sender's cursor may fall behind what the browser holds. `SentIsAPrefix` gives
  the exact condition under which one connection has no gap, `ReceivedIsAStretch` the exact
  condition over reconnects; `DroppedSendLeavesGap` is a run with a gap and `HeartbeatSetsBack`
  one in which an entry arrives twice.
- A request scored again after a crash repeats the result id with a later time; the copy is
  dropped by the inbox, so the canonical score need not be the greatest delivered one
  (`RescoredCopyIsIgnored`). It is exactly when the first delivered copy of the greatest result's
  event is that result (`GreatestWinsExactly`, `MaximalExactly`).
- Edges with both ends at distance exactly `hops` are never reported by the query, though the
  buffer it replaced did report them; `CompareAnswers` is exact about it.
- A projected score does not change the watermark, so a cached neighbourhood may show an older
  risk (`ScoresDoNotRenewTheKey`).

## Model

| member | source | states |
|---|---|---|
| PipelineTheorems.ExactlyOnceAtRest | shared/database/queries.py:62-254 | In every run with crashes between any two steps, once all logs are consumed, all outbox rows are marked and nothing was dead-lettered or lost: each transaction of each produced batch has exactly one canonical score and exactly one stream entry, and the three counts are equal. |
| PipelineTheorems.ScoredOnceAtRest | shared/database/queries.py:62-254 | At rest, whatever batches a transaction belongs to: the canonical scores are exactly those of the produced transactions, and each of these, and no other, has at least one stream entry and at most one for each produced batch it belongs to. |
| Recovery.RestIsReachableExactly | docs/architecture.md:101-101 | From a reachable state, after any crashes, rollbacks, repeated sends and failures, some continuation leads to rest if and only if nothing malformed has arrived, nothing was dead-lettered and every committed record had its effect. |
| Recovery.ComesToRest | docs/architecture.md:101-101 | That continuation needs no further batch: all accepted work is finished, so everything produced is scored and published. |
| PipelineTheorems.CopiesAreExact | services/outbox_relay/main.py:80-132 | For any number of relays and any crash point, an outbox row has as many copies in its topic as rolled-back batches sent, plus one if it is marked or an open batch has sent it; so a committed mark implies a copy. |
| PipelineTheorems.TopicHoldsOnlyOutboxRows | services/outbox_relay/main.py:80-111 | Every valid message in the request topic is the message of an outbox row, in the partition of its key. |
| PipelineTheorems.GraphIsNeverMissing | services/inference_worker/main.py:98-117 | No request that came through the outbox ever meets the worker's missing-graph checks: its transaction is stored at the request's watermark or above, and the neighbourhood query reports a watermark that is not lower. |
| PipelineTheorems.CommittedBatchesAreDurable | services/graph_materializer/main.py:55-142 | Each offset below the materializer's committed one has its claim and all its scoring requests in the tables, or was dead-lettered, or fell into the branch that does not seek back. |
| PipelineTheorems.GraphLossesAreShort | services/graph_materializer/main.py:127-142 | Offsets of the last kind never come as many in a row as the retry budget. |
| PipelineTheorems.CommittedRequestsAreScored | services/inference_worker/main.py:179-285 | Each offset below the worker's committed one has its result in the result topic or was dead-lettered; none is lost. |
| PipelineTheorems.WorkerQueueIsFifo | services/inference_worker/main.py:288-347 | For any number of workers: a worker's one queue never holds more than its capacity over all its partitions, and of each partition holds the consecutive offsets just before its read position. |
| PipelineTheorems.CommittedResultsAreProjected | services/result_projector/main.py:55-128 | In every run of any number of projectors, each with one failure count for all its partitions, each offset below a partition's committed one has its inbox claim and its transaction a canonical score, or was dead-lettered, or fell into the branch that does not seek back. |
| ProjectorLosses.LossesAreShortExactly | services/result_projector/main.py:55-128 | In every reachable state any retry budget of consecutive committed offsets of a result partition holds a handled one, if and only if the partition's projector owns no other partition or the budget is one. |
| ProjectorLosses.ResultLossesAreShort | services/result_projector/main.py:115-128 | Where that holds, the handled offset is a dead letter or a claimed result whose transaction has a canonical score. |
| ProjectorLosses.BacklogCanBeLost | services/result_projector/main.py:90-128 | Where it does not: from any reachable state in which a projector owns a second partition with nothing to do, some continuation commits every record waiting in the first, with no further effect and no further dead letter but one after them. |
| PipelineTheorems.PublicationIsOnce | services/result_projector/main.py:210-252 | In every reachable state the stream holds at most one entry per event, every marked intent has its entry with the intent's payload, and the source of every canonical score has an intent. |
| Provenance.ScoresArePredicted | services/inference_worker/main.py:119-166 | Over every run, each canonical score is field by field (transaction, model, source, probability, watermark, time, feature schema) a result that a worker step of the run sent for the request it had in hand, with the probability and time it was given there. |
| Provenance.StreamIsPredicted | services/result_projector/main.py:210-252 | So is the payload of every stream entry, which stands under that result's event. |
| Provenance.GraphIsObserved | shared/database/queries.py:71-113 | In every reachable state each stored transaction has the time step, features, schema and times of a produced batch that carries it, and each stored edge is one of a produced batch. |
| PipelineRuns.StepKeeps | services/graph_materializer/main.py:42-142 | Every step of every service, relay and publisher keeps the pipeline's invariant. |
| PipelineRuns.ReachableHolds | services/inference_worker/main.py:179-347 | The invariant holds in every reachable state. |
| PipelineWalk.Walk | shared/database/queries.py:53-254 | A reachable state at rest: one transaction has travelled through every service and has its one score and one stream entry. |
| PipelineWalk.PassOver | services/graph_materializer/main.py:127-142 | A reachable state in which a failed batch was passed over by the next commit and is lost. |
| PipelineWalk.LoseInARow | services/result_projector/main.py:55-128 | Such a loss of valid results: a transaction is scored a whole budget of times, and every one of these results is committed and lost, for any budget of at least two and a projector that owns a second partition. |
| Consumers.ApplyKeepsSound | services/inference_worker/main.py:288-347 | Reading, queueing, effects, dead letters, commits, skips and crashes keep the partition protocol: every committed offset is accounted for and a session's queue is the gap-free stretch before its position. |
| Consumers.ApplyKeepsGaps | services/graph_materializer/main.py:127-142 | No such step lets a whole retry budget of consecutive offsets go unhandled. |
| Consumers.NothingLostWithoutSkips | services/inference_worker/main.py:179-285 | A consumer that never takes the no-seek branch has an effect or a dead letter for every committed offset. |
| Tables.Database.MaterializeGraphBatch | shared/database/queries.py:53-184 | One batch as one transaction, statement by statement: all of claim, nodes, edges, checkpoint and requests, or nothing, and for each failure which statement fails. |
| Tables.Database.ProjectScoringResult | shared/database/queries.py:187-254 | One result as one transaction: duplicate, outdated (the claim stays), canonical (score and intent), or refused by a constraint with nothing changed. |
| Tables.Database.EdgeRows | shared/database/queries.py:102-109 | The edge loop collects each distinct edge and fails exactly on a self edge. |
| Tables.Database.OutboxRows | shared/database/queries.py:135-170 | The outbox loop makes exactly one fresh row for each scoring request of the batch. |
| Tables.BatchIsApplied | shared/database/queries.py:62-133 | A batch is applied if and only if it is new, names no transaction twice whose row it would write, has no self edge, and its edges join transactions that are stored or its own. |
| Tables.BatchOutcome | shared/database/queries.py:53-170 | Which outcome a batch has, for each the exact condition: duplicate, applied, or the statement that fails first. |
| Tables.BatchEffect | shared/database/queries.py:62-177 | Each transaction of an applied batch is stored with the batch's data unless a row with a higher watermark was there, and its request is in the outbox, a new one field by field as derived from the batch, unsent and without attempts. |
| Tables.BatchLeavesOthers | shared/database/queries.py:62-177 | The checkpoint becomes the batch's step and source offset unless it is ahead, edges and claims are exactly the old and the new, and every other row stays as it was. |
| Tables.ResultIsCanonical | shared/database/queries.py:196-254 | A result becomes canonical if and only if it is new, its transaction has no score and is stored or has one it is not behind in watermark or time, and no other score has its source; then its score, field by field, is the only one that changes, and it has an intent. |
| Tables.ResultOutcome | shared/database/queries.py:187-254 | Which outcome a result has, for each the exact condition: seen, outdated, canonical, or refused by which constraint. |
| Tables.MaterializeExtends | shared/database/queries.py:62-177 | A materialized batch only adds: claims, edges, requests and scores stay, watermarks do not fall, foreign keys hold. |
| Tables.ProjectExtends | shared/database/queries.py:196-254 | A projected result only adds in the same sense, and its score's watermark and time do not fall. |
| MaterializationOrder.OrderIsIrrelevant | shared/database/queries.py:62-177 | Any two lists of the same batches, in any order and with any repetitions, end in the same nodes, edges, checkpoints, claims and outbox ids, when distinct batches have distinct steps and edges stay within their batch. |
| CanonicalScore.KeptScoreIsMaximal | shared/database/queries.py:196-254 | After any deliveries the kept score is one of the first deliveries (or the score from before), and no first delivery lies above it in watermark and time. |
| CanonicalScore.ScoresNeverDecrease | shared/database/queries.py:229-232 | A score's watermark and time never decrease while results arrive. |
| CanonicalScore.GreatestWinsExactly | shared/database/queries.py:196-254 | If one delivered result lies above all others of its transaction, the score ends as that result if and only if the first delivered copy of its event is that result. |
| CanonicalScore.MaximalExactly | shared/database/queries.py:196-254 | Under the same condition, and only then, no delivered result of the transaction lies above the kept score. |
| CanonicalScore.ChainIsWonExactly | shared/database/queries.py:196-254 | If any two different results of a transaction are strictly ordered, one lies above all others, and the score ends as that one if and only if the first delivered copy of its event is it. |
| CanonicalScore.MaximalAmongAll | shared/database/queries.py:196-254 | In particular, when an id fixes its payload, no delivered result, with or without a greatest one, lies strictly above the kept score. |
| CanonicalScore.GreatestWins | shared/database/queries.py:229-232 | In particular, when an id fixes its payload, the score ends as the greatest delivered result for every order and any repetitions. |
| CanonicalScore.RescoredCopyIsIgnored | services/inference_worker/main.py:136-166 | The condition can fail: a rescored copy above the kept score is ignored. |
| Services.Runtime.Take | services/graph_materializer/main.py:55-142 | A service takes a step only where the pipeline allows it; the invariant survives and the state stays reachable. |
| Services.BatchBranches | services/graph_materializer/main.py:62-142 | Which branch a batch takes: with readable headers it is dead-lettered if and only if it is malformed, or is new, names no transaction twice whose row it would write, and has a self edge or an edge to an unknown transaction; and the exact conditions for success and for the general failure branch. |
| Services.Runtime.HandleBatch | services/graph_materializer/main.py:62-142 | For one batch, readable headers or not, and any pattern of calls that return, raise without effect or raise after it: which branch is taken, how it ends, and the whole new state. |
| Services.Runtime.BuryBatch | services/graph_materializer/main.py:101-126 | The dead-letter branch publishes before it commits, and commits only if the publication returned; anything raised in it ends the process. |
| Services.Runtime.Settle | services/graph_materializer/main.py:99-142 | After a record the session goes on at the next one, with the failure count cleared or raised, or the process stops. |
| Services.Runtime.MaterializeNext | services/graph_materializer/main.py:55-142 | One record: the failure count is reset or raised, and the process stops exactly on a raised dead letter or an exhausted budget. |
| Services.Runtime.RunMaterializer | services/graph_materializer/main.py:53-142 | The loop moves on by one record a poll whatever becomes of it, and gives up exactly when the consecutive failures reach the budget; if headers are readable, no call raises and no batch repeats a transaction, every batch taken is in the tables with its requests or dead-lettered, all are committed, and none is lost. |
| Services.StreakMeans | services/graph_materializer/main.py:127-142 | The count reaches a number exactly when that many endings at the end are failures. |
| Services.ResultBranches | services/result_projector/main.py:64-128 | The same for a result: dead-lettered if and only if it is malformed, or is new and its transaction is unknown or another score has its source. |
| Services.Runtime.HandleResult | services/result_projector/main.py:64-128 | For one result and any pattern of calls, as for a batch: branch, ending and whole new state. |
| Services.Runtime.BuryResult | services/result_projector/main.py:91-114 | The projector's dead-letter branch. |
| Services.Runtime.SettleResult | services/result_projector/main.py:90-128 | After a record of any partition the process's one count is cleared or raised and that partition's session goes on, or, exactly when dead-lettering raised or the budget is reached, every session ends. |
| Services.Runtime.ProjectNext | services/result_projector/main.py:57-128 | One record of one partition: only that partition moves, by one. |
| Services.Runtime.RunProjector | services/result_projector/main.py:55-128 | The loop over polls of any of the process's partitions: each has moved on by the records taken from it, the partitions of other processes stay, and the process gives up exactly when the failures in a row over all its partitions reach the budget; undisturbed, every result taken has its effect or a dead letter, all are committed, and none is passed over. |
| WorkerService.PollIntoQueue | services/inference_worker/main.py:295-318 | The poll asks for no more records than the poll limit and the room left in the queue shared by all partitions; what it returns is queued in each partition's order, and a full queue is not polled for. |
| WorkerService.Send | services/inference_worker/main.py:119-176 | The message sent carries the request's transaction and watermark, the worker's model and feature schema, and the probability and time of this attempt, under the request's result id. |
| WorkerService.ProcessRecord | services/inference_worker/main.py:179-285 | For any pattern of attempts: the record ends scored, or dead-lettered, or, exactly when its headers are unreadable or dead-lettering itself raises, with every session of the worker ended; in the first two cases its offset is committed; the result topic gained, in order, exactly one result for each attempt whose send took effect, each with the prediction of its attempt, and the record a dead letter exactly when it was readable, not scored, and its publication took effect. |
| WorkerService.AttemptAll | services/inference_worker/main.py:209-254 | The retry loop stops at the first success, the first permanent error, or the budget, and not before. |
| RelayService.RelayBatch | services/outbox_relay/main.py:80-132 | One batch for any pattern of sends: on success every row is marked and has one more copy; otherwise nothing is marked, the rows sent before the failure have one more copy, the failed row one if its send took effect before it raised, and unless recording fails it has one attempt more and the first 512 characters of the error. |
| RelayService.PublishBatch | services/result_projector/main.py:212-252 | One publisher batch: all rows marked and published, or nothing marked and published a prefix, which ends with the failed row if its append took effect. |
| RedisStream.PublishKeepsOnce | shared/redis/stream.py:8-20 | The append script keeps at most one entry per event, under the id its key remembers. |
| RedisStream.RetryReturnsTheFirstId | shared/redis/stream.py:8-44 | Retries return the id of the first append and add nothing. |
| RedisStream.Server.PublishResult | shared/redis/stream.py:8-44 | The script as run by the server: new history, new keys, returned id. |
| Graph.BallIsReach | shared/database/queries.py:391-444 | The distance ball used below is exactly what walks of at most that many edges reach. |
| Subgraph.GetBoundedSubgraph | shared/database/queries.py:372-479 | The query's loops compute the level-by-level search with its three truncation points. |
| Subgraph.ScanLevel | shared/database/queries.py:422-432 | The loop over one level's rows, with the node limit checked before each admission. |
| Subgraph.SelectEdges | shared/database/queries.py:398-420 | The rows a level reads are the least of the edges touching the frontier, in order, up to the limit. |
| SubgraphTheorem.TruncatedMeansIncomplete | shared/database/queries.py:391-479 | The answer is marked truncated if and only if it is not the whole ball of radius hops with every stored edge that has an endpoint closer than that. |
| SubgraphTheorem.AnswerIsBounded | shared/database/queries.py:391-479 | Truncated or not: both limits hold, every node is joined to the center by at most hops reported-node edges, nothing further out is reported, the lists are ordered, and every node is shown with the features and time step of its row and the risk of its score under the model, or 0 without one. |
| SubgraphTheorem.EdgesKeptAreLeast | shared/database/queries.py:454-459 | Where the edge limit cuts the answer, the edges kept are the least of those discovered between reported nodes. |
| Admission.LevelAdmitsFirst | shared/database/queries.py:422-432 | A level admits the new transactions its rows mention in the order of first mention, source before target, as many as fit the node limit, and is marked truncated exactly when one more is mentioned. |
| SubgraphTheorem.WatermarkCoversCenter | shared/database/queries.py:477-477 | The reported watermark is the highest among the reported nodes, hence at least the center's. |
| GraphBuffer.GraphBuffer.AddNodes | streaming/graph_buffer.py:9-11 | The last node added for an id is the one kept; others stay. |
| GraphBuffer.GraphBuffer.AddEdges | streaming/graph_buffer.py:13-16 | Exactly the given edges are entered, each in both directions. |
| GraphBuffer.GraphBuffer.Search | streaming/graph_buffer.py:18-34 | The re-queueing search ends, stays within the ball, and covers it when the ball is below the node limit. |
| GraphBuffer.PopPays | streaming/graph_buffer.py:22-34 | The weighted measure under which the search ends: a visit costs more than the visits it queues. |
| GraphBuffer.GraphBuffer.GetSubgraph | streaming/graph_buffer.py:18-46 | The answer's nodes, each once with its row, and exactly the pairs between them; it fails exactly when a visited id has no row. |
| ModelInput.ModelEdgesAreDoubled | shared/model/runtime.py:43-57 | The model is shown both directions of each edge. |
| ModelInput.CompareAnswers | shared/model/runtime.py:43-57 | Over the same stored graph, when the query is not truncated and the ball is below the buffer's limit, both answers have the same transactions with the same features, and the model is shown the buffer's returned pairs minus those with both ends at distance exactly hops. |
| ModelInput.QueryMatchesBuffer | shared/model/runtime.py:43-57 | The step behind it: for a buffer holding both directions of the stored edges that visits the whole ball, the query's nodes and model edges are those. |
| SubgraphCache.EveryAnswerIsADirectAnswer | services/api_gateway/main.py:234-274 | Whatever runs beside it, every answer, cached or not, is the direct query's on a database state whose checkpoint had reached the watermark the request read; without a hit that state is no older than the read. |
| SubgraphCache.ScoresDoNotRenewTheKey | services/api_gateway/main.py:234-274 | Any projected score leaves every watermark, hence every key, and changes the direct answer if and only if the answer shows its transaction under its model with another risk. |
| SubgraphCache.CommitRaisesWatermark | shared/database/queries.py:117-133 | No commit lowers a stream's watermark. |
| SubgraphCache.Gateway.Subgraph | services/api_gateway/main.py:222-303 | The handler: the smaller of requested and configured limits, validation, hit, miss, not found, and failures of either cache access. |
| Identity.IdentityStringsAreInjective | shared/contracts/ids.py:8-17 | Identity strings determine the event within and across families, whatever colons ids, streams, stages and models hold. |
| Identity.IdentitiesAsWritten | shared/contracts/ids.py:8-17 | The identity string of each family: its name, then its parts in order, joined by colons. |
| Identity.IdTextsAreInjective | shared/contracts/ids.py:8-17 | If the hash does not collide on the strings actually hashed, equal id texts mean equal events. |
| Identity.OutboxKeysAreDisjoint | shared/database/queries.py:239-251 | Request rows and publication intents never share a primary key of the outbox table. |
| Identity.DedupKeysAreInjective | shared/redis/stream.py:32-32 | A deduplication key names one stream and one event. |
| Identity.CacheKeysAreInjective | shared/database/queries.py:482-494 | A cache key names one query at one watermark for validated transaction ids. |
| Identity.UnvalidatedIdsCollide | services/api_gateway/main.py:112-115 | Without the validation, different queries share a key. |
| DeliveryTheorems.SentIsAPrefix | services/api_gateway/main.py:378-409 | At every moment what arrived on a connection is a gap-free stretch right after its cursor, if and only if nothing arrived after an entry given up on a send timeout, and the history read reached where the live queue begins or no live entry arrived. |
| DeliveryTheorems.SentIsOrdered | services/api_gateway/main.py:468-519 | Across the replay-to-live switch and under queue overflow, what arrives is strictly increasing and after the cursor, and misses exactly the entries given up or cut off. |
| DeliveryTheorems.RecentIsNeverCut | services/api_gateway/broadcaster.py:102-109 | A browser that asks without a cursor gets a history that reaches its live queue, so its connection has a gap only if an entry arrived after one given up. |
| DeliveryTheorems.ReceivedIsAStretch | frontend/src/context/WebSocketContext.tsx:345-398 | Over any sequence of connections to any gateways the browser's entries are a gap-free, duplicate-free stretch right after its first cursor, if and only if none arrived on a connection that had given one up or cut one off, and none on a connection that asked otherwise than with the last entry received. |
| DeliveryTheorems.ReconnectsLoseNothing | frontend/src/context/WebSocketContext.tsx:345-398 | In particular each entry arrives once, in order, without gaps, while no send timed out and every history read reached the live queue. |
| DeliveryTheorems.DroppedSendLeavesGap | services/api_gateway/main.py:395-398 | The first half of the condition can fail: a run in which the browser holds the second entry and never the first. |
| DeliveryTheorems.HeartbeatSetsBack | services/api_gateway/main.py:384-409 | The second half can fail: after a send that timed out but arrived, a heartbeat and a reconnect, the entry arrives twice. |
| Delivery.StepKeepsConnection | services/api_gateway/broadcaster.py:80-165 | Appends, the tail, the history read and every kind of send keep the connection invariant. |
| Broadcaster.RedisStreamBroadcaster.Register | services/api_gateway/broadcaster.py:80-86 | A new client with an empty queue, or a refusal exactly at capacity. |
| Broadcaster.RedisStreamBroadcaster.Unregister | services/api_gateway/broadcaster.py:88-91 | The client is forgotten and closed. |
| Broadcaster.RedisStreamBroadcaster.Broadcast | services/api_gateway/broadcaster.py:154-165 | Every client is offered the entry; exactly those without room are closed and forgotten. |
| Broadcaster.RedisStreamBroadcaster.Tail | services/api_gateway/broadcaster.py:121-137 | Over one read, a client receives the rows that fit and is closed exactly when one does not; the cursor is the last row's id. |
| Broadcaster.RedisStreamBroadcaster.ReplayAfter | services/api_gateway/broadcaster.py:93-100 | The entries strictly after the cursor, oldest first, as many as there are up to the limit. |
| Broadcaster.RedisStreamBroadcaster.ReplayRecent | services/api_gateway/broadcaster.py:102-109 | The last entries of the stream, as many as there are up to the limit, oldest first. |
| Broadcaster.Sender.SendHistory | services/api_gateway/main.py:489-502 | The replayed rows go out up to the first failing send, and the sender's cursor is the last one sent. |
| Broadcaster.Sender.Turn | services/api_gateway/main.py:384-409 | One turn of the live loop is exactly the corresponding step of the delivery machine. |
| PendingQueue.QueueKeepsTheNewest | frontend/src/context/WebSocketContext.tsx:284-325 | After any puts and drains: at most max items wait, they are the newest, what was taken is in order, every item is taken, dropped or waiting, and nothing is dropped below the limit. |
| PendingQueue.PendingQueue.EnqueueTransaction | frontend/src/context/WebSocketContext.tsx:284-296 | The array with a head index behaves as that queue; its length stays within max plus the larger of max and 1024, and all compactions together move no more items than were enqueued. |
| PendingQueue.PendingQueue.DrainTick | frontend/src/context/WebSocketContext.tsx:314-325 | One tick takes the oldest item, or nothing when paused or empty, under the same bounds. |
| RecencyList.RecencyList.Ingest | frontend/src/context/WebSocketContext.tsx:192-208 | The list stays the first max of all ids ever seen, most recent first, and the shadow set exactly its ids. |
| RecencyList.HistoryKeepsTheLatest | frontend/src/context/WebSocketContext.tsx:192-208 | In that order every id appears once, with the last item that carried it. |
| RecencyList.MoreRecentComesFirst | frontend/src/context/WebSocketContext.tsx:192-208 | Of two ids the one seen later comes first. |
| RecencyList.HistoryKeepsOnlyTheLatest | frontend/src/context/WebSocketContext.tsx:192-208 | Nothing else is in that order than the last item of each id. |
| RecencyList.OneMoreIngested | frontend/src/context/WebSocketContext.tsx:192-246 | Keeping only the first max items loses nothing a later update would bring back. |
| EdgeList.EdgeList.Ingest | frontend/src/context/WebSocketContext.tsx:247-266 | The new links come first, the oldest edges are evicted, keys stay distinct, and the key set matches the list through evictions. |
| EdgeList.NoPairTwice | frontend/src/context/WebSocketContext.tsx:247-266 | A list with distinct keys never holds an undirected pair twice. |
| EdgeList.PairKeyNamesThePair | frontend/src/context/WebSocketContext.tsx:250-250 | For ids without the joining character a key names one undirected pair. |
| EdgeList.LinksAreNew | frontend/src/context/WebSocketContext.tsx:248-254 | The links added are distinct and unknown, and afterwards every neighbour's pair is known. |
| EdgeList.LinksKeepOrder | frontend/src/context/WebSocketContext.tsx:248-254 | The links added keep the order in which the neighbours are mentioned. |
| EventWindow.EventWindow.RememberEvent | frontend/src/context/WebSocketContext.tsx:334-343 | The window and its set hold exactly the last accepted event ids, and an event is new exactly when it is not among them. |
| EventWindow.RedeliveryIsIgnored | frontend/src/context/WebSocketContext.tsx:334-343 | An event let through is not let through again before a whole window of others was. |
| ReplayProducer.TopicIsAPrefix | services/replay_producer/main.py:142-239 | After any crashes and restarts time steps never go back, copies of a step agree in id and in an offset equal to its index, and without repeats the topic is a prefix of the positive steps, all of them when the checkpoint reached the last. |
| ReplayProducer.RestartsCompose | services/replay_producer/main.py:91-131 | Lives of the process follow one another like turns of one. |
| ReplayProducer.Producer.Run | services/replay_producer/main.py:134-239 | One life of the process leaves exactly the topic and checkpoint of its turns, and marks the replay completed only when no step remains. |
| Compatibility.NoErrorsMeansCompatible | shared/contracts/compatibility.py:6-68 | For any two schemas the report is empty if and only if the version changed or the candidate keeps every definition, nested property, type (by reference, type name or union members) and required field. |
| Compatibility.ReportIsExact | shared/contracts/compatibility.py:6-68 | A line is in the report if and only if the versions agree and, at some depth, it names a required field dropped, a property or definition removed, or a property of another type: the reference counts first, then the type, then the union's members in any order. |
| Compatibility.ChangedTypeIsReported | shared/contracts/compatibility.py:38-67 | A property whose reference, or without references whose type, differs within one version is reported by name. |
| Compatibility.UnionsMatch | shared/contracts/compatibility.py:43-44 | Where different signatures have different texts, the members of equal unions have the same types, one for one in some order. |
| Compatibility.VersionIsRead | shared/contracts/compatibility.py:29-35 | The version is the constant of the schema_version property, or else its only allowed value, or none. |
| Compatibility.CompatibleWithItself | shared/contracts/compatibility.py:6-68 | A schema is compatible with itself. |
| Compatibility.CompatibilityIsTransitive | shared/contracts/compatibility.py:6-68 | Within one version compatible changes add up. |
| Compatibility.BackwardCompatibilityErrors | shared/contracts/compatibility.py:6-26 | The checker's report, in order. |
| Compatibility.ErrorLog.CompareObject | shared/contracts/compatibility.py:48-68 | The recursive comparison appends exactly its own findings to the shared list. |

## Left out

- The hash behind event ids and the cache: ids are tuples, and `Identity` proves that nothing is lost as long as the hash does not collide on the strings it is given.
- The trained model, its scaler and its features: a probability is an opaque number, a feature vector a sequence of reals.
- Latency fields, metrics, tracing, logging, trace headers, pacing and retry delays, which have no effect on the state modelled.
- Kafka, PostgreSQL and Redis internals: logs, atomic transactions and skipped locks are abstract; there is no rebalancing, and the worker or projector that owns a partition is fixed.
- Stream trimming, expiry of deduplication keys and of claims: the append history and the keys stay.
- The order in which a relay picks rows: any set of unlocked, unpublished rows up to the batch size may be picked.
- RelayService.PublishBatch: one batch is stated; the loops around relay and publisher batches (polling, back-off, the publisher's failure budget) only decide when the next batch opens.
- One clock value stands for all the timestamps of one materialized batch.
- The outbox table is kept as two maps, one per relay kind; `Identity.OutboxKeysAreDisjoint` justifies it.
- Recovery.RestIsReachableExactly: for settings with room for at least one record and batches that the materializer accepts in any order (no repeated transaction, edges within the batch, the model's feature schema). It says that rest can be reached, not that a scheduler reaches it.
- PipelineTheorems.ExactlyOnceAtRest: assumes that each transaction belongs to one batch, that there is one model version, and that requests enter the topic through the outbox only.
- WorkerService.PollIntoQueue: the paused flag only decides when to poll; the model polls whenever there is room. The order in which a worker takes records of different partitions from its queue is left open.
- The content of a dead letter, its own failure to validate beyond raising, and the tools that replay dead letters.
- Broadcaster.RedisStreamBroadcaster.Tail: the rows of one read are given; the tail's restart from the newest entry before its first read and its back-off are not modelled, so a gateway's position at registration is any point of the stream.
- Broadcaster.RedisStreamBroadcaster.ReplayRecent: the newest-first read of the server is taken as given.
- DeliveryTheorems.ReceivedIsAStretch: assumes an untrimmed stream.
- Threshold, speed and pause messages of the WebSocket, and the replay control row: the gateway reads it and then writes it without a row lock.
- SubgraphCache.EveryAnswerIsADirectAnswer: the query reads one snapshot of the tables; `get_bounded_subgraph` issues several statements, and `shared/database/session.py` sets no isolation level under which they would read the same one.
- SubgraphCache.Gateway.Subgraph: the JSON round trip of a cached answer and the query timeout are not modelled; a request that raises is abandoned.
- Subgraph.GetBoundedSubgraph: the query without a model version, which shows each transaction's latest score; no service issues it.
- GraphBuffer.GraphBuffer.Search: with a ball at or above the node limit only containment is stated, since the limit is checked after adding and is no bound.
- The order of names uses code points, as the database's collation is not part of this model.
- The presentation fields of a stream entry (rounding, amount, neighbours, latencies): an entry carries the scoring result itself.
- Compatibility.ChangedTypeIsReported: a reference is never equal to a union, though Python compares both as tuples of texts; they would be equal only for a union of two members whose texts are `ref` and the reference.
- Compatibility.ErrorLog.CompareObject: the text Python gives a type signature inside a union is a parameter.
- Rendering, charts, demo data, reconnect delays and the doubled invocation of development mode in the dashboard.
- Settings validation, health endpoints, REST formatting, migrations and scripts.
