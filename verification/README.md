# Verified model of redisson-rs's client-side machinery

This project models, in Dafny, the parts of redisson-rs that do more than pass a command on, and proves what they
promise their users. `dafny verify dfyconfig.toml` checks all of it.

- **Batches.** `BatchLifecycle` is the queue under any interleaving of callers, executor and discarder. `Grouping`,
  `LoadScripts`, `Endpoints`, `NodeJob` and `BatchExecution` are the execution of an in-memory batch: scatter by
  primary, load and rewrite scripts, choose primary or replica, frame each node's pipeline, peel its replies, join.
  `BatchMeaning` holds the reference the execution is measured by, the queue run one command at a time on the nodes
  each command is routed to, and `BatchGuarantees` what follows for users. `RedisQueue` is the mode that queues in
  Redis.
- **Scripts.** `EvalAsync` is the evaluation of one script by hash with its fallbacks, `ScriptCaches` the two caches of
  the service manager, `CacheRuns` the soundness of the per-node one over whole runs of many clients.
- **Publish/subscribe.** `PubSub` is the listener registry against the server's subscriptions, `Glob` the pattern
  matcher, `Dispatch` the delivery of messages.
- **Locks.** `LockRenewal` is the renewal bookkeeping, `LockProtocol` the Lua scripts of the distributed lock as atomic
  steps on a keyspace, `HashTag` the naming of its keys. In this snapshot the lock's source files are commented out in
  full, although `redisson-rs/ARCHITECTURE.md:26` lists the lock as done; the scripts are modelled as they stand in the
  comments.
- `Witnesses` holds an input for each surprise listed below.
- `Commands`, `Redis`, `Topology` and `Options` are the shared vocabulary: commands and their classes, a node with data
  and scripts, the routing table.

What a Redis server does with a command or a script is an arbitrary function everywhere, and so are the slot and hash
functions. Assumed throughout: a pipeline gives one reply per item in order, queueing an item in it succeeds, SHA-1 has
no collisions, a replica follows one primary, and during one execution the routing table stays as it is and nothing else
writes to the nodes or to the client's record of loaded scripts. A sender is used only by whoever holds it, as its
ownership in the source has it. An `Err` reply in a pipeline outside a transaction reaches its caller as null, as the
code has it.

A server sends one message for each pattern on record that matches a channel. In a cluster keyspace patterns are on
record at every node and an ordinary pattern at one; a publication reaches every node, an event stays on its own and is
published in whichever of its two forms the node is configured to. fred hands what arrives on a keyspace event's channel
to the keyspace loop, turned back into the event whichever pattern it was sent for, and everything else to the message
loop. Expiries are as in Redis: a key is there through the millisecond of its expiry, and a time beyond a signed 64-bit
deadline is refused.

## Where a natural expectation does not hold

For each of these the project proves the exact condition and names an input.

- A hash named by an EVALSHA whose script only a later EVAL of the same batch brings to the same node is found after
  the rewrite and would not have been before (`BatchMeaning.RewrittenAnswersAlikeIff`, `Witnesses.ForwardReference`).
- An atomic batch whose transaction is aborted or refused on a node reports success with that node's responses missing
  (`BatchGuarantees.OneResponseEachIff`, `Witnesses.AbortedBatch`).
- `eval_async` runs a script again if the script's own error text contains `NOSCRIPT` or `ERR unknown command`
  (`EvalAsync.Client.EvalAsync`, `Witnesses.ScriptRunsTwice`).
- A node that restarts between SCRIPT LOAD and the recording of it leaves the cache claiming a script the node lost
  (`CacheRuns.SoundIffNoRestartBeforeRecord`, `CacheRuns.RestartInWindowMisleads`). A batch with an EVAL of that script
  then succeeds and tells its caller null (`BatchGuarantees.LostScriptAnswersNull`, `Witnesses.LostScript`): its replies
  are the queue's own exactly if there are no forward references and no claimed script is lost
  (`BatchGuarantees.ReferenceIsQueueIff`).
- A failed first `psubscribe` leaves its pattern registered; later registrations of it succeed without reaching the
  server (`PubSub.PublishSubscribeService.Psubscribe`, `Witnesses.DeafListener`).
- With overlapping patterns a listener hears one publication once for every matching pattern
  (`Dispatch.OnceIffNoOverlap`, `Witnesses.HeardTwice`). For keyspace events patterns of the two kinds overlap although
  no channel matches both (`Dispatch.KeyspaceOnceIffAlone`, `Witnesses.EventHeardTwice`), and so do ordinary patterns on
  record, whose own listeners hear no event at all (`Dispatch.KeyspaceOnceIff`, `Dispatch.PublishEvent`,
  `Witnesses.OrdinaryPatternDoubles`).
- An acquire with a lease beyond Redis's last deadline, which the interface accepts, fails after it has counted. From
  the unheld state it leaves a lock that no waiting frees. Holds are conserved over a run exactly without such a call
  (`LockProtocol.HoldsConservedIff`, `LockProtocol.OverlongLeaseSticks`).
- Lock names that are empty, have `}` but no `{`, or have no usable tag at their first `{` spread a lock's keys over
  slots (`HashTag.SamePartIffColocatable`, `HashTag.EmptyNameApart`).
- A latch time cut to zero or below by the 32-bit conversion makes the unlock script fail after it has counted down, so
  that a redelivery counts down again (`LockProtocol.SecondDeliveryHarmlessIff`, `LockProtocol.LatchTimePositive`,
  `LockProtocol.LatchTimeCanFail`).
- In the mode that queues in Redis, a first command refused by the node leaves a transaction open that no later call
  can use or end, and so does any command sent after execution (`RedisQueue.RedisBasedBatch.Async0`,
  `Witnesses.StuckForGood`, `RedisQueue.LateCommandIsNeverEnded`). Discarding never ends one either.
- EVALSHA_RO and SORT_RO, classed as reads, are sent to replica pipelines as EVALSHA and SORT
  (`Endpoints.ReplicasServeReads`, `Witnesses.ReplicaIsSentWrites`).

## Model

| member | source | states |
|---|---|---|
| BatchLifecycle.CommandBatchService.FinishExecution | redisson-rs/src/command/command_batch_service.rs:200-208 | Whatever others did since the claim, the winner takes the queue and settles everyone in it: whoever was sent an answer is resolved with it, all others find their channel closed, and nobody is left in flight; on success everyone has the answer to their own command. Success, result, answers and nodes are those of the execution |
| BatchLifecycle.CommandBatchService.ExecuteAsync | redisson-rs/src/command/command_batch_service.rs:195-208 | Only the first claim does anything. Result, answers and nodes are those of executing the queue as the claimant found it, it succeeds exactly if that does, and every caller in the queue is resolved with what it was sent |
| BatchLifecycle.ResolvedWithOwnReply | redisson-rs/src/command/command_batch_service.rs:372-397 | On success each caller's channel ends with its own command's value; for an error with null outside a transaction and the error's element inside; and, if the transaction did not commit, with the reason |
| BatchExecution.ExecuteInMemory | redisson-rs/src/command/command_batch_service.rs:292-411 | For every queue, routing table, order of nodes, order of joins and belief about loaded scripts, right or wrong: a success gives every caller the answer to its own command once, the responses in index order, and node states as in the reference run, and the client then knows just the scripts it knew and those it queued. It succeeds exactly if every slot has a server, every script a node is not believed to hold can be loaded there, and no node's EXEC answers nonsense. However it ends, each node has run all of its share or nothing, only callers of nodes that ran are answered, all or none of a node's, no node loses a script, and nothing new is believed that is not so |
| BatchExecution.KeptStaysTrusted | redisson-rs/src/command/command_batch_service.rs:497-518 | So a belief about loaded scripts that was right before an execution is right after it |
| BatchExecution.SharesAreWhole | redisson-rs/src/command/command_batch_service.rs:326-407 | However the jobs end, the last ones cut off or not, a node has run all of its share, as the reference run does, or nothing; of the nodes that ran some have answered all their callers, and nobody else is answered |
| BatchExecution.LoadEverywhere | redisson-rs/src/command/command_batch_service.rs:488-536 | Loading over all groups in any order supplies every node with the scripts it is not believed to hold, records exactly those besides what was known, and succeeds exactly if every group can be loaded; in either case it touches no data and adds no wrong belief about any node |
| BatchExecution.BatchLoadableIff | redisson-rs/src/command/command_batch_service.rs:502-516 | That every group can be loaded means that no EVAL of the queue needs a script that its node is not believed to hold and refuses |
| Endpoints.ChoosePipelines | redisson-rs/src/command/command_batch_service.rs:326-343 | Each group, with its commands as sent, gets the pipeline of a replica if everything in it reads and of its primary otherwise, and no two groups share one |
| Endpoints.ServedByReplicaIff | redisson-rs/src/command/command_batch_service.rs:331-343 | A command is served by a replica exactly if the batch is no transaction, reads may leave the primary, and every command queued for its primary is a read |
| Endpoints.ReplicasServeReads | redisson-rs/src/command/command_batch_service.rs:331-343 | Whatever a replica serves is classed as a read after any adds and stays so through the script rewrite; as sent, exactly EVALSHA_RO and SORT_RO turn into writes |
| Endpoints.ReadyForEnds | redisson-rs/src/command/command_batch_service.rs:497-516 | Scripts loaded on the primaries are all that the nodes that serve need loaded |
| BatchGuarantees.OneResponseEachIff | redisson-rs/src/command/command_batch_service.rs:386-396 | One response per command exactly when results are not skipped and no node's transaction was aborted or refused; otherwise there are fewer, without an error |
| BatchGuarantees.CallerIsTold | redisson-rs/src/command/command_batch_service.rs:372-397 | On success every caller is told, once: null if results are skipped; its own command's value; for an error, null outside a transaction and the error's element of EXEC's array inside; and, if the transaction did not commit, the abort or EXEC's error |
| BatchGuarantees.ResponseIsOwnReply | redisson-rs/src/command/command_batch_service.rs:391-410 | For each command of a reporting node its own value, or what stands for its error, stands at the place given by how many reporting commands have a smaller index, and it is the value its caller was sent |
| BatchGuarantees.ResponsesInQueueOrder | redisson-rs/src/command/command_batch_service.rs:401-410 | Commands queued in index order have their own values as responses in queue order, whichever nodes they went to |
| BatchGuarantees.SyncedCounts | redisson-rs/src/command/command_batch_service.rs:378-405 | The replica total counts, for each serving node once and in whatever order, the number in WAIT's answer or the second in WAITAOF's, and nothing for any other answer |
| BatchGuarantees.ReferenceIsQueueIff | redisson-rs/src/command/command_batch_service.rs:488-536 | The replies are those of the queue run one command at a time, with no script rewriting, exactly when there are no forward references by hash and no EVAL's script is claimed to be on its node but missing there |
| BatchGuarantees.LostScriptAnswersNull | redisson-rs/src/command/command_batch_service.rs:391-395 | In a successful batch the caller of an EVAL whose script is claimed but missing is sent the missing-script reply as its answer, which outside a transaction is null |
| BatchGuarantees.NodesEndAsQueued | redisson-rs/src/command/command_batch_service.rs:326-399 | A batch that commits everywhere, without forward references or lost scripts, leaves every node, scripts included, as that sequential run does |
| BatchGuarantees.AbortedNodeKeepsData | redisson-rs/src/command/command_batch_service.rs:345-390 | A node whose transaction did not commit keeps its data |
| BatchMeaning.SeqRunOnNode | redisson-rs/src/command/command_batch_service.rs:313-329 | One node's share of the sequential run is the run of that node's group alone: the partition does not show |
| BatchMeaning.PickDetermines | redisson-rs/src/command/command_batch_service.rs:313-329 | Lists that agree node by node agree as a whole |
| BatchMeaning.RewrittenAnswersAlikeIff | redisson-rs/src/command/command_batch_service.rs:488-536 | Over a whole batch and for any belief about loaded scripts the rewritten commands answer like the queued ones if and only if no node's share has a forward reference or a script claimed but missing |
| BatchMeaning.RewrittenRunsAlike | redisson-rs/src/command/command_batch_service.rs:488-536 | Then replies and final nodes are equal |
| BatchMeaning.JoinOrderIrrelevant | redisson-rs/src/command/command_batch_service.rs:403-409 | Sorting by distinct indexes gives one list, whatever order the node jobs are joined in |
| BatchMeaning.ResponseAtRank | redisson-rs/src/command/command_batch_service.rs:409 | The sort puts each pair at the position given by how many indexes are smaller |
| BatchMeaning.OrderedAt | redisson-rs/src/command/command_batch_service.rs:409 | That place is the number of elements with a smaller index |
| BatchExecution.RunJobs | redisson-rs/src/command/command_batch_service.rs:326-399 | Jobs in any order answer exactly the callers of the nodes that ran and did not fail, and leave every other node alone |
| BatchExecution.JoinJobs | redisson-rs/src/command/command_batch_service.rs:401-407 | Joining in any order collects exactly the reporting nodes' pairs and the sum of their replica counts; the first failed job fails the batch |
| BatchExecution.SyncedAnother | redisson-rs/src/command/command_batch_service.rs:405 | The replica total does not depend on the order of addition |
| NodeJob.RunJob | redisson-rs/src/command/command_batch_service.rs:330-397 | For each combination of atomic, WAIT and skip: the k-th sender gets the value of the k-th command of the group as run on the node, or what stands for its error or for an uncommitted transaction, and the value reported under an index is the value sent |
| NodeJob.FramePipeline | redisson-rs/src/command/command_batch_service.rs:345-371 | The pipeline is MULTI, the commands as lowered in order, EXEC, then WAIT or WAITAOF with its counts and timeout in place, as the options ask |
| NodeJob.ServeFramed | redisson-rs/src/command/command_batch_service.rs:373-387 | WAIT's reply is last, EXEC's before it, and outside a transaction the rest are the commands' replies in order |
| NodeJob.ServeTransaction | redisson-rs/src/command/command_batch_service.rs:345-364 | MULTI, commands and EXEC run the commands in order if the transaction commits and leave the node alone if not |
| NodeJob.HandBack | redisson-rs/src/command/command_batch_service.rs:378-397 | After peeling WAIT and EXEC off the tail, each sender gets the value of its own reply, or null for an error, and the same value is reported under its index |
| NodeJob.DistributeExec | redisson-rs/src/command/command_batch_service.rs:429-455 | An array is dealt out position by position, nil or an error reaches every sender as an error, anything else fails the batch and answers nobody |
| Grouping.GroupByNode | redisson-rs/src/command/command_batch_service.rs:313-318 | The groups partition the queue by primary with queue order kept, each under an entry whose slot leads to that primary although entries are compared by primary only; a slot without server fails the batch |
| Grouping.SentToOwner | redisson-rs/src/command/command_batch_service.rs:313-318 | Each command goes to the primary that owns its key's slot, or slot 0 without a key, and a batch is routable exactly if all these slots have an owner |
| Grouping.PickCombine | redisson-rs/src/command/command_batch_service.rs:391-395 | Pairing senders with replies commutes with partitioning by node |
| Commands.LoweringKeepsRouteAndClass | redisson-rs/src/client/protocol/redis_command.rs:399-420 | Lowering for a pipeline never changes the route or any argument and demotes exactly EVALSHA_RO and SORT_RO from read to write |
| Commands.RoutedByWireKey | redisson-rs/src/client/protocol/redis_command.rs:287-320 | The routing key is the key that Redis's own rules find among the arguments sent |
| Commands.ClassedAsRedisDoes | redisson-rs/src/client/protocol/redis_command.rs:265-283 | A command is classed as a read exactly if Redis lists it as read-only |
| Commands.ScriptReadBack | redisson-rs/src/client/protocol/redis_command.rs:394-408 | A server that reads the key count takes back just the script, keys and arguments |
| Commands.BuildScriptArgs | redisson-rs/src/client/protocol/redis_command.rs:394-408 | The loop builds hash or script, key count, keys, arguments |
| Commands.ScriptArgsInjective | redisson-rs/src/client/protocol/redis_command.rs:394-408 | So two different calls are never sent as the same vector |
| LoadScripts.LoadOnNode | redisson-rs/src/command/command_batch_service.rs:497-534 | Whatever is believed, it succeeds exactly if every script not believed to be there can be loaded; then those scripts are there, no EVAL is left, and each command keeps its route, class, keys and arguments. In any case nothing new is believed that is not so, and other nodes' scripts are believed as before |
| LoadScripts.LoadAsJob | redisson-rs/src/command/command_batch_service.rs:497-518 | Loading on one node causes exactly the events of one job of the cache's runs: begin, load after load, record or give up |
| LoadScripts.RewriteSuppliedIff | redisson-rs/src/command/command_batch_service.rs:497-534 | On one node so loaded the rewritten group answers like the original exactly without forward references and without a script believed to be there that is not |
| LoadScripts.RewritePreservesIff | redisson-rs/src/command/command_batch_service.rs:520-533 | On one node the rewritten group answers like the original exactly when no EVALSHA names a script that only a later EVAL brings in |
| LoadScripts.RewritePreserves | redisson-rs/src/command/command_batch_service.rs:520-533 | Then replies and final node are equal |
| LoadScripts.MissingScripts | redisson-rs/src/command/command_batch_service.rs:501-508 | Each script to load is listed once, and only if the client does not know it to be loaded |
| LoadScripts.LoadEach | redisson-rs/src/command/command_batch_service.rs:509-516 | All listed scripts are loaded, or the first refusal stops the batch |
| BatchLifecycle.SendsAtMostOnce | redisson-rs/src/command/command_batch_service.rs:385-395 | The answers of an execution, failed or not, go to different callers |
| BatchLifecycle.SettleAll | redisson-rs/src/command/command_batch_service.rs:385-397 | Replying to the answered and dropping the rest resolves every caller taken |
| BatchLifecycle.EachSenderInOnePlace | redisson-rs/src/command/command_batch_service.rs:575-622 | Over all interleavings every sender is in exactly one place: before the lock, queued, in flight or resolved |
| BatchLifecycle.ResolvedAtMostOnce | redisson-rs/src/command/command_batch_service.rs:170-208 | No sender is resolved twice |
| BatchLifecycle.AtMostOneTaker | redisson-rs/src/command/command_batch_service.rs:171-198 | Of all attempts to execute or discard exactly the first succeeds |
| BatchLifecycle.NeverAnsweredAndDiscarded | redisson-rs/src/command/command_batch_service.rs:170-190 | An answer comes only from an executed batch, "batch discarded" only from a discarded one |
| BatchLifecycle.DistinctIndexesIff | redisson-rs/src/command/command_batch_service.rs:577 | Indexes are distinct if and only if at most 2^64 were issued |
| BatchLifecycle.QueueIsExecutable | redisson-rs/src/command/command_batch_service.rs:295-301 | What an executor takes holds every caller once and, before the counter wraps, no index twice |
| BatchLifecycle.QueueOrderIsNotIndexOrder | redisson-rs/src/command/command_batch_service.rs:576-583 | Queue order can differ from index order |
| BatchLifecycle.LateCommandsStay | redisson-rs/src/command/command_batch_service.rs:579-583 | A command queued after the queue was taken stays queued for ever |
| BatchLifecycle.CommandBatchService.FetchIndex | redisson-rs/src/command/command_batch_service.rs:576-577 | The fetch-and-add hands out the counter and advances it modulo 2^64, as one step of every run |
| BatchLifecycle.CommandBatchService.Enqueue | redisson-rs/src/command/command_batch_service.rs:579-583 | The push under the lock puts the command last, as one step of every run |
| BatchLifecycle.CommandBatchService.ClaimExecution | redisson-rs/src/command/command_batch_service.rs:195-198 | Succeeds exactly if nobody has executed or discarded before |
| BatchLifecycle.CommandBatchService.TakeQueue | redisson-rs/src/command/command_batch_service.rs:295-301 | Hands over the whole queue, once, fit to be executed |
| BatchLifecycle.CommandBatchService.ClaimDiscard | redisson-rs/src/command/command_batch_service.rs:170-173 | Succeeds exactly if nobody has executed or discarded before |
| BatchLifecycle.CommandBatchService.DiscardQueue | redisson-rs/src/command/command_batch_service.rs:174-189 | Every queued caller is told "batch discarded", once, in queue order |
| RedisQueue.RedisBasedBatch.Async0 | redisson-rs/src/command/command_batch_service.rs:584-617 | As long as callers wait, the open transaction holds exactly their commands in order; a refused first command leaves the batch stuck, refusing every later command, and every refusal gives its reason |
| RedisQueue.RedisBasedBatch.ExecuteAsync | redisson-rs/src/command/command_batch_service.rs:195-288 | Each caller gets the value of its own command if the transaction commits, and the same error otherwise; the responses are those values by index; with no accepted command nothing is sent and a stuck transaction stays open; a second call does nothing |
| RedisQueue.OwnReplies | redisson-rs/src/command/command_batch_service.rs:240-288 | Value, error element, abort and refusal reach each caller as named, and each value stands where the number of smaller indexes puts it |
| RedisQueue.RedisBasedBatch.DiscardAsync | redisson-rs/src/command/command_batch_service.rs:170-189 | Every waiting caller is told once; no DISCARD is sent, so an open transaction stays open |
| RedisQueue.LateCommandIsNeverEnded | redisson-rs/src/command/command_batch_service.rs:596-617 | A command sent after execution opens a transaction that neither executing nor discarding ends |
| EvalAsync.Client.EvalAsync | redisson-rs/src/command/command_async_service.rs:98-165 | One run with that run's reply and effect, which is one plain EVAL for a script that does the same read-only, exactly if its reply is taken at its word; otherwise more runs with the reply of the last, or the error of a refused SCRIPT LOAD. EVALSHA_RO is then given up exactly if a read-only call finds the node without it. With the cache off one plain EVAL |
| EvalAsync.Client.EvalCached | redisson-rs/src/command/command_async_service.rs:131-164 | For any script cache, support for EVALSHA_RO and replies: at most four commands and three runs, support only ever given up, the data that after all runs and the reply that of the last, or of a refused SCRIPT LOAD |
| EvalAsync.Client.Recover | redisson-rs/src/command/command_async_service.rs:141-163 | What each kind of error reply leads to, with its commands, runs, reply and effect |
| EvalAsync.Client.EvalShaRo | redisson-rs/src/client/protocol/redis_command.rs:552-574 | A missing script is reported without running anything; a loaded one runs once, or, if its own read-only reply reads like an unknown command, once more with writes allowed and that run's reply. EVALSHA_RO is given up only in that case or if the node does not know it |
| EvalAsync.MissingIsRecognised | redisson-rs/src/command/command_async_service.rs:143-149 | The two fallbacks never confuse the node's own messages |
| CacheRuns.SoundIffNoRestartBeforeRecord | redisson-rs/src/connection/service_manager.rs:501-533 | Over all interleavings of any number of clients, the cache claims only loaded scripts throughout if and only if no node restarts between the last load of a recorded script and its record |
| CacheRuns.RecordedWasLoaded | redisson-rs/src/command/command_batch_service.rs:509-517 | Nothing is recorded that was not loaded: the protocol of load and record alone gives that |
| CacheRuns.RestartsOutsideJobsAreHarmless | redisson-rs/src/connection/service_manager.rs:526-533 | So the cache is right throughout if no node restarts while a client has loaded scripts there that it has yet to record |
| CacheRuns.LoadedIff | redisson-rs/src/connection/service_manager.rs:526-533 | A node holds a script exactly if it was loaded and the node has not restarted since its last load |
| CacheRuns.ClaimedIff | redisson-rs/src/connection/service_manager.rs:510-533 | The cache claims a script exactly if it was recorded and neither the topology changed nor the node restarted since |
| CacheRuns.RestartInWindowMisleads | redisson-rs/src/command/command_batch_service.rs:511-517 | A restart between load and record leaves a wrong claim |
| CacheRuns.AfterJob | redisson-rs/src/command/command_batch_service.rs:509-517 | One job adds what it loaded to its node, and to the cache if it loaded everything, and touches no other node |
| ScriptCaches.ServiceManager.CalcSha | redisson-rs/src/connection/service_manager.rs:489-497 | For every call history the answer is the direct hash |
| ScriptCaches.GetMirrors | redisson-rs/src/connection/service_manager.rs:490-493 | A hit keeps the cache equal to the newest scripts in order of use |
| ScriptCaches.PutMirrors | redisson-rs/src/connection/service_manager.rs:494-495 | So does a miss, which evicts only the least recently used script of a full cache |
| ScriptCaches.MirrorsMeansUsed | redisson-rs/src/connection/service_manager.rs:85-86 | Never more than 500 entries, never a script twice, every hash right |
| ScriptCaches.MirrorsMeansNewest | redisson-rs/src/connection/service_manager.rs:85-86 | Whatever was used but is absent was used before everything kept, and the cache is full |
| ScriptCaches.RecentByLastUse | redisson-rs/src/connection/service_manager.rs:489-497 | The recency list is the used scripts by descending time of last use |
| ScriptCaches.ServiceManager.IsCached | redisson-rs/src/connection/service_manager.rs:501-506 | True exactly if the script's own hash is recorded for the node |
| ScriptCaches.ServiceManager.CacheScripts | redisson-rs/src/connection/service_manager.rs:510-513 | Records exactly the given scripts for the node, on top of those known |
| ScriptCaches.ServiceManager.ClearAllScriptCaches | redisson-rs/src/connection/fred_connection_manager.rs:72-76 | A topology change forgets every node's scripts |
| ScriptCaches.ServiceManager.OnReconnect | redisson-rs/src/connection/service_manager.rs:526-533 | A reconnect forgets that node's scripts and no other's |
| PubSub.PublishSubscribeService.Psubscribe | redisson-rs/src/pubsub/publish_subscribe_service.rs:241-302 | Listeners are appended, kept, or dropped again as the call succeeds or is refused, and the server's record gains the pattern where it was accepted. Keys and server subscriptions keep agreeing exactly when the call succeeds and leaves a listener; a failed first registration leaves the pattern behind with no listener, or with all of them if the connection manager is gone |
| PubSub.PublishSubscribeService.RemoveListener | redisson-rs/src/pubsub/publish_subscribe_service.rs:330-415 | Deletes exactly the pairs channels x ids: what is left of a list stands at ascending positions of the old one, and exactly the listeners with one of the ids are left out. Unsubscribes each emptied channel once, takes it off the server's record where that is accepted, and keeps the agreement exactly when those calls succeed |
| PubSub.RemainingInOrder | redisson-rs/src/pubsub/publish_subscribe_service.rs:351-354 | Of a list, the listeners without one of the ids stay, in their order |
| PubSub.PublishSubscribeService.OnNodeConnect | redisson-rs/src/pubsub/publish_subscribe_service.rs:194-224 | A node that connects without subscriptions has then all keyspace patterns or none, as it accepts, and agrees again exactly if it accepts or there are none |
| PubSub.PatternTopic.AddListener | redisson-rs/src/api/rpattern_topic.rs:22-27 | A topic registers its one listener after those of its own pattern, so every stored listener keeps the name it is stored under |
| PubSub.PatternTopic.RemoveListener | redisson-rs/src/api/rpattern_topic.rs:30-36 | Removes exactly the given listeners of the topic's pattern, keeping the order of the rest and unsubscribing it with the last |
| PubSub.PrunedFiledAndNamed | redisson-rs/src/pubsub/publish_subscribe_service.rs:350-371 | Removals keep every remaining listener under its own name and in its own table |
| Dispatch.PublishEvent | redisson-rs/src/pubsub/publish_subscribe_service.rs:155-184 | A keyspace event reaches every listener of every keyspace pattern that matches either of its two forms, each once per message the server sends: one per published form and pattern, ordinary ones included, on record at the event's node. Keyspace patterns see the keyspace channel and the operation, keyevent patterns the keyevent channel and the key. Ordinary listeners hear nothing |
| Dispatch.OwnFormOnly | redisson-rs/src/pubsub/publish_subscribe_service.rs:165-183 | The form rebuilt for a pattern is the only one it can match, and no keyspace pattern matches both |
| Dispatch.KeyspaceOnceIff | redisson-rs/src/pubsub/publish_subscribe_service.rs:165-183 | Whatever forms are published, a listener hears an event once exactly if one pattern on record, of any kind, matches one published form and there is no other such match |
| Dispatch.KeyspaceOnceIffAlone | redisson-rs/src/pubsub/publish_subscribe_service.rs:165-183 | With both forms published, exactly if no other pattern on record at the event's node, ordinary or keyspace, matches either form |
| Glob.CollapseKeepsMeaning | redisson-rs/src/pubsub/publish_subscribe_service.rs:447-450 | Dropping every * after another one keeps the matches |
| Glob.CollapseLeavesNoRuns | redisson-rs/src/pubsub/publish_subscribe_service.rs:447-450 | and leaves no two in a row |
| PubSub.PublishSubscribeService.OnEachNode | redisson-rs/src/pubsub/publish_subscribe_service.rs:397-427 | Changes the record of exactly the nodes that accept and reports whether all did |
| PubSub.PruneTables | redisson-rs/src/pubsub/publish_subscribe_service.rs:340-371 | The loop over channels prunes each table by exactly its own pairs, keeps the order of the rest, and lists the emptied channels once each |
| PubSub.RemovalMirrored | redisson-rs/src/pubsub/publish_subscribe_service.rs:373-412 | Pruned maps agree with the server exactly after every unsubscription is accepted |
| PubSub.PsubscribeKeeps | redisson-rs/src/pubsub/publish_subscribe_service.rs:249-300 | Filing, naming and agreement after a registration, in all cases |
| Dispatch.DispatchMessage | redisson-rs/src/pubsub/publish_subscribe_service.rs:109-120 | In any map order, each matching pattern's listeners are called once each in order of registration, and no others |
| Dispatch.CallsAsSeen | redisson-rs/src/pubsub/publish_subscribe_service.rs:109-120 | Every call made is to a listener of a matching pattern, with what that pattern sees of the message |
| Dispatch.FilterDropsNone | redisson-rs/src/pubsub_pattern_message_listener.rs:30-34 | The name filter drops no listener registered through a pattern topic |
| Dispatch.Publish | redisson-rs/src/pubsub/publish_subscribe_service.rs:109-120 | A publication on any channel but an event's reaches every listener of every matching ordinary pattern with its channel and its message, each once per matching pattern on record, keyspace ones included, and per node that has it; keyspace listeners hear nothing |
| Dispatch.OnceIffNoOverlap | redisson-rs/src/pubsub/publish_subscribe_service.rs:109-120 | A listener hears a publication once exactly if no other subscribed pattern matches, ordinary or keyspace |
| Glob.MatchesIffDenotes | redisson-rs/src/pubsub/publish_subscribe_service.rs:436-454 | The backtracking search decides the declarative meaning of * and ? |
| Glob.MatchSplits | redisson-rs/src/pubsub/publish_subscribe_service.rs:442-454 | A concatenated pattern matches exactly the texts that split into a match of each half |
| Glob.TableIsSearch | redisson-rs/src/pubsub/publish_subscribe_service.rs:442-454 | A bottom-up table computes the same answer |
| Glob.LiteralMatchesItself | redisson-rs/src/pubsub/publish_subscribe_service.rs:452 | A pattern without wildcards matches itself and nothing else |
| LockRenewal.OpenIsHolds | redisson-rs/src/renewal/lock_entry.rs:28-49 | The bookkeeping's periods are the saturating hold counts of the calls, each starting where its thread last rose from zero |
| LockRenewal.LockEntry.AddThreadId | redisson-rs/src/renewal/lock_entry.rs:28-33 | Maps and queue keep agreeing with the calls: equal key sets, 1 <= counter <= occurrences in the queue |
| LockRenewal.LockEntry.RemoveThreadId | redisson-rs/src/renewal/lock_entry.rs:36-49 | So they do after a removal, which never underflows and does nothing without a hold |
| LockRenewal.LockEntry.HasNoThreads | redisson-rs/src/renewal/lock_entry.rs:52-54 | True exactly if no thread holds the lock |
| LockRenewal.LockEntry.GetFirstLockName | redisson-rs/src/renewal/lock_entry.rs:58-63 | None exactly if nobody holds; else the first name of the current period that began earliest, in spite of stale queue entries |
| LockRenewal.FirstNameUnique | redisson-rs/src/renewal/lock_entry.rs:58-63 | The calls determine that name |
| LockRenewal.AgreeRemove | redisson-rs/src/renewal/lock_entry.rs:36-49 | A counter is at least one before it is lowered, and the last removal takes every queue entry of its thread and no other |
| LockProtocol.RedeliveryHarmlessIff | redisson-rs/src/redisson_lock.rs:238-257 | After a first delivery that took effect and anything but this request's deliveries and deletions, its redelivery is without effect exactly if the latch it left has time left or its sender holds nothing |
| LockProtocol.SecondDeliveryHarmlessIff | redisson-rs/src/redisson_lock.rs:246-256 | Redelivered at once, an unlock counts down again exactly if its first delivery left no latch, because a time in it was refused, and left its sender a hold |
| LockProtocol.NoLatchUnlocksTwice | redisson-rs/src/redisson_lock.rs:246-256 | Without latch time two deliveries take two holds and both report an error; from three holds up so they do with a lease that is refused |
| LockProtocol.LatchTimePositive | redisson-rs/src/redisson_base_lock.rs:71-75 | The latch time is positive exactly if the configured times, cut to 64 and then to 32 bits, are zero or stay positive |
| LockProtocol.LatchTimeIs | redisson-rs/src/redisson_base_lock.rs:71-75 | It is the configured time, at least one millisecond, as the one signed 32-bit number equal to it modulo 2^32 |
| LockProtocol.LatchTimeCanFail | redisson-rs/src/redisson_base_lock.rs:71-75 | Command timeouts of 2^31 and 2^32 milliseconds leave no latch time |
| LockProtocol.LockNode.TryAcquire | redisson-rs/src/redisson_lock.rs:81-103 | The acquire script is one atomic step on the abstract lock, for every lease of the interface: a success leaves the owner's field and an expiry just the lease away, and a lease that PEXPIRE refuses gives an error after the count, with the expiry as it was |
| LockProtocol.LockNode.UnlockInner | redisson-rs/src/redisson_lock.rs:231-257 | The unlock script is one atomic step on the abstract lock, with an error after the count if PEXPIRE or the latch's SET refuses its time |
| LockProtocol.LockNode.ForceUnlockInner | redisson-rs/src/redisson_lock.rs:308-336 | The force-unlock script is one atomic step on the abstract lock |
| LockProtocol.LockNode.DelLatch | redisson-rs/src/redisson_lock.rs:293-302 | Deleting a latch touches that request's verdict only |
| LockProtocol.HoldsCounted | redisson-rs/src/redisson_lock.rs:83-91 | In every reachable state the lock is free or has one owner with count >= 1, equal to its acquires, failed ones that counted included, less effective unlocks since the key was created; a lock without an expiry had such a failed acquire |
| LockProtocol.HoldsConservedIff | redisson-rs/src/redisson_lock.rs:83-91 | The count is successful acquires less effective unlocks throughout a run if and only if no acquire that counted had a lease beyond the last deadline; then a held lock always has an expiry |
| LockProtocol.OverlongLeaseSticks | redisson-rs/src/api/rlock.rs:25 | The longest lease the interface takes gives its caller an error and leaves a lock refused to others however long they wait |
| LockProtocol.MutualExclusion | redisson-rs/src/redisson_lock.rs:83-91 | While the key is neither deleted nor expired nobody but its owner acquires, and the owner does exactly if its lease fits |
| LockProtocol.RefusedUntilTtl | redisson-rs/src/redisson_lock.rs:83-91 | A refused caller is told exactly how long the refusal lasts, to the millisecond, or -1 exactly if no waiting ends it |
| LockProtocol.AcquiredForLease | redisson-rs/src/redisson_lock.rs:83-91 | After a successful acquire, first or again, the lock is its owner's for just the lease asked for: every other is refused to its last millisecond, whatever anybody else asks in between, and told the time left; left alone the lock is free right after |
| LockProtocol.UnlockedForLease | redisson-rs/src/redisson_lock.rs:246-256 | So it is after an unlock that leaves its sender a hold; a lease that is refused there changes no expiry |
| LockProtocol.UnlockTells | redisson-rs/src/redisson_lock.rs:238-257 | A first delivery answers nil exactly if its sender holds nothing; otherwise it takes one hold, and answers 1 with the last one and 0 with any other, if its times are accepted; the verdict is remembered for the latch time |
| LockProtocol.ToldWhenReleased | redisson-rs/src/redisson_lock.rs:246-256 | Waiters are sent one message for every release by a last unlock or by force, and none otherwise |
| LockProtocol.ForcedIsFree | redisson-rs/src/redisson_lock.rs:308-336 | After a forced unlock anybody can acquire; it answers 1 exactly if the lock was held and leaves all verdicts remembered |
| LockProtocol.DeletedLatchForgets | redisson-rs/src/redisson_lock.rs:293-302 | After its latch is deleted a request's redelivery takes effect exactly if its sender holds the lock, and no other request's verdict is touched |
| LockProtocol.UnlockIdempotent | redisson-rs/src/redisson_lock.rs:238-257 | After a verdict, every redelivery until the latch goes, interleaved with anything, repeats it and changes nothing |
| LockProtocol.LatchLasts | redisson-rs/src/redisson_lock.rs:246-256 | No other client's step shortens a latch |
| LockProtocol.HarmlessIff | redisson-rs/src/redisson_lock.rs:238-257 | A delivery is without effect exactly if its latch is live or its sender does not hold the lock |
| LockProtocol.Released | redisson-rs/src/redisson_lock.rs:246-256 | Count, expiry, key, latch and message after an unlock are those of the abstract step |
| HashTag.SamePartIffColocatable | redisson-rs/src/redisson_object.rs:17-23 | Lock key, channel and latch are hashed by the same part exactly for non-empty brace-free names and names with a non-empty tag at their first { |
| HashTag.LockKeysShareASlot | redisson-rs/src/redisson_base_lock.rs:62-68 | So those names keep all three keys in one slot, for any slot function |
| HashTag.LockKeysDistinct | redisson-rs/src/redisson_base_lock.rs:62-68 | The three keys never clash and two requests never share a latch |
| HashTag.ChannelApart | redisson-rs/src/redisson_lock.rs:76-78 | For every other name the channel is hashed differently from the lock |
| Witnesses.ForwardReference | redisson-rs/src/command/command_batch_service.rs:520-533 | An EVALSHA before the EVAL of its script finds nothing as queued and runs as sent |
| Witnesses.AbortedBatch | redisson-rs/src/command/command_batch_service.rs:440-444 | An aborted transaction of one command gives success and no response |
| Witnesses.ReplicaIsSentWrites | redisson-rs/src/client/protocol/redis_command.rs:399-420 | Two reads that a replica is sent as EVALSHA and SORT |
| Witnesses.StuckForGood | redisson-rs/src/command/command_batch_service.rs:596-616 | A refused first command makes the batch refuse what the node would accept, and EXEC is never sent |
| Witnesses.ScriptRunsTwice | redisson-rs/src/command/command_async_service.rs:143-160 | A loaded script that answers with the text NOSCRIPT runs twice |
| Witnesses.LostScript | redisson-rs/src/command/command_batch_service.rs:497-534 | A batch succeeds and its one caller is told null, where its EVAL as queued answers 1 |
| Witnesses.DeafListener | redisson-rs/src/pubsub/publish_subscribe_service.rs:256-301 | A refused registration, then a successful one: a listener for a pattern the server was never asked for |
| Witnesses.HeardTwice | redisson-rs/src/pubsub/publish_subscribe_service.rs:109-120 | Two patterns that match everything: each listener hears each publication twice |
| Witnesses.EventHeardTwice | redisson-rs/src/pubsub/publish_subscribe_service.rs:155-184 | One keyspace and one keyevent pattern: each listener hears each event twice |
| Witnesses.OrdinaryPatternDoubles | redisson-rs/src/pubsub/publish_subscribe_service.rs:151-184 | A keyspace pattern beside the ordinary pattern *: with keyspace forms alone published the keyspace listener hears each event twice, the ordinary one never |

## Left out

- LoadScripts.LoadOnNode: a refused SCRIPT LOAD is an arbitrary set of scripts; why a node refuses is not modelled.
- EvalAsync.Client.EvalCached: one call on its pinned node; other clients' flushes and flag changes between its commands, and a key without a write entry, are not part of this model.
- BatchExecution.ExecuteInMemory: a pipeline that reaches its node only in part is not modelled, nor are the retries of `resolve_entry`, which under a fixed table repeat the same answer. A replica pipeline reaches one replica of its primary.
- RedisQueue.RedisBasedBatch.Async0: all commands are taken to reach one connection; which pooled connection each of MULTI, the commands and EXEC really uses, and the slot the batch remembers, are not part of this model.
- CacheRuns.SoundIffNoRestartBeforeRecord: a restart and the reconnect event it causes are one step, and a node loses scripts by restarting only, not by SCRIPT FLUSH.
- PubSub.PublishSubscribeService.OnNodeConnect: nodes join or come back; a node leaving the cluster is not modelled.
- LockRenewal.LockEntry.AddThreadId: the counter is unbounded; overflow of the machine word is not modelled.
- Batch options, `usize` positions and the 64-bit sum of replica counts are unbounded integers, except the index counter, which wraps.
- The entry of a node group is a value, not an object: Rust's ownership rules out sharing it.
- fred itself: pools, sockets, reconnecting, redirects, retries, response timeouts.
- `synced_eval` and its replica-info cache: it races an enqueue against the execution, so the code does not decide how often the script runs.
- `lock_task.rs`, the lock's wait loops, watchdog scheduling and renewal calls.
- SORT_RO's own fallback, which repeats that of EVALSHA_RO, and eviction of client-side caches after a write.
- A client that publishes by hand on a keyspace event's channel, whose message fred turns into an event.
- Plain and sharded channel delivery, which looks up one key, and the resubscription that fred manages itself.
- `suffix_name`, and the writes of an object's own name.
- Glob classes and escapes: the matcher documents only `*` and `?`.
- Listener identity by address: listeners carry unique ids instead.
- SHA-1 and CRC16 internals, configuration, option builders, delegation layers, logging.
