# Verified model of the ol-node backend

Dafny model of the stateful parts of the ol-node backend, with proofs about every run of
them. `dafny verify dfyconfig.toml` checks the whole project.

* **Broadcast fan-out** (`Broadcast*.dfy`). Admin notification and push broadcasts: a planner
  writes a per-campaign outbox in Redis and enqueues one job per 200 recipients; batch jobs send
  and then claim their batch with an atomic script; a sweep revives lost and failed batches.
  `BroadcastProtocol` is a state machine over atomic steps of any number of campaigns, planners,
  batch executions (retries and stalled duplicates included), crashes, job losses and sweeps;
  `Kind` selects the inbox or the push variant. `BroadcastSafety`, `BroadcastCounting`,
  `BroadcastTally` and `BroadcastRecovery` prove what every interleaving keeps; `BroadcastStranding` and
  `BroadcastClosing` say exactly when recovery and completion fail; `BroadcastWorker` is the worker
  code, each method of which is a sequence of protocol steps.
* **Realtime rooms and subscriptions** (`Rooms`, `Channels`, `Subscriptions`, `Gateway`). The two-way
  room index, channel naming and routing, the reference-counted Redis subscription with the await
  between joining a room and bumping the count, and the gateway handlers that tie them together.
* **Agency earnings** (`Membership`, `EarningsWindow`, `DailyEarnings`, `ReversedCommission`).
  Membership intervals, attribution of credits, the windowed query with its candidate prefilter,
  the clamped daily upsert, and the two ways of skipping reversed commission.
* **Rate limiters** (`FrameLimiter`, `FixedWindow`), **cursor walks** (`AuditCursor`, `AgencyCursor`),
  **revenue shares** (`RevenueShare`) and **infrastructure flags** (`InfraFlags`).

Assumptions, all visible in the definitions: a campaign's Redis keys are looked at before their
24 h TTL; a client message id creates at most one message; a batch execution reaches its claim only
when every send has returned; only the execution that holds an active job's lock completes it;
timestamps of one key, table or limiter do not decrease where a lemma says `Chronological` or
`Sorted`; the Redis subscriber has been started and is not stopped, so the await inside `subscribe` is
one microtask; frames of one socket are handled one after the other and its close does not run inside
that microtask (`Serialised`).

Where the code falls short of what its comments promise, the model follows the code:

* The comment on the sweep says a broadcast cannot silently drop a batch. That holds for a campaign
  planned once under job ids no other campaign shares (`ReachableCanComplete`). Planning a campaign
  can leave a batch that nothing ever sends, because its job id ends up held by a completed job, which
  the queue and the sweep both ignore (`ForsakenForever`). This can happen if and only if, before
  planning, such a job exists, or the execution that holds the job is past its claim, or a batch of a
  campaign whose id differs only in colons is around under that job id (`PlanningStrandsIff`, with
  reachable instances in `ReplanCanStrand` and `ClashCanStrand`).
* The completion audit and the cleanup are done only by the execution whose claim answered 0. If it
  dies in between, everybody has been served but the audit is never logged and the keys stay until
  their TTL (`DeadCloserLosesAudit`); `ClosesIff` gives the exact condition.
* The SQL and the in-memory form of skipping reversed commission differ on entries with an empty
  id (`AgreeUnlessDivergent`, `SumsEqualIff`).
* The fixed-window limiter may admit up to 2 * max - 1 requests within one window length, for every
  max and window (`SlidingBound`, `SlidingBoundIsTight`).
* The renotify period holds per flag, not per metric: `SpacedPerMetricIff` and `EmailsTooSoonIff` say
  exactly when it does, `FlappingIsNotSpaced` shows that both causes occur.

The subscription machine also covers what the gateway rules out: `OvertakingLeaks` and
`OvertakingDeafens` show why a leave must not overtake the await of its own join (`Serialised`), and
`CountAgreesIffNeverClamped`, `LeaveClampsIff`, `SettledIsHeardIff` and `AlwaysHeardIff` say exactly what
would go wrong and when.

## Model

| member | source | states |
|---|---|---|
| `BroadcastIds.BatchJobIdClash` | src/queues/platform-message.queue.ts:64-71 | Two batches share a job id if and only if their index is equal and their campaign ids differ at most in colons against hyphens |
| `BroadcastIds.ColonFreeIdsNeverClash` | src/queues/push-notification.queue.ts:31-47 | For colon-free minted campaign ids the job id determines campaign and batch |
| `BroadcastIds.JobIdHasNoColon` | src/queues/platform-message.queue.ts:64-71 | No batch job id contains a colon, whatever the campaign id |
| `BroadcastIds.KindsNeverClash` | src/queues/push-notification.queue.ts:31-47 | Inbox and push batches never share a job id |
| `BroadcastIds.ColonsMayClash` | src/queues/platform-message.queue.ts:64-71 | Witness of two campaigns with colons that share all their job ids |
| `BroadcastIds.DecimalRoundTrip` | src/queues/platform-message.queue.ts:69-71 | The decimal batch index in a job id can be read back and contains no hyphen |
| `BroadcastWorker.SlicesPartition` | src/jobs/platform-message.job.ts:109-112 | Batching loses, repeats and reorders nobody; batches are non-empty, of 200 but the last, and as few as possible |
| `BroadcastWorker.SliceBatches` | src/jobs/platform-message.job.ts:109-112 | The slicing loop computes that partition |
| `BroadcastWorker.Worker.EnqueueAll` | src/jobs/platform-message.job.ts:140-148 | The enqueue loop adds a waiting job with the batch's recipients for exactly the batches that had none, touches no existing job, and is a run of protocol enqueues |
| `BroadcastWorker.Worker.PlanOrReplay` | src/jobs/platform-message.job.ts:72-154 | Planner job: replays an existing plan, audits an empty one, otherwise runs the planning transaction and enqueues every batch; in each case a run of protocol steps |
| `BroadcastWorker.Worker.ClaimBatch` | src/jobs/platform-message.job.ts:161-166 | The claim script, against the claim transaction of the protocol |
| `BroadcastWorker.Worker.FinishBatchJob` | src/jobs/platform-message.job.ts:194-222 | After the sends, as protocol steps of the execution: claim; on 0 the audit of the totals and the deletion of state, pending and membership; else nothing more |
| `BroadcastWorker.Worker.SweepCampaign` | src/jobs/platform-message.job.ts:248-268 | A waiting job with the batch's recipients is added for exactly the pending batches that had none, exactly the failed jobs of pending batches are set waiting, every other job is untouched; a run of protocol steps |
| `BroadcastWorker.Worker.Sweep` | src/jobs/platform-message.job.ts:231-270 | The whole sweep as protocol steps: exactly the active campaigns without state are forgotten, and that effect on jobs holds for exactly the pending batches of the stale ones |
| `BroadcastWorker.ReviveIsStep` | src/jobs/platform-message.job.ts:251-267 | The get, retry or add for a batch the sweep has read is one protocol step |
| `BroadcastWorker.RevivedTwice` | src/jobs/platform-message.job.ts:233-269 | Sweeping two sets of batches one after the other is sweeping their union |
| `BroadcastWorker.SweepRecovers` | src/jobs/platform-message.job.ts:231-270 | In every reachable state, a sweep ten minutes or more after the plan of a campaign planned once under unshared ids leaves each of its pending batches with a waiting or active job that carries its recipients |
| `BroadcastWorker.SweepSparesYoung` | src/jobs/platform-message.job.ts:246 | A sweep earlier than that adds and changes no job of the campaign |
| `BroadcastSafety.StepKeepsInv` | src/jobs/platform-message.job.ts:72-270 | Every atomic step of planner, replay, execution, crash, job loss and sweep keeps the protocol invariant |
| `BroadcastSafety.ExecKeepsInv` | src/jobs/platform-message.job.ts:72-270 | So does every interleaving |
| `BroadcastSafety.ServedOrPending` | src/jobs/platform-message.job.ts:72-223 | In every interleaving each planned recipient is served or in a batch still pending |
| `BroadcastSafety.ZeroMeansAllServed` | src/jobs/platform-message.job.ts:196-222 | When a claim returns 0, every recipient of the plan has been served |
| `BroadcastSafety.CountersAgree` | src/jobs/platform-message.job.ts:125-138 | remaining is the number of pending batches, claims plus pending is the plan, sent plus pending recipients stays within total, and at most one zero claim, audit and cleanup happen per plan |
| `BroadcastSafety.SecondClaimIsRefused` | src/jobs/platform-message.job.ts:156-166 | Claiming a batch again returns -1 and changes nothing |
| `BroadcastSafety.ReadyToClaim` | src/jobs/platform-message.job.ts:173-192 | An execution that reaches its claim has served its whole batch |
| `BroadcastSafety.CreatedWhenPlanned` | src/jobs/platform-message.job.ts:126-133 | The creation time of a campaign planned once is the time of its plan event |
| `BroadcastSafety.ExecSourced` | src/jobs/platform-message.job.ts:81-138 | In every run, with any number of plans, whatever is queued, in hand, executed or pending is a batch of one of the campaign's plans, and a campaign with a pending hash has its state hash and is in the active set |
| `BroadcastCounting.SentNeverOverstates` | src/jobs/platform-message.job.ts:173-213 | However often batches run, sent is the number of distinct counted recipients, all of whom have a message; the audit reports the same number |
| `BroadcastTally.ResultIsReported` | src/jobs/platform-message.job.ts:173-192 | In every run an execution hands its claim the number of messages its own sends created since it started; a push execution its multicast's success count |
| `BroadcastTally.SentIsWon` | src/jobs/platform-message.job.ts:161-213 | sent and the completion audit are the sum of these numbers over the campaign's winning claims |
| `BroadcastTally.SentIsEveryMessageIff` | src/jobs/platform-message.job.ts:173-213 | For inbox broadcasts sent is the number of recipients with a message created by an execution that then won its claim, and the number of all messages created if and only if every message was |
| `BroadcastRecovery.CompletedIsNeverPending` | src/jobs/platform-message.job.ts:225-230 | In every reachable state a completed job's batch is not pending, for a campaign planned once with unshared ids |
| `BroadcastRecovery.PendingIsFound` | src/jobs/platform-message.job.ts:232-246 | A campaign with something pending is in the active set and has its creation time, so the sweep finds it |
| `BroadcastRecovery.SweepVisitSteps` | src/jobs/push-notification.job.ts:252-285 | Reading a stale campaign of the active set and visiting one of its pending batches is a get and then a retry or add |
| `BroadcastRecovery.SweepRevives` | src/jobs/platform-message.job.ts:231-268 | A sweep finds a campaign with a pending batch, and its visit leaves the batch with a waiting or active job that carries the batch's recipients |
| `BroadcastRecovery.CanAlwaysComplete` | src/jobs/platform-message.job.ts:225-270 | For a campaign planned once with unshared ids sweeps and executions alone, without planner or replay, can serve everybody and leave nothing pending; if something was pending, they also log the one audit and delete the keys |
| `BroadcastRecovery.ReachableCanComplete` | src/jobs/platform-message.job.ts:225-270 | Hence from every reachable state sweeps and executions alone can still serve everybody |
| `BroadcastClosing.ClosesIff` | src/jobs/platform-message.job.ts:205-221 | In every reachable state of such a campaign the audit and cleanup can still happen without another plan if and only if they have happened, something is pending, or an execution is between its zero claim and its cleanup; then sweeps and executions alone can do it; before the audit: something is pending or an execution is at its zero claim |
| `BroadcastClosing.AbandonedForever` | src/jobs/platform-message.job.ts:231-270 | Once nothing is pending and no such execution is left, no continuation of planner, executions and sweep ever audits or cleans up |
| `BroadcastClosing.DeadCloserLosesAudit` | src/jobs/platform-message.job.ts:205-221 | That is reachable: the execution that got 0 dies before its audit |
| `BroadcastStranding.PlanningStrandsIff` | src/queues/platform-message.queue.ts:73-90 | After any run, planning a campaign allows a continuation without another plan under its job ids that strands batch i if and only if, before planning, its job id is held by a completed job, or by a job whose execution is past its claim, or a batch i of a campaign sharing its job ids has a job, is pending or is in somebody's hand |
| `BroadcastStranding.CanBeStrandedIff` | src/queues/platform-message.queue.ts:73-90 | The same for every pending batch of every state |
| `BroadcastStranding.FirstPlanIsSafe` | src/queues/platform-message.queue.ts:64-71 | A first plan under unshared job ids is never at risk |
| `BroadcastStranding.ForsakenForever` | src/jobs/platform-message.job.ts:251-261 | Until the completed job is lost no continuation, with further plans or without, sends the batch: no execution of it opens, and a recipient in no other batch who has not been served never is |
| `BroadcastStranding.StrandedForever` | src/jobs/platform-message.job.ts:231-270 | For a campaign planned once the batch also stays pending |
| `BroadcastStranding.ReplanCanStrand` | src/jobs/platform-message.job.ts:81-96 | A campaign that ran to its cleanup, so that the planner finds no state, is at risk before and after its last job completes |
| `BroadcastStranding.ClashCanStrand` | src/queues/platform-message.queue.ts:64-71 | A campaign whose id differs only in colons puts a first plan at risk |
| `Rooms.JoinedOk` | src/realtime/conversation-rooms.ts:15-32 | A join sets exactly one membership and keeps the two indexes exact inverses without empty containers |
| `Rooms.LeftOk` | src/realtime/conversation-rooms.ts:35-48 | A leave removes exactly one membership and keeps the same invariant |
| `Rooms.TwoWayRooms.Join` | src/realtime/presence-rooms.ts:17-38 | Join reports whether the socket was new to the room |
| `Rooms.TwoWayRooms.Leave` | src/realtime/guardian-rooms.ts:33-46 | Leave reports whether the socket was in the room |
| `Rooms.TwoWayRooms.LeaveAllForSocket` | src/realtime/conversation-rooms.ts:50-64 | Each joined room is returned once and only that socket's memberships disappear |
| `Rooms.TwoWayRooms.HasRoom` | src/realtime/conversation-rooms.ts:72-75 | A room is known exactly while some socket is in it |
| `Rooms.TwoWayRooms.JoinedCount` | src/realtime/conversation-rooms.ts:77-80 | The reverse-index count is the number of rooms holding the socket |
| `Channels.ParserIsUnique` | src/realtime/redis-subscriber.ts:12-51 | At most one channel parser accepts a name |
| `Channels.PrefixesMatch` | src/realtime/redis-subscriber.ts:12-21 | The subscriber's own prefixes match the key builders |
| `Channels.RouteInvertsName` | src/realtime/redis-subscriber.ts:97-153 | A name routes to a room if and only if it is that room's channel and the id is not empty |
| `Channels.NameIsInjective` | src/config/redis.ts:163-204 | Distinct rooms have distinct channels |
| `Subscriptions.CountAgreesIffNeverClamped` | src/realtime/redis-subscriber.ts:156-177 | In every interleaving the issued commands subscribe exactly the positive counts, and count plus pending bumps equals the room size if and only if no decrement was clamped |
| `Subscriptions.LeaveClampsIff` | src/realtime/redis-subscriber.ts:166-177 | A leave is clamped exactly when the socket is in the room and no bump has gone through |
| `Subscriptions.SerialisedCountsAgree` | src/realtime/ws.gateway.ts:390-393 | With serialised sockets the clamp never fires, count plus pending bumps is the room size, and at rest a channel is subscribed exactly while its room has members |
| `Subscriptions.OvertakingLeaks` | src/realtime/redis-subscriber.ts:156-164 | Why sockets must be serialised: a leave inside the await of its own join would leave an empty room subscribed |
| `Subscriptions.SettledIsHeardIff` | src/realtime/redis-subscriber.ts:156-177 | In every interleaving count plus overtaken bumps is the number of settled members plus the clamped decrements, so a channel is subscribed exactly when overtaken bumps are fewer than those |
| `Subscriptions.SerialisedIsHeard` | src/realtime/ws.gateway.ts:390-393 | With serialised sockets a channel is subscribed, at every moment, exactly when some member's bump has gone through |
| `Subscriptions.AlwaysHeardIff` | src/realtime/redis-subscriber.ts:166-177 | Members whose bump has gone through stay subscribed throughout a run if and only if no member leaves at count 1 while another such member remains |
| `Subscriptions.OvertakingDeafens` | src/realtime/redis-subscriber.ts:156-177 | Likewise, a join and leave within one await would unsubscribe the channel of another member, without any clamp |
| `Subscriptions.StepTracked` | src/realtime/redis-subscriber.ts:156-177 | Every step keeps balance and replay agreement |
| `Subscriptions.RoomLimitHolds` | src/realtime/ws.gateway.ts:81-99 | No run of serialised JOINs takes a socket above the configured number of rooms |
| `Subscriptions.JoinBelowLimit` | src/realtime/ws.gateway.ts:81-99 | Below the limit a JOIN passes its check and joins its conversation; at the limit it does not |
| `Subscriptions.RoomsFromEvents` | src/realtime/ws.gateway.ts:81-110 | A socket is in exactly the conversations it last committed to and neither left nor drained since |
| `Gateway.Subscriber.Bump` | src/realtime/redis-subscriber.ts:158-163 | The part of subscribe after its await |
| `Gateway.Subscriber.Drop` | src/realtime/redis-subscriber.ts:166-177 | unsubscribe with its clamp at zero |
| `Gateway.Hub.Join` | src/realtime/ws.gateway.ts:97-103 | The join handler is the machine's join step and asks for a bump exactly when the socket was new |
| `Gateway.Hub.ResumeSubscribe` | src/realtime/ws.gateway.ts:101-103 | The resumed subscribe is the machine's bump step |
| `Gateway.Hub.Leave` | src/realtime/ws.gateway.ts:106-110 | The leave handler is the machine's leave step |
| `Gateway.Hub.Drain` | src/realtime/ws.gateway.ts:330-374 | Closing a socket is a run of leave steps, one per joined room, after which no room holds the socket |
| `Membership.Repository.InsertHost` | src/repositories/agencyHost.repository.ts:6-16 | Adds the membership unless the host has one |
| `Membership.Repository.FinalizeExit` | src/services/agencyHost.service.ts:131-164 | Moves the current membership, with its join time, to the history, so that past membership stays what the events say |
| `Membership.RunsDisjoint` | src/repositories/agencyHost.repository.ts:263-282 | In every chronological run the membership intervals of a host follow one another |
| `Membership.OneAgencyAtATime` | src/repositories/agencyCommission.repository.ts:211-226 | At any time a host is a member of at most one agency |
| `Membership.CountsForOwnerOnly` | src/repositories/agencyCommission.repository.ts:211-245 | The three-way membership clause holds for an account if and only if it is the credit's owner |
| `Membership.CreditCountsOnce` | src/repositories/agencyCommission.repository.ts:211-245 | In every chronological run each credit counts for exactly one account, its host's agency or the host itself, so for at most one agency |
| `Membership.MembersFromEvents` | src/repositories/agencyHost.repository.ts:263-282 | In every chronological run the tables put a host in an agency at a time if and only if it joined by then, being in none, and did not leave by then |
| `Membership.CountsFromEvents` | src/repositories/agencyCommission.repository.ts:211-245 | Read off the joins and exits alone: a credit counts for the agency its host belonged to at that time, or for the host itself if it belonged to none |
| `EarningsWindow.CountedHostIsCandidate` | src/repositories/agencyCommission.repository.ts:183-195 | The candidate prefilter never drops the host of a counted credit |
| `EarningsWindow.WindowSumIsAttributed` | src/repositories/agencyCommission.repository.ts:182-246 | The prefiltered join equals the sum over all ledger entries that count, for any order of candidates |
| `EarningsWindow.WindowsAddUp` | src/repositories/agencyCommission.repository.ts:182-246 | Adjacent half-open windows add up although each has its own candidates |
| `EarningsWindow.TotalsPartitionCredits` | src/repositories/agencyCommission.repository.ts:167-248 | Totals over distinct agencies are exactly the eligible credits they own, so never more than was credited |
| `EarningsWindow.EntryAdds` | src/repositories/agencyCommission.repository.ts:196-245 | One more ledger entry adds its amount to an agency's window exactly if it is a processed gift, live gift or call credit in the window to a point wallet of a host in good standing whom the joins and exits put in that agency; else nothing |
| `EarningsWindow.UnprocessedLowersSum` | src/repositories/agencyCommission.repository.ts:196-245 | A counted entry that loses its processed mark lowers the sum by its amount |
| `DailyEarnings.Table.UpsertDailyEarning` | src/repositories/agencyCommission.repository.ts:139-164 | Insert path and conflict path agree with one clamped update of a row that defaults to zero |
| `DailyEarnings.StoredTotals` | src/repositories/agencyCommission.repository.ts:139-164 | After any upserts both totals of a key are the maximum suffix sums of its deltas, its row is active and its last credit is its last upsert |
| `DailyEarnings.ClampExactIff` | src/repositories/agencyCommission.repository.ts:153-161 | A total is never negative, never below the plain sum, and equal to it if and only if no prefix sum is negative |
| `ReversedCommission.AgreeUnlessDivergent` | src/repositories/agencyCommission.repository.ts:381-394 | Subquery and loop agree on an entry if and only if it is not divergent, and differ in one direction only |
| `ReversedCommission.ReversedById` | src/repositories/agencyHost.repository.ts:194-230 | With a non-empty host entry id both forms skip an entry exactly when the reverse key of that id exists |
| `ReversedCommission.AggregateCommission` | src/repositories/agencyHost.repository.ts:194-230 | The loop reports each host with an unreversed entry and its sum |
| `ReversedCommission.SumsDiffer` | src/repositories/agencyHost.repository.ts:218-230 | Per host the loop reports the subquery's sum plus the divergent entries |
| `ReversedCommission.SumsEqualIff` | src/repositories/agencyCommission.repository.ts:369-395 | With positive amounts the two are equal if and only if no entry of the host diverges |
| `ReversedCommission.EmptyMetadataDiverges` | src/repositories/agencyHost.repository.ts:202-208 | Witness of a divergent entry |
| `FrameLimiter.WsFrameRateLimiter.Allow` | src/realtime/ws-frame-guard.ts:18-40 | The queues stay those of the calls made so far, and with a non-decreasing clock a frame is admitted if and only if fewer than max admissions of its socket since the last clear lie in the window |
| `FrameLimiter.WsFrameRateLimiter.Clear` | src/realtime/ws-frame-guard.ts:42-44 | The queues stay those of the calls made so far: the socket's history starts over, every other socket keeps its own |
| `FrameLimiter.SocketsAreIndependent` | src/realtime/ws-frame-guard.ts:18-44 | Over any run of frames and clears each socket sees only its own frames since its last clear |
| `FrameLimiter.QueueIsPrunedHistory` | src/realtime/ws-frame-guard.ts:29-33 | The kept queue is the whole admission history pruned at the latest cutoff |
| `FrameLimiter.AdmitsIff` | src/realtime/ws-frame-guard.ts:29-39 | A frame is admitted if and only if fewer than max admissions of the whole history lie in the window |
| `FrameLimiter.NeverMoreThanMax` | src/realtime/ws-frame-guard.ts:1-5 | Any closed interval of one window length holds at most max admissions |
| `FrameLimiter.EverySocketBounded` | src/realtime/ws-frame-guard.ts:18-44 | Both for every socket in any run over all sockets |
| `FixedWindow.RateLimit.PreHandler` | src/middlewares/rateLimitAuth.ts:53-71 | The counters stay those of the requests made; a request without a caller is refused, any other is refused exactly when max hits of the same life of its key went before; over a non-decreasing clock any half-open interval of the configured window admits at most 2 * max - 1, and a life is over less than a second after the window |
| `FixedWindow.RequestBounds` | src/middlewares/rateLimitAuth.ts:13-16 | For uninterrupted requests: every hit is numbered within its life, a life begins no sooner than the configured window after the previous one began and lasts less than the window and a second, and the 2 * max - 1 bound holds over the configured window |
| `FixedWindow.OneLifeBound` | src/middlewares/rateLimitAuth.ts:13-16 | One life of the key admits at most max requests |
| `FixedWindow.SlidingBound` | src/middlewares/rateLimitAuth.ts:13-16 | In every interleaving of INCR and EXPIRE NX any half-open interval of one window length admits at most 2 * max - 1 requests |
| `FixedWindow.SlidingBoundIsTight` | src/middlewares/rateLimitAuth.ts:13-16 | For every max and every window of at least 2 ms there is a run that reaches the bound |
| `FixedWindow.HitsNeverExtend` | src/middlewares/rateLimitAuth.ts:7-12 | Once a TTL is set, hits within it never move it |
| `FixedWindow.TtlCoversWindow` | src/middlewares/rateLimitAuth.ts:51-52 | The TTL is the configured window rounded up to seconds |
| `AuditCursor.RestAfterCursor` | src/repositories/audit.repository.ts:107-129 | The query behind a cursor is the rest of the listing |
| `AuditCursor.PageAt` | src/repositories/audit.repository.ts:122-135 | A page holds the next limit rows, and its cursor is absent exactly when nothing is left |
| `AuditCursor.WalkIsComplete` | src/repositories/audit.repository.ts:107-135 | Following the cursor visits every matching row exactly once, by createdAt and then id, both descending, and ends |
| `AuditCursor.MissingCursorRestarts` | src/repositories/audit.repository.ts:107-120 | A cursor whose row is gone starts over |
| `AgencyCursor.ListIdsOk` | src/repositories/agencyCommission.repository.ts:304-314 | A page is increasing, beyond the cursor and skips nothing; a short page is complete |
| `AgencyCursor.HandleMaster` | src/jobs/agency-level-recompute.job.ts:22-44 | Whatever changes between queries, the loop ends, enqueues no id twice, only ids its queries saw, and every id present throughout |
| `RevenueShare.DebitIsLeast` | src/config/host-revenue-shares.ts:102-114 | The debit is the least number of coins whose floored share reaches the price |
| `RevenueShare.DebitIsExact` | src/config/host-revenue-shares.ts:44-51 | The host receives exactly its price from that debit |
| `RevenueShare.ExactIffAtMostFull` | src/models/system-rates-admin.schemas.ts:36-41 | That holds for every price if and only if the share is at most 100% |
| `RevenueShare.FullShare` | src/config/host-revenue-shares.ts:76-82 | At 10000 basis points credit and debit are the amount itself, and non-positive amounts pay nothing |
| `RevenueShare.SplittingLoses` | src/config/host-revenue-shares.ts:75-82 | A total paid as n gifts never credits more and loses at most n - 1 points |
| `InfraFlags.Monitor.UpsertFlagAndMaybeNotify` | src/jobs/gcp-infra-monitor.job.ts:103-166 | Refresh or open the live flag; email when new or due |
| `InfraFlags.Monitor.RunResource` | src/jobs/gcp-infra-monitor.job.ts:230-236 | After an error-free tick the live metrics of a resource are exactly its candidates, and the flags of other resources are as before |
| `InfraFlags.RunsOk` | src/jobs/gcp-infra-monitor.job.ts:103-182 | Over any run, at most one live flag per resource and metric, and two emails about one flag are more than its renotify period apart |
| `InfraFlags.NotifiesIff` | src/jobs/gcp-infra-monitor.job.ts:117-166 | In every chronological run a detection sends exactly one email, about a live flag of its resource and metric, unless an open or acknowledged flag of it was emailed about within the renotify hours; then none |
| `InfraFlags.DetectIsLocal` | src/jobs/gcp-infra-monitor.job.ts:125-156 | A detection gives the live flag the candidate's reading and leaves every other flag alone |
| `InfraFlags.ClearIsLocal` | src/jobs/gcp-infra-monitor.job.ts:168-182 | A clear resolves exactly the live flags of its resource whose metric is not listed |
| `InfraFlags.EmailsTooSoonIff` | src/jobs/gcp-infra-monitor.job.ts:103-166 | In every chronological run a detection emails within the renotify period of an earlier email about its resource and metric if and only if no flag of it is live and there is such an email |
| `InfraFlags.SpacedPerMetricIff` | src/jobs/gcp-infra-monitor.job.ts:140-156 | So emails about a metric are spaced over a run if and only if no detection of the run found no live flag but a recent email |
| `InfraFlags.FlappingIsNotSpaced` | src/jobs/gcp-infra-monitor.job.ts:140-156 | A metric that clears, or whose flag an administrator resolves, is emailed again at once when it returns |

## Left out

- The 24 h TTL of campaign keys: an expired campaign is dropped by design, so the guarantees are stated before it.
- Planning a campaign again while executions, cleanups or sweeps of its earlier plan are under way: they act on the new outbox as well, so delivery and counting are stated per plan; `PlanningStrandsIff` alone covers any number of plans.
- Delivery of push messages exactly once: a push batch has no per-recipient dedupe; for push campaigns `served` means attempted.
- `BroadcastSafety.CountersAgree`: the audit of an empty recipient list is in the worker code but not in the at-most-one count, because no outbox is written for it.
- A sweep reads a campaign's state and pending hash in one step, and a visit (get, then retry or add) is one step; a retry refused because the job stopped being failed is the step that skips the batch.
- `BroadcastClosing.ClosesIff`: a push batch logs its audit only if an admin id is known; the model takes it as known, since every plan stores one.
- Sending of messages, FCM, Prisma, Redis and BullMQ themselves: atomic steps with the assumptions above.
- The five room classes are one generic index keyed by room kind and id; `getSockets` and `localViewerUserIds` would add only easy members.
- `AuditCursor.WalkIsComplete`: rows do not change during a walk, and a limit of 0, which every request schema excludes, is not walked.
- `RevenueShare.SplittingLoses`: gift costs are non-negative; non-positive costs credit 0 by the function itself.
- Filter construction of the audit query: the filter is an arbitrary predicate.
- Message texts, values rounded for display, and the first-detected and resolved times of infrastructure flags.
- Cascading deletes of agencies and users, live durations and daily bucket reports.
- Support-ticket and presence watch counters, withdrawal, payroll, wallet, ranking and face jobs.
- Absence of closed sockets from rooms: a JOIN that awaits the database can finish after its socket was drained.
