# Paced read engine: a verified model

A Dafny 4.11 model of xrdhover, a load generator that keeps many XRootD file
sessions in flight while a token bucket holds the total read rate. A session
goes Open, Stat, Read repeatedly, Close, driven by asynchronous callbacks; a
watchdog may ask for Close at any moment; one engine thread pays tokens before
every read and decides when a session continues and when a new one starts.

How the files build on each other:

- `SessionSpec.dfy` says what each handler of a session does, as functions on
  values. `FileSession.dfy` is the object itself, every method proved against
  those functions; `ReadLists.dfy` covers the pieces of one read.
- `SessionLedger.dfy` puts one session together with what the code never writes
  down: the callbacks owed, the tokens paid and refunded, the reads issued.
  `SessionLosses.dfy` says exactly where tokens are lost, `SessionProgress.dfy`
  how far a session is from its end, `SessionEnds.dfy` how it goes on and ends;
  `RunLosses.dfy` and `OkRun.dfy` lift this to runs.
- `TokenBucket.dfy`, `Inflight.dfy`, `RunConfig.dfy` and `Scheduler.dfy` are the
  parts the engine uses; `RunEngine.dfy` is its loop, and `EngineWork.dfy` says
  that it does what it can.
- `Engine.dfy` is the whole run as a state machine whose steps are the atomic
  actions of all threads, in any order. `EngineInvariants.dfy` and
  `EngineSteps.dfy` prove that every step keeps the invariant;
  `EngineRuns.dfy`, `Window.dfy`, `Continuations.dfy`, `Drain.dfy`,
  `HungDrain.dfy` and `HangCondition.dfy` state what follows for every run.
- `Effects.dfy` says which session a step acts on and what it asks for.
  `Watchdog.dfy` is the deadline table, `TokenWait.dfy` and `Deadlines.dfy` the
  table and the run together; `RunMetrics.dfy` is the run and its registry,
  `Workload.dfy` the run and the pattern it draws its sessions from.
- `Histogram.dfy`, `Percentile.dfy`, `Metrics.dfy`, `Attribution.dfy`,
  `MetricsRegistry.dfy` and `SiteMap.dfy` compare each index with the plain
  observations behind it; `SiteRules.dfy` says what a lookup answers.

XrdCl is an adversary: it accepts or refuses each submission, and delivers each
accepted callback exactly once, later, in any order. It may accept Close while
another operation is in flight. The watchdog may fire at any moment.

Assumptions, all visible in the contracts:

- `Sane`: the chunk size is at least 1 and chunk size times
  max(1, vector chunks) is below 2^32. Nothing in the program enforces this;
  `ChargeAlwaysMatchesIffFits` shows that the charge is right for every read if
  and only if it holds, and `WrapUndercharges` gives a configuration outside it.
- A read reply returns at most the bytes asked for (`Possible`), and a file size
  fits in 64 bits.
- Doubles are reals, and the clock does not go back.
- The deadline test of the loop may be followed by its action at any later
  time (`InTime`): it never sees the deadline passed too early, and a run of
  duration 0 never admits a session.
- `paced` stands for a session with all pacing hooks set, as the run sets them.

Four promises are not kept by the code, and the model keeps the code as it is.
Exact token accounting fails for sessions that timed out (`PrepaidCanBeLost`;
`TokensLostIff` has the exact branches). The charge is too small when the
operation size exceeds 32 bits (`ChargeAlwaysMatchesIffFits`). A drain can wait
for a session nobody will close: `DrainHangsIff` says for which configurations,
`SweepDecidesTheDrain` at which moment of the run it is decided. Waiting for
tokens can count against a session: a timeout that was due while a read was
pending can reach it after it has parked (`TimeoutCanMeetParked`), but only then
(`FiresParkedOnlyAfterReply`).

## Model

| member | source | states |
|---|---|---|
| `EngineRuns.RateCeiling` | src/run_command.cc:338-400 | In every state any interleaving can reach, the bytes all servers have returned (late replies included), and hence the exported byte counter, are at most the largest charge any draw of the run can make plus rate times elapsed time; in a mixed run whose fraction never draws a vector operation, one whole vector operation instead of the largest charge. |
| `RunMetrics.ExportedBytes` | src/run_command.cc:298-330 | The registry fed with the reports of any run, whatever servers, sites and error classes they name, holds the counters of the run; its servers add up to them, and the exported bytes are at most one bucketful plus rate times elapsed time. |
| `RunMetrics.RegistryFollows` | src/run_command.cc:298-330 | Along any run ok, failed and byte counters of the registry follow the reports one by one, site re-mappings in between changing none. |
| `Windows.WindowCeiling` | src/run_command.cc:338-400 | Between any two states of a run, however far apart, the servers return at most the largest charge plus rate times the time between them plus the tokens the sessions already held at the first state. |
| `EngineSteps.StepKeeps` | src/run_command.cc:282-400 | Every atomic step of the engine, the callback threads, the watchdog and the session tails keeps the whole invariant: sessions, prices, bucket, token totals, slots and order. |
| `EngineInvariants.InitialInv` | src/run_command.cc:215-281 | A run starts in a state that satisfies the invariant. |
| `EngineRuns.NoSessionStranded` | src/file_session.cc:196-236 | Until it completes, a session has an undelivered callback or exactly one custodian; never more than one Open, Stat or Read and one Close outstanding; while it waits for tokens the deadline table has no entry for it. |
| `EngineRuns.CallbacksFindTheSession` | src/file_session.cc:266-316 | The pending counter equals the accepted, undelivered callbacks; the self-reference is dropped exactly when the session is complete and nothing is owed; on_done fired exactly for completed sessions, and an open session has no report yet. |
| `EngineRuns.NothingAfterCompletion` | src/file_session.cc:378-645 | Whatever reaches a completed session, nothing is submitted, refunded or reported again, and its report stays. |
| `EngineRuns.SessionAccount` | src/file_session.cc:328-354 | Charged tokens = refunded + counted bytes + unspent prepayment + read in flight + what the engine holds + forfeited; without a timeout nothing is forfeited and at completion the net charge is the reported byte count; net charge always covers the bytes delivered. |
| `EngineRuns.SessionReads` | src/file_session.cc:445-551 | Issued reads stay in the file and within the chunk size, all their pieces land inside the allocated buffer, sequential ones abut from the start offset; bytes and operations never exceed the plan, and the reads an undisturbed ok session issued add up to exactly the plan, in ceil(plan / operation) reads. |
| `EngineRuns.SubmittedSlices` | src/file_session.cc:502-526 | In every reachable state, the pieces of whatever read a session may submit next use disjoint slices of its buffer, all inside it. |
| `EngineRuns.SlotAccount` | src/run_command.cc:332-399 | Semaphore count = live + slots held by the engine + slots being returned; live never exceeds the limit; no release at zero; admitted = ok + failed + live at step boundaries. |
| `EngineRuns.WaitsAreBounded` | src/run_command.cc:365-391 | Every charge the engine asks for is positive and fits the bucket, so every wait it computes is at most capacity / rate. |
| `Continuations.ServedInOrder` | src/run_command.cc:290-371 | Parking history = sessions the engine let go of, then the one it holds, then the ready queue. |
| `Continuations.RefusedKeepsItsTurn` | src/run_command.cc:365-371 | A continuation short of tokens goes back in front of every session parked later; the parking order is unchanged. |
| `Continuations.OrderOnlyGrows` | src/run_command.cc:282-400 | No step takes anything back from the parking order or from what was served. |
| `Continuations.NeverOvertaken` | src/run_command.cc:282-400 | Whatever has been served at any later moment is a prefix of the parking order or extends it: a later-parked session is never served first. |
| `Continuations.AdmissionSawNoneReady` | src/run_command.cc:339-380 | Whenever the engine is admitting a session, the iteration it is in began by seeing the ready queue empty. |
| `Drains.DrainBound` | src/run_command.cc:402-420 | While draining, the number of deliveries and other bound-to-happen steps is at most a measure of the state, which no step increases. |
| `Drains.StillMoves` | src/run_command.cc:402-420 | Until a drain has settled, some step that is bound to happen is possible: a callback owed, a stop test, a push, or a half of a session tail. |
| `Drains.RunsOut` | src/run_command.cc:402-420 | Every drained state reaches a settled one by productive steps alone, at most as many as its measure. |
| `Drains.FourMoreDeliveries` | src/file_session.cc:378-645 | After the sweep each session completes within four further callback deliveries. |
| `Drains.DrainCompletes` | src/run_command.cc:402-420 | With nobody between stop test and push, along every continuation of the drain: until it has settled a productive step can be taken, their number is bounded by the measure, and once settled live = 0, no slot is held and every session is completed. |
| `Drains.DrainCompletesIff` | src/run_command.cc:282-292 | Every drained state has a run that settles, and every run that settles ends with live = 0 if and only if no session is stranded. |
| `Drains.SweepDecidesTheDrain` | src/run_command.cc:402-408 | When the sweep ends, the drain completes in every continuation if and only if no callback thread stands between its stop test and its push with an unfinished session that has no Close on its way. |
| `Drains.StandsStill` | src/run_command.cc:282-292 | From a state with a stranded session there is a run to a standstill in which that session is still open. |
| `HungDrains.DrainCanHang` | src/run_command.cc:282-292 | Any reachable state in which a callback thread is about to test the stop flag and nothing is ready leads to a reachable standstill: drained, nothing bound to happen, live > 0, and an open session that not even the deadline table knows. |
| `HungDrains.ParkedIsReachable` | src/file_session.cc:602-607 | For every configuration whose run lasts and admits sessions, and every draw the generator can make whose session has more to read than one operation takes, such a state is reachable. |
| `HangConditions.DrainHangsIff` | src/run_command.cc:282-292 | For every configuration the program accepts, some run hangs in its drain if and only if the duration and the in-flight limit are positive and the byte cap is 0 or above the least operation of the pattern (a vector one for Vector, and for Mixed with a vector fraction of 1); otherwise every reachable drain completes in every continuation. |
| `RunEngines.TurnIsRun` | src/run_command.cc:338-400 | One turn of the loop, with nobody interfering, ends in the engine state a run of atomic engine steps reaches, with every session left as it was. |
| `EngineWork.ContinuesIfItCan` | src/run_command.cc:355-377 | In every reachable state, a turn nobody interferes with continues the longest waiting session exactly if the bucket covers its next read, and puts it back in its place otherwise. |
| `EngineWork.AdmitsIfItCan` | src/run_command.cc:379-396 | With nobody waiting and no slot on its way back, such a turn starts a session exactly if live is below the limit and the bucket covers its first read. |
| `RunEngines.RunEngine.TakeTurn` | src/run_command.cc:338-396 | The loop body over bucket, semaphore, scheduler, ready queue and live counter ends the turn as the specification says, with exactly that state. |
| `RunEngines.RunEngine.ContinueOne` | src/run_command.cc:355-377 | The continuation half: skip, close, refuse (back to the front, bucket as after the refusal, wait as before it) or pay. |
| `RunEngines.RunEngine.AdmitOne` | src/run_command.cc:379-396 | The admission half: slot and tokens are both taken or neither is kept. |
| `RunEngines.RunEngine.Sweep` | src/run_command.cc:404-408 | CloseNow reaches every parked session, with the answer XrdCl gives it, and leaves it in the specified state with the specified requests; the queue is empty afterwards and nothing else changes. |
| `RunEngines.RunEngine.Park` | src/run_command.cc:287-290 | From the engine state of any machine state that allows the push, the new engine state is the one the Push step of the machine reaches. |
| `RunEngines.RunEngine.OnRefund` | src/run_command.cc:293-296 | A refund reaches the bucket and nothing else. |
| `RunEngines.RunEngine.LowerLive` | src/run_command.cc:332-333 | From the engine state of any machine state with a session tail at this point, the new engine state is the one the LiveDown step reaches. |
| `RunEngines.RunEngine.FreeSlot` | src/run_command.cc:334-335 | From the engine state of any machine state with a slot being returned, the new engine state is the one the ReleaseSlot step reaches. |
| `SessionLosses.TokensLostIff` | src/file_session.cc:626-636 | The tokens paid that are neither refunded nor counted, in flight, held or refundable grow exactly in four branches, each named by its guard, and by exactly that much: late continuation, late read reply, timed-out Close, timed-out Open whose Close is refused. |
| `SessionLosses.SettledAccount` | src/file_session.cc:328-337 | When a session is over and nothing is in flight, what it lost is what it was charged beyond refunds and report; this is never negative, and positive only after a timeout. |
| `RunLosses.LossesInARun` | src/file_session.cc:485-490 | In every reachable state, whatever may happen to a session next loses tokens exactly in those branches and exactly that many. |
| `RunLosses.SettledInARun` | src/file_session.cc:328-337 | In every reachable state a session that is over has net charge = reported bytes + lost tokens, so net charge equals the report if and only if nothing was lost. |
| `SessionLosses.PrepaidCanBeLost` | src/file_session.cc:190-203 | Concrete run, for every session with an operation deadline: the timeout during Open has its Close refused, Open then succeeds and Close is asked for again, and the whole prepayment is lost while no byte is reported. |
| `SessionLedger.NetChargeIsReported` | src/file_session.cc:593-611 | A session that never timed out ends with net charge = reported bytes = delivered bytes. |
| `SessionLedger.TokensCoverDelivery` | src/file_session.cc:483-611 | At every moment the tokens kept cover every delivered byte, the read in flight and everything still refundable. |
| `SessionLedger.AdvanceShape` | src/file_session.cc:166-645 | Every handler keeps the callback bookkeeping, the phases and the ways to end, and its effects are coherent with them. |
| `SessionLedger.AdvanceLedger` | src/file_session.cc:328-354 | Every handler keeps the token account of its session. |
| `SessionLedger.AdvanceTiles` | src/file_session.cc:445-611 | Every handler keeps the issued reads tiling the planned range and the operation count bounded. |
| `SessionLedger.OkReadsThePlan` | src/file_session.cc:445-480 | Never more bytes or reads than planned; an ok session with no short read and no CloseNow reports exactly the plan, and what its reads asked for adds up to it. |
| `SessionLedger.ParkedPriceStays` | src/file_session.cc:215-225 | While a session is parked nothing but its custodian changes the price of its next read. |
| `SessionProgress.HandlerKinds` | src/file_session.cc:378-611 | Which operation each handler may submit, the continuation by the engine included, and when it may park or end the session. |
| `SessionEnds.HandlerProceeds` | src/file_session.cc:378-645 | For whatever happens to a session that is not over: which operation follows; that it ends exactly with its Close, a failed operation or a refused submission; that only an answered Close without a timeout is reported ok, and when the report names the timeout; that a timed-out session submits nothing but Close; that every submission arms the deadline, a refused one included, and parking disarms it. |
| `SessionEnds.PlanIsTheMost` | src/file_session.cc:441-477 | The plan is the file from the start offset on, or the byte cap if that is shorter. |
| `OkRuns.SessionsProceed` | src/file_session.cc:378-645 | The same in every reachable state, and the run counts exactly the report that is given. |
| `OkRuns.SomeSessionEndsOk` | src/file_session.cc:637-644 | For every configuration that admits sessions, every draw and every file whose plan one operation can read, a run ends with the session reported ok, its whole plan read in one operation, and counted so. |
| `SessionProgress.ReplyProgress` | src/file_session.cc:378-645 | A delivered callback strictly lowers the weight of its session, everything it sets off included, and its phase while it is open. |
| `SessionProgress.AskProgress` | src/file_session.cc:196-236 | A deadline or CloseNow never raises the weight or the phase of a session. |
| `ReadLists.VectorTotal` | src/file_session.cc:502-526 | The pieces of a vector read add up to the smaller of chunk size times remaining slots and the bytes left. |
| `ReadLists.ReadTotal` | src/file_session.cc:498-533 | Every read asks for exactly min(operation size, remaining). |
| `ReadLists.ChargeMatchesRead` | src/file_session.cc:215-220 | What the engine pays equals what the next read asks for exactly when the 32-bit product loses nothing the read needs. |
| `ReadLists.ChargeAlwaysMatchesIffFits` | src/file_session.cc:241-243 | The charge is right for every remaining size if and only if chunk size times chunk count fits in 32 bits. |
| `ReadLists.WrapUndercharges` | src/file_session.cc:241-243 | Concrete workload whose charge is far below its read. |
| `ReadLists.SampleInFile` | include/xrdhover/random_io.hh:11-16 | A random piece lies inside the file. |
| `ReadLists.EveryReadIsDrawn` | include/xrdhover/random_io.hh:11-16 | Each piece of a random read can be drawn on its own, and lie anywhere in the file. |
| `ReadLists.ReadLayout` | src/file_session.cc:498-533 | All pieces lie in the file, have 1 to chunk-size bytes, pack the buffer from its start, and abut when sequential. |
| `ReadLists.SlicesDisjoint` | src/file_session.cc:502-526 | The buffer slices of one read do not overlap. |
| `ReadLists.SlicesInBuffer` | src/file_session.cc:165-170 | All slices lie inside the allocated buffer if and only if the 32-bit size covers the read. |
| `FileSessions.FileSession.RefundBytes` | src/file_session.cc:328-331 | Refunds reach the pacing hook only for paced sessions and positive amounts. |
| `FileSessions.FileSession.RefundPrepaid` | src/file_session.cc:333-337 | The prepayment is refunded and cleared exactly when no read was issued. |
| `FileSessions.FileSession.Complete` | src/file_session.cc:266-275 | Completion and its report happen once. |
| `FileSessions.FileSession.ReleaseSelf` | src/file_session.cc:280-287 | The self-reference is dropped exactly when the session is complete and nothing is pending. |
| `FileSessions.FileSession.RequestClose` | src/file_session.cc:292-316 | Close is asked for once; a refusal rolls back while something is pending and ends the session otherwise. |
| `FileSessions.FileSession.FailStage` | src/file_session.cc:339-354 | A failed Open, Stat or Close ends the session, refunding the prepayment if no read was issued. |
| `FileSessions.FileSession.FailReadStage` | src/file_session.cc:339-354 | A failed read ends the session, refunding what it asked for. |
| `FileSessions.FileSession.RandomPieces` | src/file_session.cc:502-513 | The loop builds exactly the specified piece list and its total. |
| `FileSessions.FileSession.SequentialPieces` | src/file_session.cc:514-526 | The loop builds exactly the specified piece list and its total. |
| `FileSessions.FileSession.ChooseRead` | src/file_session.cc:498-533 | Size, list and offset of the next read. |
| `FileSessions.FileSession.SettlePrepaid` | src/file_session.cc:534-538 | The first read uses the prepayment and refunds the excess. |
| `FileSessions.FileSession.SubmitRead` | src/file_session.cc:493-550 | An accepted read is pending with its list; a refused one ends the session and refunds it. |
| `FileSessions.FileSession.IssueRead` | src/file_session.cc:483-551 | State, requests and read list after issuing the next read or asking for Close. |
| `FileSessions.FileSession.MakePlan` | src/file_session.cc:441-477 | Budget and start offset of the session. |
| `FileSessions.FileSession.Begin` | src/file_session.cc:166-184 | State and requests after Start; the object stays valid for the next callback. |
| `FileSessions.FileSession.OpenReply` | src/file_session.cc:378-419 | State and requests after the reply to Open; the object stays valid for the next callback. |
| `FileSessions.FileSession.StatReply` | src/file_session.cc:421-481 | State, requests and first read after the reply to Stat; the object stays valid for the next callback. |
| `FileSessions.FileSession.ReadReply` | src/file_session.cc:553-611 | State, requests and next read after a read reply, parking included; the object stays valid for the next callback. |
| `FileSessions.FileSession.CloseReply` | src/file_session.cc:613-645 | State and requests after the reply to Close; an open session is reported, ok exactly if Close succeeded and it had not timed out; the object stays valid for the next callback. |
| `FileSessions.FileSession.RequestTimeout` | src/file_session.cc:196-203 | State and requests after the wall timeout; the object stays valid for the next callback. |
| `FileSessions.FileSession.CloseSoon` | src/file_session.cc:227-236 | State and requests after CloseNow; the object stays valid for the next callback. |
| `FileSessions.FileSession.IssueFromEngine` | src/file_session.cc:205-213 | State, requests and read after the engine paid for the next read; the object stays valid for the next callback. |
| `TokenBuckets.WindowBound` | src/token_bucket.cc:14-80 | Over any window of any call sequence, tokens taken minus tokens refunded are at most capacity plus rate times the window. |
| `TokenBuckets.WindowExact` | src/token_bucket.cc:14-80 | Over any window in which no refill and no refund is cut off at the capacity, tokens taken minus refunded equal the level at its start plus rate times the window minus the level at its end: the bucket loses nothing. |
| `TokenBuckets.PerformValid` | src/token_bucket.cc:14-80 | Every call keeps the level between 0 and the capacity. |
| `TokenBuckets.RefillTwice` | src/token_bucket.cc:14-20 | Refilling early changes nothing. |
| `TokenBuckets.PollingIsHarmless` | src/token_bucket.cc:14-20 | Any number of refills equals one refill at the last instant. |
| `TokenBuckets.WaitIsExact` | src/token_bucket.cc:66-73 | With no other caller a retry d seconds later succeeds if and only if d is at least the reported wait, which is between 0 and capacity / rate. |
| `TokenBuckets.EverGranted` | src/token_bucket.cc:66-73 | A charge can be granted at some time exactly if it is within the capacity; for any other the wait is the constant that says never. |
| `TokenBuckets.UncappedGrantsAll` | src/token_bucket.cc:22-30 | Without a rate every charge is granted at once, and nothing changes the bucket. |
| `TokenBuckets.PutBackTwice` | src/token_bucket.cc:75-80 | Two refunds at one instant are one refund of the sum. |
| `TokenBuckets.GrantedIff` | src/token_bucket.cc:22-30 | Tokens are granted exactly when the refilled level covers them. |
| `TokenBuckets.TakeThenPutBack` | src/token_bucket.cc:22-30 | Handing back what was just taken undoes the call. |
| `TokenBuckets.TakeTwice` | src/token_bucket.cc:22-30 | Two takes at one instant succeed exactly when the level covers the sum, and are then one take of the sum. |
| `TokenBuckets.RefundRaises` | src/token_bucket.cc:75-80 | A refund that fits raises the level by exactly its amount, any other fills the bucket. |
| `TokenBuckets.StartsFull` | src/token_bucket.cc:8-12 | A new bucket grants at once exactly the charges up to its capacity, which is one second of the rate if none is given. |
| `TokenBuckets.TokenBucket.RefillUnlocked` | src/token_bucket.cc:14-20 | Updates level and time as specified. |
| `TokenBuckets.TokenBucket.TryAcquire` | src/token_bucket.cc:22-30 | Takes the tokens if and only if the refilled level covers them, and exactly so many: handing them back would restore the refilled bucket. |
| `TokenBuckets.TokenBucket.SecondsUntil` | src/token_bucket.cc:66-73 | Returns the specified wait and leaves the refilled bucket. |
| `TokenBuckets.TokenBucket.Refund` | src/token_bucket.cc:75-80 | Puts tokens back up to the capacity. |
| `Inflight.InFlightSemaphore.TryAcquire` | src/inflight.cc:14-19 | Takes a slot exactly when one is free. |
| `Inflight.InFlightSemaphore.Release` | src/inflight.cc:21-27 | Returns a slot, never going below zero. |
| `Schedulers.ItemCharge` | src/scheduler.cc:9-46 | For every draw, the charge of a new item is the session's own operation size, positive, and fits the bucket. |
| `Schedulers.FirstPrice` | src/file_session.cc:215-220 | Until it has a plan a session is priced at what was paid to admit it. |
| `Schedulers.Scheduler.Next` | src/scheduler.cc:9-46 | Fills the work item as specified for every pattern: random offsets never for sequential and vector and always for random, several pieces always for vector and never for sequential and random. |
| `Schedulers.ItemFollowsPattern` | src/scheduler.cc:9-46 | What each pattern means for the offsets and pieces of a session, and which options all sessions of a run share. |
| `Schedulers.MixedDraws` | src/scheduler.cc:32-37 | A mixed run draws both kinds of offset whatever the other draw, vector sessions exactly if the fraction is positive, plain ones exactly if it is below one. |
| `Workloads.SessionsFollowPattern` | src/scheduler.cc:9-46 | In every reachable state every session is one the generator can draw; in sequential and vector runs its reads cover the file from byte 0 without a gap, in random runs they are sampled; chunk size, byte cap and deadline are those of the run. |
| `RunConfigs.CapacityHoldsEveryCharge` | src/run_config.cc:46-59 | The bucket holds any operation the pattern allows; that it holds no more is `Schedulers.CapacityIsLargest`. |
| `RunConfigs.UncappedHasNoBucket` | src/run_config.cc:54-55 | The computed capacity is 0 exactly for a run without a rate. |
| `Schedulers.CapacityIsLargest` | src/run_config.cc:54-59 | The capacity is exactly the largest charge some draw makes, unless the pattern is mixed and the fraction draws no vector operation; it then is one vector operation, while every charge is one chunk. |
| `RunConfigs.AlignedIsAutoCap` | src/run_config.cc:40-43 | The source's alignment steps equal max(chunk, min(round up the clamped share, round down the ceiling)). |
| `RunConfigs.AutoCapShape` | src/run_config.cc:23-44 | The cap is a positive multiple of the chunk and at most max(chunk, ceiling). |
| `RunConfigs.AutoCapIs` | src/run_config.cc:23-44 | The cap is the share of a slot, or four chunks if that is more, rounded up by less than a chunk; where that passes the ceiling it is the most whole chunks under the ceiling; and one chunk at least. |
| `RunConfigs.ShareIs` | src/run_config.cc:30-32 | A slot gets the whole bytes of eight seconds of its part of the rate. |
| `RunConfigs.CeilingIs` | src/run_config.cc:35-37 | The ceiling is two seconds of the whole rate and at most 32 MB. |
| `RunConfigs.AutoCapMonotone` | src/run_config.cc:23-44 | The cap grows with the rate and shrinks with the number of slots. |
| `RunConfigs.RoundingIsBest` | src/run_config.cc:41-42 | Rounding gives the greatest multiple below and the least multiple above. |
| `RunConfigs.ComputeAutoMaxBytes` | src/run_config.cc:23-44 | The computation fails exactly without a rate and otherwise returns the specified cap. |
| `RunConfigs.ResolveRunConfig` | src/run_config.cc:61-73 | Rejects exactly the uncapped-rate configurations without a byte cap, and resolves the rest. |
| `RunConfigs.ResolvedIs` | src/run_config.cc:61-73 | Exactly the configurations without a rate that leave the byte cap open are turned down; a cap set by hand is kept, an automatic one is the computed cap, and nothing else changes. |
| `RunConfigs.ResolvedIsStable` | src/run_config.cc:61-73 | A resolved configuration is bounded by rate or by bytes, and resolving again changes nothing. |
| `Watchdogs.SessionDeadlineWatchdog.Arm` | src/file_session.cc:72-93 | Moves the deadline of the session in place, or appends an entry. |
| `Watchdogs.SessionDeadlineWatchdog.Disarm` | src/file_session.cc:95-105 | The in-place compaction leaves exactly the specified list. |
| `Watchdogs.SessionDeadlineWatchdog.Scan` | src/file_session.cc:693-713 | The in-place compaction leaves the unexpired entries in order, returns the expired sessions and the next deadline. |
| `Watchdogs.ArmedMovesOne` | src/file_session.cc:82-90 | At most one entry per session stays true; the others keep place and deadline; the armed one has the new deadline. |
| `Watchdogs.DisarmedRemovesOne` | src/file_session.cc:98-104 | The session and dead entries go, every other entry stays. |
| `Watchdogs.ScanKeeps` | src/file_session.cc:700-713 | A scan keeps exactly the live, unfinished, unexpired entries. |
| `Watchdogs.ScanFires` | src/file_session.cc:700-713 | It fires for exactly the live, unfinished sessions whose deadline has passed, once each. |
| `Watchdogs.ScanLosesNothing` | src/file_session.cc:700-713 | Every watched entry is either kept or fired, never both. |
| `Watchdogs.NextDeadline` | src/file_session.cc:694-711 | The next wake-up lies in the future, behind no kept entry, and is a kept deadline or the limit. |
| `TokenWaits.TokenWaitNeverFires` | src/file_session.cc:602-607 | In any run interleaved with any scans, at the moment of the scan an expired entry of an unfinished session means that one of its callbacks is pending, never that a session that had not timed out is parked: token wait does not count. |
| `TokenWaits.TableStaysCovered` | src/file_session.cc:318-326 | Along any run the table has at most one entry per session, and only for sessions armed since they last parked. |
| `TokenWaits.StepMarks` | src/file_session.cc:318-326 | Each step arms or disarms at most the one session whose handler it runs or which it starts, as that handler asks. |
| `Effects.StepDoes` | src/run_command.cc:282-400 | Every atomic step runs one handler of one session, starts one session, or leaves all sessions alone apart from a charge, and moves the counters by exactly the report of that handler. |
| `Deadlines.HandlerArms` | src/file_session.cc:318-322 | Every accepted submission arms the deadline of a session that has one, and nothing arms it for a session that has none. |
| `Deadlines.FiresOnlyAfterTimeout` | src/file_session.cc:693-713 | In any run interleaved with any scans, a scan fires for an unfinished session only if its last accepted operation was submitted at least the session timeout ago. |
| `Deadlines.FiresParkedOnlyAfterReply` | src/file_session.cc:715-718 | The request to time out, made after the lock is released, finds a session parked that had not timed out only if a reply to that session was delivered after the scan. |
| `Deadlines.TimeoutCanMeetParked` | src/file_session.cc:715-718 | For every configuration with a session timeout in which sessions park, a run exists in which exactly that happens. |
| `Histograms.Histogram.Observe` | src/metrics.cc:50-57 | Counts the cleaned value (negative and non-finite become 0) in exactly its bucket, keeping buckets, count and sum equal to the observations. |
| `Histograms.Histogram.TakeSnapshot` | src/metrics.cc:59-69 | The snapshot counts exactly the observations so far. |
| `Histograms.BucketIndex` | src/metrics.cc:20-25 | The first bucket whose bound is not below the value. |
| `Histograms.SampleCounts` | src/metrics.cc:50-57 | A finite sample counts towards every bound it does not exceed, a negative or non-finite one towards all. |
| `Histograms.MicrosIs` | src/metrics.cc:50-57 | The sum in whole microseconds is the sum of the observations up to one microsecond for each. |
| `Histograms.CumulativeCountsObservations` | src/prom_encode.cc:93-104 | Every cumulative count is the number of observations at or below its bound; the last is the count. |
| `Histograms.ExportLines` | src/prom_encode.cc:93-108 | The running-sum loop emits one line per bucket with its cumulative count, and +Inf 0 when there are none. |
| `Histograms.ExportIsFaithful` | src/prom_encode.cc:93-104 | Exported lines count observations at or below le, never decrease, and end with +Inf and the total. |
| `Percentiles.HistogramPercentile` | src/metrics.cc:29-48 | The loop returns the specified interpolation for every input. |
| `Percentiles.PercentileFindsTheRank` | src/metrics.cc:29-48 | For p > 0 the answer lies in the bucket that holds any observation of rank ceil(p * count). |
| `Percentiles.PercentileIsAnObservation` | src/metrics.cc:29-48 | There is such an observation for every p > 0, so the answer always lies in the bucket of an observation of that rank. |
| `Percentiles.EveryRankIsTaken` | src/metrics.cc:29-48 | Every rank from the first to the last is held by some observation, ties included. |
| `Percentiles.PercentileMonotone` | src/metrics.cc:29-48 | The answer is monotone in p, for any p after clamping. |
| `Percentiles.AnswerInBucket` | src/metrics.cc:34-46 | For p > 0 the answer is inside the first, non-empty bucket whose cumulative count reaches the target. |
| `Percentiles.AnswerInterpolates` | src/metrics.cc:40-46 | Inside its bucket the answer lies in proportion to where p * count falls among the observations of the bucket, its upper end included. |
| `Percentiles.AtOne` | src/metrics.cc:34-46 | At p = 1 the answer is the upper end of the bucket of the largest observation, and twice the last bound if that exceeds it. |
| `Percentiles.AtZero` | src/metrics.cc:34-46 | At p = 0 the answer is 0, or the first bound when the first bucket is empty. |
| `Metrics.HistoryConserves` | src/metrics.cc:133-204 | After any history of sessions and re-mappings every figure summed over the servers equals the global counter, and the failures are the sum of all error classes. |
| `Metrics.ObservationConserves` | src/metrics.cc:133-180 | Each observation keeps those sums. |
| `Metrics.CreditAdds` | src/metrics.cc:133-156 | An observation adds exactly its worth to the sum over servers, whichever server it names; re-mapping adds nothing. |
| `Attributions.CreditNames` | src/metrics.cc:133-156 | An observation adds its worth to the server it names and to no other; the site is the one a server has, else the one given, else the one looked up; a re-mapping moves only a server already listed. |
| `Attributions.HistoryAttributes` | src/metrics.cc:133-204 | After any history each server has exactly the credit of the sessions that name it, stands where they and the re-mappings put it, and is listed exactly if one names it. |
| `Attributions.HistoryCounts` | src/metrics.cc:158-182 | After any history bytes, operations and sessions of the global counters are what the sessions report, and failures are counted class by class. |
| `Attributions.PlaceStays` | src/metrics.cc:139-145 | A settled site stays until the server is re-mapped. |
| `Metrics.NamesDiffer` | src/error_classifier.cc:16-43 | No two error classes share a name. |
| `MetricsRegistries.RollUp` | src/metrics.cc:264-275 | The loop yields one entry per site with the sums over the servers of that site, unmapped servers included. |
| `MetricsRegistries.SitesConserve` | src/metrics.cc:264-275 | The sites add up to the global counters. |
| `MetricsRegistries.SitesHoldTheirServers` | src/metrics.cc:264-275 | A site holds exactly what the servers standing at it have to their credit, servers without a site standing at unmapped, and is listed exactly if some server stands at it. |
| `MetricsRegistries.RemappingOnlyMoves` | src/metrics.cc:197-204 | Re-mapping a server changes no sum over the sites. |
| `MetricsRegistries.MetricsRegistry.Attribute` | src/metrics.cc:133-156 | Credits the session to the server it names and to no other, the empty name counting as unknown, and fills the site of that server on first use. |
| `MetricsRegistries.MetricsRegistry.ObserveSessionOk` | src/metrics.cc:158-171 | New state as specified, conservation kept. |
| `MetricsRegistries.MetricsRegistry.ObserveSessionFail` | src/metrics.cc:175-182 | New state as specified, conservation kept. |
| `MetricsRegistries.MetricsRegistry.SetCmsSite` | src/metrics.cc:197-204 | Re-maps an existing server only. |
| `MetricsRegistries.MetricsRegistry.Snapshot` | src/metrics.cc:260-276 | Servers and sites of the snapshot, the latter adding up to the counters. |
| `SiteMaps.SiteMap.Lookup` | src/site_map.cc:56-77 | Equals the naive search through all rules: exact host:port, exact host, longest matching suffix, last rule wins. |
| `SiteRules.SearchIs` | src/site_map.cc:56-77 | The naive search answers a site exactly when the rules give it: the last rule for the name with port, else for the host name, else for the longest tail any rule fits. |
| `SiteRules.CaseDoesNotMatter` | src/site_map.cc:14-19 | Servers that differ in ASCII case only have the same site. |
| `SiteRules.PortDoesNotMatter` | src/site_map.cc:23-33 | A port matters only to rules that name it. |
| `SiteRules.AddressIsKept` | src/site_map.cc:23-33 | A bracketed address ends at its bracket, and a name with several colons and no bracket is left alone. |
| `SiteRules.EmptyRulesAreIgnored` | src/site_map.cc:34-36 | A rule without a pattern or without a site changes no answer. |
| `SiteMaps.SiteMap.Add` | src/site_map.cc:34-54 | The index stays an index of all rules added so far. |
| `SiteMaps.SortByLength` | src/site_map.cc:49-50 | A permutation of descending length; nothing else about the sort is used. |
| `SiteMaps.FirstMatchIsLongest` | src/site_map.cc:68-74 | In such a list the first match is the longest: equal-length suffixes cannot both match. |
| `SiteMaps.OrderOfDistinctKeysIsFree` | src/site_map.cc:34-54 | When no two different rules share a normalized key, any two orders of the same rules answer every lookup alike. |
| `SiteMaps.OrderAcrossKeysIsFree` | src/site_map.cc:34-54 | In general two lists of rules answer every lookup alike as soon as they hold the same rules in the same order for every normalized key. |
| `SiteMaps.NormalizeKey` | src/site_map.cc:14-19 | Lower-cases ASCII letters in place. |
| `SiteMaps.HostnameStable` | src/site_map.cc:23-33 | Stripping the port twice is stripping it once. |
| `SiteMaps.PortIsStripped` | src/site_map.cc:23-33 | host:port becomes host, for any host and port without further colons. |

## Left out

- TurnIsRun: one turn without interference; interference between the atomic steps is covered by the state machine instead.
- DrainCompletes: that a step which can be taken is taken, so that XrdCl delivers what it owes and threads run, is assumed. The cap on the drain wait is not modelled: a hung drain ends when it strikes, with live > 0.
- TokenWaitNeverFires: is about the moment of the scan; what may happen until the request of src/file_session.cc:715-718 is stated by `FiresParkedOnlyAfterReply` and `TimeoutCanMeetParked`.
- Scan: which sessions are alive and finished is fixed for the duration of one scan, while the code asks each session in turn.
- Observe: one observation at a time; the moment in which count and buckets of a concurrent snapshot disagree is not modelled.
- SortByLength: inserts, where the program calls an unstable library sort; only its contract is used.
- `refunded` of one handler is the sum of its refund calls (`PutBackTwice` shows the bucket cannot tell the difference).
- The state machine does not refill the bucket when the engine asks for a wait after a refusal; `PollingIsHarmless` shows that this changes nothing later. `RunEngine.dfy` makes that call.
- The sweep closes one session at a time in the state machine; nobody can push meanwhile, because the engine holds the lock. Setting the stop flag and taking that lock are one step: a push between the two (src/run_command.cc:402-405) commutes with setting the flag, so the run is one in which it came just before the last deadline test.
- Sweep: the parked sessions are distinct objects; the state machine proves that nobody parks twice at a time.
- In FileSessions a method is a critical section or a part of one; locks, memory ordering and the destruction of the object are not modelled beyond the self-reference.
- Condition variables, thread wake-ups and whether the engine thread ever runs again.
- Blocking AcquireUntil of the bucket and the semaphore, which the run does not call.
- Watchdog thread start, ShutDown and process exit.
- XrdCl internals, status strings, host lists, data-server names and buffers' contents.
- Latency timestamps, throughput figures, process samples, soft faults and their classification.
- Wrap-around of 64-bit counters, except where `remaining` is decreased, and floating-point rounding.
- Choice of file, seeds and the distribution of random draws: draws are parameters.
- Reading configuration, workload and site-map files; label escaping and number formatting of the export.
- Sinks, push gateway, chirp, logging, command line and report merging.
