# zonemail, verified

A Dafny model of the parts of zonemail (a mail and DNS daemon written in Rust) whose correctness depends on many
steps taken together, with proofs about every run of them.

* **The outbound delivery queue** (`src/send.rs`). `OutboundProtocol` is a transition system: a shared table of
  `Outbound` rows, their audit trail, and any number of worker loops. Each step is one database operation or
  one network call, so a crash or a database error can fall between any two writes; producers and message deletion
  interleave freely. `OutboundSafety`, `OutboundReceipts`, `OutboundHandoffs`, `OutboundRouting` and `OutboundTiming` hold what is
  true of every interleaving of any number of loops, `OutboundSingle` what one loop adds by its order of steps. `OutboundWitnesses` and
  `OutboundTwoLoops` give runs of one and of two loops that attain the bounds and show why the conditions are needed.
  `OutboundTurns` says what one turn of the loop makes of the table, given how the network and the database treat each
  call, and `OutboundWorker` is the worker as code: a class whose methods loop over rows and hosts and update them in
  place, and meet exactly that. It records the steps it takes, and its validity predicate says that these steps are a run
  of one loop, so the theorems about runs hold of the code.
* **The role policy compiler and the decision that uses it** (`src/auth/policy.rs`, `src/auth/mod.rs`). `RoleGraph` is
  inheritance over an arbitrary directed graph, `Policy` the tokens and the graph of a configuration, `PolicyCompiler`
  the round-by-round fixpoint with its cap, `Auth` the decision.
* **Smaller state machines**: the listener control plane (`Services`), the refreshable key cache (`Keys`), record
  creation under races (`Records`), mailbox listing and pagination (`Mailbox`), the inbound SMTP handler alone
  (`InboundMail`) and on any number of connections (`InboundConnections`), and the retry delay (`Backoff`). The classes
  of `Keys`, `Records` and `InboundMail` are one caller running alone; a lemma beside each says that this is a run of the
  transition system.

`dafny verify dfyconfig.toml` checks all of it.

## Where the code differs from its documentation

The model follows the code.

* `README.md:79-80` and `src/send.rs:352-357` say two workers on one database never send a message twice. The claim is
  atomic, but the sweep at `src/send.rs:286-312` resets every `InProgress` row without an owner or age test, and
  `TwoLoopsSendTwice` is a run, free of errors, that sends twice. One loop never makes such a hazardous reset
  (`OneLoopHasNoHazard`), but it too can send twice: a crash or a failed write after a host accepted the message and
  before the row says `Delivered` loses the acceptance, and the next sweep puts the job back (`OneLoopSendsTwice`). These
  are the only two ways. Short of a hazardous reset a message has been accepted exactly once for each lost acceptance,
  plus once if the acceptance shows (`HandoffsAreAccounted`); so without a lost acceptance it is sent at most once
  (`MessagesAreSentOnce`), and step by step the condition is exact (`LossIsExact`, and `HazardIsExact` for the reset).
  The hazardous reset can also lose a count and record two receipts (`TwoLoopsLoseACount`).
* `src/send.rs:327-336` reads the backoff before the claim and not in it. With several loops a job can be claimed before
  its stored time (`TwoLoopsClaimEarly`); `EarlyClaimExactly` says when, and one loop never does it
  (`OneLoopIsNeverEarly`).
* `src/send.rs:90` promises `Failed` after `max_attempts` attempts. The test at `src/send.rs:615` is strict, so, short of a
  hazardous reset, a failed job has exactly `max_attempts + 1` counted cycles (`AttemptsAreCounted`), and under every
  configuration some run gets there (`FailsAfterOneMore`). A cycle that ends in a failed message load, envelope or MX
  lookup is not counted at all, so the number of cycles has no bound (`UncountedCyclesAreUnbounded`); exactly the sweep's
  resets make the difference (`OneLoopAccountsForClaims`).
* `src/send.rs:655` gives the delay as a plain power of two. Beyond 63 attempts the shift cap can show;
  `DelayIsIdealExactly` says when.
* `src/auth/policy.rs:164-165` speaks of a visited set. There is none; the loop is a fixpoint with a cap of 10,000
  rounds, enough for 10,001 roles and not for one more (`CapCompleteUpTo10001`, `CapIsTight`).
* `src/auth/keys.rs:98-100` speaks of avoiding a thundering herd. Calls that decide before any of them has stored a set
  all fetch (`HerdIsUnbounded`); `RefetchIsExact` is the condition on each.
* `src/email.rs:135-138` promises to reuse a stored message instead of inserting a duplicate. Lookup and insert are two
  database calls, so two connections can store two copies (`TwoConnectionsStoreTwice`), and after a failed lookup the
  handler inserts anyway, so one connection can (`FailedLookupStoresTwice`). `DuplicateIsExact` says that these two are
  the only ways.
* The mailbox listing takes its page limit unclamped (`src/api.rs:1645-1647`), and at limit 0 `next_offset` does not
  advance (`ProgressNeedsALimit`).

## Model

| member | source | states |
|---|---|---|
| Backoff.Multiplier | src/send.rs:658-659 | The capped shift never overflows a `u64`: the multiplier is 2^min(attempts-1, 62). |
| Backoff.Delay | src/send.rs:656-663 | The delay never exceeds the configured maximum. |
| Backoff.DelayUnsaturated | src/send.rs:660-661 | Saturation of the multiply is never visible after the clamp: the delay is the unbounded product, clamped. |
| Backoff.DelayIsIdealExactly | src/send.rs:655-663 | The delay equals min(base * 2^(attempts-1), max) over unbounded integers if and only if attempts <= 63, or base is 0, or base * 2^62 already reaches the maximum. |
| Backoff.DelayIsIdealBelowCap | src/send.rs:655-663 | For every maximum up to 2^62 seconds it equals that formula for every attempt count. |
| Backoff.DelayMonotone | src/send.rs:655-663 | More attempts never mean a shorter delay. |
| Backoff.DelayShortOfIdeal | src/send.rs:655-663 | A concrete input beyond the cap where the delay is shorter than the documented formula. |
| OutboundSafety.RowStep | src/send.rs:286-653 | Of all steps of all workers only a claim, a sweep's reset or a counted outcome rewrites an existing row, each in exactly one way. |
| OutboundSafety.ColumnsStep | src/send.rs:286-653 | The same column by column: a claim writes the status; a reset keeps the counter and clears backoff and error; a delivery clears both; a failure stores its reason and queues the job for the drain's start plus the delay up to the cap, and fails it past the cap; an outcome counts one attempt; nothing writes message, recipient or sender. |
| OutboundSafety.BirthStep | src/send.rs:199-260 | A producer's row has the message, recipient and sender as given, is `Queued`, and has no attempt, backoff or error. |
| OutboundSafety.KeysStep | src/send.rs:139-653 | No worker step adds or drops a row, only an enqueue adds one, only a deletion drops one and takes its audit rows with it, and a worker changes the audit trail only at its end. |
| OutboundSafety.CarryStep | src/send.rs:358-431 | A worker comes to carry a job only by claiming it, and the copy it carries is the row it wrote. |
| OutboundSafety.JobsAreConserved | src/send.rs:139-653 | Across any stretch of any run, crashes, errors and deletions included: of the jobs still there none has changed message, recipient or sender, none was ever away, and each has all its audit rows with new ones only at the end. |
| OutboundSafety.WorkersKeepEveryJob | src/send.rs:286-431 | A stretch of worker steps, however many workers and however it fails, leaves exactly the same set of jobs. |
| OutboundSafety.ClaimsAreSeparated | src/send.rs:286-407 | In every interleaving, between two successful claims of one job lies a write that put its row back to `Queued`: a reset or a counted failure below the cap. |
| OutboundSafety.OwnedStep | src/send.rs:352-407 | Every step except a hazardous reset keeps ownership: at most one carrier per job, whose copy equals the `InProgress` row. |
| OutboundSafety.DeliveryIsExclusive | src/send.rs:352-407 | Any number of loops: as long as no reset has hit a settled row or a row in delivery, at most one worker is delivering a given job. |
| OutboundSafety.SettledIsFinal | src/send.rs:479-653 | Under the same condition a `Delivered` or `Failed` row never changes again. |
| OutboundSafety.HazardIsExact | src/send.rs:286-312 | A step keeps ownership and settled rows if and only if it is not a reset of a settled row or of a row in delivery. |
| OutboundSafety.AttemptsAreCounted | src/send.rs:544-653 | As long as no reset has hit a settled row or a row in delivery: `attempts` equals the number of counted cycles of the job over the whole run; a live job has at most `max_attempts`, a failed one exactly `max_attempts + 1`. |
| OutboundSafety.CyclesAreBounded | src/send.rs:605-653 | Under the same condition at most `max_attempts + 1` cycles of a job ever count, and after that many it is terminal. |
| OutboundSafety.ClaimsAreAccounted | src/send.rs:286-653 | Under the same condition, for any number of loops: the claims of a job are its counted cycles plus the resets that took it out of progress, plus one while it is in progress. |
| OutboundSafety.ClaimsAreBounded | src/send.rs:286-653 | So a job is claimed at most `max_attempts + 1` times more often than it is reclaimed, and is terminal when that many are over. |
| OutboundSafety.OneAttemptPerDrain | src/send.rs:317-347 | In every interleaving, a worker that claims one job twice has started a new drain in between. |
| OutboundReceipts.ReceiptMeansDelivered | src/send.rs:532-600 | In every run without a hazardous reset and without a crash or failed update right after the 250 was recorded, an existing job has a 250 row exactly when it is `Delivered` or about to be marked so, and then exactly one. |
| OutboundReceipts.DroppedReceiptIsExact | src/send.rs:534-555 | That second condition is exact: a step keeps the agreement if and only if it does not end the cycle between the receipt and the status update. |
| OutboundHandoffs.HandoffsAreAccounted | src/send.rs:532-600 | For any number of loops without a hazardous reset: how often hosts have accepted the message of a job is how often an acceptance was lost, plus one if it shows (the job is `Delivered` or its worker is about to write that down). |
| OutboundHandoffs.LossIsExact | src/send.rs:532-555 | Short of a hazardous reset a step keeps every message sent at most once, and exactly if it shows, if and only if it is not a crash, failed audit insert or failed update after an acceptance. |
| OutboundHandoffs.MessagesAreSentOnce | src/send.rs:286-600 | Any number of loops: with no hazardous reset and no lost acceptance no message is accepted twice, and one is accepted exactly if its acceptance shows. |
| OutboundHandoffs.OneLoopSendsOncePerLoss | src/send.rs:270-600 | One loop needs no first condition: it sends once more for each acceptance it lost. |
| OutboundHandoffs.OneLoopWithoutErrors | src/send.rs:270-600 | In every run of one loop without errors and whenever no cycle is open, a job has one 250 row and was accepted once if it is `Delivered`, and neither if it is not. |
| OutboundRouting.RelayTakesAll | src/send.rs:488-503 | In every run under a configuration with a relay, every host contacted or about to be and every host in the audit trail is that relay. |
| OutboundRouting.CycleIsInOrder | src/send.rs:488-577 | In every interleaving a worker past its lookup goes through the relay if there is one, else through exactly the hosts that lookup gave, in order; its audit rows since are one per host it is done with, in that order, each a refusal but a final 250, and a failure names the last host. |
| OutboundSingle.OneLoopHasNoHazard | src/send.rs:270-312 | In every run of one worker loop no reset meets a settled row or a row in delivery. |
| OutboundSingle.OneLoopSettlesForGood | src/send.rs:270-653 | In every run of one loop `Delivered` and `Failed` are absorbing. |
| OutboundSingle.OneLoopCountsAttempts | src/send.rs:270-653 | In every run of one loop `attempts` counts the counted cycles and the cap holds, with no further hypothesis. |
| OutboundSingle.CleanSweepRecoversAll | src/send.rs:286-312 | When a sweep without errors is over, every job that is not settled is `Queued`, whatever crashes and errors came before. |
| OutboundSingle.OneLoopIsNeverEarly | src/send.rs:326-336 | One loop never claims a job before the time stored in its row. |
| OutboundSingle.WaitsUntouched | src/send.rs:286-347 | In a run of one loop a queued row is left as it is until it is claimed or deleted. |
| OutboundSingle.RetriesAreSpaced | src/send.rs:605-653 | After a counted failure the next attempt belongs to a drain that starts no sooner than the failing drain's start plus the backoff (section 4.5.4.1 of RFC 5321). |
| OutboundSingle.OneLoopAccountsForClaims | src/send.rs:286-653 | In every run of one loop claims = counted cycles + resets + (1 while in progress); so at most `max_attempts + 1` claims beyond the resets, and a job whose cycles all count is terminal after that many. |
| OutboundTiming.NotDueExactly | src/send.rs:326-332 | In every interleaving a job due at one point is not due later if and only if a counted failure in between pushed it past that time and no later write replaced or cleared it. |
| OutboundTiming.EarlyClaimExactly | src/send.rs:321-397 | In every interleaving of any number of loops a claim comes before the stored time if and only if, since the claiming worker's fetch, a counted failure pushed the job past that drain's start and no later write replaced or cleared the time. |
| OutboundWitnesses.UncountedCyclesAreUnbounded | src/send.rs:420-429 | Under every configuration and for every n one loop can claim a job n times and leave it `Queued` with no attempt counted. |
| OutboundWitnesses.FailsAfterOneMore | src/send.rs:605-628 | Under every configuration there is an error-free run of one loop, drain times never falling, whose job ends `Failed` after `max_attempts + 1` claims, all counted: the bound is attained. |
| OutboundWitnesses.ReceiptCanBeDropped | src/send.rs:533-555 | Under every configuration one loop can, by a crash or a failed update, leave a 250 row on a job that is `Queued` again with no attempt counted. |
| OutboundWitnesses.OneLoopSendsTwice | src/send.rs:532-541 | Under every configuration one loop can, by a crash or a failed audit insert, hand a message to the same accepting host twice, with no hazardous reset and no audit row of the first handoff. |
| OutboundTwoLoops.HazardLeadsToSecondDelivery | src/send.rs:286-347 | From every hazardous reset the sweeping worker, running on alone and without errors, takes the job again while it is settled or still carried by another. |
| OutboundTwoLoops.TwoLoopsSendTwice | src/send.rs:286-407 | For every configuration, job and MX host there is an error-free run of two loops in which both have handed the message to the same relay or MX host. |
| OutboundTwoLoops.TwoLoopsLoseACount | src/send.rs:542-555 | For every configuration there is an error-free run of two loops in which two cycles of a job count and two receipts are recorded, and the row says one attempt. |
| OutboundTwoLoops.TwoLoopsClaimEarly | src/send.rs:326-397 | For every configuration that retries, after a positive wait, there is an error-free run of two loops, without any hazardous reset, that claims a job before its stored time. |
| OutboundWorker.Worker.EnqueueJob | src/send.rs:199-260 | Adds one row under a fresh key, `Queued` with no attempt, and nothing else. |
| OutboundWorker.Worker.SelectByStatus | src/send.rs:287-288 | Lists exactly the rows of a status, each once. |
| OutboundWorker.Worker.ReclaimInProgress | src/send.rs:286-312 | If the scan works, every `InProgress` row is put back, except exactly those whose write fails; else nothing changes; the steps are those of the protocol. |
| OutboundTurns.Swept | src/send.rs:286-312 | A row put back keeps its counter and loses its backoff and error; every other row is as it was. |
| OutboundWorker.Worker.ClaimJob | src/send.rs:358-407 | If the transaction works, the job is taken exactly when its row exists and is `Queued` at that moment, and declined otherwise; if it does not, nothing changes. |
| OutboundWorker.Worker.FailOrRequeueJob | src/send.rs:605-653 | Bumps the counter and requeues with the backoff, or fails the job past the cap; a failed write leaves the row as claimed. |
| OutboundWorker.Worker.AttemptHost | src/send.rs:513-565 | One audit row for an answer that is received and can be recorded; none, and the cycle ends, if the transport or the insert fails. |
| OutboundWorker.Worker.SettleDelivered | src/send.rs:544-555 | Marks the job `Delivered`, or leaves it as claimed if the update fails. |
| OutboundWorker.Worker.ChooseTargets | src/send.rs:492-508 | The targets are the configured relay alone if there is one, else the MX hosts as given; with no target the cycle goes on to the failure path. |
| OutboundWorker.Worker.TryHosts | src/send.rs:510-566 | Targets in order, on after a refusal, until one accepts, something fails or none is left; one audit row per answer. |
| OutboundWorker.Worker.DeliverHosts | src/send.rs:479-577 | The answers are those the world gives; the row becomes `Delivered` after an acceptance and is requeued or failed after every target refused, if the final write works; on an error it stays as claimed. |
| OutboundTurns.TriedIsOne | src/send.rs:510-577 | What the network and the database do leaves the code no choice: the answers and the outcome are determined. |
| OutboundTurns.TrailMeans | src/send.rs:532-565 | The audit rows of a cycle by columns: one per answer, for the targets in order, a 250 for an acceptance and none for a refusal. |
| OutboundTurns.RowMeans | src/send.rs:544-653 | The row after a cycle by columns: status, counter, backoff and error text of every case. |
| OutboundTurns.CycledMeans | src/send.rs:479-577 | A handoff goes to the relay alone if there is one, else to the hosts in order; a 250 only on the last; a failure only after every target refused; no other row changes. |
| OutboundTurns.WorkedMeans | src/send.rs:413-653 | Where everything works, a claimed job is `Delivered` if and only if some target accepts, else queued for the drain's start plus the delay or failed past the cap, and one attempt is counted. |
| OutboundWorker.Worker.DeliverOne | src/send.rs:413-431 | If the message, envelope or MX lookup fails, nothing changes; else the outcome is that of a handoff to the hosts looked up. |
| OutboundWorker.Worker.DrainOnce | src/send.rs:317-347 | Succeeds exactly when the fetch and the claim of every due job work, and then has worked on each of them once; touches no job that was not queued and due; does nothing if the fetch fails. |
| OutboundWorker.Worker.EnqueueAll | src/send.rs:199-260 | Each message enqueued between two turns gets its own fresh row, and the rows there were stay as they are. |
| OutboundTurns.ArrivalsMean | src/send.rs:199-260 | By columns: message, recipient and sender as given, `Queued`, no attempt, backoff or error. |
| OutboundWorker.Worker.Turn | src/send.rs:274-281 | A turn is exactly the sweep, then the drain of what it left. |
| OutboundTurns.WorkingTurn | src/send.rs:274-281 | A turn in which everything works leaves no job in progress, attempts every job that was in progress or queued and due, delivers exactly those some target accepts, and touches no other. |
| OutboundTurns.TurnKeepsSettled | src/send.rs:274-281 | Whatever fails, a turn leaves settled jobs untouched. |
| OutboundWorker.Worker.RemoveJob | src/api.rs:1787-1797 | A deletion takes the job and exactly its audit rows. |
| OutboundWorker.Worker.RunOutboundWorker | src/send.rs:270-282 | The tables on the way follow from each other by the arrivals and deletions of each tick and then its turn; whatever failed, only deleted jobs are missing, the enqueued ones have joined, settled rows are unchanged, and the retry cap holds of every row. |
| RoleGraph.OneMoreEdge | src/auth/policy.rs:195-202 | What a role inherits over k+1 edges is what it or a declared role it extends inherits over k. |
| RoleGraph.StableForever | src/auth/policy.rs:191-209 | Once a round gains nothing no later round does, cycles or not. |
| RoleGraph.CutLoops | src/auth/policy.rs:184-209 | Every inheritance path can be shortened to at most as many roles as are declared. |
| RoleGraph.ShortPathsSuffice | src/auth/policy.rs:184-209 | With at most k+1 declared roles, k rounds reach everything reachable. |
| RoleGraph.RoundsSufficeExactly | src/auth/policy.rs:184-209 | For any graph k rounds reach everything if and only if one more round gains nothing. |
| RoleGraph.WithinGrows | src/auth/policy.rs:184-209 | Adding roles, grants or edges loses nothing inherited. |
| RoleGraph.ChainReach | src/auth/policy.rs:191-209 | The first of n chained roles inherits from the last over exactly n-1 edges. |
| Policy.WildcardCovers | src/auth/policy.rs:86-89 | The three spellings of everything cover every resource and verb. |
| Policy.ColonTokenCovers | src/auth/policy.rs:91-121 | A token with a colon covers a resource and a verb if and only if its left side is a star or the resource in any case, and its right side is blank, a star or one of the verb's names in any case; any other right side covers nothing. |
| Policy.PlainTokenCovers | src/auth/policy.rs:91-121 | The same for a token written without blanks, such as `domains:read`. |
| Policy.MethodTable | src/auth/policy.rs:50-56 | GET, HEAD and OPTIONS read, DELETE deletes, and every other method writes. |
| Policy.ResourceIsFirstSegment | src/auth/policy.rs:134-151 | Every path is slashes, a first segment and a rest; the request targets the segment in lower case with the method's verb, or nothing if the segment is empty. |
| Policy.UntouchedCoversNothing | src/auth/policy.rs:85-121 | A token that is no wildcard for a verb and does not name it covers no request with it. |
| Policy.BareTokenIsLiteral | src/auth/policy.rs:91-95 | A token without a colon, wildcards aside, covers exactly the resource spelled as it is, for every verb. |
| Policy.RequestResources | src/auth/policy.rs:134-144 | A request's resource is never empty, lower-case, and a single path segment. |
| Policy.BareTokenIsNotFolded | src/auth/policy.rs:91-151 | Such a token covers some request of a given method if and only if it has no upper-case letter, is not empty and is a single path segment: unlike the other tokens it is not folded. |
| Policy.CapCompleteUpTo10001 | src/auth/policy.rs:184-209 | The 10,000-round cap loses nothing for up to 10,001 roles, whatever the graph. |
| Policy.CapIsExact | src/auth/policy.rs:184-209 | For any number of roles the capped table is complete if and only if one more round would add nothing. |
| Policy.CapIsTight | src/auth/policy.rs:184-209 | In a chain of n roles the capped loop finds the inherited grant if and only if n is at most 10,001. |
| PolicyCompiler.Collect | src/auth/policy.rs:167-182 | The two maps hold exactly the direct grants and edges of the configuration, spellings of one role name merged and unknown tokens dropped. |
| PolicyCompiler.Merge | src/auth/policy.rs:196-202 | A role's merged set is its own snapshot plus that of every known role it extends. |
| PolicyCompiler.MergeIsNextRound | src/auth/policy.rs:194-208 | Merging the state of round k gives what is inherited over k+1 edges. |
| PolicyCompiler.Round | src/auth/policy.rs:191-209 | From the state of round k to that of round k+1; comparing sizes detects every change. |
| PolicyCompiler.Fixpoint | src/auth/policy.rs:184-209 | However the loop ends, every role holds exactly what it inherits over at most 10,000 edges. |
| PolicyCompiler.Build | src/auth/policy.rs:166-215 | The compiled table is exactly bounded reachability in the configuration, and the public set exactly the folded list. |
| Auth.Allows | src/auth/policy.rs:223-238 | Answers yes exactly when the resource is public or some grant of some role matches. |
| Auth.Enforce | src/auth/mod.rs:245-286 | The whole decision table: disabled, ungoverned or public goes on; no token or a rejected one is unauthenticated; a verified one is decided by the policy; an unavailable source by the fail-closed switch. |
| Auth.AllowedImpliesEntitled | src/auth/policy.rs:166-238 | For any number of roles an allowed request is one the configuration entitles: the cap never grants too much. |
| Auth.AllowedIsEntitled | src/auth/policy.rs:166-238 | For up to 10,001 roles a non-public target is allowed if and only if a claimed role reaches, through `extends`, a role with a covering token. |
| Auth.OwnTokenEntitles | src/auth/policy.rs:166-238 | A role's own token that names the resource and spells the verb entitles whoever claims the role, in any letter case. |
| Auth.BuildAndEnforce | src/auth/mod.rs:245-286 | Compile then decide, for every request and outcome of verification: an ungoverned or public one goes on; without a token it is unauthenticated; with a verified one it goes on if and only if its roles are so entitled, and is forbidden otherwise; and if no token of the configuration touches the verb, every governed request with it is forbidden. |
| Auth.AddingNeverDenies | src/auth/policy.rs:166-238 | Adding roles, tokens, `extends` entries or public resources never turns an allow into a deny, with any number of roles. |
| Services.ConsistentStep | src/services.rs:376-406 | Each start and stop keeps: running exactly when a handle is held, live tasks exactly those held, each by one slot. |
| Services.EveryInterleavingIsConsistent | src/services.rs:376-473 | Over every interleaving from all idle that invariant holds, and per service the reported starts minus the reported stops is 1 if it runs and 0 if not. |
| Services.ModeScriptOutcome | src/services.rs:424-443 | Run alone from any state, each service ends as the mode, the SMTPS configuration and its own spawn say; one already in the wanted state keeps its task. |
| Services.ApplyModeForgetsThePast | src/services.rs:424-443 | With successful spawns the statuses after `apply_mode` depend on the mode alone. |
| Services.ApplyModeTwice | src/services.rs:424-443 | A second `apply_mode` spawns and aborts nothing if and only if no spawn that failed the first time would now succeed. |
| Services.BootAgreesWithApplyMode | src/services.rs:447-459 | From all idle, `boot` in any order of the set gives the statuses `apply_mode` gives. |
| Services.ServiceManager.StartService | src/services.rs:376-390 | The new slots, tasks and reported outcome of a start, refusals included. |
| Services.ServiceManager.StopService | src/services.rs:395-406 | The new slots, tasks and reported outcome of a stop. |
| Services.ServiceManager.ApplyMode | src/services.rs:424-443 | By mode and service: the API runs in full and API mode, SMTP in full and SMTP mode, DNS in full and DNS mode, SMTPS with SMTP if it is configured, each keeping its task if it ran and subject to its own spawn; everything else is idle; the report lists the resulting statuses in the fixed order. |
| Services.ServiceManager.Boot | src/services.rs:447-459 | Issues exactly one start per service of the mode in some order, then SMTPS if it is configured and follows. |
| Services.ServiceManager.StopAll | src/services.rs:469-473 | Afterwards every slot is idle and no task is alive. |
| Keys.PickKeyMatchesKid | src/auth/keys.rs:193-205 | A key is picked if and only if it is usable and is the first entry with the token's `kid`, or the only entry without one when the token has none (section 4.5 of RFC 7517). |
| Keys.ReturnedKeysComeFromTheSource | src/auth/keys.rs:101-186 | Over every interleaving of calls and refreshes a returned key is what the rule picks from the static set or a set the fetcher really returned. |
| Keys.NeverUnavailableAfterStore | src/auth/keys.rs:101-186 | Once a set is stored no call ends with `SourceUnavailable`, even one begun before. |
| Keys.RefetchesArePaced | src/auth/keys.rs:110-155 | In every interleaving a call that decides to refetch after some store does so at least one TTL after it. |
| Keys.RefetchIsExact | src/auth/keys.rs:110-155 | In every interleaving a call that missed decides to fetch if and only if the set is remote and every store so far lies at least one TTL back. |
| Keys.StoresArePaced | src/auth/keys.rs:110-161 | So the set it fetches is stored at least one TTL later too. |
| Keys.SequentialFetchesArePaced | src/auth/keys.rs:101-161 | In every run of calls one after the other, background refreshes included, two successful on-demand fetches are at least one TTL apart, and the second is decided no earlier. |
| Keys.HerdIsUnbounded | src/auth/keys.rs:110-115 | Overlapping calls are not paced: for every TTL and n there is a run with n fetches in flight. |
| Keys.KeySet.Resolve | src/auth/keys.rs:101-138 | Run alone: the fetched set replaces the cache exactly when no usable cached entry is named by the `kid`, the set is remote and empty or one TTL old, and the fetcher answers; the answer is the usable entry named in what is then cached, or an unknown `kid`, or an unavailable source exactly when nothing is cached. |
| Keys.ResolveIsARun | src/auth/keys.rs:101-138 | That call is a run of the machine, from any state and beside any waiting calls, and which: it takes the fetcher's set exactly when a refetch is due and the fetcher answers. |
| Records.TableAlways | src/db.rs:243-248 | In every run each (domain, type, value) triple has at most one row and keys are fresh. |
| Records.ConfirmedRowsMatch | src/api.rs:1026-1119 | In every interleaving with patches, deletes and faults, a 200 carries a row that is in the table and equals the request in all four fields. |
| Records.ConflictsAreGenuine | src/api.rs:282-307 | A 409 means the only row of the triple has another ttl. |
| Records.CreatesAgree | src/api.rs:1026-1119 | With creates only, in any interleaving, no call ends in a 500 and all 200s for one triple name the same row. |
| Records.LostRaceFailsOnlyIfRowVanished | src/api.rs:1097-1117 | Without faults a call that lost the insert race ends in a 500 if and only if the winning row is gone when it looks again, and then a patch or delete fell in between. |
| Records.RecordTable.RecordResolve | src/api.rs:282-307 | Finds a row if and only if the triple exists, and answers 200 or 409 by its ttl. |
| Records.RecordTable.CreateRecord | src/api.rs:1060-1119 | Run alone: an existing triple is confirmed or refused and nothing changes, a new one adds one row; a fault is a 500, except that a row stored although an error was reported is found again and confirmed. |
| Records.CreateIsARun | src/api.rs:1060-1119 | That call is a run of the machine, from any state and beside any waiting calls. |
| Records.Normalized | src/api.rs:943-959 | A request is a 400 if and only if its body is unreadable, its type unknown, its value blank or its domain not provisioned; else it is the trimmed and folded domain, the type, the trimmed value and the ttl. |
| Records.RecordTable.HandleCreate | src/api.rs:1026-1119 | From the request on: an unreadable body, unknown type, blank value or unprovisioned domain is a 400 and changes nothing; any other request is created as above and is never a 400. |
| Mailbox.Dedup | src/api.rs:1856-1857 | From a sorted list, the same elements strictly increasing. |
| Mailbox.Gather | src/api.rs:1839-1854 | Collects exactly the linked ids; a later label replaces an earlier one. |
| Mailbox.GatherWanted | src/api.rs:1835-1854 | The ids are exactly those with a wanted link, each labelled outbound exactly when a wanted outbound link exists. |
| Mailbox.Attach | src/api.rs:1858-1866 | Keeps exactly the ids whose message exists and can be loaded, in order, with their labels. |
| Mailbox.LoadMailboxMessages | src/api.rs:1832-1868 | For any case folding of the mailbox, ids strictly increasing: the inbound filter lists exactly the loadable messages with an inbound link, labelled inbound, the outbound filter those with an outbound link, labelled outbound, and both those with either, labelled outbound exactly when an outbound link exists; each fails exactly when one of its own link queries fails. |
| Mailbox.FailedLookupsAreDropped | src/api.rs:1860-1865 | A failed message lookup drops its message from the listing, silently, and changes nothing else. |
| Mailbox.BothIsUnion | src/api.rs:1827-1868 | The ids listed for both directions are the union of inbox and sent. |
| Mailbox.ListingIsUnique | src/api.rs:1832-1868 | That specification has one solution, so the listing does not depend on row order. |
| Mailbox.PageParams | src/api.rs:157-167 | A limit from 1 to 200 is taken as it is, 0 becomes 1, more becomes 200 and none 50; an offset is capped at the largest `i64` and defaults to 0. |
| Mailbox.FromAll | src/api.rs:141-151 | The page is the slice from offset to offset + limit, and a next offset is given exactly when rows remain, despite saturation. |
| Mailbox.FollowingPagesVisitsEveryRow | src/api.rs:128-167 | With a limit of at least 1, following the next offset from 0 yields every row once, in order, in ceil(n/limit) pages, or one page if there is no row. |
| Mailbox.ProgressNeedsALimit | src/api.rs:1645-1649 | On the unclamped path a next offset advances if and only if the limit is at least 1. |
| InboundMail.Handler.HandleRcpt | src/email.rs:58-78 | For any case folding: the address without the angle brackets and blanks around it is accepted if and only if it is a mailbox, and is then appended. |
| InboundMail.Handler.FindByHeader | src/email.rs:143-147 | Finds a message stored under the key whenever there is one. |
| InboundMail.Handler.FindCopy | src/email.rs:139-158 | Finds a stored copy if and only if the key is usable, the lookup works and a copy exists. |
| InboundMail.Handler.AddLinks | src/email.rs:186-199 | One link per recipient, in order, until one fails. |
| InboundMail.Handler.AddForwards | src/email.rs:201-218 | One forward, in order, for exactly the recipients whose mailbox has a forwarding address and whose enqueue succeeds, from that mailbox to that address; a failure stops nothing. |
| InboundMail.Handler.HandleEmail | src/email.rs:81-221 | Run alone: always empties the recipient list, and leaves the store as a message reused or stored, links and forwards. |
| InboundMail.AcceptedMeans | src/email.rs:81-221 | An accepted email by columns: a stored message is reused exactly when the lookup works and one is stored under the trimmed, non-blank Message-ID, else a row with the header and bytes as received is added; one link per recipient, or for `unknown`, in order, all on that message; the forwards as above. |
| InboundMail.RefusedMeans | src/email.rs:175-197 | A refused email forwards nothing, links a proper prefix of the recipients, and changes no stored message. |
| InboundMail.SecondCopyIsReusedExactly | src/email.rs:139-181 | Of two copies of one email handled back to back, the second adds no message if and only if the Message-ID is not blank and was already trimmed, or its trimmed form is already stored. |
| InboundConnections.SecondCopyIsARace | src/email.rs:139-181 | In every interleaving of any number of connections an insert after a working lookup meets a handler's copy of its Message-ID if and only if another connection stored one between that lookup and the insert and it is still there. |
| InboundConnections.DuplicateIsExact | src/email.rs:139-181 | In every interleaving a step keeps at most one handler's copy per trimmed, non-blank Message-ID if and only if it is neither such an overtaken insert nor an insert after a failed lookup of an id a handler has already stored. |
| InboundConnections.RaceIsExact | src/email.rs:139-181 | With working lookups only the overtaken insert is left. |
| InboundConnections.OneCopyWithoutRaces | src/email.rs:135-181 | So every run with working lookups and without an overtaken insert has at most one copy at any time. |
| InboundConnections.HandlerStoresOnePerMessageId | src/email.rs:135-181 | In particular every run with working lookups, productions and deletions included, in which no two connections are in the middle of an email. |
| InboundConnections.TwoConnectionsStoreTwice | src/email.rs:143-174 | For every such Message-ID there is an error-free run of two connections that stores it twice. |
| InboundConnections.FailedLookupStoresTwice | src/email.rs:153-174 | For every such Message-ID a single connection stores it twice when one lookup fails. |
| InboundConnections.LinkStep | src/email.rs:186-199 | A stored link is appended to the table, and no other step of a handler writes there. |
| InboundConnections.AcceptedEmailIsLinked | src/email.rs:186-221 | In every interleaving of any number of connections, when an email is accepted its connection has stored, since it began that email, exactly one link per accumulated recipient, in order, all on one message. |
| InboundConnections.RecipientsWereMailboxes | src/email.rs:58-78 | In every interleaving every accumulated recipient was a provisioned mailbox when its connection accepted it. |
| InboundConnections.ForwardStep | src/email.rs:204-218 | A forward is stored exactly when the recipient reached has a forwarding address at that point and the database works, to that address. |
| InboundConnections.ForwardsGoWhereTheMailboxSays | src/email.rs:201-218 | In every interleaving, mailboxes changing at any point, every stored forward is of the message its connection linked, for a recipient of that email, to the address that recipient's mailbox forwarded to when it was stored. |
| InboundConnections.HandlingIsARun | src/email.rs:81-221 | An email handled alone is a run of the machine, from any state and beside any waiting connections. |

## Left out

- SMTP transport, TLS, credentials, the MX resolver and envelope parsing: an oracle answers per host. The response text stored in an audit row is not kept.
- Overflow in `attempts + 1`, in `delay.as_secs() as i64` and in jiff timestamps: attempt counts and times are unbounded integers; only the backoff arithmetic is modelled in 64 bits.
- Fractions of a second in the configured backoffs, which the code drops before it computes.
- The database engine: automatic keys are never reused, an update of a deleted row changes nothing, and a transaction either commits or does not. A commit that lands but reports an error is the step followed by a failure or crash.
- Interference inside the classes: each method is proved for a caller running alone; interleavings are covered by the transition systems beside them.
- RunOutboundWorker: takes a finite list of turns instead of a ticker that never ends; deletions fall between turns, and the transition system has them at every point.
- JWT decoding, signature checks, JWKS over HTTP and OIDC discovery: `verify` and `fetch` are oracles. Reading roles and subject out of the claims (`walk`, `collect_roles`, `extract`) and the bearer header would only add easy members.
- Lock poisoning, real time and task scheduling: clocks are logical and nondecreasing.
- HandleCreate: JSON parsing, the table of record type names and Unicode case folding are oracles.
- `patch_record` appears only as its effect on the table under the unique constraint; its own response logic is not modelled.
- LoadMailboxMessages: `sort_unstable` is a function with the same result.
- HandleRcpt: a failed mailbox lookup counts as an unknown mailbox, as in the code.
- HandleEmail: header fields other than the Message-ID are not modelled.
- The DNS server, configuration and startup seeding, certificates, the other CRUD handlers and the OpenAPI surface.
