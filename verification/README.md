# Constrail: a verified model of the safety kernel

Constrail stands between agents and their tools. Every action passes a capability check, risk scoring, a
policy decision, a rate limit, the broker and a tamper-evident audit log; gated actions wait for a human and
are replayed after approval. This project models that path in Dafny and proves what it guarantees over all
inputs and all runs. `dafny verify dfyconfig.toml` checks everything.

| file | content |
|---|---|
| `Base.dfy` | JSON values, identities, requests, decisions |
| `AuditChain.dfy` | hash-chained audit rows, their writer, verifier and checkpoints |
| `Paths.dfy` | `normpath`, the manifest's prefix test, resolution below a base directory |
| `Capability.dfy` | manifests, their lookup, the capability check, what the filesystem adapter then does |
| `RateLimit.dfy` | the record-then-check limiter, pruning from another process |
| `Risk.dfy` | the risk score, its exact range per tool, the audit-log lookback |
| `Policy.dfy` | the built-in fallback, the shipped Rego bundle, the final decision |
| `Outbox.dfy`, `Delivery.dfy`, `Announcements.dfy`, `Worker.dfy`, `ApprovalService.dfy` | approvals, webhooks, the outbox and its worker: tables and operations, invariants over every run, the contents of the outbox, drain loop and backoff, the service object |
| `Queue.dfy` | when an outbox row is sent, and when it never is |
| `KernelSpec.dfy` | the kernel as a state machine whose steps are the stretches between two waiting points |
| `KernelHistory.dfy`, `KernelGates.dfy`, `KernelLimits.dfy` | over every run and interleaving: why every tool ran, who is always referred to a human, what becomes of denied requests, the risk of a request, how many tools run per window |
| `KernelReplays.dfy` | over every run and interleaving: replays at the moment they run, approvals between decisions |
| `KernelFiles.dfy` | the file operations of tool runs: which manifests keep changes behind a human, and runs inside their prefixes |
| `KernelAccounts.dfy`, `KernelLedger.dfy`, `KernelTools.dfy`, `KernelAudit.dfy` | over every run and interleaving: what approvals, outbox and answers add up to, the audit log's chain and balance, what became of every tool run, the truth and completeness of the log's rows |
| `KernelWitness.dfy` | reachable worlds, and concrete runs from the start in which the code does not do what one would expect |
| `Kernel.dfy` | the kernel object, whose methods are proved to be those steps |

How the outside is represented:

* The digest (SHA-256 over canonical JSON) is a function `H` from payloads to strings about which nothing is
  assumed. Where a claim needs two digests to differ, it says instead: or here are two distinct payloads with
  the same digest, computed from the logs at hand.
* The network is an oracle: its k-th POST has the outcome `net(k)`, for any `net`. Every POST is kept, so
  that "delivered" can be compared with what was sent. The policy server's replies, the sandbox posture, tool
  results, database commits of audit rows, clock readings and new ids are inputs of the steps.
* The clock of a kernel run is arbitrary: readings may repeat and go back. The order by `start_time` leaves
  the place of a row among equal stamps open; it is an input too. Only `KernelLedger.AuditAlwaysVerifies`
  asks for increasing readings.
* `process` and `replay_approved` are cut where they await the policy engine and the tool. What happens
  between two such points is one step; steps of any number of requests, replays, decisions, retries and
  drains interleave freely. A run is any sequence of steps from the empty state.
* Scores, trust and sleeps are real numbers.

Where code and documentation or expectation part, the model follows the code:

* A call may name the filesystem operation itself, and the adapter obeys it whatever tool was permitted.
  `Capability.OperationFollowsToolIffUnnamed` says exactly when the tool's own operation runs, and
  `Capability.ForeignIffNotForbidden` which manifest entries permit a call that does another one: of those
  that permit a call the adapter acts on, exactly the ones that neither leave `operation` out of their list
  nor deny it. Files change only after a human if and only if no caller's reads are decided by such an entry
  (`KernelFiles.FilesNeedHumanIffTame`, with the shipped profiles and thresholds, auto-approval off and the
  mode not sandbox); `KernelFiles.ReadDeletesUnattended` is a run in which a read deletes.
* A policy decision to deny does not stop a gated tool: it is referred to a human, and runs at once if
  auto-approval finds it LOW. Over the rate limit the policy decision is not looked at, and mode sandbox runs
  the tool (`KernelGates.DeniedGoesTo`, `KernelGates.DeniedRunsOnlyUnattended`,
  `KernelWitness.RateLimitRunsDenied`).
* A tenant that is an empty string is a tenant for the Rego bundle and none for the fallback, and strict mode
  denies a HIGH read on which the bundle conflicts with itself. `Policy.ParityIff` shows that these are the
  only two cases in which the two lead the kernel apart.
* `verify` alone accepts a truncated log (`AuditChain.TruncationPassesVerify`), and of all losses,
  reorderings and repetitions of rows nothing else (`AuditChain.PicksVerifyIffInPlace`). Concurrent writers or
  a clock that steps back break the chain (`AuditChain.RacingWritersBreak`,
  `AuditChain.AppendVerifiesIffLast`), and it never heals (`AuditChain.VerifiesIffAppended`).
* `quota-prune` runs in a process of its own. A prune that keeps a window, counted from its own clock, can
  still take rows out of the window of an action that has been recorded and not yet counted, and then more
  actions pass than the threshold allows (`RateLimit.PendingCountSeesPrune`). Results and bound are those of
  the never-pruned table if and only if no count misses a row in its window
  (`RateLimit.InvisibleIffUndisturbed`, `RateLimit.PrunedWindowBound`).
* Manifest keys are ambiguous. A label is called safe if, read after the label's first character, the
  separator that follows it is the first `::`; single colons inside are harmless, one at the end is not.
  An identity shares its key with a different safe one if and only if its tenant or namespace is not safe
  (`Capability.AmbiguousIffUnsafe`).
* A missing tenant is spelled `_` in a key, and so is a tenant called `_`: its manifests are served to other
  tenants (`Capability.UnderscoreServesOthers`). With safe labels, lookups keep tenants apart if and only if
  no stored manifest has that tenant (`Capability.IsolatedIffNoUnderscore`).
* A replay is checked before the kernel waits for the policy engine and runs after it. At the run its
  approval is approved and unexpired if and only if the guard would pass once more at that moment
  (`KernelReplays.SafeAtRunIffStillReplayable`). `KernelWitness.DeniedToolRuns` and
  `KernelWitness.ExpiredToolRuns` are runs in which it would not.
* A replay does not use up its approval. Until somebody decides the approval again it can be replayed
  exactly as if nothing had run (`KernelReplays.ReplayableUntilReviewed`,
  `KernelReplays.ReplayStartsIffStands`).
* Replays are not counted by the rate limit. The tool runs in a window are bounded by the threshold plus the
  replays in it (`KernelLimits.AllRunsPerWindow`), and `KernelWitness.ReplaysExceedEveryLimit` is a run with
  any number of tool runs at one moment, on one approval, where one action per minute is allowed.
* Undelivered rows are drained oldest first, failed ones too, so `limit` rows that keep failing hold back all
  others (`Queue.FailingHeadStarves`); `Queue.SentIffEnoughDelivered` says exactly when a row is sent.

## Model

| member | source | states |
|---|---|---|
| AuditChain.WriterAndVerifierAgree | src/constrail/kernel_v2.py:437-472 | The kernel hashes request objects and the verifier hashes the stored row, through two enum families; for every entry both hash the same payload |
| AuditChain.VerdictIsUnique | src/constrail/audit_verify.py:14-35 | verify decides exactly: the rows determine its verdict, including the position and the kind of the first mismatch |
| AuditChain.FindCollision | src/constrail/audit_verify.py:11-60 | Chain binding: for two intact logs of any lengths with the same final hash, either they have equal length and agree on every protected field, or the result is a pair of distinct payloads with the same digest |
| AuditChain.BackStep | src/constrail/audit_verify.py:17-34 | One step of the backward walk: equal last payloads carry equality of the final hashes, and agreement, over to the prefixes |
| AuditChain.HashesDistinct | src/constrail/audit_verify.py:15-34 | Two positions of an intact log never have the same hash, unless a collision is found |
| AuditChain.AppendVerifiesIffLast | src/constrail/kernel_v2.py:540-563 | A new row keeps the log verifying if and only if the order by start_time puts it last; elsewhere verify fails at the row itself, up to a collision |
| AuditChain.RacingWritersBreak | src/constrail/kernel_v2.py:547-564 | Two writers that read the log before either commits break the chain at the second row, up to a collision |
| AuditChain.RunsVerify | src/constrail/kernel_v2.py:520-572 | Append invariant: with increasing stamps every run of the logger, failed commits included, leaves an intact log that extends the first one by exactly the committed calls |
| AuditChain.VerifiesIffAppended | src/constrail/kernel_v2.py:540-564 | For any clock a log that grows from an intact one verifies if and only if every row was put last when it was committed, up to a collision: a broken chain never heals |
| AuditChain.EditIsNoticedIffCovered | src/constrail/audit_verify.py:17-35 | Changing row i and not its chain columns leaves the log intact if no protected field changed, and otherwise fails at i, up to a collision |
| AuditChain.RehashedEditMovesOn | src/constrail/audit_verify.py:17-35 | Recomputing the edited row's hash moves the failure to row i + 1, and on the last row it goes unnoticed |
| AuditChain.DeletionIsNoticed | src/constrail/audit_verify.py:17-35 | Deleting a row that is not the last one fails at its position, up to a collision |
| AuditChain.PicksVerifyIffInPlace | src/constrail/audit_verify.py:14-35 | Of an intact log, any rows in any order and with repetitions verify if and only if they are its first rows in place, up to a collision |
| AuditChain.Relink | src/constrail/audit_verify.py:39-60 | Whoever rewrites a whole log can relink it: same contents, and verify accepts it |
| AuditChain.TruncationPassesVerify | src/constrail/audit_verify.py:14-35 | Every prefix of an intact log is intact, so verify alone accepts a lost tail; the checkpoint's record count shows it |
| AuditChain.CheckpointPinsPrefix | src/constrail/audit_checkpoint.py:15-29 | An intact log that has a checkpoint's hash at the checkpoint's position agrees with the checkpointed log up to there, up to a collision |
| AuditChain.RelinkedForgeryMissesCheckpoint | src/constrail/audit_checkpoint.py:23-29 | A relinked log with an edited record passes verify but misses a checkpoint taken before, up to a collision |
| AuditChain.AuditLog.LogAudit | src/constrail/kernel_v2.py:483-572 | Adds the linked row where start_time puts it, anywhere among equal stamps, at the end if its stamp is the latest; a failed commit changes nothing |
| AuditChain.SpotsAreFits | src/constrail/audit_verify.py:14 | For any clock the places the logger can put a row are exactly the positions that keep the order by start_time |
| AuditChain.AuditLog.Verify | src/constrail/audit_verify.py:11-37 | Returns the one verdict the rows determine: ok with the number of rows exactly for intact logs, else the first bad row and its kind of mismatch |
| AuditChain.AuditLog.CreateCheckpoint | src/constrail/audit_checkpoint.py:12-38 | The number of rows, the last request and the last hash of the ordered log |
| Paths.SplitJoin | src/constrail/adapters/filesystem.py:52-58 | Splitting undoes joining for slash-free components |
| Paths.JoinSplit | src/constrail/adapters/filesystem.py:52-58 | Joining undoes splitting for every string |
| Paths.NormalFormReadsBack | src/constrail/capability/manager.py:161 | The components and the root of a normal form read back as those it was made from |
| Paths.NormPathIdempotent | src/constrail/capability/manager.py:161-163 | normpath is idempotent |
| Paths.NormalisationPreservesResolution | src/constrail/adapters/filesystem.py:52-58 | For every base and every path string, resolving the normal form gives the same target and the same verdict as resolving the path |
| Paths.StringPrefixIsCompPrefix | src/constrail/capability/manager.py:162-165 | On proper components, equality or a prefix followed by a slash on strings is the prefix relation on component sequences |
| Paths.PrefixMatchesIffCovers | src/constrail/capability/manager.py:161-165 | The manifest's string test is exactly a test on components, for every path and every prefix, absolute ones, double slashes and '.' included |
| Paths.InwardResolves | src/constrail/adapters/filesystem.py:52-58 | A relative path whose normal form has no leading '..' resolves to its own components below any base |
| Paths.Confinement | src/constrail/capability/manager.py:158-165 | A path allowed through an inward prefix is relative, the adapter accepts it for every base, and the target is base, the prefix's components, the rest |
| Paths.AllowedIsConfined | src/constrail/adapters/filesystem.py:52-58 | With inward prefixes only, whatever the manifest allows resolves below one of them |
| Paths.AcceptedEverywhereIffInward | src/constrail/adapters/filesystem.py:52-58 | The paths accepted below every base directory are exactly the inward ones |
| Capability.KeyIsInjective | src/constrail/capability/manager.py:74-75 | With safe tenants and namespaces two manifest keys are equal if and only if agent, tenant and namespace are (a missing label being spelled _); agents and single colons are unrestricted |
| Capability.KeyIsAmbiguousWithColons | src/constrail/capability/manager.py:74-75 | Two pairs of different identities with one key, the second without a double colon in any label |
| Capability.KeyHasSafeOwner | src/constrail/capability/manager.py:74-75 | Every key is the key of an identity with safe labels, which is the given one if and only if its labels are safe |
| Capability.AmbiguousIffUnsafe | src/constrail/capability/manager.py:74-75 | Exactly the identities with an unsafe tenant or namespace share their key with a different identity whose labels are safe |
| Capability.LastFileWins | src/constrail/capability/manager.py:57-70 | After loading a directory each key maps to the last readable file that has it |
| Capability.OtherKeysStay | src/constrail/capability/manager.py:57-72 | Keys that no readable file has map to what they mapped to before |
| Capability.LookupStaysWithAgentAndTenant | src/constrail/capability/manager.py:102-119 | With safe labels the manifest that is used belongs to the calling agent, through the keys and through the fallback; for a caller with a tenant it is that tenant's or a tenant-less one if and only if its tenant is not a foreign one called _; a caller is refused only if no stored manifest fits |
| Capability.IsolatedIffNoUnderscore | src/constrail/capability/manager.py:102-119 | In a registry of safe manifests every lookup by a caller with a tenant stays with agent and tenant if and only if no manifest has the tenant _ |
| Capability.UnderscoreServesOthers | src/constrail/capability/manager.py:102-119 | A manifest of a tenant called _ is served to every other tenant of that agent name |
| Capability.UnsafeCallerServedOthers | src/constrail/capability/manager.py:102-119 | Every caller with an unsafe label is served a different identity's manifest by some registry of safe manifests |
| Capability.OperationFollowsToolIffUnnamed | src/constrail/kernel_v2.py:348-358 | The operation that runs is the permitted tool's own one if and only if the call names no other |
| Capability.ForeignIffNotForbidden | src/constrail/adapters/filesystem.py:23-43 | An entry of a filesystem tool permits some call that performs another tool's operation if and only if it permits a call that is acted on at all and does not forbid naming the operation, that is, if and only if it is not tame |
| Capability.PermittedCallIsConfined | src/constrail/capability/manager.py:121-156 | From the capability check to the adapter: under an entry that forbids naming the operation, by leaving it out of its list or by denying it, and has inward prefixes, a permitted filesystem call does its tool's operation below one of the prefixes, for every caller, path and base |
| Capability.ShippedManifestIsClosed | policies/capabilities/dev-agent.json:7-22 | The filesystem entries of the shipped manifest meet the conditions of that theorem |
| Capability.CapabilityManager.LoadManifests | src/constrail/capability/manager.py:51-72 | The loop over the files stores them in order, a repeated key replacing the entry in its place, unreadable files skipped, and leaves a dictionary whose entries stand under their own keys |
| Capability.CapabilityManager.FindManifest | src/constrail/capability/manager.py:102-119 | The three keys in order, then the first stored manifest of the agent whose tenant fits |
| Capability.CapabilityManager.IsToolAllowed | src/constrail/capability/manager.py:121-181 | The loops over allowed and denied parameters and the path, domain and command checks decide the verdict of the specification, exceptions on non-string values included |
| Capability.CapabilityManager.CheckPath | src/constrail/capability/manager.py:158-165 | Permits exactly the strings that one of the prefixes matches; falsy values are refused and other types raise |
| Capability.CapabilityManager.AnyMatches | src/constrail/capability/manager.py:162-165 | The loop over the prefixes finds a match if and only if there is one |
| Capability.CapabilityManager.CheckCommand | src/constrail/capability/manager.py:174-181 | The loop over the allowlist permits exactly the commands that are an entry, or an entry, a space and more, after stripping |
| RateLimit.WindowBound | src/constrail/rate_limits.py:32-71 | For every interleaving of commits and counts and arbitrary clocks: in every closed interval of one window at most a threshold's worth of an agent's actions of one tool go through, and of all its actions that are not under a tool threshold |
| RateLimit.RecordThenCountKeepsInv | src/constrail/rate_limits.py:36-71 | A call keeps the limiter's invariant: an action that went through had at most a threshold's worth of events committed up to its own |
| RateLimit.DefaultWindowBound | src/constrail/rate_limits.py:61-71 | Without tool and tenant thresholds the bound is the burst threshold |
| RateLimit.PruneChangesCountBy | src/constrail/rate_limits.py:125-137 | A prune lowers a later agent count and a later tool count by exactly the pruned rows that were still in its window |
| RateLimit.SameCheckIffWhole | src/constrail/rate_limits.py:43-71 | A count gives what it would give on the never-pruned table if and only if no pruned row of the agent lies in its window |
| RateLimit.InvisibleIffUndisturbed | src/constrail/rate_limits.py:125-137 | With prunes between any two database steps of any calls, and any clocks, all results are those of the never-pruned table if and only if no count misses a row in its window |
| RateLimit.PruningIsInvisible | src/constrail/rate_limits.py:125-137 | That is so, for any clocks, if no prune reaches into the window of a count that comes after it |
| RateLimit.PrudentSpares | src/constrail/cli.py:338-343 | With a clock that does not go back, prunes that keep a window from now and from every row that is recorded and not yet counted meet that condition |
| RateLimit.PrunedWindowBound | src/constrail/rate_limits.py:32-71 | The window bound holds on the pruned table as long as no count misses a row in its window |
| RateLimit.PendingCountSeesPrune | src/constrail/rate_limits.py:125-137 | A run on a clock that does not go back, with a prune that keeps a window from now, in which two actions pass in one window where one is allowed; without the prune the second is blocked |
| RateLimit.RateLimitService.RecordAndCheck | src/constrail/rate_limits.py:24-87 | One call is the commit step followed by the count step of the protocol |
| RateLimit.RateLimitService.PruneEvents | src/constrail/rate_limits.py:125-137 | Removes exactly the rows before the cutoff and returns their number |
| RateLimit.RateLimitService.Summarise | src/constrail/rate_limits.py:139-165 | The per-tool and per-tenant totals partition the selected rows |
| Risk.ScoreInRange | src/constrail/risk/risk_engine.py:67-106 | With the shipped profiles every score of a broker tool lies in its interval |
| Risk.ScoresAreExactly | src/constrail/risk/risk_engine.py:67-106 | A real number is a score of a tool if and only if it lies in that interval, chained and unchained |
| Risk.LevelsByTool | src/constrail/risk/risk_engine.py:108-115 | Reads are never HIGH, exec and delete_file never LOW, exec never CRITICAL, a chained http_request never LOW, and only it can be CRITICAL |
| Risk.LookbackSees | src/constrail/risk/risk_engine.py:50-60 | The lookback returns an agent's row while fewer than the limit of the agent's rows follow it, however many rows of others do |
| Risk.LookbackSeesOnly | src/constrail/risk/risk_engine.py:50-60 | Whatever it returns is the tool of such a row |
| Risk.ChainedIffRecentRead | src/constrail/risk/risk_engine.py:164-172 | The chain rule fires if and only if one of the agent's last lookback rows is a read |
| Risk.RiskEngine.AssessParameters | src/constrail/risk/risk_engine.py:129-162 | Two passes with early exit add each weight at most once and cap at 1, whatever the order of the parameters |
| Risk.RiskEngine.AssessRequest | src/constrail/risk/risk_engine.py:67-127 | The accumulating computation gives the specified score and level |
| Policy.GatedNeedApproval | src/constrail/kernel_v2.py:285-303 | The final decision is APPROVAL_REQUIRED exactly for gated tools, when the policy asks for it, for an allowed CRITICAL action and for a sandbox that is not there |
| Policy.BundleOnReads | policies/rego/constrail/allow.rego:7-50 | What the complete rule yields for read tools: one value, or a conflict, depending on tenant and level |
| Policy.ParityIff | src/constrail/policy/policy_engine.py:26-51 | For every broker tool, parameters, tenant, level, mode and sandbox type the shipped bundle and the fallback lead to the same final decision if and only if neither of the two named cases applies |
| Policy.DegradedParity | src/constrail/policy/policy_engine.py:44-51 | In degraded mode a missing or non-empty tenant is enough |
| Policy.ShippedParity | src/constrail/policy/policy_engine.py:35-43 | With the shipped risk profiles it is enough in every mode, because no read is HIGH |
| Policy.PolicyDecisionsDiffer | policies/rego/constrail/sandbox.rego:9-11 | The policy-level decisions do differ: exec conflicts with itself in the bundle |
| Outbox.DrainCounts | src/constrail/approval.py:155-177 | A drain handles min(limit, undelivered) rows with one POST each, processed = delivered + failed, the undelivered rows shrink by exactly the deliveries, and no approval row changes |
| Outbox.EligibleAfter | src/constrail/approval.py:158-164 | A row that fails again keeps its place in the queue, a delivered one leaves it |
| Outbox.HeadLeaves | src/constrail/approval.py:158-164 | Delivering the oldest row leaves the others in their order |
| Outbox.SummaryAddsUp | src/constrail/approval.py:211-222 | total = pending + failed + delivered, and pending + failed is what a drain would see |
| Delivery.RunOk | src/constrail/approval.py:276-382 | After every sequence of operations the attempt counts and states of all rows agree with the POSTs made; delivered rows, payloads, and an approval's identity, parameters and expiry never change |
| Delivery.DeliveredWasSent | src/constrail/approval.py:302-323 | delivered_at is set only after an accepted POST of the very payload that was enqueued |
| Delivery.AttemptsBounded | src/constrail/approval.py:334-355 | Without manual retries an approval is notified at most the configured number of times, and exhausted means exactly that number |
| Delivery.NotifyOk | src/constrail/approval.py:72-76 | Announcing an event adds one outbox row with that event and payload and leaves identities and decisions alone, whatever is sent |
| Delivery.CreateFrame | src/constrail/approval.py:45-79 | Creating adds one undecided row and leaves the others' identity and decision alone, whatever is sent |
| Delivery.DecideFrame | src/constrail/approval.py:111-142 | A decision changes the decision of its row and of no other, and no identity |
| Announcements.CreateTells | src/constrail/approval.py:72-76 | A new approval adds one entry; it names the approval and its request, agent and tool, its risk and the status pending |
| Announcements.DecideTells | src/constrail/approval.py:134-139 | A decision adds one entry with the matching event and status |
| Announcements.RetryTells | src/constrail/approval.py:144-152 | A retry adds one true entry |
| Announcements.DrainTells | src/constrail/approval.py:155-177 | Draining changes no entry |
| Worker.BackoffClosedForm | src/constrail/approval.py:193-197 | After k idle cycles the sleep is min(max, base * multiplier^k), after a busy one it is the base |
| Worker.ScaledIsPower | src/constrail/approval.py:195 | The repeated multiplication is multiplication by the k-th power |
| Worker.TotalSleepBounded | src/constrail/approval.py:198-200 | n cycles sleep at most (n - 1) * the larger of base and maximum in total |
| Worker.DrainDelivers | src/constrail/approval.py:155-177 | With a working network a drain delivers the oldest min(limit, queue) rows in queue order |
| Worker.CyclesDeliver | src/constrail/approval.py:187-191 | After k cycles exactly the first k * limit rows are gone, each sent once, oldest first |
| Worker.IdleIffDone | src/constrail/approval.py:193-194 | A cycle is idle if and only if the queue was empty when it started |
| Worker.WorkerConverges | src/constrail/approval.py:179-209 | n cycles with limit L deliver exactly min(queue, n * L) rows and fail none |
| Queue.DrainSendsIff | src/constrail/approval.py:155-177 | A drain sends a row, once, if and only if it is undelivered and fewer than limit undelivered rows are older |
| Queue.FarDrain | src/constrail/approval.py:155-177 | A drain that does not reach a row leaves it as it is and brings it nearer to the head by exactly the number of deliveries |
| Queue.SentIffEnoughDelivered | src/constrail/approval.py:155-191 | An undelivered row is sent within n cycles if and only if the first n - 1 of them delivered enough rows to leave fewer than limit ahead of it |
| Queue.FailingHeadStarves | src/constrail/approval.py:155-191 | While limit rows at the head of the queue keep failing, no row behind them is sent, in any number of cycles |
| ApprovalService.Service.EmitWebhook | src/constrail/approval.py:334-382 | The immediate notification, its bound and the recorded state |
| ApprovalService.Service.RecordWebhookDelivery | src/constrail/approval.py:276-300 | Updates the webhook columns of one row |
| ApprovalService.Service.DeliverOutboxItem | src/constrail/approval.py:302-332 | One POST of the stored payload and the row's new state |
| ApprovalService.Service.DrainOutbox | src/constrail/approval.py:155-177 | The loop over the selected rows and its counters |
| ApprovalService.Service.CreateRequest | src/constrail/approval.py:33-79 | Stores and announces a new approval; a known request keeps its row |
| ApprovalService.Service.DecideRequest | src/constrail/approval.py:111-142 | Stores and announces a decision; an unknown id changes nothing |
| ApprovalService.Service.RetryWebhook | src/constrail/approval.py:144-153 | Enqueues and sends once more, beyond the maximum if need be |
| ApprovalService.Service.RunWorker | src/constrail/approval.py:179-209 | The report's totals are the sums over its cycles, each cycle is one drain, and the sleeps follow the backoff |
| ApprovalService.Service.OutboxSummary | src/constrail/approval.py:211-222 | The four counts of the outbox |
| KernelHistory.StepKeeps | src/constrail/kernel_v2.py:47-262 | Every step of the kernel keeps the history invariant: the approvals table agrees with what was submitted, stored and decided, and every tool run was justified when it happened |
| KernelHistory.EveryRunJustified | src/constrail/kernel_v2.py:47-435 | In every interleaving a tool runs for a request that passed the capability check with this agent, tool and parameters, at a level and under a policy decision that can be made of it, and is neither gated nor denied by the policy or is under an unattended setting, or as a replay after a good check |
| KernelHistory.HistorySafety | src/constrail/kernel_v2.py:360-393 | With auto-approval off and the mode not sandbox, every run of a gated tool is a replay; when it was checked, its approval's latest decision was to approve and the expiry period since the approval was stored was not over; agent, tool and parameters are those of an earlier submission that passed the capability check (the run itself: KernelReplays.SafeAtRunIffStillReplayable) |
| KernelHistory.DestructiveToolsNeedHuman | src/constrail/kernel_v2.py:195-205 | Even with auto-approval on, the tools exec and delete_file run only as such replays (file operations by other tools: KernelFiles.FileChangesNeedHuman) |
| KernelHistory.CheckIsGood | src/constrail/kernel_v2.py:360-376 | What replay_approved checks is enough to justify the replay |
| KernelReplays.ReplayableIffStands | src/constrail/kernel_v2.py:370-375 | After every step the guard of replay_approved holds if and only if, by the history, the approval was stored, its latest decision is to approve and its expiry period is not over |
| KernelReplays.SafeAtRunIffStillReplayable | src/constrail/kernel_v2.py:370-393 | Over every run: a replayed tool runs in its step after the wait, with its approval approved and unexpired at that very moment if and only if the guard of replay_approved, evaluated again then, would pass; the replay is accounted for in any case |
| KernelReplays.ReplayableUntilReviewed | src/constrail/kernel_v2.py:360-435 | Between two moments of a run an approval that nobody decides stays replayable, or not, whatever happens, starts, runs and ends of its own replays included |
| KernelReplays.ReplayStartsIffStands | src/constrail/kernel_v2.py:370-376 | In every run a replay starts if and only if its approval is approved and unexpired by the history, however many replays there were |
| KernelWitness.DenialCanComeTooLate | src/constrail/kernel_v2.py:374-393 | From every reachable world with a replayable approval a run starts the replay, denies the approval, and the tool still runs |
| KernelWitness.ExpiryCanComeTooLate | src/constrail/kernel_v2.py:374-393 | If the wait of a replay lasts past the expiry of its approval, the tool runs all the same |
| KernelWitness.DeniedToolRuns | src/constrail/kernel_v2.py:374-393 | A run from the start in which a tool runs although the latest decision on its approval is a denial |
| KernelWitness.ExpiredToolRuns | src/constrail/kernel_v2.py:374-393 | A run from the start in which a tool runs at the moment its approval expires, which the check would refuse |
| KernelWitness.ReplaysExceedEveryLimit | src/constrail/kernel_v2.py:360-435 | With one action per minute allowed, for every n a run from the start lets the tool of one approval run n times at one moment |
| KernelWitness.RateLimitRunsDenied | src/constrail/kernel_v2.py:69-155 | A run from the start in which the policy denies a request and, over the rate limit in mode sandbox, its tool runs |
| KernelFiles.FileChangesNeedHuman | src/constrail/kernel_v2.py:195-205 | If for every caller the entry that decides its reads forbids naming the operation or permits no call that is acted on, auto-approval is off and the mode is not sandbox, every tool run that writes or deletes a file, under whatever tool name, is an accounted replay |
| KernelFiles.FilesNeedHumanIffTame | src/constrail/kernel_v2.py:195-242 | With the shipped profiles and thresholds, auto-approval off, the mode not sandbox and a limiter that lets a first action through: in every reachable world each run that changes a file is a replay if and only if that condition holds |
| KernelFiles.TameIffStored | src/constrail/capability/manager.py:102-119 | With a policy server the condition holds if and only if it holds of the first entry for each read tool in every stored manifest; without one that is enough |
| KernelFiles.FileRunsAreConfined | src/constrail/capability/manager.py:121-165 | Over every run: if all entries of filesystem tools are closed, each run of such a tool, replays included, does its tool's own operation below a prefix that a manifest found for the agent names |
| KernelFiles.ReadDeletesUnattended | src/constrail/adapters/filesystem.py:23-43 | Under an entry that does not forbid it, a run from the start in which a read_file deletes a file and no human is asked |
| KernelAccounts.StepAccounts | src/constrail/approval.py:33-153 | Every step keeps the accounts of approvals, outbox rows and answers |
| KernelAccounts.ApprovalsConserved | src/constrail/kernel_v2.py:201-233 | On every run the outbox lists exactly the approvals stored, decided and retried, in order, with true entries; APPROVAL_REQUIRED answers correspond one to one with approval rows; no request is answered twice |
| KernelLedger.LogIsLogStep | src/constrail/kernel_v2.py:544-563 | For any clock the outcomes the logger allows are exactly those of the kernel's append, one for each place among equal stamps |
| KernelLedger.AuditAlwaysVerifies | src/constrail/kernel_v2.py:483-572 | With an increasing clock, after every run the audit log verifies and extends every earlier log, whichever commits failed |
| KernelLedger.AuditVerifiesIffAppended | src/constrail/kernel_v2.py:483-572 | For any clock and whichever commits failed, the log verifies after a run if and only if each of its rows was put last when it was committed, up to a collision |
| KernelLedger.RowsStay | src/constrail/kernel_v2.py:483-572 | For any clock the log stays ordered by start_time, and no row is ever lost or altered |
| KernelLedger.ActionsConserved | src/constrail/kernel_v2.py:47-274 | With anomaly detection on and all audit commits successful, audit rows plus running tools = recorded actions + completed replays |
| KernelTools.RunTracked | src/constrail/kernel_v2.py:47-66 | After every run, a request whose tool ran was not refused and is either with the broker or answered; refused requests never come back |
| KernelAudit.AuditIsTrue | src/constrail/kernel_v2.py:483-572 | On every run each audit row is true: the request was submitted with this agent, tool and parameters, passed the check and was answered with this decision and approval, or the replay of the named approval passed its check and its broker call came back, with a result or blocked; the level is that of the score; no request has two rows |
| KernelAudit.RowRiskIsAssessed | src/constrail/kernel_v2.py:65 | Every row carries the score and level that were assessed when its request was submitted, or its replay started, against the audit log of that moment |
| KernelAudit.AuditIsComplete | src/constrail/kernel_v2.py:47-435 | With all audit commits successful an answered request has its row if and only if the capability check did not refuse it |
| KernelAudit.AnswerHasRowIff | src/constrail/kernel_v2.py:483-572 | A request has its row, in the step that answers it and ever after, if and only if the commit of that step succeeded and the capability check had not refused it; other commits do not matter |
| KernelAudit.EveryToolRunIsLogged | src/constrail/kernel_v2.py:235-262 | Every tool run has its row, or its request is still under way, or the commit of the very step that answered it failed |
| KernelLimits.RunsPerWindow | src/constrail/kernel_v2.py:264-274 | The rate limit holds for what requests run: in every run of the kernel at most a threshold's worth of tools run for an agent's requests in any closed window, all of one tool or none under a tool threshold, for any clock |
| KernelLimits.AllRunsPerWindow | src/constrail/kernel_v2.py:264-274 | The runs of one tool for an agent in a closed window, replays included, are at most the largest threshold that may apply to the tool plus the replays of it in the window; likewise for all tools together where tools have no thresholds of their own |
| KernelGates.GateAsks | src/constrail/kernel_v2.py:68-233 | A gated request that is not LOW, and with auto-approval off any gated request, is referred to a human, and no tool runs, if and only if the rate limit does not divert it, whatever the policy server answers |
| KernelGates.DeniedGoesTo | src/constrail/kernel_v2.py:66-233 | What becomes of a request that the policy denies, exactly: when it is answered DENY, quarantined, referred to a human, or run |
| KernelGates.DeniedRunsOnlyUnattended | src/constrail/kernel_v2.py:285-303 | In every run, with auto-approval off and no sandboxing rate limit, a tool runs against a policy denial only as a replay |
| KernelGates.RiskFixedAtSubmission | src/constrail/kernel_v2.py:65-66 | The risk that is judged is the one assessed at submission against the audit log of that moment, whatever is interleaved |
| KernelGates.FinishedReadMarks | src/constrail/risk/risk_engine.py:50-60 | For any clock, a read whose end was logged keeps its row, and it marks the agent's later network requests until the lookback limit of rows has passed it |
| KernelGates.NeverLowAsks | src/constrail/kernel_v2.py:186-205 | Read-then-network: over every run, exec, delete_file and http_request after a recent read are referred to a human if and only if the rate limit does not divert them, with auto-approval on or off |
| Kernel.ConstrailKernel.Process | src/constrail/kernel_v2.py:47-66 | process up to the policy call is the submission step |
| Kernel.ConstrailKernel.ResumeProcess | src/constrail/kernel_v2.py:66-242 | process from the policy answer on is the judging step |
| Kernel.ConstrailKernel.CompleteProcess | src/constrail/kernel_v2.py:235-262 | process from the tool's result on is the finishing step |
| Kernel.ConstrailKernel.ReplayApproved | src/constrail/kernel_v2.py:360-386 | replay_approved up to the policy call is the replay-start step, and it starts exactly when the approval is approved and not expired |
| Kernel.ConstrailKernel.ResumeReplay | src/constrail/kernel_v2.py:387-393 | The replay reaches the broker with its forced decision |
| Kernel.ConstrailKernel.CompleteReplay | src/constrail/kernel_v2.py:394-435 | The replay is audited with its approval and answered |
| Kernel.ConstrailKernel.Decide | src/constrail/approval.py:111-142 | A human decision is the review step |

## Left out

- FastAPI routes, Click commands, metrics, response models and the serve loop of the command line: they pass data along.
- SQLAlchemy sessions, Alembic migrations and the GUID type: tables are sequences ordered by their time column, maps or sets. Order among equal stamps is free in the audit log; the outbox is addressed by position in created_at order, so its stamps are taken to be non-decreasing.
- SHA-256, HMAC signatures, JSON encoding and the round trip of parameters and scores through the database: the digest is a function of the payload, and stored values read back as written.
- JWT minting, checking and key rotation: the auth entry of a request is an input.
- Sandbox processes, the HTTP adapter, the policy server's transport, real file operations, symbolic links and NUL bytes in paths: their outcomes are inputs, and path resolution is that of a symlink-free tree. The sandbox execution records are not part of this model.
- The broker's adapter table and result metadata: the table is fixed to the six registered tools, and `KernelSpec.Dispatches` is its decision dispatch.
- Host extraction from a URL: a function parameter of the capability check.
- Floating-point rounding: real arithmetic; the score bounds that separate two levels are at least 0.01 away from the threshold between them.
- Letters outside ASCII in str.lower and str.strip.
- Negative SQL limits for drains and lookback.
- Failing database commits other than those of audit rows: a failed commit in the approval service or the rate limiter raises out of the request and is not a step.
- Several clock readings within one call: one reading per step.
- Interleaving inside a step: between two awaits the code does not yield on one event loop. Separate processes are treated for the audit log by `AuditChain.RacingWritersBreak` and for the limiter, prunes included, by `RateLimit.WindowBound` and `RateLimit.PrunedWindowBound`.
- Event pruning and the bounded worker as steps of kernel runs: they are treated in RateLimit and Worker.
- capability_store.py: the enforcement path does not read it.
- Columns that are stored and never read by the modelled code: policy evaluation, capability fingerprint, policy mode and end time.
- Fields of the response other than its decision, and explanation texts of assessments.
- list_events, list_requests, get_allowed_tools, reload and the policy explanation: simple queries.
- Which exception a capability check raises: a verdict only says that it does.
- The contents of the error column, the approver column and the policy decision of an audit row beyond what the hash covers.
