# Verified model of the gateway's stateful core

The gateway puts one OpenAI- and Anthropic-compatible front end before many upstream
providers. This project models the parts of it that carry state and branching, and
proves what they keep. Time, randomness, the network, encryption and the database are
parameters: every step meets an arbitrary value chosen in advance, and a store write or
a deadline may fail at will.

| file | content |
|---|---|
| `Outcomes.dfy` | classification of an attempt's result, and the decision drawn from it |
| `Reservations.dfy`, `Leases.dfy` | lifetime quota with its durable lease, the per-minute token window, the finalizer; leases swept while their request runs |
| `Probes.dfy` | target circuit breaker with its single half-open probe slot, shared with other requests |
| `Chain.dfy`, `Lane.dfy` | one request: admission, the candidate chain, the final settlement |
| `Watchdog.dfy` | first-token and idle watchdogs of a stream, as interleaved steps |
| `Throttle.dfy`, `ThrottleRuns.dfy` | the login throttle, and its behaviour over whole runs |
| `Import.dfy`, `ImportRun.dfy`, `ImportLaws.dfy`, `ImportRows.dfy` | configuration import: what it computes, how it runs, what it promises, and which row each entry of the file becomes |
| `Cidr.dfy`, `KeyPatch.dfy`, `KeyLaws.dfy` | address prefixes, changing an access key, and why an owner can only tighten it |
| `Effort.dfy` | the thinking-effort ladder |
| `Turns.dfy`, `Replay.dfy`, `Tools.dfy` | Responses items folded into turns, the replay gate, tool flattening and forced choice |
| `Shutdown.dfy` | worker registration and the order in which the process stops |
| `Slugs.dfy`, `Text.dfy`, `Lists.dfy`, `Options.dfy` | slugs, strings, filtering and counting, optional values |

## What the proofs found

Where the code and a property people expect of it part, the model follows the code and
the exact condition is proved.

- A gateway timeout is a committed decision even when nothing was written. Such a
  request leaves through the committed exit without a response, without a usage row and
  with everything it reserved still reserved (`Lane.Request.Handle`, `QuotaStranded`).
  The usage status such an error carries is `error`, not `timeout`
  (`Outcomes.ExpiredBudgetStatus`).
- If the key's lease was written and the user's lease write was lost, the owned release
  forgets both amounts and the user's reservation stays
  (`Reservations.ReturnsExactlyUnlessLeaseLost`).
- A level falls below what other requests hold exactly if its lease is swept before the
  request finalizes and the request then finalizes after all
  (`Leases.SweptLeaseIsReturnedTwice`). That needs a request that finalizes once its lease
  has run out (`Leases.TwiceNeedsAnExpiredLease`). A lease lasts 30 minutes and is written
  before the request's context is given its budget, which is at most 30 minutes as well:
  a request that finalizes within its budget is safe exactly if the budget is no longer
  than what the lease has left when the budget starts (`Leases.BudgetAgainstLease`).
- A target that has failed once, below the threshold, already lets in one request at a time,
  where the comment at internal/upstream/upstream.go:730 speaks of targets that were never
  shut off (`Probes.BreakerOpensAtThreshold`).
- The balance preflight is documented to see the exact set the lane may attempt. It does
  exactly when nothing it saw was filtered out or nothing beyond it was kept
  (`Chain.PreflightCoversExactly`).
- The idle watchdog guards a served stream exactly in the runs in which no callback of the
  last event's timer finds that event too young (`Watchdog.GuardedExactly`); a wall clock
  that keeps up with the monotonic one rules that out (`Watchdog.SteadyNeverDisarms`), one
  that is set back does not (`Watchdog.ClockSetBackDisarms`). It re-checks the last event
  before it closes, which still leaves a race: unless the wall clock is set back in between,
  a stream is cut on a young event only if that event came after the callback had looked,
  and always then if the callback went from its look to the close within the interval
  (`Watchdog.FreshEventIsCutExactly`, with the run `Watchdog.LateEventIsCut`).
- The dry run of an import knows only the providers of the file, the real run also those
  of the database. The two reports agree exactly when no model or credential is a stray
  (`ImportLaws.DryRunPredictsExactly`).
- An owner's change without a model list rewrites a corrupt model column, which denied
  everything, as no list at all; and an address text of separators only, which an import
  can store, also denies everything but counts as unrestricted for the guard. Owners can
  only tighten exactly the keys in neither state (`KeyLaws.OwnerOnlyTightensExactly`).
- The usage recorder closes its done channel before the goroutine that watches it lowers
  the worker counter, and nobody waits for that goroutine: the store may stay open after
  a shutdown in which no deadline expired (`Shutdown.StoreMayStayOpen`), and is closed
  exactly if main finds the watcher gone at the barrier (`Shutdown.StoreClosesExactly`).
- A forced tool group without tools is rewritten to any tool whose name begins like the
  group's (`Tools.GroupChoiceStaysInside`), and a forced function that no group brings is
  rewritten to whatever tool is called like a group and that name
  (`Tools.FunctionChoiceIsReal`, `Tools.EmptyGroupLendsItsName`).
- Two groups can flatten to one name, contrary to the comment at
  internal/inwire/openai_responses.go:409 (`Tools.GroupsMayCollide`): exactly if one name is
  the other followed by an underscore, or by two and anything more
  (`Tools.GroupsCollideExactly`).
- Normalizing an outcome twice differs from normalizing it once for one legacy form; the
  decision never differs (`Outcomes.NormalizeTwice`).

## Model

| member | source | states |
|---|---|---|
| Lane.Request.Handle | internal/dataplane/handler.go:306-903 | for every candidate list and every oracle: at most one head, one row and one token correction; turns in chain order, at most `limit`; every turn before the last called for another one, and the last decides the way out; each decision is the one its attempt calls for, and the row, the head and the correction are told cause by cause, for an answer as for a failed chain, without reference to the functions that compute them; every probe claim settled once in its own turn, its slot free at the end, and never held again under that token whatever calls follow; refused with a status exactly as admission says; whatever other requests reserve and return meanwhile, both quota levels end at exactly their share (the user's unless its lease was lost) on every exit but the expired budget, which is reached exactly when the last attempt's budget ran out before it wrote; the token window ends as other requests left it with a granted estimate replaced by known usage, or untouched when usage is missing; after a refusal it is untouched, or filled by an estimate that could never fit |
| Chain.TriedTells | internal/dataplane/handler.go:1056-1672 | every decision cause by cause: an answer is final and blames a streamed target for error and truncation alone; a failure is retried and blamed exactly if it is worth another target and the request is alive |
| Chain.TurnAnswerTells | internal/dataplane/handler.go:1320-1405 | the row, head and correction of an attempt that wrote, from how its stream or its write ended |
| Chain.ChainFailureTells | internal/dataplane/handler.go:818-902 | the row of a failed chain: departure and budget outrank the last setback, which keeps its status and code, never 200 and never none |
| Chain.ActiveExactly | internal/dataplane/handler.go:578-630 | exactly which candidates are kept, and that the loop walks the first of them up to the limit |
| Chain.SlotRefusedExactly | internal/dataplane/handler.go:665-690 | a turn is skipped exactly with the breaker in use and the target cooling or probed in its current cycle |
| Chain.RefusalTells | internal/dataplane/handler.go:342-566 | each refusal status from its cause, in the order of the checks |
| Lane.Request.OthersMove | internal/dataplane/handler.go:342-456 | what other requests reserve or return leaves this request's own part of both totals as it is |
| Chain.WindowCountsUsage | internal/dataplane/handler.go:1509-1530 | within one minute the window ends at what others count in it plus known usage, or plus the estimate when usage is missing |
| Chain.LaterWindowCountsTheExcess | internal/ratelimit/limiter.go:134-150 | in a later minute only usage beyond the estimate is counted |
| Lane.Request.AdmitRequest | internal/dataplane/handler.go:342-566 | refused exactly for a full quota, a full window, a denied model or an empty balance, in that order, with that status; each refusal after a reservation has put both levels through one finalization; otherwise the books hold exactly what was granted |
| Lane.Request.ReserveKeyQuota | internal/dataplane/handler.go:342-399 | a full quota finalizes what was taken before, a grant is recorded once |
| Lane.Request.ReserveUserQuota | internal/dataplane/handler.go:400-456 | the same for the owner's quota |
| Lane.Request.ReserveWindow | internal/dataplane/handler.go:457-473 | the window holds the estimate, or the quotas are released and the window estimate is not recorded |
| Lane.Request.SelectActive | internal/dataplane/handler.go:572-630 | breaker filter with its fallback, protocol filter, budget cut, in that order |
| Lane.Request.WalkChain | internal/dataplane/handler.go:647-816 | the loop ends open with no committed decision at the end of the chain or at a failure not to be retried, or through an exit whose state is fixed; it never stops while a turn moves on and a candidate is left |
| Lane.Request.RunChain | internal/dataplane/handler.go:647-902 | the chain ends in one of four states: gone, answered by its last attempt, out of budget unanswered, or answered once for the whole chain with the last turn's outcome |
| Chain.BudgetTurnIsCommitted | internal/dataplane/outcome.go:299-306 | an attempt whose budget ran out unwritten always counts as committed |
| Lane.Request.TryCandidate | internal/dataplane/handler.go:647-811 | one turn's fate fits its oracle, and leaves either nothing on the pool, or one record, or one claim settled under its own token; recorded exactly if the decision is committed or blames the target |
| Lane.Request.PursueTarget | internal/dataplane/handler.go:665-811 | a living turn is skipped exactly when the breaker is in use and the pool refuses the slot |
| Lane.Request.Attempt | internal/dataplane/handler.go:755-811 | a committed decision leaves at once, an ineligible one or the last candidate stops the loop, anything else moves on |
| Lane.Request.TakeProbe | internal/dataplane/handler.go:665-711 | a slot is claimed exactly with failover on, a threshold and a slot to give; the turn is skipped exactly when the breaker has none; no claim, no duty |
| Lane.Request.SettleProbe | internal/dataplane/handler.go:765-807 | committed or blaming decisions are recorded as success or failure, any other hands back its claim, never both; the pool is exactly what that leaves after the other requests' calls |
| Lane.Request.AttemptStream | internal/dataplane/handler.go:1046-1107 | classified as its oracle says; only an attempt that received an event writes head, row and correction, the row's status and code being those of write failure, expired budget, stream error and idle cut in that order; otherwise it is committed exactly when the budget expired |
| Lane.Request.AttemptNonStream | internal/dataplane/handler.go:1568-1672 | one head, one row with the terminal of the write, one correction, or nothing |
| Lane.Request.FinishEncodeFailure | internal/dataplane/handler.go:1675-1730 | a 500 with an error row, the window corrected to zero |
| Lane.Request.FinishWriteFailure | internal/dataplane/handler.go:1733-1831 | a canceled row after the 200, settled by known usage or left standing |
| Lane.Request.Settle | internal/dataplane/handler.go:1509-1530 | known usage corrects window and quota, missing usage returns the quota alone |
| Lane.Request.FinishUncommitted | internal/dataplane/handler.go:818-902 | one row, one non-200 response unless the client is gone, quota and window returned |
| Chain.PreflightCoversExactly | internal/dataplane/attempt_set.go:9-22 | attempted lies within preflighted if and only if nothing preflighted was dropped or nothing beyond was kept |
| Chain.AttemptsWhatWasNotPreflighted | internal/dataplane/handler.go:538-630 | a chain whose only attempt no balance check has seen |
| Outcomes.DecisionIgnoresNormalization | internal/dataplane/outcome.go:193-369 | the decision is the same before and after normalizing, for every outcome value |
| Outcomes.NormalizeTwice | internal/dataplane/outcome.go:193-248 | normalizing is idempotent exactly away from one legacy form |
| Outcomes.LaneAgreesWithLedger | internal/dataplane/handler.go:1320-1405 | every committed stream end: decision committed, success exactly for ok, penalty exactly for error and truncated, same status as the row |
| Outcomes.TerminalTells | internal/dataplane/handler.go:1320-1405 | each status and each code of a committed stream's row, if and only if its cause |
| Outcomes.WholeAgreesWithLedger | internal/dataplane/handler.go:1664-1831 | the same for whole responses, which never blame the target |
| Outcomes.DecisionIsCoherent | internal/dataplane/outcome.go:280-369 | no blame for success, departed clients or the gateway's own budget |
| Outcomes.DiagnosisIsCoherent | internal/dataplane/outcome.go:280-369 | trace and diagnosis say the same as the decision, for every outcome value |
| Outcomes.LegacyFlagsTell | internal/dataplane/outcome.go:193-278 | what the flags of an outcome without a kind decide, in their order of precedence |
| Outcomes.DeadContextIsFinal | internal/dataplane/outcome.go:373-470 | a dead context outranks the error: no retry, no blame, no cooldown |
| Outcomes.ExpiredBudgetStatus | internal/dataplane/outcome.go:373-415 | when an expired budget is recorded as a timeout, and that classified errors never are |
| Outcomes.UncommittedErrorIsCommittedIffExpired | internal/dataplane/outcome.go:299-306 | an unwritten failure counts as committed exactly when the budget expired |
| Reservations.NeverReleasesMore | internal/dataplane/rate.go:48-136 | neither level falls below the other requests' share, for any number of releases and any failures |
| Reservations.ReturnsExactlyUnlessLeaseLost | internal/dataplane/rate.go:64-190 | after one successful release everything is back, exactly unless the user's lease was lost |
| Reservations.FinalizationTells | internal/dataplane/rate.go:64-136 | what one finalization returns at each level, for every lease and every failure |
| Leases.SweptLeaseIsReturnedTwice | internal/store/reservation_recovery.go:111-224 | over every sequence of sweeps and finalizations with any failures: a level falls below the others' share if and only if its lease was swept before any finalization got through and a later one returns it again; it is then short by the whole amount |
| Leases.TwiceNeedsAnExpiredLease | internal/store/reservation_recovery.go:188-224 | such a run exists if and only if a finalization may come after the lease has run out |
| Leases.BudgetAgainstLease | internal/dataplane/policy.go:112-137 | within a request's budget such a run exists if and only if the budget is longer than what the lease has left; the longest budget is exactly if it starts in a later millisecond than the lease |
| Reservations.RateCommit.Commit | internal/dataplane/rate.go:48-62 | one window correction and one release |
| Reservations.RateCommit.ReleaseReserved | internal/dataplane/rate.go:64-111 | owned release, fallback when there is no lease, amounts kept on failure |
| Reservations.Limiter.Reserve | internal/ratelimit/limiter.go:106-132 | a reservation is granted exactly if it fits; one too large blocks the minute |
| Reservations.Limiter.Commit | internal/ratelimit/limiter.go:134-150 | the estimate is replaced by the actual usage, never below zero |
| Reservations.Store.ReleaseOwned | internal/store/reservation_recovery.go:111-186 | every open lease of the request is returned in one step, or nothing changes |
| Probes.AnyCallsKeep | internal/upstream/upstream.go:666-851 | tokens stay unique and only fresh ones appear, whatever other requests and reloads do |
| Probes.FreedStaysFree | internal/upstream/upstream.go:693-749 | a slot once freed never reappears under the same token |
| Probes.SettlementFrees | internal/upstream/upstream.go:751-838 | recording a result frees the slot of its token |
| Probes.Pool.ClaimTargetProbe | internal/upstream/upstream.go:693-749 | a claim is granted if and only if the target is unknown, or past its cooldown and either not recovering or without a probe of the current cycle |
| Probes.OneProbeAtATime | internal/upstream/upstream.go:693-851 | while a granted probe is out no other claim of the target is granted, whatever calls follow; the first that ends it lets the next one in as soon as no cooldown stands against it |
| Probes.BreakerOpensAtThreshold | internal/upstream/upstream.go:751-799 | below the threshold a target stays available, the failure that reaches it shuts it off for exactly one cooldown, and from the first failure on whoever gets in is a probe |
| Probes.PenaltyTells | internal/upstream/upstream.go:773-799 | what one failure does to count, cooldown, cycle and slot, and that it touches no other target |
| Probes.SuccessTells | internal/upstream/upstream.go:801-838 | what one success does, field by field |
| Probes.InstallTells | internal/upstream/upstream.go:490-545 | a reload drops what is gone, frees every slot and forgives nothing |
| Probes.Pool.RecordTargetFailure | internal/upstream/upstream.go:751-799 | counts, opens a new cycle at the threshold, frees only its own probe |
| Probes.Pool.RecordTargetSuccess | internal/upstream/upstream.go:801-838 | ends recovery only for the probe's own token outside a cooldown |
| Probes.Pool.ReleaseTargetProbe | internal/upstream/upstream.go:840-851 | a foreign or late token changes nothing |
| Watchdog.HeadMeansNoFirstTimeout | internal/dataplane/handler.go:1056-1120 | a run that writes the head never fires the first-token timer, before or after |
| Watchdog.TimeoutIsAwaited | internal/dataplane/handler.go:1070-1080 | a fired timer's close has landed before the attempt is judged, and the wait cannot block for ever |
| Watchdog.ClosedOnlyAfterIdleInterval | internal/dataplane/handler.go:1155-1178 | a stream being served is closed only by a callback that saw its last event a full interval old |
| Watchdog.GuardedExactly | internal/dataplane/handler.go:1155-1245 | in every run: while an open stream is served, the timer of its last event is armed, firing, or about to be reset, if and only if no callback of that timer ever finds the event too young |
| Watchdog.SteadyNeverDisarms | internal/dataplane/handler.go:1167-1178 | a wall clock that does not fall behind the monotonic one rules such a callback out |
| Watchdog.FreshEventIsCutExactly | internal/dataplane/handler.go:1155-1178 | for every closing in every run there is the load its callback made; if the wall clock is not set back between the two, a stream closed on an event younger than the interval had that event after the load, and conversely if less than the interval passed between the two |
| Watchdog.ClockSetBackDisarms | internal/dataplane/handler.go:1169-1172 | a run in which a wall clock set back lets a callback disarm and leaves the stream unguarded |
| Watchdog.LateEventIsCut | internal/dataplane/handler.go:1155-1178 | a run in which an event arriving between load and comparison does not save the stream |
| ThrottleRuns.RateBound | internal/guard/throttle.go:93-181 | at most (D/C + 2)(L + 3) failures of one key in any span D, for every limit of at least one |
| ThrottleRuns.GrantedBelowTheLimit | internal/guard/throttle.go:93-182 | over every run of the contract: with fewer failures than the limit an attempt is granted if and only if fewer than four are outstanding |
| ThrottleRuns.LimitStartsTheCooldown | internal/guard/throttle.go:156-182 | the failure that reaches the limit refuses the key for exactly one cooldown |
| ThrottleRuns.ReachableStateBounds | internal/guard/throttle.go:93-256 | count below the limit, in-flight slots between 0 and 4, table size bounded by the Allow calls since the last sweep |
| ThrottleRuns.KeyIsIndependent | internal/guard/throttle.go:93-196 | a key that is not evicted sees only its own calls |
| Throttle.FailureThrottle.AllowAttempt | internal/guard/throttle.go:93-117 | granted if and only if the key is unknown, or past its cooldown and below the cap; takes exactly one slot when granted and changes nothing otherwise |
| Throttle.FailureThrottle.FailAttempt | internal/guard/throttle.go:156-182 | gives the slot back, counts, and starts a cooldown at the limit |
| Throttle.FailureThrottle.ReleaseAttempt | internal/guard/throttle.go:119-134 | gives the slot back without counting |
| Throttle.FailureThrottle.SucceedAttempt | internal/guard/throttle.go:184-196 | forgets failures and cooldown, keeps slots in flight |
| Throttle.FailTells | internal/guard/throttle.go:156-182 | what one failure leaves of count, cooldown and slots |
| Throttle.ReleaseTells | internal/guard/throttle.go:119-134 | what one release leaves, and when the entry goes |
| Throttle.SuccessTells | internal/guard/throttle.go:184-196 | a success forgets failures and cooldown and leaves the slots in flight |
| Throttle.FailureThrottle.RetryAfter | internal/guard/throttle.go:136-154 | the time left, and zero exactly when not cooling |
| Throttle.FailureThrottle.WithoutConcurrencyCap | internal/guard/throttle.go:73-80 | lifts the cap in every valid state and keeps all other promises |
| Throttle.FailureThrottle.Sweep | internal/guard/throttle.go:204-256 | whatever the iteration order, a sweep of a full table leaves less than half of it |
| ImportLaws.DryRunPredictsExactly | internal/admin/config_transfer_handler.go:572-641 | with all writes landing, the two reports are equal if and only if no model or credential is a stray |
| ImportLaws.DryRunPredicts | internal/admin/config_transfer_handler.go:572-641 | they are equal when every model and credential names a provider the file supplies |
| ImportLaws.ImportOnlyAdds | internal/admin/config_transfer_handler.go:600-637 | every table keeps its rows and grows at the end; slugs and identities stay distinct |
| ImportLaws.ModelsFollowTheFile | internal/admin/config_transfer_handler.go:739-841 | a created model sits under the last accepted file provider of its slug, never under an older one |
| ImportLaws.RoutesAreWhole | internal/admin/config_transfer_identities.go:264-382 | targets at positions 0 to n-1 over models of their own provider, the head equal to position 0 |
| ImportLaws.IdsAreTwins | internal/admin/config_transfer_handler.go:572-604 | placeholder and generated identities correspond one to one and touch nothing existing |
| ImportRows.PeopleFollowTheFile | internal/admin/config_transfer_identities.go:66-254 | groups, users and keys added are exactly, and in order, those of the first sound entry of each name or hash not stored yet, each with its own switch and with the user and group of the merged database it names; created and skipped add up to the entries |
| ImportRows.ProvidersFollowTheFile | internal/admin/config_transfer_handler.go:488-604 | providers added are exactly the usable entries, under their own slug or the first free number of it, and the renames are exactly those of slugs in use |
| ImportRows.AttachmentsFollowTheFile | internal/admin/config_transfer_handler.go:739-895 | models and credentials added are exactly those of the sound entries of known providers, and what counts as skipped |
| ImportRows.RoutesFollowTheFile | internal/admin/config_transfer_identities.go:264-382 | routes added are exactly the first named ones whose every target is known, headed by their first target, each target with its place and switch |
| ImportRows.UndoneExactly | internal/admin/config_transfer_handler.go:600-637 | a real run is undone if and only if a write fails for an entry that becomes a provider, group, user, key or route |
| ImportRows.RefusedExactly | internal/admin/config_transfer_handler.go:488-530 | a file is refused if and only if a provider with a name has an unknown protocol |
| ImportRun.Transfer.Apply | internal/admin/config_transfer_handler.go:426-641 | the report and the merged database, or no change at all after a bad protocol or a failed hard write; which rows those are is told entry by entry in `ImportRows` |
| ImportRun.Transfer.PlanProviders | internal/admin/config_transfer_handler.go:488-566 | names are taken and renamed before a provider is found unusable |
| ImportRun.Transfer.AttachModels | internal/admin/config_transfer_handler.go:739-841 | first sound entry per key whose provider is known; everything else counts as skipped |
| ImportRun.Transfer.AttachCredentials | internal/admin/config_transfer_handler.go:843-895 | created, skipped or passed over in silence, as each entry deserves |
| ImportRun.Transfer.ImportGroups | internal/admin/config_transfer_identities.go:66-99 | groups by name, existing ones untouched |
| ImportRun.Transfer.ImportUsers | internal/admin/config_transfer_identities.go:101-169 | users by canonical name, existing ones untouched |
| ImportRun.Transfer.ImportKeys | internal/admin/config_transfer_identities.go:171-254 | the loop computes the keys added, the row of each entry being the one of `ImportRows.PeopleFollowTheFile`; a failed write stops it |
| ImportRun.Transfer.ImportRoutes | internal/admin/config_transfer_identities.go:264-382 | a route is written whole with its chain, or skipped |
| KeyLaws.OwnerOnlyTightensExactly | internal/admin/key_handler.go:408-746 | over every run of accepted owner changes nothing new is admitted and no limit rises, exactly for rows that are sound or closed for good |
| KeyLaws.SoundChangeTightens | internal/admin/key_handler.go:437-565 | one accepted change of a sound row only narrows it and leaves it sound |
| KeyLaws.TighteningIsAccepted | internal/admin/key_handler.go:408-565 | the owner gets a change accepted if and only if its values make sense, it sends no group and it widens nothing, address prefixes compared as sets of addresses |
| KeyLaws.OwnerVerdictExactly | internal/admin/key_handler.go:602-744 | the owner's answer: forbidden, bad, forbidden for a group, or done, in that order |
| KeyLaws.OtherVerdictsExactly | internal/admin/key_handler.go:602-744 | the answers to administrators, strangers and the unauthenticated |
| KeyLaws.ChangeLeaves | internal/admin/key_handler.go:602-744 | every field of the row after an accepted change |
| KeyLaws.ChangeGrants | internal/admin/key_handler.go:660-700 | the models granted after an accepted change |
| KeyLaws.LimitsNeverRise | internal/admin/key_handler.go:497-512 | quota, RPM and TPM never rise, 0 read as unlimited, in any state of the row |
| KeyLaws.GuardAloneLetsBlanksThrough | internal/admin/group_handler.go:512-551 | the guard passes a list of blanks that would be stored as no list; the value check refuses it |
| KeyLaws.EncodedGrants | internal/store/key_dao.go:187-224 | writing a list and reading it back grants the same names unless nothing is left of it |
| KeyPatch.KeyHandler.Update | internal/admin/key_handler.go:602-746 | status and resulting row of a change, for owners and administrators |
| KeyPatch.KeyHandler.GuardNoLoosening | internal/admin/key_handler.go:437-473 | decides exactly the tightening rules, which `KeyLaws.TighteningIsAccepted` states without them |
| KeyPatch.KeyHandler.IpAllowlistWidened | internal/admin/key_handler.go:526-565 | passes exactly when every new prefix lies in an old one |
| KeyPatch.KeyHandler.ModelAllowlistCanTighten | internal/admin/key_handler.go:475-495 | passes exactly when every named model was listed |
| KeyPatch.KeyHandler.ValidateModelAllowlist | internal/admin/group_handler.go:491-551 | passes exactly lists of known names without blanks |
| KeyPatch.KeyHandler.ApplyP2 | internal/admin/key_handler.go:352-406 | expiry, addresses and group with their refusals |
| Cidr.CoversExactly | internal/admin/key_handler.go:552-559 | the test on bits and first address decides inclusion of address sets, in both directions |
| Cidr.ContainsExactly | internal/snapshot/snapshot.go:220-236 | a prefix matches the addresses of its family that agree above its length, none with a zone |
| Cidr.UnmappedExactly | internal/snapshot/snapshot.go:220-236 | exactly the mapped IPv4 addresses are unwrapped, to their last 32 bits |
| Cidr.ReachableExactly | internal/snapshot/snapshot.go:220-236 | a prefix matches somebody exactly unless it lies in the mapped IPv4 block |
| Effort.ParseFormatRoundTrip | internal/effort/effort.go:122-171 | parsing what was formatted gives both lists back, for any text; known increasing, unknown distinct |
| Effort.ParsedExactly | internal/effort/effort.go:130-152 | a list names exactly the levels some part of it spells, and exactly the other parts that spell none |
| Effort.ParsesExactly | internal/effort/effort.go:93-121 | the spellings of each level |
| Effort.ParseLevels | internal/effort/effort.go:130-152 | the loop computes the parsed lists |
| Effort.ClampIsNearest | internal/effort/effort.go:173-229 | a ranked member, the nearest, the stronger of two as near, whenever there is one |
| Effort.ClampIsMonotone | internal/effort/effort.go:201-229 | a stronger request is never clamped to a weaker level |
| Effort.ClampIsIdempotent | internal/effort/effort.go:201-229 | clamping twice is clamping once |
| Effort.ClampIgnoresOrder | internal/effort/effort.go:201-229 | only the members of the list matter |
| Effort.Clamp | internal/effort/effort.go:201-229 | the loop computes the clamped level |
| Effort.SentLevelIsConfigured | internal/ingress/request.go:72-153 | a ranked level sent to a target that is not Anthropic is a configured one, and the one reported |
| Effort.AppliedExactly | internal/ingress/request.go:72-121 | what a request's thinking becomes, case by case |
| Effort.CoarseExactly | internal/effort/effort.go:263-276 | the three steps level by level |
| Effort.ChatRequest.ApplyThinkingCapability | internal/ingress/request.go:72-121 | the thinking fields after the capability of the model |
| Effort.ThinkingLevelsAgree | internal/effort/effort.go:263-333 | the two tables to three levels agree on every ranked level |
| Effort.CoarseKeepsOrder | internal/effort/effort.go:263-276 | a stronger level never folds to a weaker one of the three |
| Turns.ConversionKeepsAll | internal/inwire/openai_responses.go:749-909 | the sequence of contributed blocks with their roles is preserved in order, each item's contribution told by its kind |
| Turns.BoundariesStand | internal/inwire/openai_responses.go:788-907 | what is not the assistant's stays a message of its own, in order |
| Turns.NoEmptyTurn | internal/inwire/openai_responses.go:771-786 | no assistant message without blocks |
| Turns.AdjacentOnlyAcrossBlank | internal/inwire/openai_responses.go:788-907 | two assistant messages in a row only across an item that contributed none |
| Turns.ChatRequest.ToRosetta | internal/inwire/openai_responses.go:749-909 | the loop computes the folded messages |
| Replay.GateIsIdempotent | internal/dataplane/replay.go:27-91 | a second pass changes nothing |
| Replay.GateOnlyDropsThoughts | internal/dataplane/replay.go:27-91 | other messages untouched, every spoken text and every call kept in order |
| Replay.GatedIsPlayable | internal/dataplane/replay.go:27-91 | what remains is replayable, and for chat no turn is thoughts alone |
| Replay.KeptExactly | internal/dataplane/replay.go:27-91 | which blocks of a turn are kept, for each protocol |
| Replay.DroppedExactly | internal/dataplane/replay.go:27-91 | when an assistant turn goes altogether, and what is left of one that stays |
| Replay.ApplyReplayGate | internal/dataplane/replay.go:27-91 | the loops compute the gated messages |
| Tools.RewriteFunctionChoice | internal/inwire/openai_responses.go:593-648 | rewritten exactly when the name is gone and one candidate is left |
| Tools.ChosenExactly | internal/inwire/openai_responses.go:612-641 | a plain name stands for one tool if and only if one name of the table is a group's name, two underscores and the plain name |
| Tools.FunctionChoiceIsReal | internal/inwire/openai_responses.go:615-648 | a rewritten choice is a tool that some group brought under that name if and only if some group has a tool of that name |
| Tools.EmptyGroupLendsItsName | internal/inwire/openai_responses.go:615-648 | a choice rewritten to a plain tool although no group brings any |
| Tools.RewriteNamespaceChoice | internal/inwire/openai_responses.go:672-694 | rewritten exactly when one flattened name has the prefix |
| Tools.GroupChosenExactly | internal/inwire/openai_responses.go:672-694 | a group stands for one tool if and only if one name of the table begins like it |
| Tools.GroupChoiceStaysInside | internal/inwire/openai_responses.go:650-694 | the rewritten choice is a tool of the group if and only if the group has one |
| Tools.FlattenNamespaceTools | internal/inwire/openai_responses.go:393-419 | every tool is kept, in order, under its qualified name |
| Tools.FlattenedOne | internal/inwire/openai_responses.go:393-419 | what one tool or group contributes to the table |
| Tools.FlattenedInOrder | internal/inwire/openai_responses.go:393-419 | the table follows the order of the request |
| Tools.GroupsMayCollide | internal/inwire/openai_responses.go:403-413 | a family of pairs of groups that flatten to the same name |
| Tools.GroupsCollideExactly | internal/inwire/openai_responses.go:403-413 | two groups can flatten to one name if and only if one group's name is the other's followed by an underscore, or by two and anything more |
| Tools.ApartNamesAreUnique | internal/inwire/openai_responses.go:403-413 | between other groups a flattened name stands for one tool of one group |
| Shutdown.StoreClosesLast | internal/gatewayapp/run.go:299-346 | the counter is never negative, and the store closes only after every registered worker has left and the recorder has stopped |
| Shutdown.BarrierHangsOnTheWatcher | internal/gatewayapp/run.go:211-215 | with every wait in time, the barrier opens exactly if the recorder's watcher has gone |
| Shutdown.StoreClosesExactly | internal/gatewayapp/run.go:299-346 | a process that has returned has closed its store if and only if main came to the barrier with every wait in time and found the watcher gone |
| Shutdown.StoreMayStayOpen | internal/gatewayapp/run.go:312-346 | a shutdown without an expired deadline that leaves the store open |
| Shutdown.MainKeepsPlace | internal/gatewayapp/serve.go:87-138 | workers are registered in program order and none once stopping has begun |
| Slugs.SlugifiedIsShaped | internal/admin/provider_handler.go:560-587 | 1 to 32 characters, letters, digits and single inner dashes |
| Slugs.SlugifyIsIdempotent | internal/admin/provider_handler.go:560-587 | a slug is its own slug |
| Slugs.SlugifiedExactly | internal/admin/provider_handler.go:560-587 | a slug is the name's words in lower case with single dashes between them, cut to 32 characters but not after a dash; without words it is "provider" |
| Slugs.Slugify | internal/admin/provider_handler.go:560-587 | the loop computes the slug |
| Slugs.UniqueSlug | internal/admin/config_transfer_handler.go:904-914 | ends with a free name, the first one in suffix order |
| Slugs.UniqueProviderSlug | internal/admin/provider_handler.go:535-558 | ends with a free name of at most 32 characters unless a lookup fails, and with the first free candidate |
| Slugs.CandidateTells | internal/admin/provider_handler.go:545-555 | the number goes after the name where it fits, cuts a name of full length, and gives way to the digest in between |
| Slugs.CandidatesDiffer | internal/admin/provider_handler.go:545-555 | cut, numbered or hashed, no two candidates coincide |

## Left out

- Lane.Request.AdmitRequest: the stages before reservation (authentication, RPM, decoding, the stream slot limit), logging, diagnostics and route-trace texts; they reserve nothing.
- Lane.Request.Handle: what other requests do to the totals is taken to return no more than they hold, and all of it between two of this request's own calls is one move; sweeps are in `Leases` and not interleaved here.
- Chain.ChainFailureTells: the context is read anew at each step, so a client seen to be gone by the last attempt is taken to be gone at the end as well.
- Lane.Request.AttemptStream: reaching the client, bytes, sinks and heartbeats are not modelled; the end of a stream is an oracle, and its watchdogs are in `Watchdog`.
- Reservations.Limiter.Reserve: one key's token window only; RPM and the sweep of idle buckets are left out.
- Leases.SweptLeaseIsReturnedTwice: other requests' moves are not interleaved with sweeps; times are whole milliseconds.
- Reservations.ReturnsExactlyUnlessLeaseLost: amounts are unbounded integers, where the columns and counters are 64-bit.
- Probes.Pool.ClaimTargetProbe: tokens are unbounded; the 64-bit counter would have to wrap to repeat one. Credential health and cooldowns are left out.
- Watchdog.GuardedExactly: the heartbeat goroutine and the downstream writer are not part of the system; one wall clock and one monotonic clock stand for the runtime's.
- ThrottleRuns.RateBound: holds for callers that follow the documented contract of one `Fail` or `Release` per granted `Allow`; the login handler calls both after some failures.
- ImportRun.Transfer.Apply: networks, model groups, prices, passwords, balances and other fields that are copied unchanged, and the notes and warnings of the report; reads of the store succeed, and encrypting an access key counts as part of writing it.
- ImportLaws.DryRunPredictsExactly: the validation of a protocol and the parsing of an effort list are given with each entry; a route and its targets are written or fail together.
- KeyPatch.KeyHandler.Update: the text of addresses is given parsed, the order of a stored model list is not kept, store failures change nothing and are not shown, and concurrent changes of one key are taken one after another.
- KeyLaws.OwnerOnlyTightensExactly: the owner's account, the group's list and the administrator's own changes are outside the runs.
- Effort.ParseLevels: strings are sequences of characters, so text that is not valid UTF-8 is not represented; letters lower-cased beyond what can meet an alias stay as they are.
- Turns.ChatRequest.ToRosetta: request fields outside the conversation, and decoding of item content, which arrives as text and media.
- Tools.FlattenNamespaceTools: descriptions and parameter schemas of tools.
- Shutdown.StoreClosesLast: HTTP handlers in flight are not registered workers and are not part of the system.
- Slugs.UniqueProviderSlug: the digest is any function that yields distinct strings of letters and digits for distinct counters.
- Failover configuration, routing resolution, billing, usage statistics, the admin surface and the web UI are not part of this model.
