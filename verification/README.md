# Reality layer: a verified model

The reality layer is a small event-sourced control plane. `WorldStateService` compiles observations from several
connectors into entity states and appends hash-linked commits; `ActionService` takes an order cancellation from proposal
over approval and provider write to verification and keeps a hash-linked event log per action; `VerifierWorker` re-reads
the order until there is a verdict; `reality_git` hashes and validates the chains. This project models these parts in
Dafny and proves what they keep over every run.

## How it is laid out

- `StringOrder`, `JsonValues`, `JsonReader`, `NormalForm`: canonical JSON, a reader that inverts the printer, and the
  normal-form and hash theorems.
- `Links`, `Chains`: what a hash link is, the two chain validators and tamper evidence. `ServiceChains`: the chains that
  the services write are the chains that the validators accept.
- `WorldModel`: every operation of `WorldStateService` as a function on a value. `WorldStateService`: the class, with its
  dictionaries updated in place and each open conflict one object shared by two dictionaries; each method is proved to
  do to the value exactly what the function does. `WorldEffects` tells, case by case, what one operation does; `Lineage`,
  `CommitLog`, `ConflictIndex`, `CrossSource`, `Hydration`, `Projection`, `WorldTenants`: theorems about all runs. `ClockWitness`: a run on which rehydration fails.
- `ActionModel` and `ActionService`: the same pair for the action lifecycle. `ActionEffects` tells, case by case, what one
  operation does, and what a refusal rules out for good; `ActionLog` (the lifecycle automaton and its language), `ActionRuns` (the invariant of all runs), `Recovery`, `ActionSafety`, `ActionProof`, `ActionTenants`: theorems
  about all runs, restarts included, whatever receipts the provider gives. `Witnesses`: runs on which recovery differs.
- `Backoff`, `Polling`, `VerifierWorker`: the timing of the polling loop, the loop as a function of what it reads, and
  the class that runs it over the two services.

A run is a sequence of operations, each with the values that the code draws from outside: uuids, clock readings, the state
of the order, the answer of the provider. uuid4 is taken never to repeat (`FreshDraws`, `Possible`), and a restart is always
possible. Whatever else a theorem needs stands in its own precondition: `RestartsEcho` where the conclusion is about the
service's table of receipts, `ForwardClock`, `ReadsLater` and `Advances` where it is about clocks, `TrueHash` where a state is
loaded with a hash. `hash_json` is a function parameter of the services; the theorems that need it to be free of collisions
say `Injective`.

## Model

| member | source | states |
|---|---|---|
| NormalForm.AcceptsExactlySupported | src/reality_layer/reality_git/hashing.py:10-25 | the values that canonicalise are exactly the finite JSON-like ones; all others raise |
| NormalForm.CanonicalIffEquivalent | src/reality_layer/reality_git/hashing.py:10-25 | two values have the same canonical form exactly when they are equal up to dictionary order at every depth |
| StringOrder.LessByCodePoint | src/reality_layer/reality_git/hashing.py:12 | names are sorted by code point at the first difference, or by length |
| NormalForm.CanonicalizeIsIdempotent | src/reality_layer/reality_git/hashing.py:10-25 | canonicalising a canonical value, its entries in any order, changes nothing |
| NormalForm.TextIffEquivalent | src/reality_layer/reality_git/hashing.py:28-35 | same canonical text if and only if equal up to dictionary order at every depth |
| NormalForm.InsertionOrderIsIrrelevant | src/reality_layer/reality_git/hashing.py:12 | a dictionary filled in another order has the same text |
| JsonReader.ReadInvertsText | src/reality_layer/reality_git/hashing.py:28-35 | a reader that takes no control character unescaped recovers every value from its text, whatever well-delimited text follows (sections 4, 5 and 7 of RFC 8259) |
| JsonReader.TextIsInjective | src/reality_layer/reality_git/hashing.py:28-35 | the compact text determines the value |
| JsonReader.StringRoundTrip | src/reality_layer/reality_git/hashing.py:29-35 | an escaped string reads back as itself, and reading stops at its closing quote |
| NormalForm.HashIffEquivalent | src/reality_layer/reality_git/hashing.py:38-40 | under a collision-free digest, equal hashes mean equal values up to dictionary order, and conversely |
| NormalForm.HashIsOfCanonicalForm | src/reality_layer/reality_git/hashing.py:38-40 | the hash of a value is that of its canonical form |
| NormalForm.JsonHashIsInjective | src/reality_layer/reality_git/hashing.py:38-40 | the hash of JSON values is collision-free if the digest is |
| Chains.ValidateCommitChain | src/reality_layer/reality_git/validation.py:8-31 | no fault exactly for a valid chain; otherwise the first faulty record is named, a broken link before a wrong hash |
| Chains.ValidateEventChain | src/reality_layer/reality_git/validation.py:34-53 | the same for action events |
| Chains.CommitDocumentIsInjective | src/reality_layer/reality_git/validation.py:15-27 | the hashed commit document loses nothing of the content |
| Chains.EventDocumentIsInjective | src/reality_layer/reality_git/validation.py:40-49 | the hashed event document loses nothing of the content |
| Chains.EventChainTamperEvident | src/reality_layer/reality_git/validation.py:34-53 | two validating event chains with the same last hash are equal in every field |
| Chains.CommitChainTamperEvident | src/reality_layer/reality_git/validation.py:8-31 | against a valid commit chain, another validates with the same last hash exactly when they agree up to assurance levels |
| Chains.CommitHashesAreDistinct | src/reality_layer/reality_git/validation.py:8-31 | no two commits of a valid chain share a hash |
| Chains.EventHashesAreDistinct | src/reality_layer/reality_git/validation.py:34-53 | no two events of a valid chain share a hash |
| Chains.ValidCommitSelectionIsPrefix | src/reality_layer/reality_git/validation.py:8-31 | any validating subsequence, reordering or repetition of a valid commit chain is a prefix of it |
| Chains.ValidEventSelectionIsPrefix | src/reality_layer/reality_git/validation.py:34-53 | the same for events |
| ServiceChains.ListedCommitsValidate | src/reality_layer/world_state/service.py:105-139 | in every reached state, what `list_commits` returns passes `validate_commit_chain` |
| ServiceChains.CommitDocumentTells | src/reality_layer/world_state/service.py:105-119 | the hashed document of a commit has exactly the fields that the source lists, each with what the commit says |
| ServiceChains.ListedCommitsAreTamperEvident | src/reality_layer/world_state/service.py:389-413 | a chain ending in the hash of the last commit validates exactly when it is the tenant's history up to assurance levels |
| ServiceChains.EventLogsValidate | src/reality_layer/actions/service.py:534-567 | after any run, restarts included, each action's log passes `validate_event_chain` |
| ServiceChains.TextsTellApart | src/reality_layer/actions/service.py:546-556 | the texts of roles and event types tell them apart, so the hashed document loses nothing of them |
| ServiceChains.EventDocumentTells | src/reality_layer/actions/service.py:545-556 | the hashed document of an event has exactly the fields that the source lists, each with what the event says |
| ServiceChains.EventLogsAreTamperEvident | src/reality_layer/actions/service.py:534-567 | a chain ending in the hash of an action's last event validates exactly when it is that action's log |
| WorldStateService.Service.Ingest | src/reality_layer/world_state/service.py:25-89 | result and every dictionary afterwards are those of the specification; shared conflict objects stay shared |
| WorldStateService.Service.CreateCommit | src/reality_layer/world_state/service.py:91-139 | appends one commit on top of the tenant's cursor and moves the cursor, nothing else |
| WorldStateService.Service.RecordConflict | src/reality_layer/world_state/service.py:145-191 | joins the open conflict of the attribute, seen through both dictionaries, or enters a new one in both |
| WorldStateService.Service.HasOpenConflicts | src/reality_layer/world_state/service.py:193-197 | true exactly when an open conflict names the entity |
| WorldStateService.Service.ResolveConflict | src/reality_layer/world_state/service.py:213-283 | state, commit, closed conflict and index as specified; the object returned is the one both dictionaries held |
| WorldStateService.Service.HydrateConflict | src/reality_layer/world_state/service.py:285-296 | stores the given object under its id and opens or closes its attribute |
| WorldStateService.Service.Hydrate | src/reality_layer/world_state/service.py:298-328 | stores state and stub; the cursor moves exactly when the commit is not an ancestor of it |
| WorldStateService.Service.IsAncestor | src/reality_layer/world_state/service.py:415-428 | terminates on every parent map, cyclic ones included, and is true exactly on reflexive-transitive parent reachability |
| WorldStateService.Service.ListCommits | src/reality_layer/world_state/service.py:389-413 | the walk from the cursor, reversed, from after the given commit on; an unknown commit is an error |
| Lineage.ListedIsChain | src/reality_layer/world_state/service.py:389-407 | if the stored commits are a linked chain ending at the cursor, the walk returns that chain in order |
| CommitLog.ListCommitsIsComplete | src/reality_layer/world_state/service.py:389-413 | in every reached state `list_commits` returns every commit the tenant ever made, in creation order, hash-linked |
| CommitLog.CursorIsExact | src/reality_layer/world_state/service.py:389-413 | in every reached state a cursor on a commit of the tenant yields exactly the commits after it, any other cursor is an error, and a tenant without commits has an empty list |
| CommitLog.LogOnlyGrows | src/reality_layer/world_state/service.py:91-139 | earlier logs, whole or of one tenant, are prefixes of later ones |
| CommitLog.PollingDeliversOnce | src/reality_layer/world_state/service.py:408-413 | polling with the last seen commit as cursor delivers exactly the commits made since |
| CommitLog.EntityHistoryIsContinuous | src/reality_layer/world_state/service.py:63-89 | per entity each `before` is the previous `after`, and state, version and commit id are those of the last commit |
| CommitLog.IngestCommitsRealChanges | src/reality_layer/world_state/service.py:63-67 | a commit of a known entity lists exactly the names whose value changed, and there is one |
| ConflictIndex.RunKeepsStore | src/reality_layer/world_state/service.py:145-211 | the open index holds exactly the open conflicts, one per attribute; each has two candidates at least, pairwise distinct in connector and value |
| ConflictIndex.ApplyKeepsStore | src/reality_layer/world_state/service.py:25-61 | one operation keeps that and only adds candidates |
| ConflictIndex.ConflictsOnlyGrow | src/reality_layer/world_state/service.py:145-283 | along any run candidates are append-only and a resolved conflict never changes |
| CrossSource.FoldedAttributes | src/reality_layer/world_state/service.py:42-61 | each attribute ends as reported unless it is blocked, whatever the order of the payload |
| CrossSource.NoSilentOverwrite | src/reality_layer/world_state/service.py:42-61 | an ingest keeps every attribute, and changes a value only if it was stale, had no known connector or came from the same one |
| CrossSource.RefusedValueIsDisputed | src/reality_layer/world_state/service.py:42-61 | a blocked value is a candidate of an open conflict afterwards, and the value it met stays |
| CrossSource.ResolveDecides | src/reality_layer/world_state/service.py:239-283 | resolving puts the chosen value into the state, owned by the operator, and closes the conflict |
| CrossSource.OperatorDecisionSurvives | src/reality_layer/world_state/service.py:42-61 | an operator's value survives any run that neither re-resolves it, restates it, nor reports it as connector "operator" |
| CrossSource.SoleWriterOwns | src/reality_layer/world_state/service.py:42-61 | an attribute that only one connector writes stays that connector's, over any run |
| CrossSource.OwnReportIsEffective | src/reality_layer/world_state/service.py:42-89 | a report by the owner of an attribute is what the state then shows |
| WorldEffects.IngestIsExact | src/reality_layer/world_state/service.py:25-89 | attribute by attribute and field by field: a reported value is taken over exactly if it is new, the same, stale, without or of the same connector, and then marked fresh exactly for five minutes, with its time, source, connector and confidence; a commit is made exactly when a value changes; what commit and state record |
| WorldEffects.RepeatIsDropped | src/reality_layer/world_state/service.py:32-34 | a repeated observation id changes nothing and is answered with the entity's state |
| WorldEffects.SecondReport | src/reality_layer/world_state/service.py:42-61 | of two reports the second stands if the first was older than five minutes when it was ingested, or from the same connector; otherwise the first |
| WorldEffects.DisputeIsExact | src/reality_layer/world_state/service.py:145-191 | a refused report joins the open dispute of its attribute once per connector and value, or opens one with both sides, under its id and time |
| WorldEffects.ResolveIsExact | src/reality_layer/world_state/service.py:213-283 | a decision sets value, sources in order, highest confidence, time and connector, commits with cause and sources, counts the version up, closes the conflict, and leaves all else |
| WorldEffects.ResolvedStays | src/reality_layer/world_state/service.py:213-224 | a resolved or unknown conflict is answered and nothing changes |
| WorldEffects.SourcesAreBackers | src/reality_layer/world_state/service.py:226-236 | the sources are the observation ids of the candidates with the chosen value, in order; of all candidates if none of those has one |
| WorldEffects.ConfidenceIsMax | src/reality_layer/world_state/service.py:237 | the confidence is the highest among the candidates with the chosen value, 0.95 if there is none |
| WorldEffects.OpenConflictsAreFound | src/reality_layer/world_state/service.py:193-197 | after any run an entity has open conflicts exactly if one of the stored conflicts about it is open |
| Projection.ServiceShowsFold | src/reality_layer/world_state/service.py:25-89 | after any run, states, versions, diffs and disputes are the id-free fold of its inputs |
| Projection.RepeatsDoNotMatter | src/reality_layer/world_state/service.py:34-40 | the fold is that of the inputs without repeated observation ids |
| Projection.ProjectionIsRebuildable | src/reality_layer/world_state/service.py:25-89 | two runs with the same inputs up to repeats show the same projection, whatever ids and hashes they used |
| WorldTenants.TenantsDoNotInterfere | src/reality_layer/world_state/service.py:91-139 | after any interleaving a tenant's dictionaries and commits are those of its own operations alone, which are a supplied run too |
| WorldTenants.OtherTenantUntouched | src/reality_layer/world_state/service.py:25-61 | an operation leaves every other tenant's part as it was |
| Hydration.HydrateKeepsSuffix | src/reality_layer/world_state/service.py:298-328 | after any work and any earlier hydrations: hydrating a state makes the log its commit's stub and what followed that commit, and keeps the cursor exactly if the commit was on the chain; the hypothesis holds again afterwards |
| Hydration.HydrateKeepsLinks | src/reality_layer/world_state/service.py:298-328 | with the commit's true hash, ids and hashes are the old suffix and every link after the stub is intact, again and again |
| Hydration.AncestorsAreOnChain | src/reality_layer/world_state/service.py:415-428 | the ancestors of the cursor are exactly the commits on its chain |
| Hydration.WorkKeepsListing | src/reality_layer/world_state/service.py:389-413 | after hydrations too, an operation extends the listing by exactly the commit it made |
| Hydration.MixedRunsKeepListings | src/reality_layer/world_state/service.py:298-328 | in every state reached by observing, settling and hydrating in any order, `list_commits` is the chain the cursor leads back to, with every link after its first record intact |
| Hydration.HydrateKeyOfIngested | src/reality_layer/world_state/service.py:305-309 | a state made by `ingest` hydrates under the key it was ingested under |
| Hydration.HydrateKeyIsExact | src/reality_layer/world_state/service.py:304 | the state's key is its tenant, lower-cased type and what follows the first colon of its entity id |
| Hydration.HydrateStores | src/reality_layer/world_state/service.py:304-328 | hydrating stores exactly the given state and a stub of its commit; other states, observations and conflicts stay |
| Hydration.HydratedStateIsContinued | src/reality_layer/world_state/service.py:37-89 | over observing, settling and hydrating in any order, the next commit of a hydrated entity starts from the hydrated attributes and its version is one more |
| Hydration.CommitContinues | src/reality_layer/world_state/service.py:63-89 | every commit starts from the entity's attributes and counts its version up by one |
| Hydration.RehydrateIff | src/reality_layer/world_state/service.py:285-296 | hydrating a tenant's conflicts rebuilds the store always, and the open index exactly when no conflict follows the open one of its attribute |
| Hydration.RehydrateInDetectionOrder | src/reality_layer/world_state/service.py:285-296 | after any run, hydrating conflicts so that those about one attribute come in increasing detection order rebuilds both dictionaries if and only if every open conflict was detected after all others about its attribute |
| Hydration.RehydrateUnderForwardClock | src/reality_layer/world_state/service.py:285-296 | that is so after every run whose clock does not go back for an attribute |
| ClockWitness.ClockStepsBack | src/reality_layer/world_state/service.py:174-190 | a run of two disputes about one attribute whose clock steps back between them: hydrating in detection order loses the open conflict |
| ActionService.Service.Propose | src/reality_layer/actions/service.py:47-84 | the decision on record for a known key, otherwise policy, action, index entry and event as specified |
| ActionService.Service.Approve | src/reality_layer/actions/service.py:135-185 | decision and event of each branch, in place, as specified |
| ActionService.Service.CheckPreconditions | src/reality_layer/actions/service.py:187-199 | the first expectation that the state does not meet, or none |
| ActionService.Service.Reject | src/reality_layer/actions/service.py:201-218 | rejects what awaits approval and leaves everything else |
| ActionService.Service.Execute | src/reality_layer/actions/service.py:475-506 | state and result as specified; the executor is called exactly when specified, once, with the action's own order and key |
| ActionService.Service.RequireEligible | src/reality_layer/actions/service.py:508-532 | why the order may not be cancelled, logged as an execution-stage failure |
| ActionService.Service.Verify | src/reality_layer/actions/service.py:265-314 | verdict, reason and event of one read as specified |
| ActionService.Service.AppendEvent | src/reality_layer/actions/service.py:534-567 | the event links to the last hash of the action's log and carries the hash of its own content |
| ActionService.Service.Restore | src/reality_layer/actions/service.py:86-133 | what one restored event does to every dictionary, and when it raises |
| ActionService.Service.Proof | src/reality_layer/actions/service.py:320-404 | the bundle that the soundness theorems speak about, field by field, with the given commit as its projection |
| ActionLog.AutomatonIsLanguage | src/reality_layer/actions/service.py:135-314 | the lifecycle automaton accepts exactly the lifecycle language |
| ActionLog.EndedLogsDoNotGrow | src/reality_layer/actions/service.py:143-144 | an ended log followed by any event is no longer in the language |
| ActionLog.RestoredVersusLive | src/reality_layer/actions/service.py:115-133 | the restored decision is the live one except after an execution-stage failure, and in the reason after an acceptance |
| ActionRuns.PhaseByStatus | src/reality_layer/actions/service.py:135-314 | the status of a sound action tells its phase |
| ActionRuns.PerformExtends | src/reality_layer/actions/service.py:47-567 | each operation changes nothing, or appends one linked event that the lifecycle allows and from which all other changes follow |
| ActionRuns.PerformParallel | src/reality_layer/actions/service.py:475-506 | whatever a restart has made of the table of receipts, an operation does what it does with the receipts that were given, or leaves the service alone |
| ActionRuns.ExtendsKeepsSound | src/reality_layer/actions/service.py:534-567 | such an event keeps index, receipts, decisions and logs in agreement |
| Recovery.RunKeepsSystemSound | src/reality_layer/actions/service.py:86-133 | over any run with restarts, whatever the receipts name, the service stays sound with the receipts that were given, and its durable log rebuilds it |
| Recovery.RecoveryRebuildsService | src/reality_layer/actions/service.py:86-113 | restoring the log into an empty service never raises and rebuilds actions, index and logs; the receipts exactly when each names the key it is filed under |
| Recovery.RecoveredStatusVersusRunning | src/reality_layer/actions/service.py:115-133 | after any run, restarts included, the recovered status is the running one except exactly for actions that are approved while their log ends in an execution-stage failure; other decisions come back whole but for the reason after an acceptance |
| Recovery.EchoingRestartsKeepReceipts | src/reality_layer/actions/service.py:99-101 | after any run the table holds exactly the receipts that the provider gave, if and only if every restart found receipts that named their own keys; otherwise one of them is missing or replaced |
| Recovery.RecoveredStatusVersusLive | src/reality_layer/actions/service.py:115-133 | against a service that never restarted, the recovered status is the live one except exactly for logs ending in an execution-stage failure |
| Recovery.RestoringAgainChangesNothing | src/reality_layer/actions/service.py:86-92 | restoring events again, in any order, changes nothing |
| ActionSafety.LogsSpellLifecycle | src/reality_layer/actions/service.py:135-218 | every reachable log is in the lifecycle language and hash-linked, and the status is the automaton's up to a restored failure |
| ActionSafety.LiveStatusIsAutomaton | src/reality_layer/actions/service.py:265-314 | without a restart the status is exactly the automaton's |
| ActionSafety.AcceptedExactlyWhenGiven | src/reality_layer/actions/service.py:493-506 | the provider gave a receipt exactly for the actions in provider_accepted or a verification status, in every run |
| ActionSafety.EndedLogsStay | src/reality_layer/actions/service.py:135-314 | no operation extends an ended log |
| ActionSafety.ReceiptExactlyWhenAccepted | src/reality_layer/actions/service.py:493-506 | the table has a receipt exactly in provider_accepted and the verification statuses, if restarts kept receipts under their keys |
| ActionSafety.GivenOnceCalledNever | src/reality_layer/actions/service.py:484-489 | once the provider gave a receipt, no later `execute` of the action calls it or changes anything, whatever restarts did to the table |
| ActionSafety.ReceiptIsReturned | src/reality_layer/actions/service.py:484-487 | once there is a receipt, every later `execute` returns it without a call or a change, if restarts kept receipts under their keys |
| ActionSafety.ReceiptsAreReturnedIff | src/reality_layer/actions/service.py:484-489 | after any run `execute` answers with the receipt given, for every action that has one, if and only if every restart found receipts that named their own keys |
| ActionSafety.AtMostOneCallCompletes | src/reality_layer/actions/service.py:475-506 | at most one provider call per tenant and idempotency key completes, restarts included, whatever key the receipts name |
| ActionSafety.PreconditionsAreExact | src/reality_layer/actions/service.py:187-199 | approval finds no failure exactly when version and every expected attribute match |
| ActionSafety.EligibilityIsExact | src/reality_layer/actions/service.py:508-532 | execution finds no reason exactly for a present order that is neither terminal nor fulfilled |
| ActionSafety.ApprovalMeansAllowed | src/reality_layer/actions/policy.py:18-97 | a cancellation needs approval exactly when operations propose it outside observe-only mode, without conflict and within the limit |
| ActionSafety.ProposedAt | src/reality_layer/actions/service.py:47-84 | every action goes back to the one proposal that its log records |
| ActionSafety.ApprovedAt | src/reality_layer/actions/service.py:135-185 | every approval in a log was made by the required role against a matching state |
| ActionSafety.EveryCallIsAuthorised | src/reality_layer/actions/service.py:475-532 | every provider call goes back to an allowed proposal, a later approval by operations on a matching state, and a later execution on a live order |
| ActionSafety.CallNamesTarget | src/reality_layer/actions/service.py:493-494 | every call names the order of its action's target - what follows "order:" - and the proposal's key |
| ActionModel.OrderIsNamed | src/reality_layer/actions/service.py:493 | the order id is what follows "order:" in the target; a target without that prefix is the order id |
| ActionEffects.KnownKeyAnswers | src/reality_layer/actions/service.py:60-62 | after any run, proposing under a known key answers with that action's decision and changes nothing |
| ActionEffects.NewKeyProposes | src/reality_layer/actions/service.py:64-84 | after any run, proposing under a new key files an action with the policy's decision and the event that tells both |
| ActionEffects.PolicyIsExact | src/reality_layer/actions/policy.py:18-97 | which rule decides, by role, mode, conflict, threshold and action type; what it decides and which role it requires |
| ActionEffects.PolicyReason | src/reality_layer/actions/policy.py:18-97 | the reason goes with the rule |
| ActionEffects.ApproveTakes | src/reality_layer/actions/service.py:135-185 | approving what awaits approval: another role denies, a mismatch fails with the first reason, the required role on a matching state approves; each is returned and logged; anything else stays |
| ActionEffects.RejectTakes | src/reality_layer/actions/service.py:201-218 | rejecting what awaits approval makes it rejected for the reason given, returns that and logs it by the approver; anything else stays |
| ActionEffects.RejectedIsNeverCalled | src/reality_layer/actions/service.py:207-218 | in any run with restarts, the provider is never called for an action that was rejected, before or after |
| ActionEffects.EndedIsNotApproved | src/reality_layer/actions/service.py:143-144 | an action whose log has ended is never approved again, whatever the run goes on to do |
| ActionEffects.ExecuteTakes | src/reality_layer/actions/service.py:475-532 | by case: the receipt there is, the refusals, the ineligible order and why, the failing provider, the accepted write; each with call, event, table and answer |
| ActionEffects.VerifyTakes | src/reality_layer/actions/service.py:265-314 | the verdict by what the read shows and whether it is the last, with reason, event and commit id; anything not accepted is refused |
| ActionEffects.RestoreTakes | src/reality_layer/actions/service.py:86-133 | by case: what is known or about no action is ignored; which types set which status and reason; how receipts and proposals are filed; what raises, and after what |
| ActionProof.VerifiedProofIsSound | src/reality_layer/actions/service.py:355-361 | assurance is "verified" exactly when the log ends in `verified`; then approver, provider and the evidence of a read that showed "cancelled" are there |
| ActionProof.AcceptedProofIsSound | src/reality_layer/actions/service.py:355-361 | assurance is "accepted" exactly when the provider gave a receipt and the log does not end in `verified` |
| ActionProof.ProofTellsHistory | src/reality_layer/actions/service.py:320-452 | after any run the bundle names the true proposer, approver, policy decision and receipt, shows a linked chain, the last verification event with the number of attempts, the given commit, and warns of equal roles and of the last failed precondition exactly when there is cause |
| ActionProof.VerifiedLog | src/reality_layer/actions/service.py:454-470 | a verified log has an approval, an acceptance, and one attempt more than pending events, the last being the verdict |
| Witnesses.RecoveredStatusDiffers | src/reality_layer/actions/service.py:115-133 | a run of an admissible proposal, its approval and its execution on a fulfilled order that stays approved live and is recovered as failed |
| Witnesses.RecoveredReceiptsDiffer | src/reality_layer/actions/service.py:99-101 | a run of an admissible proposal whose receipt names another key: the rebuilt receipts differ, and after a restart an accepted action has none |
| Witnesses.CancellationIsAdmissible | src/reality_layer/actions/models.py:37-47 | the proposal of both runs meets the constraints on proposals |
| ActionTenants.TenantsDoNotInterfere | src/reality_layer/actions/service.py:569-578 | after any interleaving, restarts included, a tenant's actions, index, logs, receipts and calls are those of its own operations alone |
| ActionTenants.SamePerform | src/reality_layer/actions/service.py:475-506 | a tenant's operation appends and calls the same in its own share of the service as in the whole |
| Backoff.SleepsStayInBudget | src/reality_layer/worker/verifier.py:106-128 | with non-negative settings and a clock that counts the sleeps, all sleeps together are within the timeout |
| Backoff.SleepsBackOff | src/reality_layer/worker/verifier.py:123-128 | no sleep exceeds min(initial * factor^k, cap); only the first is not limited by the cap |
| Backoff.SleepsAreExact | src/reality_layer/worker/verifier.py:123-128 | until the deadline cuts a sleep the sleeps are exactly those |
| Backoff.SettlesIsExact | src/reality_layer/worker/verifier.py:123-128 | the condition on the settings under which they are is exact: without it the third sleep differs |
| Backoff.LimitForgetsGrowth | src/reality_layer/worker/verifier.py:123-128 | settings and a clock that counts its sleeps on which the third sleep is shorter |
| Backoff.LateReadIsLast | src/reality_layer/worker/verifier.py:113-114 | an attempt whose read begins at or after the deadline is the last |
| VerifierWorker.Worker.VerifyAction | src/reality_layer/worker/verifier.py:102-132 | both services, the result, the reads and the sleeps are those of the polling specification, for the order that the action's target names |
| VerifierWorker.Worker.IngestVerificationRead | src/reality_layer/worker/verifier.py:136-149 | ingests the source's answer for the order as a new observation and returns the effective state |
| Polling.VerifyActionEnds | src/reality_layer/worker/verifier.py:102-132 | at most max(1, max_attempts) reads; one pending event per read but the last, then a terminal one; verified exactly when some read saw "cancelled", failed exactly when the last read saw nothing; a failing read leaves only the pending events |
| Polling.AttemptsAreLeast | src/reality_layer/worker/verifier.py:111-122 | the reads end at the first that fails, sees "cancelled", uses up max_attempts, or ends at or after start plus timeout |
| Polling.UnverifiableIsRefused | src/reality_layer/actions/service.py:273-276 | an action that is not accepted is refused after one read and left as it is |
| Polling.CallStaysInBudget | src/reality_layer/worker/verifier.py:106-128 | a whole call sleeps once between reads, never a negative time, and no longer than the timeout |
| Polling.OneReadAfterDeadline | src/reality_layer/worker/verifier.py:113-114 | at most one read of a call begins at or after the deadline |
| Polling.SingleSourceStatus | src/reality_layer/worker/verifier.py:136-149 | if only the reading connector has written the status, the effective status is what the source answered, whatever ids it gives its observations |
| Polling.SoleReaderStatus | src/reality_layer/worker/verifier.py:136-149 | if since the empty service only the reading connector has written the status, the effective status is what the source answered |
| Polling.SingleSourceVerdict | src/reality_layer/worker/verifier.py:102-132 | with one source the action is verified exactly when it answered "cancelled" to one of the reads |
| Polling.ReadsNeverShareIds | src/reality_layer/worker/verifier.py:139-143 | two reads with different uuids never share an observation id, even when the source's ids are equal |
| Polling.ReadIsIngested | src/reality_layer/worker/verifier.py:136-149 | every answered read is ingested as a new observation of what the source says, under its id and the uuid, as a verification; the state read is the entity's state afterwards |
| Polling.ReadsTheOrderCalled | src/reality_layer/worker/verifier.py:103-104 | the order that is read is the one that the provider was called for |
| Polling.PollingIsRun | src/reality_layer/worker/verifier.py:115-117 | with new event uuids, what the worker does to the action service is a possible run with one operation per successful read, so every theorem about runs applies |

## What the proofs found

- A recovered service differs from the running one in one status only: an action that is approved while its log ends in an
  execution-stage `precondition_failed` comes back as failed (`Recovery.RecoveredStatusVersusRunning`,
  `Witnesses.RecoveredStatusDiffers`). Recovering once more then changes nothing: the status is already failed.
- `restore` files a receipt under the key that the receipt names, `execute` under the proposal's key. One recovery rebuilds
  the receipts exactly when the two agree (`Recovery.RecoveryRebuildsService`, `Witnesses.RecoveredReceiptsDiffer`). Over a
  run the table holds the receipts that were given, and `execute` returns them, exactly when they agreed at every restart;
  what one restart has mislaid stays so (`Recovery.EchoingRestartsKeepReceipts`, `ActionSafety.ReceiptsAreReturnedIff`).
  At-most-once, the lifecycle, authorisation and the proofs do not depend on it (`ActionSafety.GivenOnceCalledNever`).
- Conflicts hydrated in detection order lose an open one if the clock stepped back between two about its attribute
  (`Hydration.RehydrateInDetectionOrder`, `ClockWitness.ClockStepsBack`).
- `verifier_max_interval_seconds` does not limit the first sleep (`Backoff.Backed`), and with a factor below one the code
  can sleep less than min(initial * factor^k, cap); `Backoff.SettlesIsExact` says exactly when, `Backoff.LimitForgetsGrowth`
  shows a case.
- The commit hash does not cover the assurance level (`Chains.CommitChainTamperEvident`).

## Left out

- The HTTP application, CLI, MCP server, dashboard, demo scripts, repositories, object store, connectors and onboarding: plumbing around the services.
- Persistence: the durable event log is a sequence in append order; sessions, rollbacks, the persisted path of the verifier and a crash between a provider call and the storing of its event are not modelled.
- Python's equality across types: 1, 1.0 and True are distinct values here.
- Message texts: reasons are data, one case per message; number formatting inside messages is not modelled, nor is the reason text after recovery of an acceptance beyond being the event type.
- Text: characters are Dafny's; lower-casing and capitalising change ASCII letters only; UTF-8 encoding and SHA-256 are inside the digest parameter.
- Dictionaries with keys that are not strings, and the shortest-repr algorithm for floats: a float is an opaque token.
- Pydantic coercion and datetime formatting: `ServiceChains` takes the JSON rendering of attributes and payloads as any function.
- Event payloads are modelled by the shapes that the code reads and writes, not as arbitrary dictionaries; `restore` of a damaged payload is modelled only as far as the missing shape raises.
- Insertion order of the service's own dictionaries, and with it the order and filters of `list_actions`, `list_entities`, `list_conflicts` and `pending_verifications`.
- `_check_preconditions` and the policy get the state and the conflict flag as inputs; that the caller looks them up is outside.
- `hydrate` without a parent hash, and with a parent other than the state's own commit in the theorems about listings; full-chain validity after `hydrate`: the stub it stores has no parent, so only the links after it are claimed.
- WorldStateService.Service.Hydrate: parent commit id and hash must not be empty, because the code takes an empty one for a missing one.
- WorldStateService.Service.HydrateConflict: does not model storing a conflict under the id of a known conflict about another attribute.
- WorldStateService.Service.Ingest: the uuids are inputs, assumed not to be in use; one uuid and clock reading is named per attribute that may open a conflict.
- ActionService.Service.Proof: the request fingerprint is a function parameter; before and after of the projection are attributes, not their JSON rendering.
- VerifierWorker.Worker.VerifyAction: clock readings, the source's answers for an order and uuids are a script, and the sleeps are a result; that the normalized answer is about the order asked for is the source's affair, and a negative interval is not treated as the error that `time.sleep` makes of it.
- The sweep of the verifier (`run_once`, `run_forever`): a loop over `verify_action`.
