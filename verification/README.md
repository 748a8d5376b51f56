# Verified model of the accelerator's write side

The accelerator proposes values and drafts, people review them, and some are written into the domain.
This project models the four mechanisms by which that happens, and proves what they keep when users act
at the same time, repeat themselves, work on stale data or fail half way.

**Structured adoption** (`Structured*.dfy`). A batch of metric, stage and process items is decided item by
item; after each decision its graph is hashed and sealed into an idempotency key. A commit passes a
preflight, reserves the batch in one transaction, executes it in a second, and records a failure in a third.
`StructuredStore` has the rows of a batch as a class whose methods are the transactions;
`StructuredReview` and `StructuredExecution` say what each of them does to the rows; `StructuredReviewProofs`,
`StructuredOutcome` and `StructuredProtocol` prove the results, the last one over every interleaving of any
number of users. `StructuredValues`, `StructuredConflicts` and `StructuredResults` say on the decisions and the written
rows alone what a decision stands for, what is written, when that is a conflict and what the stored result tells;
`StructuredCustody` carries it through every run. Each transaction is one atomic step; a call may stop between two of them for ever, which
covers a crash (a batch whose holder stopped stays in process, as in the code).

**Solution payloads** (`Payload*`, `Validator`, `Effective*`, `Repair*`, `EditRoundTrip`, `PreviewEdits`, `Witnesses`). The
generator's output is a JSON object that stays as it is. A machine repair lays whole statements over it, human
edits lay texts over those, and a validator that collects errors in a list runs after each layer. The model
reads arbitrary JSON and proves that the validator is a fixpoint, what the layers amount to, what a repair
changes, and which edits survive. `PayloadMeaning` and `EffectiveMeaning` say independently of the checks, on the
stored JSON, what is accepted and what an effective payload is.

**The quality pipeline** (`Quality*.dfy`, `Answers`, `StrandedExample`). An initial critic, at most one repair and a
final critic, triggered by saves and bound to each other by snapshots of the effective payload. `Answers` says which
answers a run can be marked with; `QualityStore` has the transactions as methods; `QualityModel` has the calls as
threads that read, reserve, ask the provider and finish in separate actions; `QualityPipeline`, `QualityResults` and
`QualityOrigins` prove the bounds, the order, the chain of snapshots, where every result comes from and which runs
never finish; `QualityCourse` shows the service calls to be courses of these actions.

**Field adoption, quota counters and decimals** (`FieldAdoption*`, `Canonical`, `Quota`, `Decimal*`). Single fields adopted by comparing canonical texts before writing; three-level call counters;
the reader of German decimals and the printer whose output is read again.

## Conventions

- A SHA-256 digest is represented by the document it is taken of: distinct documents have distinct digests.
- `transaction.atomic` is a method that installs the new rows or restores the old ones.
- Forms are functions from submitted to cleaned values that may refuse; permissions, current captures, clocks,
  quota decisions and provider answers are inputs of each transaction, so the results hold for all of them.
- Unicode normalisation, `str.lower` and the extraction of numbers from a text are function parameters. What is
  assumed of the first two is stated where it is used: `IsNormalForm` (idempotent, closed under substrings and
  under joining lines), `KeepsAscii`, and `KeepsInk` (lower-casing a visible text leaves a visible text).
- Texts are sequences of Unicode scalar values. A text with a lone surrogate, which JSON can carry, is not one of
  them: the results about payloads do not speak of it (the code raises when it hashes such a payload), and as part
  of a provider's answer it makes the answer unreadable or impossible to store.
- Object member names of JSON are a datatype with one constructor for each name the code looks up.

## Findings

- A decimal with more than 28 significant digits does not survive being stored: `normalize()` rounds to the
  precision of the decimal context. `PrintReadsBack` gives the exact condition, `LongTextChanges` a family of
  texts.
- With a machine repair, an edit that sets a repaired text back to the generator's original is dropped as
  unchanged, and the repaired text stays in effect; `EditsSurvive` shows that this is the only loss, and
  `ResetEditExample` has a preview and a form.
- A repair can be accepted and still not be activated: the rebuild also validates the patches without the human
  edits. `RepairFrame` has the exact condition, `FreedNameIsRefused` a family of inputs and
  `FreedNameExample` one of them.
- After a conflict or on stale captures a ready batch is no longer ready and its key is no longer reserved until
  some item is decided again; only FAILED can be retried directly (`FailureLeavesReady`).
- A quality run does not always leave RUNNING: no handler catches what some answers raise, and the call ends there.
  The answer is *unreadable* if decoding or checking it raises anything but the handled errors (an integer of more
  than 4300 digits, deep nesting, a lone surrogate in a finding). Marking the run, as successful or as failed, raises
  for a model name of more than 200 characters or one that cannot be stored. Marking it as successful also
  raises for a usage that cannot be read or does not fit its columns (`UsageReads`: a list, an infinite count, a NaN
  as cost, a cost of a million) and for texts with a NUL or a lone surrogate. `EveryRunFinishesOnce` has the absence
  of all three as its hypothesis, `NeverFinishedIffStranded` the exact condition, `ShortNamesStrand` two runs with a
  short name. A usage that cannot be read does no such harm to a failed run, which is marked before it is read.
- Rejections are not stable: rejecting a stage puts its rejected dependents back to pending (`RejectionCascades`).

## Model

| member | source | states |
|---|---|---|
| StructuredProtocol.ExactlyOnceCommit | ki_radar/accelerator/structured_adoption_orchestrator.py:271-319 | exactly-once commit, over every interleaving of decisions, calls, reservations, executions, failure records and outside changes: one holder at most and PROCESSING exactly while there is one, attempts = granted reservations, domain written at most once and exactly when COMMITTED, one commit audit, every result handed out is the same one |
| StructuredProtocol.StepKeepsSound | ki_radar/accelerator/structured_adoption_orchestrator.py:655-727 | every single transaction keeps that invariant, adds one attempt exactly when it grants a reservation, and one commit and one commit audit exactly when it writes the domain |
| StructuredProtocol.CommittedIsFinal | ki_radar/accelerator/structured_review.py:512-517 | no transaction of review or commit changes a committed batch, its items or its audits |
| StructuredProtocol.CommittedIsAbsorbing | ki_radar/accelerator/structured_adoption_orchestrator.py:281-286 | over a whole run COMMITTED is absorbing: batch row with its result snapshot, items and audits stay the same for ever |
| StructuredProtocol.CommittedIsReplayed | ki_radar/accelerator/structured_adoption_orchestrator.py:281-286 | a later call with the committed key changes nothing and is answered with the stored result and attempt; with another key it is refused |
| StructuredProtocol.HolderIsNotEvicted | ki_radar/accelerator/structured_adoption_orchestrator.py:664-674 | the call that holds the reservation never finds its key or its reservation gone, and a failed execution leaves every row as it was |
| StructuredProtocol.CallCommitsItsKey | ki_radar/accelerator/structured_review.py:771-785 | what a call commits is the graph of the key it was made with, whatever was decided after the unlocked readiness check |
| StructuredProtocol.UncommittedIsSealed | ki_radar/accelerator/structured_review.py:345-380 | at every point of every run an uncommitted batch carries the hash and the key of its current items |
| StructuredProtocol.ConfirmedProcessHasStage | ki_radar/accelerator/structured_stage_adoption.py:299-325 | at every point of every run a confirmed process item depends on a usable, not rejected stage item of the batch under its own key |
| StructuredProtocol.ReadyInRunIsExecutable | ki_radar/accelerator/structured_review.py:745-768 | whenever in a run the batch shows as ready, the same holds at that point |
| StructuredProtocol.CommitInRunIsComplete | ki_radar/accelerator/structured_adoption_orchestrator.py:655-727 | in every run, a successful execution leaves exactly the confirmed outcome: items resolved, objects new, distinct and attached as chosen |
| StructuredProtocol.ExecutionKeepsSound | ki_radar/accelerator/structured_adoption_orchestrator.py:655-727 | an execution keeps items, dependencies and seal sound |
| StructuredCustody.DecisionIsWritten | ki_radar/accelerator/structured_review.py:626-742 | what was decided is what is written: in every run, if a confirmation or an edit was the last decision taken on an item before the domain is written, its stage, process or metric field is written as what the form makes of exactly the fields or the value asked for (the interpretation, or the normalised edit), a process at the stage that was chosen |
| StructuredCustody.KeyFixesWrite | ki_radar/accelerator/structured_adoption_orchestrator.py:130-171 | what was sealed is what is written: a call that writes with a key writes the values that stood on the items at every moment of the run at which the batch had this key |
| StructuredCustody.CallWritesWhatItSaw | ki_radar/accelerator/structured_adoption_orchestrator.py:264-319 | a call that writes the domain writes what the items said when the call began, whatever was decided in between |
| StructuredValues.EqualKeysSameContent | ki_radar/accelerator/structured_adoption_orchestrator.py:130-171 | two batches have the same key exactly if they are reviews of the same analysis for the same target whose items agree one by one in all that was proposed, decided and bound |
| StructuredValues.DecisionIsTaken | ki_radar/accelerator/structured_review.py:500-517 | a decision is taken exactly if its author made the batch and may edit the target, the batch is still open or released, and, unless it rejects, the interpretation is valid and certain or the edit can be normalised, the form takes the fields, and the stage can be chosen |
| StructuredValues.DecisionIsNoted | ki_radar/accelerator/structured_review.py:664-726 | after a decision the item stands for exactly what was asked for, noted and audited with its author, bound to the chosen stage |
| StructuredValues.ObjectIsWritten | ki_radar/accelerator/structured_stage_adoption.py:189-195 | a confirmed stage or process is created, field by field, from the interpretation or the edit: the sequence, the stripped name, every other field under its own name, missing ones empty |
| StructuredValues.MetricsAreWritten | ki_radar/accelerator/structured_metric_adoption.py:170-203 | the seven metric fields become what the form makes of the confirmed values, with the current ones where nothing was confirmed; every other field stays |
| StructuredValues.AgreesIffWelcome | ki_radar/accelerator/structured_stage_adoption.py:73-100 | what the domain may still object to in a ready batch, in terms of the fields decided on and the rows there now: a field object the adapter or the form refuses, a taken or doubled place, a vanished stage, a changed metric |
| StructuredValues.ExecutionWasDecided | ki_radar/accelerator/structured_adoption_orchestrator.py:377-464 | an execution adopts nothing that was not confirmed by somebody at some time, nor anything without the item it depends on |
| StructuredConflicts.MetricConflictIff | ki_radar/accelerator/structured_metric_adoption.py:170-188 | a ready metric batch meets a conflict exactly if a field it was to write was changed since the review read it |
| StructuredConflicts.StageConflictIff | ki_radar/accelerator/structured_stage_adoption.py:215-243 | a ready stream batch with complete stages meets a conflict exactly if two of them want one place or somebody created a stage at the place of one |
| StructuredConflicts.StageConflictInOrder | ki_radar/accelerator/structured_stage_adoption.py:215-260 | with stages that lack something: a conflict exactly if in key order two stages want one place before one is found incomplete, or all are complete and the place of one is taken |
| StructuredResults.ResultTells | ki_radar/accelerator/structured_adoption_orchestrator.py:684-720 | the stored result tells the values the metric fields have, where each came from and which are new, or the object created for each local key and the stage of each process; the batch row is closed without an error |
| StructuredReviewProofs.CreationIsSound | ki_radar/accelerator/structured_review.py:415-498 | a new review batch is sealed over its items and satisfies the review invariant |
| StructuredReviewProofs.DecisionKeepsSound | ki_radar/accelerator/structured_review.py:626-742 | every decision keeps the invariant: status fits decision, dependencies fit, hash and key are those of the new items |
| StructuredReviewProofs.ConfirmationFrame | ki_radar/accelerator/structured_review.py:652-726 | a confirmation or edit changes one item, notes who and when, tells proposal from edit, and leaves what was proposed, interpreted and cited alone |
| StructuredReviewProofs.DecisionReopens | ki_radar/accelerator/structured_review.py:358-367 | every decision puts a failed, conflicting or stale batch back to OPEN without its error and result, and keeps the attempts |
| StructuredReviewProofs.RejectionCascades | ki_radar/accelerator/structured_review.py:641-652 | rejecting a stage resets all its dependents to PENDING, also ones already rejected, changes no other item, and the batch is not ready while it has dependents |
| StructuredReviewProofs.RejectionFrame | ki_radar/accelerator/structured_review.py:641-652 | rejecting any item notes who rejected it, keeps what it is for and what was proposed, and changes no other item but the dependents of a stage |
| StructuredReviewProofs.ReadyIsAccepted | ki_radar/accelerator/structured_adoption_orchestrator.py:377-464 | a ready batch passes every check of the item graph |
| StructuredReviewProofs.ReadyStreamDomain | ki_radar/accelerator/structured_adoption_orchestrator.py:560-628 | for a ready value stream batch the domain accepts exactly if every field check, form, sequence and existing stage does |
| StructuredReviewProofs.MetricPathsUnique | ki_radar/accelerator/structured_review.py:227-237 | a metric path has one item, since its local key is made from the path; so a doubled path is no objection |
| StructuredReviewProofs.ReadyMetricDomain | ki_radar/accelerator/structured_adoption_orchestrator.py:515-557 | for a ready use case batch the domain accepts exactly if no metric changed since the review and the form accepts the merge |
| StructuredReviewProofs.ReadyImpliesExecutable | ki_radar/accelerator/structured_review.py:745-768 | ready implies executable: the reservation is granted, the graph accepted, and execution succeeds if and only if target, permission and captures are in order and no field check or form, sequence collision, vanished existing stage or changed metric objects |
| StructuredReviewProofs.ReadyIff | ki_radar/accelerator/structured_review.py:745-768 | in every batch the review can reach: ready exactly if open or failed, every item rejected or confirmed, at least one confirmed, and each confirmed one with a confirmed dependency |
| StructuredOutcome.ExecutionResolvesItems | ki_radar/accelerator/structured_adoption_orchestrator.py:676-705 | an execution adopts every confirmed item and leaves every rejected one; there is no third kind |
| StructuredOutcome.CommitAdoptsSealedGraph | ki_radar/accelerator/structured_adoption_orchestrator.py:130-171 | a commit with a key adopts exactly the selected entries of the graph sealed in that key |
| StructuredOutcome.ExecutionOutcome | ki_radar/accelerator/structured_adoption_orchestrator.py:560-628 | every stage and process created is new, distinct, has the confirmed fields and hangs at the stage its reference names; nothing else in the tables changed; or the metrics are the form's merge |
| StructuredOutcome.AttachedAfterStages | ki_radar/accelerator/structured_process_adoption.py:275-327 | after the stage loop an existing reference resolves to the stage it names and a local one to the stage just created for the item it depends on |
| StructuredOutcome.StageSequencesStayUnique | ki_radar/accelerator/structured_stage_adoption.py:198-260 | distinct stage sequences stay distinct, and the new set is the disjoint union of the old one and the batch's |
| StructuredOutcome.ExecutionKeepsSequences | ki_radar/accelerator/structured_stage_adoption.py:263-296 | the same for an execution |
| StructuredOutcome.CommitIsAllOrNothing | ki_radar/accelerator/structured_adoption_orchestrator.py:810-835 | one call either adopts everything as in `ExecutionOutcome`, or leaves items and domain as they were; it is refused, replayed or executed exactly by key, target, permission and batch status as listed, and a failure ends in CONFLICT, STALE or FAILED by its error |
| StructuredOutcome.FailureLeavesReady | ki_radar/accelerator/structured_adoption_orchestrator.py:730-763 | after a failure the batch shows as ready and its key can be reserved exactly if the error is no conflict, no missing target and no outdated capture; otherwise a further decision has to seal it anew |
| StructuredOutcome.ReservationExcludes | ki_radar/accelerator/structured_adoption_orchestrator.py:271-319 | reserved exactly from OPEN or FAILED under the sealed key; then attempts are one more, key and graph the same, and until it is released no decision is possible and every further reservation is refused, whatever key it brings |
| StructuredOutcome.FailureReleases | ki_radar/accelerator/structured_adoption_orchestrator.py:738-790 | a recorded failure makes the batch CONFLICT, STALE or FAILED by its error as listed, releases it for review under the same key, graph and attempts, and adds one audit that is no commit |
| StructuredOutcome.RefusalLeavesKey | ki_radar/accelerator/structured_adoption_orchestrator.py:730-763 | which refused executions leave a key that can be reserved again: those whose target existed, whose captures were current or had vanished, and which met no conflict; a missing target or outdated captures make the batch STALE, a conflict makes it CONFLICT |
| StructuredSteps.LocalResolvesAfterStages | ki_radar/accelerator/structured_process_adoption.py:296-327 | a local stage reference resolves after the stage loop exactly when its dependency is a selected stage item of that key, and then to what this item created |
| StructuredSteps.ProcessesAfterStages | ki_radar/accelerator/structured_adoption_orchestrator.py:599-623 | once the stages exist, the process loop succeeds exactly when it was going to |
| StructuredStore.Store.constructor | ki_radar/accelerator/structured_review.py:415-498 | creating a review batch stores the items, seals them and notes the creation |
| StructuredStore.Store.SetProcessReference | ki_radar/accelerator/structured_review.py:575-613 | a reference is bound exactly if it names an existing stage of the stream or a usable stage item of the batch |
| StructuredStore.Store.ConfirmReviewItem | ki_radar/accelerator/structured_review.py:654-726 | confirmed exactly if interpretation, uncertainty, forms and reference allow it; otherwise no item changes |
| StructuredStore.Store.DecideReviewItem | ki_radar/accelerator/structured_review.py:626-742 | decided exactly if editable and acceptable; then the rows change as `Decides` says, otherwise not at all |
| StructuredStore.Store.ReviewBatchReady | ki_radar/accelerator/structured_review.py:745-768 | the loop answers exactly whether every item is rejected or confirmed with confirmed dependencies, and one is selected |
| StructuredStore.Store.AssertItemGraph | ki_radar/accelerator/structured_adoption_orchestrator.py:377-464 | the checking loop accepts exactly the item graphs with the sealed hash, complete decisions and usable dependencies |
| StructuredStore.Store.CheckStageItems | ki_radar/accelerator/structured_stage_adoption.py:215-234 | the first loop passes exactly if every item is valid by itself and the batch's sequences differ; a conflict is only reported for a clash |
| StructuredStore.Store.PrepareStageForms | ki_radar/accelerator/structured_stage_adoption.py:198-260 | passes exactly if all stages of the batch can be created together, before the first is inserted; a conflict is only reported for a clash |
| StructuredStore.Store.AdoptStageItems | ki_radar/accelerator/structured_stage_adoption.py:263-296 | all stages created as confirmed and listed under their keys, or nothing |
| StructuredStore.Store.AdoptProcessItem | ki_radar/accelerator/structured_process_adoption.py:368-438 | created exactly if item and stage reference are in order, as one new row and one adopted item |
| StructuredStore.Store.AdoptProcessItems | ki_radar/accelerator/structured_adoption_orchestrator.py:599-623 | the loop succeeds exactly if each item is in order at its start, and then creates and lists all of them |
| StructuredStore.Store.ConfirmedMetricItems | ki_radar/accelerator/structured_metric_adoption.py:126-149 | one confirmed item for each metric path, or a refusal of unusable or doubled items |
| StructuredStore.Store.MergeMetrics | ki_radar/accelerator/structured_metric_adoption.py:170-188 | merges seven fields: the confirmed value where there is one, the current one elsewhere; refused exactly if a value is missing or a field changed |
| StructuredStore.Store.AdoptMetricItems | ki_radar/accelerator/structured_metric_adoption.py:157-203 | saves the form's version of the merge to the metric fields and nothing else, or nothing |
| StructuredStore.Store.MarkMetricItemsAdopted | ki_radar/accelerator/structured_adoption_orchestrator.py:504-512 | marks exactly the given items adopted |
| StructuredStore.Store.ExecuteUseCaseGroup | ki_radar/accelerator/structured_adoption_orchestrator.py:515-557 | succeeds exactly if the domain accepts the metric group; the result snapshot tells values, sources and changed fields |
| StructuredStore.Store.ExecuteValueStreamGroup | ki_radar/accelerator/structured_adoption_orchestrator.py:560-628 | succeeds exactly if the domain accepts stages and processes; the result snapshot lists what each key created |
| StructuredStore.Store.CheckReservedBatch | ki_radar/accelerator/structured_adoption_orchestrator.py:656-679 | the first failing check, in the order they are made |
| StructuredStore.Store.ExecuteReservedBatch | ki_radar/accelerator/structured_adoption_orchestrator.py:655-727 | everything or nothing: executed exactly if all checks pass, otherwise the rows are as before and the error is the first reason |
| StructuredStore.Store.CommitStructuredBatch | ki_radar/accelerator/structured_adoption_orchestrator.py:810-835 | preflight, reservation, execution and failure record together |
| StructuredStore.Store.CommitReviewBatch | ki_radar/accelerator/structured_review.py:771-785 | commits under the stored key exactly if editable and ready |
| Validator.StringList | ki_radar/accelerator/solution_generation_validation.py:78-85 | the non-empty texts of a list, stripped, with an error unless all entries are such |
| Validator.ValidateNumericClaims | ki_radar/accelerator/solution_generation_validation.py:112-135 | an error is added exactly if a number of the text occurs in none of the cited sources |
| Validator.ValidateStatement | ki_radar/accelerator/solution_generation_validation.py:138-218 | returns the normal form and adds errors exactly if the statement is not acceptable; earlier errors stay |
| Validator.CheckDistinguishable | ki_radar/accelerator/solution_generation_validation.py:267-285 | with all texts given, an error exactly if two names or two content signatures agree |
| Validator.ValidatePayload | ki_radar/accelerator/solution_generation_validation.py:227-298 | returns the normalised payload, or errors exactly if it is not acceptable |
| PayloadMeaning.StatementMeans | ki_radar/accelerator/solution_generation_validation.py:138-218 | a statement passes exactly if the JSON object has exactly its members, all texts visible, names known sources once each, has a known level and something to stand on, and takes every number from a source it names; it is read as the stripped texts |
| PayloadMeaning.PayloadMeans | ki_radar/accelerator/solution_generation_validation.py:227-298 | a payload passes exactly if it is three drafts of ten such statements in the current versions and any two drafts differ in name and in one of the six compared fields; it is read as what it says |
| PayloadMeaning.SameSignature | ki_radar/accelerator/solution_generation_validation.py:221-224 | two texts compare equal exactly if, in lower case, they have the same words |
| PayloadProofs.AcceptedIsGood | ki_radar/accelerator/solution_generation_validation.py:227-298 | what the validator returns is stripped, grounded, has provenance and known distinct sources in every statement, and pairwise distinct names and contents |
| PayloadProofs.StatementFixpoint | ki_radar/accelerator/solution_generation_validation.py:138-218 | a statement is accepted as itself exactly if it is clean and its values hold |
| PayloadProofs.ValidatorFixpoint | ki_radar/accelerator/solution_generation_validation.py:227-298 | a payload is accepted and returned unchanged exactly if it is good |
| PayloadProofs.ValidationIsIdempotent | ki_radar/accelerator/solution_generation_validation.py:227-298 | what the validator returns it accepts again, unchanged |
| PayloadProofs.OverlayChecks | ki_radar/accelerator/solution_generation_effective.py:181-191 | validating a clean payload with some raw statements put in passes exactly if those and the rest do and the drafts stay distinguishable, and normalises only those |
| PayloadProofs.SignatureIsVisible | ki_radar/accelerator/solution_generation_validation.py:267-285 | the comparison form of a visible text is never empty, so comparing "only if all are given" leaves nothing out |
| EffectiveBuilder.NormalizeEdits | ki_radar/accelerator/solution_generation_effective.py:27-68 | reads the stored edits by target, or refuses unknown lanes, unknown fields and empty texts |
| EffectiveBuilder.NormalizePatches | ki_radar/accelerator/solution_generation_effective.py:111-144 | reads the stored patches in order, or refuses a bad shape, an unknown target or a target named twice |
| EffectiveBuilder.NormalizeMachineRepair | ki_radar/accelerator/solution_generation_effective.py:71-152 | readable exactly if absent or of the right shape, contract and patches; then the statement each patch puts in place |
| EffectiveBuilder.OverlayEdits | ki_radar/accelerator/solution_generation_effective.py:193-195 | overwrites exactly the edited texts |
| EffectiveBuilder.BuildEffective | ki_radar/accelerator/solution_generation_effective.py:155-203 | the three layers with a validation after each, and the code of the layer that failed |
| EffectiveProofs.BuildLayers | ki_radar/accelerator/solution_generation_effective.py:155-203 | a payload is built exactly if each layer holds, and it is the generator's with patches over statements and edits over texts |
| EffectiveMeaning.EffectiveMeans | ki_radar/accelerator/solution_generation_effective.py:155-203 | an effective payload can be built exactly if the stored preview holds a sound payload, a readable repair that keeps it sound or none, and readable edits that keep it sound; and it is the payload with the patched statements and edited texts in place |
| EffectiveMeaning.RefusalMeans | ki_radar/accelerator/solution_generation_effective.py:155-203 | which layer a refusal blames, in terms of what the preview holds |
| EffectiveMeaning.RepairMeans | ki_radar/accelerator/solution_generation_effective.py:71-152 | a stored repair is readable exactly if it has its five members, the contract versions and at least one patch, one object with known lane, known field and a well-formed statement for each target |
| EffectiveMeaning.EditsMean | ki_radar/accelerator/solution_generation_effective.py:27-68 | stored edits are readable exactly if they are visible texts by known lane and field, and they are read as those texts stripped |
| EffectiveProofs.EffectiveIsGrounded | ki_radar/accelerator/solution_generation_effective.py:155-203 | in every effective payload each number occurs in a source the statement cites, sources are known and distinct, provenance is there, drafts are distinguishable |
| PreviewEdits.FormEdits | ki_radar/accelerator/solution_generation_forms.py:107-120 | the form hands on exactly the texts that differ from the generator's |
| PreviewEdits.NormalizeEdits | ki_radar/accelerator/solution_generation_preview.py:207-240 | the service keeps exactly the differing texts, or refuses unknown lanes, unknown fields and empty texts |
| PreviewEdits.GenerationRun.UpdateEdits | ki_radar/accelerator/solution_generation_preview.py:243-282 | saves the normalised edits into the preview, only while it is successful and editable |
| EditRoundTrip.EditsReadBack | ki_radar/accelerator/solution_generation_preview.py:278-281 | stored edits are read back as they were |
| EditRoundTrip.ChangedIsIdempotent | ki_radar/accelerator/solution_generation_preview.py:207-240 | dropping unchanged texts in the form and again in the service is dropping them once |
| EditRoundTrip.EditsSurvive | ki_radar/accelerator/solution_generation_effective.py:193-198 | edit round trip, target by target: the submitted text is in effect unless, exactly, a repaired text was set back to the generator's original; then the repaired text stays |
| EditRoundTrip.EditsSurviveUnrepaired | ki_radar/accelerator/solution_generation_effective.py:193-198 | without a machine repair every submitted text is in effect |
| Repair.RepairScope | ki_radar/accelerator/solution_repair_contract.py:169-207 | the ids of the repairable findings in order and the sorted set of fields they concern, or why there is no scope |
| RepairOutput.ReadPatches | ki_radar/accelerator/solution_repair_output.py:181-211 | errors are added exactly if some patch is malformed, doubled or not planned; otherwise one raw statement for each target seen |
| RepairOutput.ValidateRepairPayload | ki_radar/accelerator/solution_repair_output.py:158-240 | the normalised patches in plan order, or errors exactly if shape, targets or the patched payload do not hold |
| RepairProofs.PatchMapReadsBack | ki_radar/accelerator/solution_generation_effective.py:126-144 | the stored patches are read back target by target |
| RepairProofs.ValidRepairIs | ki_radar/accelerator/solution_repair_output.py:219-236 | an accepted output replaces exactly the plan's targets, and the payload it was checked in is good |
| RepairProofs.RepairFrame | ki_radar/accelerator/solution_repair_service.py:208-235 | the repair frame: activation succeeds exactly if the patches also hold without the human edits; then the effective payload is the old one with exactly the targets replaced, and every human edit stays |
| RepairProofs.FreedNameIsRefused | ki_radar/accelerator/solution_generation_effective.py:181-198 | a failing family: a repair that gives a draft the original name of a draft a person renamed is accepted but cannot be activated |
| Witnesses.FreedNameExample | ki_radar/accelerator/solution_generation_effective.py:181-198 | one of them: drafts A, B and C, the first renamed to D, and a repair that renames the second to A |
| Witnesses.ResetEditExample | ki_radar/accelerator/solution_generation_preview.py:235-237 | a repaired name E set back to the generator's B and saved: the effective name is still E |
| RepairReplay.NormalisedPatchesAcceptedAgain | ki_radar/accelerator/solution_repair_service.py:208-219 | the normalised patches of an accepted output are accepted again and returned unchanged when it is activated |
| RepairProofs.UneditedRepairActivates | ki_radar/accelerator/solution_repair_service.py:208-235 | without human edits an accepted output can always be activated |
| QualityStore.QualityStore.ReserveStep | ki_radar/accelerator/solution_quality_runs.py:64-134 | one run for each step type, whoever asks first |
| QualityStore.QualityStore.MarkSuccess | ki_radar/accelerator/solution_quality_runs.py:149-217 | a run succeeds only while it is running and every value handed to it fits: a name of at most 200 characters, figures within their columns, texts that can be stored |
| QualityStore.QualityStore.MarkFailed | ki_radar/accelerator/solution_quality_runs.py:220-267 | a run fails only while it is running and the model name fits, whatever the usage |
| QualityStore.QualityStore.Succeed | ki_radar/accelerator/solution_critic_service.py:164-181 | a run is marked as successful with an answer exactly if name, usage and texts allow it, and else stays as it was |
| Answers.UsageReadsIff | ki_radar/accelerator/solution_critic_service.py:114-131 | a reported usage can be read and stored exactly if none of its figures is a list or an object, no count is infinite or beyond its column, and the cost is neither a NaN nor too large, a negative infinity being dropped |
| Answers.MarksIff | ki_radar/accelerator/solution_quality_runs.py:165-187 | a run can be marked as successful exactly if the texts can be stored, the stripped name has at most 200 characters, and every figure is harmless |
| QualityStore.QualityStore.TakeSnapshot | ki_radar/accelerator/solution_quality_snapshot.py:25-64 | the snapshot of the effective payload under the source context, if there is one |
| QualityStore.QualityStore.BuildPlan | ki_radar/accelerator/solution_repair_contract.py:210-308 | the plan of the rows, or none exactly if no plan fits them |
| QualityStore.QualityStore.PlanIsUnique | ki_radar/accelerator/solution_repair_service.py:118-123 | the rows allow one plan, so comparing plans is checking the reserved one again |
| QualityStore.OrderIsUnique | ki_radar/accelerator/solution_repair_contract.py:72-73 | two sorted target lists with the same targets are equal |
| QualityStore.QualityStore.ReserveRepair | ki_radar/accelerator/solution_repair_contract.py:311-373 | reserved exactly if there was no repair and a plan fits; bound to the plan's snapshot |
| QualityStore.QualityStore.ActivateRepair | ki_radar/accelerator/solution_repair_service.py:164-250 | repaired preview and successful run together, or neither: refused exactly if a check fails, and rolled back by an exception exactly if the run cannot be marked with the answer |
| QualityStore.QualityStore.RunCritic | ki_radar/accelerator/solution_critic_service.py:242-367 | one run over the snapshot read: failed without a call if the expected snapshot differs, successful with the findings of the reply, left running exactly if the answer is unreadable, its name does not fit, or findings come with a usage or texts that cannot be stored; nothing if the step exists. The runs are those the pipeline's own actions reach |
| QualityStore.QualityStore.RunInitialCritic | ki_radar/accelerator/solution_critic_service.py:370-374 | an initial critic is a course of the pipeline's actions from its trigger to its end |
| QualityStore.QualityStore.RunFinalCritic | ki_radar/accelerator/solution_critic_service.py:377-388 | runs only for a successful repair the preview is bound to, expecting its output; it is a course of the pipeline's actions |
| QualityStore.QualityStore.RunTargetedRepair | ki_radar/accelerator/solution_repair_service.py:263-402 | at most one run: successful with exactly the recorded patches stored, or failed or left running with the preview as it was; left running only if the answer is unreadable or the run cannot be marked with it, and always if it is unreadable or the name does not fit. Preview and runs are those the pipeline's own actions reach |
| QualityPipeline.StepKeepsSound | ki_radar/accelerator/solution_quality_runs.py:106-145 | every save, trigger, repair request and action of a call keeps the pipeline invariant |
| QualityResults.PipelineIsBounded | ki_radar/accelerator/solution_quality_runs.py:106-134 | over every run at most one quality run of each step type and at most three provider calls |
| QualityResults.FinishedIsFinal | ki_radar/accelerator/solution_quality_runs.py:138-145 | a finished quality run never changes, no run changes its step or what it judges, and a new run is running |
| QualityResults.RunningIffOwned | ki_radar/accelerator/solution_quality_runs.py:123-145 | at every point of every run of the pipeline, a quality run is RUNNING exactly while one call owns it |
| QualityResults.LeavesRunningOnce | ki_radar/accelerator/solution_quality_runs.py:138-145 | a quality run has left RUNNING once if it is finished, and not at all otherwise |
| QualityResults.EveryRunFinishesOnce | ki_radar/accelerator/solution_quality_runs.py:148-267 | exactly once: when no call is in flight every quality run has left RUNNING exactly once and is SUCCESS or FAILED, if every answer was readable and came with a name, a usage and texts that a run can be marked with |
| QualityResults.NeverFinishedIffStranded | ki_radar/accelerator/solution_critic_service.py:337-367 | the exact condition: when no call is in flight, a quality run has never left RUNNING if and only if its call had an unreadable answer, was to mark it failed under a name that does not fit, or was to mark it successful with a name, a usage or texts it cannot be marked with |
| QualityResults.StrandedByAnAnswer | ki_radar/accelerator/solution_repair_service.py:349-402 | at every point of every run of the pipeline, a call has been ended by an exception exactly if one of these happened to its run before |
| StrandedExample.StrandedCourse | ki_radar/accelerator/solution_critic_service.py:242-367 | each such answer to a critic does occur in a run of the pipeline, which leaves the quality run RUNNING with no call in flight |
| StrandedExample.ShortNamesStrand | ki_radar/accelerator/solution_critic_service.py:124-131 | two such runs with a model named m: findings with a NaN for the cost, and a text that cannot be read though nothing is wrong with the usage |
| QualityResults.AbortedStays | ki_radar/accelerator/solution_quality_runs.py:138-145 | such a run stays RUNNING for ever |
| QualityResults.TraceGrows | ki_radar/accelerator/solution_quality_runs.py:138-145 | between any two points of a run finished quality runs stay as they are |
| QualityResults.RepairFollowsCritic | ki_radar/accelerator/solution_repair_contract.py:326-361 | a repair exists only after a successful initial critic with a repairable finding, over the same snapshot |
| QualityResults.FinalFollowsRepair | ki_radar/accelerator/solution_critic_service.py:198-239 | a final critic exists only after a successful repair and succeeds only on exactly its output |
| QualityResults.FinalJudgesRepairedText | ki_radar/accelerator/solution_critic_service.py:268-282 | the provider is asked for a final judgement of nothing but the repair's output |
| QualityResults.FindingsWereAnswered | ki_radar/accelerator/solution_critic_service.py:351-366 | the findings of a successful critic are those of the reply the provider gave to the call that owned its run |
| QualityResults.RepairWasAnswered | ki_radar/accelerator/solution_repair_service.py:349-390 | a successful repair stored the preview and recorded the patches that the provider's own reply, checked and normalised, amounts to |
| QualityOrigins.CriticJudgesPreview | ki_radar/accelerator/solution_critic_service.py:242-266 | what a critic judges is the effective payload the preview had, with the version and hash of the generation, at a moment its call read it |
| QualityOrigins.RepairWasPlanned | ki_radar/accelerator/solution_repair_contract.py:210-308 | every repair was planned from a successful critic of the very snapshot it is to repair, while contracts and sources were current: its targets are those the repairable findings name or relate, its finding ids theirs, and none carries a human edit |
| QualityOrigins.PlanFitsIff | ki_radar/accelerator/solution_repair_contract.py:210-308 | a plan fits the rows exactly if it says what such a critic asks for and everything is current |
| QualityOrigins.CallsWereAllowed | ki_radar/accelerator/solution_repair_service.py:126-162 | the provider is asked for a run only if the quota allows it and the run is still what it was reserved for: the expected snapshot, or a plan that holds at that moment |
| QualityOrigins.TriggersAreKept | ki_radar/accelerator/solution_quality_signals.py:16-51 | triggers are neither lost nor made up: those fired and those due are one for each saving of a readable preview and one at the start for the initial critic, one for each activated repair for the final one |
| QualityResults.ActivationIsFramed | ki_radar/accelerator/solution_repair_service.py:198-241 | an activation in the pipeline satisfies the repair frame, and the recorded output is the new effective payload |
| FieldAdoption.Store.CompleteCandidate | ki_radar/accelerator/candidate_state.py:52-74 | the conditional completion, and an error unless it hit or already holds |
| FieldAdoption.Store.CompleteResult | ki_radar/accelerator/adoption_service.py:139-179 | completion, audit and answer together |
| FieldAdoption.Store.AdoptFieldCandidate | ki_radar/accelerator/adoption_service.py:276-422 | the gates in their order, the comparison and the write |
| FieldAdoption.Store.CompareThenWrite | ki_radar/accelerator/adoption_service.py:343-422 | conflict, unchanged, invalid or written, by the canonical current value |
| FieldAdoption.Store.RejectFieldCandidate | ki_radar/accelerator/adoption_service.py:460-535 | the gates of a rejection, replay and discard |
| FieldAdoption.Store.DiscardConflictCandidate | ki_radar/accelerator/adoption_service.py:425-457 | a conflict becomes rejected without a second audit |
| FieldAdoption.Store.CreateAdoptionCandidates | ki_radar/accelerator/candidate_snapshot.py:115-176 | all candidates of an analysis, superseding older open ones, or none |
| FieldAdoptionProofs.RunKeepsTidy | ki_radar/accelerator/models.py:320-355 | every run from tidy tables keeps at most one open candidate per target field, none in processing, exactly one fitting audit for each resolved candidate and none for others |
| FieldAdoptionProofs.EmptyTablesTidy | ki_radar/accelerator/models.py:320-355 | so does every run from empty tables |
| FieldAdoptionProofs.TerminalIsFinal | ki_radar/accelerator/candidate_state.py:52-74 | terminal candidates never change except a conflict that is discarded, and audits never change |
| FieldAdoptionProofs.CallsChangeOpen | ki_radar/accelerator/candidate_state.py:34-49 | a call on an open candidate always resolves it, so it counts as a resolution |
| FieldAdoptionProofs.ReplayAnswersTheSame | ki_radar/accelerator/adoption_service.py:65-81 | after any run in which a call changed the candidate, discards included, adopting or rejecting it again answers the outcome of the last call that changed it and changes nothing; only a conflict can still be discarded |
| FieldAdoptionProofs.SupersedingFrees | ki_radar/accelerator/candidate_state.py:77-99 | superseding leaves no other open candidate on the field and every other row as it is |
| FieldAdoptionProofs.NoLostUpdate | ki_radar/accelerator/adoption_service.py:343-422 | adoption writes only if the canonical current value is the one seen at creation, then changes that field alone; past the gates it reports a conflict exactly if the value changed |
| FieldAdoptionProofs.OnlyAdoptionWrites | ki_radar/accelerator/adoption_service.py:460-535 | rejecting, discarding and creating never write a target |
| FieldAdoptionProofs.AdoptionWritesWanted | ki_radar/accelerator/adoption_service.py:343-422 | what an adoption writes: nothing unless everything permits it, the field has the value seen, the wanted text (the canonical edit if one was given, else the canonical proposal) is another one and the form takes it changing this field alone; then what the form made of the wanted text. The answer tells the value the field has, and is ADOPTED_EDITED exactly for a text of the caller's own |
| FieldAdoptionProofs.AdoptionIsRecorded | ki_radar/accelerator/adoption_audit.py:30-69 | the audit of an adoption records who, the value before, the value now and what was submitted |
| FieldAdoptionProofs.RejectionIffPermitted | ki_radar/accelerator/adoption_service.py:461-535 | an open candidate is rejected exactly if everything permits it, and otherwise resolved with a reason that holds |
| FieldAdoptionProofs.DiscardIffPermitted | ki_radar/accelerator/adoption_service.py:425-458 | a conflict is discarded exactly by somebody who may edit the target, or once the target is gone |
| FieldAdoptionProofs.CreationIff | ki_radar/accelerator/candidate_snapshot.py:115-176 | an analysis gets a candidate for every adoptable suggestion, or none at all: exactly if it is unusable, its target gone or inactive, or a proposal no text |
| FieldAdoptionProofs.CreatedFrom | ki_radar/accelerator/candidate_snapshot.py:142-175 | a new candidate records the canonical proposal, the canonical value seen with its hash, and the time of the target |
| FieldAdoptionProofs.WrittenAtMostOnce | ki_radar/accelerator/adoption_service.py:276-422 | a candidate is written at most once, and never once resolved |
| Canonical.CanonicalIffSettled | ki_radar/accelerator/candidate_snapshot.py:37-49 | the canonical texts are exactly those in normal form, without carriage returns, trailing blanks or outer white space |
| Canonical.CanonicalizeIdempotent | ki_radar/accelerator/candidate_snapshot.py:37-53 | canonicalising a canonical text changes nothing, so an untouched target never conflicts |
| Canonical.CanonicalKeepsLines | ki_radar/accelerator/candidate_snapshot.py:37-53 | the canonical text is, line by line, the normalised text without the blanks at line ends, and only white space is cut off at both ends |
| Canonical.LineEndsDoNotMatter | ki_radar/accelerator/candidate_snapshot.py:37-53 | texts that differ only in how their lines end have the same canonical text |
| DecimalProofs.PrintKeepsNumber | ki_radar/accelerator/structured_review.py:122-124 | the printed number is the number exactly if it needs at most 28 significant digits |
| DecimalProofs.FormatReads | ki_radar/accelerator/structured_normalization.py:138-180 | a plain decimal is read as the same number, or as ambiguous exactly by the three-digit rule |
| DecimalProofs.PrintReadsBack | ki_radar/accelerator/structured_normalization.py:138-180 | print and re-parse: ambiguous exactly with three fraction digits and at most three whole digits, otherwise valid, and the same number exactly up to 28 significant digits |
| DecimalProofs.AcceptedValueReadsBack | ki_radar/accelerator/structured_review.py:521-529 | the same for every value the normaliser accepts |
| DecimalProofs.LongTextChanges | ki_radar/accelerator/structured_review.py:122-124 | the text of a one, at least 27 zeros and a one is accepted, and what is stored of it reads back as another number |
| DecimalProofs.RoundIsNearest | ki_radar/accelerator/structured_review.py:122-124 | what is rounded goes to the nearest number of 28 digits, from the middle to the even one |
| DecimalForms.IntegerReads | ki_radar/accelerator/structured_normalization.py:118-154 | a signed or unsigned integer, with or without a unit, is read as itself in that unit |
| DecimalForms.DecimalReads | ki_radar/accelerator/structured_normalization.py:156-180 | a number with a decimal comma or point, with any sign and any recognised unit, is ambiguous exactly by the three-digit rule, and otherwise read as the number its digits spell |
| DecimalForms.GroupedReads | ki_radar/accelerator/structured_normalization.py:145-152 | a number in groups of three with a decimal comma is read as the same text without its points |
| DecimalForms.ReadIffForm | ki_radar/accelerator/structured_normalization.py:138-180 | a number is read exactly if it is an integer, an unambiguous fraction or in groups with a decimal comma |
| DecimalForms.MixedIff | ki_radar/accelerator/structured_normalization.py:145-152 | a number with a point and a comma is ambiguous exactly if it is not in groups |
| DecimalForms.RangeIsRefused | ki_radar/accelerator/structured_normalization.py:118-123 | two digits with a dash or the word between them make the text an ambiguous range |
| DecimalForms.UnknownUnitIsRefused | ki_radar/accelerator/structured_normalization.py:125-135 | a number before a word that names no unit is refused |
| DecimalForms.AcceptedIsNumber | ki_radar/accelerator/structured_normalization.py:118-180 | whatever is read is no range, and a number before nothing or a recognised unit |
| Quota.Ledger.IncrementQuota | ki_radar/accelerator/analysis_service.py:150-177 | one more call, unless the limit is reached |
| Quota.Ledger.ReserveQuotas | ki_radar/accelerator/analysis_service.py:180-194 | succeeds exactly if all three counters are below their limits, and then charges all three |
| Quota.Ledger.PrepareCaptureAnalysis | ki_radar/accelerator/analysis_service.py:221-294 | charged exactly if prepared; every error rolls back |
| Quota.Ledger.PrepareSolutionGeneration | ki_radar/accelerator/solution_generation_service.py:239-303 | charged exactly if prepared; a running generation is refused first |
| Quota.QuotaConservation | ki_radar/accelerator/analysis_service.py:150-194 | over every run no counter exceeds its limit, the global counter of a day is the number of accepted calls, and users' and contexts' totals equal it, or stay below it after deletions |
| Quota.CountersCountCalls | ki_radar/accelerator/solution_generation_service.py:109-162 | without deletions every counter is the number of accepted calls it is scoped to |
| Quota.AcceptedIffBelow | ki_radar/accelerator/analysis_service.py:150-194 | as long as nothing is deleted, a call is accepted exactly if nothing of its kind runs and its context, its user and everybody have had fewer accepted calls that day than the policy allows |

## Left out

- Building items from suggestions (grouping, labels, first interpretation): a new batch starts with arbitrary items of the shape these loops produce.
- Review exports, contexts and labels: they only display.
- Retention, capture session revisions, role defaults and solution selection: they touch no row of the four mechanisms, but supply what is an input here (form defaults, whether captures are current). Only the deletion of an expired session also deletes what belongs to it; that is not a step of the model.
- The target a review item is decided against is the batch's own; the code takes the one its session has at that moment, if it has one.
- Views, URLs, templates, admin, settings and logging.
- The stored figures of a usage: only whether they can be read and stored, with the column limits of PostgreSQL. What `int` and `Decimal` make of a figure given as a text is an input.
- Failures of the database other than values that do not fit their columns, and generation runs deleted while a call is in flight.
- Provider prompts and JSON schemas: a provider call is an arbitrary answer or none.
- Agreement between extraction and review normalisation: the two read the same text differently, and no statement joins them.
- The number pattern of the validator: the extraction of numbers is a parameter.
- The texts of error messages: an error has a path and a kind, and commit errors are grouped where the batch status they lead to is the same.
- Item and details of a failure audit, snapshots of foreign keys beside the keys, and update timestamps.
- Insertion order of stages: they are created in the order of local keys; the code sorts by sequence. Ids are a counter, so only their distinctness is used.
- The decision CURRENT_DATABASE: no transaction of review ever sets it, and the model keeps that as a constraint.
- Form internals and the mapping of metric paths to columns; the process snapshot stored with a new process is represented by its item.
- Integrity and expiry of a field candidate, and the uncertainty of its suggestion, are inputs of each call.
- Digits outside ASCII, and exponents beyond the limits of the decimal context.
- `str()` of a stored original text that is not a text: the original is the empty text then.
- Validation of a critic's findings: an answer is a list of findings, unusable or unreadable, and whether the persisted findings are reproducible is an input.
- Input lengths and durations of quality runs, and recovery of generation runs that are still marked running.
- The saving of a failed quality run's usage after it was marked failed, which changes no modelled column and cannot keep it running.
- The two post-save triggers are not callbacks: what they make due is part of the step that saves.
- Taking over drafts as solution options: only that it notes so in the preview, saves and thereby triggers.
- StructuredStore.Store.CommitStructuredBatch: states one call when nothing happens between its transactions; interleavings are in `StructuredProtocol`.
- QualityStore.QualityStore.RunTargetedRepair: states one call when nothing happens between its actions; interleavings are in `QualityPipeline`.
- QualityStore.QualityStore.RunCritic: as the call above.
