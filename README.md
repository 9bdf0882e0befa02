# StreamSets data collector: batch lanes, offset tracking and rule-change detection

This project models three parts of the StreamSets data collector runner in Dafny and proves properties of the model.

- **The batch engine** (`FullPipeBatch`). One batch run keeps a lane payload: a map from pipe-lane name to the records on that lane. A lane entry is either pending (the `null` a started stage puts on its output lanes) or populated. A lane that is not a key was never produced in this batch, or it has already been consumed. Stages are started at most once per batch. `getBatch` consumes a stage's input lanes. `completeStage` stores a stage's output under its pipe lanes. `moveLane`, `moveLaneCopying` and `combineLanes` rename lanes, fan them out with cloned records, and concatenate them. Two Java `int` counters track the records that sources emit and the records that targets keep. Per-stage output snapshots are optional. The source offset is handed through to the offset tracker.
- **The production source offset tracker**. It holds the committed offset, a tentative new offset and a `finished` flag. Its durable store holds one offset per (pipeline, revision). A missing entry means there is no offset file yet, and `None` stands for the `null` offset.
- **The rules configuration loader**. It diffs the previous rule-definition snapshot against a newly retrieved one. The diff gives the data rules to tear down, the metric alerts to remove and the sampled-record retention sizes to change. It then rebuilds the index from observer lane to data rules and notifies the observer when the snapshot object is new.

Files, one module each:

| file | module | contents |
|---|---|---|
| `wrappers.dfy` | `Wrappers` | `Option`, `Result` |
| `records.dfy` | `Records` | the mutable `Record` object, its clone, list and map copies |
| `offset_tracker.dfy` | `OffsetTracking` | the store, the tracker class and client runs of it |
| `rule_changes.dfy` | `RuleChanges` | rule values, the field comparisons, the diff loops, the lane index, the loader class |
| `rule_change_lemmas.dfy` | `RuleChangeProperties` | what the diff tears down, resizes and indexes |
| `lane_payload.dfy` | `LanePayload` | payload entries and the meaning of consuming, storing and combining lanes |
| `error_sink.dfy` | `ErrorSinks` | per-stage error records and messages and their totals |
| `full_pipe_batch.dfy` | `PipeBatches` | stage pipes, batch makers, the `FullPipeBatch` class |
| `pipe_batch_scenarios.dfy` | `PipeBatchScenarios` | client runs of a batch |

Modelling choices:

- A Java `null` string is `None` of `Option<string>`.
- `areStringsSame(null, null)` dereferences `null`. The model gives it the result `Failure(NullDereference)`, and that failure aborts the diff, `detectChanges` and `load`.
- The snapshot identity test in `load` (`!=` on references) compares an `instance` token that every retrieved snapshot carries.
- Records are heap objects, so a clone is a fresh object with equal content.
- Exceptions thrown by the batch engine become a returned `BatchError`. The state is left as it was at the throw.
- The Java `int` counters are modelled with explicit 32-bit wrap-around (`Int32`). Ghost fields hold the unbounded running sums that the counters wrap.
- The lane-naming functions of `LaneResolver` are function parameters: `observerLane` and `removePostfix`.
- The rule store's `retrieveRules` result is a parameter of `Load`.

The model follows the code as written, including behaviour that its names and messages do not suggest:

- The lane index holds every data rule of the new snapshot, enabled or not. The loop at `RulesConfigLoader.java:65-74` does not filter out disabled rules.
- A metric rule's alerts are removed under its `metricId`, not under the rule's own `id` that the diff matches on.
- `moveLaneCopying` never rejects an unknown destination lane, although its message "Lane '{}' does not exist" says it should (see Findings).
- `completeStage` does not check that the stage and pipe lane lists have equal length. With more stage lanes it throws once the pipe lanes run out. With fewer, the remaining pipe lanes stay pending.
- Consuming a lane that was never produced fails with a null dereference, after the lane has been removed. No "does not exist" message is produced for it.
- `combineLanes` rejects up front only lanes that are not keys ("Lanes '{}' does not exist"). A pending lane or a lane listed twice fails later, in the loop, as "Stream '{}' does not exist". When the target is one of the combined lanes, the loop removes the target and then dereferences its missing entry.

## Model

| member | source | states |
|---|---|---|
| RuleChanges.AreStringsSame | container/src/main/java/com/streamsets/pipeline/runner/production/RulesConfigLoader.java:180-188 | fails exactly when both sides are null; otherwise true exactly when the two strings are equal (false when only one is null) |
| RuleChanges.HasRuleChanged | container/src/main/java/com/streamsets/pipeline/runner/production/RulesConfigLoader.java:147-163 | fails exactly when the new rule is enabled and lane, condition or threshold value is null on both sides; otherwise true exactly when the new rule is enabled and lane, condition, threshold value, minimum volume, sampling percentage or threshold type differ, or the old rule was disabled |
| RuleChanges.HasSamplingSizeChanged | container/src/main/java/com/streamsets/pipeline/runner/production/RulesConfigLoader.java:137-145 | true exactly when the new rule is enabled and its retention size differs from the old rule's |
| RuleChanges.HasAlertChanged | container/src/main/java/com/streamsets/pipeline/runner/production/RulesConfigLoader.java:165-178 | fails exactly when the new metric rule is enabled and metric id or condition is null on both sides; otherwise true exactly when the new rule is enabled and metric id, condition, metric type or metric element differ, or the old rule was disabled |
| RuleChanges.DetectDataRuleChanges | container/src/main/java/com/streamsets/pipeline/runner/production/RulesConfigLoader.java:107-135 | with either list null the removal set and resize map come back unchanged; otherwise fails exactly when some same-id pair's comparison fails, and on success adds exactly the ids of old rules that are missing, newly disabled or changed with alerting or metering, and puts the new size of every same-id pair whose enabled new rule changed its retention size, in loop order |
| RuleChanges.DetectMetricRuleChanges | container/src/main/java/com/streamsets/pipeline/runner/production/RulesConfigLoader.java:83-105 | with either list null the alert set comes back unchanged; otherwise fails exactly when some same-id comparison fails, and on success adds exactly the metric ids of old rules that are missing, newly disabled or changed |
| RuleChanges.BuildLaneIndex | container/src/main/java/com/streamsets/pipeline/runner/production/RulesConfigLoader.java:65-74 | the index keys are exactly the observer lanes of the new rules, and each key maps to the rules on that lane in list order |
| RuleChanges.DetectChanges | container/src/main/java/com/streamsets/pipeline/runner/production/RulesConfigLoader.java:50-81 | fails exactly when a diff fails or the new data-rule list is null; on success the request carries the new snapshot, the removal sets, the resize map and the lane index; with no previous snapshot all three are empty |
| RuleChanges.RulesConfigLoader.Load | container/src/main/java/com/streamsets/pipeline/runner/production/RulesConfigLoader.java:38-47 | notifies exactly when the retrieved snapshot is a different object from the previous one, with the change request for the pair; on success returns the snapshot and makes it the previous one; a failed detection leaves the previous snapshot and notifies nothing |
| RuleChanges.RulesConfigLoader.SetPreviousRuleDefinitions | container/src/main/java/com/streamsets/pipeline/runner/production/RulesConfigLoader.java:190-192 | the previous snapshot becomes the given one |
| RuleChanges.RulesConfigLoader.constructor | container/src/main/java/com/streamsets/pipeline/runner/production/RulesConfigLoader.java:32-36 | a new loader has no previous snapshot |
| RuleChangeProperties.MissingDataRuleRemoved | container/src/main/java/com/streamsets/pipeline/runner/production/RulesConfigLoader.java:130-132 | an old data rule whose id is absent from the new list is torn down |
| RuleChangeProperties.NewlyDisabledDataRuleRemoved | container/src/main/java/com/streamsets/pipeline/runner/production/RulesConfigLoader.java:116-118 | an enabled rule whose same-id new version is disabled is torn down |
| RuleChangeProperties.DisabledDataRuleNotCompared | container/src/main/java/com/streamsets/pipeline/runner/production/RulesConfigLoader.java:137-163 | a disabled new version is never content-compared or resized; it forces teardown exactly when the old version was enabled |
| RuleChangeProperties.ContentChangeNeedsAlertOrMeter | container/src/main/java/com/streamsets/pipeline/runner/production/RulesConfigLoader.java:116-123 | for an enabled new version, the pair forces teardown exactly when the content changed and the old version had alerting or metering on |
| RuleChangeProperties.SamplingOnlyChangeResizesWithoutTeardown | container/src/main/java/com/streamsets/pipeline/runner/production/RulesConfigLoader.java:116-127 | with unique ids, a rule whose only change is its retention size makes the diff throw exactly when its lane, condition or threshold value is null; otherwise it is not torn down and is resized to the new size |
| RuleChangeProperties.UnchangedDataRulesTearNothingDown | container/src/main/java/com/streamsets/pipeline/runner/production/RulesConfigLoader.java:107-135 | with unique ids, diffing a data-rule list against itself tears nothing down and resizes nothing |
| RuleChangeProperties.MissingMetricRuleRemovesAlert | container/src/main/java/com/streamsets/pipeline/runner/production/RulesConfigLoader.java:100-102 | an old metric rule whose id is absent from the new list removes the alert of its metric id |
| RuleChangeProperties.UnchangedMetricRulesRemoveNoAlert | container/src/main/java/com/streamsets/pipeline/runner/production/RulesConfigLoader.java:83-105 | with unique ids, diffing a metric-rule list against itself removes no alert |
| RuleChangeProperties.ResizeEntriesMembers | container/src/main/java/com/streamsets/pipeline/runner/production/RulesConfigLoader.java:124-127 | an entry is put into the resize map exactly for a same-id pair whose enabled new rule changed its retention size, and it carries the new id and new size |
| RuleChangeProperties.PutAllKeys | container/src/main/java/com/streamsets/pipeline/runner/production/RulesConfigLoader.java:125-126 | after the puts, a key is present exactly when it was present before or was put |
| RuleChangeProperties.PutAllUniformValue | container/src/main/java/com/streamsets/pipeline/runner/production/RulesConfigLoader.java:125-126 | when every put for a key carries the same value, the map holds that value |
| RuleChangeProperties.SamplingResizeKeys | container/src/main/java/com/streamsets/pipeline/runner/production/RulesConfigLoader.java:124-127 | the resize map's keys are exactly the ids of same-id pairs with an enabled new rule and a changed retention size, whether or not the rule is also torn down |
| RuleChangeProperties.SamplingResizeValue | container/src/main/java/com/streamsets/pipeline/runner/production/RulesConfigLoader.java:124-127 | with unique new ids, a resized rule's id maps to its new retention size |
| RuleChangeProperties.RulesOnLaneCount | container/src/main/java/com/streamsets/pipeline/runner/production/RulesConfigLoader.java:65-74 | every new data rule, enabled or not, occurs under its own observer lane as often as in the list, and under no other lane |
| RuleChangeProperties.RulesOnLaneInOrder | container/src/main/java/com/streamsets/pipeline/runner/production/RulesConfigLoader.java:65-74 | each lane's rules keep the order of the new list |
| RuleChangeProperties.LaneChangeExample | container/src/main/java/com/streamsets/pipeline/runner/production/RulesConfigLoader.java:110-123 | diffing an alerting rule with non-null condition and threshold value against its copy whose lane moves from L to M succeeds and tears the rule down |
| RuleChangeProperties.SamplingChangeExample | container/src/main/java/com/streamsets/pipeline/runner/production/RulesConfigLoader.java:110-127 | diffing a rule with non-null lane, condition and threshold value against its copy whose retention size alone goes from 10 to 50 succeeds with nothing torn down and the resize map exactly r1 to 50 |
| RuleChangeProperties.NewRuleExample | container/src/main/java/com/streamsets/pipeline/runner/production/RulesConfigLoader.java:65-132 | a rule only the new snapshot has is not torn down and is indexed under its observer lane |
| OffsetTracking.ProductionSourceOffsetTracker.constructor | container/src/main/java/com/streamsets/pipeline/runner/production/ProductionSourceOffsetTracker.java:28-39 | a new tracker has null committed and tentative offsets and is not finished |
| OffsetTracking.ProductionSourceOffsetTracker.IsFinished | container/src/main/java/com/streamsets/pipeline/runner/production/ProductionSourceOffsetTracker.java:41-44 | answers the finished flag |
| OffsetTracking.ProductionSourceOffsetTracker.GetOffset | container/src/main/java/com/streamsets/pipeline/runner/production/ProductionSourceOffsetTracker.java:46-49 | the stored offset of the tracker's own pipeline revision, created as null when there is none |
| OffsetTracking.ProductionSourceOffsetTracker.SetOffset | container/src/main/java/com/streamsets/pipeline/runner/production/ProductionSourceOffsetTracker.java:51-54 | only the tentative offset changes; nothing is stored |
| OffsetTracking.ProductionSourceOffsetTracker.CommitOffset | container/src/main/java/com/streamsets/pipeline/runner/production/ProductionSourceOffsetTracker.java:56-59 | commits for the tracker's own pipeline revision |
| OffsetTracking.ProductionSourceOffsetTracker.CommitOffsetFor | container/src/main/java/com/streamsets/pipeline/runner/production/ProductionSourceOffsetTracker.java:61-66 | the tentative offset becomes the committed one, finished becomes whether it is null, the tentative offset is cleared, and the store entry becomes the committed offset |
| OffsetTracking.ProductionSourceOffsetTracker.GetSourceOffset | container/src/main/java/com/streamsets/pipeline/runner/production/ProductionSourceOffsetTracker.java:69-87 | with an entry, returns it and leaves the store unchanged; without one, stores null and returns null |
| OffsetTracking.ProductionSourceOffsetTracker.ResetOffset | container/src/main/java/com/streamsets/pipeline/runner/production/ProductionSourceOffsetTracker.java:89-91 | the store entry becomes null; the tracker's fields are untouched |
| OffsetTracking.ProductionSourceOffsetTracker.SaveOffset | container/src/main/java/com/streamsets/pipeline/runner/production/ProductionSourceOffsetTracker.java:93-102 | overwrites the whole entry of the pipeline revision |
| OffsetTracking.CommitThenReadBack | container/src/main/java/com/streamsets/pipeline/runner/production/ProductionSourceOffsetTracker.java:46-87 | after setting x and committing, a new tracker over the same store reads x back, and the committing tracker is not finished |
| OffsetTracking.CommitTwice | container/src/main/java/com/streamsets/pipeline/runner/production/ProductionSourceOffsetTracker.java:61-66 | two commits with no new offset between them store null and finish the source |
| OffsetTracking.ReadWithoutFile | container/src/main/java/com/streamsets/pipeline/runner/production/ProductionSourceOffsetTracker.java:69-87 | with no entry, the first read creates a null entry, and both reads answer null |
| OffsetTracking.ReadExistingFile | container/src/main/java/com/streamsets/pipeline/runner/production/ProductionSourceOffsetTracker.java:69-87 | with an entry, a read returns it and the store stays as it was |
| OffsetTracking.ResetKeepsMemory | container/src/main/java/com/streamsets/pipeline/runner/production/ProductionSourceOffsetTracker.java:28-91 | finished is false before the first commit; a reset stores null but keeps the committed offset, the tentative offset and the flag |
| Records.Record.Clone | container/src/main/java/com/streamsets/pipeline/runner/FullPipeBatch.java:187-193 | a clone is a new record object with the same content |
| Records.CopyRecords | container/src/main/java/com/streamsets/pipeline/runner/FullPipeBatch.java:187-193 | a list of new, pairwise distinct records with the contents of the originals, in order |
| Records.CopyOutput | container/src/main/java/com/streamsets/pipeline/runner/FullPipeBatch.java:130-144 | the same lanes, each with a list of new records whose contents match the originals in order |
| PipeBatches.Int32 | container/src/main/java/com/streamsets/pipeline/runner/FullPipeBatch.java:31-32 | the result is a 32-bit int congruent to the argument modulo 2^32, and equal to it when it fits |
| PipeBatches.Int32Add | container/src/main/java/com/streamsets/pipeline/runner/FullPipeBatch.java:70-72 | wrapping after every addition equals wrapping the whole sum once |
| PipeBatches.FullPipeBatch.constructor | container/src/main/java/com/streamsets/pipeline/runner/FullPipeBatch.java:34-41 | an empty payload, no processed stages, zero counters, a new empty error sink, and a snapshot list exactly when snapshots are kept |
| PipeBatches.FullPipeBatch.GetBatchSize | container/src/main/java/com/streamsets/pipeline/runner/FullPipeBatch.java:48-51 | answers the configured batch size |
| PipeBatches.FullPipeBatch.GetPreviousOffset | container/src/main/java/com/streamsets/pipeline/runner/FullPipeBatch.java:53-56 | answers the tracker's stored offset, creating a null entry when there is none |
| PipeBatches.FullPipeBatch.SetNewOffset | container/src/main/java/com/streamsets/pipeline/runner/FullPipeBatch.java:58-62 | the batch's new offset and the tracker's tentative offset both become the given offset |
| PipeBatches.FullPipeBatch.CommitOffset | container/src/main/java/com/streamsets/pipeline/runner/FullPipeBatch.java:114-117 | the tracker commits its tentative offset to the store |
| PipeBatches.FullPipeBatch.GetBatch | container/src/main/java/com/streamsets/pipeline/runner/FullPipeBatch.java:64-74 | the payload and result are those of consuming the input lanes; on success a target's records are added to the output sum, and the batch carries the stage name and the stored offset; on failure no counter or store changes |
| PipeBatches.FullPipeBatch.StartStage | container/src/main/java/com/streamsets/pipeline/runner/FullPipeBatch.java:76-88 | fails, changing nothing, for a stage already processed; otherwise marks it processed, makes every output lane pending, leaves other lanes alone, and returns a maker whose allowance is the batch size for a source and Integer.MAX_VALUE otherwise |
| PipeBatches.FullPipeBatch.CompleteStage | container/src/main/java/com/streamsets/pipeline/runner/FullPipeBatch.java:90-112 | a source's size is added to the input sum; stage lane i's output is stored under pipe lane i; the snapshot gains the stage's output and error lists when kept; a target's error-record count is taken off the output sum; too many stage lanes fail after storing what fits |
| PipeBatches.FullPipeBatch.OverrideStageOutput | container/src/main/java/com/streamsets/pipeline/runner/FullPipeBatch.java:146-159 | fails, changing nothing, for a stage already processed; otherwise marks it processed, stores under each pipe output lane the recorded output of its stage lane (null when there is none), and appends a cloned copy of the recorded output when snapshots are kept |
| PipeBatches.FullPipeBatch.GetLaneOutputRecords | container/src/main/java/com/streamsets/pipeline/runner/FullPipeBatch.java:119-127 | a map with exactly the requested lanes, each holding the payload's entry (null when absent); the payload is not changed |
| PipeBatches.FullPipeBatch.GetSnapshotsOfAllStagesOutput | container/src/main/java/com/streamsets/pipeline/runner/FullPipeBatch.java:161-164 | answers the snapshot list, null when snapshots are not kept |
| PipeBatches.FullPipeBatch.GetErrorSink | container/src/main/java/com/streamsets/pipeline/runner/FullPipeBatch.java:166-169 | answers the batch's own error sink |
| PipeBatches.FullPipeBatch.MoveLane | container/src/main/java/com/streamsets/pipeline/runner/FullPipeBatch.java:171-175 | succeeds exactly when the source lane holds records, which then sit under the destination; the source lane is removed either way |
| PipeBatches.FullPipeBatch.MoveLaneCopying | container/src/main/java/com/streamsets/pipeline/runner/FullPipeBatch.java:177-185 | succeeds exactly when the source lane holds records; every destination, known or not, gets new records of the same length, order and content, distinct within and across destinations; other lanes are unchanged |
| PipeBatches.FullPipeBatch.MoveLaneCopyingChecked | container/src/main/java/com/streamsets/pipeline/runner/FullPipeBatch.java:177-185 | like MoveLaneCopying, but succeeds only when every destination is an existing lane other than the source, and otherwise fails naming a missing destination, with only the source lane removed |
| PipeBatches.FullPipeBatch.PutClones | container/src/main/java/com/streamsets/pipeline/runner/FullPipeBatch.java:181-184 | each listed lane gets a new list of cloned records; lists of different lanes share no record |
| PipeBatches.FullPipeBatch.CombineLanes | container/src/main/java/com/streamsets/pipeline/runner/FullPipeBatch.java:201-211 | the payload and outcome are those of combining the lanes into the target |
| PipeBatches.FullPipeBatch.GetInputRecords | container/src/main/java/com/streamsets/pipeline/runner/FullPipeBatch.java:213-216 | the 32-bit value of the records emitted by sources so far |
| PipeBatches.FullPipeBatch.GetOutputRecords | container/src/main/java/com/streamsets/pipeline/runner/FullPipeBatch.java:218-221 | the 32-bit value of the records consumed by targets minus their error records so far |
| PipeBatches.FullPipeBatch.GetErrorRecords | container/src/main/java/com/streamsets/pipeline/runner/FullPipeBatch.java:223-226 | the number of error records over all stages |
| PipeBatches.FullPipeBatch.GetErrorMessages | container/src/main/java/com/streamsets/pipeline/runner/FullPipeBatch.java:228-231 | the number of error messages over all stages |
| LanePayload.ConsumeSpec | container/src/main/java/com/streamsets/pipeline/runner/FullPipeBatch.java:65-69 | consuming input lanes succeeds exactly when they are distinct and all hold records; it then returns their records concatenated in declared order and removes exactly those lanes |
| LanePayload.StoreOutputsSpec | container/src/main/java/com/streamsets/pipeline/runner/FullPipeBatch.java:96-104 | storing a stage's output adds exactly the pipe lanes written and leaves every other lane as it was; with distinct pipe lanes, pipe lane i holds what the stage wrote on stage lane i (null when nothing) |
| LanePayload.UndefinedLanes | container/src/main/java/com/streamsets/pipeline/runner/FullPipeBatch.java:195-203 | exactly the listed lanes that are not payload keys; a pending lane is a key |
| LanePayload.CombineFromSpec | container/src/main/java/com/streamsets/pipeline/runner/FullPipeBatch.java:205-210 | once the target holds a list, appending the lanes succeeds exactly when they are distinct, all hold records and do not include the target; the target then holds its list followed by theirs in order, and the lanes are gone |
| LanePayload.CombineSpec | container/src/main/java/com/streamsets/pipeline/runner/FullPipeBatch.java:201-211 | lanes that are not keys are rejected with the payload unchanged; otherwise combining succeeds exactly when the lanes are distinct, all hold records and do not include the target, which then holds their records in order, with the lanes gone |
| ErrorSinks.TotalRemove | container/src/main/java/com/streamsets/pipeline/runner/FullPipeBatch.java:223-231 | the total over all stages is any one stage's count plus the total over the rest |
| ErrorSinks.SumLengths | container/src/main/java/com/streamsets/pipeline/runner/FullPipeBatch.java:223-231 | visiting the stages one at a time adds up to the total |
| ErrorSinks.ErrorSink.GetTotalErrorRecords | container/src/main/java/com/streamsets/pipeline/runner/FullPipeBatch.java:223-226 | the sum over stages of their error-record counts |
| ErrorSinks.ErrorSink.GetTotalErrorMessages | container/src/main/java/com/streamsets/pipeline/runner/FullPipeBatch.java:228-231 | the sum over stages of their error-message counts |
| PipeBatchScenarios.StartTwice | container/src/main/java/com/streamsets/pipeline/runner/FullPipeBatch.java:76-88 | the first start succeeds with the allowance for the stage's type; a second start of the same stage fails as already processed |
| PipeBatchScenarios.SourceToTarget | container/src/main/java/com/streamsets/pipeline/runner/FullPipeBatch.java:64-112 | a target reading a source's lane receives the source's records in order, the lane is consumed, and both counters equal the record count |
| PipeBatchScenarios.ConsumeUnproducedLane | container/src/main/java/com/streamsets/pipeline/runner/FullPipeBatch.java:65-69 | reading a lane whose stage has not completed fails rather than yielding an empty batch, and the lane is consumed |
| PipeBatchScenarios.FanOutIsolation | container/src/main/java/com/streamsets/pipeline/runner/FullPipeBatch.java:177-193 | after fan-out to two lanes, changing a record reached through one lane changes neither the record at the same place in the other lane nor the original |
| PipeBatchScenarios.UnknownDestinationCreated | container/src/main/java/com/streamsets/pipeline/runner/FullPipeBatch.java:182 | fan-out to a lane that does not exist succeeds and creates the lane |
| PipeBatchScenarios.UnknownDestinationRejected | container/src/main/java/com/streamsets/pipeline/runner/FullPipeBatch.java:182 | with the destination check in force, the same fan-out fails naming the lane and creates nothing |
| PipeBatchScenarios.CombineExample | container/src/main/java/com/streamsets/pipeline/runner/FullPipeBatch.java:201-211 | combining lanes holding [r1] and [r2, r3] into a new lane leaves only that lane, holding [r1, r2, r3] |

## Left out

- File I/O and JSON serialisation of the offset file are not modelled. The file is an entry of the store map, and `IOException`, wrapped as `RuntimeException`, does not arise.
- `PipelineStoreException` and `InterruptedException` from the rule store are not modelled: retrieval is a parameter of `Load` and cannot fail.
- Logging (`LOG.debug`, `LOG.error`) and `FullPipeBatch.toString` are not modelled; they produce text only.
- `LaneResolver.getPostFixedLaneForObserver` and `removePostFixFromLane` are not part of this model; they are arbitrary function parameters.
- `BatchMakerImpl`, `BatchImpl` and `StageOutput` are not part of this model. They are plain values. A batch maker carries its pipe, allowance, stage output, output snapshot and size, and stages fill it outside the model.
- `StageOutput`'s constructor from an error sink is not part of this model. It is taken to copy that stage's error records and error messages from the sink.
- `ErrorSink` is not part of this model. It is a class holding per-stage lists of error records and messages. `AddErrorRecord` and `AddStageError` stand for the stages reporting errors, and its totals are unbounded naturals rather than Java `int`.
- `RecordImpl.clone` is not part of this model. A record's content is a single opaque value that the clone copies.
- `SourceOffsetTracker` is an interface; the batch engine is modelled over the production tracker only.
- Rule ids are never null and enum fields are their names, so a null id or enum is not modelled. In the source, either is a null dereference.
- RuleChanges.HasRuleChanged: compares sampling percentages as reals rather than as `String.valueOf(double)` text. So `-0.0` against `0.0` and `NaN` against `NaN` are not modelled the way the source compares them.
- `load` with a retrieved snapshot of `null` is not modelled: a retrieved snapshot is always present.
- Concurrency is not modelled: one batch and one loader are used by one thread.

## Findings

| source | as written | input that shows it | evidently intended | confidence | as-written member | corrected member |
|---|---|---|---|---|---|---|
| container/src/main/java/com/streamsets/pipeline/runner/FullPipeBatch.java:182 | `checkNotNull` is applied to the boolean `containsKey(lane)`, which is never null, so the check never fails | `moveLaneCopying("in", ["nowhere"])` with only `in` in the payload creates lane `nowhere` | reject a destination that is not a lane of the payload, as the message "Lane '{}' does not exist" says | high, not executed | PipeBatchScenarios.UnknownDestinationCreated | PipeBatches.FullPipeBatch.MoveLaneCopyingChecked |
