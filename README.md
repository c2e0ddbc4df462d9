# Flink DoFnOperator and Beam WriteFiles, modelled in Dafny

This project models two pieces of Apache Beam.

The first is the Flink runner's `DoFnOperator`, the streaming operator that runs a Beam `DoFn` inside Flink. The model covers:

- starting and finishing bundles, by element count, by elapsed processing time, and before checkpoints;
- the `BufferedOutputManager`, which holds outputs back while a checkpoint snapshot is being taken and emits them afterwards;
- propagation of the input, side-input and output watermarks, including the watermark holds of pushed-back elements, of the stable-input buffer and of timers;
- the push-back list of main-input elements whose side inputs are not ready yet;
- the bundle finalizations kept per checkpoint (at most 32 pending);
- `FlinkTimerInternals`: the pending-timer map keyed by context id, registration with Flink's timer service at the adjusted timestamp, and the watermark-hold usages of timers;
- firing of event-time and processing-time timers;
- the final drain (`flushData`).

The second is the core of `WriteFiles`, the transform that writes a `PCollection` to temporary files and finalizes them. The model covers:

- the builder settings and the checks `expand` makes when it picks a write path;
- the random round-robin sharding function and the `DoFn` that applies it;
- the unsharded writer `DoFn`, with its cap on open writers per bundle and the spilling of records past that cap;
- the sharded writer `DoFn`, which opens one writer per destination within a shard;
- finalization grouped by destination and window;
- the per-window gathering of bundles.

Calls the operator makes into collaborators are appended to an `effects` log, in the order the operator makes them. These collaborators are the `DoFnRunner`, the pre-bundle and bundle-finished callbacks, the keyed state, the stable-input buffer and the finalization callbacks. Records and watermarks sent downstream are appended to the `emitted` log of a shared `Output` object. A step also reads three values from outside, passed as an `Env` parameter: the processing-time clock, the stable-input buffer's watermark hold, and the keyed state's minimum watermark hold.

Java `long` values are the `Long` subtype with explicit two's-complement wrap-around where the source subtracts (`Timestamps.LongSub`).

Files:

- `timestamps.dfy`: long range, wrap-around, `adjustTimestampForFlink`;
- `windowed_values.dfy`: elements, windows, panes, the minimum-timestamp fold;
- `buffered_output.dfy`: `Output` and `BufferedOutputManager`;
- `watermarks.dfy`: the watermark computations and the ordering of emitted watermarks;
- `finalizations.dfy`: the insertion-ordered map of pending finalizations;
- `timer_internals.dfy`: `FlinkTimerInternals`, with a value-level specification of each operation;
- `do_fn_operator.dfy`: the operator class;
- `multimaps.dfy`: the list multimap that `WriteFiles` groups with;
- `write_files_config.dfy`: builder settings and `expand`;
- `write_files_sharding.dfy`: sharding;
- `write_files_writers.dfy`: the two writer `DoFn`s;
- `write_files_finalize.dfy`: finalization and the bundle gathering.

## Model

Source paths are relative to the repository root.

| member | source | states |
|---|---|---|
| Timestamps.WrapLong | runners/flink/src/main/java/org/apache/beam/runners/flink/translation/wrappers/streaming/DoFnOperator.java:1014-1023 | The Java long a mathematical integer becomes: congruent modulo 2^64 and unchanged when already in range. |
| Timestamps.LongSub | runners/flink/src/main/java/org/apache/beam/runners/flink/translation/wrappers/streaming/DoFnOperator.java:1014-1023 | Java long subtraction: the exact difference when it fits, otherwise the difference wrapped by 2^64 in the direction of the overflow. |
| Timestamps.Min | runners/flink/src/main/java/org/apache/beam/runners/flink/translation/wrappers/streaming/DoFnOperator.java:898-907 | The result is a lower bound of both arguments and equals one of them. |
| Timestamps.AdjustTimestampForFlink | runners/flink/src/main/java/org/apache/beam/runners/flink/translation/wrappers/streaming/DoFnOperator.java:1780-1786 | A timer timestamp is moved forward by at most one millisecond, and it stays unchanged exactly when it is Long.MAX_VALUE. |
| Timestamps.AdjustMonotone | runners/flink/src/main/java/org/apache/beam/runners/flink/translation/wrappers/streaming/DoFnOperator.java:1780-1786 | The adjustment preserves the order of timestamps. |
| Timestamps.AdjustInjectiveBelowMax | runners/flink/src/main/java/org/apache/beam/runners/flink/translation/wrappers/streaming/DoFnOperator.java:1780-1786 | Two distinct timestamps map to the same Flink timestamp if and only if they are MAX_VALUE - 1 and MAX_VALUE. |
| WindowedValues.MinTimestampFrom | runners/flink/src/main/java/org/apache/beam/runners/flink/translation/wrappers/streaming/DoFnOperator.java:471-474 | The fold of the pushed-back elements' timestamps never exceeds its starting value. |
| WindowedValues.MinTimestamp | runners/flink/src/main/java/org/apache/beam/runners/flink/translation/wrappers/streaming/DoFnOperator.java:471-476 | The pushed-back watermark of no elements is Long.MAX_VALUE. |
| WindowedValues.MinTimestampFromIsLowerBound | runners/flink/src/main/java/org/apache/beam/runners/flink/translation/wrappers/streaming/DoFnOperator.java:471-474 | The fold is at most the timestamp of every element. |
| WindowedValues.MinTimestampFromIsAttained | runners/flink/src/main/java/org/apache/beam/runners/flink/translation/wrappers/streaming/DoFnOperator.java:471-474 | The fold is its starting value or the timestamp of some element. |
| WindowedValues.MinTimestampIsMinimum | runners/flink/src/main/java/org/apache/beam/runners/flink/translation/wrappers/streaming/DoFnOperator.java:471-476 | The pushed-back watermark is the minimum timestamp of a non-empty push-back list: a lower bound that some element attains. |
| WindowedValues.MinTimestampFromConcat | runners/flink/src/main/java/org/apache/beam/runners/flink/translation/wrappers/streaming/DoFnOperator.java:770-775 | Folding a concatenation is folding the second part from the result of the first, so the watermark can be kept up to date incrementally. |
| WindowedValues.MinTimestampFromSnoc | runners/flink/src/main/java/org/apache/beam/runners/flink/translation/wrappers/streaming/DoFnOperator.java:770-775 | Pushing back one more element lowers the pushed-back watermark to the minimum of the old value and the element's timestamp. |
| WindowedValues.MinTimestampAppend | runners/flink/src/main/java/org/apache/beam/runners/flink/translation/wrappers/streaming/DoFnOperator.java:770-775 | The pushed-back watermark of a grown list is that of the old list folded over the new elements. |
| BufferedOutput.Output.constructor | runners/flink/src/main/java/org/apache/beam/runners/flink/translation/wrappers/streaming/DoFnOperator.java:1337-1349 | The downstream output starts with nothing emitted. |
| BufferedOutput.Output.Collect | runners/flink/src/main/java/org/apache/beam/runners/flink/translation/wrappers/streaming/DoFnOperator.java:1337-1349 | Collecting appends exactly one emission to the downstream log. |
| BufferedOutput.Route | runners/flink/src/main/java/org/apache/beam/runners/flink/translation/wrappers/streaming/DoFnOperator.java:1337-1349 | An output goes to the main stream if and only if its tag is the main tag, otherwise to the side output of its own tag; it carries the value unchanged and is never a watermark. |
| BufferedOutput.Routed | runners/flink/src/main/java/org/apache/beam/runners/flink/translation/wrappers/streaming/DoFnOperator.java:1319-1335 | Flushing emits one emission per buffered output. |
| BufferedOutput.Encode | runners/flink/src/main/java/org/apache/beam/runners/flink/translation/wrappers/streaming/DoFnOperator.java:1299-1309 | Each buffered output is stored as the integer id of its tag with its value, in order. |
| BufferedOutput.Decode | runners/flink/src/main/java/org/apache/beam/runners/flink/translation/wrappers/streaming/DoFnOperator.java:1319-1335 | Each stored entry is turned back into the tag of its id with its value, in order. |
| BufferedOutput.DecodeEncode | runners/flink/src/main/java/org/apache/beam/runners/flink/translation/wrappers/streaming/DoFnOperator.java:1260-1279 | With the id-to-tag map the inverse of the tag-to-id map, decoding the buffer gives back exactly the outputs that were buffered. |
| BufferedOutput.BufferedOutputManager.BufferIsEncoding | runners/flink/src/main/java/org/apache/beam/runners/flink/translation/wrappers/streaming/DoFnOperator.java:1299-1335 | The checkpointed buffer is always the encoding of the buffered outputs and decodes back to them. |
| BufferedOutput.BufferedOutputManager.constructor | runners/flink/src/main/java/org/apache/beam/runners/flink/translation/wrappers/streaming/DoFnOperator.java:1260-1279 | The manager starts closed with nothing buffered and builds the inverse id-to-tag map of an injective tag-to-id map. |
| BufferedOutput.BufferedOutputManager.OpenBuffer | runners/flink/src/main/java/org/apache/beam/runners/flink/translation/wrappers/streaming/DoFnOperator.java:1281-1283 | Opening the buffer changes nothing but the open flag. |
| BufferedOutput.BufferedOutputManager.CloseBuffer | runners/flink/src/main/java/org/apache/beam/runners/flink/translation/wrappers/streaming/DoFnOperator.java:1285-1287 | Closing the buffer changes nothing but the open flag. |
| BufferedOutput.BufferedOutputManager.Output | runners/flink/src/main/java/org/apache/beam/runners/flink/translation/wrappers/streaming/DoFnOperator.java:1290-1309 | In streaming mode with the buffer open, an output is buffered and nothing is emitted; otherwise it is emitted at once to its stream and the buffer is untouched. |
| BufferedOutput.BufferedOutputManager.FlushBuffer | runners/flink/src/main/java/org/apache/beam/runners/flink/translation/wrappers/streaming/DoFnOperator.java:1319-1335 | With the buffer closed, flushing emits every buffered output in buffering order and empties the buffer; with the buffer open, or nothing buffered, nothing changes. |
| BufferedOutput.RoutedSnoc | runners/flink/src/main/java/org/apache/beam/runners/flink/translation/wrappers/streaming/DoFnOperator.java:1319-1335 | Flushing one more buffered output emits one more emission at the end. |
| BufferedOutput.RoutedAt | runners/flink/src/main/java/org/apache/beam/runners/flink/translation/wrappers/streaming/DoFnOperator.java:1319-1335 | The i-th flushed emission is the routing of the i-th buffered output. |
| Watermarks.EffectiveInputWatermark | runners/flink/src/main/java/org/apache/beam/runners/flink/translation/wrappers/streaming/DoFnOperator.java:728-736 | The effective input watermark is the minimum of the input watermark, the pushed-back watermark and, under stable input, the buffering hold: a lower bound of each that equals one of them. |
| Watermarks.ComputeOutputWatermark | runners/flink/src/main/java/org/apache/beam/runners/flink/translation/wrappers/streaming/DoFnOperator.java:898-907 | A keyed operator holds the output watermark back to the minimum watermark hold of its state; an unkeyed one passes the input hold through. |
| Watermarks.CandidateIsMinimum | runners/flink/src/main/java/org/apache/beam/runners/flink/translation/wrappers/streaming/DoFnOperator.java:864-907 | The output watermark candidate is the minimum of every hold that applies: it is bounded by each and equals one of them. |
| Watermarks.CandidateMonotone | runners/flink/src/main/java/org/apache/beam/runners/flink/translation/wrappers/streaming/DoFnOperator.java:864-907 | Raising any input watermark or hold never lowers the output watermark candidate. |
| Watermarks.AppendRecords | runners/flink/src/main/java/org/apache/beam/runners/flink/translation/wrappers/streaming/DoFnOperator.java:1337-1349 | Emitting records after watermarks keeps the emitted watermarks non-decreasing. |
| Watermarks.RoutedHasNoWatermarks | runners/flink/src/main/java/org/apache/beam/runners/flink/translation/wrappers/streaming/DoFnOperator.java:1319-1349 | A flush emits records only, never a watermark. |
| Watermarks.AppendWatermark | runners/flink/src/main/java/org/apache/beam/runners/flink/translation/wrappers/streaming/DoFnOperator.java:909-936 | Emitting a watermark no lower than the last one keeps the emitted watermarks non-decreasing. |
| Finalizations.DropOldest | runners/flink/src/main/java/org/apache/beam/runners/flink/translation/wrappers/streaming/DoFnOperator.java:1092-1098 | Dropping the k oldest pending checkpoints keeps the rest in insertion order. |
| Finalizations.DropOldestStep | runners/flink/src/main/java/org/apache/beam/runners/flink/translation/wrappers/streaming/DoFnOperator.java:1094-1097 | Removing one more oldest entry after k is the same as removing k + 1, as the iterator loop does. |
| Finalizations.Evict | runners/flink/src/main/java/org/apache/beam/runners/flink/translation/wrappers/streaming/DoFnOperator.java:1092-1098 | After eviction fewer than 32 checkpoints are pending, or nothing needed evicting. |
| Finalizations.Put | runners/flink/src/main/java/org/apache/beam/runners/flink/translation/wrappers/streaming/DoFnOperator.java:1099 | After the put the checkpoint's finalizations are the bundle's finalizations. |
| Finalizations.RemoveKey | runners/flink/src/main/java/org/apache/beam/runners/flink/translation/wrappers/streaming/DoFnOperator.java:1140-1141 | Removing a checkpoint id keeps exactly the other ids. |
| Finalizations.RemoveKeyDistinct | runners/flink/src/main/java/org/apache/beam/runners/flink/translation/wrappers/streaming/DoFnOperator.java:1140-1141 | Removing an id keeps the insertion order free of duplicates. |
| Finalizations.DropOldestValid | runners/flink/src/main/java/org/apache/beam/runners/flink/translation/wrappers/streaming/DoFnOperator.java:1092-1098 | Dropping the oldest entries keeps the map consistent with its order and keeps the surviving entries' finalizations. |
| Finalizations.EvictValid | runners/flink/src/main/java/org/apache/beam/runners/flink/translation/wrappers/streaming/DoFnOperator.java:1092-1098 | Eviction keeps the map consistent and only removes entries, never alters one. |
| Finalizations.AppendFreshDistinct | runners/flink/src/main/java/org/apache/beam/runners/flink/translation/wrappers/streaming/DoFnOperator.java:1099 | A new checkpoint id appended to the order keeps it free of duplicates. |
| Finalizations.PutValid | runners/flink/src/main/java/org/apache/beam/runners/flink/translation/wrappers/streaming/DoFnOperator.java:1099 | A put keeps the map consistent with its insertion order, whether the id is new or already pending. |
| Finalizations.SnapshotBounded | runners/flink/src/main/java/org/apache/beam/runners/flink/translation/wrappers/streaming/DoFnOperator.java:227-233 | After a snapshot at most 32 checkpoints are pending and the new checkpoint holds the bundle's finalizations. |
| Finalizations.SnapshotEvictsOldest | runners/flink/src/main/java/org/apache/beam/runners/flink/translation/wrappers/streaming/DoFnOperator.java:1092-1099 | With 32 or more pending, a snapshot keeps only the 31 newest, unchanged, and then adds the new checkpoint at the end. |
| Finalizations.SnapshotKeepsAll | runners/flink/src/main/java/org/apache/beam/runners/flink/translation/wrappers/streaming/DoFnOperator.java:1092-1099 | With fewer than 32 pending, a snapshot keeps every pending checkpoint unchanged and adds the new one. |
| Finalizations.CompleteAfterSnapshot | runners/flink/src/main/java/org/apache/beam/runners/flink/translation/wrappers/streaming/DoFnOperator.java:1140-1146 | Completing the checkpoint just snapshotted hands back exactly its finalizations and forgets it. |
| Finalizations.CompleteUnknownIsNoop | runners/flink/src/main/java/org/apache/beam/runners/flink/translation/wrappers/streaming/DoFnOperator.java:1140-1142 | Completing an unknown checkpoint changes nothing and runs no callback. |
| Finalizations.TakeRemovesOnlyId | runners/flink/src/main/java/org/apache/beam/runners/flink/translation/wrappers/streaming/DoFnOperator.java:1140-1142 | Completion removes exactly that checkpoint, finds finalizations if and only if it was pending, and keeps the others unchanged. |
| TimerInternals.ConstructTimerId | runners/flink/src/main/java/org/apache/beam/runners/flink/translation/wrappers/streaming/DoFnOperator.java:1556-1558 | The timer id is the family id, a '+' and the timer id. |
| TimerInternals.ContextTimerId | runners/flink/src/main/java/org/apache/beam/runners/flink/translation/wrappers/streaming/DoFnOperator.java:1762-1764 | The context id is the timer id followed by the namespace's string key. |
| TimerInternals.RegistrationOf | runners/flink/src/main/java/org/apache/beam/runners/flink/translation/wrappers/streaming/DoFnOperator.java:1603-1619 | A timer is registered at its adjusted timestamp, in the event-time queue if and only if its domain is event time. |
| TimerInternals.ConstructTimerIdInjective | runners/flink/src/main/java/org/apache/beam/runners/flink/translation/wrappers/streaming/DoFnOperator.java:1556-1558 | For family ids without '+', two constructed ids are equal if and only if family and timer id are. |
| TimerInternals.ContextIdCollision | runners/flink/src/main/java/org/apache/beam/runners/flink/translation/wrappers/streaming/DoFnOperator.java:1578-1601 | Two different timers can share a context id, and then setting the second replaces the first. |
| TimerInternals.OneRegistrationPerContext | runners/flink/src/main/java/org/apache/beam/runners/flink/translation/wrappers/streaming/DoFnOperator.java:1589-1597 | In a well-formed state, at most one registered timer has a given context id. |
| TimerInternals.CancelPreservesWellFormed | runners/flink/src/main/java/org/apache/beam/runners/flink/translation/wrappers/streaming/DoFnOperator.java:1627-1640 | Cancelling by context id keeps the pending map, the registrations and the holds consistent and removes exactly that id. |
| TimerInternals.RegisterPreservesWellFormed | runners/flink/src/main/java/org/apache/beam/runners/flink/translation/wrappers/streaming/DoFnOperator.java:1603-1619 | Registering a timer under a free context id keeps the state consistent. |
| TimerInternals.SetTimerPreservesWellFormed | runners/flink/src/main/java/org/apache/beam/runners/flink/translation/wrappers/streaming/DoFnOperator.java:1578-1601 | Setting a timer keeps the pending map, the registrations and the hold usages consistent. |
| TimerInternals.SetTimerEffect | runners/flink/src/main/java/org/apache/beam/runners/flink/translation/wrappers/streaming/DoFnOperator.java:1578-1619 | Setting a timer makes it the pending timer of its context and registers it. Setting an equal timer again changes nothing. A new context adds one registration and one hold. A different old timer in the context loses its registration, and its hold is replaced by the new one. |
| TimerInternals.SetTimerIdempotent | runners/flink/src/main/java/org/apache/beam/runners/flink/translation/wrappers/streaming/DoFnOperator.java:1589-1597 | Setting the same timer twice is the same as setting it once. |
| TimerInternals.FireRemovesEntryAndHold | runners/flink/src/main/java/org/apache/beam/runners/flink/translation/wrappers/streaming/DoFnOperator.java:1647-1657 | Firing a registered timer removes its context id, its registration and exactly one of its holds, and keeps the state consistent. |
| TimerInternals.SetThenFire | runners/flink/src/main/java/org/apache/beam/runners/flink/translation/wrappers/streaming/DoFnOperator.java:1578-1657 | Setting a timer in a free context and then firing it restores the original state. |
| TimerInternals.DeleteTimerByDataEffect | runners/flink/src/main/java/org/apache/beam/runners/flink/translation/wrappers/streaming/DoFnOperator.java:1679-1701 | Deleting by timer data removes the timer's context id, the pending timer's registration and one of its holds; an absent timer leaves the state unchanged. |
| TimerInternals.SetThenDeleteByData | runners/flink/src/main/java/org/apache/beam/runners/flink/translation/wrappers/streaming/DoFnOperator.java:1578-1701 | Setting a timer in a free context and then deleting it by its data restores the original state. |
| TimerInternals.DeleteTimerMissesFamilyTimer | runners/flink/src/main/java/org/apache/beam/runners/flink/translation/wrappers/streaming/DoFnOperator.java:1667-1674 | As written, deleting by namespace, timer id and family leaves a set timer of a non-empty family pending. |
| TimerInternals.DeleteTimerIntendedRemovesTimer | runners/flink/src/main/java/org/apache/beam/runners/flink/translation/wrappers/streaming/DoFnOperator.java:1667-1685 | With the family prefix in the lookup, deleting a just-set timer removes it and its registration, and restores a state in which it was not pending. |
| TimerInternals.FlinkTimerInternals.constructor | runners/flink/src/main/java/org/apache/beam/runners/flink/translation/wrappers/streaming/DoFnOperator.java:1510-1554 | The timer internals start from the restored pending map and registrations; only when the timer service is Flink's `InternalTimerServiceImpl` is one hold usage restored per registered timer. |
| TimerInternals.FlinkTimerInternals.RegisterTimer | runners/flink/src/main/java/org/apache/beam/runners/flink/translation/wrappers/streaming/DoFnOperator.java:1603-1619 | Registering updates the state as the registration specification says. |
| TimerInternals.FlinkTimerInternals.OnFiredOrDeletedTimer | runners/flink/src/main/java/org/apache/beam/runners/flink/translation/wrappers/streaming/DoFnOperator.java:1647-1657 | The cleanup hook updates the state as the specification says: pending entry and one hold removed. |
| TimerInternals.FlinkTimerInternals.DeleteTimerInternal | runners/flink/src/main/java/org/apache/beam/runners/flink/translation/wrappers/streaming/DoFnOperator.java:1687-1701 | Deleting unregisters the timer at its adjusted time and then runs the cleanup hook. |
| TimerInternals.FlinkTimerInternals.CancelPendingTimer | runners/flink/src/main/java/org/apache/beam/runners/flink/translation/wrappers/streaming/DoFnOperator.java:1627-1640 | Cancelling deletes the found timer and does nothing for none. |
| TimerInternals.FlinkTimerInternals.SetTimer | runners/flink/src/main/java/org/apache/beam/runners/flink/translation/wrappers/streaming/DoFnOperator.java:1578-1601 | Setting a timer keeps the internals valid and moves them to the specified state, whose properties SetTimerEffect and SetTimerIdempotent state. |
| TimerInternals.FlinkTimerInternals.DeleteTimer | runners/flink/src/main/java/org/apache/beam/runners/flink/translation/wrappers/streaming/DoFnOperator.java:1667-1674 | Deleting by namespace, timer id and family cancels the timer pending under the family-qualified context id, the lookup `setTimer` uses (the corrected form, see Findings). |
| TimerInternals.FlinkTimerInternals.DeleteTimerByData | runners/flink/src/main/java/org/apache/beam/runners/flink/translation/wrappers/streaming/DoFnOperator.java:1679-1685 | Deleting by timer data cancels the timer under its full context id. |
| TimerInternals.DeleteByDataKeepsWrittenBehaviour | runners/flink/src/main/java/org/apache/beam/runners/flink/translation/wrappers/streaming/DoFnOperator.java:1679-1685 | With the corrected four-argument form, deleting by timer data cancels exactly what the source's deleteTimer(TimerData) cancels. |
| TimerInternals.FlinkTimerInternals.DeleteTimerWithoutDomain | runners/flink/src/main/java/org/apache/beam/runners/flink/translation/wrappers/streaming/DoFnOperator.java:1662-1664 | Deleting without a time domain is refused with the unsupported-operation message. |
| TimerInternals.FlinkTimerInternals.Poll | runners/flink/src/main/java/org/apache/beam/runners/flink/translation/wrappers/streaming/DoFnOperator.java:1153-1162 | When Flink's timer service hands out a timer it drops exactly that registration and leaves the pending map and holds alone. |
| TimerInternals.FlinkTimerInternals.HasPendingEventTimeTimers | runners/flink/src/main/java/org/apache/beam/runners/flink/translation/wrappers/streaming/DoFnOperator.java:1751-1759 | True if and only if some pending timer is an event-time timer due at or before the given timestamp. |
| TimerInternals.PopulateOutputTimestampQueue | runners/flink/src/main/java/org/apache/beam/runners/flink/translation/wrappers/streaming/DoFnOperator.java:1544-1554 | The restored hold usages are the output timestamps of the event-time and processing-time timers. |
| TimerInternals.DueEventTimers | runners/flink/src/main/java/org/apache/beam/runners/flink/translation/wrappers/streaming/DoFnOperator.java:866-868 | The registrations an advance to the watermark fires are exactly the event-time ones at or below it. |
| TimerInternals.AdvanceStart | runners/flink/src/main/java/org/apache/beam/runners/flink/translation/wrappers/streaming/DoFnOperator.java:866-868 | An advance starts with nothing fired, every registration still waiting and the timer state unchanged. |
| TimerInternals.EarliestExists | runners/flink/src/main/java/org/apache/beam/runners/flink/translation/wrappers/streaming/DoFnOperator.java:866-868 | Every non-empty set of registrations has one no later than all the others. |
| TimerInternals.EarliestDue | runners/flink/src/main/java/org/apache/beam/runners/flink/translation/wrappers/streaming/DoFnOperator.java:866-868 | The registration taken next is due and no later than any other due registration. |
| TimerInternals.FiringStep | runners/flink/src/main/java/org/apache/beam/runners/flink/translation/wrappers/streaming/DoFnOperator.java:866-868 | Firing the earliest due registration keeps a partial advance in order: each fired registration is due and fired once, earliest first, and none is later than a due one still waiting. |
| TimerInternals.FiringComplete | runners/flink/src/main/java/org/apache/beam/runners/flink/translation/wrappers/streaming/DoFnOperator.java:866-868 | Once nothing due is left, the advance fired exactly the due registrations, each once, earliest first. |
| TimerInternals.FireAllWellFormed | runners/flink/src/main/java/org/apache/beam/runners/flink/translation/wrappers/streaming/DoFnOperator.java:1647-1657 | Firing distinct registered timers one after the other keeps the state consistent and removes exactly those registrations. |
| TimerInternals.FireAllPending | runners/flink/src/main/java/org/apache/beam/runners/flink/translation/wrappers/streaming/DoFnOperator.java:1647-1657 | Firing distinct registered timers one after the other drops exactly the index entries of their contexts. |
| TimerInternals.FireAllHolds | runners/flink/src/main/java/org/apache/beam/runners/flink/translation/wrappers/streaming/DoFnOperator.java:1647-1657 | Firing distinct registered timers one after the other gives up exactly one hold usage per timer, at its output timestamp. |
| TimerInternals.FireAllEffect | runners/flink/src/main/java/org/apache/beam/runners/flink/translation/wrappers/streaming/DoFnOperator.java:1647-1657 | Firing distinct registered timers one after the other removes those registrations, their index entries and one hold usage each, and keeps the state consistent. |
| TimerInternals.OutputTimestamps | runners/flink/src/main/java/org/apache/beam/runners/flink/translation/wrappers/streaming/DoFnOperator.java:1544-1554 | One hold usage per timer, and every timer's output timestamp is among them. |
| Operator.Configure | runners/flink/src/main/java/org/apache/beam/runners/flink/translation/wrappers/streaming/DoFnOperator.java:316-335 | The operator can be built if and only if the bundle size and bundle time are positive and, under stable input, checkpointing is exactly-once with a positive interval; each failed check gives its own error, in the source's order. |
| Operator.Successes | runners/flink/src/main/java/org/apache/beam/runners/flink/translation/wrappers/streaming/DoFnOperator.java:1144-1146 | One success callback per finalization, the i-th for the i-th finalization. |
| Operator.Processed | runners/flink/src/main/java/org/apache/beam/runners/flink/translation/wrappers/streaming/DoFnOperator.java:954-970 | One processing call per element, the i-th for the i-th element. |
| Operator.NotReady | runners/flink/src/main/java/org/apache/beam/runners/flink/translation/wrappers/streaming/DoFnOperator.java:763-779 | The pushed-back part is never longer than the offered list. Which elements it holds, and in what order, is stated by SplitByReadiness, SplitMembership and NotReadyAppend. |
| Operator.ReadyOnes | runners/flink/src/main/java/org/apache/beam/runners/flink/translation/wrappers/streaming/DoFnOperator.java:763-779 | The processed part is never longer than the offered list. Which elements it holds, and in what order, is stated by SplitByReadiness, SplitMembership and ReadyOnesAppend. |
| Operator.SplitByReadiness | runners/flink/src/main/java/org/apache/beam/runners/flink/translation/wrappers/streaming/DoFnOperator.java:811-832 | An element is replayed exactly when its side inputs are ready, and pushed back again exactly when they are not. |
| Operator.SplitMembership | runners/flink/src/main/java/org/apache/beam/runners/flink/translation/wrappers/streaming/DoFnOperator.java:763-838 | An offered element is processed if and only if its side inputs are ready, and pushed back if and only if they are not. |
| Operator.ProcessedAppend | runners/flink/src/main/java/org/apache/beam/runners/flink/translation/wrappers/streaming/DoFnOperator.java:954-970 | Processing two lists in turn makes the calls of the first and then of the second. |
| Operator.SuccessesAppend | runners/flink/src/main/java/org/apache/beam/runners/flink/translation/wrappers/streaming/DoFnOperator.java:1144-1146 | Confirming two lists of finalizations in turn runs the callbacks of the first and then of the second. |
| Operator.ReplayStep | runners/flink/src/main/java/org/apache/beam/runners/flink/translation/wrappers/streaming/DoFnOperator.java:798-838 | Replaying one more pushed-back element extends the processed calls and the new push-back list by that element's share. |
| Operator.NotReadyAppend | runners/flink/src/main/java/org/apache/beam/runners/flink/translation/wrappers/streaming/DoFnOperator.java:798-838 | The push-back split of a grown list is the split of the old list followed by that of the new element. |
| Operator.ReadyOnesAppend | runners/flink/src/main/java/org/apache/beam/runners/flink/translation/wrappers/streaming/DoFnOperator.java:798-838 | The ready split of a grown list is the split of the old list followed by that of the new element. |
| Operator.MinPushedBackTimestamp | runners/flink/src/main/java/org/apache/beam/runners/flink/translation/wrappers/streaming/DoFnOperator.java:471-474 | The restored pushed-back watermark is the minimum timestamp of the restored elements, Long.MAX_VALUE for none. |
| Operator.DoFnOperator.constructor | runners/flink/src/main/java/org/apache/beam/runners/flink/translation/wrappers/streaming/DoFnOperator.java:454-578 | All watermarks start at the minimum timestamp. The pushed-back elements are restored only with side inputs, with their minimum timestamp as the pushed-back watermark (Long.MAX_VALUE otherwise). No bundle is open, the count is zero, the bundle clock starts now and no finalization is pending. |
| Operator.DoFnOperator.AddFinalization | runners/flink/src/main/java/org/apache/beam/runners/flink/translation/wrappers/streaming/DoFnOperator.java:1123-1125 | A finalization registered through the bundle finalizer joins the current bundle's list. |
| Operator.DoFnOperator.FlushOutputBuffer | runners/flink/src/main/java/org/apache/beam/runners/flink/translation/wrappers/streaming/DoFnOperator.java:1319-1335 | Outside a snapshot the buffered outputs are emitted in order and the buffer empties; during a snapshot nothing moves. |
| Operator.DoFnOperator.EmitOutputs | runners/flink/src/main/java/org/apache/beam/runners/flink/translation/wrappers/streaming/DoFnOperator.java:1290-1297 | While the buffer is open in streaming mode, outputs are appended to the buffer and nothing is emitted. Otherwise they are emitted in order, routed by tag, and the buffer is left alone. |
| Operator.DoFnOperator.CheckInvokeStartBundle | runners/flink/src/main/java/org/apache/beam/runners/flink/translation/wrappers/streaming/DoFnOperator.java:982-993 | A bundle is open afterwards; if none was open, the pre-bundle callback and startBundle run and buffered outputs are flushed first, otherwise nothing happens. |
| Operator.DoFnOperator.InvokeFinishBundle | runners/flink/src/main/java/org/apache/beam/runners/flink/translation/wrappers/streaming/DoFnOperator.java:1042-1066 | An open bundle is finished, with the count reset, the bundle clock set to now and the finish calls made; the bundle-finished callback is a log entry here, so no bundle is open afterwards. The output watermark only moves up, to the current candidate. Without a clock step back beyond the bundle time nothing is re-evaluated. |
| Operator.DoFnOperator.FinishOpenBundle | runners/flink/src/main/java/org/apache/beam/runners/flink/translation/wrappers/streaming/DoFnOperator.java:1044-1056 | The DoFn's finishBundle is logged before the bundle-finished callback. Its outputs are buffered or emitted as the buffer state says. The bundle is closed, the element count restarts and the finish time becomes the current time. |
| Operator.DoFnOperator.CloseBundle | runners/flink/src/main/java/org/apache/beam/runners/flink/translation/wrappers/streaming/DoFnOperator.java:1048-1050 | No bundle is open, the element count is zero, the finish time is the current time, and the operator stays consistent. |
| Operator.DoFnOperator.FinishBundleFully | runners/flink/src/main/java/org/apache/beam/runners/flink/translation/wrappers/streaming/DoFnOperator.java:1104-1106 | The loop ends with no bundle open. An open bundle is finished, with its finish calls logged; with none open nothing changes. Because the model's callback never restarts a bundle, the loop runs at most once. |
| Operator.DoFnOperator.CheckInvokeFinishBundleByCount | runners/flink/src/main/java/org/apache/beam/runners/flink/translation/wrappers/streaming/DoFnOperator.java:998-1011 | In streaming mode the element count grows by one and the bundle is finished once it reaches the maximum bundle size; in batch mode nothing changes. |
| Operator.DoFnOperator.CheckInvokeFinishBundleByTime | runners/flink/src/main/java/org/apache/beam/runners/flink/translation/wrappers/streaming/DoFnOperator.java:1014-1023 | In streaming mode, once the bundle time has elapsed the bundle is finished and a watermark update is scheduled last; otherwise nothing changes. |
| Operator.DoFnOperator.UpdateOutputWatermark | runners/flink/src/main/java/org/apache/beam/runners/flink/translation/wrappers/streaming/DoFnOperator.java:1034-1040 | The output watermark becomes the candidate exactly when the candidate may be emitted, and otherwise stays. |
| Operator.DoFnOperator.ProcessInputWatermark | runners/flink/src/main/java/org/apache/beam/runners/flink/translation/wrappers/streaming/DoFnOperator.java:864-875 | Without advancing the timer service, the output watermark becomes the candidate exactly when it may be emitted, and nothing changes when it may not. |
| Operator.DoFnOperator.AdvanceInputWatermark | runners/flink/src/main/java/org/apache/beam/runners/flink/translation/wrappers/streaming/DoFnOperator.java:860-875 | The input watermark becomes the mark. A keyed operator fires exactly the due event-time timers, earliest first, and logs their onTimer calls in that order inside a bundle; an unkeyed one fires nothing. The output watermark then becomes the candidate exactly when it may be emitted, and a timer fired here counts as an open bundle. |
| Operator.DoFnOperator.AdvanceTimerService | runners/flink/src/main/java/org/apache/beam/runners/flink/translation/wrappers/streaming/DoFnOperator.java:866-868 | Exactly the due event-time registrations are fired, each once, earliest first. The timer state is the result of firing them in that order. The log gains a bundle start if none was open and then their onTimer calls. The output watermark is unchanged. |
| Operator.DoFnOperator.FireDueTimers | runners/flink/src/main/java/org/apache/beam/runners/flink/translation/wrappers/streaming/DoFnOperator.java:866-868 | The firing loop keeps the advance in order and stops only when no due registration is left. |
| Operator.DoFnOperator.FireEarliestDue | runners/flink/src/main/java/org/apache/beam/runners/flink/translation/wrappers/streaming/DoFnOperator.java:1153-1156 | One step fires the earliest due registration: the in-order advance is extended by it, its onTimer call is logged, and fewer registrations remain. |
| Operator.DoFnOperator.MaybeEmitWatermark | runners/flink/src/main/java/org/apache/beam/runners/flink/translation/wrappers/streaming/DoFnOperator.java:909-936 | A watermark above the current output watermark is emitted, after finishing any open bundle once it reaches the end of time. The emitted watermark is the last thing emitted. Global state is cleared when it passes the global window. Otherwise nothing changes. |
| Operator.DoFnOperator.EmitWatermark | runners/flink/src/main/java/org/apache/beam/runners/flink/translation/wrappers/streaming/DoFnOperator.java:925-935 | The watermark is emitted downstream and becomes the output watermark; global state is cleared exactly when it passes the adjusted end of the global window. |
| Operator.DoFnOperator.ProcessWatermark1 | runners/flink/src/main/java/org/apache/beam/runners/flink/translation/wrappers/streaming/DoFnOperator.java:847-862 | Buffered outputs are flushed first. Once the side-input watermark is final the pushed-back data is processed and the list emptied. The input watermark becomes the mark, and a keyed operator fires exactly the due event-time timers, earliest first, logging their onTimer calls. The output watermark becomes the candidate exactly when it may be emitted: a bundle left open by released data or fired timers holds back any candidate below the end of time. |
| Operator.DoFnOperator.FlushAndRelease | runners/flink/src/main/java/org/apache/beam/runners/flink/translation/wrappers/streaming/DoFnOperator.java:847-862 | Buffered outputs are flushed, and the push-back list is emptied exactly when the side-input watermark is final. |
| Operator.DoFnOperator.ProcessWatermark2 | runners/flink/src/main/java/org/apache/beam/runners/flink/translation/wrappers/streaming/DoFnOperator.java:939-948 | The side-input watermark becomes the mark. A final mark processes every pushed-back element in order, starting a bundle if needed, empties the list, and moves the output watermark to the candidate exactly when it may be emitted given the open bundle, the released elements and the due event-time timers. Any other mark changes nothing else. |
| Operator.DoFnOperator.ReleaseAtEndOfTime | runners/flink/src/main/java/org/apache/beam/runners/flink/translation/wrappers/streaming/DoFnOperator.java:943-946 | The push-back list is processed in order and emptied (watermark Long.MAX_VALUE), then the due event-time timers fire earliest first; the log holds the bundle start when one is needed, the released elements and the timer callbacks. Timers fire exactly when some are due, and the output watermark becomes the candidate exactly when it may be emitted. |
| Operator.DoFnOperator.EmitWatermarkIfHoldChanged | runners/flink/src/main/java/org/apache/beam/runners/flink/translation/wrappers/streaming/DoFnOperator.java:1171-1183 | Only a keyed operator whose minimum hold rose past the previous hold re-evaluates the output watermark; otherwise nothing changes. |
| Operator.DoFnOperator.ProcessElementInReadyWindows | runners/flink/src/main/java/org/apache/beam/runners/flink/translation/wrappers/streaming/DoFnOperator.java:763-779 | An element is processed if its side inputs are ready and returned for push-back if not, exactly one of the two. |
| Operator.DoFnOperator.ReplayPushedBack | runners/flink/src/main/java/org/apache/beam/runners/flink/translation/wrappers/streaming/DoFnOperator.java:811-824 | Replaying processes the pushed-back elements whose side inputs are now ready, in order, and returns the others in order. |
| Operator.DoFnOperator.PushBack | runners/flink/src/main/java/org/apache/beam/runners/flink/translation/wrappers/streaming/DoFnOperator.java:770-775 | Pushed-back elements are appended and the pushed-back watermark is lowered to their minimum timestamp. |
| Operator.DoFnOperator.ProcessElement1 | runners/flink/src/main/java/org/apache/beam/runners/flink/translation/wrappers/streaming/DoFnOperator.java:763-779 | A bundle is started if needed; the element is processed when ready or pushed back, lowering the pushed-back watermark, when not. It is then counted: below the maximum bundle size (or in batch mode) the bundle stays open with the count one higher, the log ends with the processing and the output watermark is unchanged; at the maximum the bundle is finished and the count restarts at zero. |
| Operator.DoFnOperator.OfferMainInput | runners/flink/src/main/java/org/apache/beam/runners/flink/translation/wrappers/streaming/DoFnOperator.java:767-775 | Offering the element processes it or pushes it back, never both, and keeps the pushed-back watermark the minimum of the push-back list. |
| Operator.DoFnOperator.ProcessElement2 | runners/flink/src/main/java/org/apache/beam/runners/flink/translation/wrappers/streaming/DoFnOperator.java:798-838 | An open bundle is finished and a new one started. The log then shows the side-input value added and the ready pushed-back elements processed in order, unless an elapsed bundle time re-evaluated the watermark in between. The side element is counted: a one-element bundle size finishes the new bundle; otherwise the bundle stays open, the log goes on with what the main-input watermark releases (every still-pushed-back element once the side inputs are final) and the output watermark moves to the candidate only when that is final. Only the elements still not ready stay pushed back. |
| Operator.DoFnOperator.BeginSideInputBundle | runners/flink/src/main/java/org/apache/beam/runners/flink/translation/wrappers/streaming/DoFnOperator.java:798-832 | The open bundle is finished and a new one started. The side-input value is added, then the ready pushed-back elements are processed in order. Only the elements still not ready stay pushed back. |
| Operator.DoFnOperator.AddSideInputAndReplay | runners/flink/src/main/java/org/apache/beam/runners/flink/translation/wrappers/streaming/DoFnOperator.java:806-832 | The side-input value is added before the replay, and the push-back list becomes exactly the elements still not ready. |
| Operator.DoFnOperator.ReplaceRemaining | runners/flink/src/main/java/org/apache/beam/runners/flink/translation/wrappers/streaming/DoFnOperator.java:826-832 | The push-back list is replaced by the remaining elements, with the watermark recomputed. |
| Operator.DoFnOperator.EmitAllPushedBackData | runners/flink/src/main/java/org/apache/beam/runners/flink/translation/wrappers/streaming/DoFnOperator.java:954-970 | Every pushed-back element is processed in order, inside a bundle started if needed. The list is cleared and the pushed-back watermark is reset to Long.MAX_VALUE. |
| Operator.DoFnOperator.ProcessInBundle | runners/flink/src/main/java/org/apache/beam/runners/flink/translation/wrappers/streaming/DoFnOperator.java:752-756 | An element is processed inside a bundle, started first if none was open. |
| Operator.DoFnOperator.ProcessElement | runners/flink/src/main/java/org/apache/beam/runners/flink/translation/wrappers/streaming/DoFnOperator.java:751-760 | A bundle is started if needed and the element processed, then counted. Below the maximum bundle size the output watermark moves to the candidate exactly when a keyed hold rose and the candidate is final and above it; otherwise the bundle stays open, the count is one higher (streaming) and the log ends with the element. At the maximum the bundle is finished and the count restarts at zero. |
| Operator.DoFnOperator.CountAndRecheckHold | runners/flink/src/main/java/org/apache/beam/runners/flink/translation/wrappers/streaming/DoFnOperator.java:757-758 | Below the maximum bundle size the bundle stays open with the count one higher unless a risen keyed hold lets a final candidate through, which then becomes the output watermark; at the maximum the bundle is finished. |
| Operator.DoFnOperator.CountAndPropagate | runners/flink/src/main/java/org/apache/beam/runners/flink/translation/wrappers/streaming/DoFnOperator.java:834-837 | Below the maximum bundle size the log goes on with the released elements and the timer callbacks, and the output watermark moves only to a final candidate; at the maximum the bundle is finished. |
| Operator.DoFnOperator.Candidate | runners/flink/src/main/java/org/apache/beam/runners/flink/translation/wrappers/streaming/DoFnOperator.java:864-907 | The output watermark candidate never passes the pushed-back watermark, the input watermark, the buffering hold (with stable input) or the keyed minimum hold (keyed operators). |
| Operator.EmitsWatermark | runners/flink/src/main/java/org/apache/beam/runners/flink/translation/wrappers/streaming/DoFnOperator.java:909-922 | A watermark is emitted only when it exceeds the current one; a final one always goes through, and any other waits while a bundle is open. |
| Operator.DoFnOperator.InputWatermarkHold | runners/flink/src/main/java/org/apache/beam/runners/flink/translation/wrappers/streaming/DoFnOperator.java:864-868 | The watermark the timer service advances to is at most the input and pushed-back watermarks (and the buffering hold with stable input), and at least the output watermark candidate. |
| Operator.IsReady | runners/flink/src/main/java/org/apache/beam/runners/flink/translation/wrappers/streaming/DoFnOperator.java:763-779 | Without side inputs every element is ready; with side inputs exactly those whose window is among the ready ones. |
| Operator.DoFnOperator.Released | runners/flink/src/main/java/org/apache/beam/runners/flink/translation/wrappers/streaming/DoFnOperator.java:847-862 | Nothing is released before the side-input watermark is final; afterwards the whole push-back list is. |
| Operator.OnTimers | runners/flink/src/main/java/org/apache/beam/runners/flink/translation/wrappers/streaming/DoFnOperator.java:1153-1156 | One timer callback per fired registration, in firing order. |
| TimerInternals.FiringNonEmpty | runners/flink/src/main/java/org/apache/beam/runners/flink/translation/wrappers/streaming/DoFnOperator.java:866-868 | An advance of the timer service fires something exactly when some event-time registration is due. |
| Operator.DoFnOperator.OnEventTime | runners/flink/src/main/java/org/apache/beam/runners/flink/translation/wrappers/streaming/DoFnOperator.java:1153-1156 | A fired event-time timer leaves the timer internals in the fired state and calls the DoFn's onTimer inside a bundle. |
| Operator.DoFnOperator.OnProcessingTime | runners/flink/src/main/java/org/apache/beam/runners/flink/translation/wrappers/streaming/DoFnOperator.java:1159-1162 | A fired processing-time timer leaves the timer internals in the fired state and calls the DoFn's onTimer inside a bundle. |
| Operator.DoFnOperator.FireTimerInternal | runners/flink/src/main/java/org/apache/beam/runners/flink/translation/wrappers/streaming/DoFnOperator.java:1165-1169 | The timer is cleaned up, its onTimer call made, and the watermark hold re-checked. |
| Operator.DoFnOperator.FireTimer | runners/flink/src/main/java/org/apache/beam/runners/flink/translation/wrappers/streaming/DoFnOperator.java:1186-1206 | Firing removes the timer's pending entry and hold before the onTimer call. |
| Operator.DoFnOperator.PrepareSnapshotPreBarrier | runners/flink/src/main/java/org/apache/beam/runners/flink/translation/wrappers/streaming/DoFnOperator.java:1069-1078 | With finishing before checkpoints enabled, any open bundle is finished; otherwise nothing changes. |
| Operator.DoFnOperator.SnapshotState | runners/flink/src/main/java/org/apache/beam/runners/flink/translation/wrappers/streaming/DoFnOperator.java:1081-1113 | Under stable input the buffer is checkpointed first. The bundle's finalizations move to the pending map, bounded at 32. An open bundle is then finished with the buffer open: in streaming mode its finishBundle outputs are appended to the buffer, and nothing is emitted unless the bundle time had elapsed; in batch mode they are emitted. The buffer is closed again. |
| Operator.DoFnOperator.SnapshotFinalizations | runners/flink/src/main/java/org/apache/beam/runners/flink/translation/wrappers/streaming/DoFnOperator.java:1092-1099 | The bundle's finalizations become the checkpoint's pending entry after eviction, and the bundle's list empties. |
| Operator.DoFnOperator.FinishBundleBuffered | runners/flink/src/main/java/org/apache/beam/runners/flink/translation/wrappers/streaming/DoFnOperator.java:1101-1107 | An open bundle is finished with the buffer open. In streaming mode its finishBundle outputs are appended to the buffer, and nothing is emitted unless the bundle time had elapsed; in batch mode they are emitted. The buffer is closed again and no bundle is open. |
| Operator.DoFnOperator.NotifyCheckpointComplete | runners/flink/src/main/java/org/apache/beam/runners/flink/translation/wrappers/streaming/DoFnOperator.java:1128-1150 | Under stable input the buffered data of the checkpoint is released first. The checkpoint's finalizations are then removed and their success callbacks run last, in order; an unknown checkpoint runs none. |
| Operator.DoFnOperator.RunFinalizations | runners/flink/src/main/java/org/apache/beam/runners/flink/translation/wrappers/streaming/DoFnOperator.java:1142-1146 | Each finalization's success callback runs once, in order. |
| Operator.DoFnOperator.FlushData | runners/flink/src/main/java/org/apache/beam/runners/flink/translation/wrappers/streaming/DoFnOperator.java:642-688 | After the drain no bundle is open. It succeeds only with the output watermark at Long.MAX_VALUE and no pushed-back data. It reports the held watermark or the leftover count otherwise. With no holds and nothing pushed back it always succeeds. |
| Operator.DoFnOperator.FinishAndReleaseStableInput | runners/flink/src/main/java/org/apache/beam/runners/flink/translation/wrappers/streaming/DoFnOperator.java:660-668 | After the drain's finish no bundle is open and an open bundle's finish calls are logged. With stable input and drain release enabled, the log then records the completed checkpoint at Long.MAX_VALUE and the output watermark moves to the candidate when it is above it; otherwise nothing follows the finish. |
| Multimaps.KeysOf | sdks/java/core/src/main/java/org/apache/beam/sdk/io/WriteFiles.java:1086-1093 | There are never more keys than puts. |
| Multimaps.ValuesOf | sdks/java/core/src/main/java/org/apache/beam/sdk/io/WriteFiles.java:1086-1093 | A key never has more values than there were puts. |
| Multimaps.KeysOfSnoc | sdks/java/core/src/main/java/org/apache/beam/sdk/io/WriteFiles.java:1088-1090 | A put adds its key at the end of the key order if and only if the key is new. |
| Multimaps.ValuesOfSnoc | sdks/java/core/src/main/java/org/apache/beam/sdk/io/WriteFiles.java:1088-1090 | A put appends its value to its own key's list and to no other. |
| Multimaps.KeysOfMembership | sdks/java/core/src/main/java/org/apache/beam/sdk/io/WriteFiles.java:1092-1098 | A key is listed if and only if some put used it. |
| Multimaps.KeysOfDistinct | sdks/java/core/src/main/java/org/apache/beam/sdk/io/WriteFiles.java:1092-1098 | No key is listed twice. |
| Multimaps.ValuesOfMembership | sdks/java/core/src/main/java/org/apache/beam/sdk/io/WriteFiles.java:1092-1098 | A value is in a key's list if and only if that pair was put. |
| Multimaps.KeysOfNonEmpty | sdks/java/core/src/main/java/org/apache/beam/sdk/io/WriteFiles.java:1092-1098 | A key is listed if and only if its list is non-empty. |
| Multimaps.KeysOfEmpty | sdks/java/core/src/main/java/org/apache/beam/sdk/io/WriteFiles.java:976-989 | There are no keys if and only if there were no puts. |
| Multimaps.GroupSizesAddUp | sdks/java/core/src/main/java/org/apache/beam/sdk/io/WriteFiles.java:1092-1098 | The lists of all keys together hold exactly as many values as there were puts. |
| Multimaps.GroupSizesSnoc | sdks/java/core/src/main/java/org/apache/beam/sdk/io/WriteFiles.java:1088-1090 | A put grows the total of the listed keys' lists by the number of times its key is listed. |
| Multimaps.GroupSizesAppendKey | sdks/java/core/src/main/java/org/apache/beam/sdk/io/WriteFiles.java:1092-1098 | Listing one more key adds the size of its list to the total. |
| Multimaps.CountDistinct | sdks/java/core/src/main/java/org/apache/beam/sdk/io/WriteFiles.java:1092-1098 | In a duplicate-free key list a key occurs once if present and otherwise not at all. |
| Multimaps.ListMultimap.constructor | sdks/java/core/src/main/java/org/apache/beam/sdk/io/WriteFiles.java:1086-1087 | A new multimap is empty. |
| Multimaps.ListMultimap.Put | sdks/java/core/src/main/java/org/apache/beam/sdk/io/WriteFiles.java:1088-1090 | A put records one more pair and keeps keys and lists consistent with all pairs put so far. |
| Multimaps.ListMultimap.Get | sdks/java/core/src/main/java/org/apache/beam/sdk/io/WriteFiles.java:1112-1118 | A key's list is the values put under it, in put order. |
| Multimaps.PutAll | sdks/java/core/src/main/java/org/apache/beam/sdk/io/WriteFiles.java:1086-1090 | Putting every pair of a list yields a fresh multimap whose puts are exactly that list. |
| WriteFilesConfig.To | sdks/java/core/src/main/java/org/apache/beam/sdk/io/WriteFiles.java:160-172 | A new write uses runner-determined sharding and unwindowed writes, does not promote windows to keys, and allows 20 writers per bundle. |
| WriteFilesConfig.WithRunnerDeterminedSharding | sdks/java/core/src/main/java/org/apache/beam/sdk/io/WriteFiles.java:291-293 | Fixed sharding is switched off and every other setting is kept. |
| WriteFilesConfig.WithNumShards | sdks/java/core/src/main/java/org/apache/beam/sdk/io/WriteFiles.java:239-244 | A positive count fixes the shard count to it; any other count means runner-determined sharding; other settings are kept. |
| WriteFilesConfig.WithNoSpilling | sdks/java/core/src/main/java/org/apache/beam/sdk/io/WriteFiles.java:327-329 | Only the writer cap changes, to a negative value that means no cap. |
| WriteFilesConfig.NonPositiveNumShardsIsRunnerDetermined | sdks/java/core/src/main/java/org/apache/beam/sdk/io/WriteFiles.java:236-244 | A shard count of zero or less is exactly runner-determined sharding. |
| WriteFilesConfig.Rewindowed | sdks/java/core/src/main/java/org/apache/beam/sdk/io/WriteFiles.java:355-365 | Without windowed writes the input is re-windowed into the global window: no fixed windows and no merging, boundedness unchanged. With them the input is unchanged. |
| WriteFilesConfig.Expand | sdks/java/core/src/main/java/org/apache/beam/sdk/io/WriteFiles.java:338-419 | Expansion succeeds if and only if unbounded input uses windowed writes and, with merging windows, fixed sharding, and promoting windows to keys uses windowed writes over fixed windows (without windowed writes the input was re-windowed into the global window). Each failure is named. The path taken is sharded exactly under fixed sharding, unsharded for other bounded input, and auto-sharded otherwise. |
| WriteFilesConfig.PromoteWithoutWindowedWritesFails | sdks/java/core/src/main/java/org/apache/beam/sdk/io/WriteFiles.java:388-395 | Fixed sharding that promotes windows to keys but has no windowed writes always fails with the fixed-window error. |
| WriteFilesSharding.NextShard | sdks/java/core/src/main/java/org/apache/beam/sdk/io/WriteFiles.java:879 | The next shard is in range and, from a shard in range, is its successor wrapping to 0. |
| WriteFilesSharding.RoundRobin | sdks/java/core/src/main/java/org/apache/beam/sdk/io/WriteFiles.java:874-880 | Every shard of the sequence is in range. |
| WriteFilesSharding.RoundRobinWithinCycle | sdks/java/core/src/main/java/org/apache/beam/sdk/io/WriteFiles.java:874-880 | The k-th shard after the first is the first plus k, wrapped once. |
| WriteFilesSharding.RoundRobinBalanced | sdks/java/core/src/main/java/org/apache/beam/sdk/io/WriteFiles.java:874-880 | Within one cycle no shard is used twice, so consecutive records are spread over all shards. |
| WriteFilesSharding.RandomShardingFunction.constructor | sdks/java/core/src/main/java/org/apache/beam/sdk/io/WriteFiles.java:865-868 | A new sharding function has no shard yet. |
| WriteFilesSharding.RandomShardingFunction.AssignShardKey | sdks/java/core/src/main/java/org/apache/beam/sdk/io/WriteFiles.java:870-890 | The key is the destination hash with a shard in range. The first shard is arbitrary, and later ones follow round-robin. |
| WriteFilesSharding.ResolveShardCount | sdks/java/core/src/main/java/org/apache/beam/sdk/io/WriteFiles.java:911-922 | The shard count comes from the view if there is one, else from the provider. A missing provider or a count that is not positive is an error. |
| WriteFilesSharding.ApplyShardingFunctionFn.constructor | sdks/java/core/src/main/java/org/apache/beam/sdk/io/WriteFiles.java:899-906 | The DoFn keeps its sharding function and shard count provider. |
| WriteFilesSharding.ApplyShardingFunctionFn.ProcessElement | sdks/java/core/src/main/java/org/apache/beam/sdk/io/WriteFiles.java:908-936 | It fails exactly when the shard count cannot be resolved, and then leaves the sharding function untouched. On success it outputs the element unchanged, keyed by its destination hash and the sharding function's new shard, which is below the count and, after the first call, the previous shard moved on by one modulo the count. |
| WriteFilesWriters.NoSpillingNeverSpills | sdks/java/core/src/main/java/org/apache/beam/sdk/io/WriteFiles.java:327-329 | With spilling switched off a new writer may always be opened. |
| WriteFilesWriters.WriteUnshardedTempFilesFn.constructor | sdks/java/core/src/main/java/org/apache/beam/sdk/io/WriteFiles.java:552-559 | The DoFn starts with no writers, no spilled records and no spill shard. |
| WriteFilesWriters.WriteUnshardedTempFilesFn.StartBundle | sdks/java/core/src/main/java/org/apache/beam/sdk/io/WriteFiles.java:561-565 | Each bundle starts with no writers. |
| WriteFilesWriters.WriteUnshardedTempFilesFn.ProcessElement | sdks/java/core/src/main/java/org/apache/beam/sdk/io/WriteFiles.java:567-609 | An element is written by the writer of its window, pane and destination, opening one while under the cap. Past the cap the element is spilled with the destination hash and a spill shard in [0, 10). That shard advances round-robin after the first. |
| WriteFilesWriters.WriteUnshardedTempFilesFn.FinishBundle | sdks/java/core/src/main/java/org/apache/beam/sdk/io/WriteFiles.java:611-631 | One result per open writer, in opening order, with the unknown shard and the writer's window, pane, destination and written elements. |
| WriteFilesWriters.UnshardedResultsPerWriter | sdks/java/core/src/main/java/org/apache/beam/sdk/io/WriteFiles.java:611-631 | The results have no shard, no two share a window, pane and destination, and every writer has its result. |
| WriteFilesWriters.WriteShardsIntoTempFilesFn.constructor | sdks/java/core/src/main/java/org/apache/beam/sdk/io/WriteFiles.java:939-942 | The DoFn starts with no deferred output. |
| WriteFilesWriters.WriteShardsIntoTempFilesFn.StartBundle | sdks/java/core/src/main/java/org/apache/beam/sdk/io/WriteFiles.java:944-948 | Each bundle starts with no deferred output. |
| WriteFilesWriters.WriteShardsIntoTempFilesFn.ProcessElement | sdks/java/core/src/main/java/org/apache/beam/sdk/io/WriteFiles.java:950-990 | A shard group fails if and only if its shard is unset and it has elements, and then defers nothing. Otherwise it defers one result per destination in first-appearance order, holding that destination's elements under the group's shard, window and pane. |
| WriteFilesWriters.WriteShardsIntoTempFilesFn.FinishBundle | sdks/java/core/src/main/java/org/apache/beam/sdk/io/WriteFiles.java:1009-1016 | The bundle's output is exactly the deferred results, in order. |
| WriteFilesWriters.CloseWriters | sdks/java/core/src/main/java/org/apache/beam/sdk/io/WriteFiles.java:976-989 | Closing yields one result per writer, in key order, holding what that writer received. |
| WriteFilesWriters.ShardResultsPerDestination | sdks/java/core/src/main/java/org/apache/beam/sdk/io/WriteFiles.java:950-990 | Per shard group: one result per destination, all with the group's shard. Every element lands in its destination's file, and every file holds only elements of its destination. |
| WriteFilesFinalize.FixedNumShards | sdks/java/core/src/main/java/org/apache/beam/sdk/io/WriteFiles.java:1058-1065 | A shard count is fixed if and only if there is a view or a provider, and the view wins. |
| WriteFilesFinalize.ByDestinationWindow | sdks/java/core/src/main/java/org/apache/beam/sdk/io/WriteFiles.java:1088-1090 | Each result is keyed by its own destination and window, in order. |
| WriteFilesFinalize.FinalizeAllDestinations | sdks/java/core/src/main/java/org/apache/beam/sdk/io/WriteFiles.java:1083-1100 | One finalization per distinct destination and window, holding that group's results with the fixed shard count. |
| WriteFilesFinalize.Finalize | sdks/java/core/src/main/java/org/apache/beam/sdk/io/WriteFiles.java:1053-1080 | No results still finalize the default destination in the global window with no files; otherwise results are finalized per destination and window. |
| WriteFilesFinalize.TotalResultsIsGroupSizes | sdks/java/core/src/main/java/org/apache/beam/sdk/io/WriteFiles.java:1092-1098 | The finalizations together hold as many results as the groups they were made from. |
| WriteFilesFinalize.FinalizeOncePerDestinationWindow | sdks/java/core/src/main/java/org/apache/beam/sdk/io/WriteFiles.java:1092-1098 | No destination and window is finalized twice. |
| WriteFilesFinalize.FinalizeRequestsHoldOwnResults | sdks/java/core/src/main/java/org/apache/beam/sdk/io/WriteFiles.java:1083-1100 | A finalization holds only written results, and only of its own destination and window. |
| WriteFilesFinalize.FinalizeCoversEveryResult | sdks/java/core/src/main/java/org/apache/beam/sdk/io/WriteFiles.java:1083-1100 | Every written result is finalized with its destination and window. |
| WriteFilesFinalize.FinalizeKeepsResultCount | sdks/java/core/src/main/java/org/apache/beam/sdk/io/WriteFiles.java:1083-1100 | The finalizations hold exactly as many results as were written, so none is lost or duplicated. |
| WriteFilesFinalize.GatherBundlesPerWindowFn.constructor | sdks/java/core/src/main/java/org/apache/beam/sdk/io/WriteFiles.java:1102-1103 | The DoFn starts with nothing gathered. |
| WriteFilesFinalize.GatherBundlesPerWindowFn.StartBundle | sdks/java/core/src/main/java/org/apache/beam/sdk/io/WriteFiles.java:1105-1108 | Each bundle starts with nothing gathered. |
| WriteFilesFinalize.GatherBundlesPerWindowFn.Process | sdks/java/core/src/main/java/org/apache/beam/sdk/io/WriteFiles.java:1110-1113 | The element is gathered under its window. |
| WriteFilesFinalize.GatherBundlesPerWindowFn.FinishBundle | sdks/java/core/src/main/java/org/apache/beam/sdk/io/WriteFiles.java:1115-1120 | One list per window seen in the bundle, holding that window's elements in arrival order. |
| WriteFilesFinalize.GatherOutputsEachElement | sdks/java/core/src/main/java/org/apache/beam/sdk/io/WriteFiles.java:1102-1121 | No window gets two lists, and every gathered element is in the list of its window and nowhere else. |

## Left out

- Operator setup, `open`'s metrics and the periodic bundle-check timer, `close` and `finish` are left out: they wire Flink runtime objects.
- Locks and concurrency between the checkpoint thread and the processing thread are left out. Each operation is modelled as atomic.
- Coders, serialisation of the buffer and of timers, and keyed-state backends are left out. The checkpointed buffer is modelled as its list of (tag id, value) pairs.
- The `DoFnRunner`, `SideInputHandler`, stable-input `BufferingDoFnRunner` and user callbacks are not modelled internally. Their calls are entries of the `effects` log, and side-input readiness is an input set of windows.
- `currentInputWatermarkTime`, the batch-mode watermark computation of `FlinkTimerInternals`, is left out because the operator's streaming logic does not use it.
- `processPendingProcessingTimeTimers` and the processing-time timer checks at the start of `flushData` are left out: they depend on Flink's timer service, which is not modelled.
- The key context (`setCurrentKey`) is left out. Timer internals are modelled for one key.
- Operator.DoFnOperator.AdvanceTimerService: timers that a DoFn's `onTimer` registers while the timer service advances are not modelled, because callbacks are log entries. An advance fires the due timers registered before it started.
- The keyed state's minimum watermark hold is an `Env` value read once per step. Within one step it is taken as unchanged while timers fire, although an `onTimer` callback in the source may change it.
- The outputs of `processElement` and `onTimer` are not modelled. Only `finishBundle`'s outputs reach the output manager, and every `finishBundle` within one step emits the same outputs, `Env.finishOutputs`.
- `checkpointStats` reporting and `failBundleFinalization` are left out. A failing bundle is outside the model.
- Operator.DoFnOperator.InvokeFinishBundle: the bundle-finished callback is a log entry. A callback that starts a new bundle, which the source allows (DoFnOperator.java:1051-1052), is outside the model, so finishing always leaves no bundle open and the `while (bundleStarted)` loops of `FinishBundleFully` and `SnapshotState` run at most once.
- Operator.DoFnOperator.InvokeFinishBundle: the re-evaluation of the input watermark after a clock step back is cut off after `REEVALUATION_DEPTH` nested rounds. The source recurses without bound there, and can do so forever when the clock steps back by more than the bundle time while a terminal watermark is pending.
- Java `int` counters (`elementCount`, shard numbers, writer counts) are unbounded integers here. Overflow of those counters is not modelled.
- `hashDestination`'s Murmur3 hash is an input value, the destination hash.
- Writer UUIDs and the random first shard number (`ThreadLocalRandom`) are arbitrary choices.
- Writing, closing and cleaning up temporary files is modelled by the list of elements each writer received.
- `moveToOutputFiles` and the internals of `finalizeDestination` (naming files, filling missing shards with empty files) are modelled by the request each destination and window receives.
- WriteFilesWriters.WriteUnshardedTempFilesFn.FinishBundle: writers are reported in opening order, whereas the source iterates a `HashMap` in unspecified order.
- WriteFilesWriters.WriteShardsIntoTempFilesFn.ProcessElement: destinations are reported in order of first appearance, whereas the source iterates a `HashMap` in unspecified order. The unset-shard check is made before any writer is closed. Since it depends only on the group's key, it fails on the first writer exactly when the source's loop would.
- WriteFilesWriters.WriteShardsIntoTempFilesFn.ProcessElement: the results keep the group's shard. The step that then sets spilled results back to the unknown shard is not modelled.
- WriteFilesFinalize.FinalizeAllDestinations: the (destination, window) groups are reported in order of first appearance, whereas the source iterates an `ArrayListMultimap`'s keys in unspecified order.
- WriteFilesFinalize.GatherBundlesPerWindowFn.FinishBundle: windows are reported in order of first appearance, whereas the source iterates an `ArrayListMultimap`'s keys in unspecified order.
- WriteFilesSharding.ApplyShardingFunctionFn.ProcessElement: with windows promoted to keys, the source replaces the shard by a hash of shard and window. That branch is not modelled; the contract covers the shard from the sharding function.
- Operator.IsReady: elements are taken as already exploded into one window each, so readiness is decided once per element. The source splits a multi-window element and decides per window, processing the ready windows and pushing back the others.
- Operator.DoFnOperator.FinishAndReleaseStableInput: after a clock step back beyond the bundle time the finish re-evaluates the watermark, and then the contract only says the log grows by the finish calls.
- Operator.DoFnOperator.ProcessElement2: when the finish or the count re-evaluated the watermark after a clock step back, or the maximum bundle size is one, the contract states the log up to the count's finish and not what the main-input watermark then releases.
- Custom `ShardingFunction`s supplied by users are left out; only the default random function is modelled.
- The output timestamps (`window.maxTimestamp()`) of finished bundles and of the writer `DoFn`s' results are not modelled.
- The composite transforms around the `DoFn`s are left out: `GroupByKey`, `Reshuffle`, `Flatten` and the auto-sharded path's `GroupIntoBatches` (`WriteAutoShardedBundlesToTempFiles`).

## Findings

| source | as written | input that shows it | evidently intended | confidence | as-written member | corrected member |
|---|---|---|---|---|---|---|
| runners/flink/src/main/java/org/apache/beam/runners/flink/translation/wrappers/streaming/DoFnOperator.java:1667-1674 | `deleteTimer(namespace, timerId, timerFamilyId, timeDomain)` looks the timer up under `timerId + namespace`. `setTimer` stores it under `timerFamilyId + "+" + timerId + namespace`, so a delete through this overload finds nothing. Only `deleteTimer(TimerData)` works, because it passes an already constructed id. | A timer with id "t" in family "fam" and namespace key "/w/" is set, then deleted with namespace "/w/" and id "t": it stays pending. | The lookup should use the same `constructTimerId(timerFamilyId, timerId)` prefix as `setTimer`, with `deleteTimer(TimerData)` passing the plain timer id; the model's `FlinkTimerInternals.DeleteTimer` does so. | medium, not executed | TimerInternals.DeleteTimerMissesFamilyTimer | TimerInternals.DeleteTimerIntendedRemovesTimer |
