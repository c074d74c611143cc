# rs_flow and rs_coroutine_core, modelled in Dafny

This project models the core of a Rust library that brings Kotlin-style
coroutines and cold flows to tokio.

- **Cold flows (`rs_flow`).** A `Flow<T>` stores a producer closure. Every
  `collect` runs that closure again with a fresh `FlowCollector`, whose
  `emit` hands each value to the consumer's callback.
- **Operators.** Intermediate operators (`map`, `filter`, `take`, `buffer`,
  `flow_on`, `flat_map_latest`), combinators (`combine`, `zip`, `sample`,
  `concat`, `start_with`, `merge`) and lifecycle operators (`on_start`,
  `on_completion`, `on_empty`, `catch_panic`, `retry`, `with_timeout`)
  each build a new flow from old ones.
- **Builders and terminals.** Builders make flows from values, ranges,
  channels and generators. Terminal operators (`first`, `single`, `fold`,
  `reduce`, `count`, `any`, …) collect a flow into one answer.
- **Hot flows.** `SharedFlow` sits over a tokio broadcast channel.
  `StateFlow` sits over a tokio watch channel.
- **Cancellation and scopes (`rs_coroutine_core`).** `CancelToken` and
  `JobHandle` provide cancellation and joining. `CoroutineScope` launches
  tasks on a dispatcher.

## How the model is built

**One collection.** One run of a producer is a `Flows.Run<T>`: the values
it emitted, in order, and an `Outcome`. The outcome is `Completed` or
`Panicked(payload)`. The payload kind (`&str`, `String` or something else)
is kept because `catch_panic` reads it.

**A flow.** A `Flows.Flow<T>` is a function from the index of a collection
to its run. A producer that captures outside state (a generator's counter,
say) may yield something different each time it is collected. `retry`
collects the same flow again and again.

**Where the source runs threads.** Operators that spawn tasks or race
futures get an explicit schedule as an extra parameter:

| Operator | Schedule |
|---|---|
| the bounded `mpsc` channel behind `buffer`, `flow_on`, `channel_flow` and `flat_map_latest` (`Mpsc.Pipe`) | `Send`/`Recv` steps |
| `combine` | `Left`/`Right` arrivals |
| `sample` | `Data`/`Tick` events |
| `merge` | a sequence of source indices |
| a `StateFlow` collection | `Write`/`Poll` events |
| the corrected `flat_map_latest` | `Outer`/`Inner` steps |

Each contract holds for every schedule. Wall-clock time in `with_timeout`
becomes a sequence of emission times plus an end time.

**Imperative code stays imperative.** Code that loops over a channel or
updates shared state becomes a Dafny `method` with a `while` loop. Each such
method is proved against a specification function, or directly against
what the source promises. `SharedFlow`, `StateFlow`, `CancelToken`,
`JobHandle`, the dispatcher queue and `CoroutineScope` are classes whose
methods update their fields.

**Where the model follows the code rather than the documentation:**

- `on_completion` always passes `None` to its action. It does not run when
  the upstream panics, although its doc comment says it runs "successfully
  or with error".
- `with_timeout` applies one deadline measured from the start of
  collection, and the flow then simply completes. Its doc comment describes
  an idle timeout that fails. The code's own test agrees with the code.
- `CancelToken::child` returns a token that is not linked to its parent.
- `JobHandle::complete` records no completed state. A `join` that starts
  after `complete` is not released.
- `rs_flow/tests/flow_tests.rs` imports `rs_flow::hot` and awaits `emit`.
  Neither exists in this revision, so that file is read only as a statement
  of intent.

## Model

| member | source | states |
|---|---|---|
| Prelude.Result.ToOption | rs_flow/src/terminal/implementation.rs:97-100 | `Ok(v)` becomes `Some(v)` and an error becomes `None`, as `.ok()` does in `to_vec` |
| Prelude.Option.OkOr | rs_flow/src/terminal/implementation.rs:11-30 | `Some(v)` becomes `Ok(v)` and `None` becomes the given error, as `first` does with `ok_or(FlowError::Empty)` |
| Flows.New | rs_flow/src/flow.rs:48-56 | every collection of the new flow runs the given producer |
| Flows.FromFn | rs_flow/src/flow.rs:59-65 | `from_fn` builds a flow whose every collection runs the given producer, as `new` does |
| Flows.FlowFn | rs_flow/src/flow.rs:87-94 | `flow(builder)` builds a flow whose every collection runs the builder |
| Flows.Emit | rs_flow/src/flow.rs:23-25 | emitting one value has the effect of a one-value collection through the same callback |
| Flows.Clone | rs_flow/src/flow.rs:78-84 | a clone shares the producer: at every collection index it yields the original's run |
| Flows.EmitAll | rs_flow/src/flow.rs:23-25 | collecting values through a collector yields one callback effect per value, in order, each the callback applied to that value |
| Flows.Collect | rs_flow/src/flow.rs:68-75 | the k-th `collect` calls the callback once per emitted value of the k-th run, in emission order |
| Flows.CollectsAreIndependent | rs_flow/src/flow.rs:68-75 | a producer that depends on nothing outside itself gives the same emissions in every collection: flows are cold |
| Flows.CloneCollectsSame | rs_flow/src/flow.rs:78-84 | collecting a clone gives exactly the emissions of collecting the original |
| Flows.ConstructorsAgree | rs_flow/src/flow.rs:48-65 | `Flow::new`, `Flow::from_fn` and `flow(builder)` build the same flow around the given producer |
| Flows.EmitAllIdentity | rs_flow/src/flow.rs:23-25 | `emit` passes each value through unchanged, so an identity callback yields the emitted sequence |
| Mpsc.Pipe | rs_flow/src/operators.rs:125-149 | whatever the schedule and the positive capacity, the consumer receives exactly the values sent, in order, each once |
| Operators.Map | rs_flow/src/operators.rs:48-71 | the output has one value per upstream value, and output i is `f` of upstream value i |
| Operators.Filter | rs_flow/src/operators.rs:73-97 | the output is no longer than the input, and a value occurs in it exactly when it occurs upstream and satisfies the predicate |
| Operators.FilterAppend | rs_flow/src/operators.rs:73-97 | filtering distributes over concatenation of upstream segments, so order is preserved |
| Operators.FilterExtremes | rs_flow/src/operators.rs:73-97 | an always-true predicate passes everything and an always-false one passes nothing |
| Operators.Take | rs_flow/src/operators.rs:99-123 | as written: every upstream value is received; `take(0)` emits nothing, `take(1)` emits the first value, any larger count emits everything |
| Operators.TakeFirst | rs_flow/src/operators.rs:99-123 | corrected: emits exactly the first `min(count, n)` values and receives no more than that |
| Operators.TestPipelineInput | rs_flow/tests/flow_tests.rs:8-12 | the test's producer emits ten values, 0 through 9 |
| Operators.FilterPair | rs_flow/tests/flow_tests.rs:14-20 | of a multiple of four followed by a non-multiple, the filter keeps only the first |
| Operators.PipelineDoubled | rs_flow/tests/flow_tests.rs:14-15 | doubling 0..9 gives 0, 2, …, 18 |
| Operators.FilterDoubledFront | rs_flow/tests/flow_tests.rs:14-20 | the first half of the doubled values filters to 0, 4, 8 |
| Operators.FilterDoubledBack | rs_flow/tests/flow_tests.rs:14-20 | the second half of the doubled values filters to 12, 16 |
| Operators.FilterDoubled | rs_flow/tests/flow_tests.rs:14-20 | the doubled values filter to 0, 4, 8, 12, 16 |
| Operators.PipelineBeforeTake | rs_flow/tests/flow_tests.rs:14-20 | `map` then `filter` on 0..9 yields 0, 4, 8, 12, 16 |
| Operators.TakeThreeAsWritten | rs_flow/tests/flow_tests.rs:6-25 | as written, the test pipeline collects 0, 4, 8, 12, 16, not the expected 0, 4, 8 |
| Operators.TakeThreeFirst | rs_flow/tests/flow_tests.rs:6-25 | with the corrected `take`, the test pipeline collects 0, 4, 8 |
| Operators.Buffer | rs_flow/src/operators.rs:125-149 | the buffered flow emits exactly the upstream values, in order, and completes; a panic in the spawned producer is swallowed |
| Operators.FlowOn | rs_flow/src/operators.rs:151-175 | running upstream on another dispatcher through a 16-slot channel emits exactly its values, in order, and completes |
| Operators.FlattenAppend | rs_flow/src/operators.rs:177-221 | flattening distributes over concatenation of the inner sequences |
| Operators.FlatMapLatest | rs_flow/src/operators.rs:177-221 | as written: every inner flow is collected to its end, so the output is the concatenation of `f(v)` over all upstream values |
| Operators.Untagged | rs_flow/src/operators.rs:177-221 | dropping the tags keeps the length and the values, in order |
| Operators.SwitchLatest | rs_flow/src/operators.rs:177-221 | corrected: at most one value per schedule step, and every value belongs to the inner flow of some upstream value |
| Operators.SwitchLength | rs_flow/src/operators.rs:177-221 | each step of the corrected operator emits at most one value |
| Operators.SwitchSplit | rs_flow/src/operators.rs:177-221 | corrected switch-latest: a schedule read in two stretches gives the first stretch's output followed by the second's, resumed where the first stopped |
| Operators.SwitchTags | rs_flow/src/operators.rs:177-221 | every value the corrected operator emits belongs to the inner flow of the upstream value it is tagged with, and no tag is older than the latest arrival at the start |
| Operators.SwitchAfterBounded | rs_flow/src/operators.rs:177-221 | the number of upstream values that have arrived never exceeds the upstream length |
| Operators.SwitchDropsSuperseded | rs_flow/src/operators.rs:177-221 | once upstream value n has arrived, nothing from an earlier inner flow is emitted any more |
| Operators.AfterAppend | rs_flow/src/operators.rs:177-221 | the state after two stretches of events is the state after the second, resumed from the state after the first |
| Operators.FlatMapLatestKeepsSuperseded | rs_flow/src/operators.rs:177-221 | as written, upstream 1, 2 with inner `[10v, 10v+1]` emits 10, 11, 20, 21 even when 2 arrives at once |
| Operators.SwitchLatestQuickSuccession | rs_flow/src/operators.rs:177-221 | corrected, the same input with 2 arriving before the first inner value emits only 20, 21 |
| Combining.Zip | rs_flow/src/combining.rs:152-202 | the output has the shorter length of the two sources, and output i is the transform of the i-th value of each |
| Combining.Concat | rs_flow/src/combining.rs:255-283 | a panic in the first flow ends the concatenation there; otherwise its values are followed by the second's values, with the second's outcome |
| Combining.ConcatAssociative | rs_flow/src/combining.rs:255-283 | concatenation is associative, panics included |
| Combining.ConcatUnit | rs_flow/src/combining.rs:255-283 | an empty completed flow is a left and right unit of concatenation |
| Combining.StartWith | rs_flow/src/combining.rs:285-311 | the given values come first, then every upstream value, and the outcome is upstream's |
| Combining.StartWithIsConcat | rs_flow/src/combining.rs:285-311 | `start_with(values)` is concatenation after a flow of those values |
| Combining.PickSnoc | rs_flow/src/combining.rs:321-362 | appending one tagged value extends the picked values of its source only |
| Combining.TotalIncrement | rs_flow/src/combining.rs:321-362 | advancing one source's counter by one raises the total count by one |
| Combining.TotalZero | rs_flow/src/combining.rs:321-362 | no value has been forwarded from any source at the start |
| Combining.TotalOfLengths | rs_flow/src/combining.rs:321-362 | counters equal to every source's length total the sum of all lengths |
| Combining.Merge | rs_flow/src/combining.rs:321-362 | whatever the interleaving, the output is as long as all sources together and every output value comes from a source; tagging each output with its source, the values of each source appear exactly once and in their own order |
| Combining.Arrive | rs_flow/src/combining.rs:321-362 | forwarding one value from a source keeps the merge invariant |
| Combining.Drain | rs_flow/src/combining.rs:321-362 | after the schedule, draining the sources one by one completes every source |
| Combining.Combine | rs_flow/src/combining.rs:78-150 | the output equals the specification: after each arrival, once both sides have a value, the transform of the latest left and latest right |
| Combining.CombineSilentUntilBoth | rs_flow/src/combining.rs:78-150 | nothing is emitted until both sources have produced a value |
| Combining.CombineOnePerEvent | rs_flow/src/combining.rs:78-150 | once both sides are known, each arrival emits exactly one value, and the output so far is kept as a prefix |
| Combining.CombineEmitsLatest | rs_flow/src/combining.rs:78-150 | an arrival after both sides are known emits the transform of the latest value of each |
| Combining.Sample | rs_flow/src/combining.rs:204-253 | the output equals the specification: each tick emits the latest upstream value, if there is one |
| Combining.SampleBounds | rs_flow/src/combining.rs:204-253 | at most one value per tick, every value emitted is an upstream value, and nothing is emitted before the first upstream value |
| Combining.SampleTickEmitsLatest | rs_flow/src/combining.rs:204-253 | a tick after some data emits exactly the latest data value |
| Lifecycle.OnStart | rs_flow/src/lifecycle.rs:105-128 | the action's emissions come before upstream's, and a panic in the action stops the flow before upstream starts |
| Lifecycle.OnCompletion | rs_flow/src/lifecycle.rs:130-159 | after a completed upstream, the action runs with `None` and its emissions follow; after a panic the action does not run |
| Lifecycle.OnEmpty | rs_flow/src/lifecycle.rs:161-191 | the action runs only when upstream completes without emitting; a panic or any emission leaves upstream as it was |
| Lifecycle.PanicMessage | rs_flow/src/lifecycle.rs:216-227 | a `&str` or `String` payload gives its text, any other payload gives "Unknown panic" |
| Lifecycle.CatchPanic | rs_flow/src/lifecycle.rs:193-231 | a completed upstream passes unchanged; after a panic the values so far are kept and the handler's emissions for the panic message follow |
| Lifecycle.CatchPanicRecovers | rs_flow/src/lifecycle.rs:193-231 | with a handler that completes, the result always completes and keeps upstream's values as a prefix |
| Lifecycle.CatchPanicIdempotent | rs_flow/src/lifecycle.rs:193-231 | a second `catch_panic` after one whose handler completes changes nothing |
| Lifecycle.Retry | rs_flow/src/lifecycle.rs:233-270 | retries stop at the first attempt that completes or after `max_retries`; every earlier attempt panicked; the output holds all attempts' values and the last attempt's outcome |
| Lifecycle.RetryGivesUp | rs_flow/src/lifecycle.rs:233-270 | a flow that emits 1 and panics, retried twice, emits 1 three times and then fails with the original panic |
| Lifecycle.OnTime | rs_flow/src/lifecycle.rs:272-295 | counts the emissions before the deadline: all of them are on time and the next one, if any, is late |
| Lifecycle.WithTimeout | rs_flow/src/lifecycle.rs:272-295 | a flow that finishes within the deadline is unchanged; otherwise the values emitted before the deadline are kept and the flow completes |
| Lifecycle.WithTimeoutPrefix | rs_flow/src/lifecycle.rs:272-295 | the output values are always a prefix of upstream's |
| Lifecycle.WithTimeoutTest | rs_flow/src/lifecycle.rs:358-370 | emissions at 0, 100 and 300 ms with a 250 ms deadline keep 1 and 2 |
| Builders.IntoFlow | rs_flow/src/builders.rs:24-33 | every collection emits the items in order and completes |
| Builders.EmptyFlow | rs_flow/src/builders.rs:37-39 | every collection completes without emitting |
| Builders.FlowOfOne | rs_flow/src/builders.rs:42-49 | every collection emits the one value and completes |
| Builders.FlowOf | rs_flow/src/builders.rs:52-59 | every collection emits the given values in order and completes |
| Builders.FlowRange | rs_flow/src/builders.rs:62-68 | every collection emits lo, lo+1, …, hi-1 and completes, and emits nothing when hi ≤ lo |
| Builders.FlowRangeInclusive | rs_flow/src/builders.rs:71-77 | every collection emits lo, lo+1, …, hi and completes, and emits nothing when hi < lo |
| Builders.BuildersReplay | rs_flow/src/builders.rs:24-59 | `into_flow`, `empty_flow`, `flow_of_one` and `flow_of` replay their values on every collection |
| Builders.BuildersAgree | rs_flow/src/builders.rs:24-59 | `flow_of`, the `into_flow` of the same sequence, and `flow_of_one` for one value are the same flow |
| Builders.FlowRangeValues | rs_flow/src/builders.rs:62-77 | `flow_range(lo..hi)` completes after emitting lo, lo+1, …, hi-1, and nothing when the range is empty |
| Builders.FlowRangeInclusiveTest | rs_flow/src/builders.rs:218-222 | `(1..=5)` collects to 1, 2, 3, 4, 5 |
| Builders.ChannelFlow | rs_flow/src/builders.rs:89-111 | everything the builder sends is emitted, in order, and the flow completes; a panic in the builder task is swallowed |
| Builders.GenerateFlow | rs_flow/src/builders.rs:123-137 | emits the generator's answers until its first `None`, in order, and the generator's state carries over to the next collection |
| Builders.GenerateFlowPrefix | rs_flow/src/builders.rs:123-137 | for any generator, the first steps of a collection emit its answers in order, stopping at the first `None` or after the given number of values |
| Builders.GenerateFlowCounterPrefix | rs_flow/src/builders.rs:112-121 | the documented counter, which never answers `None`, emits 0, 1, 2 in its first three steps and has not ended |
| Builders.GenerateFlowIsShared | rs_flow/src/builders.rs:123-137 | a counting generator yields 0, 1, 2 on the first collection and nothing on the second |
| Builders.RepeatPrefix | rs_flow/src/builders.rs:146-155 | `repeat_flow` emits only its value: every prefix has the given length and is all that value |
| Builders.RepeatTakeAsWritten | rs_flow/src/builders.rs:258-264 | as written, `take(3)` on `repeat_flow(42)` never stops pulling: after any number of emissions it is still receiving |
| Builders.RepeatTakeFirst | rs_flow/src/builders.rs:258-264 | with the corrected `take`, `repeat_flow(42).take(3)` receives three values and emits 42, 42, 42 |
| Terminal.Message | rs_flow/src/terminal.rs:22-31 | `Empty` displays as "Flow completed without emitting any values" and `MoreThanOneElement` as "Flow emitted more than one value when exactly one was expected" |
| Terminal.FoldLeftAppend | rs_flow/src/terminal.rs:290-317 | folding a concatenation folds the second part starting from the first part's result |
| Terminal.FoldLeftSnoc | rs_flow/src/terminal.rs:290-317 | folding one more value applies the step once more to the previous result |
| Terminal.FirstMatch | rs_flow/src/terminal.rs:365-424 | the index of the first value satisfying the predicate, or the length if none does; every earlier value fails it |
| Terminal.First | rs_flow/src/terminal/implementation.rs:11-30 | `Err(Empty)` for an empty flow, otherwise `Ok` of its first value |
| Terminal.FirstOrNone | rs_flow/src/terminal/implementation.rs:32-34 | `None` for an empty flow, otherwise its first value |
| Terminal.Single | rs_flow/src/terminal/implementation.rs:36-63 | `Err(Empty)` for no value, `Ok(v)` for exactly one, `Err(MoreThanOneElement)` for more |
| Terminal.SingleOrNone | rs_flow/src/terminal/implementation.rs:65-67 | a value exactly when the flow emits exactly one, and then that value |
| Terminal.LastOrNone | rs_flow/src/terminal/implementation.rs:69-83 | `None` for an empty flow, otherwise its last value |
| Terminal.ToVec | rs_flow/src/terminal/implementation.rs:85-101 | all emitted values, in order |
| Terminal.ToSet | rs_flow/src/terminal/implementation.rs:103-122 | a value is in the set exactly when the flow emits it |
| Terminal.Fold | rs_flow/src/terminal/implementation.rs:124-149 | the left fold of the step over the emitted values, from the initial accumulator |
| Terminal.Reduce | rs_flow/src/terminal/implementation.rs:151-176 | `Err(Empty)` for an empty flow, otherwise the left fold of the remaining values starting from the first |
| Terminal.ReduceIsFoldAfterFirst | rs_flow/src/terminal.rs:319-346 | reducing a nonempty sequence is folding its tail from its head |
| Terminal.Count | rs_flow/src/terminal/implementation.rs:178-191 | the number of emitted values |
| Terminal.Any | rs_flow/src/terminal/implementation.rs:193-216 | true exactly when some value satisfies the predicate; the predicate is called up to and including the first match, or on every value |
| Terminal.All | rs_flow/src/terminal/implementation.rs:218-241 | true exactly when every value satisfies the predicate; the predicate is called up to and including the first failure |
| Terminal.NoneMatch | rs_flow/src/terminal/implementation.rs:243-248 | true exactly when no value satisfies the predicate |
| Terminal.AnyAllDual | rs_flow/src/terminal.rs:365-424 | every value satisfies `p` exactly when no value fails it before the end, and some value satisfies `p` exactly when a first match exists |
| Terminal.TerminalUsage | rs_flow/tests/terminal_usage.rs:1-43 | `first` gives 1, `reduce` with `+` gives 6, `count` gives 3, and `single` on two values and on no value gives `MoreThanOneElement` and `Empty` |
| HotFlow.SharedFlow.constructor | rs_flow/src/hot_flow.rs:18-21 | a new shared flow has no subscriber and has buffered nothing |
| HotFlow.SharedFlow.SubscriberCount | rs_flow/src/hot_flow.rs:42-44 | the number of live receivers |
| HotFlow.SharedFlow.Emit | rs_flow/src/hot_flow.rs:24-26 | with no receiver the value is dropped; otherwise every receiver will see it after what it has not yet read |
| HotFlow.SharedFlow.Subscribe | rs_flow/src/hot_flow.rs:29-39 | a new receiver sees only values emitted after it subscribed; existing receivers are unaffected |
| HotFlow.SharedFlowSubscriptionPoint | rs_flow/src/hot_flow.rs:24-39 | a value emitted before any subscriber is lost, and a collection sees only values emitted after it starts |
| HotFlow.StateFlow.constructor | rs_flow/src/hot_flow.rs:61-64 | a new state flow holds the initial value and no receiver |
| HotFlow.StateFlow.Get | rs_flow/src/hot_flow.rs:77-79 | the current stored value |
| HotFlow.StateFlow.Emit | rs_flow/src/hot_flow.rs:67-69 | as written: stores the value only while some receiver is alive, otherwise leaves the state unchanged |
| HotFlow.StateFlow.Set | rs_flow/src/hot_flow.rs:72-74 | the same as `emit` |
| HotFlow.StateFlow.EmitReplace | rs_flow/src/hot_flow.rs:67-69 | corrected: always stores the value |
| HotFlow.StateFlow.AsFlow | rs_flow/src/hot_flow.rs:87-103 | subscribing adds one receiver and leaves the value unchanged |
| HotFlow.StateFlow.Collect | rs_flow/src/hot_flow.rs:87-103 | a collection emits the current value first, then the latest value at each poll that follows a change; the state ends at the last write |
| HotFlow.StateFirstIsCurrent | rs_flow/src/hot_flow.rs:87-103 | the first value a collection emits is the value current when it started |
| HotFlow.StateConflates | rs_flow/src/hot_flow.rs:87-103 | several writes before one poll emit only the last of them |
| HotFlow.StateOnePerPoll | rs_flow/src/hot_flow.rs:87-103 | apart from the first, a collection emits at most one value per poll |
| HotFlow.StateEndsCurrent | rs_flow/src/hot_flow.rs:87-103 | if the last event is a poll, the last emitted value is the final state |
| HotFlow.ObservedEndsCurrent | rs_flow/src/hot_flow.rs:87-103 | the observed emissions after a value end with the final state when the last event is a poll |
| HotFlow.StateFlowGetAsWritten | rs_flow/src/macros.rs:276-286 | as written, `set(1)` and `set(42)` without a receiver leave `get` at 0, against the test's expectation |
| HotFlow.StateFlowGetReplacing | rs_flow/src/macros.rs:276-286 | with the corrected store, `get` answers 0, 1 and 42, as the test expects |
| HotFlow.StateFlowCollectConflates | rs_flow/tests/flow_tests.rs:54-75 | with a receiver alive, writes 1 and 2 before a poll make a collection started at 0 emit 0 and 2 |
| Job.Notify.constructor | rs_coroutine_core/src/job.rs:14-19 | a new notifier has no waiting and no released ticket |
| Job.Notify.Notified | rs_coroutine_core/src/job.rs:33-38 | registers a new waiting ticket that is not yet released |
| Job.Notify.NotifyWaiters | rs_coroutine_core/src/job.rs:22-25 | releases every ticket waiting at that moment, and no later one |
| Job.CancelToken.constructor | rs_coroutine_core/src/job.rs:14-19 | a new token is not cancelled and has no waiters |
| Job.CancelToken.Cancel | rs_coroutine_core/src/job.rs:22-25 | marks the token cancelled and wakes everyone waiting on it |
| Job.CancelToken.IsCancelled | rs_coroutine_core/src/job.rs:28-30 | the token's flag, false on a new token and true after `cancel` (see Job.CancelIsSticky) |
| Job.CancelToken.Cancelled | rs_coroutine_core/src/job.rs:33-38 | returns at once on a cancelled token, otherwise registers a waiter that a later `cancel` releases; the check and the registration are taken as one step here, and the interleaved case is Job.CancelledLostWakeup |
| Job.CancelToken.Child | rs_coroutine_core/src/job.rs:41-43 | a fresh token, not cancelled, not linked to the parent |
| Job.JobHandle.constructor | rs_coroutine_core/src/job.rs:61-66 | a new job is not cancelled and nobody waits on its completion |
| Job.JobHandle.WithToken | rs_coroutine_core/src/job.rs:61-66 | a job around the given token with a fresh completion notifier |
| Job.JobHandle.NewChild | rs_coroutine_core/src/job.rs:69-74 | a fresh job with a fresh token, not cancelled and independent of its parent |
| Job.JobHandle.Cancel | rs_coroutine_core/src/job.rs:77-79 | cancels the job's token |
| Job.JobHandle.IsCancelled | rs_coroutine_core/src/job.rs:82-84 | the flag of the job's own token; a child job is not cancelled by its parent (see Job.ChildJobIsIndependent) |
| Job.JobHandle.Join | rs_coroutine_core/src/job.rs:87-89 | registers a waiter on completion that is not yet released |
| Job.JobHandle.Complete | rs_coroutine_core/src/job.rs:92-94 | releases the joins waiting at that moment and records nothing for later ones |
| Job.CancelIsSticky | rs_coroutine_core/src/job.rs:22-30 | a token starts live, and stays cancelled if cancelled twice |
| Job.CancelledWakesWaiters | rs_coroutine_core/src/job.rs:22-38 | `cancelled()` waits on a live token, is woken by `cancel`, and returns at once afterwards |
| Job.CancelledLostWakeup | rs_coroutine_core/src/job.rs:33-38 | a `cancel` between `cancelled()`'s flag check and its registration leaves that waiter unreleased on a cancelled token |
| Job.ChildTokenIsIndependent | rs_coroutine_core/src/job.rs:41-43 | cancelling a parent token leaves its child live, and cancelling a child leaves the parent live |
| Job.ChildJobIsIndependent | rs_coroutine_core/src/job.rs:69-79 | cancelling a parent job leaves its child live |
| Job.CompleteReleasesOnlyWaitingJoins | rs_coroutine_core/src/job.rs:87-94 | a join that began before `complete` is released, one that began after is not |
| Scope.OneShot.constructor | rs_coroutine_core/src/scope.rs:78-99 | a fresh one-shot channel holds no value |
| Scope.OneShot.Send | rs_coroutine_core/src/scope.rs:78-99 | the channel then holds the sent value |
| Scope.FramesContain | rs_coroutine_core/src/scope.rs:55-75 | the objects a queued task may change are among those of the whole queue |
| Scope.Dispatcher.constructor | rs_coroutine_core/src/dispatcher.rs:12-20 | a new dispatcher has nothing queued and has run nothing |
| Scope.Dispatcher.Spawn | rs_coroutine_core/src/dispatcher.rs:22-24 | appends the task to the queue and runs nothing |
| Scope.Dispatcher.RunNext | rs_coroutine_core/src/scope.rs:30-99 | runs the oldest task: a launched body runs only if its token is not cancelled, and its job's joins are then released; a forked body runs and sends its output |
| Scope.Deferred.AwaitResult | rs_coroutine_core/src/scope.rs:121-123 | the value the task sent |
| Scope.CoroutineScope.constructor | rs_coroutine_core/src/scope.rs:21-27 | a new scope has a fresh, live job and token on the given dispatcher |
| Scope.CoroutineScope.FromParts | rs_coroutine_core/src/scope.rs:21-27 | a well-formed scope made of the given dispatcher, job and a distinct token |
| Scope.CoroutineScope.IsCancelled | rs_coroutine_core/src/scope.rs:108-110 | whether the scope's token is cancelled |
| Scope.CoroutineScope.Cancel | rs_coroutine_core/src/scope.rs:102-105 | cancels both the scope's token and its job, and releases every waiter registered on either token |
| Scope.CoroutineScope.Launch | rs_coroutine_core/src/scope.rs:30-52 | queues the body with the scope's own token and a fresh child job, which it returns |
| Scope.CoroutineScope.ChildScope | rs_coroutine_core/src/scope.rs:55-99 | a well-formed scope on the given dispatcher with a fresh child job and a fresh token, both live, so it can itself launch and cancel |
| Scope.CoroutineScope.AsyncTask | rs_coroutine_core/src/scope.rs:78-99 | queues the body in a child scope and returns an empty receiver with the child's job |
| Scope.CoroutineScope.WithDispatcher | rs_coroutine_core/src/scope.rs:55-75 | runs every task queued before it and then the body, and returns the body's output |
| Scope.ScopeCancel | rs_coroutine_core/src/scope.rs:102-110 | a new scope is live, and after `cancel` both its token and its job are cancelled |
| Scope.LaunchedCoroutineCompletes | rs_coroutine_core/tests/scope_behaviour.rs:9-20 | a launched body runs and its join is released |
| Scope.CancelBeforeStartSkipsBody | rs_coroutine_core/tests/scope_behaviour.rs:23-37 | cancelling the scope before the task starts skips the body, and the join is still released |
| Scope.CancelAfterStartAndLateJoin | rs_coroutine_core/src/job.rs:87-94 | a body that already ran is not undone by `cancel`, and a join started after completion is not released |
| Scope.ChildScopesOutliveParentCancel | rs_coroutine_core/tests/scope_tests.rs:22-31 | an async task's result is absent before it runs and present after, its child scope is unaffected by the parent's cancel, and `with_dispatcher` returns its body's output |

## Left out

- Real concurrency is not modelled. tokio's scheduler, wakers, `Mutex`
  locking and task cancellation become explicit schedules or sequential
  steps. Each contract holds for every schedule, but properties about wall
  time or fairness are not stated.
- Combining.Combine: the state lock is released between storing a value
  and reading the other side's latest value. Each arrival is modelled as
  one atomic step, so an interleaving inside that window is not modelled.
- Job.CancelToken.Cancelled: the source checks the flag and then
  registers its waiter in two steps, and the method does both in one step.
  A `cancel` on another thread between the two steps releases the
  waiters before this waiter exists, and no permit is stored. The wait
  then never ends although the token is cancelled. The method's contract
  does not capture that lost wake-up; the client method
  Job.CancelledLostWakeup runs the interleaving and proves that the
  ticket stays unreleased.
- Combining.Zip: the two sources fill 16-slot channels. A source that runs
  more than 16 values ahead of the other blocks, and the zip then hangs.
  That hang is not modelled.
- Operators.Buffer, Operators.FlowOn, Builders.ChannelFlow: the combinator
  awaits its spawned producer task, and that wait is not modelled. A panic
  in the producer is swallowed because the join result is discarded; the
  model states only that the flow completes with the values sent.
- HotFlow.SharedFlow: the broadcast capacity is stored but receivers never
  lag in the model. Overflow, where a receiver drops the oldest values and
  the collection ends on a lag error, is not modelled.
- Receivers made by `as_flow` and then dropped are not modelled:
  subscriber counts only grow.
- HotFlow.StateFlow.Collect: the collection is modelled over a given
  sequence of writes and polls, with at least one receiver alive.
- Operators.Buffer and HotFlow.SharedFlow.constructor require a positive
  capacity, because tokio panics on a zero capacity.
- `interval_flow` is left out: it depends on the wall clock and never
  ends.
- Infinite flows (`repeat_flow`, `interval_flow`, and `generate_flow`
  over a generator that never answers `None`) are only described through
  their finite prefixes.
- Builders.GenerateFlow: requires a generator that eventually answers
  `None`, since otherwise the collection never ends. The documented
  counter example never answers `None`. Such generators are covered only
  by Builders.GenerateFlowPrefix, which runs at most a given number of
  steps.
- Terminal.ToVec, Terminal.ToSet: an empty collection is returned when a
  collector clone outlives the collection, for example one moved into a
  detached `tokio::spawn`. `Arc::try_unwrap` then fails and
  `unwrap_or_default` gives an empty `Vec` or `HashSet`. This is not
  modelled.
- Terminal.Fold: the `expect` on a missing accumulator cannot fire after
  a completed collection, so it is not modelled.
- Predicates and transforms are pure functions. State inside an `FnMut`
  closure is not modelled.
- Terminal operators consume only the emitted values. A panic inside the
  upstream of a terminal, or inside any operator other than the lifecycle
  operators and `concat`, is not modelled.
- Lifecycle.WithTimeout: time is a sequence of emission times plus an end
  time, and the timer's resolution is not modelled.
- Lifecycle.WithTimeout requires one time per emitted value.
- Counts and indices are unbounded naturals. `usize` overflow is not
  modelled.
- Terminal.Any, Terminal.All: the predicate stops being called at the
  first decisive value, and every value is still received. The model
  counts predicate calls only.
- The task-local `CURRENT_SCOPE`, `with_current_scope` and
  `get_current_scope` are left out: they are ambient thread state.
- The executor behind a `Dispatcher` (`rs_coroutine_core/src/dispatcher.rs`
  and `executor.rs`) is not part of this model. A dispatcher is modelled as
  a FIFO queue that runs one task per step.
- Scope.Dispatcher.RunNext, Scope.CoroutineScope.WithDispatcher,
  Scope.Deferred.AwaitResult: a task body in the model always finishes,
  so its job is always completed and the one-shot is always filled. Panics
  in a body are not modelled. In the source, they have three effects:
  - A launched body that panics unwinds past `job_clone.complete()`
    (scope.rs:43-46), so every `join` on that job waits forever.
  - A forked body that panics drops the sender, so `with_dispatcher`
    panics with "dispatcher dropped future" (scope.rs:74).
  - In the same case, `await_result` panics with "task dropped"
    (scope.rs:122).
- Task bodies are identified by a number. Their effect is recorded in the
  dispatcher's log, and a forked body's effect is its output.
- The `operators/mod.rs` sync variants, `collector.rs`, `suspending.rs`
  and the macros crate are not part of this model.

## Findings

| source | as written | input that shows it | evidently intended | confidence | as-written member | corrected member |
|---|---|---|---|---|---|---|
| rs_flow/src/operators.rs:99-123 | each value's future clones `remaining` before decrementing it, so the count never goes down and the upstream is never stopped: `take(0)` emits nothing, `take(1)` the first value, `take(n)` for n ≥ 2 everything | 0..9 doubled and filtered to multiples of four, then `take(3)`, collects 0, 4, 8, 12, 16; `repeat_flow(42).take(3)` never ends | emit the first `count` values, then stop pulling the upstream | not executed | Operators.Take, Operators.TakeThreeAsWritten, Builders.RepeatTakeAsWritten | Operators.TakeFirst, Operators.TakeThreeFirst, Builders.RepeatTakeFirst |
| rs_flow/src/operators.rs:177-221 | the channel consumer collects each inner flow to its end before reading the next upstream value, so nothing is ever cancelled: the output is the concatenation of all inner flows | upstream 1, 2 with inner flow `[10v, 10v+1]`, where 2 arrives before any inner value, emits 10, 11, 20, 21 | a new upstream value cancels the inner flow still running, so only 20, 21 are emitted | not executed | Operators.FlatMapLatest, Operators.FlatMapLatestKeepsSuperseded | Operators.SwitchLatest, Operators.SwitchDropsSuperseded, Operators.SwitchLatestQuickSuccession |
| rs_flow/src/hot_flow.rs:67-69 | `emit` uses the watch channel's `send`, which does not store a value while no receiver exists, and `new` drops its only receiver | `StateFlow::new(0)`, `set(1)`, `get()` answers 0 | store the value whether or not anyone is subscribed (`send_replace`), so `get` answers 1 and then 42 | not executed | HotFlow.StateFlow.Emit, HotFlow.StateFlowGetAsWritten | HotFlow.StateFlow.EmitReplace, HotFlow.StateFlowGetReplacing |
