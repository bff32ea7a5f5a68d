# kik_sync_service in Dafny

A model of the bookkeeping core of `kik_sync_service`, a Rust worker pool
that turns small inputs into large results on a fixed set of worker
threads. It allocates little because it recycles the message envelopes it
passes around. The threads and channels are replaced by abstract queues,
and the model keeps everything the coordinator counts and decides.

- `Message` (`message.dfy`) is the capability contract: the `MessageData`,
  `MessageInput` and `Message` traits. It is a record of operations,
  `MessageOps<T, R, S>`. The trait's doc comments become the `Lawful`
  predicate:
  - `set_input` stores its input;
  - `work` computes the new data from the stored input and the old data;
    what it leaves as the input is not constrained;
  - `Message::new` holds the defaults.

  Two observations name what the doc comments talk about: `storedInput`
  and `produce`. The input accounting in `FeederDrain` names each result's
  input as the one its envelope held when it was collected, before the
  pass.
- `Feeder` (`feeder.dfy`) is `FeederRecycler`. Its state is:
  - the in-flight counter `messages`;
  - the backlog `inputVec`, popped from its end;
  - the budget `packageNumber`;
  - `inFlight`, the envelopes sitting in the dispatch channel, in a
    worker, or in the collection channel.

  `get_message` is one atomic step. A scheduler `choice` picks any
  in-flight envelope, a worker applies `work` to it, and the feeder
  receives it. The model allows any choice. The program realises only
  some of them: both channels are FIFO and a worker holds one envelope
  at a time, so with one worker the results come back in send order.
  What is proved for every choice therefore covers the program. `retrieve_data` is modelled as its four cases: end, drain,
  bootstrap and steady-state recycle.
- `FeederDrain` (`feeder_drain.dfy`) covers whole iterations:
  - conservation of inputs and results;
  - the state left after `next` returns None;
  - how many envelopes a drain builds with `S::new()`.
- `Channel` (`channel.dfy`) holds `ChannelConfig` and `DeliveryService`.
  Setters that panic return a `Result`. Spawning a thread is recorded as
  appending the worker's id.
- `MessageExample` (`message_example.dfy`) is the test instance:
  `MessageArray`, `Coordinates` and `ThreadMessage`, with `work` as the
  source's nested loops.
- `ExampleScenario` (`example_scenario.dfy`) is the test's two rounds, stated
  over the model.

`ThreadMessage::work` restarts its counter at 0 on every call. So a 32 by
32 tile numbers the cells 0 to 1023, and every result's highest entry is
1023. The source comments say the entries continue "32 33 34 ..." and
that the highest values are "31, 63, n * 32 - 1". The code does not do
that. The test's `highest % 32 == 31` still holds, because
1023 % 32 == 31. The model follows the code.

## Model

| member | source | states |
|---|---|---|
| Message.CollectedData | src/kik_message.rs:38-42 | under the trait's contract, the data of an envelope given an input and then worked is what the pass produces from that input and the data held before |
| Message.NewMessageInput | src/kik_message.rs:44-47 | the provided method returns `R::new()`, which under the contract is the input a new envelope holds |
| Message.NewMessageData | src/kik_message.rs:49-52 | the provided method returns `T::new()`, which under the contract is the data a new envelope holds |
| Message.FreshEnvelope | src/kik_message.rs:44-58 | `new_message_input`/`new_message_data` return the defaults a new envelope holds, and `set_input` on a new envelope stores exactly the given input |
| Feeder.NewFeeder | src/kik_feeder.rs:67-81 | a new feeder has nothing in flight, an empty backlog and nothing remaining, and keeps the given id and budget |
| Feeder.AppendInput | src/kik_feeder.rs:83-85 | the backlog becomes old backlog ++ the caller's vector, the caller gets back an empty vector, and the remaining count grows by its length |
| Feeder.GetRemainingMessages | src/kik_feeder.rs:144-147 | the remaining count is the envelopes in flight plus the backlog, and it is 0 exactly when nothing is in flight and the backlog is empty |
| Feeder.SendMessage | src/kik_feeder.rs:88-112 | the envelope joins the in-flight envelopes, and the counter and the remaining count go up by exactly one |
| Feeder.GetMessage | src/kik_feeder.rs:116-142 | callable only when the counter is positive (no usize underflow); one worked in-flight envelope comes back, the counter and remaining go down by exactly one, the backlog is untouched |
| Feeder.FeedLoop | src/kik_feeder.rs:151-162 | the loop sends min(steps, backlog length) fresh envelopes holding the popped inputs, last input first, and the remaining count does not change |
| Feeder.FeedInitialMessages | src/kik_feeder.rs:150-163 | topping up leaves the remaining count unchanged; from counter <= budget it ends with counter == min(budget, counter + backlog length); at or over budget it does nothing |
| Feeder.RetrieveStep | src/kik_feeder.rs:166-219 | ends exactly when nothing remains; otherwise one envelope is delivered, the remaining count drops by one, and the budget bound is kept when the budget is at least one |
| Feeder.RetrieveData | src/kik_feeder.rs:166-219 | returns None iff remaining is 0 and then changes nothing; every Some lowers remaining by exactly one; the counter stays equal to the in-flight envelopes and within a budget >= 1 |
| Feeder.Next | src/kik_feeder.rs:228-235 | the feeder's `next` is `retrieve_data`: None exactly when nothing remains, and each Some lowers the remaining count by one |
| FeederDrain.StepAccounts | src/kik_feeder.rs:166-219 | each delivered result is for exactly one of the owed inputs, the one its envelope held when collected: that input leaves the multiset of owed inputs, and the result is the data the pass produced from it |
| FeederDrain.RecycleStep | src/kik_feeder.rs:203-216 | steady state: the collected envelope is re-sent with the popped input through `set_input`; only the top-up below the budget builds envelopes |
| FeederDrain.DrainStep | src/kik_feeder.rs:170-183 | drain case: the worked envelope's data is returned, the envelope is dropped, and nothing is built or sent |
| FeederDrain.BootstrapDrops | src/kik_feeder.rs:189-201 | bootstrap case: the collected envelope is dropped, so every envelope left in flight was built in this call |
| FeederDrain.BootstrapStep | src/kik_feeder.rs:189-201 | bootstrap case builds min(n, budget + 1) envelopes and leaves the system full whenever inputs remain |
| FeederDrain.Drain | src/kik_feeder.rs:231-235 | calling `next` until None yields exactly as many results as remained, and leaves the feeder equal to a newly built one |
| FeederDrain.DrainAccounts | src/kik_feeder.rs:166-235 | the results of a drain match the owed inputs one for one (as a multiset), each result being the data produced from its input |
| FeederDrain.FeedAndDrain | src/kik_feeder.rs:231-235 | feeding N inputs to an idle feeder and draining returns N results, one per input, and returns the feeder to its initial state, ready for the next batch |
| FeederDrain.SteadyDrainBuildsNothing | src/kik_feeder.rs:203-216 | once the system is full whenever inputs remain, the rest of the drain builds no envelope |
| FeederDrain.DrainBuildCount | src/kik_feeder.rs:150-219 | draining N inputs from an empty system builds exactly min(N, budget + 1) envelopes, whatever N is |
| Channel.DefaultConfig | src/kik_channel.rs:43-58 | the default configuration is valid, and its channel size equals its worker number and its package number is twice that |
| Channel.DefaultValues | src/kik_channel.rs:43-58 | defaults: 8 workers, channel size 8, package number 16, stack size 2 * 1024 * 1024 |
| Channel.SetWorkerNumber | src/kik_channel.rs:68-77 | fails for 0, and for a w whose double overflows a 64-bit usize (a debug build panics in `worker_number * 2`); otherwise sets worker number and channel size to w and package number to 2w, keeps the stack size, and the result is valid |
| Channel.SetPackageNumber | src/kik_channel.rs:79-85 | fails exactly when the value is not above the worker number; otherwise changes only the package number and keeps the config valid |
| Channel.SetPackageNumberBounded | src/kik_channel.rs:79-85 | the corrected setter (see Findings): fails exactly when the value is not above the worker number or exceeds 2 * channel_size + worker_number; otherwise changes only the package number, and the result fits its channels |
| Channel.BoundedAgreesBelowCapacity | src/kik_channel.rs:79-85 | the corrected setter gives the same result as the source's for a value exactly when the value fits the channels and the workers |
| Channel.SetStackSize | src/kik_channel.rs:87-90 | stores any value unchecked, changes nothing else, and keeps the config valid |
| Channel.GetStackSize | src/kik_channel.rs:93-96 | reports the stored stack size |
| Channel.GetWorkerNumber | src/kik_channel.rs:98-101 | reports the stored worker number, which in a valid config is at least 1 and below the package number |
| Channel.GetPackageNumber | src/kik_channel.rs:103-106 | reports the stored package number, at least 2 in a valid config |
| Channel.GetChannelSize | src/kik_channel.rs:108-111 | reports the stored channel size |
| Channel.SettersThroughGetters | src/kik_channel.rs:68-111 | as the getters report: set_worker_number sets worker number and channel size to w and package number to 2w and keeps the stack size; the other two setters change only their own value |
| Channel.SettingsKeepValid | src/kik_channel.rs:68-90 | any sequence of successful setter calls, with the package number set through the bounded setter, keeps 1 <= worker_number < package_number and keeps the package number within what the channels and workers hold |
| Channel.NewService | src/kik_channel.rs:161-197 | a new service has no thread, last id 0, channels of the configured size, and an idle feeder with the configured package number; its budget fits its channels exactly when the config's does |
| Channel.DefaultService | src/kik_channel.rs:242-245 | the default service is valid with 8 workers and a budget of 16 |
| Channel.FeedFeeder | src/kik_channel.rs:199-207 | feeding appends to the feeder's backlog, empties the caller's vector, and `len` grows by its length |
| Channel.Len | src/kik_channel.rs:204-207 | `len` is the feeder's remaining count: in a valid service, the envelopes in flight plus the backlog |
| Channel.Spawn | src/kik_channel.rs:211-231 | n iterations of the spawn loop raise the last id by n and append the consecutive ids after it |
| Channel.BuildWorkers | src/kik_channel.rs:210-232 | raises the thread count to exactly worker_number with consecutive new ids after the last one, so no id is reused |
| Channel.IdsDistinct | src/kik_channel.rs:210-232 | in every valid service the recorded worker ids are pairwise distinct |
| Channel.Next | src/kik_channel.rs:255-260 | after `next` all workers exist; the result is the feeder's `next` on the same feeder; None iff `len` was 0; when the budget fits the channels, so does everything in flight afterwards |
| Channel.DrainService | src/kik_channel.rs:255-260 | iterating the service to None yields `len` results, leaves `len` at 0, and reuses the same workers once all are spawned |
| Channel.DrainServiceIsFeederDrain | src/kik_channel.rs:255-260 | draining the service yields exactly the results and final feeder of draining its feeder |
| MessageExample.NewMessageArray | src/kik_message_example.rs:36-42 | a new array is all zeros |
| MessageExample.NewThreadMessage | src/kik_message_example.rs:140-148 | a new message has an all-zero array and zero coordinates |
| MessageExample.CloneArray | src/kik_message_example.rs:23-33 | the loop copies all 1024 cells into the zeroed array, giving an equal array |
| MessageExample.CloneThreadMessage | src/kik_message_example.rs:92-99 | cloning the message gives an equal message |
| MessageExample.CloneMessageData | src/kik_message_example.rs:136-138 | the returned array equals the stored one |
| MessageExample.SetInput | src/kik_message_example.rs:105-107 | the message holds the given coordinates and keeps its array |
| MessageExample.NewCoordinates | src/kik_message_example.rs:73-82 | the default input is the empty rectangle at the origin, over which a pass numbers no cell |
| MessageExample.Work | src/kik_message_example.rs:109-134 | defined (no panic) exactly when the rectangle has at most 1024 points; then cells below (y1-y0)(x1-x0) hold their index, the rest and the input are kept |
| MessageExample.WorkPass | src/kik_message_example.rs:109-134 | succeeds iff the rectangle has at most 1024 points (otherwise the index panics); cells below (y1-y0)(x1-x0) get their index, the rest and the input are unchanged |
| MessageExample.ThreadOps | src/kik_message_example.rs:103-150 | the test instance's pass agrees with `work` wherever `work` does not panic, and a new message holds the default input |
| MessageExample.ThreadOpsLawful | src/kik_message_example.rs:103-150 | the test instance meets the message contract |
| MessageExample.TileNumbersEveryCell | src/kik_message_example.rs:109-134 | a 32 by 32 tile numbers every cell 0..1023, so the highest entry is 1023 and 1023 % 32 == 31 |
| MessageExample.TestCoordinates | src/kik_message_example.rs:155-169 | the test's input is 768 tiles of 32 by 32 within the 1024 by 768 image |
| MessageExample.Highest | src/kik_message_example.rs:186-194 | the test's scan returns an entry at least as large as every cell, and it is 0 or one of the cells |
| ExampleScenario.ExampleTest | src/kik_message_example.rs:154-235 | both rounds of the test return 768 results with highest % 32 == 31 in any return order, leave nothing remaining, and the second round runs on the same 8 workers |
| ExampleScenario.FirstNextFillsBudget | src/kik_feeder.rs:189-201 | the first `next` on an empty service fed more inputs than its budget leaves exactly the budget in flight |
| ExampleScenario.OversizedBudgetOverfills | src/kik_channel.rs:79-85 | with the default workers, a package number of 25 is accepted and the first `next` on the test's tiles puts 25 envelopes in flight where 24 fit; the bounded setter rejects 25 |

## Left out

- The worker loop (src/kik_worker.rs) is not modelled as a thread. Its
  polling of a `Weak<Mutex<Receiver>>` is replaced by the atomic worker
  pass inside `GetMessage`. Its exits are not modelled either. Calling
  `std::mem::drop(self)` on a `&Self` does nothing, so on a closed channel
  the loop keeps polling instead of ending.
- The channels are unbounded queues in this model. Their capacity appears
  only as `ChannelCapacity`: a full dispatch channel, one envelope per
  worker and a full collection channel. The busy-wait retries on
  `Full`/`Empty` and the `Disconnected` panics in `send_message`,
  `get_message` and the worker are not modelled.
- FeederDrain.FeedAndDrain: the source hangs when a top-up must put more
  than 2 * channel_size + worker_number envelopes in flight before it
  collects one. `send_message` then spins forever on `Full` inside
  `feed_initial_messages`. From an idle feeder fed N inputs, that happens
  exactly when min(package_number, N) exceeds the capacity, and the model
  returns N results there. `FitsChannels` is sufficient to rule the hang
  out, not necessary. The default config and every `set_worker_number`
  result fit. Only `set_package_number` can exceed the capacity, and a
  changed config reaches a service only through `DeliveryService::new`,
  which is not `pub`; its one caller, `default()`, uses the default config
  (see Findings).
- Channel.DrainService: the same condition applies. `ServiceFits` is
  sufficient for its results to be the program's, not necessary.
- Thread spawning details (`Builder`, stack size, thread name,
  `JoinHandle`) are not modelled. A spawned thread is its id. The stack
  size is only stored.
- Both `Drop` implementations are not modelled. They are a lock-acquire
  spin plus drops of references, which do nothing.
- `println!` logging and the test's printing are not modelled.
- `Message` clones an envelope before each channel send. In this model
  values are immutable, so a clone is the value itself, except for the
  example's explicit `clone` methods.
- Integers are unbounded `nat`s. usize overflow of `messages + 1` and
  `last_id + 1` is not modelled, because it needs more than 2^64 sends or
  spawned workers.
- Channel.SetWorkerNumber: models a debug build on a 64-bit target, where
  `worker_number * 2` panics for w > usize::MAX / 2. A release build wraps
  instead (w = 2^63 gives package number 0, breaking 1 <= w < package
  number), and that is not modelled.
- The test computes its loop bounds through `f32` division (768 / 32.0
  and 1024 / 32.0). Those are exact, so the model uses 24 and 32 directly.
- MessageExample.ThreadOps: when a rectangle has more than 1024 points,
  its `work` is the array as the pass leaves it when it panics. The panic
  itself is only in `Work`/`WorkPass`, and the pool model does not carry
  a worker's death.
- FeederDrain.StepAccounts: with a general envelope type, a result can
  depend on the data the envelope held before (the example's `work` keeps
  cells it does not reach). So the result is stated as produced from its
  input and some prior data, not from the input alone.
- The budget bound is proved at the boundaries of each `retrieve_data`
  call, not at every instant inside one.

## Findings

| source | as written | input that shows it | evidently intended | confidence | as-written member | corrected member |
|---|---|---|---|---|---|---|
| src/kik_channel.rs:79-85 | `set_package_number` accepts any value above the worker number, while both channels hold only `channel_size` (= worker number) each | the default config with `set_package_number(25)`, fed the test's 768 tiles through `DeliveryService::new`: the first `next` must send 25 envelopes before collecting, and 8 + 8 + 8 = 24 fit, so `send_message` spins forever | reject a package number above 2 * channel_size + worker_number (or size the channels from it) | medium; not executed; reachable only once `DeliveryService::new` (src/kik_channel.rs:161, not `pub`) is made public as src/kik_channel.rs:27 and src/lib.rs:279 describe, since `default()` uses the default config; needs min(budget, inputs) above the capacity | ExampleScenario.OversizedBudgetOverfills | Channel.SetPackageNumberBounded |
