# Saga coordinator (vkaushik/saga) in Dafny

This project models the Saga transaction coordinator of the Go library
vkaushik/saga, and the small stateful parts it relies on.

The coordinator (`Tx`) drives one transaction's append-only log:
- `Start` may first run one residual rollback pass, then appends `StartTx`.
- `ExecSubTxAndGetResult` appends `StartSubTx` with the marshalled arguments
  before calling the step's action, and appends `EndSubTx` only after the
  action returned nil.
- `End` appends `EndTx`.
- `Rollback(n)` makes up to `n` passes. A pass reads the log, appends
  `AbortTx`, then compensates every `StartSubTx` entry of what it read, in
  log order. It stops at the first compensation that fails.

Modules, one per source file:
- `Log` (log.dfy): the entry kinds and the entry record.
- `Memory` (memory.dfy): the in-memory store with its append semantics.
- `SubTxDefinitions` (subtx_definitions.dfy): the step-definition registry.
- `ParamRegister` (param_register.dfy): the parameter-type register.
- `Kafka` (kafka.dfy): the configuration options of the Kafka store.
- `Tx` (transaction.dfy): the coordinator.
- Two helper modules: `Reflect` for the reflective type data the registries
  inspect, and `Wrappers` for `Option` and `Result`.

How the outside world is modelled:
- The coordinator's collaborators are the storage, the `Saga` dependency
  (step definitions and the argument codecs) and the registered callables.
  Each is modelled by its effect only.
- A storage call may fail. A callable may return nil or an error, followed
  by arbitrary results.
- Inside the methods these are arbitrary choices. Each method reports the
  choices it met as ghost "answers".
- Each method's contract equates its outcome with an outcome function of
  those answers. The functions are `Execution`, `Compensation`,
  `CompensateAll` and `PassOutcome`. An outcome is the entries appended, the
  callables invoked and the error returned.
- The lemmas beside each outcome function state what the source promises
  for every possible answer.
- A multi-pass rollback is recorded as a sequence of `Pass` records. Each
  pass read exactly what the earlier ones left in the log.

Where the code disagrees with its own names, comments and messages, the
model follows the code:
- log/log.go:26-27 declares the kind `EndCompensateSubTx` for the end of a
  compensation, but nothing appends it. After a successful compensation,
  `CompensateSubTx` appends an entry of kind `EndSubTx` (code 3)
  (tx/transaction.go:308-310). So a successful rollback of the
  credit-failure log of example_test.go:84-124 closes each compensation with
  `EndSubTx` (`Tx.CreditFailureScenario`).
- saga.go:36-37 says the first argument of an action and of a compensate
  must be the context. But the check compares the first parameter type with
  `reflect.TypeOf((context.Context)(nil))`, which is nil
  (subtx/subTxDefinitions.go:56). So every callable is rejected at
  registration: `SubTxDefinitions.EveryCallableRejected`. The two registries
  keep that reference as a field, so the code after the check is still
  stated and verified.
- The register declares a name-to-type and a type-to-name map
  (subtx/paramRegister.go:16-19), but nothing writes `typeToName`. So
  `GetRegisteredType` fails for every type (subtx/paramRegister.go:21-29).
- `addOutputParams` is named for the outputs, but its loop runs over the
  number of inputs while indexing the outputs (subtx/paramRegister.go:50-54).
- The Kafka messages say "greater than 0"
  (storage/kafka/kafka.go:100, 111, 130), but the options reject every value
  `<= 1`, so the default count 1 is rejected too. The maximum-messages
  option returns the replicas message (storage/kafka/kafka.go:127-135).
- The comment at tx/transaction.go:203 says a failing rollback is retried.
  A failed compensation ends the whole pass with the step's error wrapped,
  and the retry re-reads the log, which still holds the same `StartSubTx`
  entries. So every pass compensates the same steps again, as saga.go:32
  demands of a compensate: `Tx.PassesKeepStarts`.

## Model

| member | source | states |
|---|---|---|
| Log.KindCodes | log/log.go:13-34 | the seven kinds, in declaration order, have the codes 1 to 7 (`iota + 1`) |
| Log.KindsIncrease | log/log.go:13-34 | kind codes strictly increase in declaration order, so they are pairwise distinct |
| Log.ZeroIsNoKind | log/log.go:15 | the zero value of `Type` is not a named kind |
| Memory.Appended | storage/memory/cache.go:16-21 | one append adds `id` as a key, extends its list by the entry (an absent list counts as empty) and leaves every other list unchanged |
| Memory.AppendedAll | storage/memory/cache.go:16-21 | a batch of appends extends the list of `id` by exactly the batch, in order |
| Memory.AppendedAllFrame | storage/memory/cache.go:16-21 | a batch of appends adds only the key `id` (none for an empty batch), leaves the other lists unchanged and creates no empty list |
| Memory.AppendAllIsAppendedAll | storage/memory/cache.go:16-21 | appending entries one by one gives the closed form: insertion order is read order |
| Memory.AppendedAllConcat | storage/memory/cache.go:16-21 | two consecutive batches are one batch of their concatenation |
| Memory.ExistsIffNonEmpty | storage/memory/cache.go:11-21 | when no list is empty, an id exists exactly when something was appended under it |
| Memory.LogCache.constructor | storage/memory/cache.go:3-5 | a new store is empty: every id has no entries |
| Memory.LogCache.TxIDAlreadyExists | storage/memory/cache.go:11-14 | reports whether `id` is a key, which under the invariant means a non-empty list; never fails and changes nothing |
| Memory.LogCache.AppendLog | storage/memory/cache.go:16-24 | appends to the list of `id` or creates `[logData]`; never fails; keeps every list non-empty |
| Memory.LogCache.GetTxLogs | tx/transaction.go:36 | the read the coordinator's Storage needs: the stored non-empty list, or the empty list for an unknown id |
| SubTxDefinitions.IsNotAFunction | subtx/subTxDefinitions.go:51-53 | a value fails the function check exactly when it is not a function (no ensures of its own; its meaning is stated by `ValidateAndGetFuncValue`) |
| SubTxDefinitions.IsFirstArgumentNotAContext | subtx/subTxDefinitions.go:55-57 | a function fails the context check when it has no parameter or its first parameter differs from the reference (stated by `ValidateAndGetFuncValue`, `NoParametersRejected` and `EveryCallableRejected`) |
| SubTxDefinitions.ValidateAndGetFuncValue | subtx/subTxDefinitions.go:39-57 | succeeds exactly for a function whose first parameter equals the reference, and then returns the value itself; a non-function fails the function check first, and any other failure comes from the context check |
| SubTxDefinitions.EveryCallableRejected | subtx/subTxDefinitions.go:55-57 | with the nil reference the source compares against, every callable is rejected, and every function by the context check |
| SubTxDefinitions.NoParametersRejected | subtx/subTxDefinitions.go:55-57 | a function with no parameters fails the context check, whatever the reference |
| SubTxDefinitions.ValidationIgnoresRest | subtx/subTxDefinitions.go:39-49 | validation looks only at the first parameter: result types and the other parameters never matter |
| SubTxDefinitions.Definitions.constructor | subtx/subTxDefinitions.go:11 | a new registry is empty and holds the nil context reference |
| SubTxDefinitions.Definitions.Add | subtx/subTxDefinitions.go:19-37 | the action is validated before the compensate; either failure returns an error naming it and leaves the map unchanged; on success exactly the key `subTxID` is (over)written; with the nil reference every call fails |
| ParamRegister.Registered | subtx/paramRegister.go:56-63 | `nameToType` after one `addParam`: the pointee stored under its name (stated by `PointerSharesEntry`, `LaterWins` and `AddParam`) |
| ParamRegister.RegisteredAll | subtx/paramRegister.go:44-54 | `nameToType` after `addParam` of each listed type, in order (stated by `RegisteredAllKeys` and `RegisteredAllAt`) |
| ParamRegister.RegisteredAllKeys | subtx/paramRegister.go:44-48 | registering a list adds exactly the names of its types as keys and keeps every other name's value |
| ParamRegister.RegisteredAllAt | subtx/paramRegister.go:44-48 | each listed type is found under its name as its pointee, unless a later type has the same name |
| ParamRegister.PointerSharesEntry | subtx/paramRegister.go:56-63 | `T` and `*T` land on the same key with the same value; only one pointer level is stripped |
| ParamRegister.LaterWins | subtx/paramRegister.go:56-63 | a later registration under the same name overwrites the earlier one |
| ParamRegister.ParamTypeRegister.constructor | subtx/paramRegister.go:9-14 | both maps start empty, and so the register can never resolve a type |
| ParamRegister.ParamTypeRegister.GetRegisteredType | subtx/paramRegister.go:21-29 | strips one pointer level and succeeds exactly when the pointee is a key of `typeToName`; in a register that never resolves it fails for every type |
| ParamRegister.ParamTypeRegister.Add | subtx/paramRegister.go:31-42 | an invalid callable leaves both maps unchanged and returns an error; a valid one registers every input, then the first min(inputs, outputs) outputs, and fails exactly when there are more inputs than outputs; `typeToName` never changes; with the nil reference every call fails |
| ParamRegister.ParamTypeRegister.AddInputParams | subtx/paramRegister.go:44-48 | every input type, the leading context included, is registered under its name, in order |
| ParamRegister.ParamTypeRegister.AddOutputParams | subtx/paramRegister.go:50-54 | the loop runs over the input count: it registers the first min(inputs, outputs) outputs and panics exactly when there are more inputs than outputs |
| ParamRegister.ParamTypeRegister.AddParam | subtx/paramRegister.go:56-63 | stores the pointee under `PkgPath + "/" + Name`, overwriting any entry, and writes nothing else |
| Kafka.Apply | storage/kafka/kafka.go:97-135 | what one of the four option closures does to a configuration (stated by `ApplyChangesOneField`) |
| Kafka.Configure | storage/kafka/kafka.go:79-84 | the option loop: the options applied in order, stopping at the first failure (stated by `ConfigureKeepsBrokers`, `ConfigureStopsAtFirstFailure` and `ConfigureFailureHasCause`) |
| Kafka.ApplyChangesOneField | storage/kafka/kafka.go:97-135 | each option either rejects its argument (exactly the counts `<= 1`, the default 1 included) or changes only its own field; the duration option always succeeds |
| Kafka.ConfigureKeepsBrokers | storage/kafka/kafka.go:79-84 | no sequence of options changes the broker list |
| Kafka.ConfigureStopsAtFirstFailure | storage/kafka/kafka.go:79-84 | an option that fails on the configuration built before it ends the loop with its error; later options are never applied |
| Kafka.ConfigureFailureHasCause | storage/kafka/kafka.go:79-84 | a failing option loop has a first failing option, and its error is the loop's error |
| Kafka.Kafka.constructor | storage/kafka/kafka.go:63 | `&Kafka{brokers: brk}`: every other field is zero |
| Kafka.Kafka.SetDefaults | storage/kafka/kafka.go:90-94 | partitions 1, replicas 1, wait 5000; brokers and maxMsgs untouched |
| Kafka.Kafka.SetNumberOfPartitions | storage/kafka/kafka.go:97-105 | rejects `pc <= 1` without change, otherwise sets only `pc` |
| Kafka.Kafka.SetNumberOfReplicas | storage/kafka/kafka.go:108-116 | rejects `rc <= 1` without change, otherwise sets only `rc` |
| Kafka.Kafka.SetConsumeReturnDuration | storage/kafka/kafka.go:119-124 | always succeeds and sets only `dur` |
| Kafka.Kafka.SetNumberMaximumLogMessages | storage/kafka/kafka.go:127-135 | rejects `mc <= 1` without change and with the replicas error, otherwise sets only `maxMsgs` |
| Kafka.Kafka.ApplyOption | storage/kafka/kafka.go:81 | running an option's closure changes the object as `Apply` says, and changes nothing when it fails |
| Kafka.Kafka.New | storage/kafka/kafka.go:62-87 | defaults first, then the options in order; the first failing option ends it with that error and no object; otherwise a fresh object with the configured fields |
| Tx.ErrorFrom | tx/transaction.go:99-104 | a leading nil result means success; otherwise the leading error is the error |
| Tx.Execution | tx/transaction.go:107-170 | the outcome of one step for the answers the storage and the action give (stated by `ExecutionProperties`) |
| Tx.ExecutionProperties | tx/transaction.go:107-170 | an unknown step or arguments that do not marshal append nothing and call nothing; a failed StartSubTx append calls nothing; the action is called at most once, after StartSubTx with the marshalled arguments was stored; success holds exactly when every append succeeded and the action returned nil, and then the log gains exactly StartSubTx and EndSubTx; an action error leaves only StartSubTx and returns that error |
| Tx.Compensation | tx/transaction.go:266-324 | the outcome of compensating one started step for the answers given (stated by `CompensationAddsNoStarts`, `CompensationSucceeds` and `CompensationStartsFirst`) |
| Tx.CompensationAddsNoStarts | tx/transaction.go:266-324 | a compensation never appends a StartSubTx entry |
| Tx.CompensationSucceeds | tx/transaction.go:266-324 | a compensation succeeds exactly when the step is defined, its stored arguments unmarshal, both appends succeed and the compensate returns nil; it then appends StartCompensateSubTx and an entry of kind EndSubTx (code 3) and calls the compensate once with the unmarshalled arguments |
| Tx.CompensationStartsFirst | tx/transaction.go:266-293 | StartCompensateSubTx is appended before the definition lookup and the unmarshal; the compensate is called at most once, after it; a failing compensation appends nothing more |
| Tx.CompensateAll | tx/transaction.go:236-246 | the compensations of a list of started steps, in order, stopping at the first failure with its error wrapped (stated by the `CompensateAll*` lemmas and `FailureIsFinal`) |
| Tx.CompensateAllAddsNoStarts | tx/transaction.go:236-246 | compensating a list of steps never adds a started step to the log |
| Tx.CompensateAllSucceeds | tx/transaction.go:236-246 | a successful loop has compensated every step, appending exactly their StartCompensateSubTx/EndSubTx pairs and calling exactly their compensates, in log order |
| Tx.FailureIsFinal | tx/transaction.go:242-244 | once a compensation failed, the later steps are never compensated |
| Tx.CompensateAllStopsAtFirstFailure | tx/transaction.go:236-246 | a failing loop names its first failing step: every step before it was fully compensated, nothing after it was tried, and its error is wrapped with its id |
| Tx.PassOutcome | tx/transaction.go:217-249 | the outcome of one rollback pass over the log as read (stated by `PassKeepsStarts` and `PassProperties`) |
| Tx.PassKeepsStarts | tx/transaction.go:217-249 | a rollback pass never adds a started step to the log it read |
| Tx.PassProperties | tx/transaction.go:217-249 | a pass appends nothing when the read or the AbortTx append fails, and otherwise starts with AbortTx; on success it has compensated every StartSubTx entry of the log it read, ended or not, in log order |
| Tx.CreditFailureStarts | example_test.go:117-124 | after "debit" succeeded and the action of "credit" failed, both steps count as started |
| Tx.CreditFailureScenario | example_test.go:117-124 | a successful pass over that log appends AbortTx, then the StartCompensateSubTx/EndSubTx pairs of "debit" and then of "credit" |
| Tx.PassesKeepStarts | tx/transaction.go:204-249 | however many passes ran, none added a started step, so every pass compensated the steps the log began with |
| Tx.EveryEarlierPassFailed | tx/transaction.go:206-212 | with `Rollback`'s ensures: a pass is retried only after the previous one failed, so every pass but the last returned an error |
| Tx.Storage.TxIDAlreadyExists | tx/transaction.go:34 | when it does not fail, the storage reports whether the id has a list |
| Tx.Storage.AppendLog | tx/transaction.go:35 | a failed append changes nothing; a successful one appends the entry under the id |
| Tx.Storage.GetTxLogs | tx/transaction.go:36 | when it does not fail, the read returns the id's list |
| Tx.Host.Invoke | tx/transaction.go:147 | every call of a registered callable is recorded and returns a leading nil or error |
| Tx.Tx.New | tx/transaction.go:53-56 | a handle over the given context, saga, storage and id, with the dummy logger |
| Tx.Tx.NewWithLogger | tx/transaction.go:59-62 | a handle over the given context, saga, storage, id and logger |
| Tx.Tx.Start | tx/transaction.go:66-91 | a failed existence check changes nothing; an existing id causes exactly one rollback pass first, and if it fails its error is returned wrapped and no StartTx is appended; otherwise exactly one StartTx is appended or the append error is returned |
| Tx.Tx.ExecSubTx | tx/transaction.go:94-97 | ExecSubTxAndGetResult without the results |
| Tx.Tx.ExecSubTxAndGetResult | tx/transaction.go:107-170 | the appended entries, the calls and the error are those of the `Execution` outcome for the answers met; the results are the action's once it was called, and empty otherwise |
| Tx.Tx.End | tx/transaction.go:173-192 | appends exactly one EndTx entry and removes nothing, or changes nothing and returns the append error |
| Tx.Tx.Rollback | tx/transaction.go:204-214 | `tryCount <= 0` does nothing and returns nil; otherwise between 1 and `tryCount` consecutive passes run; every pass before the last failed; the last pass's error is returned; an error means all `tryCount` passes failed; the log gains exactly the passes' entries; its started steps are unchanged |
| Tx.Tx.NextPass | tx/transaction.go:206-212 | one more pass, recorded after the earlier ones and reading what they left |
| Tx.Tx.RollbackPass | tx/transaction.go:217-249 | the appended entries, calls and error are those of the `PassOutcome` of the log as read, for the answers met |
| Tx.Tx.CompensateStarted | tx/transaction.go:236-246 | the log loop's entries, calls and error are those of `CompensateAll` over the StartSubTx entries of the log, in order |
| Tx.Tx.CompensateEntry | tx/transaction.go:237-245 | one turn of that loop: a StartSubTx entry is compensated and any other entry is skipped |
| Tx.Tx.SetLogger | tx/transaction.go:252-254 | replaces the logger only |
| Tx.Tx.SetContext | tx/transaction.go:257-259 | replaces the context only |
| Tx.Tx.IsTxIDAlreadyInUse | tx/transaction.go:262-264 | when the storage does not fail, reports whether the transaction's log has any entry |
| Tx.Tx.CompensateSubTx | tx/transaction.go:266-324 | the appended entries, calls and error are those of the `Compensation` outcome for the answers met |

## Left out

- JSON encoding of log entries (log.Marshal, log.Unmarshal, marshal/marshaller.go): storage holds `Log` values directly. So the marshal-failure branches of the coordinator are not modelled (tx/transaction.go:81-84, 129-132, 159-162, 178-181, 226-229, 274-277, 313-316), nor the decode failure of a stored entry during rollback (238-240). A stored entry reads back as written.
- The `Time` field of a log entry and the `time.Now()` calls: they carry no behaviour the coordinator depends on.
- `RollbackWithInfiniteTries` (tx/transaction.go:195-201): an unbounded retry loop; `Rollback` covers one to `tryCount` passes of the same kind.
- The logger's output (`tx.log.Info`, logger.go): a fire-and-forget sink; the model keeps only which logger a handle holds.
- `context.Context` semantics: a context is an opaque value passed as the first argument of every call.
- The Saga implementation (saga.go, and the `Definition` accessors): step definitions are a map, and the argument codecs are arbitrary partial maps. The type registry behind them is only modelled through the parameter-type register.
- Error texts: each annotated error is a constructor of `TxError`, `AddError`, `RegisterError` or `OptionError` that names its cause; the wording is not modelled.
- Storage errors: a failing storage call is an arbitrary failure; its error value is not modelled.
- Tx.Storage: a failed storage call is modelled as changing nothing, so the failed-append clauses of `Tx.Tx.Start`, `Tx.Tx.ExecSubTxAndGetResult`, `Tx.Tx.End` and `Tx.Tx.CompensateSubTx` hold only for a storage whose failing `AppendLog` writes nothing (the in-memory store never fails); a backend that writes part of an entry and then reports an error is not modelled.
- Tx.Host.Invoke: every call returns. Go's `reflect.Value.Call` (tx/transaction.go:147, 301) panics when the arguments do not fit the callable: for example a compensate whose parameters differ from the action's, which registration never checks (subtx/subTxDefinitions.go:39-49). That panic is not modelled.
- Kafka.KafkaOption: `New` takes any `func(*Kafka) error` (storage/kafka/kafka.go:62); the model admits only the closures of the four `Set*` constructors, so `Kafka.ApplyChangesOneField`, `Kafka.ConfigureKeepsBrokers`, `Kafka.ConfigureStopsAtFirstFailure`, `Kafka.ConfigureFailureHasCause`, `Kafka.Kafka.ApplyOption` and `Kafka.Kafka.New` hold for options built from those four only.
- Kafka broker I/O: the topic, producer and consumer created in `New` (storage/kafka/kafka.go:67-77), the `AppendLog`, `Lookup` and `consumePartition` operations, `TxIDAlreadyExists` (which panics), the `ver` argument and storage/kafka/topic/topic.go are not part of this model.
- Kafka.Kafka.New: does not model the broker connections created between `SetDefaults` and the option loop or their failures; the error is the option's own, without the "issue while setting options" annotation.
- Tx.ErrorFrom: does not model Go's panic when a callable returns no results or a leading non-error; callables are assumed to return a leading nil or error (the `Results` type).
- ParamRegister.ParamTypeRegister.Add: the Go panic of `Out(i)` past the last output is modelled as the error `OutputIndexOutOfRange`, returned after the registrations made so far.
- Memory.LogCache stores serialized strings, as cache.go does; the coordinator's `Tx.Storage` stores entries under the same map semantics (`Memory.AppendedAll`).
- Concurrency: the model is sequential; nothing in the core is meant to be used from several goroutines at once.
