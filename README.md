# go-di-template: a verified model of its core

This project models the core of go-di-template. go-di-template is a Go service template: a users service over gRPC, backed by MySQL, PostgreSQL or SQLite through gorm. It comes in a plain flavour and an uber/fx flavour. The model covers these parts:

- **Buffered logging worker** (`LoggingWorkers`, in `logging_worker.dfy`).
  - `Inject` appends a message to a buffer. When the buffer reaches `BufferCapacity`, it wakes the worker through a one-slot channel.
  - `flush` swaps the buffer for an empty one and hands the old contents to the message repository's `CreateMany`. If the write fails, it puts them back in front of whatever was injected meanwhile.
  - `Stop` closes the channel, drains the buffer once, and cancels the worker.
  - `LogAndSend` injects a message and also sends it to a client.
  - The worker is a class with the source's state:
    - `buffer`;
    - the channel slot `signalPending`;
    - whether the channel is `closed`;
    - whether the cancel function has run (`cancelled`).
  - Ghost fields record what was injected, what was written, and the batches still in flight. Two invariants are kept by every method:
    - `Valid`: multiset conservation, with any number of flushes in flight;
    - `InOrder`: conservation in injection order, with at most one flush in flight.
- **Error model** (`Errors`). A Go error is the set of sentinels that `errors.Is` finds in its chain, plus its text. `fmt.Errorf` with `%w` unions the chains.
- **Database errors** (`StoreErrors`). This is the classification shared by the five storage backends (`isInvalidInputError`, `isNotFoundError`, `isCanceledError`, `getEntityError`, `GenerateError`, `handleTransactionError`). The backends are copies of one another, except that uberfx sqlite looks for "constraint failed" where the others look for "constraint". So the backend is a parameter.
- **`RunTx` handler loops** (`Transactions`), in two shapes:
  - plain handlers that return an error (mysql, internal postgres);
  - handlers that thread a data value and may stop the chain (internal sqlite, both uberfx backends).
- **gRPC error mapping** (`ErrorCodes`): `HandleError` and `HandleErrorCodes`.
- **PostgreSQL connection string** (`PostgresDsn`): `RepositoryConfig.DSN`.
- **Slice transformers** (`Transformer`): the eight `FromEntityArray_*`/`ToEntityArray_*` variants of `ExtendedDataTransformer`.
- **Field-mapping transformers**:
  - protobuf ↔ entity (`PbTransformers`);
  - gorm row ↔ entity, with `FindByUsername` and `GetByUserID` (`StoreRows`).
- **Users use case** (`Users`): `createUserImpl`, `CreateUser` (a single-handler transaction) and `GetUserByUsername`. `cmd/server.go:29` and `cmd/server.go:37-41` wire the repository of `internal/repositories/mysql`, whose `RunTx` is not part of this model. The model runs `CreateUser` through the `RunTx` of `internal/stores/mysql/mysql.go:236-257`, on the assumption that the two behave alike.
- **gRPC logging interceptor** (`GrpcLogger`): the level chosen, the refinement of the reported code, the service and method names, the correlation id, and the arguments of the log line.

## Modelling choices
- Several things are inputs to the model:
  - foreign calls: the stores, `CreateMany`, `client.Send`, the commit of a gorm transaction, `status.Code`, the gRPC handler, JSON encoding;
  - the clock and the UUID and correlation-id generators.
  Each is a function-typed parameter, or the value it returned.
- A nil pointer, slice or error is `None`.
- Go integers are unbounded `int` restricted to their width (`Uint`, `Uint32`). `uint32(x)` is written out as `x % 2^32`.
- Go visits a map in an unspecified order. Where code loops over a map (the DSN parameters), that order is an input.
- The worker's mutex is modelled as step atomicity. Every method is one step under the lock.
  - `flush` is split at the repository call into `BeginFlush` and `EndFlush`, so injections, and a second flush, can run while a write is in flight.
  - `Stop`'s final flush is not split: it is one atomic `Flush`, so no `Inject` runs during its `CreateMany`.
  - The worker's `select` loop is one nondeterministic step, `WorkerStep`.
- The hazards of the worker are preconditions:
  - An `Inject` that must signal while a wake-up is pending blocks while holding the lock.
  - One that must signal after `Stop` panics on the closed channel.
  - `CanInject` excludes both cases.
  - `Stop` may be called only once, because closing a closed channel panics.
  - `LogAndSend` needs a client.
- The row transformers dereference their argument without a nil check, so the model passes values, not pointers.
- The uberfx flavour declares its own sentinels (`uberfx/internal/models/errors.go`), distinct Go values from those of the plain flavour with the same texts. The model has one set of sentinels for both flavours. So `Transactions.TransactionFailureCode` for the uberfx backends states the mapping of the plain flavour's `HandleError`, which uberfx does not wire to its stores.
- A gorm transaction is modelled by two inputs: the error of beginning it (`beginErr`) and the error of committing it (`commitErr`). When beginning fails, no handler is called.

## Behaviour as coded
- `Inject` sends on the channel with a blocking send (`internal/usecases/logging_worker.go:110`). A non-blocking, coalescing signal would be the natural reading of its purpose. The model follows the code: the blocking cases are excluded by precondition, not coalesced.
- `flush` reads `len(w.buffer)` before taking the lock (`internal/usecases/logging_worker.go:47`). The model takes that test and the swap as one step.
- `Stop` cancels the worker only when its final flush succeeds (`internal/usecases/logging_worker.go:96-100`).
- After `Stop`, the closed channel is always ready to receive. `WorkerStep` may take its `Signal` case again and again.
- A message handed to `LogAndSend` stays buffered even when the send fails.
- A failed transaction always comes back categorized by `handleTransactionError` (`internal/stores/mysql/mysql.go:85-99`). An error that already carries `ErrCanceled`, `ErrInvalid`, `ErrNotFound` or `ErrDatabase` passes unchanged. Any other error goes through `getEntityError` (`internal/stores/mysql/mysql.go:57-75`), which adds one of the four after looking at the error's chain and text. Through `HandleError`, a failed non-empty transaction is therefore never `Internal`, even when a handler failed with `ErrInternal`. It is reported with the code of its category instead: `Unavailable`, unless its chain or text also marks it canceled, invalid or not found, or its chain carries `ErrTooManyRequests`. Only an empty handler list gives `Internal` (`Transactions.TransactionFailureCode`, `Transactions.RunTxNoHandlers`).
- When the user insert fails, `CreateUser` wraps the error twice with "failed to create user: ": once in `createUserImpl` and once in its handler (`Users.CreateUserStoreFailure`).
- The logging interceptor can report a plain non-status error as OK. If `status.Code(err)` is Unknown and the error wraps nothing, the code is re-derived from `status.Code(nil)`, which is OK. Such a call is then logged at Info level (`GrpcLogger.RefinedUnknownCode`).
- `Stop` cancels the worker's context even while a flush of the worker is in flight. That write runs on the cancelled context (`internal/usecases/logging_worker.go:56`), so it fails and puts its batch back, and nothing flushes the buffer after that. The model allows this interleaving (`EndFlush` after `Stop`), and its conservation invariants show the batch is kept, not written.
- When the skipper says skip, the handler receives the server info in the request position (`libs/middlewares/logger/logger.go:127`). The model keeps that.

## Model

| member | source | states |
|---|---|---|
| LoggingWorkers.LoggingWorker.constructor | internal/usecases/logging_worker.go:28-44 | a new worker has an empty buffer, an empty signal slot, is neither closed nor cancelled, records nothing injected or written, and satisfies both conservation invariants |
| LoggingWorkers.LoggingWorker.Inject | internal/usecases/logging_worker.go:104-112 | the message is appended after the unchanged earlier messages; a wake-up is raised exactly when the buffer then holds at least `capacity` messages; both conservation invariants are kept; requires that such a wake-up neither blocks on a pending one nor hits a closed channel |
| LoggingWorkers.LoggingWorker.BeginFlush | internal/usecases/logging_worker.go:46-54 | an empty buffer ends the flush with no write and no change; otherwise the batch is exactly the old buffer in order, the buffer becomes empty and the batch is in flight; conservation is kept |
| LoggingWorkers.LoggingWorker.EndFlush | internal/usecases/logging_worker.go:56-64 | a successful write moves the batch to the written messages and leaves later injections buffered; a failed one returns the error and puts the batch in front of the later injections; nothing is lost or duplicated, and order is kept when this was the only flush in flight |
| LoggingWorkers.LoggingWorker.Flush | internal/usecases/logging_worker.go:46-65 | an uninterrupted flush: an empty buffer calls no write and changes nothing; otherwise `CreateMany` gets exactly the old buffer, which is then written (buffer empty) or, on failure, fully restored with the error returned |
| LoggingWorkers.LoggingWorker.WorkerStep | internal/usecases/logging_worker.go:67-84 | `Done` ends the loop with no change; a tick or a wake-up consumes the wake-up (if any) and flushes: with an empty buffer nothing is written and no error arises, otherwise the write's outcome is as in `Flush`; conservation is kept |
| LoggingWorkers.LoggingWorker.Stop | internal/usecases/logging_worker.go:92-102 | the channel is closed and the buffer flushed once; on success the worker is cancelled and the buffer written; on failure the error is wrapped with "failed to flush buffer on stop", the buffer is restored and the worker is not cancelled |
| LoggingWorkers.LoggingWorker.LogAndSend | internal/usecases/logging_worker.go:114-121 | the message is always buffered as by `Inject`; an error is returned exactly when the send fails, wrapped with "failed to send message" |
| LoggingWorkers.SignalsForCount | internal/usecases/logging_worker.go:104-112 | `SignalsFor`, the wake-ups raised by n successive injections, in closed form: none while the buffer stays below capacity, and one per injection from the capacity-th on |
| LoggingWorkers.LoggingWorker.InjectAll | internal/usecases/logging_worker.go:104-112 | successive injections that stay within capacity append the messages in order and raise exactly the wake-ups `SignalsFor` counts: one exactly when the last message fills the buffer, when the slot is left full, and none otherwise; both invariants are kept |
| LoggingWorkers.CapacityInjectionsSignalOnce | internal/usecases/logging_worker_test.go:16-38 | on a new worker, the first capacity-1 injections leave the wake-up slot empty and the capacity-th fills it, so the test's receive succeeds; exactly one wake-up is raised and the buffer holds the messages in order |
| LoggingWorkers.FlattenRemove | internal/usecases/logging_worker.go:56-61 | completing any one in-flight batch, in any order, removes exactly its messages from the in-flight multiset |
| LoggingWorkers.InOrderIsValid | internal/usecases/logging_worker.go:51-61 | ordered conservation implies multiset conservation |
| Errors.Wrapf | internal/usecases/users.go:39 | `fmt.Errorf("<prefix>: %w", err)` keeps the chain's sentinels and prefixes the text |
| Errors.Categorized | internal/usecases/users.go:94 | `fmt.Errorf("%w - <detail>", sentinel)` carries exactly that sentinel, and its text starts with the sentinel's own text |
| Errors.Errorf | internal/stores/mysql/mysql.go:82 | `fmt.Errorf` with `%w` operands: the result's chain keeps every operand's chain, and a format with no `%w` operand has an empty chain |
| Errors.IsErrorf | internal/stores/mysql/mysql.go:77-83 | `errors.Is` on an `fmt.Errorf` result holds exactly when one of its `%w` operands carries the sentinel |
| ErrorCodes.HandleError | libs/middlewares/error_codes.go:13-38 | nil maps to nil, and any error to a status whose message is exactly the error's text |
| ErrorCodes.HandleErrorIsPrecedence | libs/middlewares/error_codes.go:20-37 | the code is that of the first row of the table Canceled, TooManyRequests, Database, Invalid, NotFound, Unauthorized, Internal whose sentinel is in the chain, else Unknown |
| ErrorCodes.HandleErrorCodeAt | libs/middlewares/error_codes.go:20-34 | a row's code is chosen whenever its sentinel is present and no higher-priority one is |
| ErrorCodes.HandleErrorUnknown | libs/middlewares/error_codes.go:35-36 | an error with none of the seven sentinels maps to Unknown |
| ErrorCodes.DatabaseBeatsInvalid | libs/middlewares/error_codes.go:25-28 | an error tagged both Database and Invalid, and neither Canceled nor TooManyRequests, maps to Unavailable |
| ErrorCodes.HandleErrorWrappedSentinel | libs/middlewares/error_codes_test.go:22-49 | each sentinel of the table, wrapped as "%w - test err", maps to its row's code with the message "<sentinel text> - test err" |
| ErrorCodes.HandleErrorCodes | libs/middlewares/error_codes.go:40-44 | the handler's response passes unchanged and only its error is mapped |
| StoreErrors.IsInvalidInputError | internal/stores/mysql/mysql.go:20-33 | nil is never invalid input; a gorm validation sentinel anywhere in the chain makes any error invalid input, whatever its text; without one, only the backend's constraint text ("constraint", or "constraint failed" in `uberfx/internal/stores/sqlite/sqlite.go:24`) decides |
| StoreErrors.IsNotFoundError | internal/stores/mysql/mysql.go:35-41 | an error is "not found" exactly when its chain holds `sql.ErrNoRows` or `gorm.ErrRecordNotFound`; its text plays no part |
| StoreErrors.IsCanceledError | internal/stores/mysql/mysql.go:43-55 | nil is never canceled; `context.Canceled` in the chain always is; without it, only the text "operation was canceled" decides |
| StoreErrors.GetEntityError | internal/stores/mysql/mysql.go:57-75 | nil stays nil; any other error becomes exactly one of the four category sentinels |
| StoreErrors.GetEntityErrorPriority | internal/stores/sqlite/sqlite.go:31-71 | canceled, when detected, wins; otherwise invalid input; otherwise not found; everything else is a database error; each case is an if-and-only-if |
| StoreErrors.GenerateError | uberfx/internal/stores/sqlite/sqlite.go:76-82 | nil stays nil; otherwise the result carries the category and every sentinel of the original error, with text "<category> - <errStr>, err: <original>" |
| StoreErrors.HandleTransactionError | internal/stores/mysql/mysql.go:85-99 | nil stays nil; already categorized errors pass unchanged; others go through `GenerateError` with "transaction error" |
| StoreErrors.HandleTransactionErrorCategorizes | uberfx/internal/stores/postgres/postgres.go:75-97 | the result is nil exactly for nil, and otherwise categorized and keeps the original chain |
| StoreErrors.HandleTransactionErrorIdempotent | internal/stores/postgres/postgres.go:81-95 | applying it twice is the same as once |
| StoreErrors.FxSqliteInvalidIsInvalidEverywhere | uberfx/internal/stores/sqlite/sqlite.go:19-32 | what uberfx sqlite calls invalid input, every backend does |
| StoreErrors.FxSqliteDivergesOnConstraintText | uberfx/internal/stores/sqlite/sqlite.go:19-32 | an untagged error whose text contains "constraint" but neither 'p' nor 'f' is invalid input for the other four backends but a database error for uberfx sqlite |
| StoreErrors.ConstraintViolatedDiverges | uberfx/internal/stores/sqlite/sqlite.go:19-32 | "xxx constraint violated" is such a text, so the backends disagree on it |
| StoreErrors.ClassifiedByTags | internal/stores/sqlite/sqlite.go:16-71 | an error whose text has neither 'p' nor 'a' matches neither text check, so its sentinels alone decide, in the order canceled, invalid input, not found, database error |
| StoreErrors.PlainErrorIsDatabaseError | internal/stores/mysql/mysql_test.go:162 | `errors.New("error")` is a database error in every backend |
| StoreErrors.ContextCanceledIsCanceled | internal/stores/mysql/mysql_test.go:147 | `context.Canceled` is classified as cancellation in every backend |
| StoreErrors.InvalidFieldIsInvalid | internal/stores/mysql/mysql_test.go:152 | gorm's `ErrInvalidField` is invalid input in every backend |
| StoreErrors.RecordNotFoundIsNotFound | internal/stores/mysql/mysql_test.go:157 | gorm's `ErrRecordNotFound` is a missing entity in every backend |
| StoreErrors.NoRowsIsNotFound | internal/stores/mysql/mysql_test.go:81 | `sql.ErrNoRows` is a missing entity in every backend |
| Transactions.NoHandlerError | internal/stores/mysql/mysql.go:237-239 | the empty-list error carries only `ErrInternal`, with text "internal error - input no handler function" |
| Transactions.RunTx | internal/stores/mysql/mysql.go:236-257 | returns the error of `RunTxResult`: with no handlers `ErrInternal`; when beginning the transaction fails, that error categorized and no handler called; otherwise exactly the non-nil handlers up to and including the first failing one are called, in order |
| Transactions.CalledShape | internal/stores/mysql/mysql.go:244-251 | the handlers called are all non-nil, none fails except possibly the last, and every non-nil handler up to the first failure is called |
| Transactions.Callback | internal/stores/mysql/mysql.go:244-251 | the callback of the plain `RunTx` returns the first handler error and calls exactly the non-nil handlers up to and including the failing one |
| Transactions.RunTxNoHandlers | internal/stores/postgres/postgres.go:210-213 | no handlers: the `ErrInternal` error is returned uncategorized and maps to the gRPC code Internal |
| Transactions.RunTxAllNil | internal/stores/mysql/mysql.go:244-246 | only nil handlers: nothing is called and the outcome is the begin's or else the commit's, categorized |
| Transactions.RunTxBeginFails | internal/stores/mysql/mysql.go:241-256 | when beginning the transaction fails, that error comes back categorized, whatever the handlers and the commit would do |
| Transactions.RunTxSucceeds | internal/stores/postgres/postgres.go:215-231 | handlers that all succeed, with a clean commit, give nil |
| Transactions.RunTxCategorizes | internal/stores/mysql/mysql.go:241-256 | the result of a non-empty call is nil exactly when no handler and no commit failed, and otherwise categorized, keeping the failing error's chain |
| Transactions.TransactionFailureCode | internal/stores/mysql/mysql.go:256 | through `HandleError`, a failed transaction is reported as Canceled, ResourceExhausted, Unavailable, InvalidArgument or NotFound, never Internal or Unknown |
| Transactions.RunTxData | internal/stores/sqlite/sqlite.go:166-192 | the data-threading loop returns the data and error of its specification: no handlers give the input data with `ErrInternal`; a failed begin gives the input data with that error categorized; otherwise each non-nil handler gets the previous output, and the first error or a stop request ends the chain |
| Transactions.ThreadAllNil | uberfx/internal/stores/sqlite/sqlite.go:180-190 | only nil handlers give the input data back with no error |
| Transactions.ThreadBreakIgnoresRest | uberfx/internal/stores/postgres/postgres.go:226-243 | when the handler at index k is the first to err or ask to stop, the result is its own output and error, computed on the data threaded through the handlers before it, and any handlers after it change nothing |
| Transactions.ThreadLifted | internal/stores/sqlite/sqlite.go:171-191 | the data-threading loop over handlers that always continue reports the same error as the plain loop |
| Transactions.PlainIsThreaded | uberfx/internal/stores/postgres/postgres.go:215-243 | the plain `RunTx` is the data-threading one with every handler lifted |
| PostgresDsn.Dsn | internal/stores/postgres/postgres.go:113-132 | the connection string is the parts joined by single spaces: the basic part, a set `sslmode`, a set `TimeZone`, then one `k=v` per parameter in map visiting order |
| PostgresDsn.ParamPartsContents | internal/stores/postgres/postgres.go:127-129 | part i of the parameters is `key_i=value_i` for the i-th visited key |
| PostgresDsn.FixedPartsShape | internal/stores/postgres/postgres.go:114-126 | the basic part is first; `sslmode` follows only when it is non-nil and non-empty, then `TimeZone` likewise |
| PostgresDsn.DsnPartsCoverParams | uberfx/internal/stores/postgres/postgres.go:115-134 | every parameter contributes its `k=v` part |
| PostgresDsn.DsnPartsOnlyParams | internal/stores/postgres/postgres.go:127-129 | after the fixed parts there is exactly one part per parameter, and each is a `k=v` of the map |
| PostgresDsn.DsnOrderIndependent | internal/stores/postgres/postgres.go:127-129 | any two visiting orders give the same parts, each as often: the same multiset of parts |
| PostgresDsn.DistinctKeysCount | internal/stores/postgres/postgres.go:127-129 | a visiting order names as many keys as the map has |
| PostgresDsn.DsnStartsWithBasic | internal/stores/postgres/postgres.go:114-117 | the connection string starts with "host=H port=P user=U password=W dbname=D" |
| Strings.NatToDecimal | internal/stores/postgres/postgres.go:114-117 | `%d` of the port is a non-empty string of decimal digits |
| Strings.NatToDecimalRoundTrip | internal/stores/postgres/postgres.go:114-117 | reading the `%d` digits back gives the same number, so the port is written without loss |
| PostgresDsn.DsnBare | internal/stores/postgres/postgres.go:113-132 | with no settings and no parameters the connection string is exactly the basic part |
| Transformer.NewExtendedDataTransformer | internal/entities/transformer.go:162-164 | the extension uses the given element transformer in both directions |
| Transformer.FirstError | internal/entities/transformer.go:25-29 | the index of the first element whose transform errs: all before it succeed, and it errs unless it is the length |
| Transformer.MapPointers | internal/entities/transformer.go:37-52 | the pointer-output loop returns the outcome of its specification `ConvertPointers` |
| Transformer.MapInstances | internal/entities/transformer.go:19-34 | the instance-output loop returns the outcome of `ConvertInstances`; requires every result kept before the first error to be non-nil |
| Transformer.FromEntityArrayI2I | internal/entities/transformer.go:19-34 | instances in, instances out: the outcome of `ConvertInstances` on `FromEntity` of each element's address |
| Transformer.FromEntityArrayI2P | internal/entities/transformer.go:37-52 | instances in, pointers out: the outcome of `ConvertPointers` |
| Transformer.FromEntityArrayP2I | internal/entities/transformer.go:55-70 | pointers in, instances out: the outcome of `ConvertInstances`; requires non-nil results, because each one is dereferenced |
| Transformer.FromEntityArrayP2P | internal/entities/transformer.go:73-88 | pointers in, pointers out: the outcome of `ConvertPointers` |
| Transformer.ToEntityArrayI2I | internal/entities/transformer.go:91-106 | as `FromEntityArrayI2I`, in the `ToEntity` direction |
| Transformer.ToEntityArrayI2P | internal/entities/transformer.go:109-124 | as `FromEntityArrayI2P`, in the `ToEntity` direction |
| Transformer.ToEntityArrayP2I | internal/entities/transformer.go:127-142 | as `FromEntityArrayP2I`, in the `ToEntity` direction |
| Transformer.ToEntityArrayP2P | internal/entities/transformer.go:145-160 | as `FromEntityArrayP2P`, in the `ToEntity` direction |
| Transformer.ConvertSuccess | internal/entities/transformer.go:24-33 | with no element error, the output has the input's length and element i is the transform of input element i |
| Transformer.ConvertFailure | internal/entities/transformer.go:26-29 | the first element error gives a nil slice and that error |
| Transformer.ConvertStopsAtError | internal/entities/transformer.go:98-101 | no element after the failing one is transformed: transformers that agree up to it give the same outcome, in the pointer-output and the instance-output variants |
| Transformer.ConvertEmpty | internal/entities/transformer.go:24 | a non-nil empty slice gives a non-nil empty slice |
| Transformer.ConvertNil | internal/entities/transformer.go:20-22 | a nil slice gives nil with no error in every variant |
| Transformer.InstancesRoundTrip | internal/entities/transformer.go:91-106 | when the element transforms invert each other and never fail, `FromEntityArray_I2I(ToEntityArray_I2I(xs)) == xs` |
| Entities.Narrow | internal/controllers/transformers/user.go:39 | `uint32(x)` keeps the value below 2^32 and otherwise differs from it by a multiple of 2^32 |
| PbTransformers.KvToEntity | internal/controllers/transformers/key_value_pair.go:15-24 | nil maps to nil, key and value are copied, and there is never an error |
| PbTransformers.KvFromEntity | internal/controllers/transformers/key_value_pair.go:26-35 | nil maps to nil, key and value are copied, and there is never an error |
| PbTransformers.KvRoundTrips | internal/controllers/transformers/key_value_pair.go:15-35 | the two directions invert each other, nil included |
| PbTransformers.KvArrayRoundTrip | internal/controllers/transformers/key_value_pair.go:15-35 | the slice round trip through the key-value transformer is the identity |
| PbTransformers.UserToEntity | internal/controllers/transformers/user.go:16-31 | nil maps to nil; the id is widened and every other field copied, with times through the time conversion; never an error |
| PbTransformers.UserFromEntity | internal/controllers/transformers/user.go:33-48 | nil maps to nil; the id is narrowed to 32 bits and every other field copied; never an error |
| PbTransformers.UserEntityRoundTrip | internal/controllers/transformers/user.go:16-48 | entity → protobuf → entity gives the user back exactly when its id is below 2^32 and its times survive |
| PbTransformers.UserEntityTruncatesId | internal/controllers/transformers/user.go:39 | entity → protobuf → entity keeps the id modulo 2^32 and every other non-time field |
| PbTransformers.UserPbRoundTrip | internal/controllers/transformers/user.go:16-48 | protobuf → entity → protobuf gives the message back exactly when both timestamps survive |
| PbTransformers.AttributeToEntity | internal/controllers/transformers/user_attributes.go:16-29 | nil maps to nil; both ids are widened, key and value copied; never an error |
| PbTransformers.AttributeFromEntity | internal/controllers/transformers/user_attributes.go:31-44 | nil maps to nil; both ids are narrowed to 32 bits, key and value copied; never an error |
| PbTransformers.AttributeEntityRoundTrip | internal/controllers/transformers/user_attributes.go:16-44 | entity → protobuf → entity gives the attribute back exactly when both ids are below 2^32 and the times survive |
| PbTransformers.AttributePbRoundTrip | internal/controllers/transformers/user_attributes.go:16-44 | protobuf → entity → protobuf gives the message back exactly when both timestamps survive |
| StoreRows.EmailToEntity | internal/stores/user.go:25-28 | a valid `NullString` becomes its text, an invalid one nil |
| StoreRows.EmailFromEntity | internal/stores/user.go:42-45 | nil becomes the invalid empty `NullString`, a present e-mail a valid one with that text |
| StoreRows.UserToEntity | internal/stores/user.go:24-39 | every field of the row is carried to the entity, the e-mail through `EmailToEntity` |
| StoreRows.UserFromEntity | internal/stores/user.go:41-58 | every field of the entity is carried to the row, with no deletion time |
| StoreRows.UserEntityRoundTrip | internal/stores/user.go:24-58 | entity → row → entity is the identity |
| StoreRows.UserRowRoundTrip | internal/stores/user.go:24-58 | row → entity → row resets the deletion time and an invalid e-mail's text, and is the identity exactly on rows with neither |
| StoreRows.AttributeToEntity | internal/stores/user_attributes.go:20-29 | id, times, owner, key and value are copied |
| StoreRows.AttributeFromEntity | internal/repositories/user_attributes.go:31-42 | the same fields are copied back, with no deletion time |
| StoreRows.AttributeEntityRoundTrip | internal/repositories/user_attributes.go:20-42 | entity → row → entity is the identity |
| StoreRows.AttributeRowRoundTrip | internal/stores/user_attributes.go:20-42 | row → entity → row is the identity exactly on rows that are not soft-deleted |
| StoreRows.UsernameCriteria | internal/stores/user.go:101-106 | the lookup asks for all fields, the single condition username = u, ordered by id |
| StoreRows.FindByUsername | internal/stores/user.go:89-113 | the lookup succeeds exactly when the name is not empty and the store's lookup by that name succeeds; no user comes back beside an error |
| StoreRows.FindByEmptyUsername | internal/stores/user.go:94-96 | the empty name gives no user and an error carrying only `ErrInvalid`, whatever the store would answer |
| StoreRows.FindByUsernameDelegates | internal/stores/user.go:101-113 | any other name gives the store's answer to the lookup by that name, with no user beside an error |
| StoreRows.UserIdCriteria | internal/stores/user_attributes.go:82-88 | the query asks for all fields, the single condition user_id = id, ordered by id |
| StoreRows.GetByUserID | internal/stores/user_attributes.go:74-89 | one `GetManyByCriterias` call with the user-id criteria, offset 0 and limit 0; it has no contract of its own, and `StoreRows.GetByUserIDQuery` states what the call asks for |
| StoreRows.GetByUserIDQuery | internal/repositories/user_attributes.go:84-90 | the query is the criteria by user id with offset 0 and limit 0, and different users give different criteria |
| Users.AttributesFor | internal/usecases/users.go:47-53 | one attribute per input pair, in order, owned by the created user, with key and value from the pair and every other field zero |
| Users.CreateUserImpl | internal/usecases/users.go:31-61 | the outcome, and the slice passed to `CreateMany`, of `CreateUserImplResult`; the slice is filled by index into a fresh array |
| Users.CreateUserImplCreateFails | internal/usecases/users.go:37-40 | a failed user insert returns nil results, the wrapped error, and never calls `CreateMany` |
| Users.CreateUserImplNoAttributes | internal/usecases/users.go:42-45 | no attributes give the created user and a non-nil empty slice without calling `CreateMany` |
| Users.CreateUserImplAttributes | internal/usecases/users.go:47-60 | `CreateMany` gets one attribute per pair, in order, owned by the created user; its failure discards the created user too |
| Users.CreateUser | internal/usecases/users.go:63-87 | the outcome and the caller's user of `CreateUserResult`: the UUID is set, then `createUserImpl` runs as the single handler of a transaction through the mysql `RunTx`; the handler, and with it both stores, runs exactly when the begin succeeds, and what `CreateMany` receives is what `createUserImpl` sends |
| Users.CreateUserSetsUuid | internal/usecases/users.go:67 | the caller's user carries the generated UUID and is otherwise unchanged |
| Users.CreateUserStoreFailure | internal/usecases/users.go:76-79 | a categorized user-insert failure comes back wrapped twice with "failed to create user", its sentinels intact, with nil results |
| Users.CreateUserFailureCategorized | internal/usecases/users.go:72-84 | every failure comes back with nil results and categorized, so it maps to Canceled, ResourceExhausted, Unavailable, InvalidArgument or NotFound |
| Users.CreateUserSucceeds | internal/usecases/users.go:86 | a successful handler with a clean commit returns what `createUserImpl` produced |
| Users.CreateUserCommitFails | internal/usecases/users.go:82-84 | a failing commit discards a successful handler's results and returns the categorized commit error |
| Users.CreateUserBeginFails | internal/usecases/users.go:72-84 | a failed begin returns nil results with the categorized begin error; that no store is called then is stated by `Users.CreateUser` (its handler runs only when the begin succeeds) |
| Users.GetUserByUsername | internal/usecases/users.go:89-108 | the call succeeds exactly when the name is not empty and both the user lookup and the attribute lookup succeed, and a success returns a user |
| Users.GetUserEmptyName | internal/usecases/users.go:93-95 | the empty name is refused with `ErrInvalid` (gRPC InvalidArgument) before any store is asked |
| Users.GetUserFailures | internal/usecases/users.go:97-105 | an error comes with nil results, and a store error keeps its sentinels |
| Users.GetUserSucceeds | internal/usecases/users.go:97-107 | success returns the found user and the attributes stored for that user's id |
| GrpcLogger.LogLevel | libs/middlewares/logger/logger.go:61-100 | OK is Info, the eleven client-side codes are Warn, every other code (unlisted ones too) is Error, never Debug |
| GrpcLogger.GetCorrelationId | libs/utils/correlation.go:18-30 | the id stored in the context when there is one that is a string, otherwise a newly generated id |
| GrpcLogger.DetectAndInjectCorrelationId | libs/middlewares/logger/logger.go:102-114 | the derived context is the given one with only its correlation value replaced, by the id that is returned |
| GrpcLogger.CorrelationIdChoice | libs/middlewares/logger/logger.go:102-114 | the id is the first header value if any, else the context's or a fresh one, and "" without incoming metadata; the derived context carries it |
| GrpcLogger.CorrelationIdStable | libs/utils/correlation.go:18-34 | detecting again on the derived context finds the same id and derives the same context, with or without incoming metadata and whatever id would be generated |
| GrpcLogger.LastSlash | libs/middlewares/logger/logger.go:138-139 | the index of the last '/' of a string, or -1 when there is none |
| GrpcLogger.SplitFullMethod | libs/middlewares/logger/logger.go:138-139 | "/service/method" splits back into the service and the method |
| GrpcLogger.HealthCheckSplits | libs/middlewares/logger/logger.go:151 | the health check's full method name splits into "grpc.health.v1.Health" and "Check" |
| GrpcLogger.RefinedCode | libs/middlewares/logger/logger.go:141-148 | the reported code stays Unknown only when the error's code and its unwrapped error's code are both Unknown; it is Canceled only when one of them is, or when the error is a cancellation and the context is canceled too |
| GrpcLogger.RefinedKnownCode | libs/middlewares/logger/logger.go:141-145 | a code other than Unknown is reported as is; no error is OK |
| GrpcLogger.RefinedUnknownCode | libs/middlewares/logger/logger.go:143-148 | Unknown is replaced by the wrapped error's code, OK when nothing is wrapped; still Unknown becomes Canceled when both the error and the context are canceled |
| GrpcLogger.RefinedCanceled | libs/middlewares/logger/logger.go:141-148 | Canceled is reported exactly for a status Canceled, a wrapped Canceled, or an Unknown cancellation seen by the context |
| GrpcLogger.EntryLevelDebug | libs/middlewares/logger/logger.go:150-153 | exactly a successful health check is logged at Debug; every other call at `getLogFunc`'s level |
| GrpcLogger.Pair | libs/middlewares/logger/logger.go:166-173 | an optional value adds its key and then its encoded value, and nothing when absent |
| GrpcLogger.ErrorArgs | libs/middlewares/logger/logger.go:176-187 | no arguments without an error; otherwise the key "error" and the error's text, then the key "details" and the encoded details when the status has any |
| GrpcLogger.LogArgsLayout | libs/middlewares/logger/logger.go:155-187 | code, latency, service and method lead, then the custom pairs, the request and the response pairs when included, the correlation id, then the error text and the status details exactly when there are any, each at its index |
| GrpcLogger.AppendArgs | libs/middlewares/logger/logger.go:155-187 | the successive appends build exactly the argument list of `LogArgs` |
| GrpcLogger.Intercept | libs/middlewares/logger/logger.go:125-191 | a skipped call reaches the handler with the info as request and is not logged; any other reaches it with the correlation id injected and is logged once with the entry of `Entry`; the handler's answer is returned unchanged |
| GrpcLogger.HealthCheckEntry | libs/middlewares/logger/logger.go:150-157 | a health check is logged with its refined code first, at Debug when it is OK and at `getLogFunc`'s level otherwise |

The classification functions exist in five copies. Each StoreErrors row cites one copy, and the model covers all five:
- `internal/stores/mysql/mysql.go:20-99`;
- `internal/stores/postgres/postgres.go:16-95`;
- `internal/stores/sqlite/sqlite.go:16-95`;
- `uberfx/internal/stores/postgres/postgres.go:18-97`;
- `uberfx/internal/stores/sqlite/sqlite.go:19-98`.

The `RunTx` loops are modelled the same way:
- plain: `internal/stores/mysql/mysql.go:236-257` and `internal/stores/postgres/postgres.go:210-231`;
- data-threading: `internal/stores/sqlite/sqlite.go:166-192`, `uberfx/internal/stores/postgres/postgres.go:215-243` and `uberfx/internal/stores/sqlite/sqlite.go:169-198`.

The PostgreSQL connection string is identical in `internal/stores/postgres/postgres.go:113-132` and `uberfx/internal/stores/postgres/postgres.go:115-134`.

The user-attribute row transformers are identical in `internal/stores/user_attributes.go:20-42` and `internal/repositories/user_attributes.go:20-42`, and so are the two `GetByUserID` queries.

## Left out
- Goroutines, the mutex and the ticker of the logging worker. Each method is one atomic step, and the `select` loop is one nondeterministic step per turn, so `Start` (which only spawns the loop) is not modelled.
- Timing: the flush interval, `defaultTimeout` and the latency measurement. Latency is an input of the interceptor.
- The unlocked `len` test in `flush` races with `Inject`. A concurrent flush could also pass `CreateMany` an empty batch. The model runs the test and the swap as one step.
- LoggingWorkers.LoggingWorker.EndFlush: with several flushes in flight (`Stop` racing the worker), only multiset conservation is kept, not injection order.
- LoggingWorkers.LoggingWorker.Inject: the blocking send and the send on a closed channel are excluded by precondition. The model does not capture blocking, deadlock or a panic.
- The closed-channel busy loop of the worker after `Stop` is allowed by `WorkerStep` but not analysed.
- LoggingWorkers.LoggingWorker.LogAndSend: a nil client, which makes `Send` panic, is excluded by precondition.
- GrpcLogger.Intercept: `path.Dir`/`path.Base` are modelled only on clean "/service/method" names, which are the names gRPC produces. Other shapes of `FullMethod` are excluded by precondition.
- The options merge of `UnaryServerInterceptor` (`mergo.Merge` with override; `libs/middlewares/logger/logger.go:117-122`) is a foreign library. The interceptor takes the merged options.
- `StreamServerInterceptor` (`libs/middlewares/logger/logger.go:194-236`) is not part of this model.
- These foreign or library results are parameters or observed values:
  - `status.Code`, `status.FromError` and the status details;
  - `errors.Unwrap`;
  - `ctx.Err()`;
  - JSON encoding;
  - correlation-id and UUID generation;
  - `timestamppb` conversions.
- The gorm transaction, the database, and the generic stores and repositories behind `GetByCriterias` and `GetManyByCriterias` are not modelled. What the generic store does with a zero limit is not modelled either.
- `CountByUserName` and `GetManyByUserName` of `internal/repositories/user_attributes.go` are database query builders over the generic repository, and are left out.
- Connection lifecycle (`Start`, `Stop`, `Check`, `DB`, pool settings) and the MySQL `DSN`, which delegates to the driver's `FormatDSN`, are left out.
- `BaseTransformer` copies by reflection (`copier`), and is left out.
- Servers, controllers, wiring, configuration loading, processors, consumers and fake clients are left out.
- Transformer.FromEntityArrayP2I: a nil element with a nil-tolerant transformer, which panics in Go on the dereference, is excluded by the `DerefSafe` precondition. So are the instance-output variants' other nil results.
- Panics inside handlers, and gorm's rollback on them, are not modelled.
- Users.CreateUserImpl: a store that returns a nil user with a nil error, for a call with attributes, makes `createUserImpl` dereference nil and panic (`internal/usecases/users.go:47-50`). The model excludes that answer by the `CreatedUserPresent` precondition.
- Users.GetUserByUsername: a user store that returns a nil user with a nil error makes the use case dereference nil and panic (`internal/usecases/users.go:97-102`). The model excludes that answer by the `FoundUserPresent` precondition.
- LoggingWorkers.LoggingWorker.Stop: a second `Stop` closes a closed channel and panics (`internal/usecases/logging_worker.go:94`), so the model requires `!closed`. The final flush is one atomic step. After a failed stop-flush the model restores the old buffer, whereas the source keeps the failed batch followed by whatever was injected during `CreateMany` (`internal/usecases/logging_worker.go:56-61`, `:96`).
- LoggingWorkers.LoggingWorker.constructor: a negative `BufferCapacity` makes `make` panic (`internal/usecases/logging_worker.go:39`). The model requires a capacity of at least zero.
- Pointer aliasing of the optional e-mail is not modelled. The protobuf transformers (`internal/controllers/transformers/user.go:16-48`) and the row transformers (`internal/stores/user.go:24-58`) copy the `Email` pointer, so the input and the output share one string in Go. The model copies the value, which is the same while nothing writes through either pointer.
