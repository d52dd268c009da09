# go-start-template core, modelled in Dafny

This project models the reusable core of the `go-start-template` Go service
template and proves properties of it:

- **`errx`**, the structured error package (`pkg/errx`). An `ErrorX` carries
  a message, a string code, an `int8` type, a details map, an identity
  (`origin`) and a call trace. The model covers:
  - the copy constructors `WithDetail` and `WithCode`;
  - identity-by-origin `errors.Is`;
  - the total classifiers `GetCode` and `GetType`, and the `ReplaceWith*`
    rewriters;
  - the converters from Postgres errors and gRPC status errors;
  - `Wrap`, with its in-place trace builder and `pathSplit`;
  - `errto`, which turns errors into HTTP statuses and gRPC status errors.
- **`apperr`**, the older application error (`pkg/apperr`): string types,
  integer codes, origin identity, the HTTP and gRPC code tables, and the
  field order of its JSON form.
- **`ds.Set`**, a map-backed set that is mutated in place (`pkg/ds`).
- **`pskafka`**, the Kafka subscriber:
  - topic registration and global interceptors on a `Consumer` object;
  - how `chainInterceptors` composes interceptors around a handler (the
    "onion");
  - the per-topic fetch-and-handle loop, and `Close`;
  - the checks of `SubscriberConfig.validate`, and the choice of SASL
    mechanism.
- **`config`**, the configuration loader:
  - application-mode normalisation and the mode-file table;
  - which read errors are tolerated for `.env`, `base.yaml` and the mode
    file;
  - the failed-key list of `Config.validate`, with the tag naming rules of
    `getTagName`, and the HTTP handler's `getNameByPriority`.

## Form of the model

- Where Go mutates in place, the model uses a class:
  - `ErrorX`, `AppError` and the details maps they share (a `DetailMap` or
    `ValueMap` object that copies alias);
  - `ds.Set`, and the Kafka `Consumer`.
- `Set.Contains` is a predicate over the set's `elems` field. The contracts
  of `NewSet`, `Add` and `Remove` state their effects through it.
- The Go `error` values the packages inspect form a datatype, with `Nil`
  for a nil error. Its cases are:
  - a reference to an `ErrorX`;
  - a plain `errors.New` value (an `Origin` object, compared by identity);
  - the no-rows sentinel;
  - a Postgres error;
  - a gRPC status;
  - an `fmt.Errorf("...%w")` wrapper.
- Dafny has no package-level variables. The six default errors of
  `defaults.go` are therefore a `Defaults` object passed to every
  operation that uses them. `Defaults.Valid()` pins their types, messages
  and codes, states that they have no details, and states that their
  origins are pairwise distinct.
- Loops in the source are methods with loops and invariants, proved
  against a specification function:
  - `NewSet`, `handleInvalidArgument`, `fromProto` and `fromGRPC`'s detail
    scan;
  - `pathSplit`;
  - the two loops of `chainInterceptors`, and the consume loop;
  - the failed-key loops of both `validate` functions.
- Everything else is functions and lemmas.
- Interceptors and handlers are values with a fixed repertoire of
  behaviours. An interceptor either passes through, short-circuits with a
  result, or calls next and then fails. A handler is a table of the
  messages it rejects. `Run` gives the call trace and the returned error of
  a composed chain.
- Environment-dependent inputs are parameters:
  - the working directory;
  - the outcome of reading each file;
  - the validator library's verdict on the struct;
  - the caller frame `runtime.Caller` reports;
  - the sequence of fetch outcomes the Kafka reader delivers.

## Model

| member | source | states |
|---|---|---|
| Errx.ErrorX.New | pkg/errx/errx.go:35-42 | the new error has the given message, code and type, no details, an empty trace and a fresh origin shared with no other error |
| Errx.ErrorX.WithDetail | pkg/errx/errx.go:100-107 | the result is a new object with the receiver's message, code, type, origin and trace, and with `Details[k] = v`. A receiver without details keeps none. A receiver with a details map shares it with the copy and gains the key too |
| Errx.ErrorX.WithCode | pkg/errx/errx.go:110-114 | the result is a new object that differs from the receiver only in its code (same origin, same details map) |
| Errx.Message | pkg/errx/errx.go:70-72 | `Error()` of an ErrorX is exactly its message. A Postgres error's text carries its message after the "severity: " prefix, in pgconn's "<severity>: <message> (SQLSTATE <code>)" form. A status error's text ends with the status message, in grpc's "rpc error: code = <code> desc = <message>" form |
| Errx.IsBasics | pkg/errx/errx.go:118-124 | every error Is itself; Is a nil target exactly when nil; nil Is only a nil target |
| Errx.IsByOrigin | pkg/errx/errx.go:118-124 | an ErrorX, even inside any number of `%w` wrappers, Is another ErrorX exactly when they share an origin. Every `WithDetail`/`WithCode` copy therefore Is its source, and two separately created errors with equal fields are not |
| Errx.GetCode | pkg/errx/errx.go:129-135 | the code of a direct ErrorX; "INTERNAL" for anything else, an error that merely wraps an ErrorX included |
| Errx.GetType | pkg/errx/errx.go:140-146 | the type of a direct ErrorX; Internal for anything else |
| Errx.ReplaceWith | pkg/errx/replace.go:15-20 | newErr exactly when err Is targetErr; otherwise the very same err |
| Errx.ReplaceWithCopies | pkg/errx/replace.go:15-20 | a wrapped copy of the target (same origin) is replaced; an ErrorX of another origin is returned unchanged |
| Errx.ReplaceWithCode | pkg/errx/replace.go:25-30 | an ErrorX is replaced exactly when its code is targetCode; a non-ErrorX error is replaced exactly when targetCode is "INTERNAL" |
| Errx.ReplaceWithType | pkg/errx/replace.go:35-40 | an ErrorX is replaced exactly when its type is targetType; a non-ErrorX error is replaced exactly when targetType is Internal |
| Errx.Defaults.constructor | pkg/errx/defaults.go:13-21 | six fresh default errors with the documented types, messages and codes, no details, empty traces and distinct origins |
| Errx.Defaults.ForTypeShape | pkg/errx/defaults.go:15-20 | the default chosen for each known type carries that type; any other type selects ErrInternal; distinct types give defaults of distinct origins |
| ErrxConverters.ClassifyPg | pkg/errx/converters.go:14-27 | a conflict exactly when the first Postgres error along the chain has code 23505 or 21000; otherwise not-found when the error Is the no-rows sentinel; otherwise untouched |
| ErrxConverters.FromPG | pkg/errx/converters.go:14-28 | a conflict gives a fresh copy of ErrConflict whose only detail is "constraint" = the constraint name; no-rows gives ErrNotFound itself (the shared object); any other error is returned unchanged |
| ErrxConverters.Int8 | pkg/errx/converters.go:80 | `Type(int32)` keeps values in -128..127 and otherwise wraps modulo 256 |
| ErrxConverters.FromProto | pkg/errx/converters.go:78-88 | a fresh error with a fresh origin (so it is not Is any default), the proto's message and code, its type truncated to int8, and exactly the proto's details |
| ErrxConverters.FirstProto | pkg/errx/converters.go:36-40 | the detail found is an ErrorX detail of the status and no earlier detail is one, so it is the first; none is found only when no detail is one |
| ErrxConverters.OverlayKeys | pkg/errx/converters.go:68-74 | after the violations are written, the keys are the initial ones plus every violated field |
| ErrxConverters.OverlayUntouched | pkg/errx/converters.go:70-72 | a key that no violation names keeps its initial value |
| ErrxConverters.OverlayLastWins | pkg/errx/converters.go:70-72 | the last violation of a field wins, also over the "error" entry |
| ErrxConverters.HandleInvalidArgument | pkg/errx/converters.go:66-76 | a copy of ErrValidation whose details are "error" = message, overwritten in order by every field violation of every BadRequest detail |
| ErrxConverters.TypeForGrpcCode | pkg/errx/converters.go:48-63 | AlreadyExists, NotFound, PermissionDenied, Unauthenticated and InvalidArgument map to Conflict, NotFound, Forbidden, Authentication and Validation; any other code maps to Internal. Its contract states only that the result is a known type; the table itself is tied to `gRPCStatusCode` by `Errto.GrpcTypeRoundTrip` and `Errto.GrpcCodeRoundTrip` |
| ErrxConverters.FromGRPCCode | pkg/errx/converters.go:45-64 | a fresh copy of the default of the code's type (ErrInternal for unlisted codes) carrying "error" = status message, with the violations added for InvalidArgument |
| ErrxConverters.FromGRPC | pkg/errx/converters.go:30-43 | a non-status error is returned unchanged; a status with an ErrorX detail decodes the first such detail; any other status goes through `fromGRPCCode` |
| ErrxWrap.LastSep | pkg/errx/wrap.go:59-63 | the last '/' at an index of 1 or more, with no '/' after it; 0 when there is none past index 0 |
| ErrxWrap.PathSplit | pkg/errx/wrap.go:58-65 | splits at that '/': then the file part has no '/' and dir + "/" + file == path; without one the result is ("", path), e.g. for "/a.go" |
| ErrxWrap.FileOf | pkg/errx/wrap.go:46 | the file part is a suffix of the path with no '/' past its first character |
| ErrxWrap.CallerInfo | pkg/errx/wrap.go:46-48 | the text starts with the file part followed by a colon, so it is never empty; the full layout is stated by `ErrxWrap.CallerInfoFormat` |
| ErrxWrap.CallerInfoFormat | pkg/errx/wrap.go:46-48 | the caller info is, in order and with nothing else: the file part of the path, ':', the line in decimal, '|', the function name |
| Fmt.Decimal | pkg/errx/wrap.go:48 | `%d` of a line number: a non-empty string of decimal digits without a leading zero (except "0" itself) |
| Fmt.DecimalRoundTrip | pkg/errx/wrap.go:48 | reading the digits back gives the number |
| ErrxWrap.TraceJoins | pkg/errx/wrap.go:50-54 | after n trace appends with non-empty caller infos, the trace is those infos joined by " ➡️ " in call order |
| ErrxWrap.AddTrace | pkg/errx/wrap.go:33-55 | the receiver's trace, changed in place, becomes the caller info when it was empty and otherwise old trace + separator + caller info. Nothing else about the error changes |
| ErrxWrap.Convert | pkg/errx/wrap.go:18-24 | no-rows becomes ErrNotFound itself and an ErrorX stays itself. A status with an ErrorX detail becomes a fresh error decoded from the first such detail, with a fresh origin and an empty trace. Every other error becomes a fresh copy, trace included, of the default `PlanFor` picks: ErrConflict with "constraint" for a Postgres conflict, the default of the code's type with the status details for a status, and otherwise ErrInternal with "error" = its message |
| ErrxWrap.Wrap | pkg/errx/wrap.go:13-28 | nil stays nil; everything else becomes an ErrorX. An ErrorX keeps its identity, message, code, type and details. No-rows returns ErrNotFound itself and extends that shared default's trace. A status with an ErrorX detail is decoded into a fresh error whose trace is just the caller. Every other error becomes a fresh error with the origin, message, code and type of the default `PlanFor` picks (ErrConflict, the status code's default, or ErrInternal) and that plan's details. Its trace is the default's trace with the caller appended. The caller is appended in every non-nil case and the defaults stay valid. ErrNotFound is left untouched unless the error is no-rows or ErrNotFound itself |
| Errto.HttpStatusForType | pkg/errx/errto/http.go:47-63 | the status of each type is one of 400, 401, 403, 404, 409 or 500; unknown types give 500 |
| Errto.HttpStatusDistinguishesTypes | pkg/errx/errto/http.go:47-63 | distinct known types get distinct statuses; among known types only Internal gets 500 |
| Errto.HttpStatusCode | pkg/errx/errto/http.go:42-64 | 200 exactly for nil; the type's status for an ErrorX; 500 for any other error |
| Errto.HTTP | pkg/errx/errto/http.go:14-26 | nothing is written for nil. An ErrorX is written with its type's status and its trace untouched. Other errors are wrapped first: no-rows gives 404 with ErrNotFound, a conflict gives 409, a status without an ErrorX detail gives its code's type's status, and any other error gives 500 with a copy of ErrInternal. ErrNotFound is left untouched unless the error is no-rows |
| Errto.GrpcStatusCodeForType | pkg/errx/errto/grpc.go:45-63 | unknown types give Internal; the six known types are tied to their codes by the two round-trip lemmas below |
| Errto.GrpcTypeRoundTrip | pkg/errx/errto/grpc.go:45-63 | for each of the six types, `fromGRPCCode`'s type for `gRPCStatusCode(t)` is t |
| Errto.GrpcCodeRoundTrip | pkg/errx/errto/grpc.go:45-63 | the six codes in the tables survive code → type → code; every code `fromGRPCCode` does not list reads as Internal |
| Errto.GrpcStatusCode | pkg/errx/errto/grpc.go:45-63 | the type's code for an ErrorX; Internal for any other error |
| Errto.ToStatus | pkg/errx/errto/grpc.go:27-43 | for an ErrorX: the status message is its message, and there is exactly one detail carrying message, code, type and details. Any other error gives an Internal status with its message |
| Errto.GRPC | pkg/errx/errto/grpc.go:14-25 | nil stays nil. An ErrorX gives its own status, untouched. Any other error is wrapped first, so the status always carries an ErrorX detail. No-rows gives ErrNotFound's status, and an unknown error gives an Internal status carrying its message. ErrNotFound is left untouched unless the error is no-rows |
| Errto.StatusRoundTrip | pkg/errx/errto/grpc.go:29-36 | decoding `toStatus(e)` with `fromGRPC` reproduces e's message, code, type and details, and the result Is none of the defaults |
| AppErr.AppError.New | pkg/apperr/apperr.go:36-44 | message, code and type as given, no details, and a fresh origin made from the message |
| AppErr.AppError.WithDetail | pkg/apperr/apperr.go:90-98 | a new copy with the same origin, message, code and type. A detail-free receiver stays untouched and the copy has exactly the one detail. A receiver with details shares its map with the copy |
| AppErr.Message | pkg/apperr/apperr.go:74-76 | `Error()` of an AppError is its message |
| AppErr.IsBasics | pkg/apperr/apperr.go:101-107 | every error Is itself; Is a nil target exactly when nil; nil Is only a nil target |
| AppErr.IsByOrigin | pkg/apperr/apperr.go:101-107 | a wrapped AppError Is another exactly when they share an origin, so a detailed copy Is its original. It is never Is a plain error, even one made from the same message |
| AppErr.HTTPCodeForType | pkg/apperr/apperr.go:110-128 | the status is one of 400, 401, 403, 404, 409 or 500, and 500 exactly for INTERNAL and unknown strings; that the types get distinct statuses is `AppErr.TypesDistinguished` |
| AppErr.GRPCCodeForType | pkg/apperr/apperr.go:131-149 | the code is one of 3, 5, 6, 7, 13 or 16, and 13 exactly for INTERNAL and unknown strings; that the types get distinct codes is `AppErr.TypesDistinguished` |
| AppErr.HTTPCode | pkg/apperr/apperr.go:110-128 | the type's status for a direct AppError; 500 for anything else, a wrapped AppError included |
| AppErr.GRPCCode | pkg/apperr/apperr.go:131-149 | the type's code for a direct AppError; 13 for anything else |
| AppErr.TypesDistinguished | pkg/apperr/apperr.go:110-149 | two of the six types share an HTTP status only when they are the same type, and likewise a gRPC code |
| AppErr.CodesAgree | pkg/apperr/apperr.go:110-149 | an error gets 500 exactly when it gets 13; two types share an HTTP status exactly when they share a gRPC code |
| AppErr.ToJSON | pkg/apperr/apperr.go:48-71 | members in the order message, code, type; details follow exactly when non-empty; the origin is never serialised |
| AppErr.JSONRoundTrip | pkg/apperr/apperr.go:55-70 | reading the JSON form back gives the message, code, type and details (empty when omitted) |
| DsSet.Set.Empty | pkg/ds/set.go:9 | the new set is empty |
| DsSet.Set.NewSet | pkg/ds/set.go:8-14 | the set holds exactly the given items, duplicates collapsed |
| DsSet.Set.Add | pkg/ds/set.go:16-18 | afterwards the value is contained. Adding a present value changes nothing, and no other element's membership changes |
| DsSet.Set.Remove | pkg/ds/set.go:20-22 | afterwards the value is not contained. Removing an absent value changes nothing, and no other element's membership changes |
| Kafka.Consumer.constructor | pkg/pskafka/consumer.go:18-24 | stores the brokers and group ID, with no subscribers, no interceptors and an open shutdown signal |
| Kafka.Consumer.Subscribe | pkg/pskafka/consumer.go:44-51 | appends one registration with the topic, the handler and no local interceptors; nothing else changes |
| Kafka.Consumer.SubscribeWithInterceptors | pkg/pskafka/consumer.go:53-61 | appends one registration with the given local interceptors; earlier registrations are kept in order |
| Kafka.Consumer.Use | pkg/pskafka/consumer.go:63-65 | appends the interceptors after the existing globals, in argument order |
| Kafka.Consumer.ChainInterceptors | pkg/pskafka/consumer.go:67-90 | the chain is the globals, then the locals, wrapped around the handler with index 0 outermost; with no interceptors it is the handler itself |
| Kafka.WrapAllAppend | pkg/pskafka/consumer.go:67-90 | wrapping with globals + locals is wrapping the globals around the locals' chain |
| Kafka.OnionOrder | pkg/pskafka/consumer.go:67-90 | when every interceptor calls next, the entries run in order, then the handler, then the exits in exactly reverse order; the returned error is the handler's |
| Kafka.GlobalsOutsideLocals | pkg/pskafka/consumer.go:67-90 | global interceptors run outside local ones: entries G0..Gn, then L0..Lm, then the handler; exits are the exact reverse |
| Kafka.TwoGlobalsTwoLocals | pkg/pskafka/consumer_test.go:54-73 | two globals and two locals log G0, G1, L0, L1, the handler, then L1, L0, G1, G0 |
| Kafka.ShortCircuitStopsInner | pkg/pskafka/consumer.go:70-76 | an interceptor that never calls next stops the handler and every interceptor inside it from running |
| Kafka.ShortCircuitTrace | pkg/pskafka/consumer.go:70-76 | when interceptor j is the first that does not call next, the log is the entries of interceptors 0..j in order and then their exits in reverse order |
| Kafka.RunErrorIsDecider | pkg/pskafka/consumer.go:70-76 | the chain returns what the outermost interceptor that does not just pass the error on returns; the handler's error when all pass through |
| Kafka.Loop | pkg/pskafka/consumer.go:111-130 | the loop never handles more messages than were fetched; which ones and why it stops are `Kafka.LoopHandlesPrefixInOrder`, `Kafka.LoopStopsAtFirstFailure` and `Kafka.LoopStopReason` |
| Kafka.LoopHandlesPrefixInOrder | pkg/pskafka/consumer.go:111-130 | the handled messages are exactly the first fetches, in fetch order, none skipped or repeated |
| Kafka.LoopStopsAtFirstFailure | pkg/pskafka/consumer.go:120-128 | every handled message before the last one succeeded. The loop stops on a handler error exactly when the last handled message failed, and records that message and its error. There is no retry |
| Kafka.LoopStopReason | pkg/pskafka/consumer.go:111-130 | every fetch before the stop was a message; a handler failure stops on a handled message; otherwise the loop is blocked exactly when every fetch was handled, and else the first unhandled fetch gives the reason: a closed shutdown signal, a cancelled context, or a fetch error with its text |
| Kafka.Consumer.ConsumeLoop | pkg/pskafka/consumer.go:98-131 | a consumer whose shutdown signal is already closed stops by shutdown before fetching anything. Otherwise the loop, which rebuilds the chain for each message, behaves as `Loop` on the composed chain |
| Kafka.Consumer.Close | pkg/pskafka/consumer.go:167-169 | closes the shutdown signal; it reports a panic exactly when the signal was already closed |
| KafkaConfig.TagFailuresTopLevel | pkg/pskafka/configs.go:27-34 | Brokers fails exactly when the host:port rule rejects the list. SecurityProtocol fails exactly when it is not one of the three protocols. GroupID fails exactly when it is empty |
| KafkaConfig.NestedFailuresOwnFields | pkg/pskafka/configs.go:74-91 | a nested configuration fails only on its own fields (Username, Password, Algorithm), never on a top-level one |
| KafkaConfig.FieldNames | pkg/pskafka/configs.go:53-55 | one name per failed field, in order: the name `err.Field()` gives it |
| KafkaConfig.Validate | pkg/pskafka/configs.go:47-71 | tag failures are reported first, listing the name of every failed field in order. Otherwise a SASL protocol without its nested configuration is rejected. The configuration is valid exactly when neither applies |
| KafkaConfig.PlainMechanism | pkg/pskafka/configs.go:79-84 | never fails; carries the credentials verbatim |
| KafkaConfig.ScramMechanism | pkg/pskafka/configs.go:93-102 | succeeds exactly for SHA-256 and SHA-512, each selecting its own hash with the credentials; anything else is an "unsupported algorithm" error |
| KafkaConfig.NoTagFailuresScramAccepted | pkg/pskafka/configs.go:88 | a SCRAM configuration that passed the tag rules is always accepted by `mechanism` |
| KafkaConfig.ScramRejectsSha1 | pkg/pskafka/configs.go:99-100 | an algorithm such as SHA-1 is rejected |
| Tags.BeforeComma | internal/config/validate.go:35 | the part of a tag before its first comma: a comma-free prefix, followed by a comma or by the end |
| Tags.BeforeCommaUnique | internal/config/validate.go:35 | that prefix is the only one with those properties |
| Tags.GetTagName | internal/config/validate.go:34-46 | a non-empty env name wins. The name is always the env name, the yaml tag or the field name, and it is empty only when all three are |
| Tags.GetTagNameKeepsYamlOptions | internal/config/validate.go:37-39 | the yaml tag is used whole, options included |
| Tags.GetNameByPriority | internal/handler/http/validators.go:17-29 | never contains a comma; a non-empty json name wins |
| Tags.NameByPriorityIsFirstOfThree | internal/handler/http/validators.go:17-29 | the name is the first non-empty of the json, form and env names; the second form lookup never changes the result |
| Tags.NameByPriorityEmpty | internal/handler/http/validators.go:26-28 | without json, form and env tags the name is empty |
| Tags.NameByPriorityStripsOptions | internal/handler/http/validators.go:18 | `json:"name,omitempty"` gives "name" |
| Config.NormalizeMode | internal/config/load.go:35-37 | always one of the four modes; an available mode is kept and anything else becomes PRODUCTION |
| Config.NormalizeModeIdempotent | internal/config/load.go:35-37 | normalising twice is normalising once |
| Config.Normalized | internal/config/load.go:35-37 | the configuration's app mode becomes its normalisation; no other key appears or disappears |
| Config.AvailableModesSet | internal/config/const.go:15 | a fresh set holding exactly the four modes |
| Config.ModeFile | internal/config/const.go:22-26 | LOCAL, STAGE and PRODUCTION read local.yaml, stage.yaml and prod.yaml; TEST reads no mode file |
| Config.IsEOFErrSuffix | internal/config/load.go:56-58 | a message is an EOF error exactly when it is some prefix followed by "EOF" |
| Config.IsEOFErrExamples | internal/config/load.go:56-58 | messages ending in "EOF" are EOF errors; others are not |
| Config.FailedKeys | internal/config/validate.go:21-26 | one key per failed field |
| Config.FailedKeysNames | internal/config/validate.go:23-25 | the key at each position is the tag name of the field that failed at that position |
| Config.FailedKeysAppend | internal/config/validate.go:23-25 | appending a field error appends its tag name |
| Config.Validate | internal/config/validate.go:16-32 | an error exactly when the validator reported field errors, carrying their tag names in order; any other validator error is ignored |
| Config.ConfigPathInjective | internal/config/load.go:21 | distinct file names under the config directory are distinct paths |
| Config.EnvPathNotConfigPath | internal/config/load.go:21-26 | .env's path differs from every path under the config directory |
| Config.LoadSpec | internal/config/load.go:13-54 | a working-directory error is reported exactly when os.Getwd fails; a read failure names .env, base.yaml or one of the three mode files; a validation failure lists at least one key; a loaded configuration always has an app mode |
| Config.Load | internal/config/load.go:13-54 | reads .env, then base.yaml, then the normalised mode's file, then validates, exactly as `LoadSpec` states |
| Config.LoadOkIsValid | internal/config/load.go:48-53 | a loaded configuration never has failed keys |
| Config.LoadEnvTolerance | internal/config/load.go:24-27 | a missing .env acts as an empty one; any other .env read failure aborts the load |
| Config.LoadBaseTolerance | internal/config/load.go:29-33 | a base.yaml read failure ending in EOF acts as an empty file; any other failure aborts the load |
| Config.LoadModeTolerance | internal/config/load.go:39-46 | once .env and base.yaml are read, a mode-file read failure ending in EOF acts as an empty file, any other failure aborts the load naming that file, and TEST goes straight to validation |
| Config.LoadPrecedence | internal/config/load.go:24-46 | later files win: the mode file's keys have its values, base.yaml's other keys have its values, .env's remaining keys have its values, and no other key appears; the app mode, unless the mode file sets it, is the normalised mode of .env and base.yaml |
| Config.LoadModeIgnoresBase | internal/config/load.go:39-46 | the mode-file stage never reads base.yaml, whatever the mode |
| Config.LoadTestReadsNoModeFile | internal/config/load.go:39-46 | in TEST mode no other file is consulted |

## Left out

- Logging (`log.Printf`, `fmt.Println`) and the Kafka reader and dialer are not modelled. Messages arrive as a sequence of fetch outcomes.
- `Consumer.Consume` is not modelled. It starts one goroutine per subscription, waits on OS signals and joins a `WaitGroup`, which is concurrency and I/O. Its hard-coded SASL credentials are left out with it.
- `Close`'s panic on a second close is reported as a boolean result, not raised.
- Kafka.Consumer.ConsumeLoop: a `Close` by another goroutine while the loop runs is not a change of the consumer's field; it appears as a `ShutdownClosed` fetch. When the signal is closed and the context is done at once, Go's `select` picks either case at random; the model picks the shutdown.
- `addTrace` panics when `runtime.Caller` or `FuncForPC` fail. These paths are not modelled: the caller frame is a parameter.
- `errto.HTTP` returns the status and the ErrorX whose JSON is the body. The JSON text, the Content-Type header and `writeBody`'s marshal-failure fallback are not modelled, because `json.Marshal` of an ErrorX cannot fail.
- `toStatus`'s fallback when `WithDetails` fails (a proto marshalling error) is not modelled. The non-ErrorX branch is modelled.
- ErrxConverters.FromGRPC: `status.FromError` is modelled on a direct status error only. A status inside `%w` wrappers is treated as a non-status error.
- Postgres errors and wrappers are compared by value in `errors.Is`, not by reference identity. The no-rows sentinel is a single value.
- The validator library is not modelled. The `hostname_port` rule is a parameter (`BrokersRule`). `Config.validate` takes the validator's verdict as an input (`StructCheck`). Its error texts (`errors.Wrapf`, `fmt.Errorf`) are reduced to the list of failed keys or fields.
- `cleanenv` parsing and its environment-variable overrides are not modelled. Each file read is an outcome carrying the settings it applies. The configuration struct is a string map with `APP_MODE` as the only named key.
- `os.Getwd` is a parameter.
- KafkaConfig.ScramMechanism: failures inside `scram.Mechanism` itself (credential preparation) are not modelled.
- AppErr.AppError.WithDetail: detail values (`any`) are limited to strings, integers and booleans.
- The `Trace()` getter is the `trace` field; `ErrorX`'s own JSON form is not part of this model.
- Tags.GetNameByPriority: its own contract states only comma-freeness and json priority. The full priority order is stated by `Tags.NameByPriorityIsFirstOfThree`.
