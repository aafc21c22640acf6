# go-tasks-api: error handling, validation and task handlers in Dafny

This project models the core of go-tasks-api, a small REST API for tasks written in Go on the Fiber framework. It models the following:

- **Errors** (`errors.dfy`): the `AppError` type and its constructors `New` and `Wrap`, its `Error()` text, and `WithDetails`.
  - `WithDetails` replaces the details in place and returns the receiver itself.
  - The seven package-level errors are shared by every request. They are the `Catalog` class, with one object per error.
  - `IsAppError` is a type test on a Go error value.
- **Request and response shapes** (`dto.dfy`):
  - The `validate` tags of `CreateTaskRequest` and `UpdateTaskRequest`, written as an explicit rule table.
  - The response records, with the keys `encoding/json` writes given the `omitempty` tags.
- **Validation** (`validator.dfy`):
  - A rule engine gives the behaviour the adapter relies on from the go-playground validator. Fields are checked in declaration order, and each field reports only its first failing rule.
  - `ValidateStruct` loops over the reported violations to build the details map. Each key is the lower-cased Go field name. It then installs the map on the shared `ErrValidationFailed` object.
  - `getValidationMessage` has one message per tag.
- **Error middleware** (`middleware.dfy`): `ErrorHandler`, as the decision it takes on the error a handler returned. An `AppError` becomes its own status and body. A Fiber error becomes "HTTP Error". Anything else becomes an opaque 500.
- **Handlers** (`handlers.dfy`): `GetTasks`, `GetTaskByID`, `CreateTask`, `DeleteTask`, `GetTask` and `UpdateTask`.
  - `GetTasks` checks nothing and touches no shared error, so it is a single function returning the mock list.
  - Each of the other five has a function `...Outcome` that states the reply, or the shared error and the details installed on it.
  - Next to it is a method that runs the same checks against the `Catalog` objects, as the Go code does. The method is proved to realise its outcome.
  - `GetTaskByID`, `DeleteTask`, `GetTask` and `UpdateTask` call `WithDetails` directly. `CreateTask` and `UpdateTask` reach it through `ValidateStruct`.
- **Configuration** (`config.dfy`):
  - `Load` builds the configuration field by field from an explicit environment map, and fails in production without its secrets.
  - Also modelled: `getEnvWithDefault`, `parseBool`, `parseDuration`, `IsDevelopment` and `IsProduction`.

Three library calls become parameters, and facts about them appear as hypotheses where a property needs them:

- `uuid.Parse` succeeding is `isUuid`.
- `time.Parse(layout, s)` succeeding is `parsesTime`.
- `time.ParseDuration` is `parseDuration`.

A parse of the request body is an input: `None` when `BodyParser` fails, otherwise the parsed request. The clock reading and the freshly generated UUID are inputs too.

Some behaviours of the code that the model keeps, though a reader of the API might not expect them:

- Requests share mutable state. Every handler except `GetTasks` can call `WithDetails` on a shared package-level error, directly or through `ValidateStruct`. `SharedDetailsOverwritten` shows a second request replacing the details the first one installed.
- Validation writes its result into the shared `ErrValidationFailed` object.
- In `GetTaskByID` and `DeleteTask`, the not-found id "non-existent" is not a UUID, so their 404 branch is unreachable (`NotFoundUnreachable`). Only `GetTask` and `UpdateTask` answer 404, for the nil UUID.
- `CreateTask` always sends `due_date`, as "" when the request had none (`CreateSuccess`, `CreateTitleOnly`).

## Model

| member | source | states |
|---|---|---|
| Errors.AppError.New | go-tasks-api/internal/errors/errors.go:24-29 | a new error carries the given code and message, with no details and no cause |
| Errors.AppError.Wrap | go-tasks-api/internal/errors/errors.go:32-38 | as New, but keeps the wrapped cause (possibly nil) |
| Errors.AppError.Error | go-tasks-api/internal/errors/errors.go:16-21 | the text starts with the message; it is the message alone exactly when there is no cause, and otherwise continues with ": " and the cause's text |
| Errors.AppError.WithDetails | go-tasks-api/internal/errors/errors.go:41-44 | returns the receiver itself, with its details replaced; code, message and cause cannot change |
| Errors.KindCode | go-tasks-api/internal/errors/errors.go:47-62 | the predefined errors answer 400 (invalid input, invalid JSON), 404 (task or resource not found), 422 (validation failed) and 500 (internal, database), each status iff one of those kinds |
| Errors.KindMessageInjective | go-tasks-api/internal/errors/errors.go:47-62 | no two predefined errors share a message |
| Errors.Catalog.constructor | go-tasks-api/internal/errors/errors.go:47-62 | package initialisation makes seven distinct fresh objects with their codes and messages, no cause and empty details |
| Errors.IsAppError | go-tasks-api/internal/errors/errors.go:65-68 | ok exactly for an AppError, and then the very same object; a nil pointer otherwise |
| Dto.TaskResponse.JsonKeys | go-tasks-api/internal/dto/task.go:25-34 | due_date is written exactly when the pointer is non-nil, even when it points to ""; every other field is always written |
| Dto.ErrorResponse.JsonKeys | go-tasks-api/internal/dto/task.go:45-50 | details is written exactly when the map has an entry |
| Validator.FirstFailure | go-tasks-api/internal/validator/validator.go:24-27 | a reported rule is one of the field's rules, not omitempty, and fails on the value; it stands at a position the checks reach, and every rule before it holds, so it is the first failing rule; nothing is reported iff every rule that runs (none after an omitempty on an empty value) holds |
| Validator.ViolationsEmpty | go-tasks-api/internal/validator/validator.go:24-27 | the library reports no violation iff no field reports a rule |
| Validator.ValidateStruct | go-tasks-api/internal/validator/validator.go:23-40 | nil iff there is no violation, leaving the shared error untouched; otherwise the shared ErrValidationFailed object itself, its details replaced by the map of the violations |
| Validator.DetailsOfViolations | go-tasks-api/internal/validator/validator.go:29-37 | the details map has exactly one entry per failing field, under its lower-cased Go name, holding the message of that field's first failing rule, and no other key |
| Validator.ValidationMessage | go-tasks-api/internal/validator/validator.go:43-57 | a parameterised tag's message is its lead-in, the parameter verbatim, and its trailer (" characters" for min and max); an unknown tag gets "This field is invalid" |
| Validator.MessageShape | go-tasks-api/internal/validator/validator.go:43-57 | "This field is invalid" iff the tag is unknown, "This field is required" iff the tag is required, and the parameter embedded verbatim between each parameterised tag's lead-in and trailer |
| Validator.MessageDeterminesRule | go-tasks-api/internal/validator/validator.go:43-57 | two known tags with the same message are the same tag, with the same parameter |
| Validator.TableKeys | go-tasks-api/internal/validator/validator.go:34 | the details keys of both request types are title, description, priority, duedate (not due_date) and completed, all distinct |
| Validator.TitleMessages | go-tasks-api/internal/validator/validator.go:45-50 | the three title messages, with the bounds 1 and 100 as the tag spells them |
| Validator.RequiredMessage | go-tasks-api/internal/validator/validator.go:45-46 | the required message exactly |
| Validator.MinOneMessage | go-tasks-api/internal/validator/validator.go:47-48 | the min=1 message exactly |
| Validator.DescriptionMessage | go-tasks-api/internal/validator/validator.go:49-50 | the description message names the bound 500 |
| Validator.PriorityMessage | go-tasks-api/internal/validator/validator.go:51-52 | the priority message lists "low medium high" |
| Validator.DueDateMessage | go-tasks-api/internal/validator/validator.go:53-54 | the due-date message names Go's RFC 3339 layout |
| Validator.OmitEmptyThen | go-tasks-api/internal/dto/task.go:11-12 | a rule behind omitempty runs only when the value is present |
| Validator.CreateReports | go-tasks-api/internal/dto/task.go:8-13 | per create field: title reports required when "" and max when over 100; description reports max only over 500 ("" passes); priority and due_date report only when non-empty and invalid |
| Validator.UpdateReports | go-tasks-api/internal/dto/task.go:16-22 | per update field: a nil pointer reports nothing; a present value is checked even when ""; completed never reports |
| Middleware.HandleError | go-tasks-api/internal/middleware/error.go:12-50 | nothing to write iff no error; the status always equals the body's code; the label names the branch taken; an AppError gives its code, message and details; a Fiber error its code and message without details; anything else 500 with the generic message and no details |
| Middleware.CauseNeverInBody | go-tasks-api/internal/middleware/error.go:22-29 | the wrapped cause of an AppError never affects the response |
| Middleware.UnknownErrorOpaque | go-tasks-api/internal/middleware/error.go:40-48 | no text of an unknown error affects the response |
| Middleware.CatalogErrorResponse | go-tasks-api/internal/middleware/error.go:22-29 | a shared error is answered with its own status (400, 404, 422 or 500) and message, and the details last installed on it |
| Middleware.ResponseNamesKind | go-tasks-api/internal/middleware/error.go:23-28 | the message of an application error response identifies the shared error |
| Handlers.GetTasks | go-tasks-api/internal/handlers/task.go:27-58 | 200 with exactly the two mock tasks "1" and "2", total 2 (the list's length), page 1, limit 10, no due dates |
| Handlers.GetTaskByID | go-tasks-api/internal/handlers/task.go:61-99 | returns the reply or the very shared error its outcome names, and leaves ErrInvalidInput's details as that outcome says |
| Handlers.CreateTask | go-tasks-api/internal/handlers/task.go:102-137 | as above for creation, with ErrValidationFailed's details |
| Handlers.DeleteTask | go-tasks-api/internal/handlers/task.go:181-210 | as above for deletion |
| Handlers.GetTask | go-tasks-api/internal/handlers/task.go:213-240 | as above for the second single-task handler |
| Handlers.UpdateTask | go-tasks-api/internal/handlers/task.go:243-308 | as above for update, with both ErrInvalidInput's and ErrValidationFailed's details |
| Handlers.EmptyIdCheckedFirst | go-tasks-api/internal/handlers/task.go:64-69 | an empty id is reported as required before the UUID test |
| Handlers.NonUuidRejected | go-tasks-api/internal/handlers/task.go:71-76 | a non-UUID id gives ErrInvalidInput with {"id": "Task ID must be a valid UUID"} in all four id handlers, before any body check |
| Handlers.NotFoundUnreachable | go-tasks-api/internal/handlers/task.go:78-81 | since "non-existent" is no UUID, GetTaskByID and DeleteTask fail only with 400 |
| Handlers.IdHandlersEcho | go-tasks-api/internal/handlers/task.go:181-210 | GetTaskByID and DeleteTask succeed iff the id is a non-empty UUID, echo it as the task id and as deleted_id, and send no due_date |
| Handlers.GetTaskIff | go-tasks-api/internal/handlers/task.go:213-240 | GetTask succeeds iff the id is a UUID other than the nil UUID, which is not found, and echoes the id |
| Handlers.CreateValidIff | go-tasks-api/internal/dto/task.go:8-13 | a create request passes validation iff title has 1..100 characters, description at most 500, priority is empty or one of low/medium/high, and due_date is empty or parses |
| Handlers.CreateRejects | go-tasks-api/internal/handlers/task.go:105-113 | an unparsable body is ErrInvalidJSON unchanged; a parsed body succeeds iff it passes validation, and otherwise fails with ErrValidationFailed |
| Handlers.CreateSuccess | go-tasks-api/internal/handlers/task.go:115-136 | a created task has status 201, the fresh id, the title and description as sent, completed false, priority "medium" when none was sent and as sent otherwise, and due_date always present |
| Handlers.CreateTitleOnly | go-tasks-api/internal/handlers/task.go:115-136 | a request with only a title gives the exact task: priority "medium", not completed, due_date "" |
| Handlers.CreateDetailsAt | go-tasks-api/internal/validator/validator.go:33-37 | one create field's entry: present iff the field reports a rule, holding that rule's message |
| Handlers.CreateDetails | go-tasks-api/internal/handlers/task.go:110-113 | a rejected creation carries a non-empty details map with one entry per broken field, under title, description, priority or duedate, holding the first broken rule's message |
| Handlers.CreateMissingTitle | go-tasks-api/internal/dto/task.go:9 | a request lacking only a title fails with exactly {"title": "This field is required"} |
| Handlers.UpdateDetailsAt | go-tasks-api/internal/validator/validator.go:33-37 | one update field's entry: present iff the field reports a rule, holding that rule's message; no key beyond the five field keys |
| Handlers.UpdateDetails | go-tasks-api/internal/handlers/task.go:260-263 | a rejected update carries a non-empty details map with one entry per broken field that was sent (a title sent as "" gets the min=1 message), never one for completed |
| Handlers.UpdateValidIff | go-tasks-api/internal/dto/task.go:16-22 | an update request passes validation iff every field it sends keeps its rule |
| Handlers.UpdateCheckOrder | go-tasks-api/internal/handlers/task.go:246-276 | update checks the UUID, the body, the rules, at least one field, then the nil UUID, stopping at the first failure; it succeeds iff all pass |
| Handlers.UpdateEmptyBody | go-tasks-api/internal/handlers/task.go:265-271 | an empty body is refused with {"update": "At least one field must be provided to update"} |
| Handlers.UpdateSuccess | go-tasks-api/internal/handlers/task.go:278-307 | the updated task has the path id, each sent field in place of the defaults "Updated Task", "Task has been updated", "high" and true, never a due_date, and keeps the update rules |
| Handlers.SharedDetailsOverwritten | go-tasks-api/internal/errors/errors.go:41-44 | any two requests in a row that fail with ErrInvalidInput return the same object, which then holds only the second request's details |
| Config.Getenv | go-tasks-api/internal/config/config.go:47 | an unset variable reads as "" |
| Config.GetEnvWithDefault | go-tasks-api/internal/config/config.go:66-71 | the result is the default or the variable's value; a set, non-empty value always wins |
| Config.SetToEmptyMeansUnset | go-tasks-api/internal/config/config.go:66-71 | a variable set to "" gives the default, as an unset one does |
| Config.ParseBoolText | go-tasks-api/internal/config/config.go:87 | the twelve spellings strconv.ParseBool accepts, six for true and six for false |
| Config.ParseBoolAccepts | go-tasks-api/internal/config/config.go:87-91 | exactly the twelve accepted spellings parse; "true" and "false" read as themselves, so the default "false" gives false |
| Config.ParseBoolEnv | go-tasks-api/internal/config/config.go:85-93 | the variable's parsed value when it is set and parses, else the default's parsed value (false when the default does not parse) |
| Config.ParseDurationEnv | go-tasks-api/internal/config/config.go:74-82 | the variable's parsed duration when it is set and parses, else the default's (0 when that does not parse) |
| Config.Load | go-tasks-api/internal/config/config.go:31-63 | the configuration built field by field is the one ConfigFrom describes |
| Config.EmptyEnvDefaults | go-tasks-api/internal/config/config.go:31-50 | an empty environment loads port 8000, host 0.0.0.0, 30-second timeouts, debug off, "Tasks API" 1.0.0, development, no secrets |
| Config.NonProductionNeverFails | go-tasks-api/internal/config/config.go:52-62 | outside production Load always succeeds with the settings; an unset ENVIRONMENT is development |
| Config.ProductionGate | go-tasks-api/internal/config/config.go:53-60 | Load fails iff in production with JWT_SECRET or DATABASE_URL empty; with JWT_SECRET empty that is the error reported, whatever DATABASE_URL holds |
| Config.LoadedProductionHasSecrets | go-tasks-api/internal/config/config.go:53-62 | a loaded production configuration has both secrets |
| Config.Config.IsDevelopment | go-tasks-api/internal/config/config.go:96-98 | a development configuration is never a production one |
| Config.Config.IsProduction | go-tasks-api/internal/config/config.go:101-103 | a production configuration is never a development one |
| Config.DevProdExclusive | go-tasks-api/internal/config/config.go:96-103 | no configuration is both development and production; any other environment string is neither |

## Left out

- The first `UpdateTask` (go-tasks-api/internal/handlers/task.go:140-178) is not modelled. It redeclares the method name, so the package does not compile as written. It also copies the description into the priority, dereferences pointers without a nil check, and has no UUID check. Only the one at line 243 is modelled.
- Route registration, the health and version endpoints and the server start-up in `cmd/api/main.go` are not part of this model.
- `uuid.Parse`, `time.Parse` and `time.ParseDuration` are parameters. Their actual grammars (UUID forms, Go's reference-time layout, duration units) are not modelled. `strconv.ParseBool` is written out as its table of accepted spellings.
- The go-playground validator library is not modelled. The rule engine assumes its documented behaviour: struct-order traversal, the first failing rule per field, `omitempty` skipping only a nil pointer or an empty string, and lengths counted in runes.
- Rules on the bool field, and non-omitempty rules on pointers, occur in neither rule table. Their meaning in the engine (a nil pointer fails) is never exercised.
- `c.BodyParser`: JSON decoding is an input. Malformed JSON is `None`. Unknown keys and type mismatches are not modelled.
- `Validator.Lower`: `strings.ToLower` is modelled for ASCII only, which covers every field name. Invalid UTF-8 is not modelled.
- Requests are modelled one at a time. The data race on the shared error objects, between concurrent requests that call `WithDetails`, is not modelled.
- Logging (`log.Printf` in the middleware) and writing the response through `fiber.Ctx` are not modelled. A handler's reply is its status and body.
- Timestamps: each request reads the clock once (`now`), so successive `time.Now()` calls inside one handler coincide. `uuid.New()` is the input `freshId`.
- `Errors.IsAppError` is a direct type assertion, as in the source. An `AppError` wrapped by another error is not recognised: it falls to the 500 branch of the middleware. A typed nil `*AppError` is not modelled.
- The fields Code, Message and Err of an AppError are `const`, because no code in this core assigns them after construction. Go itself would allow such an assignment.
- The width of Go's `int` and of `time.Duration` (int64 nanoseconds) is not modelled: integers are unbounded.
