# Netflix-clone backend: connection wrapper, validators, duplicate filter and error handling in Dafny

This project models the parts of the backend that have behaviour to state:

- **`SafeMongooseConnection`** (src/lib/safe-mongoose-connection.ts). It wraps the process-wide Mongoose connection and retries the first connection until it succeeds, without crashing the server. Module `SafeMongoose` gives its transition on each input as the function `Next`: `connect`, `close`, the driver events `connected`, `reconnected`, `error` and `disconnected`, and a retry timer firing. The class `SafeMongooseConnection` has the source's four mutable fields. Its methods update them step by step, and each method is proved equal to `Next`. The class also records two things from the environment: the runtime's pending timers and the trace of effects. Effects are callbacks invoked, driver calls made, and timers set or cleared. Module `SafeMongooseProperties` proves what `Next` and its iteration `Run` imply over any sequence of inputs.
- **Input validators** (src/utils/auth-utils.ts: `validateEmail`, `validateSignupInput`, `validateLoginInput`), in module `AuthUtils`. The email regular expression `/^[^\s@]+@[^\s@]+\.[^\s@]+$/` is given two readings. `MatchesEmailRegex` is its literal reading. `IsEmail` is a seven-state character automaton. The lemma `EmailScanCorrect` proves the two accept the same strings.
- **Duplicate-request filter** (src/middleware/prevent-duplicate.middleware.ts), as the class `PreventDuplicate.DuplicateFilter`. It holds the `pendingRequests` set and the registered `finish` handlers. The application does not mount this middleware (src/app.ts:27-33).
- **Error classes** (src/errors/*.ts), in module `Errors`, and the **error-handling middleware** (src/middleware/error-handler.ts, mounted at src/app.ts:36), in module `ErrorHandling`. The handler returns `Delegate` (hand the error to `next`) or `Respond(logged, status, body)`. The unmounted copy in src/middleware/error-handler.middleware.ts is module `ErrorHandlingMiddleware`. It is proved to give the same outcome as the mounted handler on every input.

The code differs from a retry manager with a single cancellable timer in four ways, and the model follows the code:

- **Rescheduling does not cancel.** A second `disconnected` before the first connection does not cancel the earlier timer. It sets a new one and overwrites the stored handle. Both timers stay pending (`TwoRapidDisconnects`).
- **A timer clears the stored handle, not its own.** The `clearTimeout` inside the timer body reads the field. So when an older timer fires, it clears the newer timer (`TimerFiringClearsLatest`).
- **Close clears only the stored timer.** `close` never resets the handle. An older timer that is still pending can start a connection attempt after `close` (`AttemptAfterClose`).
- **No retry after close or first connection.** Once `close` has run, or the first `connected` has arrived, `disconnected` never sets a timer again (`NoRetryAfterClose`, `NoRetryOnceConnectedOrClosed`).

## Model

| member | source | states |
|---|---|---|
| `SafeMongoose.Configure` | src/lib/safe-mongoose-connection.ts:57-60 | retry delay is the supplied one or 2000; connection options are the supplied ones or `{autoCreate: true, autoIndex: true}` |
| `SafeMongoose.Next` | src/lib/safe-mongoose-connection.ts:73-122 | the transition of `close`, `connect`, the `connected`, `reconnected` (the stored callback through `NotifyConnected`, :97, :102), `error` and `disconnected` handlers, and a firing timer: at most one timer is set, with the next handle; a timer pending afterwards was pending before or is that one; neither flag reverts |
| `SafeMongoose.Run` | src/lib/safe-mongoose-connection.ts:73-122 | inputs applied one after the other: handles only grow, and a timer pending at the end was pending at the start or was set on the way |
| `SafeMongoose.StartConnectionEffects` | src/lib/safe-mongoose-connection.ts:87-90 | an attempt is `onStartConnection(url)` (when supplied) followed by exactly one `mongoose.connect(url, options)` |
| `SafeMongoose.NextPreservesInv` | src/lib/safe-mongoose-connection.ts:73-122 | every input keeps: handles below the next one issued, a stored handle is the latest set, a pending timer implies a stored handle, after close the stored timer is not pending |
| `SafeMongoose.SafeMongooseConnection.constructor` | src/lib/safe-mongoose-connection.ts:57-70 | both flags false, no callback, no timer; the debug hook is installed iff a debug callback was supplied; the defaults of `Configure` |
| `SafeMongoose.SafeMongooseConnection.ClearTimeout` | src/lib/safe-mongoose-connection.ts:75 | `clearTimeout` drops the timer from the pending ones, harmless if it already ran |
| `SafeMongoose.SafeMongooseConnection.Close` | src/lib/safe-mongoose-connection.ts:73-79 | new fields and effects are those of `Next` on `close(force ?? false)`, and the invariant is kept |
| `SafeMongoose.SafeMongooseConnection.StartConnection` | src/lib/safe-mongoose-connection.ts:87-90 | appends the announcement (if any) and the attempt to the trace |
| `SafeMongoose.SafeMongooseConnection.Connect` | src/lib/safe-mongoose-connection.ts:82-85 | new fields and effects are those of `Next` on `connect(cb)` |
| `SafeMongoose.SafeMongooseConnection.OnConnected` | src/lib/safe-mongoose-connection.ts:95-98 | new fields and effects are those of `Next` on `connected` |
| `SafeMongoose.SafeMongooseConnection.OnReconnected` | src/lib/safe-mongoose-connection.ts:101-103 | new fields and effects are those of `Next` on `reconnected` |
| `SafeMongoose.SafeMongooseConnection.OnError` | src/lib/safe-mongoose-connection.ts:106-109 | new fields and effects are those of `Next` on `error` |
| `SafeMongoose.SafeMongooseConnection.OnDisconnected` | src/lib/safe-mongoose-connection.ts:112-122 | new fields and effects are those of `Next` on `disconnected` |
| `SafeMongoose.SafeMongooseConnection.TimerFires` | src/lib/safe-mongoose-connection.ts:114-119 | new fields and effects are those of `Next` when a pending timer runs |
| `SafeMongooseProperties.DisconnectedSchedulesIff` | src/lib/safe-mongoose-connection.ts:112-122 | `disconnected` sets exactly one timer, stores its handle without clearing the previous timer, then notifies the retry, iff never connected and not closed; otherwise nothing changes and nothing happens |
| `SafeMongooseProperties.ConnectAttemptsOnce` | src/lib/safe-mongoose-connection.ts:82-90 | `connect` stores the callback and makes one announced attempt |
| `SafeMongooseProperties.ConnectedAndReconnected` | src/lib/safe-mongoose-connection.ts:95-103 | `connected` sets the flag and calls the stored callback with the URL; `reconnected` calls it identically and changes no field (both through `NotifyConnected`) |
| `SafeMongooseProperties.ErrorOnlyReports` | src/lib/safe-mongoose-connection.ts:106-109 | `error` changes no field, sets no timer, and only reports 'Could not connect to MongoDB at <url>' |
| `SafeMongooseProperties.CloseClearsStoredTimerOnly` | src/lib/safe-mongoose-connection.ts:73-79 | `close` clears only the stored timer, keeps the handle, sets the close flag, and ends by closing the driver with `force` |
| `SafeMongooseProperties.TimerFiringClearsLatest` | src/lib/safe-mongoose-connection.ts:114-119 | a firing timer makes one attempt, then clears the latest stored timer (which may be another one); no retry notification |
| `SafeMongooseProperties.RunPreservesInv` | src/lib/safe-mongoose-connection.ts:41-122 | the invariant holds after any sequence of inputs |
| `SafeMongooseProperties.ConnectedBeforeMonotonic` | src/lib/safe-mongoose-connection.ts:41 | after any input sequence, `isConnectedBefore` is true iff it was already or a `connected` event occurred: it never reverts |
| `SafeMongooseProperties.CloseFlagMonotonic` | src/lib/safe-mongoose-connection.ts:43 | after any input sequence, `shouldCloseConnection` is true iff it was already or a `close` occurred |
| `SafeMongooseProperties.NoRetryOnceConnectedOrClosed` | src/lib/safe-mongoose-connection.ts:113 | once connected or closed, no input sequence sets a timer or issues a new handle |
| `SafeMongooseProperties.NoRetryAfterClose` | src/lib/safe-mongoose-connection.ts:73-79 | after any history ending in `close`, no later input sets a timer |
| `SafeMongooseProperties.RunAnnounced` | src/lib/safe-mongoose-connection.ts:88-89 | in every trace, each attempt comes right after its `onStartConnection` call (when supplied), and each retry notification right after the timer it announces |
| `SafeMongooseProperties.TwoRapidDisconnects` | src/lib/safe-mongoose-connection.ts:114 | two `disconnected` events leave both timers pending with the field on the second; the first firing attempts once and clears the second |
| `SafeMongooseProperties.AttemptAfterClose` | src/lib/safe-mongoose-connection.ts:74-76 | the exact trace of connect, two disconnects, `close(true)` and the older timer firing: a connection attempt follows the close |
| `SafeMongooseProperties.CallbackOncePerConnection` | src/lib/safe-mongoose-connection.ts:95-122 | connect, connected, disconnected, reconnected: two callback calls and no timer |
| `SafeMongooseProperties.CloseRightAway` | src/lib/safe-mongoose-connection.ts:73-79 | `close(force)` right after construction only closes the driver with `force` |
| `SafeMongooseProperties.ConfigureDefaults` | src/lib/safe-mongoose-connection.ts:16-19 | absent options give 2000 ms and `{autoCreate: true, autoIndex: true}`; a supplied 0 ms is kept |
| `AuthUtils.ScanDescribes` | src/utils/auth-utils.ts:9 | every automaton state states the truth about the prefix read, in terms of the regular expression's literal reading `MatchesEmailRegex` / `EmailSplit` |
| `AuthUtils.EmailScanCorrect` | src/utils/auth-utils.ts:9 | the character automaton `IsEmail` accepts exactly the strings `MatchesEmailRegex` (the literal reading of the pattern: three non-empty runs of `[^\s@]` split by '@' and '.') accepts |
| `AuthUtils.ValidateEmail` | src/utils/auth-utils.ts:8-13 | passes iff `MatchesEmailRegex` holds, otherwise fails with `BadRequest('Invalid email')`, status 400 |
| `AuthUtils.Utf16Length` | src/utils/auth-utils.ts:23 | `length` counts UTF-16 code units: between one and two per character, one for BMP-only strings |
| `AuthUtils.ValidateSignupInput` | src/utils/auth-utils.ts:16-26 | a blank field (`Blank`: missing or empty, the `!x` at :17) gives 'All fields are required' first; then 'Invalid email'; then 'Password must be at least 6 characters'; passes iff none applies |
| `AuthUtils.ValidateLoginInput` | src/utils/auth-utils.ts:29-35 | a blank field (`Blank`, the `!x` at :30) gives 'All fields are required'; otherwise only the email format is checked |
| `AuthUtils.SignupStricterThanLogin` | src/utils/auth-utils.ts:16-35 | passing signup implies passing login; a one-letter password passes login and fails signup |
| `AuthUtils.PasswordLengthBoundary` | src/utils/auth-utils.ts:23-25 | a six-character password is accepted, five is refused |
| `AuthUtils.ExampleAddresses` | src/utils/auth-utils.ts:9 | 'test@example.com' matches; 'invalid', 'a@b.', 'a@.b', 'a b@c.d' do not |
| `AuthUtils.ValidatorFailuresRespond400` | src/utils/auth-utils.ts:11-24 | every validator failure reaches the client as 400 with the validator's message |
| `PreventDuplicate.RequestKey` | src/middleware/prevent-duplicate.middleware.ts:6 | the key is the method, a '-', the original URL, a '-' and the serialised body, each recoverable by position; equal triples share a key |
| `PreventDuplicate.KeyDeterminesMethod` | src/middleware/prevent-duplicate.middleware.ts:6 | requests whose methods hold no '-' share a key only if their methods are equal |
| `PreventDuplicate.DuplicateFilter.constructor` | src/middleware/prevent-duplicate.middleware.ts:3 | the set starts empty |
| `PreventDuplicate.DuplicateFilter.Handle` | src/middleware/prevent-duplicate.middleware.ts:5-19 | `next` is called iff the key was not pending; then the key is added and one finish handler registered; otherwise the set is unchanged and no handler is registered; the set equals the keys of admitted, unfinished requests, one request per key |
| `PreventDuplicate.DuplicateFilter.Finish` | src/middleware/prevent-duplicate.middleware.ts:14-16 | an admitted request's finish removes its key and no other; a dropped request's finish removes nothing |
| `Errors.ApplicationErrorInit` | src/errors/application-error.ts:4-7 | message defaults to 'ApplicationError', status to 500, supplied ones kept; `name` is `ClassName` of the constructing class (`this.constructor.name`) |
| `Errors.NewApplicationError` | src/errors/application-error.ts:1-9 | a direct `new ApplicationError` is named 'ApplicationError' |
| `Errors.NewBadRequest` | src/errors/bad-request.ts:3-7 | status 400 whatever the message; default 'Bad request'; supplied message kept |
| `Errors.NewInternalServerError` | src/errors/internal-server-error.ts:3-7 | status 500 whatever the message; default 'Internal Server Error'; supplied message kept |
| `Errors.NewNotFoundError` | src/errors/not-found.ts:3-7 | status 404 whatever the message; default 'Not Found'; supplied message kept |
| `Errors.NewUnauthorizedError` | src/errors/unauthorized-error.ts:3-7 | status 401 whatever the message; default 'Unauthorized'; supplied message kept |
| `ErrorHandling.ErrorHandler` | src/middleware/error-handler.ts:6-18 | headers sent: delegate, write nothing; an ApplicationError: its status and message, no log; anything else: 500 'Internal Server Error' and the original message only in the log; every response has `success: false` |
| `ErrorHandling.SubclassResponses` | src/middleware/error-handler.ts:11-12 | BadRequest, UnauthorizedError, NotFoundError, InternalServerError and a default ApplicationError respond 400, 401, 404, 500, 500 |
| `ErrorHandling.InternalServerErrorLooksUnexpected` | src/middleware/error-handler.ts:11-17 | a default InternalServerError and an unexpected error give the client the same status and body |
| `ErrorHandlingMiddleware.ErrorHandler` | src/middleware/error-handler.middleware.ts:15-27 | the same three-way outcome as the mounted handler |
| `ErrorHandlingMiddleware.SameAsMountedHandler` | src/middleware/error-handler.middleware.ts:15-27 | equal outcome to src/middleware/error-handler.ts for every error and headers state |

## Left out

- The Mongoose driver is left out: connecting, socket handling, its own reconnection logic, `mongoose.set('debug', …)` beyond recording that it ran, and every option besides `autoCreate` and `autoIndex`. Driver events and timer firings are inputs supplied by the environment, in any order.
- Real time is left out. `setTimeout` delays are recorded but never elapse, so no property speaks of the spacing between retries.
- The promise `close` returns is not modelled. It resolves or rejects with the driver's close, which is outside the model.
- Registering the four listeners at construction is implicit: every event input is delivered to the wrapper.
- `retryDelayMs` is an integer. A fractional, negative or huge delay, and how `setTimeout` clamps it, are not modelled.
- The user's callbacks are recorded as calls. What they do is not modelled, including throwing.
- `JSON.stringify(req.body)` is an input, the serialised body text. JSON encoding is not modelled.
- A validator field that is missing from the request body or empty is `Blank`. Non-string JSON values (numbers, objects) passed as fields are not modelled.
- The regular expression is modelled on Unicode characters, whereas JavaScript without the `u` flag matches UTF-16 code units. The two agree because a surrogate half is neither whitespace nor '@'.
- The `stack` in the unexpected-error log line is not modelled, and neither is the logger's output.
- `hashPassword`, `checkIfUserExists`, `authenticateUser` (bcrypt, database) and `getRandomProfilePic` (randomness) are outside this model, as are controllers, routes, configuration, rate limiting, caching, JWT handling and logging.
