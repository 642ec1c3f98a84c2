# teeny-tiny-reporter, modelled in Dafny

teeny-tiny-reporter is a small browser telemetry shim. One call,
`defineReporter(options)`, does four things:

- it replaces `options.report` with a wrapper;
- it patches `console`;
- it sets `window.onerror` and `window.ononline`;
- when an axios instance is supplied, it registers a request and a response interceptor pair.

Every installed handler funnels its event into the wrapped `options.report`.
That wrapper drops the event unless its scope is listed in `options.scope`.
Otherwise it builds an envelope `{data, context, timestamp}` and calls the
user's saved callback `_report(scope, envelope)` once.

The model has four modules:

- `Scopes` (scopes.dfy): the eleven scopes of the `Scope` union and their names. `Parse` reads a name back.
- `Dispatcher` (dispatcher.dfy): the pure parts of the wrapper. These are the filter `Includes`, the envelope builder `BuildEnvelope`, and `Deliver`, which gives what one wrapper call hands to the original callback. The payload is a type parameter `P`. The timestamp is an opaque `Stamp` read from the clock at dispatch time.
- `Interceptors` (interceptors.dfy): each installed handler as an `Event`. `StepEffects` gives the effects of one event in order: first the call of the original console member, then at most one delivery. `Run` gives the effects of a whole trace. `Output` and `Reports` project the effects onto the two logs. The trace properties are lemmas about these functions.
- `Host` (host.dfy): the host after setup, as a class `Reporter` with:
  - two append-only logs: `output`, the calls of original console members, and `reports`, the calls of `_report`;
  - the subscribed `scopes`;
  - `consoleMembers`, the members of the patched console;
  - a ghost `trace` of handled events.

  `Valid()` ties both logs to `Run` of the trace. The class has one method per entry point. Each method does what the source does in the same order, for example printing first and then dispatching. Its `ensures` says exactly how both logs grow.

Where the design description of the system and the code disagree, the model follows the code:

- The scope names are the code's names: `onOnline`, `onSuccessfulRequest`, and so on.
- The callback receives `(scope, envelope)`, not `(envelope, ...payload)`.
- The wrapper is declared `(scope, data)` while callers spread their arguments into it. Only the first payload argument reaches the callback, or `Undefined` when there is none (`Dispatcher.FirstArgument`).
- The axios failure handlers return the error as an ordinary value and do not rethrow it. Returning a value from an axios rejection handler turns the failure into a success. The design description says the request failure should propagate unchanged.

## Model

| member | source | states |
|---|---|---|
| `Scopes.Parse` | src/index.ts:1-12 | a string parses to a scope only if it is that scope's literal name in the `Scope` union |
| `Scopes.ParseName` | src/index.ts:1-12 | each of the eleven scopes is read back from its name |
| `Scopes.ParseExactlyNames` | src/index.ts:1-12 | a string is a scope name exactly when it names one of the eleven scopes; no other string is a scope |
| `Scopes.NamesDistinct` | src/index.ts:1-12 | distinct scopes have distinct names, and the enumeration of eleven scopes contains every scope |
| `Dispatcher.Includes` | src/index.ts:42 | the filter `options.scope.includes(scope)`, a scan of the list, is true exactly when the scope is a member of the subscription list |
| `Dispatcher.Deliver` | src/index.ts:41-51 | one call of the wrapped report yields no callback call when the scope is unsubscribed; otherwise it yields exactly one, whose first argument is that scope and whose envelope holds that scope, the clock reading and the first payload argument |
| `Interceptors.WrappedScopeMatchesName` | src/index.ts:53-75 | exactly the members log, info, debug, warn and error of the patched console dispatch, each under the scope with its own name |
| `Interceptors.StepLogs` | src/index.ts:40-107 | for any event, the console log grows by exactly the original member call the event makes, and the report log grows by one delivery when the event's dispatch is subscribed and by nothing otherwise |
| `Interceptors.ConsoleInvokesOriginalFirst` | src/index.ts:55-74 | a console call first invokes the original member of the same name with exactly the same arguments; every later effect of that call is a delivery |
| `Interceptors.ConsoleDeliversFirstArgumentOnly` | src/index.ts:53-75 | a wrapped console call under a subscribed scope delivers only its first argument, or undefined; extra arguments are printed but not delivered; unsubscribed or copied members deliver nothing |
| `Interceptors.WindowErrorDeliversRecord` | src/index.ts:77-87 | `onerror` prints nothing and delivers under "exception" one record holding exactly its five arguments, if "exception" is subscribed |
| `Interceptors.WindowOnlineDeliversMessage` | src/index.ts:89-91 | `ononline` prints nothing and delivers under "onOnline" the fixed message "Device is online again.", if subscribed |
| `Interceptors.AxiosDeliversInput` | src/index.ts:93-107 | each of the four axios handlers delivers its own input value or error under the scope of its pipeline and outcome, if subscribed |
| `Interceptors.OutputIsUnpatched` | src/index.ts:53-75 | over any trace, the console log equals what the unpatched console would have been asked to print for the same events |
| `Interceptors.OutputIndependentOfScopes` | src/index.ts:55-74 | the console log is the same for every subscription list |
| `Interceptors.ReportsSubscribed` | src/index.ts:41-51 | over any trace, every delivery is under a subscribed scope, and its envelope's context equals that scope |
| `Interceptors.ReportsAreExpected` | src/index.ts:41-49 | over any trace, the callback calls are, in order, one per event whose dispatch passes the filter, each with that event's scope, and an envelope whose context is that scope, whose data is the event's first payload argument (or undefined) and whose timestamp is its clock reading |
| `Interceptors.NothingDeliveredWithoutScopes` | src/index.ts:41-42 | with an empty subscription list, no trace delivers anything |
| `Interceptors.OneDeliveryPerAcceptedEvent` | src/index.ts:40-51 | over any trace, the number of callback calls equals the number of events whose dispatch passes the filter, so there is never more than one call per event |
| `Interceptors.ErrorAndExceptionScenario` | src/index.ts:53-87 | subscribed to error and exception, a warn log, an error log and an uncaught error give exactly two deliveries: "error" with the logged value, then "exception" with the error record; both console calls are printed |
| `Host.Reporter.DefineReporter` | src/index.ts:38-108 | setup installs the handlers with both logs empty, gives the patched console the original console's members plus the five wrappers, and records whether the axios pairs were registered |
| `Host.Reporter.Dispatch` | src/index.ts:41-51 | the wrapper's body, an internal step of every entry point: the report log grows by exactly what `Dispatcher.Deliver` gives for the call |
| `Host.Reporter.Report` | src/index.ts:41-51 | a direct call of the wrapped report leaves the console log alone and extends the report log as the filter decides; both logs still match the trace |
| `Host.Reporter.Console` | src/index.ts:53-75 | a call of a member the patched console has appends the original member call with the same arguments, then delivers the first argument under the member's scope if that member is one of the five wrapped ones and subscribed |
| `Host.Reporter.OnError` | src/index.ts:77-87 | the error handler delivers the five-field record under "exception" if subscribed and prints nothing |
| `Host.Reporter.OnOnline` | src/index.ts:89-91 | the online handler delivers the fixed message under "onOnline" if subscribed and prints nothing |
| `Host.Reporter.RequestFulfilled` | src/index.ts:93-95 | the request success handler delivers the value under "onSuccessfulRequest" if subscribed and returns the value unchanged |
| `Host.Reporter.RequestRejected` | src/index.ts:96-99 | the request failure handler delivers the error under "onUnsuccessfulRequest" if subscribed and returns the error as a value |
| `Host.Reporter.ResponseFulfilled` | src/index.ts:101-103 | the response success handler delivers the value under "onSuccessfulResponse" if subscribed and returns the value unchanged |
| `Host.Reporter.ResponseRejected` | src/index.ts:104-107 | the response failure handler delivers the error under "onUnsuccessfulResponse" if subscribed and returns the error as a value |

## Left out

- How the timestamp string is formed (`Date`, `toLocaleString`, `getMilliseconds`): it depends on the clock and the locale. It is an opaque `Stamp` passed into each call, and the model makes no claim about its form or its order.
- Real console output, the browser `window` object and real event delivery: the model has only the two logs. `Host.Reporter.Console` records that the original member was called, not what that member prints.
- The axios library: its interceptor registry, the registration handle, and its promise-chain semantics. The model contains only the four handler functions. Registration is the flag `axiosHooked`, and the handlers require it.
- Changes the embedding application makes to `options.scope` after setup: the source re-reads the array on every call, but the model's `scopes` is fixed at setup.
- A user callback that throws: the source does not catch it, and the model has no exceptions.
- `Interceptors.OneDeliveryPerAcceptedEvent` and `Host.Reporter.Dispatch` assume two things. First, the user's callback does not call back into the patched console, the window handlers or `options.report`. In the source such a callback can re-enter the wrapper: with scope "error" and a callback that calls `console.error`, one call recurses until the stack overflows. Second, `options.report` is not reassigned after setup. Every wrapper looks it up when it runs, so a reassignment redirects later events, while the model fixes the wrapper at setup.
- `Host.Reporter.Console` requires the member to be one the patched console has. In the source, calling a member that the original console lacks throws a TypeError before anything is printed or reported. The model has no exceptions, so that call is excluded rather than modelled.
- Calling `defineReporter` more than once: nothing in the source guards against or promises anything about it. Its effects differ per facility:
  - the console wrappers are replaced, not nested, because they wrap `_console`, which is captured once when the module loads;
  - the window handlers are overwritten;
  - `options.report` nests only when the same options object is passed again;
  - the axios handler pairs pile up, because each call registers another pair.
- Fetch wrapping, stack-trace capture, isolation of callback failures and an uninstall operation: none of these exists in src/index.ts.
- The payload's dynamic typing: every `any` value is the type parameter `P`. The handlers' own payload shapes are the `Datum` constructors: the error record and the online notice.
