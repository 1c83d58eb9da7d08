# Logging infrastructure core, modelled in Dafny

This project models three pieces of a Node.js logging library built on log4js:

- **The HTTP traffic-log policy engine** (`http_log_interceptors.dfy`, module
  `HttpLogInterceptors`). It models the axios interceptors' logic:
  - It merges the user's policy over the defaults.
  - It turns level settings into callbacks, including `'auto'`, which buckets
    by `Math.floor(status / 100)`.
  - It decides whether a request or response is logged and at which level.
  - It renders the line from the selected segments, in order: method, url,
    status, body, headers.
  - It picks the request headers that may be logged: it merges the header
    groups and scrubs `common`, the verb groups and `authorization`.
  - The interceptor always hands back the message it was given.
- **The category namer** (`logger.dfy`, module `CategoryNamer`). This is
  `convertLoggerNameToBetterName`, which turns a source path into a dotted
  log4js category.
- **The request-context store** (`context_utils.dfy`, module `ContextUtils`).
  This is the map from an async execution unit to its request context, kept by
  the `init` and `destroy` hooks, `createRequestContext` and
  `getRequestContext`.

`strings.dfy` holds JavaScript's `split` and `join` together with their
round-trip lemmas. It also holds ASCII upper-casing and integer printing.
`wrappers.dfy` holds `Option` and `Result`.

Some state is modelled as a class:
- The module-level `_logProperties` of the engine is the class
  `Interceptors`.
- The context store's `Map` is the class `ContextStore`, whose methods update
  a `map` field.

The pure computations are functions, each paired with lemmas:
- Every sequence of hook calls is given meaning by the trace functions
  `Step` and `Run`.
- The `buildLogMessage` methods push segments one by one, as the source does.
  Each is proved equal to the line function `RequestLine` or `ResponseLine`.
- Those line functions' properties are proved as lemmas.

The engine's merge follows the code as written, including the response
level defect recorded under "## Findings"; the corrected conversion and the
merge built on it are modelled beside it.

The category namer drops leading pieces by count. Line 92 of `logger.ts`
slices off as many leading pieces as the working directory has, without
comparing them with the working directory's own pieces. So the category of
`<cwd>/src/foo/bar.ts` is `src.foo.bar`.

## Model

| member | source | states |
|---|---|---|
| ContextUtils.ContextStore.OnInit | src/context_utils.ts:12-16 | a unit created by a unit with a context gets that very context; otherwise the store is unchanged |
| ContextUtils.ContextStore.OnDestroy | src/context_utils.ts:17-21 | the unit's entry is removed and every other entry is kept; looking the unit up afterwards gives nothing |
| ContextUtils.ContextStore.CreateRequestContext | src/context_utils.ts:26-29 | binds the context to the running unit, overwriting only that entry, and returns the same context |
| ContextUtils.ContextStore.GetRequestContext | src/context_utils.ts:31-33 | there is a result exactly when the running unit has an entry, and the result is that entry |
| ContextUtils.DescendantsInherit | src/context_utils.ts:13-20 | once every member of a family holds context c, every unit the family goes on to create holds c, even after its creator or other ancestors are destroyed. The only events excluded are an attach to a living member and its re-creation from outside the family |
| ContextUtils.ChainInherits | src/context_utils.ts:12-29 | after a root is attached, each unit of a chain of nested creations sees the root's context |
| ContextUtils.OrphanedChildInherits | src/context_utils.ts:13-20 | a unit created by a child after the child's own creator was destroyed still inherits the root's context |
| ContextUtils.EntryStable | src/context_utils.ts:11-22 | an entry changes only through a hook call or attach that names its id |
| ContextUtils.LateChildNeverInherits | src/context_utils.ts:13-15 | a unit created while its creator has no context never gets one from later attaches elsewhere |
| ContextUtils.ReattachKeepsChildren | src/context_utils.ts:12-29 | re-attaching a unit changes only its own entry: a child created after the first attach keeps the old context, whatever events that do not name the child come in between |
| ContextUtils.DestroyingAllLeavesNothing | src/context_utils.ts:17-21 | destroying a list of units removes exactly their entries, whether they had one or not |
| CategoryNamer.CurrentWorkingDirectoryTreeSize | src/logger.ts:24 | the working directory's piece count is at least one |
| CategoryNamer.RemoveFileExtensionIfHas | src/logger.ts:77-80 | a name without a dot is unchanged; otherwise the result is the prefix before the last dot, wherever that dot is |
| CategoryNamer.IsFilePathUnderAppLocation | src/logger.ts:82-84 | a path is under the application iff it is as many leading pieces as the working directory has, whatever they are, followed by at least one more |
| CategoryNamer.IsIndexFile | src/logger.ts:86-88 | a path is an index file iff its pieces are some directory's pieces followed by `index` |
| CategoryNamer.ExtractRelativePathAndConvertSeparatorToDot | src/logger.ts:90-93 | the pieces after the working directory's, the last one included only when `takeFileName` is set, joined by `.`; splitting the result on `.` gives those pieces back when none holds a dot |
| CategoryNamer.ConvertLoggerNameToBetterName | src/logger.ts:68-75 | a path with no more pieces than the working directory is returned as given, extension included; a deeper one becomes its pieces after the working directory's, without a final `index`, joined by `.` |
| CategoryNamer.NameWithoutSeparatorUnchanged | src/logger.ts:68-84 | a name with no separator, such as `express` or `index`, is its own category |
| CategoryNamer.DeepNameCategory | src/logger.ts:68-93 | a deeper path becomes its pieces after the working directory's, without a final `index`, joined by `.`; the category holds no separator; splitting it on `.` gives those pieces back when none contains a dot |
| CategoryNamer.LeadingPiecesIgnored | src/logger.ts:90-93 | leading pieces are dropped by count only: two paths that differ only there get the same category |
| CategoryNamer.IndexNamedAfterDirectory | src/logger.ts:72-92 | `<dir>/index.<ext>` gets the category of `<dir>.<ext>` |
| HttpLogInterceptors.ConvertLogLevelRequestPropertyToFunction | src/http_client/http_log_interceptors.ts:204-209 | a callback is kept as it is; any other level becomes a callback returning that level for every message |
| HttpLogInterceptors.ConvertLogLevelResponsePropertyToFunction | src/http_client/http_log_interceptors.ts:211-220 | as written: a callback is kept and `'auto'` becomes the status-bucket callback. Any other level becomes a callback that returns a function (itself), never the level |
| HttpLogInterceptors.ConvertLogLevelResponsePropertyIntended | src/http_client/http_log_interceptors.ts:211-220 | as intended: the same, except that any other level becomes a callback that returns that level for every message |
| HttpLogInterceptors.ConvertFromAutoValue | src/http_client/http_log_interceptors.ts:222-234 | the callback gives 1xx and 2xx responses level2xx, 3xx level3xx, 4xx level4xx, and any other status level5xx; unset levels default to INFO, INFO, ERROR, ERROR |
| HttpLogInterceptors.AutoLevelByStatusClass | src/http_client/http_log_interceptors.ts:198-233 | a user response level `'auto'` makes the merged policy level each response by its status class, with those bucket defaults |
| HttpLogInterceptors.CreateFullLogProperties | src/http_client/http_log_interceptors.ts:192-202 | the merged policy's levels are callbacks or falsy, so the interceptor never calls a non-function |
| HttpLogInterceptors.UserFieldsWin | src/http_client/http_log_interceptors.ts:192-202 | in the request policy, every field the user set wins (a truthy level after conversion) and every unset field comes from the defaults |
| HttpLogInterceptors.UserResponseFieldsWin | src/http_client/http_log_interceptors.ts:192-202 | the same for the response policy, except for a truthy level: `'auto'` becomes the status-bucket callback, and any other non-callback level becomes a callback returning a function |
| HttpLogInterceptors.SelfReadingLevelReachesLogger | src/http_client/http_log_interceptors.ts:196-220 | with a user response level that is neither a callback nor `'auto'`, every logged response carries a function where its level should be, never the configured level |
| HttpLogInterceptors.CreateFullLogPropertiesIntended | src/http_client/http_log_interceptors.ts:192-202 | the merge with the intended response conversion keeps every level callable and the request policy unchanged |
| HttpLogInterceptors.ConfiguredLevelReachesLogger | src/http_client/http_log_interceptors.ts:211-220 | with the intended conversion, every logged response carries the configured level |
| HttpLogInterceptors.DefaultLogProperties | src/http_client/http_log_interceptors.ts:164-181 | both kinds are logged with every segment but the body, and with all headers; requests log at INFO; responses log at INFO below status 400 and at ERROR from 400 on |
| HttpLogInterceptors.DefaultLevels | src/http_client/http_log_interceptors.ts:164-181 | the defaults' levels are callable, and the level the interceptor takes from them is INFO for requests, and INFO or ERROR for responses on either side of status 400 |
| HttpLogInterceptors.AllowedRequestHeadersPrecedence | src/http_client/http_log_interceptors.ts:151-161 | a loggable request header is never one of the scrubbed keys; any other key is present iff it is at top level, in the verb's group or in `common`, and takes its value from the first of those in that order |
| HttpLogInterceptors.GetAllowedRequestHeadersToLog | src/http_client/http_log_interceptors.ts:151-161 | spreading the groups and then deleting the scrubbed keys one at a time yields exactly the allowed headers |
| HttpLogInterceptors.AllowedHeaders | src/http_client/http_log_interceptors.ts:120-122 | a response's loggable headers are its headers, or none when it has none; a request's never hold a scrubbed key and hold only keys found at top level, in the verb's group or in `common` |
| HttpLogInterceptors.GetBody | src/http_client/http_log_interceptors.ts:52-54 | the body field as JSON; when `JSON.stringify` throws, the error propagates and prints as it did |
| HttpLogInterceptors.GetMethod | src/http_client/http_log_interceptors.ts:143-145 | the method with every lower-case ASCII letter made upper-case and every other character kept, at the same length |
| HttpLogInterceptors.GetStatusCode | src/http_client/http_log_interceptors.ts:116-118 | `code:[`, the status in decimal, a space, the status text and `]`, in that layout |
| HttpLogInterceptors.GetMethodAndPath | src/http_client/http_log_interceptors.ts:112-114 | `For `, the request's method as sent (not upper-cased), a space and the path |
| HttpLogInterceptors.GetHeaders | src/http_client/http_log_interceptors.ts:59-70 | after a callback is resolved: `'all'` or `true` gives `headers: <json>`; a name gives `name: value`; a list gives one `key: value` per name, in list order. It throws exactly when the selection is `false` or the headers cannot be turned into JSON |
| HttpLogInterceptors.IsAddBody | src/http_client/http_log_interceptors.ts:72-74 | the body is added iff the flag is set or is a predicate, the body is there, and a predicate, if given, accepts the message |
| HttpLogInterceptors.HasBody | src/http_client/http_log_interceptors.ts:76-78 | the body is there iff its field is not one of JavaScript's falsy values |
| HttpLogInterceptors.RequestSegmentsInFixedOrder | src/http_client/http_log_interceptors.ts:130-141 | request segments are strictly ordered method, url, body, headers, so none appears twice |
| HttpLogInterceptors.ResponseSegmentsInFixedOrder | src/http_client/http_log_interceptors.ts:98-110 | response segments are strictly ordered status, body, headers |
| HttpLogInterceptors.RequestSegmentsSelected | src/http_client/http_log_interceptors.ts:130-149 | a request line holds the upper-cased method iff `method` is set and the url iff `url` is set. It holds the body iff the flag is set, the body is truthy and the predicate, if any, accepts. It holds the headers iff `headers` is truthy. It never holds a status. The method, url and body segments read as `getMethod`, `getUrl` and `getBody` give them. The headers segment reads as `getHeaders` gives it, with a list joined by commas. Building fails iff the body or the headers throw, and a failing body is the error reported |
| HttpLogInterceptors.ResponseSegmentsSelected | src/http_client/http_log_interceptors.ts:98-118 | a response line holds `code:[<status> <text>]` iff `statusCode` is set. It holds body and headers as for a request, with the same texts, including the headers segment as `getHeaders` gives it. It fails as a request does. It holds no method or url segment. It starts with `For <method> <path>`, the bar separator and `Response ` iff `methodAndPath` is set, and with `Response ` otherwise |
| HttpLogInterceptors.LogMessage | src/http_client/http_log_interceptors.ts:80-90 | a request is rendered under the request policy and starts with `Requesting `; a response is rendered under the response policy and starts with its optional `For` prefix and `Response `; rendering throws exactly when that kind's segments throw |
| HttpLogInterceptors.BuildRequestLogMessage | src/http_client/http_log_interceptors.ts:130-141 | pushing the segments one by one and joining them with the bar separator after `Requesting ` yields the request line; a throw from the body or the headers yields the same error |
| HttpLogInterceptors.BuildResponseLogMessage | src/http_client/http_log_interceptors.ts:98-110 | the same for the response line with its optional prefix |
| HttpLogInterceptors.InterceptorOutcome | src/http_client/http_log_interceptors.ts:243-254 | with `logIt` set, the record is the line at the callback's level (INFO when the level is falsy), or one error on the module logger when building the line throws |
| HttpLogInterceptors.LevelFor | src/http_client/http_log_interceptors.ts:248 | a callback level is called on the message; a falsy level gives INFO; a truthy level that is not a callback throws |
| HttpLogInterceptors.Emitted | src/http_client/http_log_interceptors.ts:243-254 | nothing is logged unless `logIt` is set, and then exactly one record; a record on the module logger is at ERROR |
| HttpLogInterceptors.Interceptors.SetLogProperties | src/http_client/http_log_interceptors.ts:184-190 | stores the merged user properties, or the defaults when none are given, and keeps the levels callable |
| HttpLogInterceptors.Interceptors.GetHttpLogProperties | src/http_client/http_log_interceptors.ts:256-258 | the properties in effect, whose levels are callable, whether set or defaulted |
| HttpLogInterceptors.Interceptors.LogInterceptor | src/http_client/http_log_interceptors.ts:243-254 | returns the exact message it was given, whether logging is off, succeeds or throws; what it logs is the outcome stated above |

## Left out

- The file watcher and hot reload, `init`, `configureLog4jsForAllApp`, the `require.cache` reload, the JSON layout, and the patched `getLogger` in `logger.ts`. These are I/O and log4js wiring; only `convertLoggerNameToBetterName` is modelled there.
- `process.cwd()` and `path.sep` are parameters. `__filename` is the `loggerName` argument.
- The async_hooks runtime. Unit ids and `executionAsyncId()` are arguments, and hook order is a sequence of events.
- `JSON.stringify` is the parameter `Json`, which gives either the text or the error it throws. Its output format and the conditions under which it throws are not modelled.
- What log4js does when `logger.log` is handed a function where a level belongs is not modelled. The record carries `Function` as its level.
- `_.defaultsDeep` is modelled field by field. A merge that reaches inside function or array values is not modelled.
- `build(logger)` and its `bind`. The message kind is the message's own tag, and the bound logger is the record's `TrafficLogger`.
- User callbacks are total functions. A callback that throws is not modelled, nor is a header callback returning `undefined`.
- A header group key that holds a plain string is treated as an empty group. JavaScript would spread its characters.
- A request whose `headers` is missing altogether is not modelled. In JavaScript, reading `.common` on it would throw.
- `ToUpper` upper-cases ASCII letters only.
- `level2xx` to `level5xx` live on only inside the `'auto'` callback. They are not copied into the effective policy record, where nothing else reads them.
- The express middlewares, the axios instance, `demo.routes.ts` and `log4js_default.js` are not part of this model.

## Findings

| source | as written | input that shows it | evidently intended | confidence | as-written member | corrected member |
|---|---|---|---|---|---|---|
| src/http_client/http_log_interceptors.ts:199-216 | A non-`'auto'`, non-callback response level becomes `(req) => responseProps.level`. Line 199 then stores that callback in `responseProps.level`, so the callback returns itself and line 248 hands a function to `logger.log` | user properties `{ response: { level: 'warn' } }` and any response | the callback returns the configured level, as the request conversion at line 206 does | high (not executed) | HttpLogInterceptors.SelfReadingLevelReachesLogger | HttpLogInterceptors.ConfiguredLevelReachesLogger |
