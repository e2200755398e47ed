# Named loggers and a path-routed WebSocket proxy, modelled in Dafny

This project models two sequential pieces of a small Go toolkit.

- **The named-logger registry** (`logger/logger.go`). It is a get-or-create
  cache of loggers keyed by name. It is backed by two package tables:
  `logInstances` (name to logger) and `fileHandles` (name to open log file).
  The destination string chooses each new logger's output and formatter:
  `"stdout"`, `"stderr"` or a file path. A path that fails to open falls back
  to stdout. `CloseAllLoggers` empties both tables, once only. The module also
  has the level colouring and the `[ts][LEVEL]msg\n` line formatters.
- **The WebSocket proxy's request handling** (`wsproxy/wsproxy.go`). The
  request path loses one trailing `/`. It is then looked up, exactly, in the
  configured `services` table. A miss answers 404. A hit dials the backend
  first and only then upgrades the client. A failed dial answers 500. A failed
  upgrade closes the backend again. A session relays messages both ways, and
  each direction stops at its first failed read or write.

Files:

- `options.dfy`: module `Options`, the `Option` datatype.
- `logger.dfy`: module `Logger`. It holds the level and formatter functions,
  `ParseLine` (an inverse of the formatters that shows their lines can be read
  back), the pure registry transitions `Configure`, `Acquire` and `CloseAll`,
  and the class `Registry`. The class has the two tables as `map` fields and
  the flag `closeDone` in place of `sync.Once`. Each of its methods is proved
  to move the state exactly as the matching pure transition does.
- `wsproxy.dfy`: module `WsProxy`. It holds the path normalisation and route
  lookup, `Pump` (the specification of one relay direction), the loop method
  `RelayLoop` proved against it, `ProxyTrace` (the specification of one request), and the handler steps `ProxyWebSocket` and
  `HandleRequest`. These record what they do as a list of `Action`s.

Modelling choices:

- The outcome of `os.OpenFile` is a parameter (`OpenOutcome`).
- The WebSocket library calls are parameters too. Dial and upgrade are each
  given one outcome. Each relay direction is given the sequence of results its
  reads and writes return. A sequence that runs out means the loop has not
  returned yet within the observed trace (`StillRunning`).
- The two relay loops run concurrently in the source. Here they run one after
  the other, each on its own trace (see "## Left out" for what this misses).
- The model keeps these behaviours of the code, which a reader might expect
  to be otherwise:
  - a failed dial answers 500 (`http.StatusInternalServerError`), not 502;
  - the configured keys are never normalised. At the handler, a key written
    as `"/a/"` is matched only by the path `"/a//"` (`PathsReachingKey`). The
    handler is registered on Go's default `http.ServeMux`. An ordinary GET
    for `/a//` is answered with a 301 redirect to `/a/`, which then routes to
    the key `/a`. Paths the mux does not clean still reach a key ending in
    `/`: a CONNECT request, and on Go 1.22 and later an escaped slash such as
    `/a/%2F`;
  - duplicate routes are not detected;
  - when the backend-to-client direction fails first, nothing closes the
    client connection. Only the end of the client-to-backend loop runs the
    deferred closes.

## Model

| member | source | states |
|---|---|---|
| `Logger.ToUpper` | logger/logger.go:111 | the result has the input's length and each character upper-cased (ASCII) |
| `Logger.ColorizeLevel` | logger/logger.go:124-135 | "info", "warning" and "error" become green INFO, yellow WARN and red ERROR, each wrapped in an ANSI colour code and a reset; exactly the other names come back upper-cased |
| `Logger.LevelString` | logger/logger.go:111 | states no contract: logrus's lower-case level names; its properties are carried by `Logger.LabelHasNoBracket` and `Logger.FormattersDifferOnlyWhenColoured` |
| `Logger.LevelLabel` | logger/logger.go:111-118 | states no contract: the upper-cased name (plain) or `colorizeLevel` of it (colour); its properties are carried by `Logger.LabelHasNoBracket` and `Logger.FormattersDifferOnlyWhenColoured` |
| `Logger.Format` | logger/logger.go:109-121 | states no contract: the `[ts][L]msg\n` line of both `Format` methods; its properties are carried by `Logger.ParseFormat` and `Logger.FormattersDifferOnlyWhenColoured` |
| `Logger.LabelHasNoBracket` | logger/logger.go:111-118 | neither formatter's level text contains `]` |
| `Logger.FormattersDifferOnlyWhenColoured` | logger/logger.go:109-121 | the plain and the colour line for an entry are equal exactly when its level is not info, warning or error |
| `Logger.ParseJoin` | logger/logger.go:112 | a line `[ts][L]msg\n` with no `]` in ts or L splits back into ts, L and msg |
| `Logger.ParseFormat` | logger/logger.go:109-121 | every line either formatter writes reads back as its timestamp, level label and message, whatever the message holds |
| `Logger.Configure` | logger/logger.go:35-64 | the level is kept; "stdout" gives Stdout and "stderr" gives Stderr, both with the colour formatter; a path that fails to open gives Stdout with the colour formatter; an opened file gives the plain formatter, writing to the file alone or to stdout and the file as `alsoToStdout` says; a file handle is kept exactly when a file was opened, and it is the one the logger writes to |
| `Logger.Acquire` | logger/logger.go:72-87 | a cached name returns its logger and changes nothing, whatever the new config says; a new name gets the configured logger under that name, its opened file (if any) under the same name, and every other entry of both tables is unchanged; table consistency is preserved |
| `Logger.CloseAll` | logger/logger.go:138-152 | the first call leaves both tables empty; once the flag is set, a call changes nothing |
| `Logger.StdoutConfig` | logger/logger.go:90-94 | states no contract: the config `GetLogger` builds (debug level, "stdout"); used by `Logger.Registry.GetLogger` and `Logger.FileLoggerAfterLogger` |
| `Logger.FileConfig` | logger/logger.go:98-103 | states no contract: the config `GetFileLogger` builds (debug level, the path, the flag); used by `Logger.Registry.GetFileLogger` and `Logger.FileLoggerAfterLogger` |
| `Logger.Apply` | logger/logger.go:89-152 | states no contract: one public call (a get or a close) on the state, as `Acquire` or `CloseAll`; quantified over by `Logger.ClosedStaysClosed`, `Logger.LaterCloseChangesNothing` and `Logger.RunConsistent` |
| `Logger.Run` | logger/logger.go:89-152 | states no contract: a sequence of public calls replayed in order; quantified over by the same three lemmas |
| `Logger.FileLoggerAfterLogger` | logger/logger.go:89-104 | `GetFileLogger(n, path, _)` after `GetLogger(n)` returns the same debug-level stdout logger, changes no table and opens no file |
| `Logger.ClosedStaysClosed` | logger/logger.go:139 | after a close, any sequence of later calls leaves the close flag set |
| `Logger.LaterCloseChangesNothing` | logger/logger.go:138-152 | every close after the first changes nothing, even after new loggers were registered |
| `Logger.RunConsistent` | logger/logger.go:62-67 | over any sequence of calls, a name has a file handle exactly when its logger writes to a file, and the handle is that file |
| `Logger.Registry.constructor` | logger/logger.go:18-23 | the registry starts with both tables empty and the close flag clear |
| `Logger.Registry.InitLogger` | logger/logger.go:33-69 | for a name not in the table, the new logger and both tables are what `Acquire` gives, and consistency is kept |
| `Logger.Registry.GetConfiguredLogger` | logger/logger.go:72-87 | the returned logger and the new tables are exactly `Acquire` of the old tables |
| `Logger.Registry.GetLogger` | logger/logger.go:89-95 | uses the debug level and "stdout"; a new name gets the colour stdout logger; the file table never changes |
| `Logger.Registry.GetFileLogger` | logger/logger.go:97-104 | uses the debug level and the given path and `alsoToStdout` flag, with the effect `Acquire` gives |
| `Logger.Registry.CloseAllLoggers` | logger/logger.go:138-152 | the new state is `CloseAll` of the old; on the first call every file handle is closed exactly once, in some order; later calls close nothing |
| `WsProxy.TrimSuffix` | wsproxy/wsproxy.go:121 | when `s` ends with the suffix, the result plus the suffix is `s`; otherwise the result is `s` |
| `WsProxy.NormalizePath` | wsproxy/wsproxy.go:121 | removes exactly one trailing `/` if there is one, and otherwise returns the path unchanged |
| `WsProxy.NormalizeExamples` | wsproxy/wsproxy.go:121 | "/a/" becomes "/a", "/a//" becomes "/a/", "/" becomes "", and "/a" is unchanged |
| `WsProxy.Route` | wsproxy/wsproxy.go:121-122 | a route is found exactly when the normalised path is a configured key as written, and it is that key's URL |
| `WsProxy.TrailingSlashSameRoute` | wsproxy/wsproxy.go:121-122 | for a path not ending in `/`, adding one `/` gives the same route |
| `WsProxy.PathsReachingKey` | wsproxy/wsproxy.go:121-122 | a path normalises to a key exactly when it is the key plus one `/`, or the key itself when the key does not end in `/` |
| `WsProxy.Pump` | wsproxy/wsproxy.go:80-104 | states no contract: one relay loop, read by read, until the first failed read or write; its properties are carried by `WsProxy.PumpCharacterised`, `WsProxy.PumpDeliversAll` and `WsProxy.PumpStopsAtFirstError` |
| `WsProxy.PumpCharacterised` | wsproxy/wsproxy.go:80-104 | the k-th forwarded message is the k-th read, with the same type and payload, and its write succeeded; the loop ends on a read error (forwarding nothing for it) or on a write error right after the last forwarded message, or is still running when the trace runs out |
| `WsProxy.PumpDeliversAll` | wsproxy/wsproxy.go:93-104 | when every read and write succeeds, every message is forwarded unchanged and in order |
| `WsProxy.PumpStopsAtFirstError` | wsproxy/wsproxy.go:80-91 | once a direction has stopped, later reads and writes change nothing it delivered |
| `WsProxy.RelayLoop` | wsproxy/wsproxy.go:93-104 | the loop forwards and ends exactly as `Pump` says |
| `WsProxy.ProxyTrace` | wsproxy/wsproxy.go:45-105 | states no contract: the steps and relays of `proxyWebSocket` per dial and upgrade outcome; `WsProxy.ProxyWebSocket` and `WsProxy.HandleRequest` are proved equal to it, and `ProxyWebSocket`'s contract states its properties |
| `WsProxy.ProxyWebSocket` | wsproxy/wsproxy.go:45-105 | the trace is `ProxyTrace` of the URL: the backend is dialled first; a failed dial answers 500 and nothing is upgraded; a failed upgrade closes the backend and relays nothing; after both succeed each direction relays as `Pump` says, and the end of the client-to-backend loop closes the client and then the backend, each once |
| `WsProxy.HandleRequest` | wsproxy/wsproxy.go:120-130 | an unrouted path answers 404 and dials nothing; a routed path starts by dialling exactly the configured URL; a routed path behaves exactly as `ProxyTrace` of the configured URL: 500 after a failed dial, the backend closed after a failed upgrade, and otherwise both relays as `Pump` says; an upgrade is attempted only for a routed path whose dial succeeded |

## Left out

- `initCloseHook` (signal handling, a detached goroutine, `os.Exit`) is not modelled. `getConfigedLogger` calls it before `initLogger`, and the model skips that call.
- Concurrency is not modelled: the mutex, the unlocked first check in `getConfigedLogger`, `sync.Once`'s blocking of concurrent callers, the relay goroutine and the `done` channel. Run sequentially, the double-checked lookup is a single lookup, and that is how the model writes it.
- Loggers and file handles are values, so pointer identity becomes value equality. logrus internals (level filtering, hooks, writing entries) are not modelled. Nothing mutates a logger after creation in this code.
- Real file opening, closing and writing, and the close-error message, are not modelled. The open outcome is a parameter, and `CloseAllLoggers` returns the list of handles it closes.
- `time.Now().Format("2006-01-02 15:04:05")` is replaced by a timestamp parameter. The `[]byte` conversion and the always-nil error of `Format` are not modelled.
- `Logger.ToUpper`: maps ASCII letters only, because Go's `strings.ToUpper` uses Unicode case tables. The level names are ASCII, so the formatters are unaffected.
- `loadConfig` (JSON decoding, file I/O), `flag` parsing, `http.ListenAndServe` and logging calls are library I/O and are not modelled.
- `websocket.Dial`, `Upgrade`, `ReadMessage`, `WriteMessage`, `url.Parse` and `http.Error` are abstract outcomes or recorded actions. The dial URL is the configured string itself. The case where `url.Parse` fails and its ignored error leaves a nil URL is not modelled.
- When a relay loop's trace runs out, the model reports `StillRunning` and performs no close. A blocked read or write that never returns is therefore a finite prefix, not an infinite run.
- The model does not end the backend-to-client loop when the handler closes the two connections. In the source, the deferred closes that run when the client-to-backend loop returns make the goroutine's next read or write fail. In the model, that direction's trace is independent of the closes, and it may still report `StillRunning` after them.
- The HTTP error reply that `Upgrader.Upgrade` itself writes when an upgrade fails (for example 400 for a request that is not a WebSocket handshake) is not modelled. The trace after a failed upgrade records only the attempt and the backend close.
- Go's `http.ServeMux` path cleaning and its 301 redirects run before the handler and are not modelled. `HandleRequest` starts from the path the handler receives.
