# react-native-http-server: request correlation and lifecycle

This project models the core of a React Native bridge to an embedded HTTP
server (GCDWebServer on iOS) and proves properties of that model in Dafny.

- **Native manager** (`ios/RNHTTPServer.swift`, `WebServerManager`). It has a
  two-state flag `serverRunning` (Stopped or Running) and a correlation table
  `completionBlocks` from a minted request id to the engine's one-shot
  completion block.
  - `subscribe(method)` adds a bridging handler to the engine for that method.
  - For each request, the bridging handler mints an id, stores the completion
    and emits the event `{requestId, body}` under the method's name.
  - `response(requestId, status, data)` fires the stored completion once and
    removes it. An unknown id is logged. The table is read with key-value
    coding (`value(forKey:)`), so an id starting with '@' is not a table
    lookup at all: it names an `NSDictionary` operator or property, and the
    process crashes (an `NSUnknownKeyException`, or the forced cast fails).
    Minted ids are UUID strings, so a pending request never hits this.
  - `startServer`, `stopServer` and `isRunning` are guarded transitions and a
    read of the flag.
- **JavaScript layer** (`httpServer.js`).
  - `Router` maps method keys to handlers, with chained setters.
  - `HTTPServer.registerRouter` upper-cases each key, records it in
    `eventTypes`, subscribes it natively and adds a listener. The listener
    checks the handler's `{data, status}` before it calls `response`.
  - `stop` removes the listeners of every recorded type.

Layout:
- `wrappers.dfy`: the `Option` and `Result` types.
- `server_spec.dfy` (module `ServerSpec`): the manager's state as a value (`Manager`) and one transition function per operation.
- `native.dfy` (module `Native`): the class `WebServerManager`. Each method is proved equal to its transition function through `Snapshot()`.
- `native_trace.dfy` (module `NativeTrace`): any sequence of calls, and the proof that no connection is ever answered twice.
- `routing.dfy` (module `Routing`): the `Router` class. Its handler object is an association list in insertion order, the order `Object.entries` uses.
- `js_server.dfy` (module `JsServer`): the `HTTPServer` class, `typeof`, the listener's checks, `toUpperCase`, and the listener table.

The engine is abstract. The model records the port it is bound to, the methods
it has handlers for, and the responses its completion blocks wrote. A completion
block is identified by its connection (`Completion(conn)`). A written response
is `Write(conn, data, "application/json")`.

The model follows the code as written. Six behaviours are worth noting because a
reader might expect otherwise:
- `stopServer` does not clear `completionBlocks`. A request that is pending when
  the server stops is still answered by a later `response` (`RespondAfterStop`).
- `subscribe` has no guard. Each call adds another handler
  (`SubscribeTwiceInstallsTwo`).
- `startServer` marks the manager Running even when the engine fails to bind.
  The parameter `bound` carries that outcome.
- `response` does not use `status` (`RespondIgnoresStatus`).
- `response` with an id starting with '@' crashes the process
  (`RespondKvcKeyCrashes`). The state records this as `crashed`. Only the trace
  model rules out calls after a crash; the class `WebServerManager` and the
  transition functions still accept them, and what they then compute describes
  no real process.
- A handler that resolves after `stop()` still answers: `stop` removes its
  listener but not the pending request, and `Deliver` does not require the
  listener to be registered (`RespondAfterStop` on the native side).

As written, `getPath` returns the handler object, not the stored path, and the
model keeps that.

## Model

| member | source | states |
|---|---|---|
| `ServerSpec.Start` | ios/RNHTTPServer.swift:112-123 | When Stopped: state becomes Running, the engine is bound to the port if binding succeeded, and the result resolves with the engine's URL when it is bound and with none otherwise; a resolved URL implies the engine is bound to the port. When Running: rejects with code "0" and "Server start failed" and nothing changes. Neither case touches the table, handlers, events or writes |
| `ServerSpec.Stop` | ios/RNHTTPServer.swift:128-134 | The state is always Stopped afterwards, and the engine is unbound if it was running. Stopping an already stopped server changes nothing. The table, handlers, events and writes are kept |
| `ServerSpec.Subscribe` | ios/RNHTTPServer.swift:95-96 | Exactly one more handler entry, for the given method, is appended. Everything else is unchanged |
| `ServerSpec.Accept` | ios/RNHTTPServer.swift:96-105 | The bridging handler, given a fresh minted UUID id, adds exactly that id, mapped to its completion, and leaves the other entries alone. It appends exactly one event, named by the method, carrying the same id and the body |
| `ServerSpec.Respond` | ios/RNHTTPServer.swift:83-92 | An id starting with '@' is a key-value coding key: the process crashes and nothing else changes. Otherwise it removes only the given id. For a stored id it appends exactly one write: `data` as application/json on that id's connection. For an absent id it writes nothing, keeps the table and logs the message. Lifecycle state, handlers and events are unchanged in every case |
| `ServerSpec.StartTwiceRejected` | ios/RNHTTPServer.swift:113-122 | A second start without a stop in between is rejected and leaves the first start's state |
| `ServerSpec.StopIdempotent` | ios/RNHTTPServer.swift:128-134 | Stopping twice equals stopping once |
| `ServerSpec.RespondTwiceWritesOnce` | ios/RNHTTPServer.swift:84-91 | A second `response` for the same id adds no write and leaves the table as it was |
| `ServerSpec.RespondIgnoresStatus` | ios/RNHTTPServer.swift:83-86 | The result does not depend on `status` |
| `ServerSpec.UuidIsNotKvcKey` | ios/RNHTTPServer.swift:84-97 | A minted UUID string never starts with '@', so key-value coding reads it as a plain table key |
| `ServerSpec.RespondKvcKeyCrashes` | ios/RNHTTPServer.swift:83-84 | `response` with the id "@count" crashes the process instead of logging, without writing anything |
| `ServerSpec.AcceptThenRespond` | ios/RNHTTPServer.swift:84-100 | Answering a request accepted under a fresh UUID id writes `data` on exactly that request's connection and restores the table |
| `ServerSpec.RespondAfterStop` | ios/RNHTTPServer.swift:128-134 | A request pending at stop (under a UUID id) is still answered by a later `response` |
| `ServerSpec.SubscribeTwiceInstallsTwo` | ios/RNHTTPServer.swift:95-96 | Subscribing a method twice installs two handlers for it |
| `Native.WebServerManager.constructor` | ios/RNHTTPServer.swift:53-60 | Starts Stopped, with an empty table, no handlers, no events and no writes |
| `Native.WebServerManager.SupportedEvents` | ios/RNHTTPServer.swift:35-41 | Returns the event list GET, POST, PUT, PATCH, DELETE |
| `Native.WebServerManager.Response` | ios/RNHTTPServer.swift:83-92 | The new state is `Respond` of the old: a crash for an '@' id, otherwise one write and removal for a stored id, or a log line for an absent one |
| `Native.WebServerManager.Subscribe` | ios/RNHTTPServer.swift:95-106 | The new state is `Subscribe` of the old |
| `Native.WebServerManager.HandleRequest` | ios/RNHTTPServer.swift:96-105 | For a subscribed method and a fresh UUID id, the new state is `Accept` of the old |
| `Native.WebServerManager.StartServer` | ios/RNHTTPServer.swift:112-123 | The new state and the result are those of `Start` |
| `Native.WebServerManager.StopServer` | ios/RNHTTPServer.swift:128-134 | Resolves true, and the new state is `Stop` of the old |
| `Native.WebServerManager.IsRunning` | ios/RNHTTPServer.swift:136-138 | Returns true exactly when the state is Running, and changes nothing |
| `NativeTrace.Run` | ios/RNHTTPServer.swift:83-134 | After any allowed sequence of calls, the earlier writes are a prefix of the later ones: a written response is never undone |
| `NativeTrace.StepKeepsInv` | ios/RNHTTPServer.swift:83-134 | Every call keeps the invariant (no connection written twice, no pending connection written, no two pending ids sharing a connection), given that a new request comes with a fresh UUID id and its own connection, and that a crashed process takes no call |
| `NativeTrace.RunKeepsInv` | ios/RNHTTPServer.swift:83-134 | Every allowed sequence of calls keeps the invariant |
| `NativeTrace.ExactlyOnceCompletion` | ios/RNHTTPServer.swift:84-100 | From the initial state, under any interleaving of calls: each connection receives at most one response, a request still in the table has received none, and no pending id is a key-value coding key, so answering it cannot crash. The process has crashed exactly when some `response` had an id starting with '@'. Short of such a crash, every accepted request has been answered or is still held under its own id, so none is lost. A crash drops every request not yet answered |
| `NativeTrace.HeldStep` | ios/RNHTTPServer.swift:83-134 | A call that is not a `response` with an '@' id keeps a request held: answered, or waiting under its own id in a live process. A `response` with an '@' id keeps only the requests already answered; every waiting one is lost with the process |
| `NativeTrace.NoRequestLost` | ios/RNHTTPServer.swift:83-134 | After any allowed continuation without a `response` with an '@' id, a request that was held still is |
| `NativeTrace.CrashNeedsKvcId` | ios/RNHTTPServer.swift:83-92 | Starting from a live process, the process has crashed at the end of a trace exactly when the trace holds a `response` with an id starting with '@', and that call can only be the last one |
| `NativeTrace.RequestsHeld` | ios/RNHTTPServer.swift:96-105 | In an allowed trace without a `response` with an '@' id, every request accepted is, at its end, answered or still waiting under its own id |
| `NativeTrace.LifecycleKeepsTable` | ios/RNHTTPServer.swift:112-134 | Any sequence of starts and stops leaves the table and the writes unchanged |
| `Routing.Assign` | httpServer.js:18-37 | Afterwards the key maps to the new handler, and every other key to its old handler. A new key is appended and an existing one keeps its place |
| `Routing.LookupNone` | httpServer.js:18-37 | A lookup finds nothing exactly when no entry has the key |
| `Routing.AssignKeepsDistinct` | httpServer.js:18-37 | Assigning keeps each key at most once in the handler object |
| `Routing.LastSetterWins` | httpServer.js:18-37 | Setting the same method twice equals setting it once, to the later handler |
| `Routing.Router.constructor` | httpServer.js:13-16 | Stores the path, starting with no handlers |
| `Routing.Router.Post` | httpServer.js:18-21 | Stores the handler under "post", overwriting any earlier one, and returns the same router |
| `Routing.Router.Put` | httpServer.js:22-25 | Stores the handler under "put", overwriting any earlier one, and returns the same router |
| `Routing.Router.Patch` | httpServer.js:26-29 | Stores the handler under "patch", overwriting any earlier one, and returns the same router |
| `Routing.Router.Get` | httpServer.js:30-33 | Stores the handler under "get", overwriting any earlier one, and returns the same router |
| `Routing.Router.Delete` | httpServer.js:34-37 | Stores the handler under "delete", overwriting any earlier one, and returns the same router |
| `Routing.Router.GetHandlers` | httpServer.js:39-41 | Returns the handler object |
| `Routing.Router.GetPath` | httpServer.js:42-44 | Returns the handler object, not the stored path |
| `JsServer.TypeOf` | httpServer.js:76-79 | Gives "string" exactly for strings and "number" exactly for numbers |
| `JsServer.CheckResult` | httpServer.js:75-82 | Succeeds exactly when `data` is a string and `status` is a number. `data` is checked first: non-string data fails with "Data must be of type string" whatever `status` is. A string `data` with a non-number status fails with "Status must be of type number". On success the reply holds the event's id and the handler's status and data, unchanged |
| `JsServer.UpperChar` | httpServer.js:69 | Upper-cases an ASCII lower-case letter and keeps every other character; the result is never a lower-case letter |
| `JsServer.ToUpper` | httpServer.js:69 | Same length; each lower-case letter becomes its capital, every other character is kept, and no lower-case letter is left |
| `JsServer.ToUpperIdempotent` | httpServer.js:69 | Upper-casing twice equals upper-casing once |
| `JsServer.KeyToEvent` | httpServer.js:69 | Each setter key upper-cases to its event name: post to POST, put to PUT, patch to PATCH, get to GET, delete to DELETE |
| `JsServer.KeyEventSupported` | httpServer.js:69-71 | Each setter key upper-cases to a name in the native module's supported events |
| `JsServer.KeyEventsDistinct` | httpServer.js:69 | Different setter keys upper-case to different names |
| `JsServer.RegisteredEventsSupported` | httpServer.js:68-71 | Every event a router's handlers are registered under is supported natively |
| `JsServer.RegisteredEventsDistinct` | httpServer.js:68-71 | A router with distinct keys registers each event name once |
| `JsServer.RouterEventsSupportedAndDistinct` | httpServer.js:18-37 | For any router built through its setters, the events it registers are all supported natively and pairwise distinct |
| `JsServer.EventNames` | httpServer.js:68-70 | One event name per handler entry, in entry order: the upper-cased key |
| `JsServer.EventNamesPrefix` | httpServer.js:68-70 | One more entry adds exactly its upper-cased key at the end |
| `JsServer.ListenersFor` | httpServer.js:68-84 | One listener per handler entry, in entry order, for the upper-cased key and that entry's handler |
| `JsServer.ListenersForPrefix` | httpServer.js:68-84 | One more entry adds exactly its listener at the end |
| `JsServer.Without` | httpServer.js:61 | `removeAllListeners(t)` keeps exactly the listeners for other types |
| `JsServer.WithoutAll` | httpServer.js:60-62 | Removing several types keeps exactly the listeners for none of them |
| `JsServer.WithoutCounts` | httpServer.js:61 | `removeAllListeners(t)` leaves no listener for `t` and keeps each other listener as many times as it was added |
| `JsServer.WithoutAllCounts` | httpServer.js:60-62 | Removing several types leaves none of their listeners and keeps each other listener as many times as it was added |
| `JsServer.WithoutAppend` | httpServer.js:61 | Removal keeps order: removing from a concatenation is removing from each part |
| `JsServer.WithoutAllCovered` | httpServer.js:59-64 | When every listener's type is among the removed types, no listener is left |
| `JsServer.WithoutAbsent` | httpServer.js:61 | Removing a type no listener has changes nothing |
| `JsServer.WithoutAllAbsent` | httpServer.js:60-62 | Removing types no listener has changes nothing |
| `JsServer.StopListenersIdempotent` | httpServer.js:59-64 | A second `stop` removes no further listener |
| `JsServer.HTTPServer.constructor` | httpServer.js:48-52 | Keeps the port and the native module, starting with no event types and no listeners, so every listener's type is recorded (`Valid`) |
| `JsServer.HTTPServer.Start` | httpServer.js:54-57 | Sets `started` to true. The native state and the result are those of `Start` with the configured port. Listeners and event types are unchanged |
| `JsServer.HTTPServer.Stop` | httpServer.js:59-65 | Removes every listener of a recorded type; since every listener was added under a recorded type, none is left. `eventTypes` is kept and `started` becomes false. The native state is `Stop` of the old, and the result is true |
| `JsServer.HTTPServer.RegisterRouter` | httpServer.js:67-86 | Appends the upper-cased keys to `eventTypes` in entry order, duplicates kept. Subscribes each natively, so exactly those handlers are appended and the rest of the native state is unchanged. Adds one listener per entry, under its recorded name |
| `JsServer.HTTPServer.RegisterEntry` | httpServer.js:68-85 | For one entry: records the upper-cased key, subscribes it once natively and adds its listener |
| `JsServer.HTTPServer.Deliver` | httpServer.js:74-83 | The listener's completion, whether or not it is still registered: its outcome is `CheckResult`. On success the native state is `Respond` with the event's id and the handler's status and data. On failure the native state is unchanged |
| `JsServer.HTTPServer.IsRunning` | httpServer.js:87-89 | Returns true exactly when the native state is Running |

## Left out

- GCDWebServer: accepting sockets, parsing HTTP, the response bytes and the status code it sends by default. A written response is only recorded as a `Write`.
- The server URL: it is a parameter (`url`) that `startServer` resolves with. Whether binding succeeds is the parameter `bound`. The Bonjour name passed to the engine is not modelled.
- `DispatchQueue.main.sync` and the access to `completionBlocks` from the engine's threads. These are concurrency concerns; the model is one sequential interleaving of calls.
- UUID minting: the id is a parameter, and `HandleRequest` requires that it is an upper-case UUID string not in the table. In the trace model, the engine also gives each request its own connection.
- UTF-8 encoding of `data` and decoding of the request body: `data` is recorded as text. The body is `Option<string>`, with `None` standing for a body that did not decode.
- React Native bridge glue: the `EventEmitter` singleton registration, `sendEvent`, how promises resolve and reject (a result value stands in for them), and the `NSError` built for the rejection.
- `HTTPServer.registerHandler`: it calls a native `registerHandler` that the Swift module does not define.
- `WebServerManagerError.completionNotFound`: it is declared but never used.
- `HTTPServer.subscription`: the field holds the last listener handle and is never read.
- JavaScript async/await: a handler's resolved `{data, status}` is a parameter of `Deliver`. A handler that rejects, or a result that is not an object, is not modelled. A thrown check error is returned as `Failure`.
- JavaScript numbers are modelled as integers, and the conversion of `status` to `NSInteger` is not modelled.
- JsServer.ToUpper: models `toUpperCase` for ASCII only. Other Unicode case mappings (such as 'ß' to "SS") are left out; the setter keys are ASCII.
- JsServer.UpperChar: upper-cases the ASCII letters only, for the same reason.
- `NativeEventEmitter` listeners are shared by every emitter on the bridge. Here each `HTTPServer` owns its listener list.
- ServerSpec.Respond: treats every id starting with '@' as a crash. A key-value coding key whose value is nil (or a completion block) would not crash; such keys are not distinguished.
- Native.WebServerManager.Response: the same simplification as `ServerSpec.Respond` for ids starting with '@'.
- Native.WebServerManager.StartServer: takes the port as a `nat`. A negative port, which traps in Swift's `UInt` conversion, is not modelled.
