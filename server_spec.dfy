/**
 * Value-level specification of the native `WebServerManager` of
 * ios/RNHTTPServer.swift, together with the part of the embedded HTTP engine
 * (GCDWebServer) and the event emitter that the manager drives.
 *
 * The engine is abstract: it records the port it was bound to, the methods for
 * which a default handler was added, and the responses its completion blocks
 * wrote. A completion block is identified by the connection it answers.
 */
module ServerSpec {
  import opened Wrappers

  /** `EventEmitter.allEvents`: the event names declared to React Native. */
  const AllEvents: seq<string> := ["GET", "POST", "PUT", "PATCH", "DELETE"]

  /** Error code and message with which `startServer` rejects. */
  const StartFailedCode: string := "0"
  const StartFailedMessage: string := "Server start failed"

  /** What `response` logs when it finds no completion for the id. */
  const MissingCompletionMessage: string := "A completion is attempted to be called twice. "

  /** Content type of every response the manager writes. */
  const ResponseContentType: string := "application/json"

  datatype ServerState = Stopped | Running

  /** A one-shot completion block of the engine, naming the connection it answers. */
  datatype Completion = Completion(conn: nat)

  /** The event `{requestId, body}` sent under the method name; `body` is absent when UTF-8 decoding failed. */
  datatype InboundEvent = InboundEvent(name: string, requestId: string, body: Option<string>)

  /** A response the engine wrote on a connection: the text of `data` and its content type. */
  datatype Write = Write(conn: nat, data: string, contentType: string)

  /** How the `startServer` promise settles. */
  datatype StartResult = Resolved(url: Option<string>) | Rejected(code: string, message: string)

  /**
   * The state of the manager and of what it drives:
   * `running` is `serverRunning`, `blocks` is `completionBlocks`,
   * `boundPort` the port the engine listens on, `handlers` the methods the
   * engine has a bridging handler for (one entry per `subscribe` call),
   * `events` the events sent to JavaScript, `writes` the responses written,
   * `log` the lines passed to NSLog, and `crashed` whether the process died
   * in `response` (an uncaught exception or a failed forced cast).
   */
  datatype Manager = Manager(
    running: ServerState,
    boundPort: Option<nat>,
    blocks: map<string, Completion>,
    handlers: seq<string>,
    events: seq<InboundEvent>,
    writes: seq<Write>,
    log: seq<string>,
    crashed: bool)

  /** The state right after `init`. */
  const Initial: Manager := Manager(Stopped, None, map[], [], [], [], [], false)

  /** A character of `UUID().uuidString`: an upper-case hexadecimal digit. */
  predicate IsUuidDigit(c: char)
  {
    '0' <= c <= '9' || 'A' <= c <= 'F'
  }

  /** The form of `UUID().uuidString`: 8-4-4-4-12 upper-case hexadecimal digits. */
  predicate IsUuidString(s: string)
  {
    |s| == 36 &&
    forall i :: 0 <= i < 36 ==>
      if i == 8 || i == 13 || i == 18 || i == 23 then s[i] == '-' else IsUuidDigit(s[i])
  }

  /**
   * `NSDictionary.value(forKey:)` hands a key that starts with '@' to key-value
   * coding on the dictionary object itself instead of looking it up.
   */
  predicate IsKvcKey(id: string)
  {
    |id| > 0 && id[0] == '@'
  }

  /** A minted request id is never handed to key-value coding. */
  lemma UuidIsNotKvcKey(s: string)
    requires IsUuidString(s)
    ensures !IsKvcKey(s)
  {
    assert IsUuidDigit(s[0]);
  }

  /**
   * `startServer(port)`: only a stopped server starts. `bound` says whether the
   * engine managed to bind the port and `url` is the URL the engine reports
   * once bound; an unbound engine reports none. The manager marks itself
   * Running either way.
   */
  function Start(m: Manager, port: nat, bound: bool, url: Option<string>): (r: (Manager, StartResult))
    ensures m.running == Stopped ==> r.0.running == Running && r.1.Resolved?
    ensures m.running == Stopped ==> r.0.boundPort == (if bound then Some(port) else None)
    ensures m.running == Stopped && bound ==> r.1.url == url
    ensures r.1.Resolved? && r.1.url.Some? ==> r.0.boundPort == Some(port)
    ensures m.running == Running ==> r.0 == m && r.1 == Rejected(StartFailedCode, StartFailedMessage)
    ensures r.0.blocks == m.blocks && r.0.handlers == m.handlers && r.0.crashed == m.crashed
    ensures r.0.events == m.events && r.0.writes == m.writes && r.0.log == m.log
  {
    if m.running == Stopped then
      (m.(running := Running, boundPort := if bound then Some(port) else None),
       Resolved(if bound then url else None))
    else
      (m, Rejected(StartFailedCode, StartFailedMessage))
  }

  /** `stopServer`: stops the engine if running; pending completions and handlers are kept. */
  function Stop(m: Manager): (r: Manager)
    ensures r.running == Stopped
    ensures m.running == Running ==> r.boundPort == None
    ensures m.running == Stopped ==> r == m
    ensures r.blocks == m.blocks && r.handlers == m.handlers && r.crashed == m.crashed
    ensures r.events == m.events && r.writes == m.writes && r.log == m.log
  {
    if m.running.Running? then m.(running := Stopped, boundPort := None) else m
  }

  /** `subscribe(method)`: adds one more default handler for the method `verb`, with no check for an earlier one. */
  function Subscribe(m: Manager, verb: string): (r: Manager)
    ensures |r.handlers| == |m.handlers| + 1 && r.handlers[|m.handlers|] == verb
    ensures r.handlers[..|m.handlers|] == m.handlers
    ensures r.(handlers := m.handlers) == m
  {
    m.(handlers := m.handlers + [verb])
  }

  /**
   * The bridging handler installed by `subscribe(verb)`, run by the engine for
   * one request: stores completion `c` under the freshly minted UUID `id` and
   * sends one event.
   */
  function Accept(m: Manager, verb: string, id: string, body: Option<string>, c: Completion): (r: Manager)
    requires IsUuidString(id) && id !in m.blocks
    ensures r.blocks.Keys == m.blocks.Keys + {id} && r.blocks[id] == c
    ensures forall k :: k in m.blocks ==> r.blocks[k] == m.blocks[k]
    ensures |r.events| == |m.events| + 1 && r.events[..|m.events|] == m.events
    ensures r.events[|m.events|] == InboundEvent(verb, id, body)
    ensures r.(blocks := m.blocks, events := m.events) == m
  {
    m.(blocks := m.blocks[id := c], events := m.events + [InboundEvent(verb, id, body)])
  }

  /**
   * `response(requestId, status, data)`: fires the stored completion once with
   * `data` as an application/json body and forgets it; an unknown id is
   * logged, except that an id starting with '@' goes to key-value coding and
   * the process dies. `status` is not used.
   */
  function Respond(m: Manager, id: string, status: int, data: string): (r: Manager)
    ensures IsKvcKey(id) ==> r == m.(crashed := true)
    ensures !IsKvcKey(id) ==> r.blocks.Keys == m.blocks.Keys - {id} && r.crashed == m.crashed
    ensures forall k :: k in r.blocks ==> r.blocks[k] == m.blocks[k]
    ensures !IsKvcKey(id) && id in m.blocks ==>
      r.writes == m.writes + [Write(m.blocks[id].conn, data, ResponseContentType)] && r.log == m.log
    ensures !IsKvcKey(id) && id !in m.blocks ==>
      r.writes == m.writes && r.log == m.log + [MissingCompletionMessage]
    ensures r.running == m.running && r.boundPort == m.boundPort
    ensures r.handlers == m.handlers && r.events == m.events
  {
    if IsKvcKey(id) then
      m.(crashed := true)
    else if id in m.blocks then
      m.(writes := m.writes + [Write(m.blocks[id].conn, data, ResponseContentType)],
         blocks := m.blocks - {id})
    else
      m.(log := m.log + [MissingCompletionMessage])
  }

  /** A second `startServer` without a `stopServer` between is rejected and changes nothing. */
  lemma StartTwiceRejected(m: Manager, p1: nat, b1: bool, u1: Option<string>, p2: nat, b2: bool, u2: Option<string>)
    requires m.running == Stopped
    ensures var s1 := Start(m, p1, b1, u1).0;
            Start(s1, p2, b2, u2) == (s1, Rejected(StartFailedCode, StartFailedMessage))
  {
  }

  /** Stopping twice has the effect of stopping once. */
  lemma StopIdempotent(m: Manager)
    ensures Stop(Stop(m)) == Stop(m)
  {
  }

  /** A second `response` for the same id writes nothing: the completion fires once. */
  lemma RespondTwiceWritesOnce(m: Manager, id: string, s1: int, d1: string, s2: int, d2: string)
    ensures Respond(Respond(m, id, s1, d1), id, s2, d2).writes == Respond(m, id, s1, d1).writes
    ensures Respond(Respond(m, id, s1, d1), id, s2, d2).blocks == Respond(m, id, s1, d1).blocks
  {
  }

  /** The `status` argument has no effect on what `response` does. */
  lemma RespondIgnoresStatus(m: Manager, id: string, s1: int, s2: int, data: string)
    ensures Respond(m, id, s1, data) == Respond(m, id, s2, data)
  {
  }

  /** Answering a request accepted with a fresh id writes `data` on exactly that request's connection. */
  lemma AcceptThenRespond(m: Manager, verb: string, id: string, body: Option<string>, c: Completion, status: int, data: string)
    requires IsUuidString(id) && id !in m.blocks
    ensures var r := Respond(Accept(m, verb, id, body, c), id, status, data);
            r.writes == m.writes + [Write(c.conn, data, ResponseContentType)] && r.blocks == m.blocks
  {
    UuidIsNotKvcKey(id);
    var a := Accept(m, verb, id, body, c);
    assert Respond(a, id, status, data).blocks == m.blocks;
  }

  /**
   * `stopServer` keeps the table: a request pending when the server stopped is
   * still answered, on its own connection, by a later `response`.
   */
  lemma RespondAfterStop(m: Manager, id: string, status: int, data: string)
    requires id in m.blocks && IsUuidString(id)
    ensures Respond(Stop(m), id, status, data).writes == m.writes + [Write(m.blocks[id].conn, data, ResponseContentType)]
  {
    UuidIsNotKvcKey(id);
  }

  /**
   * An unknown id that starts with '@' is not logged: the lookup goes to
   * key-value coding on the dictionary, which raises or hands back an object
   * that is not a completion block, and the process dies.
   */
  lemma RespondKvcKeyCrashes(m: Manager, status: int, data: string)
    requires "@count" !in m.blocks
    ensures Respond(m, "@count", status, data).crashed
    ensures Respond(m, "@count", status, data).log == m.log
    ensures Respond(m, "@count", status, data).writes == m.writes
  {
  }

  /** `subscribe` has no guard: subscribing a method twice installs two bridging handlers for it. */
  lemma SubscribeTwiceInstallsTwo(m: Manager, verb: string)
    ensures Subscribe(Subscribe(m, verb), verb).handlers == m.handlers + [verb, verb]
  {
  }
}
