/**
 * The native module `WebServerManager` of ios/RNHTTPServer.swift as a class whose
 * fields the methods update in place. Each method is proved against the
 * transition of the same name in `ServerSpec`, through `Snapshot()`.
 */
module Native {
  import opened Wrappers
  import opened ServerSpec

  class WebServerManager {
    /** `serverRunning` */
    var serverRunning: ServerState
    /** `completionBlocks`: request id to the completion block waiting for its answer */
    var completionBlocks: map<string, Completion>
    /** The engine (`webServer`): the port it is bound to, its handlers, the responses it wrote. */
    var boundPort: Option<nat>
    var handlers: seq<string>
    var writes: seq<Write>
    /** Events sent to JavaScript through the event emitter. */
    var events: seq<InboundEvent>
    /** Lines passed to NSLog. */
    var log: seq<string>
    /** Whether the process died in `response`. */
    var crashed: bool

    /** The value of all the state above. */
    function Snapshot(): Manager
      reads this
    {
      Manager(serverRunning, boundPort, completionBlocks, handlers, events, writes, log, crashed)
    }

    constructor ()
      ensures Snapshot() == Initial
    {
      serverRunning := Stopped;
      completionBlocks := map[];
      boundPort := None;
      handlers := [];
      writes := [];
      events := [];
      log := [];
      crashed := false;
    }

    /** `supportedEvents`: the five method names, each of which can be a topic. */
    method SupportedEvents() returns (r: seq<string>)
      ensures r == AllEvents
    {
      r := AllEvents;
    }

    /**
     * `response(requestId, status, data)`. The lookup is `value(forKey:)`, so an
     * id starting with '@' goes to key-value coding and the process dies.
     */
    method Response(requestId: string, status: int, data: string)
      modifies this
      ensures Snapshot() == Respond(old(Snapshot()), requestId, status, data)
    {
      if IsKvcKey(requestId) {
        crashed := true;
      } else if requestId in completionBlocks {
        var completion := completionBlocks[requestId];
        writes := writes + [Write(completion.conn, data, ResponseContentType)];
        completionBlocks := completionBlocks - {requestId};
      } else {
        log := log + [MissingCompletionMessage];
      }
    }

    /** `subscribe(method)`: installs one more bridging handler for `verb`. */
    method Subscribe(verb: string)
      modifies this
      ensures Snapshot() == ServerSpec.Subscribe(old(Snapshot()), verb)
    {
      handlers := handlers + [verb];
    }

    /**
     * The bridging handler that `Subscribe(verb)` installed, run by the engine for
     * one request of method `verb`. `requestId` is the freshly minted UUID string,
     * `body` the decoded request body and `completion` the engine's completion block.
     */
    method HandleRequest(verb: string, requestId: string, body: Option<string>, completion: Completion)
      requires verb in handlers
      requires IsUuidString(requestId) && requestId !in completionBlocks
      modifies this
      ensures Snapshot() == Accept(old(Snapshot()), verb, requestId, body, completion)
    {
      completionBlocks := completionBlocks[requestId := completion];
      events := events + [InboundEvent(verb, requestId, body)];
    }

    /**
     * `startServer(port)`. `bound` is whether the engine could bind the port and
     * `url` the server URL the engine reports once bound.
     */
    method StartServer(port: nat, bound: bool, url: Option<string>) returns (r: StartResult)
      modifies this
      ensures (Snapshot(), r) == Start(old(Snapshot()), port, bound, url)
    {
      if serverRunning == Stopped {
        serverRunning := Running;
        boundPort := if bound then Some(port) else None;
        r := Resolved(if bound then url else None);
      } else {
        r := Rejected(StartFailedCode, StartFailedMessage);
      }
    }

    /** `stopServer`: always resolves `true`. */
    method StopServer() returns (r: bool)
      modifies this
      ensures r
      ensures Snapshot() == Stop(old(Snapshot()))
    {
      if serverRunning == Running {
        boundPort := None;
        serverRunning := Stopped;
      }
      r := true;
    }

    /** `isRunning`: resolves whether the state is Running, and changes nothing. */
    method IsRunning() returns (r: bool)
      ensures r <==> serverRunning == Running
    {
      r := serverRunning == Running;
    }
  }
}
