/**
 * The `HTTPServer` class of httpServer.js: it registers a router's handlers as
 * native subscriptions plus event listeners, checks what each handler returns
 * before answering through the native `response`, and starts and stops the
 * native server.
 */
module JsServer {
  import opened Wrappers
  import opened ServerSpec
  import opened Routing
  import Native

  /** The JavaScript values a handler can put in `data` or `status`; numbers are taken as integers. */
  datatype JsValue = Undefined | Null | Bool(b: bool) | Number(n: int) | Str(s: string) | Object

  /** The `typeof` operator. */
  function TypeOf(v: JsValue): (r: string)
    ensures r == "string" <==> v.Str?
    ensures r == "number" <==> v.Number?
  {
    match v
    case Undefined => "undefined"
    case Null => "object"
    case Bool(_) => "boolean"
    case Number(_) => "number"
    case Str(_) => "string"
    case Object => "object"
  }

  /** The `{data, status}` a handler's promise resolves to. */
  datatype HandlerResult = HandlerResult(data: JsValue, status: JsValue)

  /** The arguments the listener passes to the native `response`. */
  datatype Reply = Reply(requestId: string, status: int, data: string)

  const DataTypeError: string := "Data must be of type string"
  const StatusTypeError: string := "Status must be of type number"

  /**
   * The listener's checks: `data` must be a string, checked first, and `status`
   * a number; only then is the reply formed, from the event's id and the
   * handler's values unchanged.
   */
  function CheckResult(requestId: string, res: HandlerResult): (r: Result<Reply, string>)
    ensures r.Success? <==> res.data.Str? && res.status.Number?
    ensures !res.data.Str? ==> r == Failure(DataTypeError)
    ensures res.data.Str? && !res.status.Number? ==> r == Failure(StatusTypeError)
    ensures r.Success? ==> r.value.requestId == requestId
    ensures r.Success? ==> r.value.status == res.status.n && r.value.data == res.data.s
  {
    if TypeOf(res.data) != "string" then Failure(DataTypeError)
    else if TypeOf(res.status) != "number" then Failure(StatusTypeError)
    else Success(Reply(requestId, res.status.n, res.data.s))
  }

  /** `toUpperCase` on one character, for the ASCII letters. */
  function UpperChar(c: char): (r: char)
    ensures 'a' <= c <= 'z' ==> r as int == c as int - 32
    ensures !('a' <= c <= 'z') ==> r == c
    ensures !('a' <= r <= 'z')
  {
    if 'a' <= c <= 'z' then (c as int - 32) as char else c
  }

  /**
   * `toUpperCase`: the same string with each lower-case letter replaced by
   * its capital and every other character kept.
   */
  function ToUpper(s: string): (r: string)
    ensures |r| == |s|
    ensures forall i :: 0 <= i < |s| && 'a' <= s[i] <= 'z' ==> r[i] as int == s[i] as int - 32
    ensures forall i :: 0 <= i < |s| && !('a' <= s[i] <= 'z') ==> r[i] == s[i]
    ensures forall i :: 0 <= i < |r| ==> !('a' <= r[i] <= 'z')
  {
    seq(|s|, i requires 0 <= i < |s| => UpperChar(s[i]))
  }

  /** Upper-casing twice is upper-casing once. */
  lemma ToUpperIdempotent(s: string)
    ensures ToUpper(ToUpper(s)) == ToUpper(s)
  {
  }

  /** The event name `registerRouter` derives from each handler key, in order. */
  function EventNames(es: seq<Entry>): (r: seq<string>)
    ensures |r| == |es|
    ensures forall i :: 0 <= i < |es| ==> r[i] == ToUpper(es[i].key)
  {
    if es == [] then [] else [ToUpper(es[0].key)] + EventNames(es[1..])
  }

  /** Removing a type no listener has changes nothing. */
  lemma {:induction false} WithoutAbsent(ls: seq<Listener>, t: string)
    requires forall l :: l in ls ==> l.eventName != t
    ensures Without(ls, t) == ls
  {
    if ls != [] {
      assert ls[0] in ls;
      WithoutAbsent(ls[1..], t);
    }
  }

  /** Removing types no listener has changes nothing. */
  lemma {:induction false} WithoutAllAbsent(ls: seq<Listener>, ts: seq<string>)
    requires forall l :: l in ls ==> l.eventName !in ts
    ensures WithoutAll(ls, ts) == ls
  {
    if ts != [] {
      var init := ts[..|ts| - 1];
      assert forall l :: l in ls ==> l.eventName !in init;
      WithoutAllAbsent(ls, init);
      WithoutAbsent(ls, ts[|ts| - 1]);
    }
  }

  /** A second `stop()` removes no further listener. */
  lemma StopListenersIdempotent(ls: seq<Listener>, ts: seq<string>)
    ensures WithoutAll(WithoutAll(ls, ts), ts) == WithoutAll(ls, ts)
  {
    WithoutAllAbsent(WithoutAll(ls, ts), ts);
  }

  /** One more entry adds one more event name. */
  lemma EventNamesPrefix(es: seq<Entry>, i: nat)
    requires i < |es|
    ensures EventNames(es[..i + 1]) == EventNames(es[..i]) + [ToUpper(es[i].key)]
  {
  }

  /** A listener added with `addListener(eventName, ...)`, running `handler`. */
  datatype Listener = Listener(eventName: string, handler: Handler)

  /** The listeners `registerRouter` adds for each handler entry, in order. */
  function ListenersFor(es: seq<Entry>): (r: seq<Listener>)
    ensures |r| == |es|
    ensures forall i :: 0 <= i < |es| ==> r[i] == Listener(ToUpper(es[i].key), es[i].handler)
  {
    if es == [] then [] else [Listener(ToUpper(es[0].key), es[0].handler)] + ListenersFor(es[1..])
  }

  /** One more entry adds one more listener. */
  lemma ListenersForPrefix(es: seq<Entry>, i: nat)
    requires i < |es|
    ensures ListenersFor(es[..i + 1]) == ListenersFor(es[..i]) + [Listener(ToUpper(es[i].key), es[i].handler)]
  {
    var l, r := ListenersFor(es[..i + 1]), ListenersFor(es[..i]) + [Listener(ToUpper(es[i].key), es[i].handler)];
    assert forall k :: 0 <= k < |l| ==> l[k] == r[k];
  }

  /** `removeAllListeners(t)`: drops every listener for `t` and keeps the others in order. */
  function Without(ls: seq<Listener>, t: string): (r: seq<Listener>)
    ensures forall l :: l in r <==> l in ls && l.eventName != t
    ensures |r| <= |ls|
  {
    if ls == [] then []
    else if ls[0].eventName == t then Without(ls[1..], t)
    else [ls[0]] + Without(ls[1..], t)
  }

  /** `removeAllListeners` for each of `ts` in turn. */
  function WithoutAll(ls: seq<Listener>, ts: seq<string>): (r: seq<Listener>)
    ensures forall l :: l in r <==> l in ls && l.eventName !in ts
  {
    if ts == [] then ls else Without(WithoutAll(ls, ts[..|ts| - 1]), ts[|ts| - 1])
  }

  /** `removeAllListeners(t)` keeps each other listener as many times as it was added. */
  lemma {:induction false} WithoutCounts(ls: seq<Listener>, t: string)
    ensures forall l :: multiset(Without(ls, t))[l] == if l.eventName == t then 0 else multiset(ls)[l]
  {
    if ls != [] {
      WithoutCounts(ls[1..], t);
      assert ls == [ls[0]] + ls[1..];
    }
  }

  /** Removing each of `ts` keeps every listener of another type as many times as it was added. */
  lemma {:induction false} WithoutAllCounts(ls: seq<Listener>, ts: seq<string>)
    ensures forall l :: multiset(WithoutAll(ls, ts))[l] == if l.eventName in ts then 0 else multiset(ls)[l]
  {
    if ts != [] {
      var init := ts[..|ts| - 1];
      WithoutAllCounts(ls, init);
      WithoutCounts(WithoutAll(ls, init), ts[|ts| - 1]);
      assert ts == init + [ts[|ts| - 1]];
    }
  }

  /** Removal keeps order: removing from a concatenation removes from each part. */
  lemma {:induction false} WithoutAppend(a: seq<Listener>, b: seq<Listener>, t: string)
    ensures Without(a + b, t) == Without(a, t) + Without(b, t)
  {
    if a != [] {
      assert (a + b)[1..] == a[1..] + b;
      WithoutAppend(a[1..], b, t);
    } else {
      assert a + b == b;
    }
  }

  /** Removing every type a listener has leaves no listener. */
  lemma WithoutAllCovered(ls: seq<Listener>, ts: seq<string>)
    requires forall l :: l in ls ==> l.eventName in ts
    ensures WithoutAll(ls, ts) == []
  {
    WithoutAllCounts(ls, ts);
    assert multiset(WithoutAll(ls, ts)) == multiset{};
  }

  /** The event name each setter key upper-cases to. */
  lemma KeyToEvent(k: string)
    requires k in MethodKeys
    ensures ToUpper(k) == if k == "post" then "POST" else if k == "put" then "PUT"
                          else if k == "patch" then "PATCH" else if k == "get" then "GET" else "DELETE"
  {
  }

  /** Each setter key upper-cases to an event the native module supports. */
  lemma KeyEventSupported(k: string)
    requires k in MethodKeys
    ensures ToUpper(k) in AllEvents
  {
    KeyToEvent(k);
  }

  /** Different setter keys upper-case to different event names. */
  lemma KeyEventsDistinct(a: string, b: string)
    requires a in MethodKeys && b in MethodKeys && a != b
    ensures ToUpper(a) != ToUpper(b)
  {
    KeyToEvent(a);
    KeyToEvent(b);
  }

  /** Registering a valid router subscribes only events the native module supports. */
  lemma RegisteredEventsSupported(es: seq<Entry>)
    requires forall e :: e in es ==> e.key in MethodKeys
    ensures forall i :: 0 <= i < |es| ==> EventNames(es)[i] in AllEvents
  {
    forall i | 0 <= i < |es| ensures EventNames(es)[i] in AllEvents {
      assert es[i] in es;
      KeyEventSupported(es[i].key);
    }
  }

  /** Registering a valid router subscribes each event name once. */
  lemma RegisteredEventsDistinct(es: seq<Entry>)
    requires DistinctKeys(es) && forall e :: e in es ==> e.key in MethodKeys
    ensures forall i, j :: 0 <= i < j < |es| ==> EventNames(es)[i] != EventNames(es)[j]
  {
    forall i, j | 0 <= i < j < |es| ensures EventNames(es)[i] != EventNames(es)[j] {
      assert es[i] in es && es[j] in es;
      KeyEventsDistinct(es[i].key, es[j].key);
    }
  }

  /** Registering a router that keeps its invariant subscribes supported events, each once. */
  lemma RouterEventsSupportedAndDistinct(router: Router)
    requires router.Valid()
    ensures forall i :: 0 <= i < |router.handlers| ==> EventNames(router.handlers)[i] in AllEvents
    ensures forall i, j :: 0 <= i < j < |router.handlers| ==>
              EventNames(router.handlers)[i] != EventNames(router.handlers)[j]
  {
    RegisteredEventsSupported(router.handlers);
    RegisteredEventsDistinct(router.handlers);
  }

  class HTTPServer {
    const port: nat
    /** `WebServerManager`, the native module. */
    const native: Native.WebServerManager
    /** `eventTypes`: every event name registered, repeats included. */
    var eventTypes: seq<string>
    /** The listeners of the `NativeEventEmitter`. */
    var listeners: seq<Listener>
    /** `started`; `None` is `undefined`, its value before `start` or `stop`. */
    var started: Option<bool>

    /** Every listener was added under a recorded event type. */
    ghost predicate Valid()
      reads this
    {
      forall l :: l in listeners ==> l.eventName in eventTypes
    }

    constructor (port: nat, native: Native.WebServerManager)
      ensures Valid()
      ensures this.port == port && this.native == native
      ensures eventTypes == [] && listeners == [] && started == None
    {
      this.port := port;
      this.native := native;
      eventTypes := [];
      listeners := [];
      started := None;
    }

    /** `start()`: marks itself started, then asks the native module to start on `port`. */
    method Start(bound: bool, url: Option<string>) returns (r: StartResult)
      requires Valid()
      modifies this, native
      ensures Valid()
      ensures started == Some(true)
      ensures (native.Snapshot(), r) == ServerSpec.Start(old(native.Snapshot()), port, bound, url)
      ensures eventTypes == old(eventTypes) && listeners == old(listeners)
    {
      started := Some(true);
      r := native.StartServer(port, bound, url);
    }

    /**
     * `stop()`: removes the listeners of every recorded event type, marks itself
     * not started and stops the native server; `eventTypes` is kept.
     */
    method Stop() returns (r: bool)
      requires Valid()
      modifies this, native
      ensures Valid()
      ensures r
      ensures listeners == WithoutAll(old(listeners), eventTypes)
      ensures listeners == []
      ensures eventTypes == old(eventTypes) && started == Some(false)
      ensures native.Snapshot() == ServerSpec.Stop(old(native.Snapshot()))
    {
      var i := 0;
      while i < |eventTypes|
        invariant 0 <= i <= |eventTypes|
        invariant listeners == WithoutAll(old(listeners), eventTypes[..i])
        invariant eventTypes == old(eventTypes)
        invariant native.Snapshot() == old(native.Snapshot())
      {
        assert eventTypes[..i + 1][..i] == eventTypes[..i];
        listeners := Without(listeners, eventTypes[i]);
        i := i + 1;
      }
      assert eventTypes[..i] == eventTypes;
      WithoutAllCovered(old(listeners), eventTypes);
      started := Some(false);
      r := native.StopServer();
    }

    /**
     * `registerRouter(router)`: for each handler entry in order, records the
     * upper-cased name, subscribes it natively and adds a listener for it.
     */
    method RegisterRouter(router: Router)
      requires Valid()
      modifies this`eventTypes, this`listeners, native
      ensures Valid()
      ensures eventTypes == old(eventTypes) + EventNames(router.handlers)
      ensures listeners == old(listeners) + ListenersFor(router.handlers)
      ensures native.Snapshot() == old(native.Snapshot()).(handlers := old(native.handlers) + EventNames(router.handlers))
    {
      var entries := router.GetHandlers();
      ghost var m0 := native.Snapshot();
      var i := 0;
      while i < |entries|
        invariant 0 <= i <= |entries|
        invariant eventTypes == old(eventTypes) + EventNames(entries[..i])
        invariant listeners == old(listeners) + ListenersFor(entries[..i])
        invariant native.Snapshot() == m0.(handlers := m0.handlers + EventNames(entries[..i]))
        invariant Valid()
        modifies this`eventTypes, this`listeners, native
      {
        EventNamesPrefix(entries, i);
        ListenersForPrefix(entries, i);
        RegisterEntry(entries[i]);
        i := i + 1;
      }
      assert entries[..i] == entries;
    }

    /** The `forEach` callback of `registerRouter`, for one `[method, handler]` entry. */
    method RegisterEntry(e: Entry)
      requires Valid()
      modifies this`eventTypes, this`listeners, native
      ensures Valid()
      ensures eventTypes == old(eventTypes) + [ToUpper(e.key)]
      ensures listeners == old(listeners) + [Listener(ToUpper(e.key), e.handler)]
      ensures native.Snapshot() == ServerSpec.Subscribe(old(native.Snapshot()), ToUpper(e.key))
    {
      var eventName := ToUpper(e.key);
      eventTypes := eventTypes + [eventName];
      native.Subscribe(eventName);
      listeners := listeners + [Listener(eventName, e.handler)];
    }

    /**
     * The completion of a listener that `registerRouter` added, for event `e`;
     * `result` is what its handler resolved to. The listener need no longer be
     * registered: a `stop()` during the handler's await removes it, and the
     * reply is still sent. A result that fails the checks throws and nothing
     * is answered; otherwise the native `response` is called.
     */
    method Deliver(l: Listener, e: InboundEvent, result: HandlerResult) returns (r: Result<Reply, string>)
      requires l.eventName == e.name
      modifies native
      ensures r == CheckResult(e.requestId, result)
      ensures r.Success? ==>
        native.Snapshot() == Respond(old(native.Snapshot()), e.requestId, r.value.status, r.value.data)
      ensures r.Failure? ==> native.Snapshot() == old(native.Snapshot())
    {
      r := CheckResult(e.requestId, result);
      if r.Success? {
        native.Response(r.value.requestId, r.value.status, r.value.data);
      }
    }

    /** `isRunning()`: the native module's state, read without change. */
    method IsRunning() returns (r: bool)
      ensures r <==> native.serverRunning == Running
    {
      r := native.IsRunning();
    }
  }
}
