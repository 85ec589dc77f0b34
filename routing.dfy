/**
 * The `Router` of httpServer.js: a path and a method-to-handler object. A
 * JavaScript object enumerates its string keys in insertion order and an
 * assignment to an existing key keeps its place, so the handlers are an
 * association list in insertion order.
 */
module Routing {
  import opened Wrappers

  /** The identity of a JavaScript handler function. */
  datatype Handler = Handler(id: nat)

  datatype Entry = Entry(key: string, handler: Handler)

  /** The keys the setters write. */
  const MethodKeys: set<string> := {"post", "put", "patch", "get", "delete"}

  predicate DistinctKeys(es: seq<Entry>)
  {
    forall i, j :: 0 <= i < j < |es| ==> es[i].key != es[j].key
  }

  /** `es[key]` in JavaScript: the handler stored under `key`, if any. */
  function Lookup(es: seq<Entry>, key: string): Option<Handler>
  {
    if es == [] then None
    else if es[0].key == key then Some(es[0].handler)
    else Lookup(es[1..], key)
  }

  /**
   * `es[key] = h` in JavaScript: afterwards `key` maps to `h` and every other key
   * to what it did before; a new key goes at the end, an existing one keeps its place.
   */
  function Assign(es: seq<Entry>, key: string, h: Handler): (r: seq<Entry>)
    ensures Lookup(r, key) == Some(h)
    ensures forall k :: k != key ==> Lookup(r, k) == Lookup(es, k)
    ensures forall e :: e in r ==> e in es || e == Entry(key, h)
    ensures Lookup(es, key) == None ==> r == es + [Entry(key, h)]
    ensures Lookup(es, key) != None ==> |r| == |es|
    ensures forall i :: 0 <= i < |es| && es[i].key != key ==> i < |r| && r[i] == es[i]
  {
    if es == [] then [Entry(key, h)]
    else if es[0].key == key then [Entry(key, h)] + es[1..]
    else [es[0]] + Assign(es[1..], key, h)
  }

  /** `Lookup` finds nothing exactly when no entry has the key. */
  lemma {:induction false} LookupNone(es: seq<Entry>, k: string)
    ensures Lookup(es, k) == None <==> forall i :: 0 <= i < |es| ==> es[i].key != k
  {
    if es != [] {
      LookupNone(es[1..], k);
      assert forall i :: 1 <= i < |es| ==> es[i] == es[1..][i - 1];
    }
  }

  /** An assignment keeps every key of the object unique. */
  lemma {:induction false} AssignKeepsDistinct(es: seq<Entry>, key: string, h: Handler)
    requires DistinctKeys(es)
    ensures DistinctKeys(Assign(es, key, h))
  {
    if es != [] && es[0].key != key {
      var t := Assign(es[1..], key, h);
      AssignKeepsDistinct(es[1..], key, h);
      LookupNone(es[1..], es[0].key);
      LookupNone(t, es[0].key);
      assert Assign(es, key, h) == [es[0]] + t;
    }
  }

  class Router {
    /** `_path`: stored by the constructor and never read back. */
    const path: string
    /** `_handlers` */
    var handlers: seq<Entry>

    /** Every key was written by a setter, and a JavaScript object has each key once. */
    ghost predicate Valid()
      reads this
    {
      DistinctKeys(handlers) && forall e :: e in handlers ==> e.key in MethodKeys
    }

    constructor (path: string)
      ensures Valid() && this.path == path && handlers == []
    {
      this.path := path;
      handlers := [];
    }

    /** `post(handler)`; the other four setters are the same for their own key. */
    method Post(h: Handler) returns (r: Router)
      requires Valid()
      modifies this
      ensures Valid() && r == this
      ensures handlers == Assign(old(handlers), "post", h)
    {
      AssignKeepsDistinct(handlers, "post", h);
      handlers := Assign(handlers, "post", h);
      r := this;
    }

    method Put(h: Handler) returns (r: Router)
      requires Valid()
      modifies this
      ensures Valid() && r == this
      ensures handlers == Assign(old(handlers), "put", h)
    {
      AssignKeepsDistinct(handlers, "put", h);
      handlers := Assign(handlers, "put", h);
      r := this;
    }

    method Patch(h: Handler) returns (r: Router)
      requires Valid()
      modifies this
      ensures Valid() && r == this
      ensures handlers == Assign(old(handlers), "patch", h)
    {
      AssignKeepsDistinct(handlers, "patch", h);
      handlers := Assign(handlers, "patch", h);
      r := this;
    }

    method Get(h: Handler) returns (r: Router)
      requires Valid()
      modifies this
      ensures Valid() && r == this
      ensures handlers == Assign(old(handlers), "get", h)
    {
      AssignKeepsDistinct(handlers, "get", h);
      handlers := Assign(handlers, "get", h);
      r := this;
    }

    method Delete(h: Handler) returns (r: Router)
      requires Valid()
      modifies this
      ensures Valid() && r == this
      ensures handlers == Assign(old(handlers), "delete", h)
    {
      AssignKeepsDistinct(handlers, "delete", h);
      handlers := Assign(handlers, "delete", h);
      r := this;
    }

    /** `getHandlers()`: the handler object itself. */
    method GetHandlers() returns (r: seq<Entry>)
      ensures r == handlers
    {
      r := handlers;
    }

    /** `getPath()`: as written, it returns the handler object, not `path`. */
    method GetPath() returns (r: seq<Entry>)
      ensures r == handlers
    {
      r := handlers;
    }
  }

  /** Chained setters: a later setter for the same method replaces the earlier handler. */
  lemma {:induction false} LastSetterWins(es: seq<Entry>, key: string, h1: Handler, h2: Handler)
    ensures Assign(Assign(es, key, h1), key, h2) == Assign(es, key, h2)
  {
    if es != [] && es[0].key != key {
      LastSetterWins(es[1..], key, h1, h2);
    }
  }
}
