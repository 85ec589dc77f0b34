/**
 * Any sequential interleaving of calls into the native manager. The engine hands
 * every accepted request a fresh id and its own connection; under that
 * assumption no connection is ever answered twice, a request still waiting
 * in the table has not been answered yet, and no accepted request is lost
 * unless a `response` with a key-value coding id kills the process.
 */
module NativeTrace {
  import opened Wrappers
  import opened ServerSpec

  /** One call into the manager, or one request the engine accepts. */
  datatype Call =
    | StartCall(port: nat, bound: bool, url: Option<string>)
    | StopCall
    | SubscribeCall(verb: string)
    | RequestCall(verb: string, id: string, body: Option<string>, conn: nat)
    | ResponseCall(id: string, status: int, data: string)

  /** `conn` has neither been answered nor handed to a pending request. */
  ghost predicate FreshConn(m: Manager, conn: nat)
  {
    (forall i :: 0 <= i < |m.writes| ==> m.writes[i].conn != conn) &&
    (forall k :: k in m.blocks ==> m.blocks[k].conn != conn)
  }

  /**
   * A process that died takes no further calls. When the engine runs a
   * bridging handler, the method has one, the minted id is a UUID string not
   * in the table, and the connection is new.
   */
  ghost predicate Enabled(m: Manager, c: Call)
  {
    !m.crashed &&
    (c.RequestCall? ==>
       c.verb in m.handlers && IsUuidString(c.id) && c.id !in m.blocks && FreshConn(m, c.conn))
  }

  ghost function Apply(m: Manager, c: Call): Manager
    requires Enabled(m, c)
  {
    match c
    case StartCall(port, bound, url) => Start(m, port, bound, url).0
    case StopCall => Stop(m)
    case SubscribeCall(verb) => Subscribe(m, verb)
    case RequestCall(verb, id, body, conn) => Accept(m, verb, id, body, Completion(conn))
    case ResponseCall(id, status, data) => Respond(m, id, status, data)
  }

  ghost predicate Allowed(m: Manager, calls: seq<Call>)
    decreases |calls|
  {
    calls == [] || (Enabled(m, calls[0]) && Allowed(Apply(m, calls[0]), calls[1..]))
  }

  /** The state after running `calls` in order; responses already written stay written. */
  ghost function Run(m: Manager, calls: seq<Call>): (r: Manager)
    requires Allowed(m, calls)
    ensures |m.writes| <= |r.writes| && r.writes[..|m.writes|] == m.writes
    decreases |calls|
  {
    if calls == [] then m else Run(Apply(m, calls[0]), calls[1..])
  }

  /**
   * No connection answered twice; no pending connection answered or shared;
   * every pending id a minted UUID string.
   */
  ghost predicate Inv(m: Manager)
  {
    (forall k :: k in m.blocks ==> IsUuidString(k)) &&
    (forall i, j :: 0 <= i < j < |m.writes| ==> m.writes[i].conn != m.writes[j].conn) &&
    (forall k, i :: k in m.blocks && 0 <= i < |m.writes| ==> m.blocks[k].conn != m.writes[i].conn) &&
    (forall k1, k2 :: k1 in m.blocks && k2 in m.blocks && k1 != k2 ==> m.blocks[k1].conn != m.blocks[k2].conn)
  }

  /** Each call keeps the invariant, given a fresh id and a new connection for a request. */
  lemma StepKeepsInv(m: Manager, c: Call)
    requires Inv(m) && Enabled(m, c)
    ensures Inv(Apply(m, c))
  {
  }

  /** Every call of any allowed trace preserves the invariant. */
  lemma {:induction false} RunKeepsInv(m: Manager, calls: seq<Call>)
    requires Inv(m) && Allowed(m, calls)
    ensures Inv(Run(m, calls))
    decreases |calls|
  {
    if calls != [] {
      StepKeepsInv(m, calls[0]);
      RunKeepsInv(Apply(m, calls[0]), calls[1..]);
    }
  }

  /** A `response` whose id goes to key-value coding: the one call that kills the process. */
  predicate KvcResponse(c: Call)
  {
    c.ResponseCall? && IsKvcKey(c.id)
  }

  /** Connection `conn` has been answered. */
  ghost predicate Answered(m: Manager, conn: nat)
  {
    exists i :: 0 <= i < |m.writes| && m.writes[i].conn == conn
  }

  /**
   * The request `id` on `conn` is not lost: it has been answered, or the live
   * process still holds its completion under `id`.
   */
  ghost predicate Held(m: Manager, id: string, conn: nat)
  {
    Answered(m, conn) || (!m.crashed && id in m.blocks && m.blocks[id].conn == conn)
  }

  /**
   * Only a `response` with a key-value coding id drops a request that is held,
   * and it drops every one not yet answered.
   */
  lemma HeldStep(m: Manager, c: Call, id: string, conn: nat)
    requires Enabled(m, c) && Held(m, id, conn)
    ensures !KvcResponse(c) ==> Held(Apply(m, c), id, conn)
    ensures KvcResponse(c) ==> (Held(Apply(m, c), id, conn) <==> Answered(m, conn))
  {
    var m' := Apply(m, c);
    if i :| 0 <= i < |m.writes| && m.writes[i].conn == conn {
      assert m'.writes[..|m.writes|] == m.writes;
      assert m'.writes[i].conn == conn;
    } else if c.ResponseCall? && c.id == id && !IsKvcKey(id) {
      assert m'.writes[|m.writes|].conn == conn;
    } else if KvcResponse(c) {
      assert m'.writes == m.writes && m'.crashed;
    }
  }

  /** Whatever calls follow, a held request stays held unless one of them crashes the process. */
  lemma {:induction false} NoRequestLost(m: Manager, calls: seq<Call>, id: string, conn: nat)
    requires Allowed(m, calls) && Held(m, id, conn)
    requires forall j :: 0 <= j < |calls| ==> !KvcResponse(calls[j])
    ensures Held(Run(m, calls), id, conn)
    decreases |calls|
  {
    if calls != [] {
      HeldStep(m, calls[0], id, conn);
      assert forall j :: 0 <= j < |calls| - 1 ==> calls[1..][j] == calls[j + 1];
      NoRequestLost(Apply(m, calls[0]), calls[1..], id, conn);
    }
  }

  /**
   * The process has crashed at the end of a trace exactly when the trace holds
   * a `response` with a key-value coding id; that call is then the last one.
   */
  lemma {:induction false} CrashNeedsKvcId(m: Manager, calls: seq<Call>)
    requires Allowed(m, calls) && !m.crashed
    ensures Run(m, calls).crashed <==> exists i :: 0 <= i < |calls| && KvcResponse(calls[i])
    ensures forall i :: 0 <= i < |calls| - 1 ==> !KvcResponse(calls[i])
    decreases |calls|
  {
    if calls != [] {
      var m1 := Apply(m, calls[0]);
      if KvcResponse(calls[0]) {
        assert m1.crashed;
        assert calls[1..] == [];
      } else {
        assert !m1.crashed;
        CrashNeedsKvcId(m1, calls[1..]);
        assert forall j :: 0 <= j < |calls| - 1 ==> calls[1..][j] == calls[j + 1];
      }
    }
  }

  /** In a trace without a crash, every accepted request is answered or still held under its own id. */
  lemma {:induction false} RequestsHeld(m: Manager, calls: seq<Call>)
    requires Allowed(m, calls)
    requires forall j :: 0 <= j < |calls| ==> !KvcResponse(calls[j])
    ensures forall i :: 0 <= i < |calls| && calls[i].RequestCall? ==>
              Held(Run(m, calls), calls[i].id, calls[i].conn)
    decreases |calls|
  {
    if calls != [] {
      var m1 := Apply(m, calls[0]);
      assert forall j :: 0 <= j < |calls| - 1 ==> calls[1..][j] == calls[j + 1];
      RequestsHeld(m1, calls[1..]);
      if calls[0].RequestCall? {
        assert Held(m1, calls[0].id, calls[0].conn);
        NoRequestLost(m1, calls[1..], calls[0].id, calls[0].conn);
      }
      forall i | 1 <= i < |calls| && calls[i].RequestCall?
        ensures Held(Run(m, calls), calls[i].id, calls[i].conn)
      {
        assert calls[1..][i - 1] == calls[i];
      }
    }
  }

  /**
   * From the initial state, whatever the calls: every connection gets at most one
   * response, a request still in the table has had none, and answering it cannot
   * crash. Only a `response` with a key-value coding id crashes the process, and
   * short of that every accepted request is answered or still held under its id.
   */
  lemma ExactlyOnceCompletion(calls: seq<Call>)
    requires Allowed(Initial, calls)
    ensures var r := Run(Initial, calls);
            (forall i, j :: 0 <= i < j < |r.writes| ==> r.writes[i].conn != r.writes[j].conn) &&
            (forall k, i :: k in r.blocks && 0 <= i < |r.writes| ==> r.blocks[k].conn != r.writes[i].conn) &&
            (forall k :: k in r.blocks ==> !IsKvcKey(k)) &&
            (r.crashed <==> exists i :: 0 <= i < |calls| && KvcResponse(calls[i])) &&
            (!r.crashed ==>
               forall i :: 0 <= i < |calls| && calls[i].RequestCall? ==> Held(r, calls[i].id, calls[i].conn))
  {
    RunKeepsInv(Initial, calls);
    CrashNeedsKvcId(Initial, calls);
    var r := Run(Initial, calls);
    if !r.crashed {
      RequestsHeld(Initial, calls);
    }
    forall k | k in r.blocks ensures !IsKvcKey(k) {
      UuidIsNotKvcKey(k);
    }
  }

  /** Starting and stopping never touch the table, so a stop abandons nothing and answers nothing. */
  lemma {:induction false} LifecycleKeepsTable(m: Manager, calls: seq<Call>)
    requires forall i :: 0 <= i < |calls| ==> calls[i].StartCall? || calls[i].StopCall?
    requires Allowed(m, calls)
    ensures Run(m, calls).blocks == m.blocks && Run(m, calls).writes == m.writes
    decreases |calls|
  {
    if calls != [] {
      LifecycleKeepsTable(Apply(m, calls[0]), calls[1..]);
    }
  }
}
