/** `pkg/service`: the call-tree dispatcher of one benchmark node and its connection cache.

    The goroutine fan-out of `Process` is run as a sequential loop over the configured peers.
    What the transport does is an input: for each peer, an `Attempt` says whether building a
    connection would succeed and what the unary call returns. Everything the node does to
    the outside world (trace calls, the processing sleep, RPCs sent, log lines) is appended
    to the ghost log `effects`, in the order the node does it. */
module Service {

  import opened Wrappers
  import opened Ints
  import opened Slog
  import Tracing
  import Text

  /** The fixed port every peer is dialled on. */
  const GrpcPort: nat := 50051

  /** The wire message `pb.Message`. */
  datatype Message = Message(from: string, benchId: string, traceId: string, depth: int32)

  /** A client connection: the target it dials and the identity the transport gave it. */
  datatype ClientConn = ClientConn(target: string, id: nat)

  /** What `grpc.NewClient` does when asked: a new connection, or an error. */
  datatype DialOutcome = Dialed(id: nat) | DialFailed(cause: string)

  /** What the unary `Process` RPC returns: a reply, a nil reply with a nil error, or an error. */
  datatype RpcOutcome = Replied(reply: Message) | NoReply | RpcFailed(cause: string)

  /** The transport's behaviour for one downstream call. */
  datatype Attempt = Attempt(dial: DialOutcome, rpc: RpcOutcome)

  datatype Error = ConnectError(service: string, cause: string) | CallError(cause: string)

  function ErrorText(e: Error): string
  {
    match e
    case ConnectError(service, cause) => "failed to connect to " + service + ": " + cause
    case CallError(cause) => cause
  }

  /** What the node does to the outside world. */
  datatype Effect =
    | Traced(operation: string, benchId: string, traceId: string, related: string)
    | Slept(duration: int)
    | Sent(peer: string, target: string, request: Message)
    | Logged(level: Level, message: string, service: string)
    | Printed(line: string)

  /** The address a peer is dialled on: `<name>:50051`. */
  function Target(serviceName: string): string
  {
    serviceName + ":50051"
  }

  type Pool = map<string, ClientConn>

  /** Every cached connection dials the address of the name it is cached under. */
  ghost predicate PoolTargets(pool: Pool)
  {
    forall name :: name in pool ==> pool[name].target == Target(name)
  }

  /** `after` keeps every entry of `before`, unchanged: nothing evicted, nothing replaced. */
  ghost predicate Grows(before: Pool, after: Pool)
  {
    forall name :: name in before ==> name in after && after[name] == before[name]
  }

  datatype Fetched = Fetched(pool: Pool, result: Result<ClientConn, Error>)

  /** `getConnection` on a plain map: the cache after the call and what the call returns. */
  function Connect(pool: Pool, serviceName: string, dial: DialOutcome): (f: Fetched)
    // a hit returns the stored connection and leaves the cache alone
    ensures serviceName in pool ==> f == Fetched(pool, Success(pool[serviceName]))
    // a successful miss adds exactly one entry, which dials <name>:50051
    ensures serviceName !in pool && dial.Dialed? ==>
              && f.result == Success(ClientConn(Target(serviceName), dial.id))
              && f.pool == pool[serviceName := f.result.value]
    // a failed construction is reported and not cached, so the next call tries again
    ensures serviceName !in pool && dial.DialFailed? ==>
              f == Fetched(pool, Failure(ConnectError(serviceName, dial.cause)))
  {
    if serviceName in pool then Fetched(pool, Success(pool[serviceName]))
    else match dial
      case Dialed(id) =>
        var conn := ClientConn(Target(serviceName), id);
        Fetched(pool[serviceName := conn], Success(conn))
      case DialFailed(cause) => Fetched(pool, Failure(ConnectError(serviceName, cause)))
  }

  /** The cache only grows, by at most the entry asked for, and keeps dialling the address of
      each name; a connection handed out is the one cached under the name. */
  lemma ConnectKeeps(pool: Pool, serviceName: string, dial: DialOutcome)
    ensures var f := Connect(pool, serviceName, dial);
            && Grows(pool, f.pool)
            && f.pool.Keys <= pool.Keys + {serviceName}
            && (PoolTargets(pool) ==> PoolTargets(f.pool))
            && (f.result.Success? ==> serviceName in f.pool && f.pool[serviceName] == f.result.value)
  {
  }

  /** The request `callService` sends: this node as sender, the ids of the request being
      processed, and the incremented depth. */
  function Request(self: string, req: Message): (m: Message)
    ensures m.from == self && m.benchId == req.benchId && m.traceId == req.traceId
    ensures req.depth < MaxInt32 ==> m.depth as int == req.depth as int + 1
    ensures req.depth == MaxInt32 ==> m.depth == MinInt32
  {
    Message(self, req.benchId, req.traceId, AddOne32(req.depth))
  }

  /** What `callService` hands back once the connection exists. */
  function RpcResult(rpc: RpcOutcome): Result<Option<Message>, Error>
  {
    match rpc
    case Replied(m) => Success(Some(m))
    case NoReply => Success(None)
    case RpcFailed(cause) => Failure(CallError(cause))
  }

  function ReqStart(req: Message, peer: string): Effect
  {
    Traced("req_start", req.benchId, req.traceId, peer)
  }

  function ReqResp(m: Message): Effect
  {
    Traced("req_resp", m.benchId, m.traceId, m.from)
  }

  /** The state of the fan-out after some of the downstream calls: the connection cache, the
      two buffers and what has been done. */
  datatype Round = Round(pool: Pool, responses: seq<Message>, errors: seq<Error>, effects: seq<Effect>)

  /** One downstream call run to completion, as the body of the goroutine does it: the cache
      afterwards, what it put in the two buffers and what it did. */
  function Call(pool: Pool, self: string, req: Message, peer: string, a: Attempt): (c: Round)
    // each outcome lands in at most one buffer; a nil reply with a nil error in neither
    ensures |c.responses| + |c.errors| <= 1
    ensures !a.rpc.NoReply? ==> |c.responses| + |c.errors| == 1
    // the call is announced before anything else happens
    ensures |c.effects| >= 1 && c.effects[0] == ReqStart(req, peer)
  {
    var f := Connect(pool, peer, a.dial);
    match f.result
    case Failure(e) => Round(f.pool, [], [e], [ReqStart(req, peer)])
    case Success(conn) =>
      var sent := Sent(peer, conn.target, Request(self, req));
      match RpcResult(a.rpc)
      case Failure(e) => Round(f.pool, [], [e], [ReqStart(req, peer), sent])
      case Success(None) => Round(f.pool, [], [], [ReqStart(req, peer), sent])
      case Success(Some(m)) => Round(f.pool, [m], [], [ReqStart(req, peer), sent, ReqResp(m)])
  }

  /** What one call buffers: the reply when the connection exists and the call answered;
      the connection error, else the call error, else nothing. The cache is the one the
      connection lookup leaves. */
  lemma CallBuffers(pool: Pool, self: string, req: Message, peer: string, a: Attempt)
    ensures var c, f := Call(pool, self, req, peer, a), Connect(pool, peer, a.dial);
            && c.pool == f.pool
            && c.responses == (if f.result.Success? && a.rpc.Replied? then [a.rpc.reply] else [])
            && c.errors == (if f.result.Failure? then [f.result.error]
                            else if a.rpc.RpcFailed? then [CallError(a.rpc.cause)] else [])
  {
  }

  /** One call only adds to the cache, and at most the entry of the peer it called. */
  lemma CallPool(pool: Pool, self: string, req: Message, peer: string, a: Attempt)
    ensures Grows(pool, Call(pool, self, req, peer, a).pool)
    ensures Call(pool, self, req, peer, a).pool.Keys <= pool.Keys + {peer}
  {
    var f := Connect(pool, peer, a.dial);
    ConnectKeeps(pool, peer, a.dial);
    assert Call(pool, self, req, peer, a).pool == f.pool;
  }

  lemma AppendAssoc<T>(a: seq<T>, b: seq<T>, c: seq<T>)
    ensures a + (b + c) == (a + b) + c
  {
  }

  /** The fan-out over the first `n` peers, one call after the other. */
  function FanOut(pool: Pool, self: string, req: Message, peers: seq<string>, attempts: seq<Attempt>,
                  n: nat): Round
    requires n <= |peers| == |attempts|
  {
    if n == 0 then Round(pool, [], [], [])
    else
      var r := FanOut(pool, self, req, peers, attempts, n - 1);
      var c := Call(r.pool, self, req, peers[n - 1], attempts[n - 1]);
      Round(c.pool, r.responses + c.responses, r.errors + c.errors, r.effects + c.effects)
  }

  /** The trace events of one operation, in order. */
  function Traces(effects: seq<Effect>, operation: string): seq<Effect>
  {
    if |effects| == 0 then []
    else
      var e := effects[|effects| - 1];
      Traces(effects[..|effects| - 1], operation) + if e.Traced? && e.operation == operation then [e] else []
  }

  lemma {:induction false} TracesAppend(a: seq<Effect>, b: seq<Effect>, operation: string)
    ensures Traces(a + b, operation) == Traces(a, operation) + Traces(b, operation)
    decreases |b|
  {
    if |b| > 0 {
      var last := |b| - 1;
      assert (a + b)[..|a + b| - 1] == a + b[..last];
      TracesAppend(a, b[..last], operation);
    } else {
      assert a + b == a;
    }
  }

  /** The `req_start` events for a list of peers. */
  function StartTraces(req: Message, peers: seq<string>): seq<Effect>
  {
    if |peers| == 0 then [] else StartTraces(req, peers[..|peers| - 1]) + [ReqStart(req, peers[|peers| - 1])]
  }

  /** The `req_resp` events for a list of replies. */
  function RespTraces(replies: seq<Message>): seq<Effect>
  {
    if |replies| == 0 then [] else RespTraces(replies[..|replies| - 1]) + [ReqResp(replies[|replies| - 1])]
  }

  lemma RespTracesAppend(rs: seq<Message>, c: seq<Message>)
    requires |c| <= 1
    ensures RespTraces(rs + c) == RespTraces(rs) + RespTraces(c)
  {
    if |c| == 1 {
      assert (rs + c)[..|rs + c| - 1] == rs;
      assert c[..0] == [];
    } else {
      assert rs + c == rs;
    }
  }

  /** The trace event an effect contributes to an operation: itself when it is one. */
  function Kept(e: Effect, operation: string): seq<Effect>
  {
    if e.Traced? && e.operation == operation then [e] else []
  }

  lemma TracesSingle(e: Effect, operation: string)
    ensures Traces([e], operation) == Kept(e, operation)
  {
    assert [e][..0] == [];
  }

  lemma TracesTwo(e1: Effect, e2: Effect, operation: string)
    ensures Traces([e1, e2], operation) == Kept(e1, operation) + Kept(e2, operation)
  {
    assert [e1, e2][..1] == [e1];
    TracesSingle(e1, operation);
  }

  lemma TracesThree(e1: Effect, e2: Effect, e3: Effect, operation: string)
    ensures Traces([e1, e2, e3], operation) == Kept(e1, operation) + Kept(e2, operation) + Kept(e3, operation)
  {
    assert [e1, e2, e3][..2] == [e1, e2];
    TracesTwo(e1, e2, operation);
  }

  /** One call leaves exactly its own `req_start` event. */
  lemma CallStart(pool: Pool, self: string, req: Message, peer: string, a: Attempt)
    ensures Traces(Call(pool, self, req, peer, a).effects, "req_start") == [ReqStart(req, peer)]
  {
    var c := Call(pool, self, req, peer, a);
    var start := ReqStart(req, peer);
    if |c.effects| == 1 {
      TracesSingle(start, "req_start");
    } else if |c.effects| == 2 {
      TracesTwo(start, c.effects[1], "req_start");
    } else {
      TracesThree(start, c.effects[1], c.effects[2], "req_start");
    }
  }

  /** One call leaves a `req_resp` event exactly for the reply it buffered. */
  lemma CallResp(pool: Pool, self: string, req: Message, peer: string, a: Attempt)
    ensures var c := Call(pool, self, req, peer, a);
            Traces(c.effects, "req_resp") == RespTraces(c.responses)
  {
    var c := Call(pool, self, req, peer, a);
    var start := ReqStart(req, peer);
    if |c.effects| == 1 {
      TracesSingle(start, "req_resp");
    } else if |c.effects| == 2 {
      TracesTwo(start, c.effects[1], "req_resp");
    } else {
      TracesThree(start, c.effects[1], c.effects[2], "req_resp");
      assert c.responses[..0] == [];
    }
  }

  /** What one call leaves in the trace: its `req_start` event, and a `req_resp` event exactly
      when it got a reply, naming the service that replied. */
  lemma CallTraces(pool: Pool, self: string, req: Message, peer: string, a: Attempt)
    ensures var c := Call(pool, self, req, peer, a);
            && Traces(c.effects, "req_start") == [ReqStart(req, peer)]
            && Traces(c.effects, "req_resp") == RespTraces(c.responses)
  {
    CallStart(pool, self, req, peer, a);
    CallResp(pool, self, req, peer, a);
  }

  /** The last step of the fan-out: the call to the `n`-th peer, with the cache the earlier
      calls left, appended to their buffers and events. */
  lemma FanOutLast(pool: Pool, self: string, req: Message, peers: seq<string>, attempts: seq<Attempt>, n: nat)
    requires 0 < n <= |peers| == |attempts|
    ensures var prev := FanOut(pool, self, req, peers, attempts, n - 1);
            var c := Call(prev.pool, self, req, peers[n - 1], attempts[n - 1]);
            FanOut(pool, self, req, peers, attempts, n)
              == Round(c.pool, prev.responses + c.responses, prev.errors + c.errors, prev.effects + c.effects)
  {
  }

  /** One `req_start` event per peer called, in the order of the peers. */
  lemma {:induction false} FanOutStarts(pool: Pool, self: string, req: Message, peers: seq<string>,
                                        attempts: seq<Attempt>, n: nat)
    requires n <= |peers| == |attempts|
    ensures Traces(FanOut(pool, self, req, peers, attempts, n).effects, "req_start") == StartTraces(req, peers[..n])
  {
    if n > 0 {
      var prev := FanOut(pool, self, req, peers, attempts, n - 1);
      var c := Call(prev.pool, self, req, peers[n - 1], attempts[n - 1]);
      var r := FanOut(pool, self, req, peers, attempts, n);
      assert r.effects == prev.effects + c.effects;
      calc {
        Traces(r.effects, "req_start");
        { TracesAppend(prev.effects, c.effects, "req_start"); }
        Traces(prev.effects, "req_start") + Traces(c.effects, "req_start");
        { FanOutStarts(pool, self, req, peers, attempts, n - 1);
          CallTraces(prev.pool, self, req, peers[n - 1], attempts[n - 1]); }
        StartTraces(req, peers[..n - 1]) + [ReqStart(req, peers[n - 1])];
        { assert peers[..n][..n - 1] == peers[..n - 1]; }
        StartTraces(req, peers[..n]);
      }
    }
  }

  /** Appending a call's events and replies keeps the `req_resp` events in step with the
      replies. */
  lemma RespStep(es: seq<Effect>, ce: seq<Effect>, rs: seq<Message>, cr: seq<Message>)
    requires |cr| <= 1
    requires Traces(es, "req_resp") == RespTraces(rs) && Traces(ce, "req_resp") == RespTraces(cr)
    ensures Traces(es + ce, "req_resp") == RespTraces(rs + cr)
  {
    TracesAppend(es, ce, "req_resp");
    RespTracesAppend(rs, cr);
  }

  /** One `req_resp` event per buffered reply, in the order of the buffer. */
  lemma {:induction false} FanOutResps(pool: Pool, self: string, req: Message, peers: seq<string>,
                                       attempts: seq<Attempt>, n: nat)
    requires n <= |peers| == |attempts|
    ensures var r := FanOut(pool, self, req, peers, attempts, n);
            Traces(r.effects, "req_resp") == RespTraces(r.responses)
  {
    if n > 0 {
      var prev := FanOut(pool, self, req, peers, attempts, n - 1);
      var c := Call(prev.pool, self, req, peers[n - 1], attempts[n - 1]);
      FanOutLast(pool, self, req, peers, attempts, n);
      FanOutResps(pool, self, req, peers, attempts, n - 1);
      CallResp(prev.pool, self, req, peers[n - 1], attempts[n - 1]);
      RespStep(prev.effects, c.effects, prev.responses, c.responses);
    }
  }

  /** Exactly one downstream call is started per configured peer, in the configured order,
      and one `req_resp` event is emitted per non-nil reply, naming the replying service. */
  lemma FanOutTraces(pool: Pool, self: string, req: Message, peers: seq<string>,
                     attempts: seq<Attempt>, n: nat)
    requires n <= |peers| == |attempts|
    ensures var r := FanOut(pool, self, req, peers, attempts, n);
            && Traces(r.effects, "req_start") == StartTraces(req, peers[..n])
            && Traces(r.effects, "req_resp") == RespTraces(r.responses)
  {
    FanOutStarts(pool, self, req, peers, attempts, n);
    FanOutResps(pool, self, req, peers, attempts, n);
  }

  /** Every outcome lands in at most one of the two buffers and a nil reply with a nil error
      in neither, so the buffers never hold more than one entry per peer; when no call
      returns a nil reply, every call lands in exactly one. */
  lemma {:induction false} FanOutBookkeeping(pool: Pool, self: string, req: Message, peers: seq<string>,
                                             attempts: seq<Attempt>, n: nat)
    requires n <= |peers| == |attempts|
    ensures var r := FanOut(pool, self, req, peers, attempts, n);
            |r.responses| + |r.errors| <= n
    ensures (forall i :: 0 <= i < n ==> !attempts[i].rpc.NoReply?) ==>
            |FanOut(pool, self, req, peers, attempts, n).responses|
            + |FanOut(pool, self, req, peers, attempts, n).errors| == n
  {
    if n > 0 {
      FanOutBookkeeping(pool, self, req, peers, attempts, n - 1);
    }
  }

  /** The requests one call sends: at most one, to `<peer>:50051`, carrying this node as
      sender, the request's ids and the incremented depth. */
  lemma CallRequests(pool: Pool, self: string, req: Message, peer: string, a: Attempt)
    requires PoolTargets(pool)
    ensures var c := Call(pool, self, req, peer, a);
            && PoolTargets(c.pool)
            && forall e :: e in c.effects && e.Sent? ==>
                 e.peer == peer && e.target == Target(peer) && e.request == Request(self, req)
  {
    ConnectKeeps(pool, peer, a.dial);
  }

  /** One call sends at most one request: no two of its events are sends. */
  lemma CallSendsOnce(pool: Pool, self: string, req: Message, peer: string, a: Attempt)
    ensures var es := Call(pool, self, req, peer, a).effects;
            forall i, j :: 0 <= i < j < |es| && es[i].Sent? ==> !es[j].Sent?
  {
  }

  /** Every request sent downstream goes to a configured peer at `<peer>:50051`, carries this
      node as sender, the request's bench and trace ids, and the incremented depth. */
  lemma {:induction false} FanOutRequests(pool: Pool, self: string, req: Message, peers: seq<string>,
                                          attempts: seq<Attempt>, n: nat)
    requires n <= |peers| == |attempts|
    requires PoolTargets(pool)
    ensures PoolTargets(FanOut(pool, self, req, peers, attempts, n).pool)
    ensures forall e :: e in FanOut(pool, self, req, peers, attempts, n).effects && e.Sent? ==>
              && e.peer in peers[..n]
              && e.target == Target(e.peer)
              && e.request == Message(self, req.benchId, req.traceId, AddOne32(req.depth))
  {
    if n > 0 {
      var prev := FanOut(pool, self, req, peers, attempts, n - 1);
      FanOutRequests(pool, self, req, peers, attempts, n - 1);
      CallRequests(prev.pool, self, req, peers[n - 1], attempts[n - 1]);
      assert peers[..n] == peers[..n - 1] + [peers[n - 1]];
    }
  }

  /** Every `req_resp` event in `es` comes right after the request it answers, which comes
      right after the `req_start` event for the same peer. */
  predicate RepliesFollowRequests(req: Message, es: seq<Effect>)
  {
    forall j :: 0 <= j < |es| && es[j].Traced? && es[j].operation == "req_resp" ==>
      && 2 <= j
      && es[j - 1].Sent?
      && es[j - 2] == ReqStart(req, es[j - 1].peer)
  }

  /** Inside one call, a `req_resp` event can only be the third event, after the request and
      the `req_start` event for the same peer. */
  lemma CallOrder(pool: Pool, self: string, req: Message, peer: string, a: Attempt)
    ensures var es := Call(pool, self, req, peer, a).effects;
            forall j :: 0 <= j < |es| && es[j].Traced? && es[j].operation == "req_resp" ==>
              j == 2 && es[1].Sent? && es[0] == ReqStart(req, es[1].peer)
  {
  }

  /** Trace order inside the fan-out: every `req_resp` event comes right after the request it
      answers, which comes right after the `req_start` event for the same peer. */
  lemma {:induction false} FanOutOrder(pool: Pool, self: string, req: Message, peers: seq<string>,
                                       attempts: seq<Attempt>, n: nat)
    requires n <= |peers| == |attempts|
    ensures RepliesFollowRequests(req, FanOut(pool, self, req, peers, attempts, n).effects)
  {
    if n > 0 {
      var prev := FanOut(pool, self, req, peers, attempts, n - 1);
      var c := Call(prev.pool, self, req, peers[n - 1], attempts[n - 1]);
      var pe, ce := prev.effects, c.effects;
      var es := pe + ce;
      assert FanOut(pool, self, req, peers, attempts, n).effects == es;
      FanOutOrder(pool, self, req, peers, attempts, n - 1);
      assert RepliesFollowRequests(req, pe);
      CallOrder(prev.pool, self, req, peers[n - 1], attempts[n - 1]);
      forall j | 0 <= j < |es| && es[j].Traced? && es[j].operation == "req_resp"
        ensures 2 <= j && es[j - 1].Sent? && es[j - 2] == ReqStart(req, es[j - 1].peer)
      {
        if j >= |pe| {
          var k := j - |pe|;
          assert ce[k] == es[j];
          assert es[j - 1] == ce[1] && es[j - 2] == ce[0];
        } else {
          assert es[j] == pe[j];
          assert es[j - 1] == pe[j - 1] && es[j - 2] == pe[j - 2];
        }
      }
    }
  }

  /** The fan-out only adds connections: old entries stay as they were, and every new entry
      is one of the peers called. */
  lemma {:induction false} FanOutPool(pool: Pool, self: string, req: Message, peers: seq<string>,
                                      attempts: seq<Attempt>, n: nat)
    requires n <= |peers| == |attempts|
    ensures Grows(pool, FanOut(pool, self, req, peers, attempts, n).pool)
    ensures FanOut(pool, self, req, peers, attempts, n).pool.Keys <= pool.Keys + set i | 0 <= i < n :: peers[i]
  {
    if n > 0 {
      var prev := FanOut(pool, self, req, peers, attempts, n - 1);
      var c := Call(prev.pool, self, req, peers[n - 1], attempts[n - 1]);
      FanOutPool(pool, self, req, peers, attempts, n - 1);
      CallPool(prev.pool, self, req, peers[n - 1], attempts[n - 1]);
      assert FanOut(pool, self, req, peers, attempts, n).pool == c.pool;
      assert (set i | 0 <= i < n :: peers[i]) == (set i | 0 <= i < n - 1 :: peers[i]) + {peers[n - 1]};
    }
  }

  /** One `log.Println` line per collected error, in order. */
  function ErrorLines(errors: seq<Error>): seq<Effect>
  {
    if |errors| == 0 then [] else ErrorLines(errors[..|errors| - 1]) + [Printed(ErrorText(errors[|errors| - 1]))]
  }

  /** The line preconnect logs for `peer` with the cache at `pool`: "preconnect failed" at
      Error level exactly when the peer is not cached and its connection cannot be built,
      else "preconnect success" at Info level. */
  function PreconnectLine(pool: Pool, peer: string, dial: DialOutcome): (e: Effect)
    ensures e.Logged? && e.service == peer
    ensures e.level == Error <==> Connect(pool, peer, dial).result.Failure?
  {
    if peer !in pool && dial.DialFailed? then Logged(Error, "preconnect failed", peer)
    else Logged(Info, "preconnect success", peer)
  }

  datatype Warmup = Warmup(pool: Pool, effects: seq<Effect>)

  /** The preconnect pass over the first `n` peers: one cache lookup and one log line each. */
  function Preconnected(pool: Pool, peers: seq<string>, dials: seq<DialOutcome>, n: nat): Warmup
    requires n <= |peers| == |dials|
  {
    if n == 0 then Warmup(pool, [])
    else
      var w := Preconnected(pool, peers, dials, n - 1);
      var f := Connect(w.pool, peers[n - 1], dials[n - 1]);
      Warmup(f.pool, w.effects + [PreconnectLine(w.pool, peers[n - 1], dials[n - 1])])
  }

  /** Preconnect goes on after failures: one log line per peer, in order, naming the peer
      (which level each line has is `PreconnectLevels`). */
  lemma {:induction false} PreconnectLog(pool: Pool, peers: seq<string>, dials: seq<DialOutcome>, n: nat)
    requires n <= |peers| == |dials|
    ensures var w := Preconnected(pool, peers, dials, n);
            && |w.effects| == n
            && forall i :: 0 <= i < n ==> w.effects[i].Logged? && w.effects[i].service == peers[i]
  {
    if n > 0 {
      PreconnectLog(pool, peers, dials, n - 1);
    }
  }

  /** The `i`-th line of the preconnect pass is the line for the `i`-th peer with the cache
      the earlier peers left. */
  lemma {:induction false} PreconnectLevels(pool: Pool, peers: seq<string>, dials: seq<DialOutcome>, n: nat)
    requires n <= |peers| == |dials|
    ensures |Preconnected(pool, peers, dials, n).effects| == n
    ensures forall i {:trigger Preconnected(pool, peers, dials, n).effects[i]} :: 0 <= i < n ==>
              Preconnected(pool, peers, dials, n).effects[i]
                == PreconnectLine(Preconnected(pool, peers, dials, i).pool, peers[i], dials[i])
  {
    if n > 0 {
      PreconnectLevels(pool, peers, dials, n - 1);
      var prev := Preconnected(pool, peers, dials, n - 1);
      var cur := Preconnected(pool, peers, dials, n);
      forall i | 0 <= i < n
        ensures cur.effects[i] == PreconnectLine(Preconnected(pool, peers, dials, i).pool, peers[i], dials[i])
      {
        if i < n - 1 {
          assert cur.effects[i] == prev.effects[i];
        }
      }
    }
  }

  /** The cache after the preconnect pass holds everything it held before, unchanged and with
      the same targets, plus every peer whose connection could be built, and nothing else. */
  lemma {:induction false} PreconnectCache(pool: Pool, peers: seq<string>, dials: seq<DialOutcome>, n: nat)
    requires n <= |peers| == |dials|
    ensures Grows(pool, Preconnected(pool, peers, dials, n).pool)
    ensures PoolTargets(pool) ==> PoolTargets(Preconnected(pool, peers, dials, n).pool)
    ensures forall i :: 0 <= i < n && (dials[i].Dialed? || peers[i] in pool) ==>
              peers[i] in Preconnected(pool, peers, dials, n).pool
    ensures forall name :: name in Preconnected(pool, peers, dials, n).pool ==>
              name in pool || exists i :: 0 <= i < n && peers[i] == name && dials[i].Dialed?
  {
    if n > 0 {
      var w := Preconnected(pool, peers, dials, n - 1);
      var f := Connect(w.pool, peers[n - 1], dials[n - 1]);
      assert Preconnected(pool, peers, dials, n).pool == f.pool;
      ConnectKeeps(w.pool, peers[n - 1], dials[n - 1]);
      PreconnectCache(pool, peers, dials, n - 1);
      forall name | name in f.pool && name !in pool
        ensures exists i :: 0 <= i < n && peers[i] == name && dials[i].Dialed?
      {
        if name !in w.pool {
          assert peers[n - 1] == name && dials[n - 1].Dialed?;
        }
      }
    }
  }

  /** The `benchId` the HTTP ingress derives from the request method and body; `None` is the
      405 answer, given without calling `Process`. */
  function BenchIdFor(httpMethod: string, body: string): (r: Option<string>)
    ensures httpMethod == "GET" ==> r == Some("default")
    ensures httpMethod == "POST" ==> r == Some(body)
    ensures r.None? <==> httpMethod != "GET" && httpMethod != "POST"
  {
    if httpMethod == "GET" then Some("default")
    else if httpMethod == "POST" then Some(body)
    else None
  }

  /** The message the HTTP ingress hands to `Process`. */
  function InitialMessage(self: string, benchId: string, traceId: string): Message
  {
    Message(self, benchId, traceId, 0)
  }

  /** The HTTP answer: the 405 rejection or the JSON body (service time left out). */
  datatype HttpResponse =
    | Rejected(status: int, body: string)
    | Served(status: int, traceId: string, benchId: string, topology: string, cni: string)

  datatype ServiceConfig = ServiceConfig(
    name: string,
    outServices: seq<string>,
    processingDelay: int,
    logger: Logger,
    topology: string,
    cni: string)

  class Service {
    const name: string
    const outServices: seq<string>
    const processingDelay: int
    const tracer: Tracing.Tracer
    const topology: string
    const cni: string
    var connPool: Pool
    ghost var effects: seq<Effect>

    ghost predicate Valid()
      reads this
    {
      PoolTargets(connPool)
    }

    /** `NewService`: the configuration, a tracer built from it, and an empty cache. */
    constructor (config: ServiceConfig)
      ensures Valid()
      ensures name == config.name && outServices == config.outServices
      ensures processingDelay == config.processingDelay
      ensures tracer == Tracing.NewTracer(config.logger, config.topology, config.cni, config.name)
      ensures topology == config.topology && cni == config.cni
      ensures connPool == map[] && effects == []
    {
      name := config.name;
      outServices := config.outServices;
      processingDelay := config.processingDelay;
      tracer := Tracing.NewTracer(config.logger, config.topology, config.cni, config.name);
      topology := config.topology;
      cni := config.cni;
      connPool := map[];
      effects := [];
    }

    /** The reply `Process` returns for `req`. */
    function Reply(req: Message): (m: Message)
      ensures m.from == name && m.benchId == req.benchId && m.traceId == req.traceId
      ensures |outServices| == 0 ==> m.depth == Request(name, req).depth
      ensures |outServices| > 0 ==> m.depth == 0
    {
      if |outServices| == 0 then Message(name, req.benchId, req.traceId, AddOne32(req.depth))
      else Message(name, req.benchId, req.traceId, 0)
    }

    /** Everything `Process` does to the outside world, in order. */
    function ProcessEffects(pool: Pool, req: Message, attempts: seq<Attempt>): seq<Effect>
      requires |attempts| == |outServices|
    {
      var start := Traced("process_start", req.benchId, req.traceId, req.from);
      var end := Traced("process_end", req.benchId, req.traceId, req.from);
      if |outServices| == 0 then [start, Slept(processingDelay), end]
      else
        var r := FanOut(pool, name, req, outServices, attempts, |outServices|);
        [start, Slept(processingDelay)] + (r.effects + ErrorLines(r.errors)) + [end]
    }

    /** `getConnection`, with the lock left out. */
    method GetConnection(serviceName: string, dial: DialOutcome) returns (r: Result<ClientConn, Error>)
      requires Valid()
      modifies this`connPool
      ensures Valid()
      ensures connPool == Connect(old(connPool), serviceName, dial).pool
      ensures r == Connect(old(connPool), serviceName, dial).result
    {
      ConnectKeeps(connPool, serviceName, dial);
      if serviceName in connPool {
        return Success(connPool[serviceName]);
      }
      // Under the write lock the source looks the name up a second time, in case another
      // goroutine built the connection meanwhile; run sequentially that lookup misses again.
      match dial
      case DialFailed(cause) =>
        return Failure(ConnectError(serviceName, cause));
      case Dialed(id) =>
        var conn := ClientConn(Target(serviceName), id);
        connPool := connPool[serviceName := conn];
        return Success(conn);
    }

    /** `Preconnect`: look every peer up once, in order, logging each outcome. */
    method Preconnect(dials: seq<DialOutcome>)
      requires Valid() && |dials| == |outServices|
      modifies this
      ensures Valid()
      ensures connPool == Preconnected(old(connPool), outServices, dials, |outServices|).pool
      ensures effects == old(effects) + Preconnected(old(connPool), outServices, dials, |outServices|).effects
    {
      var i := 0;
      while i < |outServices|
        invariant 0 <= i <= |outServices|
        invariant Valid()
        invariant connPool == Preconnected(old(connPool), outServices, dials, i).pool
        invariant effects == old(effects) + Preconnected(old(connPool), outServices, dials, i).effects
      {
        var svc := outServices[i];
        var r := GetConnection(svc, dials[i]);
        if r.Failure? {
          effects := effects + [Logged(Error, "preconnect failed", svc)];
        } else {
          effects := effects + [Logged(Info, "preconnect success", svc)];
        }
        i := i + 1;
      }
    }

    /** `callService`: fetch the connection, then send the request over it. */
    method CallService(serviceName: string, benchId: string, traceId: string, depth: int32, a: Attempt)
      returns (r: Result<Option<Message>, Error>)
      requires Valid()
      modifies this
      ensures Valid()
      ensures var f := Connect(old(connPool), serviceName, a.dial);
              && connPool == f.pool
              && (f.result.Failure? ==> r == Failure(f.result.error) && effects == old(effects))
              && (f.result.Success? ==>
                    && r == RpcResult(a.rpc)
                    && effects == old(effects) + [Sent(serviceName, f.result.value.target,
                                                       Message(name, benchId, traceId, depth))])
    {
      var conn := GetConnection(serviceName, a.dial);
      if conn.Failure? {
        return Failure(conn.error);
      }
      var req := Message(name, benchId, traceId, depth);
      effects := effects + [Sent(serviceName, conn.value.target, req)];
      r := RpcResult(a.rpc);
    }

    /** The body of one goroutine of `Process`: the `req_start` event, then `callService`,
        then the reply or the error appended to its buffer. */
    method CallOne(req: Message, serviceName: string, a: Attempt, responses: seq<Message>, errors: seq<Error>)
      returns (responses': seq<Message>, errors': seq<Error>)
      requires Valid()
      modifies this
      ensures Valid()
      ensures var c := Call(old(connPool), name, req, serviceName, a);
              && connPool == c.pool
              && effects == old(effects) + c.effects
              && responses' == responses + c.responses
              && errors' == errors + c.errors
    {
      ghost var c := Call(connPool, name, req, serviceName, a);
      ghost var f := Connect(connPool, serviceName, a.dial);
      effects := effects + [ReqStart(req, serviceName)];
      ghost var mid := effects;
      var resp := CallService(serviceName, req.benchId, req.traceId, AddOne32(req.depth), a);
      responses', errors' := responses, errors;
      match resp {
        case Failure(e) =>
          errors' := errors + [e];
        case Success(None) =>
        case Success(Some(m)) =>
          responses' := responses + [m];
          effects := effects + [ReqResp(m)];
      }
      if f.result.Success? {
        ghost var sent := Sent(serviceName, f.result.value.target, Request(name, req));
        assert effects[..|mid| + 1] == mid + [sent];
      }
    }

    /** The downstream loop of `Process`: one goroutine per peer, run one after the other,
        collecting replies and errors in the two buffers. */
    method CallAll(req: Message, attempts: seq<Attempt>) returns (responses: seq<Message>, errors: seq<Error>)
      requires Valid() && |attempts| == |outServices|
      modifies this
      ensures Valid()
      ensures var r := FanOut(old(connPool), name, req, outServices, attempts, |outServices|);
              && connPool == r.pool && responses == r.responses && errors == r.errors
              && effects == old(effects) + r.effects
    {
      ghost var pool0 := connPool;
      ghost var before := effects;
      ghost var cur := Round(connPool, [], [], []);
      responses, errors := [], [];
      var i := 0;
      while i < |outServices|
        invariant 0 <= i <= |outServices|
        invariant Valid()
        invariant cur == FanOut(pool0, name, req, outServices, attempts, i)
        invariant connPool == cur.pool && responses == cur.responses && errors == cur.errors
        invariant effects == before + cur.effects
      {
        ghost var c := Call(connPool, name, req, outServices[i], attempts[i]);
        responses, errors := CallOne(req, outServices[i], attempts[i], responses, errors);
        AppendAssoc(before, cur.effects, c.effects);
        cur := Round(c.pool, cur.responses + c.responses, cur.errors + c.errors, cur.effects + c.effects);
        i := i + 1;
      }
    }

    /** The `log.Println` of every collected error, in order. */
    method LogErrors(errors: seq<Error>)
      modifies this`effects
      ensures effects == old(effects) + ErrorLines(errors)
    {
      var k := 0;
      while k < |errors|
        invariant 0 <= k <= |errors|
        invariant effects == old(effects) + ErrorLines(errors[..k])
      {
        effects := effects + [Printed(ErrorText(errors[k]))];
        k := k + 1;
        assert errors[..k][..k - 1] == errors[..k - 1];
      }
      assert errors[..|errors|] == errors;
    }

    /** The work of `Process` on a node with peers: the fan-out, then the errors it collected
        logged one per line; what the node did in between the sleep and `process_end`. */
    method FanOutAndLog(req: Message, attempts: seq<Attempt>)
      requires Valid() && |attempts| == |outServices|
      modifies this
      ensures Valid()
      ensures var r := FanOut(old(connPool), name, req, outServices, attempts, |outServices|);
              && connPool == r.pool
              && effects == old(effects) + (r.effects + ErrorLines(r.errors))
    {
      ghost var r := FanOut(connPool, name, req, outServices, attempts, |outServices|);
      var _, errors := CallAll(req, attempts);
      ghost var called := effects;
      LogErrors(errors);
      AppendAssoc(old(effects), r.effects, ErrorLines(r.errors));
    }

    /** `Process`: trace the start, sleep, fan out to every peer, log the collected errors,
        trace the end, and reply. Downstream failures never reach the caller. */
    method Process(req: Message, attempts: seq<Attempt>) returns (reply: Message, err: Option<Error>)
      requires Valid() && |attempts| == |outServices|
      modifies this
      ensures Valid()
      ensures err == None
      ensures reply == Reply(req)
      ensures connPool == FanOut(old(connPool), name, req, outServices, attempts, |outServices|).pool
      ensures effects == old(effects) + ProcessEffects(old(connPool), req, attempts)
    {
      var start := Traced("process_start", req.benchId, req.traceId, req.from);
      var end := Traced("process_end", req.benchId, req.traceId, req.from);
      effects := effects + [start, Slept(processingDelay)];
      var thisDepth := AddOne32(req.depth);

      if |outServices| == 0 {
        assert FanOut(connPool, name, req, outServices, attempts, 0).pool == connPool;
        assert ProcessEffects(old(connPool), req, attempts) == [start, Slept(processingDelay), end];
        effects := effects + [end];
        assert effects == old(effects) + [start, Slept(processingDelay), end];
        return Message(name, req.benchId, req.traceId, thisDepth), None;
      }

      ghost var e0, pre := old(effects), [start, Slept(processingDelay)];
      ghost var r := FanOut(old(connPool), name, req, outServices, attempts, |outServices|);
      ghost var body := r.effects + ErrorLines(r.errors);
      FanOutAndLog(req, attempts);
      effects := effects + [end];
      AppendAssoc(e0, pre, body);
      AppendAssoc(e0, pre + body, [end]);
      return Message(name, req.benchId, req.traceId, 0), None;
    }

    /** `handle_http`, with `traceId` standing for the clock reading it is made from: GET and
        POST become a call to `Process`, any other method a 405 without one. */
    method HandleHttp(httpMethod: string, body: string, traceId: string, attempts: seq<Attempt>)
      returns (resp: HttpResponse)
      requires Valid() && |attempts| == |outServices|
      modifies this
      ensures Valid()
      ensures BenchIdFor(httpMethod, body).None? ==>
                && resp == Rejected(405, "Unsupported method")
                && connPool == old(connPool) && effects == old(effects)
      ensures BenchIdFor(httpMethod, body).Some? ==>
                var benchId := BenchIdFor(httpMethod, body).value;
                && resp == Served(200, traceId, benchId, topology, cni)
                && connPool == FanOut(old(connPool), name, InitialMessage(name, benchId, traceId), outServices,
                                      attempts, |outServices|).pool
                && effects == old(effects) + [Traced("http_start", benchId, traceId, "")]
                   + ProcessEffects(old(connPool), InitialMessage(name, benchId, traceId), attempts)
                   + [Traced("http_end", benchId, traceId, "")]
    {
      var benchId := BenchIdFor(httpMethod, body);
      if benchId.None? {
        return Rejected(405, "Unsupported method");
      }
      effects := effects + [Traced("http_start", benchId.value, traceId, "")];
      var req := InitialMessage(name, benchId.value, traceId);
      // Process never returns an error here, so the 500 answer of the source is not reachable.
      var _, _ := Process(req, attempts);
      effects := effects + [Traced("http_end", benchId.value, traceId, "")];
      return Served(200, traceId, benchId.value, topology, cni);
    }
  }

  /** A leaf answers with the incremented depth and calls nobody; a branch answers with depth
      0 whatever its peers did. Either way the reply comes from this node and carries the
      request's bench and trace ids. */
  lemma ReplyShape(s: Service, req: Message)
    ensures s.Reply(req).from == s.name
    ensures s.Reply(req).benchId == req.benchId && s.Reply(req).traceId == req.traceId
    ensures s.outServices == [] ==> s.Reply(req).depth == AddOne32(req.depth)
    ensures s.outServices == [] && req.depth < MaxInt32 ==> s.Reply(req).depth as int == req.depth as int + 1
    ensures s.outServices != [] ==> s.Reply(req).depth == 0
  {
  }

  /** `Process` brackets its work: `process_start` first and `process_end` last, the sleep
      before any downstream call, no request sent at all by a leaf. */
  lemma ProcessBrackets(s: Service, pool: Pool, req: Message, attempts: seq<Attempt>)
    requires |attempts| == |s.outServices|
    ensures var es := s.ProcessEffects(pool, req, attempts);
            && |es| >= 3
            && es[0] == Traced("process_start", req.benchId, req.traceId, req.from)
            && es[1] == Slept(s.processingDelay)
            && es[|es| - 1] == Traced("process_end", req.benchId, req.traceId, req.from)
    ensures s.outServices == [] ==> forall e :: e in s.ProcessEffects(pool, req, attempts) ==> !e.Sent?
  {
  }
}
