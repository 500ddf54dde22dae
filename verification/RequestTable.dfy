/**
 The table of pending client requests (rpc/handler.go), as a specification.

 A request is identified by an `OpId`, which plays the role of the *requestOp pointer:
 two ids of one batch map to the same `OpId`. Its response channel is a Go channel of
 capacity one together with the history of what dispatch did to it.
 */
module RequestTable {
  import opened Options
  import opened Messages

  type OpId = nat
  type Batch = seq<Message>

  datatype Failure =
    | ReadFailed(reason: string)
    | ClientReconnected
    | ClientQuit
    | ServerError(error: RpcError)
    | BadSubscriptionId

  datatype ChanEvent = Sent(batch: Batch) | Closed

  /** Run-time failures of a Go channel operation executed on the dispatch goroutine. */
  datatype ChanFault = SendOnNil | SendOnClosed | SendBlocks | CloseOfNil | CloseOfClosed

  datatype RespChan = RespChan(
    made: bool,                // false for Notify, whose op has a nil channel
    buffer: seq<Batch>,
    closed: bool,
    history: seq<ChanEvent>,
    faults: set<ChanFault>)

  datatype Op = Op(
    ids: seq<string>,
    isSub: bool,
    resp: RespChan,
    err: Option<Failure>,
    hadResponse: bool,
    launches: nat)             // how often `go op.sub.run()` was executed

  datatype Table = Table(respWait: map<string, OpId>, clientSubs: map<string, OpId>, ops: map<OpId, Op>)

  const CAPACITY := 1

  function NewOp(ids: seq<string>, isSub: bool, made: bool): Op {
    Op(ids, isSub, RespChan(made, [], false, [], {}), None, false, 0)
  }

  function Send(c: RespChan, batch: Batch): RespChan {
    if !c.made then c.(faults := c.faults + {SendOnNil})
    else if c.closed then c.(faults := c.faults + {SendOnClosed})
    else if |c.buffer| >= CAPACITY then c.(faults := c.faults + {SendBlocks})
    else c.(buffer := c.buffer + [batch], history := c.history + [Sent(batch)])
  }

  function Close(c: RespChan): RespChan {
    if !c.made then c.(faults := c.faults + {CloseOfNil})
    else if c.closed then c.(faults := c.faults + {CloseOfClosed})
    else c.(closed := true, history := c.history + [Closed])
  }

  /** Every registered id belongs to the known request it points at. */
  ghost predicate WellFormed(t: Table) {
    forall id :: id in t.respWait ==> t.respWait[id] in t.ops && id in t.ops[t.respWait[id]].ids
  }

  predicate Registered(t: Table, o: OpId)
    requires o in t.ops
  {
    forall id :: id in t.ops[o].ids ==> id in t.respWait && t.respWait[id] == o
  }

  /** No entry of the table leads to the request. */
  predicate Unregistered(t: Table, o: OpId) {
    forall id :: id in t.respWait ==> t.respWait[id] != o
  }

  /** Every request is registered under all of its ids or under none. */
  ghost predicate Whole(t: Table) {
    forall o :: o in t.ops ==> Registered(t, o) || Unregistered(t, o)
  }

  // ---- addRequestOp, removeRequestOp, cancelAllRequests -------------------------------

  function AddRequestOp(t: Table, o: OpId): Table
    requires o in t.ops
  {
    t.(respWait := t.respWait + (map id | id in t.ops[o].ids :: o))
  }

  function RemoveRequestOp(t: Table, o: OpId): Table
    requires o in t.ops
  {
    t.(respWait := t.respWait - (set id | id in t.ops[o].ids))
  }

  function Cancelled(op: Op, err: Failure): Op {
    op.(err := Some(err), resp := Close(op.resp))
  }

  /** Order-free meaning of the two loops over Go maps. */
  function CancelAllRequests(t: Table, err: Failure, inflight: Option<OpId>): Table {
    Table(map[], map[],
      map o | o in t.ops ::
        if o in t.respWait.Values && inflight != Some(o) then Cancelled(t.ops[o], err) else t.ops[o])
  }

  // ---- handleResponses -------------------------------------------------------------

  /** Where one message of an incoming batch goes. */
  datatype Route = ToRequest(op: OpId) | ToSubscription(op: OpId, payload: string) | ToCallHandler | Dropped

  datatype Progress = Progress(table: Table, resolved: seq<OpId>, routes: seq<Route>)

  /** Effect of a response on the request it answers, subscriptions included. */
  function Answered(op: Op, m: Message, batch: Batch): Op {
    var op1 :=
      if !op.isSub then op
      else if m.error.Some? then op.(err := Some(ServerError(m.error.value)))
      else if m.result.Some? && m.result.value.asSubId.Some? then op.(err := None, launches := op.launches + 1)
      else op.(err := Some(BadSubscriptionId));
    if op1.hadResponse then op1 else op1.(hadResponse := true, resp := Send(op1.resp, batch))
  }

  function StartsSubscription(op: Op, m: Message): Option<string> {
    if op.isSub && m.error.None? && m.result.Some? then m.result.value.asSubId else None
  }

  /** The destination of a message that is not a response. */
  function RouteOther(clientSubs: map<string, OpId>, m: Message): Route {
    if !IsSubscriptionEvent(m) then ToCallHandler
    else
      var r := if m.params.Some? then m.params.value.asSubResult else None;
      if r.Some? && r.value.id in clientSubs then ToSubscription(clientSubs[r.value.id], r.value.result) else Dropped
  }

  function HandleMessage(p: Progress, batch: Batch, m: Message): (r: Progress)
    requires WellFormed(p.table)
    ensures WellFormed(r.table)
  {
    var t := p.table;
    if IsResponse(m) then
      var id := m.id.value;
      if id !in t.respWait then p.(routes := p.routes + [Dropped])
      else
        var o := t.respWait[id];
        var started := StartsSubscription(t.ops[o], m);
        Progress(
          Table(
            t.respWait - {id},
            if started.Some? then t.clientSubs[started.value := o] else t.clientSubs,
            t.ops[o := Answered(t.ops[o], m, batch)]),
          p.resolved + [o],
          p.routes + [ToRequest(o)])
    else p.(routes := p.routes + [RouteOther(t.clientSubs, m)])
  }

  /** State of the loop after the first `k` messages. */
  function HandlePrefix(t: Table, batch: Batch, k: nat): (p: Progress)
    requires WellFormed(t) && k <= |batch|
    ensures WellFormed(p.table)
  {
    if k == 0 then Progress(t, [], [])
    else HandleMessage(HandlePrefix(t, batch, k - 1), batch, batch[k - 1])
  }

  predicate OwnedBy(ops: map<OpId, Op>, resolved: seq<OpId>, id: string) {
    exists o :: o in resolved && o in ops && id in ops[o].ids
  }

  function RemoveResolved(t: Table, resolved: seq<OpId>): Table {
    t.(respWait := map id | id in t.respWait && !OwnedBy(t.ops, resolved, id) :: t.respWait[id])
  }

  function HandleResponses(t: Table, batch: Batch): Progress
    requires WellFormed(t)
  {
    var p := HandlePrefix(t, batch, |batch|);
    p.(table := RemoveResolved(p.table, p.resolved))
  }

  /** The messages that go on to the call handler, in order. */
  function CallsOf(batch: Batch, routes: seq<Route>): Batch
    requires |routes| == |batch|
  {
    if batch == [] then []
    else
      var n := |batch| - 1;
      CallsOf(batch[..n], routes[..n]) + (if routes[n].ToCallHandler? then [batch[n]] else [])
  }
}
