/**
 The handler's request table and the arms of the dispatch loop as objects that change in
 place (rpc/handler.go, rpc/client.go), each proved against its specification function.

 Go iterates maps in an unspecified order; here each such loop picks any remaining key.
 */
module Client {
  import opened Options
  import opened Messages
  import opened RequestTable
  import D = Dispatch
  import ResponseRouting

  /** The request records, which the handlers of successive connections share. */
  class OpStore {
    var ops: map<OpId, Op>

    constructor ()
      ensures ops == map[]
    {
      ops := map[];
    }
  }

  class Handler {
    const store: OpStore
    var respWait: map<string, OpId>
    var clientSubs: map<string, OpId>

    constructor (store: OpStore)
      ensures this.store == store && respWait == map[] && clientSubs == map[]
    {
      this.store := store;
      respWait := map[];
      clientSubs := map[];
    }

    ghost function View(): Table
      reads this, store
    {
      Table(respWait, clientSubs, store.ops)
    }

    method AddRequestOp(o: OpId)
      requires o in store.ops
      modifies this`respWait
      ensures View() == RequestTable.AddRequestOp(old(View()), o)
    {
      var ids := store.ops[o].ids;
      for i := 0 to |ids|
        invariant forall id :: id in respWait <==> id in old(respWait) || id in ids[..i]
        invariant forall id :: id in respWait ==> respWait[id] == if id in ids[..i] then o else old(respWait)[id]
      {
        respWait := respWait[ids[i] := o];
      }
      assert ids[..|ids|] == ids;
      assert respWait == RequestTable.AddRequestOp(old(View()), o).respWait;
    }

    method RemoveRequestOp(o: OpId)
      requires o in store.ops
      modifies this`respWait
      ensures View() == RequestTable.RemoveRequestOp(old(View()), o)
    {
      var ids := store.ops[o].ids;
      for i := 0 to |ids|
        invariant respWait == old(respWait) - (set id | id in ids[..i])
      {
        respWait := respWait - {ids[i]};
      }
      assert ids[..|ids|] == ids;
    }

    /** Removes one entry, and closes its request unless that has been done. */
    method CloseRequest(id: string, err: Failure, didClose: set<OpId>) returns (closed: set<OpId>)
      requires id in respWait && respWait[id] in store.ops
      modifies this`respWait, store
      ensures respWait == old(respWait) - {id} && closed == didClose + {old(respWait)[id]}
      ensures var o := old(respWait)[id];
              store.ops == if o in didClose then old(store.ops) else old(store.ops)[o := Cancelled(old(store.ops)[o], err)]
    {
      var o := respWait[id];
      respWait := respWait - {id};
      closed := didClose;
      if o !in didClose {
        store.ops := store.ops[o := Cancelled(store.ops[o], err)];
        closed := closed + {o};
      }
    }

    /** One iteration of the first loop: some entry is removed. */
    method CloseNext(err: Failure, didClose: set<OpId>, ghost t: Table, ghost inflight: Option<OpId>, ghost done: set<string>)
      returns (id: string, closed: set<OpId>)
      requires respWait != map[] && WellFormed(t) && ClosingAt(t, err, inflight, done, didClose, View())
      modifies this`respWait, store
      ensures ClosingAt(t, err, inflight, done + {id}, closed, View()) && |respWait| < |old(respWait)|
    {
      id :| id in respWait;
      ClosingStep(t, err, inflight, done, didClose, View(), id);
      closed := CloseRequest(id, err, didClose);
    }

    /** The first loop: removes every entry and closes each request once, but for `inflight`. */
    method CloseRequests(err: Failure, inflight: Option<OpId>)
      requires WellFormed(View())
      modifies this`respWait, store
      ensures respWait == map[]
      ensures store.ops == RequestTable.CancelAllRequests(old(View()), err, inflight).ops
    {
      ghost var t := View();
      var didClose: set<OpId> := if inflight.Some? then {inflight.value} else {};
      ghost var done: set<string> := {};
      while respWait != map[]
        invariant ClosingAt(t, err, inflight, done, didClose, View())
        decreases |respWait|
      {
        var id;
        id, didClose := CloseNext(err, didClose, t, inflight, done);
        done := done + {id};
      }
      ClosingDone(t, err, inflight, done, didClose, View());
    }

    /** The second loop: tells the forwarding loop of every active subscription to stop. */
    method StopSubscriptions(err: Failure) returns (told: map<string, Failure>)
      modifies this`clientSubs
      ensures clientSubs == map[]
      ensures told.Keys == old(clientSubs.Keys) && forall id :: id in told ==> told[id] == err
    {
      told := map[];
      while clientSubs != map[]
        invariant told.Keys + clientSubs.Keys == old(clientSubs.Keys)
        invariant forall id :: id in told ==> told[id] == err
        decreases |clientSubs|
      {
        var id :| id in clientSubs;
        RemoveEntry(clientSubs, id);
        told := told[id := err];
        clientSubs := clientSubs - {id};
      }
    }

    method CancelAllRequests(err: Failure, inflight: Option<OpId>) returns (told: map<string, Failure>)
      requires WellFormed(View())
      modifies this, store
      ensures View() == RequestTable.CancelAllRequests(old(View()), err, inflight)
      ensures told.Keys == old(clientSubs.Keys) && forall id :: id in told ==> told[id] == err
    {
      CloseRequests(err, inflight);
      told := StopSubscriptions(err);
    }

    /** One iteration of the loop of handleResponses. */
    method HandleMessage(batch: Batch, m: Message, ghost p: Progress) returns (resolved: Option<OpId>, route: Route)
      requires WellFormed(View()) && p.table == View()
      modifies this, store
      ensures var q := RequestTable.HandleMessage(p, batch, m);
              && View() == q.table && q.routes == p.routes + [route]
              && q.resolved == p.resolved + (if resolved.Some? then [resolved.value] else [])
    {
      resolved, route := None, Dropped;
      if IsResponse(m) {
        var id := m.id.value;
        if id in respWait {
          var o := respWait[id];
          resolved, route := Some(o), ToRequest(o);
          respWait := respWait - {id};
          var op := store.ops[o];
          var started := StartsSubscription(op, m);
          if started.Some? {
            clientSubs := clientSubs[started.value := o];
          }
          store.ops := store.ops[o := Answered(op, m, batch)];
        }
      } else {
        route := RouteOther(clientSubs, m);
      }
    }

    /** The loop over the messages of a batch. */
    method RouteAll(batch: Batch) returns (calls: Batch, routes: seq<Route>, resolved: seq<OpId>)
      requires WellFormed(View())
      modifies this, store
      ensures var p := HandlePrefix(old(View()), batch, |batch|);
              View() == p.table && routes == p.routes && resolved == p.resolved
      ensures |routes| == |batch| && calls == CallsOf(batch, routes)
    {
      ghost var p := Progress(View(), [], []);
      calls, routes, resolved := [], [], [];
      for k := 0 to |batch|
        invariant WellFormed(p.table) && p == HandlePrefix(old(View()), batch, k)
        invariant p.table == View() && p.resolved == resolved && p.routes == routes
        invariant |routes| == k && calls == CallsOf(batch[..k], routes)
      {
        var o, route := HandleMessage(batch, batch[k], p);
        p := RequestTable.HandleMessage(p, batch, batch[k]);
        resolved := resolved + (if o.Some? then [o.value] else []);
        routes := routes + [route];
        if route.ToCallHandler? {
          calls := calls + [batch[k]];
        }
        CallsPush(batch, k, routes);
      }
      assert batch[..|batch|] == batch;
    }

    /** Routes a batch; returns the messages that go on to the call handler. */
    method HandleResponses(batch: Batch) returns (calls: Batch, routes: seq<Route>)
      requires WellFormed(View())
      modifies this, store
      ensures var p := RequestTable.HandleResponses(old(View()), batch);
              View() == p.table && routes == p.routes && |routes| == |batch| && calls == CallsOf(batch, routes)
    {
      ResolvedKnown(View(), batch, |batch|);
      var resolved;
      calls, routes, resolved := RouteAll(batch);
      RemoveAll(resolved);
    }

    method RemoveAll(resolved: seq<OpId>)
      requires forall o :: o in resolved ==> o in store.ops
      modifies this`respWait
      ensures View() == RemoveResolved(old(View()), resolved)
    {
      for i := 0 to |resolved|
        invariant respWait == RemoveResolved(old(View()), resolved[..i]).respWait
      {
        ghost var was := respWait;
        RemoveRequestOp(resolved[i]);
        RemoveOneMore(old(View()), resolved, i);
      }
      assert resolved[..|resolved|] == resolved;
    }
  }

  /**
   The variables of dispatch. Each method is one arm of its select statement. What the
   methods require (a last request on reconnect, an open handler on a read event) is what
   the theorems about the whole system show to hold whenever the arm can be taken.
   */
  class Dispatcher {
    const store: OpStore
    const batchLimit: nat
    var handler: Handler
    var conn: D.ConnId
    var open: bool
    var reading: bool
    var lastOp: Option<OpId>
    var lockHeld: bool
    var closedCodecs: set<D.ConnId>

    ghost function View(): D.Dispatch
      reads this, handler, store
    {
      D.Dispatch(Table(handler.respWait, handler.clientSubs, store.ops),
        conn, open, reading, lastOp, lockHeld, closedCodecs, batchLimit, {})
    }

    ghost predicate Valid()
      reads this, handler, store
    {
      handler.store == store && D.Ok(View())
    }

    constructor (batchLimit: nat)
      ensures Valid() && View() == D.Initial(batchLimit).d
      ensures fresh(handler) && fresh(store)
    {
      var st := new OpStore();
      store := st;
      handler := new Handler(st);
      this.batchLimit := batchLimit;
      conn, open, reading, lastOp, lockHeld, closedCodecs := 0, true, true, None, false, {};
    }

    method CloseConn(err: Failure, inflight: Option<OpId>)
      requires Valid() && open
      modifies this`open, this`closedCodecs, handler, store
      ensures Valid() && View() == D.CloseConn(old(View()), err, inflight)
    {
      var _ := handler.CancelAllRequests(err, inflight);
      open := false;
      closedCodecs := closedCodecs + {conn};
    }

    /** Returns the messages that call goroutines will process. */
    method OnReadOp(msgs: Batch, isBatch: bool) returns (calls: Batch)
      requires Valid() && open && (!isBatch ==> |msgs| == 1)
      modifies handler, store
      ensures Valid() && View() == D.OnReadOp(old(View()), msgs, isBatch)
      ensures calls == ResponseRouting.CallMessages(D.Examined(old(View()), msgs, isBatch))
      ensures isBatch && batchLimit != 0 && |msgs| > batchLimit ==> View() == old(View()) && calls == []
    {
      calls := [];
      D.HandledKnown(handler.View(), D.Examined(View(), msgs, isBatch));
      if isBatch && (msgs == [] || (batchLimit != 0 && |msgs| > batchLimit)) {
        // a call goroutine answers with an error; the request table is not consulted
        assert D.Examined(View(), msgs, isBatch) == [];
        NothingExamined(handler.View());
      } else {
        var routes;
        ResponseRouting.BatchRouting(handler.View(), msgs);
        calls, routes := handler.HandleResponses(msgs);
      }
    }

    method OnReadErr(err: Failure)
      requires Valid() && open
      modifies this`open, this`closedCodecs, this`reading, handler, store
      ensures Valid() && View() == D.OnReadErr(old(View()), err)
    {
      CloseConn(err, lastOp);
      reading := false;
    }

    method OnReconnected(newConn: D.ConnId)
      requires Valid() && lastOp.Some? && (reading <==> open)
      modifies this, handler, store
      ensures Valid() && View() == D.OnReconnected(old(View()), newConn) && fresh(handler)
    {
      if reading {
        CloseConn(ClientReconnected, lastOp);
      }
      reading := true;
      open := true;
      conn := newConn;
      handler := new Handler(store);
      handler.AddRequestOp(lastOp.value);
    }

    method OnReqInit(o: OpId, op: Op)
      requires Valid() && o !in store.ops
      modifies this`lastOp, this`lockHeld, handler, store
      ensures Valid() && View() == D.OnReqInit(old(View()), o, op)
    {
      lockHeld := true;
      lastOp := Some(o);
      store.ops := store.ops[o := op];
      handler.AddRequestOp(o);
    }

    method OnReqSent(failed: bool)
      requires Valid() && lastOp.Some?
      modifies this`lastOp, this`lockHeld, handler
      ensures Valid() && View() == D.OnReqSent(old(View()), failed)
    {
      if failed {
        handler.RemoveRequestOp(lastOp.value);
      }
      lockHeld := false;
      lastOp := None;
    }

    method OnReqTimeout(o: OpId)
      requires Valid() && o in store.ops
      modifies handler
      ensures Valid() && View() == D.OnReqTimeout(old(View()), o)
    {
      handler.RemoveRequestOp(o);
    }

    method OnClose()
      requires Valid() && (reading <==> open)
      modifies this`open, this`closedCodecs, handler, store
      ensures Valid() && View() == D.OnClose(old(View()))
    {
      if reading {
        CloseConn(ClientQuit, None);
      }
    }
  }

  lemma NothingExamined(t: Table)
    requires WellFormed(t)
    ensures RequestTable.HandleResponses(t, []).table == t
  {
    assert HandlePrefix(t, [], 0) == Progress(t, [], []);
    assert RemoveResolved(t, []).respWait == t.respWait;
  }

  lemma {:induction false} ResolvedKnown(t: Table, batch: Batch, k: nat)
    requires WellFormed(t) && k <= |batch|
    ensures forall o :: o in HandlePrefix(t, batch, k).resolved ==> o in HandlePrefix(t, batch, k).table.ops
  {
    if k > 0 {
      ResolvedKnown(t, batch, k - 1);
    }
  }

  lemma CallsPush(batch: Batch, k: nat, routes: seq<Route>)
    requires k < |batch| && |routes| == k + 1
    ensures CallsOf(batch[..k + 1], routes)
         == CallsOf(batch[..k], routes[..k]) + (if routes[k].ToCallHandler? then [batch[k]] else [])
  {
    assert batch[..k + 1][..k] == batch[..k];
  }

  lemma RemoveEntry(m: map<string, OpId>, id: string)
    requires id in m
    ensures (m - {id}).Keys == m.Keys - {id} && |m - {id}| < |m|
  {
    assert (m - {id}).Keys == m.Keys - {id};
  }

  lemma RemoveKey(m: map<string, OpId>, done: set<string>, id: string)
    requires id in m && id !in done
    ensures (m - done) - {id} == m - (done + {id})
    ensures |(m - done) - {id}| < |m - done|
  {
    RemoveEntry(m - done, id);
  }

  ghost predicate ClosedBy(wait: map<string, OpId>, done: set<string>, o: OpId) {
    exists id :: id in wait && id in done && wait[id] == o
  }

  /** The requests once the entries `done` have been removed. */
  ghost predicate Closing(t: Table, err: Failure, inflight: Option<OpId>, done: set<string>,
                          didClose: set<OpId>, ops: map<OpId, Op>)
  {
    && ops.Keys == t.ops.Keys
    && (forall o :: o in didClose <==> inflight == Some(o) || ClosedBy(t.respWait, done, o))
    && (forall o :: o in t.ops ==>
          ops[o] == (if o in didClose && inflight != Some(o) then Cancelled(t.ops[o], err) else t.ops[o]))
  }

  /** Where the closing loop stands. */
  ghost predicate ClosingAt(t: Table, err: Failure, inflight: Option<OpId>, done: set<string>,
                            didClose: set<OpId>, now: Table)
  {
    now.respWait == t.respWait - done && Closing(t, err, inflight, done, didClose, now.ops)
  }

  lemma ClosedByOneMore(wait: map<string, OpId>, done: set<string>, id: string, o: OpId)
    requires id in wait
    ensures ClosedBy(wait, done + {id}, o) <==> ClosedBy(wait, done, o) || wait[id] == o
  {
    if ClosedBy(wait, done, o) {
      var id' :| id' in wait && id' in done && wait[id'] == o;
      assert id' in done + {id};
    }
  }

  ghost function AfterClosing(now: Table, didClose: set<OpId>, id: string, err: Failure): Table
    requires id in now.respWait && now.respWait[id] in now.ops
  {
    var o := now.respWait[id];
    Table(now.respWait - {id}, now.clientSubs,
      if o in didClose then now.ops else now.ops[o := Cancelled(now.ops[o], err)])
  }

  lemma ClosingStep(t: Table, err: Failure, inflight: Option<OpId>, done: set<string>,
                    didClose: set<OpId>, now: Table, id: string)
    requires ClosingAt(t, err, inflight, done, didClose, now)
    requires id in now.respWait && t.respWait[id] in t.ops
    ensures now.respWait[id] in now.ops
    ensures |now.respWait - {id}| < |now.respWait|
    ensures ClosingAt(t, err, inflight, done + {id}, didClose + {now.respWait[id]}, AfterClosing(now, didClose, id, err))
  {
    RemoveKey(t.respWait, done, id);
    forall o ensures ClosedBy(t.respWait, done + {id}, o) <==> ClosedBy(t.respWait, done, o) || t.respWait[id] == o {
      ClosedByOneMore(t.respWait, done, id, o);
    }
  }

  lemma ClosingDone(t: Table, err: Failure, inflight: Option<OpId>, done: set<string>,
                    didClose: set<OpId>, now: Table)
    requires ClosingAt(t, err, inflight, done, didClose, now) && now.respWait == map[]
    ensures now.ops == RequestTable.CancelAllRequests(t, err, inflight).ops
  {
    forall id | id in t.respWait ensures id in done {
      assert id !in now.respWait;
    }
    forall o ensures ClosedBy(t.respWait, done, o) <==> o in t.respWait.Values {
    }
  }

  lemma RemoveOneMore(t: Table, resolved: seq<OpId>, i: nat)
    requires i < |resolved| && resolved[i] in t.ops
    ensures RequestTable.RemoveRequestOp(RemoveResolved(t, resolved[..i]), resolved[i])
         == RemoveResolved(t, resolved[..i + 1])
  {
    forall id ensures OwnedBy(t.ops, resolved[..i + 1], id) <==> OwnedBy(t.ops, resolved[..i], id) || id in t.ops[resolved[i]].ids {
      if id in t.ops[resolved[i]].ids {
        assert resolved[i] in resolved[..i + 1];
      }
    }
  }
}
