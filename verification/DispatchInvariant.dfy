/** The inductive invariant of the dispatch system. */
module DispatchInvariant {
  import opened Options
  import opened Messages
  import opened RequestTable
  import opened Dispatch
  import ResponseRouting

  /**
   The write lock: held exactly while a last request is set, and then either its one writer
   is at work and reqSent is empty, or the writer is done and its outcome sits in reqSent.
   */
  ghost predicate LockInv(s: State) {
    && (s.d.lockHeld <==> s.d.lastOp.Some?)
    && (!s.d.lockHeld ==> s.writers.Keys == {} && s.reqSent == [])
    && (s.d.lockHeld ==>
          || (s.writers.Keys == {s.d.lastOp.value} && s.reqSent == [])
          || (s.writers.Keys == {} && |s.reqSent| == 1))
  }

  ghost predicate DialedFresh(s: State, o: OpId) {
    IsDialed(s, o) ==>
      var c := s.writers[o].conn;
      c != s.d.conn && c !in s.d.closedCodecs && c < s.nextConn
  }

  /** One open handler has one live reader; a closed handler has none. */
  ghost predicate LifeInv(s: State) {
    && (if s.quit then !s.d.open else s.d.reading == s.d.open)
    && s.readers == (if s.d.open then {s.d.conn} else {})
    && (s.d.conn in s.d.closedCodecs <==> !s.d.open)
    && s.d.conn < s.nextConn
    && (forall c :: c in s.d.closedCodecs ==> c < s.nextConn)
    && (s.writeConn.Some? ==> s.writeConn.value == s.d.conn)
    && s.d.faults == {}
    && (forall o :: o in s.writers ==> DialedFresh(s, o))
  }

  /** The batch holds a response that bears one of the ids. */
  ghost predicate BearsResponse(ids: seq<string>, batch: Batch) {
    exists j :: 0 <= j < |batch| && IsResponse(batch[j]) && batch[j].id.value in ids
  }

  /** A response channel: at most one value, then at most one close, and no run-time fault. */
  ghost predicate ChanInv(op: Op) {
    var c := op.resp;
    && c.faults == {}
    && |c.history| == (if op.hadResponse then 1 else 0) + (if c.closed then 1 else 0)
    && (op.hadResponse ==> c.history[0].Sent? && BearsResponse(op.ids, c.history[0].batch))
    && (c.closed ==> c.history[|c.history| - 1].Closed? && op.err.Some? && op.ids != [])
    && (c.buffer == [] || (op.hadResponse && c.buffer == [c.history[0].batch]))
    && (!c.made ==> op.ids == [])
    && (op.isSub ==> |op.ids| == 1)
    && (op.launches > 0 ==> op.hadResponse)
  }

  ghost predicate ReturnInv(op: Op, caller: Caller) {
    && (caller.Returned? && caller.err.None? ==> caller.reply.Some?)
    && (caller.Returned? && caller.reply.Some? ==>
          op.hadResponse && op.resp.history != [] && op.resp.history[0] == Sent(caller.reply.value))
    && ((caller.Sending? || caller.Waiting?) && op.hadResponse ==> op.resp.buffer != [])
  }

  /** The outcome of the last write as its caller saw it. */
  ghost predicate CallerInv(s: State, o: OpId)
    requires o in s.callers
  {
    && (s.callers[o].Sending? <==> o in s.writers)
    && (s.d.lastOp == Some(o) && s.reqSent == [true] ==> s.callers[o].SendFailed?)
    && (s.d.lastOp == Some(o) && s.reqSent == [false] ==> !s.callers[o].SendFailed?)
  }

  /** The request's message was written. */
  predicate Written(s: State, o: OpId) {
    if o in s.writers then s.writers[o] == Finished(false) else s.reqSent == [false]
  }

  ghost predicate Withdrawn(s: State, o: OpId) {
    o in s.callers && (s.callers[o].SendFailed? || s.callers[o].TimedOut?)
  }

  ghost predicate RegInv(s: State, o: OpId)
    requires o in s.d.table.ops
  {
    var op := s.d.table.ops[o];
    && (Registered(s.d.table, o) || Unregistered(s.d.table, o))
    && (op.resp.closed ==> Unregistered(s.d.table, o) && (s.d.lastOp == Some(o) ==> s.quit))
    && (Withdrawn(s, o) && s.d.lastOp != Some(o) ==> Unregistered(s.d.table, o))
    && (o in s.callers && s.callers[o].TimedOut? ==> Unregistered(s.d.table, o))
    && (!s.d.open && !Unregistered(s.d.table, o) ==> s.d.lastOp == Some(o) && !Written(s, o))
  }

  /** Dispatch has yet to hear how the write went, or the writer will report that it failed. */
  ghost predicate Pending(s: State, o: OpId) {
    || (!s.quit && s.d.lastOp == Some(o))
    || (o in s.writers && s.writers[o] != Finished(false))
  }

  /** Someone still looks after the request, or it has come to an end. */
  ghost predicate Accounted(s: State, o: OpId)
    requires o in s.d.table.ops
  {
    var op := s.d.table.ops[o];
    || Pending(s, o)
    || (s.d.open && op.ids != [] && Registered(s.d.table, o))
    || op.hadResponse
    || op.resp.closed
    || Withdrawn(s, o)
  }

  ghost predicate LossInv(s: State, o: OpId)
    requires o in s.d.table.ops && o in s.callers
  {
    var op := s.d.table.ops[o];
    && (op.ids != [] && !Accounted(s, o) ==> o in s.lost)
    && (s.d.lastOp == Some(o) && !s.quit && op.ids != [] && !op.hadResponse && !Withdrawn(s, o) ==>
          if s.d.open then Registered(s.d.table, o) else (Written(s, o) ==> o in s.lost))
    && (o in s.lost ==>
          && op.ids != [] && !op.hadResponse && !op.resp.closed
          && Unregistered(s.d.table, o) && !s.callers[o].SendFailed?
          && (s.d.lastOp == Some(o) ==> Written(s, o) && !s.d.open))
  }

  ghost predicate OpInv(s: State, o: OpId)
    requires o in s.d.table.ops && o in s.callers
  {
    && ChanInv(s.d.table.ops[o])
    && ReturnInv(s.d.table.ops[o], s.callers[o])
    && CallerInv(s, o)
    && RegInv(s, o)
    && LossInv(s, o)
  }

  /** No two requests in use share an id. */
  ghost predicate DistinctIds(s: State) {
    var ops := s.d.table.ops;
    forall o, p, id ::
      o in ops && p in ops && InUse(s, o) && InUse(s, p) && id in ops[o].ids && id in ops[p].ids ==> o == p
  }

  ghost predicate Inv(s: State) {
    && Proper(s)
    && LockInv(s)
    && LifeInv(s)
    && DistinctIds(s)
    && s.lost <= s.d.table.ops.Keys
    && (forall o :: o in s.d.table.ops ==> OpInv(s, o))
  }

  lemma InitialInv(batchLimit: nat)
    ensures Inv(Initial(batchLimit))
  {
  }

  // ---- channel operations on a well-behaved channel ------------------------------------

  lemma ResolvedChan(a: Op, b: Op, batch: Batch)
    requires ChanInv(a) && !a.resp.closed && a.ids != []
    requires ResponseRouting.ResolvedBy(a, b, batch)
    requires BearsResponse(a.ids, batch)
    ensures ChanInv(b) && !b.resp.closed
  {
  }

  lemma CancelledChan(a: Op, err: Failure)
    requires ChanInv(a) && !a.resp.closed && a.ids != []
    ensures ChanInv(Cancelled(a, err))
  {
  }

  lemma TakenChan(a: Op)
    requires ChanInv(a) && (a.resp.buffer != [] || a.resp.closed)
    ensures ChanInv(TakeResponse(a)) && ReturnInv(a, Received(a))
  {
  }
}
