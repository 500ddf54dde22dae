/**
 The client's dispatch loop (rpc/client.go), as a labelled transition system.

 `Dispatch` is what the dispatch goroutine owns; each `On...` function is one arm of its
 select statement. `State` adds everything that runs beside it: the goroutine that holds
 the write lock, the reader goroutines, the callers waiting for their responses.
 A rendezvous on an unbuffered channel is one step of both sides.
 */
module Dispatch {
  import opened Options
  import opened Messages
  import opened RequestTable

  type ConnId = nat

  /** Run-time failures of the dispatch goroutine outside the response channels. */
  datatype Fault = NilRequest | MessageOnClosedHandler | HandlerClosedTwice

  datatype Dispatch = Dispatch(
    table: Table,
    conn: ConnId,              // the codec and handler in use
    open: bool,                // the handler has not been closed
    reading: bool,
    lastOp: Option<OpId>,
    lockHeld: bool,            // reqInitLock == nil
    closedCodecs: set<ConnId>,
    batchLimit: nat,
    faults: set<Fault>)

  ghost predicate Ok(d: Dispatch) {
    WellFormed(d.table) && (d.lastOp.Some? ==> d.lastOp.value in d.table.ops)
  }

  // ---- the arms of dispatch ----------------------------------------------------------

  /** clientConn.close: cancels the requests, then closes the codec. */
  function CloseConn(d: Dispatch, err: Failure, inflight: Option<OpId>): Dispatch {
    d.(table := CancelAllRequests(d.table, err, inflight),
       open := false,
       closedCodecs := d.closedCodecs + {d.conn},
       faults := if d.open then d.faults else d.faults + {HandlerClosedTwice})
  }

  /** The messages whose responses are looked at: none if the batch is empty or too large. */
  function Examined(d: Dispatch, msgs: Batch, isBatch: bool): Batch {
    if isBatch && d.batchLimit != 0 && |msgs| > d.batchLimit then [] else msgs
  }

  function OnReadOp(d: Dispatch, msgs: Batch, isBatch: bool): (r: Dispatch)
    requires Ok(d) && (!isBatch ==> |msgs| == 1)
    ensures Ok(r)
  {
    HandledKnown(d.table, Examined(d, msgs, isBatch));
    d.(table := HandleResponses(d.table, Examined(d, msgs, isBatch)).table,
       faults := if d.open then d.faults else d.faults + {MessageOnClosedHandler})
  }

  lemma HandledKnown(t: Table, batch: Batch)
    requires WellFormed(t)
    ensures HandleResponses(t, batch).table.ops.Keys == t.ops.Keys
  {
    KeysOfPrefix(t, batch, |batch|);
  }

  lemma {:induction false} KeysOfPrefix(t: Table, batch: Batch, k: nat)
    requires WellFormed(t) && k <= |batch|
    ensures HandlePrefix(t, batch, k).table.ops.Keys == t.ops.Keys
  {
    if k > 0 {
      KeysOfPrefix(t, batch, k - 1);
    }
  }

  function OnReadErr(d: Dispatch, err: Failure): (r: Dispatch)
    requires Ok(d)
    ensures Ok(r)
  {
    CloseConn(d, err, d.lastOp).(reading := false)
  }

  function OnReconnected(d: Dispatch, newConn: ConnId): (r: Dispatch)
    requires Ok(d)
    ensures Ok(r)
  {
    var d1 := if d.reading then CloseConn(d, ClientReconnected, d.lastOp) else d;
    var d2 := d1.(table := Table(map[], map[], d1.table.ops), conn := newConn, open := true, reading := true);
    if d.lastOp.None? then d2.(faults := d2.faults + {NilRequest})
    else d2.(table := AddRequestOp(d2.table, d.lastOp.value))
  }

  function OnReqInit(d: Dispatch, o: OpId, op: Op): (r: Dispatch)
    requires Ok(d) && o !in d.table.ops
    ensures Ok(r)
  {
    var t := d.table.(ops := d.table.ops[o := op]);
    d.(lockHeld := true, lastOp := Some(o), table := AddRequestOp(t, o))
  }

  function OnReqSent(d: Dispatch, failed: bool): (r: Dispatch)
    requires Ok(d)
    ensures Ok(r)
  {
    var d1 :=
      if !failed then d
      else if d.lastOp.None? then d.(faults := d.faults + {NilRequest})
      else d.(table := RemoveRequestOp(d.table, d.lastOp.value));
    d1.(lockHeld := false, lastOp := None)
  }

  function OnReqTimeout(d: Dispatch, o: OpId): (r: Dispatch)
    requires Ok(d) && o in d.table.ops
    ensures Ok(r)
  {
    d.(table := RemoveRequestOp(d.table, o))
  }

  /** The deferred function that runs when the loop returns. */
  function OnClose(d: Dispatch): (r: Dispatch)
    requires Ok(d)
    ensures Ok(r)
  {
    if d.reading then CloseConn(d, ClientQuit, None) else d
  }

  // ---- the whole system --------------------------------------------------------------

  /** A goroutine between the acceptance of its request and its send on reqSent. */
  datatype Writer =
    | Writing(retry: bool)                  // at the head of `write`
    | Dialed(retry: bool, conn: ConnId)     // offering the new codec to dispatch
    | Finished(failed: bool)                // about to send on reqSent

  /** The goroutine that issued a request, after its request was accepted. */
  datatype Caller =
    | Sending | SendFailed | Waiting | TimedOut | Notified
    | Returned(reply: Option<Batch>, err: Option<Failure>)

  datatype State = State(
    d: Dispatch,
    quit: bool,                  // dispatch has returned; closing and didClose are closed
    reqSent: seq<bool>,          // the buffered channel: true for a failed write
    writers: map<OpId, Writer>,
    writeConn: Option<ConnId>,
    readers: set<ConnId>,        // reader goroutines that have not delivered their error
    nextConn: ConnId,
    callers: map<OpId, Caller>,
    lost: set<OpId>)             // history: see `LosesLastOp`

  const REQ_SENT_CAPACITY := 1

  datatype Label =
    | ReqInit(op: OpId, ids: seq<string>, isSub: bool, made: bool)
    | WriteOk(op: OpId)
    | WriteFail(op: OpId)
    | DialFail(op: OpId)
    | DialOk(op: OpId)
    | Reconnected(op: OpId, drained: ConnId)
    | ReconnectAborted(op: OpId)
    | PushSent(op: OpId)
    | ReqSent
    | ReadOp(reader: ConnId, msgs: Batch, isBatch: bool)
    | ReadErr(reader: ConnId, reason: string)
    | Timeout(op: OpId)
    | Receive(op: OpId)
    | CloseClient(drained: ConnId)

  function Initial(batchLimit: nat): State {
    State(
      Dispatch(Table(map[], map[], map[]), 0, true, true, None, false, {}, batchLimit, {}),
      false, [], map[], Some(0), {0}, 1, map[], {})
  }

  ghost predicate Proper(s: State) {
    && Ok(s.d)
    && s.callers.Keys == s.d.table.ops.Keys
    && s.writers.Keys <= s.d.table.ops.Keys
  }

  predicate IsWriting(s: State, o: OpId) {
    o in s.writers && s.writers[o].Writing?
  }

  predicate IsDialed(s: State, o: OpId) {
    o in s.writers && s.writers[o].Dialed?
  }

  predicate IsFinished(s: State, o: OpId) {
    o in s.writers && s.writers[o].Finished?
  }

  predicate IsWaiting(s: State, o: OpId) {
    o in s.callers && s.callers[o] == Waiting
  }

  /** The ids of a request are in use while it is registered, last, or its caller waits. */
  ghost predicate InUse(s: State, o: OpId) {
    || !Unregistered(s.d.table, o)
    || s.d.lastOp == Some(o)
    || (o in s.callers && (s.callers[o].Sending? || s.callers[o].Waiting?))
  }

  /** The ids of a new request are in use by no other request; they may have been used before. */
  ghost predicate UnusedIds(s: State, ids: seq<string>) {
    forall p, id :: p in s.d.table.ops && InUse(s, p) && id in s.d.table.ops[p].ids ==> id !in ids
  }

  ghost predicate Enabled(s: State, l: Label) {
    match l
    case ReqInit(o, ids, isSub, made) =>
      && !s.quit && !s.d.lockHeld && o !in s.d.table.ops && UnusedIds(s, ids)
      && (isSub ==> |ids| == 1) && (!made ==> ids == [])
    case WriteOk(o) =>
      // a write on a closed codec fails
      IsWriting(s, o) && s.writeConn.Some? && s.writeConn.value !in s.d.closedCodecs
    case WriteFail(o) => IsWriting(s, o) && s.writeConn.Some?
    case DialFail(o) => IsWriting(s, o) && s.writeConn.None?
    case DialOk(o) => IsWriting(s, o) && s.writeConn.None?
    case Reconnected(o, r) => !s.quit && IsDialed(s, o) && (s.d.reading ==> r in s.readers)
    case ReconnectAborted(o) => s.quit && IsDialed(s, o)
    case PushSent(o) => IsFinished(s, o) && |s.reqSent| < REQ_SENT_CAPACITY
    case ReqSent => !s.quit && |s.reqSent| > 0
    case ReadOp(r, msgs, isBatch) => !s.quit && r in s.readers && (!isBatch ==> |msgs| == 1)
    case ReadErr(r, _) => !s.quit && r in s.readers
    case Timeout(o) => IsWaiting(s, o)
    case Receive(o) =>
      && IsWaiting(s, o) && o in s.d.table.ops
      && (s.d.table.ops[o].resp.buffer != [] || s.d.table.ops[o].resp.closed)
    case CloseClient(r) => !s.quit && (s.d.reading ==> r in s.readers)
  }

  /**
   The window in which a read error loses a request: its message was already written
   (so the error spares it as in flight) and no response to it has arrived.
   */
  predicate LosesLastOp(s: State) {
    && s.d.lastOp.Some? && s.d.lastOp.value in s.d.table.ops
    && !s.d.table.ops[s.d.lastOp.value].hadResponse
    && s.d.table.ops[s.d.lastOp.value].ids != []
    && (s.reqSent == [false] || (s.d.lastOp.value in s.writers && s.writers[s.d.lastOp.value] == Finished(false)))
  }

  function Received(op: Op): Caller {
    Returned(if op.resp.buffer == [] then None else Some(op.resp.buffer[0]), op.err)
  }

  function TakeResponse(op: Op): Op {
    if op.resp.buffer == [] then op else op.(resp := op.resp.(buffer := op.resp.buffer[1..]))
  }

  /** What `send` returns to its caller once the outcome of the write is known. */
  function AfterSend(op: Op, failed: bool): Caller {
    if failed then SendFailed else if op.resp.made then Waiting else Notified
  }

  function DoReqInit(s: State, o: OpId, op: Op): (r: State)
    requires Proper(s) && o !in s.d.table.ops
    ensures Proper(r)
  {
    s.(d := OnReqInit(s.d, o, op),
       writers := s.writers[o := Writing(false)],
       callers := s.callers[o := Sending])
  }

  function DoReconnected(s: State, o: OpId, drained: ConnId): (r: State)
    requires Proper(s) && IsDialed(s, o)
    ensures Proper(r)
  {
    var w := s.writers[o];
    s.(d := OnReconnected(s.d, w.conn),
       readers := (if s.d.reading then s.readers - {drained} else s.readers) + {w.conn},
       writers := s.writers[o := Writing(w.retry)],
       writeConn := Some(w.conn))
  }

  function DoPushSent(s: State, o: OpId): (r: State)
    requires Proper(s) && IsFinished(s, o)
    ensures Proper(r)
  {
    var failed := s.writers[o].failed;
    s.(reqSent := s.reqSent + [failed], writers := s.writers - {o},
       callers := s.callers[o := AfterSend(s.d.table.ops[o], failed)])
  }

  function DoReadOp(s: State, msgs: Batch, isBatch: bool): (r: State)
    requires Proper(s) && (!isBatch ==> |msgs| == 1)
    ensures Proper(r)
  {
    HandledKnown(s.d.table, Examined(s.d, msgs, isBatch));
    s.(d := OnReadOp(s.d, msgs, isBatch))
  }

  function DoReadErr(s: State, reader: ConnId, reason: string): (r: State)
    requires Proper(s)
    ensures Proper(r)
  {
    s.(d := OnReadErr(s.d, ReadFailed(reason)), readers := s.readers - {reader},
       lost := if LosesLastOp(s) then s.lost + {s.d.lastOp.value} else s.lost)
  }

  function DoTimeout(s: State, o: OpId): (r: State)
    requires Proper(s) && o in s.callers
    ensures Proper(r)
  {
    s.(d := if s.quit then s.d else OnReqTimeout(s.d, o), callers := s.callers[o := TimedOut])
  }

  function DoReceive(s: State, o: OpId): (r: State)
    requires Proper(s) && o in s.callers
    ensures Proper(r)
  {
    var op := s.d.table.ops[o];
    s.(d := s.d.(table := s.d.table.(ops := s.d.table.ops[o := TakeResponse(op)])),
       callers := s.callers[o := Received(op)])
  }

  function DoCloseClient(s: State, drained: ConnId): (r: State)
    requires Proper(s)
    ensures Proper(r)
  {
    s.(d := OnClose(s.d), quit := true, readers := if s.d.reading then s.readers - {drained} else s.readers)
  }

  function SetWriter(s: State, o: OpId, w: Writer): (r: State)
    requires Proper(s) && o in s.writers
    ensures Proper(r)
  {
    s.(writers := s.writers[o := w])
  }

  function Step(s: State, l: Label): (r: State)
    requires Proper(s) && Enabled(s, l)
    ensures Proper(r)
  {
    match l
    case ReqInit(o, ids, isSub, made) => DoReqInit(s, o, NewOp(ids, isSub, made))
    case WriteOk(o) => SetWriter(s, o, Finished(false))
    case WriteFail(o) =>
      SetWriter(s, o, if s.writers[o].retry then Finished(true) else Writing(true)).(writeConn := None)
    case DialFail(o) => SetWriter(s, o, Finished(true))
    case DialOk(o) => SetWriter(s, o, Dialed(s.writers[o].retry, s.nextConn)).(nextConn := s.nextConn + 1)
    case Reconnected(o, r) => DoReconnected(s, o, r)
    case ReconnectAborted(o) => SetWriter(s, o, Finished(true))
    case PushSent(o) => DoPushSent(s, o)
    case ReqSent => s.(d := OnReqSent(s.d, s.reqSent[0]), reqSent := s.reqSent[1..])
    case ReadOp(_, msgs, isBatch) => DoReadOp(s, msgs, isBatch)
    case ReadErr(r, reason) => DoReadErr(s, r, reason)
    case Timeout(o) => DoTimeout(s, o)
    case Receive(o) => DoReceive(s, o)
    case CloseClient(r) => DoCloseClient(s, r)
  }

  /** The labels can be executed one after the other from `s`. */
  ghost predicate IsRun(s: State, run: seq<Label>)
    requires Proper(s)
    decreases |run|
  {
    run == [] || (Enabled(s, run[0]) && IsRun(Step(s, run[0]), run[1..]))
  }

  ghost function After(s: State, run: seq<Label>): (r: State)
    requires Proper(s) && IsRun(s, run)
    ensures Proper(r)
    decreases |run|
  {
    if run == [] then s else After(Step(s, run[0]), run[1..])
  }
}
