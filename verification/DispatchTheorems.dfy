/**
 What holds in every run of the client: the theorems about the dispatch system.
 A run is any sequence of enabled steps from the initial state, whatever the server sends,
 whenever connections break, and however the callers time out.
 */
module DispatchTheorems {
  import opened Options
  import opened Messages
  import opened RequestTable
  import opened Dispatch
  import opened DispatchInvariant
  import opened DispatchSteps

  ghost predicate IsClientRun(batchLimit: nat, run: seq<Label>) {
    IsRun(Initial(batchLimit), run)
  }

  ghost function Reached(batchLimit: nat, run: seq<Label>): State
    requires IsClientRun(batchLimit, run)
  {
    After(Initial(batchLimit), run)
  }

  lemma ReachedInv(batchLimit: nat, run: seq<Label>)
    requires IsClientRun(batchLimit, run)
    ensures Inv(Reached(batchLimit, run))
  {
    InitialInv(batchLimit);
    InvRun(Initial(batchLimit), run);
  }

  // ---- response channels ---------------------------------------------------------------

  /** At most one send, at most one close, nothing after the close. */
  ghost predicate SafeHistory(h: seq<ChanEvent>) {
    forall i, j :: 0 <= i < j < |h| ==> h[i].Sent? && h[j].Closed?
  }

  /**
   No run sends twice on a response channel, closes it twice, sends on it after closing, or
   blocks on it; nor does dispatch ever dereference a nil request, handle a message on a
   closed handler, or close a handler twice. Whatever is registered has a channel that can
   still be closed, and sent to if it was not answered.
   */
  lemma ResponseChannelSafety(batchLimit: nat, run: seq<Label>)
    requires IsClientRun(batchLimit, run)
    ensures var s := Reached(batchLimit, run);
            && s.d.faults == {}
            && forall o :: o in s.d.table.ops ==>
                 && s.d.table.ops[o].resp.faults == {} && SafeHistory(s.d.table.ops[o].resp.history)
                 && (!Unregistered(s.d.table, o) ==> ReadyChannel(s.d.table.ops[o]))
  {
    ReachedInv(batchLimit, run);
    var s := Reached(batchLimit, run);
    forall o | o in s.d.table.ops
      ensures s.d.table.ops[o].resp.faults == {} && SafeHistory(s.d.table.ops[o].resp.history)
      ensures !Unregistered(s.d.table, o) ==> ReadyChannel(s.d.table.ops[o])
    {
      SafeNow(s, o);
    }
  }

  /** A close cannot panic, and a send that is due can neither panic nor block. */
  ghost predicate ReadyChannel(op: Op) {
    op.resp.made && !op.resp.closed && (!op.hadResponse ==> op.resp.buffer == [])
  }

  lemma SafeNow(s: State, o: OpId)
    requires Inv(s) && o in s.d.table.ops
    ensures s.d.table.ops[o].resp.faults == {} && SafeHistory(s.d.table.ops[o].resp.history)
    ensures !Unregistered(s.d.table, o) ==> ReadyChannel(s.d.table.ops[o])
  {
    assert OpInv(s, o);
    if !Unregistered(s.d.table, o) {
      var id :| id in s.d.table.respWait && s.d.table.respWait[id] == o;
      assert id in s.d.table.ops[o].ids;
    }
  }

  /** A closed request can never be registered again, now or later. */
  lemma ClosedIsFinal(batchLimit: nat, run: seq<Label>, o: OpId)
    requires IsClientRun(batchLimit, run) && o in Reached(batchLimit, run).d.table.ops
    requires Reached(batchLimit, run).d.table.ops[o].resp.closed
    ensures var s := Reached(batchLimit, run);
            Unregistered(s.d.table, o) && (s.d.lastOp == Some(o) ==> s.quit)
  {
    ReachedInv(batchLimit, run);
    assert OpInv(Reached(batchLimit, run), o);
  }

  /** A call that returns without error got a batch with a response to one of its ids. */
  lemma WaitReturnsAnswer(batchLimit: nat, run: seq<Label>, o: OpId)
    requires IsClientRun(batchLimit, run) && o in Reached(batchLimit, run).callers
    requires Reached(batchLimit, run).callers[o].Returned? && Reached(batchLimit, run).callers[o].err.None?
    ensures var s := Reached(batchLimit, run);
            && s.callers[o].reply.Some? && |s.callers[o].reply.value| > 0
            && BearsResponse(s.d.table.ops[o].ids, s.callers[o].reply.value)
  {
    ReachedInv(batchLimit, run);
    assert OpInv(Reached(batchLimit, run), o);
  }

  // ---- the write lock ------------------------------------------------------------------

  /**
   At most one caller is between the acceptance of its request and its send on reqSent; the
   lock is held exactly while there is a last request; that caller's send on reqSent never
   blocks, even after the client has quit.
   */
  lemma WriteLock(batchLimit: nat, run: seq<Label>)
    requires IsClientRun(batchLimit, run)
    ensures var s := Reached(batchLimit, run);
            && (s.d.lockHeld <==> s.d.lastOp.Some?)
            && (forall o :: o in s.writers ==> s.d.lastOp == Some(o))
            && (forall o :: IsFinished(s, o) ==> Enabled(s, PushSent(o)))
            && (forall o :: o in s.callers && s.callers[o].Sending? ==> s.d.lastOp == Some(o) && s.reqSent == [])
  {
    ReachedInv(batchLimit, run);
    var s := Reached(batchLimit, run);
    forall o | o in s.callers && s.callers[o].Sending? ensures o in s.writers {
      assert OpInv(s, o);
    }
  }

  /** Once dispatch knows that a request was withdrawn, no response can reach it. */
  lemma WithdrawnIsUnregistered(batchLimit: nat, run: seq<Label>, o: OpId)
    requires IsClientRun(batchLimit, run) && o in Reached(batchLimit, run).d.table.ops
    requires Withdrawn(Reached(batchLimit, run), o) && Reached(batchLimit, run).d.lastOp != Some(o)
    ensures Unregistered(Reached(batchLimit, run).d.table, o)
  {
    ReachedInv(batchLimit, run);
    assert OpInv(Reached(batchLimit, run), o);
  }

  /** How many steps a writer has left: it writes at most twice and dials at most twice. */
  ghost function StepsLeft(w: Writer, connected: bool): nat {
    match w
    case Finished(_) => 0
    case Writing(retry) => (if retry then 1 else 4) + (if connected then 0 else 2)
    case Dialed(retry, _) => if retry then 2 else 5
  }

  /** The step that a writer takes next if everything goes wrong. */
  ghost function NextOfWriter(s: State, o: OpId): Label
    requires o in s.writers
  {
    match s.writers[o]
    case Finished(_) => PushSent(o)
    case Writing(_) => if s.writeConn.Some? then WriteFail(o) else DialFail(o)
    case Dialed(_, _) => if s.quit then ReconnectAborted(o) else Reconnected(o, s.d.conn)
  }

  /** A writer is never stuck, and every step it takes brings it closer to its end. */
  lemma WriterFinishes(batchLimit: nat, run: seq<Label>, o: OpId)
    requires IsClientRun(batchLimit, run) && o in Reached(batchLimit, run).writers
    ensures var s := Reached(batchLimit, run);
            && Enabled(s, NextOfWriter(s, o))
            && (forall l :: Enabled(s, l) && (IsWriterLabel(l) || l.Reconnected?) ==>
                  && o in Step(s, l).writers
                  && StepsLeft(Step(s, l).writers[o], Step(s, l).writeConn.Some?) < StepsLeft(s.writers[o], s.writeConn.Some?))
  {
    ReachedInv(batchLimit, run);
    var s := Reached(batchLimit, run);
    forall l | Enabled(s, l) && (IsWriterLabel(l) || l.Reconnected?)
      ensures o in Step(s, l).writers
      ensures StepsLeft(Step(s, l).writers[o], Step(s, l).writeConn.Some?) < StepsLeft(s.writers[o], s.writeConn.Some?)
    {
      OnlyWriter(s, l, o);
    }
  }

  lemma OnlyWriter(s: State, l: Label, o: OpId)
    requires Proper(s) && LockInv(s) && o in s.writers && Enabled(s, l) && (IsWriterLabel(l) || l.Reconnected?)
    ensures o in Step(s, l).writers
    ensures StepsLeft(Step(s, l).writers[o], Step(s, l).writeConn.Some?) < StepsLeft(s.writers[o], s.writeConn.Some?)
  {
    assert l.op == o;
  }

  /** A waiting caller can give up at any time; while dispatch runs, its request is then withdrawn. */
  lemma CallerGivesUp(s: State, o: OpId)
    requires Inv(s) && IsWaiting(s, o)
    ensures Enabled(s, Timeout(o))
    ensures var s' := Step(s, Timeout(o));
            && o in s'.callers && s'.callers[o].TimedOut? && Unregistered(s'.d.table, o)
            && (forall p :: p in s.callers && p != o ==> s'.callers[p] == s.callers[p])
  {
    InvStep(s, Timeout(o));
    assert OpInv(Step(s, Timeout(o)), o);
  }

  /** A request whose caller gave up is never registered again. */
  lemma {:induction false} TimedOutStaysOut(s: State, o: OpId, run: seq<Label>)
    requires Inv(s) && IsRun(s, run)
    requires o in s.callers && s.callers[o].TimedOut?
    ensures var s' := After(s, run);
            o in s'.callers && s'.callers[o].TimedOut? && Unregistered(s'.d.table, o)
    decreases |run|
  {
    if run == [] {
      assert OpInv(s, o);
    } else {
      InvStep(s, run[0]);
      TimedOutKept(s, run[0], o);
      TimedOutStaysOut(Step(s, run[0]), o, run[1..]);
    }
  }

  lemma TimedOutKept(s: State, l: Label, o: OpId)
    requires Proper(s) && Enabled(s, l) && o in s.callers && s.callers[o].TimedOut? && o !in s.writers
    ensures o in Step(s, l).callers && Step(s, l).callers[o].TimedOut?
  {
  }

  // ---- connection life cycle -----------------------------------------------------------

  /**
   While the client runs, it is reading exactly when the current handler is open, and then
   exactly one reader is alive, that of the current connection. So every message and every
   read error comes from the current connection, and the error that ends drainRead is its.
   */
  lemma ConnectionLifeCycle(batchLimit: nat, run: seq<Label>)
    requires IsClientRun(batchLimit, run)
    ensures var s := Reached(batchLimit, run);
            && (!s.quit ==> (s.d.reading <==> s.d.open))
            && (s.quit ==> !s.d.open)
            && s.readers == (if s.d.open then {s.d.conn} else {})
            && (forall r, msgs, isBatch :: Enabled(s, ReadOp(r, msgs, isBatch)) ==> s.d.open && r == s.d.conn)
            && (forall r, e :: Enabled(s, ReadErr(r, e)) ==> s.d.open && r == s.d.conn)
            && (forall o, r :: s.d.reading && Enabled(s, Reconnected(o, r)) ==> r == s.d.conn)
            && (forall o :: Enabled(s, WriteOk(o)) ==> s.d.open && s.writeConn == Some(s.d.conn))
  {
    ReachedInv(batchLimit, run);
    ReadersAreCurrent(Reached(batchLimit, run));
  }

  lemma ReadersAreCurrent(s: State)
    requires LifeInv(s)
    ensures forall r, msgs, isBatch :: Enabled(s, ReadOp(r, msgs, isBatch)) ==> s.d.open && r == s.d.conn
    ensures forall r, e :: Enabled(s, ReadErr(r, e)) ==> s.d.open && r == s.d.conn
    ensures forall o, r :: s.d.reading && Enabled(s, Reconnected(o, r)) ==> r == s.d.conn
    ensures forall o :: Enabled(s, WriteOk(o)) ==> s.d.open && s.writeConn == Some(s.d.conn)
  {
  }

  /** An array over the batch limit leaves all requests and subscriptions as they are. */
  lemma OversizedIgnored(s: State, r: ConnId, msgs: Batch)
    requires Proper(s) && Enabled(s, ReadOp(r, msgs, true)) && s.d.batchLimit != 0 && |msgs| > s.d.batchLimit
    ensures Step(s, ReadOp(r, msgs, true)).d.table == s.d.table
  {
    assert HandlePrefix(s.d.table, [], 0) == Progress(s.d.table, [], []);
    assert RemoveResolved(s.d.table, []).respWait == s.d.table.respWait;
  }

  // ---- request accountability ----------------------------------------------------------

  /** At some point of the run a read error was handled while `o` was written but unanswered. */
  ghost predicate LossOccurs(s: State, run: seq<Label>, o: OpId)
    requires Proper(s) && IsRun(s, run)
    decreases |run|
  {
    run != [] && (
      || (run[0].ReadErr? && LosesLastOp(s) && s.d.lastOp == Some(o))
      || LossOccurs(Step(s, run[0]), run[1..], o))
  }

  lemma {:induction false} LostIffLoss(s: State, run: seq<Label>, o: OpId)
    requires Proper(s) && IsRun(s, run)
    ensures o in After(s, run).lost <==> o in s.lost || LossOccurs(s, run, o)
    decreases |run|
  {
    if run != [] {
      LostIffLoss(Step(s, run[0]), run[1..], o);
    }
  }

  /**
   In every reachable state, a request is abandoned (neither its writer nor dispatch has yet to
   deal with its write, and it is not registered with an open handler, answered, closed or
   withdrawn) exactly when it has no ids at all, or a read error was handled in the window
   between its write and the processing of its reqSent. Only an empty batch has a caller
   that waits without ids; nobody waits for a notification.
   */
  lemma Accountability(batchLimit: nat, run: seq<Label>, o: OpId)
    requires IsClientRun(batchLimit, run) && o in Reached(batchLimit, run).d.table.ops
    ensures var s := Reached(batchLimit, run);
            !Accounted(s, o) <==>
            && (s.d.table.ops[o].ids == [] || LossOccurs(Initial(batchLimit), run, o))
            && !Pending(s, o) && !Withdrawn(s, o)
  {
    var s := Reached(batchLimit, run);
    ReachedInv(batchLimit, run);
    LostIffLoss(Initial(batchLimit), run, o);
    assert OpInv(s, o);
    if s.d.table.ops[o].ids != [] {
      assert s.d.table.ops[o].ids[0] in s.d.table.ops[o].ids;
    }
  }

  /**
   Close aborts the requests in flight: once dispatch has quit, a call that still waits can
   return at once, exactly unless it has no ids or was lost.
   */
  lemma QuitAborts(batchLimit: nat, run: seq<Label>, o: OpId)
    requires IsClientRun(batchLimit, run)
    requires Reached(batchLimit, run).quit && IsWaiting(Reached(batchLimit, run), o)
    ensures var s := Reached(batchLimit, run);
            && o in s.d.table.ops
            && (Enabled(s, Receive(o)) <==>
                s.d.table.ops[o].ids != [] && !LossOccurs(Initial(batchLimit), run, o))
  {
    ReachedInv(batchLimit, run);
    LostIffLoss(Initial(batchLimit), run, o);
    WaitingAtQuit(Reached(batchLimit, run), o);
  }

  lemma WaitingAtQuit(s: State, o: OpId)
    requires Inv(s) && s.quit && IsWaiting(s, o)
    ensures o in s.d.table.ops && (Enabled(s, Receive(o)) <==> s.d.table.ops[o].ids != [] && o !in s.lost)
  {
    assert OpInv(s, o);
    if s.d.table.ops[o].ids != [] && o !in s.lost {
      assert Accounted(s, o);
    }
  }

  /** A request without ids, such as that of an empty batch, never receives anything. */
  lemma NothingWithoutIds(batchLimit: nat, run: seq<Label>, o: OpId)
    requires IsClientRun(batchLimit, run) && o in Reached(batchLimit, run).d.table.ops
    requires Reached(batchLimit, run).d.table.ops[o].ids == []
    ensures !Enabled(Reached(batchLimit, run), Receive(o))
  {
    InitialInv(batchLimit);
    NothingEver(Initial(batchLimit), run, o);
  }

  /** So an empty batch call hangs, without any read error and even when the client is closed. */
  lemma EmptyBatchWitness(batchLimit: nat)
    ensures var run := [ReqInit(0, [], false, true), WriteOk(0), PushSent(0), ReqSent, CloseClient(0)];
            && IsClientRun(batchLimit, run)
            && Reached(batchLimit, run).quit && IsWaiting(Reached(batchLimit, run), 0)
            && !Enabled(Reached(batchLimit, run), Receive(0))
  {
    var s0 := Initial(batchLimit);
    var run := [ReqInit(0, [], false, true), WriteOk(0), PushSent(0), ReqSent, CloseClient(0)];
    var s1 := Step(s0, run[0]);
    var s2 := Step(s1, run[1]);
    var s3 := Step(s2, run[2]);
    CloseAfterSend(s3, 0);
    Prepend(s2, run[2], [run[3], run[4]]);
    Prepend(s1, run[1], [run[2], run[3], run[4]]);
    Prepend(s0, run[0], [run[1], run[2], run[3], run[4]]);
    NothingEver(s0, run, 0);
  }

  lemma CloseAfterSend(s: State, o: OpId)
    requires Proper(s) && !s.quit && s.d.conn in s.readers && s.reqSent == [false] && IsWaiting(s, o)
    requires s.d.table.ops[o].ids == []
    ensures var run := [ReqSent, CloseClient(s.d.conn)];
            && IsRun(s, run) && After(s, run).quit && IsWaiting(After(s, run), o)
            && After(s, run).d.table.ops[o].ids == []
  {
    RunOf2(s, ReqSent, CloseClient(s.d.conn));
  }

  lemma NothingEver(s: State, run: seq<Label>, o: OpId)
    requires Inv(s) && IsRun(s, run) && o in After(s, run).d.table.ops && After(s, run).d.table.ops[o].ids == []
    ensures !Enabled(After(s, run), Receive(o))
  {
    InvRun(s, run);
    NothingNow(After(s, run), o);
  }

  lemma NothingNow(s: State, o: OpId)
    requires Inv(s) && o in s.d.table.ops && s.d.table.ops[o].ids == []
    ensures !Enabled(s, Receive(o))
  {
    assert ChanInv(s.d.table.ops[o]) by {
      assert OpInv(s, o);
    }
  }

  /** A lost request stays lost: its caller can only leave by its own timeout. */
  lemma {:induction false} LostForever(s: State, o: OpId, run: seq<Label>)
    requires Inv(s) && IsRun(s, run) && o in s.lost
    ensures var s' := After(s, run);
            && o in s'.d.table.ops && s'.d.table.ops[o].resp.history == []
            && !Enabled(s', Receive(o))
    decreases |run|
  {
    if run == [] {
      LostNow(s, o);
    } else {
      InvStep(s, run[0]);
      LostGrows(s, run[0]);
      LostForever(Step(s, run[0]), o, run[1..]);
    }
  }

  lemma LostNow(s: State, o: OpId)
    requires Inv(s) && o in s.lost
    ensures o in s.d.table.ops && s.d.table.ops[o].resp.history == [] && !Enabled(s, Receive(o))
  {
    assert OpInv(s, o);
  }

  lemma LostGrows(s: State, l: Label)
    requires Proper(s) && Enabled(s, l)
    ensures s.lost <= Step(s, l).lost
  {
  }

  /** The window exists: five steps abandon a request that was written successfully. */
  lemma LossWitness(batchLimit: nat, id: string, reason: string)
    ensures var run := [ReqInit(0, [id], false, true), WriteOk(0), PushSent(0), ReadErr(0, reason), ReqSent];
            && IsClientRun(batchLimit, run)
            && 0 in Reached(batchLimit, run).d.table.ops
            && !Accounted(Reached(batchLimit, run), 0)
  {
    var s0 := Initial(batchLimit);
    var run := [ReqInit(0, [id], false, true), WriteOk(0), PushSent(0), ReadErr(0, reason), ReqSent];
    var s1 := Step(s0, run[0]);
    var s2 := Step(s1, run[1]);
    var s3 := Step(s2, run[2]);
    LossAfterSend(s3, id, reason);
    Prepend(s2, run[2], [run[3], run[4]]);
    Prepend(s1, run[1], [run[2], run[3], run[4]]);
    Prepend(s0, run[0], [run[1], run[2], run[3], run[4]]);
  }

  /** From a state where a write has just succeeded, a read error loses the request. */
  lemma LossAfterSend(s: State, id: string, reason: string)
    requires Proper(s) && !s.quit && s.d.conn in s.readers && s.d.lastOp == Some(0) && s.reqSent == [false]
    requires s.d.table.ops[0] == NewOp([id], false, true) && s.callers[0] == Waiting && 0 !in s.writers
    ensures var run := [ReadErr(s.d.conn, reason), ReqSent];
            && IsRun(s, run) && 0 in After(s, run).d.table.ops && !Accounted(After(s, run), 0)
  {
    var s1 := Step(s, ReadErr(s.d.conn, reason));
    var s2 := Step(s1, ReqSent);
    RunOf2(s, ReadErr(s.d.conn, reason), ReqSent);
    assert id in s2.d.table.ops[0].ids;
  }

  /** A step followed by a run is a run. */
  lemma Prepend(s: State, l: Label, rest: seq<Label>)
    requires Proper(s) && Enabled(s, l) && IsRun(Step(s, l), rest)
    ensures IsRun(s, [l] + rest) && After(s, [l] + rest) == After(Step(s, l), rest)
  {
    assert ([l] + rest)[1..] == rest;
  }

  lemma HeadFirst(a: seq<Label>, b: seq<Label>)
    requires a != []
    ensures a + b == [a[0]] + (a[1..] + b)
  {
  }

  lemma {:induction false} Concat(s: State, a: seq<Label>, b: seq<Label>)
    requires Proper(s) && IsRun(s, a) && IsRun(After(s, a), b)
    ensures IsRun(s, a + b) && After(s, a + b) == After(After(s, a), b)
    decreases |a|
  {
    if a == [] {
      assert a + b == b;
    } else {
      var s' := Step(s, a[0]);
      Concat(s', a[1..], b);
      Prepend(s, a[0], a[1..] + b);
      HeadFirst(a, b);
    }
  }

  lemma RunOf2(s: State, l0: Label, l1: Label)
    requires Proper(s) && Enabled(s, l0) && Enabled(Step(s, l0), l1)
    ensures IsRun(s, [l0, l1]) && After(s, [l0, l1]) == Step(Step(s, l0), l1)
  {
    Prepend(Step(s, l0), l1, []);
    Prepend(s, l0, [l1]);
  }
}
