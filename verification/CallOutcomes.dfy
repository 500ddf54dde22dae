/**
 What a call returns, in every run of the client: the outcome of `send` and of `wait`
 (rpc/client.go), by the labels of the run and the messages that the server sent.
 */
module CallOutcomes {
  import opened Options
  import opened Messages
  import opened RequestTable
  import opened Dispatch
  import opened DispatchInvariant
  import opened DispatchSteps
  import opened DispatchTheorems
  import opened SubscribeAnswers
  import opened CallAnswers
  import ResponseRouting

  // ---- the error of a request ------------------------------------------------------------

  /** The failure that the step gives to the requests it closes, if it closes a handler. */
  function CloseCause(s: State, l: Label): Option<Failure> {
    match l
    case ReadErr(_, reason) => Some(ReadFailed(reason))
    case Reconnected(_, _) => if s.d.reading then Some(ClientReconnected) else None
    case CloseClient(_) => if s.d.reading then Some(ClientQuit) else None
    case _ => None
  }

  /** The step closes request `o`: it is registered, and not spared as in flight. */
  ghost predicate ClosesRequest(s: State, l: Label, o: OpId) {
    && CloseCause(s, l).Some? && !Unregistered(s.d.table, o)
    && (l.CloseClient? || s.d.lastOp != Some(o))
  }

  /** The response to subscribe request `o` among the messages of the step. */
  ghost function SubscribeReply(s: State, l: Label, o: OpId): Option<Message> {
    if l.ReadOp? && o in s.d.table.ops && s.d.table.ops[o].isSub then
      var batch := Examined(s.d, l.msgs, l.isBatch);
      AnswerTo(s.d.table, batch, |batch|, o)
    else None
  }

  /** The error of request `o` after the step, if it was `err` before. */
  ghost function ErrorAfterStep(s: State, l: Label, o: OpId, err: Option<Failure>): Option<Failure> {
    if SubscribeReply(s, l, o).Some? then Verdict(SubscribeReply(s, l, o).value)
    else if ClosesRequest(s, l, o) then CloseCause(s, l)
    else err
  }

  ghost function ErrorOfRun(s: State, run: seq<Label>, o: OpId, err: Option<Failure>): Option<Failure>
    requires Proper(s) && IsRun(s, run)
    decreases |run|
  {
    if run == [] then err else ErrorOfRun(Step(s, run[0]), run[1..], o, ErrorAfterStep(s, run[0], o, err))
  }

  ghost predicate CloseOccurs(s: State, run: seq<Label>, o: OpId)
    requires Proper(s) && IsRun(s, run)
    decreases |run|
  {
    run != [] && (ClosesRequest(s, run[0], o) || CloseOccurs(Step(s, run[0]), run[1..], o))
  }

  ghost predicate SameFate(a: Op, b: Op) {
    b.err == a.err && b.resp.closed == a.resp.closed
  }

  /** The error and the closing of request `o` after the step are what the step says. */
  ghost predicate Fated(s: State, l: Label, o: OpId, a: Op, b: Op) {
    b.err == ErrorAfterStep(s, l, o, a.err) && b.resp.closed == (a.resp.closed || ClosesRequest(s, l, o))
  }

  lemma ErrorOfBatch(t: Table, batch: Batch, o: OpId)
    requires WellFormed(t) && o in t.ops && (t.ops[o].isSub ==> |t.ops[o].ids| == 1)
    ensures var ops, m := HandleResponses(t, batch).table.ops, AnswerTo(t, batch, |batch|, o);
            o in ops && ops[o].err == if t.ops[o].isSub && m.Some? then Verdict(m.value) else t.ops[o].err
  {
    if t.ops[o].isSub {
      SubscribeOutcome(t, batch, o);
    } else {
      ResponseRouting.PrefixEffect(t, batch, |batch|);
    }
  }

  lemma FateOfRead(s: State, l: Label, o: OpId)
    requires Inv(s) && Enabled(s, l) && l.ReadOp? && o in s.d.table.ops
    ensures o in Step(s, l).d.table.ops && Fated(s, l, o, s.d.table.ops[o], Step(s, l).d.table.ops[o])
  {
    assert OpInv(s, o);
    AnswerByRead(s, l, o);
    ErrorOfBatch(s.d.table, Examined(s.d, l.msgs, l.isBatch), o);
  }

  lemma FateOfSender(s: State, l: Label, o: OpId)
    requires Proper(s) && Enabled(s, l) && IsSenderLabel(l) && o in s.d.table.ops
    ensures o in Step(s, l).d.table.ops && SameFate(s.d.table.ops[o], Step(s, l).d.table.ops[o])
  {
    if !l.Receive? {
      assert Step(s, l).d.table.ops[o] == s.d.table.ops[o];
    }
  }

  /** A handler that closes gives its failure to every registered request but the one in flight. */
  lemma FateOfCancel(t: Table, err: Failure, inflight: Option<OpId>, o: OpId)
    requires o in t.ops
    requires !Unregistered(t, o) ==> t.ops[o].resp.made && !t.ops[o].resp.closed
    ensures var ops := CancelAllRequests(t, err, inflight).ops;
            && o in ops
            && if !Unregistered(t, o) && inflight != Some(o) then ops[o].err == Some(err) && ops[o].resp.closed
               else SameFate(t.ops[o], ops[o])
  {
  }

  lemma FateOfClose(s: State, l: Label, o: OpId)
    requires Proper(s) && Enabled(s, l) && !IsSenderLabel(l) && !l.ReadOp? && o in s.d.table.ops
    requires !Unregistered(s.d.table, o) ==> s.d.table.ops[o].resp.made && !s.d.table.ops[o].resp.closed
    ensures o in Step(s, l).d.table.ops && Fated(s, l, o, s.d.table.ops[o], Step(s, l).d.table.ops[o])
  {
    match l
    case ReadErr(_, reason) => FateOfCancel(s.d.table, ReadFailed(reason), s.d.lastOp, o);
    case CloseClient(_) => FateOfCancel(s.d.table, ClientQuit, None, o);
    case Reconnected(_, _) => FateOfCancel(s.d.table, ClientReconnected, s.d.lastOp, o);
  }

  lemma QuietStep(s: State, l: Label, o: OpId)
    requires IsSenderLabel(l)
    ensures SubscribeReply(s, l, o).None? && !ClosesRequest(s, l, o)
  {
  }

  lemma FateOfOther(s: State, l: Label, o: OpId)
    requires Proper(s) && Enabled(s, l) && !l.ReadOp? && o in s.d.table.ops
    requires !Unregistered(s.d.table, o) ==> ReadyChannel(s.d.table.ops[o])
    ensures o in Step(s, l).d.table.ops && Fated(s, l, o, s.d.table.ops[o], Step(s, l).d.table.ops[o])
  {
    if IsSenderLabel(l) {
      FateOfSender(s, l, o);
      QuietStep(s, l, o);
    } else {
      FateOfClose(s, l, o);
    }
  }

  lemma FateOfStep(s: State, l: Label, o: OpId)
    requires Inv(s) && Enabled(s, l) && o in s.d.table.ops
    ensures o in Step(s, l).d.table.ops && Fated(s, l, o, s.d.table.ops[o], Step(s, l).d.table.ops[o])
  {
    if l.ReadOp? {
      FateOfRead(s, l, o);
    } else {
      SafeNow(s, o);
      FateOfOther(s, l, o);
    }
  }

  /** A request that is not known yet is touched by nothing. */
  lemma FateOfNew(s: State, l: Label, o: OpId)
    requires Proper(s) && Enabled(s, l) && o !in s.d.table.ops
    ensures ErrorAfterStep(s, l, o, None) == None && !ClosesRequest(s, l, o)
    ensures var ops' := Step(s, l).d.table.ops; o in ops' ==> ops'[o].err == None && !ops'[o].resp.closed
  {
    if !l.ReqInit? {
      KeysKept(s, l);
    }
  }

  /** The error and the closing of every request, by what happened in the run. */
  lemma {:induction false} FateOfRun(s: State, run: seq<Label>, o: OpId)
    requires Inv(s) && IsRun(s, run) && o in After(s, run).d.table.ops
    ensures var op' := After(s, run).d.table.ops[o];
            var known := o in s.d.table.ops;
            && op'.err == ErrorOfRun(s, run, o, if known then s.d.table.ops[o].err else None)
            && op'.resp.closed == ((known && s.d.table.ops[o].resp.closed) || CloseOccurs(s, run, o))
    decreases |run|
  {
    if run != [] {
      InvStep(s, run[0]);
      FateOfRun(Step(s, run[0]), run[1..], o);
      if o in s.d.table.ops {
        FateOfStep(s, run[0], o);
      } else {
        FateOfNew(s, run[0], o);
      }
    }
  }

  /** Receiving ends the wait with this batch and this error, and empties the channel. */
  ghost predicate Returns(s: State, o: OpId, reply: Option<Batch>, err: Option<Failure>)
    requires Proper(s) && Enabled(s, Receive(o))
  {
    var s' := Step(s, Receive(o));
    && o in s'.callers && s'.callers[o] == Caller.Returned(reply, err)
    && o in s'.d.table.ops && s'.d.table.ops[o].resp.buffer == []
  }

  lemma ReceiveTakes(s: State, o: OpId)
    requires Proper(s) && Enabled(s, Receive(o)) && |s.d.table.ops[o].resp.buffer| <= 1
    ensures var op := s.d.table.ops[o];
            Returns(s, o, if op.resp.buffer == [] then None else Some(op.resp.buffer[0]), op.err)
  {
  }

  /**
   What `wait` returns: the batch that answered the request, if one did, and the error that
   the last event left: that of the response to a subscribe request, or that of the close of
   its handler. It returns at all exactly if an answer came or the handler was closed.
   */
  lemma WaitReturns(batchLimit: nat, run: seq<Label>, o: OpId)
    requires IsClientRun(batchLimit, run) && IsWaiting(Reached(batchLimit, run), o)
    ensures var s, s0 := Reached(batchLimit, run), Initial(batchLimit);
            && (Enabled(s, Receive(o)) <==> AnsweringRead(s0, run, o).Some? || CloseOccurs(s0, run, o))
            && (Enabled(s, Receive(o)) ==>
                  var reply := match AnsweringRead(s0, run, o) case None => None case Some(a) => Some(a.batch);
                  Returns(s, o, reply, ErrorOfRun(s0, run, o, None)))
  {
    ReachedInv(batchLimit, run);
    InitialInv(batchLimit);
    WaitingOp(Reached(batchLimit, run), o);
    if Enabled(Reached(batchLimit, run), Receive(o)) {
      ReceiveTakes(Reached(batchLimit, run), o);
    }
    FateOfRun(Initial(batchLimit), run, o);
    AnswerOfRun(Initial(batchLimit), run, o);
  }

  /** A waiting call finds the answer in its channel, if there was one. */
  lemma WaitingOp(s: State, o: OpId)
    requires Inv(s) && IsWaiting(s, o)
    ensures o in s.d.table.ops
    ensures var op := s.d.table.ops[o];
            && (op.hadResponse ==> op.resp.history != [] && op.resp.history[0].Sent? && op.resp.buffer == [op.resp.history[0].batch])
            && (!op.hadResponse ==> op.resp.buffer == [])
  {
    assert OpInv(s, o);
  }

  // ---- the outcome of send -----------------------------------------------------------------

  /** Whether the request was written, as the writer and its caller know it. */
  ghost predicate WriteKnown(s: State, o: OpId, wrote: bool) {
    && (o in s.writers ==> (s.writers[o] == Finished(false) <==> wrote))
    && (o in s.callers && o !in s.writers ==> (s.callers[o].SendFailed? <==> !wrote))
    && (o !in s.callers ==> !wrote)
  }

  lemma WriteKnownStep(s: State, l: Label, o: OpId, wrote: bool)
    requires Proper(s) && Enabled(s, l) && WriteKnown(s, o, wrote)
    ensures WriteKnown(Step(s, l), o, wrote || l == WriteOk(o))
  {
  }

  lemma {:induction false} WriteKnownRun(s: State, run: seq<Label>, o: OpId, wrote: bool)
    requires Inv(s) && IsRun(s, run) && WriteKnown(s, o, wrote)
    ensures WriteKnown(After(s, run), o, wrote || WriteOk(o) in run)
    decreases |run|
  {
    if run != [] {
      WriteKnownStep(s, run[0], o, wrote);
      InvStep(s, run[0]);
      WriteKnownRun(Step(s, run[0]), run[1..], o, wrote || run[0] == WriteOk(o));
      assert run == [run[0]] + run[1..];
    }
  }

  /** Once its writer is done, `send` has failed exactly if no write of the request succeeded. */
  lemma SendFailsIffNotWritten(batchLimit: nat, run: seq<Label>, o: OpId)
    requires IsClientRun(batchLimit, run)
    requires o in Reached(batchLimit, run).callers && o !in Reached(batchLimit, run).writers
    ensures Reached(batchLimit, run).callers[o].SendFailed? <==> WriteOk(o) !in run
  {
    InitialInv(batchLimit);
    WriteKnownRun(Initial(batchLimit), run, o, false);
  }
}
