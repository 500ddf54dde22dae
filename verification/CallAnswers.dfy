/**
 The batch that answers a request, and the message of it that a single call looks at
 (rpc/client.go, CallContext).
 */
module CallAnswers {
  import opened Options
  import opened Messages
  import opened RequestTable
  import opened Dispatch
  import opened DispatchInvariant
  import opened DispatchSteps
  import opened DispatchTheorems
  import ResponseRouting

  /** What the reader goroutine passed on: a message by itself, or an array of them. */
  datatype Reading = Reading(batch: Batch, isArray: bool)

  /** The first reading of the run with a response to a registered id of `o`. */
  ghost function AnsweringRead(s: State, run: seq<Label>, o: OpId): Option<Reading>
    requires Proper(s) && IsRun(s, run)
    decreases |run|
  {
    if run == [] then None
    else if Answers(s, run[0], o) then Some(Reading(run[0].msgs, run[0].isBatch))
    else AnsweringRead(Step(s, run[0]), run[1..], o)
  }

  ghost predicate Answers(s: State, l: Label, o: OpId) {
    l.ReadOp? && IsHit(s.d.table, Examined(s.d, l.msgs, l.isBatch), o)
  }

  ghost predicate AnsweredBy(op: Op, r: Option<Reading>) {
    && (op.hadResponse <==> r.Some?)
    && (r.Some? ==> op.resp.history != [] && op.resp.history[0] == Sent(r.value.batch))
  }

  /** An examined batch is looked at as it was read. */
  lemma AnswersWhole(s: State, l: Label, o: OpId)
    requires Answers(s, l, o)
    ensures Examined(s.d, l.msgs, l.isBatch) == l.msgs
  {
  }

  /** A request that had no response is resolved by exactly the batches that answer it. */
  lemma AnswerByBatch(t: Table, batch: Batch, o: OpId)
    requires WellFormed(t) && Whole(t) && o in t.ops && ChanInv(t.ops[o]) && (t.ops[o].resp.closed ==> Unregistered(t, o))
    ensures var op, t' := t.ops[o], HandleResponses(t, batch).table;
            && o in t'.ops && t'.ops[o].resp.closed == op.resp.closed
            && if IsHit(t, batch, o) && !op.hadResponse then t'.ops[o].hadResponse && t'.ops[o].resp.history == [Sent(batch)]
               else t'.ops[o].hadResponse == op.hadResponse && t'.ops[o].resp == op.resp
  {
    HandledChan(t, batch, o);
    if IsHit(t, batch, o) {
      HitBearsResponse(t, batch, o);
    }
  }

  /** Only a reading that answers the request changes whether it had a response. */
  lemma AnswerByRead(s: State, l: Label, o: OpId)
    requires Inv(s) && Enabled(s, l) && l.ReadOp? && o in s.d.table.ops
    ensures o in Step(s, l).d.table.ops
    ensures Step(s, l).d.table.ops[o].resp.closed == s.d.table.ops[o].resp.closed
    ensures var op, op' := s.d.table.ops[o], Step(s, l).d.table.ops[o];
            if Answers(s, l, o) && !op.hadResponse then AnsweredBy(op', Some(Reading(l.msgs, l.isBatch)))
            else op'.hadResponse == op.hadResponse && op'.resp == op.resp
  {
    assert OpInv(s, o);
    AllWhole(s);
    AnswerByBatch(s.d.table, Examined(s.d, l.msgs, l.isBatch), o);
    if Answers(s, l, o) {
      AnswersWhole(s, l, o);
    }
  }

  ghost predicate KeepsAnswer(op: Op, op': Op) {
    op'.hadResponse == op.hadResponse && op.resp.history <= op'.resp.history
  }

  lemma AnswerKeptByCancel(t: Table, err: Failure, inflight: Option<OpId>, o: OpId)
    requires o in t.ops
    ensures var t' := CancelAllRequests(t, err, inflight); o in t'.ops && KeepsAnswer(t.ops[o], t'.ops[o])
  {
  }

  lemma AnswerKeptByClose(s: State, l: Label, o: OpId)
    requires Proper(s) && Enabled(s, l) && !l.ReadOp? && !IsSenderLabel(l) && o in s.d.table.ops
    ensures o in Step(s, l).d.table.ops && KeepsAnswer(s.d.table.ops[o], Step(s, l).d.table.ops[o])
  {
    match l
    case ReadErr(_, reason) => AnswerKeptByCancel(s.d.table, ReadFailed(reason), s.d.lastOp, o);
    case CloseClient(_) => AnswerKeptByCancel(s.d.table, ClientQuit, None, o);
    case Reconnected(_, _) => AnswerKeptByCancel(s.d.table, ClientReconnected, s.d.lastOp, o);
  }

  /** Every other step at most takes the value from the channel or closes it. */
  lemma AnswerKept(s: State, l: Label, o: OpId)
    requires Proper(s) && Enabled(s, l) && !l.ReadOp? && o in s.d.table.ops
    ensures o in Step(s, l).d.table.ops && KeepsAnswer(s.d.table.ops[o], Step(s, l).d.table.ops[o])
  {
    if !IsSenderLabel(l) {
      AnswerKeptByClose(s, l, o);
    } else if !l.Receive? {
      assert Step(s, l).d.table.ops[o] == s.d.table.ops[o];
    }
  }

  /** A request that is not known yet is in no table. */
  lemma UnknownNotAnswered(s: State, l: Label, o: OpId)
    requires Proper(s) && Enabled(s, l) && o !in s.d.table.ops
    ensures !Answers(s, l, o)
  {
    if l.ReadOp? {
      var batch := Examined(s.d, l.msgs, l.isBatch);
      ResponseRouting.HitsIff(s.d.table, batch, |batch|, o);
    }
  }

  ghost predicate HasResponse(s: State, o: OpId) {
    o in s.d.table.ops && s.d.table.ops[o].hadResponse
  }

  /** The answer that a request holds is that of the first reading that answers it. */
  lemma {:induction false} AnswerOfRun(s: State, run: seq<Label>, o: OpId)
    requires Inv(s) && IsRun(s, run) && o in After(s, run).d.table.ops
    ensures var op' := After(s, run).d.table.ops[o];
            if HasResponse(s, o) then KeepsAnswer(s.d.table.ops[o], op')
            else AnsweredBy(op', AnsweringRead(s, run, o))
    decreases |run|
  {
    if run != [] {
      var l, s' := run[0], Step(s, run[0]);
      InvStep(s, l);
      AnswerOfRun(s', run[1..], o);
      if o !in s.d.table.ops {
        UnknownNotAnswered(s, l, o);
        NewUnanswered(s, l, o);
      } else if l.ReadOp? {
        AnswerByRead(s, l, o);
      } else {
        AnswerKept(s, l, o);
      }
    }
  }

  lemma NewUnanswered(s: State, l: Label, o: OpId)
    requires Proper(s) && Enabled(s, l) && o !in s.d.table.ops
    ensures !HasResponse(Step(s, l), o)
  {
    if !l.ReqInit? {
      KeysKept(s, l);
    }
  }

  /** A call that returns without error holds exactly the first reading that answers it. */
  lemma ReplyIsTheAnswer(batchLimit: nat, run: seq<Label>, o: OpId)
    requires IsClientRun(batchLimit, run) && o in Reached(batchLimit, run).callers
    requires Reached(batchLimit, run).callers[o].Returned? && Reached(batchLimit, run).callers[o].err.None?
    ensures var a := AnsweringRead(Initial(batchLimit), run, o);
            a.Some? && Reached(batchLimit, run).callers[o].reply == Some(a.value.batch)
  {
    ReachedInv(batchLimit, run);
    InitialInv(batchLimit);
    assert OpInv(Reached(batchLimit, run), o);
    AnswerOfRun(Initial(batchLimit), run, o);
  }

  predicate IsAnswerTo(m: Message, ids: seq<string>) {
    IsResponse(m) && m.id.value in ids
  }

  lemma AnswerBears(s: State, l: Label, o: OpId)
    requires Proper(s) && Enabled(s, l) && Answers(s, l, o)
    ensures o in s.d.table.ops && l.msgs != []
    ensures !l.isBatch ==> IsAnswerTo(l.msgs[0], s.d.table.ops[o].ids)
  {
    if o !in s.d.table.ops {
      UnknownNotAnswered(s, l, o);
    }
    AnswersWhole(s, l, o);
    HitBearsResponse(s.d.table, l.msgs, o);
  }

  /** A reading that is not an array is one message, and if it answers a request it is its answer. */
  lemma {:induction false} SingleAnswers(s: State, run: seq<Label>, o: OpId)
    requires Proper(s) && IsRun(s, run) && AnsweringRead(s, run, o).Some? && o in After(s, run).d.table.ops
    ensures var a := AnsweringRead(s, run, o).value;
            a.batch != [] && (!a.isArray ==> IsAnswerTo(a.batch[0], After(s, run).d.table.ops[o].ids))
    decreases |run|
  {
    if Answers(s, run[0], o) {
      AnswerBears(s, run[0], o);
      IdsOfRun(s, run, o);
    } else {
      SingleAnswers(Step(s, run[0]), run[1..], o);
    }
  }

  lemma {:induction false} IdsOfRun(s: State, run: seq<Label>, o: OpId)
    requires Proper(s) && IsRun(s, run) && o in s.d.table.ops
    ensures o in After(s, run).d.table.ops && After(s, run).d.table.ops[o].ids == s.d.table.ops[o].ids
    decreases |run|
  {
    if run != [] {
      IdsKept(s, run[0], o);
      IdsOfRun(Step(s, run[0]), run[1..], o);
    }
  }

  /**
   CallContext uses the first message of the batch it receives. That message is the answer to
   the call exactly if the reading that answered it was no array, or one that begins with
   the answer; what else the server sent, before or after, does not matter.
   */
  lemma FirstMessageIsTheAnswer(batchLimit: nat, run: seq<Label>, o: OpId)
    requires IsClientRun(batchLimit, run) && o in Reached(batchLimit, run).callers
    requires Reached(batchLimit, run).callers[o].Returned? && Reached(batchLimit, run).callers[o].err.None?
    ensures var s, a := Reached(batchLimit, run), AnsweringRead(Initial(batchLimit), run, o);
            && a.Some? && a.value.batch != []
            && s.callers[o].reply.Some? && s.callers[o].reply.value != []
            && (IsAnswerTo(s.callers[o].reply.value[0], s.d.table.ops[o].ids) <==>
                !a.value.isArray || IsAnswerTo(a.value.batch[0], s.d.table.ops[o].ids))
  {
    InitialInv(batchLimit);
    ReplyIsTheAnswer(batchLimit, run, o);
    SingleAnswers(Initial(batchLimit), run, o);
  }

  function PlainResponse(id: string): Message {
    Message(VERSION, Some(id), "", None, None, Some(Raw("0", None, None)))
  }

  /** With an array it need not be: here the call for `id` sees the message for `other`. */
  lemma ForeignFirstMessageWitness(id: string, other: string)
    requires |id| > 0 && id[0] != '{' && id[0] != '[' && |other| > 0 && other[0] != '{' && other[0] != '['
    requires id != other
    ensures var batch := [PlainResponse(other), PlainResponse(id)];
            var run := [ReqInit(0, [id], false, true), ReadOp(0, batch, true), WriteOk(0), PushSent(0), Receive(0)];
            && IsClientRun(0, run) && 0 in Reached(0, run).callers
            && Reached(0, run).callers[0] == Returned(Some(batch), None)
  {
    var batch := [PlainResponse(other), PlainResponse(id)];
    var s := Step(Initial(0), ReqInit(0, [id], false, true));
    assert s.d.table.respWait == map[id := 0];
    ForeignFirst(s, batch, id, other);
    Prepend(Initial(0), ReqInit(0, [id], false, true), [ReadOp(0, batch, true), WriteOk(0), PushSent(0), Receive(0)]);
  }

  lemma ForeignFirst(s: State, batch: Batch, id: string, other: string)
    requires Proper(s) && s.d.batchLimit == 0 && id != other && batch == [PlainResponse(other), PlainResponse(id)]
    requires |id| > 0 && id[0] != '{' && id[0] != '[' && |other| > 0 && other[0] != '{' && other[0] != '['
    requires s.d.table.respWait == map[id := 0] && 0 in s.d.table.ops && s.d.table.ops[0] == NewOp([id], false, true)
    requires 0 in s.writers && s.writers[0] == Writing(false) && !s.quit && 0 in s.readers
    requires s.reqSent == [] && s.writeConn.Some? && s.writeConn.value !in s.d.closedCodecs
    ensures var run := [ReadOp(0, batch, true), WriteOk(0), PushSent(0), Receive(0)];
            && IsRun(s, run) && 0 in After(s, run).callers
            && After(s, run).callers[0] == Returned(Some(batch), None)
  {
    SecondAnswers(s, batch, id, other);
    AnsweredEarly(s, ReadOp(0, batch, true));
  }

  /** A response that arrives before the write is complete is received afterwards. */
  lemma AnsweredEarly(s: State, l: Label)
    requires Proper(s) && Enabled(s, l) && l.ReadOp? && 0 in s.writers && s.writers[0] == Writing(false)
    requires s.reqSent == [] && s.writeConn.Some? && s.writeConn.value !in s.d.closedCodecs
    requires var ops := Step(s, l).d.table.ops; 0 in ops && ops[0].resp.made && ops[0].resp.buffer != []
    ensures var run := [l, WriteOk(0), PushSent(0), Receive(0)];
            && IsRun(s, run) && 0 in After(s, run).callers
            && After(s, run).callers[0] == Received(Step(s, l).d.table.ops[0])
  {
    WriteAndReceive(Step(s, l), 0);
    Prepend(s, l, [WriteOk(0), PushSent(0), Receive(0)]);
  }

  lemma WriteAndReceive(s: State, o: OpId)
    requires Proper(s) && o in s.writers && s.writers[o] == Writing(false) && s.reqSent == []
    requires s.writeConn.Some? && s.writeConn.value !in s.d.closedCodecs
    requires s.d.table.ops[o].resp.made && s.d.table.ops[o].resp.buffer != []
    ensures var run := [WriteOk(o), PushSent(o), Receive(o)];
            && IsRun(s, run) && o in After(s, run).callers
            && After(s, run).callers[o] == Received(s.d.table.ops[o])
  {
    var s1 := Step(s, WriteOk(o));
    var s2 := Step(s1, PushSent(o));
    Prepend(s2, Receive(o), []);
    Prepend(s1, PushSent(o), [Receive(o)]);
    Prepend(s, WriteOk(o), [PushSent(o), Receive(o)]);
  }

  lemma SecondAnswers(s: State, batch: Batch, id: string, other: string)
    requires Proper(s) && s.d.batchLimit == 0 && id != other && batch == [PlainResponse(other), PlainResponse(id)]
    requires |id| > 0 && id[0] != '{' && id[0] != '[' && |other| > 0 && other[0] != '{' && other[0] != '['
    requires s.d.table.respWait == map[id := 0] && 0 in s.d.table.ops && s.d.table.ops[0] == NewOp([id], false, true)
    ensures var op := DoReadOp(s, batch, true).d.table.ops;
            0 in op && op[0].resp.buffer == [batch] && op[0].err == None && op[0].resp.made
  {
    var t := s.d.table;
    assert HandlePrefix(t, batch, 1) == HandleMessage(HandlePrefix(t, batch, 0), batch, batch[0]);
    assert HandlePrefix(t, batch, 1).table == t;
    assert HandlePrefix(t, batch, 2) == HandleMessage(HandlePrefix(t, batch, 1), batch, batch[1]);
  }
}
