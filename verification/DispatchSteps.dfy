/** Every step of the dispatch system preserves the invariant. */
module DispatchSteps {
  import opened Options
  import opened Messages
  import opened RequestTable
  import opened Dispatch
  import opened DispatchInvariant
  import ResponseRouting

  /** The part of the invariant that does not speak of single requests. */
  ghost predicate Base(s: State) {
    Proper(s) && LockInv(s) && LifeInv(s)
  }

  /** The part of the invariant that concerns request `o`. */
  ghost predicate At(s: State, o: OpId) {
    Base(s) && o in s.d.table.ops && o in s.callers && OpInv(s, o)
  }

  /** What keeps requests apart. */
  ghost predicate Apart(s: State) {
    Whole(s.d.table) && DistinctIds(s)
  }

  // ---- steps of the writer -------------------------------------------------------------

  predicate IsWriterLabel(l: Label) {
    l.WriteOk? || l.WriteFail? || l.DialFail? || l.DialOk? || l.ReconnectAborted?
  }

  lemma WriterBase(s: State, l: Label)
    requires Base(s) && IsWriterLabel(l) && Enabled(s, l)
    ensures Base(Step(s, l))
  {
    assert Step(s, l).writers.Keys == s.writers.Keys;
  }

  lemma WriterOp(s: State, l: Label, o: OpId)
    requires At(s, o) && IsWriterLabel(l) && Enabled(s, l)
    ensures OpInv(Step(s, l), o)
  {
  }

  lemma PushSentBase(s: State, o: OpId)
    requires Base(s) && Enabled(s, PushSent(o))
    ensures Base(Step(s, PushSent(o)))
  {
    assert Step(s, PushSent(o)).writers.Keys == s.writers.Keys - {o};
  }

  lemma PushSentOp(s: State, o: OpId, p: OpId)
    requires At(s, p) && Enabled(s, PushSent(o))
    ensures OpInv(Step(s, PushSent(o)), p)
  {
    assert s.d.lastOp == Some(o) && s.reqSent == [];
    assert Step(s, PushSent(o)).reqSent == [s.writers[o].failed];
  }

  // ---- steps of the callers ------------------------------------------------------------

  /** Registration only depends on respWait and on the ids of the request. */
  lemma SameRegistration(t: Table, t': Table, o: OpId)
    requires o in t.ops && o in t'.ops && t.ops[o].ids == t'.ops[o].ids && t.respWait == t'.respWait
    ensures Registered(t, o) <==> Registered(t', o)
    ensures Unregistered(t, o) <==> Unregistered(t', o)
  {
  }

  lemma ReceiveBase(s: State, o: OpId)
    requires Base(s) && Enabled(s, Receive(o))
    ensures Base(Step(s, Receive(o)))
  {
  }

  lemma ReceiveOther(s: State, o: OpId, p: OpId)
    requires At(s, p) && p != o && Enabled(s, Receive(o))
    ensures OpInv(Step(s, Receive(o)), p)
  {
    SameRegistration(s.d.table, Step(s, Receive(o)).d.table, p);
  }

  lemma ReceiveSelf(s: State, o: OpId)
    requires At(s, o) && Enabled(s, Receive(o))
    ensures OpInv(Step(s, Receive(o)), o)
  {
    var s' := Step(s, Receive(o));
    TakenChan(s.d.table.ops[o]);
    SameRegistration(s.d.table, s'.d.table, o);
    assert RegInv(s', o);
  }

  /** No id of the request leads to another one. */
  ghost predicate OwnIds(t: Table, o: OpId)
    requires o in t.ops
  {
    forall id :: id in t.ops[o].ids && id in t.respWait ==> t.respWait[id] == o
  }

  lemma InUseOwnsIds(s: State, o: OpId)
    requires Proper(s) && DistinctIds(s) && o in s.d.table.ops && InUse(s, o)
    ensures OwnIds(s.d.table, o)
  {
    forall id | id in s.d.table.ops[o].ids && id in s.d.table.respWait ensures s.d.table.respWait[id] == o {
      assert InUse(s, s.d.table.respWait[id]);
    }
  }

  /** Removing a request leaves the registrations of every other request alone. */
  lemma RemoveFrame(t: Table, o: OpId, p: OpId)
    requires WellFormed(t) && o in t.ops && p in t.ops && OwnIds(t, o)
    ensures p == o ==> Unregistered(RemoveRequestOp(t, o), p)
    ensures p != o ==>
              && (Registered(RemoveRequestOp(t, o), p) <==> Registered(t, p))
              && (Unregistered(RemoveRequestOp(t, o), p) <==> Unregistered(t, p))
  {
    var t' := RemoveRequestOp(t, o);
    if p != o {
      forall id | id in t.respWait && t.respWait[id] == p ensures id in t'.respWait {
        assert id in t.ops[p].ids;
      }
    }
  }

  lemma OneOutcome(reqSent: seq<bool>)
    requires |reqSent| == 1
    ensures reqSent == [true] || reqSent == [false]
  {
    if reqSent[0] {
      assert reqSent == [true];
    } else {
      assert reqSent == [false];
    }
  }

  lemma TimeoutRunning(s: State, o: OpId, p: OpId)
    requires At(s, p) && Apart(s) && Enabled(s, Timeout(o)) && !s.quit
    ensures OpInv(Step(s, Timeout(o)), p)
  {
    InUseOwnsIds(s, o);
    RemoveFrame(s.d.table, o, p);
  }

  lemma TimeoutAfterQuit(s: State, o: OpId, p: OpId)
    requires At(s, p) && Enabled(s, Timeout(o)) && s.quit
    ensures OpInv(Step(s, Timeout(o)), p)
  {
    if s.reqSent != [] {
      OneOutcome(s.reqSent);
    }
  }

  lemma TimeoutOp(s: State, o: OpId, p: OpId)
    requires At(s, p) && Apart(s) && Enabled(s, Timeout(o))
    ensures OpInv(Step(s, Timeout(o)), p)
  {
    if s.quit {
      TimeoutAfterQuit(s, o, p);
    } else {
      TimeoutRunning(s, o, p);
    }
  }

  // ---- steps of dispatch ---------------------------------------------------------------

  lemma ReqInitBase(s: State, o: OpId, ids: seq<string>, isSub: bool, made: bool)
    requires Base(s) && Enabled(s, ReqInit(o, ids, isSub, made))
    ensures Base(Step(s, ReqInit(o, ids, isSub, made)))
  {
    assert Step(s, ReqInit(o, ids, isSub, made)).writers.Keys == s.writers.Keys + {o};
  }

  /** Adding a request under unused ids leaves every other registration alone. */
  lemma AddFrame(t: Table, o: OpId, op: Op, p: OpId)
    requires o !in t.ops && p in t.ops
    requires Unregistered(t, p) || forall id :: id in t.ops[p].ids ==> id !in op.ids
    requires WellFormed(t)
    ensures var t' := AddRequestOp(t.(ops := t.ops[o := op]), o);
            && (Registered(t, p) ==> Registered(t', p) || Unregistered(t, p))
            && (Unregistered(t', p) <==> Unregistered(t, p))
  {
    var t' := AddRequestOp(t.(ops := t.ops[o := op]), o);
    if !Unregistered(t, p) {
      var id :| id in t.respWait && t.respWait[id] == p;
      assert id in t.ops[p].ids;
      assert id in t'.respWait && t'.respWait[id] == p;
    }
  }

  lemma ReqInitOld(s: State, o: OpId, ids: seq<string>, isSub: bool, made: bool, p: OpId)
    requires At(s, p) && Enabled(s, ReqInit(o, ids, isSub, made))
    ensures OpInv(Step(s, ReqInit(o, ids, isSub, made)), p)
  {
    var s' := Step(s, ReqInit(o, ids, isSub, made));
    AddFrame(s.d.table, o, NewOp(ids, isSub, made), p);
    assert RegInv(s', p);
    assert LossInv(s', p);
  }

  lemma ReqInitNew(s: State, o: OpId, ids: seq<string>, isSub: bool, made: bool)
    requires Base(s) && o !in s.lost && Enabled(s, ReqInit(o, ids, isSub, made))
    ensures OpInv(Step(s, ReqInit(o, ids, isSub, made)), o)
  {
  }

  lemma ReqSentGood(s: State, p: OpId)
    requires At(s, p) && Enabled(s, ReqSent) && !s.reqSent[0]
    ensures OpInv(Step(s, ReqSent), p)
  {
    OneOutcome(s.reqSent);
  }

  lemma ReqSentBad(s: State, p: OpId)
    requires At(s, p) && Apart(s) && Enabled(s, ReqSent) && s.reqSent[0]
    ensures OpInv(Step(s, ReqSent), p)
  {
    OneOutcome(s.reqSent);
    InUseOwnsIds(s, s.d.lastOp.value);
    RemoveFrame(s.d.table, s.d.lastOp.value, p);
  }

  // ---- closing a connection ------------------------------------------------------------

  /** What happens to a request when its handler closes. */
  lemma CloseConnOp(s: State, d': Dispatch, err: Failure, inflight: Option<OpId>, p: OpId)
    requires At(s, p) && d' == CloseConn(s.d, err, inflight)
    ensures p in d'.table.ops && ChanInv(d'.table.ops[p])
    ensures d'.table.ops[p] ==
            if Unregistered(s.d.table, p) || inflight == Some(p) then s.d.table.ops[p]
            else Cancelled(s.d.table.ops[p], err)
    ensures s.d.table.ops[p].ids != [] && Registered(s.d.table, p) ==> !Unregistered(s.d.table, p)
  {
    if s.d.table.ops[p].ids != [] {
      assert s.d.table.ops[p].ids[0] in s.d.table.ops[p].ids;
    }
    if !Unregistered(s.d.table, p) {
      var id :| id in s.d.table.respWait && s.d.table.respWait[id] == p;
      assert id in s.d.table.ops[p].ids;
      CancelledChan(s.d.table.ops[p], err);
    }
  }

  lemma ReadErrBase(s: State, r: ConnId, reason: string)
    requires Base(s) && Enabled(s, ReadErr(r, reason))
    ensures Base(Step(s, ReadErr(r, reason)))
  {
  }

  lemma ReadErrOp(s: State, r: ConnId, reason: string, p: OpId)
    requires At(s, p) && Enabled(s, ReadErr(r, reason))
    ensures OpInv(Step(s, ReadErr(r, reason)), p)
  {
    CloseConnOp(s, CloseConn(s.d, ReadFailed(reason), s.d.lastOp), ReadFailed(reason), s.d.lastOp, p);
  }

  lemma CloseClientBase(s: State, r: ConnId)
    requires Base(s) && Enabled(s, CloseClient(r))
    ensures Base(Step(s, CloseClient(r)))
  {
  }

  lemma CloseClientOp(s: State, r: ConnId, p: OpId)
    requires At(s, p) && Enabled(s, CloseClient(r))
    ensures OpInv(Step(s, CloseClient(r)), p)
  {
    CloseConnOp(s, CloseConn(s.d, ClientQuit, None), ClientQuit, None, p);
    if s.reqSent != [] {
      OneOutcome(s.reqSent);
    }
  }

  lemma ReconnectedBase(s: State, o: OpId, r: ConnId)
    requires Base(s) && Enabled(s, Reconnected(o, r))
    ensures Base(Step(s, Reconnected(o, r)))
    ensures s.d.lastOp == Some(o)
  {
    assert DialedFresh(s, o);
    assert Step(s, Reconnected(o, r)).writers.Keys == s.writers.Keys;
  }

  lemma ReconnectedOther(s: State, o: OpId, r: ConnId, p: OpId)
    requires At(s, p) && Enabled(s, Reconnected(o, r)) && s.d.lastOp == Some(o) && p != o
    ensures OpInv(Step(s, Reconnected(o, r)), p)
  {
    CloseConnOp(s, CloseConn(s.d, ClientReconnected, s.d.lastOp), ClientReconnected, s.d.lastOp, p);
  }

  lemma ReconnectedSelf(s: State, o: OpId, r: ConnId)
    requires At(s, o) && Enabled(s, Reconnected(o, r)) && s.d.lastOp == Some(o)
    ensures OpInv(Step(s, Reconnected(o, r)), o)
  {
    var s' := Step(s, Reconnected(o, r));
    CloseConnOp(s, CloseConn(s.d, ClientReconnected, s.d.lastOp), ClientReconnected, s.d.lastOp, o);
    assert s'.d.table.ops[o] == s.d.table.ops[o];
    assert Registered(s'.d.table, o);
  }

  lemma ReconnectedOp(s: State, o: OpId, r: ConnId, p: OpId)
    requires At(s, p) && Enabled(s, Reconnected(o, r))
    ensures OpInv(Step(s, Reconnected(o, r)), p)
  {
    ReconnectedBase(s, o, r);
    if p == o {
      ReconnectedSelf(s, o, r);
    } else {
      ReconnectedOther(s, o, r, p);
    }
  }

  // ---- reading a batch -----------------------------------------------------------------

  lemma ReadOpBase(s: State, r: ConnId, msgs: Batch, isBatch: bool)
    requires Base(s) && Enabled(s, ReadOp(r, msgs, isBatch))
    ensures Base(Step(s, ReadOp(r, msgs, isBatch)))
  {
  }

  ghost predicate IsHit(t: Table, batch: Batch, p: OpId) {
    p in ResponseRouting.Hits(t, batch, |batch|)
  }

  /** Which registrations a batch leaves behind. */
  lemma HandledRegistration(t: Table, batch: Batch, p: OpId)
    requires WellFormed(t) && Whole(t) && p in t.ops
    ensures var t' := HandleResponses(t, batch).table;
            && p in t'.ops && t'.ops[p].ids == t.ops[p].ids
            && (IsHit(t, batch, p) ==> Unregistered(t', p) && !Unregistered(t, p))
            && (!IsHit(t, batch, p) ==>
                  && (Registered(t', p) <==> Registered(t, p))
                  && (Unregistered(t', p) <==> Unregistered(t, p)))
  {
    ResponseRouting.BatchEffect(t, batch);
    ResponseRouting.HitsIff(t, batch, |batch|, p);
  }

  /** What a batch does to the channel of a request. */
  lemma HandledChan(t: Table, batch: Batch, p: OpId)
    requires WellFormed(t) && Whole(t) && p in t.ops && ChanInv(t.ops[p])
    requires t.ops[p].resp.closed ==> Unregistered(t, p)
    ensures var t' := HandleResponses(t, batch).table;
            && p in t'.ops && ChanInv(t'.ops[p])
            && (IsHit(t, batch, p) ==> ResponseRouting.ResolvedBy(t.ops[p], t'.ops[p], batch))
            && (!IsHit(t, batch, p) ==> t'.ops[p] == t.ops[p])
  {
    ResponseRouting.BatchEffect(t, batch);
    if IsHit(t, batch, p) {
      HitBearsResponse(t, batch, p);
      ResolvedChan(t.ops[p], HandleResponses(t, batch).table.ops[p], batch);
    }
  }

  lemma HitBearsResponse(t: Table, batch: Batch, p: OpId)
    requires WellFormed(t) && p in t.ops && IsHit(t, batch, p)
    ensures BearsResponse(t.ops[p].ids, batch) && t.ops[p].ids != [] && !Unregistered(t, p)
  {
    ResponseRouting.HitsIff(t, batch, |batch|, p);
    var id :| id in t.respWait && t.respWait[id] == p && id in ResponseRouting.AnsweredIds(batch, |batch|);
    ResponseRouting.AnsweredIdsIff(batch, |batch|, id);
    assert id in t.ops[p].ids;
  }

  lemma ReadOpHit(s: State, r: ConnId, msgs: Batch, isBatch: bool, p: OpId)
    requires At(s, p) && Whole(s.d.table) && Enabled(s, ReadOp(r, msgs, isBatch))
    requires IsHit(s.d.table, Examined(s.d, msgs, isBatch), p)
    ensures OpInv(Step(s, ReadOp(r, msgs, isBatch)), p)
  {
    HandledRegistration(s.d.table, Examined(s.d, msgs, isBatch), p);
    HandledChan(s.d.table, Examined(s.d, msgs, isBatch), p);
  }

  lemma ReadOpMiss(s: State, r: ConnId, msgs: Batch, isBatch: bool, p: OpId)
    requires At(s, p) && Whole(s.d.table) && Enabled(s, ReadOp(r, msgs, isBatch))
    requires !IsHit(s.d.table, Examined(s.d, msgs, isBatch), p)
    ensures OpInv(Step(s, ReadOp(r, msgs, isBatch)), p)
  {
    HandledRegistration(s.d.table, Examined(s.d, msgs, isBatch), p);
    HandledChan(s.d.table, Examined(s.d, msgs, isBatch), p);
  }

  lemma ReadOpOp(s: State, r: ConnId, msgs: Batch, isBatch: bool, p: OpId)
    requires At(s, p) && Whole(s.d.table) && Enabled(s, ReadOp(r, msgs, isBatch))
    ensures OpInv(Step(s, ReadOp(r, msgs, isBatch)), p)
  {
    if IsHit(s.d.table, Examined(s.d, msgs, isBatch), p) {
      ReadOpHit(s, r, msgs, isBatch, p);
    } else {
      ReadOpMiss(s, r, msgs, isBatch, p);
    }
  }

  // ---- all steps together --------------------------------------------------------------

  lemma IdsKeptByRead(t: Table, batch: Batch, o: OpId)
    requires WellFormed(t) && o in t.ops
    ensures o in HandleResponses(t, batch).table.ops
    ensures HandleResponses(t, batch).table.ops[o].ids == t.ops[o].ids
  {
    ResponseRouting.PrefixEffect(t, batch, |batch|);
  }

  /** No step changes the ids of a request. */
  lemma IdsKept(s: State, l: Label, o: OpId)
    requires Proper(s) && Enabled(s, l) && o in s.d.table.ops
    ensures o in Step(s, l).d.table.ops
    ensures Step(s, l).d.table.ops[o].ids == s.d.table.ops[o].ids
  {
    if l.ReadOp? {
      IdsKeptByRead(s.d.table, Examined(s.d, l.msgs, l.isBatch), o);
    }
  }

  lemma StaysUnregisteredReading(s: State, l: Label, o: OpId)
    requires Base(s) && Whole(s.d.table) && Enabled(s, l) && l.ReadOp? && o in s.d.table.ops
    requires Unregistered(s.d.table, o)
    ensures Unregistered(Step(s, l).d.table, o)
  {
    HandledRegistration(s.d.table, Examined(s.d, l.msgs, l.isBatch), o);
  }

  /** Only the steps that register a request can register it. */
  lemma StaysUnregistered(s: State, l: Label, o: OpId)
    requires Base(s) && Whole(s.d.table) && Enabled(s, l) && o in s.d.table.ops && Unregistered(s.d.table, o)
    requires l.Reconnected? ==> s.d.lastOp != Some(o)
    ensures Unregistered(Step(s, l).d.table, o)
  {
    if l.ReadOp? {
      StaysUnregisteredReading(s, l, o);
    }
  }

  /** A request whose ids are free again stays that way. */
  lemma NotUsedAgain(s: State, l: Label, o: OpId)
    requires Base(s) && Whole(s.d.table) && Enabled(s, l) && o in s.d.table.ops && !InUse(s, o)
    ensures !InUse(Step(s, l), o)
  {
    StaysUnregistered(s, l, o);
  }

  lemma DistinctStep(s: State, l: Label)
    requires Base(s) && Apart(s) && Enabled(s, l)
    ensures DistinctIds(Step(s, l))
  {
    var ops, s' := s.d.table.ops, Step(s, l);
    forall o | o in ops
      ensures o in s'.d.table.ops && s'.d.table.ops[o].ids == ops[o].ids && (InUse(s', o) ==> InUse(s, o))
    {
      IdsKept(s, l, o);
      if !InUse(s, o) {
        NotUsedAgain(s, l, o);
      }
    }
    if !l.ReqInit? {
      KeysKept(s, l);
    }
  }

  lemma KeysKept(s: State, l: Label)
    requires Proper(s) && Enabled(s, l) && !l.ReqInit?
    ensures Step(s, l).d.table.ops.Keys == s.d.table.ops.Keys
  {
    if l.ReadOp? {
      HandledKnown(s.d.table, Examined(s.d, l.msgs, l.isBatch));
    }
  }

  lemma BaseStep(s: State, l: Label)
    requires Base(s) && Enabled(s, l)
    ensures Base(Step(s, l))
  {
    match l
    case ReqInit(o, ids, isSub, made) => ReqInitBase(s, o, ids, isSub, made);
    case Reconnected(o, r) => ReconnectedBase(s, o, r);
    case PushSent(o) => PushSentBase(s, o);
    case ReqSent =>
    case ReadOp(r, msgs, isBatch) => ReadOpBase(s, r, msgs, isBatch);
    case ReadErr(r, reason) => ReadErrBase(s, r, reason);
    case Timeout(o) =>
    case Receive(o) => ReceiveBase(s, o);
    case CloseClient(r) => CloseClientBase(s, r);
    case _ => WriterBase(s, l);
  }

  /** The steps in which dispatch takes no part, or only hands over a request. */
  predicate IsSenderLabel(l: Label) {
    IsWriterLabel(l) || l.ReqInit? || l.PushSent? || l.ReqSent? || l.Timeout? || l.Receive?
  }

  lemma SenderOp(s: State, l: Label, p: OpId)
    requires At(s, p) && Apart(s) && Enabled(s, l) && IsSenderLabel(l)
    ensures p in Step(s, l).d.table.ops && OpInv(Step(s, l), p)
  {
    IdsKept(s, l, p);
    if
    case l.ReqInit? => ReqInitOld(s, l.op, l.ids, l.isSub, l.made, p);
    case l.PushSent? => PushSentOp(s, l.op, p);
    case l.ReqSent? => if s.reqSent[0] { ReqSentBad(s, p); } else { ReqSentGood(s, p); }
    case l.Timeout? => TimeoutOp(s, l.op, p);
    case l.Receive? => if p == l.op { ReceiveSelf(s, l.op); } else { ReceiveOther(s, l.op, p); }
    case IsWriterLabel(l) => WriterOp(s, l, p);
  }

  lemma ConnOp(s: State, l: Label, p: OpId)
    requires At(s, p) && Apart(s) && Enabled(s, l) && !IsSenderLabel(l)
    ensures p in Step(s, l).d.table.ops && OpInv(Step(s, l), p)
  {
    IdsKept(s, l, p);
    if
    case l.Reconnected? => ReconnectedOp(s, l.op, l.drained, p);
    case l.ReadOp? => ReadOpOp(s, l.reader, l.msgs, l.isBatch, p);
    case l.ReadErr? => ReadErrOp(s, l.reader, l.reason, p);
    case l.CloseClient? => CloseClientOp(s, l.drained, p);
  }

  lemma OpStep(s: State, l: Label, p: OpId)
    requires At(s, p) && Apart(s) && Enabled(s, l)
    ensures p in Step(s, l).d.table.ops && OpInv(Step(s, l), p)
  {
    if IsSenderLabel(l) {
      SenderOp(s, l, p);
    } else {
      ConnOp(s, l, p);
    }
  }

  lemma HistoryStep(s: State, l: Label)
    requires Proper(s) && Enabled(s, l)
    ensures Step(s, l).lost <= s.lost + s.d.table.ops.Keys
  {
  }

  lemma AllWhole(s: State)
    requires Inv(s)
    ensures Whole(s.d.table)
  {
    assert forall p :: p in s.d.table.ops ==> OpInv(s, p);
  }

  /** The invariant is inductive. */
  lemma InvStep(s: State, l: Label)
    requires Inv(s) && Enabled(s, l)
    ensures Inv(Step(s, l))
  {
    var s' := Step(s, l);
    AllWhole(s);
    BaseStep(s, l);
    DistinctStep(s, l);
    HistoryStep(s, l);
    forall p | p in s.d.table.ops ensures p in s'.d.table.ops && OpInv(s', p) {
      OpStep(s, l, p);
    }
    match l {
      case ReqInit(o, ids, isSub, made) => ReqInitNew(s, o, ids, isSub, made);
      case _ => KeysKept(s, l);
    }
  }

  /** Every run from a state that satisfies the invariant ends in one. */
  lemma {:induction false} InvRun(s: State, run: seq<Label>)
    requires Inv(s) && IsRun(s, run)
    ensures Inv(After(s, run))
    decreases |run|
  {
    if run != [] {
      InvStep(s, run[0]);
      InvRun(Step(s, run[0]), run[1..]);
    }
  }
}
