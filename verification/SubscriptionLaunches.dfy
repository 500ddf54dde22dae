/**
 How often the forwarding loop of a client subscription is started
 (rpc/handler.go, the subscription branch of handleResponses).
 */
module SubscriptionLaunches {
  import opened Options
  import opened Messages
  import opened RequestTable
  import opened Dispatch
  import opened DispatchInvariant
  import opened DispatchSteps
  import opened DispatchTheorems
  import opened SubscribeAnswers
  import ResponseRouting

  /** Every active subscription belongs to a subscribe request whose loop was started. */
  ghost predicate ActiveLaunched(t: Table) {
    forall id :: id in t.clientSubs ==>
      t.clientSubs[id] in t.ops && t.ops[t.clientSubs[id]].isSub && t.ops[t.clientSubs[id]].launches > 0
  }

  lemma {:induction false} ActivePrefix(t: Table, batch: Batch, k: nat)
    requires WellFormed(t) && ActiveLaunched(t) && k <= |batch|
    ensures ActiveLaunched(HandlePrefix(t, batch, k).table)
  {
    if k > 0 {
      ActivePrefix(t, batch, k - 1);
    }
  }

  lemma ActiveStep(s: State, l: Label)
    requires Proper(s) && Enabled(s, l) && ActiveLaunched(s.d.table)
    ensures ActiveLaunched(Step(s, l).d.table)
  {
    if l.ReadOp? {
      var batch := Examined(s.d, l.msgs, l.isBatch);
      ActivePrefix(s.d.table, batch, |batch|);
    }
  }

  lemma {:induction false} ActiveRun(s: State, run: seq<Label>)
    requires Proper(s) && IsRun(s, run) && ActiveLaunched(s.d.table)
    ensures ActiveLaunched(After(s, run).d.table)
    decreases |run|
  {
    if run != [] {
      ActiveStep(s, run[0]);
      ActiveRun(Step(s, run[0]), run[1..]);
    }
  }

  /** So deliver and close are only ever called on subscriptions with a forwarding loop. */
  lemma ActiveHaveLoops(batchLimit: nat, run: seq<Label>)
    requires IsClientRun(batchLimit, run)
    ensures ActiveLaunched(Reached(batchLimit, run).d.table)
  {
    ActiveRun(Initial(batchLimit), run);
  }

  // ---- the steps that start a loop -----------------------------------------------------

  /** A message among the first `k` answers the subscribe request and grants it an id. */
  ghost predicate Succeeds(t: Table, batch: Batch, k: nat, o: OpId)
    requires o in t.ops && k <= |batch|
  {
    t.ops[o].isSub && AnswerTo(t, batch, k, o).Some? && GrantedId(AnswerTo(t, batch, k, o).value).Some?
  }

  /** The step starts the forwarding loop of `o`. */
  ghost predicate Launches(s: State, l: Label, o: OpId) {
    && l.ReadOp? && o in s.d.table.ops
    && var batch := Examined(s.d, l.msgs, l.isBatch); Succeeds(s.d.table, batch, |batch|, o)
  }

  ghost function LaunchCount(s: State, o: OpId): nat {
    if o in s.d.table.ops then s.d.table.ops[o].launches else 0
  }

  /** A batch starts the loop at most once. */
  lemma LaunchesOfBatch(t: Table, batch: Batch, o: OpId)
    requires WellFormed(t) && o in t.ops && (t.ops[o].isSub ==> |t.ops[o].ids| == 1)
    ensures var ops := HandleResponses(t, batch).table.ops;
            o in ops && ops[o].launches == t.ops[o].launches + if Succeeds(t, batch, |batch|, o) then 1 else 0
  {
    if t.ops[o].isSub {
      SubscribeOutcome(t, batch, o);
    } else {
      ResponseRouting.PrefixEffect(t, batch, |batch|);
    }
  }

  /** The starts are counted, and only answers to a registered request start a loop. */
  lemma CountRead(s: State, l: Label, o: OpId)
    requires Inv(s) && Enabled(s, l) && l.ReadOp? && o in s.d.table.ops
    ensures LaunchCount(Step(s, l), o) == LaunchCount(s, o) + if Launches(s, l, o) then 1 else 0
    ensures Launches(s, l, o) ==> !Unregistered(s.d.table, o) && Unregistered(Step(s, l).d.table, o)
  {
    var batch := Examined(s.d, l.msgs, l.isBatch);
    assert OpInv(s, o);
    LaunchesOfBatch(s.d.table, batch, o);
    if Launches(s, l, o) {
      AllWhole(s);
      SuccessHits(s.d.table, batch, o);
      HandledRegistration(s.d.table, batch, o);
    }
  }

  lemma SuccessHits(t: Table, batch: Batch, o: OpId)
    requires o in t.ops && Succeeds(t, batch, |batch|, o)
    ensures IsHit(t, batch, o)
  {
    AnswerIsFirst(t, batch, |batch|, o);
    var j :| 0 <= j < |batch| && AnswersAt(t, batch, j, o);
    ResponseRouting.AnsweredIdsIff(batch, |batch|, batch[j].id.value);
    ResponseRouting.HitsIff(t, batch, |batch|, o);
  }

  lemma CountOther(s: State, l: Label, o: OpId)
    requires Proper(s) && Enabled(s, l) && !l.ReadOp? && o in s.d.table.ops
    ensures LaunchCount(Step(s, l), o) == LaunchCount(s, o)
  {
  }

  lemma CountNew(s: State, l: Label, o: OpId)
    requires Proper(s) && Enabled(s, l) && o !in s.d.table.ops
    ensures LaunchCount(Step(s, l), o) == 0
  {
    if !l.ReqInit? {
      KeysKept(s, l);
    }
  }

  lemma CountStep(s: State, l: Label, o: OpId)
    requires Inv(s) && Enabled(s, l)
    ensures LaunchCount(Step(s, l), o) == LaunchCount(s, o) + if Launches(s, l, o) then 1 else 0
    ensures Launches(s, l, o) ==> !Unregistered(s.d.table, o) && Unregistered(Step(s, l).d.table, o)
    ensures o in s.d.table.ops ==> o in Step(s, l).d.table.ops
  {
    if o !in s.d.table.ops {
      CountNew(s, l, o);
    } else {
      IdsKept(s, l, o);
      if l.ReadOp? {
        CountRead(s, l, o);
      } else {
        CountOther(s, l, o);
      }
    }
  }

  // ---- when a loop is started again ----------------------------------------------------

  /** Some step of the run starts the loop of `o`. */
  ghost predicate LaunchOccurs(s: State, run: seq<Label>, o: OpId)
    requires Proper(s) && IsRun(s, run)
    decreases |run|
  {
    run != [] && (Launches(s, run[0], o) || LaunchOccurs(Step(s, run[0]), run[1..], o))
  }

  /** A reconnect by the writer of `o`, which registers `o` again, and a later start. */
  ghost predicate LaunchAfterReconnect(s: State, run: seq<Label>, o: OpId)
    requires Proper(s) && IsRun(s, run)
    decreases |run|
  {
    run != [] && (
      || (run[0].Reconnected? && run[0].op == o && LaunchOccurs(Step(s, run[0]), run[1..], o))
      || LaunchAfterReconnect(Step(s, run[0]), run[1..], o))
  }

  /** A start, then such a reconnect, then another start. */
  ghost predicate Relaunched(s: State, run: seq<Label>, o: OpId)
    requires Proper(s) && IsRun(s, run)
    decreases |run|
  {
    run != [] && (
      || (Launches(s, run[0], o) && LaunchAfterReconnect(Step(s, run[0]), run[1..], o))
      || Relaunched(Step(s, run[0]), run[1..], o))
  }

  lemma {:induction false} LaunchIffOccurs(s: State, run: seq<Label>, o: OpId)
    requires Inv(s) && IsRun(s, run)
    ensures LaunchCount(After(s, run), o) >= LaunchCount(s, o)
    ensures LaunchCount(After(s, run), o) > LaunchCount(s, o) <==> LaunchOccurs(s, run, o)
    ensures LaunchAfterReconnect(s, run, o) ==> LaunchOccurs(s, run, o)
    decreases |run|
  {
    if run != [] {
      InvStep(s, run[0]);
      CountStep(s, run[0], o);
      LaunchIffOccurs(Step(s, run[0]), run[1..], o);
    }
  }

  /** An unregistered request is registered again only by its own reconnect. */
  lemma OnlyOwnReconnect(s: State, l: Label, o: OpId)
    requires Inv(s) && Enabled(s, l) && o in s.d.table.ops && Unregistered(s.d.table, o)
    requires l.Reconnected? ==> l.op != o
    ensures Unregistered(Step(s, l).d.table, o)
  {
    AllWhole(s);
    StaysUnregistered(s, l, o);
  }

  /** While a request is unregistered, only a reconnect opens the way to another start. */
  lemma {:induction false} UnregisteredLaunch(s: State, run: seq<Label>, o: OpId)
    requires Inv(s) && IsRun(s, run) && o in s.d.table.ops && Unregistered(s.d.table, o)
    ensures LaunchOccurs(s, run, o) <==> LaunchAfterReconnect(s, run, o)
    decreases |run|
  {
    LaunchIffOccurs(s, run, o);
    if run != [] {
      InvStep(s, run[0]);
      CountStep(s, run[0], o);
      if !(run[0].Reconnected? && run[0].op == o) {
        OnlyOwnReconnect(s, run[0], o);
        UnregisteredLaunch(Step(s, run[0]), run[1..], o);
      }
    }
  }

  lemma {:induction false} TwoLaunchesIff(s: State, run: seq<Label>, o: OpId)
    requires Inv(s) && IsRun(s, run)
    ensures LaunchCount(After(s, run), o) > LaunchCount(s, o) + 1 <==> Relaunched(s, run, o)
    decreases |run|
  {
    if run != [] {
      var s' := Step(s, run[0]);
      InvStep(s, run[0]);
      CountStep(s, run[0], o);
      TwoLaunchesIff(s', run[1..], o);
      if Launches(s, run[0], o) {
        LaunchIffOccurs(s', run[1..], o);
        UnregisteredLaunch(s', run[1..], o);
      }
    }
  }

  /**
   The forwarding loop of a subscription is started more than once exactly in the runs where,
   after a first start, the request's writer reconnects and a later response succeeds again.
   */
  lemma LaunchedOnce(batchLimit: nat, run: seq<Label>, o: OpId)
    requires IsClientRun(batchLimit, run) && o in Reached(batchLimit, run).d.table.ops
    ensures Reached(batchLimit, run).d.table.ops[o].launches <= 1 <==> !Relaunched(Initial(batchLimit), run, o)
  {
    InitialInv(batchLimit);
    TwoLaunchesIff(Initial(batchLimit), run, o);
  }

  // ---- how often it can be started -----------------------------------------------------

  /** How often the writer of `o` can still reconnect. */
  ghost function ReconnectsLeft(s: State, o: OpId): nat {
    if o !in s.writers then 0
    else
      match s.writers[o]
      case Finished(_) => 0
      case Writing(retry) => (if retry then 0 else 1) + (if s.writeConn.Some? then 0 else 1)
      case Dialed(retry, _) => if retry then 1 else 2
  }

  const MAX_LAUNCHES := 3

  /** Each start uses up a registration, and each registration is the first one or a reconnect. */
  ghost predicate LaunchBudget(s: State, o: OpId) {
    o in s.d.table.ops ==>
      LaunchCount(s, o) + (if Unregistered(s.d.table, o) then 0 else 1) + ReconnectsLeft(s, o) <= MAX_LAUNCHES
  }

  lemma ReconnectsSpent(s: State, l: Label, o: OpId)
    requires Proper(s) && LockInv(s) && Enabled(s, l) && o in s.d.table.ops
    ensures ReconnectsLeft(Step(s, l), o) + (if l.Reconnected? && l.op == o then 1 else 0) <= ReconnectsLeft(s, o)
  {
  }

  lemma BudgetStep(s: State, l: Label, o: OpId)
    requires Inv(s) && Enabled(s, l) && LaunchBudget(s, o)
    ensures LaunchBudget(Step(s, l), o)
  {
    if o in s.d.table.ops {
      CountStep(s, l, o);
      ReconnectsSpent(s, l, o);
      if Unregistered(s.d.table, o) && !(l.Reconnected? && l.op == o) {
        OnlyOwnReconnect(s, l, o);
      }
    } else {
      CountNew(s, l, o);
    }
  }

  lemma {:induction false} BudgetRun(s: State, run: seq<Label>, o: OpId)
    requires Inv(s) && IsRun(s, run) && LaunchBudget(s, o)
    ensures LaunchBudget(After(s, run), o)
    decreases |run|
  {
    if run != [] {
      InvStep(s, run[0]);
      BudgetStep(s, run[0], o);
      BudgetRun(Step(s, run[0]), run[1..], o);
    }
  }

  /** No run starts the loop of one subscription more than three times. */
  lemma LaunchBound(batchLimit: nat, run: seq<Label>, o: OpId)
    requires IsClientRun(batchLimit, run) && o in Reached(batchLimit, run).d.table.ops
    ensures Reached(batchLimit, run).d.table.ops[o].launches <= MAX_LAUNCHES
  {
    InitialInv(batchLimit);
    BudgetRun(Initial(batchLimit), run, o);
  }

  // ---- runs that start it again --------------------------------------------------------

  predicate PlainId(id: string) {
    |id| > 0 && id[0] != '{' && id[0] != '['
  }

  function SubscribeResponse(id: string, subid: string): Message {
    Message(VERSION, Some(id), "", None, None, Some(Raw(subid, Some(subid), None)))
  }

  /** The writer of subscribe request `o` is about to write, and its loop was started `n` times. */
  ghost predicate Started(s: State, o: OpId, id: string, n: nat) {
    && Inv(s) && !s.quit && o in s.writers && s.writers[o].Writing?
    && s.d.table.ops[o].isSub && s.d.table.ops[o].ids == [id] && s.d.table.ops[o].launches == n
  }

  /** A successful response by itself launches a registered subscription. */
  lemma ResponseSucceeds(t: Table, o: OpId, id: string, subid: string)
    requires o in t.ops && t.ops[o].isSub && id in t.respWait && t.respWait[id] == o && PlainId(id)
    ensures Succeeds(t, [SubscribeResponse(id, subid)], 1, o)
  {
    assert AnswersAt(t, [SubscribeResponse(id, subid)], 0, o);
  }

  /** Whenever a subscribe request is registered, a successful response starts its loop. */
  lemma ResponseLaunches(s: State, o: OpId, r: ConnId, id: string, subid: string, n: nat)
    requires Started(s, o, id, n) && r in s.readers && Registered(s.d.table, o) && PlainId(id)
    ensures var l := ReadOp(r, [SubscribeResponse(id, subid)], false);
            && Enabled(s, l) && Started(Step(s, l), o, id, n + 1)
            && Step(s, l).writers == s.writers && Step(s, l).writeConn == s.writeConn
            && Step(s, l).d.open == s.d.open && Step(s, l).d.table.ops.Keys == s.d.table.ops.Keys
            && Step(s, l).d.table.clientSubs == s.d.table.clientSubs[subid := o]
  {
    var l := ReadOp(r, [SubscribeResponse(id, subid)], false);
    assert id in s.d.table.ops[o].ids;
    ResponseSucceeds(s.d.table, o, id, subid);
    InvStep(s, l);
    CountStep(s, l, o);
    SubscribeKept(s, l, o);
    ResponseActivates(s.d.table, o, id, subid);
    KeysKept(s, l);
  }

  lemma ResponseActivates(t: Table, o: OpId, id: string, subid: string)
    requires WellFormed(t) && o in t.ops && t.ops[o].isSub && id in t.respWait && t.respWait[id] == o && PlainId(id)
    ensures HandleResponses(t, [SubscribeResponse(id, subid)]).table.clientSubs == t.clientSubs[subid := o]
  {
    var m := SubscribeResponse(id, subid);
    assert HandlePrefix(t, [m], 1) == HandleMessage(HandlePrefix(t, [m], 0), [m], m);
  }

  lemma SubscribeKept(s: State, l: Label, o: OpId)
    requires Proper(s) && Enabled(s, l) && l.ReadOp? && o in s.d.table.ops
    ensures var ops := Step(s, l).d.table.ops;
            o in ops && ops[o].ids == s.d.table.ops[o].ids && ops[o].isSub == s.d.table.ops[o].isSub
  {
    var batch := Examined(s.d, l.msgs, l.isBatch);
    ResponseRouting.PrefixEffect(s.d.table, batch, |batch|);
  }

  lemma ReconnectRegisters(s: State, o: OpId)
    requires At(s, o) && Enabled(s, Reconnected(o, s.d.conn))
    ensures var s' := Step(s, Reconnected(o, s.d.conn));
            && !s'.quit && s.writers[o].conn in s'.readers
            && s'.d.table.ops[o] == s.d.table.ops[o]
            && Registered(s'.d.table, o)
  {
    CloseConnOp(s, CloseConn(s.d, ClientReconnected, s.d.lastOp), ClientReconnected, s.d.lastOp, o);
  }

  /** If a reconnect does register it again, the very next response starts the loop once more. */
  lemma LaunchedAgain(s: State, o: OpId, id: string, subid: string)
    requires Inv(s) && Enabled(s, Reconnected(o, s.d.conn)) && PlainId(id)
    requires s.d.table.ops[o].isSub && s.d.table.ops[o].ids == [id]
    ensures var run := [Reconnected(o, s.d.conn), ReadOp(s.writers[o].conn, [SubscribeResponse(id, subid)], false)];
            && IsRun(s, run)
            && Started(After(s, run), o, id, s.d.table.ops[o].launches + 1)
            && After(s, run).writers[o] == Writing(s.writers[o].retry) && After(s, run).writeConn.Some?
  {
    InvStep(s, Reconnected(o, s.d.conn));
    assert OpInv(s, o);
    ReconnectRegisters(s, o);
    var l0, l1 := Reconnected(o, s.d.conn), ReadOp(s.writers[o].conn, [SubscribeResponse(id, subid)], false);
    ResponseLaunches(Step(s, l0), o, s.writers[o].conn, id, subid, s.d.table.ops[o].launches);
    RunOf2(s, l0, l1);
  }

  lemma DialAgain(s: State, o: OpId)
    requires Inv(s) && !s.quit && s.writeConn.None? && IsWriting(s, o)
    ensures Enabled(s, DialOk(o))
    ensures var s' := Step(s, DialOk(o));
            && Inv(s') && s'.d == s.d && Enabled(s', Reconnected(o, s.d.conn))
            && s'.writers[o].retry == s.writers[o].retry
  {
    InvStep(s, DialOk(o));
  }

  /** Without a connection to write to, the writer dials, and the loop may be started again. */
  lemma LaunchAfterDial(s: State, o: OpId, id: string, subid: string, n: nat) returns (run: seq<Label>)
    requires Started(s, o, id, n) && s.writeConn.None? && PlainId(id)
    ensures IsRun(s, run) && Started(After(s, run), o, id, n + 1)
    ensures After(s, run).writers[o] == s.writers[o] && After(s, run).writeConn.Some?
  {
    DialAgain(s, o);
    var s1 := Step(s, DialOk(o));
    LaunchedAgain(s1, o, id, subid);
    run := [Reconnected(o, s1.d.conn), ReadOp(s1.writers[o].conn, [SubscribeResponse(id, subid)], false)];
    Prepend(s, DialOk(o), run);
    run := [DialOk(o)] + run;
  }

  /** From any answered subscribe request whose write then fails, a run starts it again. */
  lemma SecondLaunch(s: State, o: OpId, id: string, subid: string, n: nat) returns (run: seq<Label>)
    requires Started(s, o, id, n) && s.writers[o] == Writing(false) && s.writeConn.Some? && PlainId(id)
    ensures IsRun(s, run) && Started(After(s, run), o, id, n + 1)
  {
    InvStep(s, WriteFail(o));
    run := LaunchAfterDial(Step(s, WriteFail(o)), o, id, subid, n);
    Prepend(s, WriteFail(o), run);
    run := [WriteFail(o)] + run;
  }

  lemma NewFrame(s: State, o: OpId, id: string)
    requires Proper(s) && Enabled(s, ReqInit(o, [id], true, true))
    ensures var s' := Step(s, ReqInit(o, [id], true, true));
            && Registered(s'.d.table, o) && s'.d.table.ops[o] == NewOp([id], true, true)
            && s'.writers[o] == Writing(false) && s'.readers == s.readers && s'.writeConn == s.writeConn
            && s'.d.open == s.d.open && s'.d.table.clientSubs == s.d.table.clientSubs
            && s'.d.table.ops.Keys == s.d.table.ops.Keys + {o}
  {
  }

  lemma NewIsStarted(s: State, o: OpId, id: string)
    requires Inv(s) && Enabled(s, ReqInit(o, [id], true, true))
    ensures Started(Step(s, ReqInit(o, [id], true, true)), o, id, 0)
  {
    NewFrame(s, o, id);
    InvStep(s, ReqInit(o, [id], true, true));
  }

  /** A new subscribe request that is answered before it is written. */
  lemma FirstLaunch(s: State, o: OpId, id: string, subid: string) returns (run: seq<Label>)
    requires Inv(s) && Enabled(s, ReqInit(o, [id], true, true)) && s.d.open && PlainId(id)
    ensures IsRun(s, run) && Started(After(s, run), o, id, 1)
    ensures After(s, run).writers[o] == Writing(false) && After(s, run).writeConn == s.writeConn
    ensures After(s, run).d.open && After(s, run).d.table.clientSubs == s.d.table.clientSubs[subid := o]
    ensures After(s, run).d.table.ops.Keys == s.d.table.ops.Keys + {o}
  {
    var l0, l1 := ReqInit(o, [id], true, true), ReadOp(s.d.conn, [SubscribeResponse(id, subid)], false);
    NewFrame(s, o, id);
    NewIsStarted(s, o, id);
    ResponseLaunches(Step(s, l0), o, s.d.conn, id, subid, 0);
    RunOf2(s, l0, l1);
    run := [l0, l1];
  }

  /** Such a run exists: answered before its write failed, the subscription starts twice. */
  lemma LaunchedTwiceWitness(batchLimit: nat) returns (run: seq<Label>)
    ensures IsClientRun(batchLimit, run) && 0 in Reached(batchLimit, run).d.table.ops
    ensures Reached(batchLimit, run).d.table.ops[0].launches == 2
  {
    InitialInv(batchLimit);
    var first := FirstLaunch(Initial(batchLimit), 0, "1", "0xa");
    var second := SecondLaunch(Reached(batchLimit, first), 0, "1", "0xa", 1);
    Concat(Initial(batchLimit), first, second);
    run := first + second;
  }

  /** A request that can neither be written nor dial. */
  lemma SendFails(s: State, o: OpId)
    requires Proper(s) && !s.quit && o in s.writers && s.writers[o] == Writing(false)
    requires s.writeConn.Some? && s.reqSent == [] && s.d.lastOp == Some(o) && s.d.table.ops[o].ids == []
    ensures var run := [WriteFail(o), DialFail(o), PushSent(o), ReqSent];
            && IsRun(s, run)
            && var s' := After(s, run);
               s'.d == s.d.(table := RemoveRequestOp(s.d.table, o), lockHeld := false, lastOp := None)
               && !s'.quit && s'.writeConn.None? && o in s'.callers && s'.callers[o].SendFailed?
  {
    var s1 := Step(s, WriteFail(o));
    var s2 := Step(s1, DialFail(o));
    var s3 := Step(s2, PushSent(o));
    RunOf2(s2, PushSent(o), ReqSent);
    Prepend(s1, DialFail(o), [PushSent(o), ReqSent]);
    Prepend(s, WriteFail(o), [DialFail(o), PushSent(o), ReqSent]);
  }

  /** After such a notification there is nothing to write to, but the reader goes on. */
  lemma DialFails(batchLimit: nat) returns (run: seq<Label>)
    ensures IsClientRun(batchLimit, run)
    ensures var s := Reached(batchLimit, run);
            s.d.open && s.writeConn.None? && Enabled(s, ReqInit(1, ["1"], true, true))
  {
    var s, l := Initial(batchLimit), ReqInit(0, [], false, false);
    SendFails(Step(s, l), 0);
    run := [WriteFail(0), DialFail(0), PushSent(0), ReqSent];
    Prepend(s, l, run);
    run := [l] + run;
  }

  /** Answered at once, after the first dial, and after the second. */
  lemma LaunchThrice(s: State, o: OpId, id: string) returns (run: seq<Label>)
    requires Inv(s) && Enabled(s, ReqInit(o, [id], true, true)) && s.d.open && s.writeConn.None? && PlainId(id)
    ensures IsRun(s, run) && Started(After(s, run), o, id, MAX_LAUNCHES)
  {
    run := FirstLaunch(s, o, id, "0xa");
    var next := LaunchAfterDial(After(s, run), o, id, "0xb", 1);
    Concat(s, run, next);
    run := run + next;
    next := SecondLaunch(After(s, run), o, id, "0xc", 2);
    Concat(s, run, next);
    run := run + next;
  }

  /** The bound is reached. */
  lemma LaunchedThriceWitness(batchLimit: nat) returns (run: seq<Label>)
    ensures IsClientRun(batchLimit, run) && 1 in Reached(batchLimit, run).d.table.ops
    ensures Reached(batchLimit, run).d.table.ops[1].launches == MAX_LAUNCHES
  {
    run := DialFails(batchLimit);
    ReachedInv(batchLimit, run);
    var next := LaunchThrice(Reached(batchLimit, run), 1, "1");
    Concat(Initial(batchLimit), run, next);
    run := run + next;
  }
}
