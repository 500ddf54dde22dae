/**
 The table of active client subscriptions (rpc/handler.go, clientSubs) over every run of the
 client: what becomes of each forwarding loop that was started.
 */
module ActiveSubscriptions {
  import opened Options
  import opened Messages
  import opened RequestTable
  import opened Dispatch
  import opened DispatchInvariant
  import opened DispatchSteps
  import opened DispatchTheorems
  import opened SubscribeAnswers
  import opened SubscriptionLaunches

  /** Some entry of the table leads to the subscription of request `o`. */
  predicate IsActive(t: Table, o: OpId) {
    o in t.clientSubs.Values
  }

  function Count(b: bool): nat {
    if b then 1 else 0
  }

  /** A subscribe request has one id. */
  ghost predicate OneIdEach(t: Table) {
    forall o :: o in t.ops && t.ops[o].isSub ==> |t.ops[o].ids| == 1
  }

  /** An active subscription has one entry, and its request is not registered any more. */
  ghost predicate ActiveApart(t: Table) {
    && (forall x :: x in t.clientSubs ==> t.clientSubs[x] in t.ops && Unregistered(t, t.clientSubs[x]))
    && (forall x, y :: x in t.clientSubs && y in t.clientSubs && t.clientSubs[x] == t.clientSubs[y] ==> x == y)
  }

  // ---- one batch -----------------------------------------------------------------------

  /** The subscription id under which the message starts a loop, if it does. */
  ghost function StartedId(t: Table, m: Message): Option<string>
    requires WellFormed(t)
  {
    if IsResponse(m) && m.id.value in t.respWait && t.ops[t.respWait[m.id.value]].isSub then GrantedId(m) else None
  }

  /** The message gives a new subscription the id under which `o` is active. */
  ghost predicate Displaces(t: Table, m: Message, o: OpId)
    requires WellFormed(t)
  {
    var x := StartedId(t, m);
    x.Some? && x.value in t.clientSubs && t.clientSubs[x.value] == o
  }

  /** A message that starts no loop leaves the table of active subscriptions alone. */
  lemma QuietMessage(p: Progress, batch: Batch, m: Message, o: OpId)
    requires WellFormed(p.table) && o in p.table.ops && StartedId(p.table, m).None?
    ensures var t, t' := p.table, HandleMessage(p, batch, m).table;
            t'.clientSubs == t.clientSubs && o in t'.ops && t'.ops[o].launches == t.ops[o].launches
  {
  }

  lemma StartingMessage(p: Progress, batch: Batch, m: Message, o: OpId)
    requires WellFormed(p.table) && o in p.table.ops && StartedId(p.table, m).Some?
    ensures var t, t' := p.table, HandleMessage(p, batch, m).table;
            var q := t.respWait[m.id.value];
            && t'.clientSubs == t.clientSubs[StartedId(t, m).value := q]
            && o in t'.ops && t'.ops[o].launches == t.ops[o].launches + Count(o == q)
  {
  }

  /** Putting `q` under `x`: what was there is displaced, everything else stays. */
  lemma PutActive(subs: map<string, OpId>, x: string, q: OpId, o: OpId)
    requires q !in subs.Values
    requires forall y, z :: y in subs && z in subs && subs[y] == subs[z] ==> y == z
    ensures Count(o in subs[x := q].Values) + Count(x in subs && subs[x] == o) == Count(o in subs.Values) + Count(o == q)
  {
    var subs' := subs[x := q];
    assert subs'[x] == q;
    if o in subs.Values && !(x in subs && subs[x] == o) {
      var y :| y in subs && subs[y] == o;
      assert subs'[y] == o;
    }
    if o in subs'.Values && o != q {
      var y :| y in subs' && subs'[y] == o;
      assert subs[y] == o;
    }
  }

  lemma MessageBalance(p: Progress, batch: Batch, m: Message, o: OpId)
    requires WellFormed(p.table) && ActiveApart(p.table) && o in p.table.ops
    ensures var t, t' := p.table, HandleMessage(p, batch, m).table;
            && o in t'.ops
            && t'.ops[o].launches + Count(IsActive(t, o))
               == t.ops[o].launches + Count(IsActive(t', o)) + Count(Displaces(t, m, o))
  {
    if StartedId(p.table, m).None? {
      QuietMessage(p, batch, m, o);
    } else {
      StartingMessage(p, batch, m, o);
      PutActive(p.table.clientSubs, StartedId(p.table, m).value, p.table.respWait[m.id.value], o);
    }
  }

  lemma MessageApart(p: Progress, batch: Batch, m: Message)
    requires WellFormed(p.table) && ActiveApart(p.table) && OneIdEach(p.table)
    ensures var t' := HandleMessage(p, batch, m).table; ActiveApart(t') && OneIdEach(t')
  {
    var t, t' := p.table, HandleMessage(p, batch, m).table;
    if StartedId(t, m).Some? {
      var q := t.respWait[m.id.value];
      forall id | id in t'.respWait ensures t'.respWait[id] != q {
        assert t.ops[q].ids == [t.ops[q].ids[0]];
      }
    }
  }

  /** How often the first `k` messages displace `o`. */
  ghost function Displacements(t: Table, batch: Batch, k: nat, o: OpId): nat
    requires WellFormed(t) && k <= |batch|
  {
    if k == 0 then 0
    else Displacements(t, batch, k - 1, o) + Count(Displaces(HandlePrefix(t, batch, k - 1).table, batch[k - 1], o))
  }

  lemma {:induction false} PrefixApart(t: Table, batch: Batch, k: nat)
    requires WellFormed(t) && ActiveApart(t) && OneIdEach(t) && k <= |batch|
    ensures var t' := HandlePrefix(t, batch, k).table; ActiveApart(t') && OneIdEach(t')
  {
    if k > 0 {
      PrefixApart(t, batch, k - 1);
      MessageApart(HandlePrefix(t, batch, k - 1), batch, batch[k - 1]);
    }
  }

  lemma {:induction false} PrefixBalance(t: Table, batch: Batch, k: nat, o: OpId)
    requires WellFormed(t) && ActiveApart(t) && OneIdEach(t) && k <= |batch| && o in t.ops
    ensures var t' := HandlePrefix(t, batch, k).table;
            && o in t'.ops
            && t'.ops[o].launches + Count(IsActive(t, o))
               == t.ops[o].launches + Count(IsActive(t', o)) + Displacements(t, batch, k, o)
  {
    if k > 0 {
      PrefixBalance(t, batch, k - 1, o);
      PrefixApart(t, batch, k - 1);
      MessageBalance(HandlePrefix(t, batch, k - 1), batch, batch[k - 1], o);
    }
  }

  // ---- one step ------------------------------------------------------------------------

  /** The step closes the handler, which tells every active subscription to stop. */
  predicate ClosesHandler(s: State, l: Label) {
    l.ReadErr? || ((l.Reconnected? || l.CloseClient?) && s.d.reading)
  }

  ghost predicate ToldToStop(s: State, l: Label, o: OpId) {
    ClosesHandler(s, l) && IsActive(s.d.table, o)
  }

  ghost function DisplacedBy(s: State, l: Label, o: OpId): nat
    requires Proper(s)
  {
    if l.ReadOp? then
      var batch := Examined(s.d, l.msgs, l.isBatch);
      Displacements(s.d.table, batch, |batch|, o)
    else 0
  }

  ghost predicate ActiveInv(s: State) {
    Inv(s) && ActiveApart(s.d.table) && (!s.d.open ==> s.d.table.clientSubs == map[])
  }

  ghost predicate NoneWhileClosed(s: State) {
    !s.quit && !s.d.reading ==> s.d.table.clientSubs == map[]
  }

  lemma InvOneId(s: State)
    requires Inv(s)
    ensures OneIdEach(s.d.table)
  {
    assert forall o :: o in s.d.table.ops ==> OpInv(s, o);
  }

  lemma SubsKeptByClose(s: State, l: Label)
    requires Proper(s) && Enabled(s, l) && !l.ReadOp? && !IsSenderLabel(l)
    requires NoneWhileClosed(s)
    ensures Step(s, l).d.table.clientSubs == if ClosesHandler(s, l) then map[] else s.d.table.clientSubs
  {
  }

  lemma SubsKeptBySender(s: State, l: Label)
    requires Proper(s) && Enabled(s, l) && IsSenderLabel(l)
    ensures Step(s, l).d.table.clientSubs == s.d.table.clientSubs
  {
    if IsWriterLabel(l) || l.PushSent? {
      assert Step(s, l).d == s.d;
    }
  }

  /** Steps other than reading empty the table of active subscriptions or leave it alone. */
  lemma SubsKept(s: State, l: Label)
    requires Proper(s) && NoneWhileClosed(s) && Enabled(s, l) && !l.ReadOp?
    ensures Step(s, l).d.table.clientSubs == if ClosesHandler(s, l) then map[] else s.d.table.clientSubs
  {
    if IsSenderLabel(l) {
      SubsKeptBySender(s, l);
    } else {
      SubsKeptByClose(s, l);
    }
  }

  lemma BalanceRead(s: State, l: Label, o: OpId)
    requires ActiveInv(s) && Enabled(s, l) && l.ReadOp? && o in s.d.table.ops
    ensures LaunchCount(Step(s, l), o) + Count(IsActive(s.d.table, o))
         == LaunchCount(s, o) + Count(IsActive(Step(s, l).d.table, o)) + DisplacedBy(s, l, o)
  {
    var batch := Examined(s.d, l.msgs, l.isBatch);
    InvOneId(s);
    PrefixBalance(s.d.table, batch, |batch|, o);
  }

  /** Every start adds an active subscription; every stop and every displacement takes one away. */
  lemma BalanceStep(s: State, l: Label, o: OpId)
    requires ActiveInv(s) && Enabled(s, l)
    ensures LaunchCount(Step(s, l), o) + Count(IsActive(s.d.table, o))
         == LaunchCount(s, o) + Count(IsActive(Step(s, l).d.table, o)) + Count(ToldToStop(s, l, o)) + DisplacedBy(s, l, o)
  {
    if o !in s.d.table.ops {
      BalanceNew(s, l, o);
    } else if l.ReadOp? {
      BalanceRead(s, l, o);
    } else {
      SubsKept(s, l);
      CountOther(s, l, o);
    }
  }

  lemma BalanceNew(s: State, l: Label, o: OpId)
    requires ActiveInv(s) && Enabled(s, l) && o !in s.d.table.ops
    ensures LaunchCount(Step(s, l), o) == 0 && !IsActive(s.d.table, o) && !IsActive(Step(s, l).d.table, o)
    ensures !ToldToStop(s, l, o) && DisplacedBy(s, l, o) == 0
  {
    CountNew(s, l, o);
    if l.ReadOp? {
      var batch := Examined(s.d, l.msgs, l.isBatch);
      InvOneId(s);
      UnknownStaysOut(s.d.table, batch, |batch|, o);
    } else {
      SubsKept(s, l);
    }
  }

  lemma {:induction false} UnknownStaysOut(t: Table, batch: Batch, k: nat, o: OpId)
    requires WellFormed(t) && ActiveApart(t) && OneIdEach(t) && k <= |batch| && o !in t.ops
    ensures !IsActive(HandlePrefix(t, batch, k).table, o) && Displacements(t, batch, k, o) == 0
    ensures o !in HandlePrefix(t, batch, k).table.ops
  {
    PrefixApart(t, batch, k);
    if k > 0 {
      UnknownStaysOut(t, batch, k - 1, o);
    }
  }

  lemma ApartRead(t: Table, batch: Batch)
    requires WellFormed(t) && ActiveApart(t) && OneIdEach(t)
    ensures ActiveApart(HandleResponses(t, batch).table)
  {
    PrefixApart(t, batch, |batch|);
  }

  lemma ApartOther(s: State, l: Label, x: string)
    requires ActiveInv(s) && Enabled(s, l) && !l.ReadOp? && x in Step(s, l).d.table.clientSubs
    ensures var t' := Step(s, l).d.table; t'.clientSubs[x] in t'.ops && Unregistered(t', t'.clientSubs[x])
  {
    SubsKept(s, l);
    AllWhole(s);
    IdsKept(s, l, s.d.table.clientSubs[x]);
    StaysUnregistered(s, l, s.d.table.clientSubs[x]);
  }

  lemma ApartStep(s: State, l: Label)
    requires ActiveInv(s) && Enabled(s, l)
    ensures ActiveApart(Step(s, l).d.table)
  {
    if l.ReadOp? {
      InvOneId(s);
      ApartRead(s.d.table, Examined(s.d, l.msgs, l.isBatch));
    } else {
      SubsKept(s, l);
      forall x | x in Step(s, l).d.table.clientSubs
        ensures var t' := Step(s, l).d.table; t'.clientSubs[x] in t'.ops && Unregistered(t', t'.clientSubs[x])
      {
        ApartOther(s, l, x);
      }
    }
  }

  lemma ClosedHasNone(s: State, l: Label)
    requires ActiveInv(s) && Enabled(s, l)
    ensures !Step(s, l).d.open ==> Step(s, l).d.table.clientSubs == map[]
  {
    if !l.ReadOp? {
      SubsKept(s, l);
    }
  }

  lemma ActiveInvStep(s: State, l: Label)
    requires ActiveInv(s) && Enabled(s, l)
    ensures ActiveInv(Step(s, l))
  {
    InvStep(s, l);
    ApartStep(s, l);
    ClosedHasNone(s, l);
  }

  // ---- whole runs ----------------------------------------------------------------------

  /** How often the loop of `o` was told to stop because its handler closed. */
  ghost function StopCount(s: State, run: seq<Label>, o: OpId): nat
    requires Proper(s) && IsRun(s, run)
    decreases |run|
  {
    if run == [] then 0 else Count(ToldToStop(s, run[0], o)) + StopCount(Step(s, run[0]), run[1..], o)
  }

  ghost function DisplacementCount(s: State, run: seq<Label>, o: OpId): nat
    requires Proper(s) && IsRun(s, run)
    decreases |run|
  {
    if run == [] then 0 else DisplacedBy(s, run[0], o) + DisplacementCount(Step(s, run[0]), run[1..], o)
  }

  lemma {:induction false} BalanceRun(s: State, run: seq<Label>, o: OpId)
    requires ActiveInv(s) && IsRun(s, run)
    ensures ActiveInv(After(s, run))
    ensures LaunchCount(After(s, run), o) + Count(IsActive(s.d.table, o))
         == LaunchCount(s, o) + Count(IsActive(After(s, run).d.table, o)) + StopCount(s, run, o) + DisplacementCount(s, run, o)
    decreases |run|
  {
    if run != [] {
      ActiveInvStep(s, run[0]);
      BalanceStep(s, run[0], o);
      BalanceRun(Step(s, run[0]), run[1..], o);
    }
  }

  /**
   Every start of a forwarding loop is accounted for: the loop is active, or was told to stop
   when its handler closed, or lost its entry to another subscription with the same id.
   */
  lemma LoopsAccounted(batchLimit: nat, run: seq<Label>, o: OpId)
    requires IsClientRun(batchLimit, run)
    ensures var s := Reached(batchLimit, run);
            LaunchCount(s, o) == Count(IsActive(s.d.table, o)) + StopCount(Initial(batchLimit), run, o)
                                 + DisplacementCount(Initial(batchLimit), run, o)
  {
    InitialInv(batchLimit);
    BalanceRun(Initial(batchLimit), run, o);
  }

  /** Some response of the run gave another subscription the id under which `o` was active. */
  ghost predicate Displaced(s: State, run: seq<Label>, o: OpId)
    requires Proper(s) && IsRun(s, run)
    decreases |run|
  {
    run != [] && (DisplacedBy(s, run[0], o) > 0 || Displaced(Step(s, run[0]), run[1..], o))
  }

  lemma {:induction false} DisplacedIffCounted(s: State, run: seq<Label>, o: OpId)
    requires Proper(s) && IsRun(s, run)
    ensures Displaced(s, run, o) <==> DisplacementCount(s, run, o) > 0
    decreases |run|
  {
    if run != [] {
      DisplacedIffCounted(Step(s, run[0]), run[1..], o);
    }
  }

  /**
   Once the connection is closed, every loop that was started has been told to stop, exactly
   unless another subscription with the same id displaced it.
   */
  lemma StoppedUnlessDisplaced(batchLimit: nat, run: seq<Label>, o: OpId)
    requires IsClientRun(batchLimit, run) && !Reached(batchLimit, run).d.open
    ensures LaunchCount(Reached(batchLimit, run), o) == StopCount(Initial(batchLimit), run, o)
            <==> !Displaced(Initial(batchLimit), run, o)
  {
    InitialInv(batchLimit);
    BalanceRun(Initial(batchLimit), run, o);
    DisplacedIffCounted(Initial(batchLimit), run, o);
  }

  // ---- a run that leaves a loop behind -------------------------------------------------

  lemma DisplacedNext(s: State, l: Label, rest: seq<Label>, o: OpId)
    requires Proper(s) && Enabled(s, l) && IsRun(Step(s, l), rest) && Displaced(Step(s, l), rest, o)
    ensures IsRun(s, [l] + rest) && Displaced(s, [l] + rest, o)
  {
    Prepend(s, l, rest);
    assert ([l] + rest)[1..] == rest;
  }

  lemma {:induction false} DisplacedLater(s: State, a: seq<Label>, b: seq<Label>, o: OpId)
    requires Proper(s) && IsRun(s, a) && IsRun(After(s, a), b) && Displaced(After(s, a), b, o)
    ensures IsRun(s, a + b) && Displaced(s, a + b, o)
    decreases |a|
  {
    if a == [] {
      assert a + b == b;
    } else {
      DisplacedLater(Step(s, a[0]), a[1..], b, o);
      DisplacedNext(s, a[0], a[1..] + b, o);
      HeadFirst(a, b);
    }
  }

  /** A response that starts `p` under the id of `o` displaces `o`. */
  lemma ResponseDisplaces(t: Table, m: Message, o: OpId)
    requires WellFormed(t) && Displaces(t, m, o)
    ensures Displacements(t, [m], 1, o) == 1
  {
    assert Displacements(t, [m], 0, o) == 0;
    assert HandlePrefix(t, [m], 0).table == t;
  }

  lemma DisplacedNow(s: State, l: Label, rest: seq<Label>, o: OpId)
    requires Proper(s) && Enabled(s, l) && IsRun(Step(s, l), rest) && DisplacedBy(s, l, o) > 0
    ensures IsRun(s, [l] + rest) && Displaced(s, [l] + rest, o)
  {
    Prepend(s, l, rest);
  }

  lemma TakesOver(s: State, o: OpId, p: OpId, r: ConnId, id: string, subid: string)
    requires Started(s, p, id, 0) && r in s.readers && Registered(s.d.table, p) && PlainId(id)
    requires subid in s.d.table.clientSubs && s.d.table.clientSubs[subid] == o
    ensures DisplacedBy(s, ReadOp(r, [SubscribeResponse(id, subid)], false), o) == 1
  {
    assert id in s.d.table.ops[p].ids;
    ResponseDisplaces(s.d.table, SubscribeResponse(id, subid), o);
  }

  lemma Breaks(s: State)
    requires Inv(s) && s.d.open && !s.quit
    ensures var run := [ReadErr(s.d.conn, "")]; IsRun(s, run) && !After(s, run).d.open
  {
    Prepend(s, ReadErr(s.d.conn, ""), []);
  }

  /** The response to `p` takes over the id under which `o` is active, and the connection breaks. */
  lemma AnswerAndBreak(s: State, o: OpId, p: OpId, r: ConnId, id: string, subid: string) returns (run: seq<Label>)
    requires Started(s, p, id, 0) && s.d.open && r in s.readers && Registered(s.d.table, p) && PlainId(id)
    requires subid in s.d.table.clientSubs && s.d.table.clientSubs[subid] == o
    ensures IsRun(s, run) && Displaced(s, run, o) && !After(s, run).d.open
  {
    var l := ReadOp(r, [SubscribeResponse(id, subid)], false);
    ResponseLaunches(s, p, r, id, subid, 0);
    TakesOver(s, o, p, r, id, subid);
    run := [ReadErr(Step(s, l).d.conn, "")];
    Breaks(Step(s, l));
    DisplacedNow(s, l, run, o);
    Prepend(s, l, run);
    run := [l] + run;
  }

  lemma TakeOver(s: State, o: OpId, p: OpId, id: string, subid: string) returns (run: seq<Label>)
    requires Inv(s) && Enabled(s, ReqInit(p, [id], true, true)) && s.d.open && PlainId(id)
    requires subid in s.d.table.clientSubs && s.d.table.clientSubs[subid] == o
    ensures IsRun(s, run) && Displaced(s, run, o) && !After(s, run).d.open
  {
    var l := ReqInit(p, [id], true, true);
    NewFrame(s, p, id);
    NewIsStarted(s, p, id);
    run := AnswerAndBreak(Step(s, l), o, p, s.d.conn, id, subid);
    DisplacedNext(s, l, run, o);
    Prepend(s, l, run);
    run := [l] + run;
  }

  lemma WriteCompletes(s: State, o: OpId)
    requires Inv(s) && !s.quit && s.d.open && s.writeConn.Some? && o in s.writers && s.writers[o] == Writing(false)
    ensures var run := [WriteOk(o), PushSent(o), ReqSent];
            && IsRun(s, run) && Inv(After(s, run)) && !After(s, run).quit
            && After(s, run).d == s.d.(lockHeld := false, lastOp := None)
  {
    var run := [WriteOk(o), PushSent(o), ReqSent];
    var s1 := Step(s, WriteOk(o));
    RunOf2(s1, PushSent(o), ReqSent);
    Prepend(s, WriteOk(o), [PushSent(o), ReqSent]);
    InvRun(s, run);
  }

  lemma CanSubscribe(s: State)
    requires !s.quit && !s.d.lockHeld && s.d.table.ops.Keys == {0} && s.d.table.ops[0].ids == ["1"]
    ensures Enabled(s, ReqInit(1, ["2"], true, true))
  {
  }

  /** The connection breaks after a second subscription took the id of the first. */
  lemma LeaveBehind(s: State) returns (run: seq<Label>)
    requires Inv(s) && !s.quit && s.d.open && s.writeConn.Some? && 0 in s.writers && s.writers[0] == Writing(false)
    requires s.d.table.ops.Keys == {0} && s.d.table.ops[0].ids == ["1"] && s.d.table.clientSubs == map["0xa" := 0]
    ensures IsRun(s, run) && Displaced(s, run, 0) && !After(s, run).d.open
  {
    WriteCompletes(s, 0);
    var done := [WriteOk(0), PushSent(0), ReqSent];
    CanSubscribe(After(s, done));
    var second := TakeOver(After(s, done), 0, 1, "2", "0xa");
    DisplacedLater(s, done, second, 0);
    Concat(s, done, second);
    run := done + second;
  }

  /** Such a run exists: the loop of the first request is never told that the connection is gone. */
  lemma LeftBehindWitness(batchLimit: nat) returns (run: seq<Label>)
    ensures IsClientRun(batchLimit, run) && !Reached(batchLimit, run).d.open
    ensures LaunchCount(Reached(batchLimit, run), 0) != StopCount(Initial(batchLimit), run, 0)
  {
    var s := Initial(batchLimit);
    InitialInv(batchLimit);
    var first := FirstLaunch(s, 0, "1", "0xa");
    var rest := LeaveBehind(After(s, first));
    DisplacedLater(s, first, rest, 0);
    Concat(s, first, rest);
    run := first + rest;
    StoppedUnlessDisplaced(batchLimit, run, 0);
  }
}
