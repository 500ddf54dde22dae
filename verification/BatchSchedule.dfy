/**
 The race of a batch with its timer, by the steps of the run: what is written, how the limit
 is kept, and in which order the timer acts.
 */
module BatchSchedule {
  import opened Options
  import opened Messages
  import opened BatchReply
  import opened BatchRace

  // ---- what is written, by the steps of the run -------------------------------------------

  /** What the methods came to, in the order in which they were called. */
  ghost function Results(run: seq<Label>): seq<CallOutcome> {
    if run == [] then []
    else Results(run[..|run| - 1]) + (if run[|run| - 1].Handle? then [run[|run| - 1].result] else [])
  }

  predicate IsWrite(l: Label) {
    l.WriteTooLarge? || l.TimerWrites? || l.FinalWrite?
  }

  ghost function Pushes(run: seq<Label>): nat {
    if run == [] then 0 else Pushes(run[..|run| - 1]) + if run[|run| - 1].Push? then 1 else 0
  }

  /** The first writing step of the run, and how many calls were answered before it. */
  ghost function FirstWrite(run: seq<Label>): Option<(Label, nat)> {
    if run == [] then None
    else
      var front, l := run[..|run| - 1], run[|run| - 1];
      if FirstWrite(front).Some? then FirstWrite(front) else if IsWrite(l) then Some((l, Pushes(front))) else None
  }

  /** The run `run` led to `r`: what it did is what the state shows. */
  ghost predicate Traced(r: Race, run: seq<Label>) {
    && AnswersTraced(r, Results(run), Pushes(run))
    && r.outcome == (match FirstWrite(run)
                     case None => Pending
                     case Some((l, k)) =>
                       if l.TimerWrites? then ByError(k, TIMED_OUT) else if l.WriteTooLarge? then ByError(k, TOO_LARGE) else ByEnd(k))
  }

  /** How the histories of the run grow with a step. */
  lemma HistoryPush(run: seq<Label>, l: Label)
    ensures Results(run + [l]) == Results(run) + (if l.Handle? then [l.result] else [])
    ensures Pushes(run + [l]) == Pushes(run) + if l.Push? then 1 else 0
    ensures FirstWrite(run + [l]) ==
            if FirstWrite(run).Some? then FirstWrite(run) else if IsWrite(l) then Some((l, Pushes(run))) else None
  {
    assert (run + [l])[..|run|] == run;
  }

  /** The answers, by what was handled. */
  ghost predicate AnswersTraced(r: Race, results: seq<CallOutcome>, pushes: nat) {
    && |r.answers| == pushes
    && |results| == pushes + (if r.processor.Pushing? then 1 else 0)
    && AnswersAre(r.msgs, results, r.answers)
    && (r.processor.Pushing? ==> |r.answers| < |r.msgs| && r.processor.answer == HandleCallMsg(r.msgs[|r.answers|], results[|r.answers|]))
  }

  lemma AnswersStep(r: Race, results: seq<CallOutcome>, pushes: nat, l: Label)
    requires AnswersTraced(r, results, pushes) && Enabled(r, l) && !Panics(r, l)
    requires r.processor.Handling? ==> pushes < |r.msgs| && r.processor.m == r.msgs[pushes]
    ensures AnswersTraced(Step(r, l), results + (if l.Handle? then [l.result] else []), pushes + if l.Push? then 1 else 0)
  {
  }

  lemma TraceStep(r: Race, run: seq<Label>, l: Label)
    requires Inv(r) && Traced(r, run) && Enabled(r, l) && !Panics(r, l)
    ensures Traced(Step(r, l), run + [l])
  {
    HistoryPush(run, l);
    AnswersStep(r, Results(run), Pushes(run), l);
  }

  lemma {:induction false} TraceRun(r: Race, before: seq<Label>, run: seq<Label>)
    requires Inv(r) && Traced(r, before) && IsRun(r, run)
    ensures Traced(After(r, run), before + run)
    decreases |run|
  {
    if run == [] {
      assert before + run == before;
    } else {
      TraceStep(r, before, run[0]);
      InvStep(r, run[0]);
      TraceRun(Step(r, run[0]), before + [run[0]], run[1..]);
      assert before + [run[0]] + run[1..] == before + run;
    }
  }

  /** The array that was written, or nothing. */
  ghost function Sent(r: Race): seq<Message> {
    if r.buffer.written == [] then [] else r.buffer.written[0]
  }

  /**
   What the connection was sent follows from the first step of the run that wrote: the
   outcomes of the calls answered by then, and a timeout or size error for every request that
   remains; the last step of the processor adds no errors.
   */
  lemma WrittenByFirst(msgs: seq<Message>, limit: int, hasTimeout: bool, run: seq<Label>)
    requires IsRun(Start(msgs, limit, hasTimeout), run)
    ensures var r := After(Start(msgs, limit, hasTimeout), run);
            match FirstWrite(run)
            case None => r.buffer.written == []
            case Some((l, k)) =>
              && |r.buffer.written| <= 1 && k <= |msgs|
              && (l.TimerWrites? ==> Contents(msgs, Results(run), k, -32002, Sent(r)))
              && (l.WriteTooLarge? ==> Contents(msgs, Results(run), k, -32003, Sent(r)))
              && (l.FinalWrite? ==> Contents(msgs[..k], Results(run), k, 0, Sent(r)))
  {
    var s := Start(msgs, limit, hasTimeout);
    var r := After(s, run);
    StartInv(msgs, limit, hasTimeout);
    InvRun(s, run);
    MsgsKept(s, run);
    TraceRun(s, [], run);
    assert [] + run == run;
    if FirstWrite(run).Some? {
      OutcomeContents(r, run);
    }
  }

  lemma OutcomeContents(r: Race, run: seq<Label>)
    requires Inv(r) && Traced(r, run) && FirstWrite(run).Some?
    ensures var (l, k) := FirstWrite(run).value;
            && k <= |r.msgs|
            && (IsWrite(l) && !l.FinalWrite? ==>
                  Contents(r.msgs, Results(run), k, if l.TimerWrites? then -32002 else -32003, Sent(r)))
            && (l.FinalWrite? ==> Contents(r.msgs[..k], Results(run), k, 0, Sent(r)))
  {
    var answers := r.answers[..r.outcome.k];
    if r.outcome.ByError? {
      ContentsWithErrors(r.msgs, Results(run), answers, r.outcome.err);
    } else {
      ContentsOfPrefix(r.msgs, Results(run), answers, 0);
    }
  }

  // ---- the limit, the context and the timer in every run ----------------------------------

  /** The size is counted as in a batch without a race. */
  ghost predicate LimitInv(r: Race, results: seq<CallOutcome>) {
    var k := |r.answers|;
    && k <= |r.msgs| && k <= |results|
    && (r.processor.Checking? ==> k > 0 && r.processor.answer == r.answers[k - 1])
    && AnswersAre(r.msgs, results, r.answers)
    && (r.limit != 0 ==> r.bytes == SummedSizes(r.msgs, results, if r.processor.Checking? then k - 1 else k))
    && (forall j :: 0 <= j < k ==> !ExceedsLimit(r.msgs, results, r.limit, j))
    && (ExceedsLimit(r.msgs, results, r.limit, k) ==> r.processor.Checking? || r.processor.OverLimit? || PastLoop(r))
    && (r.processor.OverLimit? ==> ExceedsLimit(r.msgs, results, r.limit, k))
    && (PastLoop(r) && !r.sawCancel ==> k == |r.msgs| || ExceedsLimit(r.msgs, results, r.limit, k))
  }

  lemma {:induction false} SizesOfPrefix(msgs: seq<Message>, a: seq<CallOutcome>, b: seq<CallOutcome>, k: nat)
    requires k <= |msgs| && k <= |a| && a <= b
    ensures SummedSizes(msgs, a, k) == SummedSizes(msgs, b, k)
  {
    if k > 0 {
      SizesOfPrefix(msgs, a, b, k - 1);
    }
  }

  /** More outcomes do not change what is said about the first ones. */
  lemma LimitGrows(r: Race, a: seq<CallOutcome>, b: seq<CallOutcome>)
    requires LimitInv(r, a) && a <= b
    ensures LimitInv(r, b)
  {
    forall j | 0 <= j <= |r.answers|
      ensures SummedSizes(r.msgs, a, j) == SummedSizes(r.msgs, b, j)
      ensures ExceedsLimit(r.msgs, a, r.limit, j) <==> ExceedsLimit(r.msgs, b, r.limit, j)
    {
      SizesOfPrefix(r.msgs, a, b, j);
    }
  }

  lemma LimitPush(r: Race, results: seq<CallOutcome>)
    requires LimitInv(r, results) && Enabled(r, Push) && !Panics(r, Push)
    requires |r.answers| < |results| && |r.answers| < |r.msgs|
    requires r.processor.answer == HandleCallMsg(r.msgs[|r.answers|], results[|r.answers|])
    ensures LimitInv(Step(r, Push), results)
  {
  }

  lemma LimitCheck(r: Race, results: seq<CallOutcome>)
    requires LimitInv(r, results) && Enabled(r, Check)
    ensures LimitInv(Step(r, Check), results)
  {
    var k := |r.answers|;
    assert AnswerFor(r.msgs[k - 1], r.answers[k - 1]);
    assert SummedSizes(r.msgs, results, k) == SummedSizes(r.msgs, results, k - 1) + ResultBytes(r.answers[k - 1]);
  }

  lemma LimitOther(r: Race, results: seq<CallOutcome>, l: Label)
    requires LimitInv(r, results) && Enabled(r, l) && !l.Push? && !l.Check?
    requires |r.answers| + |r.buffer.calls| == |r.msgs|
    ensures LimitInv(Step(r, l), results)
  {
  }

  lemma LimitStep(r: Race, results: seq<CallOutcome>, l: Label)
    requires Inv(r) && LimitInv(r, results) && Enabled(r, l) && !Panics(r, l)
    requires r.processor.Pushing? ==> |r.answers| < |results| && r.processor.answer == HandleCallMsg(r.msgs[|r.answers|], results[|r.answers|])
    ensures LimitInv(Step(r, l), results)
  {
    match l
    case Push => LimitPush(r, results);
    case Check => LimitCheck(r, results);
    case _ => LimitOther(r, results, l);
  }

  lemma LimitTraced(r: Race, before: seq<Label>, l: Label)
    requires Inv(r) && AnswersTraced(r, Results(before), Pushes(before)) && LimitInv(r, Results(before))
    requires Enabled(r, l) && !Panics(r, l)
    ensures LimitInv(Step(r, l), Results(before + [l]))
  {
    LimitStep(r, Results(before), l);
    HistoryPush(before, l);
    LimitGrows(Step(r, l), Results(before), Results(before + [l]));
  }

  lemma AnswersTracedStep(r: Race, before: seq<Label>, l: Label)
    requires Inv(r) && AnswersTraced(r, Results(before), Pushes(before)) && Enabled(r, l) && !Panics(r, l)
    ensures AnswersTraced(Step(r, l), Results(before + [l]), Pushes(before + [l]))
  {
    HistoryPush(before, l);
    AnswersStep(r, Results(before), Pushes(before), l);
  }

  lemma {:induction false} LimitRun(r: Race, before: seq<Label>, run: seq<Label>)
    requires Inv(r) && AnswersTraced(r, Results(before), Pushes(before)) && LimitInv(r, Results(before)) && IsRun(r, run)
    ensures LimitInv(After(r, run), Results(before + run))
    decreases |run|
  {
    if run == [] {
      assert before + run == before;
    } else {
      AnswersTracedStep(r, before, run[0]);
      InvStep(r, run[0]);
      LimitTraced(r, before, run[0]);
      LimitRun(Step(r, run[0]), before + [run[0]], run[1..]);
      assert before + [run[0]] + run[1..] == before + run;
    }
  }

  /**
   Under every interleaving, no more calls are processed than the limit allows, and unless
   the loop saw the cancelled context exactly the shortest prefix over the limit is.
   */
  lemma LimitInEveryRun(msgs: seq<Message>, limit: int, hasTimeout: bool, run: seq<Label>)
    requires IsRun(Start(msgs, limit, hasTimeout), run)
    ensures Pushes(run) <= |msgs| && Pushes(run) <= |Results(run)|
    ensures forall j :: 0 <= j < Pushes(run) ==> !ExceedsLimit(msgs, Results(run), limit, j)
    ensures After(Start(msgs, limit, hasTimeout), run).processor.Finished? && !SeesCancel(Start(msgs, limit, hasTimeout), run) ==>
              ShortestOver(msgs, Results(run), limit, Pushes(run))
  {
    var s := Start(msgs, limit, hasTimeout);
    StartInv(msgs, limit, hasTimeout);
    TraceRun(s, [], run);
    LimitRun(s, [], run);
    assert [] + run == run;
    MsgsKept(s, run);
    SawIffSees(s, run);
  }

  /** The loop looked at the context after it was cancelled. */
  ghost predicate SeesCancel(r: Race, run: seq<Label>)
    requires IsRun(r, run)
    decreases |run|
  {
    run != [] && ((run[0].LookAtContext? && r.cancelled) || SeesCancel(Step(r, run[0]), run[1..]))
  }

  lemma {:induction false} SawIffSees(r: Race, run: seq<Label>)
    requires IsRun(r, run)
    ensures After(r, run).sawCancel <==> r.sawCancel || SeesCancel(r, run)
    ensures After(r, run).limit == r.limit
    decreases |run|
  {
    if run != [] {
      SawIffSees(Step(r, run[0]), run[1..]);
    }
  }

  /** The context is cancelled exactly if the timer or the parent cancelled it. */
  lemma {:induction false} CancelledByLabels(r: Race, run: seq<Label>)
    requires IsRun(r, run)
    ensures After(r, run).cancelled <==> r.cancelled || TimerCancels in run || ParentCancels in run
    decreases |run|
  {
    if run != [] {
      CancelledByLabels(Step(r, run[0]), run[1..]);
      assert run == [run[0]] + run[1..];
    }
  }

  /** Once the loop is over, no call is fetched, handled or answered. */
  lemma {:induction false} LoopStaysOver(r: Race, run: seq<Label>)
    requires IsRun(r, run) && PastLoop(r)
    ensures forall l :: l in run ==> !l.LookAtContext? && !l.Fetch? && !l.Handle? && !l.Push?
    decreases |run|
  {
    if run != [] {
      LoopStaysOver(Step(r, run[0]), run[1..]);
      assert run == [run[0]] + run[1..];
    }
  }

  /** So looking at the cancelled context ends the loop. */
  lemma CancelEndsLoop(r: Race, run: seq<Label>)
    requires r.cancelled && IsRun(r, [LookAtContext] + run)
    ensures forall l :: l in run ==> !l.LookAtContext? && !l.Fetch? && !l.Handle? && !l.Push?
  {
    assert ([LookAtContext] + run)[1..] == run;
    LoopStaysOver(Step(r, LookAtContext), run);
  }

  /** The steps of the timer come in order, and a stopped timer does not fire. */
  ghost predicate TimerState(timer: Timer, hasTimeout: bool, run: seq<Label>) {
    && (timer == Armed ==> hasTimeout && TimerFires !in run && StopTimer !in run)
    && (timer == Off ==> !hasTimeout || StopTimer in run)
    && (timer == Fired || timer == Cancelled || timer == Over <==> TimerFires in run)
    && (timer == Cancelled || timer == Over <==> TimerCancels in run)
    && (timer == Over <==> TimerWrites in run)
  }

  lemma TimerStep(r: Race, hasTimeout: bool, run: seq<Label>, l: Label)
    requires TimerState(r.timer, hasTimeout, run) && Enabled(r, l) && !Panics(r, l)
    ensures TimerState(Step(r, l).timer, hasTimeout, run + [l])
  {
    assert forall x :: x in run + [l] <==> x in run || x == l;
  }

  lemma {:induction false} TimerRun(r: Race, hasTimeout: bool, before: seq<Label>, run: seq<Label>)
    requires TimerState(r.timer, hasTimeout, before) && IsRun(r, run)
    ensures TimerState(After(r, run).timer, hasTimeout, before + run)
    decreases |run|
  {
    if run == [] {
      assert before + run == before;
    } else {
      TimerStep(r, hasTimeout, before, run[0]);
      TimerRun(Step(r, run[0]), hasTimeout, before + [run[0]], run[1..]);
      assert before + [run[0]] + run[1..] == before + run;
    }
  }

  /** The timer fires only if there is a timeout and it was not stopped, cancels, then writes. */
  lemma TimerOrder(msgs: seq<Message>, limit: int, hasTimeout: bool, run: seq<Label>, l: Label)
    requires IsRun(Start(msgs, limit, hasTimeout), run)
    requires Enabled(After(Start(msgs, limit, hasTimeout), run), l)
    ensures l.TimerFires? ==> hasTimeout && TimerFires !in run && StopTimer !in run
    ensures l.TimerCancels? ==> TimerFires in run && TimerCancels !in run
    ensures l.TimerWrites? ==> TimerCancels in run && TimerWrites !in run
  {
    TimerRun(Start(msgs, limit, hasTimeout), hasTimeout, [], run);
    assert [] + run == run;
  }

  // ---- progress ----------------------------------------------------------------------------

  /** The next step of the processing goroutine; `result` is what a method comes to. */
  function NextOfProcessor(p: Processor, result: CallOutcome): Label
    requires !p.Finished?
  {
    match p
    case AtHead => LookAtContext
    case Fetching => Fetch
    case Handling(_) => Handle(result)
    case Pushing(_) => Push
    case Checking(_) => Check
    case OverLimit => WriteTooLarge
    case Stopping => StopTimer
    case Writing => FinalWrite
  }

  /** How far the goroutine is from its end. */
  ghost function Rank(r: Race): nat {
    match r.processor
    case AtHead => 8 * |r.buffer.calls| + 5
    case Fetching => 8 * |r.buffer.calls| + 4
    case Handling(_) => 8 * |r.buffer.calls| + 3
    case Pushing(_) => 8 * |r.buffer.calls| + 2
    case Checking(_) => 8 * |r.buffer.calls| + 7
    case OverLimit => 3
    case Stopping => 2
    case Writing => 1
    case Finished => 0
  }

  /** Whatever the timer and the context do, the goroutine is never stuck and comes to its end. */
  lemma ProcessorFinishes(r: Race, result: CallOutcome)
    requires Inv(r) && !r.processor.Finished?
    ensures var l := NextOfProcessor(r.processor, result);
            Enabled(r, l) && !Panics(r, l) && Rank(Step(r, l)) < Rank(r)
    ensures forall l :: Enabled(r, l) && IsOutside(l) ==> Rank(Step(r, l)) == Rank(r)
  {
    NextLowersRank(r, NextOfProcessor(r.processor, result));
    forall l | Enabled(r, l) && IsOutside(l) ensures Rank(Step(r, l)) == Rank(r) {
      OutsideKeepsRank(r, l);
    }
  }

  /** The steps of the timer and the context. */
  predicate IsOutside(l: Label) {
    l.TimerFires? || l.TimerCancels? || l.TimerWrites? || l.ParentCancels?
  }

  lemma OutsideKeepsRank(r: Race, l: Label)
    requires Enabled(r, l) && IsOutside(l)
    ensures Rank(Step(r, l)) == Rank(r)
  {
  }

  lemma NextLowersRank(r: Race, l: Label)
    requires ControlInv(r) && Enabled(r, l) && !IsOutside(l)
    ensures !Panics(r, l) && Rank(Step(r, l)) < Rank(r)
  {
  }
}
