/**
 A batch that can time out (rpc/handler.go, handleBatch): the processing goroutine, the timer
 goroutine and the cancellation of the context, interleaved in every possible way.
 */
module BatchRace {
  import opened Options
  import opened Messages
  import opened BatchReply

  datatype Processor =
    | AtHead                             // about to look at the context
    | Fetching                           // about to call nextCall
    | Handling(m: Message)               // in handleCallMsg
    | Pushing(answer: Option<Message>)   // about to call pushResponse
    | Checking(answer: Option<Message>)  // about to compare the size with the limit
    | OverLimit                          // about to respond with the size error
    | Stopping                           // about to stop the timer
    | Writing                            // about to write what has been collected
    | Finished

  datatype Timer = Off | Armed | Fired | Cancelled | Over

  /** How the reply came to be written: after `k` answers, by an error or by the last step. */
  datatype Outcome = Pending | ByError(k: nat, err: RpcError) | ByEnd(k: nat)

  datatype Race = Race(
    msgs: seq<Message>,                    // the calls of the batch
    limit: int,
    buffer: Buffer,
    cancelled: bool,                       // cp.ctx.Err() != nil
    processor: Processor,
    timer: Timer,
    bytes: nat,
    answers: seq<Option<Message>>,         // history: everything passed to pushResponse
    sawCancel: bool,                       // history: the loop ended because of the context
    outcome: Outcome)                      // history

  function Start(msgs: seq<Message>, limit: int, hasTimeout: bool): Race {
    Race(msgs, limit, Buffer(msgs, [], false, []), false, AtHead,
      if hasTimeout then Armed else Off, 0, [], false, Pending)
  }

  datatype Label =
    | LookAtContext | Fetch | Handle(result: CallOutcome) | Push | Check | WriteTooLarge | StopTimer | FinalWrite
    | TimerFires | TimerCancels | TimerWrites
    | ParentCancels

  predicate Enabled(r: Race, l: Label) {
    match l
    case LookAtContext => r.processor.AtHead?
    case Fetch => r.processor.Fetching?
    case Handle(_) => r.processor.Handling?
    case Push => r.processor.Pushing?
    case Check => r.processor.Checking?
    case WriteTooLarge => r.processor.OverLimit?
    case StopTimer => r.processor.Stopping?
    case FinalWrite => r.processor.Writing?
    case TimerFires => r.timer.Armed?
    case TimerCancels => r.timer.Fired?
    case TimerWrites => r.timer.Cancelled?
    case ParentCancels => true
  }

  /** pushResponse would index out of range. */
  predicate Panics(r: Race, l: Label) {
    l.Push? && r.buffer.calls == []
  }

  function Fail(r: Race, err: RpcError): Race {
    r.(buffer := RespondWithError(r.buffer, err),
       outcome := if r.buffer.wrote then r.outcome else ByError(|r.answers|, err))
  }

  function Step(r: Race, l: Label): Race
    requires Enabled(r, l) && !Panics(r, l)
  {
    match l
    case LookAtContext => if r.cancelled then r.(processor := Stopping, sawCancel := true) else r.(processor := Fetching)
    case Fetch =>
      var m := NextCall(r.buffer);
      r.(processor := if m.None? then Stopping else Handling(m.value))
    case Handle(result) => r.(processor := Pushing(HandleCallMsg(r.processor.m, result)))
    case Push =>
      var answer := r.processor.answer;
      r.(buffer := PushResponse(r.buffer, answer), answers := r.answers + [answer], processor := Checking(answer))
    case Check =>
      var answer := r.processor.answer;
      if answer.None? || r.limit == 0 then r.(processor := AtHead)
      else
        var bytes := r.bytes + ResultBytes(answer);
        r.(bytes := bytes, processor := if bytes > r.limit then OverLimit else AtHead)
    case WriteTooLarge => Fail(r, TOO_LARGE).(processor := Stopping)
    case StopTimer => r.(processor := Writing, timer := if r.timer.Armed? then Off else r.timer)
    case FinalWrite =>
      r.(buffer := Write(r.buffer), processor := Finished,
         outcome := if r.buffer.wrote then r.outcome else ByEnd(|r.answers|))
    case TimerFires => r.(timer := Fired)
    case TimerCancels => r.(timer := Cancelled, cancelled := true)
    case TimerWrites => Fail(r, TIMED_OUT).(timer := Over)
    case ParentCancels => r.(cancelled := true)
  }

  ghost predicate IsRun(r: Race, run: seq<Label>)
    decreases |run|
  {
    run == [] || (Enabled(r, run[0]) && !Panics(r, run[0]) && IsRun(Step(r, run[0]), run[1..]))
  }

  ghost function After(r: Race, run: seq<Label>): Race
    requires IsRun(r, run)
    decreases |run|
  {
    if run == [] then r else After(Step(r, run[0]), run[1..])
  }

  /** What the connection was sent, given how the reply came about. */
  ghost function Reply(msgs: seq<Message>, answers: seq<Option<Message>>, outcome: Outcome): seq<Message>
    requires outcome.Pending? || outcome.k <= |answers| <= |msgs|
  {
    match outcome
    case Pending => []
    case ByError(k, err) => Flatten(answers[..k]) + ErrorReplies(msgs[k..], err)
    case ByEnd(k) => Flatten(answers[..k])
  }

  /** The buffer, by the answers pushed so far and by how the reply came about. */
  ghost predicate BufferInv(msgs: seq<Message>, answers: seq<Option<Message>>, b: Buffer, outcome: Outcome) {
    && AllAnswered(msgs, answers)
    && b.calls == msgs[|answers|..]
    && (b.wrote <==> !outcome.Pending?)
    && (!b.wrote ==> b.resp == Flatten(answers))
    && (b.wrote ==> outcome.k <= |answers|)
    && b.written == (var w := Reply(msgs, answers, outcome); if w == [] then [] else [w])
  }

  lemma BufferPush(msgs: seq<Message>, answers: seq<Option<Message>>, b: Buffer, outcome: Outcome, answer: Option<Message>)
    requires BufferInv(msgs, answers, b, outcome) && b.calls != [] && AnswerFor(b.calls[0], answer)
    ensures BufferInv(msgs, answers + [answer], PushResponse(b, answer), outcome)
  {
    FlattenPush(answers, answer);
    if b.wrote {
      assert (answers + [answer])[..outcome.k] == answers[..outcome.k];
    }
  }

  lemma BufferFail(msgs: seq<Message>, answers: seq<Option<Message>>, b: Buffer, outcome: Outcome, err: RpcError)
    requires BufferInv(msgs, answers, b, outcome)
    ensures BufferInv(msgs, answers, RespondWithError(b, err), if b.wrote then outcome else ByError(|answers|, err))
  {
    assert answers[..|answers|] == answers;
  }

  lemma BufferWrite(msgs: seq<Message>, answers: seq<Option<Message>>, b: Buffer, outcome: Outcome)
    requires BufferInv(msgs, answers, b, outcome)
    ensures BufferInv(msgs, answers, Write(b), if b.wrote then outcome else ByEnd(|answers|))
  {
    assert answers[..|answers|] == answers;
  }

  ghost predicate PastLoop(r: Race) {
    r.processor.Stopping? || r.processor.Writing? || r.processor.Finished?
  }

  ghost predicate ControlInv(r: Race) {
    && (r.processor.Handling? || r.processor.Pushing? ==> r.buffer.calls != [])
    && (r.processor.Handling? ==> r.processor.m == r.buffer.calls[0])
    && (r.processor.Pushing? ==> AnswerFor(r.buffer.calls[0], r.processor.answer))
    && (r.outcome.ByEnd? && !r.sawCancel ==> r.outcome.k == |r.msgs|)
    && (PastLoop(r) && !r.sawCancel && !r.buffer.wrote ==> |r.answers| == |r.msgs|)
    && (r.processor.Finished? ==> r.buffer.wrote)
  }

  ghost predicate Inv(r: Race) {
    BufferInv(r.msgs, r.answers, r.buffer, r.outcome) && ControlInv(r)
  }

  lemma BufferStep(r: Race, l: Label)
    requires Inv(r) && Enabled(r, l)
    ensures !Panics(r, l)
    ensures var r' := Step(r, l); r'.msgs == r.msgs && BufferInv(r.msgs, r'.answers, r'.buffer, r'.outcome)
  {
    match l {
      case Push => BufferPush(r.msgs, r.answers, r.buffer, r.outcome, r.processor.answer);
      case FinalWrite => BufferWrite(r.msgs, r.answers, r.buffer, r.outcome);
      case WriteTooLarge => BufferFail(r.msgs, r.answers, r.buffer, r.outcome, TOO_LARGE);
      case TimerWrites => BufferFail(r.msgs, r.answers, r.buffer, r.outcome, TIMED_OUT);
      case _ =>
    }
  }

  /** Only these facts about the buffer matter for the control flow. */
  lemma ControlStep(r: Race, l: Label)
    requires ControlInv(r) && Enabled(r, l) && !Panics(r, l)
    requires |r.answers| + |r.buffer.calls| == |r.msgs|
    requires r.buffer.wrote <==> !r.outcome.Pending?
    ensures ControlInv(Step(r, l))
  {
  }

  lemma InvStep(r: Race, l: Label)
    requires Inv(r) && Enabled(r, l)
    ensures !Panics(r, l) && Inv(Step(r, l))
  {
    BufferStep(r, l);
    ControlStep(r, l);
  }

  lemma {:induction false} InvRun(r: Race, run: seq<Label>)
    requires Inv(r) && IsRun(r, run)
    ensures Inv(After(r, run))
    decreases |run|
  {
    if run != [] {
      InvStep(r, run[0]);
      InvRun(Step(r, run[0]), run[1..]);
    }
  }

  lemma StartInv(msgs: seq<Message>, limit: int, hasTimeout: bool)
    ensures Inv(Start(msgs, limit, hasTimeout))
  {
    assert msgs[0..] == msgs;
  }

  // ---- theorems --------------------------------------------------------------------------

  /**
   However the goroutines interleave, the batch is written at most once, pushResponse never
   slices an empty list, and until the write the buffer holds the answers of a prefix of the
   calls and the suffix that follows it. What is written is the answers of a prefix, followed
   by an error for each remaining request if an error ended the batch.
   */
  lemma WrittenOnce(msgs: seq<Message>, limit: int, hasTimeout: bool, run: seq<Label>)
    requires IsRun(Start(msgs, limit, hasTimeout), run)
    ensures var r := After(Start(msgs, limit, hasTimeout), run);
            && |r.buffer.written| <= 1
            && (forall l :: Enabled(r, l) ==> !Panics(r, l))
            && |r.answers| <= |r.msgs| && r.buffer.calls == r.msgs[|r.answers|..]
            && (!r.buffer.wrote ==> r.buffer.resp == Flatten(r.answers))
            && (r.outcome.Pending? || r.outcome.k <= |r.answers|)
            && r.buffer.written == (var w := Reply(r.msgs, r.answers, r.outcome); if w == [] then [] else [w])
  {
    StartInv(msgs, limit, hasTimeout);
    InvRun(Start(msgs, limit, hasTimeout), run);
  }

  lemma {:induction false} MsgsKept(r: Race, run: seq<Label>)
    requires IsRun(r, run)
    ensures After(r, run).msgs == r.msgs
    decreases |run|
  {
    if run != [] {
      MsgsKept(Step(r, run[0]), run[1..]);
    }
  }

  /** Of the steps that write what is left, the last step of the processor comes first. */
  ghost predicate EndsFirst(run: seq<Label>) {
    run != [] && (run[0].FinalWrite? || (!run[0].TimerWrites? && EndsFirst(run[1..])))
  }

  /**
   At some point of the run the loop looked at the cancelled context while nothing was
   written and requests remained, and it then wrote before the timer did.
   */
  ghost predicate CutOccurs(r: Race, run: seq<Label>)
    requires IsRun(r, run)
    decreases |run|
  {
    run != [] && (
      || (run[0].LookAtContext? && r.cancelled && !r.buffer.wrote && Requests(r.buffer.calls) != [] && EndsFirst(run[1..]))
      || CutOccurs(Step(r, run[0]), run[1..]))
  }

  /** The last step wrote before all requests were answered. */
  ghost predicate CutShort(r: Race) {
    r.outcome.ByEnd? && r.outcome.k <= |r.msgs| && Requests(r.msgs[r.outcome.k..]) != []
  }

  /** Once the reply is written, or the loop is over, nothing cuts the batch short any more. */
  lemma {:induction false} NoCutLater(r: Race, run: seq<Label>)
    requires IsRun(r, run) && (r.buffer.wrote || PastLoop(r))
    ensures !CutOccurs(r, run)
    ensures r.buffer.wrote ==> After(r, run).outcome == r.outcome
    decreases |run|
  {
    if run != [] {
      NoCutLater(Step(r, run[0]), run[1..]);
    }
  }

  /** After the loop, what is written last is decided by who comes first. */
  lemma {:induction false} EndDecides(r: Race, run: seq<Label>)
    requires IsRun(r, run) && PastLoop(r) && !r.processor.Finished? && !r.buffer.wrote
    requires After(r, run).processor.Finished?
    ensures if EndsFirst(run) then After(r, run).outcome == ByEnd(|r.answers|) else After(r, run).outcome.ByError?
    decreases |run|
  {
    if run != [] {
      var r' := Step(r, run[0]);
      if r'.buffer.wrote {
        NoCutLater(r', run[1..]);
      } else {
        EndDecides(r', run[1..]);
      }
    }
  }

  /** Leaving the loop for a reason other than the context leaves no request unanswered. */
  lemma LoopOver(r: Race, run: seq<Label>)
    requires Inv(r) && IsRun(r, run) && PastLoop(r) && !r.buffer.wrote && !r.sawCancel
    requires After(r, run).processor.Finished?
    ensures !CutShort(After(r, run))
  {
    MsgsKept(r, run);
    EndDecides(r, run);
    assert r.msgs[|r.msgs|..] == [];
  }

  /** Seeing the cancelled context cuts the batch short if a request is left and no error follows. */
  lemma LoopCancelled(r: Race, run: seq<Label>)
    requires Inv(r) && IsRun(r, run) && r.processor.Stopping? && !r.buffer.wrote
    requires After(r, run).processor.Finished?
    ensures CutShort(After(r, run)) <==> Requests(r.buffer.calls) != [] && EndsFirst(run)
  {
    MsgsKept(r, run);
    EndDecides(r, run);
  }

  lemma {:induction false} CutShortIff(r: Race, run: seq<Label>)
    requires Inv(r) && IsRun(r, run) && !PastLoop(r) && !r.buffer.wrote && !r.sawCancel
    requires After(r, run).processor.Finished?
    ensures CutShort(After(r, run)) <==> CutOccurs(r, run)
    decreases |run|
  {
    if run != [] {
      var r' := Step(r, run[0]);
      InvStep(r, run[0]);
      if r'.buffer.wrote {
        NoCutLater(r', run[1..]);
      } else if r'.sawCancel {
        NoCutLater(r', run[1..]);
        LoopCancelled(r', run[1..]);
      } else if PastLoop(r') {
        NoCutLater(r', run[1..]);
        LoopOver(r', run[1..]);
      } else {
        CutShortIff(r', run[1..]);
      }
    }
  }

  /**
   A finished batch has sent one reply per request, in order and with matching ids, unless
   the loop saw the cancelled context before anything was written, with a request left, and
   wrote before the timer did; and exactly in that case it has not.
   */
  lemma CompleteUnlessCut(msgs: seq<Message>, limit: int, hasTimeout: bool, run: seq<Label>)
    requires IsRun(Start(msgs, limit, hasTimeout), run)
    requires After(Start(msgs, limit, hasTimeout), run).processor.Finished?
    ensures var r := After(Start(msgs, limit, hasTimeout), run);
            var reply := if r.buffer.written == [] then [] else r.buffer.written[0];
            Complete(msgs, reply) <==> !CutOccurs(Start(msgs, limit, hasTimeout), run)
  {
    var r := After(Start(msgs, limit, hasTimeout), run);
    StartInv(msgs, limit, hasTimeout);
    InvRun(Start(msgs, limit, hasTimeout), run);
    MsgsKept(Start(msgs, limit, hasTimeout), run);
    CutShortIff(Start(msgs, limit, hasTimeout), run);
    ReplyComplete(msgs, r.answers, r.outcome);
  }

  lemma {:induction false} NoCutWithoutCancel(r: Race, run: seq<Label>)
    requires IsRun(r, run) && !r.cancelled
    requires forall i :: 0 <= i < |run| ==> !run[i].TimerCancels? && !run[i].ParentCancels?
    ensures !CutOccurs(r, run)
    decreases |run|
  {
    if run != [] {
      assert !run[0].TimerCancels? && !run[0].ParentCancels?;
      assert forall i :: 0 <= i < |run| - 1 ==> run[1..][i] == run[i + 1];
      NoCutWithoutCancel(Step(r, run[0]), run[1..]);
    }
  }

  /** In particular a batch that is never cancelled is answered completely. */
  lemma CompleteIfNotCancelled(msgs: seq<Message>, limit: int, hasTimeout: bool, run: seq<Label>)
    requires IsRun(Start(msgs, limit, hasTimeout), run)
    requires After(Start(msgs, limit, hasTimeout), run).processor.Finished?
    requires forall i :: 0 <= i < |run| ==> !run[i].TimerCancels? && !run[i].ParentCancels?
    ensures var written := After(Start(msgs, limit, hasTimeout), run).buffer.written;
            Complete(msgs, if written == [] then [] else written[0])
  {
    NoCutWithoutCancel(Start(msgs, limit, hasTimeout), run);
    CompleteUnlessCut(msgs, limit, hasTimeout, run);
  }

  lemma ReplyComplete(msgs: seq<Message>, answers: seq<Option<Message>>, outcome: Outcome)
    requires AllAnswered(msgs, answers) && !outcome.Pending? && outcome.k <= |answers|
    ensures Complete(msgs, Reply(msgs, answers, outcome)) <==> outcome.ByError? || Requests(msgs[outcome.k..]) == []
  {
    var k := outcome.k;
    assert AllAnswered(msgs, answers[..k]);
    if outcome.ByError? {
      PrefixThenErrors(msgs, answers[..k], outcome.err);
    } else {
      AnswersComplete(msgs, answers[..k]);
      RequestsConcat(msgs[..k], msgs[k..]);
      assert msgs == msgs[..k] + msgs[k..];
    }
  }

  /** A step followed by a run is a run. */
  lemma Prepend(r: Race, l: Label, rest: seq<Label>)
    requires Enabled(r, l) && !Panics(r, l) && IsRun(Step(r, l), rest)
    ensures IsRun(r, [l] + rest) && After(r, [l] + rest) == After(Step(r, l), rest)
  {
    assert ([l] + rest)[1..] == rest;
  }

  /** The exception exists: the timer cancels, and the loop writes before the timer does. */
  lemma CutShortWitness(m: Message)
    requires IsCall(m)
    ensures var run := [TimerFires, TimerCancels, LookAtContext, StopTimer, FinalWrite, TimerWrites];
            && IsRun(Start([m], 0, true), run)
            && After(Start([m], 0, true), run).processor.Finished?
            && After(Start([m], 0, true), run).buffer.written == []
            && !Complete([m], [])
  {
    var r0 := Start([m], 0, true);
    var r2 := Step(Step(r0, TimerFires), TimerCancels);
    var r4 := Step(Step(r2, LookAtContext), StopTimer);
    Prepend(Step(r4, FinalWrite), TimerWrites, []);
    Prepend(r4, FinalWrite, [TimerWrites]);
    Prepend(Step(r2, LookAtContext), StopTimer, [FinalWrite, TimerWrites]);
    Prepend(r2, LookAtContext, [StopTimer, FinalWrite, TimerWrites]);
    Prepend(Step(r0, TimerFires), TimerCancels, [LookAtContext, StopTimer, FinalWrite, TimerWrites]);
    Prepend(r0, TimerFires, [TimerCancels, LookAtContext, StopTimer, FinalWrite, TimerWrites]);
    assert Requests([m]) == [m];
  }
}
