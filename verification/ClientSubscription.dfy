/**
 A client subscription (rpc/subscription.go): the forwarding loop with its bounded queue, the
 dispatcher that feeds it, and the handshake that ends it. The forwarding loop was launched
 once (RepeatedRun shows that more launches break the handshake); any number of goroutines
 may call Unsubscribe.
 */
module ClientSubscription {
  import opened Options

  type Value = string

  datatype SubError = Unsubscribed | ClientQuit | QueueOverflow | BadValue | ConnectionLost(reason: string)

  /** The goroutine executing `run`. */
  datatype Runner =
    | Forwarding
    | Leaving(unsubscribe: bool, err: Option<SubError>)      // forward has returned
    | Requesting(err: Option<SubError>)                      // forwardDone closed, unsubscribing on the server
    | Reporting(err: Option<SubError>)                       // about to send the error
    | Exiting                                                // about to close unsubDone
    | Exited

  /** The client's dispatch goroutine, as far as this subscription is concerned. */
  datatype Dispatcher = Free | Delivering(raw: Option<Value>) | Closing(err: SubError)

  /** The first Unsubscribe call; the others wait for it (sync.Once). */
  datatype Once = NotStarted | Selecting | AwaitingDone | ClosingErr | Complete

  datatype Fault = CloseOfClosed | SendOnClosed

  datatype Sub = Sub(
    runner: Runner,
    dispatcher: Dispatcher,
    once: Once,
    returned: nat,                 // Unsubscribe calls that have returned
    queue: seq<Value>,
    forwardDone: bool,
    unsubDone: bool,
    errClosed: bool,
    errBuffer: seq<Option<SubError>>,      // a nil error is None
    accepted: seq<Value>,          // history: decoded values taken from `in`
    delivered: seq<Value>,         // history: values sent on the user's channel
    reported: seq<Option<SubError>>,       // history: values sent on `err`
    cause: Option<SubError>,       // history: why forward returned
    asked: bool,                   // history: the server was asked to unsubscribe
    faults: set<Fault>)

  const MAX_BUFFER := 20000
  const ERR_CAPACITY := 1

  function Start(): Sub {
    Sub(Forwarding, Free, NotStarted, 0, [], false, false, false, [], [], [], [], None, false, {})
  }

  datatype Label =
    | Deliver(raw: Option<Value>)  // dispatch calls deliver; None does not decode
    | CloseSub(err: SubError)      // dispatch calls close
    | TakeIn | TakeQuitFromDispatch | DispatchUnblocked
    | SendToUser
    | CloseForwardDone | ServerUnsubscribed | Report | CloseUnsubDone
    | BeginUnsubscribe | TakeQuitFromUnsubscribe | SeesUnsubDone | CloseErr | UnsubscribeReturns
    | ReadErr

  predicate Enabled(s: Sub, l: Label) {
    match l
    case Deliver(_) => s.dispatcher.Free?
    case CloseSub(e) => s.dispatcher.Free? && (e.ClientQuit? || e.ConnectionLost?)
    case TakeIn => s.runner.Forwarding? && s.dispatcher.Delivering?
    case TakeQuitFromDispatch => s.runner.Forwarding? && s.dispatcher.Closing?
    case DispatchUnblocked => !s.dispatcher.Free? && s.forwardDone
    case SendToUser => s.runner.Forwarding? && s.queue != []
    case CloseForwardDone => s.runner.Leaving?
    case ServerUnsubscribed => s.runner.Requesting?
    case Report => s.runner.Reporting? && (s.runner.err.Some? ==> |s.errBuffer| < ERR_CAPACITY)
    case CloseUnsubDone => s.runner.Exiting?
    case BeginUnsubscribe => s.once.NotStarted?
    case TakeQuitFromUnsubscribe => s.runner.Forwarding? && s.once.Selecting?
    case SeesUnsubDone => (s.once.Selecting? || s.once.AwaitingDone?) && s.unsubDone
    case CloseErr => s.once.ClosingErr?
    case UnsubscribeReturns => s.once.Complete?
    case ReadErr => s.errBuffer != []
  }

  /** forward receives `raw` from the in channel. */
  function Accept(s: Sub, raw: Option<Value>): Sub {
    if raw.None? then s.(runner := Leaving(true, Some(BadValue)), cause := Some(BadValue))
    else if |s.queue| == MAX_BUFFER then s.(runner := Leaving(true, Some(QueueOverflow)), cause := Some(QueueOverflow))
    else s.(queue := s.queue + [raw.value], accepted := s.accepted + [raw.value])
  }

  /** forward receives `err` from the quit channel. */
  function Leave(err: SubError): Runner {
    if err.Unsubscribed? then Leaving(true, None) else Leaving(false, Some(err))
  }

  /** ErrClientQuit is reported as a nil error. */
  function Shown(err: SubError): Option<SubError> {
    if err.ClientQuit? then None else Some(err)
  }

  function CloseChannel(s: Sub, alreadyClosed: bool): Sub {
    if alreadyClosed then s.(faults := s.faults + {CloseOfClosed}) else s
  }

  function Step(s: Sub, l: Label): Sub
    requires Enabled(s, l)
  {
    match l
    case Deliver(raw) => s.(dispatcher := Delivering(raw))
    case CloseSub(e) => s.(dispatcher := Closing(e))
    case TakeIn => Accept(s.(dispatcher := Free), s.dispatcher.raw)
    case TakeQuitFromDispatch => s.(dispatcher := Free, runner := Leave(s.dispatcher.err), cause := Some(s.dispatcher.err))
    case DispatchUnblocked => s.(dispatcher := Free)
    case SendToUser => s.(delivered := s.delivered + [s.queue[0]], queue := s.queue[1..])
    case CloseForwardDone =>
      CloseChannel(s, s.forwardDone).(forwardDone := true,
        runner := if s.runner.unsubscribe then Requesting(s.runner.err) else Reporting(s.runner.err))
    case ServerUnsubscribed => s.(runner := Reporting(s.runner.err), asked := true)
    case Report =>
      if s.runner.err.None? then s.(runner := Exiting)
      else
        var e := Shown(s.runner.err.value);
        s.(runner := Exiting, errBuffer := s.errBuffer + [e], reported := s.reported + [e],
           faults := if s.errClosed then s.faults + {SendOnClosed} else s.faults)
    case CloseUnsubDone => CloseChannel(s, s.unsubDone).(unsubDone := true, runner := Exited)
    case BeginUnsubscribe => s.(once := Selecting)
    case TakeQuitFromUnsubscribe => s.(once := AwaitingDone, runner := Leave(Unsubscribed), cause := Some(Unsubscribed))
    case SeesUnsubDone => s.(once := ClosingErr)
    case CloseErr => CloseChannel(s, s.errClosed).(errClosed := true, once := Complete)
    case UnsubscribeReturns => s.(returned := s.returned + 1)
    case ReadErr => s.(errBuffer := s.errBuffer[1..])
  }

  ghost predicate IsRun(s: Sub, run: seq<Label>)
    decreases |run|
  {
    run == [] || (Enabled(s, run[0]) && IsRun(Step(s, run[0]), run[1..]))
  }

  ghost function After(s: Sub, run: seq<Label>): Sub
    requires IsRun(s, run)
    decreases |run|
  {
    if run == [] then s else After(Step(s, run[0]), run[1..])
  }

  // ---- invariant ---------------------------------------------------------------------------

  /** The error that the runner carries, if it has left the forwarding loop. */
  ghost predicate Carries(r: Runner, e: SubError) {
    match r
    case Leaving(_, err) => err == Some(e)
    case Requesting(err) => err == Some(e)
    case Reporting(err) => err == Some(e)
    case _ => false
  }

  ghost predicate QueueInv(s: Sub) {
    && s.delivered + s.queue == s.accepted
    && |s.queue| <= MAX_BUFFER
    && (Carries(s.runner, QueueOverflow) || Some(QueueOverflow) in s.reported ==> |s.queue| == MAX_BUFFER)
  }

  ghost predicate ShutdownInv(s: Sub) {
    && s.faults == {}
    && (s.dispatcher.Closing? ==> s.dispatcher.err.ClientQuit? || s.dispatcher.err.ConnectionLost?)
    && (s.forwardDone <==> !s.runner.Forwarding? && !s.runner.Leaving?)
    && (s.unsubDone <==> s.runner.Exited?)
    && (s.errClosed <==> s.once.Complete?)
    && (s.once.ClosingErr? || s.once.Complete? ==> s.unsubDone)
    && (s.once.AwaitingDone? ==> !s.runner.Forwarding?)
    && (s.returned > 0 ==> s.once.Complete?)
    && |s.reported| <= 1
    && (!s.runner.Exiting? && !s.runner.Exited? ==> s.reported == [])
    && |s.errBuffer| <= |s.reported|
  }

  /** The reason for which forward returned decides what else happens. */
  predicate AsksServer(cause: SubError) {
    cause.Unsubscribed? || cause.BadValue? || cause.QueueOverflow?
  }

  function ErrorFor(cause: SubError): Option<SubError> {
    if cause.Unsubscribed? then None else Some(cause)
  }

  ghost predicate CauseInv(s: Sub) {
    match s.runner
    case Forwarding => s.cause.None? && !s.asked
    case Leaving(unsubscribe, err) =>
      s.cause.Some? && !s.asked && unsubscribe == AsksServer(s.cause.value) && err == ErrorFor(s.cause.value)
    case Requesting(err) => s.cause.Some? && !s.asked && AsksServer(s.cause.value) && err == ErrorFor(s.cause.value)
    case Reporting(err) => s.cause.Some? && s.asked == AsksServer(s.cause.value) && err == ErrorFor(s.cause.value)
    case _ =>
      && s.cause.Some? && s.asked == AsksServer(s.cause.value)
      && s.reported == (if s.cause.value.Unsubscribed? then [] else [Shown(s.cause.value)])
  }

  ghost predicate Inv(s: Sub) {
    QueueInv(s) && ShutdownInv(s) && CauseInv(s)
  }

  lemma CauseStep(s: Sub, l: Label)
    requires ShutdownInv(s) && CauseInv(s) && Enabled(s, l)
    ensures CauseInv(Step(s, l))
  {
  }

  lemma ShutdownStep(s: Sub, l: Label)
    requires ShutdownInv(s) && Enabled(s, l)
    ensures ShutdownInv(Step(s, l))
  {
  }

  lemma QueueStep(s: Sub, l: Label)
    requires QueueInv(s) && ShutdownInv(s) && Enabled(s, l)
    ensures QueueInv(Step(s, l))
  {
  }

  lemma InvStep(s: Sub, l: Label)
    requires Inv(s) && Enabled(s, l)
    ensures Inv(Step(s, l))
  {
    QueueStep(s, l);
    ShutdownStep(s, l);
    CauseStep(s, l);
  }

  lemma {:induction false} InvRun(s: Sub, run: seq<Label>)
    requires Inv(s) && IsRun(s, run)
    ensures Inv(After(s, run))
    decreases |run|
  {
    if run != [] {
      InvStep(s, run[0]);
      InvRun(Step(s, run[0]), run[1..]);
    }
  }

  // ---- the forwarding loop itself ------------------------------------------------------------

  /** What the select statement of forward chose in one iteration. */
  datatype Choice = Quit(err: Option<SubError>) | In(raw: Option<Value>) | Sent

  /** The values that decode, in order. */
  ghost function Decoded(choices: seq<Choice>): seq<Value> {
    if choices == [] then []
    else
      var c := choices[|choices| - 1];
      Decoded(choices[..|choices| - 1]) + (if c.In? && c.raw.Some? then [c.raw.value] else [])
  }

  /** How many values were sent: every send, as long as a decoded value was left to send. */
  ghost function Sends(choices: seq<Choice>): nat {
    if choices == [] then 0
    else
      var front := choices[..|choices| - 1];
      Sends(front) + if choices[|choices| - 1].Sent? && Sends(front) < |Decoded(front)| then 1 else 0
  }

  /** Choice `j` does not end forward: a send, or a value that decodes and finds room. */
  ghost predicate GoesOn(choices: seq<Choice>, j: nat)
    requires j < |choices|
  {
    match choices[j]
    case Quit(_) => false
    case In(raw) => raw.Some? && |Decoded(choices[..j])| - Sends(choices[..j]) < 20000
    case Sent => true
  }

  /** The choice that ended forward, the length of its queue then, and what it returned. */
  ghost predicate EndsWith(c: Choice, queued: nat, exit: (bool, Option<SubError>)) {
    match c
    case Quit(err) => exit == (if err == Some(Unsubscribed) then (true, None) else (false, err))
    case In(raw) => if raw.None? then exit == (true, Some(BadValue)) else exit == (true, Some(QueueOverflow)) && queued == MAX_BUFFER
    case Sent => false
  }

  /**
   forward, driven by the choices of its select statement. The send case is only offered
   while the queue is not empty, so `Sent` has no effect on an empty queue. `exit` is the
   pair that forward returns, if one of the choices ended it.
   */
  method Forward(choices: seq<Choice>) returns (delivered: seq<Value>, queue: seq<Value>, n: nat, exit: Option<(bool, Option<SubError>)>)
    ensures n <= |choices| && |queue| <= MAX_BUFFER
    ensures Sends(choices[..n]) <= |Decoded(choices[..n])|
    ensures delivered == Decoded(choices[..n])[..Sends(choices[..n])]
    ensures queue == Decoded(choices[..n])[Sends(choices[..n])..]
    ensures forall j :: 0 <= j < n ==> GoesOn(choices, j)
    ensures exit.None? ==> n == |choices|
    ensures exit.Some? ==> n < |choices| && EndsWith(choices[n], |queue|, exit.value)
  {
    delivered, queue, n, exit := [], [], 0, None;
    while n < |choices|
      invariant n <= |choices| && |queue| <= MAX_BUFFER
      invariant delivered + queue == Decoded(choices[..n]) && |delivered| == Sends(choices[..n])
      invariant forall j :: 0 <= j < n ==> GoesOn(choices, j)
    {
      assert choices[..n + 1][..n] == choices[..n];
      match choices[n] {
        case Quit(err) =>
          return delivered, queue, n, Some(if err == Some(Unsubscribed) then (true, None) else (false, err));
        case In(raw) =>
          if raw.None? {
            return delivered, queue, n, Some((true, Some(BadValue)));
          }
          if |queue| == MAX_BUFFER {
            return delivered, queue, n, Some((true, Some(QueueOverflow)));
          }
          queue := queue + [raw.value];
        case Sent =>
          if |queue| > 0 {
            delivered, queue := delivered + [queue[0]], queue[1..];
          }
      }
      n := n + 1;
    }
  }

  // ---- theorems ----------------------------------------------------------------------------

  /**
   At every moment the values sent to the user followed by the queue are the values accepted
   so far, in order; the queue never exceeds its bound, and an overflow is reported only when
   exactly that many accepted values are undelivered.
   */
  lemma QueueIsFifo(run: seq<Label>)
    requires IsRun(Start(), run)
    ensures var s := After(Start(), run);
            && s.delivered <= s.accepted
            && s.queue == s.accepted[|s.delivered|..]
            && |s.queue| <= MAX_BUFFER
            && (Some(QueueOverflow) in s.reported ==> |s.accepted| - |s.delivered| == MAX_BUFFER)
  {
    InvRun(Start(), run);
  }

  /**
   No channel of the handshake is closed twice, the error channel carries at most one value
   and is never sent to after it was closed, and that send never blocks.
   */
  lemma ShutdownIsSafe(run: seq<Label>)
    requires IsRun(Start(), run)
    ensures var s := After(Start(), run);
            && s.faults == {} && |s.reported| <= 1
            && (s.runner.Reporting? ==> Enabled(s, Report))
            && (s.errClosed ==> s.unsubDone && s.forwardDone)
  {
    InvRun(Start(), run);
  }

  /**
   What a finished subscription has done is decided by why its loop ended: an Unsubscribe
   reports nothing, a closed client reports a nil error, anything else its error; and the
   server is asked to unsubscribe unless the connection is gone.
   */
  lemma OutcomeByCause(run: seq<Label>)
    requires IsRun(Start(), run) && After(Start(), run).unsubDone
    ensures var s := After(Start(), run);
            && s.cause.Some?
            && s.reported == (match s.cause.value
                              case Unsubscribed => []
                              case ClientQuit => [None]
                              case e => [Some(e)])
            && (s.asked <==> !s.cause.value.ClientQuit? && !s.cause.value.ConnectionLost?)
  {
    InvRun(Start(), run);
  }

  /** Steps that neither the user nor the server has to take part in. */
  predicate Internal(l: Label) {
    l.TakeIn? || l.TakeQuitFromDispatch? || l.DispatchUnblocked? || l.CloseForwardDone?
  }

  /**
   The dispatcher is never stuck in deliver or close: whatever the user does, at most two
   steps of the forwarding goroutine and the dispatcher itself set it free.
   */
  lemma DispatcherNeverStuck(run: seq<Label>) returns (escape: seq<Label>)
    requires IsRun(Start(), run) && !After(Start(), run).dispatcher.Free?
    ensures |escape| <= 2 && (forall l :: l in escape ==> Internal(l))
    ensures IsRun(After(Start(), run), escape)
    ensures After(After(Start(), run), escape).dispatcher.Free?
  {
    InvRun(Start(), run);
    var s := After(Start(), run);
    if s.runner.Forwarding? {
      escape := [if s.dispatcher.Delivering? then TakeIn else TakeQuitFromDispatch];
    } else if s.runner.Leaving? {
      escape := [CloseForwardDone, DispatchUnblocked];
      assert escape[1..] == [DispatchUnblocked];
    } else {
      escape := [DispatchUnblocked];
    }
  }

  /** Once any Unsubscribe call has returned, nothing more reaches the user's channels. */
  lemma {:induction false} SilenceAfterUnsubscribe(s: Sub, run: seq<Label>)
    requires Inv(s) && IsRun(s, run) && s.returned > 0
    ensures var s' := After(s, run);
            s'.delivered == s.delivered && s'.reported == s.reported && s'.errClosed
    decreases |run|
  {
    if run != [] {
      InvStep(s, run[0]);
      SilenceAfterUnsubscribe(Step(s, run[0]), run[1..]);
    }
  }

  /** How far the handshake still has to go. */
  ghost function Remaining(s: Sub): nat {
    (match s.runner
     case Forwarding => 5
     case Leaving(_, _) => 4
     case Requesting(_) => 3
     case Reporting(_) => 2
     case Exiting => 1
     case Exited => 0)
    + (match s.once
       case NotStarted => 4
       case Selecting => 3
       case AwaitingDone => 2
       case ClosingErr => 1
       case Complete => 0)
  }

  /**
   The next step of the handshake, which does not need the user's channel. Only the request to
   unsubscribe on the server goes through the dispatcher, and it ends by its own timeout.
   */
  function NextOfHandshake(s: Sub): Label {
    match s.runner
    case Leaving(_, _) => CloseForwardDone
    case Requesting(_) => ServerUnsubscribed
    case Reporting(_) => Report
    case Exiting => CloseUnsubDone
    case Forwarding => TakeQuitFromUnsubscribe
    case Exited => if s.once.ClosingErr? then CloseErr else SeesUnsubDone
  }

  /** An Unsubscribe call that has begun can always complete, in at most eight steps. */
  lemma {:induction false} UnsubscribeCanFinish(s: Sub) returns (rest: seq<Label>)
    requires Inv(s) && !s.once.NotStarted?
    ensures IsRun(s, rest) && |rest| <= 8 && After(s, rest).once.Complete?
    ensures |rest| <= Remaining(s)
    decreases Remaining(s)
  {
    if s.once.Complete? {
      rest := [];
    } else {
      var l := NextOfHandshake(s);
      assert Enabled(s, l);
      InvStep(s, l);
      var tail := UnsubscribeCanFinish(Step(s, l));
      rest := [l] + tail;
      assert rest[1..] == tail;
    }
  }
}
