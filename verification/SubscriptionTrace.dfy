/**
 A client subscription by the steps of its run: which values the user gets, why the loop ends,
 and what happens to the channels (rpc/subscription.go). Nothing here looks at the queue.
 */
module SubscriptionTrace {
  import opened Options
  import opened ClientSubscription

  // ---- values ----------------------------------------------------------------------------

  /** What the dispatcher offers, the values taken, the number of sends, and why the loop ended. */
  datatype Ledger = Ledger(offer: Dispatcher, accepted: seq<Value>, sends: nat, cause: Option<SubError>)

  const BLANK := Ledger(Free, [], 0, None)

  /** A value that does not decode, or one for which there is no room, ends the loop. */
  function Take(c: Ledger): Ledger
    requires c.offer.Delivering?
  {
    var free := c.(offer := Free);
    if c.offer.raw.None? then free.(cause := Some(BadValue))
    else if |c.accepted| - c.sends >= 20000 then free.(cause := Some(QueueOverflow))
    else free.(accepted := c.accepted + [c.offer.raw.value])
  }

  function Note(c: Ledger, l: Label): Ledger {
    match l
    case Deliver(raw) => c.(offer := Delivering(raw))
    case CloseSub(err) => c.(offer := Closing(err))
    case TakeIn => if c.offer.Delivering? then Take(c) else c
    case TakeQuitFromDispatch => if c.offer.Closing? then c.(offer := Free, cause := Some(c.offer.err)) else c
    case TakeQuitFromUnsubscribe => c.(cause := Some(Unsubscribed))
    case DispatchUnblocked => c.(offer := Free)
    case SendToUser => c.(sends := c.sends + 1)
    case _ => c
  }

  ghost function Noted(c: Ledger, run: seq<Label>): Ledger
    decreases |run|
  {
    if run == [] then c else Noted(Note(c, run[0]), run[1..])
  }

  ghost predicate ValuesTraced(s: Sub, c: Ledger) {
    s.dispatcher == c.offer && s.accepted == c.accepted && s.cause == c.cause && |s.delivered| == c.sends
  }

  lemma ValuesStep(s: Sub, c: Ledger, l: Label)
    requires QueueInv(s) && ValuesTraced(s, c) && Enabled(s, l)
    ensures ValuesTraced(Step(s, l), Note(c, l))
  {
    assert |s.queue| == |s.accepted| - |s.delivered|;
  }

  lemma {:induction false} ValuesRun(s: Sub, c: Ledger, run: seq<Label>)
    requires Inv(s) && ValuesTraced(s, c) && IsRun(s, run)
    ensures ValuesTraced(After(s, run), Noted(c, run))
    decreases |run|
  {
    if run != [] {
      ValuesStep(s, c, run[0]);
      InvStep(s, run[0]);
      ValuesRun(Step(s, run[0]), Note(c, run[0]), run[1..]);
    }
  }

  /**
   The user gets one accepted value, in order, for every send; the loop ends for the reason
   that the steps of the run give, and not otherwise.
   */
  lemma DeliveredBySends(run: seq<Label>)
    requires IsRun(Start(), run)
    ensures var s, c := After(Start(), run), Noted(BLANK, run);
            && c.sends <= |c.accepted| <= c.sends + 20000
            && s.delivered == c.accepted[..c.sends] && s.queue == c.accepted[c.sends..]
            && s.cause == c.cause && (s.runner.Forwarding? <==> c.cause.None?)
  {
    InvRun(Start(), run);
    ValuesRun(Start(), BLANK, run);
  }

  /** While the loop runs, sending empties the queue: everything accepted reaches the user. */
  lemma {:induction false} QueueDrains(s: Sub) returns (rest: seq<Label>)
    requires Inv(s) && s.runner.Forwarding?
    ensures IsRun(s, rest) && |rest| == |s.queue|
    ensures After(s, rest).delivered == s.accepted && After(s, rest).queue == [] && After(s, rest).runner.Forwarding?
    decreases |s.queue|
  {
    if s.queue == [] {
      rest := [];
    } else {
      InvStep(s, SendToUser);
      var tail := QueueDrains(Step(s, SendToUser));
      rest := [SendToUser] + tail;
      assert rest[1..] == tail;
    }
  }

  // ---- channels --------------------------------------------------------------------------

  /** How often the steps of the handshake were taken. */
  datatype Tally = Tally(forwardDone: nat, unsubDone: nat, errClosed: nat, reports: nat, asked: nat, returned: nat, received: nat)

  const ZERO := Tally(0, 0, 0, 0, 0, 0, 0)

  function Tick(c: Tally, l: Label): Tally {
    match l
    case CloseForwardDone => c.(forwardDone := c.forwardDone + 1)
    case CloseUnsubDone => c.(unsubDone := c.unsubDone + 1)
    case CloseErr => c.(errClosed := c.errClosed + 1)
    case Report => c.(reports := c.reports + 1)
    case ServerUnsubscribed => c.(asked := c.asked + 1)
    case UnsubscribeReturns => c.(returned := c.returned + 1)
    case ReadErr => c.(received := c.received + 1)
    case _ => c
  }

  ghost function Ticked(c: Tally, run: seq<Label>): Tally
    decreases |run|
  {
    if run == [] then c else Ticked(Tick(c, run[0]), run[1..])
  }

  ghost predicate StepsTraced(s: Sub, c: Tally) {
    && c.forwardDone == (if s.forwardDone then 1 else 0)
    && c.unsubDone == (if s.unsubDone then 1 else 0)
    && c.errClosed == (if s.errClosed then 1 else 0)
    && c.reports == (if s.runner.Exiting? || s.runner.Exited? then 1 else 0)
    && (s.asked <==> c.asked > 0)
    && s.returned == c.returned
  }

  /** What was reported and not yet read is in the error channel. */
  ghost predicate ErrorsTraced(s: Sub, c: Tally) {
    c.received <= |s.reported| && s.errBuffer == s.reported[c.received..]
  }

  ghost predicate ChannelsTraced(s: Sub, c: Tally) {
    StepsTraced(s, c) && ErrorsTraced(s, c)
  }

  lemma ErrorsStep(s: Sub, c: Tally, l: Label)
    requires ErrorsTraced(s, c) && Enabled(s, l)
    ensures ErrorsTraced(Step(s, l), Tick(c, l))
  {
    if !l.Report? && !l.ReadErr? {
      assert Step(s, l).errBuffer == s.errBuffer && Step(s, l).reported == s.reported;
    }
  }

  lemma StepsStep(s: Sub, c: Tally, l: Label)
    requires ShutdownInv(s) && StepsTraced(s, c) && Enabled(s, l)
    ensures StepsTraced(Step(s, l), Tick(c, l))
  {
  }

  lemma {:induction false} ChannelsRun(s: Sub, c: Tally, run: seq<Label>)
    requires ShutdownInv(s) && ChannelsTraced(s, c) && IsRun(s, run)
    ensures ShutdownInv(After(s, run)) && ChannelsTraced(After(s, run), Ticked(c, run))
    decreases |run|
  {
    if run != [] {
      StepsStep(s, c, run[0]);
      ErrorsStep(s, c, run[0]);
      ShutdownStep(s, run[0]);
      ChannelsRun(Step(s, run[0]), Tick(c, run[0]), run[1..]);
    }
  }

  /**
   Every channel is closed by its own step, at most once; the error is sent at most once and
   not after the channel was closed; what the user can still read is what was reported and
   not yet read; the server was asked exactly if that step was taken.
   */
  lemma ChannelsBySteps(run: seq<Label>)
    requires IsRun(Start(), run)
    ensures var s, c := After(Start(), run), Ticked(ZERO, run);
            && ChannelsTraced(s, c)
            && c.forwardDone <= 1 && c.unsubDone <= 1 && c.errClosed <= 1 && c.reports <= 1
            && (Enabled(s, Report) ==> c.errClosed == 0)
            && (s.reported != [] ==> c.reports == 1)
  {
    ChannelsRun(Start(), ZERO, run);
  }

  /** The user can always begin to unsubscribe, return when that is done, and read a reported error. */
  lemma UserIsServed(run: seq<Label>)
    requires IsRun(Start(), run)
    ensures var s, c := After(Start(), run), Ticked(ZERO, run);
            && (s.once.NotStarted? ==> Enabled(s, BeginUnsubscribe) && Step(s, BeginUnsubscribe).once.Selecting?)
            && (c.errClosed > 0 ==> Enabled(s, UnsubscribeReturns))
            && (|s.reported| > c.received ==> Enabled(s, ReadErr) && s.errBuffer[0] == s.reported[c.received])
  {
    ChannelsRun(Start(), ZERO, run);
  }
}
