/**
 Notifications by the steps of a run (rpc/subscription.go, rpc/handler.go): what reaches the
 connection if no write fails, and when subscriptions can be created.
 */
module NotificationTrace {
  import opened Notifications
  import opened NotificationOrder

  // ---- the notified data -------------------------------------------------------------------

  /** The data passed to Notify for notifier `n`, in order. */
  ghost function DataFor(run: seq<Label>, n: nat): seq<Data> {
    if run == [] then []
    else DataOf(run[0], n) + DataFor(run[1..], n)
  }

  ghost function DataOf(l: Label, n: nat): seq<Data> {
    if l.Notify? && l.n == n then [l.data] else []
  }

  ghost function NotifiedOf(s: Server, n: nat): seq<Data> {
    if n < |s.notified| then s.notified[n] else []
  }

  lemma NotifiedStep(s: Server, l: Label, n: nat)
    requires |s.notified| == |s.notifiers| && Enabled(s, l)
    ensures NotifiedOf(Step(s, l), n) == NotifiedOf(s, n) + DataOf(l, n)
  {
  }

  lemma {:induction false} NotifiedByLabels(s: Server, run: seq<Label>, n: nat)
    requires IsRun(s, run)
    ensures NotifiedOf(After(s, run), n) == NotifiedOf(s, n) + DataFor(run, n)
    decreases |run|
  {
    if run != [] {
      NotifiedStep(s, run[0], n);
      NotifiedByLabels(Step(s, run[0]), run[1..], n);
    }
  }

  /** The step is a write of an event that fails. */
  predicate FailsToWrite(l: Label) {
    (l.Notify? || l.SendBuffered?) && !l.ok
  }

  lemma {:induction false} NoneFailed(s: Server, run: seq<Label>)
    requires IsRun(s, run) && forall l :: l in run ==> !FailsToWrite(l)
    ensures After(s, run).failed == s.failed
    decreases |run|
  {
    if run != [] {
      assert run[0] in run && run == [run[0]] + run[1..];
      NoneFailed(Step(s, run[0]), run[1..]);
    }
  }

  /**
   If no write fails, exactly the data passed to Notify is written for every notifier, in
   order: all of it once the call has ended, or as soon as the notifier is active.
   */
  lemma WrittenIsNotified(owed: bool, single: bool, run: seq<Label>, n: nat)
    requires IsRun(Start(owed, single), run) && n < |After(Start(owed, single), run).notifiers|
    requires forall l :: l in run ==> !FailsToWrite(l)
    ensures var s := After(Start(owed, single), run);
            && (s.phase.Ended? || s.notifiers[n].activated ==> EventsOf(s.log, n) == DataFor(run, n))
            && EventsOf(s.log, n) <= DataFor(run, n)
  {
    InvRun(Start(owed, single), run);
    NotifiedByLabels(Start(owed, single), run, n);
    NoneFailed(Start(owed, single), run);
    NotifiedIsWritten(owed, single, run, n);
    assert [] + DataFor(run, n) == DataFor(run, n);
  }

  /** A notifier whose turn to be activated is over without success. */
  ghost predicate GivenUp(s: Server, n: nat) {
    n < |s.notifiers| && !s.notifiers[n].activated && (s.phase.Ended? || (s.phase.Activating? && s.phase.i > n))
  }

  lemma GivenUpStep(s: Server, l: Label, n: nat)
    requires |s.notified| == |s.notifiers| && GivenUp(s, n) && Enabled(s, l)
    ensures GivenUp(Step(s, l), n) && EventsOf(Step(s, l).log, n) == EventsOf(s.log, n)
  {
    match l
    case Notify(m, data, ok) =>
      if m != n {
        LoggedOther(s.log, Event(m, data), ok, n);
      }
    case SendBuffered(ok) => LoggedOther(s.log, Event(s.phase.i, s.notifiers[s.phase.i].buffer[s.phase.sent]), ok, n);
    case TimerReplies(ok) => LoggedOther(s.log, Reply, ok, n);
    case _ =>
  }

  lemma {:induction false} GivenUpRun(s: Server, run: seq<Label>, n: nat)
    requires GivenUp(s, n) && IsRun(s, run)
    ensures GivenUp(After(s, run), n) && EventsOf(After(s, run).log, n) == EventsOf(s.log, n)
    decreases |run|
  {
    if run != [] {
      GivenUpStep(s, run[0], n);
      GivenUpRun(Step(s, run[0]), run[1..], n);
    }
  }

  /** A write that fails during activation is the last one: the notifier never becomes active. */
  lemma FailedActivation(s: Server, run: seq<Label>)
    requires Inv(s) && Enabled(s, SendBuffered(false)) && IsRun(Step(s, SendBuffered(false)), run)
    ensures var n, s' := s.phase.i, After(Step(s, SendBuffered(false)), run);
            n < |s'.notifiers| && !s'.notifiers[n].activated && EventsOf(s'.log, n) == EventsOf(s.log, n)
  {
    assert NotifierInv(s, s.phase.i);
    GivenUpRun(Step(s, SendBuffered(false)), run, s.phase.i);
  }

  // ---- the reply ---------------------------------------------------------------------------

  predicate FailsToReply(l: Label) {
    (l.WriteReply? || l.TimerReplies?) && !l.ok
  }

  ghost predicate ReplyLogged(s: Server) {
    s.owed && s.replied ==> s.log != [] && s.log[0] == Reply
  }

  lemma ReplyLoggedStep(s: Server, l: Label)
    requires Inv(s) && ReplyLogged(s) && Enabled(s, l) && !FailsToReply(l)
    ensures ReplyLogged(Step(s, l))
  {
    if s.owed && !s.replied {
      NothingBeforeReply(s);
    }
  }

  lemma {:induction false} ReplyLoggedRun(s: Server, run: seq<Label>)
    requires Inv(s) && ReplyLogged(s) && IsRun(s, run) && forall l :: l in run ==> !FailsToReply(l)
    ensures Inv(After(s, run)) && ReplyLogged(After(s, run)) && After(s, run).owed == s.owed
    decreases |run|
  {
    if run != [] {
      assert run[0] in run && run == [run[0]] + run[1..];
      ReplyLoggedStep(s, run[0]);
      InvStep(s, run[0]);
      ReplyLoggedRun(Step(s, run[0]), run[1..]);
    }
  }

  /**
   A reply that is owed, and whose write does not fail, is on the connection before the
   notifiers are activated; so it precedes every notification.
   */
  lemma OwedIsReplied(single: bool, run: seq<Label>)
    requires IsRun(Start(true, single), run) && forall l :: l in run ==> !FailsToReply(l)
    ensures var s := After(Start(true, single), run);
            && (s.phase.Activating? || s.phase.Ended? ==> s.log != [] && s.log[0] == Reply)
            && (forall i :: 0 <= i < |s.log| && s.log[i].Event? ==> s.log[0] == Reply)
  {
    ReplyLoggedRun(Start(true, single), run);
  }

  // ---- creation of subscriptions and the timer ---------------------------------------------

  ghost predicate CreatedAt(s: Server, n: nat) {
    n < |s.notifiers| && s.notifiers[n].created
  }

  lemma CreatedStep(s: Server, l: Label, n: nat)
    requires |s.notified| == |s.notifiers| && Enabled(s, l)
    ensures CreatedAt(Step(s, l), n) <==> CreatedAt(s, n) || l == Create(n)
  {
  }

  lemma {:induction false} CreatedByLabels(s: Server, run: seq<Label>, n: nat)
    requires IsRun(s, run)
    ensures CreatedAt(After(s, run), n) <==> CreatedAt(s, n) || Create(n) in run
    decreases |run|
  {
    if run != [] {
      CreatedStep(s, run[0], n);
      CreatedByLabels(Step(s, run[0]), run[1..], n);
      assert run == [run[0]] + run[1..];
    }
  }

  /** The subscription of notifier `n` has been taken. */
  ghost predicate IsTaken(phase: Phase, n: nat) {
    match phase
    case Calling => false
    case Taking(i) => n < i
    case _ => true
  }

  ghost predicate TakenInv(s: Server) {
    && (s.phase.Taking? ==> s.phase.i <= |s.notifiers|)
    && forall n :: 0 <= n < |s.notifiers| ==> (s.notifiers[n].callReturned <==> IsTaken(s.phase, n))
  }

  lemma TakenStep(s: Server, l: Label)
    requires |s.notified| == |s.notifiers| && TakenInv(s) && Enabled(s, l)
    ensures TakenInv(Step(s, l))
  {
  }

  lemma {:induction false} TakenRun(s: Server, run: seq<Label>)
    requires TakenInv(s) && IsRun(s, run)
    ensures TakenInv(After(s, run))
    decreases |run|
  {
    if run != [] {
      TakenStep(s, run[0]);
      TakenRun(Step(s, run[0]), run[1..]);
    }
  }

  /** One subscription per notifier, created before it is taken; only then can it be notified. */
  lemma CreatedOnce(owed: bool, single: bool, run: seq<Label>, n: nat)
    requires IsRun(Start(owed, single), run)
    ensures var s := After(Start(owed, single), run);
            && (Enabled(s, Create(n)) ==> Create(n) !in run && !IsTaken(s.phase, n))
            && (forall data, ok :: Enabled(s, Notify(n, data, ok)) ==> Create(n) in run)
            && (n < |s.notifiers| && Free(s, n) && Create(n) !in run && !IsTaken(s.phase, n) ==> Enabled(s, Create(n)))
  {
    TakenRun(Start(owed, single), run);
    CreatedByLabels(Start(owed, single), run, n);
  }

  /** A timer that has fired replies once; it does not fire after the methods have returned. */
  lemma {:induction false} TimerByLabels(s: Server, run: seq<Label>)
    requires IsRun(s, run)
    ensures After(s, run).timer.Armed? <==> s.timer.Armed? && TimerFires !in run && CallsDone !in run
    ensures After(s, run).timer.Fired? ==> s.timer.Fired? || TimerFires in run
    ensures s.timer.Over? ==> After(s, run).timer.Over?
    ensures (exists l :: l in run && l.TimerReplies?) ==> After(s, run).timer.Over?
    decreases |run|
  {
    if run != [] {
      TimerByLabels(Step(s, run[0]), run[1..]);
      assert run == [run[0]] + run[1..];
    }
  }

  // ---- progress ----------------------------------------------------------------------------

  /** The next step of the goroutine of the call. */
  function NextOfCall(s: Server): Label
    requires !s.phase.Ended?
  {
    match s.phase
    case Calling => CallsDone
    case Taking(i) => if i < |s.notifiers| then Take else Finish
    case Replying => WriteReply(true)
    case Activating(i, sent) =>
      if i >= |s.notifiers| then Finish
      else if sent < |s.notifiers[i].buffer| then SendBuffered(true)
      else Activated
  }

  /** The goroutine of the call is never stuck before its end, however Notify interleaves. */
  lemma CallGoesOn(owed: bool, single: bool, run: seq<Label>)
    requires IsRun(Start(owed, single), run) && !After(Start(owed, single), run).phase.Ended?
    ensures var s := After(Start(owed, single), run); Enabled(s, NextOfCall(s))
  {
    InvRun(Start(owed, single), run);
    TakenRun(Start(owed, single), run);
    var s := After(Start(owed, single), run);
    if s.phase.Activating? && s.phase.i < |s.notifiers| {
      assert NotifierInv(s, s.phase.i);
    }
  }
}
