/**
 Ordering of notifications on one connection: the goroutine of a (batch) call with any number
 of notifiers, the timer that may reply first, and the goroutines that call Notify.
 */
module NotificationOrder {
  import opened Notifications

  datatype Phase =
    | Calling                            // methods run and may install notifiers
    | Taking(i: nat)                     // addSubscriptions, at notifier i
    | Replying                           // about to write the reply
    | Activating(i: nat, sent: nat)      // activate holds the mutex of notifier i
    | Ended

  /** The timer of the call; one that has fired can no longer be stopped. */
  datatype Timer = Armed | Fired | Over

  datatype Server = Server(
    owed: bool,                          // some message of the batch is owed a reply
    single: bool,                        // a message by itself rather than a batch
    phase: Phase,
    timer: Timer,
    replied: bool,                       // the reply was written, or its write failed
    notifiers: seq<NotifierState>,
    log: seq<Wire>,
    notified: seq<seq<Data>>,            // history: the data passed to Notify
    failed: set<nat>)                    // history: notifiers with a failed write

  function Start(owed: bool, single: bool): Server {
    Server(owed, single, Calling, Armed, false, [], [], [], {})
  }

  datatype Label =
    | Install | Create(n: nat) | Notify(n: nat, data: Data, ok: bool)
    | CallsDone | Take | TimerFires | TimerReplies(ok: bool) | WriteReply(ok: bool)
    | SendBuffered(ok: bool) | Activated | Finish

  /** The mutex of notifier `n` is free. */
  predicate Free(s: Server, n: nat) {
    !(s.phase.Activating? && s.phase.i == n)
  }

  predicate Enabled(s: Server, l: Label) {
    match l
    case Install => s.phase.Calling?
    case Create(n) => n < |s.notifiers| && Free(s, n) && CanCreate(s.notifiers[n])
    case Notify(n, _, _) => n < |s.notifiers| && Free(s, n) && s.notifiers[n].created
    case CallsDone => s.phase.Calling?
    case Take => s.phase.Taking? && s.phase.i < |s.notifiers|
    case TimerFires => s.timer.Armed?
    case TimerReplies(_) => s.timer.Fired?
    case WriteReply(_) => s.phase.Replying?
    case SendBuffered(_) =>
      s.phase.Activating? && s.phase.i < |s.notifiers| && s.phase.sent < |s.notifiers[s.phase.i].buffer|
    case Activated =>
      s.phase.Activating? && s.phase.i < |s.notifiers| && s.phase.sent == |s.notifiers[s.phase.i].buffer|
    case Finish =>
      || (s.phase.Taking? && s.phase.i == |s.notifiers|)
      || (s.phase.Activating? && s.phase.i == |s.notifiers|)
  }

  function Logged(log: seq<Wire>, w: Wire, ok: bool): seq<Wire> {
    if ok then log + [w] else log
  }

  function Marked(failed: set<nat>, n: nat, ok: bool): set<nat> {
    if ok then failed else failed + {n}
  }

  /** The reply is written once; a second attempt has no effect. */
  function SendReply(s: Server, ok: bool): Server {
    if s.replied then s else s.(replied := true, log := Logged(s.log, Reply, ok))
  }

  /** On the single-call path the timer replies even to a notification. */
  predicate TimerAnswers(s: Server) {
    s.owed || s.single
  }

  function Step(s: Server, l: Label): Server
    requires Enabled(s, l)
    requires |s.notified| == |s.notifiers|
  {
    match l
    case Install => s.(notifiers := s.notifiers + [FRESH], notified := s.notified + [[]])
    case Create(n) => s.(notifiers := s.notifiers[n := s.notifiers[n].(created := true)])
    case Notify(n, data, ok) =>
      var x := s.notifiers[n];
      var s1 := s.(notified := s.notified[n := s.notified[n] + [data]]);
      if x.activated then s1.(log := Logged(s.log, Event(n, data), ok), failed := Marked(s.failed, n, ok))
      else s1.(notifiers := s.notifiers[n := Keep(x, data)])
    case CallsDone => s.(phase := Taking(0), timer := if s.timer.Armed? then Over else s.timer)
    case TimerFires => s.(timer := Fired)
    case Take =>
      var i := s.phase.i;
      s.(phase := Taking(i + 1), notifiers := s.notifiers[i := Notifications.Take(s.notifiers[i])])
    case TimerReplies(ok) => (if TimerAnswers(s) then SendReply(s, ok) else s).(timer := Over)
    case WriteReply(ok) => (if s.owed then SendReply(s, ok) else s).(phase := Activating(0, 0))
    case SendBuffered(ok) =>
      var Activating(i, sent) := s.phase;
      s.(log := Logged(s.log, Event(i, s.notifiers[i].buffer[sent]), ok), failed := Marked(s.failed, i, ok),
         phase := if ok then Activating(i, sent + 1) else Activating(i + 1, 0))
    case Activated =>
      var i := s.phase.i;
      s.(notifiers := s.notifiers[i := s.notifiers[i].(activated := true)], phase := Activating(i + 1, 0))
    case Finish => s.(phase := if s.phase.Taking? then Replying else Ended)
  }

  ghost predicate IsRun(s: Server, run: seq<Label>)
    decreases |run|
  {
    run == [] || (Enabled(s, run[0]) && |s.notified| == |s.notifiers| && IsRun(Step(s, run[0]), run[1..]))
  }

  ghost function After(s: Server, run: seq<Label>): Server
    requires IsRun(s, run)
    decreases |run|
  {
    if run == [] then s else After(Step(s, run[0]), run[1..])
  }

  /** The data of the events of notifier `n`, in the order they were written. */
  ghost function EventsOf(log: seq<Wire>, n: nat): seq<Data> {
    if log == [] then []
    else
      var w := log[|log| - 1];
      EventsOf(log[..|log| - 1], n) + (if w.Event? && w.notifier == n then [w.data] else [])
  }

  lemma EventsPush(log: seq<Wire>, w: Wire, n: nat)
    ensures EventsOf(log + [w], n) == EventsOf(log, n) + (if w.Event? && w.notifier == n then [w.data] else [])
  {
    assert (log + [w])[..|log|] == log;
  }

  lemma LoggedOther(log: seq<Wire>, w: Wire, ok: bool, n: nat)
    requires w.Event? ==> w.notifier != n
    ensures EventsOf(Logged(log, w, ok), n) == EventsOf(log, n)
  {
    EventsPush(log, w, n);
  }

  // ---- invariant -----------------------------------------------------------------------

  /** The turn of notifier `n` to be activated has not come. */
  ghost predicate Before(phase: Phase, n: nat) {
    match phase
    case Activating(i, _) => n > i
    case Ended => false
    case _ => true
  }

  /** A notifier by its state, what was written and notified for it, and whether a write failed. */
  ghost predicate Consistent(n: nat, phase: Phase, x: NotifierState, written: seq<Data>, notified: seq<Data>, failed: bool) {
    var busy := phase.Activating? && phase.i == n;
    && (x.activated ==> !Before(phase, n) && !busy)
    && (!x.activated ==> x.buffer == notified && written <= notified)
    && (Before(phase, n) ==> written == [] && !failed)
    && (busy ==> phase.sent <= |x.buffer| && written == x.buffer[..phase.sent] && !failed)
    && (x.activated && !failed ==> written == notified)
    && (!Before(phase, n) && !busy ==> x.activated || failed)
  }

  ghost predicate NotifierInv(s: Server, n: nat)
    requires n < |s.notifiers| && |s.notified| == |s.notifiers|
  {
    Consistent(n, s.phase, s.notifiers[n], EventsOf(s.log, n), s.notified[n], n in s.failed)
  }

  ghost predicate OrderInv(s: Server) {
    && (forall i :: 0 <= i < |s.log| && s.log[i].Event? ==> s.phase.Activating? || s.phase.Ended?)
    && (s.owed && (s.phase.Activating? || s.phase.Ended?) ==> s.replied)
    && (s.owed || !s.single ==> forall j :: 1 <= j < |s.log| ==> !s.log[j].Reply?)
    && (forall i, j :: 0 <= i < j < |s.log| && s.log[i].Reply? ==> !s.log[j].Reply?)
    && (forall j :: 0 <= j < |s.log| && s.log[j].Reply? ==> s.replied && TimerAnswers(s))
  }

  ghost predicate Inv(s: Server) {
    && |s.notified| == |s.notifiers|
    && (s.phase.Activating? ==> s.phase.i <= |s.notifiers|)
    && OrderInv(s)
    && (forall n :: n in s.failed ==> n < |s.notifiers|)
    && (forall n :: 0 <= n < |s.notifiers| ==> NotifierInv(s, n))
  }

  lemma LogEvent(s: Server, w: Wire, ok: bool)
    requires OrderInv(s) && w.Event? && (s.phase.Activating? || s.phase.Ended?)
    ensures OrderInv(s.(log := Logged(s.log, w, ok)))
  {
  }

  lemma LogReply(s: Server, ok: bool)
    requires OrderInv(s) && TimerAnswers(s)
    ensures OrderInv(SendReply(s, ok))
  {
    if s.owed && !s.replied {
      NothingBeforeReply(s);
    }
  }

  /** Apart from the log, only the phase and the reply matter for the order. */
  lemma OrderFrame(s: Server, s': Server)
    requires OrderInv(s) && s'.log == s.log && s'.replied == s.replied && s'.owed == s.owed && s'.single == s.single
    requires s.phase.Activating? || s.phase.Ended? ==> s'.phase.Activating? || s'.phase.Ended?
    requires s.owed && (s'.phase.Activating? || s'.phase.Ended?) ==> s.replied
    ensures OrderInv(s')
  {
  }

  lemma OrderStep(s: Server, l: Label)
    requires Inv(s) && Enabled(s, l)
    ensures OrderInv(Step(s, l))
  {
    var s' := Step(s, l);
    match l
    case Notify(n, data, ok) =>
      assert NotifierInv(s, n);
      if s.notifiers[n].activated {
        LogEvent(s, Event(n, data), ok);
        OrderFrame(s.(log := Logged(s.log, Event(n, data), ok)), s');
      } else {
        OrderFrame(s, s');
      }
    case SendBuffered(ok) =>
      var w := Event(s.phase.i, s.notifiers[s.phase.i].buffer[s.phase.sent]);
      LogEvent(s, w, ok);
      OrderFrame(s.(log := Logged(s.log, w, ok)), s');
    case TimerReplies(ok) =>
      if TimerAnswers(s) {
        LogReply(s, ok);
        OrderFrame(SendReply(s, ok), s');
      } else {
        OrderFrame(s, s');
      }
    case WriteReply(ok) =>
      if s.owed {
        LogReply(s, ok);
        OrderFrame(SendReply(s, ok), s');
      } else {
        OrderFrame(s, s');
      }
    case _ => OrderFrame(s, s');
  }

  lemma NothingBeforeReply(s: Server)
    requires OrderInv(s) && s.owed && !s.replied
    ensures s.log == []
  {
    if s.log != [] {
      match s.log[0]
      case Reply =>
      case Event(_, _) =>
    }
  }

  /** What the invariant says about notifier `n` alone. */
  ghost predicate At(s: Server, n: nat) {
    && |s.notified| == |s.notifiers| && n < |s.notifiers| && NotifierInv(s, n)
    && (s.phase.Activating? ==> s.phase.i <= |s.notifiers|)
  }

  /** A notifier is not affected by what happens to the others. */
  lemma NotifierFrame(s: Server, s': Server, n: nat)
    requires At(s, n)
    requires s'.phase == s.phase && |s'.notified| == |s'.notifiers| == |s.notifiers|
    requires s'.notifiers[n] == s.notifiers[n] && s'.notified[n] == s.notified[n]
    requires EventsOf(s'.log, n) == EventsOf(s.log, n) && (n in s'.failed <==> n in s.failed)
    ensures At(s', n)
  {
  }

  lemma NotifyOtherWrites(s: Server, m: nat, data: Data, ok: bool, n: nat)
    requires At(s, n) && Enabled(s, Notify(m, data, ok)) && m != n && s.notifiers[m].activated
    ensures At(Step(s, Notify(m, data, ok)), n)
  {
    LoggedOther(s.log, Event(m, data), ok, n);
    NotifierFrame(s, Step(s, Notify(m, data, ok)), n);
  }

  lemma NotifyOther(s: Server, m: nat, data: Data, ok: bool, n: nat)
    requires At(s, n) && Enabled(s, Notify(m, data, ok)) && m != n
    ensures At(Step(s, Notify(m, data, ok)), n)
  {
    if s.notifiers[m].activated {
      NotifyOtherWrites(s, m, data, ok, n);
    } else {
      NotifierFrame(s, Step(s, Notify(m, data, ok)), n);
    }
  }

  lemma NotifyActivated(s: Server, data: Data, ok: bool, n: nat)
    requires At(s, n) && Enabled(s, Notify(n, data, ok)) && s.notifiers[n].activated
    ensures At(Step(s, Notify(n, data, ok)), n)
  {
    EventsPush(s.log, Event(n, data), n);
  }

  lemma NotifyBuffered(s: Server, data: Data, ok: bool, n: nat)
    requires At(s, n) && Enabled(s, Notify(n, data, ok)) && !s.notifiers[n].activated
    ensures At(Step(s, Notify(n, data, ok)), n)
  {
  }

  lemma NotifyStep(s: Server, m: nat, data: Data, ok: bool, n: nat)
    requires At(s, n) && Enabled(s, Notify(m, data, ok))
    ensures At(Step(s, Notify(m, data, ok)), n)
  {
    if m != n {
      NotifyOther(s, m, data, ok, n);
    } else if s.notifiers[n].activated {
      NotifyActivated(s, data, ok, n);
    } else {
      NotifyBuffered(s, data, ok, n);
    }
  }

  /** The turn of another notifier is not affected by how the activation of `i` goes on. */
  lemma ConsistentBeside(n: nat, i: nat, sent: nat, phase': Phase, x: NotifierState, written: seq<Data>, notified: seq<Data>, failed: bool)
    requires Consistent(n, Activating(i, sent), x, written, notified, failed) && n != i
    requires phase' == Activating(i, sent + 1) || phase' == Activating(i + 1, 0)
    ensures Consistent(n, phase', x, written, notified, failed)
  {
  }

  /** What sending for one notifier leaves alone of another. */
  lemma SendLeaves(s: Server, ok: bool, n: nat)
    requires Enabled(s, SendBuffered(ok)) && n != s.phase.i && |s.notified| == |s.notifiers|
    ensures var s', phase := Step(s, SendBuffered(ok)), s.phase;
            && s'.notifiers == s.notifiers && s'.notified == s.notified && (n in s'.failed <==> n in s.failed)
            && s'.phase == (if ok then Activating(phase.i, phase.sent + 1) else Activating(phase.i + 1, 0))
            && EventsOf(s'.log, n) == EventsOf(s.log, n)
  {
    LoggedOther(s.log, Event(s.phase.i, s.notifiers[s.phase.i].buffer[s.phase.sent]), ok, n);
  }

  lemma SendOther(s: Server, ok: bool, n: nat)
    requires At(s, n) && Enabled(s, SendBuffered(ok)) && n != s.phase.i
    ensures At(Step(s, SendBuffered(ok)), n)
  {
    var s' := Step(s, SendBuffered(ok));
    SendLeaves(s, ok, n);
    ConsistentBeside(n, s.phase.i, s.phase.sent, s'.phase, s.notifiers[n], EventsOf(s.log, n), s.notified[n], n in s.failed);
  }

  lemma SendSelf(s: Server, ok: bool)
    requires Enabled(s, SendBuffered(ok)) && At(s, s.phase.i)
    ensures At(Step(s, SendBuffered(ok)), s.phase.i)
  {
    var Activating(i, sent) := s.phase;
    var buffer := s.notifiers[i].buffer;
    assert buffer[..sent + 1] == buffer[..sent] + [buffer[sent]];
    if ok {
      EventsPush(s.log, Event(i, buffer[sent]), i);
    }
  }

  lemma ReplyStep(s: Server, l: Label, n: nat)
    requires At(s, n) && Enabled(s, l) && (l.TimerReplies? || l.WriteReply?)
    ensures At(Step(s, l), n)
  {
    EventsPush(s.log, Reply, n);
  }

  lemma OtherStep(s: Server, l: Label, n: nat)
    requires At(s, n) && Enabled(s, l)
    requires !l.Notify? && !l.SendBuffered? && !l.TimerReplies? && !l.WriteReply?
    ensures At(Step(s, l), n)
  {
  }

  lemma NotifierStep(s: Server, l: Label, n: nat)
    requires At(s, n) && Enabled(s, l)
    ensures At(Step(s, l), n)
  {
    match l
    case Notify(m, data, ok) => NotifyStep(s, m, data, ok, n);
    case TimerReplies(_) => ReplyStep(s, l, n);
    case WriteReply(_) => ReplyStep(s, l, n);
    case SendBuffered(ok) => if n == s.phase.i { SendSelf(s, ok); } else { SendOther(s, ok, n); }
    case _ => OtherStep(s, l, n);
  }

  lemma InvStep(s: Server, l: Label)
    requires Inv(s) && Enabled(s, l)
    ensures Inv(Step(s, l))
  {
    var s' := Step(s, l);
    OrderStep(s, l);
    forall n | 0 <= n < |s.notifiers| ensures n < |s'.notifiers| && NotifierInv(s', n) {
      NotifierStep(s, l, n);
    }
    if l.Install? {
      NoEventsYet(s.log, |s.notifiers|);
    }
  }

  lemma {:induction false} NoEventsYet(log: seq<Wire>, n: nat)
    requires forall i :: 0 <= i < |log| ==> !log[i].Event?
    ensures EventsOf(log, n) == []
  {
    if log != [] {
      NoEventsYet(log[..|log| - 1], n);
    }
  }

  lemma {:induction false} InvRun(s: Server, run: seq<Label>)
    requires Inv(s) && IsRun(s, run)
    ensures Inv(After(s, run))
    decreases |run|
  {
    if run != [] {
      InvStep(s, run[0]);
      InvRun(Step(s, run[0]), run[1..]);
    }
  }

  // ---- theorems ------------------------------------------------------------------------

  /**
   However Notify interleaves with the call, a reply is written at most once, and no
   notification is written before the reply to the call, if one is owed: the reply can only
   be the first thing written. A batch that is owed none gets none.
   */
  lemma ReplyComesFirst(owed: bool, single: bool, run: seq<Label>)
    requires IsRun(Start(owed, single), run)
    ensures var s := After(Start(owed, single), run);
            && (forall i :: 0 <= i < |s.log| && s.log[i].Event? && owed ==> s.replied)
            && (forall i, j :: 0 <= i < j < |s.log| && s.log[i].Reply? ==> !s.log[j].Reply?)
            && (owed || !single ==> forall j :: 1 <= j < |s.log| ==> !s.log[j].Reply?)
            && (!owed && !single ==> forall j :: 0 <= j < |s.log| ==> !s.log[j].Reply?)
  {
    InvRun(Start(owed, single), run);
    KindKept(Start(owed, single), run);
  }

  lemma {:induction false} KindKept(s: Server, run: seq<Label>)
    requires IsRun(s, run)
    ensures After(s, run).owed == s.owed && After(s, run).single == s.single
    decreases |run|
  {
    if run != [] {
      KindKept(Step(s, run[0]), run[1..]);
    }
  }

  /** The remaining case: the timer of a single notification replies after an event was written. */
  lemma LateReplyWitness(data: Data) returns (run: seq<Label>)
    ensures IsRun(Start(false, true), run)
    ensures After(Start(false, true), run).log == [Event(0, data), Reply]
  {
    var s0 := Start(false, true);
    var s1 := Step(Step(s0, Install), Create(0));
    var s2 := Step(Step(s1, Notify(0, data, true)), TimerFires);
    assert s2.notified[0] == [data] && s2.notifiers[0] == Keep(FRESH.(created := true), data);
    assert s2.notifiers == [Keep(FRESH.(created := true), data)] && s2.notified == [[data]];
    run := LateReply(s2, data);
    run := TwoFirst(s1, Notify(0, data, true), TimerFires, run);
    run := TwoFirst(s0, Install, Create(0), run);
  }

  /** The timer has fired, but the call returns and its notifier is activated before it replies. */
  lemma LateReply(s: Server, data: Data) returns (run: seq<Label>)
    requires s == Server(false, true, Calling, Fired, false, [Keep(FRESH.(created := true), data)], [], [[data]], {})
    ensures IsRun(s, run) && After(s, run).log == [Event(0, data), Reply]
  {
    var s1 := Step(Step(s, CallsDone), Take);
    var s2 := Step(Step(s1, Finish), WriteReply(true));
    run := TwoFirst(s2, SendBuffered(true), TimerReplies(true), []);
    run := TwoFirst(s1, Finish, WriteReply(true), run);
    run := TwoFirst(s, CallsDone, Take, run);
  }

  /** Two steps followed by a run are a run. */
  lemma TwoFirst(s: Server, l0: Label, l1: Label, rest: seq<Label>) returns (run: seq<Label>)
    requires |s.notified| == |s.notifiers| && Enabled(s, l0)
    requires var s1 := Step(s, l0);
             |s1.notified| == |s1.notifiers| && Enabled(s1, l1) && IsRun(Step(s1, l1), rest)
    ensures IsRun(s, run) && After(s, run) == After(Step(Step(s, l0), l1), rest)
  {
    run := [l0, l1] + rest;
    assert run[1..] == [l1] + rest && run[1..][1..] == rest;
  }

  /**
   Before activation nothing is written; afterwards, unless a write failed, exactly what was
   notified is written, without loss, duplication or reordering; and even if activation
   failed, what was written is a prefix of what was notified.
   */
  lemma NotifiedIsWritten(owed: bool, single: bool, run: seq<Label>, n: nat)
    requires IsRun(Start(owed, single), run) && n < |After(Start(owed, single), run).notifiers|
    ensures var s := After(Start(owed, single), run);
            && |s.notified| == |s.notifiers|
            && (Before(s.phase, n) ==> EventsOf(s.log, n) == [])
            && (!s.notifiers[n].activated ==> EventsOf(s.log, n) <= s.notified[n])
            && (s.phase.Ended? && n !in s.failed ==> EventsOf(s.log, n) == s.notified[n])
            && (s.notifiers[n].activated && n !in s.failed ==> EventsOf(s.log, n) == s.notified[n])
  {
    InvRun(Start(owed, single), run);
    assert NotifierInv(After(Start(owed, single), run), n);
  }
}
