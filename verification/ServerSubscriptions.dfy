/**
 The server's subscription table (rpc/handler.go) over the life of a handler: call goroutines
 add and remove subscriptions, and close cancels what is left.
 */
module ServerSubscriptions {
  type Ref = nat     // identity of a *Subscription

  datatype ErrEvent = SentErr(err: string) | ClosedErr
  datatype Fault = CloseOfClosed | SendOnClosed | SendBlocks

  datatype Subscription = Subscription(
    id: string,
    buffer: seq<string>,           // the err channel
    closed: bool,
    history: seq<ErrEvent>,
    faults: set<Fault>)

  datatype Subs = Subs(table: map<string, Ref>, all: map<Ref, Subscription>)

  const ERR_CAPACITY := 1

  function NewSub(id: string): Subscription {
    Subscription(id, [], false, [], {})
  }

  function SendTo(s: Subscription, err: string): Subscription {
    if s.closed then s.(faults := s.faults + {SendOnClosed})
    else if |s.buffer| >= ERR_CAPACITY then s.(faults := s.faults + {SendBlocks})
    else s.(buffer := s.buffer + [err], history := s.history + [SentErr(err)])
  }

  function CloseErr(s: Subscription): Subscription {
    if s.closed then s.(faults := s.faults + {CloseOfClosed})
    else s.(closed := true, history := s.history + [ClosedErr])
  }

  ghost predicate Known(s: Subs) {
    forall id :: id in s.table ==> s.table[id] in s.all
  }

  // ---- the operations ------------------------------------------------------------------

  function Add(s: Subs, ref: Ref): Subs
    requires ref in s.all
  {
    s.(table := s.table[s.all[ref].id := ref])
  }

  function AddAll(s: Subs, refs: seq<Ref>): Subs
    requires forall r :: r in refs ==> r in s.all
    ensures AddAll(s, refs).all == s.all
  {
    if refs == [] then s else Add(AddAll(s, refs[..|refs| - 1]), refs[|refs| - 1])
  }

  function Unsubscribe(s: Subs, id: string): Subs
    requires Known(s)
  {
    if id !in s.table then s
    else Subs(s.table - {id}, s.all[s.table[id] := CloseErr(s.all[s.table[id]])])
  }

  function CancelOne(s: Subs, id: string, err: string): Subs
    requires Known(s) && id in s.table
  {
    Subs(s.table - {id}, s.all[s.table[id] := CloseErr(SendTo(s.all[s.table[id]], err))])
  }

  /** An open subscription with nothing in its channel was ended by these events. */
  ghost predicate Ended(a: Subscription, b: Subscription, events: seq<ErrEvent>, sent: seq<string>) {
    !a.closed && a.buffer == [] ==>
      b == a.(closed := true, history := a.history + events, buffer := sent)
  }

  /** Exactly subscription `r` was ended. */
  ghost predicate EndedBy(all: map<Ref, Subscription>, all': map<Ref, Subscription>, r: Ref, events: seq<ErrEvent>, sent: seq<string>) {
    && r in all && all'.Keys == all.Keys && Ended(all[r], all'[r], events, sent)
    && forall q :: q in all && q != r ==> all'[q] == all[q]
  }

  /** No later subscription of the list has the same id. */
  ghost predicate IsLast(all: map<Ref, Subscription>, taken: seq<Ref>, i: nat)
    requires i < |taken| && forall r :: r in taken ==> r in all
  {
    forall j :: i < j < |taken| ==> all[taken[j]].id != all[taken[i]].id
  }

  lemma {:induction false} LastWins(s: Subs, taken: seq<Ref>, i: nat)
    requires (forall r :: r in taken ==> r in s.all) && i < |taken| && IsLast(s.all, taken, i)
    ensures var table := AddAll(s, taken).table; s.all[taken[i]].id in table && table[s.all[taken[i]].id] == taken[i]
  {
    var n := |taken| - 1;
    if i < n {
      LastWins(s, taken[..n], i);
    }
  }

  lemma {:induction false} OthersKept(s: Subs, taken: seq<Ref>, id: string)
    requires (forall r :: r in taken ==> r in s.all) && forall i :: 0 <= i < |taken| ==> s.all[taken[i]].id != id
    ensures var table := AddAll(s, taken).table;
            (id in table <==> id in s.table) && (id in table ==> table[id] == s.table[id])
  {
    if taken != [] {
      OthersKept(s, taken[..|taken| - 1], id);
    }
  }

  lemma AddAllEffect(s: Subs, taken: seq<Ref>)
    requires forall r :: r in taken ==> r in s.all
    ensures var table := AddAll(s, taken).table;
            && (forall i :: 0 <= i < |taken| && IsLast(s.all, taken, i) ==>
                  s.all[taken[i]].id in table && table[s.all[taken[i]].id] == taken[i])
            && (forall id :: (forall i :: 0 <= i < |taken| ==> s.all[taken[i]].id != id) ==>
                  (id in table <==> id in s.table) && (id in table ==> table[id] == s.table[id]))
  {
    forall i | 0 <= i < |taken| && IsLast(s.all, taken, i)
      ensures var table := AddAll(s, taken).table; s.all[taken[i]].id in table && table[s.all[taken[i]].id] == taken[i]
    {
      LastWins(s, taken, i);
    }
    forall id | forall i :: 0 <= i < |taken| ==> s.all[taken[i]].id != id
      ensures var table := AddAll(s, taken).table;
              (id in table <==> id in s.table) && (id in table ==> table[id] == s.table[id])
    {
      OthersKept(s, taken, id);
    }
  }

  /** Each table entry leads to its own subscription. */
  ghost predicate OneEntryEach(s: Subs) {
    forall id :: id in s.table ==> s.table[id] in s.all && s.all[s.table[id]].id == id
  }

  /** Order-free meaning of the cancelling loop. */
  function CancelAll(s: Subs, err: string): Subs {
    Subs(map[], map r | r in s.all :: if r in s.table.Values then CloseErr(SendTo(s.all[r], err)) else s.all[r])
  }

  lemma CancelAllEffect(s: Subs, err: string)
    ensures var s' := CancelAll(s, err);
            && s'.table == map[] && s'.all.Keys == s.all.Keys
            && forall r :: r in s.all ==>
                 if r in s.table.Values then Ended(s.all[r], s'.all[r], [SentErr(err), ClosedErr], [err]) else s'.all[r] == s.all[r]
  {
  }

  class SubscriptionTable {
    var table: map<string, Ref>
    var all: map<Ref, Subscription>

    ghost function View(): Subs
      reads this
    {
      Subs(table, all)
    }

    constructor ()
      ensures View() == Subs(map[], map[])
    {
      table, all := map[], map[];
    }

    /** Of several subscriptions with one id, the last one is entered. */
    method AddSubscriptions(taken: seq<Ref>)
      requires forall r :: r in taken ==> r in all
      modifies this`table
      ensures View() == AddAll(old(View()), taken)
      ensures forall i :: 0 <= i < |taken| && IsLast(all, taken, i) ==>
                all[taken[i]].id in table && table[all[taken[i]].id] == taken[i]
      ensures forall id :: (forall i :: 0 <= i < |taken| ==> all[taken[i]].id != id) ==>
                (id in table <==> id in old(table)) && (id in table ==> table[id] == old(table)[id])
    {
      AddAllEffect(View(), taken);
      for i := 0 to |taken|
        invariant View() == AddAll(old(View()), taken[..i])
      {
        table := table[all[taken[i]].id := taken[i]];
        assert taken[..i + 1][..i] == taken[..i];
      }
      assert taken[..|taken|] == taken;
    }

    method UnsubscribeId(id: string) returns (found: bool)
      requires Known(View())
      modifies this
      ensures View() == Unsubscribe(old(View()), id)
      ensures found == (id in old(table))
      ensures !found ==> View() == old(View())
      ensures found ==> var r := old(table)[id]; table == old(table) - {id} && EndedBy(old(all), all, r, [ClosedErr], [])
    {
      if id !in table {
        return false;
      }
      var r := table[id];
      all := all[r := CloseErr(all[r])];
      table := table - {id};
      found := true;
    }

    method CancelServerSubscriptions(err: string)
      requires OneEntryEach(View())
      modifies this
      ensures View() == CancelAll(old(View()), err)
      ensures table == map[] && all.Keys == old(all).Keys
      ensures forall r :: r in all ==>
                if r in old(table).Values then Ended(old(all)[r], all[r], [SentErr(err), ClosedErr], [err]) else all[r] == old(all)[r]
    {
      CancelAllEffect(View(), err);
      CancelEntries(err);
    }

    /** The loop over the table, in any order. */
    method CancelEntries(err: string)
      requires OneEntryEach(View())
      modifies this
      ensures View() == CancelAll(old(View()), err)
    {
      ghost var before := View();
      while table != map[]
        invariant table.Keys <= before.table.Keys
        invariant forall id :: id in table ==> table[id] == before.table[id]
        invariant all == PartlyCancelled(before, err, table.Keys)
        decreases |table|
      {
        var id :| id in table;
        var r := table[id];
        CancelOneMore(before, err, table.Keys, id);
        all := all[r := CloseErr(SendTo(all[r], err))];
        table := table - {id};
      }
    }
  }

  /** The subscriptions once every entry outside `left` has been cancelled. */
  ghost function PartlyCancelled(s: Subs, err: string, left: set<string>): map<Ref, Subscription> {
    map r | r in s.all ::
      if r in s.table.Values && s.all[r].id !in left then CloseErr(SendTo(s.all[r], err)) else s.all[r]
  }

  lemma CancelOneMore(s: Subs, err: string, left: set<string>, id: string)
    requires OneEntryEach(s) && id in s.table && id in left
    ensures var r := s.table[id];
            && r in s.all
            && PartlyCancelled(s, err, left - {id})
            == PartlyCancelled(s, err, left)[r := CloseErr(SendTo(PartlyCancelled(s, err, left)[r], err))]
  {
    var r := s.table[id];
    forall q | q in s.all && q in s.table.Values && q != r ensures s.all[q].id != id {
      var other :| other in s.table && s.table[other] == q;
    }
  }

  // ---- the life of a handler -----------------------------------------------------------

  datatype Phase = Serving | Waiting | Cancelling | Closed

  datatype Life = Life(
    subs: Subs,
    calls: nat,                    // call goroutines tracked by callWG
    phase: Phase)

  datatype Label =
    | StartCall | AddSub(ref: Ref, id: string) | UnsubscribeCall(id: string) | EndCall
    | BeginClose | CallsAwaited | CancelStep(id: string, err: string) | CloseDone
    | ReadErr(ref: Ref)

  const BEGIN := Life(Subs(map[], map[]), 0, Serving)

  predicate Enabled(s: Life, l: Label) {
    match l
    case StartCall => s.phase.Serving?                      // only dispatch starts calls
    case AddSub(r, _) => s.calls > 0 && r !in s.subs.all
    case UnsubscribeCall(_) => s.calls > 0
    case EndCall => s.calls > 0
    case BeginClose => s.phase.Serving?
    case CallsAwaited => s.phase.Waiting? && s.calls == 0
    case CancelStep(id, _) => s.phase.Cancelling? && id in s.subs.table
    case CloseDone => s.phase.Cancelling? && s.subs.table == map[]
    case ReadErr(r) => r in s.subs.all && s.subs.all[r].buffer != []
  }

  function Step(s: Life, l: Label): Life
    requires Known(s.subs) && Enabled(s, l)
  {
    match l
    case StartCall => s.(calls := s.calls + 1)
    case AddSub(r, id) => s.(subs := Add(s.subs.(all := s.subs.all[r := NewSub(id)]), r))
    case UnsubscribeCall(id) => s.(subs := Unsubscribe(s.subs, id))
    case EndCall => s.(calls := s.calls - 1)
    case BeginClose => s.(phase := Waiting)
    case CallsAwaited => s.(phase := Cancelling)
    case CancelStep(id, err) => s.(subs := CancelOne(s.subs, id, err))
    case CloseDone => s.(phase := Closed)
    case ReadErr(r) => s.(subs := s.subs.(all := s.subs.all[r := s.subs.all[r].(buffer := s.subs.all[r].buffer[1..])]))
  }

  ghost predicate IsRun(s: Life, run: seq<Label>)
    decreases |run|
  {
    run == [] || (Known(s.subs) && Enabled(s, run[0]) && IsRun(Step(s, run[0]), run[1..]))
  }

  ghost function After(s: Life, run: seq<Label>): Life
    requires IsRun(s, run)
    decreases |run|
  {
    if run == [] then s else After(Step(s, run[0]), run[1..])
  }

  /** The table leads to subscription `r`. */
  predicate InTable(s: Subs, r: Ref) {
    r in s.all && s.all[r].id in s.table && s.table[s.all[r].id] == r
  }

  /** A subscription in the table is open, and nothing was sent to it. */
  ghost predicate Inv(s: Life) {
    && OneEntryEach(s.subs)
    && (s.phase.Cancelling? || s.phase.Closed? ==> s.calls == 0)
    && (s.phase.Closed? ==> s.subs.table == map[])
    && (forall r :: r in s.subs.all ==> s.subs.all[r].faults == {} && |s.subs.all[r].buffer| <= 1)
    && (forall r :: InTable(s.subs, r) ==> s.subs.all[r] == NewSub(s.subs.all[r].id))
  }

  lemma InvStep(s: Life, l: Label)
    requires Inv(s) && Enabled(s, l)
    ensures Inv(Step(s, l))
  {
    var s' := Step(s, l);
    forall r | InTable(s'.subs, r) ensures s'.subs.all[r] == NewSub(s'.subs.all[r].id) {
      if r in s.subs.all {
        assert InTable(s.subs, r);
      }
    }
    if l.UnsubscribeCall? && l.id in s.subs.table {
      assert InTable(s.subs, s.subs.table[l.id]);
    } else if l.CancelStep? {
      assert InTable(s.subs, s.subs.table[l.id]);
    }
  }

  lemma {:induction false} InvRun(s: Life, run: seq<Label>)
    requires Inv(s) && IsRun(s, run)
    ensures Inv(After(s, run))
    decreases |run|
  {
    if run != [] {
      InvStep(s, run[0]);
      InvRun(Step(s, run[0]), run[1..]);
    }
  }

  // ---- the fate of a subscription ------------------------------------------------------

  /** How a subscription left the table, if it did. */
  datatype Fate = Open | Unsubscribed | Cancelled(err: string) | Replaced

  /** What the step does to subscription `r`, if the table leads to it. */
  ghost function FateBy(s: Life, l: Label, r: Ref): Fate {
    if l.UnsubscribeCall? && InTable(s.subs, r) && s.subs.all[r].id == l.id then Unsubscribed
    else if l.CancelStep? && InTable(s.subs, r) && s.subs.all[r].id == l.id then Cancelled(l.err)
    else if l.AddSub? && InTable(s.subs, r) && s.subs.all[r].id == l.id then Replaced
    else Open
  }

  /** The first of these events in the run. */
  ghost function FateIn(s: Life, run: seq<Label>, r: Ref): Fate
    requires IsRun(s, run)
    decreases |run|
  {
    if run == [] then Open
    else if FateBy(s, run[0], r) != Open then FateBy(s, run[0], r)
    else FateIn(Step(s, run[0]), run[1..], r)
  }

  /** The events on the err channel that belong to the fate. */
  function EventsOf(f: Fate): seq<ErrEvent> {
    match f
    case Unsubscribed => [ClosedErr]
    case Cancelled(err) => [SentErr(err), ClosedErr]
    case _ => []
  }

  /** What is in the err channel, if it was not read. */
  function SentBy(f: Fate): seq<string> {
    if f.Cancelled? then [f.err] else []
  }

  ghost predicate HasFate(s: Life, r: Ref, f: Fate, read: bool) {
    && r in s.subs.all
    && (InTable(s.subs, r) <==> f.Open?)
    && s.subs.all[r].history == EventsOf(f)
    && (s.subs.all[r].closed <==> f.Unsubscribed? || f.Cancelled?)
    && s.subs.all[r].buffer == if read then [] else SentBy(f)
  }

  /** A step ends the subscriptions in the table as its label says, and touches no other. */
  lemma FateOfStep(s: Life, l: Label, r: Ref)
    requires Inv(s) && Enabled(s, l) && InTable(s.subs, r)
    ensures HasFate(Step(s, l), r, FateBy(s, l, r), false)
  {
  }

  lemma OutsideStep(s: Life, l: Label, r: Ref)
    requires Inv(s) && Enabled(s, l) && r in s.subs.all && !InTable(s.subs, r)
    ensures var s' := Step(s, l);
            && r in s'.subs.all && !InTable(s'.subs, r)
            && s'.subs.all[r] == if l == ReadErr(r) then s.subs.all[r].(buffer := []) else s.subs.all[r]
  {
  }

  /** Once out of the table, a subscription changes only by being read. */
  lemma {:induction false} OutsideRun(s: Life, run: seq<Label>, r: Ref)
    requires Inv(s) && IsRun(s, run) && r in s.subs.all && !InTable(s.subs, r)
    ensures var s' := After(s, run);
            && r in s'.subs.all && !InTable(s'.subs, r)
            && s'.subs.all[r] == if ReadErr(r) in run then s.subs.all[r].(buffer := []) else s.subs.all[r]
    decreases |run|
  {
    if run != [] {
      OutsideStep(s, run[0], r);
      InvStep(s, run[0]);
      OutsideRun(Step(s, run[0]), run[1..], r);
      assert run == [run[0]] + run[1..];
    }
  }

  lemma {:induction false} FateOfRun(s: Life, run: seq<Label>, r: Ref)
    requires Inv(s) && IsRun(s, run) && (InTable(s.subs, r) || r !in s.subs.all) && r in After(s, run).subs.all
    ensures HasFate(After(s, run), r, FateIn(s, run, r), ReadErr(r) in run)
    decreases |run|
  {
    if run != [] {
      var s' := Step(s, run[0]);
      InvStep(s, run[0]);
      assert run == [run[0]] + run[1..];
      if InTable(s.subs, r) {
        FateOfStep(s, run[0], r);
      }
      if FateBy(s, run[0], r) == Open {
        assert run[0] != ReadErr(r);
        FateOfRun(s', run[1..], r);
      } else {
        OutsideRun(s', run[1..], r);
      }
    }
  }

  /**
   In every run, the err channel of a subscription has seen exactly what the first event that
   concerned it calls for: unsubscribe closes it, close sends the error and closes it, and
   another subscription with its id leaves it open and forgotten. Until then the table leads
   to it, and sending never blocks.
   */
  lemma SubscriptionLifeCycle(run: seq<Label>, r: Ref)
    requires IsRun(BEGIN, run) && r in After(BEGIN, run).subs.all
    ensures HasFate(After(BEGIN, run), r, FateIn(BEGIN, run, r), ReadErr(r) in run)
    ensures After(BEGIN, run).subs.all[r].faults == {}
  {
    InvRun(BEGIN, run);
    FateOfRun(BEGIN, run, r);
  }

  /** A call can end every subscription in the table, and what close sent can be read. */
  lemma UnsubscribeEnds(s: Life, r: Ref)
    requires Inv(s) && s.calls > 0 && InTable(s.subs, r)
    ensures Enabled(s, UnsubscribeCall(s.subs.all[r].id))
    ensures HasFate(Step(s, UnsubscribeCall(s.subs.all[r].id)), r, Unsubscribed, false)
    ensures forall q :: q in s.subs.all && s.subs.all[q].buffer != [] ==> Enabled(s, ReadErr(q))
  {
    FateOfStep(s, UnsubscribeCall(s.subs.all[r].id), r);
  }

  /** At some point of the run a subscription was added under an id that was in the table. */
  ghost predicate Collides(s: Life, run: seq<Label>)
    requires IsRun(s, run)
    decreases |run|
  {
    run != [] && ((run[0].AddSub? && run[0].id in s.subs.table) || Collides(Step(s, run[0]), run[1..]))
  }

  ghost predicate Leaks(s: Life, run: seq<Label>)
    requires IsRun(s, run)
  {
    exists r :: FateIn(s, run, r) == Replaced
  }

  /** Exactly those runs leave a subscription behind. */
  lemma {:induction false} LeaksIffCollides(s: Life, run: seq<Label>)
    requires Inv(s) && IsRun(s, run)
    ensures Leaks(s, run) <==> Collides(s, run)
    decreases |run|
  {
    if run != [] {
      var l, s' := run[0], Step(s, run[0]);
      InvStep(s, l);
      LeaksIffCollides(s', run[1..]);
      if l.AddSub? && l.id in s.subs.table {
        var r := s.subs.table[l.id];
        assert FateBy(s, l, r) == Replaced;
        assert FateIn(s, run, r) == Replaced;
      } else {
        if Leaks(s', run[1..]) {
          LeaksLater(s, run);
        }
        if Leaks(s, run) {
          NotLeakedNow(s, run);
        }
      }
    }
  }

  lemma NotLeakedNow(s: Life, run: seq<Label>)
    requires Inv(s) && IsRun(s, run) && run != [] && Leaks(s, run)
    requires run[0].AddSub? ==> run[0].id !in s.subs.table
    ensures Leaks(Step(s, run[0]), run[1..])
  {
    var r :| FateIn(s, run, r) == Replaced;
    assert FateIn(Step(s, run[0]), run[1..], r) == Replaced;
  }

  lemma LeaksLater(s: Life, run: seq<Label>)
    requires Inv(s) && IsRun(s, run) && run != [] && Leaks(Step(s, run[0]), run[1..])
    ensures Leaks(s, run)
  {
    var r :| FateIn(Step(s, run[0]), run[1..], r) == Replaced;
    if FateBy(s, run[0], r) != Open {
      FateOfStep(s, run[0], r);
      InvStep(s, run[0]);
      OutsideHasNoFate(Step(s, run[0]), run[1..], r);
    }
    assert FateIn(s, run, r) == Replaced;
  }

  lemma {:induction false} OutsideHasNoFate(s: Life, run: seq<Label>, r: Ref)
    requires Inv(s) && IsRun(s, run) && r in s.subs.all && !InTable(s.subs, r)
    ensures FateIn(s, run, r) == Open
    decreases |run|
  {
    if run != [] {
      OutsideStep(s, run[0], r);
      InvStep(s, run[0]);
      OutsideHasNoFate(Step(s, run[0]), run[1..], r);
    }
  }

  /** After close the table is empty for good, and every subscription has met its fate. */
  lemma ClosedForGood(run: seq<Label>, rest: seq<Label>)
    requires IsRun(BEGIN, run) && After(BEGIN, run).phase.Closed? && IsRun(After(BEGIN, run), rest)
    ensures var s, s' := After(BEGIN, run), After(After(BEGIN, run), rest);
            && s'.phase.Closed? && s'.subs.table == map[] && s'.subs.all.Keys == s.subs.all.Keys
            && (forall r :: r in s.subs.all ==> FateIn(BEGIN, run, r) != Open)
  {
    InvRun(BEGIN, run);
    var s := After(BEGIN, run);
    StaysClosed(s, rest);
    forall r | r in s.subs.all ensures FateIn(BEGIN, run, r) != Open {
      FateOfRun(BEGIN, run, r);
    }
  }

  lemma {:induction false} StaysClosed(s: Life, rest: seq<Label>)
    requires Inv(s) && s.phase.Closed? && IsRun(s, rest)
    ensures var s' := After(s, rest);
            s'.phase.Closed? && s'.subs.table == map[] && s'.subs.all.Keys == s.subs.all.Keys
    decreases |rest|
  {
    if rest != [] {
      InvStep(s, rest[0]);
      StaysClosed(Step(s, rest[0]), rest[1..]);
    }
  }

  /** A collision of ids leaks a subscription: it is in no table and its channel stays open. */
  lemma CollisionWitness(id: string)
    ensures var run := [StartCall, AddSub(0, id), AddSub(1, id)];
            && IsRun(BEGIN, run)
            && var s := After(BEGIN, run); 0 in s.subs.all && !InTable(s.subs, 0) && !s.subs.all[0].closed
  {
    var run := [StartCall, AddSub(0, id), AddSub(1, id)];
    assert run[1..] == [AddSub(0, id), AddSub(1, id)];
    assert run[1..][1..] == [AddSub(1, id)];
    var s1 := Step(BEGIN, StartCall);
    var s2 := Step(s1, AddSub(0, id));
    var s3 := Step(s2, AddSub(1, id));
    assert After(s2, [AddSub(1, id)]) == s3;
    assert After(s1, [AddSub(0, id), AddSub(1, id)]) == s3;
  }

  /** The next step on the way to the end of close, if the calls return. */
  ghost function NextOfClose(s: Life): Label
    requires !s.phase.Closed?
  {
    match s.phase
    case Serving => BeginClose
    case Waiting => if s.calls > 0 then EndCall else CallsAwaited
    case Cancelling => if s.subs.table == map[] then CloseDone else (var id :| id in s.subs.table; CancelStep(id, "client closed"))
  }

  ghost function StepsToClose(s: Life): nat {
    match s.phase
    case Serving => s.calls + |s.subs.table| + 3
    case Waiting => s.calls + |s.subs.table| + 2
    case Cancelling => |s.subs.table| + 1
    case Closed => 0
  }

  /** Close comes to its end in a bounded number of steps, once the calls have returned. */
  lemma CloseFinishes(s: Life)
    requires Inv(s) && !s.phase.Closed?
    ensures Enabled(s, NextOfClose(s)) && StepsToClose(Step(s, NextOfClose(s))) < StepsToClose(s)
  {
    if s.phase.Cancelling? && s.subs.table != map[] {
      var l := NextOfClose(s);
      assert (s.subs.table - {l.id}).Keys == s.subs.table.Keys - {l.id};
    }
  }
}
