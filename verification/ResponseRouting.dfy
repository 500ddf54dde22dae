/**
 What handleResponses does to the request table, stated without its loop:
 which requests a batch resolves, what they receive, what stays registered, and where
 every message goes.
 */
module ResponseRouting {
  import opened Options
  import opened Messages
  import opened RequestTable

  /** The ids borne by the responses among the first `k` messages. */
  ghost function AnsweredIds(batch: Batch, k: nat): set<string>
    requires k <= |batch|
  {
    if k == 0 then {}
    else AnsweredIds(batch, k - 1) + (if IsResponse(batch[k - 1]) then {batch[k - 1].id.value} else {})
  }

  /** The requests that have a registered id among the first `k` answers. */
  ghost function Hits(t: Table, batch: Batch, k: nat): set<OpId>
    requires k <= |batch|
  {
    if k == 0 then {}
    else
      var m := batch[k - 1];
      Hits(t, batch, k - 1) +
      (if IsResponse(m) && m.id.value in t.respWait then {t.respWait[m.id.value]} else {})
  }

  lemma {:induction false} AnsweredIdsIff(batch: Batch, k: nat, id: string)
    requires k <= |batch|
    ensures id in AnsweredIds(batch, k) <==>
            exists j :: 0 <= j < k && IsResponse(batch[j]) && batch[j].id.value == id
  {
    if k > 0 {
      AnsweredIdsIff(batch, k - 1, id);
    }
  }

  lemma {:induction false} HitsIff(t: Table, batch: Batch, k: nat, o: OpId)
    requires k <= |batch|
    ensures o in Hits(t, batch, k) <==>
            exists id :: id in t.respWait && t.respWait[id] == o && id in AnsweredIds(batch, k)
  {
    if k > 0 {
      HitsIff(t, batch, k - 1, o);
    }
  }

  /** `b` is request `a` after its first response: the whole batch is sent, but only once. */
  ghost predicate ResolvedBy(a: Op, b: Op, batch: Batch) {
    && b.ids == a.ids && b.isSub == a.isSub && b.hadResponse
    && b.resp == (if a.hadResponse then a.resp else Send(a.resp, batch))
    && (!a.isSub ==> b.err == a.err && b.launches == a.launches)
    && (|a.ids| == 1 ==> b.launches <= a.launches + 1)
  }

  ghost predicate OpsAfter(t: Table, batch: Batch, hits: set<OpId>, ops: map<OpId, Op>) {
    && ops.Keys == t.ops.Keys
    && forall o :: o in t.ops ==>
         if o in hits then ResolvedBy(t.ops[o], ops[o], batch) else ops[o] == t.ops[o]
  }

  /** Where the loop stands after `k` messages, by what was answered so far. */
  ghost predicate Standing(t: Table, batch: Batch, k: nat, p: Progress) {
    && k <= |batch|
    && p.table.respWait == t.respWait - AnsweredIds(batch, k)
    && OpsAfter(t, batch, Hits(t, batch, k), p.table.ops)
    && (forall o :: o in p.resolved <==> o in Hits(t, batch, k))
  }

  lemma {:induction false} PrefixEffect(t: Table, batch: Batch, k: nat)
    requires WellFormed(t) && k <= |batch|
    ensures Standing(t, batch, k, HandlePrefix(t, batch, k))
  {
    if k > 0 {
      PrefixEffect(t, batch, k - 1);
      var p, m := HandlePrefix(t, batch, k - 1), batch[k - 1];
      if AnswersPending(p, m) {
        AnswerStep(t, batch, k - 1, p);
      } else {
        SkipKeepsTable(p, batch, m);
        SkipStep(t, batch, k - 1, p, HandlePrefix(t, batch, k));
      }
    }
  }

  predicate AnswersPending(p: Progress, m: Message) {
    IsResponse(m) && m.id.value in p.table.respWait
  }

  /** A message that answers no registered request leaves the table alone. */
  lemma SkipKeepsTable(p: Progress, batch: Batch, m: Message)
    requires WellFormed(p.table) && !AnswersPending(p, m)
    ensures HandleMessage(p, batch, m).table == p.table && HandleMessage(p, batch, m).resolved == p.resolved
  {
  }

  lemma SkipStep(t: Table, batch: Batch, k: nat, p: Progress, q: Progress)
    requires k < |batch| && Standing(t, batch, k, p) && !AnswersPending(p, batch[k])
    requires q.table == p.table && q.resolved == p.resolved
    ensures Standing(t, batch, k + 1, q)
  {
    if IsResponse(batch[k]) && batch[k].id.value in t.respWait {
      HitsIff(t, batch, k, t.respWait[batch[k].id.value]);
    }
  }

  lemma AnswerStep(t: Table, batch: Batch, k: nat, p: Progress)
    requires WellFormed(t) && WellFormed(p.table) && k < |batch| && Standing(t, batch, k, p)
    requires IsResponse(batch[k]) && batch[k].id.value in p.table.respWait
    ensures Standing(t, batch, k + 1, HandleMessage(p, batch, batch[k]))
  {
    var id := batch[k].id.value;
    var o := t.respWait[id];
    if |t.ops[o].ids| == 1 {
      SingleIdNotHit(t, batch, k, id);
    }
    AnswerResolves(t.ops[o], p.table.ops[o], batch[k], batch);
    OpsAfterUpdate(t, batch, Hits(t, batch, k), p.table.ops, o, RequestTable.Answered(p.table.ops[o], batch[k], batch));
  }

  lemma OpsAfterUpdate(t: Table, batch: Batch, hits: set<OpId>, ops: map<OpId, Op>, o: OpId, op: Op)
    requires OpsAfter(t, batch, hits, ops) && o in t.ops && ResolvedBy(t.ops[o], op, batch)
    ensures OpsAfter(t, batch, hits + {o}, ops[o := op])
  {
  }

  /** A response to an untouched request, or to one with several ids, resolves it. */
  lemma AnswerResolves(a: Op, x: Op, m: Message, batch: Batch)
    requires x == a || (ResolvedBy(a, x, batch) && |a.ids| != 1)
    ensures ResolvedBy(a, RequestTable.Answered(x, m, batch), batch)
  {
  }

  /** The request that message `k` answers had no answer before, or had one under another id. */
  lemma SingleIdNotHit(t: Table, batch: Batch, k: nat, id: string)
    requires WellFormed(t) && k < |batch|
    requires id in t.respWait && id !in AnsweredIds(batch, k)
    requires |t.ops[t.respWait[id]].ids| == 1
    ensures t.respWait[id] !in Hits(t, batch, k)
  {
    HitsIff(t, batch, k, t.respWait[id]);
    assert id == t.ops[t.respWait[id]].ids[0];
  }

  /**
   Effect of a whole batch. A request is resolved exactly when some response of the batch
   bears one of its registered ids; a resolved request keeps no id registered; every other
   request keeps its state and its registrations.
   */
  lemma BatchEffect(t: Table, batch: Batch)
    requires WellFormed(t) && Whole(t)
    ensures var t', hits := HandleResponses(t, batch).table, Hits(t, batch, |batch|);
            && OpsAfter(t, batch, hits, t'.ops)
            && (forall id :: id in t'.respWait <==> id in t.respWait && t.respWait[id] !in hits)
            && (forall id :: id in t'.respWait ==> t'.respWait[id] == t.respWait[id])
  {
    PrefixEffect(t, batch, |batch|);
    var p := HandlePrefix(t, batch, |batch|);
    assert forall o :: o in t.ops ==> p.table.ops[o].ids == t.ops[o].ids;
    forall id | id in t.respWait
      ensures OwnedBy(p.table.ops, p.resolved, id) <==> t.respWait[id] in p.resolved
    {
      forall o | o in p.resolved && o in p.table.ops && id in p.table.ops[o].ids ensures o == t.respWait[id] {
        HitsIff(t, batch, |batch|, o);
      }
    }
    forall id | id in t.respWait && id in AnsweredIds(batch, |batch|)
      ensures t.respWait[id] in p.resolved
    {
      HitsIff(t, batch, |batch|, t.respWait[id]);
    }
  }

  // ---- routing -----------------------------------------------------------------------

  ghost predicate ForCallHandler(m: Message) {
    !IsResponse(m) && !IsSubscriptionEvent(m)
  }

  /** The messages of the batch that are for the call handler, in their original order. */
  ghost function CallMessages(batch: Batch): Batch {
    if batch == [] then []
    else
      var n := |batch| - 1;
      CallMessages(batch[..n]) + (if ForCallHandler(batch[n]) then [batch[n]] else [])
  }

  /**
   The destination of message `j`: the first response to a registered id goes to its request,
   further responses to that id and responses to unknown ids are dropped, and a subscription
   event goes to the subscription that is active when the loop reaches it.
   */
  ghost predicate RoutedRight(t: Table, batch: Batch, j: nat, r: Route)
    requires WellFormed(t) && j < |batch|
  {
    var m, subs := batch[j], HandlePrefix(t, batch, j).table.clientSubs;
    if IsResponse(m) then
      r == if m.id.value in t.respWait && m.id.value !in AnsweredIds(batch, j) then ToRequest(t.respWait[m.id.value]) else Dropped
    else if IsSubscriptionEvent(m) then
      || (r == Dropped && forall e :: m.params.Some? && m.params.value.asSubResult == Some(e) ==> e.id !in subs)
      || (r.ToSubscription? && exists e :: m.params.Some? && m.params.value.asSubResult == Some(e)
                                          && e.id in subs && r == ToSubscription(subs[e.id], e.result))
    else r == ToCallHandler
  }

  lemma {:induction false} RoutesOfPrefix(t: Table, batch: Batch, k: nat)
    requires WellFormed(t) && k <= |batch|
    ensures |HandlePrefix(t, batch, k).routes| == k
    ensures forall j :: 0 <= j < k ==> RoutedRight(t, batch, j, HandlePrefix(t, batch, k).routes[j])
  {
    if k > 0 {
      RoutesOfPrefix(t, batch, k - 1);
      NextRoute(t, batch, k - 1);
    }
  }

  lemma NextRoute(t: Table, batch: Batch, k: nat)
    requires WellFormed(t) && k < |batch|
    ensures var p, q := HandlePrefix(t, batch, k), HandlePrefix(t, batch, k + 1);
            |q.routes| == |p.routes| + 1 && q.routes[..|p.routes|] == p.routes
            && RoutedRight(t, batch, k, q.routes[|p.routes|])
  {
    PrefixEffect(t, batch, k);
  }

  /** Every message of a batch has exactly one destination, and calls keep their order. */
  lemma BatchRouting(t: Table, batch: Batch)
    requires WellFormed(t)
    ensures var routes := HandleResponses(t, batch).routes;
            && |routes| == |batch|
            && (forall j :: 0 <= j < |batch| ==> RoutedRight(t, batch, j, routes[j]))
            && CallsOf(batch, routes) == CallMessages(batch)
  {
    RoutesOfPrefix(t, batch, |batch|);
    var routes := HandleResponses(t, batch).routes;
    forall j | 0 <= j < |batch|
      ensures routes[j].ToCallHandler? <==> ForCallHandler(batch[j])
    {
      assert RoutedRight(t, batch, j, routes[j]);
    }
    CallsAreFiltered(batch, routes);
  }

  lemma {:induction false} CallsAreFiltered(batch: Batch, routes: seq<Route>)
    requires |routes| == |batch|
    requires forall j :: 0 <= j < |batch| ==> (routes[j].ToCallHandler? <==> ForCallHandler(batch[j]))
    ensures CallsOf(batch, routes) == CallMessages(batch)
  {
    if batch != [] {
      CallsAreFiltered(batch[..|batch| - 1], routes[..|batch| - 1]);
    }
  }
}
