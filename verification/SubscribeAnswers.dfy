/**
 What a batch of responses tells a subscribe request (rpc/handler.go, the subscription branch
 of handleResponses), by the fields of the message that answers it.
 */
module SubscribeAnswers {
  import opened Options
  import opened Messages
  import opened RequestTable
  import ResponseRouting

  /** The subscription id that a response grants: no error, and a result that decodes. */
  function GrantedId(m: Message): Option<string> {
    if m.error.None? && m.result.Some? then m.result.value.asSubId else None
  }

  /** The error that a subscribe call returns for its response. */
  function Verdict(m: Message): Option<Failure> {
    match m.error
    case Some(e) => Some(ServerError(e))
    case None => if GrantedId(m).Some? then None else Some(BadSubscriptionId)
  }

  /** Message `j` is a response to a registered id of `o`, and the first to that id. */
  ghost predicate AnswersAt(t: Table, batch: Batch, j: nat, o: OpId)
    requires j < |batch|
  {
    var m := batch[j];
    && IsResponse(m) && m.id.value in t.respWait && t.respWait[m.id.value] == o
    && m.id.value !in ResponseRouting.AnsweredIds(batch, j)
  }

  /** The message among the first `k` that answers request `o`, which has one id. */
  ghost function AnswerTo(t: Table, batch: Batch, k: nat, o: OpId): Option<Message>
    requires k <= |batch|
  {
    if k == 0 then None
    else if AnswersAt(t, batch, k - 1, o) then Some(batch[k - 1])
    else AnswerTo(t, batch, k - 1, o)
  }

  /** It is the first response of the batch that bears the registered id. */
  lemma {:induction false} AnswerIsFirst(t: Table, batch: Batch, k: nat, o: OpId)
    requires k <= |batch|
    ensures AnswerTo(t, batch, k, o).None? <==> forall j :: 0 <= j < k ==> !AnswersAt(t, batch, j, o)
    ensures AnswerTo(t, batch, k, o).Some? ==>
              exists j :: 0 <= j < k && AnswersAt(t, batch, j, o) && AnswerTo(t, batch, k, o) == Some(batch[j])
  {
    if k > 0 {
      AnswerIsFirst(t, batch, k - 1, o);
      if AnswersAt(t, batch, k - 1, o) {
        assert AnswerTo(t, batch, k, o) == Some(batch[k - 1]);
      }
    }
  }

  /** What is still registered for the next message. */
  lemma StandsOnRest(t: Table, batch: Batch, k: nat, o: OpId)
    requires WellFormed(t) && k < |batch|
    ensures var wait := HandlePrefix(t, batch, k).table.respWait;
            var m := batch[k];
            IsResponse(m) && m.id.value in wait && wait[m.id.value] == o <==> AnswersAt(t, batch, k, o)
  {
    ResponseRouting.PrefixEffect(t, batch, k);
  }

  /** The one id of a request is answered once. */
  lemma AnswersOnce(t: Table, batch: Batch, k: nat, o: OpId)
    requires WellFormed(t) && k < |batch| && o in t.ops && |t.ops[o].ids| == 1 && AnswersAt(t, batch, k, o)
    ensures AnswerTo(t, batch, k, o).None?
  {
    var id := batch[k].id.value;
    assert t.ops[o].ids == [id];
    forall j | 0 <= j < k ensures !AnswersAt(t, batch, j, o) {
      ResponseRouting.AnsweredIdsIff(batch, k, id);
    }
    AnswerIsFirst(t, batch, k, o);
  }

  /** A subscribe request after message `m` answered it. */
  ghost predicate ToldBy(a: Op, b: Op, m: Message) {
    && b.ids == a.ids && b.isSub && b.hadResponse
    && b.err == Verdict(m)
    && b.launches == a.launches + if GrantedId(m).Some? then 1 else 0
  }

  lemma MessageTells(p: Progress, batch: Batch, m: Message, o: OpId)
    requires WellFormed(p.table) && o in p.table.ops && p.table.ops[o].isSub
    ensures var ops, t' := p.table.ops, HandleMessage(p, batch, m).table;
            && o in t'.ops
            && if IsResponse(m) && m.id.value in p.table.respWait && p.table.respWait[m.id.value] == o
               then ToldBy(ops[o], t'.ops[o], m) else t'.ops[o] == ops[o]
  {
  }

  lemma {:induction false} PrefixTells(t: Table, batch: Batch, k: nat, o: OpId)
    requires WellFormed(t) && k <= |batch| && o in t.ops && t.ops[o].isSub && |t.ops[o].ids| == 1
    ensures var ops := HandlePrefix(t, batch, k).table.ops;
            && o in ops
            && match AnswerTo(t, batch, k, o) case None => ops[o] == t.ops[o] case Some(m) => ToldBy(t.ops[o], ops[o], m)
  {
    if k > 0 {
      PrefixTells(t, batch, k - 1, o);
      StandsOnRest(t, batch, k - 1, o);
      MessageTells(HandlePrefix(t, batch, k - 1), batch, batch[k - 1], o);
      if AnswersAt(t, batch, k - 1, o) {
        AnswersOnce(t, batch, k - 1, o);
      }
    }
  }

  /**
   A subscribe request takes over the server's error, or an error if the result is no
   subscription id, or else no error and one start of its loop, from the first response of
   the batch that bears its registered id; without one it stays as it is.
   */
  lemma SubscribeOutcome(t: Table, batch: Batch, o: OpId)
    requires WellFormed(t) && o in t.ops && t.ops[o].isSub && |t.ops[o].ids| == 1
    ensures var ops := HandleResponses(t, batch).table.ops;
            && o in ops
            && match AnswerTo(t, batch, |batch|, o) case None => ops[o] == t.ops[o] case Some(m) => ToldBy(t.ops[o], ops[o], m)
  {
    PrefixTells(t, batch, |batch|, o);
  }

  /** The request whose loop message `j` starts, and the id under which it becomes active. */
  ghost predicate Grants(t: Table, batch: Batch, j: nat, o: OpId, x: string)
    requires j < |batch|
  {
    o in t.ops && t.ops[o].isSub && AnswersAt(t, batch, j, o) && GrantedId(batch[j]) == Some(x)
  }

  /** A granted subscription becomes active under the id that the server chose; nothing else does. */
  lemma GrantActivates(t: Table, batch: Batch, j: nat)
    requires WellFormed(t) && j < |batch|
    ensures var subs, subs' := HandlePrefix(t, batch, j).table.clientSubs, HandlePrefix(t, batch, j + 1).table.clientSubs;
            && (forall o, x :: Grants(t, batch, j, o, x) ==> subs' == subs[x := o])
            && ((forall o, x :: !Grants(t, batch, j, o, x)) ==> subs' == subs)
  {
    var p, m := HandlePrefix(t, batch, j), batch[j];
    ResponseRouting.PrefixEffect(t, batch, j);
    if IsResponse(m) && m.id.value in p.table.respWait {
      var o := p.table.respWait[m.id.value];
      StandsOnRest(t, batch, j, o);
      if t.ops[o].isSub && GrantedId(m).Some? {
        assert Grants(t, batch, j, o, GrantedId(m).value);
      }
    }
  }
}
