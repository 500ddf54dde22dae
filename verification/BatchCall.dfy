/** Matching the responses of a batch to its elements (rpc/client.go, BatchCallContext). */
module BatchCall {
  import opened Options
  import opened Messages
  import opened RequestIds

  /** What an element of the batch ends up with. */
  datatype Elem =
    | Untouched
    | Failed(error: RpcError)
    | NoResult
    | Decoding(result: Raw)          // the result, or the error of decoding it
    | MissingResponse

  /** A null entry of the response array is None. */
  type Responses = seq<Option<Message>>

  function Assigned(m: Message): Elem {
    if m.error.Some? then Failed(m.error.value)
    else if m.result.None? then NoResult
    else Decoding(m.result.value)
  }

  predicate Bears(r: Option<Message>, id: string) {
    r.Some? && r.value.id == Some(id)
  }

  /** The position of the first response among the first `n` that bears `id`. */
  ghost function First(rs: Responses, n: nat, id: string): Option<nat>
    requires n <= |rs|
  {
    if n == 0 then None
    else
      var j := First(rs, n - 1, id);
      if j.Some? then j else if Bears(rs[n - 1], id) then Some(n - 1) else None
  }

  lemma {:induction false} FirstIsFirst(rs: Responses, n: nat, id: string)
    requires n <= |rs|
    ensures First(rs, n, id).None? <==> forall k :: 0 <= k < n ==> !Bears(rs[k], id)
    ensures First(rs, n, id).Some? ==>
              var j := First(rs, n, id).value;
              j < n && Bears(rs[j], id) && forall k :: 0 <= k < j ==> !Bears(rs[k], id)
  {
    if n > 0 {
      FirstIsFirst(rs, n - 1, id);
    }
  }

  /** The element reports the error of the response, or its result, or that it has neither. */
  predicate Reflects(m: Message, e: Elem) {
    match e
    case Failed(error) => m.error == Some(error)
    case NoResult => m.error.None? && m.result.None?
    case Decoding(result) => m.error.None? && m.result == Some(result)
    case _ => false
  }

  /** `e` is the outcome of the first response bearing `id`, or `none` if there is none. */
  ghost predicate OutcomeOf(rs: Responses, n: nat, id: string, e: Elem, none: Elem)
    requires n <= |rs|
  {
    var j := First(rs, n, id);
    if j.None? then e == none else j.value < n && rs[j.value].Some? && Reflects(rs[j.value].value, e)
  }

  ghost predicate Distinct(ids: seq<string>) {
    forall i, j :: 0 <= i < j < |ids| ==> ids[i] != ids[j]
  }

  /** The table of the ids that no response has answered yet. */
  ghost predicate PendingIds(byID: map<string, nat>, ids: seq<string>, rs: Responses, n: nat)
    requires n <= |rs|
  {
    && (forall i :: 0 <= i < |ids| ==> (ids[i] in byID <==> First(rs, n, ids[i]).None?))
    && (forall id :: id in byID ==> byID[id] < |ids| && ids[byID[id]] == id)
    && "" !in byID
  }

  /** Where the second loop stands after `n` responses. */
  ghost predicate Progress(ids: seq<string>, rs: Responses, n: nat, left: map<string, nat>, elems: seq<Elem>, before: seq<Elem>) {
    && n <= |rs| && |elems| == |before| == |ids|
    && PendingIds(left, ids, rs, n)
    && forall i :: 0 <= i < |ids| ==> OutcomeOf(rs, n, ids[i], elems[i], before[i])
  }

  /** A null response, a duplicate or a response with a foreign id changes nothing. */
  lemma Ignored(ids: seq<string>, rs: Responses, n: nat, left: map<string, nat>, elems: seq<Elem>, before: seq<Elem>)
    requires Progress(ids, rs, n, left, elems, before) && n < |rs|
    requires forall id :: id in left ==> !Bears(rs[n], id)
    ensures Progress(ids, rs, n + 1, left, elems, before)
  {
    forall i | 0 <= i < |ids| ensures First(rs, n + 1, ids[i]) == First(rs, n, ids[i]) {
    }
  }

  lemma Matched(ids: seq<string>, rs: Responses, n: nat, left: map<string, nat>, elems: seq<Elem>, before: seq<Elem>, id: string)
    requires Progress(ids, rs, n, left, elems, before) && n < |rs| && Distinct(ids)
    requires id in left && Bears(rs[n], id)
    ensures Progress(ids, rs, n + 1, left - {id}, elems[left[id] := Assigned(rs[n].value)], before)
  {
    forall i | 0 <= i < |ids|
      ensures First(rs, n + 1, ids[i]) == if i == left[id] then Some(n) else First(rs, n, ids[i])
    {
    }
  }

  /** The first loop: draws an id per element and indexes the elements by id. */
  method AssignIds(draws: seq<nat>, first: nat) returns (ids: seq<string>, byID: map<string, nat>)
    requires forall i :: 0 <= i < |draws| ==> first <= draws[i] < first + WRAP
    requires forall i, j :: 0 <= i < j < |draws| ==> draws[i] < draws[j]
    ensures |ids| == |draws| && Distinct(ids)
    ensures forall i :: 0 <= i < |ids| ==> ids[i] == Draw(draws[i])
    ensures PendingIds(byID, ids, [], 0)
  {
    ids, byID := [], map[];
    for i := 0 to |draws|
      invariant |ids| == i
      invariant forall j :: 0 <= j < i ==> ids[j] == Draw(draws[j]) && ids[j] in byID
      invariant forall id :: id in byID ==> byID[id] < i && ids[byID[id]] == id
      invariant "" !in byID
    {
      DrawIsNumber(draws[i]);
      ids := ids + [Draw(draws[i])];
      byID := byID[ids[i] := i];
    }
    DistinctInWindow(draws, first);
  }

  /** The second loop: assigns each response to the element that still waits for its id. */
  method AssignResponses(ids: seq<string>, byID: map<string, nat>, rs: Responses, elems: array<Elem>)
    returns (left: map<string, nat>)
    requires elems.Length == |ids| && Distinct(ids) && PendingIds(byID, ids, rs, 0)
    modifies elems
    ensures PendingIds(left, ids, rs, |rs|)
    ensures forall i :: 0 <= i < |ids| ==> OutcomeOf(rs, |rs|, ids[i], elems[i], old(elems[i]))
  {
    left := byID;
    ghost var before := elems[..];
    for n := 0 to |rs|
      invariant Progress(ids, rs, n, left, elems[..], before)
    {
      var id := if rs[n].Some? && rs[n].value.id.Some? then rs[n].value.id.value else "";
      if rs[n].None? || id !in left {
        Ignored(ids, rs, n, left, elems[..], before);
        continue;
      }
      Matched(ids, rs, n, left, elems[..], before, id);
      elems[left[id]] := Assigned(rs[n].value);
      left := left - {id};
    }
  }

  /** The last loop, over what is left in the table, in any order. */
  method MarkMissing(ids: seq<string>, left: map<string, nat>, elems: array<Elem>)
    requires elems.Length == |ids| && Distinct(ids)
    requires forall id :: id in left ==> left[id] < |ids| && ids[left[id]] == id
    modifies elems
    ensures forall i :: 0 <= i < |ids| ==> elems[i] == if ids[i] in left then MissingResponse else old(elems[i])
  {
    var rest := left;
    while rest != map[]
      invariant rest.Keys <= left.Keys && forall id :: id in rest ==> rest[id] == left[id]
      invariant forall i :: 0 <= i < |ids| ==>
                  elems[i] == if ids[i] in left && ids[i] !in rest then MissingResponse else old(elems[i])
      decreases |rest|
    {
      var id :| id in rest;
      elems[rest[id]] := MissingResponse;
      rest := rest - {id};
    }
  }

  /**
   Every element gets the outcome of the first response that bears its id, and
   ErrMissingBatchResponse if there is none; later duplicates and responses with foreign ids
   have no effect. `draws` are the numbers of the id draws made for the elements.
   */
  method BatchCallContext(draws: seq<nat>, first: nat, rs: Responses, elems: array<Elem>) returns (ids: seq<string>)
    requires elems.Length == |draws|
    requires forall i :: 0 <= i < |draws| ==> first <= draws[i] < first + WRAP
    requires forall i, j :: 0 <= i < j < |draws| ==> draws[i] < draws[j]
    modifies elems
    ensures |ids| == |draws| && forall i :: 0 <= i < |ids| ==> ids[i] == Draw(draws[i])
    ensures forall i :: 0 <= i < |ids| ==> OutcomeOf(rs, |rs|, ids[i], elems[i], MissingResponse)
  {
    var byID;
    ids, byID := AssignIds(draws, first);
    assert PendingIds(byID, ids, rs, 0);
    var left := AssignResponses(ids, byID, rs, elems);
    MarkMissing(ids, left, elems);
  }
}
