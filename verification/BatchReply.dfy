/**
 Replies to a batch of calls (rpc/handler.go): the buffer shared by the goroutine that
 processes the calls and the one that runs when the request times out.
 */
module BatchReply {
  import opened Options
  import opened Messages

  /** The buffer, with the arrays that were written to the connection. */
  datatype Buffer = Buffer(calls: seq<Message>, resp: seq<Message>, wrote: bool, written: seq<seq<Message>>)

  function NextCall(b: Buffer): Option<Message> {
    if b.calls == [] then None else Some(b.calls[0])
  }

  function PushResponse(b: Buffer, answer: Option<Message>): Buffer
    requires b.calls != []
  {
    b.(resp := b.resp + Present(answer), calls := b.calls[1..])
  }

  function Write(b: Buffer): Buffer {
    if b.wrote then b
    else b.(wrote := true, written := if b.resp == [] then b.written else b.written + [b.resp])
  }

  function RespondWithError(b: Buffer, err: RpcError): Buffer {
    Write(b.(resp := b.resp + ErrorReplies(b.calls, err)))
  }

  function Present(answer: Option<Message>): seq<Message> {
    if answer.Some? then [answer.value] else []
  }

  function Flatten(answers: seq<Option<Message>>): seq<Message> {
    if answers == [] then []
    else Flatten(answers[..|answers| - 1]) + Present(answers[|answers| - 1])
  }

  /** The messages that are owed a reply, in their original order. */
  function Requests(msgs: seq<Message>): seq<Message> {
    if msgs == [] then []
    else Requests(msgs[..|msgs| - 1]) + (if IsNotification(msgs[|msgs| - 1]) then [] else [msgs[|msgs| - 1]])
  }

  function ErrorReplies(calls: seq<Message>, err: RpcError): seq<Message> {
    if calls == [] then []
    else
      ErrorReplies(calls[..|calls| - 1], err) +
      (if IsNotification(calls[|calls| - 1]) then [] else [ErrorResponse(calls[|calls| - 1], err)])
  }

  /** What the method behind a call comes to, whichever way it fails. */
  datatype CallOutcome = Fails(err: RpcError) | Returns(result: Raw)

  const INVALID_REQUEST := RpcError(ERRCODE_INVALID_REQUEST, "invalid request")

  /** handleCallMsg: the answer to one message. */
  function HandleCallMsg(m: Message, outcome: CallOutcome): (answer: Option<Message>)
    ensures AnswerFor(m, answer)
    ensures !IsNotification(m) ==> Reports(m, outcome, answer.value)
  {
    if IsNotification(m) then None
    else if IsCall(m) then
      match outcome
      case Fails(err) => Some(ErrorResponse(m, err))
      case Returns(result) => Some(Message(VERSION, m.id, "", None, None, Some(result)))
    else if HasValidId(m) then Some(ErrorResponse(m, INVALID_REQUEST))
    else Some(ErrorMessage(INVALID_REQUEST))
  }

  /** Nothing for a notification, else a reply with the id of the message, or null if that is invalid. */
  predicate AnswerFor(m: Message, answer: Option<Message>) {
    if IsNotification(m) then answer.None?
    else answer.Some? && answer.value.id == (if HasValidId(m) then m.id else Some(NULL_ID))
  }

  /** The message says what the method came to, or that the request is invalid. */
  predicate Reports(m: Message, outcome: CallOutcome, a: Message) {
    && a.version == "2.0" && a.methodName == "" && a.params.None?
    && a.id == (if HasValidId(m) then m.id else Some("null"))
    && if !IsCall(m) then a.error.Some? && a.error.value.code == -32600 && a.result.None?
       else
         match outcome
         case Returns(result) => a.result == Some(result) && a.error.None?
         case Fails(err) => a.error == Some(err) && a.result.None?
  }

  /** The message refuses the request with an error of this code. */
  predicate Refuses(m: Message, code: int, a: Message) {
    && a.version == "2.0" && a.methodName == "" && a.params.None? && a.id == m.id
    && a.error.Some? && a.error.value.code == code && a.result.None?
  }

  /** What the server answers, the client takes for a response to the id of the request. */
  lemma AnswerIsResponse(m: Message, outcome: CallOutcome, code: int, a: Message)
    requires Reports(m, outcome, a) || (Refuses(m, code, a) && HasValidId(m))
    ensures IsResponse(a) && (HasValidId(m) ==> a.id == m.id)
  {
  }

  /** The two ways to answer a message, by itself and by an error for the rest, agree on the id
      exactly if the id is valid. */
  lemma IdsAgreeIffValid(m: Message, outcome: CallOutcome, err: RpcError)
    requires !IsNotification(m)
    ensures HandleCallMsg(m, outcome).Some?
    ensures HandleCallMsg(m, outcome).value.id == ErrorResponse(m, err).id <==> HasValidId(m)
  {
    assert NULL_ID[0] == 'n';
  }

  predicate RepliesTo(m: Message, reply: Message) {
    HasValidId(m) ==> reply.id == m.id
  }

  /** One reply per message that is owed one, in order, with matching ids. */
  ghost predicate Complete(msgs: seq<Message>, reply: seq<Message>) {
    && |reply| == |Requests(msgs)|
    && forall j :: 0 <= j < |reply| ==> RepliesTo(Requests(msgs)[j], reply[j])
  }

  ghost predicate AllAnswered(msgs: seq<Message>, answers: seq<Option<Message>>) {
    && |answers| <= |msgs|
    && forall i :: 0 <= i < |answers| ==> AnswerFor(msgs[i], answers[i])
  }

  lemma {:induction false} AnswersComplete(msgs: seq<Message>, answers: seq<Option<Message>>)
    requires AllAnswered(msgs, answers)
    ensures Complete(msgs[..|answers|], Flatten(answers))
  {
    var k := |answers|;
    if k > 0 {
      AnswersComplete(msgs, answers[..k - 1]);
      assert msgs[..k][..k - 1] == msgs[..k - 1];
      assert AnswerFor(msgs[k - 1], answers[k - 1]);
    }
  }

  lemma {:induction false} ErrorsComplete(calls: seq<Message>, err: RpcError)
    ensures Complete(calls, ErrorReplies(calls, err))
    ensures forall r :: r in ErrorReplies(calls, err) ==> r.error == Some(err)
  {
    if calls != [] {
      ErrorsComplete(calls[..|calls| - 1], err);
    }
  }

  lemma {:induction false} RequestsConcat(a: seq<Message>, b: seq<Message>)
    ensures Requests(a + b) == Requests(a) + Requests(b)
  {
    if b == [] {
      assert a + b == a;
    } else {
      var front, last := b[..|b| - 1], b[|b| - 1];
      RequestsConcat(a, front);
      assert (a + b)[..|a + b| - 1] == a + front && (a + b)[|a + b| - 1] == last;
    }
  }

  /** The answers so far, followed by an error for every remaining call, are a complete reply. */
  lemma PrefixThenErrors(msgs: seq<Message>, answers: seq<Option<Message>>, err: RpcError)
    requires AllAnswered(msgs, answers)
    ensures Complete(msgs, Flatten(answers) + ErrorReplies(msgs[|answers|..], err))
  {
    var k := |answers|;
    AnswersComplete(msgs, answers);
    ErrorsComplete(msgs[k..], err);
    RequestsConcat(msgs[..k], msgs[k..]);
    assert msgs == msgs[..k] + msgs[k..];
  }

  // ---- the contents of a reply -----------------------------------------------------------

  /** The position of the reply to message `i`: one place for every request before it. */
  ghost function Position(msgs: seq<Message>, i: nat): nat
    requires i <= |msgs|
  {
    |Requests(msgs[..i])|
  }

  lemma {:induction false} AnswerPosition(msgs: seq<Message>, answers: seq<Option<Message>>, i: nat)
    requires AllAnswered(msgs, answers) && i < |answers| && answers[i].Some?
    ensures var p := Position(msgs, i); p < |Flatten(answers)| && Flatten(answers)[p] == answers[i].value
  {
    var n := |answers| - 1;
    assert AllAnswered(msgs, answers[..n]);
    if i < n {
      AnswerPosition(msgs, answers[..n], i);
    } else {
      AnswersComplete(msgs, answers[..n]);
    }
  }

  lemma {:induction false} ErrorPosition(calls: seq<Message>, err: RpcError, i: nat)
    requires i < |calls| && !IsNotification(calls[i])
    ensures var p := Position(calls, i);
            p < |ErrorReplies(calls, err)| && ErrorReplies(calls, err)[p] == ErrorResponse(calls[i], err)
  {
    var n := |calls| - 1;
    if i < n {
      ErrorPosition(calls[..n], err, i);
      assert calls[..n][..i] == calls[..i];
    } else {
      ErrorsComplete(calls[..n], err);
    }
  }

  /** Message `i` got what its method came to if it is among the first `k`, else the error. */
  ghost predicate EntryFor(msgs: seq<Message>, outcomes: seq<CallOutcome>, k: nat, code: int, reply: seq<Message>, i: nat)
    requires k <= |outcomes| && i < |msgs|
  {
    var p := Position(msgs, i);
    p < |reply| && if i < k then Reports(msgs[i], outcomes[i], reply[p]) else Refuses(msgs[i], code, reply[p])
  }

  /** One entry per request, in order: outcomes for the first `k` messages, the error for the rest. */
  ghost predicate Contents(msgs: seq<Message>, outcomes: seq<CallOutcome>, k: nat, code: int, reply: seq<Message>) {
    && k <= |outcomes| && |reply| == |Requests(msgs)|
    && forall i :: 0 <= i < |msgs| && !IsNotification(msgs[i]) ==> EntryFor(msgs, outcomes, k, code, reply, i)
  }

  ghost predicate AnswersAre(msgs: seq<Message>, outcomes: seq<CallOutcome>, answers: seq<Option<Message>>) {
    && |answers| <= |msgs| && |answers| <= |outcomes|
    && forall i :: 0 <= i < |answers| ==> answers[i] == HandleCallMsg(msgs[i], outcomes[i])
  }

  lemma EntryOfAnswer(msgs: seq<Message>, outcomes: seq<CallOutcome>, answers: seq<Option<Message>>, tail: seq<Message>, code: int, i: nat)
    requires AnswersAre(msgs, outcomes, answers) && i < |answers| && !IsNotification(msgs[i])
    ensures EntryFor(msgs, outcomes, |answers|, code, Flatten(answers) + tail, i)
  {
    assert AnswerFor(msgs[i], answers[i]);
    AnswerPosition(msgs, answers, i);
  }

  lemma EntryOfError(msgs: seq<Message>, outcomes: seq<CallOutcome>, answers: seq<Option<Message>>, err: RpcError, i: nat)
    requires AnswersAre(msgs, outcomes, answers) && |answers| <= i < |msgs| && !IsNotification(msgs[i])
    ensures EntryFor(msgs, outcomes, |answers|, err.code, Flatten(answers) + ErrorReplies(msgs[|answers|..], err), i)
  {
    var k := |answers|;
    var front, back := Flatten(answers), ErrorReplies(msgs[k..], err);
    AnswersComplete(msgs, answers);
    ErrorPosition(msgs[k..], err, i - k);
    PositionSplit(msgs, k, i);
    assert (front + back)[Position(msgs, i)] == back[Position(msgs[k..], i - k)];
  }

  lemma PositionSplit(msgs: seq<Message>, k: nat, i: nat)
    requires k <= i <= |msgs|
    ensures Position(msgs, i) == |Requests(msgs[..k])| + Position(msgs[k..], i - k)
  {
    assert msgs[..i] == msgs[..k] + msgs[k..][..i - k];
    RequestsConcat(msgs[..k], msgs[k..][..i - k]);
  }

  /** Answers of a prefix, then an error for every remaining request. */
  lemma ContentsWithErrors(msgs: seq<Message>, outcomes: seq<CallOutcome>, answers: seq<Option<Message>>, err: RpcError)
    requires AnswersAre(msgs, outcomes, answers)
    ensures Contents(msgs, outcomes, |answers|, err.code, Flatten(answers) + ErrorReplies(msgs[|answers|..], err))
  {
    PrefixThenErrors(msgs, answers, err);
    forall i | 0 <= i < |msgs| && !IsNotification(msgs[i])
      ensures EntryFor(msgs, outcomes, |answers|, err.code, Flatten(answers) + ErrorReplies(msgs[|answers|..], err), i)
    {
      if i < |answers| {
        EntryOfAnswer(msgs, outcomes, answers, ErrorReplies(msgs[|answers|..], err), err.code, i);
      } else {
        EntryOfError(msgs, outcomes, answers, err, i);
      }
    }
  }

  /** Answers of a prefix only: a reply to that prefix. */
  lemma ContentsOfPrefix(msgs: seq<Message>, outcomes: seq<CallOutcome>, answers: seq<Option<Message>>, code: int)
    requires AnswersAre(msgs, outcomes, answers)
    ensures Contents(msgs[..|answers|], outcomes, |answers|, code, Flatten(answers))
  {
    var k := |answers|;
    AnswersComplete(msgs, answers);
    forall i | 0 <= i < k && !IsNotification(msgs[..k][i]) ensures EntryFor(msgs[..k], outcomes, k, code, Flatten(answers), i) {
      EntryOfAnswer(msgs[..k], outcomes, answers, [], code, i);
      assert Flatten(answers) + [] == Flatten(answers);
    }
  }

  lemma FlattenPush(answers: seq<Option<Message>>, answer: Option<Message>)
    ensures Flatten(answers + [answer]) == Flatten(answers) + Present(answer)
  {
    assert (answers + [answer])[..|answers|] == answers;
  }

  // ---- the response size limit -----------------------------------------------------------

  function ResultBytes(answer: Option<Message>): nat {
    if answer.Some? && answer.value.result.Some? then |answer.value.result.value.text| else 0
  }

  function TotalBytes(answers: seq<Option<Message>>): nat {
    if answers == [] then 0 else TotalBytes(answers[..|answers| - 1]) + ResultBytes(answers[|answers| - 1])
  }

  /** The first `k` answers exceed the limit; only an answer that is sent is counted. */
  predicate Exceeds(answers: seq<Option<Message>>, limit: int, k: nat)
    requires k <= |answers|
  {
    k > 0 && answers[k - 1].Some? && limit != 0 && TotalBytes(answers[..k]) > limit
  }

  /** `k` is the length of the shortest prefix over the limit, or of the whole batch. */
  ghost predicate IsCut(answers: seq<Option<Message>>, limit: int, k: nat) {
    && k <= |answers|
    && (k == |answers| || Exceeds(answers, limit, k))
    && forall j :: 0 <= j < k ==> !Exceeds(answers, limit, j)
  }

  const TOO_LARGE := RpcError(ERRCODE_RESPONSE_TOO_LARGE, "response too large")
  const TIMED_OUT := RpcError(ERRCODE_TIMEOUT, "request timed out")

  lemma TotalPush(answers: seq<Option<Message>>, k: nat)
    requires k < |answers|
    ensures TotalBytes(answers[..k + 1]) == TotalBytes(answers[..k]) + ResultBytes(answers[k])
  {
    assert answers[..k + 1][..k] == answers[..k];
  }

  lemma PushNext(answers: seq<Option<Message>>, k: nat)
    requires k < |answers|
    ensures Flatten(answers[..k + 1]) == Flatten(answers[..k]) + Present(answers[k])
    ensures TotalBytes(answers[..k + 1]) == TotalBytes(answers[..k]) + ResultBytes(answers[k])
  {
    assert answers[..k + 1] == answers[..k] + [answers[k]];
    FlattenPush(answers[..k], answers[k]);
    TotalPush(answers, k);
  }

  /** The length of the result that a message is answered with. */
  function SizeOf(m: Message, outcome: CallOutcome): nat {
    if IsCall(m) && outcome.Returns? then |outcome.result.text| else 0
  }

  /** The summed results of the first `k` messages. */
  function SummedSizes(msgs: seq<Message>, outcomes: seq<CallOutcome>, k: nat): nat
    requires k <= |msgs| && k <= |outcomes|
  {
    if k == 0 then 0 else SummedSizes(msgs, outcomes, k - 1) + SizeOf(msgs[k - 1], outcomes[k - 1])
  }

  /** The limit is checked after every answer; zero means that there is none. */
  ghost predicate ExceedsLimit(msgs: seq<Message>, outcomes: seq<CallOutcome>, limit: int, k: nat)
    requires k <= |msgs| && k <= |outcomes|
  {
    k > 0 && !IsNotification(msgs[k - 1]) && limit != 0 && SummedSizes(msgs, outcomes, k) > limit
  }

  /** `k` messages are the shortest prefix over the limit, or all of them if there is none. */
  ghost predicate ShortestOver(msgs: seq<Message>, outcomes: seq<CallOutcome>, limit: int, k: nat) {
    && k <= |msgs| && k <= |outcomes|
    && (k == |msgs| || ExceedsLimit(msgs, outcomes, limit, k))
    && forall j :: 0 <= j < k ==> !ExceedsLimit(msgs, outcomes, limit, j)
  }

  lemma {:induction false} SizesAgree(msgs: seq<Message>, outcomes: seq<CallOutcome>, answers: seq<Option<Message>>, k: nat)
    requires AnswersAre(msgs, outcomes, answers) && k <= |answers|
    ensures TotalBytes(answers[..k]) == SummedSizes(msgs, outcomes, k)
  {
    if k > 0 {
      SizesAgree(msgs, outcomes, answers, k - 1);
      TotalPush(answers, k - 1);
    }
  }

  lemma ExceedsIsOver(msgs: seq<Message>, outcomes: seq<CallOutcome>, answers: seq<Option<Message>>, limit: int, k: nat)
    requires AnswersAre(msgs, outcomes, answers) && k <= |answers|
    ensures Exceeds(answers, limit, k) <==> ExceedsLimit(msgs, outcomes, limit, k)
  {
    SizesAgree(msgs, outcomes, answers, k);
    if k > 0 {
      assert AnswerFor(msgs[k - 1], answers[k - 1]);
    }
  }

  lemma CutIsShortest(msgs: seq<Message>, outcomes: seq<CallOutcome>, answers: seq<Option<Message>>, limit: int, k: nat)
    requires AnswersAre(msgs, outcomes, answers) && |answers| == |msgs| && IsCut(answers, limit, k)
    ensures ShortestOver(msgs, outcomes, limit, k)
  {
    forall j | 0 <= j <= k ensures Exceeds(answers, limit, j) <==> ExceedsLimit(msgs, outcomes, limit, j) {
      ExceedsIsOver(msgs, outcomes, answers, limit, j);
    }
  }

  /** The results of the real answers exceed the limit by at most the last of them. */
  lemma BytesBound(msgs: seq<Message>, outcomes: seq<CallOutcome>, limit: nat, k: nat)
    requires limit > 0 && 0 < k && ShortestOver(msgs, outcomes, limit, k)
    ensures SummedSizes(msgs, outcomes, k) <= limit + SizeOf(msgs[k - 1], outcomes[k - 1])
  {
    UnderLimit(msgs, outcomes, limit, k - 1);
  }

  lemma {:induction false} UnderLimit(msgs: seq<Message>, outcomes: seq<CallOutcome>, limit: nat, k: nat)
    requires limit > 0 && k <= |msgs| && k <= |outcomes|
    requires forall j :: 0 <= j <= k ==> !ExceedsLimit(msgs, outcomes, limit, j)
    ensures SummedSizes(msgs, outcomes, k) <= limit
  {
    if k > 0 {
      UnderLimit(msgs, outcomes, limit, k - 1);
      assert !ExceedsLimit(msgs, outcomes, limit, k);
    }
  }

  // ---- the buffer as an object -----------------------------------------------------------

  class Connection {
    var written: seq<seq<Message>>

    constructor ()
      ensures written == []
    {
      written := [];
    }
  }

  /** Every method runs with the mutex held, hence as one step. */
  class BatchCallBuffer {
    var calls: seq<Message>
    var resp: seq<Message>
    var wrote: bool
    const conn: Connection

    ghost function View(): Buffer
      reads this, conn
    {
      Buffer(calls, resp, wrote, conn.written)
    }

    constructor (calls: seq<Message>, conn: Connection)
      ensures this.conn == conn && View() == Buffer(calls, [], false, conn.written)
    {
      this.calls, this.conn, resp, wrote := calls, conn, [], false;
    }

    method Next() returns (m: Option<Message>)
      ensures m == NextCall(View())
    {
      if |calls| == 0 {
        return None;
      }
      m := Some(calls[0]);
    }

    method Push(answer: Option<Message>)
      requires calls != []
      modifies this`calls, this`resp
      ensures View() == PushResponse(old(View()), answer)
    {
      if answer.Some? {
        resp := resp + [answer.value];
      }
      calls := calls[1..];
    }

    method DoWrite()
      modifies this`wrote, conn
      ensures View() == Write(old(View()))
    {
      if wrote {
        return;
      }
      wrote := true;
      if |resp| > 0 {
        conn.written := conn.written + [resp];
      }
    }

    method Fail(err: RpcError)
      modifies this`resp, this`wrote, conn
      ensures View() == RespondWithError(old(View()), err)
    {
      for i := 0 to |calls|
        invariant resp == old(resp) + ErrorReplies(calls[..i], err)
        invariant wrote == old(wrote) && conn.written == old(conn.written)
      {
        assert calls[..i + 1][..i] == calls[..i];
        if !IsNotification(calls[i]) {
          resp := resp + [ErrorResponse(calls[i], err)];
        }
      }
      assert calls[..|calls|] == calls;
      DoWrite();
    }
  }

  /** The answers that the calls would get if all of them were processed. */
  ghost function AnswersOf(calls: seq<Message>, outcomes: seq<CallOutcome>): (answers: seq<Option<Message>>)
    requires |outcomes| == |calls|
    ensures AllAnswered(calls, answers) && |answers| == |calls|
  {
    seq(|calls|, i requires 0 <= i < |calls| => HandleCallMsg(calls[i], outcomes[i]))
  }

  /** The reply when the first `k` calls get their answers and the rest the size error. */
  ghost function LimitedReply(calls: seq<Message>, answers: seq<Option<Message>>, k: nat): seq<Message>
    requires k <= |answers| == |calls|
  {
    Flatten(answers[..k]) + ErrorReplies(calls[k..], TOO_LARGE)
  }

  /** The connection after a reply; an empty one is not written. */
  ghost function Replied(written: seq<seq<Message>>, reply: seq<Message>): seq<seq<Message>> {
    if reply == [] then written else written + [reply]
  }

  /** Where the loop of handleBatch stands after `k` calls, on a connection with `sent` before. */
  ghost predicate Looping(calls: seq<Message>, answers: seq<Option<Message>>, limit: int, k: nat, bytes: int,
                          b: Buffer, sent: seq<seq<Message>>)
  {
    && k <= |calls| == |answers|
    && b == Buffer(calls[k..], Flatten(answers[..k]), false, sent)
    && (limit != 0 ==> bytes == TotalBytes(answers[..k]))
    && forall j :: 0 <= j <= k ==> !Exceeds(answers, limit, j)
  }

  /** The answer to call `k` takes the batch over the limit. */
  predicate GoesOver(answer: Option<Message>, limit: int, bytes: int) {
    answer.Some? && limit != 0 && bytes + ResultBytes(answer) > limit
  }

  /** One answer, within the limit. */
  lemma LoopGoesOn(calls: seq<Message>, answers: seq<Option<Message>>, limit: int, k: nat, bytes: int,
                   b: Buffer, sent: seq<seq<Message>>)
    requires Looping(calls, answers, limit, k, bytes, b, sent) && k < |calls|
    requires !GoesOver(answers[k], limit, bytes)
    ensures var bytes' := if answers[k].Some? && limit != 0 then bytes + ResultBytes(answers[k]) else bytes;
            Looping(calls, answers, limit, k + 1, bytes', PushResponse(b, answers[k]), sent)
  {
    PushNext(answers, k);
  }

  /** The answer that exceeds the limit is the last real one. */
  lemma LoopGoesOver(calls: seq<Message>, answers: seq<Option<Message>>, limit: int, k: nat, bytes: int,
                     b: Buffer, sent: seq<seq<Message>>)
    requires Looping(calls, answers, limit, k, bytes, b, sent) && k < |calls|
    requires GoesOver(answers[k], limit, bytes)
    ensures IsCut(answers, limit, k + 1)
    ensures RespondWithError(PushResponse(b, answers[k]), TOO_LARGE).written == Replied(sent, LimitedReply(calls, answers, k + 1))
    ensures RespondWithError(PushResponse(b, answers[k]), TOO_LARGE).wrote
  {
    PushNext(answers, k);
    assert b.calls[1..] == calls[k + 1..];
  }

  lemma LoopEnds(calls: seq<Message>, answers: seq<Option<Message>>, limit: int, k: nat, bytes: int,
                 b: Buffer, sent: seq<seq<Message>>)
    requires Looping(calls, answers, limit, k, bytes, b, sent) && b.calls == []
    ensures IsCut(answers, limit, k)
    ensures Write(b).written == Replied(sent, LimitedReply(calls, answers, k))
  {
    assert calls[k..] == [] && k == |calls|;
    assert LimitedReply(calls, answers, k) == b.resp;
  }

  /** The loop of handleBatch, up to the final write. */
  method ProcessCalls(buffer: BatchCallBuffer, calls: seq<Message>, outcomes: seq<CallOutcome>, limit: int)
    returns (k: nat)
    requires |outcomes| == |calls| && buffer.View() == Buffer(calls, [], false, buffer.conn.written)
    modifies buffer, buffer.conn
    ensures var answers := AnswersOf(calls, outcomes);
            && IsCut(answers, limit, k)
            && Write(buffer.View()).written == Replied(old(buffer.conn.written), LimitedReply(calls, answers, k))
  {
    ghost var answers, sent := AnswersOf(calls, outcomes), buffer.conn.written;
    var responseBytes := 0;
    k := 0;
    while true
      invariant Looping(calls, answers, limit, k, responseBytes, buffer.View(), sent)
      decreases |calls| - k
    {
      ghost var b := buffer.View();
      var m := buffer.Next();
      if m.None? {
        LoopEnds(calls, answers, limit, k, responseBytes, b, sent);
        return;
      }
      var resp := HandleCallMsg(m.value, outcomes[k]);
      assert resp == answers[k];
      buffer.Push(resp);
      ghost var before := responseBytes;
      if resp.Some? && limit != 0 {
        responseBytes := responseBytes + ResultBytes(resp);
        if responseBytes > limit {
          LoopGoesOver(calls, answers, limit, k, before, b, sent);
          buffer.Fail(TOO_LARGE);
          k := k + 1;
          return;
        }
      }
      LoopGoesOn(calls, answers, limit, k, before, b, sent);
      k := k + 1;
    }
  }

  /**
   handleBatch when nothing times out or is cancelled; `outcomes` are what the methods would
   come to. The shortest prefix whose results exceed the limit gets its outcomes, every later
   request the size error, in the order of the requests; only an empty reply is not written.
   */
  method ProcessBatch(calls: seq<Message>, outcomes: seq<CallOutcome>, limit: int, conn: Connection)
    returns (k: nat, ghost reply: seq<Message>)
    requires |outcomes| == |calls|
    modifies conn
    ensures ShortestOver(calls, outcomes, limit, k)
    ensures Contents(calls, outcomes, k, -32003, reply) && Complete(calls, reply)
    ensures reply != [] ==> conn.written == old(conn.written) + [reply]
    ensures reply == [] ==> conn.written == old(conn.written)
  {
    ghost var answers := AnswersOf(calls, outcomes);
    var buffer := new BatchCallBuffer(calls, conn);
    k := ProcessCalls(buffer, calls, outcomes, limit);
    buffer.DoWrite();
    reply := LimitedReply(calls, answers, k);
    CutIsShortest(calls, outcomes, answers, limit, k);
    PrefixThenErrors(calls, answers[..k], TOO_LARGE);
    ContentsWithErrors(calls, outcomes, answers[..k], TOO_LARGE);
  }
}
