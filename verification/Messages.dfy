/**
 JSON-RPC messages and their classification (rpc/json.go).

 Decoding is abstract: a raw JSON fragment carries its text together with what decoding it
 as a subscription id, or as a subscription result, would give. Every theorem therefore
 holds whatever those decodings are.
 */
module Messages {
  import opened Options

  datatype SubscriptionResult = SubscriptionResult(id: string, result: string)

  datatype Raw = Raw(text: string, asSubId: Option<string>, asSubResult: Option<SubscriptionResult>)

  datatype RpcError = RpcError(code: int, message: string)

  /** `None` stands for an absent field; the JSON value null is present, with text "null". */
  datatype Message = Message(
    version: string,
    id: Option<string>,
    methodName: string,
    params: Option<Raw>,
    error: Option<RpcError>,
    result: Option<Raw>)

  const VERSION := "2.0"
  const NOTIFICATION_SUFFIX := "_subscription"
  const NULL_ID := "null"
  const ERRCODE_INVALID_REQUEST := -32600
  const ERRCODE_TIMEOUT := -32002
  const ERRCODE_RESPONSE_TOO_LARGE := -32003

  predicate HasSuffix(s: string, suffix: string) {
    |suffix| <= |s| && s[|s| - |suffix|..] == suffix
  }

  predicate HasValidVersion(m: Message) {
    m.version == VERSION
  }

  predicate HasValidId(m: Message) {
    m.id.Some? && |m.id.value| > 0 && m.id.value[0] != '{' && m.id.value[0] != '['
  }

  predicate IsNotification(m: Message) {
    HasValidVersion(m) && m.id.None? && m.methodName != ""
  }

  predicate IsCall(m: Message) {
    HasValidVersion(m) && HasValidId(m) && m.methodName != ""
  }

  predicate IsResponse(m: Message) {
    && HasValidVersion(m) && HasValidId(m) && m.methodName == "" && m.params.None?
    && (m.result.Some? || m.error.Some?)
  }

  /** A notification that carries a subscription event rather than a method call. */
  predicate IsSubscriptionEvent(m: Message) {
    IsNotification(m) && HasSuffix(m.methodName, NOTIFICATION_SUFFIX)
  }

  /** No message is two of these at once. */
  lemma Classified(m: Message)
    ensures !(IsNotification(m) && IsCall(m)) && !(IsNotification(m) && IsResponse(m)) && !(IsCall(m) && IsResponse(m))
    ensures IsNotification(m) || IsCall(m) || IsResponse(m) ==> m.version == "2.0"
    ensures m.version == "2.0" && m.methodName != "" ==> (IsNotification(m) <==> m.id.None?) && (IsCall(m) <==> HasValidId(m))
    ensures m.version == "2.0" && m.methodName == "" && m.params.None? && HasValidId(m) ==>
              (IsResponse(m) <==> m.result.Some? || m.error.Some?)
    ensures HasValidId(m) ==> m.id != Some("") && m.id != Some("{}") && m.id != Some("[1]")
    ensures m.id == Some("1") || m.id == Some("\"a\"") || m.id == Some("null") ==> HasValidId(m)
  {
  }

  /** An event is a notification whose method ends with the suffix. */
  lemma EventsBySuffix(m: Message)
    ensures IsSubscriptionEvent(m) <==> IsNotification(m) && exists p :: m.methodName == p + "_subscription"
  {
    if IsSubscriptionEvent(m) {
      assert m.methodName == m.methodName[..|m.methodName| - 13] + "_subscription";
    }
  }

  function ErrorMessage(err: RpcError): Message {
    Message(VERSION, Some(NULL_ID), "", None, Some(err), None)
  }

  function ErrorResponse(m: Message, err: RpcError): Message {
    ErrorMessage(err).(id := m.id)
  }
}
