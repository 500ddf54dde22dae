# A verified model of the JSON-RPC engine

The repository is a bi-directional JSON-RPC 2.0 engine: one connection carries calls,
responses and subscription events both ways. This project models its concurrent core in
Dafny and proves what holds in every run, for every input.

## How the model is built

- `Messages`, `RequestTable`: messages and their classification, and the table of pending
  requests as value-level specifications. A request is identified by an `OpId`, which stands
  for the pointer: two ids of one batch lead to the same request. A response channel is a Go
  channel of capacity one with the history of what was done to it; an operation that would
  panic or block is recorded as a fault.
- `Client`: the handler's table and the variables of the dispatch loop as classes that change
  in place, with the source's loops. Every method is proved equal to its specification
  function. Where the source iterates a Go map, the loop here picks any remaining key, so the
  result does not depend on the order.
- `Dispatch`: the whole client as a labelled transition system. One label is one arm of the
  dispatch loop's select, one step of a goroutine that writes a request, or one step of a
  caller. Unbuffered channels are rendezvous; `reqSent` is a buffer of capacity one. The
  number of writers is not limited by the model: that there is only one is a theorem.
  `DispatchInvariant` states the inductive invariant, `DispatchSteps` proves that every step
  keeps it, and `DispatchTheorems` draws the conclusions for all runs. `SubscribeAnswers`,
  `CallAnswers` and `CallOutcomes` add what a call returns, `SubscriptionLaunches` how often
  a forwarding loop starts, and `ActiveSubscriptions` what becomes of each loop.
- `BatchReply`, `BatchRace`: the reply to a batch of calls, and the race between the goroutine
  that processes it, the timer and the context. Each method that holds the mutex is one step.
- `ClientSubscription`: the forwarding loop, its bounded queue and its shutdown handshake.
  `RepeatedRun` lets several goroutines execute the loop of one subscription.
- `Notifications`, `NotificationOrder`: the notifier as an object, and the order of what is
  written to the connection. `ServerSubscriptions`: the server's subscription table.
- `BatchSchedule`, `SubscriptionTrace`, `NotificationTrace`: the same systems by the labels of
  their runs. What is written, delivered or closed is derived from the steps that were taken,
  without looking at the state, and every goroutine is shown to make progress.
- `BatchCall`, `RequestIds`, `Middlewares`, `Arguments`, `Digits`, `Quantities`,
  `BlockNumbers`: matching of batch responses, request ids, the middleware chain, positional
  arguments, hexadecimal quantities and block references.

Assumptions, all of them guards of the transition systems or premises of the lemmas: a new
request has no id of one that is still registered, last or awaited by its caller, while ids
of finished requests may come back (`RequestIds` shows when drawn ids are distinct), a
request is passed to `reqInit` once, a write on a closed codec fails, `run` is launched once per subscription
(`SubscriptionLaunches.LaunchedOnce` shows exactly when that holds, and
`RepeatedRun.SafeIffLaunchedOnce` that the handshake needs it), and JSON decoding is an arbitrary
function. Clocks, timeouts, cancellations, failing writes and the server's messages are
nondeterministic labels or parameters.

## What turned out to differ

- A request whose message was written can be lost: if the read error is handled before the
  request's `reqSent`, the request is spared as in flight and never registered again
  (`LossWitness`).
- A batch call without elements waits for a response that cannot be matched, and not even
  `Close` ends it (`EmptyBatchWitness`). These two are the only ways to abandon a request
  (`Accountability`), and the only exceptions to the promise that `Close` aborts the requests
  in flight (`QuitAborts`).
- `run` can be launched more than once for one subscription, because the subscription branch
  of `handleResponses` does not look at `hadResponse`: exactly if the request's own writer
  reconnects after a first launch and another response succeeds (`LaunchedOnce`), up to three
  times (`LaunchBound`, `LaunchedThriceWitness`). Two goroutines in `run` can close the same
  channel, which panics (`DoubleCloseWitness`).
- A forwarding loop is never told that the connection is gone if the server gives a second
  subscription the same id (`LeftBehindWitness`), and only then (`StoppedUnlessDisplaced`).
- A batch that times out can go out incomplete: the timer cancels the context before it
  writes, and the processing loop may write first (`CutShortWitness`). `CompleteUnlessCut`
  gives the schedules in which that happens, and no others.
- `CallContext` uses the first message of the batch it receives without looking at its id
  (`ForeignFirstMessageWitness`); it is right exactly if the one reading that answered the
  call was no array or began with the answer (`FirstMessageIsTheAnswer`).
- The timer of a single notification can reply after events of its subscription were written
  (`LateReplyWitness`); with a reply owed, or in a batch, that cannot happen.
- A second subscription with the id of an active one leaks the first (`CollisionWitness`),
  and nothing else does (`LeaksIffCollides`).
- A reused `BlockNumberOrHash` can hold both a number and a hash (`ReusedTargetWitness`).
- The comment on `CreateSubscription` says that notifications are dropped before activation;
  the code buffers them. The comment on `Notify` says that the connection is closed on an
  error; the code does not close it. The model follows the code.
- `parseArgumentArray` checks whether the pointer it has just made is nil. That is never so,
  and the model has no such branch.

## Model

| member | source | states |
|---|---|---|
| ResponseRouting.BatchEffect | rpc/handler.go:404-458 | a batch resolves exactly the requests with a registered id among its responses; they receive the whole batch once and keep no id registered; every other request keeps its state and registrations |
| ResponseRouting.BatchRouting | rpc/handler.go:436-458 | every message goes to exactly one destination: the first response to a registered id to its request, later ones nowhere, events to the subscription active at that point; calls keep their order |
| ResponseRouting.PrefixEffect | rpc/handler.go:436-453 | loop invariant of handleResponses in terms of the ids answered so far |
| Client.Handler.AddRequestOp | rpc/handler.go:333-337 | registers every id of the request, and nothing else changes |
| Client.Handler.RemoveRequestOp | rpc/handler.go:340-344 | removes every id of the request, and nothing else changes |
| Client.Handler.CloseRequest | rpc/handler.go:354-361 | removes one entry and closes its request unless it was closed or is in flight |
| Client.Handler.CloseRequests | rpc/handler.go:348-362 | in whatever order the table is visited, every registered request but the one in flight is closed exactly once |
| Client.Handler.StopSubscriptions | rpc/handler.go:363-366 | tells every active subscription to stop, with the error, and forgets it |
| Client.Handler.CancelAllRequests | rpc/handler.go:347-367 | both loops together empty the table, and every active subscription is told the error |
| Client.Handler.HandleMessage | rpc/handler.go:406-453 | one message: answer and launch, deliver, drop or pass on |
| Client.Handler.RouteAll | rpc/handler.go:436-453 | the loop over the messages reaches the state of the specification and keeps the calls in order |
| Client.Handler.HandleResponses | rpc/handler.go:404-458 | with the removal of the resolved requests it equals the specification and returns the calls in order |
| Client.Dispatcher.constructor | rpc/client.go:622-628 | the variables of dispatch start in the initial state of the transition system |
| Client.Dispatcher.CloseConn | rpc/client.go:127-130 | closes the handler, then the codec |
| Client.Dispatcher.OnReadOp | rpc/client.go:647-652 | handles a message or batch; empty and oversized batches leave the requests alone; returns the messages that call goroutines process |
| Client.Dispatcher.OnReadErr | rpc/client.go:654-657 | cancels all requests but the last one and stops reading |
| Client.Dispatcher.OnReconnected | rpc/client.go:660-676 | replaces the handler and registers the last request on the new one |
| Client.Dispatcher.OnReqInit | rpc/client.go:679-683 | takes the write lock and registers the request |
| Client.Dispatcher.OnReqSent | rpc/client.go:685-693 | withdraws the request if its write failed and releases the lock |
| Client.Dispatcher.OnReqTimeout | rpc/client.go:695-696 | withdraws the request |
| Client.Dispatcher.OnClose | rpc/client.go:629-636 | closes the handler if it is still reading |
| DispatchInvariant.InitialInv | rpc/client.go:243-272 | a new client satisfies the invariant |
| DispatchSteps.InvStep | rpc/client.go:641-697 | every step of dispatch, of writers and of callers keeps the invariant |
| DispatchSteps.InvRun | rpc/client.go:622-699 | hence every run keeps it |
| DispatchTheorems.ResponseChannelSafety | rpc/client.go:622-699 | in every run each response channel gets at most one value, is closed at most once, is not sent to after closing and never blocks dispatch; every registered request has a channel that can be closed and, if unanswered, sent to; no nil request, no message on a closed handler, no handler closed twice |
| DispatchTheorems.ClosedIsFinal | rpc/handler.go:353-361 | a closed request is in no table, and is the last request only after the client has quit |
| DispatchTheorems.WaitReturnsAnswer | rpc/client.go:147-161 | wait returns without error only with a non-empty batch that holds a response to one of the request's ids |
| DispatchTheorems.WriteLock | rpc/client.go:562-575 | at most one caller is between acceptance and reqSent; the lock is held exactly while there is a last request; the send on reqSent never blocks, even after the client has quit |
| DispatchTheorems.TimedOutStaysOut | rpc/client.go:147-157 | a request whose caller gave up is never registered again, in any continuation |
| DispatchTheorems.CallerGivesUp | rpc/client.go:147-157 | a waiting caller can give up at any time, and its request is then registered nowhere |
| DispatchTheorems.OversizedIgnored | rpc/client.go:647-652 | an array over the batch limit leaves all requests and subscriptions alone |
| DispatchTheorems.WithdrawnIsUnregistered | rpc/client.go:685-696 | once dispatch has handled its timeout or failed send, no id of a withdrawn request is registered |
| DispatchTheorems.WriterFinishes | rpc/client.go:577-617 | a goroutine in write or reconnect is never stuck, and each of its steps lowers a bound of two writes and two dials |
| DispatchTheorems.ConnectionLifeCycle | rpc/client.go:654-677 | reading, an open handler and exactly one live reader, the current one, go together; messages, errors and drainRead concern that reader only |
| DispatchTheorems.Accountability | rpc/client.go:641-697 | with its write settled and its caller not withdrawn, a request is abandoned exactly if it has no ids or a read error fell between its write and its reqSent |
| DispatchTheorems.QuitAborts | rpc/client.go:297-307 | once the client has quit, a call that still waits can return at once exactly unless it has no ids or was lost in that window |
| DispatchTheorems.NothingWithoutIds | rpc/client.go:400-417 | a request without ids never receives anything |
| DispatchTheorems.EmptyBatchWitness | rpc/client.go:400-431 | an empty batch call that still waits after the client was closed |
| DispatchTheorems.LostIffLoss | rpc/client.go:654-657 | the history variable of lost requests records exactly those read errors |
| DispatchTheorems.LostForever | rpc/client.go:654-693 | nothing ever happens to the channel of a lost request again |
| DispatchTheorems.LossWitness | rpc/client.go:654-693 | a five-step run that loses a written request |
| SubscribeAnswers.SubscribeOutcome | rpc/handler.go:418-428 | a subscribe request takes its error, or the start of its loop, from the first response of the batch that bears its registered id: the server's error, an error for a result that is no id, or none |
| SubscribeAnswers.GrantActivates | rpc/handler.go:422-426 | a granted subscription becomes active under the id that the server chose, and nothing else does |
| CallOutcomes.FateOfRun | rpc/handler.go:347-362 | the error and the closing of a request are those of the events of the run: the response to a subscribe request, a read error, a reconnect or the end of the client |
| CallOutcomes.WaitReturns | rpc/client.go:147-161 | wait can return exactly if an answer came or the handler was closed; it returns the batch that answered the request and the error of the last such event, and empties the channel |
| CallOutcomes.SendFailsIffNotWritten | rpc/client.go:562-617 | once its writer is done, send has failed exactly if no write of the request succeeded |
| SubscriptionLaunches.ActiveHaveLoops | rpc/handler.go:422-426 | every entry of clientSubs belongs to a subscribe request whose forwarding loop was started, so deliver and close have a partner |
| SubscriptionLaunches.LaunchedOnce | rpc/handler.go:418-433 | the forwarding loop starts more than once exactly in the runs where, after a first start, the request's writer reconnects and a later response succeeds |
| SubscriptionLaunches.LaunchBound | rpc/client.go:577-617 | no run starts the loop of one subscription more than three times |
| SubscriptionLaunches.LaunchedAgain | rpc/handler.go:418-428 | after such a reconnect the next response starts it once more |
| SubscriptionLaunches.SecondLaunch | rpc/client.go:584-592 | from any state in which an answered subscribe request's write fails, a run starts the loop again |
| SubscriptionLaunches.LaunchedTwiceWitness | rpc/handler.go:418-428 | a run that launches the loop of one subscription twice |
| SubscriptionLaunches.LaunchedThriceWitness | rpc/client.go:577-617 | a run that reaches the bound of three |
| ActiveSubscriptions.LoopsAccounted | rpc/handler.go:363-366 | every start of a forwarding loop is matched: the loop is active, was told to stop when its handler closed, or was displaced |
| ActiveSubscriptions.StoppedUnlessDisplaced | rpc/handler.go:418-428 | once the connection is closed, every loop that was started was told to stop, exactly unless a response gave another subscription its id |
| ActiveSubscriptions.LeftBehindWitness | rpc/handler.go:425-425 | a run in which a loop is never told that the connection is gone |
| CallAnswers.ReplyIsTheAnswer | rpc/handler.go:430-433 | a call that returns without error holds exactly the first reading with a response to one of its registered ids |
| CallAnswers.FirstMessageIsTheAnswer | rpc/client.go:361-365 | the first message of what a call receives is its answer exactly if that one reading was no array or an array that begins with the answer |
| CallAnswers.ForeignFirstMessageWitness | rpc/client.go:361-365 | with an array it can be the response to another id |
| BatchReply.HandleCallMsg | rpc/handler.go:473-502 | no answer to a notification; to a call the result or the error of its method under its id; to anything else error -32600 under its id, or null if that id is invalid |
| BatchReply.AnswerIsResponse | rpc/json.go:79-81 | what the server answers is a response to the id of the request in the sense of the client |
| BatchReply.IdsAgreeIffValid | rpc/handler.go:155-165 | the answer and the error reply to a message carry the same id exactly if the id is valid |
| BatchReply.AnswersComplete | rpc/handler.go:135-143 | the answers pushed for a prefix are one reply per request of it, in order, ids matching |
| BatchReply.PrefixThenErrors | rpc/handler.go:155-165 | answers of a prefix followed by errors for the rest are a complete reply |
| BatchReply.BytesBound | rpc/handler.go:241-248 | the summed results of the answered calls exceed the limit by at most the last of them |
| BatchReply.ContentsWithErrors | rpc/handler.go:155-165 | every request has one entry at its place: the outcome of its method if it was answered, else the error |
| BatchReply.BatchCallBuffer.constructor | rpc/handler.go:212-212 | a new buffer holds all calls and no response |
| BatchReply.BatchCallBuffer.Next | rpc/handler.go:121-132 | the first unprocessed call, which stays in the buffer |
| BatchReply.BatchCallBuffer.Push | rpc/handler.go:135-143 | appends the answer, if any, and removes the call |
| BatchReply.BatchCallBuffer.DoWrite | rpc/handler.go:169-177 | writes once, and only if there is something to write |
| BatchReply.BatchCallBuffer.Fail | rpc/handler.go:155-165 | adds an error for every remaining request, then writes |
| BatchReply.ProcessCalls | rpc/handler.go:229-249 | the loop stops at the shortest prefix of answers over the size limit |
| BatchReply.ProcessBatch | rpc/handler.go:208-259 | without timeout, the shortest prefix whose results exceed the limit gets the outcomes of its methods, every later request error -32003, each at its place, and that reply is written unless it is empty |
| BatchRace.InvStep | rpc/handler.go:208-259 | every step of processor, timer and context keeps the invariant, and pushResponse has a call to remove |
| BatchRace.WrittenOnce | rpc/handler.go:113-177 | under every interleaving the batch is written at most once, and the buffer holds the answers of a prefix and the suffix after it |
| BatchRace.CompleteUnlessCut | rpc/handler.go:208-259 | a finished batch got one reply per request exactly unless the loop saw the cancelled context with nothing written and a request left, and then wrote before the timer |
| BatchRace.CompleteIfNotCancelled | rpc/handler.go:229-259 | a batch whose context is never cancelled is answered completely |
| BatchRace.CutShortWitness | rpc/handler.go:222-235 | an interleaving in which a call gets no reply at all |
| BatchSchedule.WrittenByFirst | rpc/handler.go:113-177 | what is written follows from the first writing step of the run: the outcomes of the calls answered by then, and error -32002 or -32003 for the others if the timer or the size limit wrote |
| BatchSchedule.LimitInEveryRun | rpc/handler.go:229-249 | under every interleaving no call is processed beyond the shortest prefix over the limit, and exactly that prefix is unless the cancelled context was seen |
| BatchSchedule.CancelledByLabels | rpc/handler.go:222-235 | the context is cancelled exactly if the timer or its parent cancelled it |
| BatchSchedule.CancelEndsLoop | rpc/handler.go:231-234 | after looking at the cancelled context no call is fetched, handled or answered |
| BatchSchedule.TimerOrder | rpc/handler.go:220-226 | the timer fires once, only with a timeout and not after it was stopped, then cancels, then writes |
| BatchSchedule.ProcessorFinishes | rpc/handler.go:229-259 | the processing goroutine is never stuck, and nothing delays its end |
| ClientSubscription.Forward | rpc/subscription.go:318-364 | one decoded value is delivered, in order, for every send while one is left; the loop goes on exactly until quit, a bad value or a full queue of 20000, and returns what that calls for |
| ClientSubscription.InvRun | rpc/subscription.go:260-314 | the invariant of queue and handshake holds in every run |
| ClientSubscription.QueueIsFifo | rpc/subscription.go:318-364 | delivered values followed by the queue are the accepted values, in order; overflow is reported only with exactly 20000 undelivered |
| SubscriptionTrace.DeliveredBySends | rpc/subscription.go:318-364 | by the steps of the run: the user gets one accepted value, in order, for every send, and the loop has ended exactly for the reason that the steps give |
| SubscriptionTrace.QueueDrains | rpc/subscription.go:335-362 | while the loop runs, sending empties the queue and everything accepted reaches the user |
| SubscriptionTrace.ChannelsBySteps | rpc/subscription.go:260-314 | every channel is closed at most once and by its own step, the error is sent at most once and not after closing, and what was reported stays readable |
| SubscriptionTrace.UserIsServed | rpc/subscription.go:254-269 | the user can begin to unsubscribe, return from it once err is closed, and read a reported error |
| ClientSubscription.ShutdownIsSafe | rpc/subscription.go:291-314 | no channel is closed twice, err carries at most one value, never after closing, and sending it never blocks |
| RepeatedRun.AloneRefines | rpc/subscription.go:291-314 | with one launch, the system of several goroutines behaves as the subscription of the other theorems |
| RepeatedRun.DoubleCloseWitness | rpc/subscription.go:298-298 | with two or more launches, a run that closes forwardDone twice |
| RepeatedRun.SafeIffLaunchedOnce | rpc/subscription.go:289-314 | no run has a fault on a channel exactly if the loop is launched at most once |
| ClientSubscription.OutcomeByCause | rpc/subscription.go:291-314 | Unsubscribe reports nothing, a closed client a nil error, anything else its error; the server is asked to unsubscribe unless the connection is gone |
| ClientSubscription.DispatcherNeverStuck | rpc/subscription.go:272-287 | a dispatcher in deliver or close is free after at most two internal steps |
| ClientSubscription.SilenceAfterUnsubscribe | rpc/subscription.go:260-269 | once any Unsubscribe has returned, nothing more is delivered or reported |
| ClientSubscription.UnsubscribeCanFinish | rpc/subscription.go:260-314 | an Unsubscribe that has begun can always complete in at most eight steps |
| Notifications.Notifier.CreateSubscription | rpc/subscription.go:117-128 | one subscription, and only before the call has returned |
| Notifications.Notifier.Notify | rpc/subscription.go:132-146 | written at once if active, else kept at the end of the buffer |
| Notifications.Notifier.TakeSubscription | rpc/subscription.go:150-155 | no subscription can be created afterwards |
| Notifications.Notifier.Activate | rpc/subscription.go:160-171 | writes the buffer in order up to the first failure and becomes active only if there was none |
| NotificationOrder.InvRun | rpc/handler.go:254-258 | the invariant of call goroutine, timer and notifiers holds in every run |
| NotificationOrder.ReplyComesFirst | rpc/handler.go:296-320 | at most one reply is written; if one is owed, or in a batch, it can only be the first thing written, and no notification precedes it; a batch that is owed none gets none |
| NotificationOrder.LateReplyWitness | rpc/handler.go:299-305 | a single notification whose timer replies after an event was written |
| NotificationOrder.NotifiedIsWritten | rpc/subscription.go:132-171 | nothing is written before activation; without a failed write exactly the notified data is written, in order; else a prefix of it until activation |
| NotificationTrace.OwedIsReplied | rpc/handler.go:313-320 | a reply that is owed, and whose write does not fail, is the first thing on the connection when the notifiers are activated |
| NotificationTrace.WrittenIsNotified | rpc/subscription.go:132-171 | if no write fails, exactly the data passed to Notify is written, in order, once the notifier is active or the call has ended |
| NotificationTrace.FailedActivation | rpc/subscription.go:160-171 | a write that fails during activation is the last one for its notifier, which never becomes active |
| NotificationTrace.CreatedOnce | rpc/subscription.go:117-155 | a subscription can be created exactly while there is none and it was not taken, and notified only after that |
| NotificationTrace.TimerByLabels | rpc/handler.go:299-311 | the timer does not fire after the methods have returned, and replies only after it fired |
| NotificationTrace.CallGoesOn | rpc/handler.go:308-320 | the goroutine of the call is never stuck before its end |
| ServerSubscriptions.SubscriptionTable.AddSubscriptions | rpc/handler.go:369-378 | every taken subscription is entered, the last one of those with the same id; other entries stay |
| ServerSubscriptions.SubscriptionTable.UnsubscribeId | rpc/handler.go:596-607 | removes the entry and closes the err channel of exactly that subscription, or reports that there is none and changes nothing |
| ServerSubscriptions.SubscriptionTable.CancelServerSubscriptions | rpc/handler.go:381-390 | in any order, every entry is removed and its subscription gets the error and is closed; no other subscription changes |
| ServerSubscriptions.SubscriptionLifeCycle | rpc/handler.go:369-401 | the err channel has seen exactly what the first event of the run that concerned the subscription calls for: closed by unsubscribe, the error and then closed by close, left open if another one with its id took its place; until then the table leads to it |
| ServerSubscriptions.UnsubscribeEnds | rpc/handler.go:596-607 | a call can end every subscription in the table, and a sent error can be read |
| ServerSubscriptions.LeaksIffCollides | rpc/handler.go:373-377 | a run leaves a subscription behind exactly if one is added under an id that is in the table |
| ServerSubscriptions.ClosedForGood | rpc/handler.go:325-330 | after close the table stays empty and every subscription was unsubscribed, cancelled or replaced |
| ServerSubscriptions.CloseFinishes | rpc/handler.go:325-330 | once the calls return, close comes to its end in a bounded number of steps |
| ServerSubscriptions.CollisionWitness | rpc/handler.go:373-377 | two subscriptions with one id leave the first open and unreachable |
| RequestIds.DrawsCollide | rpc/client.go:283-286 | two draws give the same id exactly when they are equal modulo 2^32 |
| RequestIds.DistinctInWindow | rpc/client.go:283-286 | ids are distinct over any window of at most 2^32 draws |
| RequestIds.DrawIsNumber | rpc/client.go:283-286 | a drawn id is the decimal form of the counter modulo 2^32, hence a valid JSON-RPC id |
| BatchCall.AssignIds | rpc/client.go:409-417 | one distinct id per element, all of them indexed |
| BatchCall.AssignResponses | rpc/client.go:435-459 | each element is assigned by the first response that bears its id |
| BatchCall.MarkMissing | rpc/client.go:462-465 | in any order, exactly the elements left in the index get the missing-response error |
| BatchCall.BatchCallContext | rpc/client.go:400-468 | each element ends with the outcome of the first non-null response bearing its id, or the missing-response error if there is none |
| BatchCall.FirstIsFirst | rpc/client.go:435-447 | the chosen response is the first one with that id |
| Middlewares.BuildChain | rpc/handler.go:577-587 | the closure built by the loop equals the right fold of the middlewares over the method |
| Middlewares.WellNested | rpc/handler.go:581-587 | middlewares that pass this call on, changed or not, nest around whatever the rest of the chain does with it |
| Middlewares.ResultPassed | rpc/handler.go:581-588 | if they leave the result of this call alone, the chain returns that of the rest |
| Middlewares.FullTrace | README.md:56-64 | befores in order, the method, afters in reverse, and the result of the method |
| Middlewares.ShortCircuit | rpc/handler.go:581-588 | a middleware that stops this call keeps everything behind it from running, and its answer is the answer |
| Arguments.ParseArgumentArray | rpc/json.go:337-355 | succeeds exactly if there are not too many values, all decode and the array is terminated; an error names the first thing wrong |
| Arguments.ParsePositionalArguments | rpc/json.go:309-335 | succeeds exactly if params is absent, null or such an array and every missing argument is a pointer; then one argument per type, decoded values followed by nil pointers; an error names the first thing wrong |
| Arguments.SubscriptionArguments | rpc/handler.go:559-565 | dropping the subscription name is always in bounds and leaves one argument per type: the decoded values, then nil pointers |
| Quantities.EncodedIsQuantity | rpc/subscription.go:83-90 | a subscription id is "0x" and the lower-case digits, without leading zero, of the big-endian value of its bytes, of length 3 to 2+2n |
| Quantities.EncodeEqual | rpc/subscription.go:83-90 | two byte strings share an id exactly when they denote the same number |
| Quantities.EncodeInjective | rpc/subscription.go:77-79 | byte strings of one length with the same id are equal |
| Quantities.AcceptedIsQuantity | rpc/types.go:103-110 | a lower-case text decodes to a number exactly if it is the canonical quantity of that number and it fits 64 bits |
| BlockNumbers.RoundTrip | rpc/types.go:79-144 | every number from -4 on survives printing and parsing, and every smaller one is rejected |
| BlockNumbers.NamedNumbers | rpc/types.go:85-101 | the five names stand for 0, -2, -1, -3 and -4 |
| BlockNumbers.OtherTexts | rpc/types.go:103-112 | any other text is a number exactly if it is a quantity below 2^63 |
| BlockNumbers.SpaceIgnored | rpc/types.go:80-83 | white space around a quoted text does not matter |
| BlockNumbers.QuotesOptional | rpc/types.go:80-83 | the quotes around a text may be missing |
| BlockNumbers.InvalidText | rpc/types.go:126-144 | a number below -4 is printed as invalid, with its decimal value |
| BlockNumbers.ParsedRange | rpc/types.go:79-112 | every accepted text denotes a number from -4 to 2^63-1 |
| BlockNumbers.ParsedIsPrintable | rpc/types.go:79-144 | printing an accepted text's number and parsing it again gives the same number |
| BlockNumbers.BlockNumberOrHash.UnmarshalJSON | rpc/types.go:152-213 | the assignments through the receiver, and none on rejection |
| BlockNumbers.HashIsNoNumber | rpc/types.go:191-212 | no text of the length of a hash is a number in range |
| BlockNumbers.TextSetsOne | rpc/types.go:165-213 | an accepted text names either a number or a hash; the target then has exactly one of the two exactly if it did not have the other before |
| BlockNumbers.TextAcceptedIff | rpc/types.go:165-213 | a text is accepted exactly if it names a number or is a hash |
| BlockNumbers.ReusedTargetWitness | rpc/types.go:175-178 | a target that held a hash ends up with both |
| BlockNumbers.ObjectNeverSetsBoth | rpc/types.go:155-164 | an accepted object sets at most one |
| BlockNumbers.ObjectReplaces | rpc/types.go:155-164 | an object is accepted unless it has both, and then replaces all three fields |
| BlockNumbers.HashAccepted | rpc/types.go:191-198 | 64 digits after the prefix are the hash, and the number stays |
| Messages.Classified | rpc/json.go:71-89 | no message is two of notification, call and response, and when it is one of them |
| Messages.EventsBySuffix | rpc/handler.go:440-447 | a subscription event is a notification whose method ends with "_subscription" |

## Left out

- Transports, dialling and codecs: a codec is "a write succeeds or fails; reads yield batches, then one error".
- The HTTP client path: it has no dispatch loop, and its single-call path does not check response ids.
- JSON, reflection and the hexutil package: decoding is an arbitrary function, and the quantity encoding is stated as an assumption.
- Registration of services, options, headers, metrics, logging, error values and codec tracking of the server: they would only add easy members.
- Client.Dispatcher.CloseConn: does not wait for call goroutines or cancel server subscriptions, because `ServerSubscriptions` models that part of `handler.close` by itself.
- Liveness of `handler.close`: it waits for user callbacks. Closing a handler and draining its reader are one step of dispatch.
- Real time, deadlines and ping/pong: timeouts and cancellations can happen at any moment.
- Slice aliasing and the heap identity of requests: requests are records in a store shared by the handlers, keyed by identity.
- The replies to empty and to oversized batches: only their effect on the request table is modelled.
