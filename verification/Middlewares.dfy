/** The middleware chain around a method (rpc/handler.go, runMethod). */
module Middlewares {
  import opened Options

  /** Context, method name and arguments of a call; what they are does not matter here. */
  datatype Call = Call(ctx: string, name: string, args: seq<string>)

  /** The result, together with what the middlewares and the method did, in order. */
  datatype Result = Result(value: string, error: Option<string>, trace: seq<Event>)

  datatype Event = EnterAt(i: nat) | LeaveAt(i: nat) | Method | StopAt(i: nat)

  type Next = Call -> Result
  type Middleware = (Call, Next) -> Result

  /** The closure that calls a middleware with the rest of the chain. */
  function Wrap(m: Middleware, next: Next): Next {
    (c: Call) => m(c, next)
  }

  /** The chain as a right fold: the first middleware is outermost. */
  function Chain(ms: seq<Middleware>, callb: Next): Next {
    if ms == [] then callb else Wrap(ms[0], Chain(ms[1..], callb))
  }

  /** The loop of runMethod, which builds the chain from the inside out. */
  method BuildChain(ms: seq<Middleware>, callb: Next) returns (next: Next)
    ensures next == Chain(ms, callb)
  {
    next := callb;
    var i := |ms|;
    while i > 0
      invariant 0 <= i <= |ms|
      invariant next == Chain(ms[i..], callb)
    {
      i := i - 1;
      assert ms[i..][1..] == ms[i + 1..];
      next := Wrap(ms[i], next);
    }
    assert ms[0..] == ms;
  }

  // ---- order of execution ----------------------------------------------------------------

  /** Asked to handle `c`, the `i`-th middleware hands `c'` on, doing something before and after. */
  ghost predicate PassesOn(m: Middleware, i: nat, c: Call, c': Call) {
    forall next: Next :: m(c, next).trace == [EnterAt(i)] + next(c').trace + [LeaveAt(i)]
  }

  /** It also leaves the result as it is. */
  ghost predicate KeepsResult(m: Middleware, c: Call, c': Call) {
    forall next: Next :: m(c, next).value == next(c').value && m(c, next).error == next(c').error
  }

  /** Asked to handle `c`, the `i`-th middleware answers `r` by itself. */
  ghost predicate Stops(m: Middleware, i: nat, c: Call, r: Result) {
    r.trace == [StopAt(i)] && forall next: Next :: m(c, next) == r
  }

  /** The calls that the middlewares hand on from one to the next, from `i` on. */
  ghost predicate Nested(ms: seq<Middleware>, i: nat, cs: seq<Call>) {
    |cs| == |ms| + 1 && forall k :: 0 <= k < |ms| ==> PassesOn(ms[k], i + k, cs[k], cs[k + 1])
  }

  ghost predicate Transparent(ms: seq<Middleware>, cs: seq<Call>) {
    |cs| == |ms| + 1 && forall k :: 0 <= k < |ms| ==> KeepsResult(ms[k], cs[k], cs[k + 1])
  }

  ghost function Enters(i: nat, n: nat): seq<Event> {
    seq(n, k requires 0 <= k < n => EnterAt(i + k))
  }

  ghost function Leaves(i: nat, n: nat): seq<Event> {
    seq(n, k requires 0 <= k < n => LeaveAt(i + n - 1 - k))
  }

  /** The first middleware of a chain is handed the call and the rest of the chain. */
  lemma Outermost(ms: seq<Middleware>, rest: seq<Middleware>, callb: Next)
    requires ms != []
    ensures Chain(ms + rest, callb) == Wrap(ms[0], Chain(ms[1..] + rest, callb))
  {
    assert (ms + rest)[0] == ms[0] && (ms + rest)[1..] == ms[1..] + rest;
  }

  lemma TailNested(ms: seq<Middleware>, i: nat, cs: seq<Call>)
    requires ms != [] && Nested(ms, i, cs)
    ensures Nested(ms[1..], i + 1, cs[1..])
  {
    forall k | 0 <= k < |ms| - 1 ensures PassesOn(ms[1..][k], i + 1 + k, cs[1..][k], cs[1..][k + 1]) {
      assert PassesOn(ms[1 + k], i + (1 + k), cs[1 + k], cs[1 + k + 1]);
    }
  }

  /**
   Middlewares that pass the call on enter in order and leave in reverse, around whatever
   the rest of the chain does with the call it is handed.
   */
  lemma {:induction false} WellNested(ms: seq<Middleware>, rest: seq<Middleware>, callb: Next, i: nat, cs: seq<Call>)
    requires Nested(ms, i, cs)
    ensures Chain(ms + rest, callb)(cs[0]).trace
         == Enters(i, |ms|) + Chain(rest, callb)(cs[|ms|]).trace + Leaves(i, |ms|)
  {
    var inner := Chain(rest, callb)(cs[|ms|]).trace;
    if ms == [] {
      assert ms + rest == rest;
      assert Enters(i, 0) + inner + Leaves(i, 0) == inner;
    } else {
      TailNested(ms, i, cs);
      WellNested(ms[1..], rest, callb, i + 1, cs[1..]);
      Outermost(ms, rest, callb);
      assert PassesOn(ms[0], i + 0, cs[0], cs[0 + 1]);
      Peel(i, |ms|, inner);
    }
  }

  lemma Peel(i: nat, n: nat, inner: seq<Event>)
    requires n > 0
    ensures [EnterAt(i)] + (Enters(i + 1, n - 1) + inner + Leaves(i + 1, n - 1)) + [LeaveAt(i)]
         == Enters(i, n) + inner + Leaves(i, n)
  {
    assert Enters(i, n) == [EnterAt(i)] + Enters(i + 1, n - 1);
    assert Leaves(i, n) == Leaves(i + 1, n - 1) + [LeaveAt(i)];
  }

  /** If they also leave the result alone, it is that of the rest of the chain. */
  lemma {:induction false} ResultPassed(ms: seq<Middleware>, rest: seq<Middleware>, callb: Next, cs: seq<Call>)
    requires Transparent(ms, cs)
    ensures var r, inner := Chain(ms + rest, callb)(cs[0]), Chain(rest, callb)(cs[|ms|]);
            r.value == inner.value && r.error == inner.error
  {
    if ms == [] {
      assert ms + rest == rest;
    } else {
      forall k | 0 <= k < |ms| - 1 ensures KeepsResult(ms[1..][k], cs[1..][k], cs[1..][k + 1]) {
        assert KeepsResult(ms[1 + k], cs[1 + k], cs[1 + k + 1]);
      }
      ResultPassed(ms[1..], rest, callb, cs[1..]);
      Outermost(ms, rest, callb);
      assert KeepsResult(ms[0], cs[0], cs[0 + 1]);
    }
  }

  /** A chain of pass-through middlewares: befores in order, the method, afters in reverse. */
  lemma FullTrace(ms: seq<Middleware>, callb: Next, cs: seq<Call>)
    requires Nested(ms, 0, cs) && callb(cs[|ms|]).trace == [Method]
    ensures var r := Chain(ms, callb)(cs[0]);
            && r.trace == Enters(0, |ms|) + [Method] + Leaves(0, |ms|)
            && (Transparent(ms, cs) ==> r.value == callb(cs[|ms|]).value && r.error == callb(cs[|ms|]).error)
  {
    assert ms + [] == ms;
    WellNested(ms, [], callb, 0, cs);
    if Transparent(ms, cs) {
      ResultPassed(ms, [], callb, cs);
    }
  }

  /**
   A middleware that stops the call at position `i` keeps everything behind it from running,
   and its answer is the answer to the call.
   */
  lemma ShortCircuit(before: seq<Middleware>, stop: Middleware, after: seq<Middleware>, callb: Next,
                     cs: seq<Call>, r: Result)
    requires Nested(before, 0, cs) && Stops(stop, |before|, cs[|before|], r)
    ensures var answer := Chain(before + ([stop] + after), callb)(cs[0]);
            && answer.trace == Enters(0, |before|) + [StopAt(|before|)] + Leaves(0, |before|)
            && (Transparent(before, cs) ==> answer.value == r.value && answer.error == r.error)
  {
    Outermost([stop], after, callb);
    WellNested(before, [stop] + after, callb, 0, cs);
    if Transparent(before, cs) {
      ResultPassed(before, [stop] + after, callb, cs);
    }
  }
}
