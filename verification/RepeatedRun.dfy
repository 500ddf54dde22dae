/**
 What happens if the forwarding loop of one subscription is launched more than once
 (rpc/handler.go, the subscription branch of handleResponses): every goroutine in `run` has
 its own place in the code and its own queue, and they share the channels.
 */
module RepeatedRun {
  import opened Options
  import S = ClientSubscription

  datatype Local = Local(runner: S.Runner, queue: seq<S.Value>)

  datatype Crew = Crew(shared: S.Sub, locals: seq<Local>)

  /** A step in which goroutine `i` takes part, if one of them does. */
  datatype Label = By(i: nat, l: S.Label)

  function Begin(n: nat): Crew {
    Crew(S.Start(), seq(n, _ => Local(S.Forwarding, [])))
  }

  /** The subscription as goroutine `i` finds it. */
  function Seen(c: Crew, i: nat): S.Sub
    requires i < |c.locals|
  {
    c.shared.(runner := c.locals[i].runner, queue := c.locals[i].queue)
  }

  predicate Enabled(c: Crew, x: Label) {
    x.i < |c.locals| && S.Enabled(Seen(c, x.i), x.l)
  }

  function Step(c: Crew, x: Label): Crew
    requires Enabled(c, x)
  {
    var s := S.Step(Seen(c, x.i), x.l);
    Crew(s, c.locals[x.i := Local(s.runner, s.queue)])
  }

  ghost predicate IsRun(c: Crew, run: seq<Label>)
    decreases |run|
  {
    run == [] || (Enabled(c, run[0]) && IsRun(Step(c, run[0]), run[1..]))
  }

  ghost function After(c: Crew, run: seq<Label>): Crew
    requires IsRun(c, run)
    decreases |run|
  {
    if run == [] then c else After(Step(c, run[0]), run[1..])
  }

  ghost function Labels(run: seq<Label>): seq<S.Label> {
    if run == [] then [] else [run[0].l] + Labels(run[1..])
  }

  /** The one goroutine that was launched sees the whole subscription. */
  ghost predicate Alone(c: Crew) {
    |c.locals| == 1 && Seen(c, 0) == c.shared
  }

  /** A single launch behaves as the subscription that the other theorems are about. */
  lemma {:induction false} AloneRefines(c: Crew, run: seq<Label>)
    requires Alone(c) && IsRun(c, run)
    ensures S.IsRun(c.shared, Labels(run)) && After(c, run).shared == S.After(c.shared, Labels(run))
    decreases |run|
  {
    if run != [] {
      AloneRefines(Step(c, run[0]), run[1..]);
      assert Labels(run)[1..] == Labels(run[1..]);
    }
  }

  /** A step followed by a run is a run. */
  lemma Prepend(c: Crew, x: Label, rest: seq<Label>)
    requires Enabled(c, x) && IsRun(Step(c, x), rest)
    ensures IsRun(c, [x] + rest) && After(c, [x] + rest) == After(Step(c, x), rest)
  {
    assert ([x] + rest)[1..] == rest;
  }

  /** A goroutine that has left its loop when another one has closed forwardDone panics. */
  lemma SecondClose(c: Crew, i: nat)
    requires i < |c.locals| && c.locals[i].runner.Leaving? && c.shared.forwardDone
    ensures IsRun(c, [By(i, S.CloseForwardDone)])
    ensures S.CloseOfClosed in After(c, [By(i, S.CloseForwardDone)]).shared.faults
  {
    Prepend(c, By(i, S.CloseForwardDone), []);
  }

  /** The first goroutine is told to stop, the second one gets a value that does not decode. */
  lemma DoubleCloseWitness(n: nat) returns (run: seq<Label>)
    requires n >= 2
    ensures IsRun(Begin(n), run) && S.CloseOfClosed in After(Begin(n), run).shared.faults
  {
    var c0 := Begin(n);
    var c1 := Step(c0, By(0, S.CloseSub(S.ClientQuit)));
    var c2 := Step(c1, By(0, S.TakeQuitFromDispatch));
    var c3 := Step(c2, By(0, S.CloseForwardDone));
    var c4 := Step(c3, By(1, S.Deliver(None)));
    var c5 := Step(c4, By(1, S.TakeIn));
    run := [By(1, S.CloseForwardDone)];
    SecondClose(c5, 1);
    Prepend(c4, By(1, S.TakeIn), run);
    run := [By(1, S.TakeIn)] + run;
    Prepend(c3, By(1, S.Deliver(None)), run);
    run := [By(1, S.Deliver(None))] + run;
    Prepend(c2, By(0, S.CloseForwardDone), run);
    run := [By(0, S.CloseForwardDone)] + run;
    Prepend(c1, By(0, S.TakeQuitFromDispatch), run);
    run := [By(0, S.TakeQuitFromDispatch)] + run;
    Prepend(c0, By(0, S.CloseSub(S.ClientQuit)), run);
    run := [By(0, S.CloseSub(S.ClientQuit))] + run;
  }

  ghost predicate AlwaysSafe(n: nat) {
    forall run :: IsRun(Begin(n), run) ==> After(Begin(n), run).shared.faults == {}
  }

  lemma {:induction false} NobodyMoves(c: Crew, run: seq<Label>)
    requires c.locals == [] && IsRun(c, run)
    ensures After(c, run) == c
  {
  }

  /** The shutdown handshake is safe in every run exactly if `run` is launched at most once. */
  lemma SafeIffLaunchedOnce(n: nat)
    ensures AlwaysSafe(n) <==> n <= 1
  {
    if n >= 2 {
      var run := DoubleCloseWitness(n);
      assert After(Begin(n), run).shared.faults != {};
    } else {
      forall run | IsRun(Begin(n), run) ensures After(Begin(n), run).shared.faults == {} {
        if n == 0 {
          NobodyMoves(Begin(n), run);
        } else {
          AloneRefines(Begin(n), run);
          S.ShutdownIsSafe(Labels(run));
        }
      }
    }
  }
}
