/**
  The "next"-continuation chains of the engine (`Interceptor`, `ReadExec`,
  `Execution`): a list of middlewares, each wrapping the handler that
  follows it.  A handler takes the task context and returns the context as
  it leaves it together with the error it returned, if any (the Go handlers
  update the context through a pointer and return only the error; the
  context is owned by one chain at a time, so threading it as a value loses
  nothing).
*/
module Chain {
  import opened Base

  datatype Outcome<S> = Outcome(state: S, err: Option<Error>)

  type Handler<!S> = S -> Outcome<S>

  type Middleware<!S> = Handler<S> -> Handler<S>

  /** `fns[0](fns[1](... fns[n-1](fn)))`: the first middleware is outermost. */
  function Compose<S>(fns: seq<Middleware<S>>, fn: Handler<S>): Handler<S>
  {
    if |fns| == 0 then fn else fns[0](Compose(fns[1..], fn))
  }

  /** The shape of every stage in the source: do some work on the context,
      then either return the error or call `next` on the updated context. */
  function Stage<S>(step: Handler<S>): Middleware<S>
  {
    (next: Handler<S>) =>
      (s: S) => var o := step(s); if o.err.Some? then o else next(o.state)
  }

  function Stages<S>(steps: seq<Handler<S>>): (fns: seq<Middleware<S>>)
    ensures |fns| == |steps|
    ensures forall i :: 0 <= i < |steps| ==> fns[i] == Stage(steps[i])
  {
    if |steps| == 0 then [] else [Stage(steps[0])] + Stages(steps[1..])
  }

  /** The loop shared by `Interceptor`, `ReadExec` and `Execution`: wrap the
      final handler in the middlewares from the last to the first, then
      call the outermost handler on the context. */
  method Exec<S>(data: S, fn: Handler<S>, fns: seq<Middleware<S>>) returns (o: Outcome<S>)
    ensures o == Compose(fns, fn)(data)
  {
    var h := fn;
    var i := |fns| - 1;
    while i >= 0
      invariant -1 <= i < |fns|
      invariant h == Compose(fns[i + 1..], fn)
    {
      assert fns[i..][1..] == fns[i + 1..];
      h := fns[i](h);
      i := i - 1;
    }
    o := h(data);
  }

  /** Reference semantics: run the steps left to right, stop at the first
      error, and run the final handler only if every step succeeded. */
  function Run<S>(steps: seq<Handler<S>>, fn: Handler<S>, s: S): Outcome<S>
  {
    if |steps| == 0 then fn(s)
    else
      var o := steps[0](s);
      if o.err.Some? then o else Run(steps[1..], fn, o.state)
  }

  /** The final handler that returns without error. */
  function Done<S>(): Handler<S>
  {
    (t: S) => Outcome(t, None)
  }

  /** The steps alone, without a final handler. */
  function RunSteps<S>(steps: seq<Handler<S>>, s: S): Outcome<S>
  {
    Run(steps, Done(), s)
  }

  /** Wrapping stages in middlewares and composing them runs the stages in
      list order and the final handler last. */
  lemma {:induction false} ComposeRunsInOrder<S>(steps: seq<Handler<S>>, fn: Handler<S>, s: S)
    ensures Compose(Stages(steps), fn)(s) == Run(steps, fn, s)
    decreases |steps|
  {
    if |steps| > 0 {
      var o := steps[0](s);
      assert Stages(steps)[1..] == Stages(steps[1..]);
      if o.err.None? {
        ComposeRunsInOrder(steps[1..], fn, o.state);
      }
    }
  }

  /** When every step succeeds, the final handler receives the context as
      the last step left it. */
  lemma {:induction false} RunReachesFinal<S>(steps: seq<Handler<S>>, fn: Handler<S>, s: S)
    requires RunSteps(steps, s).err.None?
    ensures Run(steps, fn, s) == fn(RunSteps(steps, s).state)
    decreases |steps|
  {
    if |steps| > 0 {
      RunReachesFinal(steps[1..], fn, steps[0](s).state);
    }
  }

  /** A step that fails ends the chain: nothing after it, not even the
      final handler, can change the outcome. */
  lemma {:induction false} FailureStopsChain<S>(steps: seq<Handler<S>>, k: nat, fn: Handler<S>, s: S)
    requires k < |steps|
    requires RunSteps(steps[..k], s).err.None?
    requires steps[k](RunSteps(steps[..k], s).state).err.Some?
    ensures Run(steps, fn, s) == steps[k](RunSteps(steps[..k], s).state)
    decreases k
  {
    if k > 0 {
      var o := steps[0](s);
      assert steps[..k][1..] == steps[1..][..k - 1];
      FailureStopsChain(steps[1..], k - 1, fn, o.state);
    }
  }

  /** Three steps that each succeed run through to the last one's context. */
  lemma ThreeStepsRun<S>(a: Handler<S>, b: Handler<S>, c: Handler<S>, s0: S, s1: S, s2: S, s3: S)
    requires a(s0) == Outcome(s1, None) && b(s1) == Outcome(s2, None) && c(s2) == Outcome(s3, None)
    ensures RunSteps([a, b, c], s0) == Outcome(s3, None)
  {
    var steps, done := [a, b, c], Done();
    assert steps[1..] == [b, c] && [b, c][1..] == [c] && [c][1..] == [];
    assert Run([c], done, s2) == Outcome(s3, None);
    assert Run([b, c], done, s1) == Run([c], done, s2);
    assert Run(steps, done, s0) == Run([b, c], done, s1);
  }
}
