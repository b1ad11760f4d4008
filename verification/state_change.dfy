/** The FSx waiters hand their configuration to
    `resource.StateChangeConf.WaitForState`, which lives in
    terraform-plugin-sdk, outside the provider. This module is an abstract
    model of that poll loop: it fixes the one-refresh decision rule
    and runs it over the finite sequence of refresh results observed before
    the deadline. Clocks, sleeps, back-off and goroutines are not modelled:
    "the deadline passed" is "the observations ran out". */
module StateChange {
  import opened AwsBase

  /** One call of a `resource.StateRefreshFunc`: the untyped result (None
      for a nil interface value), the state label and the error. */
  datatype RefreshResult<S> = RefreshResult(result: Option<S>, state: string, err: Option<ApiError>)

  /** The fields of `resource.StateChangeConf` the FSx waiters set. Durations
      are whole seconds; an unset delay is 0. */
  datatype StateChangeConf = StateChangeConf(
    pending: seq<string>,
    target: seq<string>,
    timeoutSeconds: nat,
    delaySeconds: nat)

  predicate Disjoint(a: seq<string>, b: seq<string>) {
    forall x :: x in a ==> x !in b
  }

  /** The library's default for `NotFoundChecks` when a configuration leaves
      it at zero, as all the FSx waiters do: a nil result with a non-empty
      target is tolerated this many times in a row. */
  const NotFoundChecks: nat := 20

  /** The errors `WaitForState` can end with. */
  datatype WaitError =
    | RefreshError(cause: ApiError)
    | UnexpectedStateError(state: string)
    | NotFoundError(retries: nat)
    | TimeoutError(lastState: string)

  /** The decision after one refresh. */
  datatype Step = Done | Continue(notFoundTicks: nat) | Fail(error: WaitError)

  /** A refresh that ends the wait successfully: a nil result while the
      target is empty (waiting for absence), or a result whose label is a
      target label. */
  predicate Reached<S>(conf: StateChangeConf, r: RefreshResult<S>) {
    && r.err.None?
    && ((r.result.None? && |conf.target| == 0) || (r.result.Some? && r.state in conf.target))
  }

  /** A refresh after which the loop goes on polling (apart from the limit
      on consecutive nil results). */
  predicate KeepsPolling<S>(conf: StateChangeConf, r: RefreshResult<S>) {
    && r.err.None?
    && (if r.result.None? then |conf.target| > 0
        else r.state !in conf.target && (r.state in conf.pending || |conf.pending| == 0))
  }

  /** The single-step rule: an error ends the wait; a nil result is success
      when the target is empty and otherwise counts towards the not-found
      limit; a label in the target is success; a label in the pending set
      keeps polling; any other label is an unexpected state. */
  function StepOf<S>(conf: StateChangeConf, r: RefreshResult<S>, notFoundTicks: nat): (s: Step)
    ensures s.Done? <==> Reached(conf, r)
    ensures s.Continue? ==> KeepsPolling(conf, r)
    ensures r.err.Some? ==> s == Fail(RefreshError(r.err.value))
    ensures Disjoint(conf.pending, conf.target) && r.err.None? && r.result.Some? ==>
      (r.state in conf.target ==> s.Done?) &&
      (r.state in conf.pending ==> s == Continue(0)) &&
      (r.state !in conf.target && r.state !in conf.pending && |conf.pending| > 0 ==>
        s == Fail(UnexpectedStateError(r.state)))
  {
    if r.err.Some? then Fail(RefreshError(r.err.value))
    else if r.result.None? && |conf.target| == 0 then Done
    else if r.result.None? then
      if notFoundTicks + 1 > NotFoundChecks then Fail(NotFoundError(notFoundTicks + 1))
      else Continue(notFoundTicks + 1)
    else if r.state in conf.target then Done
    else if r.state in conf.pending || |conf.pending| == 0 then Continue(0)
    else Fail(UnexpectedStateError(r.state))
  }

  /** What `WaitForState` returns: the untyped result, the error, and (for
      the model) how many refreshes were made. */
  datatype WaitResult<S> = WaitResult(result: Option<S>, err: Option<WaitError>, refreshes: nat)

  predicate TimedOut<S>(w: WaitResult<S>) {
    w.err.Some? && w.err.value.TimeoutError?
  }

  /** The poll loop over the refreshes that complete before the deadline.
      On a terminal step the last refresh's result is returned with the
      error (none on success); when the deadline passes first the result is
      nil and the error is a timeout carrying the last label seen. */
  function Run<S>(conf: StateChangeConf, observed: seq<RefreshResult<S>>, notFoundTicks: nat, lastState: string)
    : (w: WaitResult<S>)
    ensures w.refreshes <= |observed|
    ensures forall i :: 0 <= i < w.refreshes - 1 ==> KeepsPolling(conf, observed[i])
    ensures TimedOut(w) ==>
      w.result.None? && w.refreshes == |observed| &&
      forall i :: 0 <= i < |observed| ==> KeepsPolling(conf, observed[i])
    ensures !TimedOut(w) ==> 0 < w.refreshes && w.result == observed[w.refreshes - 1].result
    ensures w.err.None? <==> !TimedOut(w) && Reached(conf, observed[w.refreshes - 1])
    ensures TimedOut(w) ==>
      w.err.value.lastState == if observed == [] then lastState else observed[|observed| - 1].state
    ensures !TimedOut(w) && w.err.Some? ==>
      var r := observed[w.refreshes - 1];
      || (r.err.Some? && w.err.value == RefreshError(r.err.value))
      || (&& r.err.None? && r.result.None? && |conf.target| > 0
          && w.err.value.NotFoundError? && w.err.value.retries > NotFoundChecks)
      || (&& r.err.None? && r.result.Some? && r.state !in conf.target
          && r.state !in conf.pending && |conf.pending| > 0
          && w.err.value == UnexpectedStateError(r.state))
    decreases |observed|
  {
    if observed == [] then WaitResult(None, Some(TimeoutError(lastState)), 0)
    else
      var r := observed[0];
      match StepOf(conf, r, notFoundTicks)
      case Done => WaitResult(r.result, None, 1)
      case Fail(e) => WaitResult(r.result, Some(e), 1)
      case Continue(ticks) =>
        var w := Run(conf, observed[1..], ticks, r.state);
        WaitResult(w.result, w.err, w.refreshes + 1)
  }

  /** `WaitForState` over the refresh results observed before the deadline. */
  function WaitForState<S>(conf: StateChangeConf, observed: seq<RefreshResult<S>>): WaitResult<S> {
    Run(conf, observed, 0, "")
  }

  /** The result a wait returns is nil or the result of one of the
      refreshes: the loop never invents a value. */
  lemma {:induction false} WaitResultWasObserved<S>(conf: StateChangeConf, observed: seq<RefreshResult<S>>)
    ensures var w := WaitForState(conf, observed);
      w.result.None? || exists i :: 0 <= i < |observed| && w.result == observed[i].result
  {
    var w := WaitForState(conf, observed);
    if !TimedOut(w) {
      assert w.result == observed[w.refreshes - 1].result;
    }
  }

  /** With disjoint sets, a wait never succeeds on a refresh whose label is
      pending: success means the last label is a target label (or absence
      while waiting for absence). */
  lemma NeverSucceedsWhilePending<S>(conf: StateChangeConf, observed: seq<RefreshResult<S>>)
    requires Disjoint(conf.pending, conf.target)
    ensures var w := WaitForState(conf, observed);
      w.err.None? ==>
        (0 < w.refreshes &&
         (observed[w.refreshes - 1].result.Some? ==>
            observed[w.refreshes - 1].state in conf.target &&
            observed[w.refreshes - 1].state !in conf.pending))
  {
  }

  /** A resource that stays pending never ends the wait early: every refresh
      is consumed and the wait times out with a nil result and the last
      pending label. */
  lemma {:induction false} AlwaysPendingTimesOut<S>(
    conf: StateChangeConf, observed: seq<RefreshResult<S>>, notFoundTicks: nat, lastState: string)
    requires Disjoint(conf.pending, conf.target)
    requires forall i :: 0 <= i < |observed| ==>
      observed[i].err.None? && observed[i].result.Some? && observed[i].state in conf.pending
    ensures Run(conf, observed, notFoundTicks, lastState) ==
      WaitResult(None, Some(TimeoutError(if observed == [] then lastState else observed[|observed| - 1].state)),
                 |observed|)
    decreases |observed|
  {
    if observed != [] {
      var r := observed[0];
      assert StepOf(conf, r, notFoundTicks) == Continue(0);
      AlwaysPendingTimesOut(conf, observed[1..], 0, r.state);
    }
  }

  /** A wait that fails with "not found" saw nothing NotFoundChecks + 1
      times in a row: `notFoundTicks` nil results before the observations
      plus the trailing ones, every one of them without an error. */
  lemma {:induction false} NotFoundAfterConsecutiveNilResults<S>(
    conf: StateChangeConf, observed: seq<RefreshResult<S>>, notFoundTicks: nat, lastState: string)
    requires notFoundTicks <= NotFoundChecks
    ensures var w := Run(conf, observed, notFoundTicks, lastState);
      w.err.Some? && w.err.value.NotFoundError? ==>
        && w.err.value.retries == NotFoundChecks + 1
        && w.err.value.retries <= notFoundTicks + w.refreshes
        && forall i :: 0 <= i < w.refreshes && i + w.err.value.retries >= w.refreshes ==>
             observed[i].result.None? && observed[i].err.None?
    decreases |observed|
  {
    if observed != [] {
      var r := observed[0];
      match StepOf(conf, r, notFoundTicks)
      case Done =>
      case Fail(e) =>
      case Continue(ticks) =>
        NotFoundAfterConsecutiveNilResults(conf, observed[1..], ticks, r.state);
        var w' := Run(conf, observed[1..], ticks, r.state);
        var w := Run(conf, observed, notFoundTicks, lastState);
        if w.err.Some? && w.err.value.NotFoundError? {
          forall i | 0 <= i < w.refreshes && i + w.err.value.retries >= w.refreshes
            ensures observed[i].result.None? && observed[i].err.None?
          {
            if i > 0 {
              assert observed[i] == observed[1..][i - 1];
            }
          }
        }
    }
  }

  /** A run whose refreshes keep polling, each with a result, until one
      reaches the target ends on that refresh with its result. */
  lemma {:induction false} RunStopsAtFirstReached<S>(
    conf: StateChangeConf, observed: seq<RefreshResult<S>>, k: nat, notFoundTicks: nat, lastState: string)
    requires k < |observed|
    requires forall i :: 0 <= i < k ==> KeepsPolling(conf, observed[i]) && observed[i].result.Some?
    requires Reached(conf, observed[k])
    ensures Run(conf, observed, notFoundTicks, lastState) == WaitResult(observed[k].result, None, k + 1)
    decreases k
  {
    if k > 0 {
      var r := observed[0];
      assert StepOf(conf, r, notFoundTicks) == Continue(0);
      forall i | 0 <= i < k - 1
        ensures KeepsPolling(conf, observed[1..][i]) && observed[1..][i].result.Some?
      {
        assert observed[1..][i] == observed[i + 1];
      }
      RunStopsAtFirstReached(conf, observed[1..], k - 1, 0, r.state);
    }
  }

  /** Fast path: a first refresh that reaches the target ends the wait after
      that one refresh, with its result. */
  lemma FirstRefreshReached<S>(conf: StateChangeConf, observed: seq<RefreshResult<S>>)
    requires |observed| > 0 && Reached(conf, observed[0])
    ensures WaitForState(conf, observed) == WaitResult(observed[0].result, None, 1)
  {
  }
}
