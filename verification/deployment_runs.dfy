/** Properties of whole runs: the progress the pipeline shows, the inputs it
never reads, the fact that every reply in a trace is the handler's own, and
what happens when one chosen call is made to fail. */
module DeploymentRuns {
  import opened Errors
  import opened Domain
  import opened Collaborators
  import opened Deployment
  import opened DeploymentFacts

  // ---------------------------------------------------------------------------
  // Progress
  // ---------------------------------------------------------------------------

  /** The percentages shown while steps `k` up to `j` (excluded) all succeed:
      each step's starting percentage, then its finishing one. */
  function Shown(k: nat, j: nat): seq<nat>
    requires k <= j
    decreases j - k
  {
    if k == j then [] else [k * 10, (k + 1) * 10] + Shown(k + 1, j)
  }

  /** Such a run shows two percentages per step, from `10 * k` up to `10 * j`,
      in non-decreasing order. */
  lemma {:induction false} ShownBounds(k: nat, j: nat)
    requires k <= j
    ensures |Shown(k, j)| == 2 * (j - k)
    ensures forall i :: 0 <= i < |Shown(k, j)| ==> k * 10 <= Shown(k, j)[i] <= j * 10
    ensures forall i, i' :: 0 <= i <= i' < |Shown(k, j)| ==> Shown(k, j)[i] <= Shown(k, j)[i']
    ensures k < j ==> Shown(k, j)[0] == k * 10 && Shown(k, j)[|Shown(k, j)| - 1] == j * 10
    decreases j - k
  {
    if k < j {
      ShownBounds(k + 1, j);
      var head, rest := [k * 10, (k + 1) * 10], Shown(k + 1, j);
      var p := head + rest;
      assert Shown(k, j) == p;
      assert forall i :: 2 <= i < |p| ==> p[i] == rest[i - 2];
      if k + 1 < j {
        assert p[|p| - 1] == rest[|rest| - 1];
      }
    }
  }

  /** A run from step `k` shows two percentages for every step that succeeds;
      a failing step shows only its starting one, and the run ends there. */
  lemma {:induction false} RunStepsProgress<S>(ctx: Context, k: nat, h: Handler<S>, s: S)
    requires k <= |Steps|
    ensures ShowsProgress(k, RunSteps(ctx, k, h, s))
    decreases |Steps| - k
  {
    if k == |Steps| {
      ProgressAtEnd(ctx, h, s);
    } else if PerformStep(Steps[k], ctx, h, s).status.Ok? {
      RunStepsProgress(ctx, k + 1, h, PerformStep(Steps[k], ctx, h, s).state);
      ProgressAfterSuccess(ctx, k, h, s);
    } else {
      ProgressAfterFailure(ctx, k, h, s);
    }
  }

  lemma ProgressAtEnd<S>(ctx: Context, h: Handler<S>, s: S)
    ensures ShowsProgress(|Steps|, RunSteps(ctx, |Steps|, h, s))
  {
    assert Steps[|Steps|..] == [];
  }

  lemma ProgressAfterFailure<S>(ctx: Context, k: nat, h: Handler<S>, s: S)
    requires k < |Steps| && PerformStep(Steps[k], ctx, h, s).status.Failed?
    ensures ShowsProgress(k, RunSteps(ctx, k, h, s))
  {
    var r := PerformStep(Steps[k], ctx, h, s);
    UnfoldRunSteps(ctx, k, h, s);
    StepEndsInItself(Steps[k], ctx, h, s);
    ProgressStops(k, r.exchanges, r.state, r.status.error);
  }

  lemma ProgressAfterSuccess<S>(ctx: Context, k: nat, h: Handler<S>, s: S)
    requires k < |Steps|
    requires var r := PerformStep(Steps[k], ctx, h, s);
      r.status.Ok? && ShowsProgress(k + 1, RunSteps(ctx, k + 1, h, r.state))
    ensures ShowsProgress(k, RunSteps(ctx, k, h, s))
  {
    var r := PerformStep(Steps[k], ctx, h, s);
    UnfoldRunSteps(ctx, k, h, s);
    ProgressContinues(k, r.exchanges, RunSteps(ctx, k + 1, h, r.state));
  }

  /** The percentages shown by a run from step `k` that ended in `o`. */
  predicate ShowsProgress<S>(k: nat, o: Outcome<S>)
    requires k <= |Steps|
  {
    && (o.status.Ok? ==> o.progress == Shown(k, |Steps|))
    && (o.status.Failed? ==>
        && |o.exchanges| > 0
        && var j := Ordinal(o.exchanges[|o.exchanges| - 1].step);
           k <= j && o.progress == Shown(k, j) + [j * 10])
  }

  lemma ProgressStops<S>(k: nat, xs: seq<Exchange>, s: S, e: Error)
    requires k < |Steps| && |xs| > 0 && xs[|xs| - 1].step == Steps[k]
    ensures ShowsProgress(k, Outcome(s, xs, [Percent(k)], Failed(StepFailure(Steps[k], e))))
  {
    OrdinalAt(k);
    assert Shown(k, k) + [k * 10] == [Percent(k)];
  }

  lemma ProgressContinues<S>(k: nat, xs: seq<Exchange>, rest: Outcome<S>)
    requires k < |Steps| && ShowsProgress(k + 1, rest)
    ensures ShowsProgress(k, Prepend(xs, [Percent(k), Percent(k + 1)], rest))
  {
    if rest.status.Failed? {
      LastOfAppend(xs, rest.exchanges);
      var j := Ordinal(rest.exchanges[|rest.exchanges| - 1].step);
      assert [Percent(k), Percent(k + 1)] + (Shown(k + 1, j) + [j * 10]) == Shown(k, j) + [j * 10];
    }
  }

  lemma OrdinalAt(k: nat)
    requires k < |Steps|
    ensures Ordinal(Steps[k]) == k
  {
    OrdinalOfSteps();
  }

  /** A failed step's last call is one of its own. */
  lemma StepEndsInItself<S>(st: Step, ctx: Context, h: Handler<S>, s: S)
    ensures var r := PerformStep(st, ctx, h, s);
      r.status.Failed? ==> |r.exchanges| > 0 && r.exchanges[|r.exchanges| - 1].step == st
  {
  }

  lemma LastOfAppend(a: seq<Exchange>, b: seq<Exchange>)
    requires |b| > 0
    ensures (a + b)[|a + b| - 1] == b[|b| - 1]
  {
  }

  /** The percentages a deployment shows start at 0, never decrease and never
      exceed 100; 100 is reached exactly when the deployment succeeds, after
      twenty percentages, and a failed step leaves its own starting percentage
      as the last one shown.  None are shown for a service that is not
      configured. */
  lemma DeployProgress<S>(req: DeploymentRequest, cfg: Config, h: Handler<S>, s: S)
    ensures ProgressAsShown(req.serviceName in cfg.services, Deploy(req, cfg, h, s))
  {
    var present := req.serviceName in cfg.services;
    if present {
      RunStepsProgress(Resolve(req, cfg).value, 0, h, s);
    }
    ProgressOfOutcome(present, Deploy(req, cfg, h, s));
  }

  /** The progress of a deployment that found its service (`present`) or did
      not, as the steps show it. */
  ghost predicate ProgressAsShown<S>(present: bool, o: Outcome<S>)
  {
    var p := o.progress;
    && (present <==> p != [])
    && (p != [] ==> p[0] == 0)
    && (forall i, j :: 0 <= i <= j < |p| ==> p[i] <= p[j])
    && (forall i :: 0 <= i < |p| ==> p[i] <= 100)
    && (o.status.Ok? <==> p != [] && p[|p| - 1] == 100)
    && (o.status.Ok? ==> |p| == 2 * |Steps|)
    && (o.status.Failed? && p != [] ==>
        && |o.exchanges| > 0
        && p[|p| - 1] == Ordinal(o.exchanges[|o.exchanges| - 1].step) * 10)
  }

  lemma ProgressOfOutcome<S>(present: bool, o: Outcome<S>)
    requires present ==> ShowsProgress(0, o)
    requires !present ==> o.progress == [] && o.status.Failed?
    ensures ProgressAsShown(present, o)
  {
    ProgressOrder(present, o);
    ProgressEnd(present, o);
  }

  lemma ProgressOrder<S>(present: bool, o: Outcome<S>)
    requires present ==> ShowsProgress(0, o)
    requires !present ==> o.progress == []
    ensures var p := o.progress;
      && (present <==> p != [])
      && (p != [] ==> p[0] == 0)
      && (forall i, j :: 0 <= i <= j < |p| ==> p[i] <= p[j])
      && (forall i :: 0 <= i < |p| ==> p[i] <= 100)
  {
    if present {
      OrderFrom(0, o);
    }
  }

  /** From step `k`, the percentages shown start at `10 * k`, never decrease
      and stay within 100. */
  lemma OrderFrom<S>(k: nat, o: Outcome<S>)
    requires k < |Steps| && ShowsProgress(k, o)
    ensures var p := o.progress;
      && p != [] && p[0] == k * 10
      && (forall i, j :: 0 <= i <= j < |p| ==> p[i] <= p[j])
      && (forall i :: 0 <= i < |p| ==> p[i] <= 100)
  {
    if o.status.Ok? {
      ShownBounds(k, |Steps|);
    } else {
      var j := Ordinal(o.exchanges[|o.exchanges| - 1].step);
      ShownBounds(k, j);
      EndWithMaximum(Shown(k, j), j * 10);
      if k < j {
        assert o.progress[0] == Shown(k, j)[0];
      }
    }
  }

  lemma ProgressEnd<S>(present: bool, o: Outcome<S>)
    requires present ==> ShowsProgress(0, o)
    requires !present ==> o.progress == [] && o.status.Failed?
    ensures var p := o.progress;
      && (o.status.Ok? <==> p != [] && p[|p| - 1] == 100)
      && (o.status.Ok? ==> |p| == 2 * |Steps|)
      && (o.status.Failed? && p != [] ==>
          && |o.exchanges| > 0
          && p[|p| - 1] == Ordinal(o.exchanges[|o.exchanges| - 1].step) * 10)
  {
    if present {
      EndFrom(0, o);
    }
  }

  /** From step `k`, a run that succeeds ends at 100 after two percentages
      per step, and one that fails ends at its failing step's starting
      percentage. */
  lemma EndFrom<S>(k: nat, o: Outcome<S>)
    requires k < |Steps| && ShowsProgress(k, o)
    ensures var p := o.progress;
      && (o.status.Ok? <==> p != [] && p[|p| - 1] == 100)
      && (o.status.Ok? ==> |p| == 2 * (|Steps| - k))
      && (o.status.Failed? ==>
          && p != [] && |o.exchanges| > 0
          && p[|p| - 1] == Ordinal(o.exchanges[|o.exchanges| - 1].step) * 10)
  {
    if o.status.Ok? {
      ShownBounds(k, |Steps|);
    } else {
      var j := Ordinal(o.exchanges[|o.exchanges| - 1].step);
      ShownBounds(k, j);
    }
  }

  /** A non-decreasing list followed by a value no smaller than any entry is
      still non-decreasing. */
  lemma EndWithMaximum(a: seq<nat>, x: nat)
    requires forall i, i' :: 0 <= i <= i' < |a| ==> a[i] <= a[i']
    requires forall i :: 0 <= i < |a| ==> a[i] <= x
    ensures forall i, i' :: 0 <= i <= i' < |a + [x]| ==> (a + [x])[i] <= (a + [x])[i']
  {
  }

  // ---------------------------------------------------------------------------
  // Inputs the pipeline never reads
  // ---------------------------------------------------------------------------

  /** Two service entries the pipeline cannot tell apart: they differ at most in
      the service name, the registry field and the health timeout. */
  predicate SameUse(a: DeployConfig, b: DeployConfig)
  {
    && a.imageName == b.imageName
    && a.buildPath == b.buildPath
    && a.containerName == b.containerName
    && a.dockerRunArgs == b.dockerRunArgs
  }

  /** Steps whose calls agree run alike, call for call. */
  lemma {:induction false} RunStepsFollowActions<S>(ctx1: Context, ctx2: Context, k: nat, h: Handler<S>, s: S)
    requires k <= |Steps|
    requires forall st :: Actions(st, ctx1) == Actions(st, ctx2)
    ensures RunSteps(ctx1, k, h, s) == RunSteps(ctx2, k, h, s)
    decreases |Steps| - k
  {
    if k < |Steps| {
      var r := PerformStep(Steps[k], ctx1, h, s);
      assert PerformStep(Steps[k], ctx2, h, s) == r;
      UnfoldRunSteps(ctx1, k, h, s);
      UnfoldRunSteps(ctx2, k, h, s);
      if r.status.Ok? {
        RunStepsFollowActions(ctx1, ctx2, k + 1, h, r.state);
      }
    }
  }

  /** The request's dry-run flag, and the service name, registry field and
      health timeout of the service entries, change nothing about a deployment:
      not its calls, not its progress, not its result. */
  lemma DeployIgnoresUnusedFields<S>(req1: DeploymentRequest, req2: DeploymentRequest, cfg1: Config, cfg2: Config,
                                     h: Handler<S>, s: S)
    requires req1.serviceName == req2.serviceName && req1.version == req2.version
    requires req1.buildPathOverride == req2.buildPathOverride
    requires cfg1.registry == cfg2.registry && cfg1.ssh == cfg2.ssh
    requires cfg1.services.Keys == cfg2.services.Keys
    requires forall n :: n in cfg1.services ==> n in cfg2.services && SameUse(cfg1.services[n], cfg2.services[n])
    ensures Deploy(req1, cfg1, h, s) == Deploy(req2, cfg2, h, s)
  {
    var name := req1.serviceName;
    if name in cfg1.services {
      var ctx1, ctx2 := Resolve(req1, cfg1).value, Resolve(req2, cfg2).value;
      assert SameUse(cfg1.services[name], cfg2.services[name]);
      assert SameUse(ctx1.service, ctx2.service);
      forall st
        ensures Actions(st, ctx1) == Actions(st, ctx2)
      {
      }
      RunStepsFollowActions(ctx1, ctx2, 0, h, s);
    }
  }

  // ---------------------------------------------------------------------------
  // Replies come from the handler
  // ---------------------------------------------------------------------------

  lemma CallsOfAppend(a: seq<Exchange>, b: seq<Exchange>)
    ensures CallsOf(a + b) == CallsOf(a) + CallsOf(b)
    ensures RepliesOf(a + b) == RepliesOf(a) + RepliesOf(b)
  {
    assert forall i :: 0 <= i < |a| ==> (a + b)[i] == a[i];
    assert forall i :: |a| <= i < |a + b| ==> (a + b)[i] == b[i - |a|];
  }

  /** The calls of one step, asked of the handler afresh, get the replies the
      step recorded and leave the handler where the step left it. */
  lemma {:induction false} RunActionsReplays<S>(st: Step, acts: seq<Action>, h: Handler<S>, s: S)
    ensures var r := RunActions(st, acts, h, s);
      Drive(h, s, CallsOf(r.exchanges)) == (r.state, RepliesOf(r.exchanges))
    decreases |acts|
  {
    var r := RunActions(st, acts, h, s);
    if acts == [] {
      assert CallsOf(r.exchanges) == [];
    } else {
      var (s1, reply) := h(s, acts[0].call);
      var x := Exchange(st, acts[0], reply);
      if reply.Refused? {
        assert r.exchanges == [x] + [];
        assert CallsOf([]) == [] && RepliesOf([]) == [];
        ReplayCons(h, s, x, s1, [], s1);
      } else {
        var rest := RunActions(st, acts[1..], h, s1);
        RunActionsReplays(st, acts[1..], h, s1);
        assert r.exchanges == [x] + rest.exchanges;
        ReplayCons(h, s, x, s1, rest.exchanges, rest.state);
      }
    }
  }

  lemma ReplayCons<S>(h: Handler<S>, s: S, x: Exchange, s1: S, xs: seq<Exchange>, last: S)
    requires h(s, x.action.call) == (s1, x.reply)
    requires Drive(h, s1, CallsOf(xs)) == (last, RepliesOf(xs))
    ensures Drive(h, s, CallsOf([x] + xs)) == (last, RepliesOf([x] + xs))
  {
    CallsOfAppend([x], xs);
    assert CallsOf([x]) == [x.action.call] && RepliesOf([x]) == [x.reply];
    DriveCons(h, s, x.action.call, CallsOf(xs));
  }

  lemma DriveCons<S>(h: Handler<S>, s: S, c: Call, rest: seq<Call>)
    ensures var (s1, reply) := h(s, c);
      var (last, replies) := Drive(h, s1, rest);
      Drive(h, s, [c] + rest) == (last, [reply] + replies)
  {
    assert ([c] + rest)[1..] == rest;
  }

  lemma {:induction false} RunStepsReplays<S>(ctx: Context, k: nat, h: Handler<S>, s: S)
    requires k <= |Steps|
    ensures Replays(h, s, RunSteps(ctx, k, h, s))
    decreases |Steps| - k
  {
    if k == |Steps| {
      assert CallsOf(RunSteps(ctx, k, h, s).exchanges) == [];
    } else {
      var r := PerformStep(Steps[k], ctx, h, s);
      UnfoldRunSteps(ctx, k, h, s);
      RunActionsReplays(Steps[k], Actions(Steps[k], ctx), h, s);
      if r.status.Ok? {
        RunStepsReplays(ctx, k + 1, h, r.state);
        ReplayThenRest(h, s, r.exchanges, r.state, [Percent(k), Percent(k + 1)], RunSteps(ctx, k + 1, h, r.state));
      }
    }
  }

  /** Asking the handler the calls of `o`'s trace from `s` gives back the
      trace's replies and `o`'s final state. */
  ghost predicate Replays<S>(h: Handler<S>, s: S, o: Outcome<S>)
  {
    Drive(h, s, CallsOf(o.exchanges)) == (o.state, RepliesOf(o.exchanges))
  }

  lemma ReplayThenRest<S>(h: Handler<S>, s: S, xs: seq<Exchange>, mid: S, progress: seq<nat>, rest: Outcome<S>)
    requires Drive(h, s, CallsOf(xs)) == (mid, RepliesOf(xs))
    requires Replays(h, mid, rest)
    ensures Replays(h, s, Prepend(xs, progress, rest))
  {
    CallsOfAppend(xs, rest.exchanges);
    DriveAppend(h, s, CallsOf(xs), CallsOf(rest.exchanges));
  }

  /** A deployment's trace holds exactly the handler's replies: asking the
      handler the trace's calls in order from the same state gives back the
      trace's replies and the deployment's final state. */
  lemma DeployReplaysHandler<S>(req: DeploymentRequest, cfg: Config, h: Handler<S>, s: S)
    ensures var o := Deploy(req, cfg, h, s);
      Drive(h, s, CallsOf(o.exchanges)) == (o.state, RepliesOf(o.exchanges))
  {
    var o := Deploy(req, cfg, h, s);
    if req.serviceName in cfg.services {
      RunStepsReplays(Resolve(req, cfg).value, 0, h, s);
    } else {
      assert CallsOf(o.exchanges) == [];
    }
  }

  // ---------------------------------------------------------------------------
  // A recording handler driven by a failure oracle
  // ---------------------------------------------------------------------------

  /** The reply to the `i`-th call (counting from 0), whatever it is. */
  type Oracle = (nat, Call) -> Reply

  /** A handler that remembers every call it is asked and lets `oracle` answer. */
  function Recording(oracle: Oracle): Handler<seq<Call>>
  {
    (history: seq<Call>, c: Call) => (history + [c], oracle(|history|, c))
  }

  /** The oracle's answers to `calls`, the first of them being call number `from`. */
  function Answers(oracle: Oracle, from: nat, calls: seq<Call>): (replies: seq<Reply>)
    ensures |replies| == |calls|
    ensures forall i :: 0 <= i < |calls| ==> replies[i] == oracle(from + i, calls[i])
  {
    seq(|calls|, i requires 0 <= i < |calls| => oracle(from + i, calls[i]))
  }

  /** Driving the recording handler appends the calls to its history, and each
      reply is the oracle's answer for that call's position. */
  lemma {:induction false} DriveRecording(oracle: Oracle, history: seq<Call>, calls: seq<Call>)
    ensures Drive(Recording(oracle), history, calls) == (history + calls, Answers(oracle, |history|, calls))
    decreases |calls|
  {
    if calls == [] {
      assert history + calls == history;
    } else {
      var next := history + [calls[0]];
      DriveRecording(oracle, next, calls[1..]);
      assert next + calls[1..] == history + calls;
      assert Answers(oracle, |history|, calls) == [oracle(|history|, calls[0])] + Answers(oracle, |next|, calls[1..]);
    }
  }

  /** Under the recording handler started empty, the final history is the
      trace's calls, and each reply is the oracle's answer at its position. */
  lemma OracleDecidesEveryReply(req: DeploymentRequest, cfg: Config, oracle: Oracle)
    ensures var o := Deploy(req, cfg, Recording(oracle), []);
      && o.state == CallsOf(o.exchanges)
      && forall i :: 0 <= i < |o.exchanges| ==> o.exchanges[i].reply == oracle(i, o.exchanges[i].action.call)
  {
    var o := Deploy(req, cfg, Recording(oracle), []);
    DeployReplaysHandler(req, cfg, Recording(oracle), []);
    RecordedTrace(oracle, o.exchanges, o.state);
  }

  lemma RecordedTrace(oracle: Oracle, xs: seq<Exchange>, last: seq<Call>)
    requires Drive(Recording(oracle), [], CallsOf(xs)) == (last, RepliesOf(xs))
    ensures last == CallsOf(xs)
    ensures forall i :: 0 <= i < |xs| ==> xs[i].reply == oracle(i, xs[i].action.call)
  {
    var empty: seq<Call> := [];
    DriveRecording(oracle, empty, CallsOf(xs));
    assert empty + CallsOf(xs) == CallsOf(xs);
    assert RepliesOf(xs) == Answers(oracle, 0, CallsOf(xs));
  }

  /** Refuses the `n`-th call with `cause` and answers every other one. */
  function FailAt(n: nat, cause: Error): Oracle
  {
    (i: nat, c: Call) => if i == n then Refused(cause) else Done("")
  }

  /** Making the `n`-th planned call fail stops the pipeline right there: the
      trace holds the first `n + 1` planned calls and the error names the step
      of the failed call.  Past the twelfth call there is nothing to fail and
      the deployment succeeds. */
  lemma InjectedFailureStopsPipeline(req: DeploymentRequest, cfg: Config, n: nat, cause: Error)
    requires req.serviceName in cfg.services
    ensures var o := Deploy(req, cfg, Recording(FailAt(n, cause)), []);
      var plan := Plan(Resolve(req, cfg).value);
      && |plan| == 12
      && (n < 12 ==>
          && |o.exchanges| == n + 1
          && o.state == PlannedCalls(plan[..n + 1])
          && o.status == Failed(StepFailure(plan[n].step, ActionError(plan[n].action, cause))))
      && (n >= 12 ==> o.status.Ok? && o.state == PlannedCalls(plan))
  {
    var ctx := Resolve(req, cfg).value;
    var o := Deploy(req, cfg, Recording(FailAt(n, cause)), []);
    QueriesInPlan(ctx);
    DeployFailFast(req, cfg, Recording(FailAt(n, cause)), []);
    OracleDecidesEveryReply(req, cfg, FailAt(n, cause));
    RefusedOnlyAt(o.exchanges, n, cause);
    FollowedCalls(o.exchanges, Plan(ctx));
  }

  /** A trace in which only the `n`-th call can be refused either stops right
      at it or, if it never gets that far, answers everything. */
  lemma RefusedOnlyAt(xs: seq<Exchange>, n: nat, cause: Error)
    requires forall i :: 0 <= i < |xs| ==> xs[i].reply == FailAt(n, cause)(i, xs[i].action.call)
    requires AllDone(xs) || StoppedAtRefusal(xs)
    ensures StoppedAtRefusal(xs) ==> |xs| == n + 1 && xs[n].reply == Refused(cause)
    ensures AllDone(xs) ==> |xs| <= n
  {
    if StoppedAtRefusal(xs) {
      assert xs[|xs| - 1].reply.Refused?;
    }
    if n < |xs| {
      assert xs[n].reply.Refused?;
    }
  }

  /** The calls of a trace that follows a plan are the plan's first calls. */
  lemma FollowedCalls(xs: seq<Exchange>, plan: seq<Planned>)
    requires Follows(xs, plan)
    ensures CallsOf(xs) == PlannedCalls(plan[..|xs|])
  {
  }
}
