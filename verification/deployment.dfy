/** The deployment pipeline: look up the service, apply the build-path override
to a copy of its settings, then run ten named steps in order, stopping at the
first one that fails.

The pipeline talks to the outside world only through the two collaborators.
Each collaborator call is a `Call`; whatever stands behind the collaborators is
a `Handler` that answers it and moves to a new state.  `Deploy` is a pure
function of the request, the configuration, the handler and its initial state,
and returns every call it made with the reply it got (the trace), the progress
percentages it displayed, and its result.
 */
module Deployment {
  import opened Errors
  import opened Domain
  import opened Collaborators
  import Progress

  // ---------------------------------------------------------------------------
  // The step list
  // ---------------------------------------------------------------------------

  datatype Step =
    | BuildStep | TagStep | LoginStep | PushStep | ConnectStep
    | PullStep | StopStep | RemoveStep | RunStep | VerifyStep

  const Steps: seq<Step> :=
    [BuildStep, TagStep, LoginStep, PushStep, ConnectStep, PullStep, StopStep, RemoveStep, RunStep, VerifyStep]

  /** The name a step is announced and reported under. */
  function StepName(st: Step): string
  {
    match st
    case BuildStep => "Building Docker image"
    case TagStep => "Tagging image for registry"
    case LoginStep => "Logging into registry"
    case PushStep => "Pushing image to registry"
    case ConnectStep => "Connecting to remote server"
    case PullStep => "Pulling image on remote"
    case StopStep => "Stopping existing container"
    case RemoveStep => "Removing existing container"
    case RunStep => "Running new container"
    case VerifyStep => "Verifying container mounts"
  }

  /** The position of a step in the list. */
  function Ordinal(st: Step): (k: nat)
    ensures k < |Steps| && Steps[k] == st
  {
    match st
    case BuildStep => 0
    case TagStep => 1
    case LoginStep => 2
    case PushStep => 3
    case ConnectStep => 4
    case PullStep => 5
    case StopStep => 6
    case RemoveStep => 7
    case RunStep => 8
    case VerifyStep => 9
  }

  // ---------------------------------------------------------------------------
  // Resolving the request
  // ---------------------------------------------------------------------------

  /** Everything the steps read: the service settings after the override, the
      version, and the registry and remote host settings. */
  datatype Context = Context(service: DeployConfig, version: string, registry: RegistryConfig, ssh: SSHConfig)

  function NotFound(serviceName: string): Error
  {
    Cause("service '" + serviceName + "' not found in config")
  }

  /** The service's settings, with the build path replaced by the override when
      one is given.  The configuration itself is a value and stays as it was. */
  function Resolve(req: DeploymentRequest, cfg: Config): (r: Result<Context>)
    ensures r.Failure? <==> req.serviceName !in cfg.services
    ensures r.Failure? ==> r.error == NotFound(req.serviceName)
    ensures r.Success? ==>
      var configured := cfg.services[req.serviceName];
      && r.value.service.buildPath == (if req.buildPathOverride != "" then req.buildPathOverride else configured.buildPath)
      && r.value.service == configured.(buildPath := r.value.service.buildPath)
      && r.value.version == req.version
      && r.value.registry == cfg.registry
      && r.value.ssh == cfg.ssh
  {
    if req.serviceName !in cfg.services then Failure(NotFound(req.serviceName))
    else
      var configured := cfg.services[req.serviceName];
      var service := if req.buildPathOverride != "" then configured.(buildPath := req.buildPathOverride) else configured;
      Success(Context(service, req.version, cfg.registry, cfg.ssh))
  }

  // ---------------------------------------------------------------------------
  // Image references and remote command lines
  // ---------------------------------------------------------------------------

  /** `<image>:<version>`, the reference the build produces. */
  function LocalImage(imageName: string, version: string): string
  {
    imageName + ":" + version
  }

  /** `<registry host>/<image>:<version>`, the reference pushed and pulled. */
  function RegistryImage(host: string, imageName: string, version: string): string
  {
    host + "/" + LocalImage(imageName, version)
  }

  /** The registry login run on the remote host; the password is part of it. */
  function RemoteLoginCommand(registry: RegistryConfig): string
  {
    "docker login " + registry.host + " -u " + registry.username + " -p " + registry.password
  }

  function PullCommand(image: string): string
  {
    "docker pull " + image
  }

  /** Stopping and removing tolerate a missing container through `|| true`. */
  function StopCommand(container: string): string
  {
    "docker stop " + container + " || true"
  }

  function RemoveCommand(container: string): string
  {
    "docker rm " + container + " || true"
  }

  /** The run arguments are inserted as they are, between the name and the image. */
  function RunCommandLine(container: string, runArgs: string, image: string): string
  {
    "docker run -d --name " + container + " " + runArgs + " " + image
  }

  const StatusQuery := "docker ps" + " --format 'table {{.Names}}\\t{{.Status}}\\t{{.Ports}}'"

  function MountQuery(container: string): string
  {
    "docker inspect " + container + " --format='{{range .Mounts}}{{println .Source \"->\" .Destination}}{{end}}'"
  }

  // ---------------------------------------------------------------------------
  // What each step asks of the collaborators
  // ---------------------------------------------------------------------------

  /** One collaborator call of a step, with the context its failure is wrapped
      in before the step reports it (none: the collaborator's error as is). */
  datatype Action = Action(call: Call, context: Option<string>)

  function RemoteFailure(command: string): string
  {
    "remote command failed '" + command + "': "
  }

  /** The calls a step makes, in order; the step stops at the first refusal. */
  function Actions(st: Step, ctx: Context): (acts: seq<Action>)
    ensures 1 <= |acts| <= 2
    ensures |acts| == 2 <==> st == PullStep || st == VerifyStep
  {
    var service := ctx.service;
    var image := RegistryImage(ctx.registry.host, service.imageName, ctx.version);
    match st
    case BuildStep => [Action(Build(service.imageName, ctx.version, service.buildPath), None)]
    case TagStep => [Action(Tag(LocalImage(service.imageName, ctx.version), image), None)]
    case LoginStep => [Action(Login(ctx.registry.host, ctx.registry.username, ctx.registry.password), None)]
    case PushStep => [Action(Push(image), None)]
    case ConnectStep => [Action(Connect(ctx.ssh), None)]
    case PullStep =>
      var login := RemoteLoginCommand(ctx.registry);
      var pull := PullCommand(image);
      [Action(Run(login), Some(RemoteFailure(login))), Action(Run(pull), Some(RemoteFailure(pull)))]
    case StopStep => [Action(Run(StopCommand(service.containerName)), Some("failed to stop container: "))]
    case RemoveStep => [Action(Run(RemoveCommand(service.containerName)), Some("failed to remove container: "))]
    case RunStep =>
      [Action(Run(RunCommandLine(service.containerName, service.dockerRunArgs, image)), Some("failed to run container: "))]
    case VerifyStep =>
      [Action(RunWithOutput(StatusQuery), Some("failed to check container status: ")),
       Action(RunWithOutput(MountQuery(service.containerName)), Some("failed to check container mounts: "))]
  }

  /** The error a step returns when `a` is refused with `cause`. */
  function ActionError(a: Action, cause: Error): (e: Error)
    ensures Wraps(e, cause)
    ensures a.context.None? ==> e == cause
    ensures a.context.Some? ==> Message(e) == a.context.value + Message(cause)
  {
    match a.context
    case None => cause
    case Some(context) => Wrapped(context, cause)
  }

  /** The error `Deploy` returns when step `st` fails with `e`. */
  function StepFailure(st: Step, e: Error): (r: Error)
    ensures Wraps(r, e)
    ensures Message(r) == "step '" + StepName(st) + "' failed: " + Message(e)
  {
    Wrapped("step '" + StepName(st) + "' failed: ", e)
  }

  // ---------------------------------------------------------------------------
  // Traces and plans
  // ---------------------------------------------------------------------------

  /** A call made on behalf of a step, and the reply it got. */
  datatype Exchange = Exchange(step: Step, action: Action, reply: Reply)

  /** A call the pipeline intends to make on behalf of a step. */
  datatype Planned = Planned(step: Step, action: Action)

  predicate AllDone(xs: seq<Exchange>)
  {
    forall i :: 0 <= i < |xs| ==> xs[i].reply.Done?
  }

  /** The trace makes the planned calls, in the planned order, as far as it goes. */
  predicate Follows(xs: seq<Exchange>, plan: seq<Planned>)
  {
    && |xs| <= |plan|
    && forall i :: 0 <= i < |xs| ==> xs[i].step == plan[i].step && xs[i].action == plan[i].action
  }

  /** A trace that stopped at a refusal: every call but the last was answered,
      the last was refused. */
  predicate StoppedAtRefusal(xs: seq<Exchange>)
  {
    && |xs| > 0
    && AllDone(xs[..|xs| - 1])
    && xs[|xs| - 1].reply.Refused?
  }

  /** The calls of a trace, in order. */
  function CallsOf(xs: seq<Exchange>): (calls: seq<Call>)
    ensures |calls| == |xs|
    ensures forall i :: 0 <= i < |xs| ==> calls[i] == xs[i].action.call
  {
    seq(|xs|, i requires 0 <= i < |xs| => xs[i].action.call)
  }

  /** The replies of a trace, in order. */
  function RepliesOf(xs: seq<Exchange>): (replies: seq<Reply>)
    ensures |replies| == |xs|
    ensures forall i :: 0 <= i < |xs| ==> replies[i] == xs[i].reply
  {
    seq(|xs|, i requires 0 <= i < |xs| => xs[i].reply)
  }

  /** The calls of a plan, in order. */
  function PlannedCalls(plan: seq<Planned>): (calls: seq<Call>)
    ensures |calls| == |plan|
    ensures forall i :: 0 <= i < |plan| ==> calls[i] == plan[i].action.call
  {
    seq(|plan|, i requires 0 <= i < |plan| => plan[i].action.call)
  }

  function StepPlan(st: Step, acts: seq<Action>): (p: seq<Planned>)
    ensures |p| == |acts|
    ensures forall i :: 0 <= i < |p| ==> p[i] == Planned(st, acts[i])
  {
    seq(|acts|, i requires 0 <= i < |acts| => Planned(st, acts[i]))
  }

  /** The calls of the steps `steps`, in order, if every one of them is answered. */
  function PlanOf(ctx: Context, steps: seq<Step>): seq<Planned>
  {
    if steps == [] then [] else StepPlan(steps[0], Actions(steps[0], ctx)) + PlanOf(ctx, steps[1..])
  }

  /** The calls of steps `k` onwards. */
  function PlanFrom(ctx: Context, k: nat): seq<Planned>
    requires k <= |Steps|
  {
    PlanOf(ctx, Steps[k..])
  }

  lemma UnfoldPlanFrom(ctx: Context, k: nat)
    requires k < |Steps|
    ensures PlanFrom(ctx, k) == StepPlan(Steps[k], Actions(Steps[k], ctx)) + PlanFrom(ctx, k + 1)
  {
    assert Steps[k..][1..] == Steps[k + 1..];
  }

  function Plan(ctx: Context): seq<Planned>
  {
    PlanFrom(ctx, 0)
  }

  // ---------------------------------------------------------------------------
  // Running the pipeline
  // ---------------------------------------------------------------------------

  datatype StepRun<S> = StepRun(state: S, exchanges: seq<Exchange>, status: Status)

  /** What a step's run of the calls `acts` guarantees: it makes them in order;
      it succeeds exactly when every one of them was made and answered; and
      when it fails, it stopped at the first refusal and reports that call and
      its cause. */
  predicate RanAsPlanned(st: Step, acts: seq<Action>, xs: seq<Exchange>, status: Status)
  {
    && Follows(xs, StepPlan(st, acts))
    && (status.Ok? <==> |xs| == |acts| && AllDone(xs))
    && (status.Failed? ==>
        && StoppedAtRefusal(xs)
        && status.error == ActionError(xs[|xs| - 1].action, xs[|xs| - 1].reply.cause))
  }

  /** Makes the calls `acts` of step `st` in order until one is refused. */
  function RunActions<S>(st: Step, acts: seq<Action>, h: Handler<S>, s: S): (r: StepRun<S>)
    ensures RanAsPlanned(st, acts, r.exchanges, r.status)
    decreases |acts|
  {
    if acts == [] then StepRun(s, [], Ok)
    else
      var (s1, reply) := h(s, acts[0].call);
      var x := Exchange(st, acts[0], reply);
      match reply
      case Refused(cause) =>
        RefusedFirst(st, acts, x);
        StepRun(s1, [x], Failed(ActionError(acts[0], cause)))
      case Done(_) =>
        var rest := RunActions(st, acts[1..], h, s1);
        AnsweredThenRest(st, acts, x, rest.exchanges, rest.status);
        StepRun(rest.state, [x] + rest.exchanges, rest.status)
  }

  /** A refused first call ends the step's run there. */
  lemma RefusedFirst(st: Step, acts: seq<Action>, x: Exchange)
    requires |acts| > 0 && x == Exchange(st, acts[0], x.reply) && x.reply.Refused?
    ensures RanAsPlanned(st, acts, [x], Failed(ActionError(acts[0], x.reply.cause)))
  {
    assert StepPlan(st, acts)[0] == Planned(st, acts[0]);
    assert [x][..0] == [];
  }

  /** An answered first call followed by the run of the remaining calls keeps
      the guarantees of `RunActions`. */
  lemma AnsweredThenRest(st: Step, acts: seq<Action>, x: Exchange, xs: seq<Exchange>, status: Status)
    requires |acts| > 0 && x == Exchange(st, acts[0], x.reply) && x.reply.Done?
    requires RanAsPlanned(st, acts[1..], xs, status)
    ensures RanAsPlanned(st, acts, [x] + xs, status)
  {
    var head := [Planned(st, acts[0])];
    assert StepPlan(st, acts) == head + StepPlan(st, acts[1..]);
    FollowsAppend([x], xs, head, StepPlan(st, acts[1..]));
    AllDoneAppend([x], xs);
    if status.Failed? {
      StoppedAppend([x], xs);
      assert ([x] + xs)[|[x] + xs| - 1] == xs[|xs| - 1];
    }
  }

  function PerformStep<S>(st: Step, ctx: Context, h: Handler<S>, s: S): StepRun<S>
  {
    RunActions(st, Actions(st, ctx), h, s)
  }

  /** The percentage shown once `done` steps are complete. */
  function Percent(done: nat): (p: nat)
    requires done <= |Steps|
    ensures p == done * 10
  {
    Progress.Percent(done, |Steps|)
  }

  /** What a run of the pipeline leaves: the handler's state, the trace, the
      progress percentages shown, and the result. */
  datatype Outcome<S> = Outcome(state: S, exchanges: seq<Exchange>, progress: seq<nat>, status: Status)

  /** Runs steps `k` onwards.  Before a step its starting percentage is shown;
      after it succeeds, its finishing one; a failure is reported under the
      step's name and ends the run. */
  function RunSteps<S>(ctx: Context, k: nat, h: Handler<S>, s: S): (o: Outcome<S>)
    requires k <= |Steps|
  {
    RunRest(ctx, k, Steps[k..], h, s)
  }

  /** Runs `rest`, the steps from the `k`-th onwards. */
  function RunRest<S>(ctx: Context, k: nat, rest: seq<Step>, h: Handler<S>, s: S): (o: Outcome<S>)
    requires k + |rest| == |Steps|
    decreases rest
  {
    if rest == [] then Outcome(s, [], [], Ok)
    else
      var st := rest[0];
      var r := PerformStep(st, ctx, h, s);
      match r.status
      case Failed(e) =>
        Outcome(r.state, r.exchanges, [Percent(k)], Failed(StepFailure(st, e)))
      case Ok =>
        var after := RunRest(ctx, k + 1, rest[1..], h, r.state);
        Outcome(after.state, r.exchanges + after.exchanges, [Percent(k), Percent(k + 1)] + after.progress, after.status)
  }

  /** Runs from step `k` make the planned calls in order, succeed exactly when
      every planned call is answered, and otherwise stop at the first refusal
      and report it under its step's name. */
  lemma {:induction false} RunStepsFailFast<S>(ctx: Context, k: nat, h: Handler<S>, s: S)
    requires k <= |Steps|
    ensures FailsFast(ctx, k, RunSteps(ctx, k, h, s))
    decreases |Steps| - k
  {
    if k < |Steps| {
      var r := PerformStep(Steps[k], ctx, h, s);
      if r.status.Ok? {
        RunStepsFailFast(ctx, k + 1, h, r.state);
        StepSucceeds(ctx, k, h, s);
      } else {
        StepFails(ctx, k, h, s);
      }
    }
  }

  lemma StepFails<S>(ctx: Context, k: nat, h: Handler<S>, s: S)
    requires k < |Steps| && PerformStep(Steps[k], ctx, h, s).status.Failed?
    ensures FailsFast(ctx, k, RunSteps(ctx, k, h, s))
  {
    UnfoldRunSteps(ctx, k, h, s);
    StopAtStep(ctx, k, PerformStep(Steps[k], ctx, h, s));
  }

  lemma StepSucceeds<S>(ctx: Context, k: nat, h: Handler<S>, s: S)
    requires k < |Steps|
    requires var r := PerformStep(Steps[k], ctx, h, s);
      r.status.Ok? && FailsFast(ctx, k + 1, RunSteps(ctx, k + 1, h, r.state))
    ensures FailsFast(ctx, k, RunSteps(ctx, k, h, s))
  {
    var r := PerformStep(Steps[k], ctx, h, s);
    UnfoldRunSteps(ctx, k, h, s);
    ContinueAfterStep(ctx, k, r, RunSteps(ctx, k + 1, h, r.state));
  }

  /** The guarantees of a run from step `k` that ended in `o`. */
  predicate FailsFast<S>(ctx: Context, k: nat, o: Outcome<S>)
    requires k <= |Steps|
  {
    && Follows(o.exchanges, PlanFrom(ctx, k))
    && (o.status.Ok? <==> |o.exchanges| == |PlanFrom(ctx, k)| && AllDone(o.exchanges))
    && (o.status.Failed? ==>
        && StoppedAtRefusal(o.exchanges)
        && var last := o.exchanges[|o.exchanges| - 1];
           o.status.error == StepFailure(last.step, ActionError(last.action, last.reply.cause)))
  }

  lemma StopAtStep<S>(ctx: Context, k: nat, r: StepRun<S>)
    requires k < |Steps|
    requires Follows(r.exchanges, StepPlan(Steps[k], Actions(Steps[k], ctx)))
    requires r.status.Failed? && StoppedAtRefusal(r.exchanges)
    requires var last := r.exchanges[|r.exchanges| - 1]; r.status.error == ActionError(last.action, last.reply.cause)
    ensures FailsFast(ctx, k, Outcome(r.state, r.exchanges, [Percent(k)], Failed(StepFailure(Steps[k], r.status.error))))
  {
    var head := StepPlan(Steps[k], Actions(Steps[k], ctx));
    UnfoldPlanFrom(ctx, k);
    FollowsPrefix(r.exchanges, head, PlanFrom(ctx, k + 1));
    var last := r.exchanges[|r.exchanges| - 1];
    assert !AllDone(r.exchanges) by { assert last.reply.Refused?; }
    assert last.step == Steps[k];
  }

  lemma ContinueAfterStep<S>(ctx: Context, k: nat, r: StepRun<S>, rest: Outcome<S>)
    requires k < |Steps|
    requires Follows(r.exchanges, StepPlan(Steps[k], Actions(Steps[k], ctx)))
    requires |r.exchanges| == |Actions(Steps[k], ctx)| && AllDone(r.exchanges)
    requires FailsFast(ctx, k + 1, rest)
    ensures FailsFast(ctx, k, Prepend(r.exchanges, [Percent(k), Percent(k + 1)], rest))
  {
    Chain(ctx, k, r, rest);
  }

  /** A step that ran to the end followed by the rest of the run keeps the
      rest's guarantees. */
  lemma Chain<S>(ctx: Context, k: nat, r: StepRun<S>, rest: Outcome<S>)
    requires k < |Steps|
    requires Follows(r.exchanges, StepPlan(Steps[k], Actions(Steps[k], ctx)))
    requires |r.exchanges| == |Actions(Steps[k], ctx)| && AllDone(r.exchanges)
    requires Follows(rest.exchanges, PlanFrom(ctx, k + 1))
    requires rest.status.Ok? <==> |rest.exchanges| == |PlanFrom(ctx, k + 1)| && AllDone(rest.exchanges)
    requires rest.status.Failed? ==> StoppedAtRefusal(rest.exchanges)
    ensures var xs := r.exchanges + rest.exchanges;
      && Follows(xs, PlanFrom(ctx, k))
      && (rest.status.Ok? <==> |xs| == |PlanFrom(ctx, k)| && AllDone(xs))
      && (rest.status.Failed? ==> StoppedAtRefusal(xs) && xs[|xs| - 1] == rest.exchanges[|rest.exchanges| - 1])
  {
    var head := StepPlan(Steps[k], Actions(Steps[k], ctx));
    UnfoldPlanFrom(ctx, k);
    FollowsAppend(r.exchanges, rest.exchanges, head, PlanFrom(ctx, k + 1));
    AllDoneAppend(r.exchanges, rest.exchanges);
    if rest.status.Failed? {
      StoppedAppend(r.exchanges, rest.exchanges);
    }
  }

  lemma FollowsAppend(a: seq<Exchange>, b: seq<Exchange>, pa: seq<Planned>, pb: seq<Planned>)
    requires Follows(a, pa) && |a| == |pa| && Follows(b, pb)
    ensures Follows(a + b, pa + pb)
  {
    var xs, plan := a + b, pa + pb;
    forall i | 0 <= i < |xs|
      ensures xs[i].step == plan[i].step && xs[i].action == plan[i].action
    {
      if i >= |a| {
        assert xs[i] == b[i - |a|] && plan[i] == pb[i - |a|];
      } else {
        assert xs[i] == a[i] && plan[i] == pa[i];
      }
    }
  }

  lemma FollowsPrefix(xs: seq<Exchange>, pa: seq<Planned>, pb: seq<Planned>)
    requires Follows(xs, pa)
    ensures Follows(xs, pa + pb)
  {
    assert forall i :: 0 <= i < |xs| ==> (pa + pb)[i] == pa[i];
  }

  lemma AllDoneAppend(a: seq<Exchange>, b: seq<Exchange>)
    requires AllDone(a)
    ensures AllDone(a + b) <==> AllDone(b)
  {
    var xs := a + b;
    if AllDone(b) {
      forall i | 0 <= i < |xs|
        ensures xs[i].reply.Done?
      {
        if i >= |a| {
          assert xs[i] == b[i - |a|];
        }
      }
    }
    if AllDone(xs) {
      forall i | 0 <= i < |b|
        ensures b[i].reply.Done?
      {
        assert b[i] == xs[i + |a|];
      }
    }
  }

  lemma StoppedAppend(a: seq<Exchange>, b: seq<Exchange>)
    requires AllDone(a) && StoppedAtRefusal(b)
    ensures StoppedAtRefusal(a + b) && (a + b)[|a + b| - 1] == b[|b| - 1]
  {
    assert (a + b)[..|a + b| - 1] == a + b[..|b| - 1];
    AllDoneAppend(a, b[..|b| - 1]);
  }

  /** `Deploy`: a service missing from the configuration is an error before any
      call is made; otherwise the steps run from the first. */
  function Deploy<S>(req: DeploymentRequest, cfg: Config, h: Handler<S>, s: S): (o: Outcome<S>)
    ensures req.serviceName !in cfg.services ==> o == Outcome(s, [], [], Failed(NotFound(req.serviceName)))
    ensures req.serviceName in cfg.services ==> o.progress != [] && o.progress[0] == 0
  {
    match Resolve(req, cfg)
    case Failure(e) => Outcome(s, [], [], Failed(e))
    case Success(ctx) => RunSteps(ctx, 0, h, s)
  }

  /** The step loop as the Go code writes it, one step per iteration. */
  method DeployLoop<S>(req: DeploymentRequest, cfg: Config, h: Handler<S>, s0: S) returns (o: Outcome<S>)
    ensures o == Deploy(req, cfg, h, s0)
  {
    var resolved := Resolve(req, cfg);
    if resolved.Failure? {
      return Outcome(s0, [], [], Failed(resolved.error));
    }
    var ctx := resolved.value;
    var s := s0;
    var exchanges: seq<Exchange> := [];
    var progress: seq<nat> := [];
    var i := 0;
    while i < |Steps|
      invariant 0 <= i <= |Steps|
      invariant Prepend(exchanges, progress, RunSteps(ctx, i, h, s)) == RunSteps(ctx, 0, h, s0)
    {
      var st := Steps[i];
      var r := PerformStep(st, ctx, h, s);
      UnfoldRunSteps(ctx, i, h, s);
      if r.status.Failed? {
        return Outcome(r.state, exchanges + r.exchanges, progress + [Percent(i)], Failed(StepFailure(st, r.status.error)));
      }
      PrependTwice(exchanges, progress, r.exchanges, [Percent(i), Percent(i + 1)], RunSteps(ctx, i + 1, h, r.state));
      progress := progress + [Percent(i), Percent(i + 1)];
      exchanges := exchanges + r.exchanges;
      s := r.state;
      i := i + 1;
    }
    assert RunSteps(ctx, i, h, s) == Outcome(s, [], [], Ok);
    assert exchanges + [] == exchanges && progress + [] == progress;
    return Outcome(s, exchanges, progress, Ok);
  }

  /** An outcome preceded by the calls and progress of earlier steps. */
  function Prepend<S>(exchanges: seq<Exchange>, progress: seq<nat>, o: Outcome<S>): Outcome<S>
  {
    Outcome(o.state, exchanges + o.exchanges, progress + o.progress, o.status)
  }

  lemma UnfoldRunSteps<S>(ctx: Context, k: nat, h: Handler<S>, s: S)
    requires k < |Steps|
    ensures var r := PerformStep(Steps[k], ctx, h, s);
      RunSteps(ctx, k, h, s) ==
        if r.status.Failed? then Outcome(r.state, r.exchanges, [Percent(k)], Failed(StepFailure(Steps[k], r.status.error)))
        else Prepend(r.exchanges, [Percent(k), Percent(k + 1)], RunSteps(ctx, k + 1, h, r.state))
  {
    assert Steps[k..][1..] == Steps[k + 1..];
  }

  lemma PrependTwice<S>(a: seq<Exchange>, p: seq<nat>, b: seq<Exchange>, q: seq<nat>, o: Outcome<S>)
    ensures Prepend(a, p, Prepend(b, q, o)) == Prepend(a + b, p + q, o)
  {
    assert a + (b + o.exchanges) == (a + b) + o.exchanges;
    assert p + (q + o.progress) == (p + q) + o.progress;
  }
}
