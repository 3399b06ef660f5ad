/** What the pipeline guarantees, whatever stands behind the collaborators. */
module DeploymentFacts {
  import opened Errors
  import opened Domain
  import opened Collaborators
  import opened Deployment

  /** With every call answered, the pipeline makes exactly these twelve calls:
      build, tag, registry login, push, connect, then the remote login, pull,
      stop, remove and run commands, then the status and mount queries.  One
      registry reference is shared by the tag, the push, the pull and the run. */
  lemma PlanIsExact(ctx: Context)
    ensures var service := ctx.service;
      var registry := ctx.registry;
      var local := service.imageName + ":" + ctx.version;
      var image := registry.host + "/" + service.imageName + ":" + ctx.version;
      var login := "docker login " + registry.host + " -u " + registry.username + " -p " + registry.password;
      var pull := "docker pull " + image;
      var container := service.containerName;
      Plan(ctx) == [
        Planned(BuildStep, Action(Build(service.imageName, ctx.version, service.buildPath), None)),
        Planned(TagStep, Action(Tag(local, image), None)),
        Planned(LoginStep, Action(Login(registry.host, registry.username, registry.password), None)),
        Planned(PushStep, Action(Push(image), None)),
        Planned(ConnectStep, Action(Connect(ctx.ssh), None)),
        Planned(PullStep, Action(Run(login), Some("remote command failed '" + login + "': "))),
        Planned(PullStep, Action(Run(pull), Some("remote command failed '" + pull + "': "))),
        Planned(StopStep, Action(Run("docker stop " + container + " || true"), Some("failed to stop container: "))),
        Planned(RemoveStep, Action(Run("docker rm " + container + " || true"), Some("failed to remove container: "))),
        Planned(RunStep, Action(Run("docker run -d --name " + container + " " + service.dockerRunArgs + " " + image),
                                Some("failed to run container: "))),
        Planned(VerifyStep, Action(RunWithOutput(StatusQuery), Some("failed to check container status: "))),
        Planned(VerifyStep, Action(RunWithOutput(MountQuery(container)), Some("failed to check container mounts: ")))
      ]
  {
    FlatPlan(ctx);
    RegistryActions(ctx);
    RemoteActions(ctx);
  }

  lemma RegistryActions(ctx: Context)
    ensures var service := ctx.service;
      var image := ctx.registry.host + "/" + service.imageName + ":" + ctx.version;
      && Actions(TagStep, ctx) == [Action(Tag(service.imageName + ":" + ctx.version, image), None)]
      && Actions(PushStep, ctx) == [Action(Push(image), None)]
  {
    var image := ctx.registry.host + "/" + ctx.service.imageName + ":" + ctx.version;
    assert RegistryImage(ctx.registry.host, ctx.service.imageName, ctx.version) == image;
  }

  lemma RemoteActions(ctx: Context)
    ensures var service := ctx.service;
      var registry := ctx.registry;
      var image := registry.host + "/" + service.imageName + ":" + ctx.version;
      var login := "docker login " + registry.host + " -u " + registry.username + " -p " + registry.password;
      var pull := "docker pull " + image;
      var container := service.containerName;
      && Actions(PullStep, ctx) == [Action(Run(login), Some("remote command failed '" + login + "': ")),
                                    Action(Run(pull), Some("remote command failed '" + pull + "': "))]
      && Actions(StopStep, ctx) == [Action(Run("docker stop " + container + " || true"), Some("failed to stop container: "))]
      && Actions(RemoveStep, ctx) == [Action(Run("docker rm " + container + " || true"), Some("failed to remove container: "))]
      && Actions(RunStep, ctx) == [Action(Run("docker run -d --name " + container + " " + service.dockerRunArgs + " " + image),
                                          Some("failed to run container: "))]
  {
    var image := ctx.registry.host + "/" + ctx.service.imageName + ":" + ctx.version;
    assert RegistryImage(ctx.registry.host, ctx.service.imageName, ctx.version) == image;
  }

  /** The plan as one list of twelve calls. */
  lemma FlatPlan(ctx: Context)
    ensures var build, tag, login, push := Actions(BuildStep, ctx), Actions(TagStep, ctx), Actions(LoginStep, ctx), Actions(PushStep, ctx);
      var connect, pull, stop, remove := Actions(ConnectStep, ctx), Actions(PullStep, ctx), Actions(StopStep, ctx), Actions(RemoveStep, ctx);
      var run, verify := Actions(RunStep, ctx), Actions(VerifyStep, ctx);
      Plan(ctx) == [Planned(BuildStep, build[0]), Planned(TagStep, tag[0]), Planned(LoginStep, login[0]), Planned(PushStep, push[0]), Planned(ConnectStep, connect[0]), Planned(PullStep, pull[0]), Planned(PullStep, pull[1]), Planned(StopStep, stop[0]), Planned(RemoveStep, remove[0]), Planned(RunStep, run[0]), Planned(VerifyStep, verify[0]), Planned(VerifyStep, verify[1])]
  {
    LocalCalls(ctx);
    RemoteCalls(ctx);
    var build, tag, login, push := Actions(BuildStep, ctx), Actions(TagStep, ctx), Actions(LoginStep, ctx), Actions(PushStep, ctx);
    var connect, pull, stop, remove := Actions(ConnectStep, ctx), Actions(PullStep, ctx), Actions(StopStep, ctx), Actions(RemoveStep, ctx);
    var run, verify := Actions(RunStep, ctx), Actions(VerifyStep, ctx);
    TwelveCalls(Planned(BuildStep, build[0]), Planned(TagStep, tag[0]), Planned(LoginStep, login[0]), Planned(PushStep, push[0]), Planned(ConnectStep, connect[0]), Planned(PullStep, pull[0]), Planned(PullStep, pull[1]), Planned(StopStep, stop[0]), Planned(RemoveStep, remove[0]), Planned(RunStep, run[0]), Planned(VerifyStep, verify[0]), Planned(VerifyStep, verify[1]));
  }

  lemma TwelveCalls(p0: Planned, p1: Planned, p2: Planned, p3: Planned, p4: Planned, p5: Planned,
             p6: Planned, p7: Planned, p8: Planned, p9: Planned, p10: Planned, p11: Planned)
    ensures [p0, p1, p2, p3, p4] + [p5, p6, p7, p8, p9, p10, p11] == [p0, p1, p2, p3, p4, p5, p6, p7, p8, p9, p10, p11]
  {
  }

  /** The five calls made locally and the connection, then the remote steps' calls. */
  lemma LocalCalls(ctx: Context)
    ensures var build, tag, login, push, connect := Actions(BuildStep, ctx), Actions(TagStep, ctx), Actions(LoginStep, ctx), Actions(PushStep, ctx), Actions(ConnectStep, ctx);
      Plan(ctx) == [Planned(BuildStep, build[0]), Planned(TagStep, tag[0]), Planned(LoginStep, login[0]), Planned(PushStep, push[0]), Planned(ConnectStep, connect[0])] + PlanFrom(ctx, 5)
  {
    LocalShape(ctx);
    FlattenLocal(Actions(BuildStep, ctx), Actions(TagStep, ctx), Actions(LoginStep, ctx), Actions(PushStep, ctx), Actions(ConnectStep, ctx), PlanFrom(ctx, 5));
  }

  lemma FlattenLocal(build: seq<Action>, tag: seq<Action>, login: seq<Action>, push: seq<Action>, connect: seq<Action>, rest: seq<Planned>)
    requires |build| == |tag| == |login| == |push| == |connect| == 1
    ensures StepPlan(BuildStep, build) + (StepPlan(TagStep, tag) + (StepPlan(LoginStep, login) + (StepPlan(PushStep, push) +
            (StepPlan(ConnectStep, connect) + rest)))) ==
            [Planned(BuildStep, build[0]), Planned(TagStep, tag[0]), Planned(LoginStep, login[0]), Planned(PushStep, push[0]),
             Planned(ConnectStep, connect[0])] + rest
  {
    OneCall(BuildStep, build);
    OneCall(TagStep, tag);
    OneCall(LoginStep, login);
    OneCall(PushStep, push);
    OneCall(ConnectStep, connect);
  }

  /** The calls of the steps run on the remote host. */
  lemma RemoteCalls(ctx: Context)
    ensures var pull, stop, remove, run, verify := Actions(PullStep, ctx), Actions(StopStep, ctx), Actions(RemoveStep, ctx), Actions(RunStep, ctx), Actions(VerifyStep, ctx);
      PlanFrom(ctx, 5) == [Planned(PullStep, pull[0]), Planned(PullStep, pull[1]), Planned(StopStep, stop[0]), Planned(RemoveStep, remove[0]), Planned(RunStep, run[0]), Planned(VerifyStep, verify[0]), Planned(VerifyStep, verify[1])]
  {
    RemoteCounts(ctx);
    RemoteShape(ctx);
    FlattenRemote(Actions(PullStep, ctx), Actions(StopStep, ctx), Actions(RemoveStep, ctx), Actions(RunStep, ctx), Actions(VerifyStep, ctx));
  }

  lemma RemoteCounts(ctx: Context)
    ensures |Actions(StopStep, ctx)| == |Actions(RemoveStep, ctx)| == |Actions(RunStep, ctx)| == 1
    ensures |Actions(PullStep, ctx)| == |Actions(VerifyStep, ctx)| == 2
  {
  }

  lemma FlattenRemote(pull: seq<Action>, stop: seq<Action>, remove: seq<Action>, run: seq<Action>, verify: seq<Action>)
    requires |stop| == |remove| == |run| == 1 && |pull| == |verify| == 2
    ensures StepPlan(PullStep, pull) + (StepPlan(StopStep, stop) + (StepPlan(RemoveStep, remove) + (StepPlan(RunStep, run) +
            (StepPlan(VerifyStep, verify) + [])))) ==
            [Planned(PullStep, pull[0]), Planned(PullStep, pull[1]), Planned(StopStep, stop[0]), Planned(RemoveStep, remove[0]),
             Planned(RunStep, run[0]), Planned(VerifyStep, verify[0]), Planned(VerifyStep, verify[1])]
  {
    TwoCalls(PullStep, pull);
    OneCall(StopStep, stop);
    OneCall(RemoveStep, remove);
    OneCall(RunStep, run);
    TwoCalls(VerifyStep, verify);
  }

  lemma OneCall(st: Step, acts: seq<Action>)
    requires |acts| == 1
    ensures StepPlan(st, acts) == [Planned(st, acts[0])]
  {
  }

  lemma TwoCalls(st: Step, acts: seq<Action>)
    requires |acts| == 2
    ensures StepPlan(st, acts) == [Planned(st, acts[0]), Planned(st, acts[1])]
  {
  }

  /** The plan, step by step, up to the remote steps. */
  lemma LocalShape(ctx: Context)
    ensures Plan(ctx) ==
      StepPlan(BuildStep, Actions(BuildStep, ctx)) + (StepPlan(TagStep, Actions(TagStep, ctx)) +
      (StepPlan(LoginStep, Actions(LoginStep, ctx)) + (StepPlan(PushStep, Actions(PushStep, ctx)) +
      (StepPlan(ConnectStep, Actions(ConnectStep, ctx)) + PlanFrom(ctx, 5)))))
  {
    StepCallsAt(ctx, 0, BuildStep);
    StepCallsAt(ctx, 1, TagStep);
    StepCallsAt(ctx, 2, LoginStep);
    StepCallsAt(ctx, 3, PushStep);
    StepCallsAt(ctx, 4, ConnectStep);
  }

  /** The remote steps, step by step. */
  lemma RemoteShape(ctx: Context)
    ensures PlanFrom(ctx, 5) ==
      StepPlan(PullStep, Actions(PullStep, ctx)) + (StepPlan(StopStep, Actions(StopStep, ctx)) +
      (StepPlan(RemoveStep, Actions(RemoveStep, ctx)) + (StepPlan(RunStep, Actions(RunStep, ctx)) +
      (StepPlan(VerifyStep, Actions(VerifyStep, ctx)) + []))))
  {
    StepCallsAt(ctx, 5, PullStep);
    StepCallsAt(ctx, 6, StopStep);
    StepCallsAt(ctx, 7, RemoveStep);
    StepCallsAt(ctx, 8, RunStep);
    StepCallsAt(ctx, 9, VerifyStep);
    NoCallsAfterLastStep(ctx);
  }

  lemma StepCallsAt(ctx: Context, k: nat, st: Step)
    requires k < |Steps| && Steps[k] == st
    ensures PlanFrom(ctx, k) == StepPlan(st, Actions(st, ctx)) + PlanFrom(ctx, k + 1)
  {
    UnfoldPlanFrom(ctx, k);
  }

  lemma NoCallsAfterLastStep(ctx: Context)
    ensures PlanFrom(ctx, |Steps|) == []
  {
    assert Steps[|Steps|..] == [];
  }

  // ---------------------------------------------------------------------------
  // Fail-fast
  // ---------------------------------------------------------------------------

  /** A deployment of a configured service makes the planned calls in order and
      succeeds exactly when all of them are made and answered; otherwise it
      stops at the first refused call, and its error names that call's step
      and wraps the refusal's cause. */
  lemma DeployFailFast<S>(req: DeploymentRequest, cfg: Config, h: Handler<S>, s: S)
    requires req.serviceName in cfg.services
    ensures var o := Deploy(req, cfg, h, s);
      var plan := Plan(Resolve(req, cfg).value);
      && Follows(o.exchanges, plan)
      && (o.status.Ok? <==> |o.exchanges| == |plan| && AllDone(o.exchanges))
      && (o.status.Failed? ==>
          && StoppedAtRefusal(o.exchanges)
          && var last := o.exchanges[|o.exchanges| - 1];
             && o.status.error == StepFailure(last.step, ActionError(last.action, last.reply.cause))
             && Wraps(o.status.error, last.reply.cause)
             && Message(o.status.error) == "step '" + StepName(last.step) + "' failed: " + Message(ActionError(last.action, last.reply.cause)))
  {
    var ctx := Resolve(req, cfg).value;
    RunStepsFailFast(ctx, 0, h, s);
  }

  /** Step `k` is the `k`-th of the list. */
  lemma OrdinalOfSteps()
    ensures forall k :: 0 <= k < |Steps| ==> Ordinal(Steps[k]) == k
  {
  }

  /** The plan from step `k` holds only calls of steps `k` onwards, in step order. */
  lemma {:induction false} PlanFromOrdered(ctx: Context, k: nat)
    requires k <= |Steps|
    ensures forall i :: 0 <= i < |PlanFrom(ctx, k)| ==> k <= Ordinal(PlanFrom(ctx, k)[i].step)
    ensures forall i, j :: 0 <= i <= j < |PlanFrom(ctx, k)| ==> Ordinal(PlanFrom(ctx, k)[i].step) <= Ordinal(PlanFrom(ctx, k)[j].step)
    decreases |Steps| - k
  {
    if k < |Steps| {
      PlanFromOrdered(ctx, k + 1);
      OrdinalOfSteps();
      var head := StepPlan(Steps[k], Actions(Steps[k], ctx));
      UnfoldPlanFrom(ctx, k);
      OrderedAppend(head, PlanFrom(ctx, k + 1), k);
    }
  }

  /** Calls of step `k` followed by calls of later steps in order are in order. */
  lemma OrderedAppend(head: seq<Planned>, rest: seq<Planned>, k: nat)
    requires forall i :: 0 <= i < |head| ==> Ordinal(head[i].step) == k
    requires forall i :: 0 <= i < |rest| ==> k + 1 <= Ordinal(rest[i].step)
    requires forall i, j :: 0 <= i <= j < |rest| ==> Ordinal(rest[i].step) <= Ordinal(rest[j].step)
    ensures forall i :: 0 <= i < |head + rest| ==> k <= Ordinal((head + rest)[i].step)
    ensures forall i, j :: 0 <= i <= j < |head + rest| ==> Ordinal((head + rest)[i].step) <= Ordinal((head + rest)[j].step)
  {
    var plan := head + rest;
    forall i | 0 <= i < |plan|
      ensures k <= Ordinal(plan[i].step)
    {
      if i >= |head| {
        assert plan[i] == rest[i - |head|];
      }
    }
    forall i, j | 0 <= i <= j < |plan|
      ensures Ordinal(plan[i].step) <= Ordinal(plan[j].step)
    {
      if i >= |head| {
        assert plan[i] == rest[i - |head|] && plan[j] == rest[j - |head|];
      } else if j >= |head| {
        assert plan[j] == rest[j - |head|];
      }
    }
  }

  /** The plan goes through the steps in list order. */
  lemma PlanOrdered(ctx: Context)
    ensures forall i, j :: 0 <= i <= j < |Plan(ctx)| ==> Ordinal(Plan(ctx)[i].step) <= Ordinal(Plan(ctx)[j].step)
  {
    PlanFromOrdered(ctx, 0);
  }

  /** When a step fails, no call of a later step has been made. */
  lemma NoCallsAfterFailingStep<S>(req: DeploymentRequest, cfg: Config, h: Handler<S>, s: S)
    requires req.serviceName in cfg.services
    ensures var o := Deploy(req, cfg, h, s);
      o.status.Failed? ==>
        forall i :: 0 <= i < |o.exchanges| ==> Ordinal(o.exchanges[i].step) <= Ordinal(o.exchanges[|o.exchanges| - 1].step)
  {
    var ctx := Resolve(req, cfg).value;
    DeployFailFast(req, cfg, h, s);
    PlanOrdered(ctx);
  }

  /** A successful deployment makes exactly the planned calls, twelve of them. */
  lemma SuccessMakesEveryPlannedCall<S>(req: DeploymentRequest, cfg: Config, h: Handler<S>, s: S)
    ensures var o := Deploy(req, cfg, h, s);
      o.status.Ok? ==>
        && req.serviceName in cfg.services
        && |o.exchanges| == 12
        && CallsOf(o.exchanges) == PlannedCalls(Plan(Resolve(req, cfg).value))
  {
    if req.serviceName in cfg.services {
      var ctx := Resolve(req, cfg).value;
      DeployFailFast(req, cfg, h, s);
      PlanIsExact(ctx);
    }
  }

  /** Every deployment of a configured service starts by building, from the
      override path when one is given and from the configured path otherwise. */
  lemma BuildUsesEffectivePath<S>(req: DeploymentRequest, cfg: Config, h: Handler<S>, s: S)
    requires req.serviceName in cfg.services
    ensures var o := Deploy(req, cfg, h, s);
      var configured := cfg.services[req.serviceName];
      var path := if req.buildPathOverride != "" then req.buildPathOverride else configured.buildPath;
      && |o.exchanges| >= 1
      && o.exchanges[0].action.call == Build(configured.imageName, req.version, path)
  {
    var ctx := Resolve(req, cfg).value;
    DeployFailFast(req, cfg, h, s);
    PlanIsExact(ctx);
  }

  /** Every call of a trace but the last was answered, whichever way the run ended. */
  lemma EarlierCallsAnswered<S>(req: DeploymentRequest, cfg: Config, h: Handler<S>, s: S)
    requires req.serviceName in cfg.services
    ensures var xs := Deploy(req, cfg, h, s).exchanges;
      forall i :: 0 <= i < |xs| - 1 ==> xs[i].reply.Done?
  {
    DeployFailFast(req, cfg, h, s);
    AnsweredBeforeLast(Deploy(req, cfg, h, s).exchanges);
  }

  lemma AnsweredBeforeLast(xs: seq<Exchange>)
    requires AllDone(xs) || StoppedAtRefusal(xs)
    ensures forall i :: 0 <= i < |xs| - 1 ==> xs[i].reply.Done?
  {
    forall i | 0 <= i < |xs| - 1
      ensures xs[i].reply.Done?
    {
      if !AllDone(xs) {
        assert xs[..|xs| - 1][i] == xs[i];
      }
    }
  }

  /** The mount query is the last call of a run, and it is made only after the
      status query was answered. */
  lemma MountQueryNeedsAnsweredStatus<S>(req: DeploymentRequest, cfg: Config, h: Handler<S>, s: S)
    requires req.serviceName in cfg.services
    ensures var xs := Deploy(req, cfg, h, s).exchanges;
      var container := cfg.services[req.serviceName].containerName;
      forall i :: 0 <= i < |xs| && xs[i].action.call == RunWithOutput(MountQuery(container)) ==>
        && i == 11
        && xs[10].action.call == RunWithOutput(StatusQuery)
        && xs[10].reply.Done?
  {
    var ctx := Resolve(req, cfg).value;
    var container := cfg.services[req.serviceName].containerName;
    DeployFailFast(req, cfg, h, s);
    EarlierCallsAnswered(req, cfg, h, s);
    QueriesInPlan(ctx);
    QueriesDiffer(container);
    QueryOrder(Deploy(req, cfg, h, s).exchanges, Plan(ctx), RunWithOutput(StatusQuery), RunWithOutput(MountQuery(container)));
  }

  /** The status query is not a mount query for any container. */
  lemma QueriesDiffer(container: string)
    ensures StatusQuery != MountQuery(container)
  {
    var status, inspect := "docker ps", "docker inspect ";
    assert StatusQuery[7] == status[7];
    assert MountQuery(container)[7] == inspect[7];
  }

  /** Where the plan asks for output: only its last two calls do. */
  lemma QueriesInPlan(ctx: Context)
    ensures var plan := Plan(ctx);
      && |plan| == 12
      && (forall i :: 0 <= i < 10 ==> !plan[i].action.call.RunWithOutput?)
      && plan[10].action.call == RunWithOutput(StatusQuery)
      && plan[11].action.call == RunWithOutput(MountQuery(ctx.service.containerName))
  {
    PlanEnd(ctx);
    PlanOrdered(ctx);
    PlanFromActions(ctx, 0);
    OutputOnlyAtEnd(Plan(ctx), ctx);
  }

  /** The plan's last three calls: the run command, then the two queries. */
  lemma PlanEnd(ctx: Context)
    ensures var plan := Plan(ctx);
      && |plan| == 12
      && plan[9].step == RunStep
      && plan[10].action.call == RunWithOutput(StatusQuery)
      && plan[11].action.call == RunWithOutput(MountQuery(ctx.service.containerName))
  {
    PlanLength(ctx, 0);
    RunStepTenth(ctx);
    QueriesLast(ctx);
  }

  lemma RunStepTenth(ctx: Context)
    requires |Plan(ctx)| == 12
    ensures Plan(ctx)[9].step == RunStep
  {
    PlanFromIsSuffix(ctx, 8);
    RunStepLeads(ctx);
    TailAt(Plan(ctx), PlanFrom(ctx, 8), 9);
  }

  /** The calls from the run step on: the run command, then the two queries. */
  lemma RunStepLeads(ctx: Context)
    ensures |PlanFrom(ctx, 8)| == 3 && PlanFrom(ctx, 8)[0].step == RunStep
  {
    PlanLength(ctx, 8);
    StepCallsAt(ctx, 8, RunStep);
  }

  lemma QueriesLast(ctx: Context)
    requires |Plan(ctx)| == 12
    ensures Plan(ctx)[10].action.call == RunWithOutput(StatusQuery)
    ensures Plan(ctx)[11].action.call == RunWithOutput(MountQuery(ctx.service.containerName))
  {
    PlanFromIsSuffix(ctx, 9);
    VerifyPlan(ctx);
    TailAt(Plan(ctx), PlanFrom(ctx, 9), 10);
    TailAt(Plan(ctx), PlanFrom(ctx, 9), 11);
  }

  /** The verification step's calls close the plan. */
  lemma VerifyPlan(ctx: Context)
    ensures PlanFrom(ctx, 9) == [Planned(VerifyStep, Action(RunWithOutput(StatusQuery), Some("failed to check container status: "))),
                                 Planned(VerifyStep, Action(RunWithOutput(MountQuery(ctx.service.containerName)), Some("failed to check container mounts: ")))]
  {
    StepCallsAt(ctx, 9, VerifyStep);
    NoCallsAfterLastStep(ctx);
    TwoCalls(VerifyStep, Actions(VerifyStep, ctx));
  }

  lemma TailAt(plan: seq<Planned>, tail: seq<Planned>, i: nat)
    requires IsSuffix(tail, plan) && |plan| - |tail| <= i < |plan|
    ensures plan[i] == tail[i - (|plan| - |tail|)]
  {
    assert plan[|plan| - |tail|..][i - (|plan| - |tail|)] == plan[i];
  }

  /** `tail` is what is left of `plan` once some of its first elements are dropped. */
  predicate IsSuffix(tail: seq<Planned>, plan: seq<Planned>)
  {
    |tail| <= |plan| && plan[|plan| - |tail|..] == tail
  }

  /** A suffix of a suffix is a suffix. */
  lemma SuffixOfSuffix(a: seq<Planned>, b: seq<Planned>, c: seq<Planned>)
    requires IsSuffix(a, b) && IsSuffix(b, c)
    ensures IsSuffix(a, c)
  {
    assert c[|c| - |a|..] == c[|c| - |b|..][|b| - |a|..];
  }

  /** Calls planned from step `k` onwards when every one is answered: one per
      step, two for the pull and verify steps. */
  function CallsFrom(k: nat): nat
    requires k <= |Steps|
    decreases |Steps| - k
  {
    if k == |Steps| then 0 else (if k == 5 || k == 9 then 2 else 1) + CallsFrom(k + 1)
  }

  lemma {:induction false} PlanLength(ctx: Context, k: nat)
    requires k <= |Steps|
    ensures |PlanFrom(ctx, k)| == CallsFrom(k)
    decreases |Steps| - k
  {
    if k < |Steps| {
      PlanLength(ctx, k + 1);
      UnfoldPlanFrom(ctx, k);
      OrdinalOfSteps();
      assert |Actions(Steps[k], ctx)| == 2 <==> k == 5 || k == 9;
    }
  }

  /** The calls from step `k` onwards are the tail of the plan. */
  lemma {:induction false} PlanFromIsSuffix(ctx: Context, k: nat)
    requires k <= |Steps|
    ensures IsSuffix(PlanFrom(ctx, k), Plan(ctx))
    decreases k
  {
    if k > 0 {
      PlanFromIsSuffix(ctx, k - 1);
      NextIsSuffix(ctx, k);
      SuffixOfSuffix(PlanFrom(ctx, k), PlanFrom(ctx, k - 1), Plan(ctx));
    }
  }

  lemma NextIsSuffix(ctx: Context, k: nat)
    requires 0 < k <= |Steps|
    ensures IsSuffix(PlanFrom(ctx, k), PlanFrom(ctx, k - 1))
  {
    UnfoldPlanFrom(ctx, k - 1);
    var head := StepPlan(Steps[k - 1], Actions(Steps[k - 1], ctx));
    assert (head + PlanFrom(ctx, k))[|head|..] == PlanFrom(ctx, k);
  }

  /** Only the verification step asks for output. */
  lemma OutputOnlyWhenVerifying(st: Step, ctx: Context)
    ensures forall i :: 0 <= i < |Actions(st, ctx)| ==> (Actions(st, ctx)[i].call.RunWithOutput? <==> st == VerifyStep)
  {
  }

  /** In a twelve-call plan whose tenth call belongs to the run step, the
      calls before the verification step's ask for no output. */
  lemma OutputOnlyAtEnd(plan: seq<Planned>, ctx: Context)
    requires |plan| == 12 && plan[9].step == RunStep
    requires forall i, j :: 0 <= i <= j < |plan| ==> Ordinal(plan[i].step) <= Ordinal(plan[j].step)
    requires forall i :: 0 <= i < |plan| ==> plan[i].action in Actions(plan[i].step, ctx)
    ensures forall i :: 0 <= i < 10 ==> !plan[i].action.call.RunWithOutput?
  {
    forall i | 0 <= i < 10
      ensures !plan[i].action.call.RunWithOutput?
    {
      assert Ordinal(plan[i].step) <= Ordinal(plan[9].step);
      OutputOnlyWhenVerifying(plan[i].step, ctx);
      var acts := Actions(plan[i].step, ctx);
      var k :| 0 <= k < |acts| && acts[k] == plan[i].action;
    }
  }

  lemma QueryOrder(xs: seq<Exchange>, plan: seq<Planned>, status: Call, mount: Call)
    requires Follows(xs, plan) && |plan| == 12
    requires forall i :: 0 <= i < 10 ==> !plan[i].action.call.RunWithOutput?
    requires plan[10].action.call == status && plan[11].action.call == mount
    requires mount.RunWithOutput? && status != mount
    requires forall i :: 0 <= i < |xs| - 1 ==> xs[i].reply.Done?
    ensures forall i :: 0 <= i < |xs| && xs[i].action.call == mount ==>
      i == 11 && xs[10].action.call == status && xs[10].reply.Done?
  {
  }

  /** Every planned call is one of its step's calls. */
  lemma {:induction false} PlanFromActions(ctx: Context, k: nat)
    requires k <= |Steps|
    ensures forall i :: 0 <= i < |PlanFrom(ctx, k)| ==> PlanFrom(ctx, k)[i].action in Actions(PlanFrom(ctx, k)[i].step, ctx)
    decreases |Steps| - k
  {
    if k < |Steps| {
      PlanFromActions(ctx, k + 1);
      var head := StepPlan(Steps[k], Actions(Steps[k], ctx));
      var rest := PlanFrom(ctx, k + 1);
      var plan: seq<Planned> := head + rest;
      UnfoldPlanFrom(ctx, k);
      forall i | 0 <= i < |plan|
        ensures plan[i].action in Actions(plan[i].step, ctx)
      {
        if i >= |head| {
          assert plan[i] == rest[i - |head|];
        }
      }
    }
  }
}
