/** The deployer as its two launch modes assemble it: the build/registry client
and the remote execution client stand behind the pipeline's calls.  The command
line builds both with its `-dry-run` flag, the same flag that fills the request;
the interactive mode builds both live, whatever the request says.  The local
machine and the network are parameters.
 */
module Wiring {
  import opened Errors
  import opened Text
  import opened Logs
  import opened Domain
  import opened Collaborators
  import Docker
  import Ssh
  import opened Deployment
  import opened DeploymentFacts
  import opened DeploymentRuns

  /** The outside world the two clients reach, and the mode they were built in.
      The network may change between remote operations (a link drops, a key
      file is replaced): `network(n)` is the network as the remote operation
      numbered `n`, counting from 0, finds it.  Within one operation it answers
      each question once. */
  datatype Tools = Tools(machine: Docker.Machine, network: nat -> Ssh.Network, dryRun: bool)

  /** The clients' state and everything they have done so far: the lines logged,
      the local processes started, the dials attempted, the remote commands run,
      and the number of remote operations made. */
  datatype World = World(
    ssh: Ssh.SshState,
    log: seq<LogLine>,
    processes: seq<Docker.Process>,
    dials: seq<Ssh.DialRequest>,
    commands: seq<string>,
    remoteOps: nat)

  function Answer(status: Status, output: string): Reply
  {
    match status
    case Ok => Done(output)
    case Failed(e) => Refused(e)
  }

  function AfterDocker(w: World, e: Docker.Effect): World
  {
    w.(log := w.log + e.log, processes := w.processes + e.executed)
  }

  function AfterSsh(w: World, s: Ssh.SshState, e: Ssh.Effect): World
  {
    w.(ssh := s, log := w.log + e.log, dials := w.dials + e.dials, commands := w.commands + e.commands,
       remoteOps := w.remoteOps + 1)
  }

  /** One call, dispatched to the client that implements it. */
  function Handle(t: Tools, w: World, c: Call): (r: (World, Reply))
    ensures IsDockerCall(c) ==>
      r.0.ssh == w.ssh && r.0.dials == w.dials && r.0.commands == w.commands && r.0.remoteOps == w.remoteOps
    ensures !IsDockerCall(c) ==> r.0.processes == w.processes && r.0.remoteOps == w.remoteOps + 1
    ensures r.1.Refused? ==> !t.dryRun || !w.ssh.dryRun
  {
    match c
    case Build(imageName, version, buildPath) =>
      var e := Docker.BuildImage(t.dryRun, t.machine, imageName, version, buildPath);
      (AfterDocker(w, e), Answer(e.status, ""))
    case Tag(localImage, registryImage) =>
      var e := Docker.TagImage(t.dryRun, t.machine, localImage, registryImage);
      (AfterDocker(w, e), Answer(e.status, ""))
    case Login(host, username, password) =>
      var e := Docker.LoginRegistry(t.dryRun, t.machine, host, username, password);
      (AfterDocker(w, e), Answer(e.status, ""))
    case Push(registryImage) =>
      var e := Docker.PushImage(t.dryRun, t.machine, registryImage);
      (AfterDocker(w, e), Answer(e.status, ""))
    case Connect(target) =>
      var r := Ssh.Connect(w.ssh, target, t.network(w.remoteOps));
      (AfterSsh(w, r.state, r.effect), Answer(r.status, ""))
    case Run(command) =>
      var r := Ssh.RunCommand(w.ssh, command, t.network(w.remoteOps));
      (AfterSsh(w, w.ssh, r.effect), Answer(r.status, ""))
    case RunWithOutput(command) =>
      var r := Ssh.RunCommandWithOutput(w.ssh, command, t.network(w.remoteOps));
      (AfterSsh(w, w.ssh, r.effect), Answer(r.status, r.output))
  }

  function Services(t: Tools): Handler<World>
  {
    (w: World, c: Call) => Handle(t, w, c)
  }

  /** Nothing done yet; the remote client holds the configured target and no
      active one. */
  function Fresh(cfg: Config, dryRun: bool): World
  {
    World(Ssh.NewSshState(cfg.ssh, dryRun), [], [], [], [], 0)
  }

  /** A deployment as the command line starts it: both clients get the
      request's dry-run flag. */
  function Launch(req: DeploymentRequest, cfg: Config, m: Docker.Machine, net: nat -> Ssh.Network): Outcome<World>
  {
    Deploy(req, cfg, Services(Tools(m, net, req.dryRun)), Fresh(cfg, req.dryRun))
  }

  /** A deployment as the interactive mode starts it: both clients are built
      live, the remote one with a zero target, whatever the request says. */
  function InteractiveLaunch(req: DeploymentRequest, cfg: Config, m: Docker.Machine, net: nat -> Ssh.Network): Outcome<World>
  {
    Deploy(req, cfg, Services(Tools(m, net, false)), Fresh(cfg.(ssh := ZeroSSH), false))
  }

  /** The interactive dry-run answer reaches only the request, which the
      pipeline never reads for it: a "dry run" deploys exactly as a live one. */
  lemma InteractiveDryRunDeploysLive(req: DeploymentRequest, cfg: Config, m: Docker.Machine, net: nat -> Ssh.Network)
    ensures InteractiveLaunch(req.(dryRun := true), cfg, m, net) == InteractiveLaunch(req.(dryRun := false), cfg, m, net)
    ensures InteractiveLaunch(req, cfg, m, net) == InteractiveLaunch(req.(dryRun := !req.dryRun), cfg, m, net)
  {
    var h := Services(Tools(m, net, false));
    var w := Fresh(cfg.(ssh := ZeroSSH), false);
    DeployIgnoresUnusedFields(req.(dryRun := true), req.(dryRun := false), cfg, cfg, h, w);
    DeployIgnoresUnusedFields(req, req.(dryRun := !req.dryRun), cfg, cfg, h, w);
  }

  /** The network is asked afresh at every remote operation: a connect whose
      dial is answered can be followed by a command on the same target whose
      dial is refused. */
  lemma LaterDialMayFail(t: Tools, w: World, target: SSHConfig, command: string)
    requires !t.dryRun && !w.ssh.dryRun
    requires Ssh.Dial(target, t.network(w.remoteOps)).1.Success?
    requires Ssh.Dial(target, t.network(w.remoteOps + 1)).1.Failure?
    ensures var (w1, r1) := Handle(t, w, Connect(target));
            var (w2, r2) := Handle(t, w1, Run(command));
            && r1.Done?
            && r2 == Refused(Ssh.Dial(target, t.network(w.remoteOps + 1)).1.error)
            && w2.dials == w.dials + Ssh.Dial(target, t.network(w.remoteOps)).0
                                  + Ssh.Dial(target, t.network(w.remoteOps + 1)).0
  {
  }

  // ---------------------------------------------------------------------------
  // Dry run
  // ---------------------------------------------------------------------------

  /** A world in which nothing has reached the outside. */
  predicate Untouched(w: World)
  {
    w.processes == [] && w.dials == [] && w.commands == []
  }

  /** In dry-run mode every call is answered and nothing reaches the outside. */
  lemma {:induction false} DryRunAnswersEverything(t: Tools, w: World, calls: seq<Call>)
    requires t.dryRun && w.ssh.dryRun && Untouched(w)
    ensures var (last, replies) := Drive(Services(t), w, calls);
      && last.ssh.dryRun && Untouched(last)
      && forall i :: 0 <= i < |replies| ==> replies[i].Done?
    decreases |calls|
  {
    if calls != [] {
      var (w1, reply) := Handle(t, w, calls[0]);
      assert Services(t)(w, calls[0]) == (w1, reply);
      assert w1.ssh.dryRun && Untouched(w1) by {
        match calls[0]
        case Connect(target) => {}
        case _ => {}
      }
      DryRunAnswersEverything(t, w1, calls[1..]);
      assert reply.Done?;
    }
  }

  /** A dry run of a configured service goes through all ten steps and
      succeeds, without starting a local process, dialing, or running a remote
      command, whatever the machine and the network would have done. */
  lemma DryRunDeployment(req: DeploymentRequest, cfg: Config, m: Docker.Machine, net: nat -> Ssh.Network)
    requires req.dryRun && req.serviceName in cfg.services
    ensures var o := Launch(req, cfg, m, net);
      && o.status.Ok?
      && |o.exchanges| == 12
      && Untouched(o.state)
  {
    var t := Tools(m, net, true);
    var w := Fresh(cfg, true);
    var o := Deploy(req, cfg, Services(t), w);
    DeployReplaysHandler(req, cfg, Services(t), w);
    DryRunAnswersEverything(t, w, CallsOf(o.exchanges));
    DeployFailFast(req, cfg, Services(t), w);
    QueriesInPlan(Resolve(req, cfg).value);
    assert RepliesOf(o.exchanges)[|o.exchanges| - 1] == o.exchanges[|o.exchanges| - 1].reply;
  }

  // ---------------------------------------------------------------------------
  // The registry password in the remote log
  // ---------------------------------------------------------------------------

  /** The remote registry login carries the password itself. */
  lemma RemoteLoginHoldsPassword(registry: RegistryConfig)
    ensures Contains(RemoteLoginCommand(registry), registry.password)
  {
    var cmd := RemoteLoginCommand(registry);
    var prefix := "docker login " + registry.host + " -u " + registry.username + " -p ";
    assert cmd == prefix + registry.password;
    assert HasAt(cmd, registry.password, |prefix|);
  }

  /** The remote client masks only the host: when the host is set and does not
      occur in the remote registry login, that command is logged as it is,
      password included, unlike the local login, whose logged line never
      depends on the password. */
  lemma RemoteLoginLogShowsPassword(registry: RegistryConfig, s: Ssh.SshState, net: Ssh.Network)
    requires s.active.host != "" && !Contains(RemoteLoginCommand(registry), s.active.host)
    ensures var logged := Ssh.RunCommand(s, RemoteLoginCommand(registry), net).effect.log;
      && logged == [LogInfo("Remote command: " + RemoteLoginCommand(registry))]
      && Contains(RemoteLoginCommand(registry), registry.password)
  {
    ReplaceAbsentPattern(RemoteLoginCommand(registry), s.active.host, Ssh.HostMask);
    RemoteLoginHoldsPassword(registry);
  }
}
