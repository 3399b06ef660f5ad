# Deployer pipeline model

A Dafny model of the deployer's deployment pipeline and of the two
collaborators it drives.

- **The pipeline.** `Deploy` looks the service up in the configuration. It
  applies the build-path override to a copy of the service's settings. Then it
  runs ten named steps in order: build, tag, registry login, push, connect,
  remote pull, stop, remove, run, verify. It stops at the first step that fails,
  and the error names that step.
- **The build/registry client** runs `docker build`, `docker tag`,
  `docker login` and `docker push` on the local machine.
- **The remote execution client** connects over SSH and runs shell commands on
  the remote host.

The pipeline reaches the collaborators only through their interfaces. The model
turns each collaborator call into a `Call` value. Whatever implements the
collaborators is a `Handler`: a function from its state and a call to a new
state and a `Reply`. `Deploy` is then a pure function of the request, the
configuration, the handler and the handler's initial state. It returns four
things:

- the trace: every call made, with its step and the reply it got;
- the progress percentages shown;
- the handler's final state;
- the result.

A recording handler with a failure oracle keeps the history of calls and lets
an arbitrary function of the call's position decide each reply.

The concrete clients are modelled too. The outside world they touch is a
parameter:

- a `Machine` holds the platform's path rules and starts local processes;
- a `Network` reads key files, dials, opens sessions and runs remote commands.
  The wiring gives every remote operation its own `Network`, so the network may
  change between operations.

The `Wiring` module plugs both clients into the pipeline in two ways. The
command-line mode builds both clients with the `-dry-run` flag, which also
fills the request. The interactive mode builds both clients live, whatever the
request says.

Modules. `Errors`, `Text` and `Logs` model the parts of Go's library and of the
logger that the pipeline relies on; the others follow the repository's own
components:

| module | file | models |
|---|---|---|
| `Errors` | errors.dfy | error values built with `fmt.Errorf` and `%w`, status and result types |
| `Text` | text.dfy | `strings.Join`, `strings.ReplaceAll` (including the empty-pattern case), `strings.Split`, `strings.Index`, `%d` |
| `Logs` | logs.dfy | log lines: level and text |
| `Domain` | domain.dfy | the configuration records and the deployment request |
| `Collaborators` | collaborators.dfy | the two collaborator interfaces, as calls and replies |
| `Docker` | docker.dfy | the build/registry client |
| `Ssh` | ssh.dfy | the remote execution client |
| `Progress` | progress.dfy | the percentage and the 50-cell bar |
| `Deployment` | deployment.dfy | `Deploy`, the step list, the command strings, the fail-fast run |
| `DeploymentFacts` | deployment_facts.dfy | the exact call plan, ordering, fail-fast, the verification queries |
| `DeploymentRuns` | deployment_runs.dfy | progress over whole runs, unused inputs, replay, failure injection |
| `Wiring` | wiring.dfy | the concrete clients behind the pipeline, dry runs |

## Model

| member | source | states |
|---|---|---|
| Errors.WrappedMessageEndsWithCause | internal/usecase/deployment.go:55 | an error wrapped with `%w`, however deep, prints a message that ends with the wrapped error's message |
| Text.InsertEverywhere | internal/infrastructure/ssh.go:55 | Go's `ReplaceAll` with an empty pattern: the result is `len+1` copies of the replacement longer than the input, and starts and ends with the replacement |
| Text.InsertEverywhereIsJoin | internal/infrastructure/ssh.go:55 | Go's `ReplaceAll` with an empty pattern puts the replacement before every character and once more at the end: the result is the replacement, the characters joined by it, and the replacement again (the replacement alone for an empty input) |
| Text.ReplaceIsJoinOfSplit | internal/infrastructure/ssh.go:55 | replacing a non-empty pattern equals splitting at its leftmost non-overlapping occurrences and joining with the replacement |
| Text.IntRoundTrip | internal/infrastructure/ssh.go:114 | `%d` of an integer is a decimal numeral with no colon, and it parses back to the integer |
| Docker.BuildImage | internal/infrastructure/docker.go:25-56 | an empty build path succeeds and starts nothing, in any mode; otherwise dry run starts nothing and succeeds; a live build starts exactly `docker build -t <image>:<version> .` in the build path when the machine's platform counts it absolute, else in the working directory joined with it, and fails exactly when the process does, wrapped under `docker build failed: ` |
| Docker.Execute | internal/infrastructure/docker.go:44-55 | the shared decision layer: the announced lines are logged first; dry run starts nothing and succeeds; otherwise exactly the one process starts and the status is its error, wrapped, or success |
| Docker.TagImage | internal/infrastructure/docker.go:58-74 | starts exactly `docker tag <local> <registry>` (none in dry run), fails exactly when it does, wrapped under `docker tag failed: `, and first logs the command line |
| Docker.LoginRegistry | internal/infrastructure/docker.go:76-92 | starts exactly `docker login <host> -u <user> -p <password>` (none in dry run), fails exactly when it does, and first logs `Command: docker login <host> -u <user> -p [HIDDEN]` |
| Docker.LoginAnnouncesMaskedCommand | internal/infrastructure/docker.go:77-79 | the logged login line is the command line of the executed process with only the password argument swapped for `[HIDDEN]` |
| Docker.LoginLogIgnoresPassword | internal/infrastructure/docker.go:79 | two logins that differ only in the password, with the tool answering alike, log exactly the same lines |
| Docker.PushImage | internal/infrastructure/docker.go:94-112 | starts exactly `docker push <image>` (none in dry run), fails exactly when it does, wrapped under `docker push failed: `; a failure logs only the command, no captured output |
| Ssh.AuthMethods | internal/infrastructure/ssh.go:87-105 | the password method when a password is set, then the key method when a key file is set, in that order; an unreadable or unparsable key is the matching wrapped error, and it is the only failure |
| Ssh.AddressRoundTrip | internal/infrastructure/ssh.go:114 | the dial address `host:port` splits at its last colon back into the host and the port, whatever the host holds |
| Ssh.ClientFor | internal/infrastructure/ssh.go:107-115 | the dial request exists exactly when the auth methods load, and otherwise the error is theirs; it is a `tcp` dial of `host:port`, for the configured user, with exactly the loaded auth methods and the 30-second timeout |
| Ssh.Connect | internal/infrastructure/ssh.go:29-47 | dry run succeeds without dialing and keeps the active target; a live connect records the target before dialing, so it stays recorded on failure; it succeeds exactly when the keys load and the dial answers; a failure wraps, under `SSH connection failed: `, the key error, or else the dial's error; when the keys fail to load nothing is dialed |
| Ssh.RunCommandWithOutput | internal/infrastructure/ssh.go:54-84 | logs the command with the active host masked; dry run returns the fixed placeholder with no error; a live run dials the active target; a dial failure fails the call with the dial's error and runs nothing; a session failure fails it with the session's error and runs nothing; a dial or session failure returns empty output; once a session opens, exactly the command is run, the output is stdout plus the stderr suffix, and the call fails with exactly the error the command reports, never because of stderr |
| Ssh.RunCommand | internal/infrastructure/ssh.go:49-52 | the same status and effects as `RunCommandWithOutput`, the output dropped |
| Ssh.OutputRoundTrip | internal/infrastructure/ssh.go:77-83 | when stdout does not contain the marker, the composed output splits back into stdout and stderr |
| Ssh.RedactionMasksEveryOccurrence | internal/infrastructure/ssh.go:55 | for a non-empty host, the command and the logged text are the same host-free pieces, joined by the host and by `[HOST]` respectively |
| Ssh.UnconnectedRedactionInterleavesMask | internal/infrastructure/ssh.go:21-59 | before any live connect the active host is empty, so the logged command has `[HOST]` before every character and at the end |
| Ssh.InterleavedMaskExample | internal/infrastructure/ssh.go:55 | with an empty host, `ls` is logged as `[HOST]l[HOST]s[HOST]` |
| Ssh.DryRunKeepsZeroTarget | internal/infrastructure/ssh.go:32-37 | a dry-run client's active target stays the zero config through any sequence of connects |
| Progress.Percent | internal/usecase/deployment.go:51 | the percentage after `done` of `total` steps stays within 100, is 0 before any step and 100 after the last |
| Progress.PercentMonotone | internal/usecase/deployment.go:51-57 | more steps done never shows a smaller percentage |
| Progress.ProgressBar | internal/usecase/deployment.go:74-76 | filled and empty cells add up to 50; none are filled at 0 and all are filled at 100 |
| Progress.BarMonotone | internal/usecase/deployment.go:74 | more progress never fills fewer cells |
| Deployment.Resolve | internal/usecase/deployment.go:25-32 | fails, with the not-found error, exactly when the service is not configured; otherwise the settings are the configured ones with only the build path replaced, by the override when it is non-empty |
| Deployment.Actions | internal/usecase/deployment.go:38-47 | every step makes one call, except the remote pull and the verification, which make two |
| Deployment.ActionError | internal/usecase/deployment.go:121 | a refused call's error is the cause itself, or the cause wrapped in the call's context, whose message is the context followed by the cause's message |
| Deployment.StepFailure | internal/usecase/deployment.go:55 | a failed step's error wraps the step's error, and its message is `step '<name>' failed: ` followed by that error's message |
| Deployment.RunActions | internal/usecase/deployment.go:119-123 | a step's calls are made in order; the step succeeds exactly when all are made and answered; otherwise it stopped at the first refusal and reports that refusal |
| Deployment.Percent | internal/usecase/deployment.go:57 | the percentage shown after `i` of the ten steps is `10 * i`, the whole number the Go code's truncated floating-point expression gives |
| Deployment.RunStepsFailFast | internal/usecase/deployment.go:50-60 | runs from any step make the planned calls in order, succeed exactly when all are answered, and otherwise stop at the first refusal, reporting it under its step's name |
| Deployment.Deploy | internal/usecase/deployment.go:24-63 | a service missing from the configuration fails with the not-found error, makes no call and shows no progress; otherwise progress starts at 0 |
| Deployment.DeployLoop | internal/usecase/deployment.go:50-62 | the step loop, one step per iteration, returns exactly what the recursive definition `Deploy` does |
| DeploymentFacts.PlanIsExact | internal/usecase/deployment.go:34-48 | with every call answered, the pipeline makes exactly twelve calls, each given in full: build, tag, registry login, push, connect, remote login, pull, stop, remove, run, status query, mount query |
| DeploymentFacts.RegistryActions | internal/usecase/deployment.go:96-109 | tag takes `image:version` and `host/image:version`, and push takes the same registry reference |
| DeploymentFacts.RemoteActions | internal/usecase/deployment.go:111-161 | the exact remote command strings (login with the password, `docker pull <ref>`, `docker stop <c> \|\| true`, `docker rm <c> \|\| true`, `docker run -d --name <c> <args> <ref>`) and the contexts their failures are wrapped in |
| DeploymentFacts.DeployFailFast | internal/usecase/deployment.go:50-56 | a deployment makes the planned calls in order and succeeds exactly when all of them are answered; otherwise it stops at the first refused call, with an error that names the call's step and wraps the refusal's cause |
| DeploymentFacts.PlanOrdered | internal/usecase/deployment.go:50 | the planned calls go through the steps in list order |
| DeploymentFacts.NoCallsAfterFailingStep | internal/usecase/deployment.go:54-56 | when a deployment fails, no call belongs to a step after the failing one |
| DeploymentFacts.SuccessMakesEveryPlannedCall | internal/usecase/deployment.go:38-62 | a successful deployment found its service and made exactly the twelve planned calls |
| DeploymentFacts.BuildUsesEffectivePath | internal/usecase/deployment.go:30-38 | the first call of any deployment builds from the override path when one is given, and from the configured path otherwise |
| DeploymentFacts.EarlierCallsAnswered | internal/usecase/deployment.go:54 | every call of a trace but the last was answered |
| DeploymentFacts.QueriesDiffer | internal/usecase/deployment.go:164-174 | the status query is not the mount query of any container |
| DeploymentFacts.QueriesInPlan | internal/usecase/deployment.go:163-178 | only the last two planned calls ask for output: the status query, then the mount query |
| DeploymentFacts.OutputOnlyWhenVerifying | internal/usecase/deployment.go:166-175 | a step asks for output exactly when it is the verification step |
| DeploymentFacts.MountQueryNeedsAnsweredStatus | internal/usecase/deployment.go:166-175 | the mount query, if made at all, is the twelfth call, and the status query just before it was answered |
| DeploymentRuns.ShownBounds | internal/usecase/deployment.go:51-57 | succeeding steps show two percentages each, non-decreasing, from the first step's start to the last step's end |
| DeploymentRuns.RunStepsProgress | internal/usecase/deployment.go:50-58 | a run shows two percentages per succeeding step, and a failing step shows only its starting one |
| DeploymentRuns.DeployProgress | internal/usecase/deployment.go:50-60 | the percentages start at 0, never decrease and stay within 100; 100 is shown exactly when the deployment succeeds, after twenty percentages; a failed step's starting percentage is the last one shown |
| DeploymentRuns.ProgressOrder | internal/usecase/deployment.go:51 | a configured service shows percentages starting at 0, never decreasing, never above 100; a missing one shows none |
| DeploymentRuns.ProgressEnd | internal/usecase/deployment.go:57 | the last percentage is 100 exactly on success, after two per step; on failure it is the failing step's starting percentage |
| DeploymentRuns.RunStepsFollowActions | internal/usecase/deployment.go:34-48 | two contexts whose steps make the same calls produce the same run |
| DeploymentRuns.DeployIgnoresUnusedFields | internal/usecase/deployment.go:24-63 | the request's dry-run flag and the service name, registry field and health timeout of the service entries change nothing: not the calls, not the progress, not the result |
| DeploymentRuns.DeployReplaysHandler | internal/domain/interfaces.go:8-19 | asking the handler the trace's calls afresh from the same state gives back the trace's replies and the deployment's final state |
| DeploymentRuns.DriveRecording | internal/domain/interfaces.go:8-19 | the recording handler appends each call to its history and answers as the oracle does at that position |
| DeploymentRuns.OracleDecidesEveryReply | internal/usecase/deployment.go:24-63 | under the recording handler, the history is exactly the trace's calls and each reply is the oracle's answer for its position |
| DeploymentRuns.InjectedFailureStopsPipeline | internal/usecase/deployment.go:50-56 | refusing the `n`-th call (counting from 0) stops the pipeline there, after exactly the first `n + 1` planned calls, with the error of that call's step; with `n` past the twelfth call the deployment succeeds |
| Wiring.Handle | cmd/deployer/main.go:76-78 | build/registry calls touch neither the remote client nor its dials and commands; remote calls start no local process; a refusal needs one client to be live |
| Wiring.InteractiveDryRunDeploysLive | cmd/deployer/main.go:41-43 | the interactive mode builds both clients live, so its dry-run answer, which only reaches the request, changes nothing: a "dry run" makes the same calls with the same results as a live deployment |
| Wiring.LaterDialMayFail | internal/infrastructure/ssh.go:37-64 | every remote command dials the stored target anew: a connect whose dial is answered can be followed by a command whose dial is refused, and the command then fails with that refusal's error |
| Wiring.DryRunAnswersEverything | cmd/deployer/main.go:76-77 | with both clients in dry-run mode every call is answered, and no process, dial or remote command happens |
| Wiring.DryRunDeployment | cmd/deployer/main.go:76-87 | a dry run of a configured service makes all twelve calls and succeeds without a process, dial or remote command, whatever the machine and network would do |
| Wiring.RemoteLoginHoldsPassword | internal/usecase/deployment.go:115 | the remote registry login command contains the registry password |
| Wiring.RemoteLoginLogShowsPassword | internal/infrastructure/ssh.go:55 | when the active host is set and does not occur in the remote registry login, that command, password included, is logged unmasked |

## Left out

- Command-line handling (cmd/deployer/main.go, internal/ui): flag parsing, prompts, exit codes and the duplicate service check before `Deploy`. The model starts at the wiring of the two clients and the request.
- The interactive mode's prompts and listing (internal/ui/cli.go) are left out. `InteractiveLaunch` models only its wiring (cmd/deployer/main.go:41-43): both clients are live and the remote one has a zero target. Its dry-run answer reaches only the request (internal/ui/cli.go:89-110).
- Configuration loading (internal/config/repository.go): file reading and JSON decoding. The configuration is a value, and the default port 22 is whatever it holds.
- The logger's formatting and colours. A log line is its level and its text.
- The pipeline's own log lines are not modelled, because no property depends on them. These are the step announcement and the `COMPLETED` line (internal/usecase/deployment.go:53,59) and the helpers' success lines (internal/usecase/deployment.go:125,134,143,159).
- The container status and mount listings are not modelled either (internal/usecase/deployment.go:171,180). The verification step's calls and their outputs are in the trace.
- The terminal output of `showProgressBar`: colours, characters, carriage returns. The percentages are recorded in order, and the bar is its filled and empty cell counts.
- Floating point in the progress computation is replaced by integer division. For ten steps, `i / 10 * 100` and `50 * p / 100` give the same whole numbers in binary64 as in exact arithmetic.
- Starting processes, the combined output capture and push output streaming are not modelled. A `Machine` gives each process's reply. It answers the same process the same way every time. This rules out nothing within one deployment, because the four local processes differ in their second argument (`build`, `tag`, `login`, `push`).
- `os.Getwd`, `filepath.IsAbs` and `filepath.Join` are not modelled either. The `Machine` holds the working directory and the platform's absoluteness test and join. So both the Unix rule (a leading `/`) and the Windows rule (a volume prefix) are covered, but neither is spelled out.
- Reading and parsing key files, dialing, host-key checking, sessions and running remote commands are left out. A `Network` answers each of them. Each remote operation gets its own `Network`, and within one operation each question is asked once, so a repeated request is not forced to get the same answer. The 30-second dial timeout is recorded in the dial request but has no effect.
- Closing clients and sessions (`defer Close`) is left out.
- The unused `getSSHClient` (internal/infrastructure/ssh.go:118-148) is not modelled, because nothing calls it.
- Docker.BuildImage: the contract states the process and the status but not the log lines (`Building in:`, `Command:`, the output on failure, `Image built:`). The function body produces them.
- Ssh.Connect: the contract does not state the log lines (`Connecting to:`, `SSH connection established`). The function body produces them.
- Docker.TagImage and Docker.LoginRegistry: the contracts state the first log line only. The failure output line and the success line are produced by the body.
- Deployment.Deploy: the contract states the not-found case and the first percentage. The rest of its behaviour is stated by the lemmas about it (`DeployFailFast`, `PlanIsExact`, `DeployProgress`).

## Behaviour worth knowing

These are properties of the Go code that the model proves. They are not omissions.

- The configuration fields `serviceName`, `registry` and `healthTimeout` of a service entry are read but never used by the pipeline. `DeployIgnoresUnusedFields` states this.
- The pipeline never reads the request's dry-run flag. In command-line mode the same `-dry-run` flag builds both clients (cmd/deployer/main.go:76-77) before it fills the request (cmd/deployer/main.go:80-85), so it takes effect through the clients. `DeployIgnoresUnusedFields` states this.
- In interactive mode the clients are built live before the dry-run question is asked, and the answer fills only the request. A "dry run" chosen there therefore deploys for real. `InteractiveDryRunDeploysLive` states this.
- A dry-run remote client never records an active target, so its logged commands get the `[HOST]` mask between every character. `UnconnectedRedactionInterleavesMask` states this.
- The remote registry login is logged with the password in clear whenever the SSH host does not occur in it. `RemoteLoginLogShowsPassword` states this.
