/** The build and registry client: `docker build`, `docker tag`, `docker login`
and `docker push` run on the local machine.

Starting a process is not modelled; the machine's `exec` function stands for it
and reports the combined output and the error the process ended with.  Each
operation returns an `Effect`: the lines it logged, the processes it started (at
most one), and its status.  A client built in dry-run mode logs what it would do
and starts nothing.
 */
module Docker {
  import opened Errors
  import opened Text
  import opened Logs

  /** A process to start: its argument vector and its working directory (empty
      for "the deployer's own"). */
  datatype Process = Process(args: seq<string>, dir: string)

  /** What a finished process reports: its output and the error, if it failed. */
  datatype ExecReply = ExecReply(output: string, err: Option<Error>)

  /** The local machine: the current working directory, the platform's path
      rules (which paths are absolute, and how two paths join), and the outcome
      of starting any process.  Absoluteness is the platform's: on Unix a path
      starting with `/`, on Windows one with a drive or share prefix. */
  datatype Machine = Machine(wd: string, isAbs: string -> bool, join: (string, string) -> string,
                             exec: Process -> ExecReply)

  datatype Effect = Effect(log: seq<LogLine>, executed: seq<Process>, status: Status)

  const Hidden := "[HIDDEN]"

  function BuildDir(m: Machine, buildPath: string): string
  {
    if m.isAbs(buildPath) then buildPath else m.join(m.wd, buildPath)
  }

  /** The command line as the client logs it: the arguments joined by spaces. */
  function CommandLine(p: Process): string
  {
    Join(p.args, " ")
  }

  function BuildProcess(m: Machine, imageName: string, version: string, buildPath: string): Process
  {
    Process(["docker", "build", "-t", imageName + ":" + version, "."], BuildDir(m, buildPath))
  }

  function TagProcess(localImage: string, registryImage: string): Process
  {
    Process(["docker", "tag", localImage, registryImage], "")
  }

  function LoginProcess(host: string, username: string, password: string): Process
  {
    Process(["docker", "login", host, "-u", username, "-p", password], "")
  }

  function PushProcess(registryImage: string): Process
  {
    Process(["docker", "push", registryImage], "")
  }

  /** How every operation treats the one process it has decided to run: in
      dry-run mode nothing starts and the operation succeeds; otherwise exactly
      that process starts, and the operation fails exactly when the process
      does, with the process's error wrapped under `context`. */
  predicate Delegates(e: Effect, dryRun: bool, m: Machine, p: Process, context: string)
  {
    if dryRun then e.executed == [] && e.status == Ok
    else
      && e.executed == [p]
      && match m.exec(p).err
         case None => e.status == Ok
         case Some(cause) => e.status == Failed(Wrapped(context, cause))
  }

  /** Logs `announced`, then runs `p` unless in dry-run mode.  A failure logs the
      process output under `outputLabel` (none when the label is empty). */
  function Execute(dryRun: bool, m: Machine, p: Process, announced: seq<LogLine>,
                   outputLabel: string, context: string, done: LogLine): (e: Effect)
    ensures Delegates(e, dryRun, m, p, context)
    ensures |announced| <= |e.log| && e.log[..|announced|] == announced
  {
    if dryRun then Effect(announced, [], Ok)
    else
      var reply := m.exec(p);
      match reply.err
      case Some(cause) =>
        var shown := if outputLabel == "" then [] else [LogError(outputLabel + reply.output)];
        Effect(announced + shown, [p], Failed(Wrapped(context, cause)))
      case None =>
        Effect(announced + [done], [p], Ok)
  }

  /** `BuildImage`: an empty build path means there is nothing to build, in any
      mode; otherwise `docker build -t <image>:<version> .` runs in the build
      directory, resolved against the working directory when relative. */
  function BuildImage(dryRun: bool, m: Machine, imageName: string, version: string, buildPath: string): (e: Effect)
    ensures buildPath == "" ==> e.executed == [] && e.status == Ok
    ensures buildPath != "" ==> Delegates(e, dryRun, m, BuildProcess(m, imageName, version, buildPath), "docker build failed: ")
    ensures buildPath != "" && !dryRun ==>
      e.executed == [Process(["docker", "build", "-t", imageName + ":" + version, "."],
                             if m.isAbs(buildPath) then buildPath else m.join(m.wd, buildPath))]
  {
    if buildPath == "" then
      Effect([LogWarning("No build path specified, skipping build step")], [], Ok)
    else
      var p := BuildProcess(m, imageName, version, buildPath);
      Execute(dryRun, m, p, [LogInfo("Building in: " + p.dir), LogInfo("Command: " + CommandLine(p))],
              "Build output: ", "docker build failed: ", LogInfo("Image built: " + imageName + ":" + version))
  }

  /** `TagImage`: `docker tag <local> <registry>`. */
  function TagImage(dryRun: bool, m: Machine, localImage: string, registryImage: string): (e: Effect)
    ensures Delegates(e, dryRun, m, Process(["docker", "tag", localImage, registryImage], ""), "docker tag failed: ")
    ensures |e.log| > 0 && e.log[0] == LogInfo("Command: " + CommandLine(TagProcess(localImage, registryImage)))
  {
    var p := TagProcess(localImage, registryImage);
    Execute(dryRun, m, p, [LogInfo("Command: " + CommandLine(p))],
            "Tag output: ", "docker tag failed: ", LogInfo("Tagged: " + localImage + " -> " + registryImage))
  }

  /** `LoginRegistry`: `docker login <host> -u <user> -p <password>`, announced
      with the password replaced by a placeholder. */
  function LoginRegistry(dryRun: bool, m: Machine, host: string, username: string, password: string): (e: Effect)
    ensures Delegates(e, dryRun, m, Process(["docker", "login", host, "-u", username, "-p", password], ""), "docker login failed: ")
    ensures |e.log| > 0 && e.log[0] == LogInfo("Command: docker login " + host + " -u " + username + " -p " + Hidden)
  {
    var p := LoginProcess(host, username, password);
    Execute(dryRun, m, p, [LogInfo("Command: docker login " + host + " -u " + username + " -p " + Hidden)],
            "Login output: ", "docker login failed: ", LogInfo("Logged into registry: " + host))
  }

  /** `PushImage`: `docker push <image>`, its progress streamed to the terminal
      rather than captured, so a failure logs no output. */
  function PushImage(dryRun: bool, m: Machine, registryImage: string): (e: Effect)
    ensures Delegates(e, dryRun, m, Process(["docker", "push", registryImage], ""), "docker push failed: ")
    ensures e.status.Failed? ==> e.log == [LogInfo("Command: " + CommandLine(PushProcess(registryImage)))]
  {
    var p := PushProcess(registryImage);
    Execute(dryRun, m, p, [LogInfo("Command: " + CommandLine(p))],
            "", "docker push failed: ", LogInfo("Pushed: " + registryImage))
  }

  /** The announced login command is the executed one with the password
      argument swapped for the placeholder. */
  lemma LoginAnnouncesMaskedCommand(dryRun: bool, m: Machine, host: string, username: string, password: string)
    ensures var e := LoginRegistry(dryRun, m, host, username, password);
      && e.log[0] == LogInfo("Command: " + CommandLine(LoginProcess(host, username, Hidden)))
      && (!dryRun ==> e.executed == [LoginProcess(host, username, password)])
  {
    MaskedLoginLine(host, username);
    PrefixThenPieces("Command: ", "docker login ", host, " -u ", username, " -p ", Hidden);
    CommandWord();
  }

  /** What the login logs does not depend on the password, as long as the
      tool answers the same way. */
  lemma LoginLogIgnoresPassword(dryRun: bool, m1: Machine, m2: Machine, host: string, username: string,
                                password1: string, password2: string)
    requires m1.exec(LoginProcess(host, username, password1)) == m2.exec(LoginProcess(host, username, password2))
    ensures LoginRegistry(dryRun, m1, host, username, password1).log == LoginRegistry(dryRun, m2, host, username, password2).log
  {
  }

  // ---------------------------------------------------------------------------
  // Spelling out the login command line.  `Join` of the seven arguments is
  // unfolded and regrouped one associativity or literal step at a time; each
  // step is its own small lemma so that no single proof has to search for the
  // whole regrouping.
  // ---------------------------------------------------------------------------

  lemma MaskedLoginLine(host: string, username: string)
    ensures CommandLine(LoginProcess(host, username, Hidden)) == "docker login " + host + " -u " + username + " -p " + Hidden
  {
    JoinSeven("docker", "login", host, "-u", username, "-p", Hidden, " ");
    LoginWords();
    Regroup("docker login " + host, " ", "-u", " ");
    Regroup("docker login " + host + " -u " + username, " ", "-p", " ");
  }

  /** Seven words joined: the separators fall between them. */
  lemma JoinSeven(a: string, b: string, c: string, d: string, e: string, f: string, g: string, sep: string)
    ensures Join([a, b, c, d, e, f, g], sep) == a + sep + b + sep + c + sep + d + sep + e + sep + f + sep + g
  {
    JoinCons(f, [g], sep);
    JoinCons(e, [f, g], sep);
    JoinCons(d, [e, f, g], sep);
    JoinCons(c, [d, e, f, g], sep);
    JoinCons(b, [c, d, e, f, g], sep);
    JoinCons(a, [b, c, d, e, f, g], sep);
    assert [a, b, c, d, e, f, g] == [a] + [b, c, d, e, f, g];
    assert [b, c, d, e, f, g] == [b] + [c, d, e, f, g];
    assert [c, d, e, f, g] == [c] + [d, e, f, g];
    assert [d, e, f, g] == [d] + [e, f, g];
    assert [e, f, g] == [e] + [f, g];
    assert [f, g] == [f] + [g];
    var t5 := f + sep + g;
    var t4 := e + sep + t5;
    var t3 := d + sep + t4;
    var t2 := c + sep + t3;
    var t1 := b + sep + t2;
    var x1 := a + sep;
    Absorb(x1, b, sep, t2);
    Absorb(x1 + b + sep, c, sep, t3);
    Absorb(x1 + b + sep + c + sep, d, sep, t4);
    Absorb(x1 + b + sep + c + sep + d + sep, e, sep, t5);
    Absorb(x1 + b + sep + c + sep + d + sep + e + sep, f, sep, g);
  }

  /** The next word and separator move from the unjoined rest to the joined prefix. */
  lemma Absorb(x: string, w: string, sep: string, rest: string)
    ensures x + (w + sep + rest) == x + w + sep + rest
  {
  }

  lemma Regroup(x: string, p: string, q: string, r: string)
    ensures x + p + q + r == x + (p + q + r)
  {
  }

  lemma PrefixThenPieces(p: string, q: string, a: string, b: string, c: string, d: string, e: string)
    ensures p + (q + a + b + c + d + e) == (p + q) + a + b + c + d + e
  {
  }

  lemma LoginWords()
    ensures "docker" + " " + "login" + " " == "docker login "
    ensures " " + "-u" + " " == " -u "
    ensures " " + "-p" + " " == " -p "
  {
  }

  lemma CommandWord()
    ensures "Command: " + "docker login " == "Command: docker login "
  {
  }

  lemma JoinCons(first: string, rest: seq<string>, sep: string)
    requires |rest| > 0
    ensures Join([first] + rest, sep) == first + sep + Join(rest, sep)
  {
    assert ([first] + rest)[1..] == rest;
  }
}
