/** The remote execution client: connects to the remote host over SSH and runs
shell commands there.

Reading key files, dialing and running sessions are not modelled; a `Network`
value stands for them.  The client's own state is the target recorded by the
last live `Connect` (the "active" config) and the dry-run flag it was built with.
Each command dials the active target afresh and opens one session for it.
 */
module Ssh {
  import opened Errors
  import opened Text
  import opened Logs
  import opened Domain

  datatype SshState = SshState(config: SSHConfig, active: SSHConfig, dryRun: bool)

  /** A new client: nothing has been connected yet, so the active target is the
      zero config. */
  function NewSshState(config: SSHConfig, dryRun: bool): SshState
  {
    SshState(config, ZeroSSH, dryRun)
  }

  /** Reading and parsing a private key file. */
  datatype KeyLoad = Unreadable(err: Error) | Unparsable(err: Error) | Parsed(signer: string)

  datatype AuthMethod = PasswordAuth(password: string) | PublicKeyAuth(signer: string)

  datatype ClientConfig = ClientConfig(user: string, auth: seq<AuthMethod>, timeoutSeconds: nat)

  /** One dial: network, "host:port" address and client settings. */
  datatype DialRequest = DialRequest(network: string, addr: string, client: ClientConfig)

  /** What running a command in a session reports. */
  datatype SessionReply = SessionReply(stdout: string, stderr: string, err: Option<Error>)

  /** The outside world as the client sees it: key files, dialing (an error or
      a client), opening a session on a client, and running a command there. */
  datatype Network = Network(
    loadKey: string -> KeyLoad,
    dial: DialRequest -> Option<Error>,
    openSession: DialRequest -> Option<Error>,
    run: (DialRequest, string) -> SessionReply)

  /** What one operation did: lines logged, dials attempted, commands run. */
  datatype Effect = Effect(log: seq<LogLine>, dials: seq<DialRequest>, commands: seq<string>)

  const DialTimeoutSeconds: nat := 30
  const DryRunOutput := "DRY RUN: Command would be executed"
  const HostMask := "[HOST]"
  const StderrMarker := "\nSTDERR: "

  // ---------------------------------------------------------------------------
  // Building the client
  // ---------------------------------------------------------------------------

  /** The authentication methods offered: the password when one is configured,
      then the public key when a key file is configured; a key file that cannot
      be read or parsed is an error. */
  function AuthMethods(cfg: SSHConfig, net: Network): (r: Result<seq<AuthMethod>>)
    ensures r.Failure? <==> cfg.keyFile != "" && !net.loadKey(cfg.keyFile).Parsed?
    ensures r.Success? ==>
      && |r.value| == (if cfg.password != "" then 1 else 0) + (if cfg.keyFile != "" then 1 else 0)
      && (cfg.password != "" ==> r.value[0] == PasswordAuth(cfg.password))
      && (cfg.keyFile != "" ==> r.value[|r.value| - 1] == PublicKeyAuth(net.loadKey(cfg.keyFile).signer))
      && forall i, j :: 0 <= i < j < |r.value| ==> r.value[i].PasswordAuth? && r.value[j].PublicKeyAuth?
    ensures r.Failure? && net.loadKey(cfg.keyFile).Unreadable? ==>
      r.error == Wrapped("unable to read private key: ", net.loadKey(cfg.keyFile).err)
    ensures r.Failure? && net.loadKey(cfg.keyFile).Unparsable? ==>
      r.error == Wrapped("unable to parse private key: ", net.loadKey(cfg.keyFile).err)
  {
    var withPassword := if cfg.password != "" then [PasswordAuth(cfg.password)] else [];
    if cfg.keyFile == "" then Success(withPassword)
    else
      match net.loadKey(cfg.keyFile)
      case Unreadable(e) => Failure(Wrapped("unable to read private key: ", e))
      case Unparsable(e) => Failure(Wrapped("unable to parse private key: ", e))
      case Parsed(signer) => Success(withPassword + [PublicKeyAuth(signer)])
  }

  /** The dial address, "host:port". */
  function Address(cfg: SSHConfig): string
  {
    cfg.host + ":" + IntToString(cfg.port)
  }

  /** The address splits back, at its last colon, into the host and the port,
      whatever the host contains. */
  lemma AddressRoundTrip(cfg: SSHConfig)
    ensures var a := Address(cfg);
      var i := LastIndexOf(a, ':');
      && i == |cfg.host|
      && a[..i] == cfg.host
      && IsDecimal(a[i + 1..])
      && ParseInt(a[i + 1..]) == cfg.port
  {
    var a := Address(cfg);
    var port := IntToString(cfg.port);
    IntRoundTrip(cfg.port);
    assert a[|cfg.host|] == ':';
    forall j | |cfg.host| < j < |a|
      ensures a[j] != ':'
    {
      assert a[j] == port[j - |cfg.host| - 1];
    }
    assert a[|cfg.host| + 1..] == port;
  }

  /** The request `getSSHClientWithConfig` dials, once the keys are loaded. */
  function ClientFor(cfg: SSHConfig, net: Network): (r: Result<DialRequest>)
    ensures r.Success? <==> AuthMethods(cfg, net).Success?
    ensures r.Success? ==> r.value.addr == Address(cfg) && r.value.client.user == cfg.username
    ensures r.Success? ==> r.value.client.timeoutSeconds == DialTimeoutSeconds
    ensures r.Success? ==> r.value.network == "tcp" && r.value.client.auth == AuthMethods(cfg, net).value
    ensures r.Failure? ==> r.error == AuthMethods(cfg, net).error
  {
    match AuthMethods(cfg, net)
    case Failure(e) => Failure(e)
    case Success(auth) => Success(DialRequest("tcp", Address(cfg), ClientConfig(cfg.username, auth, DialTimeoutSeconds)))
  }

  /** The dials attempted (none when a key cannot be loaded) and the client or
      the error. */
  function Dial(cfg: SSHConfig, net: Network): (seq<DialRequest>, Result<DialRequest>)
  {
    match ClientFor(cfg, net)
    case Failure(e) => ([], Failure(e))
    case Success(req) =>
      ([req], match net.dial(req) case Some(e) => Failure(e) case None => Success(req))
  }

  // ---------------------------------------------------------------------------
  // Operations
  // ---------------------------------------------------------------------------

  datatype Connected = Connected(state: SshState, effect: Effect, status: Status)

  /** `Connect`: a dry-run client succeeds and keeps its active target; a live
      client records the target before dialing, so it stays recorded when the
      dial fails, and a failure is wrapped. */
  function Connect(s: SshState, cfg: SSHConfig, net: Network): (r: Connected)
    ensures s.dryRun ==> r.state == s && r.status == Ok && r.effect.dials == []
    ensures !s.dryRun ==> r.state == s.(active := cfg)
    ensures !s.dryRun ==>
      (r.status.Ok? <==> ClientFor(cfg, net).Success? && net.dial(ClientFor(cfg, net).value).None?)
    ensures r.status.Failed? ==> r.status.error.Wrapped? && r.status.error.context == "SSH connection failed: "
    ensures !s.dryRun && r.status.Failed? ==>
      r.status.error.inner == (match ClientFor(cfg, net)
                               case Failure(e) => e
                               case Success(req) => net.dial(req).value)
    ensures !s.dryRun && ClientFor(cfg, net).Success? ==> r.effect.dials == [ClientFor(cfg, net).value]
    ensures !s.dryRun && ClientFor(cfg, net).Failure? ==> r.effect.dials == []
    ensures r.effect.commands == []
  {
    var announced := [LogInfo("Connecting to: " + cfg.username + "@" + cfg.host + ":" + IntToString(cfg.port))];
    if s.dryRun then Connected(s, Effect(announced, [], []), Ok)
    else
      var recorded := s.(active := cfg);
      var (dials, client) := Dial(cfg, net);
      match client
      case Failure(e) =>
        Connected(recorded, Effect(announced, dials, []), Failed(Wrapped("SSH connection failed: ", e)))
      case Success(_) =>
        Connected(recorded, Effect(announced + [LogInfo("SSH connection established")], dials, []), Ok)
  }

  /** The command as logged: every occurrence of the active host masked. */
  function Redact(command: string, host: string): string
  {
    ReplaceAll(command, host, HostMask)
  }

  /** The captured output: stdout, then the marker and stderr when there is any. */
  function ComposeOutput(stdout: string, stderr: string): string
  {
    if |stderr| > 0 then stdout + StderrMarker + stderr else stdout
  }

  /** Reading a captured output back into stdout and stderr. */
  function SplitOutput(output: string): (string, string)
  {
    var i := IndexOf(output, StderrMarker);
    if i < 0 then (output, "") else (output[..i], output[i + |StderrMarker|..])
  }

  datatype Executed = Executed(output: string, effect: Effect, status: Status)

  /** `RunCommandWithOutput`: logs the redacted command; a dry-run client returns
      the placeholder; a live one dials the active target, opens a session and
      runs the command there.  Only a dial, session or command error fails the
      call; stderr output does not. */
  function RunCommandWithOutput(s: SshState, command: string, net: Network): (r: Executed)
    ensures r.effect.log == [LogInfo("Remote command: " + Redact(command, s.active.host))]
    ensures s.dryRun ==> r.output == DryRunOutput && r.status == Ok && r.effect.dials == [] && r.effect.commands == []
    ensures !s.dryRun ==> r.effect.dials == Dial(s.active, net).0
    ensures !s.dryRun && r.effect.commands == [] ==> r.output == ""
    ensures r.effect.commands != [] ==>
      && !s.dryRun
      && Dial(s.active, net).1.Success?
      && var req := Dial(s.active, net).1.value;
         var reply := net.run(req, command);
         && r.effect.commands == [command]
         && r.output == ComposeOutput(reply.stdout, reply.stderr)
         && (r.status.Ok? <==> reply.err.None?)
         && (reply.err.Some? ==> r.status == Failed(reply.err.value))
    ensures !s.dryRun && r.effect.commands == [] ==> r.status.Failed?
    ensures !s.dryRun ==>
      match Dial(s.active, net).1
      case Failure(e) => r.status == Failed(e) && r.effect.commands == []
      case Success(req) =>
        && (net.openSession(req).Some? ==> r.status == Failed(net.openSession(req).value) && r.effect.commands == [])
        && (net.openSession(req).None? ==> r.effect.commands == [command])
  {
    var log := [LogInfo("Remote command: " + Redact(command, s.active.host))];
    if s.dryRun then Executed(DryRunOutput, Effect(log, [], []), Ok)
    else
      var (dials, client) := Dial(s.active, net);
      match client
      case Failure(e) => Executed("", Effect(log, dials, []), Failed(e))
      case Success(req) =>
        match net.openSession(req)
        case Some(e) => Executed("", Effect(log, dials, []), Failed(e))
        case None =>
          var reply := net.run(req, command);
          var status := match reply.err case Some(e) => Failed(e) case None => Ok;
          Executed(ComposeOutput(reply.stdout, reply.stderr), Effect(log, dials, [command]), status)
  }

  datatype Ran = Ran(effect: Effect, status: Status)

  /** `RunCommand`: the same call with the output dropped. */
  function RunCommand(s: SshState, command: string, net: Network): (r: Ran)
    ensures r.status == RunCommandWithOutput(s, command, net).status
    ensures r.effect == RunCommandWithOutput(s, command, net).effect
  {
    var e := RunCommandWithOutput(s, command, net);
    Ran(e.effect, e.status)
  }

  // ---------------------------------------------------------------------------
  // Properties
  // ---------------------------------------------------------------------------

  /** Splitting the captured output recovers stdout and stderr, provided stdout
      does not itself contain the marker. */
  lemma OutputRoundTrip(stdout: string, stderr: string)
    requires !Contains(stdout, StderrMarker)
    ensures SplitOutput(ComposeOutput(stdout, stderr)) == (stdout, stderr)
  {
    if |stderr| > 0 {
      var o := ComposeOutput(stdout, stderr);
      var m := StderrMarker;
      assert HasAt(o, m, |stdout|) by { assert o[|stdout|..|stdout| + |m|] == m; }
      forall j: nat | j < |stdout|
        ensures !HasAt(o, m, j)
      {
        if j + |m| <= |stdout| {
          assert o[j..j + |m|] == stdout[j..j + |m|];
          assert !HasAt(stdout, m, j);
        } else if j + |m| <= |o| {
          var k := |stdout| - j;
          assert 0 < k < |m|;
          assert o[j..j + |m|][k] == o[|stdout|] == '\n';
          assert m[k] != '\n';
        }
      }
      var i := IndexOf(o, m);
      assert i == |stdout|;
      assert o[..i] == stdout;
      assert o[i + |m|..] == stderr;
    } else {
      assert stderr == "";
    }
  }

  /** Redaction with a non-empty host: the logged text and the command are the
      same pieces, none of which contains the host, joined by the mask and by
      the host respectively. */
  lemma RedactionMasksEveryOccurrence(command: string, host: string)
    requires host != ""
    ensures var pieces := Split(command, host);
      && Join(pieces, host) == command
      && Redact(command, host) == Join(pieces, HostMask)
      && forall i :: 0 <= i < |pieces| ==> !Contains(pieces[i], host)
  {
    SplitJoinRoundTrip(command, host);
    ReplaceIsJoinOfSplit(command, host, HostMask);
    SplitPiecesAvoidSeparator(command, host);
  }

  /** Before any live connect the active host is empty, and Go's ReplaceAll with
      an empty pattern puts the mask before every character and at the end. */
  lemma UnconnectedRedactionInterleavesMask(config: SSHConfig, dryRun: bool, command: string, net: Network)
    ensures var r := RunCommandWithOutput(NewSshState(config, dryRun), command, net);
      r.effect.log == [LogInfo("Remote command: " + InsertEverywhere(command, HostMask))]
  {
  }

  /** For instance, `ls` is logged as `[HOST]l[HOST]s[HOST]`. */
  lemma InterleavedMaskExample()
    ensures Redact("ls", "") == "[HOST]l[HOST]s[HOST]"
  {
    var h := HostMask;
    assert "ls"[1..] == "s" && "s"[1..] == "";
    assert InsertEverywhere("", h) == h;
    assert InsertEverywhere("s", h) == h + "s" + h;
    assert InsertEverywhere("ls", h) == h + "l" + (h + "s" + h);
    assert h + "l" + (h + "s" + h) == "[HOST]l[HOST]s[HOST]";
  }

  /** A dry-run client never changes its active target, whatever it is asked to
      connect to, so it stays the zero config. */
  lemma DryRunKeepsZeroTarget(config: SSHConfig, targets: seq<SSHConfig>, net: Network)
    ensures ConnectAll(NewSshState(config, true), targets, net).active == ZeroSSH
  {
    var s := NewSshState(config, true);
    var k := 0;
    while k < |targets|
      invariant 0 <= k <= |targets|
      invariant ConnectAll(s, targets[..k], net) == s
    {
      assert targets[..k + 1][..k] == targets[..k];
      k := k + 1;
    }
    assert targets[..|targets|] == targets;
  }

  /** The state after connecting to each target in turn. */
  function ConnectAll(s: SshState, targets: seq<SSHConfig>, net: Network): SshState
  {
    if targets == [] then s else Connect(ConnectAll(s, targets[..|targets| - 1], net), targets[|targets| - 1], net).state
  }
}
