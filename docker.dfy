/** The Compose command builder (`Docker`): every operation on an environment's
    containers is `docker compose` with the environment's file, directory and
    project name, followed by the operation's own arguments; the terminal,
    resource-usage and database commands are shell lines. Each operation hands
    its command to the process runner and returns the success flag it reports.
    The install directory (`/var/docker` in the application's configuration)
    is the builder's `installDir` input. */
module Docker {
  import opened Wrappers
  import opened Strings
  import opened Environments
  import opened Processes

  /** The Compose operations with a fixed argument list. */
  datatype Operation = Pull | Build | FixPermissions | Start | Stop | Restart | Status | Uninstall

  /** The operation a Compose subcommand stands for. */
  function OperationOf(subcommand: string): Option<Operation> {
    match subcommand
    case "pull" => Some(Pull)
    case "build" => Some(Build)
    case "exec" => Some(FixPermissions)
    case "up" => Some(Start)
    case "stop" => Some(Stop)
    case "restart" => Some(Restart)
    case "ps" => Some(Status)
    case "down" => Some(Uninstall)
    case _ => None
  }

  /** The arguments each operation appends to the Compose prefix. */
  function Action(op: Operation): (r: seq<string>)
    ensures |r| > 0 && OperationOf(r[0]) == Some(op)
  {
    match op
    case Pull => ["pull"]
    case Build => ["build", "--pull", "--parallel"]
    case FixPermissions => ["exec", "-T", "php", "bash", "-c", "chown www-data:www-data /run/host-services/ssh-auth.sock"]
    case Start => ["up", "--build", "--detach", "--remove-orphans"]
    case Stop => ["stop"]
    case Restart => ["restart"]
    case Status => ["ps"]
    case Uninstall => ["down", "--rmi", "local", "--volumes", "--remove-orphans"]
  }

  /** The subcommand alone identifies the operation, so no two operations
      share an argument list. */
  lemma ActionInjective(op1: Operation, op2: Operation)
    ensures Action(op1) == Action(op2) ==> op1 == op2
  {
  }

  const ProjectNameFlag: string := "--project-name="
  const ProjectDirectoryFlag: string := "--project-directory="

  /** `docker compose` with the environment's Compose file, project directory
      and project name. */
  function ComposePrefix(installDir: string, e: Environment): (r: seq<string>)
    ensures |r| == 5 && r[..2] == ["docker", "compose"]
    ensures IsPrefix(ProjectDirectoryFlag, r[3]) && r[3][|ProjectDirectoryFlag|..] == e.location
    ensures IsPrefix(ProjectNameFlag, r[4])
    ensures Separator !in e.kind ==> SplitProjectName(r[4][|ProjectNameFlag|..]) == Some((e.kind, e.name))
  {
    var r := [ "docker", "compose",
               "--file=" + e.location + installDir + "/docker-compose.yml",
               ProjectDirectoryFlag + e.location,
               ProjectNameFlag + ProjectName(e) ];
    assert r[3][|ProjectDirectoryFlag|..] == e.location;
    assert r[4][|ProjectNameFlag|..] == ProjectName(e);
    ProjectNameDecodes(e);
    r
  }

  /** A fixed-argument operation: the prefix, then the operation's action. */
  function ComposeCommand(installDir: string, e: Environment, op: Operation): (r: seq<string>)
    ensures |r| > 5 && r[..5] == ComposePrefix(installDir, e) && OperationOf(r[5]) == Some(op)
  {
    ComposePrefix(installDir, e) + Action(op)
  }

  /** The file flag names the COMPOSE_FILE the environment's processes get. */
  lemma FileFlagMatchesVariables(e: Environment, phpImage: string)
    ensures ComposePrefix("/var/docker", e)[2] == "--file=" + ComposeVariables(e, phpImage)["COMPOSE_FILE"]
  {
    var file := e.location + "/var/docker" + "/docker-compose.yml";
    assert ComposeVariables(e, phpImage)["COMPOSE_FILE"] == file;
    assert ComposePrefix("/var/docker", e)[2] == "--file=" + e.location + "/var/docker" + "/docker-compose.yml";
    assert "--file=" + e.location + "/var/docker" + "/docker-compose.yml" == "--file=" + file;
  }

  /** With the application's install directory, the flags agree with the
      variables the environment's processes get, and the project name on the
      command line decodes back to the environment's type and name. */
  lemma ComposeFlagsMatchVariables(e: Environment, phpImage: string, op: Operation)
    requires Separator !in e.kind
    ensures var cmd := ComposeCommand("/var/docker", e, op);
      var vars := ComposeVariables(e, phpImage);
      cmd[2] == "--file=" + vars["COMPOSE_FILE"]
      && cmd[3] == ProjectDirectoryFlag + vars["PROJECT_LOCATION"]
      && cmd[4] == ProjectNameFlag + vars["COMPOSE_PROJECT_NAME"]
      && SplitProjectName(cmd[4][|ProjectNameFlag|..]) == Some((e.kind, e.name))
      && OperationOf(cmd[5]) == Some(op)
  {
    var cmd := ComposeCommand("/var/docker", e, op);
    var prefix := ComposePrefix("/var/docker", e);
    var vars := ComposeVariables(e, phpImage);
    FileFlagMatchesVariables(e, phpImage);
    assert cmd[2] == prefix[2] && cmd[3] == prefix[3] && cmd[4] == prefix[4];
    assert prefix[3] == ProjectDirectoryFlag + e.location == ProjectDirectoryFlag + vars["PROJECT_LOCATION"];
    assert prefix[4] == ProjectNameFlag + ProjectName(e) == ProjectNameFlag + vars["COMPOSE_PROJECT_NAME"];
  }

  const TailFlag: string := "--tail="

  /** `logs --follow --tail=<tail ?? 0>`, then the service when PHP reads it as true. */
  function LogsAction(tail: Option<int>, service: Option<string>): (r: seq<string>)
    ensures |r| >= 3 && r[..2] == ["logs", "--follow"] && IsPrefix(TailFlag, r[2])
    ensures |r| == 4 <==> service.Some? && Truthy(service.value)
  {
    ["logs", "--follow", TailFlag + IntToString(tail.GetOr(0))]
      + (if service.Some? && Truthy(service.value) then [service.value] else [])
  }

  /** A non-negative tail, or none, is printed so that it reads back as the
      number of lines asked for (0 when none is given). */
  lemma LogsTailRoundTrip(tail: Option<int>, service: Option<string>)
    requires tail.None? || tail.value >= 0
    ensures var action := LogsAction(tail, service);
      IsPrefix(TailFlag, action[2])
      && (forall i :: |TailFlag| <= i < |action[2]| ==> IsDigit(action[2][i]))
      && DigitsValue(action[2][|TailFlag|..]) == tail.GetOr(0)
  {
    var action := LogsAction(tail, service);
    var digits := NatToString(tail.GetOr(0));
    assert action[2] == TailFlag + digits;
    assert action[2][|TailFlag|..] == digits;
    NatToStringRoundTrip(tail.GetOr(0));
  }

  /** The service is appended exactly when it is given and not "" or "0";
      the rest of the action does not depend on it. */
  lemma LogsServiceAppended(tail: Option<int>, service: Option<string>)
    ensures var action := LogsAction(tail, service);
      (|action| == 4 <==> service.Some? && Truthy(service.value))
      && (|action| == 4 ==> action[3] == service.value)
      && |action| >= 3 && action[..3] == LogsAction(tail, None)
  {
  }

  /** The four combinations the Docker tests exercise. */
  lemma LogsScenarios()
    ensures LogsAction(None, None) == ["logs", "--follow", "--tail=0"]
    ensures LogsAction(Some(42), None) == ["logs", "--follow", "--tail=42"]
    ensures LogsAction(Some(42), Some("php")) == ["logs", "--follow", "--tail=42", "php"]
    ensures LogsAction(None, Some("php")) == ["logs", "--follow", "--tail=0", "php"]
  {
    assert DigitChar(0) == '0' && DigitChar(4) == '4' && DigitChar(2) == '2';
    assert IntToString(42) == NatToString(4) + [DigitChar(2)] == "42";
    assert IntToString(0) == [DigitChar(0)] == "0";
    assert TailFlag + "0" == "--tail=0" && TailFlag + "42" == "--tail=42";
    assert Truthy("php");
  }

  const UsagePipeline: string := "ps --quiet | xargs docker stats"

  /** One shell line: the Compose prefix joined by spaces, then the pipeline
      that feeds the container ids to `docker stats`. */
  function ResourceUsageCommand(installDir: string, e: Environment): (r: string)
    ensures r == Join(" ", ComposePrefix(installDir, e)) + " " + UsagePipeline
  {
    JoinSnoc(" ", ComposePrefix(installDir, e), UsagePipeline);
    Join(" ", ComposePrefix(installDir, e) + [UsagePipeline])
  }

  /** `<project>-<service>-1`, the name Compose gives a service's first container. */
  function ContainerName(project: string, service: string): string {
    project + "-" + service + "-1"
  }

  const ExecPrefix: string := "docker exec -it "

  function UserFlag(user: Option<string>): string {
    if user.Some? then "--user=" + user.value + " " else ""
  }

  /** A login shell in the service's first container, as the given user. */
  function TerminalCommand(project: string, service: string, user: Option<string>): (r: string)
    ensures IsPrefix(ExecPrefix, r)
    ensures OccursAt(r, ContainerName(project, service), |ExecPrefix| + |UserFlag(user)|)
    ensures OccursAt(r, " bash --login", |r| - |" bash --login"|)
  {
    var r := ExecPrefix + UserFlag(user) + ContainerName(project, service) + " bash --login";
    var k := |ExecPrefix| + |UserFlag(user)|;
    assert r[k..k + |ContainerName(project, service)|] == ContainerName(project, service);
    r
  }

  /** Giving a user only inserts `--user=<user> ` right after `docker exec -it `. */
  lemma TerminalUserInserted(project: string, service: string, user: string)
    ensures var plain := TerminalCommand(project, service, None);
      |plain| >= |ExecPrefix|
      && TerminalCommand(project, service, Some(user))
         == plain[..|ExecPrefix|] + "--user=" + user + " " + plain[|ExecPrefix|..]
  {
    var plain := TerminalCommand(project, service, None);
    assert plain[..|ExecPrefix|] == ExecPrefix;
    assert plain[|ExecPrefix|..] == ContainerName(project, service) + " bash --login";
  }

  /** Which way a database dump file is moved. */
  datatype Transfer = Dump | Restore

  function Redirection(t: Transfer): string {
    match t
    case Dump => ">"
    case Restore => "<"
  }

  /** The database client's command line redirected to or from the dump file.
      The client line itself (MySQL or Postgres, run inside the container) is
      an input. */
  function DatabaseCommand(client: string, t: Transfer, path: string): (r: string)
    ensures IsPrefix(client, r) && OccursAt(r, Redirection(t) + " " + path, |client| + 1)
  {
    var r := client + " " + Redirection(t) + " " + path;
    assert r[|client| + 1..|r|] == Redirection(t) + " " + path;
    r
  }

  /** A dump writes to the path and a restore reads from it. */
  lemma DatabaseCommandRedirects(client: string, path: string)
    ensures Contains(DatabaseCommand(client, Dump, path), "> " + path)
    ensures Contains(DatabaseCommand(client, Restore, path), "< " + path)
  {
    assert OccursAt(DatabaseCommand(client, Dump, path), "> " + path, |client| + 1);
    assert OccursAt(DatabaseCommand(client, Restore, path), "< " + path, |client| + 1);
  }

  /** Runs one fixed-argument Compose operation in the foreground. */
  method RunComposeOperation(installDir: string, e: Environment, op: Operation,
                             vars: map<string, string>, runner: ProcessRunner)
    returns (ok: bool)
    modifies runner
    ensures runner.issued == old(runner.issued) + [Foreground(ComposeCommand(installDir, e, op), vars, ok)]
    ensures runner.sessions == old(runner.sessions)
  {
    ok := runner.RunForeground(ComposePrefix(installDir, e) + Action(op), vars);
  }

  /** Follows the services' logs. */
  method ShowServicesLogs(installDir: string, e: Environment, tail: Option<int>, service: Option<string>,
                          vars: map<string, string>, runner: ProcessRunner)
    returns (ok: bool)
    modifies runner
    ensures runner.issued == old(runner.issued) + [Foreground(ComposePrefix(installDir, e) + LogsAction(tail, service), vars, ok)]
    ensures runner.sessions == old(runner.sessions)
  {
    var action := ["logs", "--follow", TailFlag + IntToString(tail.GetOr(0))];
    if service.Some? && Truthy(service.value) {
      action := action + [service.value];
    } else {
      assert action == action + [];
    }
    assert action == LogsAction(tail, service);
    ok := runner.RunForeground(ComposePrefix(installDir, e) + action, vars);
  }

  /** Streams the containers' resource usage through a shell pipeline. */
  method ShowResourcesUsage(installDir: string, e: Environment, vars: map<string, string>, runner: ProcessRunner)
    returns (ok: bool)
    modifies runner
    ensures runner.issued == old(runner.issued) + [ForegroundShell(ResourceUsageCommand(installDir, e), vars, ok)]
    ensures runner.sessions == old(runner.sessions)
  {
    ok := runner.RunForegroundShell(ResourceUsageCommand(installDir, e), vars);
  }

  /** Opens a login shell in a service's container. */
  method OpenTerminal(e: Environment, service: string, user: Option<string>,
                      vars: map<string, string>, runner: ProcessRunner)
    returns (ok: bool)
    modifies runner
    ensures runner.issued == old(runner.issued)
      + [ForegroundShell(TerminalCommand(ProjectName(e), service, user), vars, ok)]
    ensures runner.sessions == old(runner.sessions)
  {
    ok := runner.RunForegroundShell(TerminalCommand(ProjectName(e), service, user), vars);
  }

  /** Dumps the database to `path` or restores it from there. */
  method TransferDatabase(client: string, t: Transfer, path: string, vars: map<string, string>, runner: ProcessRunner)
    returns (ok: bool)
    modifies runner
    ensures runner.issued == old(runner.issued) + [ForegroundShell(DatabaseCommand(client, t, path), vars, ok)]
    ensures runner.sessions == old(runner.sessions)
  {
    ok := runner.RunForegroundShell(DatabaseCommand(client, t, path), vars);
  }
}
