/** The file-synchronisation session manager (`Mutagen`): builds the sync
    tool's command vectors and starts a session by creating it the first time
    and resuming it afterwards. */
module Mutagen {
  import opened Wrappers
  import opened Strings
  import opened Environments
  import opened Processes

  const DefaultContainerUid: string := "id:1000"
  const DefaultContainerGid: string := "id:1000"

  /** COMPOSE_PROJECT_NAME, or "" when it is not set. */
  function ProjectNameOf(vars: map<string, string>): string {
    if "COMPOSE_PROJECT_NAME" in vars then vars["COMPOSE_PROJECT_NAME"] else ""
  }

  /** PROJECT_LOCATION, or "" when it is not set. */
  function ProjectLocationOf(vars: map<string, string>): string {
    if "PROJECT_LOCATION" in vars then vars["PROJECT_LOCATION"] else ""
  }

  /** Lists the sessions that carry the project's label. */
  function ListCommand(project: string): (r: seq<string>)
    ensures ListedLabel(r) == Some(project) && CreatedLabel(r).None?
  {
    var r := ["mutagen", "list", LabelSelector + project];
    assert r[2..] == [LabelSelector + project];
    assert r[2][|LabelSelector|..] == project;
    r
  }

  /** The container-side end of the session; empty when the project name is
      one PHP treats as false ("" or "0"). */
  function SyncTarget(project: string): (r: string)
    ensures r == "" <==> !Truthy(project)
  {
    if Truthy(project) then "docker://" + project + "_synchro/var/www/html/" else ""
  }

  /** The fixed options of `create`: ownership inside the container, sync
      mode and ignores. */
  const CreateOptions: seq<string> := [
    "--default-owner-beta=" + DefaultContainerUid,
    "--default-group-beta=" + DefaultContainerGid,
    "--sync-mode=two-way-resolved",
    "--ignore-vcs",
    "--ignore=\".idea\""
  ]

  /** Resumes the sessions that carry the project's label. */
  function ResumeCommand(project: string): (r: seq<string>)
    ensures |r| == 3 && r[..2] == ["mutagen", "resume"] && ValueOf(r[2..], LabelSelector) == Some(project)
  {
    var r := ["mutagen", "resume", LabelSelector + project];
    assert r[2..] == [LabelSelector + project];
    assert r[2][|LabelSelector|..] == project;
    r
  }

  /** Pauses the sessions that carry the project's label. */
  function PauseCommand(project: string): (r: seq<string>)
    ensures |r| == 3 && r[..2] == ["mutagen", "pause"] && ValueOf(r[2..], LabelSelector) == Some(project)
  {
    var r := ["mutagen", "pause", LabelSelector + project];
    assert r[2..] == [LabelSelector + project];
    assert r[2][|LabelSelector|..] == project;
    r
  }

  /** The live status display: it neither lists nor creates a session. */
  function MonitorCommand(): (r: seq<string>)
    ensures |r| > 0 && r[0] == "mutagen" && ListedLabel(r).None? && CreatedLabel(r).None?
  {
    ["mutagen", "monitor"]
  }

  /** `list` prints something exactly when a session carries the project's label. */
  lemma ListFindsSession(project: string, sessions: set<string>)
    ensures BackgroundOutput(ListCommand(project), sessions) != "" <==> project in sessions
  {
  }

  /** An argument whose third character differs from the label flag's is passed over. */
  lemma SkipUnlabelled(args: seq<string>)
    requires args != [] && |args[0]| > 2 && args[0][2] != LabelFlag[2]
    ensures ValueOf(args, LabelFlag) == ValueOf(args[1..], LabelFlag)
  {
  }

  /** None of the fixed options carries a label. */
  lemma OptionsCarryNoLabel(rest: seq<string>)
    ensures ValueOf(CreateOptions + rest, LabelFlag) == ValueOf(rest, LabelFlag)
  {
    var args := CreateOptions + rest;
    forall i | 0 <= i < 5
      ensures |args[i]| > 2 && args[i][2] != LabelFlag[2]
    {
      assert args[i] == CreateOptions[i];
    }
    SkipUnlabelled(args);
    SkipUnlabelled(args[1..]);
    SkipUnlabelled(args[1..][1..]);
    SkipUnlabelled(args[1..][1..][1..]);
    SkipUnlabelled(args[1..][1..][1..][1..]);
    assert args[1..][1..][1..][1..][1..] == rest;
  }

  /** Creates a two-way session between the location and the project's
      container, labelled with the project name. */
  function CreateCommand(project: string, location: string): (r: seq<string>)
    ensures CreatedLabel(r) == Some(project) && ListedLabel(r).None?
    ensures r[|r| - 2] == location && r[|r| - 1] == SyncTarget(project)
  {
    var rest := [LabelFlag + project, location, SyncTarget(project)];
    var r := ["mutagen", "create"] + CreateOptions + rest;
    assert IsPrefix(LabelFlag, rest[0]) && rest[0][|LabelFlag|..] == project;
    OptionsCarryNoLabel(rest);
    assert r[2..] == CreateOptions + rest;
    r
  }

  /** Neither `resume` nor `pause` creates a session. */
  lemma ResumeAndPauseCreateNothing(project: string)
    ensures CreatedLabel(ResumeCommand(project)).None? && CreatedLabel(PauseCommand(project)).None?
  {
  }

  /** Asks the tool whether a session with the project's label exists. */
  method CanResumeSynchronization(project: string, vars: map<string, string>, runner: ProcessRunner)
    returns (canResume: bool)
    modifies runner
    ensures canResume <==> project in old(runner.sessions)
    ensures runner.issued == old(runner.issued)
      + [Background(ListCommand(project), vars, BackgroundOutput(ListCommand(project), old(runner.sessions)))]
    ensures runner.sessions == old(runner.sessions)
  {
    var output := runner.RunBackground(ListCommand(project), vars);
    ListFindsSession(project, old(runner.sessions));
    canResume := output != "";
  }

  /** Lists sessions first; resumes the project's session when one exists and
      creates it otherwise. Returns what the foreground process reported. */
  method StartDockerSynchronization(vars: map<string, string>, runner: ProcessRunner) returns (ok: bool)
    modifies runner
    ensures var project := ProjectNameOf(vars);
      var command := if project in old(runner.sessions) then ResumeCommand(project)
                     else CreateCommand(project, ProjectLocationOf(vars));
      runner.issued == old(runner.issued)
        + [ Background(ListCommand(project), vars, BackgroundOutput(ListCommand(project), old(runner.sessions))),
            Foreground(command, vars, ok) ]
    ensures ok ==> ProjectNameOf(vars) in runner.sessions
    ensures old(runner.sessions) <= runner.sessions
  {
    var projectName := ProjectNameOf(vars);
    var projectLocation := ProjectLocationOf(vars);
    var command;
    var canResume := CanResumeSynchronization(projectName, vars, runner);
    if !canResume {
      command := CreateCommand(projectName, projectLocation);
    } else {
      command := ResumeCommand(projectName);
      ResumeAndPauseCreateNothing(projectName);
    }
    ok := runner.RunForeground(command, vars);
  }

  /** Starting twice never creates twice: once the first start has succeeded,
      the second one lists the session and resumes it. */
  method StartTwice(vars: map<string, string>, runner: ProcessRunner) returns (first: bool, second: bool)
    modifies runner
    ensures |runner.issued| == |old(runner.issued)| + 4
    ensures var project := ProjectNameOf(vars);
      first ==> runner.issued[|runner.issued| - 1] == Foreground(ResumeCommand(project), vars, second)
    ensures var project := ProjectNameOf(vars);
      project !in old(runner.sessions) ==>
        runner.issued[|old(runner.issued)| + 1] == Foreground(CreateCommand(project, ProjectLocationOf(vars)), vars, first)
  {
    first := StartDockerSynchronization(vars, runner);
    second := StartDockerSynchronization(vars, runner);
  }

  /** Pauses the project's session. Without COMPOSE_PROJECT_NAME the PHP code
      reads an undefined key, which interpolates as "". */
  method StopDockerSynchronization(vars: map<string, string>, runner: ProcessRunner) returns (ok: bool)
    modifies runner
    ensures runner.issued == old(runner.issued) + [Foreground(PauseCommand(ProjectNameOf(vars)), vars, ok)]
    ensures runner.sessions == old(runner.sessions)
  {
    ResumeAndPauseCreateNothing(ProjectNameOf(vars));
    ok := runner.RunForeground(PauseCommand(ProjectNameOf(vars)), vars);
  }

  /** Shows the tool's live status display. */
  method MonitorDockerSynchronization(vars: map<string, string>, runner: ProcessRunner) returns (ok: bool)
    modifies runner
    ensures runner.issued == old(runner.issued) + [Foreground(MonitorCommand(), vars, ok)]
    ensures runner.sessions == old(runner.sessions)
  {
    ok := runner.RunForeground(MonitorCommand(), vars);
  }

  /** With the variables built for an environment, the session is labelled
      with the environment's project name and synchronises its location. */
  lemma SessionFollowsEnvironment(e: Environment, phpImage: string)
    ensures var vars := ComposeVariables(e, phpImage);
      ProjectNameOf(vars) == ProjectName(e) && ProjectLocationOf(vars) == e.location
      && SyncTarget(ProjectNameOf(vars)) == "docker://" + ProjectName(e) + "_synchro/var/www/html/"
  {
    assert ProjectName(e)[|e.kind|] == Separator;
  }
}
