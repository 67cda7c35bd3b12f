/** The process runner the orchestration layer hands its commands to. It stands
    for the operating system and the external tools behind it: it records every
    process it is asked to start, lets the outcome of a foreground process be
    anything, and keeps the synchronisation tool's own record of session labels
    so that `list` and `create` behave as that tool does. */
module Processes {
  import opened Wrappers
  import opened Strings

  /** One process started by the runner, with what it reported back. */
  datatype Invocation =
    | Foreground(argv: seq<string>, env: map<string, string>, successful: bool)
    | ForegroundShell(commandLine: string, env: map<string, string>, successful: bool)
    | Background(argv: seq<string>, env: map<string, string>, output: string)

  /** Flag that selects sessions by label in `list`, `resume` and `pause`. */
  const LabelSelector: string := "--label-selector=name="
  /** Flag that attaches a label to a session in `create`. */
  const LabelFlag: string := "--label=name="

  /** The rest of the first argument that starts with `prefix`. */
  function ValueOf(args: seq<string>, prefix: string): (r: Option<string>)
    ensures r.Some? ==> exists i :: 0 <= i < |args| && args[i] == prefix + r.value
  {
    if args == [] then None
    else if IsPrefix(prefix, args[0]) then
      assert args[0] == prefix + args[0][|prefix|..];
      Some(args[0][|prefix|..])
    else
      var r := ValueOf(args[1..], prefix);
      assert r.Some? ==> exists i :: 0 <= i < |args| && args[i] == prefix + r.value by {
        if r.Some? {
          var i :| 0 <= i < |args[1..]| && args[1..][i] == prefix + r.value;
          assert args[i + 1] == prefix + r.value;
        }
      }
      r
  }

  /** The label a `mutagen list` command asks about. */
  function ListedLabel(argv: seq<string>): Option<string> {
    if |argv| >= 2 && argv[0] == "mutagen" && argv[1] == "list" then ValueOf(argv[2..], LabelSelector) else None
  }

  /** The label a `mutagen create` command attaches to the new session. */
  function CreatedLabel(argv: seq<string>): Option<string> {
    if |argv| >= 2 && argv[0] == "mutagen" && argv[1] == "create" then ValueOf(argv[2..], LabelFlag) else None
  }

  /** What a background process prints: `mutagen list` describes the session
      carrying the label it selects, and prints nothing when there is none. */
  function BackgroundOutput(argv: seq<string>, sessions: set<string>): string {
    match ListedLabel(argv)
    case Some(name) => if name in sessions then "Name: " + name else ""
    case None => ""
  }

  class ProcessRunner {
    /** Every process started so far, in order. */
    var issued: seq<Invocation>
    /** Labels of the synchronisation sessions that exist. */
    var sessions: set<string>

    constructor (sessions: set<string>)
      ensures issued == [] && this.sessions == sessions
    {
      issued := [];
      this.sessions := sessions;
    }

    /** Runs a process to completion and captures its output. */
    method RunBackground(argv: seq<string>, env: map<string, string>) returns (output: string)
      modifies this
      ensures output == BackgroundOutput(argv, old(sessions))
      ensures issued == old(issued) + [Background(argv, env, output)]
      ensures sessions == old(sessions)
    {
      output := BackgroundOutput(argv, sessions);
      issued := issued + [Background(argv, env, output)];
    }

    /** Runs a process attached to the terminal; it may succeed or fail, and a
        successful `create` makes its label listable. */
    method RunForeground(argv: seq<string>, env: map<string, string>) returns (successful: bool)
      modifies this
      ensures issued == old(issued) + [Foreground(argv, env, successful)]
      ensures sessions == if successful && CreatedLabel(argv).Some?
                          then old(sessions) + {CreatedLabel(argv).value} else old(sessions)
    {
      successful :| true;
      if successful && CreatedLabel(argv).Some? {
        sessions := sessions + {CreatedLabel(argv).value};
      }
      issued := issued + [Foreground(argv, env, successful)];
    }

    /** Runs a command line through a shell, attached to the terminal. */
    method RunForegroundShell(commandLine: string, env: map<string, string>) returns (successful: bool)
      modifies this
      ensures issued == old(issued) + [ForegroundShell(commandLine, env, successful)]
      ensures sessions == old(sessions)
    {
      successful :| true;
      issued := issued + [ForegroundShell(commandLine, env, successful)];
    }
  }
}
