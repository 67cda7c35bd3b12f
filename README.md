# origamiphp: environment resolution and orchestration, in Dafny

origamiphp is a command-line tool that manages Docker-based local development
environments. This project models the layer that decides which environment a
command works on and what external processes it runs:

- **Environment registry** (`Registry`, `EnvironmentCollection`): an ordered
  list of environments whose names and locations stay unique. `Add` refuses a
  duplicate before changing anything. `Remove` drops every entry at a location
  and re-sorts the rest.
- **Context resolution** (`Context`, `ApplicationContext`): picks one
  environment by a fixed precedence. The active environment comes first, then
  the one named on the command line, then the one at the working directory.
  The choice is then gated on its configuration files being installed.
- **Configuration-file gate** (`ConfigurationFiles`,
  `ConfigurationFilesValidator`): every template file of the environment type
  must exist under `<location>/var/docker/`, after every `custom-` in the path
  is removed. One violation is recorded per missing file.
- **Sync-session lifecycle** (`Mutagen`): lists the sessions for the project
  label, then resumes the session if one exists and creates it otherwise; it
  also pauses and monitors sessions.
- **Compose command builder** (`Docker`): the `docker compose` prefix, the
  operation-to-arguments table, and the logs, terminal, resource-usage and
  database dump/restore commands, as the Docker tests fix them.

Supporting modules: `Wrappers` (Option, Result), `Strings` (PHP truthiness,
`implode`, `str_replace` with an empty replacement, integer printing),
`Environments` (the environment record, the `<type>_<name>` project name and
the Compose variables) and `Processes` (the process runner).

External collaborators become inputs. The environment data store becomes a
sequence of environments. The working directory is a string. The template
listing is a sequence of file names and the filesystem is the set of paths
that exist. The process runner is a class. It records every process it
starts, lets each foreground process succeed or fail, and keeps the sync
tool's set of session labels. A `list` run in the background prints something
exactly when its label is in that set, and a successful `create` adds its
label.

Behaviour worth noting in the code:

- A name given on the command line that matches no environment is not an
  error. Resolution falls through to the working directory, exactly as when no
  name is given (src/Service/ApplicationContext.php:39-51).
- The terminal command is `docker exec -it [--user=<user> ]<project>-php-1 bash --login`
  in the Docker tests (tests/Service/Middleware/Binary/DockerTest.php:261, 301).
  The model generalises `php` to any service, `<project>-<service>-1`. The
  older test tests/Middleware/Binary/DockerComposeTerminalTest.php:90 expects
  `docker-compose exec -u <user> php sh -l` instead; the model follows the
  Docker tests.
- The logs tail is printed as given. Nothing rejects a negative tail.
- `Remove` promises only the surviving entries, not their order.

## Model

| member | source | states |
|---|---|---|
| Environments.ProjectName | src/Service/ApplicationContext.php:73-76 | `<type>_<name>`: the type, one `_` at index \|type\|, then the name |
| Environments.SplitProjectName | src/Service/ApplicationContext.php:73-76 | splits a project name at its first `_`; the two parts rejoin to the input, and the result is None exactly when there is no `_` |
| Environments.ProjectNameRoundTrip | src/Service/ApplicationContext.php:73-76 | `<type>_<name>` decodes back to the type and the name whenever the type contains no `_` |
| Environments.ProjectNameInjective | src/Service/ApplicationContext.php:73-76 | two environments whose types contain no `_` share a project name only if they share type and name |
| Environments.ProjectNameAmbiguousWithSeparatorInType | src/Service/ApplicationContext.php:73-76 | with a `_` in the type, two different environments get the same project name |
| Environments.ComposeVariables | tests/Middleware/Binary/DockerComposeTerminalTest.php:83-88 | the variables are exactly COMPOSE_FILE, COMPOSE_PROJECT_NAME, DOCKER_PHP_IMAGE and PROJECT_LOCATION |
| Environments.ComposeVariablesRoundTrip | tests/Middleware/Binary/DockerComposeTerminalTest.php:83-88 | COMPOSE_PROJECT_NAME decodes back to the environment's type and name, and PROJECT_LOCATION is its location |
| Strings.RemoveAll | src/Validator/Constraints/ConfigurationFilesValidator.php:30-34 | `str_replace` with an empty replacement never lengthens the string; the three lemmas below state the rest |
| Strings.RemoveAllLeading | src/Validator/Constraints/ConfigurationFilesValidator.php:30-34 | an occurrence at the start is removed and scanning resumes after it |
| Strings.RemoveAllAbsent | src/Validator/Constraints/ConfigurationFilesValidator.php:30-34 | a string that does not contain the pattern is returned unchanged |
| Strings.RemoveAllConcat | src/Validator/Constraints/ConfigurationFilesValidator.php:30-34 | removal distributes over a concatenation whose left part ends in a character outside the pattern |
| Registry.FirstConflict | src/ValueObject/EnvironmentCollection.php:47-55 | no conflict exactly when no entry shares the name or the location; otherwise the conflict of the first clashing entry, with the name checked before the location |
| Registry.AddKeepsUnique | src/ValueObject/EnvironmentCollection.php:45-58 | appending an entry that clashes with nothing keeps all names and all locations unique |
| Registry.WithoutLocation | src/ValueObject/EnvironmentCollection.php:65-69 | keeps exactly the entries at another location, takes nothing that was not there, and is the identity when no entry is at the location |
| Registry.SortEntries | src/ValueObject/EnvironmentCollection.php:71 | the re-sort is a permutation of its input and is ordered by name, then location |
| Registry.RemoveKeepsUnique | src/ValueObject/EnvironmentCollection.php:63-72 | removing a location keeps names and locations unique |
| Registry.RemoveContents | src/ValueObject/EnvironmentCollection.php:63-72 | after removal an entry is present exactly when it was present before and is at another location |
| Registry.RemoveAbsentKeepsEntries | src/ValueObject/EnvironmentCollection.php:63-72 | removing a location no entry has keeps the same entries with the same multiplicities |
| Registry.RemoveIdempotent | src/ValueObject/EnvironmentCollection.php:63-72 | removing the same location a second time changes no entry |
| Registry.EnvironmentCollection.constructor | src/ValueObject/EnvironmentCollection.php:20-22 | the collection holds the given list, unique or not |
| Registry.EnvironmentCollection.Count | src/ValueObject/EnvironmentCollection.php:27-30 | the number of stored entries |
| Registry.EnvironmentCollection.Add | src/ValueObject/EnvironmentCollection.php:45-58 | fails with the first conflict and changes nothing, or appends the entry; uniqueness is preserved |
| Registry.EnvironmentCollection.Remove | src/ValueObject/EnvironmentCollection.php:63-72 | the new entries are a permutation of the old ones at other locations; uniqueness is preserved |
| ConfigurationFiles.ExpectedPath | src/Validator/Constraints/ConfigurationFilesValidator.php:30-34 | `<location>/var/docker/<file>` with every `custom-` removed, never longer than that path |
| ConfigurationFiles.CustomTemplateMapsToPlainName | src/Validator/Constraints/ConfigurationFilesValidator.php:30-36 | a `custom-<x>` template is checked against the same path as `<x>` |
| ConfigurationFiles.ExpectedPathSplits | src/Validator/Constraints/ConfigurationFilesValidator.php:30-34 | when the directory part holds no `custom-`, only the file name is rewritten |
| ConfigurationFiles.LocationWithPrefixIsRewritten | src/Validator/Constraints/ConfigurationFilesValidator.php:30-34 | the removal covers the whole path, so a location containing `custom-` is looked up without it |
| ConfigurationFiles.MissingFiles | src/Validator/Constraints/ConfigurationFilesValidator.php:29-39 | a template is listed exactly when its expected path does not exist, and as many times as it occurs in the listing |
| ConfigurationFiles.MissingCountIsLength | src/Validator/Constraints/ConfigurationFilesValidator.php:29-39 | counting misses one template at a time, as the loop does, gives the number of missing files |
| ConfigurationFiles.NoViolationsIff | src/Validator/Constraints/ConfigurationFilesValidator.php:29-39 | there are no missing files exactly when every expected path exists |
| ConfigurationFiles.ConfigurationIsValid | src/Validator/Constraints/ConfigurationFilesValidator.php:29-39 | valid exactly when every template's expected path exists |
| ConfigurationFiles.ExecutionContext.AddViolation | src/Validator/Constraints/ConfigurationFilesValidator.php:37 | appends one violation with the constraint's message |
| ConfigurationFiles.Validate | src/Validator/Constraints/ConfigurationFilesValidator.php:18-40 | refuses any other constraint with UnexpectedType and adds nothing; otherwise adds one violation per missing file |
| Context.FindFirst | src/Service/ApplicationContext.php:36-50 | the result is a matching registry entry, and None exactly when no entry matches |
| Context.RequestedName | src/Service/ApplicationContext.php:39-45 | a name is requested exactly when the argument exists, is a string and is not empty |
| Context.Candidate | src/Service/ApplicationContext.php:33-56 | the chosen environment is in the registry and is active, named by the input, or at the working directory; None exactly when no entry is any of these |
| Context.ActiveTakesPrecedence | src/Service/ApplicationContext.php:36-39 | an active environment wins whatever the input and the working directory say |
| Context.NameBeforeLocation | src/Service/ApplicationContext.php:39-51 | with nothing active, a non-empty name that is found wins over the working directory |
| Context.UnknownNameFallsThrough | src/Service/ApplicationContext.php:39-51 | with nothing active, a missing or unknown name leaves the choice to the working directory |
| Context.PrecedenceScenario | src/Service/ApplicationContext.php:33-56 | removing the active flag, then the name, then the matching directory moves the choice from R1 to R2 to R3 to nothing |
| Context.ApplicationContext.constructor | src/Service/ApplicationContext.php:19-24 | a new context has no resolved environment and satisfies the invariant |
| Context.ApplicationContext.LoadEnvironment | src/Service/ApplicationContext.php:33-60 | fails with InvalidEnvironment when there is no candidate and with InvalidConfiguration when its files are missing, leaving the state unchanged; otherwise stores the candidate; keeps the invariant that a resolved environment is registered and configured |
| Context.ApplicationContext.GetActiveEnvironment | src/Service/ApplicationContext.php:65-68 | a resolved environment is in the registry and every one of its configuration files exists |
| Context.ApplicationContext.CheckEnvironmentConfiguration | src/Service/ApplicationContext.php:83-88 | succeeds exactly when every expected configuration file exists, and otherwise fails with InvalidConfiguration |
| Context.ApplicationContext.GetProjectName | src/Service/ApplicationContext.php:73-76 | defined exactly when an environment is resolved, is its `<type>_<name>`, and decodes back to its type and name when the type has no `_` |
| Processes.ProcessRunner.RunBackground | src/Manager/Process/Mutagen.php:75-77 | logs the process and returns its output; a `list` prints something exactly when a session has the label |
| Processes.ProcessRunner.RunForeground | src/Manager/Process/Mutagen.php:44-46 | logs the process with its success flag; only a successful `create` adds a session label |
| Processes.ProcessRunner.RunForegroundShell | tests/Service/Middleware/Binary/DockerTest.php:174-178 | logs the shell line with its success flag and changes no session |
| Mutagen.SyncTarget | src/Manager/Process/Mutagen.php:39 | the container target is empty exactly when the project name is "" or "0" |
| Mutagen.ListCommand | src/Manager/Process/Mutagen.php:74 | `list` selects the sessions with the project's label and creates none |
| Mutagen.CreateCommand | src/Manager/Process/Mutagen.php:29-40 | `create` labels the new session with the project name and syncs the location to the container target |
| Mutagen.ResumeCommand | src/Manager/Process/Mutagen.php:42 | `resume` selects the sessions with the project's label |
| Mutagen.PauseCommand | src/Manager/Process/Mutagen.php:58 | `pause` selects the sessions with the project's label |
| Mutagen.MonitorCommand | src/Manager/Process/Mutagen.php:89 | `monitor` neither lists nor creates a session |
| Mutagen.ListFindsSession | src/Manager/Process/Mutagen.php:72-78 | the `list` output is non-empty exactly when a session carries the project's label |
| Mutagen.ResumeAndPauseCreateNothing | src/Manager/Process/Mutagen.php:42 | `resume` and `pause` create no session |
| Mutagen.CanResumeSynchronization | src/Manager/Process/Mutagen.php:72-78 | true exactly when a session with the label exists; issues one background `list` |
| Mutagen.StartDockerSynchronization | src/Manager/Process/Mutagen.php:23-47 | issues `list`, then `resume` if the session exists and the full `create` otherwise; on success the session exists |
| Mutagen.StartTwice | src/Manager/Process/Mutagen.php:23-47 | after a successful start, a second start ends with `resume`; a project without a session is created once |
| Mutagen.StopDockerSynchronization | src/Manager/Process/Mutagen.php:56-62 | issues `pause` for the project's label, with "" when COMPOSE_PROJECT_NAME is unset |
| Mutagen.MonitorDockerSynchronization | src/Manager/Process/Mutagen.php:87-93 | issues `mutagen monitor` and returns its success flag |
| Mutagen.SessionFollowsEnvironment | src/Manager/Process/Mutagen.php:25-39 | with an environment's variables, the session is labelled with its project name and syncs its location |
| Docker.Action | tests/Service/Middleware/Binary/DockerTest.php:95-140 | each operation's action is non-empty and its first argument maps back to that operation |
| Docker.ActionInjective | tests/Service/Middleware/Binary/DockerTest.php:95-140 | no two operations share an argument list |
| Docker.ComposePrefix | tests/Service/Middleware/Binary/DockerTest.php:474-481 | `docker compose`, then the file, project-directory and project-name flags; the directory flag carries the location and the name flag decodes to type and name |
| Docker.ComposeCommand | tests/Service/Middleware/Binary/DockerTest.php:74 | the Compose prefix followed by an action that maps back to the operation |
| Docker.FileFlagMatchesVariables | tests/Service/Middleware/Binary/DockerTest.php:477 | with `/var/docker` as install directory, the file flag names COMPOSE_FILE |
| Docker.ComposeFlagsMatchVariables | tests/Service/Middleware/Binary/DockerTest.php:474-481 | the file, directory and project-name flags agree with the Compose variables; the name flag decodes to the type and name |
| Docker.LogsAction | tests/Service/Middleware/Binary/DockerTest.php:209-212 | `logs --follow --tail=…`, four arguments exactly when the service is given and not "" or "0" |
| Docker.LogsTailRoundTrip | tests/Service/Middleware/Binary/DockerTest.php:209 | a non-negative or absent tail is printed as digits that read back as the tail, or 0 when absent |
| Docker.LogsServiceAppended | tests/Service/Middleware/Binary/DockerTest.php:209-212 | the service is appended exactly when it is given and is not "" or "0"; the rest of the action does not change |
| Docker.LogsScenarios | tests/Service/Middleware/Binary/DockerTest.php:209-236 | the four tested combinations of tail 42 or none and service "php" or none |
| Docker.ResourceUsageCommand | tests/Service/Middleware/Binary/DockerTest.php:165-166 | the shell line is the space-joined Compose prefix, a space, then the `docker stats` pipeline |
| Docker.TerminalCommand | tests/Service/Middleware/Binary/DockerTest.php:261-301 | starts with `docker exec -it `, names the container `<project>-<service>-1` right after the optional user flag, and ends with ` bash --login` |
| Docker.TerminalUserInserted | tests/Service/Middleware/Binary/DockerTest.php:261-301 | giving a user only inserts `--user=<user> ` after `docker exec -it ` |
| Docker.DatabaseCommand | tests/Service/Middleware/Binary/DockerTest.php:348-462 | the client line, then the redirection and the path right after it |
| Docker.DatabaseCommandRedirects | tests/Service/Middleware/Binary/DockerTest.php:348-462 | a dump contains `> <path>` and a restore contains `< <path>` |
| Docker.RunComposeOperation | tests/Service/Middleware/Binary/DockerTest.php:74-89 | runs the operation's Compose command in the foreground and returns the reported success flag |
| Docker.ShowServicesLogs | tests/Service/Middleware/Binary/DockerTest.php:209-228 | runs prefix plus logs action in the foreground and returns the success flag |
| Docker.ShowResourcesUsage | tests/Service/Middleware/Binary/DockerTest.php:165-181 | runs the resource-usage line through a shell and returns the success flag |
| Docker.OpenTerminal | tests/Service/Middleware/Binary/DockerTest.php:261-316 | runs the terminal line for the project's container through a shell and returns the success flag |
| Docker.TransferDatabase | tests/Service/Middleware/Binary/DockerTest.php:347-468 | runs the dump or restore line through a shell and returns the success flag |

## Left out

- The Compose install directory is the builders' `installDir` input, as the `Docker` constructor receives it (tests/Service/Middleware/Binary/DockerTest.php:31, 44). It is relative to the location. Only with `/var/docker` does the file flag agree with COMPOSE_FILE, which is fixed to `<location>/var/docker/docker-compose.yml`.
- `Validator::validateConfigurationFiles` is not part of this model. `CheckEnvironmentConfiguration` takes it to be `ConfigurationFilesValidator` run on a fresh execution context, true exactly when no violation was recorded.
- The `Docker` class itself is not part of this model. Its commands follow the Docker tests. The client part of the dump and restore lines (the MySQL or Postgres tool run in the container) is an input, because the tests fix only the `> <path>` and `< <path>` redirections. For the same reason there is no separate MySQL and Postgres operation.
- Docker.TerminalCommand: the tests fix only the `php` service; any service name is taken as `<project>-<service>-1`.
- Docker.OpenTerminal: a user is taken as given or absent. Whether an empty user string also drops the flag is not fixed by the tests.
- Docker.LogsTailRoundTrip: stated for a non-negative or absent tail only. A negative tail is printed with a leading `-`, as PHP does.
- Docker version query (`getVersion`): left out; it only returns a process's output.
- ApplicationData is not part of this model. Its lookups are modelled as the first matching entry of the registry. Name and location matches are exact and case-sensitive.
- Registry.EnvironmentCollection.Remove: claims only a permutation of the survivors. PHP `sort()` compares objects property by property, and that order is not modelled. The model re-sorts by name, then location.
- `getIterator`: left out; it only exposes the stored list.
- Environment fields other than name, location, type and active are left out; no modelled operation reads them.
- The template directory listing and `Filesystem::exists` are inputs: a sequence of names and a set of paths. The listed directory is chosen by the process-wide `DOCKER_ENVIRONMENT` variable, not by the environment being checked, so one `templates` list serves every candidate.
- Reading a typed PHP property before it is set is an Error in PHP. The model returns None instead.
- Mutagen.StopDockerSynchronization: without COMPOSE_PROJECT_NAME, PHP also emits an undefined-key warning. The model only uses "" for the label.
- Real process execution, terminal I/O and the sync tool's output format are left out. The runner's set of session labels stands for the tool's state.
- Console command classes, output styling and exit codes are left out.
