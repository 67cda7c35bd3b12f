/** Context resolution (`ApplicationContext`): picks the one environment a
    command works on, by a fixed precedence, and refuses it unless its
    configuration files are installed. */
module Context {
  import opened Wrappers
  import opened Environments
  import opened ConfigurationFiles

  /** The value of the console input's `environment` argument: a string, or
      anything else PHP may hold there (null, an array). */
  datatype ArgumentValue = StringArgument(value: string) | NonStringArgument

  /** The console input, as far as resolution reads it. */
  datatype Input = Input(hasEnvironmentArgument: bool, argument: ArgumentValue)

  /** InvalidEnvironmentException and InvalidConfigurationException. */
  datatype LoadError = InvalidEnvironment | InvalidConfiguration

  /** The three lookups ApplicationData offers. */
  datatype Query = IsActive | HasName(name: string) | HasLocation(location: string)

  predicate Matches(q: Query, x: Environment) {
    match q
    case IsActive => x.active
    case HasName(n) => x.name == n
    case HasLocation(l) => x.location == l
  }

  /** The first environment of the registry that matches `q` (exact, case-sensitive). */
  function FindFirst(registry: seq<Environment>, q: Query): (r: Option<Environment>)
    ensures r.Some? ==> r.value in registry && Matches(q, r.value)
    ensures r.None? <==> forall x :: x in registry ==> !Matches(q, x)
  {
    if registry == [] then None
    else if Matches(q, registry[0]) then Some(registry[0])
    else
      assert registry == [registry[0]] + registry[1..];
      FindFirst(registry[1..], q)
  }

  /** ApplicationData's currently active environment. */
  function ActiveEnvironment(registry: seq<Environment>): Option<Environment> {
    FindFirst(registry, IsActive)
  }

  /** ApplicationData's lookup by name. */
  function EnvironmentNamed(registry: seq<Environment>, name: string): Option<Environment> {
    FindFirst(registry, HasName(name))
  }

  /** ApplicationData's lookup by location. */
  function EnvironmentAt(registry: seq<Environment>, location: string): Option<Environment> {
    FindFirst(registry, HasLocation(location))
  }

  /** The name the input asks for: only a non-empty string counts. */
  function RequestedName(input: Input): (r: Option<string>)
    ensures r.Some? <==> input.hasEnvironmentArgument && input.argument.StringArgument? && input.argument.value != ""
    ensures r.Some? ==> r.value == input.argument.value && r.value != ""
  {
    if input.hasEnvironmentArgument && input.argument.StringArgument? && input.argument.value != ""
    then Some(input.argument.value)
    else None
  }

  /** The environment the three lookups settle on, before the configuration gate. */
  function Candidate(registry: seq<Environment>, input: Input, workingDirectory: string): (r: Option<Environment>)
    ensures r.Some? ==> r.value in registry
    ensures r.Some? ==> r.value.active || Some(r.value.name) == RequestedName(input)
                        || r.value.location == workingDirectory
    ensures r.None? <==> forall x :: x in registry ==>
      (!x.active && x.location != workingDirectory && Some(x.name) != RequestedName(input))
  {
    var active := ActiveEnvironment(registry);
    if active.Some? then active
    else
      var byName := if RequestedName(input).Some? then EnvironmentNamed(registry, RequestedName(input).value) else None;
      if byName.Some? then byName else EnvironmentAt(registry, workingDirectory)
  }

  /** An active environment is chosen whatever the argument and the working directory say. */
  lemma ActiveTakesPrecedence(registry: seq<Environment>, input: Input, workingDirectory: string)
    requires ActiveEnvironment(registry).Some?
    ensures Candidate(registry, input, workingDirectory) == ActiveEnvironment(registry)
  {
  }

  /** With nothing active, a non-empty name that is found wins over the working directory. */
  lemma NameBeforeLocation(registry: seq<Environment>, input: Input, workingDirectory: string)
    requires ActiveEnvironment(registry).None?
    requires RequestedName(input).Some? && EnvironmentNamed(registry, RequestedName(input).value).Some?
    ensures Candidate(registry, input, workingDirectory) == EnvironmentNamed(registry, RequestedName(input).value)
  {
  }

  /** A name that is not found is no error: the working directory is tried next,
      exactly as when no name is given. */
  lemma UnknownNameFallsThrough(registry: seq<Environment>, input: Input, workingDirectory: string)
    requires ActiveEnvironment(registry).None?
    requires RequestedName(input).None? || EnvironmentNamed(registry, RequestedName(input).value).None?
    ensures Candidate(registry, input, workingDirectory) == EnvironmentAt(registry, workingDirectory)
  {
  }

  /** The three-signal scenario: an active R1, a name naming R2, a working
      directory at R3; taking the signals away one by one moves the choice
      from R1 to R2 to R3 and then to nothing. */
  lemma PrecedenceScenario(r1: Environment, r2: Environment, r3: Environment, workingDirectory: string,
                           elsewhere: string)
    requires r1.active && !r2.active && !r3.active
    requires r1.name != r2.name && r2.name != r3.name && r2.name != ""
    requires r3.location == workingDirectory
    requires r1.location != workingDirectory && r2.location != workingDirectory
    requires elsewhere !in {r1.location, r2.location, r3.location}
    ensures Candidate([r1, r2, r3], Input(true, StringArgument(r2.name)), workingDirectory) == Some(r1)
    ensures Candidate([r1.(active := false), r2, r3], Input(true, StringArgument(r2.name)), workingDirectory) == Some(r2)
    ensures Candidate([r1.(active := false), r2, r3], Input(true, StringArgument("")), workingDirectory) == Some(r3)
    ensures Candidate([r1.(active := false), r2, r3], Input(true, StringArgument("")), elsewhere) == None
  {
    var idle := [r1.(active := false), r2, r3];
    assert idle[1..] == [r2, r3] && idle[1..][1..] == [r3] && [r3][1..] == [];
    assert ActiveEnvironment(idle) == None;
    assert !Matches(HasName(r2.name), idle[0]);
    assert FindFirst([r2, r3], HasName(r2.name)) == Some(r2);
    assert EnvironmentNamed(idle, r2.name) == Some(r2);
    var here, there := HasLocation(workingDirectory), HasLocation(elsewhere);
    assert FindFirst([r3], here) == Some(r3);
    assert FindFirst([r2, r3], here) == Some(r3);
    assert EnvironmentAt(idle, workingDirectory) == Some(r3);
    assert FindFirst([r3], there) == None;
    assert FindFirst([r2, r3], there) == None;
    assert EnvironmentAt(idle, elsewhere) == None;
  }

  class ApplicationContext {
    /** ApplicationData's registry of environments. */
    const registry: seq<Environment>
    /** What ProcessProxy reports as the working directory. */
    const workingDirectory: string
    /** The template file names of the configured environment type. */
    const templates: seq<string>
    /** The paths that exist on disk. */
    const existingFiles: set<string>
    /** The resolved environment; None while the typed property is still uninitialised. */
    var environment: Option<Environment>

    /** A resolved environment is always a registered one whose configuration
        files are all installed. */
    ghost predicate Valid()
      reads this
    {
      environment.Some? ==>
        environment.value in registry && ConfigurationIsValid(environment.value.location, templates, existingFiles)
    }

    constructor (registry: seq<Environment>, workingDirectory: string, templates: seq<string>, existingFiles: set<string>)
      ensures Valid()
      ensures this.registry == registry && this.workingDirectory == workingDirectory
      ensures this.templates == templates && this.existingFiles == existingFiles
      ensures environment == None
    {
      this.registry := registry;
      this.workingDirectory := workingDirectory;
      this.templates := templates;
      this.existingFiles := existingFiles;
      environment := None;
    }

    /** Resolves the environment (active one, then the named one, then the one
        at the working directory), runs the configuration gate, and only then
        stores it. */
    method LoadEnvironment(input: Input) returns (r: Result<(), LoadError>)
      requires Valid()
      modifies this
      ensures Valid()
      ensures var c := Candidate(registry, input, workingDirectory);
        c.None? ==> r == Failure(InvalidEnvironment) && environment == old(environment)
      ensures var c := Candidate(registry, input, workingDirectory);
        c.Some? && !ConfigurationIsValid(c.value.location, templates, existingFiles) ==>
          r == Failure(InvalidConfiguration) && environment == old(environment)
      ensures var c := Candidate(registry, input, workingDirectory);
        c.Some? && ConfigurationIsValid(c.value.location, templates, existingFiles) ==>
          r == Success(()) && GetActiveEnvironment() == c
    {
      // 1. the currently active environment
      var candidate := ActiveEnvironment(registry);
      // 2. the environment named by the input
      if candidate.None? && input.hasEnvironmentArgument {
        var argument := input.argument;
        if argument.StringArgument? && argument.value != "" {
          candidate := EnvironmentNamed(registry, argument.value);
        }
      }
      // 3. the environment at the working directory
      if candidate.None? {
        candidate := EnvironmentAt(registry, workingDirectory);
      }
      // 4. nothing found
      if candidate.None? {
        return Failure(InvalidEnvironment);
      }
      var check := CheckEnvironmentConfiguration(candidate.value);
      if check.Failure? {
        return check;
      }
      environment := candidate;
      r := Success(());
    }

    /** Runs the configuration-file validator on a fresh context and fails
        when it recorded any violation. */
    method CheckEnvironmentConfiguration(e: Environment) returns (r: Result<(), LoadError>)
      ensures r.Success? <==> forall f :: f in templates ==> ExpectedPath(e.location, f) in existingFiles
      ensures r.Failure? ==> r.error == InvalidConfiguration
    {
      var context := new ExecutionContext();
      var outcome := Validate(e.location, ConfigurationFilesConstraint("configuration files missing"),
                              templates, existingFiles, context);
      NoViolationsIff(e.location, templates, existingFiles);
      if |context.violations| != 0 {
        return Failure(InvalidConfiguration);
      }
      r := Success(());
    }

    /** The resolved environment (None models reading the property before it was set). */
    function GetActiveEnvironment(): (r: Option<Environment>)
      requires Valid()
      reads this
      ensures r.Some? ==> r.value in registry
      ensures r.Some? ==> forall f :: f in templates ==> ExpectedPath(r.value.location, f) in existingFiles
    {
      environment
    }

    /** `<type>_<name>` of the resolved environment, which decodes back to its
        type and name when the type holds no separator. */
    function GetProjectName(): (r: Option<string>)
      reads this
      ensures r.Some? <==> environment.Some?
      ensures r.Some? ==> r.value == ProjectName(environment.value)
      ensures environment.Some? && Separator !in environment.value.kind ==>
        SplitProjectName(r.value) == Some((environment.value.kind, environment.value.name))
    {
      match environment
      case None => None
      case Some(e) => ProjectNameDecodes(e); Some(ProjectName(e))
    }
  }
}
