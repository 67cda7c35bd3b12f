/** The managed environment record and the names derived from it. */
module Environments {
  import opened Wrappers

  /** One managed project. `kind` is the environment's `type` (a template set
      such as "symfony" or "magento2"); `type` is a reserved word in Dafny. */
  datatype Environment = Environment(name: string, location: string, kind: string, active: bool)

  /** Separator between the type and the name in a project name. */
  const Separator: char := '_'

  /** The Compose project name of an environment, `<type>_<name>`. */
  function ProjectName(e: Environment): (r: string)
    ensures |r| == |e.kind| + 1 + |e.name| && r[|e.kind|] == Separator
    ensures r[..|e.kind|] == e.kind && r[|e.kind| + 1..] == e.name
  {
    e.kind + [Separator] + e.name
  }

  /** Splits a project name at its first separator into type and name; None
      when there is no separator. */
  function SplitProjectName(p: string): (r: Option<(string, string)>)
    ensures r.Some? ==> r.value.0 + [Separator] + r.value.1 == p && Separator !in r.value.0
    ensures r.None? <==> Separator !in p
  {
    if p == [] then None
    else if p[0] == Separator then Some(([], p[1..]))
    else match SplitProjectName(p[1..])
      case None => None
      case Some(parts) => Some(([p[0]] + parts.0, parts.1))
  }

  /** Decoding a project name gives back the type and the name, provided the
      type does not itself contain the separator (the name may). */
  lemma {:induction false} ProjectNameRoundTrip(e: Environment)
    requires Separator !in e.kind
    ensures SplitProjectName(ProjectName(e)) == Some((e.kind, e.name))
    decreases |e.kind|
  {
    var p := ProjectName(e);
    if e.kind != [] {
      var rest := Environment(e.name, e.location, e.kind[1..], e.active);
      assert p[0] == e.kind[0] != Separator;
      assert p[1..] == ProjectName(rest);
      ProjectNameRoundTrip(rest);
      assert [e.kind[0]] + rest.kind == e.kind;
    }
  }

  /** The round trip as an implication, for callers that cannot require it. */
  lemma ProjectNameDecodes(e: Environment)
    ensures Separator !in e.kind ==> SplitProjectName(ProjectName(e)) == Some((e.kind, e.name))
  {
    if Separator !in e.kind {
      ProjectNameRoundTrip(e);
    }
  }

  /** Two environments whose types contain no separator share a project name
      only when they share both type and name. */
  lemma ProjectNameInjective(e1: Environment, e2: Environment)
    requires Separator !in e1.kind && Separator !in e2.kind
    requires ProjectName(e1) == ProjectName(e2)
    ensures e1.kind == e2.kind && e1.name == e2.name
  {
    ProjectNameRoundTrip(e1);
    ProjectNameRoundTrip(e2);
  }

  /** Without that restriction the project name is ambiguous: type "a_b" with
      name "c" and type "a" with name "b_c" both give "a_b_c". */
  lemma ProjectNameAmbiguousWithSeparatorInType()
    ensures ProjectName(Environment("c", "/x", "a_b", false))
         == ProjectName(Environment("b_c", "/y", "a", false))
  {
  }

  /** The directory under a location that holds the installed configuration. */
  function InstallDirectory(location: string): string {
    location + "/var/docker"
  }

  /** The variables handed to Compose and to the synchronisation tool. */
  function ComposeVariables(e: Environment, phpImage: string): (vars: map<string, string>)
    ensures vars.Keys == {"COMPOSE_FILE", "COMPOSE_PROJECT_NAME", "DOCKER_PHP_IMAGE", "PROJECT_LOCATION"}
  {
    map[
      "COMPOSE_FILE" := InstallDirectory(e.location) + "/docker-compose.yml",
      "COMPOSE_PROJECT_NAME" := ProjectName(e),
      "DOCKER_PHP_IMAGE" := phpImage,
      "PROJECT_LOCATION" := e.location
    ]
  }

  /** Reading COMPOSE_PROJECT_NAME back out of the variables recovers the
      environment's type and name. */
  lemma ComposeVariablesRoundTrip(e: Environment, phpImage: string)
    requires Separator !in e.kind
    ensures SplitProjectName(ComposeVariables(e, phpImage)["COMPOSE_PROJECT_NAME"]) == Some((e.kind, e.name))
    ensures ComposeVariables(e, phpImage)["PROJECT_LOCATION"] == e.location
  {
    ProjectNameRoundTrip(e);
  }
}
