/** The configuration-file gate (`ConfigurationFilesValidator`): every template
    file of the environment type must have been installed under
    `<location>/var/docker/`. The template listing and the filesystem are
    inputs: a sequence of file names and the set of paths that exist. */
module ConfigurationFiles {
  import opened Wrappers
  import opened Strings

  /** The constraint handed to the validator; only ConfigurationFiles is accepted. */
  datatype Constraint = ConfigurationFilesConstraint(message: string) | OtherConstraint(className: string)

  datatype Violation = Violation(message: string)

  /** Symfony's UnexpectedTypeException, carrying the refused constraint. */
  datatype UnexpectedType = UnexpectedType(given: Constraint)

  /** Prefix that marks a template meant to be customised; it is dropped from the installed name. */
  const CustomPrefix: string := "custom-"

  /** Where a template file is expected once installed: `<location>/var/docker/<file>`
      with every occurrence of the custom prefix removed from the whole path. */
  function ExpectedPath(location: string, filename: string): (r: string)
    ensures |r| <= |location| + |"/var/docker/"| + |filename|
  {
    RemoveAll(location + "/var/docker/" + filename, CustomPrefix)
  }

  /** A `custom-<x>` template is checked against the same path as `<x>`. */
  lemma CustomTemplateMapsToPlainName(location: string, x: string)
    ensures ExpectedPath(location, CustomPrefix + x) == ExpectedPath(location, x)
  {
    var dir := location + "/var/docker/";
    assert dir[|dir| - 1] == '/';
    RemoveAllConcat(dir, CustomPrefix + x, CustomPrefix);
    RemoveAllConcat(dir, x, CustomPrefix);
    RemoveAllLeading(CustomPrefix, x);
    assert dir + (CustomPrefix + x) == location + "/var/docker/" + (CustomPrefix + x);
  }

  /** A location that holds no occurrence of the prefix is kept as it is, and
      only the file name is rewritten. */
  lemma ExpectedPathSplits(location: string, filename: string)
    requires !Contains(location + "/var/docker/", CustomPrefix)
    ensures ExpectedPath(location, filename) == location + "/var/docker/" + RemoveAll(filename, CustomPrefix)
  {
    var dir := location + "/var/docker/";
    assert dir[|dir| - 1] == '/';
    RemoveAllConcat(dir, filename, CustomPrefix);
    RemoveAllAbsent(dir, CustomPrefix);
  }

  /** The removal runs over the whole path, so a location that itself contains
      the prefix is rewritten too: for a location `/srv/custom-app` the files
      are looked for under `/srv/app/var/docker/`. */
  lemma LocationWithPrefixIsRewritten(parent: string, project: string, filename: string)
    requires parent != [] && parent[|parent| - 1] == '/' && !Contains(parent, CustomPrefix)
    requires !Contains(project + "/var/docker/" + filename, CustomPrefix)
    ensures ExpectedPath(parent + CustomPrefix + project, filename) == parent + project + "/var/docker/" + filename
  {
    var tail := project + "/var/docker/" + filename;
    var location := parent + CustomPrefix + project;
    assert location + "/var/docker/" + filename == parent + (CustomPrefix + tail);
    calc {
      ExpectedPath(location, filename);
      RemoveAll(parent + (CustomPrefix + tail), CustomPrefix);
      { RemoveAllConcat(parent, CustomPrefix + tail, CustomPrefix); }
      RemoveAll(parent, CustomPrefix) + RemoveAll(CustomPrefix + tail, CustomPrefix);
      { RemoveAllAbsent(parent, CustomPrefix); RemoveAllLeading(CustomPrefix, tail); }
      parent + RemoveAll(tail, CustomPrefix);
      { RemoveAllAbsent(tail, CustomPrefix); }
      parent + tail;
    }
    assert parent + tail == parent + project + "/var/docker/" + filename;
  }

  /** The template files whose expected path is missing, in listing order. */
  function MissingFiles(location: string, templates: seq<string>, existing: set<string>): (r: seq<string>)
    ensures |r| <= |templates|
    ensures forall f :: f in r <==> f in templates && ExpectedPath(location, f) !in existing
    ensures forall f :: multiset(r)[f] == if ExpectedPath(location, f) in existing then 0 else multiset(templates)[f]
  {
    if templates == [] then []
    else
      var init := MissingFiles(location, templates[..|templates| - 1], existing);
      var last := templates[|templates| - 1];
      assert templates == templates[..|templates| - 1] + [last];
      assert multiset(templates) == multiset(templates[..|templates| - 1]) + multiset{last};
      if ExpectedPath(location, last) in existing then init else init + [last]
  }

  /** How many templates miss their expected path, counted one by one. */
  function MissingCount(location: string, templates: seq<string>, existing: set<string>): nat {
    if templates == [] then 0
    else
      var last := templates[|templates| - 1];
      MissingCount(location, templates[..|templates| - 1], existing) + (if ExpectedPath(location, last) in existing then 0 else 1)
  }

  /** The count is the number of files MissingFiles lists. */
  lemma {:induction false} MissingCountIsLength(location: string, templates: seq<string>, existing: set<string>)
    ensures MissingCount(location, templates, existing) == |MissingFiles(location, templates, existing)|
  {
    if templates != [] {
      MissingCountIsLength(location, templates[..|templates| - 1], existing);
    }
  }

  /** There are no violations exactly when every template's expected path exists. */
  lemma NoViolationsIff(location: string, templates: seq<string>, existing: set<string>)
    ensures |MissingFiles(location, templates, existing)| == 0
        <==> forall f :: f in templates ==> ExpectedPath(location, f) in existing
  {
    var m := MissingFiles(location, templates, existing);
    if |m| > 0 {
      assert m[0] in m;
    }
  }

  /** The result `validateConfigurationFiles` reports for an environment: the
      validator recorded no violation. */
  function ConfigurationIsValid(location: string, templates: seq<string>, existing: set<string>): (ok: bool)
    ensures ok <==> forall f :: f in templates ==> ExpectedPath(location, f) in existing
  {
    NoViolationsIff(location, templates, existing);
    |MissingFiles(location, templates, existing)| == 0
  }

  /** `n` copies of the constraint's violation. */
  function Violations(message: string, n: nat): (r: seq<Violation>)
    ensures |r| == n && forall i :: 0 <= i < n ==> r[i] == Violation(message)
  {
    seq(n, _ => Violation(message))
  }

  /** Symfony's execution context: the violations recorded so far. */
  class ExecutionContext {
    var violations: seq<Violation>

    constructor ()
      ensures violations == []
    {
      violations := [];
    }

    method AddViolation(message: string)
      modifies this
      ensures violations == old(violations) + [Violation(message)]
    {
      violations := violations + [Violation(message)];
    }
  }

  /** Checks every template file and adds one violation per missing expected
      path to `context`; it only reads `existing` and changes nothing else. */
  method Validate(location: string, constraint: Constraint, templates: seq<string>, existing: set<string>,
                  context: ExecutionContext)
    returns (r: Result<(), UnexpectedType>)
    modifies context
    ensures constraint.OtherConstraint? ==>
      r == Failure(UnexpectedType(constraint)) && context.violations == old(context.violations)
    ensures constraint.ConfigurationFilesConstraint? ==> r == Success(())
    ensures constraint.ConfigurationFilesConstraint? ==>
      context.violations == old(context.violations)
        + Violations(constraint.message, |MissingFiles(location, templates, existing)|)
  {
    if !constraint.ConfigurationFilesConstraint? {
      return Failure(UnexpectedType(constraint));
    }
    var i := 0;
    while i < |templates|
      invariant 0 <= i <= |templates|
      invariant context.violations == old(context.violations)
        + Violations(constraint.message, MissingCount(location, templates[..i], existing))
    {
      assert templates[..i + 1][..i] == templates[..i];
      ghost var n := MissingCount(location, templates[..i], existing);
      var filename := RemoveAll(location + "/var/docker/" + templates[i], CustomPrefix);
      if filename !in existing {
        context.AddViolation(constraint.message);
        assert Violations(constraint.message, n + 1) == Violations(constraint.message, n) + [Violation(constraint.message)];
      }
      i := i + 1;
    }
    assert templates[..i] == templates;
    MissingCountIsLength(location, templates, existing);
    r := Success(());
  }
}
