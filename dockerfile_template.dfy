/** The Dockerfile.template resolver (src/resolvers/dockerfileTemplate.ts): keeps
    the last template it is given and, on resolve, substitutes the device type
    and architecture into it. */
module DockerfileTemplate {
  import opened Wrappers
  import opened Types
  import opened Paths
  import opened Template

  const Priority: int := 2
  const Name: string := "Dockerfile.template"
  const AllowSpecifiedDockerfile: bool := true

  /** The resolver's fields as a value; `None` is a field never assigned. */
  datatype State = State(
    hasDockerfileTemplate: bool,
    templateContent: Option<string>,
    dockerfileContents: Option<string>)

  function Initial(): State
  {
    State(false, None, None)
  }

  /** `needsEntry(filepath)`. */
  predicate NeedsEntry(filepath: string)
  {
    Basename(filepath) == "Dockerfile.template"
  }

  /** Effect of `entry(file)`: the template is replaced by the file's contents. */
  function AfterEntry(s: State, file: FileInfo): State
  {
    s.(templateContent := Some(file.contents), hasDockerfileTemplate := true)
  }

  predicate Satisfied(s: State)
  {
    s.hasDockerfileTemplate
  }

  /** The variables offered to the template, under both naming schemes. */
  function Variables(bundle: Bundle): map<string, string>
  {
    map["RESIN_ARCH" := bundle.architecture,
        "RESIN_MACHINE_NAME" := bundle.deviceType,
        "BALENA_ARCH" := bundle.architecture,
        "BALENA_MACHINE_NAME" := bundle.deviceType]
  }

  /** `getCanonicalName(filename)`. */
  function CanonicalName(filename: string): string
  {
    RemoveExtension(filename)
  }

  /** The `specifiedFilename` parameter with its default. */
  function FilenameOrDefault(specifiedFilename: Option<string>): string
  {
    if specifiedFilename.Some? then specifiedFilename.value else "Dockerfile"
  }

  /** `resolve(bundle, specifiedFilename)`: the new state and the one output
      file, or the error the call throws. */
  function Resolved(s: State, bundle: Bundle, specifiedFilename: Option<string>)
    : Result<(State, seq<FileInfo>), Failure>
  {
    var name := CanonicalName(FilenameOrDefault(specifiedFilename));
    match s.templateContent
    case None => Err(UndefinedRead("toString"))
    case Some(text) =>
      match Process(text, Variables(bundle))
      case Err(e) => Err(Failure.Template(e))
      case Ok(out) => Ok((s.(dockerfileContents := Some(out)), [FileInfo(name, Utf8Length(out), out)]))
  }

  function Feed(s: State, files: seq<FileInfo>): State
    decreases |files|
  {
    if files == [] then s else Feed(AfterEntry(s, files[0]), files[1..])
  }

  // ---------------------------------------------------------------------------
  // Properties

  /** A `Dockerfile.template` is wanted in any directory, and nothing else is. */
  lemma NeedsEntryAnyDirectory(dir: string)
    ensures NeedsEntry("Dockerfile.template")
    ensures NeedsEntry(dir + "/" + "Dockerfile.template")
    ensures !NeedsEntry("Dockerfile") && !NeedsEntry(dir + "/" + "Dockerfile")
  {
    BasenameInDirectory(dir, "Dockerfile.template");
    BasenameInDirectory(dir, "Dockerfile");
  }

  /** After a non-empty sequence of entries the resolver is satisfied and holds
      the last one's contents; with none it is not satisfied. */
  lemma {:induction false} FeedKeepsLast(s: State, files: seq<FileInfo>)
    ensures Satisfied(Feed(s, files)) <==> Satisfied(s) || files != []
    ensures files != [] ==> Feed(s, files).templateContent == Some(files[|files| - 1].contents)
    ensures files == [] ==> Feed(s, files) == s
    ensures Feed(s, files).dockerfileContents == s.dockerfileContents
    decreases |files|
  {
    if files != [] {
      FeedKeepsLast(AfterEntry(s, files[0]), files[1..]);
      if |files| > 1 {
        assert files[1..][|files[1..]| - 1] == files[|files| - 1];
      }
    }
  }

  /** A successful resolve yields exactly one file: named after the specified
      path without its extension (`Dockerfile` by default), holding the
      processed template, sized by its byte length; the same text becomes the
      resolver's `dockerfileContents`. */
  lemma ResolvedOutput(s: State, bundle: Bundle, spec: Option<string>)
    requires Resolved(s, bundle, spec).Ok?
    ensures var (s', files) := Resolved(s, bundle, spec).value;
      && s.templateContent.Some?
      && Process(s.templateContent.value, Variables(bundle)) == Ok(files[0].contents)
      && |files| == 1
      && files[0].name == (if spec.Some? then RemoveExtension(spec.value) else "Dockerfile")
      && files[0].size == Utf8Length(files[0].contents) >= |files[0].contents|
      && s' == s.(dockerfileContents := Some(files[0].contents))
  {
    if spec.None? {
      DefaultName();
    }
  }

  lemma DefaultName()
    ensures CanonicalName(FilenameOrDefault(None)) == "Dockerfile"
  {
    RemoveExtensionKeepsUndotted("", "Dockerfile");
    assert "" + "Dockerfile" == "Dockerfile";
  }

  /** A template whose processing fails makes resolve fail with that error and
      leaves the state as it was. */
  lemma ResolvedFails(s: State, bundle: Bundle, spec: Option<string>)
    requires s.templateContent.Some? && Process(s.templateContent.value, Variables(bundle)).Err?
    ensures Resolved(s, bundle, spec) == Err(Failure.Template(Process(s.templateContent.value, Variables(bundle)).error))
  {
  }

  /** A template that uses a token outside the four variables cannot be
      resolved: the incorrect macro is reported. */
  lemma UnknownMacroFails(s: State, bundle: Bundle, a: string, n: string, b: string)
    requires s.templateContent == Some(a + "%%" + n + "%%" + b)
    requires '%' !in a && IsName(n) && n !in Variables(bundle)
    ensures Resolved(s, bundle, None) == Err(Failure.Template(UnknownVariable(n)))
  {
    ProcessAround(a, n, b, Variables(bundle));
  }

  /** The four variable names a template may use. */
  lemma VariableNames(bundle: Bundle)
    ensures IsName("RESIN_ARCH") && IsName("BALENA_ARCH")
    ensures IsName("RESIN_MACHINE_NAME") && IsName("BALENA_MACHINE_NAME")
    ensures Variables(bundle)["RESIN_ARCH"] == Variables(bundle)["BALENA_ARCH"] == bundle.architecture
    ensures Variables(bundle)["RESIN_MACHINE_NAME"] == Variables(bundle)["BALENA_MACHINE_NAME"] == bundle.deviceType
  {
  }

  /** A template mentioning the machine name and then the architecture, under
      either naming scheme, becomes the text with the device type and the
      architecture in their places. */
  lemma MachineThenArch(head: string, middle: string, tail: string, bundle: Bundle, balena: bool)
    requires '%' !in head && '%' !in middle && '%' !in tail
    ensures var machine := if balena then "BALENA_MACHINE_NAME" else "RESIN_MACHINE_NAME";
      var arch := if balena then "BALENA_ARCH" else "RESIN_ARCH";
      Process(head + "%%" + machine + "%%" + middle + "%%" + arch + "%%" + tail, Variables(bundle))
        == Ok(head + bundle.deviceType + middle + bundle.architecture + tail)
  {
    var machine := if balena then "BALENA_MACHINE_NAME" else "RESIN_MACHINE_NAME";
    var arch := if balena then "BALENA_ARCH" else "RESIN_ARCH";
    VariableNames(bundle);
    ProcessTwo(head, machine, middle, arch, tail, Variables(bundle));
  }

  /** `getCanonicalName` strips `.template` in any directory. */
  lemma CanonicalNameStripsTemplate(prefix: string)
    requires prefix == [] || prefix[|prefix| - 1] == '/'
    ensures CanonicalName(prefix + "Dockerfile.template") == prefix + "Dockerfile"
  {
    var file := "Dockerfile.template";
    assert file == "Dockerfile" + "." + "template";
    assert prefix + "Dockerfile" + "." + "template" == prefix + file by {
      assert prefix + "Dockerfile" + "." + "template" == prefix + ("Dockerfile" + "." + "template");
    }
    RemoveExtensionStripsLast(prefix, "Dockerfile", "template");
  }

  /** A plain `Dockerfile` keeps its name in any directory. */
  lemma CanonicalNameKeepsDockerfile(prefix: string)
    requires prefix == [] || prefix[|prefix| - 1] == '/'
    ensures CanonicalName(prefix + "Dockerfile") == prefix + "Dockerfile"
  {
    RemoveExtensionKeepsUndotted(prefix, "Dockerfile");
  }

  // ---------------------------------------------------------------------------
  // The class

  class DockerfileTemplateResolver {
    var hasDockerfileTemplate: bool
    var templateContent: Option<string>
    var dockerfileContents: Option<string>

    function Model(): State
      reads this
    {
      State(hasDockerfileTemplate, templateContent, dockerfileContents)
    }

    constructor()
      ensures Model() == Initial()
    {
      hasDockerfileTemplate := false;
      templateContent := None;
      dockerfileContents := None;
    }

    method Entry(file: FileInfo)
      modifies this
      ensures Model() == AfterEntry(old(Model()), file)
    {
      templateContent := Some(file.contents);
      hasDockerfileTemplate := true;
    }

    method IsSatisfied() returns (b: bool)
      ensures b == Satisfied(Model())
    {
      b := hasDockerfileTemplate;
    }

    /** Assigns `dockerfileContents` and builds the output record. */
    method Resolve(bundle: Bundle, specifiedFilename: Option<string>)
      returns (r: Result<seq<FileInfo>, Failure>)
      modifies this
      ensures match Resolved(old(Model()), bundle, specifiedFilename)
              case Ok((s', files)) => r == Ok(files) && Model() == s'
              case Err(e) => r == Err(e) && Model() == old(Model())
    {
      ghost var expected := Resolved(Model(), bundle, specifiedFilename);
      var filename := if specifiedFilename.Some? then specifiedFilename.value else "Dockerfile";
      var dockerfile := FileInfo(CanonicalName(filename), 0, "");
      if templateContent.None? {
        return Err(UndefinedRead("toString"));
      }
      var processed := Process(templateContent.value, Variables(bundle));
      if processed.Err? {
        assert expected == Err(Failure.Template(processed.error));
        return Err(Failure.Template(processed.error));
      }
      assert expected == Ok((Model().(dockerfileContents := Some(processed.value)),
        [FileInfo(CanonicalName(filename), Utf8Length(processed.value), processed.value)]));
      dockerfileContents := Some(processed.value);
      dockerfile := dockerfile.(contents := processed.value);
      dockerfile := dockerfile.(size := Utf8Length(dockerfile.contents));
      r := Ok([dockerfile]);
    }
  }
}
