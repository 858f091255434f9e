/** The earlier Dockerfile.template resolver
    (build/resolvers/dockerfileTemplate.js): it takes only a top-level
    `Dockerfile.template`, offers the template the two `RESIN_` variables and
    always names its output `Dockerfile`. */
module EarlierTemplate {
  import opened Wrappers
  import opened Types
  import opened Template

  const Priority: int := 2
  const Name: string := "Dockerfile.template"

  /** The resolver's fields; `None` is a `templateContent` never assigned. */
  datatype State = State(hasDockerfileTemplate: bool, templateContent: Option<string>)

  function Initial(): State
  {
    State(false, None)
  }

  /** Effect of `entry(file)`: only a name exactly `Dockerfile.template`
      counts, and the last such entry's text is kept. */
  function AfterEntry(s: State, file: FileInfo): State
  {
    if file.name == "Dockerfile.template" then State(true, Some(file.contents)) else s
  }

  predicate Satisfied(s: State)
  {
    s.hasDockerfileTemplate
  }

  /** The variables offered to the template. */
  function Variables(bundle: Bundle): map<string, string>
  {
    map["RESIN_ARCH" := bundle.architecture, "RESIN_MACHINE_NAME" := bundle.deviceType]
  }

  /** `resolve(bundle)`: the one output file, or the error the returned
      promise rejects with. */
  function Resolved(s: State, bundle: Bundle): Result<seq<FileInfo>, Failure>
  {
    match s.templateContent
    case None => Err(UndefinedRead("toString"))
    case Some(text) =>
      match Process(text, Variables(bundle))
      case Err(e) => Err(Failure.Template(e))
      case Ok(out) => Ok([FileInfo("Dockerfile", Utf8Length(out), out)])
  }

  // ---------------------------------------------------------------------------
  // Properties

  /** Only a top-level `Dockerfile.template` is taken; one in a directory is
      ignored. */
  lemma EntryTopLevelOnly(s: State, dir: string, file: FileInfo)
    ensures file.name == "Dockerfile.template" ==> AfterEntry(s, file) == State(true, Some(file.contents))
    ensures file.name == dir + "/Dockerfile.template" ==> AfterEntry(s, file) == s
  {
    if file.name == dir + "/Dockerfile.template" {
      assert |file.name| > |"Dockerfile.template"|;
    }
  }

  /** A resolved template yields exactly one file, named `Dockerfile`, holding
      the processed text and sized by its byte length; a failed processing
      rejects with the template's error. */
  lemma ResolvedOutput(s: State, bundle: Bundle)
    requires s.templateContent.Some?
    ensures var p := Process(s.templateContent.value, Variables(bundle));
      && (p.Ok? ==> Resolved(s, bundle) == Ok([FileInfo("Dockerfile", Utf8Length(p.value), p.value)]))
      && (p.Err? ==> Resolved(s, bundle) == Err(Failure.Template(p.error)))
      && (p.Ok? ==> Utf8Length(p.value) >= |p.value|)
  {
  }

  /** The machine name and architecture are substituted under their `RESIN_`
      names. */
  lemma ResinSubstituted(head: string, middle: string, tail: string, bundle: Bundle)
    requires '%' !in head && '%' !in middle && '%' !in tail
    ensures Process(head + "%%" + "RESIN_MACHINE_NAME" + "%%" + middle + "%%" + "RESIN_ARCH" + "%%" + tail,
                    Variables(bundle))
         == Ok(head + bundle.deviceType + middle + bundle.architecture + tail)
  {
    var machine, arch := "RESIN_MACHINE_NAME", "RESIN_ARCH";
    assert IsName(machine) && IsName(arch);
    assert Variables(bundle)[machine] == bundle.deviceType && Variables(bundle)[arch] == bundle.architecture;
    ProcessTwo(head, machine, middle, arch, tail, Variables(bundle));
  }

  /** The `BALENA_` names are not offered: a template using one cannot be
      resolved. */
  lemma BalenaRejected(s: State, bundle: Bundle, a: string, b: string, balena: bool)
    requires '%' !in a
    requires s.templateContent == Some(a + "%%" + (if balena then "BALENA_ARCH" else "BALENA_MACHINE_NAME") + "%%" + b)
    ensures Resolved(s, bundle)
         == Err(Failure.Template(UnknownVariable(if balena then "BALENA_ARCH" else "BALENA_MACHINE_NAME")))
  {
    var n := if balena then "BALENA_ARCH" else "BALENA_MACHINE_NAME";
    assert IsName(n);
    assert n !in Variables(bundle);
    ProcessAround(a, n, b, Variables(bundle));
  }

  // ---------------------------------------------------------------------------
  // The class

  class DockerfileTemplateResolver {
    var hasDockerfileTemplate: bool
    var templateContent: Option<string>

    function Model(): State
      reads this
    {
      State(hasDockerfileTemplate, templateContent)
    }

    constructor()
      ensures Model() == Initial()
    {
      hasDockerfileTemplate := false;
      templateContent := None;
    }

    method Entry(file: FileInfo)
      modifies this
      ensures Model() == AfterEntry(old(Model()), file)
    {
      if file.name == "Dockerfile.template" {
        templateContent := Some(file.contents);
        hasDockerfileTemplate := true;
      }
    }

    method IsSatisfied() returns (b: bool)
      ensures b == Satisfied(Model())
    {
      b := hasDockerfileTemplate;
    }

    /** Builds the output record and fills in its contents and size. */
    method Resolve(bundle: Bundle) returns (r: Result<seq<FileInfo>, Failure>)
      ensures r == Resolved(Model(), bundle)
    {
      var dockerfile := FileInfo("Dockerfile", 0, "");
      if templateContent.None? {
        return Err(UndefinedRead("toString"));
      }
      var processed := Process(templateContent.value, Variables(bundle));
      if processed.Err? {
        return Err(Failure.Template(processed.error));
      }
      dockerfile := dockerfile.(contents := processed.value);
      dockerfile := dockerfile.(size := Utf8Length(dockerfile.contents));
      r := Ok([dockerfile]);
    }
  }
}
