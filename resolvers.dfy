/** The `Resolver` interface of src/resolver.ts over the four resolvers of
    src/resolvers/. The interface is closed here: a resolver is one of the four
    classes, seen as a value (`ResolverState`) or as an object (`Resolver`).

    src/index.ts calls members (`needsEntry`, `allowSpecifiedDockerfile`,
    `getCanonicalName`, `dockerfileContents`) that only the template resolver
    defines. Where a class lacks one, the model does what JavaScript does with
    the missing member: a property read yields `undefined` (`None`, or `false`
    where it is tested for truth) and a method call throws a TypeError
    (`MissingMember`). */
module Resolvers {
  import opened Wrappers
  import opened Types
  import opened Paths
  import StandardDockerfile
  import DockerfileTemplate
  import ArchDockerfile
  import NodeProject
  import Template

  /** A resolver's fields, by class. */
  datatype ResolverState =
    | Standard(std: StandardDockerfile.State)
    | Templated(tpl: DockerfileTemplate.State)
    | ArchSpecific(arch: ArchDockerfile.State)
    | Node(node: NodeProject.State)

  /** `priority`: a higher one is tried first. */
  function Priority(r: ResolverState): int
  {
    match r
    case Standard(_) => StandardDockerfile.Priority
    case Templated(_) => DockerfileTemplate.Priority
    case ArchSpecific(_) => ArchDockerfile.Priority
    case Node(_) => NodeProject.Priority
  }

  /** `name`: the project type reported for a resolver. */
  function Name(r: ResolverState): string
  {
    match r
    case Standard(_) => StandardDockerfile.Name
    case Templated(_) => DockerfileTemplate.Name
    case ArchSpecific(_) => ArchDockerfile.Name
    case Node(_) => NodeProject.Name
  }

  /** `allowSpecifiedDockerfile`, read for its truth value. */
  predicate AllowsSpecifiedDockerfile(r: ResolverState)
  {
    r.Templated? && DockerfileTemplate.AllowSpecifiedDockerfile
  }

  /** `r.needsEntry(name)`; the call throws where the class has no such method. */
  function NeedsEntry(r: ResolverState, name: string): Result<bool, Failure>
  {
    if r.Templated? then Ok(DockerfileTemplate.NeedsEntry(name))
    else Err(MissingMember("r.needsEntry"))
  }

  /** `entry(file)`. */
  function AfterEntry(r: ResolverState, file: FileInfo): ResolverState
  {
    match r
    case Standard(s) => Standard(StandardDockerfile.AfterEntry(s, file))
    case Templated(s) => Templated(DockerfileTemplate.AfterEntry(s, file))
    case ArchSpecific(s) => ArchSpecific(ArchDockerfile.AfterEntry(s, file))
    case Node(s) => Node(NodeProject.AfterEntry(s, file))
  }

  /** `isSatisfied(bundle)`: the new fields and the answer. Only the
      architecture-specific resolver changes its fields when asked. */
  function Checked(r: ResolverState, bundle: Bundle): (ResolverState, bool)
  {
    match r
    case Standard(s) => (r, StandardDockerfile.Satisfied(s))
    case Templated(s) => (r, DockerfileTemplate.Satisfied(s))
    case ArchSpecific(s) =>
      var (s', b) := ArchDockerfile.Checked(s, bundle);
      (ArchSpecific(s'), b)
    case Node(s) => (r, NodeProject.Satisfied(s))
  }

  /** `resolve(bundle, specifiedPath)`: the new fields and the files to add, or
      the failure the call raises. Only the template resolver reads the path. */
  function Resolved(r: ResolverState, bundle: Bundle, specifiedPath: Option<string>,
                    parse: string -> Result<NodeProject.Json, string>)
    : Result<(ResolverState, seq<FileInfo>), Failure>
  {
    match r
    case Standard(s) => Ok((r, []))
    case Templated(s) =>
      (match DockerfileTemplate.Resolved(s, bundle, specifiedPath)
       case Ok((s', files)) => Ok((Templated(s'), files))
       case Err(e) => Err(e))
    case ArchSpecific(s) =>
      (match ArchDockerfile.Resolved(s)
       case Ok(files) => Ok((r, files))
       case Err(e) => Err(e))
    case Node(s) =>
      (match NodeProject.Resolved(s, bundle, parse)
       case Ok((s', files)) => Ok((Node(s'), files))
       case Err(e) => Err(e))
  }

  /** `resolver.getCanonicalName(path)`; the call throws where the class has
      no such method. */
  function CanonicalName(r: ResolverState, path: string): Result<string, Failure>
  {
    if r.Templated? then Ok(DockerfileTemplate.CanonicalName(path))
    else Err(MissingMember("resolver.getCanonicalName"))
  }

  /** `resolver.dockerfileContents`. */
  function DockerfileContents(r: ResolverState): Option<string>
  {
    if r.Templated? then r.tpl.dockerfileContents else None
  }

  /** The fields of `getDefaultResolvers()`, in its order. */
  function Defaults(): seq<ResolverState>
  {
    [Standard(StandardDockerfile.Initial()), Templated(DockerfileTemplate.Initial()),
     ArchSpecific(ArchDockerfile.Initial()), Node(NodeProject.Initial())]
  }

  // ---------------------------------------------------------------------------
  // Properties of the interface as the four classes implement it

  /** The default list: priorities 0, 2, 1, 0 and the names the classes
      declare; only the template resolver accepts a specified Dockerfile. */
  lemma DefaultsShape()
    ensures |Defaults()| == 4
    ensures Priority(Defaults()[0]) == 0 && Priority(Defaults()[1]) == 2
    ensures Priority(Defaults()[2]) == 1 && Priority(Defaults()[3]) == 0
    ensures Name(Defaults()[0]) == "Standard Dockerfile" && Name(Defaults()[1]) == "Dockerfile.template"
    ensures Name(Defaults()[2]) == "Archicture-specific Dockerfile" && Name(Defaults()[3]) == "NodeJS"
    ensures forall i :: 0 <= i < 4 ==> (AllowsSpecifiedDockerfile(Defaults()[i]) <==> i == 1)
  {
  }

  /** Only the template resolver can be asked `needsEntry`: it wants exactly
      the entries whose basename is `Dockerfile.template`. */
  lemma NeedsEntryDefined(r: ResolverState, name: string)
    ensures NeedsEntry(r, name).Ok? <==> r.Templated?
    ensures NeedsEntry(r, name) == Ok(true) <==> r.Templated? && Basename(name) == "Dockerfile.template"
  {
  }

  /** `getCanonicalName('./build/Dockerfile.template')` is `'./build/Dockerfile'`
      in any directory; on the other classes the call fails. */
  lemma CanonicalNameRemovesExtension(r: ResolverState, dir: string)
    requires dir == [] || dir[|dir| - 1] == '/'
    ensures r.Templated? ==> CanonicalName(r, dir + "Dockerfile.template") == Ok(dir + "Dockerfile")
    ensures !r.Templated? ==> CanonicalName(r, dir + "Dockerfile.template").Err?
  {
    DockerfileTemplate.CanonicalNameStripsTemplate(dir);
  }

  /** Asking a resolver whether it is satisfied changes nothing but the
      architecture-specific resolver's slots, and never its class. */
  lemma CheckedKeepsClass(r: ResolverState, bundle: Bundle)
    ensures Priority(Checked(r, bundle).0) == Priority(r) && Name(Checked(r, bundle).0) == Name(r)
    ensures !r.ArchSpecific? ==> Checked(r, bundle).0 == r
  {
  }

  /** Resolving never changes a resolver's class, and the standard resolver
      adds no files. */
  lemma ResolvedKeepsClass(r: ResolverState, bundle: Bundle, path: Option<string>,
                           parse: string -> Result<NodeProject.Json, string>)
    ensures Resolved(r, bundle, path, parse).Ok? ==>
      Priority(Resolved(r, bundle, path, parse).value.0) == Priority(r) &&
      Name(Resolved(r, bundle, path, parse).value.0) == Name(r)
    ensures r.Standard? ==> Resolved(r, bundle, path, parse) == Ok((r, []))
  {
  }

  /** A template resolver given a file and then resolved against a specified
      path: the file's contents are processed, and the output is named after
      the path without its extension; a template error is raised as is. */
  lemma TemplateEntryThenResolve(t: DockerfileTemplate.State, file: FileInfo, bundle: Bundle, path: string,
                                 parse: string -> Result<NodeProject.Json, string>)
    ensures Resolved(AfterEntry(Templated(t), file), bundle, Some(path), parse)
      == match Template.Process(file.contents, DockerfileTemplate.Variables(bundle))
         case Err(te) => Err(Failure.Template(te))
         case Ok(out) =>
           Ok((Templated(DockerfileTemplate.State(true, Some(file.contents), Some(out))),
               [FileInfo(RemoveExtension(path), Utf8Length(out), out)]))
  {
  }

  // ---------------------------------------------------------------------------
  // Resolver objects

  /** A resolver object: a reference to an instance of one of the classes. */
  datatype Resolver =
    | StandardObj(std: StandardDockerfile.DockerfileResolver)
    | TemplateObj(tpl: DockerfileTemplate.DockerfileTemplateResolver)
    | ArchObj(arch: ArchDockerfile.ArchDockerfileResolver)
    | NodeObj(node: NodeProject.NodeResolver)
  {
    function Obj(): object
    {
      match this
      case StandardObj(o) => o
      case TemplateObj(o) => o
      case ArchObj(o) => o
      case NodeObj(o) => o
    }

    function State(): ResolverState
      reads Obj()
    {
      match this
      case StandardObj(o) => Standard(o.Model())
      case TemplateObj(o) => Templated(o.Model())
      case ArchObj(o) => ArchSpecific(o.Model())
      case NodeObj(o) => Node(o.Model())
    }

    method Entry(file: FileInfo)
      modifies Obj()
      ensures State() == AfterEntry(old(State()), file)
    {
      match this
      case StandardObj(o) => o.Entry(file);
      case TemplateObj(o) => o.Entry(file);
      case ArchObj(o) => o.Entry(file);
      case NodeObj(o) => o.Entry(file);
    }

    method IsSatisfied(bundle: Bundle) returns (b: bool)
      modifies Obj()
      ensures (State(), b) == Checked(old(State()), bundle)
    {
      match this
      case StandardObj(o) => b := o.IsSatisfied();
      case TemplateObj(o) => b := o.IsSatisfied();
      case ArchObj(o) => b := o.IsSatisfied(bundle);
      case NodeObj(o) => b := o.IsSatisfied();
    }

    method Resolve(bundle: Bundle, specifiedPath: Option<string>,
                   parse: string -> Result<NodeProject.Json, string>)
      returns (r: Result<seq<FileInfo>, Failure>)
      modifies Obj()
      ensures match Resolved(old(State()), bundle, specifiedPath, parse)
              case Ok((s', files)) => r == Ok(files) && State() == s'
              case Err(e) => r == Err(e) && State() == old(State())
    {
      match this
      case StandardObj(o) =>
        var files := o.Resolve();
        r := Ok(files);
      case TemplateObj(o) => r := o.Resolve(bundle, specifiedPath);
      case ArchObj(o) => r := o.Resolve();
      case NodeObj(o) => r := o.Resolve(bundle, parse);
    }
  }

  /** No object appears twice in the list. */
  predicate Distinct(rs: seq<Resolver>)
  {
    forall i, j :: 0 <= i < j < |rs| ==> rs[i].Obj() != rs[j].Obj()
  }

  function Objects(rs: seq<Resolver>): set<object>
  {
    set i | 0 <= i < |rs| :: rs[i].Obj()
  }

  /** `getDefaultResolvers()`: four new objects, in the default order. */
  method GetDefaultResolvers() returns (rs: seq<Resolver>)
    ensures |rs| == 4 && Distinct(rs)
    ensures forall i :: 0 <= i < 4 ==> fresh(rs[i].Obj()) && rs[i].State() == Defaults()[i]
  {
    var standard := new StandardDockerfile.DockerfileResolver();
    var template := new DockerfileTemplate.DockerfileTemplateResolver();
    var arch := new ArchDockerfile.ArchDockerfileResolver();
    var node := new NodeProject.NodeResolver();
    rs := [StandardObj(standard), TemplateObj(template), ArchObj(arch), NodeObj(node)];
  }
}
