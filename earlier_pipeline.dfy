/** `resolveBundle` of build/index.js as the program runs it: resolver objects
    whose fields change in place and an output archive that entries and hook
    calls are appended to. Each step is proved to do what the corresponding
    function of `EarlierEngine` says, so the properties proved there hold of
    this code. */
module EarlierPipeline {
  import opened Wrappers
  import opened Types
  import opened Ordering
  import opened EarlierEngine
  import EarlierDockerfile
  import EarlierTemplate
  import ArchDockerfile
  import EarlierNode

  /** A resolver object: a reference to an instance of one of the classes of
      build/resolvers/. */
  datatype Resolver =
    | StandardObj(std: EarlierDockerfile.DockerfileResolver)
    | TemplateObj(tpl: EarlierTemplate.DockerfileTemplateResolver)
    | ArchObj(arch: ArchDockerfile.ArchDockerfileResolver)
    | NodeObj(node: EarlierNode.NodeResolver)
  {
    function Obj(): object
    {
      match this
      case StandardObj(o) => o
      case TemplateObj(o) => o
      case ArchObj(o) => o
      case NodeObj(o) => o
    }

    function State(): ResolverState
      reads Obj()
    {
      match this
      case StandardObj(o) => Standard(o.Model())
      case TemplateObj(o) => Templated(o.Model())
      case ArchObj(o) => ArchSpecific(o.Model())
      case NodeObj(o) => Node(o.Model())
    }

    method Entry(file: FileInfo)
      modifies Obj()
      ensures State() == AfterEntry(old(State()), file)
    {
      match this
      case StandardObj(o) => o.Entry(file);
      case TemplateObj(o) => o.Entry(file);
      case ArchObj(o) => o.Entry(file);
      case NodeObj(o) => o.Entry(file);
    }

    method IsSatisfied(bundle: Bundle) returns (b: bool)
      modifies Obj()
      ensures (State(), b) == Checked(old(State()), bundle)
    {
      match this
      case StandardObj(o) => b := o.IsSatisfied();
      case TemplateObj(o) => b := o.IsSatisfied();
      case ArchObj(o) => b := o.IsSatisfied(bundle);
      case NodeObj(o) => b := o.IsSatisfied();
    }

    method Resolve(bundle: Bundle) returns (r: Result<seq<FileInfo>, Failure>)
      ensures r == Resolved(State(), bundle)
    {
      match this
      case StandardObj(o) =>
        var files := o.Resolve();
        r := Ok(files);
      case TemplateObj(o) => r := o.Resolve(bundle);
      case ArchObj(o) => r := o.Resolve();
      case NodeObj(o) =>
        var files := o.Resolve(bundle);
        r := Ok(files);
    }
  }

  /** No object appears twice in the list. */
  predicate Distinct(rs: seq<Resolver>)
  {
    forall i, j :: 0 <= i < j < |rs| ==> rs[i].Obj() != rs[j].Obj()
  }

  function Objects(rs: seq<Resolver>): set<object>
  {
    set i | 0 <= i < |rs| :: rs[i].Obj()
  }

  /** The fields of each resolver of the list. */
  function States(rs: seq<Resolver>): (s: seq<ResolverState>)
    reads Objects(rs)
    ensures |s| == |rs|
  {
    seq(|rs|, i requires 0 <= i < |rs| reads Objects(rs) => rs[i].State())
  }

  /** The output archive (`tar.pack()`): everything the run writes, in order,
      with the calls of the bundle's Dockerfile hook where they are made. */
  class Pack {
    var trace: seq<Event>

    /** `tar.pack()`: an empty output, apart from the resolvers `rs`. */
    constructor(ghost rs: seq<Resolver>)
      ensures trace == [] && this !in Objects(rs) && States(rs) == old(States(rs))
    {
      trace := [];
    }

    /** `pack.entry(header, contents)`; the resolvers `rs` are not touched. */
    method Entry(header: Header, contents: string, ghost rs: seq<Resolver>)
      requires this !in Objects(rs)
      modifies this
      ensures trace == old(trace) + [Written(header, contents)]
      ensures States(rs) == old(States(rs))
    {
      trace := trace + [Written(header, contents)];
    }

    /** `bundle.callDockerfileHook(contents)`. */
    method CallHook(contents: Option<string>, ghost rs: seq<Resolver>)
      requires this !in Objects(rs)
      modifies this
      ensures trace == old(trace) + [HookCalled(contents)]
      ensures States(rs) == old(States(rs))
    {
      trace := trace + [HookCalled(contents)];
    }

    /** `pack.finalize()`. */
    method Finalize(ghost rs: seq<Resolver>)
      requires this !in Objects(rs)
      modifies this
      ensures trace == old(trace) + [Finalized]
      ensures States(rs) == old(States(rs))
    {
      trace := trace + [Finalized];
    }
  }

  /** `resolveBundle(bundle, resolvers)`: the archive's entries are read one
      at a time, then the finish handler searches for a resolver and, when
      one is found, adds its files. What the objects end up holding and how
      the promise settles is what `EarlierEngine.ResolveBundle` says. */
  method ResolveBundle(bundle: Bundle, rs: seq<Resolver>, es: seq<TarEntry>)
    returns (pack: Pack, result: Result<string, Failure>)
    requires Distinct(rs)
    modifies Objects(rs)
    ensures fresh(pack)
    ensures var o := EarlierEngine.ResolveBundle(bundle, old(States(rs)), es);
      && States(rs) == o.resolvers && pack.trace == o.trace && result == o.result
  {
    ghost var initial := States(rs);
    pack := new Pack(rs);
    ReadArchive(rs, pack, es);
    ghost var fed := States(rs);
    var found := FindSatisfied(rs, bundle);
    ghost var search := Find(fed, bundle);
    result := FinishWith(bundle, rs, pack, found, es);
    assert EarlierEngine.ResolveBundle(bundle, initial, es) == Finish(bundle, search, es);
  }

  /** The entry handler, for each entry in turn: the entry is copied to the
      output and its FileInfo given to every resolver. */
  method ReadArchive(rs: seq<Resolver>, pack: Pack, es: seq<TarEntry>)
    requires Distinct(rs) && pack !in Objects(rs) && pack.trace == []
    modifies Objects(rs), pack
    ensures States(rs) == FedAll(old(States(rs)), es) && pack.trace == Copied(es)
  {
    ghost var initial := States(rs);
    var k := 0;
    while k < |es|
      invariant k <= |es|
      invariant States(rs) == FedAll(initial, es[..k]) && pack.trace == Copied(es[..k])
    {
      pack.Entry(es[k].header, es[k].contents, rs);
      var info := Info(es[k]);
      GiveAll(rs, info);
      Copied1(es, k);
      Fed1(initial, es, k);
      k := k + 1;
    }
    assert es[..k] == es;
  }

  lemma Copied1(es: seq<TarEntry>, k: nat)
    requires k < |es|
    ensures Copied(es[..k + 1]) == Copied(es[..k]) + [Written(es[k].header, es[k].contents)]
  {
    assert Copied(es[..k + 1])[..k] == Copied(es[..k]);
  }

  lemma Fed1(rs: seq<ResolverState>, es: seq<TarEntry>, k: nat)
    requires k < |es|
    ensures FedAll(rs, es[..k + 1])
         == seq(|rs|, i requires 0 <= i < |rs| => AfterEntry(FedAll(rs, es[..k])[i], Info(es[k])))
  {
    assert es[..k + 1][..k] == es[..k];
  }

  /** `resolvers.map(resolver => resolver.entry(info))`: every resolver is
      given the file once. */
  method GiveAll(rs: seq<Resolver>, file: FileInfo)
    requires Distinct(rs)
    modifies Objects(rs)
    ensures States(rs) == seq(|rs|, i requires 0 <= i < |rs| => AfterEntry(old(States(rs))[i], file))
  {
    ghost var before := States(rs);
    var k := 0;
    while k < |rs|
      invariant k <= |rs|
      invariant |States(rs)| == |rs|
      invariant forall i :: 0 <= i < |rs| ==>
        States(rs)[i] == if i < k then AfterEntry(before[i], file) else before[i]
    {
      GiveAt(rs, k, file);
      k := k + 1;
    }
  }

  /** `rs[i].entry(file)`: the others keep their fields. */
  method GiveAt(rs: seq<Resolver>, i: nat, file: FileInfo)
    requires Distinct(rs) && i < |rs|
    modifies rs[i].Obj()
    ensures States(rs) == old(States(rs))[i := AfterEntry(old(States(rs))[i], file)]
  {
    ghost var before := States(rs);
    rs[i].Entry(file);
    forall j | 0 <= j < |rs| && j != i ensures rs[j].State() == before[j] {
      assert rs[j].Obj() != rs[i].Obj();
    }
  }

  /** `_(resolvers).orderBy(priority, ['desc']).find(r => r.isSatisfied(bundle))`:
      the resolvers are asked in the sorted order until one is satisfied. */
  method FindSatisfied(rs: seq<Resolver>, bundle: Bundle) returns (found: Option<nat>)
    requires Distinct(rs)
    modifies Objects(rs)
    ensures var s := Find(old(States(rs)), bundle);
      States(rs) == s.resolvers && found == s.found
  {
    ghost var before := States(rs);
    var order := ByPriority(Priorities(States(rs)));
    ByPrioritySpec(Priorities(before));
    forall a, b | 0 <= a < b < |order| ensures order[a] != order[b] {
      assert Precedes(Priorities(before), order[a], order[b]);
    }
    var k;
    found, k := AskInOrder(rs, order, bundle);
    ghost var first := if found.Some? then k - 1 else k;
    FirstSatisfiedUnique(before, order, bundle, first);
    assert order[..k] == Asked(order, first);
  }

  /** `find` over the positions `order`, each listed once: the resolvers are
      asked in turn until one answers that it is satisfied. */
  method AskInOrder(rs: seq<Resolver>, order: seq<nat>, bundle: Bundle) returns (found: Option<nat>, k: nat)
    requires Distinct(rs)
    requires forall j :: 0 <= j < |order| ==> order[j] < |rs|
    requires forall a, b :: 0 <= a < b < |order| ==> order[a] != order[b]
    modifies Objects(rs)
    ensures k <= |order| && (found.None? ==> k == |order|)
    ensures found.None? ==> forall j :: 0 <= j < k ==> !Answer(old(States(rs))[order[j]], bundle)
    ensures found.Some? ==> 0 < k && found == Some(order[k - 1]) && Answer(old(States(rs))[order[k - 1]], bundle)
                            && forall j :: 0 <= j < k - 1 ==> !Answer(old(States(rs))[order[j]], bundle)
    ensures States(rs) == AfterAsking(old(States(rs)), order[..k], bundle)
  {
    ghost var before := States(rs);
    k := 0;
    found := None;
    while k < |order| && found.None?
      invariant k <= |order|
      invariant found.None? ==> forall j :: 0 <= j < k ==> !Answer(before[order[j]], bundle)
      invariant found.Some? ==> 0 < k && found == Some(order[k - 1]) && Answer(before[order[k - 1]], bundle)
                                && forall j :: 0 <= j < k - 1 ==> !Answer(before[order[j]], bundle)
      invariant States(rs) == AfterAsking(before, order[..k], bundle)
    {
      var b := AskNext(rs, before, order, k, bundle);
      if b {
        found := Some(order[k]);
      }
      k := k + 1;
    }
  }

  /** The next resolver in `order` is asked, for the first time. */
  method AskNext(rs: seq<Resolver>, ghost before: seq<ResolverState>, order: seq<nat>, k: nat, bundle: Bundle)
    returns (b: bool)
    requires Distinct(rs) && k < |order| && |before| == |rs|
    requires forall j :: 0 <= j < |order| ==> order[j] < |rs|
    requires forall a, b :: 0 <= a < b < |order| ==> order[a] != order[b]
    requires States(rs) == AfterAsking(before, order[..k], bundle)
    modifies rs[order[k]].Obj()
    ensures b == Answer(before[order[k]], bundle)
    ensures States(rs) == AfterAsking(before, order[..k + 1], bundle)
  {
    ghost var asked := order[..k];
    var x := order[k];
    assert x !in asked;
    assert old(States(rs))[x] == before[x];
    b := AskAt(rs, x, bundle);
    AskedOneMore(before, asked, x, bundle);
    assert order[..k + 1] == asked + [x];
  }

  /** `rs[i].isSatisfied(bundle)`: the others keep their fields. */
  method AskAt(rs: seq<Resolver>, i: nat, bundle: Bundle) returns (b: bool)
    requires Distinct(rs) && i < |rs|
    modifies rs[i].Obj()
    ensures (States(rs)[i], b) == Checked(old(States(rs))[i], bundle)
    ensures States(rs) == old(States(rs))[i := States(rs)[i]]
  {
    ghost var before := States(rs);
    b := rs[i].IsSatisfied(bundle);
    forall j | 0 <= j < |rs| && j != i ensures rs[j].State() == before[j] {
      assert rs[j].Obj() != rs[i].Obj();
    }
  }

  /** Asking one more resolver, not asked before, changes its fields only. */
  lemma AskedOneMore(rs: seq<ResolverState>, asked: seq<nat>, x: nat, bundle: Bundle)
    requires x < |rs| && x !in asked
    ensures AfterAsking(rs, asked + [x], bundle) == AfterAsking(rs, asked, bundle)[x := Checked(rs[x], bundle).0]
  {
  }

  /** The position of the first satisfied resolver is the only one before
      which none is satisfied and at which one is. */
  lemma FirstSatisfiedUnique(rs: seq<ResolverState>, order: seq<nat>, bundle: Bundle, k: nat)
    requires forall j :: 0 <= j < |order| ==> order[j] < |rs|
    requires k <= |order| && forall j :: 0 <= j < k ==> !Answer(rs[order[j]], bundle)
    requires k < |order| ==> Answer(rs[order[k]], bundle)
    ensures k == FirstSatisfied(rs, order, bundle)
  {
  }

  /** The finish handler once the search is done. */
  method FinishWith(bundle: Bundle, rs: seq<Resolver>, pack: Pack, found: Option<nat>, es: seq<TarEntry>)
    returns (result: Result<string, Failure>)
    requires Distinct(rs) && pack !in Objects(rs) && pack.trace == Copied(es)
    requires found.Some? ==> found.value < |rs|
    modifies pack
    ensures var o := Finish(bundle, Search(States(rs), found), es);
      pack.trace == o.trace && result == o.result
    ensures States(rs) == old(States(rs))
  {
    ghost var search := Search(States(rs), found);
    if found.None? {
      return Err(NoProjectType);
    }
    var resolver := rs[found.value];
    assert resolver.State() == search.resolvers[found.value];
    var r := resolver.Resolve(bundle);
    if r.Err? {
      return Err(r.error);
    }
    WriteOutput(r.value, resolver, pack, rs);
    result := Ok(Name(resolver.State()));
  }

  /** The resolver's files, the hook for a standard Dockerfile, and the
      closing of the output. */
  method WriteOutput(files: seq<FileInfo>, resolver: Resolver, pack: Pack, ghost rs: seq<Resolver>)
    requires pack !in Objects(rs) && resolver.Obj() != pack
    modifies pack
    ensures pack.trace == old(pack.trace) + Items(files) + StandardHook(resolver.State()) + [Finalized]
    ensures States(rs) == old(States(rs)) && resolver.State() == old(resolver.State())
  {
    AddItems(files, pack, rs);
    if resolver.StandardObj? {
      var contents := resolver.std.GetDockerfileContents();
      pack.CallHook(contents, rs);
    }
    pack.Finalize(rs);
  }

  /** `Promise.map(additionalItems, ...)`: each file is written, and handed
      to the hook when it is named `Dockerfile`. */
  method AddItems(files: seq<FileInfo>, pack: Pack, ghost rs: seq<Resolver>)
    requires pack !in Objects(rs)
    modifies pack
    ensures pack.trace == old(pack.trace) + Items(files)
    ensures States(rs) == old(States(rs))
  {
    var k := 0;
    while k < |files|
      invariant k <= |files|
      invariant pack.trace == old(pack.trace) + Items(files[..k])
      invariant States(rs) == old(States(rs))
    {
      var f := files[k];
      assert files[..k + 1][..k] == files[..k];
      pack.Entry(Header(f.name, Some(f.size)), f.contents, rs);
      if f.name == "Dockerfile" {
        pack.CallHook(Some(f.contents), rs);
      }
      k := k + 1;
    }
    assert files[..k] == files;
  }

  /** `getDefaultResolvers()`: four new objects, in the default order. */
  method GetDefaultResolvers() returns (rs: seq<Resolver>)
    ensures |rs| == 4 && Distinct(rs)
    ensures forall i :: 0 <= i < 4 ==> fresh(rs[i].Obj()) && rs[i].State() == Defaults()[i]
  {
    var standard := new EarlierDockerfile.DockerfileResolver();
    var template := new EarlierTemplate.DockerfileTemplateResolver();
    var arch := new ArchDockerfile.ArchDockerfileResolver();
    var node := new EarlierNode.NodeResolver();
    rs := [StandardObj(standard), TemplateObj(template), ArchObj(arch), NodeObj(node)];
  }
}
