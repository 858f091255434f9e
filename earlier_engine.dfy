/** The earlier resolution engine (`resolveBundle` in build/index.js) as a
    function of its input: the archive's entries in order, the resolvers'
    fields and the bundle. The result is the resolvers' new fields, the trace
    of what the run writes and calls, and the value the returned promise
    settles with.

    Every entry is copied to the output unchanged and given to every
    resolver. When the archive ends, the resolvers are sorted by priority,
    highest first and in list order among equals, and asked in that order
    whether they are satisfied until one is; that one's files are added, the
    Dockerfile hook is called on the build Dockerfile and the output is
    closed. */
module EarlierEngine {
  import opened Wrappers
  import opened Types
  import opened Paths
  import opened Ordering
  import EarlierDockerfile
  import EarlierTemplate
  import ArchDockerfile
  import EarlierNode
  import Template

  /** A resolver's fields, by class (the four classes of build/resolvers/). */
  datatype ResolverState =
    | Standard(std: EarlierDockerfile.State)
    | Templated(tpl: EarlierTemplate.State)
    | ArchSpecific(arch: ArchDockerfile.State)
    | Node(node: EarlierNode.State)

  function Priority(r: ResolverState): int
  {
    match r
    case Standard(_) => EarlierDockerfile.Priority
    case Templated(_) => EarlierTemplate.Priority
    case ArchSpecific(_) => ArchDockerfile.Priority
    case Node(_) => EarlierNode.Priority
  }

  function Name(r: ResolverState): string
  {
    match r
    case Standard(_) => EarlierDockerfile.Name
    case Templated(_) => EarlierTemplate.Name
    case ArchSpecific(_) => ArchDockerfile.Name
    case Node(_) => EarlierNode.Name
  }

  /** `entry(file)`. */
  function AfterEntry(r: ResolverState, file: FileInfo): ResolverState
  {
    match r
    case Standard(s) => Standard(EarlierDockerfile.AfterEntry(s, file))
    case Templated(s) => Templated(EarlierTemplate.AfterEntry(s, file))
    case ArchSpecific(s) => ArchSpecific(ArchDockerfile.AfterEntry(s, file))
    case Node(s) => Node(EarlierNode.AfterEntry(s, file))
  }

  /** `isSatisfied(bundle)`: the new fields and the answer; only the
      architecture-specific resolver changes its fields when asked. */
  function Checked(r: ResolverState, bundle: Bundle): (ResolverState, bool)
  {
    match r
    case Standard(s) => (r, EarlierDockerfile.Satisfied(s))
    case Templated(s) => (r, EarlierTemplate.Satisfied(s))
    case ArchSpecific(s) =>
      var (s', b) := ArchDockerfile.Checked(s, bundle);
      (ArchSpecific(s'), b)
    case Node(s) => (r, EarlierNode.Satisfied(s))
  }

  /** `resolve(bundle)`: the files to add, or the error the returned promise
      rejects with. No class changes its fields when resolving. */
  function Resolved(r: ResolverState, bundle: Bundle): Result<seq<FileInfo>, Failure>
  {
    match r
    case Standard(_) => Ok([])
    case Templated(s) => EarlierTemplate.Resolved(s, bundle)
    case ArchSpecific(s) => ArchDockerfile.Resolved(s)
    case Node(_) => Ok(EarlierNode.Resolved(bundle))
  }

  /** The fields of `getDefaultResolvers()`, in its order. */
  function Defaults(): seq<ResolverState>
  {
    [Standard(EarlierDockerfile.Initial()), Templated(EarlierTemplate.Initial()),
     ArchSpecific(ArchDockerfile.Initial()), Node(EarlierNode.Initial())]
  }

  function Priorities(rs: seq<ResolverState>): seq<int>
  {
    seq(|rs|, i requires 0 <= i < |rs| => Priority(rs[i]))
  }

  // ---------------------------------------------------------------------------
  // Reading the archive

  /** The FileInfo built from an entry: the normalised name, the header's
      size (`0` when the header has none) and the bytes. */
  function Info(e: TarEntry): FileInfo
  {
    FileInfo(NormalizeTarEntry(e.header.name), HeaderSize(e.header), e.contents)
  }

  function Infos(es: seq<TarEntry>): seq<FileInfo>
  {
    seq(|es|, i requires 0 <= i < |es| => Info(es[i]))
  }

  /** One resolver after it has been given each entry, in order. */
  function Fed(r: ResolverState, es: seq<TarEntry>): ResolverState
    decreases |es|
  {
    if es == [] then r else AfterEntry(Fed(r, es[..|es| - 1]), Info(es[|es| - 1]))
  }

  /** The entries copied to the output, each under its own header. */
  function Copied(es: seq<TarEntry>): (events: seq<Event>)
    ensures |events| == |es|
  {
    seq(|es|, i requires 0 <= i < |es| => Written(es[i].header, es[i].contents))
  }

  // ---------------------------------------------------------------------------
  // Choosing a resolver

  function Answer(r: ResolverState, bundle: Bundle): bool
  {
    Checked(r, bundle).1
  }

  /** The position, in `order`, of the first resolver satisfied, or `|order|`
      when none is. */
  function FirstSatisfied(rs: seq<ResolverState>, order: seq<nat>, bundle: Bundle): (k: nat)
    requires forall j :: 0 <= j < |order| ==> order[j] < |rs|
    ensures k <= |order|
    ensures forall j :: 0 <= j < k ==> !Answer(rs[order[j]], bundle)
    ensures k < |order| ==> Answer(rs[order[k]], bundle)
    decreases |order|
  {
    if order == [] then 0
    else if Answer(rs[order[0]], bundle) then 0
    else 1 + FirstSatisfied(rs, order[1..], bundle)
  }

  /** The positions asked by a search that stops at position `k` of `order`. */
  function Asked(order: seq<nat>, k: nat): seq<nat>
    requires k <= |order|
  {
    if k < |order| then order[..k + 1] else order
  }

  /** The fields after the resolvers at positions `asked` were each asked
      once. */
  function AfterAsking(rs: seq<ResolverState>, asked: seq<nat>, bundle: Bundle): (after: seq<ResolverState>)
    ensures |after| == |rs|
  {
    seq(|rs|, i requires 0 <= i < |rs| => if i in asked then Checked(rs[i], bundle).0 else rs[i])
  }

  /** The outcome of `_(resolvers).orderBy(priority, ['desc']).find(r =>
      r.isSatisfied(bundle))`: the fields after the search and the position of
      the resolver found, if any. */
  datatype Search = Search(resolvers: seq<ResolverState>, found: Option<nat>)

  function Find(rs: seq<ResolverState>, bundle: Bundle): (s: Search)
    ensures |s.resolvers| == |rs|
    ensures s.found.Some? ==> s.found.value < |rs|
  {
    var order := ByPriority(Priorities(rs));
    ByPrioritySpec(Priorities(rs));
    var k := FirstSatisfied(rs, order, bundle);
    Search(AfterAsking(rs, Asked(order, k), bundle), if k < |order| then Some(order[k]) else None)
  }

  // ---------------------------------------------------------------------------
  // Finishing

  /** `Promise.map(additionalItems, ...)`: each file is written under its own
      name and size, and a file named `Dockerfile` is handed to the hook. */
  function Items(files: seq<FileInfo>): seq<Event>
    decreases |files|
  {
    if files == [] then []
    else
      var f := files[|files| - 1];
      Items(files[..|files| - 1]) + [Written(Header(f.name, Some(f.size)), f.contents)]
      + (if f.name == "Dockerfile" then [HookCalled(Some(f.contents))] else [])
  }

  /** For the resolver named `Standard Dockerfile`, the hook is called on the
      text `getDockerfileContents()` returns, since the build Dockerfile is an
      entry of the archive and not an added file. */
  function StandardHook(r: ResolverState): seq<Event>
  {
    if r.Standard? then [HookCalled(r.std.dockerfileContents)] else []
  }

  /** What one run yields. */
  datatype Outcome = Outcome(resolvers: seq<ResolverState>, trace: seq<Event>, result: Result<string, Failure>)

  /** Every resolver after it has been given every entry. */
  function FedAll(rs: seq<ResolverState>, es: seq<TarEntry>): seq<ResolverState>
  {
    seq(|rs|, i requires 0 <= i < |rs| => Fed(rs[i], es))
  }

  /** The finish handler, once the search is done: no resolver found rejects
      the promise; otherwise the resolver found resolves, and its files are
      written, the hook called and the output closed, or its error rejects
      the promise. */
  function Finish(bundle: Bundle, search: Search, es: seq<TarEntry>): (o: Outcome)
    requires search.found.Some? ==> search.found.value < |search.resolvers|
  {
    match search.found
    case None => Outcome(search.resolvers, Copied(es), Err(NoProjectType))
    case Some(w) =>
      var r := search.resolvers[w];
      match Resolved(r, bundle)
      case Err(f) => Outcome(search.resolvers, Copied(es), Err(f))
      case Ok(files) =>
        Outcome(search.resolvers, Copied(es) + Items(files) + StandardHook(r) + [Finalized], Ok(Name(r)))
  }

  /** `resolveBundle(bundle, resolvers)`, the resolvers holding `rs` and the
      archive holding `es`. */
  function ResolveBundle(bundle: Bundle, rs: seq<ResolverState>, es: seq<TarEntry>): (o: Outcome)
    ensures |o.resolvers| == |rs|
  {
    Finish(bundle, Find(FedAll(rs, es), bundle), es)
  }

  // ---------------------------------------------------------------------------
  // Properties

  /** Only the standard resolver is named `Standard Dockerfile`; the four
      names are distinct. */
  lemma NamesDistinct(r: ResolverState, q: ResolverState)
    ensures Name(r) == "Standard Dockerfile" <==> r.Standard?
    ensures Name(r) == Name(q) <==>
      (r.Standard? && q.Standard?) || (r.Templated? && q.Templated?) ||
      (r.ArchSpecific? && q.ArchSpecific?) || (r.Node? && q.Node?)
  {
    assert EarlierTemplate.Name[0] != EarlierDockerfile.Name[0];
    assert ArchDockerfile.Name[0] != EarlierDockerfile.Name[0];
    assert EarlierNode.Name[0] != EarlierDockerfile.Name[0];
    assert ArchDockerfile.Name[0] != EarlierTemplate.Name[0];
    assert EarlierNode.Name[0] != EarlierTemplate.Name[0];
    assert EarlierNode.Name[0] != ArchDockerfile.Name[0];
  }

  /** Each resolver keeps its class while it is given entries and asked. */
  lemma {:induction false} FedKeepsClass(r: ResolverState, es: seq<TarEntry>, bundle: Bundle)
    ensures Priority(Fed(r, es)) == Priority(r) && Name(Fed(r, es)) == Name(r)
    ensures Priority(Checked(r, bundle).0) == Priority(r) && Name(Checked(r, bundle).0) == Name(r)
    decreases |es|
  {
    if es != [] {
      FedKeepsClass(r, es[..|es| - 1], bundle);
    }
  }

  /** Every entry is copied to the output first, in order and under its own
      header, whatever the outcome. */
  lemma EntriesCopiedFirst(bundle: Bundle, rs: seq<ResolverState>, es: seq<TarEntry>)
    ensures var t := ResolveBundle(bundle, rs, es).trace;
      |t| >= |es| && forall i :: 0 <= i < |es| ==> t[i] == Written(es[i].header, es[i].contents)
  {
    var search := Find(FedAll(rs, es), bundle);
    FinishCopied(bundle, search, es);
    var t := ResolveBundle(bundle, rs, es).trace;
    forall i | 0 <= i < |es|
      ensures t[i] == Written(es[i].header, es[i].contents)
    {
      assert t[i] == t[..|es|][i];
    }
  }

  lemma FinishCopied(bundle: Bundle, search: Search, es: seq<TarEntry>)
    requires search.found.Some? ==> search.found.value < |search.resolvers|
    ensures var t := Finish(bundle, search, es).trace; |t| >= |es| && t[..|es|] == Copied(es)
  {
    var t := Finish(bundle, search, es).trace;
    assert t == Copied(es) + t[|es|..];
  }

  /** The standard resolver given the entries holds what its own module says
      of the normalised names: satisfied exactly when one is `Dockerfile`,
      and then keeping the last such entry's text. */
  lemma {:induction false} FedStandard(s: EarlierDockerfile.State, es: seq<TarEntry>)
    ensures Fed(Standard(s), es) == Standard(EarlierDockerfile.Feed(s, Infos(es)))
    decreases |es|
  {
    if es != [] {
      var n := |es| - 1;
      FedStandard(s, es[..n]);
      assert Infos(es)[..n] == Infos(es[..n]);
    }
  }

  /** A fresh standard resolver is satisfied exactly when some entry's name
      normalises to `Dockerfile`, and then keeps the last such entry's text. */
  lemma StandardSees(es: seq<TarEntry>)
    ensures var r := Fed(Standard(EarlierDockerfile.Initial()), es);
      && r.Standard?
      && (EarlierDockerfile.Satisfied(r.std) <==>
          exists i :: 0 <= i < |es| && NormalizeTarEntry(es[i].header.name) == "Dockerfile")
      && r.std.dockerfileContents == EarlierDockerfile.LastDockerfile(Infos(es))
  {
    FedStandard(EarlierDockerfile.Initial(), es);
    var fs := Infos(es);
    EarlierDockerfile.FeedKeepsLast(EarlierDockerfile.Initial(), fs);
    assert |fs| == |es| && forall i :: 0 <= i < |es| ==> fs[i].name == NormalizeTarEntry(es[i].header.name);
    assert (exists i :: 0 <= i < |fs| && fs[i].name == "Dockerfile")
       <==> exists i :: 0 <= i < |es| && NormalizeTarEntry(es[i].header.name) == "Dockerfile";
  }

  /** `i` comes before `w` in the order the search asks: a greater priority,
      or the same one and earlier in the list. */
  predicate AskedBefore(rs: seq<ResolverState>, i: nat, w: nat)
    requires i < |rs| && w < |rs|
  {
    Priority(rs[i]) > Priority(rs[w]) || (Priority(rs[i]) == Priority(rs[w]) && i < w)
  }

  /** The search finds the first resolver, in the sorted order, that answers
      it is satisfied: a satisfied resolver of greatest priority, and the
      earliest of those in the list. It finds none exactly when no resolver
      is satisfied, and then every resolver has been asked. Otherwise the
      resolvers asked are the one found and those before it; each of them is
      as asking it leaves it, and every other resolver is unchanged. */
  lemma FindSpec(rs: seq<ResolverState>, bundle: Bundle)
    ensures var s := Find(rs, bundle);
      && (s.found.None? <==> forall i :: 0 <= i < |rs| ==> !Answer(rs[i], bundle))
      && (s.found.None? ==> forall i :: 0 <= i < |rs| ==> s.resolvers[i] == Checked(rs[i], bundle).0)
      && (s.found.Some? ==>
            var w := s.found.value;
            && Answer(rs[w], bundle)
            && (forall i :: 0 <= i < |rs| && i != w && Answer(rs[i], bundle) ==> AskedBefore(rs, w, i))
            && forall i :: 0 <= i < |rs| ==>
                 s.resolvers[i] == if i == w || AskedBefore(rs, i, w) then Checked(rs[i], bundle).0 else rs[i])
  {
    var ps := Priorities(rs);
    var order := ByPriority(ps);
    ByPrioritySpec(ps);
    var k := FirstSatisfied(rs, order, bundle);
    var after := AfterAsking(rs, Asked(order, k), bundle);
    assert Find(rs, bundle).resolvers == after;
    if k == |order| {
      forall i | 0 <= i < |rs| ensures !Answer(rs[i], bundle) && after[i] == Checked(rs[i], bundle).0 {
        assert i in order;
        var j :| 0 <= j < |order| && order[j] == i;
      }
    } else {
      var w := order[k];
      forall i | 0 <= i < |rs| && i != w && Answer(rs[i], bundle)
        ensures AskedBefore(rs, w, i)
      {
        assert i in order;
        var j :| 0 <= j < |order| && order[j] == i;
        assert k < j && Precedes(ps, order[k], order[j]);
      }
      forall i | 0 <= i < |rs|
        ensures after[i] == if i == w || AskedBefore(rs, i, w) then Checked(rs[i], bundle).0 else rs[i]
      {
        assert i in order;
        var j :| 0 <= j < |order| && order[j] == i;
        if j <= k {
          assert order[..k + 1][j] == i;
          if j < k {
            assert Precedes(ps, order[j], order[k]);
          }
        } else {
          assert Precedes(ps, order[k], order[j]);
        }
      }
    }
  }

  /** At most one resolver meets the choice of `FindSpec`: the outcome of the
      search does not depend on how ties are broken beyond list order. */
  lemma ChoiceUnique(rs: seq<ResolverState>, bundle: Bundle, w: nat, v: nat)
    requires w < |rs| && v < |rs| && Answer(rs[w], bundle) && Answer(rs[v], bundle)
    requires forall i :: 0 <= i < |rs| && i != w && Answer(rs[i], bundle) ==>
               Priority(rs[i]) < Priority(rs[w]) || (Priority(rs[i]) == Priority(rs[w]) && w < i)
    requires forall i :: 0 <= i < |rs| && i != v && Answer(rs[i], bundle) ==>
               Priority(rs[i]) < Priority(rs[v]) || (Priority(rs[i]) == Priority(rs[v]) && v < i)
    ensures w == v
  {
  }

  /** The finish handler either closes the output and resolves with the name
      of the resolver found, or rejects and leaves the output open with
      nothing but the copied entries in it; it rejects with `NoProjectType`
      exactly when the search found nothing. */
  lemma FinishOutcomes(bundle: Bundle, search: Search, es: seq<TarEntry>)
    requires search.found.Some? ==> search.found.value < |search.resolvers|
    ensures var o := Finish(bundle, search, es);
      && (o.result.Ok? <==> Finalized in o.trace)
      && (o.result.Ok? ==> o.trace[|o.trace| - 1] == Finalized
                           && o.result.value == Name(search.resolvers[search.found.value]))
      && (o.result.Err? ==> o.trace == Copied(es))
      && (o.result == Err(NoProjectType) <==> search.found.None?)
  {
    assert Finalized !in Copied(es);
    if search.found.Some? {
      NoProjectTypeNotRaised(search.resolvers[search.found.value], bundle);
    }
  }

  /** A run either closes the output and resolves with the name of one of the
      resolvers, or rejects and leaves the output open with nothing but the
      copied entries in it; it rejects with `NoProjectType` exactly when no
      resolver is satisfied after reading the archive. */
  lemma Outcomes(bundle: Bundle, rs: seq<ResolverState>, es: seq<TarEntry>)
    ensures var o := ResolveBundle(bundle, rs, es);
      && (o.result.Ok? <==> Finalized in o.trace)
      && (o.result.Ok? ==> o.trace[|o.trace| - 1] == Finalized
                           && exists w :: 0 <= w < |rs| && o.result.value == Name(rs[w]))
      && (o.result.Err? ==> o.trace == Copied(es))
      && (o.result == Err(NoProjectType) <==> forall i :: 0 <= i < |rs| ==> !Answer(Fed(rs[i], es), bundle))
  {
    var fed := FedAll(rs, es);
    assert |fed| == |rs| && forall i :: 0 <= i < |rs| ==> fed[i] == Fed(rs[i], es);
    var s := Find(fed, bundle);
    FindSpec(fed, bundle);
    FinishOutcomes(bundle, s, es);
    if s.found.Some? {
      var w := s.found.value;
      FedKeepsClass(rs[w], es, bundle);
      FedKeepsClass(fed[w], [], bundle);
    }
  }

  /** No resolver's `resolve` rejects with the search's own error. */
  lemma NoProjectTypeNotRaised(r: ResolverState, bundle: Bundle)
    ensures Resolved(r, bundle) != Err(NoProjectType)
  {
  }

  /** A template resolver that has a template has its text: it never reads
      `toString` of nothing. Fresh resolvers and those given entries keep
      this. */
  predicate Consistent(r: ResolverState)
  {
    r.Templated? ==> (r.tpl.hasDockerfileTemplate ==> r.tpl.templateContent.Some?)
  }

  lemma {:induction false} FedConsistent(r: ResolverState, es: seq<TarEntry>)
    requires Consistent(r)
    ensures Consistent(Fed(r, es))
    decreases |es|
  {
    if es != [] {
      FedConsistent(r, es[..|es| - 1]);
    }
  }

  /** A consistent resolver that says it is satisfied resolves, unless its
      template uses an unknown variable. */
  lemma SatisfiedResolves(r: ResolverState, bundle: Bundle)
    requires Consistent(r) && Answer(r, bundle)
    ensures Resolved(Checked(r, bundle).0, bundle).Err? ==> Resolved(Checked(r, bundle).0, bundle).error.Template?
  {
  }

  /** With consistent resolvers, such as the default ones, the resolver found
      never fails to resolve except on a template error: a run rejects only
      when no resolver is satisfied or a template uses an unknown variable. */
  lemma OnlyTemplatesFail(bundle: Bundle, rs: seq<ResolverState>, es: seq<TarEntry>)
    requires forall i :: 0 <= i < |rs| ==> Consistent(rs[i])
    ensures var o := ResolveBundle(bundle, rs, es);
      o.result.Err? ==> o.result.error == NoProjectType || o.result.error.Template?
  {
    var fed := FedAll(rs, es);
    assert |fed| == |rs| && forall i :: 0 <= i < |rs| ==> fed[i] == Fed(rs[i], es);
    var s := Find(fed, bundle);
    FindSpec(fed, bundle);
    if s.found.Some? {
      var w := s.found.value;
      FedConsistent(rs[w], es);
      SatisfiedResolves(fed[w], bundle);
      FinishOutcomes(bundle, s, es);
    }
  }

  /** With the default resolvers (priorities 0, 2, 1, 0) a satisfied template
      resolver wins, then an architecture-specific Dockerfile, then a plain
      Dockerfile, and a package.json last. */
  lemma DefaultsPreference(bundle: Bundle, es: seq<TarEntry>)
    ensures var fed := FedAll(Defaults(), es);
      Find(fed, bundle).found
        == if Answer(fed[1], bundle) then Some(1) else if Answer(fed[2], bundle) then Some(2)
           else if Answer(fed[0], bundle) then Some(0) else if Answer(fed[3], bundle) then Some(3) else None
  {
    var fed := FedAll(Defaults(), es);
    forall i | 0 <= i < 4 ensures Priority(fed[i]) == Priority(Defaults()[i]) {
      FedKeepsClass(Defaults()[i], es, bundle);
    }
    var ps := Priorities(fed);
    assert ps == [0, 2, 1, 0];
    var answers := seq(4, i requires 0 <= i < 4 => Answer(fed[i], bundle));
    FindSpec(fed, bundle);
    var found := Find(fed, bundle).found;
    if found.Some? {
      var w := found.value;
      assert w < 4 && answers[w];
      forall i | 0 <= i < 4 && i != w && answers[i] ensures ps[i] < ps[w] || (ps[i] == ps[w] && w < i) {
        assert Answer(fed[i], bundle);
      }
    } else {
      assert forall i :: 0 <= i < 4 ==> !answers[i];
    }
    PickAmongFour(ps, answers, found);
  }

  /** The search's characterisation, for four resolvers ranked 0, 2, 1, 0. */
  lemma PickAmongFour(ps: seq<int>, answers: seq<bool>, found: Option<nat>)
    requires ps == [0, 2, 1, 0] && |answers| == 4
    requires found.None? <==> forall i :: 0 <= i < 4 ==> !answers[i]
    requires found.Some? ==>
      && found.value < 4 && answers[found.value]
      && forall i :: 0 <= i < 4 && i != found.value && answers[i] ==>
           ps[i] < ps[found.value] || (ps[i] == ps[found.value] && found.value < i)
    ensures found == if answers[1] then Some(1) else if answers[2] then Some(2)
                     else if answers[0] then Some(0) else if answers[3] then Some(3) else None
  {
  }

  /** The default resolvers given an archive with a top-level `Dockerfile` and
      nothing the template or architecture-specific resolvers take: only the
      standard resolver and possibly the NodeJS one are satisfied. */
  lemma PlainDockerfileAnswers(bundle: Bundle, es: seq<TarEntry>)
    requires exists i :: 0 <= i < |es| && NormalizeTarEntry(es[i].header.name) == "Dockerfile"
    requires forall i :: 0 <= i < |es| ==> NormalizeTarEntry(es[i].header.name) != "Dockerfile.template"
    requires forall i :: 0 <= i < |es| ==> !ArchEntry(NormalizeTarEntry(es[i].header.name))
    ensures var fed := FedAll(Defaults(), es);
      && fed[0] == Standard(EarlierDockerfile.Feed(EarlierDockerfile.Initial(), Infos(es)))
      && Answer(fed[0], bundle) && !Answer(fed[1], bundle) && !Answer(fed[2], bundle)
  {
    var fed := FedAll(Defaults(), es);
    var d := Defaults();
    assert d[0] == Standard(EarlierDockerfile.Initial()) && d[1] == Templated(EarlierTemplate.Initial())
      && d[2] == ArchSpecific(ArchDockerfile.Initial());
    assert fed[0] == Fed(d[0], es) && fed[1] == Fed(d[1], es) && fed[2] == Fed(d[2], es);
    StandardSees(es);
    FedStandard(EarlierDockerfile.Initial(), es);
    TemplateSilent(bundle, es);
    ArchSilent(bundle, es);
  }

  lemma TemplateSilent(bundle: Bundle, es: seq<TarEntry>)
    requires forall i :: 0 <= i < |es| ==> NormalizeTarEntry(es[i].header.name) != "Dockerfile.template"
    ensures !Answer(Fed(Templated(EarlierTemplate.Initial()), es), bundle)
  {
    TemplateUnseen(EarlierTemplate.Initial(), es);
  }

  lemma ArchSilent(bundle: Bundle, es: seq<TarEntry>)
    requires forall i :: 0 <= i < |es| ==> !ArchEntry(NormalizeTarEntry(es[i].header.name))
    ensures !Answer(Fed(ArchSpecific(ArchDockerfile.Initial()), es), bundle)
  {
    ArchUnseen(ArchDockerfile.Initial(), es);
    ArchInitialSilent(bundle);
  }

  lemma ArchInitialSilent(bundle: Bundle)
    ensures !Answer(ArchSpecific(ArchDockerfile.Initial()), bundle)
  {
    assert ArchDockerfile.Scan(ArchDockerfile.Initial(), [], bundle) == ArchDockerfile.Initial();
  }

  /** The standard resolver found: it adds no file, the hook is given the
      text it kept, and the run resolves with its name. */
  lemma FinishStandard(bundle: Bundle, search: Search, es: seq<TarEntry>)
    requires search.found.Some? && search.found.value < |search.resolvers|
    requires search.resolvers[search.found.value].Standard?
    ensures Finish(bundle, search, es)
         == Outcome(search.resolvers,
                    Copied(es) + [HookCalled(search.resolvers[search.found.value].std.dockerfileContents), Finalized],
                    Ok("Standard Dockerfile"))
  {
    assert Items([]) == [];
  }

  /** A plain Dockerfile project: when the default resolvers are given an
      archive with a top-level `Dockerfile` and nothing the template or
      architecture-specific resolvers take, the run resolves as `Standard
      Dockerfile`, hands the last `Dockerfile` entry's text to the hook and
      closes the output, adding no file. */
  lemma PlainDockerfileProject(bundle: Bundle, es: seq<TarEntry>)
    requires exists i :: 0 <= i < |es| && NormalizeTarEntry(es[i].header.name) == "Dockerfile"
    requires forall i :: 0 <= i < |es| ==> NormalizeTarEntry(es[i].header.name) != "Dockerfile.template"
    requires forall i :: 0 <= i < |es| ==> !ArchEntry(NormalizeTarEntry(es[i].header.name))
    ensures var o := ResolveBundle(bundle, Defaults(), es);
      && o.result == Ok("Standard Dockerfile")
      && o.trace == Copied(es) + [HookCalled(EarlierDockerfile.LastDockerfile(Infos(es))), Finalized]
  {
    var fed := FedAll(Defaults(), es);
    var s := Find(fed, bundle);
    PlainDockerfileAnswers(bundle, es);
    DefaultsPreference(bundle, es);
    assert s.found == Some(0);
    FindSpec(fed, bundle);
    StandardSees(es);
    assert s.resolvers[0] == fed[0];
    FinishStandard(bundle, s, es);
  }

  /** Without an entry named `Dockerfile.template` the template resolver is
      not changed by the archive. */
  lemma {:induction false} TemplateUnseen(s: EarlierTemplate.State, es: seq<TarEntry>)
    requires forall i :: 0 <= i < |es| ==> NormalizeTarEntry(es[i].header.name) != "Dockerfile.template"
    ensures Fed(Templated(s), es) == Templated(s)
    decreases |es|
  {
    if es != [] {
      TemplateUnseen(s, es[..|es| - 1]);
    }
  }

  /** A name the architecture-specific resolver collects. */
  predicate ArchEntry(name: string)
  {
    ArchDockerfile.IsCandidate(name) && ArchDockerfile.ExtOf(name) != "template"
  }

  /** Without a `Dockerfile.<ext>` entry the architecture-specific resolver is
      not changed by the archive. */
  lemma {:induction false} ArchUnseen(s: ArchDockerfile.State, es: seq<TarEntry>)
    requires forall i :: 0 <= i < |es| ==> !ArchEntry(NormalizeTarEntry(es[i].header.name))
    ensures Fed(ArchSpecific(s), es) == ArchSpecific(s)
    decreases |es|
  {
    if es != [] {
      ArchUnseen(s, es[..|es| - 1]);
    }
  }
}
