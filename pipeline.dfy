/** `resolveInput` of src/index.ts as the program runs it: resolver objects
    whose fields change in place, an output archive that entries and events
    are appended to, and the handlers called one entry at a time. Each step is
    proved to do what the corresponding function of `Engine` says, so the
    properties proved there hold of this code. */
module Pipeline {
  import opened Wrappers
  import opened Types
  import opened Paths
  import opened Ordering
  import opened Resolvers
  import StandardDockerfile
  import NodeProject
  import Engine

  /** The output archive (`tar.pack()`) and the listeners it reports to:
      everything the run writes and emits, in order. The bundle's Dockerfile
      hook is recorded here too, at the point where it is awaited. */
  class Output {
    var trace: seq<Event>

    /** `tar.pack()`: an empty output, apart from the resolvers `rs`. */
    constructor(ghost rs: seq<Resolver>)
      ensures trace == [] && this !in Objects(rs) && States(rs) == old(States(rs))
    {
      trace := [];
    }

    /** `pack.entry(header, contents)`, or piping an entry into the pack; the
        resolvers `rs` are not touched. */
    method Entry(header: Header, contents: string, ghost rs: seq<Resolver>)
      requires this !in Objects(rs)
      modifies this
      ensures trace == old(trace) + [Written(header, contents)]
      ensures States(rs) == old(States(rs))
    {
      trace := trace + [Written(header, contents)];
    }

    /** `pack.emit(...)` and `bundle.callDockerfileHook(...)`. */
    method Report(event: Event, ghost rs: seq<Resolver>)
      requires !event.Written? && !event.Finalized? && this !in Objects(rs)
      modifies this
      ensures trace == old(trace) + [event]
      ensures States(rs) == old(States(rs))
    {
      trace := trace + [event];
    }

    /** `pack.finalize()`. */
    method Finalize(ghost rs: seq<Resolver>)
      requires this !in Objects(rs)
      modifies this
      ensures trace == old(trace) + [Finalized]
      ensures States(rs) == old(States(rs))
    {
      trace := trace + [Finalized];
    }
  }

  /** The fields of each resolver of the list. */
  function States(rs: seq<Resolver>): (s: seq<ResolverState>)
    reads Objects(rs)
    ensures |s| == |rs|
  {
    seq(|rs|, i requires 0 <= i < |rs| reads Objects(rs) => rs[i].State())
  }

  /** The objects hold what the run says: the list's fields, the output's
      trace, and the resolver that took the specified file, which is either
      one of the list or a resolver created apart from it. */
  ghost predicate Mirrors(rs: seq<Resolver>, out: Output, chosen: Option<Resolver>, run: Engine.Run)
    reads Objects(rs), out, if chosen.Some? then {chosen.value.Obj()} else {}
  {
    && States(rs) == run.resolvers && out.trace == run.trace
    && (chosen.Some? ==> chosen.value.Obj() != out)
    && match run.chosen
       case None => chosen.None?
       case Some(Listed(i)) => i < |rs| && chosen == Some(rs[i])
       case Some(Fresh(s)) => chosen.Some? && chosen.value.Obj() !in Objects(rs) && chosen.value.State() == s
  }

  /** `resolveInput(bundle, resolvers, listeners, dockerfile)`: the archive's
      entries are handled one at a time, each awaited before the next is
      read; an entry handler that throws has its error emitted and reads no
      further entry, so the finish handler never runs. Otherwise the finish
      handler runs, its error (if any) is emitted, and the output is closed.
      What the objects end up holding is what `Engine.ResolveInput` says. */
  method ResolveInput(bundle: Bundle, rs: seq<Resolver>, es: seq<TarEntry>, dockerfile: Option<string>,
                      parse: string -> Result<NodeProject.Json, string>)
    returns (out: Output)
    requires Distinct(rs)
    modifies Objects(rs)
    ensures fresh(out)
    ensures var spec := Engine.ResolveInput(bundle, old(States(rs)), es, dockerfile, parse);
      out.trace == spec.trace && States(rs) == spec.resolvers
  {
    ghost var initial := States(rs);
    Engine.ResolveInputSteps(bundle, initial, es, dockerfile, parse);
    out := new Output(rs);
    var cfg := Engine.Setup(bundle, dockerfile, parse);
    var chosen, halted, run := ReadEntries(cfg, rs, out, es, Engine.Run(initial, None, [], false));
    if !halted {
      FinishListener(cfg, rs, out, chosen, run);
    }
  }

  /** The archive's entries, one at a time, until one makes the entry handler
      throw. */
  method ReadEntries(cfg: Engine.Config, rs: seq<Resolver>, out: Output, es: seq<TarEntry>, ghost start: Engine.Run)
    returns (chosen: Option<Resolver>, halted: bool, ghost run: Engine.Run)
    requires Distinct(rs) && out !in Objects(rs)
    requires Engine.Wf(start) && !start.halted && start.chosen.None?
    requires States(rs) == start.resolvers && out.trace == start.trace
    modifies Objects(rs), out
    ensures run == Engine.Entries(cfg, start, es) && Engine.Wf(run)
    ensures halted == run.halted && States(rs) == run.resolvers && out.trace == run.trace
    ensures !halted ==> Mirrors(rs, out, chosen, run)
  {
    run := start;
    chosen := None;
    halted := false;
    var i := 0;
    while i < |es|
      invariant i <= |es| && Engine.Wf(run) && run == Engine.Entries(cfg, start, es[..i])
      invariant halted == run.halted && States(rs) == run.resolvers && out.trace == run.trace
      invariant !halted ==> Mirrors(rs, out, chosen, run)
      invariant cfg.dockerfile.None? ==> run.chosen.None?
    {
      chosen, halted := ReadEntry(cfg, rs, out, chosen, halted, es[i], run);
      Engine.EntriesNext(cfg, start, es, i);
      run := Engine.OnEntry(cfg, run, es[i]);
      i := i + 1;
    }
    assert es[..i] == es;
  }

  /** One entry of the archive: once the run has halted, `next` has not been
      called and the entry is never handled. */
  method ReadEntry(cfg: Engine.Config, rs: seq<Resolver>, out: Output, chosen: Option<Resolver>, halted: bool,
                   e: TarEntry, ghost run: Engine.Run)
    returns (next: Option<Resolver>, nowHalted: bool)
    requires Distinct(rs) && out !in Objects(rs)
    requires Engine.Wf(run) && halted == run.halted && States(rs) == run.resolvers && out.trace == run.trace
    requires !halted ==> Mirrors(rs, out, chosen, run)
    requires cfg.dockerfile.None? ==> run.chosen.None?
    modifies Objects(rs), out
    ensures var after := Engine.OnEntry(cfg, run, e);
      && nowHalted == after.halted && States(rs) == after.resolvers && out.trace == after.trace
      && (!nowHalted ==> Mirrors(rs, out, next, after))
  {
    if halted {
      next, nowHalted := chosen, true;
    } else {
      next, nowHalted := EntryListener(cfg, rs, out, chosen, e, run);
    }
  }

  /** The `entry` listener: the entry handler runs; the resolver it returns,
      if any, becomes the one holding the specified Dockerfile, and the
      handler's error is emitted and halts the run (`next` is not called). */
  method EntryListener(cfg: Engine.Config, rs: seq<Resolver>, out: Output, chosen: Option<Resolver>, e: TarEntry,
                       ghost run: Engine.Run)
    returns (next: Option<Resolver>, halted: bool)
    requires Distinct(rs) && out !in Objects(rs)
    requires Engine.Wf(run) && !run.halted && Mirrors(rs, out, chosen, run)
    requires cfg.dockerfile.None? ==> run.chosen.None?
    modifies Objects(rs), out
    ensures var after := Engine.OnEntry(cfg, run, e);
      && halted == after.halted && States(rs) == after.resolvers && out.trace == after.trace
      && (!halted ==> Mirrors(rs, out, next, after))
  {
    var thrown;
    thrown, next := OnEntry(cfg, rs, out, chosen, e, run);
    halted := thrown.Some?;
    if halted {
      out.Report(Emitted(thrown.value), rs);
    }
  }

  /** The `finish` listener: the finish handler runs, the error it throws is
      emitted, and the output is closed in every case. */
  method FinishListener(cfg: Engine.Config, rs: seq<Resolver>, out: Output, chosen: Option<Resolver>,
                        ghost run: Engine.Run)
    requires Distinct(rs) && out !in Objects(rs)
    requires Engine.Wf(run) && !run.halted && Mirrors(rs, out, chosen, run)
    modifies Objects(rs), out
    ensures out.trace == Engine.OnFinish(cfg, run).trace && States(rs) == Engine.OnFinish(cfg, run).resolvers
  {
    var thrown := OnFinish(cfg, rs, out, chosen, run);
    if thrown.Some? {
      out.Report(Emitted(thrown.value), rs);
    }
    out.Finalize(rs);
  }

  /** What an entry handler leaves behind: the failure it threw, with the
      error emitted and the run halted, or the objects holding what the run
      says, `next` being the resolver that now holds the specified
      Dockerfile. */
  ghost predicate Stepped(rs: seq<Resolver>, out: Output, thrown: Option<Failure>, next: Option<Resolver>,
                          after: Engine.Run)
    reads Objects(rs), out, if next.Some? then {next.value.Obj()} else {}
  {
    && (thrown.Some? <==> after.halted)
    && (thrown.Some? ==> States(rs) == after.resolvers && after.trace == out.trace + [Emitted(thrown.value)])
    && (thrown.None? ==> Mirrors(rs, out, next, after))
  }

  /** `resolveTarStreamOnEntry` on a run that has not halted: the failure it
      throws, or the resolver that now holds the specified Dockerfile. */
  method OnEntry(cfg: Engine.Config, rs: seq<Resolver>, out: Output, chosen: Option<Resolver>, e: TarEntry,
                 ghost run: Engine.Run)
    returns (thrown: Option<Failure>, next: Option<Resolver>)
    requires Distinct(rs) && out !in Objects(rs)
    requires Engine.Wf(run) && !run.halted && Mirrors(rs, out, chosen, run)
    requires cfg.dockerfile.None? ==> run.chosen.None?
    modifies Objects(rs), out
    ensures Stepped(rs, out, thrown, next, Engine.OnEntry(cfg, run, e))
  {
    var name := NormalizeTarEntry(e.header.name);
    if name == "" {
      Engine.EntrySkipped(cfg, run, e);
      return None, chosen;
    }
    Engine.EntryDispatch(cfg, run, e);
    if cfg.dockerfile.Some? {
      thrown, next := SpecifiedEntry(cfg, rs, out, chosen, name, e, run);
    } else {
      thrown := AutoEntry(rs, out, name, e, run);
      next := None;
    }
  }

  /** The entry handler when a Dockerfile is specified, on an entry with a
      name: the first entry with the specified name is resolved, every other
      one is written as it came. */
  method SpecifiedEntry(cfg: Engine.Config, rs: seq<Resolver>, out: Output, chosen: Option<Resolver>, name: string,
                        e: TarEntry, ghost run: Engine.Run)
    returns (thrown: Option<Failure>, next: Option<Resolver>)
    requires Distinct(rs) && out !in Objects(rs) && cfg.dockerfile.Some?
    requires Engine.Wf(run) && !run.halted && Mirrors(rs, out, chosen, run)
    modifies Objects(rs), out
    ensures Stepped(rs, out, thrown, next, Engine.SpecifiedStep(cfg, run, name, e))
  {
    if chosen.None? && name == cfg.dockerfile.value {
      var r := ResolveSpecifiedFile(cfg, rs, out, name, e, run);
      thrown, next := if r.Err? then Some(r.error) else None, if r.Ok? then Some(r.value) else None;
    } else {
      PassThrough(rs, out, chosen, e, run);
      thrown, next := None, chosen;
    }
  }

  /** An entry written to the output as it came, with no resolver involved. */
  method PassThrough(rs: seq<Resolver>, out: Output, chosen: Option<Resolver>, e: TarEntry, ghost run: Engine.Run)
    requires out !in Objects(rs) && Mirrors(rs, out, chosen, run)
    modifies out
    ensures Mirrors(rs, out, chosen, run.(trace := run.trace + [Written(e.header, e.contents)]))
  {
    out.Entry(e.header, e.contents, rs);
  }

  /** `resolveTarStreamOnFinish` on a run that has not halted: the failure it
      throws, if any, which the caller emits before closing the output. */
  method OnFinish(cfg: Engine.Config, rs: seq<Resolver>, out: Output, chosen: Option<Resolver>, ghost run: Engine.Run)
    returns (thrown: Option<Failure>)
    requires Distinct(rs) && out !in Objects(rs)
    requires Engine.Wf(run) && !run.halted && Mirrors(rs, out, chosen, run)
    modifies Objects(rs), out
    ensures var after := Engine.OnFinish(cfg, run);
      && States(rs) == after.resolvers
      && after.trace == out.trace + (if thrown.Some? then [Emitted(thrown.value)] else []) + [Finalized]
  {
    if cfg.dockerfile.Some? {
      thrown := FinishSpecified(cfg.dockerfile.value, rs, out, chosen, run);
    } else {
      thrown := FinishAuto(cfg, rs, out, run);
    }
  }

  /** The finish handler when a Dockerfile is specified. */
  method FinishSpecified(dockerfile: string, rs: seq<Resolver>, out: Output, chosen: Option<Resolver>,
                         ghost run: Engine.Run)
    returns (thrown: Option<Failure>)
    requires out !in Objects(rs)
    requires Engine.Wf(run) && Mirrors(rs, out, chosen, run)
    modifies out
    ensures var after := Engine.FinishSpecified(dockerfile, run);
      && States(rs) == after.resolvers
      && after.trace == out.trace + (if thrown.Some? then [Emitted(thrown.value)] else []) + [Finalized]
  {
    if chosen.None? {
      out.Report(Emitted(SpecifiedNotResolved(dockerfile)), rs);
      return None;
    }
    var resolver := chosen.value;
    assert resolver.State() == Engine.ChosenState(run);
    thrown := FinishChosen(dockerfile, rs, out, resolver);
  }

  /** The specified Dockerfile was taken by `resolver`: it is reported, then
      its canonical name, then the hook runs. */
  method FinishChosen(dockerfile: string, rs: seq<Resolver>, out: Output, resolver: Resolver)
    returns (thrown: Option<Failure>)
    requires out !in Objects(rs) && resolver.Obj() != out
    modifies out
    ensures States(rs) == old(States(rs))
    ensures out.trace + (if thrown.Some? then [Emitted(thrown.value)] else []) + [Finalized]
         == old(out.trace) + Engine.ChosenEvents(old(resolver.State()), dockerfile)
  {
    var name, location := Name(resolver.State()), CanonicalName(resolver.State(), dockerfile);
    var contents := DockerfileContents(resolver.State());
    thrown := Report(name, location, contents, out, rs);
  }

  /** The reports of the finish handler, in order; a failed `getCanonicalName`
      throws after the first. */
  method Report(name: string, location: Result<string, Failure>, contents: Option<string>, out: Output,
                ghost rs: seq<Resolver>)
    returns (thrown: Option<Failure>)
    requires out !in Objects(rs)
    modifies out
    ensures States(rs) == old(States(rs))
    ensures out.trace + (if thrown.Some? then [Emitted(thrown.value)] else []) + [Finalized]
         == old(out.trace) + Engine.Reported(name, location, contents)
  {
    out.Report(ResolverChosen(name), rs);
    if location.Err? {
      return Some(location.error);
    }
    out.Report(ResolvedName(location.value), rs);
    out.Report(HookCalled(contents), rs);
    thrown := None;
  }

  /** The finish handler in automatic mode. */
  method FinishAuto(cfg: Engine.Config, rs: seq<Resolver>, out: Output, ghost run: Engine.Run)
    returns (thrown: Option<Failure>)
    requires Distinct(rs) && out !in Objects(rs)
    requires States(rs) == run.resolvers && out.trace == run.trace
    modifies Objects(rs), out
    ensures var after := Engine.FinishAuto(cfg, run);
      && States(rs) == after.resolvers
      && after.trace == out.trace + (if thrown.Some? then [Emitted(thrown.value)] else []) + [Finalized]
  {
    var satisfied := CheckEach(rs, cfg.bundle);
    if !exists i :: 0 <= i < |satisfied| && satisfied[i] {
      out.Report(Emitted(ResolutionFailed), rs);
      return None;
    }
    Engine.CheckedPriorities(run.resolvers, cfg.bundle);
    var w := Engine.Pick(States(rs), satisfied);
    Engine.FinishAutoPicked(cfg, run);
    thrown := FinishPicked(cfg, rs, out, w, run);
  }

  /** The picked resolver resolves the bundle; its files are written, then
      its name is reported and the bundle's hook is called. */
  method FinishPicked(cfg: Engine.Config, rs: seq<Resolver>, out: Output, w: nat, ghost run: Engine.Run)
    returns (thrown: Option<Failure>)
    requires Distinct(rs) && out !in Objects(rs) && w < |rs| && out.trace == run.trace
    modifies Objects(rs), out
    ensures var states := old(States(rs));
      var after := Engine.PickedOutcome(run, states, w, Resolved(states[w], cfg.bundle, None, cfg.parse));
      && States(rs) == after.resolvers
      && after.trace == out.trace + (if thrown.Some? then [Emitted(thrown.value)] else []) + [Finalized]
  {
    ghost var states := States(rs);
    ghost var resolved := Resolved(states[w], cfg.bundle, None, cfg.parse);
    thrown := OutputAt(rs, w, out, cfg.bundle, None, cfg.parse);
    if thrown.None? {
      var r := rs[w].State();
      assert resolved.Ok? && resolved.value.0 == r;
      out.Report(ResolverChosen(Name(r)), rs);
      out.Report(HookCalled(DockerfileContents(r)), rs);
    } else {
      assert resolved == Err(thrown.value) && States(rs) == states;
    }
  }

  /** `_(resolvers).filter(r => r.isSatisfied(bundle))`: every resolver is
      asked, in order, and the answers are kept by position. */
  method CheckEach(rs: seq<Resolver>, bundle: Bundle) returns (satisfied: seq<bool>)
    requires Distinct(rs)
    modifies Objects(rs)
    ensures States(rs) == Engine.CheckedStates(old(States(rs)), bundle)
    ensures satisfied == Engine.Answers(old(States(rs)), bundle)
  {
    ghost var before := States(rs);
    satisfied := [];
    var k := 0;
    while k < |rs|
      invariant k <= |rs| && satisfied == Engine.Answers(before, bundle)[..k]
      invariant forall i :: 0 <= i < |rs| ==>
        rs[i].State() == if i < k then Checked(before[i], bundle).0 else before[i]
    {
      var b := rs[k].IsSatisfied(bundle);
      satisfied := satisfied + [b];
      k := k + 1;
    }
  }

  /** `addResolverOutput` on the `k`th resolver of the list: the others keep
      their fields. */
  method OutputAt(rs: seq<Resolver>, k: nat, out: Output, bundle: Bundle, filename: Option<string>,
                  parse: string -> Result<NodeProject.Json, string>)
    returns (thrown: Option<Failure>)
    requires Distinct(rs) && k < |rs| && out !in Objects(rs)
    modifies rs[k].Obj(), out
    ensures States(rs) == old(States(rs))[k := rs[k].State()]
    ensures match Resolved(old(States(rs))[k], bundle, filename, parse)
            case Ok((s, files)) =>
              thrown.None? && rs[k].State() == s && out.trace == old(out.trace) + Engine.Outputs(files)
            case Err(f) =>
              thrown == Some(f) && rs[k].State() == old(States(rs))[k] && out.trace == old(out.trace)
  {
    ghost var before := States(rs);
    thrown := AddResolverOutput(bundle, rs[k], out, filename, parse);
    forall i | 0 <= i < |rs| && i != k
      ensures rs[i].State() == before[i]
    {
      assert rs[i].Obj() != rs[k].Obj();
    }
  }

  /** `addResolverOutput`: the resolver's files are written in order, each
      under its own name and size; a failing `resolve` writes nothing. */
  method AddResolverOutput(bundle: Bundle, resolver: Resolver, out: Output, filename: Option<string>,
                           parse: string -> Result<NodeProject.Json, string>)
    returns (thrown: Option<Failure>)
    requires resolver.Obj() != out
    modifies resolver.Obj(), out
    ensures match Resolved(old(resolver.State()), bundle, filename, parse)
            case Ok((s, files)) =>
              thrown.None? && resolver.State() == s && out.trace == old(out.trace) + Engine.Outputs(files)
            case Err(f) =>
              thrown == Some(f) && resolver.State() == old(resolver.State()) && out.trace == old(out.trace)
  {
    ghost var expected := Resolved(resolver.State(), bundle, filename, parse);
    var r := resolver.Resolve(bundle, filename, parse);
    if r.Err? {
      assert expected == Err(r.error);
      return Some(r.error);
    }
    var files := r.value;
    assert expected.Ok? && expected.value.1 == files && resolver.State() == expected.value.0;
    WriteFiles(out, files);
    return None;
  }

  /** Each file written in order under its own name and size. */
  method WriteFiles(out: Output, files: seq<FileInfo>)
    modifies out
    ensures out.trace == old(out.trace) + Engine.Outputs(files)
  {
    var k := 0;
    while k < |files|
      invariant k <= |files|
      invariant out.trace == old(out.trace) + Engine.Outputs(files[..k])
    {
      Engine.OutputsNext(files, k);
      out.Entry(Header(files[k].name, Some(files[k].size)), files[k].contents, []);
      k := k + 1;
    }
    assert files[..k] == files;
  }

  /** The entry handler in automatic mode, on an entry with a name: the
      resolvers that want it are each given the file once, and the entry is
      written as it came. A resolver without `needsEntry` makes it throw
      before anything is written or given. */
  method AutoEntry(rs: seq<Resolver>, out: Output, name: string, e: TarEntry, ghost run: Engine.Run)
    returns (thrown: Option<Failure>)
    requires Distinct(rs) && out !in Objects(rs)
    requires Engine.Wf(run) && !run.halted && States(rs) == run.resolvers && out.trace == run.trace
    modifies Objects(rs), out
    ensures var next := Engine.AutoStep(run, name, e);
      && States(rs) == next.resolvers && next.chosen == run.chosen
      && (thrown.Some? <==> next.halted)
      && next.trace == out.trace + if thrown.Some? then [Emitted(thrown.value)] else []
  {
    ghost var next := Engine.AutoStep(run, name, e);
    var potentials := Engine.Potentials(States(rs), name);
    if potentials.Err? {
      thrown := Some(potentials.error);
    } else {
      var ps := potentials.value;
      Engine.PotentialsSpec(run.resolvers, name);
      if |ps| > 0 {
        var file := Engine.ToFileInfo(e);
        GiveEach(rs, ps, file);
        out.Entry(e.header, file.contents, rs);
      } else {
        out.Entry(e.header, e.contents, rs);
      }
      thrown := None;
    }
  }

  /** `for (const resolver of potentials) resolver.entry(fileInfo)`: each
      listed resolver is given the file once. */
  method GiveEach(rs: seq<Resolver>, ps: seq<nat>, file: FileInfo)
    requires Distinct(rs) && Increasing(ps) && forall k :: 0 <= k < |ps| ==> ps[k] < |rs|
    modifies Objects(rs)
    ensures States(rs) == Engine.Deliver(old(States(rs)), ps, file)
  {
    ghost var before := States(rs);
    var k := 0;
    while k < |ps|
      invariant k <= |ps|
      invariant forall i :: 0 <= i < |rs| ==>
        rs[i].State() == if i in ps[..k] then AfterEntry(before[i], file) else before[i]
    {
      GivenOnce(ps, k);
      rs[ps[k]].Entry(file);
      k := k + 1;
    }
    assert ps[..k] == ps;
  }

  /** The next position of an increasing list is not among the earlier ones. */
  lemma GivenOnce(ps: seq<nat>, k: nat)
    requires Increasing(ps) && k < |ps|
    ensures ps[k] !in ps[..k] && forall i :: i in ps[..k + 1] <==> i in ps[..k] || i == ps[k]
  {
    assert ps[..k + 1] == ps[..k] + [ps[k]];
  }

  /** `resolveSpecifiedFile`: the specified entry goes to the template
      resolver of greatest priority that accepts it, or else to a standard
      resolver created for it outside the list. */
  method ResolveSpecifiedFile(cfg: Engine.Config, rs: seq<Resolver>, out: Output, name: string, e: TarEntry,
                              ghost run: Engine.Run)
    returns (r: Result<Resolver, Failure>)
    requires Distinct(rs) && out !in Objects(rs)
    requires Engine.Wf(run) && !run.halted && States(rs) == run.resolvers && out.trace == run.trace
    modifies Objects(rs), out
    ensures var next := Engine.ResolveSpecified(cfg, run, name, e);
      && States(rs) == next.resolvers
      && (r.Err? <==> next.halted)
      && (r.Err? ==> next.chosen == run.chosen && next.trace == out.trace + [Emitted(r.error)])
      && (r.Ok? ==> Mirrors(rs, out, Some(r.value), next))
  {
    var accepting := Engine.Accepting(States(rs), name);
    if exists i :: 0 <= i < |rs| && accepting[i] {
      var k := Engine.Pick(States(rs), accepting);
      r := SpecifiedListed(cfg, rs, out, name, e, run, k);
    } else {
      r := SpecifiedFresh(cfg, rs, out, name, e, run);
    }
  }

  /** The outcome `resolveSpecifiedFile` promises, once the step `run` to
      `next` is taken. */
  ghost predicate SpecifiedOutcome(rs: seq<Resolver>, out: Output, r: Result<Resolver, Failure>,
                                   run: Engine.Run, next: Engine.Run)
    reads Objects(rs), out, if r.Ok? then {r.value.Obj()} else {}
  {
    && States(rs) == next.resolvers
    && (r.Err? <==> next.halted)
    && (r.Err? ==> next.chosen == run.chosen && next.trace == out.trace + [Emitted(r.error)])
    && (r.Ok? ==> Mirrors(rs, out, Some(r.value), next))
  }

  /** The specified entry given to the `k`th resolver of the list, the one
      `Pick` chooses among those that accept it. */
  method SpecifiedListed(cfg: Engine.Config, rs: seq<Resolver>, out: Output, name: string, e: TarEntry,
                         ghost run: Engine.Run, k: nat)
    returns (r: Result<Resolver, Failure>)
    requires Distinct(rs) && out !in Objects(rs)
    requires Engine.Wf(run) && !run.halted && States(rs) == run.resolvers && out.trace == run.trace
    requires exists i :: 0 <= i < |run.resolvers| && Engine.Accepting(run.resolvers, name)[i]
    requires Engine.Pick(run.resolvers, Engine.Accepting(run.resolvers, name)) == k
    modifies Objects(rs), out
    ensures SpecifiedOutcome(rs, out, r, run, Engine.ResolveSpecified(cfg, run, name, e))
  {
    var file := Engine.ToFileInfo(e);
    var thrown := ResolveAt(rs, k, out, cfg.bundle, name, file, cfg.parse);
    Engine.ResolveSpecifiedListed(cfg, run, name, e, k);
    r := if thrown.Some? then Err(thrown.value) else Ok(rs[k]);
  }

  /** The specified entry given to a new standard resolver, when no resolver
      of the list accepts it. */
  method SpecifiedFresh(cfg: Engine.Config, rs: seq<Resolver>, out: Output, name: string, e: TarEntry,
                        ghost run: Engine.Run)
    returns (r: Result<Resolver, Failure>)
    requires Distinct(rs) && out !in Objects(rs)
    requires Engine.Wf(run) && !run.halted && States(rs) == run.resolvers && out.trace == run.trace
    requires forall i :: 0 <= i < |run.resolvers| ==> !Engine.Accepting(run.resolvers, name)[i]
    modifies out
    ensures SpecifiedOutcome(rs, out, r, run, Engine.ResolveSpecified(cfg, run, name, e))
  {
    var file := Engine.ToFileInfo(e);
    var std := NewStandard(out, cfg.bundle, name, file, cfg.parse, rs);
    Engine.ResolveSpecifiedFresh(cfg, run, name, e);
    r := Ok(StandardObj(std));
  }

  /** `new DockerfileResolver()` given the file and resolved: it adds no
      file, so only the file itself is written; the list is not touched. */
  method NewStandard(out: Output, bundle: Bundle, name: string, file: FileInfo,
                     parse: string -> Result<NodeProject.Json, string>, ghost rs: seq<Resolver>)
    returns (std: StandardDockerfile.DockerfileResolver)
    requires out !in Objects(rs)
    modifies out
    ensures fresh(std) && std !in Objects(rs)
    ensures StandardObj(std).State() == AfterEntry(Standard(StandardDockerfile.Initial()), file)
    ensures out.trace == old(out.trace) + [Written(Header(file.name, Some(file.size)), file.contents)]
    ensures States(rs) == old(States(rs))
  {
    ghost var before := States(rs);
    std := new StandardDockerfile.DockerfileResolver();
    var thrown := EnterAndResolve(StandardObj(std), out, bundle, name, file, parse);
    // a standard resolver's `resolve` never throws and adds no file
    assert Engine.Outputs([]) == [];
    forall i | 0 <= i < |rs|
      ensures rs[i].State() == before[i]
    {
      assert rs[i].Obj() != std;
    }
  }

  /** `EnterAndResolve` on the `k`th resolver of the list: the others keep
      their fields. */
  method ResolveAt(rs: seq<Resolver>, k: nat, out: Output, bundle: Bundle, name: string, file: FileInfo,
                   parse: string -> Result<NodeProject.Json, string>)
    returns (thrown: Option<Failure>)
    requires Distinct(rs) && k < |rs| && out !in Objects(rs)
    modifies rs[k].Obj(), out
    ensures States(rs) == old(States(rs))[k := rs[k].State()]
    ensures match Resolved(AfterEntry(old(States(rs))[k], file), bundle, Some(name), parse)
            case Err(f) =>
              thrown == Some(f) && rs[k].State() == AfterEntry(old(States(rs))[k], file)
              && out.trace == old(out.trace)
            case Ok((s, files)) =>
              thrown.None? && rs[k].State() == s
              && out.trace == old(out.trace) + Engine.Outputs(files) + [Written(Header(file.name, Some(file.size)), file.contents)]
  {
    ghost var before := States(rs);
    thrown := EnterAndResolve(rs[k], out, bundle, name, file, parse);
    forall i | 0 <= i < |rs| && i != k
      ensures rs[i].State() == before[i]
    {
      assert rs[i].Obj() != rs[k].Obj();
    }
  }

  /** The rest of `resolveSpecifiedFile` once the resolver is chosen: the
      resolver is given the file and resolved against its name; its output is
      written, then the file itself under its own name and size. */
  method EnterAndResolve(resolver: Resolver, out: Output, bundle: Bundle, name: string, file: FileInfo,
                         parse: string -> Result<NodeProject.Json, string>)
    returns (thrown: Option<Failure>)
    requires resolver.Obj() != out
    modifies resolver.Obj(), out
    ensures match Resolved(AfterEntry(old(resolver.State()), file), bundle, Some(name), parse)
            case Err(f) =>
              thrown == Some(f) && resolver.State() == AfterEntry(old(resolver.State()), file)
              && out.trace == old(out.trace)
            case Ok((s, files)) =>
              thrown.None? && resolver.State() == s
              && out.trace == old(out.trace) + Engine.Outputs(files) + [Written(Header(file.name, Some(file.size)), file.contents)]
  {
    resolver.Entry(file);
    thrown := AddResolverOutput(bundle, resolver, out, Some(name), parse);
    if thrown.None? {
      out.Entry(Header(file.name, Some(file.size)), file.contents, []);
    }
  }
}
