/** The current resolution engine (`resolveInput` in src/index.ts) as a function
    of its input: the archive's entries in order, the resolvers' fields, the
    bundle, the optional user-specified Dockerfile path and the JSON parser.
    The result is the resolvers' new fields and the trace of what the run
    writes and emits.

    The entry handler awaits each step before asking for the next entry, so
    entries are handled one at a time, in order. An entry handler that throws
    emits the error and never asks for the next entry: the run is then halted,
    no further entry is read and the finish handler never runs. */
module Engine {
  import opened Wrappers
  import opened Types
  import opened Paths
  import opened Ordering
  import opened Resolvers
  import StandardDockerfile
  import NodeProject
  import DockerfileTemplate
  import opened Template

  /** The inputs that stay fixed during a run; `dockerfile` is already
      normalised. */
  datatype Config = Config(
    bundle: Bundle,
    dockerfile: Option<string>,
    parse: string -> Result<NodeProject.Json, string>)

  /** The resolver that took the specified Dockerfile: one of the list, or a
      standard resolver created for the purpose. */
  datatype Chosen = Listed(index: nat) | Fresh(resolver: ResolverState)

  /** The state between two entries. */
  datatype Run = Run(
    resolvers: seq<ResolverState>,
    chosen: Option<Chosen>,
    trace: seq<Event>,
    halted: bool)

  predicate Wf(run: Run)
  {
    run.chosen.Some? && run.chosen.value.Listed? ==> run.chosen.value.index < |run.resolvers|
  }

  function ChosenState(run: Run): ResolverState
    requires Wf(run) && run.chosen.Some?
  {
    match run.chosen.value
    case Listed(i) => run.resolvers[i]
    case Fresh(r) => r
  }

  /** `streamToFileInfo`: the normalised name, `header.size || 0`, the bytes. */
  function ToFileInfo(e: TarEntry): FileInfo
  {
    FileInfo(NormalizeTarEntry(e.header.name), HeaderSize(e.header), e.contents)
  }

  /** No event closes the output. */
  predicate Open(events: seq<Event>)
  {
    forall i :: 0 <= i < |events| ==> events[i] != Finalized
  }

  /** `r` continues `run`: the trace only grows, the new events leave the
      output open, a halted run stays as it was, and a run that halts has
      just emitted an error. */
  predicate Continues(run: Run, r: Run)
  {
    && run.trace <= r.trace && Open(r.trace[|run.trace|..])
    && (run.halted ==> r == run)
    && (r.halted && !run.halted ==> |r.trace| > 0 && r.trace[|r.trace| - 1].Emitted?)
  }

  /** `r` ends `run`: new events were added that leave the output open until
      the last one closes it. */
  predicate Closes(run: Run, r: Run)
  {
    && |run.trace| < |r.trace| && r.trace[..|run.trace|] == run.trace
    && r.trace[|r.trace| - 1] == Finalized && Open(r.trace[|run.trace|..|r.trace| - 1])
  }

  /** How a whole run ends: a halted run has emitted an error as its last
      event and never closed the output; any other run closes the output
      with its last event and not before. */
  predicate Ended(r: Run)
  {
    && |r.trace| > 0
    && (r.halted ==> Open(r.trace) && r.trace[|r.trace| - 1].Emitted?)
    && (!r.halted ==> r.trace[|r.trace| - 1] == Finalized && Open(r.trace[..|r.trace| - 1]))
  }

  /** `addResolverOutput`'s writes: each file under its own name and size. */
  function Outputs(files: seq<FileInfo>): (r: seq<Event>)
    ensures |r| == |files| && forall i :: 0 <= i < |r| ==> r[i].Written? && r[i].contents == files[i].contents
  {
    seq(|files|, i requires 0 <= i < |files| =>
      Written(Header(files[i].name, Some(files[i].size)), files[i].contents))
  }

  /** Writing one more file extends the writes by that file's entry. */
  lemma OutputsNext(files: seq<FileInfo>, k: nat)
    requires k < |files|
    ensures Outputs(files[..k + 1]) == Outputs(files[..k]) + [Written(Header(files[k].name, Some(files[k].size)), files[k].contents)]
  {
  }

  /** `r.needsEntry(name)` asked of each resolver. */
  function NeedsEntries(rs: seq<ResolverState>, name: string): seq<Result<bool, Failure>>
  {
    seq(|rs|, i requires 0 <= i < |rs| => NeedsEntry(rs[i], name))
  }

  /** `resolvers.filter(r => r.needsEntry(name))`, by position; the first call
      that throws ends the filter. */
  function Potentials(rs: seq<ResolverState>, name: string): Result<seq<nat>, Failure>
  {
    FilterOrFail(NeedsEntries(rs, name))
  }

  /** Every resolver listed in `ps` is given `file`, once. */
  function Deliver(rs: seq<ResolverState>, ps: seq<nat>, file: FileInfo): seq<ResolverState>
  {
    seq(|rs|, i requires 0 <= i < |rs| => if i in ps then AfterEntry(rs[i], file) else rs[i])
  }

  function Priorities(rs: seq<ResolverState>): seq<int>
  {
    seq(|rs|, i requires 0 <= i < |rs| => Priority(rs[i]))
  }

  /** Whether each resolver accepts the specified file
      (`allowSpecifiedDockerfile && needsEntry(filename)`); `needsEntry` is
      only asked of a resolver that allows a specified file. */
  function Accepting(rs: seq<ResolverState>, name: string): seq<bool>
  {
    seq(|rs|, i requires 0 <= i < |rs| => AllowsSpecifiedDockerfile(rs[i]) && NeedsEntry(rs[i], name) == Ok(true))
  }

  /** The resolvers' fields once `isSatisfied(bundle)` was asked of each. */
  function CheckedStates(rs: seq<ResolverState>, bundle: Bundle): seq<ResolverState>
  {
    seq(|rs|, i requires 0 <= i < |rs| => Checked(rs[i], bundle).0)
  }

  /** The answers of `isSatisfied(bundle)`, resolver by resolver. */
  function Answers(rs: seq<ResolverState>, bundle: Bundle): seq<bool>
  {
    seq(|rs|, i requires 0 <= i < |rs| => Checked(rs[i], bundle).1)
  }

  /** The earliest resolver of greatest priority among the marked ones, as the
      stable descending `orderBy` puts it first. */
  function Pick(rs: seq<ResolverState>, keep: seq<bool>): (k: nat)
    requires |keep| == |rs| && exists i :: 0 <= i < |keep| && keep[i]
    ensures k < |rs|
  {
    TopOfFilter(Priorities(rs), keep);
    Top(Rank(Priorities(rs), Positions(keep)))
  }

  /** Asking whether a resolver is satisfied never changes its priority. */
  lemma CheckedPriorities(rs: seq<ResolverState>, bundle: Bundle)
    ensures Priorities(CheckedStates(rs, bundle)) == Priorities(rs)
  {
    forall i | 0 <= i < |rs|
      ensures Priority(CheckedStates(rs, bundle)[i]) == Priority(rs[i])
    {
      CheckedKeepsClass(rs[i], bundle);
    }
  }

  /** `resolveSpecifiedFile` on the entry `e` whose normalised name is `name`. */
  function ResolveSpecified(cfg: Config, run: Run, name: string, e: TarEntry): (r: Run)
    requires Wf(run) && !run.halted
    ensures Wf(r) && |r.resolvers| == |run.resolvers|
    ensures Continues(run, r)
  {
    var rs := run.resolvers;
    var file := ToFileInfo(e);
    var accepting := Accepting(rs, name);
    var chosen := if exists i :: 0 <= i < |rs| && accepting[i] then Listed(Pick(rs, accepting))
                  else Fresh(Standard(StandardDockerfile.Initial()));
    var r := AfterEntry(match chosen case Listed(i) => rs[i] case Fresh(s) => s, file);
    var rs1 := if chosen.Listed? then rs[chosen.index := r] else rs;
    match Resolved(r, cfg.bundle, Some(name), cfg.parse)
    case Err(f) =>
      var out := run.(resolvers := rs1, trace := run.trace + [Emitted(f)], halted := true);
      ContinuesWith(run, out, [Emitted(f)]);
      out
    case Ok((r2, files)) =>
      var written := [Written(Header(file.name, Some(file.size)), file.contents)];
      var out := run.(resolvers := if chosen.Listed? then rs[chosen.index := r2] else rs,
                      chosen := Some(if chosen.Listed? then chosen else Fresh(r2)),
                      trace := run.trace + Outputs(files) + written);
      OutputsOpen(files, written);
      ContinuesWith(run, out, Outputs(files) + written);
      out
  }

  /** The `entry` handler (`resolveTarStreamOnEntry`). */
  function OnEntry(cfg: Config, run: Run, e: TarEntry): (r: Run)
    requires Wf(run)
    ensures Wf(r) && |r.resolvers| == |run.resolvers|
    ensures Continues(run, r)
    ensures cfg.dockerfile.None? ==> r.chosen == run.chosen
  {
    var name := NormalizeTarEntry(e.header.name);
    if run.halted || name == "" then run
    else if cfg.dockerfile.Some? then SpecifiedStep(cfg, run, name, e)
    else AutoStep(run, name, e)
  }

  /** A named entry when a Dockerfile is specified: the first entry with the
      specified name is resolved, every other one is passed through. */
  function SpecifiedStep(cfg: Config, run: Run, name: string, e: TarEntry): (r: Run)
    requires Wf(run) && !run.halted && cfg.dockerfile.Some?
    ensures Wf(r) && |r.resolvers| == |run.resolvers|
    ensures Continues(run, r)
  {
    if run.chosen.None? && name == cfg.dockerfile.value then ResolveSpecified(cfg, run, name, e)
    else run.(trace := run.trace + [Written(e.header, e.contents)])
  }

  /** A named entry when no Dockerfile is specified: it goes to the resolvers
      that want it and is written as it came. */
  function AutoStep(run: Run, name: string, e: TarEntry): (r: Run)
    requires Wf(run) && !run.halted
    ensures Wf(r) && |r.resolvers| == |run.resolvers|
    ensures Continues(run, r)
  {
    match Potentials(run.resolvers, name)
    case Err(f) => run.(trace := run.trace + [Emitted(f)], halted := true)
    case Ok(ps) =>
      run.(resolvers := if ps == [] then run.resolvers else Deliver(run.resolvers, ps, ToFileInfo(e)),
           trace := run.trace + [Written(e.header, e.contents)])
  }

  /** The entries, in order. */
  function Entries(cfg: Config, run: Run, es: seq<TarEntry>): (r: Run)
    requires Wf(run)
    ensures Wf(r) && |r.resolvers| == |run.resolvers|
    ensures Continues(run, r)
    ensures cfg.dockerfile.None? ==> r.chosen == run.chosen
    decreases |es|
  {
    if es == [] then run
    else
      var before := Entries(cfg, run, es[..|es| - 1]);
      OnEntry(cfg, before, es[|es| - 1])
  }

  /** The `finish` handler (`resolveTarStreamOnFinish` and the `finally` that
      closes the output). A halted run never reaches it. */
  function OnFinish(cfg: Config, run: Run): (r: Run)
    requires Wf(run)
    ensures run.halted ==> r == run
    ensures !run.halted ==> Closes(run, r)
    ensures r.halted == run.halted
  {
    if run.halted then run
    else if cfg.dockerfile.Some? then FinishSpecified(cfg.dockerfile.value, run)
    else FinishAuto(cfg, run)
  }

  /** The finish handler when a Dockerfile is specified: the resolver that
      took it is reported, then the canonical name, then the hook runs. */
  function FinishSpecified(dockerfile: string, run: Run): (r: Run)
    requires Wf(run)
    ensures Closes(run, r)
  {
    if run.chosen.None? then
      var out := run.(trace := run.trace + [Emitted(SpecifiedNotResolved(dockerfile)), Finalized]);
      ClosesWith(run, out, [Emitted(SpecifiedNotResolved(dockerfile))]);
      out
    else
      var r := ChosenState(run);
      var out := run.(trace := run.trace + ChosenEvents(r, dockerfile));
      ReportedCloses(run, out, Name(r), CanonicalName(r, dockerfile), DockerfileContents(r));
      out
  }

  /** What the finish handler reports once `r` has taken the specified
      Dockerfile. */
  function ChosenEvents(r: ResolverState, dockerfile: string): seq<Event>
  {
    Reported(Name(r), CanonicalName(r, dockerfile), DockerfileContents(r))
  }

  /** The resolver's name, then its canonical name (or the error asking for
      it threw), then the hook, and the close. */
  function Reported(name: string, location: Result<string, Failure>, contents: Option<string>): seq<Event>
  {
    [ResolverChosen(name)]
    + match location
      case Err(f) => [Emitted(f), Finalized]
      case Ok(p) => [ResolvedName(p), HookCalled(contents), Finalized]
  }

  /** The finish handler in automatic mode: every resolver is asked whether
      it is satisfied, and the first satisfied one in priority order
      resolves the bundle; its files are written, then it is reported and the
      hook runs. */
  function FinishAuto(cfg: Config, run: Run): (r: Run)
    ensures Closes(run, r)
  {
    var states := CheckedStates(run.resolvers, cfg.bundle);
    var satisfied := Answers(run.resolvers, cfg.bundle);
    if !exists i :: 0 <= i < |satisfied| && satisfied[i] then
      var out := run.(resolvers := states, trace := run.trace + [Emitted(ResolutionFailed), Finalized]);
      ClosesWith(run, out, [Emitted(ResolutionFailed)]);
      out
    else
      var w := Pick(run.resolvers, satisfied);
      var out := PickedOutcome(run, states, w, Resolved(states[w], cfg.bundle, None, cfg.parse));
      PickedCloses(run, states, w, Resolved(states[w], cfg.bundle, None, cfg.parse));
      out
  }

  /** The run's fixed inputs; a specified Dockerfile path is normalised so
      that it matches the archive's entry names. */
  function Setup(bundle: Bundle, dockerfile: Option<string>, parse: string -> Result<NodeProject.Json, string>): Config
  {
    Config(bundle, if dockerfile.Some? then Some(NormalizeTarEntry(dockerfile.value)) else None, parse)
  }

  /** `resolveInput(bundle, resolvers, listeners, dockerfile)`. The output
      archive is closed exactly once, by the last event of the run, unless an
      entry handler threw: then the run ends on that error and the output is
      never closed. */
  function ResolveInput(bundle: Bundle, rs: seq<ResolverState>, es: seq<TarEntry>,
                        dockerfile: Option<string>, parse: string -> Result<NodeProject.Json, string>): (r: Run)
    ensures Ended(r)
  {
    var cfg := Setup(bundle, dockerfile, parse);
    var start := Run(rs, None, [], false);
    var mid := Entries(cfg, start, es);
    TraceCloses(start, mid, OnFinish(cfg, mid));
    OnFinish(cfg, mid)
  }

  /** A run is its entries followed by the finish handler. */
  lemma ResolveInputSteps(bundle: Bundle, rs: seq<ResolverState>, es: seq<TarEntry>,
                          dockerfile: Option<string>, parse: string -> Result<NodeProject.Json, string>)
    ensures var cfg := Setup(bundle, dockerfile, parse);
      ResolveInput(bundle, rs, es, dockerfile, parse) == OnFinish(cfg, Entries(cfg, Run(rs, None, [], false), es))
  {
  }

  // ---------------------------------------------------------------------------
  // Entries

  /** An entry whose name normalises to nothing is drained: nothing is written
      and no resolver sees it. A halted run reads no further entry. */
  lemma EntrySkipped(cfg: Config, run: Run, e: TarEntry)
    requires Wf(run) && (run.halted || NormalizeTarEntry(e.header.name) == "")
    ensures OnEntry(cfg, run, e) == run
  {
  }

  /** An entry with a name goes to the specified-file step or the automatic
      step, by mode. */
  lemma EntryDispatch(cfg: Config, run: Run, e: TarEntry)
    requires Wf(run) && !run.halted && NormalizeTarEntry(e.header.name) != ""
    ensures var name := NormalizeTarEntry(e.header.name);
      OnEntry(cfg, run, e) == if cfg.dockerfile.Some? then SpecifiedStep(cfg, run, name, e) else AutoStep(run, name, e)
  {
  }

  /** In automatic mode an entry with a name is given, once, to every resolver
      whose `needsEntry` accepts it, and written to the output under its own
      header with its own bytes; the other resolvers are untouched. */
  lemma AutoStepDelivers(run: Run, name: string, e: TarEntry)
    requires Wf(run) && !run.halted
    requires forall i :: 0 <= i < |run.resolvers| ==> NeedsEntry(run.resolvers[i], name).Ok?
    ensures var rs := run.resolvers;
      var r := AutoStep(run, name, e);
      && r == run.(resolvers := r.resolvers, trace := run.trace + [Written(e.header, e.contents)])
      && forall i :: 0 <= i < |rs| ==>
           r.resolvers[i] == (if NeedsEntry(rs[i], name) == Ok(true) then AfterEntry(rs[i], ToFileInfo(e)) else rs[i])
  {
    var rs := run.resolvers;
    var answers := NeedsEntries(rs, name);
    FilterOrFailSpec(answers);
    var keep := seq(|answers|, i requires 0 <= i < |answers| => answers[i] == Ok(true));
    PositionsSpec(keep);
  }

  /** A resolver without `needsEntry` makes the handler throw: the error of the
      first such resolver is emitted, nothing is written, no resolver is given
      the entry, and the run halts. */
  lemma AutoStepThrows(run: Run, name: string, e: TarEntry, i: nat)
    requires Wf(run) && !run.halted && i < |run.resolvers| && NeedsEntry(run.resolvers[i], name).Err?
    requires forall j :: 0 <= j < i ==> NeedsEntry(run.resolvers[j], name).Ok?
    ensures AutoStep(run, name, e)
         == run.(trace := run.trace + [Emitted(NeedsEntry(run.resolvers[i], name).error)], halted := true)
  {
    var rs := run.resolvers;
    var answers := NeedsEntries(rs, name);
    FilterOrFailSpec(answers);
    assert answers[i].Err?;
    var k :| 0 <= k < |answers| && answers[k] == Err(FilterOrFail(answers).error)
             && forall j :: 0 <= j < k ==> answers[j].Ok?;
    assert k == i;
  }

  /** The positions `needsEntry` keeps are in range, each appears once, in
      list order, and they are exactly the resolvers that want the name. */
  lemma PotentialsSpec(rs: seq<ResolverState>, name: string)
    requires Potentials(rs, name).Ok?
    ensures var ps := Potentials(rs, name).value;
      && (forall k :: 0 <= k < |ps| ==> ps[k] < |rs|) && Increasing(ps)
      && forall i :: 0 <= i < |rs| ==> (i in ps <==> NeedsEntry(rs[i], name) == Ok(true))
  {
    var answers := NeedsEntries(rs, name);
    FilterOrFailSpec(answers);
    PositionsSpec(seq(|answers|, i requires 0 <= i < |answers| => answers[i] == Ok(true)));
  }

  /** Outside the specified entry's first occurrence, every named entry is
      written as it came and no resolver sees it. */
  lemma SpecifiedPassThrough(cfg: Config, run: Run, name: string, e: TarEntry)
    requires Wf(run) && !run.halted && cfg.dockerfile.Some?
    requires run.chosen.Some? || name != cfg.dockerfile.value
    ensures SpecifiedStep(cfg, run, name, e) == run.(trace := run.trace + [Written(e.header, e.contents)])
  {
  }

  // ---------------------------------------------------------------------------
  // The pick

  /** The picked resolver is a marked one of greatest priority among the
      marked ones, and the earliest such. */
  lemma PickSpec(rs: seq<ResolverState>, keep: seq<bool>)
    requires |keep| == |rs| && exists i :: 0 <= i < |keep| && keep[i]
    ensures keep[Pick(rs, keep)]
    ensures forall i :: 0 <= i < |rs| && keep[i] ==> Priority(rs[i]) <= Priority(rs[Pick(rs, keep)])
    ensures forall i :: 0 <= i < Pick(rs, keep) && keep[i] ==> Priority(rs[i]) < Priority(rs[Pick(rs, keep)])
  {
    TopOfFilter(Priorities(rs), keep);
  }

  /** Only the template resolver accepts a specified file, and only one whose
      basename is `Dockerfile.template`. */
  lemma AcceptingSpec(rs: seq<ResolverState>, name: string)
    ensures |Accepting(rs, name)| == |rs|
    ensures forall i :: 0 <= i < |rs| ==>
      (Accepting(rs, name)[i] <==> rs[i].Templated? && Basename(name) == "Dockerfile.template")
  {
  }

  // ---------------------------------------------------------------------------
  // The specified Dockerfile

  /** A specified file no template resolver accepts goes to a new standard
      resolver, not to one of the list: the file is written under its
      normalised name with its header size and bytes, and nothing else is
      added. */
  lemma SpecifiedPlain(cfg: Config, run: Run, name: string, e: TarEntry)
    requires Wf(run) && !run.halted && name == NormalizeTarEntry(e.header.name)
    requires forall i :: 0 <= i < |run.resolvers| ==>
      !run.resolvers[i].Templated? || Basename(name) != "Dockerfile.template"
    ensures ResolveSpecified(cfg, run, name, e)
         == run.(chosen := Some(Fresh(Standard(StandardDockerfile.State(name == "Dockerfile")))),
                 trace := run.trace + [Written(Header(name, Some(HeaderSize(e.header))), e.contents)])
  {
    AcceptingSpec(run.resolvers, name);
    assert Outputs([]) == [];
  }

  /** A specified `Dockerfile.template` goes to the first template resolver of
      the list. Its processed text is written under the specified name without
      its extension, sized by its byte length, and then the template itself
      under its own name; a template that cannot be processed halts the run
      with the template error. */
  lemma SpecifiedTemplate(cfg: Config, run: Run, name: string, e: TarEntry, k: nat)
    requires Wf(run) && !run.halted && name == NormalizeTarEntry(e.header.name)
    requires Basename(name) == "Dockerfile.template"
    requires k < |run.resolvers| && run.resolvers[k].Templated?
    requires forall j :: 0 <= j < k ==> !run.resolvers[j].Templated?
    ensures var r := ResolveSpecified(cfg, run, name, e);
      match Process(e.contents, DockerfileTemplate.Variables(cfg.bundle))
      case Err(te) => r.halted && r.trace == run.trace + [Emitted(Failure.Template(te))]
      case Ok(out) =>
        && !r.halted && r.chosen == Some(Listed(k))
        && r.resolvers == run.resolvers[k := Templated(DockerfileTemplate.State(true, Some(e.contents), Some(out)))]
        && r.trace == run.trace + [Written(Header(RemoveExtension(name), Some(Utf8Length(out))), out),
                                   Written(Header(name, Some(HeaderSize(e.header))), e.contents)]
  {
    var rs := run.resolvers;
    var file := ToFileInfo(e);
    PickFirstTemplate(rs, name, k);
    ResolveSpecifiedListed(cfg, run, name, e, k);
    assert rs[k] == Templated(rs[k].tpl);
    TemplateEntryThenResolve(rs[k].tpl, file, cfg.bundle, name, cfg.parse);
    TemplateOutcome(run, k, file, name, Resolved(AfterEntry(rs[k], file), cfg.bundle, Some(name), cfg.parse),
                    Process(e.contents, DockerfileTemplate.Variables(cfg.bundle)));
  }

  /** What the entry handler makes of the template resolver's outcome. */
  lemma TemplateOutcome(run: Run, k: nat, file: FileInfo, name: string,
                        res: Result<(ResolverState, seq<FileInfo>), Failure>, p: Result<string, TemplateError>)
    requires Wf(run) && !run.halted && k < |run.resolvers|
    requires res == match p
                    case Err(te) => Err(Failure.Template(te))
                    case Ok(out) =>
                      Ok((Templated(DockerfileTemplate.State(true, Some(file.contents), Some(out))),
                          [FileInfo(RemoveExtension(name), Utf8Length(out), out)]))
    ensures var r := ListedOutcome(run, k, file, res);
      match p
      case Err(te) => r.halted && r.trace == run.trace + [Emitted(Failure.Template(te))]
      case Ok(out) =>
        && !r.halted && r.chosen == Some(Listed(k))
        && r.resolvers == run.resolvers[k := Templated(DockerfileTemplate.State(true, Some(file.contents), Some(out)))]
        && r.trace == run.trace + [Written(Header(RemoveExtension(name), Some(Utf8Length(out))), out),
                                   Written(Header(file.name, Some(file.size)), file.contents)]
  {
    match p
    case Err(te) =>
    case Ok(out) =>
      var f := FileInfo(RemoveExtension(name), Utf8Length(out), out);
      assert Outputs([f]) == [Written(Header(f.name, Some(f.size)), out)];
  }

  /** With a `Dockerfile.template` name, the first template resolver of the
      list is the one picked. */
  lemma PickFirstTemplate(rs: seq<ResolverState>, name: string, k: nat)
    requires Basename(name) == "Dockerfile.template"
    requires k < |rs| && rs[k].Templated?
    requires forall j :: 0 <= j < k ==> !rs[j].Templated?
    ensures (exists i :: 0 <= i < |rs| && Accepting(rs, name)[i]) && Pick(rs, Accepting(rs, name)) == k
  {
    var acc := Accepting(rs, name);
    AcceptingSpec(rs, name);
    assert acc[k];
    PickSpec(rs, acc);
  }

  /** `resolveSpecifiedFile` when the picked resolver is the `k`-th of the
      list: only that resolver sees the file, and on success its output and
      then the file are written. */
  lemma ResolveSpecifiedListed(cfg: Config, run: Run, name: string, e: TarEntry, k: nat)
    requires Wf(run) && !run.halted
    requires exists i :: 0 <= i < |run.resolvers| && Accepting(run.resolvers, name)[i]
    requires Pick(run.resolvers, Accepting(run.resolvers, name)) == k
    ensures var file := ToFileInfo(e);
      ResolveSpecified(cfg, run, name, e)
        == ListedOutcome(run, k, file, Resolved(AfterEntry(run.resolvers[k], file), cfg.bundle, Some(name), cfg.parse))
  {
  }

  /** The run after the listed resolver `k`, given `file`, resolved to `res`. */
  function ListedOutcome(run: Run, k: nat, file: FileInfo, res: Result<(ResolverState, seq<FileInfo>), Failure>): Run
    requires k < |run.resolvers|
  {
    var rs := run.resolvers;
    match res
    case Err(f) =>
      run.(resolvers := rs[k := AfterEntry(rs[k], file)], trace := run.trace + [Emitted(f)], halted := true)
    case Ok((r, files)) =>
      run.(resolvers := rs[k := r], chosen := Some(Listed(k)),
           trace := run.trace + Outputs(files) + [Written(Header(file.name, Some(file.size)), file.contents)])
  }

  /** `resolveSpecifiedFile` when no resolver of the list accepts the file:
      a new standard resolver takes it, the list is untouched, and only the
      file itself is written. */
  lemma ResolveSpecifiedFresh(cfg: Config, run: Run, name: string, e: TarEntry)
    requires Wf(run) && !run.halted
    requires forall i :: 0 <= i < |run.resolvers| ==> !Accepting(run.resolvers, name)[i]
    ensures var file := ToFileInfo(e);
      ResolveSpecified(cfg, run, name, e)
        == run.(chosen := Some(Fresh(AfterEntry(Standard(StandardDockerfile.Initial()), file))),
                trace := run.trace + [Written(Header(file.name, Some(file.size)), file.contents)])
  {
    assert Outputs([]) == [];
  }

  // ---------------------------------------------------------------------------
  // Finish

  /** With a specified Dockerfile that no entry matched, the run reports it
      missing and closes the output. */
  lemma FinishSpecifiedMissing(cfg: Config, run: Run)
    requires Wf(run) && !run.halted && cfg.dockerfile.Some? && run.chosen.None?
    ensures OnFinish(cfg, run)
         == run.(trace := run.trace + [Emitted(SpecifiedNotResolved(cfg.dockerfile.value)), Finalized])
  {
  }

  /** With a specified Dockerfile taken by a template resolver, the run
      reports the template project type, the specified name without its
      extension and the resolver's processed text, then closes the output. A
      resolver of another class has no `getCanonicalName`: the call throws
      after the project type was reported. */
  lemma FinishSpecifiedChosen(cfg: Config, run: Run)
    requires Wf(run) && !run.halted && cfg.dockerfile.Some? && run.chosen.Some?
    ensures var r := ChosenState(run);
      var d := cfg.dockerfile.value;
      OnFinish(cfg, run).trace == run.trace +
        if r.Templated? then
          [ResolverChosen("Dockerfile.template"), ResolvedName(RemoveExtension(d)),
           HookCalled(r.tpl.dockerfileContents), Finalized]
        else
          [ResolverChosen(Name(r)), Emitted(MissingMember("resolver.getCanonicalName")), Finalized]
    ensures OnFinish(cfg, run).resolvers == run.resolvers && OnFinish(cfg, run).chosen == run.chosen
  {
  }

  /** In automatic mode, when no resolver is satisfied the run fails with the
      resolution error: no project type is reported and the hook does not
      run. Every resolver has still been asked. */
  lemma FinishAutoUnresolved(cfg: Config, run: Run)
    requires Wf(run) && !run.halted && cfg.dockerfile.None?
    requires forall i :: 0 <= i < |run.resolvers| ==> !Checked(run.resolvers[i], cfg.bundle).1
    ensures OnFinish(cfg, run)
         == run.(resolvers := CheckedStates(run.resolvers, cfg.bundle),
                 trace := run.trace + [Emitted(ResolutionFailed), Finalized])
  {
  }

  /** The finish handler in automatic mode once some resolver is satisfied:
      the picked one resolves the bundle. */
  lemma FinishAutoPicked(cfg: Config, run: Run)
    requires exists i :: 0 <= i < |run.resolvers| && Answers(run.resolvers, cfg.bundle)[i]
    ensures var states := CheckedStates(run.resolvers, cfg.bundle);
      var w := Pick(run.resolvers, Answers(run.resolvers, cfg.bundle));
      FinishAuto(cfg, run) == PickedOutcome(run, states, w, Resolved(states[w], cfg.bundle, None, cfg.parse))
  {
  }

  /** The finish handler's result once resolver `w` of the checked `states`
      has resolved the bundle with `res`. */
  function PickedOutcome(run: Run, states: seq<ResolverState>, w: nat,
                         res: Result<(ResolverState, seq<FileInfo>), Failure>): Run
    requires w < |states|
  {
    match res
    case Err(f) => run.(resolvers := states, trace := run.trace + [Emitted(f), Finalized])
    case Ok((r, files)) =>
      run.(resolvers := states[w := r],
           trace := run.trace + Outputs(files)
                    + [ResolverChosen(Name(r)), HookCalled(DockerfileContents(r)), Finalized])
  }

  /** In automatic mode the satisfied resolver of greatest priority, the
      earliest among equals, resolves the bundle: its files are written under
      their own names and sizes, then its project type is reported and the
      hook is given its Dockerfile contents, and the output is closed. A
      failing resolve emits its error instead. */
  lemma FinishAutoResolves(cfg: Config, run: Run, w: nat)
    requires Wf(run) && !run.halted && cfg.dockerfile.None?
    requires w < |run.resolvers| && Checked(run.resolvers[w], cfg.bundle).1
    requires forall i :: 0 <= i < |run.resolvers| && Checked(run.resolvers[i], cfg.bundle).1 ==>
      Priority(run.resolvers[i]) <= Priority(run.resolvers[w])
    requires forall i :: 0 <= i < w && Checked(run.resolvers[i], cfg.bundle).1 ==>
      Priority(run.resolvers[i]) < Priority(run.resolvers[w])
    ensures var rs := run.resolvers;
      var states := CheckedStates(rs, cfg.bundle);
      OnFinish(cfg, run)
        == match Resolved(Checked(rs[w], cfg.bundle).0, cfg.bundle, None, cfg.parse)
           case Err(f) => run.(resolvers := states, trace := run.trace + [Emitted(f), Finalized])
           case Ok((r, files)) =>
             run.(resolvers := states[w := r],
                  trace := run.trace + Outputs(files)
                           + [ResolverChosen(Name(rs[w])), HookCalled(DockerfileContents(r)), Finalized])
  {
    var rs := run.resolvers;
    var satisfied := Answers(rs, cfg.bundle);
    assert satisfied[w];
    PickSpec(rs, satisfied);
    var p := Pick(rs, satisfied);
    assert Priority(rs[p]) == Priority(rs[w]);
    assert p == w;
    var states := CheckedStates(rs, cfg.bundle);
    CheckedKeepsClass(rs[w], cfg.bundle);
    ResolvedKeepsClass(states[w], cfg.bundle, None, cfg.parse);
  }

  // ---------------------------------------------------------------------------
  // Whole runs

  /** Handling entries one list after another is handling the joined list. */
  lemma {:induction false} EntriesAppend(cfg: Config, run: Run, es1: seq<TarEntry>, es2: seq<TarEntry>)
    requires Wf(run)
    ensures Entries(cfg, run, es1 + es2) == Entries(cfg, Entries(cfg, run, es1), es2)
    decreases |es2|
  {
    if es2 == [] {
      assert es1 + es2 == es1;
    } else {
      var init := es2[..|es2| - 1];
      assert (es1 + es2)[..|es1 + es2| - 1] == es1 + init;
      EntriesAppend(cfg, run, es1, init);
    }
  }

  /** One more entry is one more call of the entry handler. */
  lemma EntriesNext(cfg: Config, run: Run, es: seq<TarEntry>, i: nat)
    requires Wf(run) && i < |es|
    ensures Entries(cfg, run, es[..i + 1]) == OnEntry(cfg, Entries(cfg, run, es[..i]), es[i])
  {
    assert es[..i + 1][..i] == es[..i];
  }

  /** Entries whose names normalise to nothing leave the run as it was. */
  lemma {:induction false} EntriesUnnamed(cfg: Config, run: Run, es: seq<TarEntry>)
    requires Wf(run)
    requires forall j :: 0 <= j < |es| ==> NormalizeTarEntry(es[j].header.name) == ""
    ensures Entries(cfg, run, es) == run
    decreases |es|
  {
    if es != [] {
      EntriesUnnamed(cfg, run, es[..|es| - 1]);
    }
  }

  /** A run that starts open and goes on through entries and a finish that
      closes it unless halted, ends closed once or on an error. */
  lemma TraceCloses(start: Run, mid: Run, r: Run)
    requires !start.halted && Open(start.trace) && Continues(start, mid)
    requires r.halted == mid.halted && (mid.halted ==> r == mid) && (!mid.halted ==> Closes(mid, r))
    ensures Ended(r)
  {
    assert mid.trace == start.trace + mid.trace[|start.trace|..];
    if !mid.halted {
      OpenThenCloses(mid, r);
    }
  }

  /** Events that leave the output open, then the close. */
  lemma ClosesWith(run: Run, r: Run, middle: seq<Event>)
    requires r.trace == run.trace + middle + [Finalized] && Open(middle)
    ensures Closes(run, r)
  {
    assert r.trace[|run.trace|..|r.trace| - 1] == middle;
  }

  lemma ReportedCloses(run: Run, r: Run, name: string, location: Result<string, Failure>, contents: Option<string>)
    requires r.trace == run.trace + Reported(name, location, contents)
    ensures Closes(run, r)
  {
    var middle := match location
      case Err(f) => [ResolverChosen(name), Emitted(f)]
      case Ok(p) => [ResolverChosen(name), ResolvedName(p), HookCalled(contents)];
    assert Reported(name, location, contents) == middle + [Finalized];
    ClosesWith(run, r, middle);
  }

  lemma PickedCloses(run: Run, states: seq<ResolverState>, w: nat,
                     res: Result<(ResolverState, seq<FileInfo>), Failure>)
    requires w < |states|
    ensures Closes(run, PickedOutcome(run, states, w, res))
  {
    var out := PickedOutcome(run, states, w, res);
    match res
    case Err(f) =>
      ClosesWith(run, out, [Emitted(f)]);
    case Ok((r, files)) =>
      var reported := [ResolverChosen(Name(r)), HookCalled(DockerfileContents(r))];
      OutputsOpen(files, reported);
      ClosesWith(run, out, Outputs(files) + reported);
  }

  /** Events that leave the output open continue a running run; one that
      halts has just emitted an error. */
  lemma ContinuesWith(run: Run, r: Run, events: seq<Event>)
    requires !run.halted && r.trace == run.trace + events && Open(events)
    requires r.halted ==> events != [] && events[|events| - 1].Emitted?
    ensures Continues(run, r)
  {
    assert r.trace[|run.trace|..] == events;
  }

  /** Written files never close the output. */
  lemma OutputsOpen(files: seq<FileInfo>, tail: seq<Event>)
    requires Open(tail)
    ensures Open(Outputs(files) + tail)
  {
  }

  lemma OpenThenCloses(run: Run, r: Run)
    requires Open(run.trace) && Closes(run, r)
    ensures Open(r.trace[..|r.trace| - 1])
  {
    var n := |run.trace|;
    var body := r.trace[..|r.trace| - 1];
    assert body == run.trace + r.trace[n..|r.trace| - 1];
  }

  /** With the default resolvers and no specified Dockerfile, the first entry
      with a name makes the entry handler throw: the standard resolver has no
      `needsEntry`. The run emits that error and nothing else, and never
      closes the output. */
  lemma DefaultsHaltOnFirstEntry(bundle: Bundle, es: seq<TarEntry>, parse: string -> Result<NodeProject.Json, string>, k: nat)
    requires k < |es| && NormalizeTarEntry(es[k].header.name) != ""
    requires forall j :: 0 <= j < k ==> NormalizeTarEntry(es[j].header.name) == ""
    ensures ResolveInput(bundle, Defaults(), es, None, parse)
         == Run(Defaults(), None, [Emitted(MissingMember("r.needsEntry"))], true)
  {
    var cfg := Config(bundle, None, parse);
    var start := Run(Defaults(), None, [], false);
    assert es == es[..k] + [es[k]] + es[k + 1..];
    EntriesAppend(cfg, start, es[..k] + [es[k]], es[k + 1..]);
    EntriesAppend(cfg, start, es[..k], [es[k]]);
    EntriesUnnamed(cfg, start, es[..k]);
    assert Entries(cfg, start, [es[k]]) == OnEntry(cfg, start, es[k]) by {
      assert [es[k]][..0] == [];
    }
    AutoStepThrows(start, NormalizeTarEntry(es[k].header.name), es[k], 0);
  }
}
