# resin-bundle-resolve, modelled in Dafny

resin-bundle-resolve takes a *bundle*: a tar archive of a project's
source plus the target's device type and architecture. It turns the bundle
into an archive that Docker can build. Each entry of the input archive is
offered to a list of *resolvers*, one per project type:

- a plain `Dockerfile`;
- a `Dockerfile.template` whose `%%VARIABLES%%` are filled in from the bundle;
- architecture-specific `Dockerfile.<arch>` files;
- a Node.js project with a `package.json`.

When the archive ends, the satisfied resolver of highest priority adds the
files the build needs, typically a generated `Dockerfile`. The bundle's
Dockerfile hook is then called, and the output archive is closed.

The repository holds two generations of this pipeline, and both are modelled:

- **The current engine** (`src/index.ts`, `resolveInput`) writes to an
  output stream. It reports progress by events: `resolver`, `resolved-name`
  and `error`. It also accepts a user-specified Dockerfile path. The
  template resolver takes that path in any directory, and any other file
  goes to a fresh standard resolver. Without a path, each entry goes only
  to the resolvers whose `needsEntry` asks for it.
- **The earlier engine** (`build/index.js`, `resolveBundle`) returns a
  promise. It copies every entry to the output and gives every entry to
  every resolver. At the end it asks the resolvers in priority order
  whether they are satisfied, until one is.

Each engine is modelled twice:

- **As a pure function of its input.** The inputs are the entries in order,
  the resolvers' fields and the bundle. The result is the resolvers' new
  fields and a *trace* of what the run does, in order: entries written,
  events emitted, hook calls and the close. See `Engine.ResolveInput` and
  `EarlierEngine.ResolveBundle`.
- **As imperative code.** The resolvers are objects that their methods
  update in place, and the output is an object whose trace grows. See
  `Pipeline.ResolveInput` and `EarlierPipeline.ResolveBundle`. Each method
  is proved to leave the objects exactly as the pure function says, so
  every property proved of the functions holds of the code.

The resolver classes are classes with the source's fields. Each has a
value view (`Model()`) and pure transition functions that the methods are
proved against. The shared path helpers are modelled from their POSIX
definitions: `normalize`, `isAbsolute`, `basename`, `extname`,
`normalizeTarEntry` and `removeExtension`. So are lodash's stable
`orderBy` and `filter`, and the `dockerfile-template` substitution.

Files:

- `wrappers.dfy`: Option and Result.
- `types.dfy`: headers, entries, FileInfo, Bundle, failures, events and
  UTF-8/UTF-16 lengths.
- `paths.dfy`: the path helpers.
- `template.dfy`: `process`.
- `ordering.dfy`: sorting and filtering.
- The current resolvers: `standard_dockerfile.dfy`,
  `dockerfile_template.dfy`, `arch_dockerfile.dfy` and `node_project.dfy`.
  `resolvers.dfy` is the resolver interface, as a closed sum of the four
  classes; resolvers that a caller writes are not modelled.
- `engine.dfy` and `pipeline.dfy`: the current engine.
- The earlier resolvers: `earlier_dockerfile.dfy`, `earlier_template.dfy`
  and `earlier_node.dfy`. The architecture-specific resolver is the same
  class in both generations.
- `earlier_engine.dfy` and `earlier_pipeline.dfy`: the earlier engine.

## Model

| member | source | states |
|---|---|---|
| Types.HeaderSize | src/index.ts:280 | the header's size, or 0 when it has none; used by Engine.ToFileInfo and EarlierEngine.Info |
| Types.Message | src/index.ts:190-205 | the text of the Error each failure carries: the two engine errors, `Specified dockerfile could not be resolved: <path>`, the TypeError of a missing member and the resolvers' own messages |
| Types.Utf8Length | src/resolvers/dockerfileTemplate.ts:54-55 | the byte length of a text's UTF-8 encoding (what `Buffer.length` gives) is never less than its character count |
| Types.Utf16Length | src/resolvers/nodeResolver.ts:65-69 | the JavaScript `string.length` of a text is never less than its character count |
| Types.AsciiLengths | src/resolvers/nodeResolver.ts:65-69 | on ASCII text the recorded size is the same whether measured as UTF-8 bytes or as UTF-16 units |
| Types.NonAsciiLonger | src/resolvers/dockerfileTemplate.ts:54-55 | one non-ASCII character makes the byte size larger than the character count |
| Paths.Normalize | src/utils.ts:14 | `path.posix.normalize`: `.` for the empty path; otherwise the resolved segments joined, keeping one leading and one trailing `/`. NormalizedShape, NormalizeIdempotent and the test-case lemmas state its properties |
| Paths.Segments | src/utils.ts:14 | the segments `normalize` keeps: the pieces of the path with `.` and `..` resolved, `..` kept at the start only for a relative path. SegmentsCanonical states they are in normal form |
| Paths.Fold | src/utils.ts:14 | Node's `normalizeString` loop over the pieces: empty pieces and `.` dropped, `..` removing the last kept segment. FoldCanonical, FoldKeepsCanonical and FoldAppend state its properties |
| Paths.Basename | src/resolvers/dockerfileTemplate.ts:22 | `path.posix.basename`: the last component of the path, trailing separators ignored. BasenameInDirectory, BasenameNoSlash and BasenameOfSuffix state its properties |
| Paths.Split | src/utils.ts:14 | splitting a path on `/` always yields at least one piece |
| Paths.SplitHasNoSlash | src/utils.ts:14 | no piece of a split holds a separator |
| Paths.JoinSplit | src/utils.ts:14 | joining the pieces of a split with `/` gives back the path |
| Paths.SplitJoin | src/utils.ts:14 | splitting a join of separator-free pieces gives back the pieces |
| Paths.SplitAt | src/utils.ts:14 | a separator between two strings splits into the pieces of either side |
| Paths.FoldCanonical | src/utils.ts:14 | resolving `.` and `..` yields segments in normal form: no empty piece, no `.`, and `..` only as a leading run of a relative path |
| Paths.FoldKeepsCanonical | src/utils.ts:14 | segments already in normal form are kept as they are |
| Paths.FoldAppend | src/utils.ts:14 | resolving two runs of segments one after the other is resolving them joined |
| Paths.SegmentsCanonical | src/utils.ts:14 | the segments `normalize` joins are in normal form, with no `..` when the path is absolute |
| Paths.JoinEnds | src/utils.ts:14 | a join of non-empty separator-free pieces is empty only when there are none, and neither starts nor ends with `/` |
| Paths.NormalizeIdempotent | src/utils.ts:14 | normalising a normalised path changes nothing |
| Paths.NormalizeDecorated | src/utils.ts:14 | a canonical body with its leading and trailing separators is a fixed point of `normalize` |
| Paths.NormalizeDot | src/utils.ts:14 | `normalize(".")` is `.` |
| Paths.NormalizeRoot | src/utils.ts:14 | `normalize("/")` is `/` |
| Paths.NormalizeDotSlashOnly | src/utils.ts:14 | `normalize("./")` is `./` |
| Paths.NormalizedShape | src/utils.ts:14-15 | a normalised path is absolute exactly when the input is, and then has exactly one leading `/` |
| Paths.NormalizeTarEntry | src/utils.ts:13-19 | the name given back is never absolute |
| Paths.NormalizeTarEntryEmpty | src/utils.ts:13-19 | the result is empty exactly when the name normalises to the root `/` |
| Paths.NormalizeTarEntryRelative | src/utils.ts:13-19 | a relative name comes back as its normal-form segments joined by `/`, with the trailing separator it had |
| Paths.NormalizeRelativeBody | src/utils.ts:14 | a relative path with some segment left normalises to its segments joined, with its trailing separator |
| Paths.NormalizeTarEntryKeeps | src/utils.ts:18 | a name that does not normalise to an absolute path is returned as normalised |
| Paths.NormalizeTarEntryAbsolute | src/utils.ts:15-16 | an absolute name loses its leading `/` and no `..` survives in it |
| Paths.NormalizePlain | src/utils.ts:13-19 | a name with no leading or trailing separator comes back as its resolved segments joined |
| Paths.NormalizeRooted | src/utils.ts:15-16 | an absolute name with no trailing separator comes back as its resolved segments joined, without the `/` |
| Paths.NormalizeOneSegment | test/tests.ts:327-329 | `Dockerfile`, and any plain one-component name, is kept |
| Paths.NormalizeDotSlash | test/tests.ts:330 | `./Dockerfile` becomes `Dockerfile` |
| Paths.NormalizeDotDotSlash | test/tests.ts:331 | `../Dockerfile` stays `../Dockerfile` |
| Paths.NormalizeRootSlash | test/tests.ts:332 | `/Dockerfile` becomes `Dockerfile` |
| Paths.NormalizeNested | test/tests.ts:333 | `./a/b/Dockerfile` becomes `a/b/Dockerfile` |
| Paths.StripTrailingSlashes | src/resolvers/dockerfileTemplate.ts:22 | the result is a prefix of the path, everything removed is a `/`, and it does not end in `/` |
| Paths.AfterLastSlash | src/resolvers/dockerfileTemplate.ts:22 | the text after the last separator is a suffix of the path with no separator |
| Paths.BasenameInDirectory | src/resolvers/dockerfileTemplate.ts:22 | a file name is its own basename in any directory |
| Paths.BasenameNoSlash | src/resolvers/dockerfileTemplate.ts:22 | a name without a separator is its own basename |
| Paths.BasenameOfSuffix | src/resolvers/dockerfileTemplate.ts:22 | the basename is the last path component |
| Paths.LastDot | src/resolvers/archDockerfile.ts:26 | the position found holds a `.` and no later position does; without one, the text has no `.` |
| Paths.Extname | src/resolvers/archDockerfile.ts:26 | an extension is empty or a `.` followed by text without a separator |
| Paths.ComponentExtension | src/resolvers/archDockerfile.ts:26 | the extension of one component is a suffix of it that starts with `.` |
| Paths.ExtnameSuffix | src/resolvers/archDockerfile.ts:26 | the extension of a path not ending in `/` is a suffix of it |
| Paths.ExtnameDotted | src/resolvers/archDockerfile.ts:26 | `dir/stem.ext` has extension `.ext` |
| Paths.RemoveExtension | test/tests.ts:336-342 | the result followed by the path's extension is the path |
| Paths.RemoveExtensionStripsLast | test/tests.ts:337-338 | `Dockerfile.template` becomes `Dockerfile` in any directory; only the last component's extension goes |
| Paths.RemoveExtensionKeepsUndotted | test/tests.ts:339-340 | a last component without `.`, such as `test/Dockerfile`, is kept whole |
| Template.Process | src/resolvers/dockerfileTemplate.ts:47-50 | `process(content, variables)`: each `%%NAME%%` token replaced by its variable's value, left to right, other text copied; a token naming no variable fails. ProcessPlain, ProcessNoToken, ProcessToken, ProcessAround and ProcessTwo state its properties |
| Template.NameRun | src/resolvers/dockerfileTemplate.ts:47-50 | the run of variable-name characters at the head of a text is maximal |
| Template.TokenAt | src/resolvers/dockerfileTemplate.ts:47-50 | a token found is `%%NAME%%` with a well-formed name, at the very start |
| Template.ProcessPlain | src/resolvers/dockerfileTemplate.ts:47-50 | text without `%` is copied unchanged in front of the rest's output |
| Template.ProcessNoToken | src/resolvers/dockerfileTemplate.ts:47-50 | a template without `%` is its own output |
| Template.NameRunOf | src/resolvers/dockerfileTemplate.ts:47-50 | a name followed by a non-name character is read exactly |
| Template.ProcessToken | src/resolvers/dockerfileTemplate.ts:47-50 | a token is replaced by its variable's value; a token naming no variable fails with that name |
| Template.ProcessAround | src/resolvers/dockerfileTemplate.ts:47-50 | every token of `a %%n%% b` is substituted or reported |
| Template.ProcessTwo | src/resolvers/dockerfileTemplate.ts:47-50 | a template with two known tokens becomes its text with both values in place |
| Ordering.OrderByPriority | src/index.ts:201 | lodash `orderBy(priority, 'desc')` as an insertion sort. OrderByPriorityPermutes, OrderByPrioritySorted, OrderByPriorityHead and OrderByPriorityLex state that it is a stable descending permutation |
| Ordering.Positions | src/index.ts:199-200 | the positions `filter` keeps, in order. PositionsSpec states that exactly the marked positions are kept, in increasing order |
| Ordering.FilterOrFail | src/index.ts:159 | `filter` with a test that may throw: the kept positions, or the first thrown error. FilterOrFailSpec states both outcomes |
| Ordering.ByPriority | build/index.js:41-42 | `_(resolvers).orderBy(priority, ['desc'])` by position. ByPrioritySpec states that each position appears once, highest priority first, in list order among equals |
| Ordering.InsertPermutes | src/index.ts:199-202 | inserting into the sorted list adds exactly that element |
| Ordering.OrderByPriorityPermutes | src/index.ts:199-202 | `orderBy('priority','desc')` is a permutation of its input |
| Ordering.InsertSorted | src/index.ts:199-202 | inserting keeps the list sorted by descending priority, one longer, and says which element heads it |
| Ordering.SortedCons | src/index.ts:199-202 | an element of priority at least all others, put in front of a sorted list, keeps it sorted |
| Ordering.OrderByPrioritySorted | src/index.ts:199-202 | the ordering puts higher priorities first and keeps the length |
| Ordering.FirstMax | src/index.ts:209 | the position found has the greatest priority and is the earliest such |
| Ordering.OrderByPriorityHead | src/index.ts:209 | the head of the ordering is the earliest element of greatest priority (stability) |
| Ordering.Top | src/index.ts:209 | the index the ordering puts first is that earliest element's |
| Ordering.PositionsSpec | src/index.ts:199-200 | `filter` keeps exactly the marked positions, each in range, in increasing order |
| Ordering.RankTop | src/index.ts:199-209 | `satisfied[0]` is a kept position of greatest priority, and no earlier kept position has as great a priority |
| Ordering.TopOfFilter | src/index.ts:199-209 | after filter and orderBy there is a first element exactly when some resolver is kept, and it is the earliest kept one of greatest priority |
| Ordering.TopOfPositions | src/index.ts:199-209 | the first of filter-then-orderBy is a kept position of greatest priority and the earliest such |
| Ordering.FilterOrFailSpec | src/index.ts:159 | a filter whose test may throw succeeds exactly when no test throws, keeps the positions answered `true`, or fails with the first thrown error |
| Ordering.InsertMember | build/index.js:41-42 | inserting adds no element besides the inserted one |
| Ordering.InsertLex | build/index.js:41-42 | inserting an element listed earlier keeps equal priorities in list order |
| Ordering.OrderByPriorityLex | build/index.js:41-42 | the sort is stable: equal priorities stay in list order |
| Ordering.SortedRanksFrom | build/index.js:41-42 | every element of the sorted ranking is a position carrying its own priority |
| Ordering.SortedRanksAll | build/index.js:41-42 | every position appears in the sorted ranking |
| Ordering.ByPrioritySpec | build/index.js:41-42 | the sorted list holds every position once, highest priority first and in list order among equal priorities |
| StandardDockerfile.AfterEntry | src/resolvers/dockerfile.ts:11-15 | `entry(file)`: a file named exactly `Dockerfile` sets the flag, any other leaves the fields. FeedSatisfied states the effect of a run of entries |
| StandardDockerfile.Satisfied | src/resolvers/dockerfile.ts:17-19 | `isSatisfied()`: whether a `Dockerfile` was seen. FeedSatisfied states when that holds |
| StandardDockerfile.FeedSatisfied | src/resolvers/dockerfile.ts:11-19 | satisfied after some entries exactly when it already was or one of them is named `Dockerfile`; `a/Dockerfile` does not count |
| StandardDockerfile.DockerfileResolver.constructor | src/resolvers/dockerfile.ts:5-9 | a new resolver has seen no Dockerfile |
| StandardDockerfile.DockerfileResolver.Entry | src/resolvers/dockerfile.ts:11-15 | the flag is set by an entry named `Dockerfile` and never cleared |
| StandardDockerfile.DockerfileResolver.IsSatisfied | src/resolvers/dockerfile.ts:17-19 | satisfied exactly when a `Dockerfile` was seen |
| StandardDockerfile.DockerfileResolver.Resolve | src/resolvers/dockerfile.ts:21-24 | no file is added |
| DockerfileTemplate.NeedsEntry | src/resolvers/dockerfileTemplate.ts:21-23 | `needsEntry(filepath)`: the basename is `Dockerfile.template`. NeedsEntryAnyDirectory states it |
| DockerfileTemplate.AfterEntry | src/resolvers/dockerfileTemplate.ts:16-19 | `entry(file)`: any file replaces the template and sets the flag. FeedKeepsLast states the effect of a run of entries |
| DockerfileTemplate.Satisfied | src/resolvers/dockerfileTemplate.ts:25-27 | `isSatisfied()`: whether a template was given. FeedKeepsLast states when that holds |
| DockerfileTemplate.Variables | src/resolvers/dockerfileTemplate.ts:40-45 | the four template variables, `RESIN_`/`BALENA_` `ARCH` and `MACHINE_NAME`, bound to the architecture and device type. VariableNames and MachineThenArch state their effect |
| DockerfileTemplate.CanonicalName | src/resolvers/dockerfileTemplate.ts:60-63 | `getCanonicalName(filename)`: `removeExtension(filename)`. CanonicalNameStripsTemplate and CanonicalNameKeepsDockerfile state its effect |
| DockerfileTemplate.Resolved | src/resolvers/dockerfileTemplate.ts:29-58 | `resolve(bundle, specifiedFilename = 'Dockerfile')`: the processed template as one file under the canonical name, or the error. ResolvedOutput, DefaultName and ResolvedFails state its outcomes |
| DockerfileTemplate.NeedsEntryAnyDirectory | src/resolvers/dockerfileTemplate.ts:21-23 | `Dockerfile.template` is wanted at the top and in any directory; `Dockerfile` is not |
| DockerfileTemplate.FeedKeepsLast | src/resolvers/dockerfileTemplate.ts:16-19 | after some entries the resolver is satisfied and holds the last entry's contents; with none nothing changes |
| DockerfileTemplate.ResolvedOutput | src/resolvers/dockerfileTemplate.ts:29-58 | a successful resolve returns one file: the processed template, named after the specified path without its extension (or `Dockerfile`) and sized in UTF-8 bytes; it is also kept as `dockerfileContents` |
| DockerfileTemplate.DefaultName | src/resolvers/dockerfileTemplate.ts:31 | without a specified path the output is named `Dockerfile` |
| DockerfileTemplate.ResolvedFails | src/resolvers/dockerfileTemplate.ts:47-50 | a template that fails to process makes resolve fail with that error, changing nothing |
| DockerfileTemplate.UnknownMacroFails | src/resolvers/dockerfileTemplate.ts:40-50 | a token outside the four variables is reported as an error |
| DockerfileTemplate.VariableNames | src/resolvers/dockerfileTemplate.ts:40-45 | both `RESIN_` and `BALENA_` names are offered: the architecture and the device type |
| DockerfileTemplate.MachineThenArch | src/resolvers/dockerfileTemplate.ts:40-50 | the machine name and architecture are substituted under either naming scheme |
| DockerfileTemplate.CanonicalNameStripsTemplate | src/resolvers/dockerfileTemplate.ts:60-63 | `getCanonicalName('<dir>/Dockerfile.template')` is `<dir>/Dockerfile` |
| DockerfileTemplate.CanonicalNameKeepsDockerfile | src/resolvers/dockerfileTemplate.ts:60-63 | `getCanonicalName('<dir>/Dockerfile')` is unchanged |
| DockerfileTemplate.DockerfileTemplateResolver.constructor | src/resolvers/dockerfileTemplate.ts:8-14 | a new resolver has no template and no contents |
| DockerfileTemplate.DockerfileTemplateResolver.Entry | src/resolvers/dockerfileTemplate.ts:16-19 | the template is replaced by the entry's contents and the flag set |
| DockerfileTemplate.DockerfileTemplateResolver.IsSatisfied | src/resolvers/dockerfileTemplate.ts:25-27 | satisfied exactly when a template was given |
| DockerfileTemplate.DockerfileTemplateResolver.Resolve | src/resolvers/dockerfileTemplate.ts:29-58 | returns the output of the resolve function and takes its new state; on failure the fields are unchanged |
| ArchDockerfile.IsCandidate | src/resolvers/archDockerfile.ts:21 | `file.name.substr(0, file.name.indexOf('.')) === 'Dockerfile'`. IsCandidateIff states which names pass |
| ArchDockerfile.AfterEntry | src/resolvers/archDockerfile.ts:20-31 | `entry(file)`: a candidate whose extension is not `template` is appended with its extension. EntryDotted, EntryIgnored and FeedAppends state its effect |
| ArchDockerfile.Step | src/resolvers/archDockerfile.ts:36-40 | one step of the `map` in `isSatisfied`: an architecture match fills that slot, else a device-type match fills the other. ScanSlots states the effect of the whole scan |
| ArchDockerfile.Scan | src/resolvers/archDockerfile.ts:35-41 | the `map` over the collected files, in order. ScanSlots states which file each slot ends with |
| ArchDockerfile.Checked | src/resolvers/archDockerfile.ts:33-46 | `isSatisfied(bundle)`: the slots after the scan, and whether one is filled. CheckedIff and SlotsPersist state when it answers true |
| ArchDockerfile.Resolved | src/resolvers/archDockerfile.ts:48-72 | `resolve(bundle)`: the device-type file, else the architecture file, renamed `Dockerfile`, or the error. CheckedThenResolved and DeviceTypePrecedence state its outcomes |
| ArchDockerfile.IndexOf | src/resolvers/archDockerfile.ts:21 | `indexOf('.')`: the first position of the character, or -1 exactly when it is absent |
| ArchDockerfile.LastWithExt | src/resolvers/archDockerfile.ts:35-41 | the last collected file with that extension; none exactly when no file has it |
| ArchDockerfile.IsCandidateIff | src/resolvers/archDockerfile.ts:21 | the entry test holds exactly for names that start with `Dockerfile.` |
| ArchDockerfile.EntryDotted | src/resolvers/archDockerfile.ts:20-31 | `Dockerfile.<ext>` is collected under `<ext>` unless `<ext>` is `template` |
| ArchDockerfile.ExtOfDotted | src/resolvers/archDockerfile.ts:26 | the extension of `Dockerfile.<ext>`, without its dot, is `<ext>` |
| ArchDockerfile.CandidateDotted | src/resolvers/archDockerfile.ts:21 | every `Dockerfile.<ext>` passes the entry test |
| ArchDockerfile.EntryIgnored | src/resolvers/archDockerfile.ts:20-31 | any other name leaves the resolver unchanged |
| ArchDockerfile.FeedAppends | src/resolvers/archDockerfile.ts:28 | entries only append to the collected list and never touch the slots |
| ArchDockerfile.ScanSlots | src/resolvers/archDockerfile.ts:35-41 | the scan fills the architecture slot with the last file named after it. It fills the device slot with the last file named after the device type, unless that equals the architecture. A slot is never emptied |
| ArchDockerfile.CheckedIff | src/resolvers/archDockerfile.ts:33-46 | satisfied exactly when a slot was filled or a collected file names the architecture or device type |
| ArchDockerfile.CheckedThenResolved | src/resolvers/archDockerfile.ts:33-72 | from empty slots, the check succeeds exactly when a preferred file exists, and resolve then returns it renamed `Dockerfile`, or throws |
| ArchDockerfile.DeviceTypePrecedence | src/resolvers/archDockerfile.ts:53-58 | with files for both, the device type's file is resolved |
| ArchDockerfile.SlotsPersist | src/resolvers/archDockerfile.ts:42-45 | once a slot is filled every later check succeeds and resolve succeeds |
| ArchDockerfile.ArchDockerfileResolver.constructor | src/resolvers/archDockerfile.ts:12-18 | a new resolver has nothing collected and empty slots |
| ArchDockerfile.ArchDockerfileResolver.Entry | src/resolvers/archDockerfile.ts:20-31 | the fields after `entry` are those of the entry function |
| ArchDockerfile.ArchDockerfileResolver.IsSatisfied | src/resolvers/archDockerfile.ts:33-46 | the loop over the collected files leaves the state and answer of the scan |
| ArchDockerfile.ArchDockerfileResolver.Resolve | src/resolvers/archDockerfile.ts:48-72 | returns the resolve function's outcome; a success is one file named `Dockerfile` |
| NodeProject.AfterEntry | src/resolvers/nodeResolver.ts:14-20 | `entry(file)`: `package.json` keeps its contents, `wscript` or `*.gyp` sets the scripts flag. FeedPackageJson, FeedKeepsContent and FeedScripts state its effect |
| NodeProject.Satisfied | src/resolvers/nodeResolver.ts:22-24 | `isSatisfied()`: whether a `package.json` was kept. FeedPackageJson states when that holds |
| NodeProject.HasInstallScripts | src/resolvers/nodeResolver.ts:40 | whether `scripts` picks one of `preinstall`, `install` or `postinstall`. ResolvedOutput states its use |
| NodeProject.ScriptsDockerfile | src/resolvers/nodeResolver.ts:44-51 | the template literal used when the package has install scripts. StartsWithFrom states its first line |
| NodeProject.PlainDockerfile | src/resolvers/nodeResolver.ts:53-63 | the template literal used otherwise. StartsWithFrom states its first line |
| NodeProject.Resolved | src/resolvers/nodeResolver.ts:26-72 | `resolve(bundle)`: the parse and object checks, then one Dockerfile in the chosen layout. ResolvedErrors and ResolvedOutput state its outcomes |
| NodeProject.FeedPackageJson | src/resolvers/nodeResolver.ts:14-24 | satisfied exactly when some entry is `package.json`, and then holding the last one's contents |
| NodeProject.FeedKeepsContent | src/resolvers/nodeResolver.ts:15-16 | entries other than `package.json` leave the kept contents alone |
| NodeProject.FeedScripts | src/resolvers/nodeResolver.ts:17-18 | the scripts flag is set by `wscript` or a `*.gyp` entry and never cleared |
| NodeProject.ResolvedErrors | src/resolvers/nodeResolver.ts:31-38 | resolve fails on a missing package (reading `toString` of undefined), on a parse error, or on a parsed value that is not an object. It succeeds otherwise |
| NodeProject.ResolvedOutput | src/resolvers/nodeResolver.ts:40-70 | a success sets the scripts flag if install scripts are declared. It returns one `Dockerfile`, in the layout the flag selects, sized by its string length |
| NodeProject.StartsWithFrom | src/resolvers/nodeResolver.ts:44-54 | both layouts open with a blank line and then the `FROM resin/<deviceType>-node` line |
| NodeProject.NodeResolver.constructor | src/resolvers/nodeResolver.ts:7-12 | a new resolver has seen no package and no scripts |
| NodeProject.NodeResolver.Entry | src/resolvers/nodeResolver.ts:14-20 | the fields after `entry` are those of the entry function |
| NodeProject.NodeResolver.IsSatisfied | src/resolvers/nodeResolver.ts:22-24 | satisfied exactly when a `package.json` was kept |
| NodeProject.NodeResolver.Resolve | src/resolvers/nodeResolver.ts:26-72 | returns the resolve function's outcome and takes its new state; on failure the fields are unchanged |
| Resolvers.NeedsEntry | src/index.ts:159 | `r.needsEntry(name)`: the template resolver's answer, and a TypeError for the classes that lack the method. NeedsEntryDefined states it |
| Resolvers.AllowsSpecifiedDockerfile | src/index.ts:232 | `r.allowSpecifiedDockerfile` read for its truth: true only for the template resolver. DefaultsShape states it for the default list |
| Resolvers.AfterEntry | src/index.ts:163 | `resolver.entry(fileInfo)`, by class |
| Resolvers.Checked | src/index.ts:200 | `r.isSatisfied(bundle)`, by class: the new fields and the answer. CheckedKeepsClass states that only the architecture-specific resolver changes |
| Resolvers.Resolved | src/index.ts:267 | `resolver.resolve(bundle, filename)`, by class. ResolvedKeepsClass and TemplateEntryThenResolve state its outcomes |
| Resolvers.CanonicalName | src/index.ts:216 | `resolver.getCanonicalName(dockerfile)`: the template resolver's answer, a TypeError otherwise. CanonicalNameRemovesExtension states it |
| Resolvers.DockerfileContents | src/index.ts:219 | `resolver.dockerfileContents`: the template resolver's processed text, undefined for the other classes. Engine.FinishSpecifiedChosen states what the hook receives |
| Resolvers.Defaults | src/index.ts:285-292 | the fields of the four new default resolvers, in order. DefaultsShape states their priorities and names |
| Resolvers.DefaultsShape | src/index.ts:285-292 | the default list has priorities 0, 2, 1, 0 and the names `Standard Dockerfile`, `Dockerfile.template`, `Archicture-specific Dockerfile` and `NodeJS`; only the template resolver allows a specified Dockerfile |
| Resolvers.NeedsEntryDefined | src/resolver.ts:53 | only the template resolver can answer `needsEntry`, and it wants exactly the names with basename `Dockerfile.template` |
| Resolvers.CanonicalNameRemovesExtension | src/resolver.ts:81-87 | `getCanonicalName('./build/Dockerfile.template')` is `./build/Dockerfile` for the template resolver; other classes throw |
| Resolvers.CheckedKeepsClass | src/resolver.ts:66 | asking `isSatisfied` keeps every resolver's class, and changes only the architecture-specific one |
| Resolvers.ResolvedKeepsClass | src/resolver.ts:79 | resolving keeps the class; the standard resolver adds nothing |
| Resolvers.TemplateEntryThenResolve | src/index.ts:248-252 | the template resolver given a file and resolved with its path yields the processed text under the path without its extension, or the template error |
| Resolvers.Resolver.Entry | src/resolver.ts:45 | the object's fields after `entry` are those of the entry function |
| Resolvers.Resolver.IsSatisfied | src/resolver.ts:66 | the new fields and the answer are those of the check function |
| Resolvers.Resolver.Resolve | src/resolver.ts:79 | the files and new fields are those of the resolve function; a failure leaves the fields alone |
| Resolvers.GetDefaultResolvers | src/index.ts:285-292 | four distinct new objects, in the default order |
| Engine.ToFileInfo | src/index.ts:274-283 | `streamToFileInfo`: the normalised name, the header size or 0, and the contents. AutoStepDelivers and SpecifiedPlain state where it is written |
| Engine.Potentials | src/index.ts:159 | `resolvers.filter(r => r.needsEntry(name))` by position. PotentialsSpec states what it keeps and when it throws |
| Engine.Deliver | src/index.ts:160-164 | `resolver.entry(fileInfo)` for each resolver listed. AutoStepDelivers states that they each get it once and the rest are untouched |
| Engine.Accepting | src/index.ts:231-232 | `allowSpecifiedDockerfile && needsEntry(filename)` for each resolver. AcceptingSpec states that only template resolvers with the right basename accept |
| Engine.CheckedStates | src/index.ts:199-200 | the resolvers after `isSatisfied(bundle)` was asked of each. CheckedPriorities and FinishAutoUnresolved state its use |
| Engine.ListedOutcome | src/index.ts:245-257 | `resolveSpecifiedFile` once listed resolver `k` took the file: its outputs then the file written, or the error halting the run. ResolveSpecifiedListed states when it applies |
| Engine.PickedOutcome | src/index.ts:209-219 | the finish handler once the picked resolver resolved: its files, the `resolver` event, the hook and the close, or the error then the close. FinishAutoPicked and FinishAutoResolves state when it applies |
| Engine.ChosenEvents | src/index.ts:213-219 | the reports once a resolver took the specified Dockerfile. FinishSpecifiedChosen states them per class |
| Engine.Reported | src/index.ts:213-219 | the `resolver` event, then `resolved-name` and the hook, or the error `getCanonicalName` threw; then the close. ReportedCloses states that it ends with the close |
| Engine.Outputs | src/index.ts:269-271 | one write per file, carrying that file's contents |
| Engine.OutputsNext | src/index.ts:269-271 | writing one more file adds that file's entry, under its own name and size |
| Engine.Pick | src/index.ts:231-245 | the picked position is in range |
| Engine.PickSpec | src/index.ts:231-245 | the picked resolver is a marked one of greatest priority, and the earliest such |
| Engine.CheckedPriorities | src/index.ts:199-201 | asking `isSatisfied` never changes a priority, so sorting after filtering sees the list's priorities |
| Engine.PotentialsSpec | src/index.ts:159 | the positions `needsEntry` keeps are in range, each appears once in list order, and they are exactly the resolvers that want the name |
| Engine.AcceptingSpec | src/index.ts:232 | only a template resolver accepts a specified file, and only one whose basename is `Dockerfile.template` |
| Engine.ResolveSpecified | src/index.ts:222-258 | the output stays open, and a halt comes right after an emitted error |
| Engine.SpecifiedPlain | src/index.ts:236-255 | with no accepting resolver, a fresh standard resolver takes the file, which is written as it came |
| Engine.SpecifiedTemplate | src/index.ts:231-257 | a `Dockerfile.template` goes to the first template resolver. Its processed output is written under the name without extension, then the file itself; a template error halts the run |
| Engine.TemplateOutcome | src/index.ts:250-257 | what the entry handler makes of the template resolver's success or failure |
| Engine.PickFirstTemplate | src/index.ts:231-245 | with a `Dockerfile.template` name the first template resolver of the list is picked |
| Engine.ResolveSpecifiedListed | src/index.ts:245-257 | a listed resolver is given the file and resolved with the specified path |
| Engine.ResolveSpecifiedFresh | src/index.ts:236-257 | a fresh standard resolver is given the file, adds nothing, and only the file is written |
| Engine.OnEntry | src/index.ts:88-107 | the output stays open, the list keeps its length, and a halt comes right after an emitted error |
| Engine.SpecifiedStep | src/index.ts:146-157 | the specified-mode step keeps the output open |
| Engine.AutoStep | src/index.ts:158-173 | the automatic step keeps the output open |
| Engine.EntrySkipped | src/index.ts:140-143 | an entry whose name normalises to nothing is drained and changes nothing; a halted run reads no further entry |
| Engine.EntryDispatch | src/index.ts:138-169 | a named entry goes to the specified-file step or the automatic step, by mode |
| Engine.AutoStepDelivers | src/index.ts:159-167 | the resolvers that want the entry get its FileInfo once, the others are untouched, and the entry is written as it came |
| Engine.AutoStepThrows | src/index.ts:159 | the first `needsEntry` that throws has its error emitted and halts the run before anything is written |
| Engine.SpecifiedPassThrough | src/index.ts:146-173 | outside the specified entry's first occurrence every named entry is written as it came |
| Engine.Entries | src/index.ts:88-107 | reading entries keeps the output open, and in automatic mode never chooses a resolver |
| Engine.EntriesAppend | src/index.ts:88-107 | handling two runs of entries one after the other is handling them joined |
| Engine.EntriesNext | src/index.ts:88-107 | one more entry is one more call of the entry handler |
| Engine.EntriesUnnamed | src/index.ts:140-143 | entries with empty names leave the run as it was |
| Engine.OnFinish | src/index.ts:109-123 | the finish handler closes the output once, last; a halted run is left alone |
| Engine.FinishSpecified | src/index.ts:188-196 | in specified mode the finish handler closes the output |
| Engine.FinishAuto | src/index.ts:198-211 | in automatic mode the finish handler closes the output |
| Engine.FinishSpecifiedMissing | src/index.ts:188-195 | a specified Dockerfile no entry matched is reported missing, then the output is closed |
| Engine.FinishSpecifiedChosen | src/index.ts:213-219 | the resolver that took the file is reported, then (template) the canonical name and the hook with the processed contents, or (standard) the missing `getCanonicalName` error; the resolvers are untouched |
| Engine.FinishAutoUnresolved | src/index.ts:199-207 | with no satisfied resolver every one has still been asked, `Resolution could not be performed` is emitted, and the output closes |
| Engine.FinishAutoPicked | src/index.ts:199-219 | once a resolver is satisfied the finish handler is the picked resolver's outcome |
| Engine.FinishAutoResolves | src/index.ts:199-219 | the satisfied resolver of greatest priority, earliest among equals, resolves. Its files are written, its name reported and the hook called with its contents; a failing resolve emits its error |
| Engine.ResolveInput | src/index.ts:66-127 | a run's output is closed exactly once, by its last event, unless a thrown error halted it; then it ends with that error |
| Engine.ResolveInputSteps | src/index.ts:82-123 | a run normalises the specified path, handles the entries, then runs the finish handler |
| Engine.TraceCloses | src/index.ts:109-123 | entries that keep the output open followed by a closing finish end the run as `ResolveInput` promises |
| Engine.ClosesWith | src/index.ts:120-122 | events that leave the output open, then `finalize`, close it |
| Engine.ReportedCloses | src/index.ts:213-219 | the reports of the specified-mode finish handler end with the close |
| Engine.PickedCloses | src/index.ts:209-219 | the automatic-mode outcome ends with the close |
| Engine.ContinuesWith | src/index.ts:91-105 | events that leave the output open continue the run |
| Engine.OutputsOpen | src/index.ts:269-271 | written files never close the output |
| Engine.OpenThenCloses | src/index.ts:120-122 | after a closing step all but the last event leave the output open |
| Engine.DefaultsHaltOnFirstEntry | src/index.ts:159 | with the default resolvers in automatic mode, the first named entry throws (`r.needsEntry is not a function`): the error is the whole output and the run halts |
| Pipeline.Output.constructor | src/index.ts:73 | a new output is empty |
| Pipeline.Output.Entry | src/index.ts:166 | a write adds one entry and touches no resolver |
| Pipeline.Output.Report | src/index.ts:214-219 | an event or hook call is recorded and touches no resolver |
| Pipeline.Output.Finalize | src/index.ts:121 | the close is recorded |
| Pipeline.States | src/index.ts:68 | one state per resolver |
| Pipeline.ResolveInput | src/index.ts:66-127 | the output's events and the resolvers' fields end as `Engine.ResolveInput` says |
| Pipeline.ReadEntries | src/index.ts:88-107 | reading the entries leaves the objects as `Engine.Entries` says |
| Pipeline.ReadEntry | src/index.ts:88-107 | one entry leaves the objects as `Engine.OnEntry` says |
| Pipeline.EntryListener | src/index.ts:88-107 | the entry listener emits a thrown error and halts |
| Pipeline.OnEntry | src/index.ts:129-174 | `resolveTarStreamOnEntry` leaves the objects as the entry function says |
| Pipeline.SpecifiedEntry | src/index.ts:146-173 | the specified-mode step as `Engine.SpecifiedStep` says |
| Pipeline.PassThrough | src/index.ts:173 | the entry is written as it came |
| Pipeline.FinishListener | src/index.ts:109-123 | the finish listener emits the handler's error and closes the output in every case |
| Pipeline.OnFinish | src/index.ts:176-220 | `resolveTarStreamOnFinish` leaves the objects as `Engine.OnFinish` says, less the close and the error the caller emits |
| Pipeline.FinishSpecified | src/index.ts:188-196 | specified mode as `Engine.FinishSpecified` says |
| Pipeline.FinishChosen | src/index.ts:213-219 | the chosen resolver's reports, as `Engine.ChosenEvents` lists them |
| Pipeline.Report | src/index.ts:213-219 | the name, canonical name and hook recorded in order, or the `getCanonicalName` failure thrown |
| Pipeline.FinishAuto | src/index.ts:198-211 | automatic mode as `Engine.FinishAuto` says |
| Pipeline.FinishPicked | src/index.ts:209-219 | the picked resolver's outcome as `Engine.PickedOutcome` says |
| Pipeline.CheckEach | src/index.ts:199-200 | every resolver is asked once, in order, and the answers are kept by position |
| Pipeline.OutputAt | src/index.ts:260-272 | `addResolverOutput` on one resolver of the list leaves the others alone |
| Pipeline.AddResolverOutput | src/index.ts:260-272 | the resolver's files are written in order under their own names and sizes; a failing resolve writes nothing |
| Pipeline.WriteFiles | src/index.ts:269-271 | each file is written in order |
| Pipeline.AutoEntry | src/index.ts:158-173 | the automatic step as `Engine.AutoStep` says; a thrown `needsEntry` is reported before anything is written |
| Pipeline.GiveEach | src/index.ts:162-164 | each resolver that wants the entry is given it once |
| Pipeline.GivenOnce | src/index.ts:162-164 | an increasing list names each position once |
| Pipeline.ResolveSpecifiedFile | src/index.ts:222-258 | the resolver that takes the specified file, or the failure, as `Engine.ResolveSpecified` says |
| Pipeline.SpecifiedListed | src/index.ts:245-257 | the picked listed resolver takes the file |
| Pipeline.SpecifiedFresh | src/index.ts:236-257 | a fresh standard resolver takes the file |
| Pipeline.NewStandard | src/index.ts:241-255 | `new DockerfileResolver()` given the file adds nothing, so only the file is written; the list is not touched |
| Pipeline.ResolveAt | src/index.ts:250-255 | entry, resolve and writes on one resolver of the list leave the others alone |
| Pipeline.EnterAndResolve | src/index.ts:248-255 | the resolver gets the file and resolves; its files, then the file itself, are written; a failure writes nothing |
| EarlierDockerfile.AfterEntry | build/resolvers/dockerfile.js:10-15 | `entry(file)`: a file named exactly `Dockerfile` sets the flag and keeps its text. FeedKeepsLast states the effect of a run of entries |
| EarlierDockerfile.Satisfied | build/resolvers/dockerfile.js:16-18 | `isSatisfied()`: whether a `Dockerfile` was seen. FeedKeepsLast states when that holds |
| EarlierDockerfile.LastDockerfile | build/resolvers/dockerfile.js:10-15 | there is a kept text exactly when some entry is named `Dockerfile` |
| EarlierDockerfile.FeedKeepsLast | build/resolvers/dockerfile.js:10-18 | satisfied exactly when some entry is `Dockerfile`, keeping the last one's text; never cleared |
| EarlierDockerfile.LastDockerfileIsLast | build/resolvers/dockerfile.js:13 | the kept text is that of a `Dockerfile` entry after which no other `Dockerfile` follows |
| EarlierDockerfile.NestedIgnored | build/resolvers/dockerfile.js:11 | `a/Dockerfile` is ignored |
| EarlierDockerfile.DockerfileResolver.constructor | build/resolvers/dockerfile.js:5-9 | a new resolver has seen no Dockerfile |
| EarlierDockerfile.DockerfileResolver.Entry | build/resolvers/dockerfile.js:10-15 | the fields after `entry` are those of the entry function |
| EarlierDockerfile.DockerfileResolver.IsSatisfied | build/resolvers/dockerfile.js:16-18 | satisfied exactly when a `Dockerfile` was seen |
| EarlierDockerfile.DockerfileResolver.Resolve | build/resolvers/dockerfile.js:19-21 | no file is added |
| EarlierDockerfile.DockerfileResolver.GetDockerfileContents | build/resolvers/dockerfile.js:22-24 | the kept text |
| EarlierTemplate.AfterEntry | build/resolvers/dockerfileTemplate.js:11-16 | `entry(file)`: only `Dockerfile.template` replaces the template and sets the flag. EntryTopLevelOnly states it |
| EarlierTemplate.Satisfied | build/resolvers/dockerfileTemplate.js:17-19 | `isSatisfied()`: whether a template was kept |
| EarlierTemplate.Variables | build/resolvers/dockerfileTemplate.js:26-29 | the two template variables `RESIN_ARCH` and `RESIN_MACHINE_NAME`. ResinSubstituted and BalenaRejected state their effect |
| EarlierTemplate.Resolved | build/resolvers/dockerfileTemplate.js:20-35 | `resolve(bundle)`: the processed template as one `Dockerfile`, or the error. ResolvedOutput states its outcomes |
| EarlierTemplate.EntryTopLevelOnly | build/resolvers/dockerfileTemplate.js:11-16 | only a top-level `Dockerfile.template` is taken, keeping its contents |
| EarlierTemplate.ResolvedOutput | build/resolvers/dockerfileTemplate.js:20-35 | resolve returns one `Dockerfile` holding the processed template, sized in UTF-8 bytes, or rejects with the template error |
| EarlierTemplate.ResinSubstituted | build/resolvers/dockerfileTemplate.js:26-33 | the machine name and architecture are substituted under their `RESIN_` names |
| EarlierTemplate.BalenaRejected | build/resolvers/dockerfileTemplate.js:26-29 | `BALENA_` names are not offered, so a template using one is rejected |
| EarlierTemplate.DockerfileTemplateResolver.constructor | build/resolvers/dockerfileTemplate.js:6-10 | a new resolver has no template |
| EarlierTemplate.DockerfileTemplateResolver.Entry | build/resolvers/dockerfileTemplate.js:11-16 | the fields after `entry` are those of the entry function |
| EarlierTemplate.DockerfileTemplateResolver.IsSatisfied | build/resolvers/dockerfileTemplate.js:17-19 | satisfied exactly when a template was kept |
| EarlierTemplate.DockerfileTemplateResolver.Resolve | build/resolvers/dockerfileTemplate.js:20-35 | returns the resolve function's outcome |
| EarlierNode.AfterEntry | build/resolvers/nodeResolver.js:10-14 | `entry(file)`: a file named exactly `package.json` sets the flag |
| EarlierNode.Satisfied | build/resolvers/nodeResolver.js:15-17 | `isSatisfied()`: whether a `package.json` was seen |
| EarlierNode.DockerfileText | build/resolvers/nodeResolver.js:23-32 | the generated Dockerfile text. ResolvedOutput states its first line |
| EarlierNode.Resolved | build/resolvers/nodeResolver.js:18-39 | `resolve(bundle)`: one `Dockerfile`, sized by its string length. ResolvedOutput states it |
| EarlierNode.ResolvedOutput | build/resolvers/nodeResolver.js:18-39 | one `Dockerfile` opening with the `FROM resin/<deviceType>-node` line, sized by its string length |
| EarlierNode.NodeResolver.constructor | build/resolvers/nodeResolver.js:5-9 | a new resolver has seen no package |
| EarlierNode.NodeResolver.Entry | build/resolvers/nodeResolver.js:10-14 | the flag is set by an entry named `package.json` |
| EarlierNode.NodeResolver.IsSatisfied | build/resolvers/nodeResolver.js:15-17 | satisfied exactly when a `package.json` was seen |
| EarlierNode.NodeResolver.Resolve | build/resolvers/nodeResolver.js:18-39 | the generated Dockerfile |
| EarlierEngine.AfterEntry | build/index.js:34-36 | `resolver.entry(info)`, by class |
| EarlierEngine.Checked | build/index.js:43 | `resolver.isSatisfied(bundle)`, by class: the new fields and the answer. FedKeepsClass, TemplateSilent and ArchSilent state its answers |
| EarlierEngine.Resolved | build/index.js:51 | `resolver.resolve(bundle)`, by class. SatisfiedResolves and NoProjectTypeNotRaised state its outcomes |
| EarlierEngine.Info | build/index.js:28-32 | the FileInfo built from an entry: the normalised name, the size and the contents. FedStandard states its use |
| EarlierEngine.Fed | build/index.js:34-36 | one resolver after it was given every entry, in order. FedKeepsClass, FedConsistent and StandardSees state its properties |
| EarlierEngine.Items | build/index.js:53-58 | `Promise.map(additionalItems, ...)`: each file written under its name and size, and a `Dockerfile` handed to the hook. FinishStandard and PlainDockerfileProject state its use |
| EarlierEngine.StandardHook | build/index.js:60-66 | the extra hook call for the resolver named `Standard Dockerfile`, with `getDockerfileContents()`. FinishStandard states it |
| EarlierEngine.Finish | build/index.js:40-81 | the finish handler once the search is done. FinishOutcomes states when it resolves, rejects and closes |
| EarlierEngine.Copied | build/index.js:26 | one copied entry per archive entry |
| EarlierEngine.FirstSatisfied | build/index.js:43 | the first position in the order whose resolver is satisfied; none before it is |
| EarlierEngine.AfterAsking | build/index.js:43 | asking keeps the list's length |
| EarlierEngine.Find | build/index.js:41-43 | the search keeps the list's length and finds a position in range |
| EarlierEngine.FindSpec | build/index.js:41-48 | nothing is found exactly when no resolver is satisfied, and then every resolver has been asked. Otherwise the one found is satisfied and beats every other satisfied resolver by priority, or by list order among equals. It and the resolvers sorted before it are left as asking them leaves them, and every other resolver is unchanged |
| EarlierEngine.ChoiceUnique | build/index.js:41-43 | at most one resolver meets that choice |
| EarlierEngine.ResolveBundle | build/index.js:17-85 | the run keeps the list's length |
| EarlierEngine.NamesDistinct | build/index.js:61 | only the standard resolver is named `Standard Dockerfile`, and the four names are distinct |
| EarlierEngine.FedKeepsClass | build/index.js:34-43 | entries and checks never change a resolver's priority or name |
| EarlierEngine.EntriesCopiedFirst | build/index.js:21-39 | every entry is copied to the output first, in order and under its own header, whatever the outcome |
| EarlierEngine.FinishCopied | build/index.js:40-81 | the finish handler adds only after the copied entries |
| EarlierEngine.FedStandard | build/index.js:34-36 | giving the entries to a standard resolver is feeding it their FileInfos |
| EarlierEngine.StandardSees | build/index.js:28-36 | a fresh standard resolver is satisfied exactly when an entry normalises to `Dockerfile`, keeping the last such text |
| EarlierEngine.FinishOutcomes | build/index.js:40-81 | the promise resolves exactly when the output was closed, last, with the found resolver's name. On rejection only the copies were written, and `No project type` is the rejection exactly when nothing was found |
| EarlierEngine.Outcomes | build/index.js:17-85 | the same for a whole run: `No project type` exactly when no resolver is satisfied after the archive |
| EarlierEngine.NoProjectTypeNotRaised | build/index.js:51 | no resolve rejects with the search's own error |
| EarlierEngine.FedConsistent | build/index.js:34-36 | entries keep each resolver's fields consistent |
| EarlierEngine.SatisfiedResolves | build/index.js:43-51 | a consistent resolver that says it is satisfied resolves, unless its template uses an unknown variable |
| EarlierEngine.OnlyTemplatesFail | build/index.js:45-80 | a run from consistent resolvers is rejected only for no project type or a template error |
| EarlierEngine.DefaultsPreference | build/index.js:41-43 | with the default list the template resolver is preferred, then the architecture-specific one, then the plain Dockerfile, then the package.json |
| EarlierEngine.PickAmongFour | build/index.js:41-43 | the choice among four resolvers ranked 0, 2, 1, 0 |
| EarlierEngine.PlainDockerfileAnswers | build/index.js:34-43 | for an archive with a `Dockerfile` and no template or `Dockerfile.<ext>`, only the standard resolver (and maybe Node) is satisfied |
| EarlierEngine.TemplateSilent | build/index.js:34-43 | without a `Dockerfile.template` the template resolver is not satisfied |
| EarlierEngine.ArchSilent | build/index.js:34-43 | without a `Dockerfile.<ext>` the architecture-specific resolver is not satisfied |
| EarlierEngine.ArchInitialSilent | src/resolvers/archDockerfile.ts:33-46 | a fresh architecture-specific resolver is not satisfied |
| EarlierEngine.FinishStandard | build/index.js:51-76 | when the standard resolver is found nothing is added, the hook gets its kept text, and the run resolves with its name |
| EarlierEngine.PlainDockerfileProject | build/index.js:17-85 | a plain Dockerfile project with the defaults: the entries are copied, the hook gets the last `Dockerfile` text, the output closes, and the type is `Standard Dockerfile` |
| EarlierEngine.TemplateUnseen | build/resolvers/dockerfileTemplate.js:11-16 | without a `Dockerfile.template` entry the template resolver is unchanged |
| EarlierEngine.ArchUnseen | src/resolvers/archDockerfile.ts:20-31 | without a `Dockerfile.<ext>` entry the architecture-specific resolver is unchanged |
| EarlierPipeline.Resolver.Entry | build/index.js:35 | the object's fields after `entry` are those of the entry function |
| EarlierPipeline.Resolver.IsSatisfied | build/index.js:43 | the new fields and answer are those of the check function |
| EarlierPipeline.Resolver.Resolve | build/index.js:51 | the files are those of the resolve function |
| EarlierPipeline.States | build/index.js:17 | one state per resolver |
| EarlierPipeline.Pack.constructor | build/index.js:20 | a new output is empty |
| EarlierPipeline.Pack.Entry | build/index.js:26 | a write adds one entry |
| EarlierPipeline.Pack.CallHook | build/index.js:56 | the hook call is recorded |
| EarlierPipeline.Pack.Finalize | build/index.js:71 | the close is recorded |
| EarlierPipeline.ResolveBundle | build/index.js:17-85 | the resolvers' fields, the output and the settled value are as `EarlierEngine.ResolveBundle` says |
| EarlierPipeline.ReadArchive | build/index.js:21-39 | every entry is copied, and every resolver is given every entry |
| EarlierPipeline.Copied1 | build/index.js:26 | one more entry is one more copy |
| EarlierPipeline.Fed1 | build/index.js:34-36 | one more entry is given to every resolver |
| EarlierPipeline.GiveAll | build/index.js:34-36 | every resolver is given the file once |
| EarlierPipeline.GiveAt | build/index.js:35 | giving one resolver the file leaves the others alone |
| EarlierPipeline.FindSatisfied | build/index.js:41-43 | the search leaves the fields and finds the resolver `EarlierEngine.Find` says |
| EarlierPipeline.AskInOrder | build/index.js:43 | the resolvers are asked in order until one is satisfied, and only those asked change |
| EarlierPipeline.AskNext | build/index.js:43 | the next resolver is asked, for the first time |
| EarlierPipeline.AskAt | build/index.js:43 | asking one resolver leaves the others alone |
| EarlierPipeline.AskedOneMore | build/index.js:43 | asking one more resolver changes only its fields |
| EarlierPipeline.FirstSatisfiedUnique | build/index.js:43 | the first satisfied position is the only one before which none is satisfied and at which one is |
| EarlierPipeline.FinishWith | build/index.js:44-80 | the finish handler's output and settled value are as `EarlierEngine.Finish` says |
| EarlierPipeline.WriteOutput | build/index.js:52-71 | the resolver's files, the hook for a standard Dockerfile, then the close |
| EarlierPipeline.AddItems | build/index.js:53-58 | each file is written and, if named `Dockerfile`, handed to the hook |
| EarlierPipeline.GetDefaultResolvers | build/index.js:87-94 | four distinct new objects, in the default order |

## Left out

- Streams, events and promises are left out. The tar extractor, the pack
  stream, `pipe`, `streamToBuffer` and `drainStream` are not modelled, nor
  is `pipePromise`. The archive is a sequence of entries read in order,
  and the output is the trace of what is written, emitted, handed to the
  hook and closed.
- The `extract` error listener (`src/index.ts:87`) is not modelled,
  because stream errors are outside the model.
- Resolvers that a caller writes are not modelled. `resolveInput`
  (`src/index.ts:66-70`) accepts any objects that implement the `Resolver`
  interface (`src/resolver.ts:11-88`). In the model a resolver is always one
  of the four classes of `src/resolvers/`. So the automatic-mode properties,
  such as `Engine.AutoStepDelivers` and `Engine.FinishAutoResolves`, hold for
  lists of those classes only. Of those classes, only the template resolver
  gets past a named entry, because it is the only one that defines
  `needsEntry`.
- The registration of the caller's listeners (`src/index.ts:74-80`) is not
  modelled; every event is recorded in the trace instead.
- `bundle.callDockerfileHook` is recorded as a `HookCalled` event. Its
  promise is taken to succeed, so a hook that rejects is not modelled.
- Asynchronous interleaving is not modelled. Entries are handled one
  after another, as `next()` enforces. `Promise.map` in
  `build/index.js:53-58` is taken in list order.
- JSON.parse is a function parameter of the Node.js resolver and of the
  current engine, which hands it down. The model states what happens for
  each kind of parse result, but not which texts parse.
- Buffers are modelled by the text they hold. A size taken from
  `Buffer.length` is the text's UTF-8 byte count. A size taken from
  `string.length` is its UTF-16 unit count. Binary contents that are not
  valid text are not modelled.
- The `process` function of the `dockerfile-template` library is not
  part of this model's sources. It is modelled as replacing each
  `%%NAME%%` token, NAME made of letters, digits and `_`, by the variable
  of that name. A token naming no variable fails with that name. Text
  between tokens is copied unchanged.
- `removeExtension` is imported from `src/utils.ts` but that file does not
  define it, so it is not part of this model's sources. It is modelled from
  its tests (`test/tests.ts:336-342`): the extension of the last path
  component is removed, as `path.extname` defines it.
- The current engine takes `normalizeTarEntry` from the `tar-utils`
  package, which is not part of this model's sources. It is modelled by the
  identical function of `src/utils.ts:13-19`.
- EarlierEngine.Info: `build/index.js:30` passes `header.size` through. An
  absent size would be `undefined` there, but the model gives 0, as the
  current engine does. The difference would only show in the size of a
  `Dockerfile.<ext>` that the architecture-specific resolver copies to its
  output.
- The tests under `tests/` and `test/`, beyond the two helper tests cited
  above, are not modelled. They exercise the stream plumbing.
- Some behaviour of the current engine is modelled as the code does it,
  and not as the interface documentation suggests:
  - The src resolvers other than the template resolver declare no
    `needsEntry`, `getCanonicalName` or `dockerfileContents`. Calling a
    missing method is modelled as a TypeError (`MissingMember`), and
    reading a missing field as undefined.
  - None of them declares `allowSpecifiedDockerfile` either, so it reads
    as false for them. The interface documentation
    (`src/resolver.ts:25-29`) means it to be true for the standard
    resolver too. The fallback `new DockerfileResolver()` covers that case.
  - In automatic mode, the default list therefore throws on the first
    named entry (`Engine.DefaultsHaltOnFirstEntry`). The error is emitted
    and `next()` is never called, so the output is never closed.
  - A specified plain `Dockerfile` is reported as chosen, and then the
    missing `getCanonicalName` is the emitted error.
- The architecture-specific resolver's name is kept as the source spells
  it: `Archicture-specific Dockerfile`.
