/** The architecture-specific Dockerfile resolver
    (src/resolvers/archDockerfile.ts, compiled unchanged as
    build/resolvers/archDockerfile.js): collects every `Dockerfile.<ext>`, and
    picks the one whose extension names the device type, else the one naming
    the architecture. */
module ArchDockerfile {
  import opened Wrappers
  import opened Types
  import opened Paths

  const Priority: int := 1
  /** The name as the source spells it. */
  const Name: string := "Archicture-specific Dockerfile"

  /** A collected file and its extension without the leading dot. */
  datatype ArchFile = ArchFile(ext: string, file: FileInfo)

  /** The resolver's fields; the two slots are `None` until a match is found. */
  datatype State = State(
    archDockerfiles: seq<ArchFile>,
    satisfiedArch: Option<ArchFile>,
    satisfiedDeviceType: Option<ArchFile>)

  function Initial(): State
  {
    State([], None, None)
  }

  // ---------------------------------------------------------------------------
  // The entry test, with JavaScript's `indexOf` and `substr`

  /** `s.indexOf(c)`: the first position of `c`, or -1. */
  function IndexOf(s: string, c: char): (k: int)
    ensures -1 <= k < |s|
    ensures k == -1 <==> c !in s
    ensures k >= 0 ==> s[k] == c && forall j :: 0 <= j < k ==> s[j] != c
  {
    if s == [] then -1
    else if s[0] == c then 0
    else
      var k := IndexOf(s[1..], c);
      assert forall j :: 1 <= j < |s| ==> s[j] == s[1..][j - 1];
      if k == -1 then
        assert s == [s[0]] + s[1..];
        -1
      else k + 1
  }

  /** `s.substr(0, n)`: a negative length is taken as zero. */
  function Prefix(s: string, n: int): string
  {
    if n <= 0 then "" else if n >= |s| then s else s[..n]
  }

  /** The entry test: the text before the first `.` is `Dockerfile` (a name
      without a `.` yields the empty text). */
  predicate IsCandidate(name: string)
  {
    Prefix(name, IndexOf(name, '.')) == "Dockerfile"
  }

  /** The extension without its dot: `path.extname(name).substr(1)`. */
  function ExtOf(name: string): string
  {
    var e := Extname(name);
    if e == [] then [] else e[1..]
  }

  /** Effect of `entry(file)`: candidates other than `.template` are appended. */
  function AfterEntry(s: State, file: FileInfo): State
  {
    if IsCandidate(file.name) && ExtOf(file.name) != "template" then
      s.(archDockerfiles := s.archDockerfiles + [ArchFile(ExtOf(file.name), file)])
    else s
  }

  function Feed(s: State, files: seq<FileInfo>): State
    decreases |files|
  {
    if files == [] then s else Feed(AfterEntry(s, files[0]), files[1..])
  }

  // ---------------------------------------------------------------------------
  // isSatisfied and resolve

  /** One step of the scan in `isSatisfied`: a match of the architecture fills
      the architecture slot, otherwise a match of the device type fills the
      device slot. */
  function Step(s: State, d: ArchFile, bundle: Bundle): State
  {
    if d.ext == bundle.architecture then s.(satisfiedArch := Some(d))
    else if d.ext == bundle.deviceType then s.(satisfiedDeviceType := Some(d))
    else s
  }

  /** The scan over `ds`, in order. */
  function Scan(s: State, ds: seq<ArchFile>, bundle: Bundle): State
    decreases |ds|
  {
    if ds == [] then s else Step(Scan(s, ds[..|ds| - 1], bundle), ds[|ds| - 1], bundle)
  }

  /** `isSatisfied(bundle)`: the state after the scan, and whether a slot is filled. */
  function Checked(s: State, bundle: Bundle): (State, bool)
  {
    var t := Scan(s, s.archDockerfiles, bundle);
    (t, t.satisfiedArch.Some? || t.satisfiedDeviceType.Some?)
  }

  /** The output for a chosen file: the same bytes, renamed `Dockerfile`. */
  function AsDockerfile(d: ArchFile): FileInfo
  {
    FileInfo("Dockerfile", d.file.size, d.file.contents)
  }

  /** `resolve(bundle)`: the device slot first, then the architecture slot. */
  function Resolved(s: State): Result<seq<FileInfo>, Failure>
  {
    if s.satisfiedDeviceType.Some? then Ok([AsDockerfile(s.satisfiedDeviceType.value)])
    else if s.satisfiedArch.Some? then Ok([AsDockerfile(s.satisfiedArch.value)])
    else Err(NoArchMatch)
  }

  // ---------------------------------------------------------------------------
  // Reference definitions

  /** The last collected file with extension `e`. */
  function LastWithExt(ds: seq<ArchFile>, e: string): (r: Option<ArchFile>)
    ensures r.Some? ==> r.value.ext == e
    ensures r.None? <==> forall i :: 0 <= i < |ds| ==> ds[i].ext != e
    decreases |ds|
  {
    if ds == [] then None
    else if ds[|ds| - 1].ext == e then Some(ds[|ds| - 1])
    else
      var r := LastWithExt(ds[..|ds| - 1], e);
      assert forall i :: 0 <= i < |ds| - 1 ==> ds[..|ds| - 1][i] == ds[i];
      r
  }

  /** The file a fresh resolver picks: one named after the device type when
      there is one (and the device type is not also the architecture), else one
      named after the architecture; the last of its kind in both cases. */
  function Preferred(ds: seq<ArchFile>, bundle: Bundle): Option<ArchFile>
  {
    var device := LastWithExt(ds, bundle.deviceType);
    if bundle.deviceType != bundle.architecture && device.Some? then device
    else LastWithExt(ds, bundle.architecture)
  }

  // ---------------------------------------------------------------------------
  // Properties

  /** The entry test holds exactly for names that begin with `Dockerfile.`,
      so a file in a subdirectory is never collected. */
  lemma IsCandidateIff(name: string)
    ensures IsCandidate(name) <==> |name| > 10 && name[..11] == "Dockerfile."
  {
    var k := IndexOf(name, '.');
    var d := "Dockerfile";
    assert forall i :: 0 <= i < 10 ==> d[i] != '.';
    if IsCandidate(name) {
      assert k > 0 && k < |name| && name[..k] == d;
      assert k == 10;
      assert name[..11] == name[..10] + [name[10]];
    }
    if |name| > 10 && name[..11] == "Dockerfile." {
      assert forall i :: 0 <= i < 11 ==> name[i] == name[..11][i];
      assert name[10] in name;
      assert k == 10;
      assert name[..10] == name[..11][..10];
    }
  }

  /** `Dockerfile.<ext>` is collected under `<ext>` unless `<ext>` is
      `template`. */
  lemma EntryDotted(s: State, ext: string, file: FileInfo)
    requires ext != [] && NoSlash(ext) && '.' !in ext
    requires file.name == "Dockerfile." + ext
    ensures AfterEntry(s, file).archDockerfiles
         == s.archDockerfiles + (if ext == "template" then [] else [ArchFile(ext, file)])
    ensures AfterEntry(s, file).satisfiedArch == s.satisfiedArch
    ensures AfterEntry(s, file).satisfiedDeviceType == s.satisfiedDeviceType
  {
    ExtOfDotted(ext);
    CandidateDotted(ext);
  }

  lemma ExtOfDotted(ext: string)
    requires ext != [] && NoSlash(ext) && '.' !in ext
    ensures ExtOf("Dockerfile." + ext) == ext
  {
    assert "Dockerfile." + ext == "" + "Dockerfile" + ("." + ext) by {
      assert "Dockerfile." + ext == "Dockerfile" + ("." + ext);
    }
    ExtnameDotted("", "Dockerfile", ext);
  }

  lemma CandidateDotted(ext: string)
    ensures IsCandidate("Dockerfile." + ext)
  {
    var name := "Dockerfile." + ext;
    assert name[..11] == "Dockerfile.";
    IsCandidateIff(name);
  }

  /** A name that does not begin with `Dockerfile.` leaves the resolver as it was. */
  lemma EntryIgnored(s: State, file: FileInfo)
    requires !(|file.name| > 10 && file.name[..11] == "Dockerfile.")
    ensures AfterEntry(s, file) == s
  {
    IsCandidateIff(file.name);
  }

  /** Entries only ever append to the collected list. */
  lemma {:induction false} FeedAppends(s: State, files: seq<FileInfo>)
    ensures |Feed(s, files).archDockerfiles| >= |s.archDockerfiles|
    ensures Feed(s, files).archDockerfiles[..|s.archDockerfiles|] == s.archDockerfiles
    ensures Feed(s, files).satisfiedArch == s.satisfiedArch
    ensures Feed(s, files).satisfiedDeviceType == s.satisfiedDeviceType
    decreases |files|
  {
    if files != [] {
      var t := AfterEntry(s, files[0]);
      FeedAppends(t, files[1..]);
      assert t.archDockerfiles[..|s.archDockerfiles|] == s.archDockerfiles;
    }
  }

  /** The scan leaves the list alone and fills each slot with the last matching
      file, keeping a slot's earlier value when nothing matches; a file whose
      extension names the architecture never fills the device slot. */
  lemma {:induction false} ScanSlots(s: State, ds: seq<ArchFile>, bundle: Bundle)
    ensures Scan(s, ds, bundle).archDockerfiles == s.archDockerfiles
    ensures Scan(s, ds, bundle).satisfiedArch
         == LastWithExt(ds, bundle.architecture).OrElse(s.satisfiedArch)
    ensures Scan(s, ds, bundle).satisfiedDeviceType
         == if bundle.deviceType == bundle.architecture then s.satisfiedDeviceType
            else LastWithExt(ds, bundle.deviceType).OrElse(s.satisfiedDeviceType)
    decreases |ds|
  {
    if ds != [] {
      ScanSlots(s, ds[..|ds| - 1], bundle);
    }
  }

  /** `isSatisfied` holds exactly when a slot was already filled or a collected
      file names the architecture or the device type. */
  lemma CheckedIff(s: State, bundle: Bundle)
    ensures Checked(s, bundle).1 <==>
      s.satisfiedArch.Some? || s.satisfiedDeviceType.Some? ||
      exists i :: 0 <= i < |s.archDockerfiles| &&
        (s.archDockerfiles[i].ext == bundle.architecture || s.archDockerfiles[i].ext == bundle.deviceType)
  {
    ScanSlots(s, s.archDockerfiles, bundle);
  }

  /** On a resolver whose slots are still empty, checking then resolving yields
      the preferred file as `Dockerfile`, or fails when there is none; the
      check succeeds exactly when there is one. */
  lemma CheckedThenResolved(s: State, bundle: Bundle)
    requires s.satisfiedArch.None? && s.satisfiedDeviceType.None?
    ensures Checked(s, bundle).1 <==> Preferred(s.archDockerfiles, bundle).Some?
    ensures Resolved(Checked(s, bundle).0)
         == match Preferred(s.archDockerfiles, bundle)
            case Some(d) => Ok([AsDockerfile(d)])
            case None => Err(NoArchMatch)
  {
    ScanSlots(s, s.archDockerfiles, bundle);
  }

  /** The device type takes precedence: with files for both the device type
      and the architecture, the device type's file is the one resolved. */
  lemma DeviceTypePrecedence(s: State, bundle: Bundle, i: nat, j: nat)
    requires s.satisfiedArch.None? && s.satisfiedDeviceType.None?
    requires bundle.deviceType != bundle.architecture
    requires i < |s.archDockerfiles| && s.archDockerfiles[i].ext == bundle.deviceType
    requires j < |s.archDockerfiles| && s.archDockerfiles[j].ext == bundle.architecture
    ensures Resolved(Checked(s, bundle).0).Ok?
    ensures Resolved(Checked(s, bundle).0).value == [AsDockerfile(LastWithExt(s.archDockerfiles, bundle.deviceType).value)]
  {
    CheckedThenResolved(s, bundle);
  }

  /** Once a slot is filled it stays filled: a later check with a bundle that
      matches nothing still reports satisfied. */
  lemma SlotsPersist(s: State, bundle: Bundle)
    requires s.satisfiedArch.Some? || s.satisfiedDeviceType.Some?
    ensures Checked(s, bundle).1
    ensures Resolved(Checked(s, bundle).0).Ok?
  {
    ScanSlots(s, s.archDockerfiles, bundle);
  }

  // ---------------------------------------------------------------------------
  // The class

  class ArchDockerfileResolver {
    var archDockerfiles: seq<ArchFile>
    var satisfiedArch: Option<ArchFile>
    var satisfiedDeviceType: Option<ArchFile>

    function Model(): State
      reads this
    {
      State(archDockerfiles, satisfiedArch, satisfiedDeviceType)
    }

    constructor()
      ensures Model() == Initial()
    {
      archDockerfiles := [];
      satisfiedArch := None;
      satisfiedDeviceType := None;
    }

    method Entry(file: FileInfo)
      modifies this
      ensures Model() == AfterEntry(old(Model()), file)
    {
      var dot := IndexOf(file.name, '.');
      if Prefix(file.name, dot) == "Dockerfile" {
        var ext := ExtOf(file.name);
        if ext != "template" {
          archDockerfiles := archDockerfiles + [ArchFile(ext, file)];
        }
      }
    }

    /** The scan of the collected files, one at a time. */
    method IsSatisfied(bundle: Bundle) returns (b: bool)
      modifies this
      ensures (Model(), b) == Checked(old(Model()), bundle)
    {
      var i := 0;
      while i < |archDockerfiles|
        invariant 0 <= i <= |archDockerfiles|
        invariant archDockerfiles == old(archDockerfiles)
        invariant Model() == Scan(old(Model()), archDockerfiles[..i], bundle)
      {
        var d := archDockerfiles[i];
        if d.ext == bundle.architecture {
          satisfiedArch := Some(d);
        } else if d.ext == bundle.deviceType {
          satisfiedDeviceType := Some(d);
        }
        assert archDockerfiles[..i + 1][..i] == archDockerfiles[..i];
        i := i + 1;
      }
      assert archDockerfiles[..i] == archDockerfiles;
      b := satisfiedArch.Some? || satisfiedDeviceType.Some?;
    }

    method Resolve() returns (r: Result<seq<FileInfo>, Failure>)
      ensures r == Resolved(Model())
      ensures r.Ok? ==> |r.value| == 1 && r.value[0].name == "Dockerfile"
    {
      var satisfied: ArchFile;
      if satisfiedDeviceType.Some? {
        satisfied := satisfiedDeviceType.value;
      } else if satisfiedArch.Some? {
        satisfied := satisfiedArch.value;
      } else {
        return Err(NoArchMatch);
      }
      r := Ok([FileInfo("Dockerfile", satisfied.file.size, satisfied.file.contents)]);
    }
  }
}
