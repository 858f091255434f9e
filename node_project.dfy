/** The NodeJS resolver (src/resolvers/nodeResolver.ts): satisfied by a
    `package.json`, it writes a Dockerfile that installs and starts the
    package, choosing a layout by whether the package has install-time
    scripts. `JSON.parse` is a parameter of the model. */
module NodeProject {
  import opened Wrappers
  import opened Types

  const Priority: int := 0
  const Name: string := "NodeJS"

  /** A value `JSON.parse` can return. A number's value is never read, so it
      is kept as its literal text. */
  datatype Json =
    | JNull
    | JBool(b: bool)
    | JNumber(literal: string)
    | JString(s: string)
    | JArray(items: seq<Json>)
    | JObject(members: map<string, Json>)

  /** lodash's `isObject` on a parsed value: objects and arrays. */
  predicate IsObject(j: Json)
  {
    j.JObject? || j.JArray?
  }

  /** `_(packageJson.scripts).pick('preinstall', 'install', 'postinstall').size() > 0`:
      `scripts` is an object holding at least one of the three keys (whatever
      its value); on anything else `pick` yields an empty object. */
  predicate HasInstallScripts(j: Json)
  {
    && j.JObject?
    && "scripts" in j.members
    && var scripts := j.members["scripts"];
       && scripts.JObject?
       && ("preinstall" in scripts.members || "install" in scripts.members || "postinstall" in scripts.members)
  }

  /** `_.endsWith(name, suffix)`. */
  predicate EndsWith(name: string, suffix: string)
  {
    |name| >= |suffix| && name[|name| - |suffix|..] == suffix
  }

  /** A file whose presence means the package builds native code. */
  predicate IsScriptFile(name: string)
  {
    name == "wscript" || EndsWith(name, ".gyp")
  }

  /** The resolver's fields; `None` is a `package.json` never seen. */
  datatype State = State(packageJsonContent: Option<string>, hasScripts: bool)

  function Initial(): State
  {
    State(None, false)
  }

  /** Effect of `entry(file)`. */
  function AfterEntry(s: State, file: FileInfo): State
  {
    if file.name == "package.json" then s.(packageJsonContent := Some(file.contents))
    else if IsScriptFile(file.name) then s.(hasScripts := true)
    else s
  }

  predicate Satisfied(s: State)
  {
    s.packageJsonContent.Some?
  }

  function Feed(s: State, files: seq<FileInfo>): State
    decreases |files|
  {
    if files == [] then s else Feed(AfterEntry(s, files[0]), files[1..])
  }

  // ---------------------------------------------------------------------------
  // The generated Dockerfiles (template literals indented by tabs)

  const Indent: string := "\t\t\t\t\t"
  const InstallLine: string := "RUN DEBIAN_FRONTEND=noninteractive JOBS=MAX npm install --unsafe-perm"

  /** One indented line of a generated Dockerfile. */
  function Line(text: string): string
  {
    Indent + text + "\n"
  }

  function FromLine(deviceType: string): string
  {
    "FROM resin/" + deviceType + "-node"
  }

  /** The lines both layouts start with. */
  function Preamble(deviceType: string): string
  {
    "\n" + Line(FromLine(deviceType)) + Line("WORKDIR /usr/src/app") + Line("RUN ln -s /usr/src/app /app")
  }

  /** With install scripts the whole source is copied before `npm install`. */
  function ScriptsDockerfile(deviceType: string): string
  {
    Preamble(deviceType) + Line("COPY . /usr/src/app") + Line(InstallLine)
      + Line("CMD [ \"npm\", \"start\" ]") + Indent
  }

  /** Without them `package.json` alone is copied first, so the install step
      does not depend on the rest of the source. */
  function PlainDockerfile(deviceType: string): string
  {
    Preamble(deviceType) + "\n" + Line("COPY package.json .") + Line(InstallLine)
      + "\n" + Line("COPY . ./") + Line("CMD [\"npm\", \"start\"]") + "\t\t\t\t"
  }

  /** The scripts flag after `resolve` has read the parsed package. */
  function ScriptsFlag(hasScripts: bool, packageJson: Json): bool
  {
    hasScripts || HasInstallScripts(packageJson)
  }

  /** The layout chosen by the scripts flag. */
  function DockerfileText(scripts: bool, deviceType: string): string
  {
    if scripts then ScriptsDockerfile(deviceType) else PlainDockerfile(deviceType)
  }

  /** `resolve(bundle)`: the new state and the one output file, or the error
      the returned promise rejects with. */
  function Resolved(s: State, bundle: Bundle, parse: string -> Result<Json, string>)
    : Result<(State, seq<FileInfo>), Failure>
  {
    match s.packageJsonContent
    case None => Err(PackageJson(Message(UndefinedRead("toString"))))
    case Some(text) =>
      match parse(text)
      case Err(m) => Err(PackageJson(m))
      case Ok(j) =>
        if !IsObject(j) then Err(PackageJson("must be a JSON object"))
        else
          var scripts := ScriptsFlag(s.hasScripts, j);
          Ok((s.(hasScripts := scripts), Output(scripts, bundle.deviceType)))
  }

  /** The one output file: the Dockerfile, sized by its string length. */
  function Output(scripts: bool, deviceType: string): seq<FileInfo>
  {
    var dockerfile := DockerfileText(scripts, deviceType);
    [FileInfo("Dockerfile", Utf16Length(dockerfile), dockerfile)]
  }

  // ---------------------------------------------------------------------------
  // Properties

  /** `files[i]` is the last entry called `name`. */
  predicate LastNamed(files: seq<FileInfo>, i: nat, name: string)
    requires i < |files|
  {
    files[i].name == name && forall j :: i < j < |files| ==> files[j].name != name
  }

  /** Satisfied after a sequence of entries exactly when one of them (or an
      earlier one) is `package.json`; the contents kept are the last such
      entry's. */
  lemma {:induction false} FeedPackageJson(s: State, files: seq<FileInfo>)
    ensures Satisfied(Feed(s, files)) <==>
      Satisfied(s) || exists i :: 0 <= i < |files| && files[i].name == "package.json"
    ensures forall i :: 0 <= i < |files| && LastNamed(files, i, "package.json") ==>
      Feed(s, files).packageJsonContent == Some(files[i].contents)
    decreases |files|
  {
    if files != [] {
      var t := AfterEntry(s, files[0]);
      FeedPackageJson(t, files[1..]);
      assert forall j :: 1 <= j < |files| ==> files[1..][j - 1] == files[j];
      if exists i :: 0 <= i < |files| && files[i].name == "package.json" {
        var i :| 0 <= i < |files| && files[i].name == "package.json";
        if i > 0 {
          assert files[1..][i - 1].name == "package.json";
        }
      }
      forall i | 0 <= i < |files| && LastNamed(files, i, "package.json")
        ensures Feed(s, files).packageJsonContent == Some(files[i].contents)
      {
        if i > 0 {
          assert files[1..][i - 1] == files[i];
          assert forall j :: i - 1 < j < |files[1..]| ==> files[1..][j].name != "package.json";
        } else {
          assert forall j :: 0 <= j < |files[1..]| ==> files[1..][j].name != "package.json";
          FeedKeepsContent(t, files[1..]);
        }
      }
    }
  }

  /** Entries without a `package.json` leave the kept contents alone. */
  lemma {:induction false} FeedKeepsContent(s: State, files: seq<FileInfo>)
    requires forall j :: 0 <= j < |files| ==> files[j].name != "package.json"
    ensures Feed(s, files).packageJsonContent == s.packageJsonContent
    decreases |files|
  {
    if files != [] {
      FeedKeepsContent(AfterEntry(s, files[0]), files[1..]);
    }
  }

  /** The scripts flag is set by a `wscript` or `*.gyp` entry and never cleared. */
  lemma {:induction false} FeedScripts(s: State, files: seq<FileInfo>)
    ensures Feed(s, files).hasScripts <==>
      s.hasScripts || exists i :: 0 <= i < |files| && IsScriptFile(files[i].name)
    decreases |files|
  {
    if files != [] {
      var t := AfterEntry(s, files[0]);
      assert t.hasScripts <==> s.hasScripts || IsScriptFile(files[0].name) by {
        assert !IsScriptFile("package.json") by {
          assert "package.json"[8..] == "json";
        }
      }
      FeedScripts(t, files[1..]);
      assert forall j :: 1 <= j < |files| ==> files[1..][j - 1] == files[j];
      if exists i :: 0 <= i < |files| && IsScriptFile(files[i].name) {
        var i :| 0 <= i < |files| && IsScriptFile(files[i].name);
        if i > 0 {
          assert IsScriptFile(files[1..][i - 1].name);
        }
      }
    }
  }

  /** The three ways resolve fails, each reported with the `package.json:`
      prefix: no `package.json` seen (reading its contents throws), a parse
      error, or a parsed value that is not an object; nothing else fails. */
  lemma ResolvedErrors(s: State, bundle: Bundle, parse: string -> Result<Json, string>)
    ensures s.packageJsonContent.None? ==>
      Resolved(s, bundle, parse) == Err(PackageJson(Message(UndefinedRead("toString"))))
    ensures s.packageJsonContent.Some? && parse(s.packageJsonContent.value).Err? ==>
      Resolved(s, bundle, parse) == Err(PackageJson(parse(s.packageJsonContent.value).error))
    ensures (s.packageJsonContent.Some? && parse(s.packageJsonContent.value).Ok? &&
             !IsObject(parse(s.packageJsonContent.value).value)) ==>
      Resolved(s, bundle, parse) == Err(PackageJson("must be a JSON object"))
    ensures Resolved(s, bundle, parse).Ok? <==>
      s.packageJsonContent.Some? && parse(s.packageJsonContent.value).Ok? &&
      IsObject(parse(s.packageJsonContent.value).value)
  {
  }

  /** A successful resolve writes one `Dockerfile`, sized by the text's
      JavaScript length, whose layout follows the scripts flag, which it sets
      when the parsed package declares an install script. */
  lemma ResolvedOutput(s: State, bundle: Bundle, parse: string -> Result<Json, string>)
    requires Resolved(s, bundle, parse).Ok?
    ensures var (s', files) := Resolved(s, bundle, parse).value;
      var j := parse(s.packageJsonContent.value).value;
      && s'.packageJsonContent == s.packageJsonContent
      && (s'.hasScripts <==> s.hasScripts || HasInstallScripts(j))
      && |files| == 1 && files[0].name == "Dockerfile"
      && files[0].contents == (if s'.hasScripts then ScriptsDockerfile(bundle.deviceType)
                               else PlainDockerfile(bundle.deviceType))
      && files[0].size == Utf16Length(files[0].contents) >= |files[0].contents|
  {
  }

  /** Both layouts open with a blank line and then the base image named after
      the device type. */
  lemma StartsWithFrom(deviceType: string)
    ensures var head := "\n" + Line(FromLine(deviceType));
      && |head| <= |ScriptsDockerfile(deviceType)| && ScriptsDockerfile(deviceType)[..|head|] == head
      && |head| <= |PlainDockerfile(deviceType)| && PlainDockerfile(deviceType)[..|head|] == head
  {
    var head := "\n" + Line(FromLine(deviceType));
    var l2, l3 := Line("WORKDIR /usr/src/app"), Line("RUN ln -s /usr/src/app /app");
    assert head[..|head|] == head;
    PrefixOfAppend(head, head, l2);
    PrefixOfAppend(head, head + l2, l3);
    var p := Preamble(deviceType);
    assert p == head + l2 + l3;
    var s1, s2, s3 := Line("COPY . /usr/src/app"), Line(InstallLine), Line("CMD [ \"npm\", \"start\" ]");
    PrefixOfAppend(head, p, s1);
    PrefixOfAppend(head, p + s1, s2);
    PrefixOfAppend(head, p + s1 + s2, s3);
    PrefixOfAppend(head, p + s1 + s2 + s3, Indent);
    var t1, t2 := Line("COPY package.json ."), Line(InstallLine);
    var t3, t4 := Line("COPY . ./"), Line("CMD [\"npm\", \"start\"]");
    PrefixOfAppend(head, p, "\n");
    PrefixOfAppend(head, p + "\n", t1);
    PrefixOfAppend(head, p + "\n" + t1, t2);
    PrefixOfAppend(head, p + "\n" + t1 + t2, "\n");
    PrefixOfAppend(head, p + "\n" + t1 + t2 + "\n", t3);
    PrefixOfAppend(head, p + "\n" + t1 + t2 + "\n" + t3, t4);
    PrefixOfAppend(head, p + "\n" + t1 + t2 + "\n" + t3 + t4, "\t\t\t\t");
  }

  lemma PrefixOfAppend(head: string, p: string, rest: string)
    requires |head| <= |p| && p[..|head|] == head
    ensures |head| <= |p + rest| && (p + rest)[..|head|] == head
  {
    assert (p + rest)[..|head|] == p[..|head|];
  }

  // ---------------------------------------------------------------------------
  // The class

  class NodeResolver {
    var packageJsonContent: Option<string>
    var hasScripts: bool

    function Model(): State
      reads this
    {
      State(packageJsonContent, hasScripts)
    }

    constructor()
      ensures Model() == Initial()
    {
      packageJsonContent := None;
      hasScripts := false;
    }

    method Entry(file: FileInfo)
      modifies this
      ensures Model() == AfterEntry(old(Model()), file)
    {
      if file.name == "package.json" {
        packageJsonContent := Some(file.contents);
      } else if file.name == "wscript" || EndsWith(file.name, ".gyp") {
        hasScripts := true;
      }
    }

    method IsSatisfied() returns (b: bool)
      ensures b == Satisfied(Model())
    {
      b := packageJsonContent.Some?;
    }

    /** Sets the scripts flag and builds the output record. */
    method Resolve(bundle: Bundle, parse: string -> Result<Json, string>)
      returns (r: Result<seq<FileInfo>, Failure>)
      modifies this
      ensures var res := Resolved(old(Model()), bundle, parse);
        && (res.Ok? ==> r == Ok(res.value.1) && Model() == res.value.0)
        && (res.Err? ==> r == Err(res.error) && Model() == old(Model()))
    {
      ghost var expected := Resolved(Model(), bundle, parse);
      if packageJsonContent.None? {
        return Err(PackageJson(Message(UndefinedRead("toString"))));
      }
      var parsed := parse(packageJsonContent.value);
      if parsed.Err? {
        assert expected == Err(PackageJson(parsed.error));
        return Err(PackageJson(parsed.error));
      }
      var packageJson := parsed.value;
      if !(packageJson.JObject? || packageJson.JArray?) {
        assert expected == Err(PackageJson("must be a JSON object"));
        return Err(PackageJson("must be a JSON object"));
      }
      var scripts := ScriptsFlag(hasScripts, packageJson);
      var files := Output(scripts, bundle.deviceType);
      assert expected == Ok((State(packageJsonContent, scripts), files));
      hasScripts := scripts;
      assert Model() == State(packageJsonContent, scripts);
      r := Ok(files);
    }
  }
}
