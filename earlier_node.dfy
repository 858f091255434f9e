/** The earlier NodeJS resolver (build/resolvers/nodeResolver.js): satisfied by
    a top-level `package.json`, it always writes the same Dockerfile, which
    names the device type in its base image and never reads the package. */
module EarlierNode {
  import opened Types

  const Priority: int := 0
  const Name: string := "NodeJS"

  /** The resolver's fields as a value. */
  datatype State = State(hasPackageJson: bool)

  function Initial(): State
  {
    State(false)
  }

  /** Effect of `entry(file)`: only a name exactly `package.json` counts. */
  function AfterEntry(s: State, file: FileInfo): State
  {
    if file.name == "package.json" then State(true) else s
  }

  predicate Satisfied(s: State)
  {
    s.hasPackageJson
  }

  function FromLine(deviceType: string): string
  {
    "FROM resin/" + deviceType + "-node"
  }

  /** The generated Dockerfile after its first line break (a template
      literal, closed after two tabs). */
  const Body: string := "\nWORKDIR /usr/src/app\n\nCOPY package.json .\nRUN npm install\n\nCOPY . ./\nCMD [\"npm\", \"start\"]\n\t\t"

  function DockerfileText(deviceType: string): string
  {
    FromLine(deviceType) + "\n" + Body
  }

  /** `resolve(bundle)`: one file named `Dockerfile`, sized by the text's
      string length. */
  function Resolved(bundle: Bundle): seq<FileInfo>
  {
    var text := DockerfileText(bundle.deviceType);
    [FileInfo("Dockerfile", Utf16Length(text), text)]
  }

  // ---------------------------------------------------------------------------
  // Properties

  /** The output is one file named `Dockerfile` whose first line is the base
      image for the device type, sized by the text's UTF-16 length, which is
      never less than its length in characters. */
  lemma ResolvedOutput(bundle: Bundle)
    ensures var files := Resolved(bundle);
      && |files| == 1 && files[0].name == "Dockerfile"
      && var text := files[0].contents;
         && text[..|FromLine(bundle.deviceType)| + 1] == FromLine(bundle.deviceType) + "\n"
         && files[0].size == Utf16Length(text) >= |text|
  {
    var first := FromLine(bundle.deviceType);
    var text := DockerfileText(bundle.deviceType);
    assert text[..|first| + 1] == first + "\n";
  }

  // ---------------------------------------------------------------------------
  // The class

  class NodeResolver {
    var hasPackageJson: bool

    function Model(): State
      reads this
    {
      State(hasPackageJson)
    }

    constructor()
      ensures Model() == Initial()
    {
      hasPackageJson := false;
    }

    method Entry(file: FileInfo)
      modifies this
      ensures Model() == AfterEntry(old(Model()), file)
    {
      if file.name == "package.json" {
        hasPackageJson := true;
      }
    }

    method IsSatisfied() returns (b: bool)
      ensures b == Satisfied(Model())
    {
      b := hasPackageJson;
    }

    method Resolve(bundle: Bundle) returns (files: seq<FileInfo>)
      ensures files == Resolved(bundle)
    {
      var text := DockerfileText(bundle.deviceType);
      files := [FileInfo("Dockerfile", Utf16Length(text), text)];
    }
  }
}
