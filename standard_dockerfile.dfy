/** The standard Dockerfile resolver (src/resolvers/dockerfile.ts): satisfied
    by a top-level entry named exactly `Dockerfile`, which it leaves in place. */
module StandardDockerfile {
  import opened Types

  const Priority: int := 0
  const Name: string := "Standard Dockerfile"

  /** The resolver's fields as a value. */
  datatype State = State(gotDockerfile: bool)

  function Initial(): State
  {
    State(false)
  }

  /** Effect of `entry(file)`: only a name exactly `Dockerfile` counts, and the
      flag is never cleared. */
  function AfterEntry(s: State, file: FileInfo): State
  {
    if file.name == "Dockerfile" then State(true) else s
  }

  predicate Satisfied(s: State)
  {
    s.gotDockerfile
  }

  /** The state after the resolver has been given `files`, in order. */
  function Feed(s: State, files: seq<FileInfo>): State
    decreases |files|
  {
    if files == [] then s else Feed(AfterEntry(s, files[0]), files[1..])
  }

  predicate HasTopLevelDockerfile(files: seq<FileInfo>)
  {
    exists i :: 0 <= i < |files| && files[i].name == "Dockerfile"
  }

  /** Satisfied after a sequence of entries exactly when it already was or one
      of them is named `Dockerfile` (a nested `a/Dockerfile` does not count). */
  lemma {:induction false} FeedSatisfied(s: State, files: seq<FileInfo>)
    ensures Satisfied(Feed(s, files)) <==> Satisfied(s) || HasTopLevelDockerfile(files)
    decreases |files|
  {
    if files != [] {
      FeedSatisfied(AfterEntry(s, files[0]), files[1..]);
      if HasTopLevelDockerfile(files[1..]) {
        var i :| 0 <= i < |files[1..]| && files[1..][i].name == "Dockerfile";
        assert files[i + 1].name == "Dockerfile";
      }
      if HasTopLevelDockerfile(files) && files[0].name != "Dockerfile" {
        var i :| 0 <= i < |files| && files[i].name == "Dockerfile";
        assert files[1..][i - 1].name == "Dockerfile";
      }
    }
  }

  class DockerfileResolver {
    var gotDockerfile: bool

    function Model(): State
      reads this
    {
      State(gotDockerfile)
    }

    constructor()
      ensures Model() == Initial()
    {
      gotDockerfile := false;
    }

    method Entry(file: FileInfo)
      modifies this
      ensures Model() == AfterEntry(old(Model()), file)
    {
      if file.name == "Dockerfile" {
        gotDockerfile := true;
      }
    }

    method IsSatisfied() returns (b: bool)
      ensures b == Satisfied(Model())
    {
      b := gotDockerfile;
    }

    /** No files are added: the original Dockerfile entry is the build file. */
    method Resolve() returns (files: seq<FileInfo>)
      ensures files == []
    {
      files := [];
    }
  }
}
