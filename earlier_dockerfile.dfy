/** The earlier standard Dockerfile resolver (build/resolvers/dockerfile.js):
    besides noting a top-level `Dockerfile`, it keeps the entry's text so that
    the engine can hand it to the bundle's Dockerfile hook. */
module EarlierDockerfile {
  import opened Wrappers
  import opened Types

  const Priority: int := 0
  const Name: string := "Standard Dockerfile"

  /** The resolver's fields; `None` is a `dockerfileContents` never assigned. */
  datatype State = State(gotDockerfile: bool, dockerfileContents: Option<string>)

  function Initial(): State
  {
    State(false, None)
  }

  /** Effect of `entry(file)`: a name exactly `Dockerfile` sets the flag and
      replaces the kept text; any other entry changes nothing. */
  function AfterEntry(s: State, file: FileInfo): State
  {
    if file.name == "Dockerfile" then State(true, Some(file.contents)) else s
  }

  predicate Satisfied(s: State)
  {
    s.gotDockerfile
  }

  /** The state after the resolver has been given `files`, in order. */
  function Feed(s: State, files: seq<FileInfo>): State
    decreases |files|
  {
    if files == [] then s else AfterEntry(Feed(s, files[..|files| - 1]), files[|files| - 1])
  }

  /** The text of the last entry named `Dockerfile` among `files`, if any. */
  function LastDockerfile(files: seq<FileInfo>): (r: Option<string>)
    ensures r.Some? <==> exists i :: 0 <= i < |files| && files[i].name == "Dockerfile"
    decreases |files|
  {
    if files == [] then None
    else if files[|files| - 1].name == "Dockerfile" then Some(files[|files| - 1].contents)
    else
      var r := LastDockerfile(files[..|files| - 1]);
      assert forall i :: 0 <= i < |files| - 1 ==> files[..|files| - 1][i] == files[i];
      r
  }

  // ---------------------------------------------------------------------------
  // Properties

  /** After a sequence of entries the resolver is satisfied exactly when it
      already was or one entry is named `Dockerfile`; it then holds the last
      such entry's text, and the flag and the text are never cleared. */
  lemma {:induction false} FeedKeepsLast(s: State, files: seq<FileInfo>)
    ensures Satisfied(Feed(s, files)) <==> Satisfied(s) || LastDockerfile(files).Some?
    ensures Feed(s, files).dockerfileContents
         == if LastDockerfile(files).Some? then LastDockerfile(files) else s.dockerfileContents
    decreases |files|
  {
    if files != [] {
      FeedKeepsLast(s, files[..|files| - 1]);
    }
  }

  /** The last entry named `Dockerfile` is the one whose text is kept: no
      later entry has that name. */
  lemma {:induction false} LastDockerfileIsLast(files: seq<FileInfo>)
    requires LastDockerfile(files).Some?
    ensures exists i :: && 0 <= i < |files| && files[i].name == "Dockerfile"
                        && files[i].contents == LastDockerfile(files).value
                        && forall j :: i < j < |files| ==> files[j].name != "Dockerfile"
    decreases |files|
  {
    var n := |files| - 1;
    if files[n].name == "Dockerfile" {
      assert files[n].contents == LastDockerfile(files).value;
    } else {
      var pre := files[..n];
      assert LastDockerfile(files) == LastDockerfile(pre);
      LastDockerfileIsLast(pre);
      var i :| && 0 <= i < |pre| && pre[i].name == "Dockerfile" && pre[i].contents == LastDockerfile(pre).value
               && forall j :: i < j < |pre| ==> pre[j].name != "Dockerfile";
      forall j | i < j < |files|
        ensures files[j].name != "Dockerfile"
      {
        if j < n {
          assert files[j] == pre[j];
        }
      }
      assert files[i] == pre[i];
    }
  }

  /** A nested `a/Dockerfile` is ignored. */
  lemma NestedIgnored(s: State, dir: string, file: FileInfo)
    requires file.name == dir + "/Dockerfile"
    ensures AfterEntry(s, file) == s
  {
    assert |file.name| > |"Dockerfile"|;
  }

  // ---------------------------------------------------------------------------
  // The class

  class DockerfileResolver {
    var gotDockerfile: bool
    var dockerfileContents: Option<string>

    function Model(): State
      reads this
    {
      State(gotDockerfile, dockerfileContents)
    }

    constructor()
      ensures Model() == Initial()
    {
      gotDockerfile := false;
      dockerfileContents := None;
    }

    method Entry(file: FileInfo)
      modifies this
      ensures Model() == AfterEntry(old(Model()), file)
    {
      if file.name == "Dockerfile" {
        gotDockerfile := true;
        dockerfileContents := Some(file.contents);
      }
    }

    method IsSatisfied() returns (b: bool)
      ensures b == Satisfied(Model())
    {
      b := gotDockerfile;
    }

    /** No files are added: the original Dockerfile entry is the build file. */
    method Resolve() returns (files: seq<FileInfo>)
      ensures files == []
    {
      files := [];
    }

    /** `getDockerfileContents()`: the kept text. */
    method GetDockerfileContents() returns (text: Option<string>)
      ensures text == Model().dockerfileContents
    {
      text := dockerfileContents;
    }
  }
}
