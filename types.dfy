/** The values the resolution pipeline passes around: tar headers and entries,
    the in-memory FileInfo a resolver receives, and the Bundle metadata. */
module Types {
  import opened Wrappers

  /** A tar header as far as the pipeline reads it; the size may be absent. */
  datatype Header = Header(name: string, size: Option<nat>)

  /** `header.size || 0`. */
  function HeaderSize(h: Header): nat
  {
    if h.size.Some? then h.size.value else 0
  }

  /** One archive entry: its header and its bytes. Buffers are modelled by the
      text they hold. */
  datatype TarEntry = TarEntry(header: Header, contents: string)

  /** An entry read into memory: a normalised name, the header size, the bytes. */
  datatype FileInfo = FileInfo(name: string, size: nat, contents: string)

  /** The part of a Bundle the core reads; the input stream and the hook callback
      are represented by the engine's input sequence and by trace events. */
  datatype Bundle = Bundle(deviceType: string, architecture: string)

  /** Outcome of the `dockerfile-template` library on an unknown variable. */
  datatype TemplateError = UnknownVariable(name: string)

  /** Every failure the core can raise or emit. */
  datatype Failure =
    | ResolutionFailed                 // no resolver satisfied (current engine)
    | SpecifiedNotResolved(path: string)
    | NoProjectType                    // no resolver satisfied (earlier engine)
    | MissingMember(member: string)    // TypeError: calling a method the object lacks
    | Template(error: TemplateError)
    | PackageJson(detail: string)      // `package.json: <detail>`
    | NoArchMatch                      // arch resolver resolved without a match
    | UndefinedRead(property: string)  // TypeError: reading a property of undefined

  /** The text of the Error each failure carries. */
  function Message(f: Failure): string
  {
    match f
    case ResolutionFailed => "Resolution could not be performed"
    case SpecifiedNotResolved(p) => "Specified dockerfile could not be resolved: " + p
    case NoProjectType => "No project type resolution could be performed"
    case MissingMember(m) => m + " is not a function"
    case Template(UnknownVariable(n)) => "Missing variable " + n
    case PackageJson(d) => "package.json: " + d
    case NoArchMatch => "Resolve called without a satisfied architecture specific dockerfile"
    case UndefinedRead(p) => "Cannot read property '" + p + "' of undefined"
  }

  /** What a resolution run observably does, in order. */
  datatype Event =
    | Written(header: Header, contents: string)  // an entry added to the output archive
    | ResolverChosen(name: string)               // the `resolver` event
    | ResolvedName(path: string)                 // the `resolved-name` event
    | HookCalled(hookContents: Option<string>)    // the bundle's Dockerfile hook, awaited
    | Emitted(failure: Failure)                  // the `error` event
    | Finalized                                  // the output archive is closed

  /** Number of bytes in the UTF-8 encoding of `s` (Buffer.from(s).length). */
  function Utf8Length(s: string): (n: nat)
    ensures n >= |s|
  {
    if s == [] then 0
    else
      var c := s[0] as int;
      (if c < 0x80 then 1 else if c < 0x800 then 2 else if c < 0x1_0000 then 3 else 4)
      + Utf8Length(s[1..])
  }

  /** Number of UTF-16 code units in `s` (JavaScript's string.length). */
  function Utf16Length(s: string): (n: nat)
    ensures n >= |s|
  {
    if s == [] then 0
    else (if (s[0] as int) < 0x1_0000 then 1 else 2) + Utf16Length(s[1..])
  }

  predicate IsAscii(s: string)
  {
    forall i :: 0 <= i < |s| ==> (s[i] as int) < 0x80
  }

  /** On ASCII text a string's length, its UTF-16 length and its UTF-8 byte
      length all agree. */
  lemma {:induction false} AsciiLengths(s: string)
    requires IsAscii(s)
    ensures Utf8Length(s) == |s| && Utf16Length(s) == |s|
  {
    if s != [] {
      assert IsAscii(s[1..]) by {
        forall i | 0 <= i < |s[1..]| ensures (s[1..][i] as int) < 0x80 {
          assert s[1..][i] == s[i + 1];
        }
      }
      AsciiLengths(s[1..]);
    }
  }

  /** One non-ASCII character makes the byte length exceed the string length. */
  lemma {:induction false} NonAsciiLonger(s: string, k: nat)
    requires k < |s| && (s[k] as int) >= 0x80
    ensures Utf8Length(s) > |s|
  {
    if k > 0 {
      assert s[1..][k - 1] == s[k];
      NonAsciiLonger(s[1..], k - 1);
    }
  }
}
