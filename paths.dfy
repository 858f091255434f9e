/** POSIX path handling: the parts of Node's `path` module the core relies on
    (normalize, isAbsolute, basename, extname) and `normalizeTarEntry`
    from src/utils.ts, which the engine applies to every entry name. */
module Paths {
  import opened Wrappers

  // ---------------------------------------------------------------------------
  // Splitting on the separator and joining back

  /** `p.split('/')`: the pieces between separators, empty pieces included. */
  function Split(p: string): (segs: seq<string>)
    ensures |segs| >= 1
  {
    if p == [] then [""] else SplitStep(p[0], Split(p[1..]))
  }

  /** The pieces of `[c] + q`, given the pieces `rest` of `q`: a separator
      starts a new piece, any other character joins the first one. */
  function SplitStep(c: char, rest: seq<string>): (segs: seq<string>)
    requires |rest| >= 1
    ensures |segs| >= 1
  {
    if c == '/' then [""] + rest else [[c] + rest[0]] + rest[1..]
  }

  /** `segs.join('/')`. */
  function Join(segs: seq<string>): string
  {
    if segs == [] then ""
    else if |segs| == 1 then segs[0]
    else segs[0] + "/" + Join(segs[1..])
  }

  predicate NoSlash(s: string) { '/' !in s }

  predicate AllNoSlash(segs: seq<string>)
  {
    forall i :: 0 <= i < |segs| ==> NoSlash(segs[i])
  }

  lemma {:induction false} SplitHasNoSlash(p: string)
    ensures AllNoSlash(Split(p))
  {
    if p != [] {
      SplitHasNoSlash(p[1..]);
      var rest := Split(p[1..]);
      if p[0] != '/' {
        var segs := Split(p);
        assert segs[0] == [p[0]] + rest[0];
        forall i | 0 <= i < |segs| ensures NoSlash(segs[i]) {
          if i > 0 { assert segs[i] == rest[i]; }
        }
      }
    }
  }

  /** Joining the pieces of a split gives back the path. */
  lemma {:induction false} JoinSplit(p: string)
    ensures Join(Split(p)) == p
  {
    if p != [] {
      JoinSplit(p[1..]);
      JoinSplitStep(p[0], Split(p[1..]));
      assert p == [p[0]] + p[1..];
    }
  }

  /** One character in front of the pieces is one character in front of
      their join. */
  lemma JoinSplitStep(c: char, rest: seq<string>)
    requires |rest| >= 1
    ensures Join(SplitStep(c, rest)) == [c] + Join(rest)
  {
    if c == '/' {
      assert SplitStep(c, rest) == [""] + rest;
      JoinSeparatorFirst(rest);
    } else if |rest| == 1 {
      assert SplitStep(c, rest) == [[c] + rest[0]];
      JoinOne([c] + rest[0]);
      JoinOne(rest[0]);
      assert rest == [rest[0]];
    } else {
      assert SplitStep(c, rest) == [[c] + rest[0]] + rest[1..];
      JoinFirstLonger([c], rest);
    }
  }

  lemma JoinSeparatorFirst(rest: seq<string>)
    requires |rest| >= 1
    ensures Join([""] + rest) == ['/'] + Join(rest)
  {
    JoinCons("", rest);
    assert "" + "/" + Join(rest) == ['/'] + Join(rest);
  }

  lemma JoinOne(s: string)
    ensures Join([s]) == s
  {
  }

  /** Lengthening the first of several pieces lengthens the join in front. */
  lemma JoinFirstLonger(a: string, rest: seq<string>)
    requires |rest| >= 2
    ensures Join([a + rest[0]] + rest[1..]) == a + Join(rest)
  {
    var h, t := rest[0], rest[1..];
    assert rest == [h] + t;
    JoinCons(a + h, t);
    JoinCons(h, t);
    PrefixAround(a, h, Join(t));
  }

  lemma PrefixAround(a: string, h: string, j: string)
    ensures a + h + "/" + j == a + (h + "/" + j)
  {
  }

  lemma JoinCons(h: string, t: seq<string>)
    requires |t| >= 1
    ensures Join([h] + t) == h + "/" + Join(t)
  {
    assert ([h] + t)[1..] == t;
  }

  /** A separator in the middle splits into the pieces of either side. */
  lemma {:induction false} SplitAt(x: string, y: string)
    ensures Split(x + "/" + y) == Split(x) + Split(y)
  {
    var p := x + "/" + y;
    if x == [] {
      assert p == ['/'] + y;
      assert p[1..] == y;
    } else {
      assert p[0] == x[0] && p[1..] == x[1..] + "/" + y;
      SplitAt(x[1..], y);
      SplitFirst(x, p, Split(x[1..]), Split(y));
    }
  }

  /** Two strings with the same first character whose rests split as `l + r`
      and `l` split as the one's pieces plus `r`. */
  lemma SplitFirst(x: string, p: string, l: seq<string>, r: seq<string>)
    requires x != [] && p != [] && p[0] == x[0] && |l| >= 1
    requires Split(p[1..]) == l + r && Split(x[1..]) == l
    ensures Split(p) == Split(x) + r
  {
    assert Split(p) == SplitStep(x[0], l + r) && Split(x) == SplitStep(x[0], l);
    SplitStepAppend(x[0], l, r);
  }

  /** A character in front of pieces `l + r` only touches `l`. */
  lemma SplitStepAppend(c: char, l: seq<string>, r: seq<string>)
    requires |l| >= 1
    ensures SplitStep(c, l + r) == SplitStep(c, l) + r
  {
    if c != '/' {
      assert (l + r)[0] == l[0] && (l + r)[1..] == l[1..] + r;
    } else {
      assert [""] + (l + r) == ([""] + l) + r;
    }
  }

  /** Splitting a join of separator-free pieces gives back the pieces. */
  lemma {:induction false} SplitJoin(segs: seq<string>)
    requires |segs| >= 1 && AllNoSlash(segs)
    ensures Split(Join(segs)) == segs
  {
    if |segs| == 1 {
      SplitNoSlash(segs[0]);
    } else {
      assert AllNoSlash(segs[1..]) by {
        forall i | 0 <= i < |segs[1..]| ensures NoSlash(segs[1..][i]) {
          assert segs[1..][i] == segs[i + 1];
        }
      }
      SplitJoin(segs[1..]);
      SplitNoSlash(segs[0]);
      SplitAt(segs[0], Join(segs[1..]));
      assert segs == [segs[0]] + segs[1..];
    }
  }

  lemma {:induction false} SplitNoSlash(s: string)
    requires NoSlash(s)
    ensures Split(s) == [s]
  {
    if s != [] {
      SplitNoSlash(s[1..]);
      assert [s[0]] + s[1..] == s;
    }
  }

  // ---------------------------------------------------------------------------
  // path.posix.normalize

  /** The effect of one piece on the stack of kept segments, as Node's
      normalizeString has it: empty pieces and `.` are dropped, `..` removes the
      last kept segment unless that is itself `..`, and otherwise is kept only
      when the path may climb above its start (relative paths). */
  function Push(stack: seq<string>, s: string, allowAboveRoot: bool): seq<string>
  {
    if s == "" || s == "." then stack
    else if s == ".." then
      if |stack| > 0 && stack[|stack| - 1] != ".." then stack[..|stack| - 1]
      else if allowAboveRoot then stack + [".."]
      else stack
    else stack + [s]
  }

  function Fold(stack: seq<string>, segs: seq<string>, allowAboveRoot: bool): seq<string>
    decreases |segs|
  {
    if segs == [] then stack
    else Fold(Push(stack, segs[0], allowAboveRoot), segs[1..], allowAboveRoot)
  }

  /** A segment list in normal form: no empty piece, no `.`, no separator, and
      `..` only in a leading run (never at all when climbing is not allowed). */
  predicate Canonical(segs: seq<string>, allowAboveRoot: bool)
  {
    && (forall i :: 0 <= i < |segs| ==> segs[i] != "" && segs[i] != "." && NoSlash(segs[i]))
    && (forall i, j :: 0 <= i < j < |segs| && segs[j] == ".." ==> segs[i] == "..")
    && (!allowAboveRoot ==> forall i :: 0 <= i < |segs| ==> segs[i] != "..")
  }

  lemma {:induction false} FoldCanonical(stack: seq<string>, segs: seq<string>, allowAboveRoot: bool)
    requires Canonical(stack, allowAboveRoot) && AllNoSlash(segs)
    ensures Canonical(Fold(stack, segs, allowAboveRoot), allowAboveRoot)
    decreases |segs|
  {
    if segs != [] {
      var next := Push(stack, segs[0], allowAboveRoot);
      assert Canonical(next, allowAboveRoot) by {
        if segs[0] == ".." && |stack| > 0 && stack[|stack| - 1] != ".." {
          assert next == stack[..|stack| - 1];
        } else if segs[0] == ".." && allowAboveRoot && !(|stack| > 0 && stack[|stack| - 1] != "..") {
          assert next == stack + [".."];
          forall i, j | 0 <= i < j < |next| && next[j] == ".." ensures next[i] == ".." {
            if j < |stack| { assert next[j] == stack[j]; }
            else if |stack| > 0 {
              // the old top is `..`, hence every kept segment is
              assert stack[|stack| - 1] == "..";
              if i < |stack| - 1 { assert stack[i] == ".."; }
            }
          }
        }
      }
      assert AllNoSlash(segs[1..]) by {
        forall i | 0 <= i < |segs[1..]| ensures NoSlash(segs[1..][i]) {
          assert segs[1..][i] == segs[i + 1];
        }
      }
      FoldCanonical(next, segs[1..], allowAboveRoot);
    }
  }

  /** Folding pieces that already are in normal form keeps them all. */
  lemma {:induction false} FoldKeepsCanonical(stack: seq<string>, segs: seq<string>, allowAboveRoot: bool)
    requires Canonical(stack + segs, allowAboveRoot)
    ensures Fold(stack, segs, allowAboveRoot) == stack + segs
    decreases |segs|
  {
    if segs != [] {
      var all := stack + segs;
      assert all[|stack|] == segs[0];
      if segs[0] == ".." && |stack| > 0 {
        assert all[|stack| - 1] == "..";
      }
      assert Push(stack, segs[0], allowAboveRoot) == stack + [segs[0]];
      assert stack + [segs[0]] + segs[1..] == all;
      FoldKeepsCanonical(stack + [segs[0]], segs[1..], allowAboveRoot);
    }
  }

  /** `path.posix.normalize(p)`. */
  function Normalize(p: string): string
  {
    if p == [] then "."
    else
      var isAbsolute := p[0] == '/';
      var trailing := p[|p| - 1] == '/';
      var body := Join(Segments(p));
      if body == [] then (if isAbsolute then "/" else if trailing then "./" else ".")
      else Decorate(body, isAbsolute, trailing)
  }

  /** A body with the leading and trailing separators it is to keep. */
  function Decorate(body: string, leading: bool, trailing: bool): string
  {
    (if leading then "/" else "") + body + (if trailing then "/" else "")
  }

  /** `path.posix.isAbsolute`. */
  predicate IsAbsolute(p: string) { |p| > 0 && p[0] == '/' }

  /** The normalised segments of `p`: what Normalize joins. */
  function Segments(p: string): seq<string>
  {
    if p == [] then [] else Fold([], Split(p), !IsAbsolute(p))
  }

  lemma SegmentsCanonical(p: string)
    ensures Canonical(Segments(p), !IsAbsolute(p))
  {
    if p != [] {
      SplitHasNoSlash(p);
      FoldCanonical([], Split(p), !IsAbsolute(p));
    }
  }

  /** A join of non-empty, separator-free pieces neither starts nor ends with a
      separator, and is empty only when there are no pieces. */
  lemma {:induction false} JoinEnds(segs: seq<string>)
    requires forall i :: 0 <= i < |segs| ==> segs[i] != "" && NoSlash(segs[i])
    ensures (Join(segs) == "") == (segs == [])
    ensures segs != [] ==> Join(segs)[0] != '/' && Join(segs)[|Join(segs)| - 1] != '/'
  {
    if |segs| > 1 {
      JoinEnds(segs[1..]);
      var j := segs[0] + "/" + Join(segs[1..]);
      assert j[0] == segs[0][0];
      assert j[|j| - 1] == Join(segs[1..])[|Join(segs[1..])| - 1];
    } else if |segs| == 1 {
      assert segs[0][0] in segs[0];
      assert segs[0][|segs[0]| - 1] in segs[0];
    }
  }

  /** Normalising is idempotent. */
  lemma NormalizeIdempotent(p: string)
    ensures Normalize(Normalize(p)) == Normalize(p)
  {
    if p == [] {
      NormalizeDot();
    } else {
      var abs := p[0] == '/';
      var trailing := p[|p| - 1] == '/';
      var segs := Segments(p);
      SegmentsCanonical(p);
      JoinEnds(segs);
      if segs == [] {
        if abs { NormalizeRoot(); }
        else if trailing { NormalizeDotSlashOnly(); }
        else { NormalizeDot(); }
      } else {
        NormalizeDecorated(segs, abs, trailing);
      }
    }
  }

  lemma NormalizeDot()
    ensures Normalize(".") == "."
  {
    SplitNoSlash(".");
    assert Fold([], ["."], true) == Fold([], [], true);
  }

  lemma NormalizeRoot()
    ensures Normalize("/") == "/"
  {
    assert Split("/") == [""] + [""] by { SplitAt("", ""); }
    assert Fold([], ["", ""], false) == [] by {
      assert ["", ""][1..] == [""];
    }
  }

  lemma NormalizeDotSlashOnly()
    ensures Normalize("./") == "./"
  {
    assert Split("./") == ["."] + [""] by { SplitAt(".", ""); SplitNoSlash("."); }
    assert Fold([], [".", ""], true) == [] by {
      assert [".", ""][1..] == [""];
    }
  }

  /** A non-empty canonical body, with its separators around it, is a fixed point. */
  lemma NormalizeDecorated(segs: seq<string>, abs: bool, trailing: bool)
    requires segs != [] && Canonical(segs, !abs)
    ensures Normalize(Decorate(Join(segs), abs, trailing)) == Decorate(Join(segs), abs, trailing)
  {
    var q := Decorate(Join(segs), abs, trailing);
    JoinEnds(segs);
    SplitDecorated(segs, abs, trailing);
    FoldDecorated(segs, abs, trailing);
    assert q[0] == '/' <==> abs;
    assert q[|q| - 1] == '/' <==> trailing;
  }

  lemma SplitDecorated(segs: seq<string>, abs: bool, trailing: bool)
    requires segs != [] && AllNoSlash(segs)
    ensures Split(Decorate(Join(segs), abs, trailing))
      == (if abs then [""] else []) + segs + (if trailing then [""] else [])
  {
    SplitJoin(segs);
    SplitDecoratedBody(Join(segs), segs, abs, trailing);
  }

  lemma SplitDecoratedBody(body: string, segs: seq<string>, abs: bool, trailing: bool)
    requires Split(body) == segs
    ensures Split(Decorate(body, abs, trailing)) == (if abs then [""] else []) + segs + (if trailing then [""] else [])
  {
    if abs {
      var post: seq<string> := if trailing then [""] else [];
      var q := Decorate(body, false, trailing);
      SplitTrailing(body, segs, trailing);
      SplitLeading(q, segs + post);
      DecorateLeading(body, trailing);
      assert [""] + (segs + post) == [""] + segs + post;
    } else {
      SplitTrailing(body, segs, trailing);
    }
  }

  lemma DecorateLeading(body: string, trailing: bool)
    ensures Decorate(body, true, trailing) == "" + "/" + Decorate(body, false, trailing)
  {
  }

  /** A leading separator adds an empty first piece. */
  lemma SplitLeading(q: string, segs: seq<string>)
    requires Split(q) == segs
    ensures Split("" + "/" + q) == [""] + segs
  {
    SplitAt("", q);
  }

  /** A trailing separator adds an empty last piece. */
  lemma SplitTrailing(body: string, segs: seq<string>, trailing: bool)
    requires Split(body) == segs
    ensures Split(Decorate(body, false, trailing)) == segs + (if trailing then [""] else [])
  {
    if trailing {
      assert Decorate(body, false, trailing) == body + "/" + "";
      SplitAt(body, "");
    } else {
      assert Decorate(body, false, trailing) == body;
    }
  }

  lemma FoldDecorated(segs: seq<string>, abs: bool, trailing: bool)
    requires Canonical(segs, !abs)
    ensures Fold([], (if abs then [""] else []) + segs + (if trailing then [""] else []), !abs) == segs
  {
    var pre: seq<string> := if abs then [""] else [];
    var post: seq<string> := if trailing then [""] else [];
    assert Fold([], pre, !abs) == [];
    assert pre + segs + post == pre + (segs + post);
    FoldAppend([], pre, segs + post, !abs);
    FoldAppend([], segs, post, !abs);
    FoldKeepsCanonical([], segs, !abs);
    assert [] + segs == segs;
    assert Fold(segs, post, !abs) == segs;
  }

  lemma {:induction false} FoldAppend(stack: seq<string>, a: seq<string>, b: seq<string>, allowAboveRoot: bool)
    ensures Fold(stack, a + b, allowAboveRoot) == Fold(Fold(stack, a, allowAboveRoot), b, allowAboveRoot)
    decreases |a|
  {
    if a != [] {
      assert (a + b)[0] == a[0];
      assert (a + b)[1..] == a[1..] + b;
      FoldAppend(Push(stack, a[0], allowAboveRoot), a[1..], b, allowAboveRoot);
    } else {
      assert a + b == b;
    }
  }

  // ---------------------------------------------------------------------------
  // normalizeTarEntry (src/utils.ts)

  /** Normalises a tar entry name; an absolute result loses everything up to and
      including its first separator, which is its leading `/`. */
  function NormalizeTarEntry(name: string): (r: string)
    ensures !IsAbsolute(r)
  {
    var normalized := Normalize(name);
    NormalizedShape(name);
    if IsAbsolute(normalized) then normalized[1..] else normalized
  }

  /** A normalised path has at most one leading separator. */
  lemma NormalizedShape(p: string)
    ensures IsAbsolute(Normalize(p)) <==> IsAbsolute(p)
    ensures IsAbsolute(Normalize(p)) ==> !IsAbsolute(Normalize(p)[1..])
  {
    if p != [] {
      SegmentsCanonical(p);
      JoinEnds(Segments(p));
      NormalizeUnfold(p);
      var body := Join(Segments(p));
      if body != [] {
        DecorateShape(body, IsAbsolute(p), p[|p| - 1] == '/');
      }
    }
  }

  /** Normalize in terms of its joined body, without looking inside it. */
  lemma NormalizeUnfold(p: string)
    requires p != []
    ensures var body := Join(Segments(p));
      Normalize(p) == if body == [] then (if p[0] == '/' then "/" else if p[|p| - 1] == '/' then "./" else ".")
                      else Decorate(body, p[0] == '/', p[|p| - 1] == '/')
  {
  }

  /** A body that does not start with a separator starts its decoration
      with one exactly when it is given a leading separator. */
  lemma DecorateShape(body: string, leading: bool, trailing: bool)
    requires body != [] && body[0] != '/'
    ensures IsAbsolute(Decorate(body, leading, trailing)) <==> leading
    ensures leading ==> !IsAbsolute(Decorate(body, leading, trailing)[1..])
    ensures !leading ==> Decorate(body, leading, trailing) == body + (if trailing then "/" else "")
  {
    var n := Decorate(body, leading, trailing);
    if leading {
      assert n == "/" + (body + (if trailing then "/" else ""));
      assert n[1] == body[0];
    } else {
      assert n == body + (if trailing then "/" else "");
    }
  }

  /** The result of normalizeTarEntry is empty exactly when the name normalises
      to the root `/`: only those entries are drained by the engine. */
  lemma NormalizeTarEntryEmpty(name: string)
    ensures NormalizeTarEntry(name) == "" <==> Normalize(name) == "/"
  {
    var n := Normalize(name);
    if name != [] && !IsAbsolute(name) {
      SegmentsCanonical(name);
      JoinEnds(Segments(name));
    }
    NormalizedShape(name);
    if IsAbsolute(n) && n[1..] == "" {
      assert n == "/";
    }
  }

  /** A relative name comes back as its normal-form segments joined by `/`
      (plus the trailing separator it had, or `.` when nothing is left). */
  lemma NormalizeTarEntryRelative(name: string)
    requires name != [] && !IsAbsolute(name)
    ensures Canonical(Segments(name), true)
    ensures Segments(name) != [] ==>
      NormalizeTarEntry(name) == Join(Segments(name)) + (if name[|name| - 1] == '/' then "/" else "")
  {
    SegmentsCanonical(name);
    var segs := Segments(name);
    JoinEnds(segs);
    NormalizedShape(name);
    if segs != [] {
      NormalizeRelativeBody(name);
      NormalizeTarEntryKeeps(name);
    }
  }

  /** A relative name with some piece left normalises to the pieces joined,
      with its trailing separator. */
  lemma NormalizeRelativeBody(name: string)
    requires name != [] && !IsAbsolute(name) && Join(Segments(name)) != []
    ensures Normalize(name) == Join(Segments(name)) + (if name[|name| - 1] == '/' then "/" else "")
  {
    NormalizeUnfold(name);
    DecorateRelative(Join(Segments(name)), name[|name| - 1] == '/');
  }

  lemma DecorateRelative(body: string, trailing: bool)
    ensures Decorate(body, false, trailing) == body + (if trailing then "/" else "")
  {
    assert "" + body == body;
  }

  /** A normalised name without a leading separator is kept as it is. */
  lemma NormalizeTarEntryKeeps(name: string)
    requires !IsAbsolute(Normalize(name))
    ensures NormalizeTarEntry(name) == Normalize(name)
  {
  }

  /** An absolute name comes back as its normal-form segments, none of them `..`. */
  lemma NormalizeTarEntryAbsolute(name: string)
    requires IsAbsolute(name)
    ensures Canonical(Segments(name), false)
    ensures NormalizeTarEntry(name) == Join(Segments(name)) + (if Segments(name) != [] && name[|name| - 1] == '/' then "/" else "")
  {
    SegmentsCanonical(name);
    JoinEnds(Segments(name));
    var body := Join(Segments(name));
    var n := Normalize(name);
    if body != [] {
      assert n == "/" + (body + (if name[|name| - 1] == '/' then "/" else ""));
    }
  }

  /** A name without leading or trailing separator comes back as the join of
      its folded segments. */
  lemma NormalizePlain(p: string, segs: seq<string>)
    requires p != [] && p[0] != '/' && p[|p| - 1] != '/'
    requires Fold([], Split(p), true) == segs && segs != []
    ensures NormalizeTarEntry(p) == Join(segs)
  {
    SegmentsCanonical(p);
    assert Segments(p) == segs;
    JoinEnds(segs);
    assert Normalize(p) == Join(segs);
  }

  /** An absolute name without trailing separator loses its leading `/`. */
  lemma NormalizeRooted(p: string, segs: seq<string>)
    requires p != [] && p[0] == '/' && p[|p| - 1] != '/'
    requires Fold([], Split(p), false) == segs && segs != []
    ensures NormalizeTarEntry(p) == Join(segs)
  {
    SegmentsCanonical(p);
    assert Segments(p) == segs;
    JoinEnds(segs);
    assert Normalize(p) == "/" + Join(segs);
    assert ("/" + Join(segs))[1..] == Join(segs);
  }

  lemma NormalizeOneSegment(name: string)
    requires PlainSegment(name)
    ensures NormalizeTarEntry(name) == name
  {
    SplitNoSlash(name);
    assert name[0] in name;
    assert name[|name| - 1] in name;
    assert Fold([], [name], true) == Fold([name], [], true);
    NormalizePlain(name, [name]);
  }

  /** A path component that normalisation keeps as it is. */
  predicate PlainSegment(s: string)
  {
    s != [] && NoSlash(s) && s != "." && s != ".."
  }

  lemma FoldPlain(stack: seq<string>, s: string, rest: seq<string>, allowAboveRoot: bool)
    requires PlainSegment(s)
    ensures Fold(stack, [s] + rest, allowAboveRoot) == Fold(stack + [s], rest, allowAboveRoot)
  {
    assert ([s] + rest)[0] == s && ([s] + rest)[1..] == rest;
  }

  lemma SplitTwo(a: string, b: string)
    requires NoSlash(a) && NoSlash(b)
    ensures Split(a + "/" + b) == [a, b]
  {
    SplitNoSlash(a);
    SplitNoSlash(b);
    SplitAt(a, b);
  }

  lemma NormalizeDotSlash(name: string)
    requires PlainSegment(name)
    ensures NormalizeTarEntry("./" + name) == name
  {
    var p := "./" + name;
    assert p == "." + "/" + name;
    SplitTwo(".", name);
    FoldDot(name);
    EndsPlain("./", name);
    NormalizePlain(p, [name]);
  }

  /** A leading `.` is dropped. */
  lemma FoldDot(name: string)
    requires PlainSegment(name)
    ensures Fold([], [".", name], true) == [name]
  {
    assert [".", name][1..] == [name];
    assert Fold([], [".", name], true) == Fold([], [name], true) == Fold([name], [], true);
  }

  lemma NormalizeDotDotSlash(name: string)
    requires PlainSegment(name)
    ensures NormalizeTarEntry("../" + name) == "../" + name
  {
    var p := "../" + name;
    assert p == ".." + "/" + name;
    SplitTwo("..", name);
    FoldDotDot(name);
    EndsPlain("../", name);
    NormalizePlain(p, ["..", name]);
    assert Join(["..", name]) == ".." + "/" + name;
  }

  /** A name ending in a plain segment does not end with a separator. */
  lemma EndsPlain(a: string, name: string)
    requires PlainSegment(name)
    ensures (a + name)[|a + name| - 1] != '/'
  {
    assert (a + name)[|a + name| - 1] == name[|name| - 1];
    assert name[|name| - 1] in name;
  }

  /** A leading `..` stays in a relative path. */
  lemma FoldDotDot(name: string)
    requires PlainSegment(name)
    ensures Fold([], ["..", name], true) == ["..", name]
  {
    assert ["..", name][1..] == [name];
    assert Push([], "..", true) == [".."];
    assert Fold([], ["..", name], true) == Fold([".."], [name], true) == Fold(["..", name], [], true);
  }

  lemma NormalizeRootSlash(name: string)
    requires PlainSegment(name)
    ensures NormalizeTarEntry("/" + name) == name
  {
    var p := "/" + name;
    assert p == "" + "/" + name;
    SplitTwo("", name);
    FoldRoot(name);
    EndsPlain("/", name);
    NormalizeRooted(p, [name]);
  }

  /** The empty piece before the root separator is dropped. */
  lemma FoldRoot(name: string)
    requires PlainSegment(name)
    ensures Fold([], ["", name], false) == [name]
  {
    assert ["", name][1..] == [name];
    assert Fold([], ["", name], false) == Fold([], [name], false) == Fold([name], [], false);
  }

  /** `./dir/sub/name` loses its leading `./` and nothing else. */
  lemma NormalizeNested(dir: string, sub: string, name: string)
    requires PlainSegment(dir) && PlainSegment(sub) && PlainSegment(name)
    ensures NormalizeTarEntry("./" + dir + "/" + sub + "/" + name) == dir + "/" + sub + "/" + name
  {
    var p := "./" + dir + "/" + sub + "/" + name;
    SplitNested(dir, sub, name);
    FoldNested(dir, sub, name);
    LastOfNested(dir, sub, name);
    NormalizePlain(p, [dir, sub, name]);
    JoinThree(dir, sub, name);
  }

  lemma JoinThree(a: string, b: string, c: string)
    ensures Join([a, b, c]) == a + "/" + b + "/" + c
  {
    assert [a, b, c][1..] == [b, c] && [b, c][1..] == [c];
    assert Join([b, c]) == b + "/" + c;
  }

  lemma SplitNested(dir: string, sub: string, name: string)
    requires NoSlash(dir) && NoSlash(sub) && NoSlash(name)
    ensures Split("./" + dir + "/" + sub + "/" + name) == [".", dir, sub, name]
  {
    var tail := sub + "/" + name;
    var rel := dir + "/" + tail;
    assert "./" + dir + "/" + sub + "/" + name == "." + "/" + rel;
    SplitTwo(sub, name);
    SplitNoSlash(dir);
    SplitNoSlash(".");
    SplitAt(dir, tail);
    SplitAt(".", rel);
  }

  lemma FoldNested(dir: string, sub: string, name: string)
    requires PlainSegment(dir) && PlainSegment(sub) && PlainSegment(name)
    ensures Fold([], [".", dir, sub, name], true) == [dir, sub, name]
  {
    var segs := [".", dir, sub, name];
    assert segs[0] == "." && segs[1..] == [dir] + [sub, name];
    assert Fold([], segs, true) == Fold([], [dir] + [sub, name], true);
    FoldPlain([], dir, [sub, name], true);
    assert [] + [dir] == [dir];
    assert [sub, name] == [sub] + [name];
    FoldPlain([dir], sub, [name], true);
    assert [dir] + [sub] == [dir, sub];
    FoldPlain([dir, sub], name, [], true);
    assert [name] == [name] + [];
    assert [dir, sub] + [name] == [dir, sub, name];
  }

  lemma LastOfNested(dir: string, sub: string, name: string)
    requires PlainSegment(name)
    ensures var p := "./" + dir + "/" + sub + "/" + name; p != [] && p[0] != '/' && p[|p| - 1] != '/'
  {
    var p := "./" + dir + "/" + sub + "/" + name;
    var front := "./" + dir + "/" + sub + "/";
    assert p == front + name;
    assert p[|p| - 1] == name[|name| - 1];
    assert name[|name| - 1] in name;
  }

  // ---------------------------------------------------------------------------
  // path.posix.basename / extname, and removeExtension

  /** `p` without its trailing separators: only `/` are removed, and none is
      left at the end. */
  function StripTrailingSlashes(p: string): (r: string)
    ensures |r| <= |p| && r == p[..|r|]
    ensures forall j :: |r| <= j < |p| ==> p[j] == '/'
    ensures r == [] || r[|r| - 1] != '/'
  {
    if |p| > 0 && p[|p| - 1] == '/' then StripTrailingSlashes(p[..|p| - 1]) else p
  }

  /** The text after the last separator of `p`. */
  function AfterLastSlash(p: string): (r: string)
    ensures |r| <= |p| && r == p[|p| - |r|..] && NoSlash(r)
  {
    if p == [] || p[|p| - 1] == '/' then ""
    else AfterLastSlash(p[..|p| - 1]) + [p[|p| - 1]]
  }

  /** `path.posix.basename(p)`: the last path component, ignoring trailing separators. */
  function Basename(p: string): string
  {
    AfterLastSlash(StripTrailingSlashes(p))
  }

  /** A file name keeps its basename in any directory. */
  lemma {:induction false} BasenameInDirectory(dir: string, file: string)
    requires file != [] && NoSlash(file)
    ensures Basename(dir + "/" + file) == file
    ensures Basename(file) == file
  {
    BasenameNoSlash(file);
    AfterLastSlashSuffix(dir + "/", file);
    assert dir + "/" + file == (dir + "/") + file;
  }

  lemma {:induction false} BasenameNoSlash(file: string)
    requires file != [] && NoSlash(file)
    ensures Basename(file) == file
  {
    assert file[|file| - 1] in file;
    AfterLastSlashSuffix("", file);
    assert "" + file == file;
  }

  lemma {:induction false} AfterLastSlashSuffix(prefix: string, file: string)
    requires NoSlash(file) && (prefix == [] || prefix[|prefix| - 1] == '/')
    ensures AfterLastSlash(prefix + file) == file
    decreases |file|
  {
    if file == [] {
      assert prefix + file == prefix;
    } else {
      var p := prefix + file;
      var init := file[..|file| - 1];
      var last := file[|file| - 1];
      assert file == init + [last];
      assert p == (prefix + init) + [last];
      assert last != '/' by { assert last in file; }
      assert NoSlash(init) by { assert forall c :: c in init ==> c in file; }
      AfterLastSlashSuffix(prefix, init);
      AfterLastSlashStep(prefix + init, last);
    }
  }

  lemma AfterLastSlashStep(q: string, last: char)
    requires last != '/'
    ensures AfterLastSlash(q + [last]) == AfterLastSlash(q) + [last]
  {
    var p := q + [last];
    assert p[|p| - 1] == last && p[..|p| - 1] == q;
  }

  /** Index of the last `.` in `s`. */
  function LastDot(s: string): (r: Option<nat>)
    ensures r.Some? ==> r.value < |s| && s[r.value] == '.' && '.' !in s[r.value + 1..]
    ensures r.None? ==> '.' !in s
  {
    if s == [] then None
    else if s[|s| - 1] == '.' then Some(|s| - 1)
    else
      var r := LastDot(s[..|s| - 1]);
      assert s == s[..|s| - 1] + [s[|s| - 1]];
      r
  }

  /** `path.posix.extname(p)`: the extension of the last component. */
  function Extname(p: string): (r: string)
    ensures r == [] || (r[0] == '.' && '/' !in r)
  {
    ComponentExtension(Basename(p))
  }

  /** The extension of one component: from its last `.` to its end, or empty
      when it has no `.`, its last `.` is its first character, or it is `..`. */
  function ComponentExtension(c: string): (r: string)
    requires NoSlash(c)
    ensures |r| <= |c| && r == c[|c| - |r|..]
    ensures r == [] || (r[0] == '.' && '/' !in r)
  {
    match LastDot(c)
    case None => ""
    case Some(k) => if k == 0 || c == ".." then "" else c[k..]
  }

  /** An extension of a name without a trailing separator is a suffix of it. */
  lemma ExtnameSuffix(p: string)
    requires p == [] || p[|p| - 1] != '/'
    ensures |Extname(p)| <= |p| && p[|p| - |Extname(p)|..] == Extname(p)
  {
    var c := Basename(p);
    assert StripTrailingSlashes(p) == p;
    assert c == p[|p| - |c|..];
  }

  /** `removeExtension`: the name without its extension. A name ending in a
      separator is returned as it is. */
  function RemoveExtension(p: string): (r: string)
    ensures p == [] || p[|p| - 1] != '/' ==> r + Extname(p) == p
  {
    if |p| > 0 && p[|p| - 1] == '/' then p
    else
      ExtnameSuffix(p);
      p[..|p| - |Extname(p)|]
  }

  /** The last `.` of `s + "." + t` is the one put there when `t` has none. */
  lemma {:induction false} LastDotAt(s: string, t: string)
    requires '.' !in t
    ensures LastDot(s + "." + t) == Some(|s|)
    decreases |t|
  {
    var u := s + "." + t;
    if t != [] {
      var init := t[..|t| - 1];
      assert t[|t| - 1] in t;
      assert u[|u| - 1] == t[|t| - 1];
      assert u[..|u| - 1] == s + "." + init;
      assert '.' !in init by { assert forall c :: c in init ==> c in t; }
      LastDotAt(s, init);
    }
  }

  /** The basename of a name whose last component is `name`. */
  lemma BasenameOfSuffix(prefix: string, name: string)
    requires prefix == [] || prefix[|prefix| - 1] == '/'
    requires name != [] && NoSlash(name)
    ensures Basename(prefix + name) == name
  {
    var p := prefix + name;
    assert p[|p| - 1] != '/' by {
      assert p[|p| - 1] == name[|name| - 1] && name[|name| - 1] in name;
    }
    assert StripTrailingSlashes(p) == p;
    AfterLastSlashSuffix(prefix, name);
  }

  /** A dotted last component loses its extension, the directory part is kept. */
  lemma RemoveExtensionStripsLast(prefix: string, stem: string, ext: string)
    requires prefix == [] || prefix[|prefix| - 1] == '/'
    requires stem != [] && ext != [] && NoSlash(stem) && NoSlash(ext) && '.' !in ext
    ensures Extname(prefix + stem + "." + ext) == "." + ext
    ensures RemoveExtension(prefix + stem + "." + ext) == prefix + stem
  {
    var front := prefix + stem;
    var e := "." + ext;
    assert prefix + stem + "." + ext == front + e;
    ExtnameDotted(prefix, stem, ext);
    NotEndingInSlash(front, e);
    RemoveSuffix(front, e);
  }

  lemma ExtnameDotted(prefix: string, stem: string, ext: string)
    requires prefix == [] || prefix[|prefix| - 1] == '/'
    requires stem != [] && ext != [] && NoSlash(stem) && NoSlash(ext) && '.' !in ext
    ensures Extname(prefix + stem + ("." + ext)) == "." + ext
  {
    var file := stem + "." + ext;
    assert prefix + stem + ("." + ext) == prefix + file;
    ComponentExtensionDotted(stem, ext);
    BasenameOfSuffix(prefix, file);
  }

  lemma NotEndingInSlash(front: string, e: string)
    requires e != [] && e[|e| - 1] != '/'
    ensures (front + e)[|front + e| - 1] != '/'
  {
    assert (front + e)[|front + e| - 1] == e[|e| - 1];
  }

  lemma RemoveSuffix(front: string, e: string)
    requires |front + e| > 0 && Extname(front + e) == e && (front + e)[|front + e| - 1] != '/'
    ensures RemoveExtension(front + e) == front
  {
    var p := front + e;
    assert p[..|p| - |e|] == front;
  }

  lemma ComponentExtensionDotted(stem: string, ext: string)
    requires stem != [] && ext != [] && NoSlash(stem) && NoSlash(ext) && '.' !in ext
    ensures NoSlash(stem + "." + ext) && ComponentExtension(stem + "." + ext) == "." + ext
  {
    var file := stem + "." + ext;
    NoSlashJoined(stem, ext);
    LastDotAt(stem, ext);
    assert |file| >= 3;
    ComponentExtensionAt(file, |stem|);
    DottedTail(stem, ext);
  }

  lemma ComponentExtensionAt(c: string, k: nat)
    requires NoSlash(c) && LastDot(c) == Some(k) && k > 0 && |c| >= 3
    ensures ComponentExtension(c) == c[k..]
  {
  }

  lemma DottedTail(stem: string, ext: string)
    ensures (stem + "." + ext)[|stem|..] == "." + ext
  {
  }

  lemma NoSlashJoined(stem: string, ext: string)
    requires NoSlash(stem) && NoSlash(ext)
    ensures NoSlash(stem + "." + ext)
  {
    var file := stem + "." + ext;
    forall i | 0 <= i < |file| ensures file[i] != '/' {
      if i < |stem| { assert file[i] == stem[i] && stem[i] in stem; }
      else if i > |stem| { assert file[i] == ext[i - |stem| - 1] && ext[i - |stem| - 1] in ext; }
    }
  }

  /** A last component without a `.` is kept whole. */
  lemma RemoveExtensionKeepsUndotted(prefix: string, name: string)
    requires prefix == [] || prefix[|prefix| - 1] == '/'
    requires name != [] && NoSlash(name) && '.' !in name
    ensures Extname(prefix + name) == ""
    ensures RemoveExtension(prefix + name) == prefix + name
  {
    var p := prefix + name;
    BasenameOfSuffix(prefix, name);
    assert p[|p| - 1] != '/' by {
      assert p[|p| - 1] == name[|name| - 1] && name[|name| - 1] in name;
    }
  }
}
