/** The `dockerfile-template` library's `process(content, variables)`, which
    the template resolvers call. The library is not part of this model; its
    behaviour is assumed to be a left-to-right replacement of every
    `%%NAME%%` token (NAME a non-empty run of ASCII letters, digits and `_`)
    by the variable's value, where a token naming no variable is an error. */
module Template {
  import opened Wrappers
  import opened Types

  predicate IsNameChar(c: char)
  {
    ('A' <= c <= 'Z') || ('a' <= c <= 'z') || ('0' <= c <= '9') || c == '_'
  }

  predicate IsName(n: string)
  {
    n != [] && forall i :: 0 <= i < |n| ==> IsNameChar(n[i])
  }

  /** Length of the run of name characters at the start of `s`. */
  function NameRun(s: string): (k: nat)
    ensures k <= |s|
    ensures forall i :: 0 <= i < k ==> IsNameChar(s[i])
    ensures k < |s| ==> !IsNameChar(s[k])
  {
    if s != [] && IsNameChar(s[0]) then
      var k := 1 + NameRun(s[1..]);
      assert forall i :: 1 <= i < k ==> s[i] == s[1..][i - 1];
      k
    else 0
  }

  /** The variable named by a token at the very start of `s`, if one is there. */
  function TokenAt(s: string): (r: Option<string>)
    ensures r.Some? ==> IsName(r.value) && |s| >= |r.value| + 4
                        && s[..|r.value| + 4] == "%%" + r.value + "%%"
  {
    if |s| >= 2 && s[0] == '%' && s[1] == '%' then
      var k := NameRun(s[2..]);
      if k > 0 && |s| >= k + 4 && s[k + 2] == '%' && s[k + 3] == '%' then
        var n := s[2..k + 2];
        assert forall i :: 0 <= i < k ==> n[i] == s[2..][i];
        assert s[..k + 4] == "%%" + n + "%%";
        Some(n)
      else None
    else None
  }

  /** `s` in front of a successful result; an error passes through. */
  function Prefixed(s: string, r: Result<string, TemplateError>): Result<string, TemplateError>
  {
    match r
    case Ok(x) => Ok(s + x)
    case Err(e) => Err(e)
  }

  /** `process(content, variables)`. */
  function Process(t: string, vars: map<string, string>): Result<string, TemplateError>
    decreases |t|
  {
    if t == [] then Ok("")
    else
      match TokenAt(t)
      case Some(n) =>
        if n in vars then Prefixed(vars[n], Process(t[|n| + 4..], vars))
        else Err(UnknownVariable(n))
      case None => Prefixed([t[0]], Process(t[1..], vars))
  }

  /** Text without `%` is copied unchanged in front of whatever follows it. */
  lemma {:induction false} ProcessPlain(a: string, b: string, vars: map<string, string>)
    requires '%' !in a
    ensures Process(a + b, vars) == Prefixed(a, Process(b, vars))
    decreases |a|
  {
    if a != [] {
      var t := a + b;
      assert t[0] == a[0] && t[1..] == a[1..] + b;
      assert a[0] in a;
      assert '%' !in a[1..] by { assert forall c :: c in a[1..] ==> c in a; }
      ProcessPlain(a[1..], b, vars);
      assert [a[0]] + a[1..] == a;
      match Process(b, vars)
      case Ok(x) => assert [a[0]] + (a[1..] + x) == a + x;
      case Err(_) =>
    } else {
      assert a + b == b;
      match Process(b, vars)
      case Ok(x) => assert a + x == x;
      case Err(_) =>
    }
  }

  /** A template without `%` is its own output. */
  lemma ProcessNoToken(t: string, vars: map<string, string>)
    requires '%' !in t
    ensures Process(t, vars) == Ok(t)
  {
    ProcessPlain(t, "", vars);
    assert t + "" == t;
  }

  lemma {:induction false} NameRunOf(n: string, s: string)
    requires forall i :: 0 <= i < |n| ==> IsNameChar(n[i])
    requires s == [] || !IsNameChar(s[0])
    ensures NameRun(n + s) == |n|
    decreases |n|
  {
    if n != [] {
      assert (n + s)[0] == n[0] && (n + s)[1..] == n[1..] + s;
      NameRunOf(n[1..], s);
    } else {
      assert n + s == s;
    }
  }

  /** A token is replaced by its variable's value and processing resumes after
      it; a token naming no variable fails with that name. */
  lemma ProcessToken(n: string, rest: string, vars: map<string, string>)
    requires IsName(n)
    ensures Process("%%" + n + "%%" + rest, vars)
         == if n in vars then Prefixed(vars[n], Process(rest, vars)) else Err(UnknownVariable(n))
  {
    var t := "%%" + n + "%%" + rest;
    assert t[2..] == n + ("%%" + rest);
    NameRunOf(n, "%%" + rest);
    assert t[|n| + 2] == '%' && t[|n| + 3] == '%';
    assert t[2..|n| + 2] == n;
    assert TokenAt(t) == Some(n);
    assert t[|n| + 4..] == rest;
  }

  /** Every token of a template in the shape `a %%n%% b`, with `a` free of
      `%`, is either substituted or reported. */
  lemma ProcessAround(a: string, n: string, b: string, vars: map<string, string>)
    requires '%' !in a && IsName(n)
    ensures Process(a + "%%" + n + "%%" + b, vars)
         == if n in vars then Prefixed(a + vars[n], Process(b, vars)) else Err(UnknownVariable(n))
  {
    assert a + "%%" + n + "%%" + b == a + ("%%" + n + "%%" + b);
    ProcessPlain(a, "%%" + n + "%%" + b, vars);
    ProcessToken(n, b, vars);
    if n in vars {
      match Process(b, vars)
      case Ok(x) => assert a + (vars[n] + x) == a + vars[n] + x;
      case Err(_) =>
    }
  }

  lemma Assoc(p: string, q: string, r: string)
    ensures p + q + r == p + (q + r)
  {
  }

  /** A template with two tokens, both naming variables, becomes the text
      around them with the two values in their places. */
  lemma ProcessTwo(a: string, n1: string, b: string, n2: string, c: string, vars: map<string, string>)
    requires '%' !in a && '%' !in b && '%' !in c
    requires IsName(n1) && IsName(n2) && n1 in vars && n2 in vars
    ensures Process(a + "%%" + n1 + "%%" + b + "%%" + n2 + "%%" + c, vars)
         == Ok(a + vars[n1] + b + vars[n2] + c)
  {
    var v1, v2 := vars[n1], vars[n2];
    var second := b + "%%" + n2 + "%%" + c;
    assert Process(second, vars) == Ok(b + v2 + c) by {
      ProcessNoToken(c, vars);
      ProcessAround(b, n2, c, vars);
    }
    assert Process(a + "%%" + n1 + "%%" + second, vars) == Ok(a + v1 + (b + v2 + c)) by {
      ProcessAround(a, n1, second, vars);
    }
    var x := a + "%%" + n1 + "%%";
    Assoc(x, b, "%%");
    Assoc(x, b + "%%", n2);
    Assoc(x, b + "%%" + n2, "%%");
    Assoc(x, b + "%%" + n2 + "%%", c);
    var y := a + v1;
    Assoc(y, b, v2);
    Assoc(y, b + v2, c);
  }
}
