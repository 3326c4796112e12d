/**
 * Documentation path formatting (`formatDocumentationPath`, src/http/route.js).
 *
 * Express writes path parameters as `:name`; OpenAPI 3.1.0 path templating
 * (section 3.2 of the OpenAPI Specification) writes them as `{name}`. The
 * source collects the matches of `/(:)\w+/g` and then, for each match in
 * turn, replaces the first occurrence of that text in the path built so far.
 * That loop is modelled as written and proved equal to a one-pass
 * left-to-right rewrite, `Templated`.
 */
module RoutePath {
  import opened Wrappers

  /** `\w` in a JavaScript regular expression without the `u` flag. */
  predicate IsWordChar(c: char) {
    ('a' <= c <= 'z') || ('A' <= c <= 'Z') || ('0' <= c <= '9') || c == '_'
  }

  /** Length of the longest prefix of `s` made of word characters. */
  function WordRun(s: string): (n: nat)
    ensures n <= |s|
    decreases |s|
  {
    if s != [] && IsWordChar(s[0]) then 1 + WordRun(s[1..]) else 0
  }

  /** The run is made of word characters and stops at the first other character. */
  lemma {:induction false} WordRunSpec(s: string)
    ensures forall k | 0 <= k < WordRun(s) :: IsWordChar(s[k])
    ensures WordRun(s) == |s| || !IsWordChar(s[WordRun(s)])
    decreases |s|
  {
    if s != [] && IsWordChar(s[0]) {
      WordRunSpec(s[1..]);
      forall k | 1 <= k < WordRun(s)
        ensures IsWordChar(s[k])
      {
        assert s[k] == s[1..][k - 1];
      }
    }
  }

  /** A parameter `:name` starts at index `i` of `s`. */
  predicate ParamAt(s: string, i: int) {
    0 <= i && i + 1 < |s| && s[i] == ':' && IsWordChar(s[i + 1])
  }

  /** Some parameter starts somewhere in `s`. */
  predicate HasParam(s: string) {
    exists i | 0 <= i < |s| :: ParamAt(s, i)
  }

  /** Length, colon included, of the parameter at the front of `s` (the match is greedy). */
  function ParamLength(s: string): nat
    requires ParamAt(s, 0)
  {
    1 + WordRun(s[1..])
  }

  /**
   * `s.match(/(:)\w+/g)`: every parameter, colon included, left to right.
   * Where JavaScript answers `null` (no match) this is the empty sequence;
   * the source's `if (rawParams)` then skips a loop that would do nothing.
   */
  function Params(s: string): seq<string>
    decreases |s|
  {
    if s == [] then []
    else if ParamAt(s, 0) then [s[..ParamLength(s)]] + Params(s[ParamLength(s)..])
    else Params(s[1..])
  }

  /** OpenAPI path templating: each `:name` becomes `{name}`, every other character is kept. */
  function Templated(s: string): string
    decreases |s|
  {
    if s == [] then []
    else if ParamAt(s, 0) then "{" + s[1..ParamLength(s)] + "}" + Templated(s[ParamLength(s)..])
    else [s[0]] + Templated(s[1..])
  }

  /** The Express path that a templated path was made from: each `{name}` becomes `:name`. */
  function Untemplated(s: string): string
    decreases |s|
  {
    if s == [] then []
    else if s[0] == '{' && 0 < WordRun(s[1..]) && 1 + WordRun(s[1..]) < |s|
            && s[1 + WordRun(s[1..])] == '}' then
      ":" + s[1..1 + WordRun(s[1..])] + Untemplated(s[2 + WordRun(s[1..])..])
    else [s[0]] + Untemplated(s[1..])
  }

  // ---------------------------------------------------------------------------
  // String.prototype.replace with a string pattern

  predicate OccursAt(s: string, pattern: string, j: int) {
    0 <= j && j + |pattern| <= |s| && s[j..j + |pattern|] == pattern
  }

  /** The first index at which `pattern` occurs in `s`. */
  function IndexOf(s: string, pattern: string): (r: Option<nat>)
    ensures r.Some? ==> OccursAt(s, pattern, r.value)
    ensures r.Some? ==> forall j | 0 <= j < r.value :: !OccursAt(s, pattern, j)
    ensures r.None? ==> forall j | 0 <= j <= |s| :: !OccursAt(s, pattern, j)
    decreases |s|
  {
    if |s| < |pattern| then None
    else if s[..|pattern|] == pattern then Some(0)
    else
      match IndexOf(s[1..], pattern)
      case None =>
        assert forall j | 1 <= j <= |s| :: OccursAt(s, pattern, j) ==> OccursAt(s[1..], pattern, j - 1);
        None
      case Some(i) =>
        assert forall j | 1 <= j <= i :: OccursAt(s, pattern, j) ==> OccursAt(s[1..], pattern, j - 1);
        assert s[i + 1..i + 1 + |pattern|] == s[1..][i..i + |pattern|];
        Some(i + 1)
  }

  /**
   * `s.replace(pattern, replacement)`: the first occurrence only. The
   * replacement is inserted as it is; the source's replacements are
   * `{name}` with `name` made of word characters, so no `$` pattern occurs.
   */
  function ReplaceFirst(s: string, pattern: string, replacement: string): string {
    match IndexOf(s, pattern)
    case None => s
    case Some(i) => s[..i] + replacement + s[i + |pattern|..]
  }

  // ---------------------------------------------------------------------------
  // The loop of formatDocumentationPath

  /**
   * Every colon of `s` is followed, inside `s`, by a character that is not a
   * word character: no parameter starts in `s`, whatever is appended to it.
   */
  predicate Settled(s: string) {
    forall j | 0 <= j < |s| && s[j] == ':' :: j + 1 < |s| && !IsWordChar(s[j + 1])
  }

  /** Index at which the first parameter of `s` starts. */
  function FirstParamStart(s: string): (g: nat)
    requires Params(s) != []
    ensures ParamAt(s, g)
    ensures forall j | 0 <= j < g :: !ParamAt(s, j)
    decreases |s|
  {
    if ParamAt(s, 0) then 0
    else
      var g := FirstParamStart(s[1..]);
      assert forall j | 1 <= j <= g :: ParamAt(s, j) ==> ParamAt(s[1..], j - 1);
      1 + g
  }

  /** Characters before the first parameter are copied as they are. */
  lemma {:induction false} SkipGap(s: string, g: nat)
    requires g <= |s|
    requires forall j | 0 <= j < g :: !ParamAt(s, j)
    ensures Params(s) == Params(s[g..])
    ensures Templated(s) == s[..g] + Templated(s[g..])
    decreases g
  {
    if g > 0 {
      assert !ParamAt(s, 0);
      var t := s[1..];
      forall j | 0 <= j < g - 1
        ensures !ParamAt(t, j)
      {
        assert !ParamAt(s, j + 1);
      }
      SkipGap(t, g - 1);
      assert t[g - 1..] == s[g..];
      assert s[..g] == [s[0]] + t[..g - 1];
    }
  }

  lemma {:induction false} NoParamsTemplated(s: string)
    requires Params(s) == []
    ensures Templated(s) == s
    decreases |s|
  {
    if s != [] {
      NoParamsTemplated(s[1..]);
    }
  }

  lemma FirstOccurrence(t: string, p: string, i: nat)
    requires OccursAt(t, p, i)
    requires forall j | 0 <= j < i :: !OccursAt(t, p, j)
    ensures IndexOf(t, p) == Some(i)
  {
  }

  /** Before the next match, the text built so far holds no other occurrence of it. */
  lemma NoEarlierOccurrence(done: string, rest: string, g: nat, p: string)
    requires Settled(done)
    requires g < |rest| && forall j | 0 <= j < g :: !ParamAt(rest, j)
    requires |p| >= 2 && p[0] == ':' && IsWordChar(p[1])
    ensures forall j | 0 <= j < |done| + g :: !OccursAt(done + rest, p, j)
  {
    var t := done + rest;
    forall j | 0 <= j < |done| + g
      ensures !OccursAt(t, p, j)
    {
      if OccursAt(t, p, j) {
        assert t[j..j + |p|][0] == t[j] && t[j..j + |p|][1] == t[j + 1];
        if j >= |done| {
          assert rest[j - |done|] == ':' && rest[j - |done| + 1] == p[1];
          assert ParamAt(rest, j - |done|);
        }
      }
    }
  }

  /** Appending the copied gap and a `{name}` keeps the built text free of parameter starts. */
  lemma SettledAppend(done: string, rest: string, g: nat, name: string)
    requires Settled(done)
    requires g < |rest| && forall j | 0 <= j < g :: !ParamAt(rest, j)
    requires forall c | c in name :: IsWordChar(c)
    ensures Settled(done + rest[..g] + "{" + name + "}")
  {
    var a := done + rest[..g];
    var b := "{" + name + "}";
    var d := a + b;
    assert d == done + rest[..g] + "{" + name + "}";
    forall k | 0 <= k < |b|
      ensures b[k] != ':'
    {
      if 1 <= k < |b| - 1 {
        assert b[k] == name[k - 1];
        assert b[k] in name;
      }
    }
    forall j | 0 <= j < |d| && d[j] == ':'
      ensures j + 1 < |d| && !IsWordChar(d[j + 1])
    {
      if j < |done| {
        assert d[j + 1] == done[j + 1];
      } else if j < |a| {
        assert a[j] == rest[j - |done|];
        assert !ParamAt(rest, j - |done|);
        if j + 1 < |a| {
          assert d[j + 1] == rest[j - |done| + 1];
        } else {
          assert d[j + 1] == '{';
        }
      }
    }
  }

  /** The parameter at the front of `s`: its match, and what the rewrite makes of it. */
  lemma FrontParam(s: string) returns (n: nat)
    requires ParamAt(s, 0)
    ensures n == ParamLength(s) && 2 <= n <= |s|
    ensures forall k | 1 <= k < n :: IsWordChar(s[k])
    ensures Params(s) == [s[..n]] + Params(s[n..])
    ensures Templated(s) == "{" + s[1..n] + "}" + Templated(s[n..])
  {
    n := ParamLength(s);
    WordRunSpec(s[1..]);
    forall k | 1 <= k < n
      ensures IsWordChar(s[k])
    {
      assert s[k] == s[1..][k - 1];
    }
  }

  /**
   * Where the next match of the regular expression sits: `g` characters into
   * the text, `n` characters long; what it contributes to the templated path.
   */
  lemma SplitAtFirstParam(rest: string) returns (g: nat, n: nat)
    requires Params(rest) != []
    ensures g + n <= |rest| && 2 <= n && ParamAt(rest, g)
    ensures forall j | 0 <= j < g :: !ParamAt(rest, j)
    ensures forall k | g + 1 <= k < g + n :: IsWordChar(rest[k])
    ensures Params(rest)[0] == rest[g..g + n]
    ensures Params(rest)[1..] == Params(rest[g + n..])
    ensures Templated(rest) == rest[..g] + "{" + rest[g + 1..g + n] + "}" + Templated(rest[g + n..])
  {
    g := FirstParamStart(rest);
    SkipGap(rest, g);
    var s := rest[g..];
    assert ParamAt(s, 0);
    n := FrontParam(s);
    forall k | g + 1 <= k < g + n
      ensures IsWordChar(rest[k])
    {
      assert rest[k] == s[k - g];
    }
    assert s[..n] == rest[g..g + n];
    assert s[n..] == rest[g + n..];
    var name := rest[g + 1..g + n];
    assert s[1..n] == name;
    var tail := Params(rest[g + n..]);
    assert Params(rest) == [rest[g..g + n]] + tail;
    assert ([rest[g..g + n]] + tail)[1..] == tail;
    assert Templated(rest) == rest[..g] + ("{" + name + "}" + Templated(rest[g + n..]));
    Bracket(rest[..g], name, Templated(rest[g + n..]));
  }

  lemma ReplaceAtMatch(done: string, rest: string, g: nat, n: nat)
    requires Settled(done)
    requires g + n <= |rest| && 2 <= n && ParamAt(rest, g)
    requires forall j | 0 <= j < g :: !ParamAt(rest, j)
    ensures ReplaceFirst(done + rest, rest[g..g + n], "{" + rest[g + 1..g + n] + "}")
            == (done + rest[..g] + "{" + rest[g + 1..g + n] + "}") + rest[g + n..]
  {
    var p := rest[g..g + n];
    var t := done + rest;
    var at := |done| + g;
    assert |p| == n;
    assert t[at..at + n] == p;
    NoEarlierOccurrence(done, rest, g, p);
    FirstOccurrence(t, p, at);
    assert t[..at] == done + rest[..g];
    assert t[at + n..] == rest[g + n..];
    Bracket(done + rest[..g], rest[g + 1..g + n], rest[g + n..]);
  }

  lemma Bracket(a: string, name: string, tail: string)
    ensures a + ("{" + name + "}" + tail) == a + "{" + name + "}" + tail
    ensures a + ("{" + name + "}") + tail == a + "{" + name + "}" + tail
  {
  }

  /**
   * One pass of the source's loop: with `done` the text already templated and
   * `rest` the text still to scan, replacing the first occurrence of the next
   * match leaves `done2 + rest2`, a longer templated prefix and a shorter rest.
   */
  lemma LoopPass(done: string, rest: string) returns (done2: string, rest2: string)
    requires Settled(done) && Params(rest) != []
    ensures Settled(done2) && |Params(rest)[0]| >= 2
    ensures ReplaceFirst(done + rest, Params(rest)[0], "{" + Params(rest)[0][1..] + "}") == done2 + rest2
    ensures Params(rest)[1..] == Params(rest2)
    ensures done + Templated(rest) == done2 + Templated(rest2)
  {
    var g, n := SplitAtFirstParam(rest);
    var name := rest[g + 1..g + n];
    ReplaceAtMatch(done, rest, g, n);
    SettledAppend(done, rest, g, name);
    done2 := done + rest[..g] + "{" + name + "}";
    rest2 := rest[g + n..];
    Regroup(done, rest[..g], name, Templated(rest2));
  }

  lemma Regroup(done: string, gap: string, name: string, tail: string)
    ensures done + (gap + "{" + name + "}" + tail) == (done + gap + "{" + name + "}") + tail
  {
  }

  /**
   * `formatDocumentationPath(path)` (lines 72-81): the matches of
   * `/(:)\w+/g`, then one `replace` of the first occurrence per match.
   */
  method FormatDocumentationPath(path: string) returns (newPath: string)
    ensures newPath == Templated(path)
  {
    var rawParams := Params(path);
    newPath := path;
    ghost var done: string := [];
    ghost var rest := path;
    var k := 0;
    while k < |rawParams|
      invariant 0 <= k <= |rawParams|
      invariant newPath == done + rest
      invariant rawParams[k..] == Params(rest)
      invariant Templated(path) == done + Templated(rest)
      invariant Settled(done)
    {
      var param := rawParams[k];
      done, rest := LoopPass(done, rest);
      newPath := ReplaceFirst(newPath, param, "{" + param[1..] + "}");
      k := k + 1;
    }
    NoParamsTemplated(rest);
  }

  // ---------------------------------------------------------------------------
  // Properties of the rewrite

  lemma {:induction false} ParamsEmptyIff(s: string)
    ensures Params(s) == [] <==> !HasParam(s)
    decreases |s|
  {
    if s != [] && !ParamAt(s, 0) {
      ParamsEmptyIff(s[1..]);
      if HasParam(s) {
        var i :| 0 <= i < |s| && ParamAt(s, i);
        assert ParamAt(s[1..], i - 1);
      }
      if HasParam(s[1..]) {
        var i :| 0 <= i < |s[1..]| && ParamAt(s[1..], i);
        assert ParamAt(s, i + 1);
      }
    } else if s != [] {
      assert ParamAt(s, 0);
    }
  }

  /** Each parameter gains exactly one character (`:name` is one shorter than `{name}`). */
  lemma {:induction false} TemplatedLength(s: string)
    ensures |Templated(s)| == |s| + |Params(s)|
    decreases |s|
  {
    if s != [] {
      if ParamAt(s, 0) {
        TemplatedLength(s[ParamLength(s)..]);
      } else {
        TemplatedLength(s[1..]);
      }
    }
  }

  /**
   * A path is left unchanged exactly when it holds no `:name`; in particular
   * a path without any colon is returned as it is.
   */
  lemma TemplatedUnchangedIff(s: string)
    ensures Templated(s) == s <==> !HasParam(s)
    ensures ':' !in s ==> Templated(s) == s
  {
    ParamsEmptyIff(s);
    TemplatedLength(s);
    if !HasParam(s) {
      NoParamsTemplated(s);
    }
  }

  lemma ParamInConcat(x: string, y: string, i: int)
    requires ParamAt(x + y, i)
    ensures ParamAt(x, i) || (i == |x| - 1 && x[i] == ':' && IsWordChar(y[0]))
            || (i >= |x| && ParamAt(y, i - |x|))
  {
  }

  /** No `:name` is left in a templated path. */
  lemma {:induction false} TemplatedHasNoParam(s: string)
    ensures !HasParam(Templated(s))
    decreases |s|
  {
    if s == [] {
    } else if ParamAt(s, 0) {
      var n := FrontParam(s);
      var rest := s[n..];
      TemplatedHasNoParam(rest);
      var head := "{" + s[1..n] + "}";
      assert Templated(s) == head + Templated(rest);
      if HasParam(Templated(s)) {
        var i :| 0 <= i < |Templated(s)| && ParamAt(Templated(s), i);
        ParamInConcat(head, Templated(rest), i);
      }
    } else {
      var rest := s[1..];
      TemplatedHasNoParam(rest);
      var head := [s[0]];
      assert Templated(s) == head + Templated(rest);
      if HasParam(Templated(s)) {
        var i :| 0 <= i < |Templated(s)| && ParamAt(Templated(s), i);
        ParamInConcat(head, Templated(rest), i);
      }
    }
  }

  lemma {:induction false} WordRunStops(w: string, r: string)
    requires forall k | 0 <= k < |w| :: IsWordChar(w[k])
    requires r != [] && !IsWordChar(r[0])
    ensures WordRun(w + r) == |w|
    decreases |w|
  {
    if w == [] {
      assert w + r == r;
    } else {
      var t := w[1..];
      assert (w + r)[0] == w[0];
      assert (w + r)[1..] == t + r;
      forall k | 0 <= k < |t|
        ensures IsWordChar(t[k])
      {
        assert t[k] == w[k + 1];
      }
      WordRunStops(t, r);
    }
  }

  /** A `{name}` at the front of a templated path turns back into `:name`. */
  lemma UntemplateParam(name: string, tail: string)
    requires name != [] && forall k | 0 <= k < |name| :: IsWordChar(name[k])
    ensures Untemplated("{" + name + "}" + tail) == ":" + name + Untemplated(tail)
  {
    var t := "{" + name + "}" + tail;
    assert t[1..] == name + ("}" + tail);
    WordRunStops(name, "}" + tail);
    assert t[1 + |name|] == '}';
    assert t[2 + |name|..] == tail;
    assert t[1..1 + |name|] == name;
  }

  /** Any other character is copied back as it is. */
  lemma UntemplatePlain(c: char, tail: string)
    requires c != '{'
    ensures Untemplated([c] + tail) == [c] + Untemplated(tail)
  {
    assert ([c] + tail)[1..] == tail;
  }

  lemma NoBraceAfter(s: string, n: nat)
    requires '{' !in s && n <= |s|
    ensures '{' !in s[n..]
  {
    assert forall c | c in s[n..] :: c in s;
  }

  /** The round trip through a parameter at the front, given the round trip of what follows it. */
  lemma RoundTripFront(s: string, n: nat)
    requires ParamAt(s, 0) && n == ParamLength(s)
    requires Untemplated(Templated(s[n..])) == s[n..]
    ensures Untemplated(Templated(s)) == s
  {
    var _ := FrontParam(s);
    var name := s[1..n];
    forall k | 0 <= k < |name|
      ensures IsWordChar(name[k])
    {
      assert name[k] == s[k + 1];
    }
    var tail := Templated(s[n..]);
    assert Templated(s) == "{" + name + "}" + tail;
    UntemplateParam(name, tail);
    assert Untemplated(Templated(s)) == ":" + name + s[n..];
    assert s == ":" + name + s[n..] by {
      assert s[..n] == ":" + name;
      assert s == s[..n] + s[n..];
    }
  }

  /** The round trip through a plain character at the front. */
  lemma RoundTripPlain(s: string)
    requires s != [] && s[0] != '{' && !ParamAt(s, 0)
    requires Untemplated(Templated(s[1..])) == s[1..]
    ensures Untemplated(Templated(s)) == s
  {
    UntemplatePlain(s[0], Templated(s[1..]));
    assert s == [s[0]] + s[1..];
  }

  /**
   * Templating loses nothing: turning every `{name}` back into `:name` gives
   * the Express path again, whenever that path has no `{` of its own.
   */
  lemma {:induction false} TemplatedRoundTrip(s: string)
    requires '{' !in s
    ensures Untemplated(Templated(s)) == s
    decreases |s|
  {
    if s == [] {
    } else if ParamAt(s, 0) {
      var n := ParamLength(s);
      NoBraceAfter(s, n);
      TemplatedRoundTrip(s[n..]);
      RoundTripFront(s, n);
    } else {
      NoBraceAfter(s, 1);
      TemplatedRoundTrip(s[1..]);
      RoundTripPlain(s);
    }
  }
}
