/**
 * The Go standard-library string helpers the core relies on, restated over
 * `seq<char>`: `strings.TrimSpace`, `strings.Contains`, and the text a
 * line-by-line writer produces when it terminates every line with "\n".
 */
module Strings {

  /** The characters `unicode.IsSpace` accepts: the ASCII white space,
      U+0085, U+00A0 and the Unicode White_Space characters above Latin-1
      (U+2000 to U+200A among them). */
  const WhiteSpace: set<char> := {
    ' ', '\t', '\n', '\U{0B}', '\U{0C}', '\r', '\U{85}', '\U{A0}', '\U{1680}',
    '\U{2000}', '\U{2001}', '\U{2002}', '\U{2003}', '\U{2004}', '\U{2005}',
    '\U{2006}', '\U{2007}', '\U{2008}', '\U{2009}', '\U{200A}',
    '\U{2028}', '\U{2029}', '\U{202F}', '\U{205F}', '\U{3000}'}

  /** `unicode.IsSpace` */
  predicate IsSpace(c: char) {
    c in WhiteSpace
  }

  /** Every character of `s` is white space. */
  predicate AllSpace(s: string) {
    forall i :: 0 <= i < |s| ==> IsSpace(s[i])
  }

  /** Neither end of `s` is white space. */
  predicate Trimmed(s: string) {
    s == [] || (!IsSpace(s[0]) && !IsSpace(s[|s| - 1]))
  }

  /** Drops the leading white space: what is left is a suffix of `s` that
      does not start with space. */
  function TrimLeft(s: string): (r: string)
    ensures |r| <= |s| && r == s[|s| - |r|..]
    ensures r == [] || !IsSpace(r[0])
  {
    if s != [] && IsSpace(s[0]) then TrimLeft(s[1..]) else s
  }

  /** Drops the trailing white space: what is left is a prefix of `s` that
      does not end with space. */
  function TrimRight(s: string): (r: string)
    ensures |r| <= |s| && r == s[..|r|]
    ensures r == [] || !IsSpace(r[|r| - 1])
  {
    if s != [] && IsSpace(s[|s| - 1]) then TrimRight(s[..|s| - 1]) else s
  }

  /** `strings.TrimSpace`: no white space is left at either end. */
  function TrimSpace(s: string): (r: string)
    ensures Trimmed(r)
  {
    TrimRight(TrimLeft(s))
  }

  /** What TrimLeft drops is white space. */
  lemma {:induction false} TrimLeftCutsSpace(s: string)
    ensures AllSpace(s[..|s| - |TrimLeft(s)|])
  {
    if s != [] && IsSpace(s[0]) {
      TrimLeftCutsSpace(s[1..]);
      var n := |s| - |TrimLeft(s)|;
      assert s[..n] == [s[0]] + s[1..][..n - 1];
    }
  }

  /** What TrimRight drops is white space. */
  lemma {:induction false} TrimRightCutsSpace(s: string)
    ensures AllSpace(s[|TrimRight(s)|..])
  {
    if s != [] && IsSpace(s[|s| - 1]) {
      TrimRightCutsSpace(s[..|s| - 1]);
      var n := |TrimRight(s)|;
      assert s[n..] == s[..|s| - 1][n..] + [s[|s| - 1]];
    }
  }

  /** TrimSpace returns a slice of `s`, and everything it cut off on both
      sides is white space. */
  lemma TrimSpaceIsSlice(s: string, r: string)
    requires r == TrimSpace(s)
    ensures exists i :: 0 <= i <= |s| - |r| && r == s[i..i + |r|]
                        && AllSpace(s[..i]) && AllSpace(s[i + |r|..])
  {
    var l := TrimLeft(s);
    TrimLeftCutsSpace(s);
    TrimRightCutsSpace(l);
    SliceCompose(s, l, r);
    var i := |s| - |l|;
    assert 0 <= i <= |s| - |r| && r == s[i..i + |r|] && AllSpace(s[..i]) && AllSpace(s[i + |r|..]);
  }

  /** A prefix of a suffix of `s` is a slice of `s`. */
  lemma SliceCompose<T>(s: seq<T>, l: seq<T>, r: seq<T>)
    requires |l| <= |s| && l == s[|s| - |l|..] && |r| <= |l| && r == l[..|r|]
    ensures r == s[|s| - |l|..|s| - |l| + |r|] && l[|r|..] == s[|s| - |l| + |r|..]
  {
  }

  /** TrimSpace cuts away exactly the white space around a trimmed core:
      whatever space surrounds `core`, TrimSpace gives `core` back. */
  lemma {:induction false} TrimSpaceOfPadded(pre: string, core: string, post: string)
    requires AllSpace(pre) && AllSpace(post) && Trimmed(core)
    ensures TrimSpace(pre + core + post) == core
  {
    assert pre + core + post == pre + (core + post);
    TrimLeftOfPadded(pre, core + post, core);
    if core == [] {
      assert TrimLeft(pre + core + post) == [];
    } else {
      assert TrimLeft(pre + core + post) == core + post;
      TrimRightOfPadded(core, post);
    }
  }

  lemma {:induction false} TrimLeftOfPadded(pre: string, rest: string, core: string)
    requires AllSpace(pre) && Trimmed(core) && core <= rest
    requires core == [] ==> AllSpace(rest)
    ensures TrimLeft(pre + rest) == (if core == [] then [] else rest)
  {
    if pre != [] {
      assert (pre + rest)[1..] == pre[1..] + rest;
      TrimLeftOfPadded(pre[1..], rest, core);
    } else {
      assert pre + rest == rest;
      if core == [] {
        TrimLeftAllSpace(rest);
      }
    }
  }

  lemma {:induction false} TrimLeftAllSpace(s: string)
    requires AllSpace(s)
    ensures TrimLeft(s) == []
  {
    if s != [] {
      TrimLeftAllSpace(s[1..]);
    }
  }

  lemma {:induction false} TrimRightOfPadded(core: string, post: string)
    requires AllSpace(post) && Trimmed(core)
    ensures TrimRight(core + post) == core
  {
    if post != [] {
      assert (core + post)[..|core + post| - 1] == core + post[..|post| - 1];
      TrimRightOfPadded(core, post[..|post| - 1]);
    } else {
      assert core + post == core;
    }
  }

  /** TrimSpace is idempotent. */
  lemma TrimSpaceIdempotent(s: string)
    ensures TrimSpace(TrimSpace(s)) == TrimSpace(s)
  {
    var t := TrimSpace(s);
    assert [] + t + [] == t;
    TrimSpaceOfPadded([], t, []);
  }

  /** `strings.Contains(s, t)`: `t` occurs in `s` as a contiguous substring
      (the empty string occurs in every string). */
  predicate Contains(s: string, t: string)
    decreases |s|
  {
    t <= s || (s != [] && Contains(s[1..], t))
  }

  /** A string contains every substring it is built around. */
  lemma {:induction false} ContainsInfix(a: string, t: string, b: string)
    ensures Contains(a + t + b, t)
  {
    if a != [] {
      assert (a + t + b)[1..] == a[1..] + t + b;
      ContainsInfix(a[1..], t, b);
    } else {
      assert a + t + b == t + b;
    }
  }

  /** What cannot be found in `s` is not a substring of any of its pieces
      either: an occurrence inside `s[k..]` is an occurrence inside `s`. */
  lemma {:induction false} ContainsSuffix(s: string, k: nat, t: string)
    requires k <= |s| && Contains(s[k..], t)
    ensures Contains(s, t)
  {
    if k > 0 {
      assert s[1..][k - 1..] == s[k..];
      ContainsSuffix(s[1..], k - 1, t);
    }
  }

  /** The text a writer produces from `lines` when it writes each line
      followed by "\n". */
  function Text(lines: seq<string>): (r: string)
    ensures |r| >= |lines|
  {
    if lines == [] then [] else Text(lines[..|lines| - 1]) + lines[|lines| - 1] + "\n"
  }

  /** Writing two runs of lines one after the other gives the concatenation
      of their texts: earlier text is never disturbed by later lines. */
  lemma {:induction false} TextAppend(a: seq<string>, b: seq<string>)
    ensures Text(a + b) == Text(a) + Text(b)
  {
    if b == [] {
      assert a + b == a;
    } else {
      assert (a + b)[..|a + b| - 1] == a + b[..|b| - 1];
      TextAppend(a, b[..|b| - 1]);
    }
  }

  /** The lines of `lines` that do not contain `token`, in their original
      order; a left fold so that a scanning loop can extend it line by line. */
  function Without(lines: seq<string>, token: string): (r: seq<string>)
    ensures |r| <= |lines|
  {
    if lines == [] then []
    else
      var last := lines[|lines| - 1];
      Without(lines[..|lines| - 1], token) + (if Contains(last, token) then [] else [last])
  }

  /** A line survives the filter exactly when it was there and does not
      contain the token. */
  lemma {:induction false} WithoutMembers(lines: seq<string>, token: string)
    ensures forall l :: l in Without(lines, token) <==> l in lines && !Contains(l, token)
  {
    if lines != [] {
      var init, last := lines[..|lines| - 1], lines[|lines| - 1];
      WithoutMembers(init, token);
      assert lines == init + [last];
    }
  }

  /** Filtering distributes over concatenation, which is what "in their
      original order" means: each part is filtered in place. */
  lemma {:induction false} WithoutAppend(a: seq<string>, b: seq<string>, token: string)
    ensures Without(a + b, token) == Without(a, token) + Without(b, token)
  {
    if b == [] {
      assert a + b == a;
    } else {
      assert (a + b)[..|a + b| - 1] == a + b[..|b| - 1];
      WithoutAppend(a, b[..|b| - 1], token);
    }
  }

  /** Lines none of which contain the token come through unchanged. */
  lemma {:induction false} WithoutClean(lines: seq<string>, token: string)
    requires forall l :: l in lines ==> !Contains(l, token)
    ensures Without(lines, token) == lines
  {
    if lines != [] {
      var init, last := lines[..|lines| - 1], lines[|lines| - 1];
      assert !Contains(last, token);
      WithoutClean(init, token);
      assert lines == init + [last];
    }
  }

  /** Filtering twice is filtering once. */
  lemma WithoutIdempotent(lines: seq<string>, token: string)
    ensures Without(Without(lines, token), token) == Without(lines, token)
  {
    WithoutMembers(lines, token);
    WithoutClean(Without(lines, token), token);
  }

  /** The fields of a line written with single spaces between them:
      `strings.Split(s, " ")`. */
  function Split(s: string): (r: seq<string>)
    ensures |r| >= 1
    decreases |s|
  {
    if ' ' in s then
      var i := IndexOfSpace(s);
      [s[..i]] + Split(s[i + 1..])
    else [s]
  }

  function IndexOfSpace(s: string): (i: nat)
    requires ' ' in s
    ensures i < |s| && s[i] == ' ' && ' ' !in s[..i]
  {
    if s[0] == ' ' then 0 else 1 + IndexOfSpace(s[1..])
  }

  /** The fields joined with single spaces: `strings.Join(parts, " ")`. */
  function Join(parts: seq<string>): string
    requires |parts| >= 1
  {
    if |parts| == 1 then parts[0] else parts[0] + " " + Join(parts[1..])
  }

  lemma JoinCons(parts: seq<string>)
    requires |parts| >= 2
    ensures Join(parts) == parts[0] + " " + Join(parts[1..])
  {
  }

  /** Splitting a line written by `Join` gives its fields back, provided no
      field contains a space. */
  lemma {:induction false} SplitJoin(parts: seq<string>)
    requires |parts| >= 1
    requires forall k :: 0 <= k < |parts| ==> ' ' !in parts[k]
    ensures Split(Join(parts)) == parts
  {
    if |parts| > 1 {
      JoinCons(parts);
      SplitCons(parts[0], Join(parts[1..]));
      SplitJoin(parts[1..]);
      assert parts == [parts[0]] + parts[1..];
    }
  }

  /** Splitting at the space after a space-free first field. */
  lemma SplitCons(a: string, rest: string)
    requires ' ' !in a
    ensures Split(a + " " + rest) == [a] + Split(rest)
  {
    var s := a + " " + rest;
    IndexOfSpaceAfter(a, rest);
    assert s[..|a|] == a && s[|a| + 1..] == rest;
  }

  /** The first space of `a + " " + rest` is the one after `a`. */
  lemma {:induction false} IndexOfSpaceAfter(a: string, rest: string)
    requires ' ' !in a
    ensures ' ' in a + " " + rest && IndexOfSpace(a + " " + rest) == |a|
  {
    var s := a + " " + rest;
    assert s[|a|] == ' ';
    if a != [] {
      assert s[0] == a[0];
      assert s[1..] == a[1..] + " " + rest;
      IndexOfSpaceAfter(a[1..], rest);
    }
  }
}
