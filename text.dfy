/** The string operations of Python's `str` that the repository relies on:
    `sep.join`, `split` on one character, `replace`, `in` (substring test),
    `strip`, `lower` and `endswith`. */
module Text {

  /** `s.startswith(p)`. */
  predicate StartsWith(s: string, p: string)
  {
    |p| <= |s| && s[..|p|] == p
  }

  /** `s.endswith(p)`. */
  predicate EndsWith(s: string, p: string)
  {
    |p| <= |s| && s[|s| - |p|..] == p
  }

  lemma EndsWithTransitive(s: string, t: string, u: string)
    requires EndsWith(s, t) && EndsWith(t, u)
    ensures EndsWith(s, u)
  {
    assert s[|s| - |u|..] == s[|s| - |t|..][|t| - |u|..];
  }

  /** `p in s`: `p` occurs in `s` at some position. */
  predicate Contains(s: string, p: string)
    decreases |s|
  {
    StartsWith(s, p) || (|s| > 0 && Contains(s[1..], p))
  }

  lemma {:induction false} ContainsAt(s: string, p: string, i: nat)
    requires i + |p| <= |s| && s[i..i + |p|] == p
    ensures Contains(s, p)
    decreases i
  {
    if i > 0 {
      assert s[1..][i - 1..i - 1 + |p|] == s[i..i + |p|];
      ContainsAt(s[1..], p, i - 1);
    } else {
      assert s[..|p|] == s[0..|p|];
    }
  }

  /** An occurrence stays an occurrence when text is put in front. */
  lemma {:induction false} ContainsAfter(a: string, b: string, p: string)
    requires Contains(b, p)
    ensures Contains(a + b, p)
    decreases |a|
  {
    if a == [] {
      assert a + b == b;
    } else {
      assert (a + b)[1..] == a[1..] + b;
      ContainsAfter(a[1..], b, p);
    }
  }

  /** An occurrence stays an occurrence when text is put after it. */
  lemma {:induction false} ContainsBefore(a: string, b: string, p: string)
    requires Contains(a, p)
    ensures Contains(a + b, p)
    decreases |a|
  {
    if StartsWith(a, p) {
      assert (a + b)[..|p|] == a[..|p|];
    } else {
      assert (a + b)[1..] == a[1..] + b;
      ContainsBefore(a[1..], b, p);
    }
  }

  /** The empty string occurs in every string, so `"" in t` is always true. */
  lemma EmptyOccursEverywhere(t: string)
    ensures Contains(t, "")
  {
    assert t[..0] == "";
  }

  // ---------------------------------------------------------------------------
  // join and split
  // ---------------------------------------------------------------------------

  /** `sep.join(parts)`. */
  function Join(sep: string, parts: seq<string>): string
  {
    if |parts| == 0 then ""
    else if |parts| == 1 then parts[0]
    else parts[0] + sep + Join(sep, parts[1..])
  }

  /** Joining puts exactly one separator between consecutive parts: cut
      before part `i`, the joined text is the join of the parts before it,
      one separator, and the join of the rest. */
  lemma {:induction false} JoinAt(sep: string, parts: seq<string>, i: nat)
    requires 0 < i < |parts|
    ensures Join(sep, parts) == Join(sep, parts[..i]) + sep + Join(sep, parts[i..])
    decreases i
  {
    if i > 1 {
      var tail := parts[1..];
      JoinAt(sep, tail, i - 1);
      assert tail[..i - 1] == parts[..i][1..];
      assert tail[i - 1..] == parts[i..];
      assert parts[..i][0] == parts[0];
    }
  }

  /** Every part occurs in the joined text. */
  lemma {:induction false} JoinContainsParts(sep: string, parts: seq<string>, i: nat)
    requires i < |parts|
    ensures Contains(Join(sep, parts), parts[i])
    decreases i
  {
    var j := Join(sep, parts);
    if i == 0 {
      if |parts| > 1 {
        assert j[..|parts[0]|] == parts[0];
      }
      ContainsAt(j, parts[0], 0);
    } else {
      JoinContainsParts(sep, parts[1..], i - 1);
      ContainsAfter(parts[0] + sep, Join(sep, parts[1..]), parts[i]);
    }
  }

  lemma {:induction false} JoinLength(sep: string, parts: seq<string>)
    ensures |parts| > 0 ==> |Join(sep, parts)| == SumOfLengths(parts) + (|parts| - 1) * |sep|
  {
    if |parts| > 1 {
      JoinLength(sep, parts[1..]);
    }
  }

  function SumOfLengths(parts: seq<string>): nat
  {
    if parts == [] then 0 else |parts[0]| + SumOfLengths(parts[1..])
  }

  lemma JoinPrepend(sep: string, a: string, x: string, rest: seq<string>)
    ensures Join(sep, [a + x] + rest) == a + Join(sep, [x] + rest)
  {
    if |rest| > 0 {
      assert ([a + x] + rest)[1..] == rest;
      assert ([x] + rest)[1..] == rest;
    }
  }

  /** `s.split(c)` for a one-character separator: the pieces between the
      occurrences of `c`, always at least one. */
  function Split(s: string, c: char): (r: seq<string>)
    ensures |r| >= 1
    ensures forall i :: 0 <= i < |r| ==> c !in r[i]
    decreases |s|
  {
    if s == [] then [""]
    else if s[0] == c then [""] + Split(s[1..], c)
    else
      var t := Split(s[1..], c);
      [[s[0]] + t[0]] + t[1..]
  }

  /** Joining the pieces of a split with the separator gives the string back. */
  lemma {:induction false} JoinSplit(s: string, c: char)
    ensures Join([c], Split(s, c)) == s
    decreases |s|
  {
    if s == [] {
    } else if s[0] == c {
      JoinSplit(s[1..], c);
      var t := Split(s[1..], c);
      assert Split(s, c) == [""] + t;
      assert ([""] + t)[1..] == t;
      assert Join([c], [""] + t) == "" + [c] + Join([c], t);
      assert s == [s[0]] + s[1..];
    } else {
      JoinSplit(s[1..], c);
      var t := Split(s[1..], c);
      assert t == [t[0]] + t[1..];
      JoinPrepend([c], [s[0]], t[0], t[1..]);
      assert s == [s[0]] + s[1..];
    }
  }

  lemma {:induction false} SplitWithout(a: string, c: char)
    requires c !in a
    ensures Split(a, c) == [a]
    decreases |a|
  {
    if a != [] {
      assert a[0] in a;
      assert forall x :: x in a[1..] ==> x in a;
      SplitWithout(a[1..], c);
      assert a == [a[0]] + a[1..];
    }
  }

  lemma {:induction false} SplitAfterFirst(a: string, c: char, b: string)
    requires c !in a
    ensures Split(a + [c] + b, c) == [a] + Split(b, c)
    decreases |a|
  {
    if a == [] {
      assert a + [c] + b == [c] + b;
      assert ([c] + b)[1..] == b;
    } else {
      assert a[0] in a;
      assert forall x :: x in a[1..] ==> x in a;
      SplitAfterFirst(a[1..], c, b);
      assert (a + [c] + b)[1..] == a[1..] + [c] + b;
      assert (a + [c] + b)[0] == a[0];
      assert [a[0]] + a[1..] == a;
    }
  }

  /** Splitting a join recovers the parts, provided no part contains the separator. */
  lemma {:induction false} SplitJoin(parts: seq<string>, c: char)
    requires |parts| > 0
    requires forall i :: 0 <= i < |parts| ==> c !in parts[i]
    ensures Split(Join([c], parts), c) == parts
  {
    if |parts| == 1 {
      SplitWithout(parts[0], c);
    } else {
      SplitJoin(parts[1..], c);
      SplitAfterFirst(parts[0], c, Join([c], parts[1..]));
      assert parts == [parts[0]] + parts[1..];
    }
  }

  // ---------------------------------------------------------------------------
  // replace
  // ---------------------------------------------------------------------------

  /** `s.replace(pat, rep)`: every non-overlapping occurrence of `pat`, scanning
      left to right, is replaced by `rep`. (Python also accepts an empty `pat`;
      the repository only replaces non-empty placeholders.) */
  function Replace(s: string, pat: string, rep: string): string
    requires |pat| > 0
    decreases |s|
  {
    if |s| < |pat| then s
    else if s[..|pat|] == pat then rep + Replace(s[|pat|..], pat, rep)
    else [s[0]] + Replace(s[1..], pat, rep)
  }

  /** Text in which the pattern cannot start is passed over unchanged. */
  lemma {:induction false} ReplacePlainPrefix(a: string, b: string, pat: string, rep: string)
    requires |pat| > 0 && pat[0] !in a
    ensures Replace(a + b, pat, rep) == a + Replace(b, pat, rep)
    decreases |a|
  {
    if a == [] {
      assert a + b == b;
    } else {
      var s, t := a + b, a[1..] + b;
      assert s[1..] == t;
      assert pat[0] !in a[1..] by {
        assert forall c :: c in a[1..] ==> c in a;
      }
      ReplacePlainPrefix(a[1..], b, pat, rep);
      assert Replace(s, pat, rep) == [a[0]] + Replace(t, pat, rep) by {
        if |s| >= |pat| {
          assert s[..|pat|][0] == a[0];
          ReplaceSkip(s, pat, rep);
        } else {
          ReplaceShortIdentity(s, pat, rep);
          ReplaceShortIdentity(t, pat, rep);
        }
      }
      assert a == [a[0]] + a[1..];
    }
  }

  /** Text in which the pattern cannot start is left as it is. */
  lemma ReplacePlain(s: string, pat: string, rep: string)
    requires |pat| > 0 && pat[0] !in s
    ensures Replace(s, pat, rep) == s
  {
    ReplacePlainPrefix(s, [], pat, rep);
    assert s + [] == s;
  }

  /** A `{{`-placeholder is not found in `{{` followed by text that differs
      from it at its third character and holds no `{`. */
  lemma ReplaceOtherPlaceholder(x: string, pat: string, rep: string)
    requires |pat| > 2 && pat[0] == '{' && pat[1] == '{'
    requires '{' !in x && (x == [] || x[0] != pat[2])
    ensures Replace("{{" + x, pat, rep) == "{{" + x
  {
    ReplacePlain(x, pat, rep);
    var t1 := "{" + x;
    assert t1[1..] == x;
    if |t1| >= |pat| {
      assert t1[..|pat|][1] != pat[1] by {
        assert x[0] in x;
      }
      ReplaceSkip(t1, pat, rep);
    } else {
      ReplaceShortIdentity(t1, pat, rep);
    }
    var t0 := "{{" + x;
    assert t0[1..] == t1;
    if |t0| >= |pat| {
      assert t0[..|pat|][2] == x[0];
      ReplaceSkip(t0, pat, rep);
    } else {
      ReplaceShortIdentity(t0, pat, rep);
    }
  }

  /** The same, with any text after it: the pattern cannot start anywhere in
      the other placeholder, so only the text after it is rewritten. */
  lemma ReplaceOtherPlaceholderPrefix(x: string, rest: string, pat: string, rep: string)
    requires |pat| > 2 && pat[0] == '{' && pat[1] == '{'
    requires '{' !in x && x != [] && x[0] != pat[2]
    ensures Replace("{{" + x + rest, pat, rep) == "{{" + x + Replace(rest, pat, rep)
  {
    ReplacePlainPrefix(x, rest, pat, rep);
    var t1 := "{" + x + rest;
    assert t1[1..] == x + rest;
    if |t1| >= |pat| {
      assert t1[..|pat|][1] == x[0];
      assert x[0] in x;
      ReplaceSkip(t1, pat, rep);
    } else {
      ReplaceShortIdentity(t1, pat, rep);
      ReplaceShortIdentity(x + rest, pat, rep);
    }
    var t0 := "{{" + x + rest;
    assert t0[1..] == t1;
    if |t0| >= |pat| {
      assert t0[..|pat|][2] == x[0];
      ReplaceSkip(t0, pat, rep);
    } else {
      ReplaceShortIdentity(t0, pat, rep);
      ReplaceShortIdentity(t1, pat, rep);
    }
  }

  lemma ReplaceSkip(s: string, pat: string, rep: string)
    requires |pat| > 0 && |s| >= |pat| && s[..|pat|] != pat
    ensures Replace(s, pat, rep) == [s[0]] + Replace(s[1..], pat, rep)
  {
  }

  lemma ReplaceShortIdentity(s: string, pat: string, rep: string)
    requires |pat| > 0 && |s| < |pat|
    ensures Replace(s, pat, rep) == s
  {
  }

  /** A text that starts with the pattern starts with the replacement. */
  lemma ReplaceAtStart(pat: string, b: string, rep: string)
    requires |pat| > 0
    ensures Replace(pat + b, pat, rep) == rep + Replace(b, pat, rep)
  {
    assert (pat + b)[..|pat|] == pat;
    assert (pat + b)[|pat|..] == b;
  }

  /** Number of occurrences `Replace` substitutes. */
  function Occurrences(s: string, pat: string): nat
    requires |pat| > 0
    decreases |s|
  {
    if |s| < |pat| then 0
    else if s[..|pat|] == pat then 1 + Occurrences(s[|pat|..], pat)
    else Occurrences(s[1..], pat)
  }

  /** A string without the pattern is left untouched. */
  lemma {:induction false} ReplaceAbsent(s: string, pat: string, rep: string)
    requires |pat| > 0
    requires !Contains(s, pat)
    ensures Replace(s, pat, rep) == s
    decreases |s|
  {
    if |s| >= |pat| {
      assert !StartsWith(s, pat);
      ReplaceAbsent(s[1..], pat, rep);
      assert s == [s[0]] + s[1..];
    }
  }

  /** Each substituted occurrence changes the length by `|rep| - |pat|`. */
  lemma {:induction false} ReplaceLength(s: string, pat: string, rep: string)
    requires |pat| > 0
    ensures |Replace(s, pat, rep)| == |s| + Occurrences(s, pat) * (|rep| - |pat|)
    decreases |s|
  {
    if |s| < |pat| {
      ReplaceShortIdentity(s, pat, rep);
    } else if s[..|pat|] == pat {
      var t := s[|pat|..];
      assert s == pat + t;
      ReplaceAtStart(pat, t, rep);
      ReplaceLength(t, pat, rep);
      OneMoreOccurrence(Occurrences(t, pat), |rep| - |pat|);
    } else {
      ReplaceSkip(s, pat, rep);
      ReplaceLength(s[1..], pat, rep);
    }
  }

  lemma OneMoreOccurrence(k: int, d: int)
    ensures (1 + k) * d == d + k * d
  {
  }

  /** Occurrences exist exactly when the pattern is contained. */
  lemma {:induction false} OccurrencesContains(s: string, pat: string)
    requires |pat| > 0
    ensures Occurrences(s, pat) > 0 <==> Contains(s, pat)
    decreases |s|
  {
    if |s| < |pat| {
      if Contains(s, pat) {
        ContainsShort(s, pat);
      }
    } else if s[..|pat|] == pat {
    } else {
      OccurrencesContains(s[1..], pat);
    }
  }

  lemma {:induction false} ContainsShort(s: string, pat: string)
    requires |s| < |pat|
    ensures !Contains(s, pat)
    decreases |s|
  {
    if |s| > 0 {
      ContainsShort(s[1..], pat);
    }
  }

  /** The whole pattern is replaced by the replacement. */
  lemma ReplaceWhole(pat: string, rep: string)
    requires |pat| > 0
    ensures Replace(pat, pat, rep) == rep
  {
    assert pat[|pat|..] == "";
  }

  /** A pattern occurs only where its first character does. */
  lemma {:induction false} ContainsFirstChar(s: string, p: string)
    requires |p| > 0 && Contains(s, p)
    ensures p[0] in s
    decreases |s|
  {
    if StartsWith(s, p) {
      assert s[0] == p[0];
    } else {
      ContainsFirstChar(s[1..], p);
      assert forall c :: c in s[1..] ==> c in s;
    }
  }

  /** A chain of `replace` calls, applied in the order given: each binding is a
      placeholder and the text that replaces it. */
  function Substitute(t: string, bindings: seq<(string, string)>): string
    requires forall i :: 0 <= i < |bindings| ==> |bindings[i].0| > 0
    decreases |bindings|
  {
    if bindings == [] then t
    else Substitute(Replace(t, bindings[0].0, bindings[0].1), bindings[1..])
  }

  /** A template in which no placeholder can start is returned as it is. */
  lemma {:induction false} SubstituteUntouched(t: string, bindings: seq<(string, string)>)
    requires forall i :: 0 <= i < |bindings| ==> |bindings[i].0| > 0
    requires forall i :: 0 <= i < |bindings| ==> bindings[i].0[0] !in t
    ensures Substitute(t, bindings) == t
    decreases |bindings|
  {
    if bindings != [] {
      var pat := bindings[0].0;
      if Contains(t, pat) {
        ContainsFirstChar(t, pat);
        assert false;
      }
      ReplaceAbsent(t, pat, bindings[0].1);
      SubstituteUntouched(t, bindings[1..]);
    }
  }

  /** The placeholders of a chain of `replace` calls that all differ from a
      placeholder `{{x...` at its third character pass over text without `{`
      and over that placeholder, rewriting only what follows it. */
  lemma {:induction false} SubstituteSkipsPlaceholder(pre: string, x: string, rest: string, bindings: seq<(string, string)>)
    requires forall i :: 0 <= i < |bindings| ==> |bindings[i].0| > 0
    requires '{' !in pre && '{' !in x && x != []
    requires forall i :: 0 <= i < |bindings| ==>
               |bindings[i].0| > 2 && bindings[i].0[0] == '{' && bindings[i].0[1] == '{' && bindings[i].0[2] != x[0]
    ensures Substitute(pre + "{{" + x + rest, bindings) == pre + "{{" + x + Substitute(rest, bindings)
    decreases |bindings|
  {
    if bindings != [] {
      var pat, rep := bindings[0].0, bindings[0].1;
      assert pre + "{{" + x + rest == pre + ("{{" + x + rest);
      ReplacePlainPrefix(pre, "{{" + x + rest, pat, rep);
      ReplaceOtherPlaceholderPrefix(x, rest, pat, rep);
      var rest' := Replace(rest, pat, rep);
      assert Replace(pre + "{{" + x + rest, pat, rep) == pre + "{{" + x + rest';
      SubstituteSkipsPlaceholder(pre, x, rest', bindings[1..]);
    }
  }

  /** A `{{...` placeholder with no further `{` in it. */
  predicate IsPlaceholder(q: string)
  {
    |q| > 2 && q[0] == '{' && q[1] == '{' && '{' !in q[2..]
  }

  /** A placeholder that another one differs from at its third character is
      passed over, with the text without `{` around it. */
  lemma ReplaceSkipsOther(pre: string, q: string, post: string, pat: string, rep: string)
    requires IsPlaceholder(q) && |pat| > 2 && pat[0] == '{' && pat[1] == '{' && q[2] != pat[2]
    requires '{' !in pre && '{' !in post
    ensures Replace(pre + q + post, pat, rep) == pre + q + post
  {
    var x := q[2..] + post;
    assert q + post == "{{" + x;
    assert pre + q + post == pre + (q + post);
    ReplacePlainPrefix(pre, q + post, pat, rep);
    ReplaceOtherPlaceholder(x, pat, rep);
  }

  /** Replacing a placeholder that follows text without `{`. */
  lemma ReplaceAfterPlain(pre: string, pat: string, post: string, rep: string)
    requires |pat| > 0 && pat[0] == '{' && '{' !in pre && '{' !in post
    ensures Replace(pre + pat + post, pat, rep) == pre + rep + post
  {
    assert pre + pat + post == pre + (pat + post);
    ReplacePlainPrefix(pre, pat + post, pat, rep);
    ReplaceAtStart(pat, post, rep);
    ReplacePlain(post, pat, rep);
  }

  /** Of two placeholders, replacing the first leaves the second in place. */
  lemma ReplaceFirstOfTwo(pre: string, p: string, mid: string, q: string, post: string, rep: string)
    requires IsPlaceholder(p) && IsPlaceholder(q) && p[2] != q[2]
    requires '{' !in pre && '{' !in mid && '{' !in post
    ensures Replace(pre + p + mid + q + post, p, rep) == pre + rep + mid + q + post
  {
    var tail := mid + q + post;
    assert pre + p + mid + q + post == pre + (p + tail);
    ReplacePlainPrefix(pre, p + tail, p, rep);
    ReplaceAtStart(p, tail, rep);
    ReplaceSkipsOther(mid, q, post, p, rep);
  }

  /** Bindings whose placeholders all differ from `q` at the third character. */
  predicate AllDifferAt2(bindings: seq<(string, string)>, q: string)
    requires |q| > 2
  {
    forall i :: 0 <= i < |bindings| ==>
      |bindings[i].0| > 2 && bindings[i].0[0] == '{' && bindings[i].0[1] == '{' && bindings[i].0[2] != q[2]
  }

  /** Such a chain of `replace` calls leaves a template made of `q` and text
      without `{` as it is. */
  lemma SubstituteKeeps(pre: string, q: string, post: string, bindings: seq<(string, string)>)
    requires forall i :: 0 <= i < |bindings| ==> |bindings[i].0| > 0
    requires IsPlaceholder(q) && AllDifferAt2(bindings, q)
    requires '{' !in pre && '{' !in post
    ensures Substitute(pre + q + post, bindings) == pre + q + post
  {
    var x := q[2..] + post;
    assert pre + q + post == pre + "{{" + x + [];
    assert x[0] == q[2];
    SubstituteSkipsPlaceholder(pre, x, [], bindings);
    SubstituteUntouched([], bindings);
  }

  /** ... and one made of two such placeholders. */
  lemma SubstituteKeepsTwo(pre: string, p: string, mid: string, q: string, post: string, bindings: seq<(string, string)>)
    requires forall i :: 0 <= i < |bindings| ==> |bindings[i].0| > 0
    requires IsPlaceholder(p) && IsPlaceholder(q) && AllDifferAt2(bindings, p) && AllDifferAt2(bindings, q)
    requires '{' !in pre && '{' !in mid && '{' !in post
    ensures Substitute(pre + p + mid + q + post, bindings) == pre + p + mid + q + post
  {
    var x := p[2..] + mid;
    var rest := q + post;
    assert pre + p + mid + q + post == pre + "{{" + x + rest;
    assert x[0] == p[2];
    SubstituteSkipsPlaceholder(pre, x, rest, bindings);
    SubstituteKeeps([], q, post, bindings);
    assert [] + q + post == rest;
  }

  // ---------------------------------------------------------------------------
  // strip and lower
  // ---------------------------------------------------------------------------

  /** The characters Python's `str.isspace` (and so `strip()`) treats as whitespace. */
  predicate IsSpace(c: char)
  {
    var k := c as int;
    (9 <= k <= 13) || (28 <= k <= 32) || k == 0x85 || k == 0xA0 || k == 0x1680
    || (0x2000 <= k <= 0x200A) || k == 0x2028 || k == 0x2029 || k == 0x202F
    || k == 0x205F || k == 0x3000
  }

  function TrimLeft(s: string): (r: string)
    ensures |r| <= |s| && r == s[|s| - |r|..]
    ensures forall i :: 0 <= i < |s| - |r| ==> IsSpace(s[i])
    ensures r != [] ==> !IsSpace(r[0])
    decreases |s|
  {
    if s != [] && IsSpace(s[0]) then TrimLeft(s[1..]) else s
  }

  function TrimRight(s: string): (r: string)
    ensures |r| <= |s| && r == s[..|r|]
    ensures forall i :: |r| <= i < |s| ==> IsSpace(s[i])
    ensures r != [] ==> !IsSpace(r[|r| - 1])
    decreases |s|
  {
    if s != [] && IsSpace(s[|s| - 1]) then TrimRight(s[..|s| - 1]) else s
  }

  /** `s.strip()`. */
  function Strip(s: string): string
  {
    TrimRight(TrimLeft(s))
  }

  /** Number of whitespace characters `Strip` removes from the front. */
  function LeadingSpaces(s: string): nat
  {
    |s| - |TrimLeft(s)|
  }

  /** Strip removes whitespace from both ends and nothing else: the result is a
      contiguous piece of the input, everything outside it is whitespace, and it
      neither starts nor ends with whitespace. */
  lemma StripSpec(s: string)
    ensures var r, i := Strip(s), LeadingSpaces(s);
      && i + |r| <= |s| && r == s[i..i + |r|]
      && (forall k :: 0 <= k < i ==> IsSpace(s[k]))
      && (forall k :: i + |r| <= k < |s| ==> IsSpace(s[k]))
      && (r != [] ==> !IsSpace(r[0]) && !IsSpace(r[|r| - 1]))
  {
    StripSlice(s);
    StripTrailing(s);
    StripEnds(s);
  }

  lemma StripSlice(s: string)
    ensures LeadingSpaces(s) + |Strip(s)| <= |s|
    ensures Strip(s) == s[LeadingSpaces(s)..LeadingSpaces(s) + |Strip(s)|]
    ensures forall k :: 0 <= k < LeadingSpaces(s) ==> IsSpace(s[k])
  {
    var l := TrimLeft(s);
    var i := |s| - |l|;
    assert Strip(s) == l[..|Strip(s)|];
    assert l == s[i..];
  }

  lemma StripTrailing(s: string)
    ensures LeadingSpaces(s) + |Strip(s)| <= |s|
    ensures forall k :: LeadingSpaces(s) + |Strip(s)| <= k < |s| ==> IsSpace(s[k])
  {
    var l := TrimLeft(s);
    var r := TrimRight(l);
    var i := |s| - |l|;
    assert l == s[i..];
    forall k | i + |r| <= k < |s| ensures IsSpace(s[k]) {
      var j := k - i;
      assert |r| <= j < |l|;
      assert IsSpace(l[j]);
      assert s[k] == l[j];
    }
  }

  lemma StripEnds(s: string)
    ensures Strip(s) != [] ==> !IsSpace(Strip(s)[0]) && !IsSpace(Strip(s)[|Strip(s)| - 1])
  {
    var l := TrimLeft(s);
    var r := TrimRight(l);
    if r != [] {
      assert r[0] == l[0];
    }
  }

  /** `r` is `s` without its leading and trailing whitespace: a contiguous
      piece of `s` with only whitespace around it, neither starting nor
      ending with whitespace. */
  predicate StrippedFrom(s: string, r: string)
  {
    exists i :: 0 <= i <= |s| - |r| && IsStripAt(s, r, i)
  }

  predicate IsStripAt(s: string, r: string, i: nat)
    requires i + |r| <= |s|
  {
    r == s[i..i + |r|]
    && (forall k :: 0 <= k < i ==> IsSpace(s[k]))
    && (forall k :: i + |r| <= k < |s| ==> IsSpace(s[k]))
    && (r != [] ==> !IsSpace(r[0]) && !IsSpace(r[|r| - 1]))
  }

  /** `Strip` computes that piece. */
  lemma StripIsStrippedFrom(s: string)
    ensures StrippedFrom(s, Strip(s))
  {
    StripSpec(s);
    assert IsStripAt(s, Strip(s), LeadingSpaces(s));
  }

  /** There is only one such piece. */
  lemma StrippedFromUnique(s: string, r1: string, r2: string)
    requires StrippedFrom(s, r1) && StrippedFrom(s, r2)
    ensures r1 == r2
  {
    var i1 :| 0 <= i1 <= |s| - |r1| && IsStripAt(s, r1, i1);
    var i2 :| 0 <= i2 <= |s| - |r2| && IsStripAt(s, r2, i2);
    StripAtEmpty(s, r1, i1);
    StripAtEmpty(s, r2, i2);
    if r1 != [] && r2 != [] {
      assert s[i1] == r1[0] && s[i2] == r2[0];
      assert s[i1 + |r1| - 1] == r1[|r1| - 1] && s[i2 + |r2| - 1] == r2[|r2| - 1];
      assert i1 == i2;
      assert i1 + |r1| == i2 + |r2|;
    }
  }

  /** The piece is empty exactly when `s` is all whitespace. */
  lemma StripAtEmpty(s: string, r: string, i: nat)
    requires i + |r| <= |s| && IsStripAt(s, r, i)
    ensures r == [] <==> forall k :: 0 <= k < |s| ==> IsSpace(s[k])
  {
    if r != [] {
      assert s[i] == r[0];
    }
  }

  /** Lower-casing keeps whitespace where it is, so the piece of the
      lower-cased text is the lower-cased piece. */
  lemma StrippedFromLower(s: string, r: string)
    requires StrippedFrom(s, r)
    ensures StrippedFrom(Lower(s), Lower(r))
  {
    var i :| 0 <= i <= |s| - |r| && IsStripAt(s, r, i);
    var ls, lr := Lower(s), Lower(r);
    assert lr == ls[i..i + |r|];
    forall k | 0 <= k < |s| ensures IsSpace(ls[k]) <==> IsSpace(s[k]) {
      assert ls[k] == LowerChar(s[k]);
    }
    assert IsStripAt(ls, lr, i);
  }

  /** Stripping twice is stripping once. */
  lemma StripIdempotent(s: string)
    ensures Strip(Strip(s)) == Strip(s)
  {
    StripSpec(s);
    var r := Strip(s);
    if r != [] {
      assert TrimLeft(r) == r;
      assert TrimRight(r) == r;
    }
  }

  /** `c.lower()` on ASCII letters; other characters are returned unchanged. */
  function LowerChar(c: char): char
  {
    if 'A' <= c <= 'Z' then (c as int + 32) as char else c
  }

  /** `s.lower()` (ASCII case mapping). */
  function Lower(s: string): (r: string)
    ensures |r| == |s|
    ensures forall i :: 0 <= i < |s| ==> r[i] == LowerChar(s[i])
  {
    seq(|s|, i requires 0 <= i < |s| => LowerChar(s[i]))
  }

  /** Lower-casing twice is lower-casing once. */
  lemma LowerIdempotent(s: string)
    ensures Lower(Lower(s)) == Lower(s)
  {
    var l := Lower(s);
    forall i | 0 <= i < |s| ensures Lower(l)[i] == l[i] {
      assert 'A' <= l[i] <= 'Z' ==> false;
    }
  }

  // ---------------------------------------------------------------------------
  // bulleted lists
  // ---------------------------------------------------------------------------

  function Bullets(items: seq<string>): (r: seq<string>)
    ensures |r| == |items|
    ensures forall i :: 0 <= i < |items| ==> r[i] == "- " + items[i]
  {
    seq(|items|, i requires 0 <= i < |items| => "- " + items[i])
  }

  /** `"\n".join("- " + x for x in items)`. */
  function BulletList(items: seq<string>): string
  {
    Join("\n", Bullets(items))
  }

  /** A bulleted list reads back, line by line, as the bullets it was built
      from, when no item spans several lines. */
  lemma BulletListLines(items: seq<string>)
    requires |items| > 0
    requires forall i :: 0 <= i < |items| ==> '\n' !in items[i]
    ensures Split(BulletList(items), '\n') == Bullets(items)
  {
    var b := Bullets(items);
    forall i | 0 <= i < |b| ensures '\n' !in b[i] {
      assert b[i] == "- " + items[i];
    }
    SplitJoin(b, '\n');
  }
}
