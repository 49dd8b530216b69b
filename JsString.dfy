/**
  The JavaScript string built-ins the app calls: `trim`, `startsWith`, `endsWith`,
  `includes`, `toLowerCase`, and `replace(/\s+/g, ' ')`.
 */
module JsString {

  /** The characters that `String.prototype.trim` strips and that the regular-expression
      class `\s` matches: WhiteSpace and LineTerminator of ECMA-262. */
  predicate IsSpace(c: char) {
    || c == '\t' || c == '\n' || c == '\U{000B}' || c == '\U{000C}' || c == '\r' || c == ' '
    || c == '\U{00A0}' || c == '\U{1680}' || ('\U{2000}' <= c <= '\U{200A}')
    || c == '\U{2028}' || c == '\U{2029}' || c == '\U{202F}' || c == '\U{205F}'
    || c == '\U{3000}' || c == '\U{FEFF}'
  }

  predicate AllSpace(s: string) {
    forall i :: 0 <= i < |s| ==> IsSpace(s[i])
  }

  /** Neither end of `s` is white space. */
  predicate Trimmed(s: string) {
    s == [] || (!IsSpace(s[0]) && !IsSpace(s[|s| - 1]))
  }

  /** `s.trimStart()`: the suffix left after the longest all-space prefix. */
  function TrimStart(s: string): (r: string)
    ensures |r| <= |s| && r == s[|s| - |r|..]
    ensures AllSpace(s[..|s| - |r|])
    ensures r == [] || !IsSpace(r[0])
  {
    if s != [] && IsSpace(s[0]) then
      var r := TrimStart(s[1..]);
      var k := |s| - |r|;
      assert AllSpace(s[..k]) by {
        forall i | 0 <= i < k ensures IsSpace(s[..k][i]) {
          if i > 0 {
            assert s[..k][i] == s[1..][..k - 1][i - 1];
          }
        }
      }
      r
    else
      s
  }

  /** `s.trimEnd()`: the prefix left after the longest all-space suffix. */
  function TrimEnd(s: string): (r: string)
    ensures |r| <= |s| && r == s[..|r|]
    ensures AllSpace(s[|r|..])
    ensures r == [] || !IsSpace(r[|r| - 1])
  {
    if s != [] && IsSpace(s[|s| - 1]) then
      var r := TrimEnd(s[..|s| - 1]);
      assert AllSpace(s[|r|..]) by {
        forall i | 0 <= i < |s| - |r| ensures IsSpace(s[|r|..][i]) {
          if i < |s| - 1 - |r| {
            assert s[|r|..][i] == s[..|s| - 1][|r|..][i];
          }
        }
      }
      r
    else
      s
  }

  /** `s.trim()` */
  function Trim(s: string): (r: string)
    ensures Trimmed(r)
  {
    TrimEnd(TrimStart(s))
  }

  /** `trim` leaves nothing exactly when the string is all white space. */
  lemma {:induction false} TrimEmptyIffAllSpace(s: string)
    ensures Trim(s) == [] <==> AllSpace(s)
  {
    var t := TrimStart(s);
    if Trim(s) == [] {
      assert t[|TrimEnd(t)|..] == t;
      assert s[..|s|] == s;
    }
    if AllSpace(s) {
      assert s + [] == s;
      TrimStartPadding(s, []);
    }
  }

  /** Removing all-space padding around a trimmed string gives that string back. */
  lemma {:induction false} TrimPadding(pre: string, mid: string, post: string)
    requires AllSpace(pre) && AllSpace(post) && Trimmed(mid)
    ensures Trim(pre + mid + post) == mid
  {
    var s := pre + mid + post;
    if mid == [] {
      assert s == pre + post;
      AllSpaceAppend(pre, post);
      TrimEmptyIffAllSpace(s);
    } else {
      assert s == pre + (mid + post);
      TrimStartPadding(pre, mid + post);
      TrimEndPadding(mid, post);
      assert Trim(s) == TrimEnd(mid + post);
    }
  }

  lemma AllSpaceAppend(a: string, b: string)
    requires AllSpace(a) && AllSpace(b)
    ensures AllSpace(a + b)
  {
    forall i | 0 <= i < |a + b| ensures IsSpace((a + b)[i]) {
      if i >= |a| {
        assert (a + b)[i] == b[i - |a|];
      }
    }
  }

  /** `trimStart` drops exactly an all-space prefix in front of a non-space character. */
  lemma {:induction false} TrimStartPadding(pre: string, rest: string)
    requires AllSpace(pre)
    requires rest == [] || !IsSpace(rest[0])
    ensures TrimStart(pre + rest) == rest
  {
    if pre != [] {
      assert (pre + rest)[1..] == pre[1..] + rest;
      TrimStartPadding(pre[1..], rest);
    }
  }

  /** `trimEnd` drops exactly an all-space suffix after a non-space character. */
  lemma {:induction false} TrimEndPadding(rest: string, post: string)
    requires AllSpace(post)
    requires rest == [] || !IsSpace(rest[|rest| - 1])
    ensures TrimEnd(rest + post) == rest
  {
    if post != [] {
      var s := rest + post;
      assert s[..|s| - 1] == rest + post[..|post| - 1];
      TrimEndPadding(rest, post[..|post| - 1]);
    }
  }

  predicate StartsWith(s: string, prefix: string) {
    |prefix| <= |s| && s[..|prefix|] == prefix
  }

  predicate EndsWith(s: string, suffix: string) {
    |suffix| <= |s| && s[|s| - |suffix|..] == suffix
  }

  /** `s.includes(sub)` */
  predicate Includes(s: string, sub: string)
    decreases |s|
  {
    StartsWith(s, sub) || (s != [] && Includes(s[1..], sub))
  }

  /** A string that includes `sub` still does once text is added on either side. */
  lemma {:induction false} IncludesExtended(pre: string, s: string, post: string, sub: string)
    requires Includes(s, sub)
    ensures Includes(pre + s + post, sub)
  {
    if pre != [] {
      assert (pre + s + post)[1..] == pre[1..] + s + post;
      IncludesExtended(pre[1..], s, post, sub);
    } else if StartsWith(s, sub) {
      assert pre + s + post == s + post;
      assert (s + post)[..|sub|] == s[..|sub|];
    } else {
      assert pre + s + post == s + post;
      assert (s + post)[1..] == [] + s[1..] + post;
      IncludesExtended([], s[1..], post, sub);
    }
  }

  /** Lower-casing of one character. Only ASCII letters are mapped: the non-ASCII
      capitals whose lower case is an ASCII letter do not occur in the words the app
      searches for. */
  function LowerChar(c: char): char {
    if 'A' <= c <= 'Z' then (c as int + 32) as char else c
  }

  /** `s.toLowerCase()` */
  function ToLower(s: string): (r: string)
    ensures |r| == |s|
    ensures forall i :: 0 <= i < |s| ==> r[i] == LowerChar(s[i])
  {
    seq(|s|, i requires 0 <= i < |s| => LowerChar(s[i]))
  }

  /** Lower-casing an already lower-cased string changes nothing. */
  lemma ToLowerIdempotent(s: string)
    ensures ToLower(ToLower(s)) == ToLower(s)
  {
  }

  /** Lower-casing works character by character, so it distributes over concatenation. */
  lemma ToLowerAppend(a: string, b: string)
    ensures ToLower(a + b) == ToLower(a) + ToLower(b)
  {
  }

  /** Every character that is not white space, in order. */
  function NonSpace(s: string): string {
    if s == [] then []
    else if IsSpace(s[0]) then NonSpace(s[1..])
    else [s[0]] + NonSpace(s[1..])
  }

  /** No white-space run: every white-space character is a plain space followed by a
      character that is not white space (or by the end). */
  predicate NoSpaceRuns(s: string) {
    forall i :: 0 <= i < |s| && IsSpace(s[i]) ==> s[i] == ' ' && (i + 1 == |s| || !IsSpace(s[i + 1]))
  }

  /** `s.replace(/\s+/g, ' ')`: every maximal run of white space becomes one space. */
  function CollapseSpaces(s: string): (r: string)
    ensures NoSpaceRuns(r)
    ensures |r| <= |s|
    ensures s != [] && !IsSpace(s[0]) ==> r != [] && r[0] == s[0]
    ensures s != [] && IsSpace(s[0]) ==> r != [] && r[0] == ' '
    decreases |s|
  {
    if s == [] then []
    else if IsSpace(s[0]) then
      var rest := TrimStart(s);
      assert rest != [] ==> rest[0] != s[0];
      [' '] + CollapseSpaces(rest)
    else
      [s[0]] + CollapseSpaces(s[1..])
  }

  /** A run of white space in front of text that does not start with white space
      becomes exactly one plain space. */
  lemma CollapseRun(run: string, t: string)
    requires run != [] && AllSpace(run)
    requires t == [] || !IsSpace(t[0])
    ensures CollapseSpaces(run + t) == " " + CollapseSpaces(t)
  {
    var s := run + t;
    assert s[0] == run[0];
    TrimStartPadding(run, t);
  }

  /** Text that does not end in white space is collapsed on its own: collapsing works
      word by word, each run in its place. */
  lemma {:induction false} CollapseAppend(w: string, s: string)
    requires w == [] || !IsSpace(w[|w| - 1])
    ensures CollapseSpaces(w + s) == CollapseSpaces(w) + CollapseSpaces(s)
    decreases |w|, 1
  {
    if w == [] {
      assert w + s == s;
    } else if IsSpace(w[0]) {
      CollapseAppendRun(w, s);
    } else {
      CollapseAppendChar(w, s);
    }
  }

  lemma {:induction false} CollapseAppendRun(w: string, s: string)
    requires w != [] && IsSpace(w[0]) && !IsSpace(w[|w| - 1])
    ensures CollapseSpaces(w + s) == CollapseSpaces(w) + CollapseSpaces(s)
    decreases |w|, 0
  {
    var rest := CollapseLeadingRun(w, s);
    CollapseAppend(rest, s);
    var x, y := CollapseSpaces(rest), CollapseSpaces(s);
    Associative(" ", x, y);
  }

  lemma {:induction false} CollapseAppendChar(w: string, s: string)
    requires w != [] && !IsSpace(w[0]) && !IsSpace(w[|w| - 1])
    ensures CollapseSpaces(w + s) == CollapseSpaces(w) + CollapseSpaces(s)
    decreases |w|, 0
  {
    var tail := w[1..];
    CollapseLeadingChar(w, s);
    CollapseAppend(tail, s);
    var x, y := CollapseSpaces(tail), CollapseSpaces(s);
    Associative([w[0]], x, y);
  }

  lemma Associative(a: string, b: string, c: string)
    ensures a + (b + c) == (a + b) + c
  {
  }

  /** The leading run of a text that does not end in white space collapses the same
      whatever follows the text. */
  lemma CollapseLeadingRun(w: string, s: string) returns (rest: string)
    requires w != [] && IsSpace(w[0]) && !IsSpace(w[|w| - 1])
    ensures rest != [] && !IsSpace(rest[|rest| - 1]) && |rest| < |w|
    ensures CollapseSpaces(w) == " " + CollapseSpaces(rest)
    ensures CollapseSpaces(w + s) == " " + CollapseSpaces(rest + s)
  {
    rest := TrimStart(w);
    var pre := w[..|w| - |rest|];
    assert w == pre + rest;
    assert rest != [] && rest[|rest| - 1] == w[|w| - 1];
    assert pre != [];
    assert w + s == pre + (rest + s);
    TrimStartPadding(pre, rest + s);
    assert (w + s)[0] == w[0];
  }

  lemma CollapseLeadingChar(w: string, s: string)
    requires w != [] && !IsSpace(w[0]) && !IsSpace(w[|w| - 1])
    ensures w[1..] == [] || !IsSpace(w[1..][|w[1..]| - 1])
    ensures CollapseSpaces(w) == [w[0]] + CollapseSpaces(w[1..])
    ensures CollapseSpaces(w + s) == [w[0]] + CollapseSpaces(w[1..] + s)
  {
    assert (w + s)[0] == w[0] && (w + s)[1..] == w[1..] + s;
  }

  /** Collapsing keeps every character that is not white space, in order. */
  lemma {:induction false} CollapseKeepsText(s: string)
    ensures NonSpace(CollapseSpaces(s)) == NonSpace(s)
    decreases |s|
  {
    if s != [] {
      if IsSpace(s[0]) {
        var rest := TrimStart(s);
        assert rest != [] ==> rest[0] != s[0];
        assert CollapseSpaces(s) == [' '] + CollapseSpaces(rest);
        NonSpaceCons(' ', CollapseSpaces(rest));
        CollapseKeepsText(rest);
        NonSpaceTrimStart(s);
      } else {
        assert CollapseSpaces(s) == [s[0]] + CollapseSpaces(s[1..]);
        NonSpaceCons(s[0], CollapseSpaces(s[1..]));
        CollapseKeepsText(s[1..]);
        NonSpaceCons(s[0], s[1..]);
        assert [s[0]] + s[1..] == s;
      }
    }
  }

  /** Leading white space contributes nothing to the non-space text. */
  lemma NonSpaceTrimStart(s: string)
    ensures NonSpace(TrimStart(s)) == NonSpace(s)
  {
    var rest := TrimStart(s);
    var k := |s| - |rest|;
    var pre := s[..k];
    assert rest == s[k..];
    NonSpaceOfSpace(pre);
    assert s == pre + rest;
    NonSpaceAppend(pre, rest);
  }

  lemma NonSpaceCons(c: char, s: string)
    ensures NonSpace([c] + s) == (if IsSpace(c) then [] else [c]) + NonSpace(s)
  {
    assert ([c] + s)[0] == c;
    assert ([c] + s)[1..] == s;
  }

  /** A string without white-space runs is left as it is, so collapsing is idempotent. */
  lemma {:induction false} CollapseNoRuns(s: string)
    requires NoSpaceRuns(s)
    ensures CollapseSpaces(s) == s
    decreases |s|
  {
    if s != [] {
      NoSpaceRunsTail(s);
      CollapseNoRuns(s[1..]);
      if IsSpace(s[0]) {
        SingleSpaceTrimmed(s);
        assert CollapseSpaces(s) == [' '] + s[1..];
      } else {
        assert CollapseSpaces(s) == [s[0]] + s[1..];
      }
      assert [s[0]] + s[1..] == s;
    }
  }

  lemma NoSpaceRunsTail(s: string)
    requires s != [] && NoSpaceRuns(s)
    ensures NoSpaceRuns(s[1..])
  {
    forall i | 0 <= i < |s[1..]| && IsSpace(s[1..][i])
      ensures s[1..][i] == ' ' && (i + 1 == |s[1..]| || !IsSpace(s[1..][i + 1]))
    {
      assert s[1..][i] == s[i + 1];
    }
  }

  /** A lone leading space is all that `trimStart` removes from a string without runs. */
  lemma SingleSpaceTrimmed(s: string)
    requires s != [] && NoSpaceRuns(s) && IsSpace(s[0])
    ensures s[0] == ' ' && TrimStart(s) == s[1..]
  {
    assert |s| == 1 || !IsSpace(s[1]);
    TrimStartPadding([s[0]], s[1..]);
    assert [s[0]] + s[1..] == s;
  }

  lemma CollapseIdempotent(s: string)
    ensures CollapseSpaces(CollapseSpaces(s)) == CollapseSpaces(s)
  {
    CollapseNoRuns(CollapseSpaces(s));
  }

  /** Collapsing cannot turn text into white space or the other way round, so the
      emptiness test `trim()` makes is unaffected. */
  lemma CollapseAllSpace(s: string)
    ensures AllSpace(CollapseSpaces(s)) <==> AllSpace(s)
  {
    CollapseKeepsText(s);
    NonSpaceEmpty(s);
    NonSpaceEmpty(CollapseSpaces(s));
  }

  lemma {:induction false} NonSpaceEmpty(s: string)
    ensures NonSpace(s) == [] <==> AllSpace(s)
  {
    if s != [] {
      NonSpaceEmpty(s[1..]);
      assert AllSpace(s) <==> IsSpace(s[0]) && AllSpace(s[1..]) by {
        if IsSpace(s[0]) && AllSpace(s[1..]) {
          forall i | 0 <= i < |s| ensures IsSpace(s[i]) {
            if i > 0 { assert s[i] == s[1..][i - 1]; }
          }
        }
      }
    }
  }

  lemma {:induction false} NonSpaceOfSpace(s: string)
    requires AllSpace(s)
    ensures NonSpace(s) == []
  {
    NonSpaceEmpty(s);
  }

  lemma {:induction false} NonSpaceAppend(a: string, b: string)
    ensures NonSpace(a + b) == NonSpace(a) + NonSpace(b)
  {
    if a != [] {
      NonSpaceCons(a[0], a[1..] + b);
      assert a + b == [a[0]] + (a[1..] + b);
      NonSpaceAppend(a[1..], b);
      NonSpaceCons(a[0], a[1..]);
      assert a == [a[0]] + a[1..];
    } else {
      assert a + b == b;
    }
  }
}
