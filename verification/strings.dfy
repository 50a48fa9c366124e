/** The pieces of Go's `strings` package the env-file parser relies on, over strings as
    sequences of Unicode scalar values. */
module GoStrings {

  /** `unicode.IsSpace`: the Latin-1 white space characters and the Unicode White_Space set. */
  predicate IsSpace(c: char)
  {
    c == ' ' || c == '\t' || c == '\n' || c == '\U{0B}' || c == '\U{0C}' || c == '\r'
    || c == '\U{85}' || c == '\U{A0}' || c == '\U{1680}'
    || ('\U{2000}' <= c <= '\U{200A}')
    || c == '\U{2028}' || c == '\U{2029}' || c == '\U{202F}' || c == '\U{205F}' || c == '\U{3000}'
  }

  /** Every character of `s` is white space. */
  predicate AllSpace(s: string)
  {
    forall i :: 0 <= i < |s| ==> IsSpace(s[i])
  }

  /** Neither end of `s` is white space (vacuously true of ""). */
  predicate TrimmedEnds(s: string)
  {
    s == [] || (!IsSpace(s[0]) && !IsSpace(s[|s| - 1]))
  }

  /** Drops the leading white space; what is left is empty or starts with a non-space. */
  function TrimLeft(s: string): (r: string)
    ensures |r| <= |s|
    ensures r == [] || !IsSpace(r[0])
  {
    if s != [] && IsSpace(s[0]) then TrimLeft(s[1..]) else s
  }

  /** Drops the trailing white space; what is left is empty or ends with a non-space, and
      starts where `s` starts. */
  function TrimRight(s: string): (r: string)
    ensures |r| <= |s|
    ensures r == [] || !IsSpace(r[|r| - 1])
    ensures r != [] ==> r[0] == s[0]
  {
    if s != [] && IsSpace(s[|s| - 1]) then TrimRight(s[..|s| - 1]) else s
  }

  /** TrimLeft keeps a suffix of `s` and everything it drops is white space. */
  lemma {:induction false} TrimLeftDropsSpace(s: string)
    ensures var r := TrimLeft(s); r == s[|s| - |r|..] && AllSpace(s[..|s| - |r|])
  {
    if s != [] && IsSpace(s[0]) {
      TrimLeftDropsSpace(s[1..]);
      var r := TrimLeft(s);
      assert s[1..][|s| - 1 - |r|..] == s[|s| - |r|..];
      assert forall i :: 1 <= i < |s| - |r| ==> s[1..][..|s| - 1 - |r|][i - 1] == s[i];
    }
  }

  /** TrimRight keeps a prefix of `s` and everything it drops is white space. */
  lemma {:induction false} TrimRightDropsSpace(s: string)
    ensures var r := TrimRight(s); r == s[..|r|] && AllSpace(s[|r|..])
  {
    if s != [] && IsSpace(s[|s| - 1]) {
      TrimRightDropsSpace(s[..|s| - 1]);
      var r := TrimRight(s);
      assert s[..|s| - 1][..|r|] == s[..|r|];
      assert forall i :: |r| <= i < |s| - 1 ==> s[..|s| - 1][|r|..][i - |r|] == s[i];
    }
  }

  /** `strings.TrimSpace`. */
  function TrimSpace(s: string): (r: string)
    ensures TrimmedEnds(r)
    ensures |r| <= |s|
  {
    TrimRight(TrimLeft(s))
  }

  /** TrimSpace only drops characters: everything in its result occurs in `s`. */
  lemma TrimSpaceWithin(s: string, c: char)
    requires c in TrimSpace(s)
    ensures c in s
  {
    var l := TrimLeft(s);
    TrimLeftDropsSpace(s);
    TrimRightDropsSpace(l);
    var i :| 0 <= i < |TrimSpace(s)| && TrimSpace(s)[i] == c;
    assert l[i] == c;
    assert s[|s| - |l| + i] == c;
  }

  /** TrimLeft of white space followed by a string that does not start with white space. */
  lemma {:induction false} TrimLeftOfPadded(pre: string, rest: string)
    requires AllSpace(pre) && (rest == [] || !IsSpace(rest[0]))
    ensures TrimLeft(pre + rest) == rest
  {
    if pre != [] {
      assert (pre + rest)[1..] == pre[1..] + rest;
      TrimLeftOfPadded(pre[1..], rest);
    }
  }

  /** TrimRight of a string that does not end with white space followed by white space. */
  lemma {:induction false} TrimRightOfPadded(rest: string, post: string)
    requires AllSpace(post) && (rest == [] || !IsSpace(rest[|rest| - 1]))
    ensures TrimRight(rest + post) == rest
  {
    if post != [] {
      assert (rest + post)[..|rest + post| - 1] == rest + post[..|post| - 1];
      TrimRightOfPadded(rest, post[..|post| - 1]);
    }
  }

  /** TrimSpace is characterised by its result: white space, then a string with trimmed ends,
      then white space, trims to exactly that string. */
  lemma TrimSpaceOfPadded(pre: string, mid: string, post: string)
    requires AllSpace(pre) && AllSpace(post) && TrimmedEnds(mid)
    ensures TrimSpace(pre + mid + post) == mid
  {
    if mid == [] {
      assert pre + mid + post == pre + post;
      assert AllSpace(pre + post);
      TrimLeftOfPadded(pre + post, []);
      assert pre + post + [] == pre + post;
      TrimRightOfPadded([], []);
    } else {
      assert pre + mid + post == pre + (mid + post);
      TrimLeftOfPadded(pre, mid + post);
      TrimRightOfPadded(mid, post);
    }
  }

  /** Trimming twice is trimming once. */
  lemma TrimSpaceIdempotent(s: string)
    ensures TrimSpace(TrimSpace(s)) == TrimSpace(s)
  {
    var t := TrimSpace(s);
    assert [] + t + [] == t;
    TrimSpaceOfPadded([], t, []);
  }

  /** `strings.HasPrefix`. */
  predicate HasPrefix(s: string, prefix: string)
  {
    prefix <= s
  }

  /** `strings.SplitN(s, sep, 2)` for a one-character separator: `[s]` when `sep` does not
      occur, else the text before the first `sep` and everything after it. */
  function SplitFirst(s: string, sep: char): (parts: seq<string>)
    ensures sep !in s ==> parts == [s]
    ensures sep in s ==> |parts| == 2 && s == parts[0] + [sep] + parts[1] && sep !in parts[0]
  {
    if s == [] then [s]
    else if s[0] == sep then ["", s[1..]]
    else
      var rest := SplitFirst(s[1..], sep);
      if |rest| == 1 then [s]
      else
        assert s == [s[0]] + s[1..];
        [[s[0]] + rest[0], rest[1]]
  }

  /** The split is unique: text without `sep`, then `sep`, then anything, splits back into
      exactly those two parts. */
  lemma SplitFirstOfJoined(a: string, sep: char, b: string)
    requires sep !in a
    ensures SplitFirst(a + [sep] + b, sep) == [a, b]
  {
    var s := a + [sep] + b;
    assert s[|a|] == sep;
    var parts := SplitFirst(s, sep);
    assert s == parts[0] + [sep] + parts[1];
    assert s[|parts[0]|] == sep;
    assert forall i :: 0 <= i < |a| ==> s[i] == a[i];
    assert forall i :: 0 <= i < |parts[0]| ==> s[i] == parts[0][i];
    assert |parts[0]| == |a|;
    assert parts[0] == s[..|a|] == a;
    assert parts[1] == s[|a| + 1..] == b;
  }
}
