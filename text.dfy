/** The string operations of JavaScript that the modelled code relies on:
    `trim`, `split` on one character, `startsWith` and the ASCII part of
    `toLowerCase`. */
module Text {

  /** The characters `String.prototype.trim` removes: ECMAScript WhiteSpace
      (tab, vertical tab, form feed, the byte-order mark and the space
      separators of category Zs) and LineTerminator. */
  predicate IsJsWhitespace(c: char) {
    c in {'\t', '\n', '\U{000B}', '\U{000C}', '\r', ' ', '\U{00A0}', '\U{1680}',
          '\U{2000}', '\U{2001}', '\U{2002}', '\U{2003}', '\U{2004}', '\U{2005}',
          '\U{2006}', '\U{2007}', '\U{2008}', '\U{2009}', '\U{200A}',
          '\U{2028}', '\U{2029}', '\U{202F}', '\U{205F}', '\U{3000}', '\U{FEFF}'}
  }

  predicate StartsWith(s: string, prefix: string) {
    |prefix| <= |s| && s[..|prefix|] == prefix
  }

  /** `s.trimStart()`: the suffix of `s` left after its leading whitespace. */
  function TrimStart(s: string): (r: string)
    ensures |r| <= |s| && r == s[|s| - |r|..]
    ensures forall k :: 0 <= k < |s| - |r| ==> IsJsWhitespace(s[k])
    ensures r == [] || !IsJsWhitespace(r[0])
    decreases |s|
  {
    if s != [] && IsJsWhitespace(s[0]) then TrimStart(s[1..]) else s
  }

  /** `s.trimEnd()`: the prefix of `s` left after its trailing whitespace. */
  function TrimEnd(s: string): (r: string)
    ensures |r| <= |s| && r == s[..|r|]
    ensures forall k :: |r| <= k < |s| ==> IsJsWhitespace(s[k])
    ensures r == [] || !IsJsWhitespace(r[|r| - 1])
    decreases |s|
  {
    if s != [] && IsJsWhitespace(s[|s| - 1]) then TrimEnd(s[..|s| - 1]) else s
  }

  /** `s.trim()`: `s` without leading and trailing whitespace. */
  function Trim(s: string): (r: string)
    ensures |r| <= |s|
    ensures r == [] || (!IsJsWhitespace(r[0]) && !IsJsWhitespace(r[|r| - 1]))
    ensures |r| <= |TrimStart(s)| && r == TrimStart(s)[..|r|]
  {
    TrimEnd(TrimStart(s))
  }

  /** Trimming a string twice is trimming it once. */
  lemma TrimIdempotent(s: string)
    ensures Trim(Trim(s)) == Trim(s)
  {
    var t := Trim(s);
    assert TrimStart(t) == t;
    assert TrimEnd(t) == t;
  }

  /** A string with no whitespace at either end is its own trim, so `trim`
      removes exactly the surrounding whitespace and nothing inside. */
  lemma TrimKeepsInterior(pre: string, mid: string, post: string)
    requires forall k :: 0 <= k < |pre| ==> IsJsWhitespace(pre[k])
    requires forall k :: 0 <= k < |post| ==> IsJsWhitespace(post[k])
    requires mid != [] && !IsJsWhitespace(mid[0]) && !IsJsWhitespace(mid[|mid| - 1])
    ensures Trim(pre + mid + post) == mid
  {
    TrimStartSkips(pre, mid + post);
    assert pre + mid + post == pre + (mid + post);
    TrimEndSkips(mid, post);
  }

  lemma {:induction false} TrimStartSkips(pre: string, rest: string)
    requires forall k :: 0 <= k < |pre| ==> IsJsWhitespace(pre[k])
    requires rest != [] && !IsJsWhitespace(rest[0])
    ensures TrimStart(pre + rest) == rest
    decreases |pre|
  {
    if pre != [] {
      assert (pre + rest)[1..] == pre[1..] + rest;
      TrimStartSkips(pre[1..], rest);
    }
  }

  lemma {:induction false} TrimEndSkips(rest: string, post: string)
    requires forall k :: 0 <= k < |post| ==> IsJsWhitespace(post[k])
    requires rest != [] && !IsJsWhitespace(rest[|rest| - 1])
    ensures TrimEnd(rest + post) == rest
    decreases |post|
  {
    if post != [] {
      var p := post[..|post| - 1];
      assert (rest + post)[..|rest + post| - 1] == rest + p;
      TrimEndSkips(rest, p);
    } else {
      assert rest + post == rest;
    }
  }

  /** Number of occurrences of `c` in `s`. */
  function Count(s: string, c: char): nat
    decreases |s|
  {
    if s == [] then 0 else (if s[0] == c then 1 else 0) + Count(s[1..], c)
  }

  /** A string holding `c` at some index counts at least one `c`. */
  lemma {:induction false} CountPositive(s: string, c: char, k: nat)
    requires k < |s| && s[k] == c
    ensures Count(s, c) >= 1
    decreases k
  {
    if k > 0 {
      CountPositive(s[1..], c, k - 1);
    }
  }

  /** `s.split(sep)` for a one-character separator: the maximal pieces between
      separators, including empty ones; `"".split(sep)` is `[""]`. */
  function Split(s: string, sep: char): (r: seq<string>)
    ensures |r| == Count(s, sep) + 1
    ensures forall k :: 0 <= k < |r| ==> sep !in r[k]
    decreases |s|
  {
    if s == [] then [""]
    else
      var rest := Split(s[1..], sep);
      if s[0] == sep then [""] + rest
      else [[s[0]] + rest[0]] + rest[1..]
  }

  /** `parts.join(sep)`. */
  function Join(parts: seq<string>, sep: char): string
    decreases |parts|
  {
    if parts == [] then ""
    else if |parts| == 1 then parts[0]
    else parts[0] + [sep] + Join(parts[1..], sep)
  }

  /** Splitting loses nothing: joining the pieces with the separator gives the
      original string back. */
  lemma {:induction false} JoinSplit(s: string, sep: char)
    ensures Join(Split(s, sep), sep) == s
    decreases |s|
  {
    if s != [] {
      var rest := Split(s[1..], sep);
      JoinSplit(s[1..], sep);
      if s[0] == sep {
        assert ([""] + rest)[1..] == rest;
        assert Join([""] + rest, sep) == "" + [sep] + Join(rest, sep);
      } else {
        var parts := [[s[0]] + rest[0]] + rest[1..];
        if |rest| == 1 {
          assert Join(rest, sep) == rest[0];
        } else {
          assert rest == [rest[0]] + rest[1..];
          assert Join(rest, sep) == rest[0] + [sep] + Join(rest[1..], sep);
          assert parts[1..] == rest[1..];
        }
      }
    }
  }

  /** The text before the first occurrence of `sep` (all of `s` when there is none). */
  function Before(s: string, sep: char): (r: string)
    ensures sep !in r
    ensures StartsWith(s, r)
    ensures |r| < |s| ==> s[|r|] == sep
    decreases |s|
  {
    if s == [] || s[0] == sep then "" else [s[0]] + Before(s[1..], sep)
  }

  /** The first piece of a split is the text before the first separator. */
  lemma {:induction false} SplitFirstIsBefore(s: string, sep: char)
    ensures Split(s, sep)[0] == Before(s, sep)
    decreases |s|
  {
    if s != [] && s[0] != sep {
      SplitFirstIsBefore(s[1..], sep);
    }
  }

  /** The second piece of splitting `p + [sep] + v`, where `p` holds no separator,
      is the text of `v` before its own first separator. */
  lemma {:induction false} SplitSecondPiece(p: string, sep: char, v: string)
    requires sep !in p
    ensures |Split(p + [sep] + v, sep)| >= 2
    ensures Split(p + [sep] + v, sep)[1] == Before(v, sep)
    decreases |p|
  {
    var s := p + [sep] + v;
    if p == [] {
      assert s[1..] == v;
      SplitFirstIsBefore(v, sep);
    } else {
      assert s[1..] == p[1..] + [sep] + v;
      SplitSecondPiece(p[1..], sep, v);
    }
  }

  function ToLowerAsciiChar(c: char): char {
    if 'A' <= c <= 'Z' then (c as int + 32) as char else c
  }

  /** `s.toLowerCase()` restricted to the ASCII letters. */
  function ToLowerAscii(s: string): (r: string)
    ensures |r| == |s|
    ensures forall k :: 0 <= k < |s| ==> r[k] == ToLowerAsciiChar(s[k])
  {
    seq(|s|, k requires 0 <= k < |s| => ToLowerAsciiChar(s[k]))
  }
}
