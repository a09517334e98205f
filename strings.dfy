/**
 * The Python 2 `str` operations the handler uses, on `seq<char>`: `find`, `split`,
 * `join`, `lstrip`, `lower`, `upper`, `endswith`, the `in` substring test, and
 * `filter(None, ...)` / `list.reverse()` on lists of strings.  Only the ASCII letters
 * are case-mapped; other characters are left as they are.
 */
module Strings {

  /** Python's `s.find(c)`: the index of the first `c`, or -1. */
  function Find(s: string, c: char): (i: int)
    ensures -1 <= i < |s|
    ensures 0 <= i ==> s[i] == c && c !in s[..i]
    ensures i == -1 <==> c !in s
  {
    if s == [] then -1
    else if s[0] == c then 0
    else
      var j := Find(s[1..], c);
      assert s == [s[0]] + s[1..];
      if j == -1 then -1
      else
        assert s[..j + 1] == [s[0]] + s[1..][..j];
        j + 1
  }

  lemma FindFirst(a: string, c: char, b: string)
    requires c !in a
    ensures Find(a + [c] + b, c) == |a|
  {
    var s := a + [c] + b;
    var i := Find(s, c);
    assert s[|a|] == c;
    assert s[..|a|] == a;
  }

  /** `find` stops no later than any occurrence of `c`. */
  lemma {:induction false} FindBound(s: string, c: char, m: int)
    requires 0 <= m < |s| && s[m] == c
    ensures 0 <= Find(s, c) <= m
  {
    if s[0] != c {
      FindBound(s[1..], c, m - 1);
    }
  }

  /** Python's `s.split(c)` for a one-character separator; never empty. */
  function Split(s: string, c: char): (parts: seq<string>)
    ensures |parts| >= 1
    decreases |s|
  {
    var i := Find(s, c);
    if i == -1 then [s] else [s[..i]] + Split(s[i + 1..], c)
  }

  /** No piece of a split holds the separator. */
  lemma {:induction false} SplitFree(s: string, c: char)
    ensures forall k :: 0 <= k < |Split(s, c)| ==> c !in Split(s, c)[k]
    decreases |s|
  {
    var i := Find(s, c);
    if i != -1 {
      SplitFree(s[i + 1..], c);
      var ps := Split(s, c);
      assert ps[1..] == Split(s[i + 1..], c);
      forall k | 1 <= k < |ps| ensures c !in ps[k] {
        assert ps[k] == ps[1..][k - 1];
      }
    }
  }

  /** Python's `c.join(parts)`. */
  function Join(parts: seq<string>, c: char): string
    requires |parts| >= 1
  {
    if |parts| == 1 then parts[0] else parts[0] + [c] + Join(parts[1..], c)
  }

  /** Joining the pieces of a split gives the string back. */
  lemma {:induction false} JoinSplit(s: string, c: char)
    ensures Join(Split(s, c), c) == s
    decreases |s|
  {
    var i := Find(s, c);
    if i != -1 {
      var head, rest := s[..i], s[i + 1..];
      var ps := Split(s, c);
      assert ps == [head] + Split(rest, c);
      JoinSplit(rest, c);
      assert ps[0] == head && ps[1..] == Split(rest, c);
      assert Join(ps, c) == head + [c] + Join(Split(rest, c), c);
      assert s == head + [c] + rest;
    }
  }

  /** Splitting a join of separator-free pieces gives the pieces back. */
  lemma {:induction false} SplitJoin(parts: seq<string>, c: char)
    requires |parts| >= 1
    requires forall k :: 0 <= k < |parts| ==> c !in parts[k]
    ensures Split(Join(parts, c), c) == parts
  {
    if |parts| > 1 {
      var rest := Join(parts[1..], c);
      FindFirst(parts[0], c, rest);
      var s := parts[0] + [c] + rest;
      assert s[..|parts[0]|] == parts[0];
      assert s[|parts[0]| + 1..] == rest;
      SplitJoin(parts[1..], c);
      assert parts == [parts[0]] + parts[1..];
    }
  }

  /** `labels` each followed by a dot: the string `reverse_list` accumulates. */
  function Dotted(labels: seq<string>): string
  {
    if labels == [] then "" else labels[0] + "." + Dotted(labels[1..])
  }

  lemma {:induction false} DottedAppend(a: seq<string>, b: seq<string>)
    ensures Dotted(a + b) == Dotted(a) + Dotted(b)
  {
    if a != [] {
      assert (a + b)[0] == a[0] && (a + b)[1..] == a[1..] + b;
      DottedAppend(a[1..], b);
      calc {
        Dotted(a + b);
        a[0] + "." + Dotted(a[1..] + b);
        a[0] + "." + (Dotted(a[1..]) + Dotted(b));
        (a[0] + "." + Dotted(a[1..])) + Dotted(b);
      }
    } else {
      assert a + b == b;
    }
  }

  lemma {:induction false} DottedIsJoin(labels: seq<string>)
    ensures Dotted(labels) == Join(labels + [""], '.')
  {
    if labels != [] {
      assert (labels + [""])[1..] == labels[1..] + [""];
      DottedIsJoin(labels[1..]);
    }
  }

  /** The pieces of a dotted string are its labels and a final empty piece. */
  lemma SplitDotted(labels: seq<string>)
    requires forall k :: 0 <= k < |labels| ==> '.' !in labels[k]
    ensures Split(Dotted(labels), '.') == labels + [""]
  {
    DottedIsJoin(labels);
    var ps := labels + [""];
    forall m | 0 <= m < |ps| ensures '.' !in ps[m] {
      if m < |labels| {
        assert ps[m] == labels[m];
      }
    }
    SplitJoin(ps, '.');
  }

  /** Cutting a join after its first `k` pieces. */
  lemma {:induction false} JoinAfterDotted(parts: seq<string>, k: nat)
    requires k < |parts|
    ensures Join(parts, '.') == Dotted(parts[..k]) + Join(parts[k..], '.')
  {
    if k > 0 {
      JoinAfterDotted(parts[1..], k - 1);
      assert parts[1..][..k - 1] == parts[..k][1..];
      assert parts[1..][k - 1..] == parts[k..];
    } else {
      assert parts[k..] == parts;
    }
  }

  /** The first `k` pieces of a split, each followed by its dot, begin the string. */
  lemma DottedPrefixOfSplit(s: string, k: nat)
    requires 1 <= k < |Split(s, '.')|
    ensures Dotted(Split(s, '.')[..k]) <= s
    ensures Split(Dotted(Split(s, '.')[..k]), '.') == Split(s, '.')[..k] + [""]
  {
    var p := Split(s, '.');
    JoinSplit(s, '.');
    JoinAfterDotted(p, k);
    SplitFree(s, '.');
    assert forall m :: 0 <= m < k ==> p[..k][m] == p[m];
    SplitDotted(p[..k]);
  }

  lemma DottedEndsInDot(labels: seq<string>)
    requires labels != []
    ensures |Dotted(labels)| > 0 && Dotted(labels)[|Dotted(labels)| - 1] == '.'
  {
    var n := |labels|;
    DottedAppend(labels[..n - 1], [labels[n - 1]]);
    assert labels == labels[..n - 1] + [labels[n - 1]];
  }

  /** Python's `filter(None, parts)`: drop the empty strings. */
  function NonEmpty(parts: seq<string>): (r: seq<string>)
    ensures forall k :: 0 <= k < |r| ==> r[k] != ""
    ensures forall x :: x in r <==> x in parts && x != ""
  {
    if parts == [] then []
    else if parts[0] == "" then NonEmpty(parts[1..])
    else [parts[0]] + NonEmpty(parts[1..])
  }

  lemma {:induction false} NonEmptyAppend(a: seq<string>, b: seq<string>)
    ensures NonEmpty(a + b) == NonEmpty(a) + NonEmpty(b)
  {
    if a != [] {
      assert (a + b)[0] == a[0] && (a + b)[1..] == a[1..] + b;
      NonEmptyAppend(a[1..], b);
      if a[0] != "" {
        assert NonEmpty(a + b) == [a[0]] + NonEmpty(a[1..] + b);
      }
    } else {
      assert a + b == b;
    }
  }

  lemma {:induction false} NonEmptyKeeps(parts: seq<string>)
    requires forall k :: 0 <= k < |parts| ==> parts[k] != ""
    ensures NonEmpty(parts) == parts
  {
    if parts != [] {
      NonEmptyKeeps(parts[1..]);
    }
  }

  /** The list after Python's in-place `list.reverse()`. */
  function Reverse<T(!new)>(s: seq<T>): (r: seq<T>)
    ensures |r| == |s|
    ensures forall x :: x in r <==> x in s
  {
    if s == [] then [] else Reverse(s[1..]) + [s[0]]
  }

  lemma {:induction false} ReverseAt<T(!new)>(s: seq<T>, k: int)
    requires 0 <= k < |s|
    ensures Reverse(s)[k] == s[|s| - 1 - k]
  {
    if k < |s| - 1 {
      ReverseAt(s[1..], k);
    }
  }

  lemma ReverseReverse<T(!new)>(s: seq<T>)
    ensures Reverse(Reverse(s)) == s
  {
    forall k | 0 <= k < |s|
      ensures Reverse(Reverse(s))[k] == s[k]
    {
      ReverseAt(Reverse(s), k);
      ReverseAt(s, |s| - 1 - k);
    }
  }

  predicate IsDigit(ch: char) { '0' <= ch <= '9' }

  /** The characters Python 2's `str.lstrip()` removes. */
  predicate IsSpace(ch: char)
  {
    ch == ' ' || ch == '\t' || ch == '\n' || ch == '\r' || ch == '\U{B}' || ch == '\U{C}'
  }

  /** Python's `s.lstrip()`. */
  function LStrip(s: string): string
  {
    if s != [] && IsSpace(s[0]) then LStrip(s[1..]) else s
  }

  function LowerChar(ch: char): char
  {
    if 'A' <= ch <= 'Z' then (ch as int + 32) as char else ch
  }

  function UpperChar(ch: char): char
  {
    if 'a' <= ch <= 'z' then (ch as int - 32) as char else ch
  }

  /** Python's `s.lower()`, on the ASCII letters. */
  function Lower(s: string): string
  {
    seq(|s|, i requires 0 <= i < |s| => LowerChar(s[i]))
  }

  /** Python's `s.upper()`, on the ASCII letters. */
  function Upper(s: string): string
  {
    seq(|s|, i requires 0 <= i < |s| => UpperChar(s[i]))
  }

  /** Python's `sub in s` for strings. */
  predicate Contains(s: string, sub: string)
  {
    sub <= s || (s != [] && Contains(s[1..], sub))
  }

  /** A string holds no substring longer than itself. */
  lemma {:induction false} ContainsLonger(s: string, sub: string)
    requires |s| < |sub|
    ensures !Contains(s, sub)
  {
    if s != [] {
      ContainsLonger(s[1..], sub);
    }
  }

  /** Python's `s.endswith(suffix)`. */
  predicate EndsWith(s: string, suffix: string)
  {
    |suffix| <= |s| && s[|s| - |suffix|..] == suffix
  }
}
