/**
 * `is_valid_hostname`: the test every ZONE and CNAME tag value passes before the
 * handler looks for a zone.  The label rule is the one of section 2.3.1 of RFC 1035
 * as relaxed by section 2.1 of RFC 1123 (labels may start with a digit).
 */
module Hostname {
  import opened Wrappers
  import opened Strings

  /** Letters, digits and hyphen: the character class `[A-Z\d-]` under `re.IGNORECASE`. */
  predicate IsLdh(ch: char)
  {
    'a' <= ch <= 'z' || 'A' <= ch <= 'Z' || IsDigit(ch) || ch == '-'
  }

  /** A label that `(?!-)[A-Z\d-]{1,63}(?<!-)$` matches from its start. */
  predicate LabelMatches(l: string)
  {
    1 <= |l| <= 63 &&
    (forall i :: 0 <= i < |l| ==> IsLdh(l[i])) &&
    l[0] != '-' && l[|l| - 1] != '-'
  }

  predicate AllLabelsMatch(labels: seq<string>)
  {
    forall k :: 0 <= k < |labels| ==> LabelMatches(labels[k])
  }

  /** `hostname[:-1]` when the name ends in a dot. */
  function DropTrailingDot(s: string): string
    requires s != []
  {
    if s[|s| - 1] == '.' then s[..|s| - 1] else s
  }

  /**
   * The same rule stated on positions instead of labels: only letters, digits,
   * hyphens and dots; no dot or hyphen at either end; no dot next to a dot or a
   * hyphen; and no 64 consecutive characters without a dot.
   */
  ghost predicate LdhName(t: string)
  {
    EdgesOk(t) && LdhChars(t) && JointsOk(t) && RunsOk(t)
  }

  ghost predicate EdgesOk(t: string)
  {
    t != [] && t[0] != '.' && t[0] != '-' && t[|t| - 1] != '.' && t[|t| - 1] != '-'
  }

  ghost predicate LdhChars(t: string)
  {
    forall i :: 0 <= i < |t| ==> IsLdh(t[i]) || t[i] == '.'
  }

  /** Neither two dots in a row, nor a hyphen on either side of a dot. */
  predicate JointOk(a: char, b: char)
  {
    (a == '.' ==> b != '.' && b != '-') && (b == '.' ==> a != '-')
  }

  ghost predicate JointsOk(t: string)
  {
    forall i :: 0 <= i < |t| - 1 ==> JointOk(t[i], t[i + 1])
  }

  ghost predicate RunsOk(t: string)
  {
    forall i :: 0 <= i <= |t| - 64 ==> DotWithin64(t, i)
  }

  /** The 64 characters from position `i` on hold a dot. */
  ghost predicate DotWithin64(t: string, i: int)
    requires 0 <= i <= |t| - 64
  {
    '.' in t[i..i + 64]
  }

  /**
   * `is_valid_hostname`: False for None and for more than 255 characters (counted
   * before the trailing dot is dropped); `hostname[-1]` raises IndexError on "";
   * otherwise True exactly when the name without its trailing dot is an LdhName.
   */
  function IsValidHostname(hostname: Option<string>): (r: Res<bool>)
    ensures r.Raise? <==> hostname == Some("")
    ensures r.Raise? ==> r.exc == IndexError
    ensures r == Ok(true) <==>
      hostname.Some? && 0 < |hostname.value| <= 255 && LdhName(DropTrailingDot(hostname.value))
  {
    match hostname
    case None => Ok(false)
    case Some(s) =>
      if |s| > 255 then Ok(false)
      else if s == [] then Raise(IndexError)
      else
        LabelsMatchIffLdhName(DropTrailingDot(s));
        Ok(AllLabelsMatch(Split(DropTrailingDot(s), '.')))
  }

  lemma NoDotLdhName(t: string)
    requires '.' !in t
    ensures LdhName(t) <==> LabelMatches(t)
  {
    if |t| >= 64 {
      assert !DotWithin64(t, 0);
    } else if LabelMatches(t) {
      forall i | 0 <= i < |t| - 1 ensures JointOk(t[i], t[i + 1]) {
        assert t[i] in t && t[i + 1] in t;
      }
    }
  }

  /** Peeling the first label off a name. */
  lemma LdhNameCons(l: string, r: string)
    requires '.' !in l
    ensures LdhName(l + "." + r) <==> LabelMatches(l) && LdhName(r)
  {
    if LdhName(l + "." + r) {
      LdhNameHead(l, r);
      LdhNameTail(l, r);
    }
    if LabelMatches(l) && LdhName(r) {
      LdhNameJoin(l, r);
    }
  }

  lemma LdhNameHead(l: string, r: string)
    requires '.' !in l
    requires LdhName(l + "." + r)
    ensures LabelMatches(l)
  {
    var t := l + "." + r;
    var n := |l|;
    assert t[n] == '.';
    forall i | 0 <= i < n ensures IsLdh(l[i]) {
      assert t[i] == l[i];
      assert l[i] in l;
    }
    if n > 0 {
      assert JointOk(t[n - 1], t[n]);
    }
    assert l <= t;
    DotInLongPrefix(t, l);
  }

  /** A dot within the first 64 characters of `t` lies in any prefix of at least 64. */
  lemma DotInLongPrefix(t: string, l: string)
    requires l <= t
    ensures |l| >= 64 && DotWithin64(t, 0) ==> '.' in l
  {
    if |l| >= 64 && DotWithin64(t, 0) {
      var j :| 0 <= j < 64 && t[0..64][j] == '.';
      assert l[j] == t[j];
    }
  }

  lemma LdhNameTail(l: string, r: string)
    requires '.' !in l
    requires LdhName(l + "." + r)
    ensures LdhName(r)
  {
    var t := l + "." + r;
    var n := |l|;
    assert t[n] == '.';
    assert r != [];
    assert JointOk(t[n], t[n + 1]);
    assert r[0] == t[n + 1];
    assert r[|r| - 1] == t[|t| - 1];
    forall i | 0 <= i < |r| ensures IsLdh(r[i]) || r[i] == '.' {
      assert r[i] == t[n + 1 + i];
    }
    forall i | 0 <= i < |r| - 1 ensures JointOk(r[i], r[i + 1]) {
      assert JointOk(t[n + 1 + i], t[n + 1 + i + 1]);
    }
    forall i | 0 <= i <= |r| - 64 ensures DotWithin64(r, i) {
      assert DotWithin64(t, n + 1 + i);
      assert r[i..i + 64] == t[n + 1 + i..n + 1 + i + 64];
    }
  }

  lemma LdhNameJoin(l: string, r: string)
    requires '.' !in l
    requires LabelMatches(l) && LdhName(r)
    ensures LdhName(l + "." + r)
  {
    var t := l + "." + r;
    var n := |l|;
    assert t[n] == '.';
    assert t[0] == l[0];
    assert t[|t| - 1] == r[|r| - 1];
    forall i | 0 <= i < |t| ensures IsLdh(t[i]) || t[i] == '.' {
      if i < n {
        assert t[i] == l[i];
      } else if i > n {
        assert t[i] == r[i - n - 1];
      }
    }
    forall i | 0 <= i < |t| - 1 ensures JointOk(t[i], t[i + 1]) {
      if i < n - 1 {
        assert t[i] == l[i] && t[i + 1] == l[i + 1];
        assert l[i] in l && l[i + 1] in l;
      } else if i == n - 1 {
        assert t[i] == l[n - 1];
      } else if i == n {
        assert t[i + 1] == r[0];
      } else {
        assert t[i] == r[i - n - 1] && t[i + 1] == r[i - n];
        assert JointOk(r[i - n - 1], r[i - n - 1 + 1]);
      }
    }
    forall i | 0 <= i <= |t| - 64 ensures DotWithin64(t, i) {
      if i <= n {
        assert t[i..i + 64][n - i] == '.';
      } else {
        assert DotWithin64(r, i - n - 1);
        assert t[i..i + 64] == r[i - n - 1..i - n - 1 + 64];
      }
    }
  }

  lemma AllLabelsMatchCons(l: string, rest: seq<string>)
    ensures AllLabelsMatch([l] + rest) <==> LabelMatches(l) && AllLabelsMatch(rest)
  {
    var ps := [l] + rest;
    assert forall k :: 1 <= k < |ps| ==> ps[k] == rest[k - 1];
    if LabelMatches(l) && AllLabelsMatch(rest) {
      forall k | 0 <= k < |ps| ensures LabelMatches(ps[k]) {
        if k > 0 { assert ps[k] == rest[k - 1]; }
      }
    }
    if AllLabelsMatch(ps) {
      assert ps[0] == l;
      forall k | 0 <= k < |rest| ensures LabelMatches(rest[k]) {
        assert ps[k + 1] == rest[k];
      }
    }
  }

  /** Every dot-separated label matches the pattern exactly when the name is an LdhName. */
  lemma {:induction false} LabelsMatchIffLdhName(t: string)
    ensures AllLabelsMatch(Split(t, '.')) <==> LdhName(t)
    decreases |t|
  {
    var i := Find(t, '.');
    if i == -1 {
      NoDotLdhName(t);
      assert Split(t, '.') == [t] + [];
      AllLabelsMatchCons(t, []);
    } else {
      var l, r := t[..i], t[i + 1..];
      assert t == l + "." + r;
      LdhNameCons(l, r);
      LabelsMatchIffLdhName(r);
      assert Split(t, '.') == [l] + Split(r, '.');
      AllLabelsMatchCons(l, Split(r, '.'));
    }
  }

  /** Examples: "web-01" passes; "-bad", a 64-character label, "a..b" and None fail. */
  lemma ExampleWeb()
    ensures IsValidHostname(Some("web-01")) == Ok(true)
  {
    var web := "web-01";
    assert EdgesOk(web) && LdhChars(web) && JointsOk(web);
  }

  lemma ExampleCorp()
    ensures IsValidHostname(Some("corp.internal.")) == Ok(true)
  {
    CorpIsLdhName();
    assert DropTrailingDot("corp.internal.") == "corp.internal";
  }

  lemma CorpIsLdhName()
    ensures LdhName("corp.internal")
  {
    var corp := "corp.internal";
    assert EdgesOk(corp) && LdhChars(corp) && JointsOk(corp);
  }

  lemma ExamplesRejected()
    ensures IsValidHostname(Some("-bad")) == Ok(false)
    ensures IsValidHostname(Some("a..b")) == Ok(false)
    ensures IsValidHostname(None) == Ok(false)
    ensures IsValidHostname(Some("")) == Raise(IndexError)
  {
    var dots := "a..b";
    assert !JointOk(dots[1], dots[2]);
  }

  lemma ExampleLongLabel()
    ensures IsValidHostname(Some(seq(64, _ => 'a'))) == Ok(false)
  {
    var long: string := seq(64, _ => 'a');
    assert DropTrailingDot(long) == long;
    assert long[0..64] == long;
    assert forall j :: 0 <= j < 64 ==> long[j] != '.';
    assert !DotWithin64(long, 0);
  }
}
