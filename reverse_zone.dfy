/**
 * The reverse-lookup arithmetic of the handler: `reverse_list`, which turns a dotted
 * address or prefix into the octet-reversed labels of an `in-addr.arpa` name
 * (section 3.5 of RFC 1035), and `get_reversed_domain_prefix`, which picks the
 * classful prefix (/24, /16 or /8) whose reverse zone holds an instance's PTR record.
 */
module ReverseZone {
  import opened Wrappers
  import opened Strings

  /**
   * The guard of `reverse_list`, its dots read as literal dots: some digit is
   * directly followed by a dot.  Each of its four alternatives demands this, and
   * the last one, `\d{1,3}\.`, demands nothing more.
   */
  predicate HasDottedDigit(s: string)
  {
    exists i :: 0 <= i < |s| - 1 && DigitDotAt(s, i)
  }

  predicate DigitDotAt(s: string, i: int)
  {
    0 <= i < |s| - 1 && IsDigit(s[i]) && s[i + 1] == '.'
  }

  /** What `reverse_list(s)` produces: `sys.exit()` when the guard fails. */
  function ReversedLabels(s: string): (r: Res<string>)
    ensures r.Raise? <==> !HasDottedDigit(s)
    ensures r.Raise? ==> r.exc == SystemExit
  {
    if HasDottedDigit(s) then Ok(Dotted(Reverse(NonEmpty(Split(s, '.')))))
    else Raise(SystemExit)
  }

  /** The pieces of the result are the non-empty labels in reverse order, then the empty piece. */
  lemma ReversedPieces(s: string)
    ensures ReversedLabels(s).Ok? ==>
      Split(ReversedLabels(s).value, '.') == Reverse(NonEmpty(Split(s, '.'))) + [""]
  {
    ReversedLabelsDotFree(s);
    SplitDotted(Reverse(NonEmpty(Split(s, '.'))));
  }

  /** Python's `list.reverse()` on an array of labels: swap from both ends inwards. */
  method ReverseInPlace(a: array<string>)
    modifies a
    ensures a[..] == Reverse(old(a[..]))
  {
    ghost var orig := a[..];
    var n := a.Length;
    var lo, hi := 0, n - 1;
    while lo < hi
      invariant 0 <= lo <= hi + 1 <= n && lo + hi == n - 1
      invariant forall k :: 0 <= k < lo ==> a[k] == orig[n - 1 - k]
      invariant forall k :: hi < k < n ==> a[k] == orig[n - 1 - k]
      invariant forall k :: lo <= k <= hi ==> a[k] == orig[k]
    {
      a[lo], a[hi] := a[hi], a[lo];
      lo, hi := lo + 1, hi - 1;
    }
    forall k | 0 <= k < n
      ensures a[k] == Reverse(orig)[k]
    {
      ReverseAt(orig, k);
    }
  }

  /**
   * `reverse_list`: split on dots, drop the empty pieces, reverse the list in place,
   * then append each label and a dot to an accumulator.
   */
  method ReverseList(s: string) returns (r: Res<string>)
    ensures r == ReversedLabels(s)
  {
    if !HasDottedDigit(s) {
      return Raise(SystemExit);
    }
    var parts := NonEmpty(Split(s, '.'));
    var a := new string[|parts|](k requires 0 <= k < |parts| => parts[k]);
    assert a[..] == parts;
    ReverseInPlace(a);
    var acc := "";
    for k := 0 to a.Length
      invariant a[..] == Reverse(parts)
      invariant acc == Dotted(a[..k])
    {
      DottedAppend(a[..k], [a[k]]);
      assert a[..k + 1] == a[..k] + [a[k]];
      acc := acc + a[k] + ".";
    }
    assert a[..a.Length] == Reverse(parts);
    return Ok(acc);
  }

  /** One to three decimal digits. */
  predicate IsOctet(t: string)
  {
    1 <= |t| <= 3 && forall i :: 0 <= i < |t| ==> IsDigit(t[i])
  }

  /** A well-formed dotted IPv4 address such as "10.0.1.55". */
  predicate IsDottedQuad(ip: string)
  {
    var p := Split(ip, '.');
    |p| == 4 && forall k :: 0 <= k < 4 ==> IsOctet(p[k])
  }

  /** How many leading octets name the reverse zone for a subnet mask length. */
  function OctetCount(mask: int): (k: nat)
    ensures 1 <= k <= 3
  {
    if 24 <= mask <= 32 then 3 else if 16 <= mask < 24 then 2 else 1
  }

  /**
   * `get_reversed_domain_prefix`: the leading octets of the address, each followed
   * by a dot -- three for /24 to /32, two for /16 to /23, one otherwise.
   */
  function GetReversedDomainPrefix(mask: int, ip: string): (r: string)
    requires IsDottedQuad(ip)
    ensures r <= ip
    ensures |r| > 0 && r[|r| - 1] == '.'
  {
    var k := OctetCount(mask);
    DottedPrefixOfSplit(ip, k);
    DottedEndsInDot(Split(ip, '.')[..k]);
    Dotted(Split(ip, '.')[..k])
  }

  /** The pieces of the prefix are the leading octets and the empty piece after the last dot. */
  lemma PrefixPieces(mask: int, ip: string)
    requires IsDottedQuad(ip)
    ensures Split(GetReversedDomainPrefix(mask, ip), '.') == Split(ip, '.')[..OctetCount(mask)] + [""]
  {
    DottedPrefixOfSplit(ip, OctetCount(mask));
  }

  /** A dotted list holding a label that ends in a digit passes the guard. */
  lemma {:induction false} DottedDigitLabel(labels: seq<string>, l: string)
    requires l in labels && l != "" && IsDigit(l[|l| - 1])
    ensures HasDottedDigit(Dotted(labels))
  {
    var d := Dotted(labels);
    assert d == labels[0] + "." + Dotted(labels[1..]);
    if labels[0] == l {
      assert d[|l| - 1] == l[|l| - 1] && d[|l|] == '.';
      assert DigitDotAt(d, |l| - 1);
    } else {
      DottedDigitLabel(labels[1..], l);
      var tail := Dotted(labels[1..]);
      var j :| 0 <= j < |tail| - 1 && DigitDotAt(tail, j);
      var off := |labels[0]| + 1;
      assert d[off + j] == tail[j] && d[off + j + 1] == '.';
      assert DigitDotAt(d, off + j);
    }
  }

  lemma DigitDotShift(s: string, i: int, j: int)
    requires DigitDotAt(s, j) && 0 <= i < j
    ensures DigitDotAt(s[i + 1..], j - i - 1)
  {
    assert s[i + 1..][j - i - 1] == s[j];
  }

  lemma NoDotAt(x: string, m: int)
    requires '.' !in x
    ensures 0 <= m < |x| ==> x[m] != '.'
  {
    if 0 <= m < |x| {
      assert x[m] in x;
    }
  }

  /** In a join of dot-free pieces, a digit followed by a dot ends a non-empty piece. */
  lemma {:induction false} DigitDotInJoin(ps: seq<string>, j: int) returns (k: int)
    requires |ps| >= 1 && forall m :: 0 <= m < |ps| ==> '.' !in ps[m]
    requires DigitDotAt(Join(ps, '.'), j)
    ensures 0 <= k < |ps| && ps[k] != "" && IsDigit(ps[k][|ps[k]| - 1])
  {
    var t := Join(ps, '.');
    var x := ps[0];
    NoDotAt(x, j + 1);
    assert |ps| > 1;
    var rest := Join(ps[1..], '.');
    assert t == x + "." + rest;
    assert j + 1 >= |x|;
    if j + 1 == |x| {
      k := 0;
      assert x[|x| - 1] == t[j];
    } else {
      assert t[|x|] == '.';
      DigitDotShift(t, |x|, j);
      assert t[|x| + 1..] == rest;
      var k' := DigitDotInJoin(ps[1..], j - |x| - 1);
      assert ps[1..][k'] == ps[k' + 1];
      k := k' + 1;
    }
  }

  /** A digit followed by a dot ends a non-empty piece of the split. */
  lemma LabelBeforeDot(s: string, j: int) returns (l: string)
    requires DigitDotAt(s, j)
    ensures l in Split(s, '.') && l != "" && IsDigit(l[|l| - 1])
  {
    var ps := Split(s, '.');
    JoinSplit(s, '.');
    SplitFree(s, '.');
    var k := DigitDotInJoin(ps, j);
    l := ps[k];
  }



  lemma ReversedLabelsDotFree(s: string)
    ensures forall k :: 0 <= k < |Reverse(NonEmpty(Split(s, '.')))| ==>
      '.' !in Reverse(NonEmpty(Split(s, '.')))[k] && Reverse(NonEmpty(Split(s, '.')))[k] != ""
  {
    var ps := Split(s, '.');
    SplitFree(s, '.');
    var ls := Reverse(NonEmpty(ps));
    forall k | 0 <= k < |ls| ensures '.' !in ls[k] && ls[k] != "" {
      assert ls[k] in ls;
      assert ls[k] in NonEmpty(ps);
      assert ls[k] in ps;
      var m :| 0 <= m < |ps| && ps[m] == ls[k];
    }
  }

  /** `reverse_list` applied twice gives the original labels, in order, each followed by a dot. */
  lemma ReverseListTwice(s: string)
    requires ReversedLabels(s).Ok?
    ensures ReversedLabels(ReversedLabels(s).value) == Ok(Dotted(NonEmpty(Split(s, '.'))))
  {
    var labels := Reverse(NonEmpty(Split(s, '.')));
    var once := Dotted(labels);
    assert ReversedLabels(s).value == once;
    var j :| DigitDotAt(s, j);
    var l := LabelBeforeDot(s, j);
    assert l in NonEmpty(Split(s, '.'));
    assert l in labels;
    DottedDigitLabel(labels, l);
    ReversedLabelsDotFree(s);
    SplitDotted(labels);
    NonEmptyAppend(labels, [""]);
    assert NonEmpty([""]) == [];
    NonEmptyKeeps(labels);
    assert NonEmpty(Split(once, '.')) == labels;
    ReverseReverse(NonEmpty(Split(s, '.')));
  }

  /**
   * The reverse lookup zone of an instance (union.py:64-69): its classful prefix,
   * octets reversed, under "in-addr.arpa.".
   */
  function ReverseLookupZone(mask: int, ip: string): (r: string)
    requires IsDottedQuad(ip)
    ensures EndsWith(r, "in-addr.arpa.")
    ensures r == Dotted(Reverse(Split(ip, '.')[..OctetCount(mask)])) + "in-addr.arpa."
  {
    var prefix := GetReversedDomainPrefix(mask, ip);
    PrefixReverses(mask, ip);
    ReversedLabels(prefix).value + "in-addr.arpa."
  }

  lemma PrefixReverses(mask: int, ip: string)
    requires IsDottedQuad(ip)
    ensures ReversedLabels(GetReversedDomainPrefix(mask, ip)) ==
      Ok(Dotted(Reverse(Split(ip, '.')[..OctetCount(mask)])))
  {
    var k := OctetCount(mask);
    var q := Split(ip, '.')[..k];
    var prefix := GetReversedDomainPrefix(mask, ip);
    assert prefix == Dotted(q);
    PrefixPieces(mask, ip);
    QuadPieces(ip);
    assert q[0] in q;
    DottedDigitLabel(q, q[0]);
    NonEmptyAppend(q, [""]);
    assert NonEmpty([""]) == [];
    NonEmptyKeeps(q);
    assert NonEmpty(Split(prefix, '.')) == q;
  }

  /** Every piece of a dotted quad is non-empty and ends in a digit. */
  lemma QuadPieces(ip: string)
    requires IsDottedQuad(ip)
    ensures forall k :: 0 <= k < |Split(ip, '.')| ==>
      Split(ip, '.')[k] != "" && IsDigit(Split(ip, '.')[k][|Split(ip, '.')[k]| - 1])
  {
    var p := Split(ip, '.');
    forall k | 0 <= k < |p| ensures p[k] != "" && IsDigit(p[k][|p[k]| - 1]) {
      assert IsOctet(p[k]);
    }
  }

  /** The instance's own PTR name stem: all four octets reversed. */
  lemma ReversedAddress(ip: string)
    requires IsDottedQuad(ip)
    ensures ReversedLabels(ip) == Ok(Dotted(Reverse(Split(ip, '.'))))
  {
    var p := Split(ip, '.');
    QuadPieces(ip);
    assert p[0] in p;
    var l := p[0];
    DottedPrefixOfSplit(ip, 1);
    assert p[..1] == [l];
    assert Dotted([l]) == l + ".";
    assert ip[|l| - 1] == l[|l| - 1] && ip[|l|] == '.';
    assert DigitDotAt(ip, |l| - 1);
    NonEmptyKeeps(p);
  }

  lemma ExampleOctets()
    ensures IsOctet("10") && IsOctet("0") && IsOctet("1") && IsOctet("55")
  {
  }

  lemma ExampleJoin()
    ensures Join(["10", "0", "1", "55"], '.') == "10.0.1.55"
  {
  }

  lemma QuadOfOctets(p: seq<string>)
    requires |p| == 4 && forall k :: 0 <= k < 4 ==> IsOctet(p[k])
    ensures IsDottedQuad(Join(p, '.'))
    ensures Split(Join(p, '.'), '.') == p
  {
    forall k | 0 <= k < 4 ensures '.' !in p[k] {
      assert IsOctet(p[k]);
    }
    SplitJoin(p, '.');
  }


  lemma DottedOne(a: string)
    ensures Dotted([a]) == a + "."
  {
    assert [a][1..] == [];
  }

  lemma DottedCons(a: string, rest: seq<string>)
    ensures Dotted([a] + rest) == a + "." + Dotted(rest)
  {
    assert ([a] + rest)[1..] == rest;
  }

  /** The labels of 10.0.1.55 in both orders. */
  lemma ExampleReverse()
    ensures Reverse(["10", "0", "1", "55"]) == ["55", "1", "0", "10"]
    ensures Reverse(["10", "0", "1"]) == ["1", "0", "10"]
  {
    var p := ["10", "0", "1", "55"];
    assert p[1..] == ["0", "1", "55"] && p[1..][1..] == ["1", "55"] && p[1..][1..][1..] == ["55"];
    assert p[1..][1..][1..][1..] == [];
    var q := ["10", "0", "1"];
    assert q[1..] == ["0", "1"] && q[1..][1..] == ["1"] && q[1..][1..][1..] == [];
  }

  /** An address whose pieces are 10, 0, 1 and 55 is a dotted quad. */
  lemma ExampleQuad(ip: string)
    requires Split(ip, '.') == ["10", "0", "1", "55"]
    ensures IsDottedQuad(ip)
  {
    ExampleOctets();
  }

  /** The prefixes of the address 10.0.1.55 for masks 24, 16 and 8. */
  lemma ExamplePrefix24(ip: string)
    requires Split(ip, '.') == ["10", "0", "1", "55"]
    ensures IsDottedQuad(ip) && GetReversedDomainPrefix(24, ip) == "10.0.1."
  {
    ExampleQuad(ip);
    assert ["10", "0", "1", "55"][..3] == ["10"] + (["0"] + ["1"]);
    DottedOne("1");
    DottedCons("0", ["1"]);
    DottedCons("10", ["0"] + ["1"]);
  }

  lemma ExamplePrefix16(ip: string)
    requires Split(ip, '.') == ["10", "0", "1", "55"]
    ensures IsDottedQuad(ip) && GetReversedDomainPrefix(16, ip) == "10.0."
  {
    ExampleQuad(ip);
    assert ["10", "0", "1", "55"][..2] == ["10"] + ["0"];
    DottedOne("0");
    DottedCons("10", ["0"]);
  }

  lemma ExamplePrefix8(ip: string)
    requires Split(ip, '.') == ["10", "0", "1", "55"]
    ensures IsDottedQuad(ip) && GetReversedDomainPrefix(8, ip) == "10."
  {
    ExampleQuad(ip);
    assert ["10", "0", "1", "55"][..1] == ["10"];
    DottedOne("10");
  }

  lemma ExampleDottedReversed()
    ensures Dotted(["55", "1", "0", "10"]) == "55.1.0.10."
    ensures Dotted(["1", "0", "10"]) == "1.0.10."
  {
    assert ["55", "1", "0", "10"] == ["55"] + (["1"] + (["0"] + ["10"]));
    assert ["1", "0", "10"] == ["1"] + (["0"] + ["10"]);
    DottedOne("10");
    DottedCons("0", ["10"]);
    DottedCons("1", ["0"] + ["10"]);
    DottedCons("55", ["1"] + (["0"] + ["10"]));
  }

  /** The PTR stem of the address 10.0.1.55. */
  lemma ExampleReversedAddress(ip: string)
    requires Split(ip, '.') == ["10", "0", "1", "55"]
    ensures ReversedLabels(ip) == Ok("55.1.0.10.")
  {
    ExampleQuad(ip);
    ReversedAddress(ip);
    ExampleReverse();
    assert Reverse(Split(ip, '.')) == ["55", "1", "0", "10"];
    ExampleDottedReversed();
  }

  /** The /24 reverse lookup zone of the address 10.0.1.55. */
  lemma ExampleZone24(ip: string)
    requires Split(ip, '.') == ["10", "0", "1", "55"]
    ensures IsDottedQuad(ip) && ReverseLookupZone(24, ip) == "1.0.10." + "in-addr.arpa."
  {
    ExampleQuad(ip);
    PrefixReverses(24, ip);
    assert Split(ip, '.')[..OctetCount(24)] == ["10", "0", "1"];
    ExampleReverse();
    assert Reverse(Split(ip, '.')[..OctetCount(24)]) == ["1", "0", "10"];
    ExampleDottedReversed();
  }

  /** The examples' address is one such address. */
  lemma ExampleAddress()
    ensures Split("10.0.1.55", '.') == ["10", "0", "1", "55"]
  {
    ExampleOctets();
    ExampleJoin();
    QuadOfOctets(["10", "0", "1", "55"]);
  }
}
