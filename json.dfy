/**
 * The JSON-like documents the handler stores in its table, and `remove_empty_from_dict`,
 * which strips every falsy value (None, False, 0, "", [] and {}) below the top level
 * before a document is written, because the table refuses empty values.
 */
module Json {

  /** A Python value as it appears in a boto3 response: only integral numbers are modelled. */
  datatype Value =
    | Null
    | Bool(b: bool)
    | Num(n: int)
    | Str(s: string)
    | List(items: seq<Value>)
    | Dict(d: map<string, Value>)

  /** Python truthiness. */
  predicate Truthy(v: Value)
  {
    match v
    case Null => false
    case Bool(b) => b
    case Num(n) => n != 0
    case Str(s) => s != ""
    case List(items) => items != []
    case Dict(d) => d != map[]
  }

  predicate IsScalar(v: Value)
  {
    !v.List? && !v.Dict?
  }

  /** No falsy value at any depth below the top. */
  predicate Clean(v: Value)
  {
    match v
    case List(items) => forall i :: 0 <= i < |items| ==> Truthy(items[i]) && Clean(items[i])
    case Dict(d) => forall k :: k in d ==> Truthy(d[k]) && Clean(d[k])
    case _ => true
  }

  /** The filter of a list comprehension: keep `pruned[i]` when both it and `orig[i]` are truthy. */
  function Keep(orig: seq<Value>, pruned: seq<Value>): (r: seq<Value>)
    requires |orig| == |pruned|
    ensures |r| <= |orig|
    ensures forall i :: 0 <= i < |r| ==> r[i] in pruned && Truthy(r[i])
    ensures forall j :: 0 <= j < |orig| && Truthy(orig[j]) && Truthy(pruned[j]) ==> pruned[j] in r
  {
    if orig == [] then []
    else if Truthy(orig[0]) && Truthy(pruned[0]) then [pruned[0]] + Keep(orig[1..], pruned[1..])
    else Keep(orig[1..], pruned[1..])
  }

  /** The filter keeps the list order: filtering a concatenation concatenates the filtered parts. */
  lemma {:induction false} KeepAppend(a: seq<Value>, p: seq<Value>, b: seq<Value>, q: seq<Value>)
    requires |a| == |p| && |b| == |q|
    ensures Keep(a + b, p + q) == Keep(a, p) + Keep(b, q)
  {
    if a != [] {
      assert (a + b)[1..] == a[1..] + b;
      assert (p + q)[1..] == p[1..] + q;
      KeepAppend(a[1..], p[1..], b, q);
    } else {
      assert a + b == b && p + q == q;
    }
  }

  /**
   * `remove_empty_from_dict`: a dictionary keeps the entries whose value is truthy both
   * before and after pruning, a list keeps the items that are, and any other value is
   * returned as it is.
   */
  function RemoveEmpty(v: Value): (r: Value)
    ensures Clean(r)
    ensures IsScalar(v) ==> r == v
    ensures v.Dict? ==> r.Dict? && r.d.Keys <= v.d.Keys
    ensures v.List? ==> r.List? && |r.items| <= |v.items|
  {
    match v
    case List(items) =>
      var pruned := seq(|items|, i requires 0 <= i < |items| => RemoveEmpty(items[i]));
      assert forall i :: 0 <= i < |items| ==> Clean(pruned[i]);
      assert forall x :: x in pruned ==> Clean(x);
      List(Keep(items, pruned))
    case Dict(d) =>
      Dict(map k | k in d && Truthy(d[k]) && Truthy(RemoveEmpty(d[k])) :: RemoveEmpty(d[k]))
    case _ => v
  }

  /** Every kept entry holds the pruned form of the original value. */
  lemma KeptEntries(v: Value, k: string)
    requires v.Dict?
    ensures k in RemoveEmpty(v).d <==> k in v.d && Truthy(v.d[k]) && Truthy(RemoveEmpty(v.d[k]))
    ensures k in RemoveEmpty(v).d ==> RemoveEmpty(v).d[k] == RemoveEmpty(v.d[k])
  {
  }

  /** A truthy scalar entry survives pruning unchanged; a falsy one is dropped. */
  lemma ScalarEntries(v: Value, k: string)
    requires v.Dict? && k in v.d && IsScalar(v.d[k])
    ensures Truthy(v.d[k]) ==> k in RemoveEmpty(v).d && RemoveEmpty(v).d[k] == v.d[k]
    ensures !Truthy(v.d[k]) ==> k !in RemoveEmpty(v).d
  {
    KeptEntries(v, k);
  }

  lemma {:induction false} KeepAll(items: seq<Value>)
    requires forall i :: 0 <= i < |items| ==> Truthy(items[i])
    ensures Keep(items, items) == items
  {
    if items != [] {
      KeepAll(items[1..]);
    }
  }

  /** A clean document is left as it is. */
  lemma {:induction false} CleanFixpoint(v: Value)
    requires Clean(v)
    ensures RemoveEmpty(v) == v
  {
    match v
    case List(items) =>
      var pruned := seq(|items|, i requires 0 <= i < |items| => RemoveEmpty(items[i]));
      forall i | 0 <= i < |items| ensures pruned[i] == items[i] {
        CleanFixpoint(items[i]);
      }
      assert pruned == items;
      KeepAll(items);
    case Dict(d) =>
      forall k | k in d ensures RemoveEmpty(d[k]) == d[k] {
        CleanFixpoint(d[k]);
      }
      assert RemoveEmpty(v).d == d;
    case _ =>
  }

  /** Pruning twice is pruning once. */
  lemma Idempotent(v: Value)
    ensures RemoveEmpty(RemoveEmpty(v)) == RemoveEmpty(v)
  {
    CleanFixpoint(RemoveEmpty(v));
  }
}
