/**
 * The iteration order of the embedded key-value store: keys come back in
 * byte-wise lexicographic order. For UTF-8 encoded keys that is the order of
 * their code points, which is what `Less` compares.
 */
module KeyOrder {

  /** Strict lexicographic order on keys; a proper prefix sorts first. */
  predicate Less(a: string, b: string)
    decreases |a|
  {
    if |a| == 0 then |b| > 0
    else if |b| == 0 then false
    else if a[0] == b[0] then Less(a[1..], b[1..])
    else a[0] < b[0]
  }

  lemma {:induction false} LessIrreflexive(a: string)
    ensures !Less(a, a)
    decreases |a|
  {
    if |a| > 0 { LessIrreflexive(a[1..]); }
  }

  lemma {:induction false} LessTransitive(a: string, b: string, c: string)
    requires Less(a, b) && Less(b, c)
    ensures Less(a, c)
    decreases |a|
  {
    if |a| > 0 && a[0] == b[0] && b[0] == c[0] {
      LessTransitive(a[1..], b[1..], c[1..]);
    }
  }

  lemma {:induction false} LessTotal(a: string, b: string)
    ensures a == b || Less(a, b) || Less(b, a)
    decreases |a|
  {
    if |a| > 0 && |b| > 0 && a[0] == b[0] {
      LessTotal(a[1..], b[1..]);
      if a[1..] == b[1..] {
        assert a == [a[0]] + a[1..] && b == [b[0]] + b[1..];
      }
    }
  }

  /** Strictly increasing: the shape of a store's key listing. */
  predicate Sorted(ks: seq<string>) {
    forall i, j :: 0 <= i < j < |ks| ==> Less(ks[i], ks[j])
  }

  lemma SortedDistinct(ks: seq<string>, i: int, j: int)
    requires Sorted(ks) && 0 <= i < |ks| && 0 <= j < |ks| && ks[i] == ks[j]
    ensures i == j
  {
    if i < j || j < i { LessIrreflexive(ks[i]); }
  }

  lemma SortedCons(x: string, ks: seq<string>)
    requires Sorted(ks)
    requires forall y :: y in ks ==> Less(x, y)
    ensures Sorted([x] + ks)
  {
    var r := [x] + ks;
    forall i, j | 0 <= i < j < |r| ensures Less(r[i], r[j]) {
      if i > 0 { assert r[i] == ks[i - 1] && r[j] == ks[j - 1]; }
      else { assert r[j] in ks; }
    }
  }

  /** The key listing after writing key `k`: unchanged if `k` is already
      there, otherwise `k` joins at its place in the order. */
  function Insert(ks: seq<string>, k: string): (r: seq<string>)
    requires Sorted(ks)
    ensures Sorted(r)
    ensures forall x :: x in r <==> x in ks || x == k
    ensures k in ks ==> r == ks
    ensures |r| == if k in ks then |ks| else |ks| + 1
    decreases |ks|
  {
    if |ks| == 0 then [k]
    else if k == ks[0] then ks
    else if Less(k, ks[0]) then
      BelowAll(k, ks);
      SortedCons(k, ks);
      [k] + ks
    else
      assert Sorted(ks[1..]);
      var tail := Insert(ks[1..], k);
      AboveAll(ks, k, tail);
      SortedCons(ks[0], tail);
      assert ks == [ks[0]] + ks[1..];
      [ks[0]] + tail
  }

  /** A key before the first of a sorted listing is before all of it. */
  lemma BelowAll(k: string, ks: seq<string>)
    requires Sorted(ks) && |ks| > 0 && Less(k, ks[0])
    ensures forall y :: y in ks ==> Less(k, y)
    ensures k !in ks
  {
    forall y | y in ks ensures Less(k, y) {
      var j :| 0 <= j < |ks| && ks[j] == y;
      if j > 0 { LessTransitive(k, ks[0], y); }
    }
    LessIrreflexive(k);
  }

  /** The first key of a sorted listing is before the rest of it and before
      any key that does not sort ahead of it. */
  lemma AboveAll(ks: seq<string>, k: string, tail: seq<string>)
    requires Sorted(ks) && |ks| > 0 && k != ks[0] && !Less(k, ks[0])
    requires forall x :: x in tail <==> x in ks[1..] || x == k
    ensures forall y :: y in tail ==> Less(ks[0], y)
  {
    LessTotal(k, ks[0]);
    forall y | y in tail ensures Less(ks[0], y) {
      if y != k { var j :| 0 <= j < |ks[1..]| && ks[1..][j] == y; assert ks[j + 1] == y; }
    }
  }

  /** The key listing after deleting key `k`. */
  function Remove(ks: seq<string>, k: string): (r: seq<string>)
    requires Sorted(ks)
    ensures Sorted(r)
    ensures forall x :: x in r <==> x in ks && x != k
    ensures k !in ks ==> r == ks
    ensures |r| == if k in ks then |ks| - 1 else |ks|
    decreases |ks|
  {
    if |ks| == 0 then ks
    else
      assert Sorted(ks[1..]);
      var tail := Remove(ks[1..], k);
      if ks[0] == k then
        assert k !in ks[1..] by { LessIrreflexive(k); }
        tail
      else
        assert forall y :: y in tail ==> Less(ks[0], y);
        SortedCons(ks[0], tail);
        assert ks == [ks[0]] + ks[1..];
        [ks[0]] + tail
  }
}
