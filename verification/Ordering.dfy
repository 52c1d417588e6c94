/** Byte order on strings, and the stable insertion sort the Go sort calls are modelled by. */
module Ordering {

  /** Go's < on strings. */
  predicate Less(a: string, b: string) {
    b != [] && (a == [] || a[0] < b[0] || (a[0] == b[0] && Less(a[1..], b[1..])))
  }

  lemma {:induction false} LessIrreflexive(a: string)
    ensures !Less(a, a)
  {
    if a != [] { LessIrreflexive(a[1..]); }
  }

  lemma {:induction false} LessTransitive(a: string, b: string, c: string)
    requires Less(a, b) && Less(b, c)
    ensures Less(a, c)
  {
    if a != [] && a[0] == b[0] && b[0] == c[0] {
      LessTransitive(a[1..], b[1..], c[1..]);
    }
  }

  lemma {:induction false} LessTotal(a: string, b: string)
    ensures Less(a, b) || a == b || Less(b, a)
  {
    if a != [] && b != [] && a[0] == b[0] {
      LessTotal(a[1..], b[1..]);
      if a[1..] == b[1..] {
        assert a == [a[0]] + a[1..] && b == [b[0]] + b[1..];
      }
    }
  }

  lemma LessAsymmetric(a: string, b: string)
    requires Less(a, b)
    ensures !Less(b, a)
  {
    if Less(b, a) {
      LessTransitive(a, b, a);
      LessIrreflexive(a);
    }
  }

  // ---- sorting by a strict weak order ----

  /** x goes in behind every element it is not smaller than. */
  function Insert<T>(lt: (T, T) -> bool, x: T, s: seq<T>): (r: seq<T>) {
    if s == [] || lt(x, s[0]) then [x] + s else [s[0]] + Insert(lt, x, s[1..])
  }

  /** Stable: equal elements keep their order, because each goes in behind the ones before it. */
  function Sort<T>(lt: (T, T) -> bool, s: seq<T>): (r: seq<T>) {
    if s == [] then [] else Insert(lt, s[|s| - 1], Sort(lt, s[..|s| - 1]))
  }

  ghost predicate StrictOrder<T(!new)>(lt: (T, T) -> bool) {
    && (forall a, b :: lt(a, b) ==> !lt(b, a))
    && (forall a, b, c :: lt(a, b) && lt(b, c) ==> lt(a, c))
    && (forall a, b, c :: !lt(b, a) && !lt(c, b) ==> !lt(c, a))
  }

  ghost predicate Sorted<T(!new)>(lt: (T, T) -> bool, s: seq<T>) {
    forall i, j :: 0 <= i < j < |s| ==> !lt(s[j], s[i])
  }

  lemma {:induction false} InsertHas<T(!new)>(lt: (T, T) -> bool, x: T, s: seq<T>)
    ensures forall y :: y in Insert(lt, x, s) <==> y == x || y in s
  {
    if s != [] && !lt(x, s[0]) {
      assert s == [s[0]] + s[1..];
      InsertHas(lt, x, s[1..]);
    }
  }

  lemma {:induction false} InsertKeeps<T(!new)>(lt: (T, T) -> bool, x: T, s: seq<T>)
    requires StrictOrder(lt) && Sorted(lt, s)
    ensures Sorted(lt, Insert(lt, x, s))
    ensures multiset(Insert(lt, x, s)) == multiset(s) + multiset{x}
    ensures |Insert(lt, x, s)| == |s| + 1
  {
    if s == [] {
    } else if lt(x, s[0]) {
    } else {
      InsertKeeps(lt, x, s[1..]);
      var rest := Insert(lt, x, s[1..]);
      assert s == [s[0]] + s[1..];
      InsertHas(lt, x, s[1..]);
      forall j | 0 <= j < |rest| ensures !lt(rest[j], s[0]) {
        assert rest[j] in rest;
        assert rest[j] == x || rest[j] in s[1..];
      }
    }
  }

  lemma {:induction false} SortSorts<T(!new)>(lt: (T, T) -> bool, s: seq<T>)
    requires StrictOrder(lt)
    ensures Sorted(lt, Sort(lt, s)) && multiset(Sort(lt, s)) == multiset(s) && |Sort(lt, s)| == |s|
  {
    if s != [] {
      SortSorts(lt, s[..|s| - 1]);
      InsertKeeps(lt, s[|s| - 1], Sort(lt, s[..|s| - 1]));
      assert s == s[..|s| - 1] + [s[|s| - 1]];
    }
  }

  /** A reordering of n positions: each is used once. */
  predicate Reordering(order: seq<nat>, n: nat) {
    && |order| == n && (forall i :: 0 <= i < n ==> order[i] < n)
    && forall i, j :: 0 <= i < j < n ==> order[i] != order[j]
  }

  lemma {:induction false} InsertPosition<T(!new)>(lt: (T, T) -> bool, x: T, s: seq<T>) returns (k: nat)
    ensures k <= |s| && Insert(lt, x, s) == s[..k] + [x] + s[k..]
    ensures (forall i :: 0 <= i < k ==> !lt(x, s[i])) && (k < |s| ==> lt(x, s[k]))
  {
    if s == [] || lt(x, s[0]) {
      k := 0;
    } else {
      k := InsertPosition(lt, x, s[1..]);
      k := k + 1;
      assert s == [s[0]] + s[1..] && s[1..][..k - 1] == s[1..k] && s[1..][k - 1..] == s[k..];
      forall i | 0 <= i < k ensures !lt(x, s[i]) { if i > 0 { assert s[i] == s[1..][i - 1]; } }
    }
  }

  /**
   * sorted is s in the given order: none smaller than the one before it, and of two neither of which is
   * smaller the earlier one first.
   */
  ghost predicate SortedAs<T(!new)>(lt: (T, T) -> bool, s: seq<T>, sorted: seq<T>, order: seq<nat>) {
    && Reordering(order, |s|) && |sorted| == |s|
    && (forall i :: 0 <= i < |s| ==> sorted[i] == s[order[i]])
    && forall i, j :: 0 <= i < j < |s| ==>
         lt(sorted[i], sorted[j]) || (!lt(sorted[j], sorted[i]) && order[i] < order[j])
  }

  lemma InsertReorders(order: seq<nat>, n: nat, k: nat)
    requires Reordering(order, n) && k <= n
    ensures Reordering(order[..k] + [n] + order[k..], n + 1)
  {
    var all := order[..k] + [n] + order[k..];
    forall i | 0 <= i < n + 1 ensures all[i] == if i < k then order[i] else if i == k then n else order[i - 1] {}
  }

  lemma Under<T(!new)>(lt: (T, T) -> bool, x: T, y: T, z: T)
    requires StrictOrder(lt) && lt(x, y) && (lt(y, z) || !lt(z, y))
    ensures lt(x, z)
  {
  }

  lemma InsertSortsAs<T(!new)>(lt: (T, T) -> bool, s: seq<T>, sorted: seq<T>, order: seq<nat>, x: T, k: nat)
    requires StrictOrder(lt) && SortedAs(lt, s, sorted, order) && k <= |s|
    requires (forall i :: 0 <= i < k ==> !lt(x, sorted[i])) && (k < |s| ==> lt(x, sorted[k]))
    ensures SortedAs(lt, s + [x], sorted[..k] + [x] + sorted[k..], order[..k] + [|s|] + order[k..])
  {
    hide StrictOrder;
    var all, pos := sorted[..k] + [x] + sorted[k..], order[..k] + [|s|] + order[k..];
    InsertReorders(order, |s|, k);
    forall i, j | 0 <= i < j < |s| + 1
      ensures lt(all[i], all[j]) || (!lt(all[j], all[i]) && pos[i] < pos[j])
    {
      InsertPair(lt, s, sorted, order, x, k, i, j);
    }
  }

  lemma InsertPair<T(!new)>(lt: (T, T) -> bool, s: seq<T>, sorted: seq<T>, order: seq<nat>, x: T, k: nat, i: nat,
    j: nat)
    requires StrictOrder(lt) && SortedAs(lt, s, sorted, order) && k <= |s| && i < j < |s| + 1
    requires (forall i :: 0 <= i < k ==> !lt(x, sorted[i])) && (k < |s| ==> lt(x, sorted[k]))
    ensures var all, pos := sorted[..k] + [x] + sorted[k..], order[..k] + [|s|] + order[k..];
            lt(all[i], all[j]) || (!lt(all[j], all[i]) && pos[i] < pos[j])
  {
    hide StrictOrder;
    if i == k {
      if j - 1 != k {
        assert lt(sorted[k], sorted[j - 1]) || !lt(sorted[j - 1], sorted[k]);
        Under(lt, x, sorted[k], sorted[j - 1]);
      }
    } else if j != k {
      var i', j' := if i < k then i else i - 1, if j < k then j else j - 1;
      assert lt(sorted[i'], sorted[j']) || (!lt(sorted[j'], sorted[i']) && order[i'] < order[j']);
    }
  }

  /** Which element of s each element of the sort is. */
  lemma {:induction false} SortReorders<T(!new)>(lt: (T, T) -> bool, s: seq<T>) returns (order: seq<nat>)
    requires StrictOrder(lt)
    ensures SortedAs(lt, s, Sort(lt, s), order)
  {
    if s == [] {
      order := [];
    } else {
      var n := |s| - 1;
      var before := SortReorders(lt, s[..n]);
      var k := InsertPosition(lt, s[n], Sort(lt, s[..n]));
      order := before[..k] + [n] + before[k..];
      InsertSortsAs(lt, s[..n], Sort(lt, s[..n]), before, s[n], k);
      assert s == s[..n] + [s[n]];
    }
  }

  /** Membership survives a sort. */
  lemma SortHas<T(!new)>(lt: (T, T) -> bool, s: seq<T>, x: T)
    requires StrictOrder(lt)
    ensures x in Sort(lt, s) <==> x in s
  {
    SortSorts(lt, s);
    assert x in multiset(s) <==> x in s;
    assert x in multiset(Sort(lt, s)) <==> x in Sort(lt, s);
  }

  lemma StringOrder()
    ensures StrictOrder(Less)
  {
    forall a, b | Less(a, b) ensures !Less(b, a) { LessAsymmetric(a, b); }
    forall a, b, c | Less(a, b) && Less(b, c) ensures Less(a, c) { LessTransitive(a, b, c); }
    forall a, b, c | !Less(b, a) && !Less(c, b) ensures !Less(c, a) {
      LessTotal(a, b);
      LessTotal(b, c);
      if Less(a, b) && Less(b, c) { LessTransitive(a, b, c); LessAsymmetric(a, c); }
      if Less(c, a) { LessAsymmetric(c, a); }
    }
  }
}
