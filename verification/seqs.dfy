/** Generic sequence operations over records identified by a string key: the model of
    `Array.prototype.filter` with an id comparison, and of `find` / `findIndex` by key. */
module Seqs {
  import opened Wrappers

  /** `s.filter(x => (key(x) === k) === keep)`: with `keep` the elements whose key is `k`,
      without it the elements whose key is not `k`, in their original order. */
  function FilterByKey<T(!new)>(s: seq<T>, key: T -> string, k: string, keep: bool): (r: seq<T>)
    ensures |r| <= |s|
    ensures forall x :: x in r <==> x in s && (key(x) == k) == keep
    ensures (forall i :: 0 <= i < |s| ==> (key(s[i]) == k) == keep) ==> r == s
  {
    if s == [] then []
    else (if (key(s[0]) == k) == keep then [s[0]] else []) + FilterByKey(s[1..], key, k, keep)
  }

  /** Filtering commutes with concatenation: the survivors keep their relative order. */
  lemma {:induction false} FilterByKeyConcat<T(!new)>(a: seq<T>, b: seq<T>, key: T -> string, k: string, keep: bool)
    ensures FilterByKey(a + b, key, k, keep) == FilterByKey(a, key, k, keep) + FilterByKey(b, key, k, keep)
  {
    if a == [] {
      assert a + b == b;
    } else {
      assert (a + b)[0] == a[0];
      assert (a + b)[1..] == a[1..] + b;
      FilterByKeyConcat(a[1..], b, key, k, keep);
    }
  }

  /** Filtering around one element: the survivors before it, then the element itself exactly when
      it passes, then the survivors after it. By induction on the list this fixes the whole result. */
  lemma FilterByKeySplit<T(!new)>(before: seq<T>, x: T, after: seq<T>, key: T -> string, k: string, keep: bool)
    ensures FilterByKey(before + [x] + after, key, k, keep) ==
      FilterByKey(before, key, k, keep) + (if (key(x) == k) == keep then [x] else []) + FilterByKey(after, key, k, keep)
  {
    assert before + [x] + after == (before + [x]) + after;
    FilterByKeyConcat(before + [x], after, key, k, keep);
    FilterByKeyConcat(before, [x], key, k, keep);
    assert [x][1..] == [];
  }

  /** Filtering twice by the same key is filtering once: a second removal is a no-op. */
  lemma FilterByKeyIdempotent<T(!new)>(s: seq<T>, key: T -> string, k: string, keep: bool)
    ensures FilterByKey(FilterByKey(s, key, k, keep), key, k, keep) == FilterByKey(s, key, k, keep)
  {
  }

  /** `s.findIndex(x => key(x) === k)`: the position of the first element whose key is `k`. */
  function IndexOfKey<T>(s: seq<T>, key: T -> string, k: string): (r: Option<nat>)
    ensures r.Some? ==> r.value < |s| && key(s[r.value]) == k
    ensures r.Some? ==> forall j :: 0 <= j < r.value ==> key(s[j]) != k
    ensures r.None? <==> forall i :: 0 <= i < |s| ==> key(s[i]) != k
  {
    if s == [] then None
    else if key(s[0]) == k then Some(0)
    else match IndexOfKey(s[1..], key, k)
      case None => None
      case Some(i) => Some(i + 1)
  }

  /** `s.find(x => key(x) === k)`: the first element whose key is `k`, if any. */
  function FindByKey<T(!new)>(s: seq<T>, key: T -> string, k: string): (r: Option<T>)
    ensures r.Some? ==> r.value in s && key(r.value) == k
    ensures r.None? <==> forall x :: x in s ==> key(x) != k
    ensures r.Some? ==> IndexOfKey(s, key, k).Some? && r.value == s[IndexOfKey(s, key, k).value]
  {
    match IndexOfKey(s, key, k)
    case None => None
    case Some(i) => Some(s[i])
  }

  /** `f` takes distinct values on distinct positions of `all`. */
  ghost predicate Injective<T, U>(all: seq<T>, f: T -> U) {
    forall i, j :: 0 <= i < |all| && 0 <= j < |all| && f(all[i]) == f(all[j]) ==> i == j
  }

  /** When keys are distinct, finding an element by its own key gives it back. */
  lemma FindOwnKey<T(!new)>(all: seq<T>, key: T -> string, x: T)
    requires x in all
    requires Injective(all, key)
    ensures FindByKey(all, key, key(x)) == Some(x)
  {
    var r := FindByKey(all, key, key(x));
    var i :| 0 <= i < |all| && all[i] == x;
    var k := IndexOfKey(all, key, key(x)).value;
    assert key(all[k]) == key(all[i]);
  }
}
