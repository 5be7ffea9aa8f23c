/**
 * Read-only scans over a vector: `index_of_max` (built on std::max_element and
 * std::distance), `all_equal` (built on std::adjacent_find with
 * std::not_equal_to) and the three-iterator std::mismatch used by the demo.
 *
 * A vector is a `seq`, and an iterator into it is the offset from `begin()`,
 * so `end()` is `|v|` and std::distance(begin, it) is the offset itself.
 */
module Algorithm {

  /** The scan of std::max_element after its first element: `largest` is the
      offset of the first largest element seen among v[..i]; the result is the
      offset of the first largest element of the whole vector. */
  function MaxElementFrom(v: seq<int>, largest: nat, i: nat): (k: nat)
    requires largest < i <= |v|
    requires forall j :: 0 <= j < i ==> v[j] <= v[largest]
    requires forall j :: 0 <= j < largest ==> v[j] < v[largest]
    ensures largest <= k < |v|
    ensures forall j :: 0 <= j < |v| ==> v[j] <= v[k]
    ensures forall j :: 0 <= j < k ==> v[j] < v[k]
    decreases |v| - i
  {
    if i == |v| then largest
    else MaxElementFrom(v, if v[largest] < v[i] then i else largest, i + 1)
  }

  /** index_of_max: the offset of the first largest element, and 0 (the
      distance from begin() to end()) on an empty vector. */
  function IndexOfMax(v: seq<int>): (k: nat)
    ensures |v| == 0 ==> k == 0
    ensures |v| > 0 ==> k < |v|
    ensures forall j :: 0 <= j < |v| ==> v[j] <= v[k]
    ensures forall j :: 0 <= j < k ==> v[j] < v[k]
  {
    if |v| == 0 then 0 else MaxElementFrom(v, 0, 1)
  }

  /** The first-largest index is the only index with the two properties, so
      they characterise IndexOfMax completely. */
  lemma IndexOfMaxUnique(v: seq<int>, k: nat)
    requires k < |v|
    requires forall j :: 0 <= j < |v| ==> v[j] <= v[k]
    requires forall j :: 0 <= j < k ==> v[j] < v[k]
    ensures IndexOfMax(v) == k
  {
  }

  lemma IndexOfMaxExample()
    ensures IndexOfMax([0, 2, 3, 1, 13, 5]) == 4
  {
    IndexOfMaxUnique([0, 2, 3, 1, 13, 5], 4);
  }

  /** std::adjacent_find with std::not_equal_to, from offset `first`: the
      first offset k at or after `first` whose element differs from the next
      one, or `|v|` (end()) when there is none. */
  function AdjacentFind<T(==)>(v: seq<T>, first: nat): (k: nat)
    requires first <= |v|
    ensures first <= k <= |v|
    ensures k < |v| ==> k + 1 < |v| && v[k] != v[k + 1]
    ensures forall j :: first <= j < k && j + 1 < |v| ==> v[j] == v[j + 1]
    decreases |v| - first
  {
    if first + 1 >= |v| then |v|
    else if v[first] != v[first + 1] then first
    else AdjacentFind(v, first + 1)
  }

  /** Every adjacent pair is equal, the condition all_equal tests. */
  ghost predicate AdjacentEqual<T>(v: seq<T>)
  {
    forall j :: 0 <= j < |v| - 1 ==> v[j] == v[j + 1]
  }

  /** all_equal: adjacent_find finds no differing pair. */
  function AllEqual<T(==)>(v: seq<T>): (b: bool)
    ensures b <==> AdjacentEqual(v)
  {
    AdjacentFind(v, 0) == |v|
  }

  lemma {:induction false} AdjacentEqualToFirst<T>(v: seq<T>, i: nat)
    requires AdjacentEqual(v)
    requires i < |v|
    ensures v[i] == v[0]
  {
    if i > 0 {
      AdjacentEqualToFirst(v, i - 1);
      assert v[i - 1] == v[i];
    }
  }

  /** all_equal holds exactly when every element equals the first one, and
      so vacuously on vectors shorter than two. */
  lemma AllEqualIffEqualToFirst<T>(v: seq<T>)
    ensures AllEqual(v) <==> forall i :: 0 <= i < |v| ==> v[i] == v[0]
    ensures |v| < 2 ==> AllEqual(v)
  {
    if AllEqual(v) {
      forall i | 0 <= i < |v| ensures v[i] == v[0] {
        AdjacentEqualToFirst(v, i);
      }
    } else {
      var k := AdjacentFind(v, 0);
      assert v[k] != v[k + 1];
    }
  }

  lemma AllEqualExamples()
    ensures !AllEqual([0, 2, 3, 1, 13, 5])
    ensures AllEqual([1, 1, 1])
  {
    var v := [0, 2, 3, 1, 13, 5];
    assert v[0] != v[1];
    AllEqualIffEqualToFirst(v);
    AllEqualIffEqualToFirst([1, 1, 1]);
  }

  /** The loop of the three-iterator std::mismatch from offset `first`: the
      second range must hold at least as many elements as the first. */
  function MismatchFrom<T(==)>(a: seq<T>, b: seq<T>, first: nat): (k: nat)
    requires |a| <= |b|
    requires first <= |a|
    ensures first <= k <= |a|
    ensures forall j :: first <= j < k ==> a[j] == b[j]
    ensures k < |a| ==> a[k] != b[k]
    decreases |a| - first
  {
    if first == |a| || a[first] != b[first] then first
    else MismatchFrom(a, b, first + 1)
  }

  /** std::mismatch(a.begin(), a.end(), b.begin()): the offset of the first
      position where the ranges differ, or |a| when a is a prefix of b. */
  function Mismatch<T(==)>(a: seq<T>, b: seq<T>): (k: nat)
    requires |a| <= |b|
    ensures k <= |a|
    ensures a[..k] == b[..k]
    ensures k < |a| ==> a[k] != b[k]
    ensures k == |a| <==> a == b[..|a|]
  {
    var k := MismatchFrom(a, b, 0);
    assert a[..k] == b[..k] by {
      assert forall j :: 0 <= j < k ==> a[..k][j] == b[..k][j];
    }
    assert k < |a| ==> a[..k + 1] != b[..k + 1] by {
      if k < |a| { assert a[..k + 1][k] != b[..k + 1][k]; }
    }
    k
  }

  /** The demo's pair {0,2,3,1,13,5} / {0,2,3,4,5,6} first differs at
      offset 3, where the elements are 1 and 4. */
  lemma MismatchExample()
    ensures var a, b := [0, 2, 3, 1, 13, 5], [0, 2, 3, 4, 5, 6];
            var k := Mismatch(a, b);
            k == 3 && a[k] == 1 && b[k] == 4
  {
  }
}
