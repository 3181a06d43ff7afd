/** De-duplication that keeps first occurrences, written the way the build
    hook writes it: `arr.filter((elem, pos, arr) => arr.indexOf(elem) === pos)`. */
module FirstOccurrence {

  /** `Array.prototype.indexOf`: the first position holding `x`, or -1. */
  function IndexOf<T(==)>(s: seq<T>, x: T): (i: int)
    ensures -1 <= i < |s|
    ensures i == -1 <==> x !in s
    ensures 0 <= i ==> s[i] == x && x !in s[..i]
  {
    if |s| == 0 then -1
    else if s[0] == x then 0
    else
      var j := IndexOf(s[1..], x);
      assert s[1..][..if j < 0 then 0 else j] == s[1..if j < 0 then 1 else j + 1];
      if j == -1 then -1 else j + 1
  }

  predicate NoDuplicates<T(==)>(s: seq<T>) {
    forall i, j :: 0 <= i < j < |s| ==> s[i] != s[j]
  }

  /** The filter callback's test: position `pos` holds the first occurrence
      of its element. */
  predicate IsFirst<T(==)>(arr: seq<T>, pos: nat)
    requires pos < |arr|
  {
    IndexOf(arr, arr[pos]) == pos
  }

  /** The filter applied to the positions `0 .. k-1`, in order. */
  function FilterFirst<T(==)>(arr: seq<T>, k: nat): seq<T>
    requires k <= |arr|
  {
    if k == 0 then []
    else FilterFirst(arr, k - 1) + (if IsFirst(arr, k - 1) then [arr[k - 1]] else [])
  }

  /** The whole filter. */
  function Distinct<T(==)>(arr: seq<T>): seq<T> {
    FilterFirst(arr, |arr|)
  }

  /** A position holds a first occurrence exactly when its element does not
      appear earlier. */
  lemma IsFirstIff<T>(arr: seq<T>, pos: nat)
    requires pos < |arr|
    ensures IsFirst(arr, pos) <==> arr[pos] !in arr[..pos]
  {
  }

  /** What the filter keeps from a prefix: each element of the prefix once,
      nothing else, in the order of first occurrence. */
  lemma {:induction false} FilterFirstSpec<T>(arr: seq<T>, k: nat)
    requires k <= |arr|
    ensures NoDuplicates(FilterFirst(arr, k))
    ensures forall x :: x in FilterFirst(arr, k) <==> x in arr[..k]
    ensures forall i :: 0 <= i < |FilterFirst(arr, k)| ==> 0 <= IndexOf(arr, FilterFirst(arr, k)[i]) < k
    ensures forall i, j :: 0 <= i < j < |FilterFirst(arr, k)| ==>
              IndexOf(arr, FilterFirst(arr, k)[i]) < IndexOf(arr, FilterFirst(arr, k)[j])
  {
    if k > 0 {
      FilterFirstSpec(arr, k - 1);
      IsFirstIff(arr, k - 1);
      var prev := FilterFirst(arr, k - 1);
      var r := FilterFirst(arr, k);
      assert arr[..k] == arr[..k - 1] + [arr[k - 1]];
      if IsFirst(arr, k - 1) {
        assert r == prev + [arr[k - 1]];
        assert arr[k - 1] !in prev;
      } else {
        assert r == prev;
      }
    }
  }

  /** The kept elements are exactly the distinct elements of the input. */
  lemma DistinctMembers<T>(arr: seq<T>)
    ensures NoDuplicates(Distinct(arr))
    ensures forall x :: x in Distinct(arr) <==> x in arr
  {
    FilterFirstSpec(arr, |arr|);
    assert arr[..|arr|] == arr;
  }

  /** The kept elements appear in the order of their first occurrence in the
      input. */
  lemma DistinctOrder<T>(arr: seq<T>)
    ensures forall i, j :: 0 <= i < j < |Distinct(arr)| ==>
              IndexOf(arr, Distinct(arr)[i]) < IndexOf(arr, Distinct(arr)[j])
  {
    FilterFirstSpec(arr, |arr|);
  }

  /** An input without repetitions passes through the filter unchanged. */
  lemma {:induction false} DistinctOfDistinct<T>(arr: seq<T>, k: nat)
    requires NoDuplicates(arr) && k <= |arr|
    ensures FilterFirst(arr, k) == arr[..k]
  {
    if k > 0 {
      DistinctOfDistinct(arr, k - 1);
      IsFirstIff(arr, k - 1);
      assert arr[..k] == arr[..k - 1] + [arr[k - 1]];
    }
  }

  /** `r` lists elements of `arr` in strictly increasing order of their
      first position in `arr`. */
  predicate InFirstOccurrenceOrder<T(==)>(arr: seq<T>, r: seq<T>) {
    forall i, j :: 0 <= i < j < |r| ==> IndexOf(arr, r[i]) < IndexOf(arr, r[j])
  }

  /** Of two such listings of the same elements, the heads coincide: each
      is the element whose first position in `arr` is least. */
  lemma SameHead<T>(arr: seq<T>, r1: seq<T>, r2: seq<T>)
    requires |r1| > 0 && |r2| > 0
    requires forall x :: x in r1 ==> x in arr
    requires forall x :: x in r1 <==> x in r2
    requires InFirstOccurrenceOrder(arr, r1) && InFirstOccurrenceOrder(arr, r2)
    ensures r1[0] == r2[0]
  {
    var a, b := r1[0], r2[0];
    assert a in r2 && b in r1;
    var ja :| 0 <= ja < |r2| && r2[ja] == a;
    var jb :| 0 <= jb < |r1| && r1[jb] == b;
  }

  /** In such a listing the head does not come back: the tail holds exactly
      the other elements. */
  lemma TailMembers<T>(arr: seq<T>, r: seq<T>)
    requires |r| > 0
    requires forall x :: x in r ==> x in arr
    requires InFirstOccurrenceOrder(arr, r)
    ensures InFirstOccurrenceOrder(arr, r[1..])
    ensures forall x :: x in r[1..] <==> x in r && x != r[0]
  {
  }

  /** Two listings of the same elements of `arr`, both in first-occurrence
      order, are the same listing. */
  lemma {:induction false} FirstOccurrenceOrderUnique<T>(arr: seq<T>, r1: seq<T>, r2: seq<T>)
    requires forall x :: x in r1 ==> x in arr
    requires forall x :: x in r1 <==> x in r2
    requires InFirstOccurrenceOrder(arr, r1) && InFirstOccurrenceOrder(arr, r2)
    ensures r1 == r2
    decreases |r1|
  {
    assert forall i :: 0 <= i < |r2| ==> r2[i] in r1;
    assert forall i :: 0 <= i < |r1| ==> r1[i] in r2;
    if |r1| > 0 && |r2| > 0 {
      SameHead(arr, r1, r2);
      TailMembers(arr, r1);
      TailMembers(arr, r2);
      FirstOccurrenceOrderUnique(arr, r1[1..], r2[1..]);
      assert r1 == [r1[0]] + r1[1..] && r2 == [r2[0]] + r2[1..];
    }
  }

  /** The filter's result is the one and only listing of the distinct
      elements of `arr` in first-occurrence order. */
  lemma DistinctCharacterized<T>(arr: seq<T>, r: seq<T>)
    requires forall x :: x in r <==> x in arr
    requires InFirstOccurrenceOrder(arr, r)
    ensures r == Distinct(arr)
  {
    DistinctMembers(arr);
    DistinctOrder(arr);
    FirstOccurrenceOrderUnique(arr, r, Distinct(arr));
  }

  /** The same de-duplication done with a set of elements already seen: it
      keeps exactly what the `indexOf` filter keeps. */
  method DistinctBySeen<T(==)>(arr: seq<T>) returns (r: seq<T>)
    ensures r == Distinct(arr)
  {
    r := [];
    var seen: set<T> := {};
    var k := 0;
    while k < |arr|
      invariant k <= |arr|
      invariant r == FilterFirst(arr, k)
      invariant seen == set x | x in arr[..k]
    {
      IsFirstIff(arr, k);
      if arr[k] !in seen {
        r := r + [arr[k]];
      }
      assert arr[..k + 1] == arr[..k] + [arr[k]];
      seen := seen + {arr[k]};
      k := k + 1;
    }
    assert arr[..k] == arr;
  }
}
