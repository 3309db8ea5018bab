/** Values that several modules share. */
module Common {

  datatype Option<+T> = None | Some(value: T)

  datatype Result<+T, +E> = Ok(value: T) | Err(error: E)

  // The largest n <= top that satisfies fits, or 0 when none does.
  function LargestFit(fits: nat -> bool, top: nat): (n: nat)
    ensures n <= top
  {
    if top == 0 || fits(top) then top else LargestFit(fits, top - 1)
  }

  lemma {:induction false} LargestFitIsLargest(fits: nat -> bool, top: nat)
    requires fits(0)
    ensures fits(LargestFit(fits, top))
    ensures forall k | LargestFit(fits, top) < k <= top :: !fits(k)
  {
    if top != 0 && !fits(top) {
      LargestFitIsLargest(fits, top - 1);
    }
  }

  // Where growth never restores a fit, the first size that stops fitting fixes the largest fit.
  lemma {:induction false} LargestFitIs(fits: nat -> bool, top: nat, n: nat)
    requires n <= top && fits(n) && (n < top ==> !fits(n + 1))
    requires forall k: nat | k < top && fits(k + 1) :: fits(k)
    ensures LargestFit(fits, top) == n
    ensures forall k | n < k <= top :: !fits(k)
  {
    if n < top {
      LargestFitIs(fits, top - 1, n);
      assert top - 1 > n ==> !fits(top - 1);
    }
  }

  lemma SliceOfSlice<T>(s: seq<T>, lo: nat, n: nat)
    requires lo + n <= |s|
    ensures s[lo..][..n] == s[lo..lo + n] && s[lo..][n..] == s[lo + n..]
  {
  }

  // The last items of s.
  predicate IsSuffix<T(==)>(tail: seq<T>, s: seq<T>) {
    |tail| <= |s| && tail == s[|s| - |tail|..]
  }

  lemma SuffixNext<T>(tail: seq<T>, s: seq<T>)
    requires IsSuffix(tail, s) && tail != []
    ensures IsSuffix(tail[1..], s)
  {
  }

  lemma JoinIsAssociative<T>(a: seq<T>, b: seq<T>, c: seq<T>)
    ensures a + (b + c) == a + b + c
  {
  }

  lemma SliceOfJoin<T>(head: seq<T>, tail: seq<T>, s: nat, e: nat)
    requires s <= e <= |head| + |tail|
    ensures s == 0 && e == |head| ==> (head + tail)[s..e] == head
    ensures |head| <= s ==> (head + tail)[s..e] == tail[s - |head|..e - |head|]
  {
  }

  lemma TakeMore<T>(s: seq<T>, i: nat, j: nat)
    requires i <= j <= |s|
    ensures s[..j] == s[..i] + s[i..j]
  {
  }

  lemma UpdateOfCons<T>(head: T, tail: seq<T>, j: nat, x: T)
    requires j <= |tail|
    ensures ([head] + tail)[j := x] == if j == 0 then [x] + tail else [head] + tail[j - 1 := x]
    ensures ([head] + tail)[j] == if j == 0 then head else tail[j - 1]
  {
  }
}
