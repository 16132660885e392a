/** Sequence operations the components share: an optional value, JavaScript's
    `slice(0, end)`, `map(key)`, `filter(x => key(x) === k)` and
    `filter(x => key(x) !== k)`. */
module Lists {

  datatype Option<T> = None | Some(value: T)

  function Min(a: int, b: int): int { if a <= b then a else b }
  function Max(a: int, b: int): int { if a >= b then a else b }

  /** `s.slice(0, end)`: a negative `end` counts back from the end of `s`,
      an `end` past the end stops at the end. */
  function Take<T>(s: seq<T>, end: int): (r: seq<T>)
    ensures |r| <= |s| && r == s[..|r|]
    ensures 0 <= end ==> |r| == Min(end, |s|)
    ensures end < 0 ==> |r| == Max(|s| + end, 0)
  {
    if end < 0 then s[..Max(|s| + end, 0)]
    else if end <= |s| then s[..end]
    else s
  }

  /** `a` is `b` with some elements left out, the rest in their order. */
  predicate IsSubsequence<T(==)>(a: seq<T>, b: seq<T>)
    decreases |b|
  {
    if a == [] then true
    else if b == [] then false
    else (a[0] == b[0] && IsSubsequence(a[1..], b[1..])) || IsSubsequence(a, b[1..])
  }

  /** A prefix is a subsequence. */
  lemma {:induction false} PrefixIsSubsequence<T>(s: seq<T>, n: int)
    requires 0 <= n <= |s|
    ensures IsSubsequence(s[..n], s)
  {
    if n > 0 {
      PrefixIsSubsequence(s[1..], n - 1);
      assert s[..n][1..] == s[1..][..n - 1];
    }
  }

  /** Leaving out elements twice is leaving them out once. */
  lemma {:induction false} SubsequenceTransitive<T>(a: seq<T>, b: seq<T>, c: seq<T>)
    requires IsSubsequence(a, b) && IsSubsequence(b, c)
    ensures IsSubsequence(a, c)
    decreases |c|
  {
    if a != [] {
      if b[0] == c[0] && IsSubsequence(b[1..], c[1..]) {
        if a[0] == b[0] && IsSubsequence(a[1..], b[1..]) {
          SubsequenceTransitive(a[1..], b[1..], c[1..]);
        } else {
          SubsequenceTransitive(a, b[1..], c[1..]);
        }
      } else {
        SubsequenceTransitive(a, b, c[1..]);
      }
    }
  }

  /** Number of elements of `s` whose key is `k`. */
  function CountKey<T, K(==)>(s: seq<T>, key: T -> K, k: K): (n: nat)
    ensures n <= |s|
    ensures n == 0 <==> forall i :: 0 <= i < |s| ==> key(s[i]) != k
  {
    if s == [] then 0
    else (if key(s[0]) == k then 1 else 0) + CountKey(s[1..], key, k)
  }

  /** `s.filter(x => key(x) !== k)`: every element whose key is `k` goes,
      every other element stays. */
  function RemoveKey<T, K(==)>(s: seq<T>, key: T -> K, k: K): (r: seq<T>)
    ensures |r| <= |s|
    ensures forall i :: 0 <= i < |r| ==> key(r[i]) != k
    ensures forall x :: x in s && key(x) != k ==> x in r
    ensures forall x :: x in r ==> x in s
  {
    if s == [] then []
    else if key(s[0]) == k then RemoveKey(s[1..], key, k)
    else [s[0]] + RemoveKey(s[1..], key, k)
  }

  /** Removal keeps the survivors in their original order. */
  lemma {:induction false} RemoveKeyIsSubsequence<T, K>(s: seq<T>, key: T -> K, k: K)
    ensures IsSubsequence(RemoveKey(s, key, k), s)
  {
    if s != [] {
      RemoveKeyIsSubsequence(s[1..], key, k);
      var r := RemoveKey(s, key, k);
      if key(s[0]) == k {
        SubsequenceOfTail(r, s);
      } else {
        assert r[0] == s[0] && r[1..] == RemoveKey(s[1..], key, k);
      }
    }
  }

  lemma {:induction false} SubsequenceOfTail<T>(a: seq<T>, b: seq<T>)
    requires b != [] && IsSubsequence(a, b[1..])
    ensures IsSubsequence(a, b)
  {
  }

  /** Exactly the elements with key `k` are removed: the survivors and the
      removed ones add up to the whole. */
  lemma {:induction false} RemoveKeyCount<T, K>(s: seq<T>, key: T -> K, k: K)
    ensures |RemoveKey(s, key, k)| + CountKey(s, key, k) == |s|
  {
    if s != [] { RemoveKeyCount(s[1..], key, k); }
  }

  /** Removing a key no element has changes nothing. */
  lemma {:induction false} RemoveKeyAbsent<T, K>(s: seq<T>, key: T -> K, k: K)
    requires forall i :: 0 <= i < |s| ==> key(s[i]) != k
    ensures RemoveKey(s, key, k) == s
  {
    if s != [] {
      assert key(s[0]) != k;
      RemoveKeyAbsent(s[1..], key, k);
    }
  }

  /** Removing the same key twice is removing it once. */
  lemma RemoveKeyIdempotent<T, K>(s: seq<T>, key: T -> K, k: K)
    ensures RemoveKey(RemoveKey(s, key, k), key, k) == RemoveKey(s, key, k)
  {
    RemoveKeyAbsent(RemoveKey(s, key, k), key, k);
  }

  /** Removal distributes over appending one element at the end. */
  lemma {:induction false} RemoveKeyAppend<T, K>(s: seq<T>, x: T, key: T -> K, k: K)
    ensures RemoveKey(s + [x], key, k) ==
            RemoveKey(s, key, k) + (if key(x) == k then [] else [x])
  {
    if s == [] {
      assert s + [x] == [x];
    } else {
      assert (s + [x])[1..] == s[1..] + [x];
      RemoveKeyAppend(s[1..], x, key, k);
    }
  }

  /** `s.map(key)`: the key of every element, in order. */
  function Keys<T, K>(s: seq<T>, key: T -> K): (ks: seq<K>)
    ensures |ks| == |s| && forall i :: 0 <= i < |s| ==> ks[i] == key(s[i])
  {
    seq(|s|, i requires 0 <= i < |s| => key(s[i]))
  }

  /** `s.filter(x => key(x) === k)`. */
  function KeepKey<T, K(==)>(s: seq<T>, key: T -> K, k: K): (r: seq<T>)
    ensures |r| <= |s|
  {
    if s == [] then []
    else if key(s[0]) == k then [s[0]] + KeepKey(s[1..], key, k)
    else KeepKey(s[1..], key, k)
  }

  /** The filter keeps exactly the elements whose key is `k`, in their
      order. */
  lemma {:induction false} KeepKeyMembers<T, K>(s: seq<T>, key: T -> K, k: K)
    ensures forall x :: x in KeepKey(s, key, k) <==> x in s && key(x) == k
    ensures IsSubsequence(KeepKey(s, key, k), s)
  {
    if s != [] {
      KeepKeyMembers(s[1..], key, k);
      assert s == [s[0]] + s[1..];
      var r := KeepKey(s, key, k);
      if key(s[0]) == k {
        assert r[0] == s[0] && r[1..] == KeepKey(s[1..], key, k);
      } else {
        SubsequenceOfTail(r, s);
      }
    }
  }

  /** One step of the filter, from position `i`. */
  lemma KeepKeyStep<T, K>(s: seq<T>, key: T -> K, k: K, i: nat)
    requires i < |s|
    ensures KeepKey(s[i..], key, k) ==
            (if key(s[i]) == k then [s[i]] else []) + KeepKey(s[i + 1..], key, k)
  {
    assert s[i..][1..] == s[i + 1..];
  }

  /** No element of `s` occurs twice. */
  predicate NoDuplicates<T(==)>(s: seq<T>) {
    forall i, j :: 0 <= i < j < |s| ==> s[i] != s[j]
  }

  /** A sequence has no repeats exactly when no element has multiplicity
      above one. */
  lemma {:induction false} NoDuplicatesIffSingleCounts<T>(s: seq<T>)
    ensures NoDuplicates(s) <==> (forall x :: multiset(s)[x] <= 1)
  {
    if s != [] {
      var t := s[1..];
      NoDuplicatesIffSingleCounts(t);
      assert s == [s[0]] + t;
      assert multiset(s) == multiset{s[0]} + multiset(t);
      if NoDuplicates(s) {
        assert NoDuplicates(t) by {
          forall i, j | 0 <= i < j < |t| ensures t[i] != t[j] {
            assert t[i] == s[i + 1] && t[j] == s[j + 1];
          }
        }
        assert s[0] !in t by {
          forall i | 0 <= i < |t| ensures t[i] != s[0] {
            assert t[i] == s[i + 1];
          }
        }
      } else {
        var i, j :| 0 <= i < j < |s| && s[i] == s[j];
        if i == 0 {
          assert s[j] == t[j - 1];
          assert multiset(s)[s[0]] >= 2;
        } else {
          assert t[i - 1] == s[i] && t[j - 1] == s[j];
          assert !NoDuplicates(t);
          var x :| multiset(t)[x] > 1;
          assert multiset(s)[x] > 1;
        }
      }
    }
  }

  /** Reordering keeps a sequence free of repeats. */
  lemma PermutationKeepsNoDuplicates<T>(a: seq<T>, b: seq<T>)
    requires multiset(a) == multiset(b) && NoDuplicates(a)
    ensures NoDuplicates(b)
  {
    NoDuplicatesIffSingleCounts(a);
    NoDuplicatesIffSingleCounts(b);
  }
}
