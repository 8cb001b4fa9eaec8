/** Sorting a copy of a list by a comparator, as `[...list].sort(cmp)` does. The
    engine's own algorithm is not visible to the program; what the program relies
    on is that the result is ordered by the comparator and holds the same elements,
    which is what SortBy promises. SortBy inserts each element after every element
    that is not above it, so elements the comparator ties keep their input order,
    as the stable sort of ECMAScript 2019 does; the ghost index map it returns
    records where each output element came from. */
module Sorting {

  /** `le(a, b)` reads "a may come before b": total and transitive. */
  ghost predicate TotalPreorder<T(!new)>(le: (T, T) -> bool) {
    (forall a, b :: le(a, b) || le(b, a)) &&
    (forall a, b, c :: le(a, b) && le(b, c) ==> le(a, c))
  }

  predicate SortedBy<T>(s: seq<T>, le: (T, T) -> bool) {
    forall i, j :: 0 <= i < j < |s| ==> le(s[i], s[j])
  }

  /** In a sorted list, everything from the first element above x on is above x. */
  lemma AboveFrom<T(!new)>(r: seq<T>, x: T, j: nat, le: (T, T) -> bool)
    requires TotalPreorder(le) && SortedBy(r, le)
    requires j < |r| && !le(r[j], x)
    ensures forall k :: j <= k < |r| ==> le(x, r[k])
  {
    forall k | j <= k < |r| ensures le(x, r[k]) {
      if k > j {
        assert le(r[j], r[k]);
      }
    }
  }

  /** Putting x between the elements not above it and the elements above it keeps
      the list sorted. */
  lemma InsertKeepsSorted<T>(r: seq<T>, x: T, j: nat, le: (T, T) -> bool)
    requires SortedBy(r, le) && j <= |r|
    requires forall k :: 0 <= k < j ==> le(r[k], x)
    requires forall k :: j <= k < |r| ==> le(x, r[k])
    ensures SortedBy(r[..j] + [x] + r[j..], le)
  {
    var r' := r[..j] + [x] + r[j..];
    forall a, b | 0 <= a < b < |r'| ensures le(r'[a], r'[b]) {
      if a == j {
        assert r'[b] == r[b - 1];
      } else if b == j {
        assert r'[a] == r[a];
      } else {
        assert r'[a] == r[if a < j then a else a - 1];
        assert r'[b] == r[if b < j then b else b - 1];
      }
    }
  }

  /** `p` maps each position of `r` to a distinct position below `n` of `s`
      holding the same element. */
  ghost predicate IndexMap<T>(r: seq<T>, s: seq<T>, p: seq<nat>, n: nat) {
    |p| == |r| && n <= |s| &&
    (forall k :: 0 <= k < |p| ==> p[k] < n && r[k] == s[p[k]]) &&
    (forall k, l :: 0 <= k < l < |p| ==> p[k] != p[l])
  }

  /** Elements the comparator ties come in the order of their source positions. */
  ghost predicate StableBy<T>(r: seq<T>, p: seq<nat>, le: (T, T) -> bool) {
    |p| == |r| &&
    forall k, l :: 0 <= k < l < |r| && le(r[k], r[l]) && le(r[l], r[k]) ==> p[k] < p[l]
  }

  /** In a sorted list, nothing from the first element above x on is below x. */
  lemma NoneBelowFrom<T(!new)>(r: seq<T>, x: T, j: nat, le: (T, T) -> bool)
    requires TotalPreorder(le) && SortedBy(r, le)
    requires j < |r| && !le(r[j], x)
    ensures forall k :: j <= k < |r| ==> !le(r[k], x)
  {
  }

  /** Where each element of a sequence lands when `x` is inserted at `j`. */
  lemma InsertAt<U>(a: seq<U>, x: U, j: nat)
    requires j <= |a|
    ensures var b := a[..j] + [x] + a[j..];
      |b| == |a| + 1 && b[j] == x &&
      (forall k :: 0 <= k < j ==> b[k] == a[k]) &&
      (forall k :: j < k < |b| ==> b[k] == a[k - 1])
  { }

  /** Inserting s[n] at j extends the index map: every position still holds the
      source element it names, and no two positions name the same one. */
  lemma InsertKeepsIndexMap<T>(r: seq<T>, s: seq<T>, p: seq<nat>, n: nat, j: nat)
    requires n < |s| && j <= |r|
    requires IndexMap(r, s, p, n)
    ensures IndexMap(r[..j] + [s[n]] + r[j..], s, p[..j] + [n] + p[j..], n + 1)
  {
    var r', p' := r[..j] + [s[n]] + r[j..], p[..j] + [n] + p[j..];
    InsertAt(r, s[n], j);
    InsertAt(p, n, j);
    forall k | 0 <= k < |p'| ensures p'[k] < n + 1 && r'[k] == s[p'[k]] {
      if k > j {
        assert r'[k] == r[k - 1] && p'[k] == p[k - 1];
      }
    }
    forall k, l | 0 <= k < l < |p'| ensures p'[k] != p'[l] {
      if k != j && l != j {
        var k0, l0 := if k < j then k else k - 1, if l < j then l else l - 1;
        assert p'[k] == p[k0] && p'[l] == p[l0];
      } else if k == j {
        assert p'[l] == p[l - 1];
      }
    }
  }

  /** Inserting s[n] at j, before every element it is below and after the rest,
      keeps ties in source order. */
  lemma InsertKeepsStable<T>(r: seq<T>, s: seq<T>, p: seq<nat>, n: nat, j: nat, le: (T, T) -> bool)
    requires n < |s| && j <= |r|
    requires IndexMap(r, s, p, n) && StableBy(r, p, le)
    requires forall k :: j <= k < |r| ==> !le(r[k], s[n])
    ensures StableBy(r[..j] + [s[n]] + r[j..], p[..j] + [n] + p[j..], le)
  {
    var r', p' := r[..j] + [s[n]] + r[j..], p[..j] + [n] + p[j..];
    InsertAt(r, s[n], j);
    InsertAt(p, n, j);
    forall k, l | 0 <= k < l < |r'| ensures le(r'[k], r'[l]) && le(r'[l], r'[k]) ==> p'[k] < p'[l] {
      if k == j {
        assert r'[l] == r[l - 1];
        assert !le(r'[l], r'[k]);
      } else if l != j {
        var k0, l0 := if k < j then k else k - 1, if l < j then l else l - 1;
        assert r'[k] == r[k0] && p'[k] == p[k0] && r'[l] == r[l0] && p'[l] == p[l0];
      }
    }
  }

  method SortBy<T(!new)>(s: seq<T>, le: (T, T) -> bool) returns (r: seq<T>, ghost p: seq<nat>)
    requires TotalPreorder(le)
    ensures SortedBy(r, le)
    ensures multiset(r) == multiset(s)
    ensures IndexMap(r, s, p, |s|) && StableBy(r, p, le)
  {
    r, p := [], [];
    var i := 0;
    while i < |s|
      invariant 0 <= i <= |s|
      invariant SortedBy(r, le)
      invariant multiset(r) == multiset(s[..i])
      invariant IndexMap(r, s, p, i) && StableBy(r, p, le)
    {
      var x := s[i];
      var j := 0;
      while j < |r| && le(r[j], x)
        invariant 0 <= j <= |r|
        invariant forall k :: 0 <= k < j ==> le(r[k], x)
      {
        j := j + 1;
      }
      if j < |r| {
        AboveFrom(r, x, j, le);
        NoneBelowFrom(r, x, j, le);
      }
      InsertKeepsSorted(r, x, j, le);
      InsertKeepsIndexMap(r, s, p, i, j);
      InsertKeepsStable(r, s, p, i, j, le);
      assert r == r[..j] + r[j..];
      assert s[..i + 1] == s[..i] + [x];
      r, p := r[..j] + [x] + r[j..], p[..j] + [i] + p[j..];
      i := i + 1;
    }
    assert s[..i] == s;
  }
}
