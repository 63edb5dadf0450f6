/** Sequence operations shared by the model: the array methods `filter`, `map`, `slice` and `includes` of the source. */
module Seqs {

  function Min(a: int, b: int): int { if a <= b then a else b }

  /** `sub` can be obtained from `s` by deleting elements, the rest keeping their order. */
  predicate IsSubsequence<T(==)>(sub: seq<T>, s: seq<T>)
    decreases |s|
  {
    if sub == [] then true
    else if s == [] then false
    else if sub[0] == s[0] then IsSubsequence(sub[1..], s[1..])
    else IsSubsequence(sub, s[1..])
  }

  lemma {:induction false} SubsequenceRefl<T>(s: seq<T>)
    ensures IsSubsequence(s, s)
    decreases |s|
  {
    if s != [] { SubsequenceRefl(s[1..]); }
  }

  /** Dropping the first element of a subsequence keeps it a subsequence. */
  lemma {:induction false} SubsequenceTail<T>(a: seq<T>, t: seq<T>)
    requires a != [] && IsSubsequence(a, t)
    ensures IsSubsequence(a[1..], t)
    decreases |t|, 1
  {
    if a[0] == t[0] {
      SubsequenceCons(a[1..], t);
    } else {
      SubsequenceTail(a, t[1..]);
      SubsequenceCons(a[1..], t);
    }
  }

  /** A subsequence of the tail is a subsequence of the whole. */
  lemma {:induction false} SubsequenceCons<T>(x: seq<T>, t: seq<T>)
    requires t != [] && IsSubsequence(x, t[1..])
    ensures IsSubsequence(x, t)
    decreases |t|, 0
  {
    if x != [] && x[0] == t[0] {
      SubsequenceTail(x, t[1..]);
    }
  }

  lemma {:induction false} SubsequenceTrans<T>(a: seq<T>, b: seq<T>, c: seq<T>)
    requires IsSubsequence(a, b) && IsSubsequence(b, c)
    ensures IsSubsequence(a, c)
    decreases |c|
  {
    if a == [] {
    } else if b == [] {
    } else if c == [] {
    } else if b[0] == c[0] {
      if a[0] == b[0] {
        SubsequenceTrans(a[1..], b[1..], c[1..]);
      } else {
        SubsequenceTrans(a, b[1..], c[1..]);
        SubsequenceCons(a, c);
      }
    } else {
      SubsequenceTrans(a, b, c[1..]);
      SubsequenceCons(a, c);
    }
  }

  /** `Array.prototype.filter`: the elements of `s` that satisfy `p`, in their original order. */
  function Filter<T(==,!new)>(p: T -> bool, s: seq<T>): (r: seq<T>)
    ensures |r| <= |s|
    ensures forall i :: 0 <= i < |r| ==> p(r[i]) && r[i] in s
    ensures forall i :: 0 <= i < |s| && p(s[i]) ==> s[i] in r
    ensures IsSubsequence(r, s)
    ensures forall x {:trigger multiset(r)[x]} :: multiset(r)[x] == if p(x) then multiset(s)[x] else 0
    decreases |s|
  {
    if s == [] then []
    else
      var rest := Filter(p, s[1..]);
      var r := if p(s[0]) then [s[0]] + rest else rest;
      FilterStepKept(p, s, rest, r);
      FilterStepCovers(p, s, rest, r);
      FilterStepOrder(p, s, rest, r);
      FilterStepCounts(p, s, rest, r);
      r
  }

  // One step of `Filter`: keeping or dropping the head carries each clause of the contract from the tail to `s`.

  lemma FilterStepKept<T>(p: T -> bool, s: seq<T>, rest: seq<T>, r: seq<T>)
    requires s != [] && r == if p(s[0]) then [s[0]] + rest else rest
    requires forall i :: 0 <= i < |rest| ==> p(rest[i]) && rest[i] in s[1..]
    ensures forall i :: 0 <= i < |r| ==> p(r[i]) && r[i] in s
  {
    forall i | 0 <= i < |r| ensures p(r[i]) && r[i] in s {
      if p(s[0]) && i == 0 {
      } else {
        var j := if p(s[0]) then i - 1 else i;
        assert r[i] == rest[j] && rest[j] in s[1..];
      }
    }
  }

  lemma FilterStepCovers<T>(p: T -> bool, s: seq<T>, rest: seq<T>, r: seq<T>)
    requires s != [] && r == if p(s[0]) then [s[0]] + rest else rest
    requires forall i :: 0 <= i < |s[1..]| && p(s[1..][i]) ==> s[1..][i] in rest
    ensures forall i :: 0 <= i < |s| && p(s[i]) ==> s[i] in r
  {
    forall i | 0 <= i < |s| && p(s[i]) ensures s[i] in r {
      if i > 0 {
        assert s[i] == s[1..][i - 1];
      }
    }
  }

  lemma FilterStepOrder<T>(p: T -> bool, s: seq<T>, rest: seq<T>, r: seq<T>)
    requires s != [] && r == if p(s[0]) then [s[0]] + rest else rest
    requires IsSubsequence(rest, s[1..])
    ensures IsSubsequence(r, s)
  {
    if p(s[0]) {
      assert r[1..] == rest;
    } else {
      SubsequenceCons(r, s);
    }
  }

  lemma FilterStepCounts<T(!new)>(p: T -> bool, s: seq<T>, rest: seq<T>, r: seq<T>)
    requires s != [] && r == if p(s[0]) then [s[0]] + rest else rest
    requires forall x {:trigger multiset(rest)[x]} :: multiset(rest)[x] == if p(x) then multiset(s[1..])[x] else 0
    ensures forall x {:trigger multiset(r)[x]} :: multiset(r)[x] == if p(x) then multiset(s)[x] else 0
  {
    assert s == [s[0]] + s[1..];
    forall x ensures multiset(r)[x] == if p(x) then multiset(s)[x] else 0 {
      assert multiset(s)[x] == multiset(s[1..])[x] + (if x == s[0] then 1 else 0);
      if p(s[0]) {
        assert multiset(r)[x] == multiset(rest)[x] + (if x == s[0] then 1 else 0);
      }
    }
  }

  /** A subsequence holds each element at most as often as the whole. */
  lemma {:induction false} SubsequenceMultiset<T>(a: seq<T>, b: seq<T>)
    requires IsSubsequence(a, b)
    ensures multiset(a) <= multiset(b)
    decreases |b|
  {
    if a != [] {
      assert b == [b[0]] + b[1..];
      if a[0] == b[0] {
        assert a == [a[0]] + a[1..];
        SubsequenceMultiset(a[1..], b[1..]);
      } else {
        SubsequenceMultiset(a, b[1..]);
      }
    }
  }

  /**
   * The contract of `Filter` determines its result: the only subsequence of
   * `s` holding each passing element as often as `s` and no failing one is
   * `Filter(p, s)`.
   */
  lemma {:induction false} FilterUnique<T(!new)>(p: T -> bool, s: seq<T>, t: seq<T>)
    requires IsSubsequence(t, s)
    requires forall x :: multiset(t)[x] == if p(x) then multiset(s)[x] else 0
    ensures t == Filter(p, s)
    decreases |s|
  {
    if s != [] {
      var rest := s[1..];
      assert s == [s[0]] + rest;
      if t != [] && t[0] == s[0] {
        var tail := t[1..];
        assert t == [t[0]] + tail;
        assert p(s[0]) by {
          assert multiset(t)[s[0]] > 0;
        }
        forall x ensures multiset(tail)[x] == if p(x) then multiset(rest)[x] else 0 {
          assert multiset(t)[x] == multiset(tail)[x] + (if x == s[0] then 1 else 0);
          assert multiset(s)[x] == multiset(rest)[x] + (if x == s[0] then 1 else 0);
        }
        FilterUnique(p, rest, tail);
      } else {
        // `t` skips `s[0]`, so `s[0]` occurs in `t` fewer times than in `s`: it must fail `p`.
        assert IsSubsequence(t, rest);
        SubsequenceMultiset(t, rest);
        assert multiset(t)[s[0]] <= multiset(rest)[s[0]] < multiset(s)[s[0]];
        assert !p(s[0]);
        forall x ensures multiset(t)[x] == if p(x) then multiset(rest)[x] else 0 {
          assert multiset(s)[x] == multiset(rest)[x] + (if x == s[0] then 1 else 0);
        }
        FilterUnique(p, rest, t);
      }
    }
  }

  /** An element is kept exactly when it occurs and passes. */
  lemma FilterMembership<T(!new)>(p: T -> bool, s: seq<T>, x: T)
    ensures x in Filter(p, s) <==> x in s && p(x)
  {
    if x in s && p(x) {
      var i :| 0 <= i < |s| && s[i] == x;
    }
    if x in Filter(p, s) {
      var i :| 0 <= i < |Filter(p, s)| && Filter(p, s)[i] == x;
    }
  }

  lemma {:induction false} FilterAppend<T(!new)>(p: T -> bool, a: seq<T>, b: seq<T>)
    ensures Filter(p, a + b) == Filter(p, a) + Filter(p, b)
    decreases |a|
  {
    if a == [] {
      assert a + b == b;
    } else {
      assert (a + b)[1..] == a[1..] + b;
      FilterAppend(p, a[1..], b);
    }
  }

  /** Filtering keeps everything when every element passes. */
  lemma {:induction false} FilterAll<T(!new)>(p: T -> bool, s: seq<T>)
    requires forall x :: x in s ==> p(x)
    ensures Filter(p, s) == s
    decreases |s|
  {
    if s != [] { FilterAll(p, s[1..]); }
  }

  /** Filtering drops everything when no element passes. */
  lemma {:induction false} FilterNone<T(!new)>(p: T -> bool, s: seq<T>)
    requires forall x :: x in s ==> !p(x)
    ensures Filter(p, s) == []
    decreases |s|
  {
    if s != [] { FilterNone(p, s[1..]); }
  }

  /** `Array.prototype.map`: `f` applied to each element, order and length preserved. */
  function Map<A, B>(f: A -> B, s: seq<A>): (r: seq<B>)
    ensures |r| == |s|
    ensures forall i :: 0 <= i < |s| ==> r[i] == f(s[i])
    decreases |s|
  {
    if s == [] then [] else [f(s[0])] + Map(f, s[1..])
  }

  lemma MapAppend<A, B>(f: A -> B, a: seq<A>, b: seq<A>)
    ensures Map(f, a + b) == Map(f, a) + Map(f, b)
  {
    assert forall i :: 0 <= i < |a + b| ==> Map(f, a + b)[i] == (Map(f, a) + Map(f, b))[i];
  }

  /** Concatenation of a sequence of sequences (the effect of `results.push(...batch)` over all batches). */
  function Flatten<T>(ss: seq<seq<T>>): seq<T>
    decreases |ss|
  {
    if ss == [] then [] else ss[0] + Flatten(ss[1..])
  }

  lemma {:induction false} FlattenAppend<T>(a: seq<seq<T>>, b: seq<seq<T>>)
    ensures Flatten(a + b) == Flatten(a) + Flatten(b)
    decreases |a|
  {
    if a == [] {
      assert a + b == b;
    } else {
      assert (a + b)[1..] == a[1..] + b;
      FlattenAppend(a[1..], b);
    }
  }

  /**
   * The consecutive slices `s[i..i+n]` for `i = 0, n, 2n, ...` that the loop
   * `for (i = 0; i < s.length; i += n) s.slice(i, i + n)` visits, in that order.
   */
  function Chunks<T>(s: seq<T>, n: nat): seq<seq<T>>
    requires n > 0
    decreases |s|
  {
    if s == [] then [] else [s[..Min(n, |s|)]] + Chunks(s[Min(n, |s|)..], n)
  }

  /** The chunks put back together give the input. */
  lemma {:induction false} FlattenChunks<T>(s: seq<T>, n: nat)
    requires n > 0
    ensures Flatten(Chunks(s, n)) == s
    decreases |s|
  {
    if s != [] {
      FlattenChunks(s[Min(n, |s|)..], n);
      assert s == s[..Min(n, |s|)] + s[Min(n, |s|)..];
    }
  }

  /** Every chunk is non-empty and holds at most `n` elements. */
  lemma {:induction false} ChunkSizes<T>(s: seq<T>, n: nat)
    requires n > 0
    ensures forall c :: c in Chunks(s, n) ==> 0 < |c| <= n
    decreases |s|
  {
    if s != [] { ChunkSizes(s[Min(n, |s|)..], n); }
  }

  /** There are `ceil(|s| / n)` chunks, stated without division: the fewest chunks of size `n` that cover `s`. */
  lemma {:induction false} ChunkCountBounds<T>(s: seq<T>, n: nat)
    requires n > 0
    ensures (|Chunks(s, n)| - 1) * n < |s| <= |Chunks(s, n)| * n
    ensures s == [] <==> Chunks(s, n) == []
    decreases |s|
  {
    if s != [] {
      var rest := s[Min(n, |s|)..];
      ChunkCountBounds(rest, n);
      var c := |Chunks(rest, n)|;
      assert |Chunks(s, n)| == c + 1;
      assert (c + 1) * n == c * n + n;
    }
  }

  /** There are `ceil(|s| / n)` chunks, written `(|s| + n - 1) / n`. */
  lemma ChunkCount<T>(s: seq<T>, n: nat)
    requires n > 0
    ensures |Chunks(s, n)| == (|s| + n - 1) / n
  {
    ChunkCountBounds(s, n);
    var c := |Chunks(s, n)|;
    DivideBetween(|s| + n - 1, n, c);
  }

  lemma DivideBetween(x: int, n: int, q: int)
    requires n > 0 && q * n <= x < (q + 1) * n
    ensures x / n == q
  {
    var d := x / n;
    assert d * n <= x < (d + 1) * n;
    MulMonotone(q + 1, d, n);
    MulMonotone(d + 1, q, n);
  }

  lemma MulMonotone(a: int, b: int, n: int)
    requires n > 0
    ensures a <= b ==> a * n <= b * n
  {
    if a <= b {
      assert b * n - a * n == (b - a) * n;
    }
  }

  /** Chunk `j` is the slice `s[j*n .. min((j+1)*n, |s|)]`: consecutive slices of size `n`, the last one shorter. */
  lemma {:induction false} ChunkAt<T>(s: seq<T>, n: nat, j: nat)
    requires n > 0 && j < |Chunks(s, n)|
    ensures j * n < |s|
    ensures Chunks(s, n)[j] == s[j * n .. Min((j + 1) * n, |s|)]
    decreases |s|
  {
    var m := Min(n, |s|);
    if j > 0 {
      var rest := s[m..];
      ChunkAt(rest, n, j - 1);
      assert m == n;
      assert (j - 1) * n + n == j * n;
      assert j * n + n == (j + 1) * n;
      assert rest[(j - 1) * n .. Min(j * n, |rest|)] == s[j * n .. Min((j + 1) * n, |s|)];
    }
  }
}
