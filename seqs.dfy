/**
 * Sequence operations that mirror JavaScript collection idioms: insertion
 * into a `Set` (which keeps first-insertion order), `Array.filter`,
 * spreading arrays one after another, `slice` into fixed-size chunks.
 */
module Seqs {

  ghost predicate NoDup<T>(s: seq<T>) {
    forall i, j :: 0 <= i < j < |s| ==> s[i] != s[j]
  }

  /**
   * `xs.forEach(x => set.add(x))` on a set whose iteration order is `acc`:
   * an element already present keeps its place, a new one goes last.
   */
  function AddAll<T(==,!new)>(acc: seq<T>, xs: seq<T>): (r: seq<T>)
    ensures |acc| <= |r| && r[..|acc|] == acc
    ensures forall x :: x in r <==> x in acc || x in xs
    decreases |xs|
  {
    if xs == [] then acc
    else AddAll(if xs[0] in acc then acc else acc + [xs[0]], xs[1..])
  }

  lemma {:induction false} AddAllNoDup<T(!new)>(acc: seq<T>, xs: seq<T>)
    requires NoDup(acc)
    ensures NoDup(AddAll(acc, xs))
    decreases |xs|
  {
    if xs != [] {
      var acc' := if xs[0] in acc then acc else acc + [xs[0]];
      assert NoDup(acc');
      AddAllNoDup(acc', xs[1..]);
    }
  }

  /** Adding elements that are all present already changes nothing. */
  lemma {:induction false} AddAllPresent<T(!new)>(acc: seq<T>, xs: seq<T>)
    requires forall x :: x in xs ==> x in acc
    ensures AddAll(acc, xs) == acc
    decreases |xs|
  {
    if xs != [] {
      AddAllPresent(acc, xs[1..]);
    }
  }

  /** Adding elements one by one: `AddAll` processes its list from left to right. */
  /** Adding one more element keeps the list, or appends the element when it is new. */
  lemma AddAllOne<T(!new)>(acc: seq<T>, xs: seq<T>, x: T)
    ensures AddAll(acc, xs + [x]) == if x in AddAll(acc, xs) then AddAll(acc, xs) else AddAll(acc, xs) + [x]
  {
    AddAllSnoc(acc, xs, x);
    var r := AddAll(acc, xs);
    assert [x][1..] == [];
    assert AddAll(r, [x]) == AddAll(if x in r then r else r + [x], []);
  }

  lemma {:induction false} AddAllSnoc<T(!new)>(acc: seq<T>, xs: seq<T>, x: T)
    ensures AddAll(acc, xs + [x]) == AddAll(AddAll(acc, xs), [x])
    decreases |xs|
  {
    if xs != [] {
      assert (xs + [x])[0] == xs[0] && (xs + [x])[1..] == xs[1..] + [x];
      AddAllSnoc(if xs[0] in acc then acc else acc + [xs[0]], xs[1..], x);
    } else {
      assert [] + [x] == [x];
    }
  }

  /** `Array.from(new Set(s))`: the distinct elements in first-occurrence order. */
  function Distinct<T(==,!new)>(s: seq<T>): seq<T> {
    AddAll([], s)
  }

  lemma DistinctProperties<T(!new)>(s: seq<T>)
    ensures NoDup(Distinct(s))
    ensures forall x :: x in Distinct(s) <==> x in s
  {
    AddAllNoDup([], s);
  }

  /** Two equal elements at different positions make a multiplicity of at least two. */
  lemma Multiplicity<T>(s: seq<T>, i: nat, j: nat)
    requires i < j < |s|
    ensures s[i] == s[j] ==> multiset(s)[s[i]] >= 2
  {
    assert s == s[..i] + [s[i]] + s[i + 1..j] + [s[j]] + s[j + 1..];
  }

  lemma {:induction false} NoDupMultiplicity<T>(s: seq<T>, x: T)
    requires NoDup(s)
    ensures multiset(s)[x] <= 1
  {
    if s != [] {
      assert s == [s[0]] + s[1..];
      assert NoDup(s[1..]) by {
        forall a, b | 0 <= a < b < |s[1..]| ensures s[1..][a] != s[1..][b] {
          assert s[1..][a] == s[a + 1] && s[1..][b] == s[b + 1];
        }
      }
      NoDupMultiplicity(s[1..], x);
      assert forall k :: 0 <= k < |s[1..]| ==> s[1..][k] != s[0] by {
        forall k | 0 <= k < |s[1..]| ensures s[1..][k] != s[0] {
          assert s[1..][k] == s[k + 1];
        }
      }
      assert s[0] !in multiset(s[1..]);
    }
  }

  /** A permutation of a sequence without repetitions has none either. */
  lemma NoDupPermutation<T>(a: seq<T>, b: seq<T>)
    requires NoDup(a) && multiset(a) == multiset(b)
    ensures NoDup(b)
  {
    forall i, j | 0 <= i < j < |b| ensures b[i] != b[j] {
      Multiplicity(b, i, j);
      NoDupMultiplicity(a, b[i]);
    }
  }

  /** Two sequences without repetitions that hold the same elements are permutations of each other. */
  lemma NoDupSameElements<T>(a: seq<T>, b: seq<T>)
    requires NoDup(a) && NoDup(b)
    requires forall x :: x in a <==> x in b
    ensures multiset(a) == multiset(b)
  {
    forall x ensures multiset(a)[x] == multiset(b)[x] {
      NoDupMultiplicity(a, x);
      NoDupMultiplicity(b, x);
      assert x in a <==> x in multiset(a);
      assert x in b <==> x in multiset(b);
    }
  }

  /** A sequence without repetitions is its own set iteration order. */
  lemma {:induction false} AddAllFresh<T(!new)>(acc: seq<T>, xs: seq<T>)
    requires NoDup(acc + xs)
    ensures AddAll(acc, xs) == acc + xs
    decreases |xs|
  {
    if xs != [] {
      assert forall i :: 0 <= i < |acc| ==> acc[i] != xs[0] by {
        forall i | 0 <= i < |acc| ensures acc[i] != xs[0] {
          assert (acc + xs)[i] == acc[i] && (acc + xs)[|acc|] == xs[0];
        }
      }
      assert acc + xs == (acc + [xs[0]]) + xs[1..];
      AddAllFresh(acc + [xs[0]], xs[1..]);
    }
  }

  lemma DistinctOfNoDup<T(!new)>(s: seq<T>)
    requires NoDup(s)
    ensures Distinct(s) == s
  {
    assert [] + s == s;
    AddAllFresh([], s);
  }

  /** `s.filter(p)` */
  function Filter<T>(s: seq<T>, p: T -> bool): (r: seq<T>)
    ensures |r| <= |s|
    ensures forall x :: x in r ==> x in s && p(x)
    ensures forall x :: x in s && p(x) ==> x in r
  {
    if s == [] then [] else (if p(s[0]) then [s[0]] else []) + Filter(s[1..], p)
  }

  /** `idx` lists, in increasing order, positions of `s` that hold the elements of `r` in turn. */
  ghost predicate Embeds<T>(r: seq<T>, s: seq<T>, idx: seq<nat>) {
    && |idx| == |r|
    && (forall k :: 0 <= k < |idx| ==> idx[k] < |s| && r[k] == s[idx[k]])
    && (forall a, b :: 0 <= a < b < |idx| ==> idx[a] < idx[b])
  }

  /** `r` is `s` with some elements left out and the rest in their order. */
  ghost predicate Subsequence<T>(r: seq<T>, s: seq<T>) {
    exists idx :: Embeds(r, s, idx)
  }

  /** Every position moved one to the right. */
  function Shift(idx: seq<nat>): (r: seq<nat>)
    ensures |r| == |idx| && forall k :: 0 <= k < |idx| ==> r[k] == idx[k] + 1
  {
    seq(|idx|, k requires 0 <= k < |idx| => idx[k] + 1)
  }

  /** The positions of `s` that `Filter` keeps. */
  function FilterIndices<T>(s: seq<T>, p: T -> bool): seq<nat> {
    if s == [] then [] else (if p(s[0]) then [0] else []) + Shift(FilterIndices(s[1..], p))
  }

  /** An embedding into the tail, moved one to the right, with the head kept or not in front. */
  lemma EmbedsCons<T>(r: seq<T>, s: seq<T>, idx: seq<nat>, keep: bool)
    requires s != [] && Embeds(r, s[1..], idx)
    ensures Embeds((if keep then [s[0]] else []) + r, s, (if keep then [0] else []) + Shift(idx))
  {
    var head := if keep then [s[0]] else [];
    var hi: seq<nat> := if keep then [0] else [];
    var r' := head + r;
    var idx' := hi + Shift(idx);
    forall k | 0 <= k < |idx'| ensures idx'[k] < |s| && r'[k] == s[idx'[k]] {
      if k >= |hi| {
        assert idx'[k] == idx[k - |hi|] + 1;
        assert r'[k] == r[k - |hi|];
      }
    }
    forall a, b | 0 <= a < b < |idx'| ensures idx'[a] < idx'[b] {
      assert idx'[b] == idx[b - |hi|] + 1;
      if a >= |hi| {
        assert idx'[a] == idx[a - |hi|] + 1;
      }
    }
  }

  /** A filter keeps the elements it keeps in their order: it is a subsequence. */
  lemma {:induction false} FilterEmbeds<T>(s: seq<T>, p: T -> bool)
    ensures Embeds(Filter(s, p), s, FilterIndices(s, p))
    ensures Subsequence(Filter(s, p), s)
  {
    if s != [] {
      FilterEmbeds(s[1..], p);
      EmbedsCons(Filter(s[1..], p), s, FilterIndices(s[1..], p), p(s[0]));
    }
  }

  /** Two filters one after the other keep what both conditions keep. */
  lemma {:induction false} FilterFilter<T>(s: seq<T>, p: T -> bool, q: T -> bool, pq: T -> bool)
    requires forall x :: pq(x) == (p(x) && q(x))
    ensures Filter(Filter(s, p), q) == Filter(s, pq)
  {
    if s != [] {
      var rest := Filter(s[1..], p);
      FilterFilter(s[1..], p, q, pq);
      if p(s[0]) {
        calc {
          Filter(Filter(s, p), q);
          Filter([s[0]] + rest, q);
          { assert ([s[0]] + rest)[1..] == rest; }
          (if q(s[0]) then [s[0]] else []) + Filter(rest, q);
        }
      } else {
        assert Filter(s, p) == rest;
      }
    }
  }

  /** A filter that keeps everything is the identity. */
  lemma {:induction false} FilterAll<T>(s: seq<T>, p: T -> bool)
    requires forall x :: x in s ==> p(x)
    ensures Filter(s, p) == s
  {
    if s != [] {
      FilterAll(s[1..], p);
    }
  }

  /** Filtering a concatenation filters each part. */
  lemma {:induction false} FilterConcat<T>(a: seq<T>, b: seq<T>, p: T -> bool)
    ensures Filter(a + b, p) == Filter(a, p) + Filter(b, p)
  {
    if a == [] {
      assert a + b == b;
    } else {
      assert (a + b)[0] == a[0] && (a + b)[1..] == a[1..] + b;
      FilterConcat(a[1..], b, p);
    }
  }

  /** A filter that keeps nothing of `s` gives the empty sequence. */
  lemma {:induction false} FilterNone<T>(s: seq<T>, p: T -> bool)
    requires forall x :: x in s ==> !p(x)
    ensures Filter(s, p) == []
  {
    if s != [] {
      FilterNone(s[1..], p);
    }
  }

  /** `[].concat(...ss)`: the sequences one after another. */
  function Flatten<T>(ss: seq<seq<T>>): (r: seq<T>)
  {
    if ss == [] then [] else ss[0] + Flatten(ss[1..])
  }

  lemma {:induction false} FlattenAppend<T>(ss: seq<seq<T>>, t: seq<T>)
    ensures Flatten(ss + [t]) == Flatten(ss) + t
  {
    if ss != [] {
      assert (ss + [t])[1..] == ss[1..] + [t];
      FlattenAppend(ss[1..], t);
    }
  }

  lemma {:induction false} FlattenConcat<T>(a: seq<seq<T>>, b: seq<seq<T>>)
    ensures Flatten(a + b) == Flatten(a) + Flatten(b)
  {
    if a == [] {
      assert a + b == b;
    } else {
      assert (a + b)[0] == a[0] && (a + b)[1..] == a[1..] + b;
      FlattenConcat(a[1..], b);
      assert Flatten(a) + Flatten(b) == a[0] + (Flatten(a[1..]) + Flatten(b));
    }
  }

  /** Concatenating sequences of length `n` gives one of length `|bs| * n`. */
  lemma {:induction false} FlattenFull<T>(bs: seq<seq<T>>, n: nat)
    requires forall k :: 0 <= k < |bs| ==> |bs[k]| == n
    ensures |Flatten(bs)| == |bs| * n
  {
    if bs != [] {
      FlattenFull(bs[1..], n);
    }
  }

  /** `for (i = 0; i < s.length; i += n) s.slice(i, i + n)` */
  function Chunks<T>(s: seq<T>, n: nat): (r: seq<seq<T>>)
    requires n > 0
    ensures forall k :: 0 <= k < |r| ==> 0 < |r[k]| <= n
    ensures Flatten(r) == s
    decreases |s|
  {
    if s == [] then []
    else if |s| <= n then [s]
    else
      var rest := Chunks(s[n..], n);
      assert s == s[..n] + s[n..];
      [s[..n]] + rest
  }

  /** Every chunk but the last is full. */
  lemma {:induction false} ChunksFull<T>(s: seq<T>, n: nat)
    requires n > 0
    ensures forall k :: 0 <= k < |Chunks(s, n)| - 1 ==> |Chunks(s, n)[k]| == n
    decreases |s|
  {
    if |s| > n {
      ChunksFull(s[n..], n);
    }
  }

  /** `s` is cut into `ceil(|s| / n)` chunks. */
  lemma {:induction false} ChunksCount<T>(s: seq<T>, n: nat)
    requires n > 0
    ensures |Chunks(s, n)| * n >= |s| > (|Chunks(s, n)| - 1) * n
    decreases |s|
  {
    if |s| > n {
      ChunksCount(s[n..], n);
    }
  }

  /** A list of exactly `c * n` elements is cut into `c` chunks; one of up to `n` more, into `c + 1`. */
  lemma {:induction false} ChunksCountExact<T>(s: seq<T>, n: nat, c: nat)
    requires n > 0
    ensures c * n == |s| ==> |Chunks(s, n)| == c
    ensures c * n < |s| <= c * n + n ==> |Chunks(s, n)| == c + 1
    decreases |s|
  {
    if c > 0 {
      MulStep(c, n);
      if |s| > n {
        ChunksCountExact(s[n..], n, c - 1);
      }
    }
  }

  /** The arithmetic of one more chunk. */
  lemma MulStep(c: nat, n: nat)
    requires c > 0 && n > 0
    ensures c * n == (c - 1) * n + n && (c - 1) * n >= 0
    ensures (c - 1) * n == 0 ==> c == 1
  {
  }

  /** The prefix one element longer. */
  /** A list `whole` split as `done + rest`, where `rest` is `x` then either nothing or `tail`, moves `x` to `done`. */
  lemma ConsStep<T>(done: seq<T>, whole: seq<T>, rest: seq<T>, x: T, stop: bool, tail: seq<T>)
    requires done + rest == whole && rest == [x] + (if stop then [] else tail)
    ensures stop ==> done + [x] == whole
    ensures !stop ==> (done + [x]) + tail == whole
  {
    if !stop {
      assert done + ([x] + tail) == (done + [x]) + tail;
    }
  }

  lemma PrefixStep<T>(s: seq<T>, i: nat)
    requires i < |s|
    ensures s[..i + 1] == s[..i] + [s[i]]
  {
  }

  /** A prefix of the second part one element longer. */
  lemma ConcatPrefixStep<T>(a: seq<T>, b: seq<T>, k: nat)
    requires k < |b|
    ensures a + b[..k + 1] == (a + b[..k]) + [b[k]]
  {
  }

  /** A prefix of the second part followed by the rest of it. */
  lemma ConcatPrefixRest<T>(a: seq<T>, b: seq<T>, k: nat)
    requires k <= |b|
    ensures (a + b[..k]) + b[k..] == a + b
  {
    assert b[..k] + b[k..] == b;
  }

  /** Two adjacent slices of a prefix. */
  lemma SliceJoin<T>(s: seq<T>, i: nat, j: nat)
    requires i <= j <= |s|
    ensures s[..i] + s[i..j] == s[..j]
    ensures s[..j] + s[j..] == s
  {
  }

  /** `s.slice(0, n)` */
  function Take<T>(s: seq<T>, n: nat): (r: seq<T>)
    ensures |r| == if |s| <= n then |s| else n
    ensures r == s[..|r|]
  {
    if |s| <= n then s else s[..n]
  }

  /** Indexing past the first element of a sequence built by putting one element in front. */
  lemma ConsIndex<T>(x: T, s: seq<T>, i: nat)
    requires 0 < i <= |s|
    ensures ([x] + s)[i] == s[i - 1]
  {
  }

  /** An element of a concatenation is an element of one of its parts. */
  lemma InConcat<T>(x: T, a: seq<T>, b: seq<T>)
    ensures x in a + b <==> x in a || x in b
  {
  }
}
