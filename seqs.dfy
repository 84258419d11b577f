/** Sequence operations that the JavaScript sources use through `Array.prototype`:
    `filter`, a left-to-right numeric `reduce`, and a stable `sort` with a numeric
    comparator. */
module Seqs {

  /** `s.filter(keep)`: the elements of `s` that satisfy `keep`, in their order in `s`. */
  function Filter<T>(s: seq<T>, keep: T -> bool): (r: seq<T>)
    ensures |r| <= |s|
  {
    if s == [] then []
    else
      assert s == [s[0]] + s[1..];
      (if keep(s[0]) then [s[0]] else []) + Filter(s[1..], keep)
  }

  /** `make(n, xs[0]), make(n + 1, xs[1]), …`: one item per element, numbered from `n`. */
  function Numbered<T, U>(n: nat, xs: seq<T>, make: (nat, T) -> U): seq<U>
    decreases |xs|
  {
    if xs == [] then [] else Numbered(n, xs[..|xs| - 1], make) + [make(n + |xs| - 1, xs[|xs| - 1])]
  }

  lemma {:induction false} NumberedLength<T, U>(n: nat, xs: seq<T>, make: (nat, T) -> U)
    ensures |Numbered(n, xs, make)| == |xs|
    decreases |xs|
  {
    if xs != [] {
      NumberedLength(n, xs[..|xs| - 1], make);
    }
  }

  lemma {:induction false} NumberedIndex<T, U>(n: nat, xs: seq<T>, make: (nat, T) -> U, k: nat)
    requires k < |xs|
    ensures |Numbered(n, xs, make)| == |xs|
    ensures Numbered(n, xs, make)[k] == make(n + k, xs[k])
    decreases |xs|
  {
    NumberedLength(n, xs, make);
    var front := xs[..|xs| - 1];
    NumberedLength(n, front, make);
    if k < |front| {
      NumberedIndex(n, front, make, k);
    }
  }

  lemma NumberedSnoc<T, U>(n: nat, xs: seq<T>, x: T, make: (nat, T) -> U)
    ensures Numbered(n, xs + [x], make) == Numbered(n, xs, make) + [make(n + |xs|, x)]
  {
    assert (xs + [x])[..|xs|] == xs;
  }

  /** 1 for true, 0 for false. */
  function OneIf(b: bool): nat {
    if b then 1 else 0
  }

  /** Filtering a non-empty sequence keeps its head or not, then filters the rest. */
  lemma FilterCount<T>(s: seq<T>, keep: T -> bool)
    requires s != []
    ensures |Filter(s, keep)| == OneIf(keep(s[0])) + |Filter(s[1..], keep)|
  {
  }

  /** An element is kept exactly when it is in `s` and satisfies `keep`. */
  lemma {:induction false} FilterMembers<T>(s: seq<T>, keep: T -> bool, x: T)
    ensures x in Filter(s, keep) <==> x in s && keep(x)
  {
    if s != [] {
      FilterMembers(s[1..], keep, x);
      assert s == [s[0]] + s[1..];
    }
  }

  /** Filtering distributes over concatenation, so it keeps the relative order. */
  lemma {:induction false} FilterConcat<T>(a: seq<T>, b: seq<T>, keep: T -> bool)
    ensures Filter(a + b, keep) == Filter(a, keep) + Filter(b, keep)
  {
    if a == [] {
      assert a + b == b;
    } else {
      var h := if keep(a[0]) then [a[0]] else [];
      assert (a + b)[0] == a[0];
      assert (a + b)[1..] == a[1..] + b;
      assert Filter(a + b, keep) == h + Filter(a[1..] + b, keep);
      FilterConcat(a[1..], b, keep);
      assert Filter(a, keep) == h + Filter(a[1..], keep);
    }
  }

  /** A one-element sequence is kept whole or dropped. */
  lemma FilterSingleton<T>(x: T, keep: T -> bool)
    ensures Filter([x], keep) == if keep(x) then [x] else []
  {
    assert [x][1..] == [];
  }

  /** Each element that satisfies `keep` is kept as often as it occurs in `s`; every other
      element is dropped. */
  lemma {:induction false} FilterMultiplicity<T>(s: seq<T>, keep: T -> bool, x: T)
    ensures multiset(Filter(s, keep))[x] == if keep(x) then multiset(s)[x] else 0
  {
    if s != [] {
      FilterMultiplicity(s[1..], keep, x);
      assert s == [s[0]] + s[1..];
    }
  }

  /** `FilterMultiplicity` for every element at once. */
  lemma FilterMultiplicities<T>(s: seq<T>, keep: T -> bool)
    ensures forall x :: multiset(Filter(s, keep))[x] == if keep(x) then multiset(s)[x] else 0
  {
    forall x {
      FilterMultiplicity(s, keep, x);
    }
  }

  /** Filtering with a predicate that every element satisfies changes nothing. */
  lemma {:induction false} FilterKeepsAll<T>(s: seq<T>, keep: T -> bool)
    requires forall i :: 0 <= i < |s| ==> keep(s[i])
    ensures Filter(s, keep) == s
  {
    if s != [] {
      assert s == [s[0]] + s[1..];
      FilterKeepsAll(s[1..], keep);
    }
  }

  /** Filtering with a predicate that no element satisfies leaves nothing. */
  lemma {:induction false} FilterKeepsNone<T>(s: seq<T>, keep: T -> bool)
    requires forall i :: 0 <= i < |s| ==> !keep(s[i])
    ensures Filter(s, keep) == []
  {
    if s != [] {
      FilterKeepsNone(s[1..], keep);
    }
  }

  /** Two predicates that agree on the elements of `s` filter it alike. */
  lemma {:induction false} FilterAgree<T>(s: seq<T>, p: T -> bool, q: T -> bool)
    requires forall i :: 0 <= i < |s| ==> p(s[i]) == q(s[i])
    ensures Filter(s, p) == Filter(s, q)
  {
    if s != [] {
      FilterAgree(s[1..], p, q);
    }
  }

  /** A predicate that implies another on `s` keeps a sub-multiset of what the other keeps. */
  lemma {:induction false} FilterMonotone<T>(s: seq<T>, p: T -> bool, q: T -> bool)
    requires forall i :: 0 <= i < |s| ==> p(s[i]) ==> q(s[i])
    ensures multiset(Filter(s, p)) <= multiset(Filter(s, q))
  {
    if s != [] {
      FilterMonotone(s[1..], p, q);
    }
  }

  /** A sub-multiset is no larger. */
  lemma SubMultisetSize<T>(a: multiset<T>, b: multiset<T>)
    requires a <= b
    ensures |a| <= |b|
  {
    assert b == a + (b - a);
  }

  /** Conjunction of two element predicates. */
  function Both<T>(p: T -> bool, q: T -> bool): T -> bool {
    x => p(x) && q(x)
  }

  /** `p` holds and `q` does not. */
  function ButNot<T>(p: T -> bool, q: T -> bool): T -> bool {
    x => p(x) && !q(x)
  }

  /** The elements that `p` keeps split, as a multiset, into those `q` keeps and those it drops. */
  lemma {:induction false} FilterSplit<T>(s: seq<T>, p: T -> bool, q: T -> bool)
    ensures multiset(Filter(s, p)) == multiset(Filter(s, Both(p, q))) + multiset(Filter(s, ButNot(p, q)))
  {
    if s != [] {
      FilterSplit(s[1..], p, q);
    }
  }

  /** The elements of `s` that `keep` drops. */
  function Not<T>(keep: T -> bool): T -> bool {
    x => !keep(x)
  }

  /** Every element is either kept or dropped. */
  lemma {:induction false} FilterComplement<T>(s: seq<T>, keep: T -> bool)
    ensures |Filter(s, keep)| + |Filter(s, Not(keep))| == |s|
  {
    if s != [] {
      FilterComplement(s[1..], keep);
    }
  }

  /** The concatenation of a sequence of sequences. */
  function Flatten<T>(ss: seq<seq<T>>): (r: seq<T>)
  {
    if ss == [] then [] else ss[0] + Flatten(ss[1..])
  }

  /** Flattening distributes over concatenation. */
  lemma {:induction false} FlattenConcat<T>(a: seq<seq<T>>, b: seq<seq<T>>)
    ensures Flatten(a + b) == Flatten(a) + Flatten(b)
  {
    if a == [] {
      assert a + b == b;
    } else {
      assert (a + b)[1..] == a[1..] + b;
      FlattenConcat(a[1..], b);
    }
  }

  // ---------------------------------------------------------------------------
  // Stable sort, newest (largest key) first

  /** Keys never increase along `s`. */
  ghost predicate SortedDesc<T>(s: seq<T>, key: T -> int) {
    forall i, j :: 0 <= i < j < |s| ==> key(s[i]) >= key(s[j])
  }

  /** `x` goes in front of the first element whose key is not larger than its own. */
  function InsertDesc<T>(x: T, s: seq<T>, key: T -> int): (r: seq<T>)
    ensures multiset(r) == multiset(s) + multiset{x}
    ensures |r| == |s| + 1
  {
    if s == [] || key(s[0]) <= key(x) then [x] + s
    else
      assert s == [s[0]] + s[1..];
      [s[0]] + InsertDesc(x, s[1..], key)
  }

  lemma {:induction false} InsertDescSorted<T>(x: T, s: seq<T>, key: T -> int)
    requires SortedDesc(s, key)
    ensures SortedDesc(InsertDesc(x, s, key), key)
    decreases |s|
  {
    if s != [] && key(s[0]) > key(x) {
      var rest := InsertDesc(x, s[1..], key);
      InsertDescSorted(x, s[1..], key);
      forall i | 0 <= i < |rest|
        ensures key(s[0]) >= key(rest[i])
      {
        assert rest[i] in multiset(rest);
        assert rest[i] == x || rest[i] in multiset(s[1..]);
        if rest[i] != x {
          var j :| 0 <= j < |s[1..]| && s[1..][j] == rest[i];
          assert s[j + 1] == rest[i];
        }
      }
      assert InsertDesc(x, s, key) == [s[0]] + rest;
    }
  }

  /** `[...s].sort((a, b) => key(b) - key(a))`: largest key first; JavaScript's sort is
      stable, so elements with equal keys keep their order in `s`. */
  function SortDescBy<T>(s: seq<T>, key: T -> int): (r: seq<T>)
    ensures SortedDesc(r, key)
    ensures multiset(r) == multiset(s)
    ensures |r| == |s|
  {
    if s == [] then []
    else
      assert s == [s[0]] + s[1..];
      InsertDescSorted(s[0], SortDescBy(s[1..], key), key);
      InsertDesc(s[0], SortDescBy(s[1..], key), key)
  }

  /** The elements whose key is `t`. */
  function KeyIs<T>(key: T -> int, t: int): T -> bool {
    x => key(x) == t
  }

  lemma {:induction false} InsertDescOneKey<T>(x: T, s: seq<T>, key: T -> int, t: int)
    ensures Filter(InsertDesc(x, s, key), KeyIs(key, t))
         == (if key(x) == t then [x] else []) + Filter(s, KeyIs(key, t))
    decreases |s|
  {
    var p := KeyIs(key, t);
    if s == [] || key(s[0]) <= key(x) {
      FilterConcat([x], s, p);
    } else {
      var rest := InsertDesc(x, s[1..], key);
      assert InsertDesc(x, s, key) == [s[0]] + rest;
      assert s == [s[0]] + s[1..];
      InsertDescOneKey(x, s[1..], key, t);
      FilterConcat([s[0]], rest, p);
      FilterConcat([s[0]], s[1..], p);
    }
  }

  /** Stability: for every key, the elements with that key appear in the sorted
      sequence in the same order as in the input. */
  lemma {:induction false} SortDescByStable<T>(s: seq<T>, key: T -> int, t: int)
    ensures Filter(SortDescBy(s, key), KeyIs(key, t)) == Filter(s, KeyIs(key, t))
  {
    if s != [] {
      SortDescByStable(s[1..], key, t);
      InsertDescOneKey(s[0], SortDescBy(s[1..], key), key, t);
    }
  }

  /** Inserting into a sorted sequence adds the inserted element to every filter that keeps it. */
  lemma {:induction false} InsertDescFilter<T>(x: T, s: seq<T>, key: T -> int, p: T -> bool)
    ensures multiset(Filter(InsertDesc(x, s, key), p)) == multiset(Filter([x], p)) + multiset(Filter(s, p))
    decreases |s|
  {
    if s == [] || key(s[0]) <= key(x) {
      FilterConcat([x], s, p);
    } else {
      var rest := InsertDesc(x, s[1..], key);
      assert InsertDesc(x, s, key) == [s[0]] + rest;
      assert s == [s[0]] + s[1..];
      InsertDescFilter(x, s[1..], key, p);
      FilterConcat([s[0]], rest, p);
      FilterConcat([s[0]], s[1..], p);
    }
  }

  /** Sorting does not change what a filter keeps, counted with multiplicity. */
  lemma {:induction false} SortDescByFilter<T>(s: seq<T>, key: T -> int, p: T -> bool)
    ensures multiset(Filter(SortDescBy(s, key), p)) == multiset(Filter(s, p))
  {
    if s != [] {
      SortDescByFilter(s[1..], key, p);
      InsertDescFilter(s[0], SortDescBy(s[1..], key), key, p);
      assert s == [s[0]] + s[1..];
      FilterConcat([s[0]], s[1..], p);
    }
  }

  /** `s` in reverse order. */
  function Reverse<T>(s: seq<T>): (r: seq<T>)
    ensures |r| == |s|
  {
    if s == [] then [] else Reverse(s[1..]) + [s[0]]
  }

  /** The `k`-th element from the front of the reverse is the `k`-th from the back of `s`. */
  lemma {:induction false} ReverseIndex<T>(s: seq<T>, k: nat)
    requires k < |s|
    ensures Reverse(s)[k] == s[|s| - 1 - k]
  {
    if k < |s| - 1 {
      ReverseIndex(s[1..], k);
    }
  }

  /** Adding an element at the back of `s` adds it at the front of the reverse. */
  lemma {:induction false} ReverseSnoc<T>(s: seq<T>, x: T)
    ensures Reverse(s + [x]) == [x] + Reverse(s)
  {
    if s != [] {
      assert (s + [x])[1..] == s[1..] + [x];
      ReverseSnoc(s[1..], x);
    }
  }

  /** Putting `x` in front of the reversed `s` placed before `tail` is reversing `s + [x]`. */
  lemma PushFront<T>(s: seq<T>, x: T, tail: seq<T>)
    ensures [x] + (Reverse(s) + tail) == Reverse(s + [x]) + tail
  {
    ReverseSnoc(s, x);
    assert [x] + (Reverse(s) + tail) == ([x] + Reverse(s)) + tail;
  }

  // ---------------------------------------------------------------------------
  // `s.map(x => keep(x) ? change(x) : x)`

  /** Each element that `p` selects replaced by `f` of it; the others stay as they are. */
  function MapWhere<T>(s: seq<T>, p: T -> bool, f: T -> T): (r: seq<T>)
    ensures |r| == |s|
    ensures forall i :: 0 <= i < |s| ==> r[i] == if p(s[i]) then f(s[i]) else s[i]
  {
    seq(|s|, i requires 0 <= i < |s| => if p(s[i]) then f(s[i]) else s[i])
  }

  /** When `p` selects nothing, nothing changes. */
  lemma MapWhereNone<T>(s: seq<T>, p: T -> bool, f: T -> T)
    requires forall i :: 0 <= i < |s| ==> !p(s[i])
    ensures MapWhere(s, p, f) == s
  {
  }

  /** When `f` keeps the selection and applying it twice is applying it once, so is the
      whole replacement. */
  lemma MapWhereIdempotent<T>(s: seq<T>, p: T -> bool, f: T -> T)
    requires forall x :: p(x) ==> p(f(x)) && f(f(x)) == f(x)
    ensures MapWhere(MapWhere(s, p, f), p, f) == MapWhere(s, p, f)
  {
  }
}
