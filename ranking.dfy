/** Ranking by score: the stable descending sort that the scorers get from
    Python's `list.sort(key=..., reverse=True)` and from JavaScript's
    `Array.prototype.sort((a, b) => b.score - a.score)` (stable since
    ECMAScript 2019). Elements with equal keys keep their input order. */
module Ranking {
  import opened Seqs

  /** A candidate paired with its score, as the scorers build them
      (`{'ngo': ngo, 'score': score}`, `{ ngo, score }`). */
  datatype Scored<T> = Scored(item: T, score: real)

  /** Places `x` in front of the first element whose key is not greater than
      its own: `x` stands for an element that came earlier in the input than
      every element of `s`. */
  function Insert<T(==)>(x: T, s: seq<T>, key: T -> real): (r: seq<T>)
    ensures |r| == |s| + 1
    ensures multiset(r) == multiset(s) + multiset{x}
    decreases |s|
  {
    if s == [] || key(s[0]) <= key(x) then [x] + s
    else
      assert s == [s[0]] + s[1..];
      [s[0]] + Insert(x, s[1..], key)
  }

  /** Sorts by non-increasing key; ties keep their input order. */
  function SortDesc<T(==)>(s: seq<T>, key: T -> real): (r: seq<T>)
    ensures |r| == |s|
    ensures multiset(r) == multiset(s)
    decreases |s|
  {
    if s == [] then []
    else
      assert s == [s[0]] + s[1..];
      Insert(s[0], SortDesc(s[1..], key), key)
  }

  predicate SortedDesc<T>(s: seq<T>, key: T -> real) {
    forall i, j :: 0 <= i < j < |s| ==> key(s[i]) >= key(s[j])
  }

  /** The elements of `s` whose key equals `v`, in order. */
  function WithKey<T>(s: seq<T>, key: T -> real, v: real): seq<T> {
    Filter(s, x => key(x) == v)
  }

  lemma {:induction false} InsertSorted<T>(x: T, s: seq<T>, key: T -> real)
    requires SortedDesc(s, key)
    ensures SortedDesc(Insert(x, s, key), key)
    decreases |s|
  {
    if s == [] || key(s[0]) <= key(x) {
    } else {
      var rest := Insert(x, s[1..], key);
      InsertSorted(x, s[1..], key);
      forall j | 0 <= j < |rest| ensures key(s[0]) >= key(rest[j]) {
        assert rest[j] in multiset(rest);
        assert rest[j] == x || rest[j] in multiset(s[1..]);
        if rest[j] != x {
          var k :| 0 <= k < |s[1..]| && s[1..][k] == rest[j];
          assert s[k + 1] == rest[j];
        }
      }
      assert Insert(x, s, key) == [s[0]] + rest;
    }
  }

  /** The sorted sequence is ordered by non-increasing key. */
  lemma {:induction false} SortIsSorted<T>(s: seq<T>, key: T -> real)
    ensures SortedDesc(SortDesc(s, key), key)
    decreases |s|
  {
    if s != [] {
      SortIsSorted(s[1..], key);
      InsertSorted(s[0], SortDesc(s[1..], key), key);
    }
  }

  lemma {:induction false} InsertStable<T>(x: T, s: seq<T>, key: T -> real, v: real)
    ensures WithKey(Insert(x, s, key), key, v)
         == (if key(x) == v then [x] else []) + WithKey(s, key, v)
    decreases |s|
  {
    var p := (y: T) => key(y) == v;
    if s == [] || key(s[0]) <= key(x) {
      assert ([x] + s)[1..] == s;
    } else {
      var rest := Insert(x, s[1..], key);
      InsertStable(x, s[1..], key, v);
      assert ([s[0]] + rest)[1..] == rest;
      assert Filter(s, p) == (if p(s[0]) then [s[0]] else []) + Filter(s[1..], p);
    }
  }

  /** Stability: for every key value, the elements carrying it appear in
      the sorted output in exactly the order they had in the input. */
  lemma {:induction false} SortIsStable<T>(s: seq<T>, key: T -> real, v: real)
    ensures WithKey(SortDesc(s, key), key, v) == WithKey(s, key, v)
    decreases |s|
  {
    if s != [] {
      SortIsStable(s[1..], key, v);
      InsertStable(s[0], SortDesc(s[1..], key), key, v);
    }
  }

  lemma {:induction false} InsertDistinct<T>(x: T, s: seq<T>, key: T -> real)
    requires Distinct(s) && x !in s
    ensures Distinct(Insert(x, s, key))
    decreases |s|
  {
    if s == [] || key(s[0]) <= key(x) {
    } else {
      var rest := Insert(x, s[1..], key);
      InsertDistinct(x, s[1..], key);
      assert s[0] !in multiset(s[1..]);
      assert s[0] !in multiset(rest);
      assert Insert(x, s, key) == [s[0]] + rest;
    }
  }

  /** Sorting never introduces a repeated element. */
  lemma {:induction false} SortDistinct<T>(s: seq<T>, key: T -> real)
    requires Distinct(s)
    ensures Distinct(SortDesc(s, key))
    decreases |s|
  {
    if s != [] {
      SortDistinct(s[1..], key);
      assert s[0] !in multiset(SortDesc(s[1..], key));
      InsertDistinct(s[0], SortDesc(s[1..], key), key);
    }
  }

  /** Truncating the sorted sequence keeps the best: an input element that
      did not make the first `k` has a key no greater than any that did. */
  lemma TopIsBest<T>(s: seq<T>, key: T -> real, k: nat, x: T)
    requires x in s && x !in Take(SortDesc(s, key), k)
    ensures forall i :: 0 <= i < |Take(SortDesc(s, key), k)| ==> key(x) <= key(SortDesc(s, key)[i])
  {
    var r := SortDesc(s, key);
    SortIsSorted(s, key);
    assert x in multiset(r);
    var j :| 0 <= j < |r| && r[j] == x;
    assert j >= k;
  }

  /** The first `k` of the sorted sequence are elements of `s`, ordered by
      non-increasing key, and each is at least as good as any element of
      `s` left out. */
  lemma TopShape<T>(s: seq<T>, key: T -> real, k: nat)
    ensures var r := Take(SortDesc(s, key), k);
      (forall i :: 0 <= i < |r| ==> r[i] in s)
      && (forall i, j :: 0 <= i < j < |r| ==> key(r[i]) >= key(r[j]))
      && (forall x, i :: x in s && x !in r && 0 <= i < |r| ==> key(x) <= key(r[i]))
  {
    var sorted := SortDesc(s, key);
    var r := Take(sorted, k);
    SortIsSorted(s, key);
    forall i | 0 <= i < |r| ensures r[i] in s {
      assert r[i] == sorted[i];
      assert sorted[i] in multiset(sorted);
    }
    forall x, i | x in s && x !in r && 0 <= i < |r| ensures key(x) <= key(r[i]) {
      TopIsBest(s, key, k, x);
    }
  }

  /** The candidates of a scored list. */
  function Items<T>(s: seq<Scored<T>>): (r: seq<T>)
    ensures |r| == |s|
    ensures forall i :: 0 <= i < |s| ==> r[i] == s[i].item
  {
    seq(|s|, i requires 0 <= i < |s| => s[i].item)
  }

  /** Each candidate of `c` paired with its score `f`. */
  function ScoreEach<T>(c: seq<T>, f: T -> real): (r: seq<Scored<T>>)
    ensures |r| == |c|
    ensures forall i :: 0 <= i < |c| ==> r[i] == Scored(c[i], f(c[i]))
  {
    seq(|c|, i requires 0 <= i < |c| => Scored(c[i], f(c[i])))
  }

  function ScoreOf<T>(x: Scored<T>): real { x.score }

  /** One more candidate read by a scoring loop. */
  lemma ScoreEachStep<T>(s: seq<T>, i: nat, f: T -> real)
    requires i < |s|
    ensures ScoreEach(s[..i + 1], f) == ScoreEach(s[..i], f) + [Scored(s[i], f(s[i]))]
  {
  }

  /** One more candidate read by a scoring loop that keeps the candidates
      passing `p`. */
  lemma ScoreFilterStep<T>(s: seq<T>, i: nat, p: T -> bool, f: T -> real)
    requires i < |s|
    ensures ScoreEach(Filter(s[..i + 1], p), f)
         == ScoreEach(Filter(s[..i], p), f) + (if p(s[i]) then [Scored(s[i], f(s[i]))] else [])
  {
    assert s[..i + 1] == s[..i] + [s[i]];
    FilterAppend(s[..i], s[i], p);
    var c := Filter(s[..i], p);
    if p(s[i]) {
      assert ScoreEach(c + [s[i]], f) == ScoreEach(c, f) + [Scored(s[i], f(s[i]))];
    }
  }

  /** Sorting the (candidate, score) pairs by score and keeping the
      candidates is the same as sorting the candidates by their score. */
  lemma SortScored<T>(c: seq<T>, f: T -> real)
    ensures Items(SortDesc(ScoreEach(c, f), ScoreOf)) == SortDesc(c, f)
  {
    ScoredSortIsScoreEach(c, f);
    assert Items(ScoreEach(SortDesc(c, f), f)) == SortDesc(c, f);
  }

  lemma {:induction false} ScoredSortIsScoreEach<T>(c: seq<T>, f: T -> real)
    ensures SortDesc(ScoreEach(c, f), ScoreOf) == ScoreEach(SortDesc(c, f), f)
    decreases |c|
  {
    if c != [] {
      var ps := ScoreEach(c, f);
      assert ps[1..] == ScoreEach(c[1..], f);
      ScoredSortIsScoreEach(c[1..], f);
      InsertScoreEach(c[0], SortDesc(c[1..], f), f);
    }
  }

  lemma InsertFront<T>(x: T, s: seq<T>, key: T -> real)
    requires s == [] || key(s[0]) <= key(x)
    ensures Insert(x, s, key) == [x] + s
  {
  }

  lemma InsertPast<T>(x: T, s: seq<T>, key: T -> real)
    requires s != [] && key(s[0]) > key(x)
    ensures Insert(x, s, key) == [s[0]] + Insert(x, s[1..], key)
  {
  }

  lemma ScoreEachCons<T>(x: T, s: seq<T>, f: T -> real)
    ensures ScoreEach([x] + s, f) == [Scored(x, f(x))] + ScoreEach(s, f)
  {
  }

  lemma {:induction false} InsertScoreEach<T>(x: T, s: seq<T>, f: T -> real)
    ensures Insert(Scored(x, f(x)), ScoreEach(s, f), ScoreOf) == ScoreEach(Insert(x, s, f), f)
    decreases |s|
  {
    var ps := ScoreEach(s, f);
    var y := Scored(x, f(x));
    if s == [] || f(s[0]) <= f(x) {
      InsertFront(y, ps, ScoreOf);
      InsertFront(x, s, f);
      ScoreEachCons(x, s, f);
    } else {
      InsertPast(y, ps, ScoreOf);
      InsertPast(x, s, f);
      assert ps[1..] == ScoreEach(s[1..], f);
      InsertScoreEach(x, s[1..], f);
      ScoreEachCons(s[0], Insert(x, s[1..], f), f);
    }
  }

  /** Sorting the scored pairs and keeping the candidates of the first `k`
      is the same as keeping the first `k` candidates sorted by score. */
  lemma RankScored<T>(c: seq<T>, f: T -> real, k: nat)
    ensures Items(Take(SortDesc(ScoreEach(c, f), ScoreOf), k)) == Take(SortDesc(c, f), k)
  {
    var sorted := SortDesc(ScoreEach(c, f), ScoreOf);
    SortScored(c, f);
    assert Items(Take(sorted, k)) == Take(Items(sorted), k);
  }
}
