/** The list of cities on the home page (frontend_old/src/pages/HomePage.jsx)
    is laid out in four columns of `Math.ceil(n / 4)` cities each, cut with
    `Array.prototype.slice`. */
module CityColumns {

  const ColumnCount: nat := 4

  /** `Math.ceil(n / 4)` for a length `n`. */
  function PerColumn(n: nat): (k: nat)
    ensures 4 * k >= n && (k == 0 || 4 * (k - 1) < n)
  {
    (n + 3) / 4
  }

  function ClampTo(x: nat, n: nat): nat {
    if x <= n then x else n
  }

  /** `s.slice(a, b)` for non-negative `a` and `b`: both ends are clamped
      to the length, and a range that ends before it starts is empty. */
  function Slice<T>(s: seq<T>, a: nat, b: nat): (r: seq<T>)
    ensures |r| <= if b >= a then b - a else 0
    ensures a <= b <= |s| ==> r == s[a..b]
  {
    var lo := ClampTo(a, |s|);
    var hi := ClampTo(b, |s|);
    if hi <= lo then [] else s[lo..hi]
  }

  /** The columns laid end to end. */
  function Concat<T>(cols: seq<seq<T>>): seq<T>
    decreases |cols|
  {
    if cols == [] then [] else cols[0] + Concat(cols[1..])
  }

  /** The loop that pushes the four slices: four columns of at most
      `Math.ceil(n / 4)` cities that give back the list when read in order. */
  method Columns<T>(cities: seq<T>) returns (cols: seq<seq<T>>)
    ensures |cols| == ColumnCount
    ensures forall i :: 0 <= i < |cols| ==>
      cols[i] == Slice(cities, i * PerColumn(|cities|), (i + 1) * PerColumn(|cities|))
    ensures forall i :: 0 <= i < |cols| ==> |cols[i]| <= PerColumn(|cities|)
    ensures Concat(cols) == cities
  {
    var perColumn := PerColumn(|cities|);
    cols := [];
    for i := 0 to ColumnCount
      invariant |cols| == i
      invariant forall j :: 0 <= j < i ==> cols[j] == Slice(cities, j * perColumn, (j + 1) * perColumn)
    {
      cols := cols + [Slice(cities, i * perColumn, (i + 1) * perColumn)];
    }
    ColumnSizes(cities, cols);
    ColumnsCover(cities, cols);
  }

  /** Adjacent slices join up. */
  lemma SliceJoin<T>(s: seq<T>, a: nat, b: nat, c: nat)
    requires a <= b <= c
    ensures Slice(s, a, b) + Slice(s, b, c) == Slice(s, a, c)
  {
    var n := |s|;
    if b >= n {
      assert Slice(s, b, c) == [];
    } else if a < n {
      assert s[a..ClampTo(c, n)] == s[a..b] + s[b..ClampTo(c, n)];
    }
  }

  /** One column cut from `a` with room for `k` cities. */
  lemma ColumnFacts<T>(s: seq<T>, a: nat, k: nat)
    ensures |Slice(s, a, a + k)| <= k
    ensures a < |s| && k > 0 ==> |Slice(s, a, a + k)| > 0 && Slice(s, a, a + k)[0] == s[a]
    ensures a + k <= |s| ==> |Slice(s, a, a + k)| == k
  {
  }

  /** Four columns of `k` cities cover a list of at most `4 * k`. */
  lemma {:induction false} FourColumnsCover<T>(s: seq<T>, k: nat)
    requires 4 * k >= |s|
    ensures Concat([Slice(s, 0, k), Slice(s, k, 2 * k), Slice(s, 2 * k, 3 * k), Slice(s, 3 * k, 4 * k)]) == s
  {
    var cols := [Slice(s, 0, k), Slice(s, k, 2 * k), Slice(s, 2 * k, 3 * k), Slice(s, 3 * k, 4 * k)];
    SliceJoin(s, 3 * k, 3 * k, 4 * k);
    SliceJoin(s, 2 * k, 3 * k, 4 * k);
    SliceJoin(s, k, 2 * k, 4 * k);
    SliceJoin(s, 0, k, 4 * k);
    assert cols[3..][1..] == [];
    assert Concat(cols[3..]) == Slice(s, 3 * k, 4 * k);
    assert cols[2..][1..] == cols[3..];
    assert Concat(cols[2..]) == Slice(s, 2 * k, 4 * k);
    assert cols[1..][1..] == cols[2..];
    assert Concat(cols[1..]) == Slice(s, k, 4 * k);
    assert Concat(cols) == Slice(s, 0, 4 * k);
    assert s[0..|s|] == s;
  }

  /** Every column holds at most `Math.ceil(n / 4)` cities; column `i`
      starts at city `i * Math.ceil(n / 4)`; a column whose whole range lies
      inside the list is full. */
  lemma ColumnSizes<T>(cities: seq<T>, cols: seq<seq<T>>)
    requires |cols| == ColumnCount
    requires forall i :: 0 <= i < |cols| ==>
      cols[i] == Slice(cities, i * PerColumn(|cities|), (i + 1) * PerColumn(|cities|))
    ensures forall i :: 0 <= i < |cols| ==> |cols[i]| <= PerColumn(|cities|)
    ensures forall i :: 0 <= i < |cols| && i * PerColumn(|cities|) < |cities| ==>
      |cols[i]| > 0 && cols[i][0] == cities[i * PerColumn(|cities|)]
    ensures forall i :: 0 <= i < |cols| && (i + 1) * PerColumn(|cities|) <= |cities| ==>
      |cols[i]| == PerColumn(|cities|)
  {
    var k := PerColumn(|cities|);
    forall i | 0 <= i < |cols|
      ensures |cols[i]| <= k
      ensures i * k < |cities| ==> |cols[i]| > 0 && cols[i][0] == cities[i * k]
      ensures (i + 1) * k <= |cities| ==> |cols[i]| == k
    {
      assert (i + 1) * k == i * k + k;
      ColumnFacts(cities, i * k, k);
    }
  }

  /** Reading the columns in order gives back the whole list. */
  lemma ColumnsCover<T>(cities: seq<T>, cols: seq<seq<T>>)
    requires |cols| == ColumnCount
    requires forall i :: 0 <= i < |cols| ==>
      cols[i] == Slice(cities, i * PerColumn(|cities|), (i + 1) * PerColumn(|cities|))
    ensures Concat(cols) == cities
  {
    var k := PerColumn(|cities|);
    FourColumnsCover(cities, k);
    assert cols == [Slice(cities, 0, k), Slice(cities, k, 2 * k), Slice(cities, 2 * k, 3 * k), Slice(cities, 3 * k, 4 * k)] by {
      assert cols[0] == Slice(cities, 0 * k, 1 * k);
      assert cols[1] == Slice(cities, 1 * k, 2 * k);
      assert cols[2] == Slice(cities, 2 * k, 3 * k);
      assert cols[3] == Slice(cities, 3 * k, 4 * k);
    }
  }
}
