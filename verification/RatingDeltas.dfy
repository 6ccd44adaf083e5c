/** What the team deltas of a match satisfy for every number of teams and every outcome. */
module RatingDeltas {
  import opened RatingEngine

  // ---------------------------------------------------------------------------
  // Pairs
  // ---------------------------------------------------------------------------

  lemma PairIsZeroSum(f: real -> real, a: Side, b: Side)
    requires IsCurve(f)
    ensures PairDelta(f, a, b) + PairDelta(f, b, a) == 0.0
  {
    var d := a.mmr - b.mmr;
    assert b.mmr - a.mmr == -d;
    assert f(d) + f(-d) == 1.0;
  }

  lemma PairIsSmall(f: real -> real, a: Side, b: Side)
    requires IsCurve(f)
    ensures -1.0 < PairDelta(f, a, b) < 1.0
  {
    assert 0.0 < f(a.mmr - b.mmr) < 1.0;
  }

  /** A better place and no higher rating: the pair delta against any third team is no less. */
  lemma PairIsMonotone(f: real -> real, a: Side, b: Side, t: Side)
    requires IsCurve(f) && a.rank <= b.rank && a.mmr <= b.mmr
    ensures PairDelta(f, a, t) >= PairDelta(f, b, t)
  {
    var d, e := a.mmr - t.mmr, b.mmr - t.mmr;
    if d < e {
      assert f(d) < f(e);
    }
  }

  /** Against each other the better placed team gains and the other loses. */
  lemma PairIsDecided(f: real -> real, a: Side, b: Side)
    requires IsCurve(f) && a.rank < b.rank
    ensures PairDelta(f, a, b) > 0.0 > PairDelta(f, b, a)
  {
    assert 0.0 < f(a.mmr - b.mmr) < 1.0;
    assert 0.0 < f(b.mmr - a.mmr) < 1.0;
  }

  // ---------------------------------------------------------------------------
  // The deltas of a match sum to zero
  // ---------------------------------------------------------------------------

  /** The first `k` teams against team `j`. */
  ghost function Column(f: real -> real, s: seq<Side>, j: nat, k: nat): real
    requires j < |s| && k <= |s|
  {
    if k == 0 then 0.0
    else Column(f, s, j, k - 1) + if k - 1 == j then 0.0 else PairDelta(f, s[k - 1], s[j])
  }

  /** The first `k` teams against the first `m`. */
  ghost function Block(f: real -> real, s: seq<Side>, k: nat, m: nat): real
    requires k <= |s| && m <= |s|
  {
    if k == 0 then 0.0 else Block(f, s, k - 1, m) + Row(f, s, k - 1, m)
  }

  lemma {:induction false} ColumnMirrorsRow(f: real -> real, s: seq<Side>, j: nat, k: nat)
    requires IsCurve(f) && j < |s| && k <= |s|
    ensures Column(f, s, j, k) == -Row(f, s, j, k)
  {
    if k > 0 {
      ColumnMirrorsRow(f, s, j, k - 1);
      PairIsZeroSum(f, s[k - 1], s[j]);
    }
  }

  lemma {:induction false} AddColumn(f: real -> real, s: seq<Side>, k: nat, m: nat)
    requires k <= |s| && m < |s|
    ensures Block(f, s, k, m + 1) == Block(f, s, k, m) + Column(f, s, m, k)
  {
    if k > 0 {
      AddColumn(f, s, k - 1, m);
    }
  }

  /** A square block grows by one column and one row; a team does not meet itself. */
  lemma BlockGrows(f: real -> real, s: seq<Side>, m: nat)
    requires m < |s|
    ensures Block(f, s, m + 1, m + 1) == Block(f, s, m, m) + Column(f, s, m, m) + Row(f, s, m, m)
  {
    AddColumn(f, s, m, m);
  }

  lemma {:induction false} BlockIsZero(f: real -> real, s: seq<Side>, m: nat)
    requires m <= |s| && forall j :: 0 <= j < m ==> Column(f, s, j, j) == -Row(f, s, j, j)
    ensures Block(f, s, m, m) == 0.0
  {
    if m > 0 {
      BlockIsZero(f, s, m - 1);
      BlockGrows(f, s, m - 1);
    }
  }

  ghost function Sum(xs: seq<real>): real {
    if xs == [] then 0.0 else Sum(xs[..|xs| - 1]) + xs[|xs| - 1]
  }

  lemma {:induction false} SumOfRows(f: real -> real, s: seq<Side>, k: nat)
    requires 2 <= |s| && k <= |s|
    ensures Sum(Deltas(f, s)[..k]) == Block(f, s, k, |s|) / (|s| - 1) as real
  {
    var ds := Deltas(f, s);
    if k > 0 {
      SumOfRows(f, s, k - 1);
      assert ds[..k][..k - 1] == ds[..k - 1];
      AddQuotients(Block(f, s, k - 1, |s|), Row(f, s, k - 1, |s|), (|s| - 1) as real);
    }
  }

  lemma AddQuotients(a: real, b: real, n: real)
    requires n != 0.0
    ensures a / n + b / n == (a + b) / n
  {
  }

  /** Before K is applied every match is a zero-sum exchange between its teams. */
  lemma DeltasSumToZero(f: real -> real, s: seq<Side>)
    requires IsCurve(f) && 2 <= |s|
    ensures Sum(Deltas(f, s)) == 0.0
  {
    SumOfRows(f, s, |s|);
    forall j | 0 <= j < |s| ensures Column(f, s, j, j) == -Row(f, s, j, j) {
      ColumnMirrorsRow(f, s, j, j);
    }
    BlockIsZero(f, s, |s|);
    assert Deltas(f, s)[..|s|] == Deltas(f, s);
  }

  // ---------------------------------------------------------------------------
  // Order and size
  // ---------------------------------------------------------------------------

  /** What team `i` gets for meeting team `n`, nothing for itself. */
  ghost function Term(f: real -> real, s: seq<Side>, i: nat, n: nat): real
    requires i < |s| && n < |s|
  {
    if i == n then 0.0 else PairDelta(f, s[i], s[n])
  }

  lemma TermsAreOrdered(f: real -> real, s: seq<Side>, i: nat, j: nat, n: nat)
    requires IsCurve(f) && i < |s| && j < |s| && n < |s|
    requires s[i].rank < s[j].rank && s[i].mmr <= s[j].mmr
    ensures Term(f, s, i, n) >= Term(f, s, j, n)
    ensures n == i ==> Term(f, s, i, n) > Term(f, s, j, n)
  {
    PairIsMonotone(f, s[i], s[j], s[n]);
    PairIsDecided(f, s[i], s[j]);
  }

  /** After the first `m` opponents the team with the better terms is ahead, strictly once the
      strict one is met. */
  lemma {:induction false} RowsFollowTerms(f: real -> real, s: seq<Side>, i: nat, j: nat, m: nat)
    requires i < |s| && j < |s| && m <= |s| && Term(f, s, i, i) > Term(f, s, j, i)
    requires forall n :: 0 <= n < |s| ==> Term(f, s, i, n) >= Term(f, s, j, n)
    ensures Row(f, s, i, m) >= Row(f, s, j, m)
    ensures i < m ==> Row(f, s, i, m) > Row(f, s, j, m)
  {
    if m > 0 {
      RowsFollowTerms(f, s, i, j, m - 1);
      assert Term(f, s, i, m - 1) >= Term(f, s, j, m - 1);
    }
  }

  lemma RowsAreOrdered(f: real -> real, s: seq<Side>, i: nat, j: nat)
    requires IsCurve(f) && i < |s| && j < |s| && s[i].rank < s[j].rank && s[i].mmr <= s[j].mmr
    ensures Row(f, s, i, |s|) > Row(f, s, j, |s|)
  {
    forall n | 0 <= n < |s| ensures Term(f, s, i, n) >= Term(f, s, j, n) { TermsAreOrdered(f, s, i, j, n); }
    TermsAreOrdered(f, s, i, j, i);
    RowsFollowTerms(f, s, i, j, |s|);
  }

  lemma DivideOrder(a: real, b: real, n: real)
    requires n > 0.0 && a > b
    ensures a / n > b / n
  {
    assert (a - b) / n > 0.0;
    AddQuotients(a, -b, n);
    assert -b / n == -(b / n);
  }

  /** A better placed team with no higher rating gets a strictly larger delta. */
  lemma BetterPlaceGainsMore(f: real -> real, s: seq<Side>, i: nat, j: nat)
    requires IsCurve(f) && 2 <= |s| && i < |s| && j < |s|
    requires s[i].rank < s[j].rank && s[i].mmr <= s[j].mmr
    ensures TeamDelta(f, s, i) > TeamDelta(f, s, j)
  {
    RowsAreOrdered(f, s, i, j);
    DivideOrder(Row(f, s, i, |s|), Row(f, s, j, |s|), (|s| - 1) as real);
  }

  /** Opponents met among the first `m` teams. */
  ghost function Met(i: nat, m: nat): nat {
    if m <= i then m else m - 1
  }

  lemma {:induction false} RowIsBounded(f: real -> real, s: seq<Side>, i: nat, m: nat)
    requires IsCurve(f) && i < |s| && m <= |s|
    ensures -(Met(i, m) as real) <= Row(f, s, i, m) <= Met(i, m) as real
    ensures Met(i, m) > 0 ==> -(Met(i, m) as real) < Row(f, s, i, m) < Met(i, m) as real
  {
    if m > 0 {
      RowIsBounded(f, s, i, m - 1);
      PairIsSmall(f, s[i], s[m - 1]);
    }
  }

  lemma DivideBound(a: real, n: real)
    requires n > 0.0 && -n < a < n
    ensures -1.0 < a / n < 1.0
  {
    DivideOrder(n, a, n);
    DivideOrder(a, -n, n);
    assert n / n == 1.0 && -n / n == -1.0;
  }

  lemma DeltaIsSmall(f: real -> real, s: seq<Side>, i: nat)
    requires IsCurve(f) && 2 <= |s| && i < |s|
    ensures -1.0 < TeamDelta(f, s, i) < 1.0
  {
    RowIsBounded(f, s, i, |s|);
    DivideBound(Row(f, s, i, |s|), (|s| - 1) as real);
  }

  // ---------------------------------------------------------------------------
  // A strong winner
  // ---------------------------------------------------------------------------

  /** `n` players finish in seat order; the winner is rated `d` above the others, who are equal. */
  function StrongWinner(d: real, n: nat): (s: seq<Side>)
    ensures |s| == n && forall i :: 0 <= i < n ==> s[i] == Side(if i == 0 then d else 0.0, i + 1)
  {
    seq(n, i => Side(if i == 0 then d else 0.0, i + 1))
  }

  lemma {:induction false} StrongRow(f: real -> real, d: real, n: nat, m: nat, x: real)
    requires 0 < m <= n && x == 1.0 - f(d)
    ensures Row(f, StrongWinner(d, n), 0, m) == (m - 1) as real * x
  {
    if m > 1 {
      StrongRow(f, d, n, m - 1, x);
      assert PairDelta(f, StrongWinner(d, n)[0], StrongWinner(d, n)[m - 1]) == x by { assert d - 0.0 == d; }
      assert (m - 1) as real * x == (m - 2) as real * x + x;
    }
  }

  /** Player `i` loses to the winner and to `i - 1` equals and beats the equals behind. */
  lemma {:induction false} EqualRow(f: real -> real, d: real, n: nat, i: nat, m: nat)
    requires 0 < i < n && 0 < m <= n && f(0.0) == 0.5
    ensures Row(f, StrongWinner(d, n), i, m) ==
              if m <= i then -f(-d) - (m - 1) as real * 0.5 else -f(-d) - (i - 1) as real * 0.5 + (m - 1 - i) as real * 0.5
  {
    var s := StrongWinner(d, n);
    if m == 1 {
      assert Row(f, s, i, 0) == 0.0 && 0.0 - d == -d;
    } else {
      EqualRow(f, d, n, i, m - 1);
      assert 0.0 - 0.0 == 0.0;
    }
  }

  lemma SharesCompare(a: real, b: real, k: real)
    requires k > 0.0
    ensures a / k < b / k <==> a < b
  {
    if a < b { DivideOrder(b, a, k); }
    if b < a { DivideOrder(a, b, k); }
  }

  /** The comparison of the two sums, with y for f(-d). */
  lemma CompareSums(n: nat, i: nat, y: real, first: real, other: real)
    requires 0 < i < n && first == (n - 1) as real * y
    requires other == -y - (i - 1) as real * 0.5 + (n - 1 - i) as real * 0.5
    ensures first < other <==> 2.0 * (n as real * y) < (n - 2 * i) as real
  {
    assert (n - 1) as real * y == n as real * y - y;
    assert other == -y + ((n - 2 * i) as real) * 0.5;
  }

  lemma EvenScore(f: real -> real, d: real)
    requires IsCurve(f)
    ensures f(0.0) == 0.5 && 1.0 - f(d) == f(-d)
  {
    assert f(d) + f(-d) == 1.0;
    assert f(0.0) + f(-0.0) == 1.0 && -0.0 == 0.0;
  }

  /** Winning is not always worth most: player `i`, who finishes `i` places behind, gains more
      than the strong winner exactly if 2 n f(-d) < n - 2 i. Fourth of eight gains more than the
      first as soon as f(-d) < 1/8. */
  lemma StrongWinnerGainsLess(f: real -> real, d: real, n: nat, i: nat, y: real)
    requires IsCurve(f) && 0 < i < n && y == f(-d)
    ensures TeamDelta(f, StrongWinner(d, n), 0) < TeamDelta(f, StrongWinner(d, n), i)
       <==> 2.0 * (n as real * y) < (n - 2 * i) as real
  {
    EvenScore(f, d);
    CompareRows(f, d, n, i, y);
  }

  lemma CompareRows(f: real -> real, d: real, n: nat, i: nat, y: real)
    requires 0 < i < n && y == f(-d) == 1.0 - f(d) && f(0.0) == 0.5
    ensures TeamDelta(f, StrongWinner(d, n), 0) < TeamDelta(f, StrongWinner(d, n), i)
       <==> 2.0 * (n as real * y) < (n - 2 * i) as real
  {
    var s := StrongWinner(d, n);
    var first, other := Row(f, s, 0, n), Row(f, s, i, n);
    StrongRow(f, d, n, n, y);
    EqualRow(f, d, n, i, n);
    CompareSums(n, i, y, first, other);
    SharesCompare(first, other, (n - 1) as real);
  }
}
