/** The bivariate score table shared by the Poisson-style models of
    analyzers/prediction_models.py: the Poisson probabilities by recurrence,
    the 10x10 table of independent products, the sums over its outcome and
    goal-line regions, and the five most likely scorelines. */
module ScoreTable {

  /** Goal counts 0..9 on each side: mass beyond nine goals is dropped. */
  const MaxGoals: nat := 10

  /** Number of scorelines reported as most likely. */
  const TopCount: nat := 5

  // ---------------------------------------------------------------------
  // Poisson probabilities
  // ---------------------------------------------------------------------

  /** P(X = k) for X ~ Poisson(lam), given e = exp(-lam):
      p(0) = e and p(k) = p(k-1) * lam / k. */
  function Pmf(lam: real, e: real, k: nat): real {
    if k == 0 then e else Pmf(lam, e, k - 1) * lam / (k as real)
  }

  /** `[poisson.pmf(i, lam) for i in range(max_goals)]`. */
  function PmfTable(lam: real, e: real): seq<real> {
    seq(MaxGoals, k requires 0 <= k < MaxGoals => Pmf(lam, e, k))
  }

  lemma {:induction false} PmfNonNegative(lam: real, e: real, k: nat)
    requires lam >= 0.0 && e >= 0.0
    ensures Pmf(lam, e, k) >= 0.0
  {
    if k > 0 {
      PmfNonNegative(lam, e, k - 1);
      var p := Pmf(lam, e, k - 1);
      assert p * lam >= 0.0;
    }
  }

  /** With lam = 0 all the mass sits on zero goals. */
  lemma {:induction false} PmfAtZeroRate(e: real, k: nat)
    requires k > 0
    ensures Pmf(0.0, e, k) == 0.0
  {
    if k > 1 {
      PmfAtZeroRate(e, k - 1);
    }
  }

  // ---------------------------------------------------------------------
  // The table and its region sums
  // ---------------------------------------------------------------------

  /** The score table of independent margins: cell (i, j) is
      P(home scores i) * P(away scores j). */
  function Outer(hp: seq<real>, ap: seq<real>): seq<seq<real>> {
    seq(|hp|, i requires 0 <= i < |hp| => seq(|ap|, j requires 0 <= j < |ap| => hp[i] * ap[j]))
  }

  predicate IsSquare(m: seq<seq<real>>) {
    forall i :: 0 <= i < |m| ==> |m[i]| == |m|
  }

  predicate NonNegative(m: seq<seq<real>>) {
    forall i, j :: 0 <= i < |m| && 0 <= j < |m[i]| ==> m[i][j] >= 0.0
  }

  predicate NonNegativeRow(row: seq<real>) {
    forall j :: 0 <= j < |row| ==> row[j] >= 0.0
  }

  /** Sum of row[lo..hi]. */
  function RowSum(row: seq<real>, lo: nat, hi: nat): real
    requires lo <= hi <= |row|
    decreases hi - lo
  {
    if lo == hi then 0.0 else row[lo] + RowSum(row, lo + 1, hi)
  }

  /** `np.sum(m[r0:r1, c0:c1])`. */
  function BlockSum(m: seq<seq<real>>, r0: nat, r1: nat, c0: nat, c1: nat): real
    requires IsSquare(m) && r0 <= r1 <= |m| && c0 <= c1 <= |m|
    decreases r1 - r0
  {
    if r0 == r1 then 0.0 else RowSum(m[r0], c0, c1) + BlockSum(m, r0 + 1, r1, c0, c1)
  }

  /** Rows r0.. of `np.sum(np.tril(m, -1))`: cells with i > j. */
  function BelowDiagonal(m: seq<seq<real>>, r0: nat): real
    requires IsSquare(m) && r0 <= |m|
    decreases |m| - r0
  {
    if r0 == |m| then 0.0 else RowSum(m[r0], 0, r0) + BelowDiagonal(m, r0 + 1)
  }

  /** Rows r0.. of `np.sum(np.diag(m))`: cells with i == j. */
  function Diagonal(m: seq<seq<real>>, r0: nat): real
    requires IsSquare(m) && r0 <= |m|
    decreases |m| - r0
  {
    if r0 == |m| then 0.0 else m[r0][r0] + Diagonal(m, r0 + 1)
  }

  /** Rows r0.. of `np.sum(np.triu(m, 1))`: cells with i < j. */
  function AboveDiagonal(m: seq<seq<real>>, r0: nat): real
    requires IsSquare(m) && r0 <= |m|
    decreases |m| - r0
  {
    if r0 == |m| then 0.0 else RowSum(m[r0], r0 + 1, |m|) + AboveDiagonal(m, r0 + 1)
  }

  /** The whole table. */
  function Total(m: seq<seq<real>>): real
    requires IsSquare(m)
  {
    BlockSum(m, 0, |m|, 0, |m|)
  }

  lemma {:induction false} RowSumSplit(row: seq<real>, lo: nat, mid: nat, hi: nat)
    requires lo <= mid <= hi <= |row|
    ensures RowSum(row, lo, hi) == RowSum(row, lo, mid) + RowSum(row, mid, hi)
    decreases mid - lo
  {
    if lo < mid {
      RowSumSplit(row, lo + 1, mid, hi);
    }
  }

  lemma {:induction false} RowSumNonNegative(row: seq<real>, lo: nat, hi: nat)
    requires lo <= hi <= |row| && NonNegativeRow(row)
    ensures RowSum(row, lo, hi) >= 0.0
    decreases hi - lo
  {
    if lo < hi {
      RowSumNonNegative(row, lo + 1, hi);
    }
  }

  lemma {:induction false} BlockSumNonNegative(m: seq<seq<real>>, r0: nat, r1: nat, c0: nat, c1: nat)
    requires IsSquare(m) && r0 <= r1 <= |m| && c0 <= c1 <= |m| && NonNegative(m)
    ensures BlockSum(m, r0, r1, c0, c1) >= 0.0
    decreases r1 - r0
  {
    if r0 < r1 {
      RowSumNonNegative(m[r0], c0, c1);
      BlockSumNonNegative(m, r0 + 1, r1, c0, c1);
    }
  }

  lemma {:induction false} BlockSumSplitRows(m: seq<seq<real>>, r0: nat, mid: nat, r1: nat, c0: nat, c1: nat)
    requires IsSquare(m) && r0 <= mid <= r1 <= |m| && c0 <= c1 <= |m|
    ensures BlockSum(m, r0, r1, c0, c1) == BlockSum(m, r0, mid, c0, c1) + BlockSum(m, mid, r1, c0, c1)
    decreases mid - r0
  {
    if r0 < mid {
      BlockSumSplitRows(m, r0 + 1, mid, r1, c0, c1);
    }
  }

  lemma {:induction false} BlockSumSplitColumns(m: seq<seq<real>>, r0: nat, r1: nat, c0: nat, mid: nat, c1: nat)
    requires IsSquare(m) && r0 <= r1 <= |m| && c0 <= mid <= c1 <= |m|
    ensures BlockSum(m, r0, r1, c0, c1) == BlockSum(m, r0, r1, c0, mid) + BlockSum(m, r0, r1, mid, c1)
    decreases r1 - r0
  {
    if r0 < r1 {
      RowSumSplit(m[r0], c0, mid, c1);
      BlockSumSplitColumns(m, r0 + 1, r1, c0, mid, c1);
    }
  }

  /** Home win, draw and away win partition the table: the three region sums
      of lines 96-98 add up to the sum of all cells. */
  lemma {:induction false} OutcomesPartitionFrom(m: seq<seq<real>>, r0: nat)
    requires IsSquare(m) && r0 <= |m|
    ensures BelowDiagonal(m, r0) + Diagonal(m, r0) + AboveDiagonal(m, r0) == BlockSum(m, r0, |m|, 0, |m|)
    decreases |m| - r0
  {
    if r0 < |m| {
      var row := m[r0];
      RowSumSplit(row, 0, r0, |m|);
      assert RowSum(row, r0, |m|) == row[r0] + RowSum(row, r0 + 1, |m|);
      OutcomesPartitionFrom(m, r0 + 1);
    }
  }

  lemma OutcomesPartition(m: seq<seq<real>>)
    requires IsSquare(m)
    ensures BelowDiagonal(m, 0) + Diagonal(m, 0) + AboveDiagonal(m, 0) == Total(m)
  {
    OutcomesPartitionFrom(m, 0);
  }

  lemma {:induction false} OutcomeRegionsNonNegative(m: seq<seq<real>>, r0: nat)
    requires IsSquare(m) && r0 <= |m| && NonNegative(m)
    ensures BelowDiagonal(m, r0) >= 0.0 && Diagonal(m, r0) >= 0.0 && AboveDiagonal(m, r0) >= 0.0
    decreases |m| - r0
  {
    if r0 < |m| {
      RowSumNonNegative(m[r0], 0, r0);
      RowSumNonNegative(m[r0], r0 + 1, |m|);
      OutcomeRegionsNonNegative(m, r0 + 1);
    }
  }

  lemma {:induction false} RowSumScaled(c: real, ap: seq<real>, row: seq<real>, lo: nat, hi: nat)
    requires |row| == |ap| && lo <= hi <= |ap|
    requires forall j :: 0 <= j < |ap| ==> row[j] == c * ap[j]
    ensures RowSum(row, lo, hi) == c * RowSum(ap, lo, hi)
    decreases hi - lo
  {
    if lo < hi {
      RowSumScaled(c, ap, row, lo + 1, hi);
    }
  }

  /** The table of independent margins factors: its rows r0.. sum to
      (sum of hp[r0..]) * (sum of ap). */
  lemma {:induction false} OuterBlockFactors(hp: seq<real>, ap: seq<real>, r0: nat)
    requires |hp| == |ap| && r0 <= |hp|
    ensures IsSquare(Outer(hp, ap))
    ensures BlockSum(Outer(hp, ap), r0, |hp|, 0, |ap|) == RowSum(hp, r0, |hp|) * RowSum(ap, 0, |ap|)
    decreases |hp| - r0
  {
    var m := Outer(hp, ap);
    if r0 < |hp| {
      RowSumScaled(hp[r0], ap, m[r0], 0, |ap|);
      OuterBlockFactors(hp, ap, r0 + 1);
      var rest := RowSum(hp, r0 + 1, |hp|);
      var s := RowSum(ap, 0, |ap|);
      calc {
        BlockSum(m, r0, |hp|, 0, |ap|);
        hp[r0] * s + rest * s;
        (hp[r0] + rest) * s;
      }
    }
  }

  lemma OuterTotal(hp: seq<real>, ap: seq<real>)
    requires |hp| == |ap|
    ensures IsSquare(Outer(hp, ap))
    ensures Total(Outer(hp, ap)) == RowSum(hp, 0, |hp|) * RowSum(ap, 0, |ap|)
  {
    OuterBlockFactors(hp, ap, 0);
    var m := Outer(hp, ap);
    assert |m| == |hp|;
  }

  lemma OuterNonNegative(hp: seq<real>, ap: seq<real>)
    requires NonNegativeRow(hp) && NonNegativeRow(ap)
    ensures NonNegative(Outer(hp, ap))
  {
    forall i, j | 0 <= i < |hp| && 0 <= j < |ap|
      ensures Outer(hp, ap)[i][j] >= 0.0
    {
      assert Outer(hp, ap)[i][j] == hp[i] * ap[j];
    }
  }

  // ---------------------------------------------------------------------
  // Goal lines and both teams to score, exactly as lines 101-107 write them
  // ---------------------------------------------------------------------

  function Over05(m: seq<seq<real>>): real
    requires IsSquare(m) && |m| >= 2
  {
    1.0 - m[0][0]
  }

  function Over15(m: seq<seq<real>>): real
    requires IsSquare(m) && |m| >= 2
  {
    1.0 - (m[0][0] + m[1][0] + m[0][1])
  }

  /** Line 103: subtracts rows 0-1 and rows 2.. of columns 0-1, then adds
      cell (1, 1) back; this is not 1 - P(total <= 2). */
  function Over25(m: seq<seq<real>>): real
    requires IsSquare(m) && |m| >= 3
  {
    1.0 - BlockSum(m, 0, 2, 0, |m|) - BlockSum(m, 2, |m|, 0, 2) + m[1][1]
  }

  /** Line 104: subtracts rows 0-2 and rows 3.. of columns 0-2, then adds
      the block [1..2] x [1..2] back; this is not 1 - P(total <= 3). */
  function Over35(m: seq<seq<real>>): real
    requires IsSquare(m) && |m| >= 3
  {
    1.0 - BlockSum(m, 0, 3, 0, |m|) - BlockSum(m, 3, |m|, 0, 3) + BlockSum(m, 1, 3, 1, 3)
  }

  /** Line 107, from the two zero-goal probabilities. */
  function Btts(h0: real, a0: real): real {
    1.0 - h0 - a0 + h0 * a0
  }

  /** Both teams score = (1 - P(home = 0)) * (1 - P(away = 0)); it lies in
      [0, 1] when both zero-goal probabilities do. */
  lemma BttsFactors(h0: real, a0: real)
    ensures Btts(h0, a0) == (1.0 - h0) * (1.0 - a0)
    ensures 0.0 <= h0 <= 1.0 && 0.0 <= a0 <= 1.0 ==> 0.0 <= Btts(h0, a0) <= 1.0
    ensures h0 == 1.0 || a0 == 1.0 ==> Btts(h0, a0) == 0.0
  {
    assert Btts(h0, a0) == (1.0 - h0) * (1.0 - a0);
    if 0.0 <= h0 <= 1.0 && 0.0 <= a0 <= 1.0 {
      var x, y := 1.0 - h0, 1.0 - a0;
      assert 0.0 <= x <= 1.0 && 0.0 <= y <= 1.0;
      assert x * y <= 1.0 * y;
      assert x * y >= 0.0;
    }
  }

  lemma {:induction false} RowPrefix(row: seq<real>, n: nat)
    requires 2 <= n <= |row|
    ensures RowSum(row, 0, n) == row[0] + row[1] + RowSum(row, 2, n)
  {
  }

  /** On a non-negative table the first three goal lines of lines 101-103
      never increase. */
  lemma OverLinesDecreasing(m: seq<seq<real>>)
    requires IsSquare(m) && |m| >= 3 && NonNegative(m)
    ensures Over05(m) >= Over15(m) >= Over25(m)
  {
    var n := |m|;
    assert m[1][0] >= 0.0 && m[0][1] >= 0.0;
    // rows 0 and 1 in full
    assert BlockSum(m, 0, 2, 0, n) == RowSum(m[0], 0, n) + RowSum(m[1], 0, n);
    RowPrefix(m[0], n);
    RowPrefix(m[1], n);
    RowSumNonNegative(m[0], 2, n);
    RowSumNonNegative(m[1], 2, n);
    BlockSumNonNegative(m, 2, n, 0, 2);
  }

  /** Difference of the two as-written lines 103 and 104: it is the mass of
      row 2 beyond column 2 plus column 2 below row 2, less the cells (1, 2)
      and (2, 1). */
  lemma Over25MinusOver35(m: seq<seq<real>>)
    requires IsSquare(m) && |m| >= 3
    ensures Over25(m) - Over35(m)
         == RowSum(m[2], 3, |m|) + BlockSum(m, 3, |m|, 2, 3) - m[1][2] - m[2][1]
  {
    var n := |m|;
    BlockSumSplitRows(m, 0, 2, 3, 0, n);
    assert BlockSum(m, 2, 3, 0, n) == RowSum(m[2], 0, n);
    RowSumSplit(m[2], 0, 2, n);
    RowSumSplit(m[2], 2, 3, n);
    BlockSumSplitColumns(m, 3, n, 0, 2, 3);
    assert BlockSum(m, 2, n, 0, 2) == RowSum(m[2], 0, 2) + BlockSum(m, 3, n, 0, 2);
    assert BlockSum(m, 1, 3, 1, 3) == RowSum(m[1], 1, 3) + RowSum(m[2], 1, 3);
    assert RowSum(m[1], 1, 3) == m[1][1] + m[1][2];
    assert RowSum(m[2], 1, 3) == m[2][1] + m[2][2];
    assert RowSum(m[2], 0, 2) == m[2][0] + m[2][1];
    assert RowSum(m[2], 2, 3) == m[2][2];
  }

  /** Column j of the table of independent margins, from row r0 down,
      sums to (sum of hp[r0..]) * ap[j]. */
  lemma {:induction false} OuterColumnBlock(hp: seq<real>, ap: seq<real>, r0: nat, j: nat)
    requires |hp| == |ap| && r0 <= |hp| && j < |ap|
    ensures IsSquare(Outer(hp, ap))
    ensures BlockSum(Outer(hp, ap), r0, |hp|, j, j + 1) == RowSum(hp, r0, |hp|) * ap[j]
    decreases |hp| - r0
  {
    var m := Outer(hp, ap);
    if r0 < |hp| {
      OuterColumnBlock(hp, ap, r0 + 1, j);
      assert RowSum(m[r0], j, j + 1) == hp[r0] * ap[j];
    }
  }

  lemma OuterRowTail(p: seq<real>, i: nat, lo: nat)
    requires i < |p| && lo <= |p|
    ensures IsSquare(Outer(p, p))
    ensures RowSum(Outer(p, p)[i], lo, |p|) == p[i] * RowSum(p, lo, |p|)
  {
    RowSumScaled(p[i], p, Outer(p, p)[i], lo, |p|);
  }

  /** Over 2.5 falls below over 3.5 as written whenever row 2 beyond
      column 2 and column 2 below row 2 carry the same mass, cells (1, 2)
      and (2, 1) carry the same mass, and the former is the smaller. */
  lemma Over25BelowOver35When(m: seq<seq<real>>)
    requires IsSquare(m) && |m| == MaxGoals
    requires RowSum(m[2], 3, MaxGoals) == BlockSum(m, 3, MaxGoals, 2, 3)
    requires m[1][2] == m[2][1] && RowSum(m[2], 3, MaxGoals) < m[1][2]
    ensures Over25(m) < Over35(m)
  {
    Over25MinusOver35(m);
  }

  lemma ScaledBelow(x: real, y: real, z: real)
    requires x > 0.0 && y < z
    ensures x * y < x * z
  {
  }

  /** In the table of a margin p against itself, row 2 beyond column 2 and
      column 2 below row 2 both carry p[2] * (sum of p[3..]), cells (1, 2)
      and (2, 1) both carry p[1] * p[2], so the former is the smaller when
      p[2] > 0 and p[3..] sums to less than p[1]. */
  lemma OuterDifferenceCells(p: seq<real>)
    requires |p| == MaxGoals && p[2] > 0.0 && RowSum(p, 3, MaxGoals) < p[1]
    ensures |Outer(p, p)| == MaxGoals && IsSquare(Outer(p, p))
    ensures RowSum(Outer(p, p)[2], 3, MaxGoals) == BlockSum(Outer(p, p), 3, MaxGoals, 2, 3)
    ensures Outer(p, p)[1][2] == Outer(p, p)[2][1]
    ensures RowSum(Outer(p, p)[2], 3, MaxGoals) < Outer(p, p)[1][2]
  {
    OuterRowTail(p, 2, 3);
    OuterColumnBlock(p, p, 3, 2);
    ScaledBelow(p[2], RowSum(p, 3, MaxGoals), p[1]);
  }

  /** The Poisson(0.5) margin puts less mass on 3..9 goals than on 1 goal. */
  lemma HalfRateMargin(e: real)
    requires e > 0.0
    ensures var p := PmfTable(0.5, e);
            |p| == MaxGoals && p[2] > 0.0 && RowSum(p, 3, MaxGoals) < p[1]
  {
    var p := PmfTable(0.5, e);
    PmfAtHalf(e);
    assert RowSum(p, 9, 10) == p[9];
    assert RowSum(p, 8, 10) == p[8] + p[9];
    assert RowSum(p, 7, 10) == p[7] + p[8] + p[9];
    assert RowSum(p, 6, 10) == p[6] + p[7] + p[8] + p[9];
    assert RowSum(p, 5, 10) == p[5] + p[6] + p[7] + p[8] + p[9];
    assert RowSum(p, 4, 10) == p[4] + p[5] + p[6] + p[7] + p[8] + p[9];
    assert RowSum(p, 3, 10) == p[3] + p[4] + p[5] + p[6] + p[7] + p[8] + p[9];
  }

  /** On the table of a margin p against itself, over 2.5 falls below over
      3.5 as written whenever p puts less mass on 3.. goals than on 1 goal
      (and some on 2 goals). */
  lemma OuterOver25BelowOver35(p: seq<real>)
    requires |p| == MaxGoals && p[2] > 0.0 && RowSum(p, 3, MaxGoals) < p[1]
    ensures |Outer(p, p)| == MaxGoals && IsSquare(Outer(p, p))
    ensures Over25(Outer(p, p)) < Over35(Outer(p, p))
  {
    OuterDifferenceCells(p);
    Over25BelowOver35When(Outer(p, p));
  }

  /** The as-written lines 103-104 are not monotone: with expected goals
      0.5 for both teams (and any positive value of exp(-0.5)) the
      probability of over 2.5 goals comes out below that of over 3.5. */
  lemma Over25BelowOver35AtHalf(e: real)
    requires e > 0.0
    ensures var m := Outer(PmfTable(0.5, e), PmfTable(0.5, e));
            |m| == MaxGoals && IsSquare(m) && Over25(m) < Over35(m)
  {
    HalfRateMargin(e);
    OuterOver25BelowOver35(PmfTable(0.5, e));
  }

  /** The Poisson(0.5) probabilities 0.5^k / k! scaled by e = exp(-0.5). */
  lemma PmfAtHalf(e: real)
    ensures Pmf(0.5, e, 1) == e / 2.0
    ensures Pmf(0.5, e, 2) == e / 8.0
    ensures Pmf(0.5, e, 3) == e / 48.0
    ensures Pmf(0.5, e, 4) == e / 384.0
    ensures Pmf(0.5, e, 5) == e / 3840.0
    ensures Pmf(0.5, e, 6) == e / 46080.0
    ensures Pmf(0.5, e, 7) == e / 645120.0
    ensures Pmf(0.5, e, 8) == e / 10321920.0
    ensures Pmf(0.5, e, 9) == e / 185794560.0
  {
    assert Pmf(0.5, e, 1) == e * 0.5 / 1.0;
    assert Pmf(0.5, e, 2) == Pmf(0.5, e, 1) * 0.5 / 2.0;
    assert Pmf(0.5, e, 3) == Pmf(0.5, e, 2) * 0.5 / 3.0;
    assert Pmf(0.5, e, 4) == Pmf(0.5, e, 3) * 0.5 / 4.0;
    assert Pmf(0.5, e, 5) == Pmf(0.5, e, 4) * 0.5 / 5.0;
    assert Pmf(0.5, e, 6) == Pmf(0.5, e, 5) * 0.5 / 6.0;
    assert Pmf(0.5, e, 7) == Pmf(0.5, e, 6) * 0.5 / 7.0;
    assert Pmf(0.5, e, 8) == Pmf(0.5, e, 7) * 0.5 / 8.0;
    assert Pmf(0.5, e, 9) == Pmf(0.5, e, 8) * 0.5 / 9.0;
  }

  // ---------------------------------------------------------------------
  // Goal lines as 1 - P(total goals <= k): what lines 103-104 evidently
  // intend, and what they agree with for k = 0 and k = 1
  // ---------------------------------------------------------------------

  /** Number of columns j of row i with i + j <= k. */
  function Reach(n: nat, i: nat, k: nat): nat {
    if k < i then 0 else if k - i + 1 > n then n else k - i + 1
  }

  /** Rows r0.. of P(total goals <= k). */
  function AtMostFrom(m: seq<seq<real>>, k: nat, r0: nat): real
    requires IsSquare(m) && r0 <= |m|
    decreases |m| - r0
  {
    if r0 == |m| then 0.0 else RowSum(m[r0], 0, Reach(|m|, r0, k)) + AtMostFrom(m, k, r0 + 1)
  }

  /** 1 - P(home + away <= k): the probability of more than k + 0.5 goals. */
  function OverLine(m: seq<seq<real>>, k: nat): real
    requires IsSquare(m)
  {
    1.0 - AtMostFrom(m, k, 0)
  }

  lemma {:induction false} AtMostFromGrows(m: seq<seq<real>>, k: nat, r0: nat)
    requires IsSquare(m) && r0 <= |m| && NonNegative(m)
    ensures AtMostFrom(m, k, r0) <= AtMostFrom(m, k + 1, r0)
    decreases |m| - r0
  {
    if r0 < |m| {
      var n := |m|;
      RowSumSplit(m[r0], 0, Reach(n, r0, k), Reach(n, r0, k + 1));
      RowSumNonNegative(m[r0], Reach(n, r0, k), Reach(n, r0, k + 1));
      AtMostFromGrows(m, k, r0 + 1);
    }
  }

  /** The corrected goal lines never increase with the line. */
  lemma OverLineDecreasing(m: seq<seq<real>>, k: nat)
    requires IsSquare(m) && NonNegative(m)
    ensures OverLine(m, k + 1) <= OverLine(m, k)
  {
    AtMostFromGrows(m, k, 0);
  }

  lemma {:induction false} AtMostFromZeroRows(m: seq<seq<real>>, k: nat, r0: nat)
    requires IsSquare(m) && r0 <= |m| && k < r0
    ensures AtMostFrom(m, k, r0) == 0.0
    decreases |m| - r0
  {
    if r0 < |m| {
      AtMostFromZeroRows(m, k, r0 + 1);
    }
  }

  /** Lines 101-102 already are 1 - P(total <= 0) and 1 - P(total <= 1). */
  lemma FirstLinesAgree(m: seq<seq<real>>)
    requires IsSquare(m) && |m| >= 3
    ensures Over05(m) == OverLine(m, 0)
    ensures Over15(m) == OverLine(m, 1)
  {
    AtMostFromZeroRows(m, 0, 1);
    AtMostFromZeroRows(m, 1, 2);
    assert AtMostFrom(m, 0, 0) == m[0][0];
    assert AtMostFrom(m, 1, 1) == m[1][0];
    assert AtMostFrom(m, 1, 0) == m[0][0] + m[0][1] + m[1][0];
  }

  // ---------------------------------------------------------------------
  // Most likely scorelines (lines 110-116)
  // ---------------------------------------------------------------------

  /** `((i, j), score_matrix[i, j])`. */
  datatype Cell = Cell(home: nat, away: nat, probability: real)

  /** Position of a cell in the row-major scan of the table. */
  function Index(c: Cell): int {
    c.home * MaxGoals + c.away
  }

  /** The row-major scan of a 10x10 table: entry k is cell (k / 10, k % 10). */
  function CellsOf(m: seq<seq<real>>): seq<Cell>
    requires |m| == MaxGoals && IsSquare(m)
  {
    seq(MaxGoals * MaxGoals, k requires 0 <= k < MaxGoals * MaxGoals =>
      Cell(k / MaxGoals, k % MaxGoals, m[k / MaxGoals][k % MaxGoals]))
  }

  /** Stable insertion of x after everything at least as probable as x. */
  function Insert(s: seq<Cell>, x: Cell): seq<Cell>
    decreases |s|
  {
    if s == [] || s[|s| - 1].probability >= x.probability then s + [x]
    else Insert(s[..|s| - 1], x) + [s[|s| - 1]]
  }

  /** `sort(key=probability, reverse=True)`: Python's sort is stable, so
      cells of equal probability keep their order of appearance. */
  function SortDesc(s: seq<Cell>): seq<Cell>
    decreases |s|
  {
    if s == [] then [] else Insert(SortDesc(s[..|s| - 1]), s[|s| - 1])
  }

  /** `top_scores[:5]` after the sort. */
  function TopFive(m: seq<seq<real>>): seq<Cell>
    requires |m| == MaxGoals && IsSquare(m)
  {
    var sorted := SortDesc(CellsOf(m));
    SortDescPermutes(CellsOf(m));
    sorted[..TopCount]
  }

  /** c comes before d in the stable descending order: more probable, or
      equally probable and earlier in the row-major scan. */
  predicate Before(c: Cell, d: Cell) {
    c.probability > d.probability || (c.probability == d.probability && Index(c) < Index(d))
  }

  predicate Ranked(s: seq<Cell>) {
    forall a, b :: 0 <= a < b < |s| ==> Before(s[a], s[b])
  }

  predicate ScanOrder(s: seq<Cell>) {
    forall a, b :: 0 <= a < b < |s| ==> Index(s[a]) < Index(s[b])
  }

  lemma {:induction false} InsertPermutes(s: seq<Cell>, x: Cell)
    ensures multiset(Insert(s, x)) == multiset(s) + multiset{x}
    ensures |Insert(s, x)| == |s| + 1
    decreases |s|
  {
    if !(s == [] || s[|s| - 1].probability >= x.probability) {
      var init, last := s[..|s| - 1], s[|s| - 1];
      InsertPermutes(init, x);
      assert s == init + [last];
    }
  }

  lemma {:induction false} SortDescPermutes(s: seq<Cell>)
    ensures multiset(SortDesc(s)) == multiset(s)
    ensures |SortDesc(s)| == |s|
    decreases |s|
  {
    if s != [] {
      var init, last := s[..|s| - 1], s[|s| - 1];
      SortDescPermutes(init);
      InsertPermutes(SortDesc(init), last);
      assert s == init + [last];
    }
  }

  /** Inserting a cell that comes later in the scan than every cell of a
      ranked sequence keeps it ranked. */
  lemma {:induction false} InsertRanked(s: seq<Cell>, x: Cell)
    requires Ranked(s)
    requires forall c :: c in s ==> Index(c) < Index(x)
    ensures Ranked(Insert(s, x))
    decreases |s|
  {
    if s == [] || s[|s| - 1].probability >= x.probability {
      var r := s + [x];
      forall a, b | 0 <= a < b < |r|
        ensures Before(r[a], r[b])
      {
        if b == |s| {
          assert r[a] == s[a] && s[a] in s;
          if a < |s| - 1 {
            assert Before(s[a], s[|s| - 1]);
          }
        }
      }
    } else {
      var init, last := s[..|s| - 1], s[|s| - 1];
      assert Ranked(init);
      forall c | c in init ensures Index(c) < Index(x) {
        assert c in s;
      }
      InsertRanked(init, x);
      InsertPermutes(init, x);
      var ins := Insert(init, x);
      var r := ins + [last];
      forall a, b | 0 <= a < b < |r|
        ensures Before(r[a], r[b])
      {
        if b == |ins| {
          var c := ins[a];
          assert c in multiset(ins);
          assert c in multiset(init) + multiset{x};
          if c != x {
            assert c in init;
            var p :| 0 <= p < |init| && init[p] == c;
            assert Before(s[p], s[|s| - 1]);
          }
        }
      }
    }
  }

  /** A stable sort of cells listed in scan order ranks them by probability
      and then by scan order. */
  lemma {:induction false} SortDescRanked(s: seq<Cell>)
    requires ScanOrder(s)
    ensures Ranked(SortDesc(s))
    decreases |s|
  {
    if s != [] {
      var init, last := s[..|s| - 1], s[|s| - 1];
      assert ScanOrder(init);
      SortDescRanked(init);
      SortDescPermutes(init);
      forall c | c in SortDesc(init) ensures Index(c) < Index(last) {
        assert c in multiset(SortDesc(init));
        assert c in init;
        var p :| 0 <= p < |init| && init[p] == c;
      }
      InsertRanked(SortDesc(init), last);
    }
  }

  lemma CellsOfScanOrder(m: seq<seq<real>>)
    requires |m| == MaxGoals && IsSquare(m)
    ensures ScanOrder(CellsOf(m))
    ensures forall k :: 0 <= k < |CellsOf(m)| ==> Index(CellsOf(m)[k]) == k
  {
    var cs := CellsOf(m);
    forall k | 0 <= k < |cs| ensures Index(cs[k]) == k {
      assert cs[k].home == k / MaxGoals && cs[k].away == k % MaxGoals;
    }
  }

  /** The five reported scorelines are five of the 100 cells, in
      non-increasing probability with ties in row-major scan order, and no
      cell left out is more probable than the fifth. */
  lemma TopFiveProperties(m: seq<seq<real>>)
    requires |m| == MaxGoals && IsSquare(m)
    ensures |TopFive(m)| == TopCount
    ensures forall k :: 0 <= k < TopCount ==> TopFive(m)[k] in CellsOf(m)
    ensures Ranked(TopFive(m))
    ensures forall a, b :: 0 <= a < b < TopCount ==> TopFive(m)[a].probability >= TopFive(m)[b].probability
    ensures forall c :: c in CellsOf(m) && c !in TopFive(m) ==> c.probability <= TopFive(m)[TopCount - 1].probability
  {
    var cs := CellsOf(m);
    var sorted := SortDesc(cs);
    SortDescPermutes(cs);
    CellsOfScanOrder(m);
    SortDescRanked(cs);
    var top := sorted[..TopCount];
    assert top == TopFive(m);
    forall k | 0 <= k < TopCount ensures top[k] in cs {
      assert top[k] == sorted[k];
      assert sorted[k] in multiset(sorted);
    }
    assert forall q :: 0 <= q < TopCount ==> top[q] == sorted[q];
    forall c | c in cs && c !in top
      ensures c.probability <= top[TopCount - 1].probability
    {
      assert c in multiset(sorted);
      var p :| 0 <= p < |sorted| && sorted[p] == c;
      if p > TopCount - 1 {
        assert Before(sorted[TopCount - 1], sorted[p]);
      }
    }
  }

  // ---------------------------------------------------------------------
  // The imperative parts: filling the table, scanning it, sorting in place
  // ---------------------------------------------------------------------

  /** `np.zeros((10, 10))` then `score_matrix[i, j] = hp[i] * ap[j]` in two
      nested loops (lines 90-93). */
  method FillScoreMatrix(hp: seq<real>, ap: seq<real>) returns (a: array2<real>)
    requires |hp| == MaxGoals && |ap| == MaxGoals
    ensures fresh(a) && a.Length0 == MaxGoals && a.Length1 == MaxGoals
    ensures forall i, j :: 0 <= i < MaxGoals && 0 <= j < MaxGoals ==> a[i, j] == hp[i] * ap[j]
  {
    a := new real[MaxGoals, MaxGoals]((i, j) => 0.0);
    var i := 0;
    while i < MaxGoals
      invariant 0 <= i <= MaxGoals
      invariant forall r, c :: 0 <= r < i && 0 <= c < MaxGoals ==> a[r, c] == hp[r] * ap[c]
    {
      var j := 0;
      while j < MaxGoals
        invariant 0 <= j <= MaxGoals
        invariant forall r, c :: 0 <= r < i && 0 <= c < MaxGoals ==> a[r, c] == hp[r] * ap[c]
        invariant forall c :: 0 <= c < j ==> a[i, c] == hp[i] * ap[c]
      {
        a[i, j] := hp[i] * ap[j];
        j := j + 1;
      }
      i := i + 1;
    }
  }

  /** `score_matrix.tolist()`. */
  function Rows(a: array2<real>): seq<seq<real>>
    reads a
  {
    seq(a.Length0, i requires 0 <= i < a.Length0 reads a =>
      seq(a.Length1, j requires 0 <= j < a.Length1 reads a => a[i, j]))
  }

  /** `top_scores.append(((i, j), score_matrix[i, j]))` over a row-major
      double loop (lines 110-113). */
  method CollectCells(a: array2<real>) returns (cells: seq<Cell>)
    requires a.Length0 == MaxGoals && a.Length1 == MaxGoals
    ensures |Rows(a)| == MaxGoals && IsSquare(Rows(a))
    ensures cells == CellsOf(Rows(a))
  {
    cells := [];
    var i := 0;
    while i < MaxGoals
      invariant 0 <= i <= MaxGoals
      invariant |cells| == i * MaxGoals
      invariant forall k :: 0 <= k < |cells| ==> cells[k] == Cell(k / MaxGoals, k % MaxGoals, a[k / MaxGoals, k % MaxGoals])
    {
      var j := 0;
      while j < MaxGoals
        invariant 0 <= j <= MaxGoals
        invariant |cells| == i * MaxGoals + j
        invariant forall k :: 0 <= k < |cells| ==> cells[k] == Cell(k / MaxGoals, k % MaxGoals, a[k / MaxGoals, k % MaxGoals])
      {
        cells := cells + [Cell(i, j, a[i, j])];
        j := j + 1;
      }
      i := i + 1;
    }
  }

  /** Where the stable insertion puts x: after the prefix s[..j] whose last
      cell is at least as probable as x, in front of the strictly less
      probable cells s[j..]. */
  lemma {:induction false} InsertAt(s: seq<Cell>, j: nat, x: Cell)
    requires j <= |s|
    requires j == 0 || s[j - 1].probability >= x.probability
    requires forall k :: j <= k < |s| ==> s[k].probability < x.probability
    ensures Insert(s, x) == s[..j] + [x] + s[j..]
    decreases |s|
  {
    if j == |s| {
      assert s[..j] == s && s[j..] == [];
    } else {
      var init := s[..|s| - 1];
      InsertAt(init, j, x);
      assert init[..j] == s[..j];
      assert init[j..] + [s[|s| - 1]] == s[j..];
    }
  }

  lemma SortDescStep(s: seq<Cell>, i: nat)
    requires i < |s|
    ensures SortDesc(s[..i + 1]) == Insert(SortDesc(s[..i]), s[i])
  {
    assert s[..i + 1][..i] == s[..i];
  }

  lemma Assembled(t: seq<Cell>, sorted: seq<Cell>, j: nat, x: Cell)
    requires |t| == |sorted| + 1 && j <= |sorted|
    requires forall k :: 0 <= k < j ==> t[k] == sorted[k]
    requires t[j] == x
    requires forall k :: j < k < |t| ==> t[k] == sorted[k - 1]
    ensures t == sorted[..j] + [x] + sorted[j..]
  {
  }

  /** One pass of the insertion sort: the cell at position i moves left
      past every strictly less probable cell of the sorted prefix. */
  method InsertInPlace(a: array<Cell>, i: nat)
    requires i < a.Length
    modifies a
    ensures a[..i + 1] == Insert(old(a[..i]), old(a[i]))
    ensures forall k :: i < k < a.Length ==> a[k] == old(a[k])
  {
    ghost var sorted := a[..i];
    var x := a[i];
    var j := i;
    while j > 0 && a[j - 1].probability < x.probability
      invariant 0 <= j <= i
      invariant forall k :: 0 <= k < j ==> a[k] == sorted[k]
      invariant forall k :: j < k <= i ==> a[k] == sorted[k - 1]
      invariant forall k :: i < k < a.Length ==> a[k] == old(a[k])
      invariant forall k :: j <= k < i ==> sorted[k].probability < x.probability
    {
      a[j] := a[j - 1];
      j := j - 1;
    }
    a[j] := x;
    InsertAt(sorted, j, x);
    Assembled(a[..i + 1], sorted, j, x);
  }

  /** The in-place stable sort of `top_scores` (line 115): an insertion
      sort that shifts strictly less probable cells right. */
  method SortInPlace(a: array<Cell>)
    modifies a
    ensures a[..] == SortDesc(old(a[..]))
  {
    ghost var input := a[..];
    var i := 0;
    while i < a.Length
      invariant 0 <= i <= a.Length
      invariant a[..i] == SortDesc(input[..i])
      invariant forall k :: i <= k < a.Length ==> a[k] == input[k]
    {
      InsertInPlace(a, i);
      SortDescStep(input, i);
      i := i + 1;
    }
    assert input[..a.Length] == input;
  }
}
