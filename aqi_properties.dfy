/**
 * What the AQI engine promises, stated over the specification functions of
 * module Aqi: the shape of its tables, the bin the scan selects, the range
 * and boundary values of a sub-index, the fallback for a concentration that
 * no bin contains, and the overall index as a maximum.
 */
module AqiProperties {
  import opened AqiTypes
  import opened Aqi

  // ---------------------------------------------------------------------
  // Tables
  // ---------------------------------------------------------------------

  /** Only EPA and MEP have tables, and neither lists the `None` pollutant. */
  lemma SentinelsHaveNoTable(p: Pollutant)
    ensures Algorithms.Keys == {Algorithm.EPA, Algorithm.MEP}
    ensures Bins(Algorithm.None, p) == UnknownAlgorithm
    ensures Bins(Algorithm.EPA, Pollutant.None) == UnknownPollutant
    ensures Bins(Algorithm.MEP, Pollutant.None) == UnknownPollutant
    ensures p != Pollutant.None ==> Bins(Algorithm.EPA, p).Found? && Bins(Algorithm.MEP, p).Found?
  {
  }

  /**
   * The index scale: seven bins of whole numbers from 0 to 500, each a proper
   * interval, each starting one above the end of the previous.
   */
  lemma IndexScale()
    ensures |IndexBins| == 7
    ensures IndexBins[0].lo == 0.0 && IndexBins[6].hi == 500.0
    ensures forall k :: 0 <= k < 7 ==>
      && IndexBins[k].lo < IndexBins[k].hi
      && IndexBins[k].lo.Floor as real == IndexBins[k].lo
      && IndexBins[k].hi.Floor as real == IndexBins[k].hi
    ensures forall k :: 0 <= k < 6 ==> IndexBins[k + 1].lo == IndexBins[k].hi + 1.0
  {
  }

  /** In a well-formed table every earlier bin ends below the start of every later one. */
  lemma {:induction false} EarlierBinEndsBelow(bins: Breakpoints, i: nat, j: nat)
    requires WellFormed(bins)
    requires i < j < |bins|
    ensures bins[i].hi < bins[j].lo
    decreases j - i
  {
    if i + 1 < j {
      EarlierBinEndsBelow(bins, i + 1, j);
    }
  }

  /** In a well-formed table a concentration lies in at most one bin, and the scan selects it. */
  lemma FirstContainingFindsBin(bins: Breakpoints, k: nat, c: real)
    requires WellFormed(bins)
    requires k < |bins| && Contains(bins[k], c)
    ensures FirstContaining(bins, c) == k
  {
    var r := FirstContaining(bins, c);
    if r < k {
      EarlierBinEndsBelow(bins, r, k);
    }
  }

  // ---------------------------------------------------------------------
  // Sub-index
  // ---------------------------------------------------------------------

  /** A share t/d of a span s, with 0 <= t <= d, lies within [0, s]. */
  lemma ShareOfSpan(s: real, d: real, t: real)
    requires 0.0 <= s && 0.0 < d && 0.0 <= t <= d
    ensures 0.0 <= s / d * t <= s
    ensures t == d ==> s / d * t == s
  {
    var q := s / d;
    assert q * d == s;
    assert 0.0 <= q;
    assert q * t <= q * d;
  }

  /** Truncating a value between two whole non-negative bounds stays between them. */
  lemma TruncWithin(v: real, lo: int, hi: int)
    requires 0 <= lo && lo as real <= v <= hi as real
    ensures lo <= Trunc(v) <= hi
    ensures v == lo as real ==> Trunc(v) == lo
    ensures v == hi as real ==> Trunc(v) == hi
  {
  }

  /**
   * The interpolation line stays within the index bin over the
   * concentration bin and meets its end points at the bin's end points.
   */
  lemma InterpolateWithin(aqi: Breakpoint, bp: Breakpoint, c: real)
    requires aqi.lo <= aqi.hi && bp.lo < bp.hi && bp.lo <= c <= bp.hi
    ensures aqi.lo <= Interpolate(aqi, bp, c) <= aqi.hi
    ensures c == bp.lo ==> Interpolate(aqi, bp, c) == aqi.lo
    ensures c == bp.hi ==> Interpolate(aqi, bp, c) == aqi.hi
  {
    ShareOfSpan(aqi.hi - aqi.lo, bp.hi - bp.lo, c - bp.lo);
  }

  /**
   * Against a well-formed table, a concentration inside bin k gets a
   * sub-index inside index bin k: at the bin's low bound exactly the index
   * bin's low bound, at its high bound exactly the index bin's high bound.
   */
  lemma SubIndexOfInBin(bins: Breakpoints, k: nat, c: real)
    requires WellFormed(bins)
    requires k < |bins| && Contains(bins[k], c)
    ensures IndexBins[k].lo <= SubIndexOf(bins, c) as real <= IndexBins[k].hi
    ensures c == bins[k].lo ==> SubIndexOf(bins, c) as real == IndexBins[k].lo
    ensures c == bins[k].hi ==> SubIndexOf(bins, c) as real == IndexBins[k].hi
  {
    FirstContainingFindsBin(bins, k, c);
    IndexScale();
    var bp, aqi := bins[k], IndexBins[k];
    InterpolateWithin(aqi, bp, c);
    var v := Interpolate(aqi, bp, c);
    assert SubIndexOf(bins, c) == Trunc(v);
    assert aqi.lo.Floor as real == aqi.lo && aqi.hi.Floor as real == aqi.hi;
    TruncWithin(v, aqi.lo.Floor, aqi.hi.Floor);
  }

  /**
   * A concentration inside bin k of a table gets a sub-index inside index
   * bin k; at the bin's low bound exactly the index bin's low bound, at its
   * high bound exactly the index bin's high bound.
   */
  lemma SubIndexInBin(algo: Algorithm, p: Pollutant, k: nat, c: real)
    requires Bins(algo, p).Found?
    requires k < |Bins(algo, p).bins| && Contains(Bins(algo, p).bins[k], c)
    ensures IndexBins[k].lo <= SubIndex(algo, Concentration(p, c)) as real <= IndexBins[k].hi
    ensures c == Bins(algo, p).bins[k].lo ==> SubIndex(algo, Concentration(p, c)) as real == IndexBins[k].lo
    ensures c == Bins(algo, p).bins[k].hi ==> SubIndex(algo, Concentration(p, c)) as real == IndexBins[k].hi
  {
    SubIndexOfInBin(Bins(algo, p).bins, k, c);
  }

  /** A concentration that some bin contains gets a sub-index on the 0-500 scale. */
  lemma SubIndexOnScale(algo: Algorithm, p: Pollutant, k: nat, c: real)
    requires Bins(algo, p).Found?
    requires k < |Bins(algo, p).bins| && Contains(Bins(algo, p).bins[k], c)
    ensures 0 <= SubIndex(algo, Concentration(p, c)) <= 500
  {
    SubIndexInBin(algo, p, k, c);
    IndexScale();
    assert IndexBins[0].lo <= IndexBins[k].lo;
    assert IndexBins[k].hi <= IndexBins[6].hi;
  }

  /**
   * A concentration that no bin contains keeps the default end points 0 and
   * 1 and the last index bin, 401-500: the sub-index is trunc(99 c + 401),
   * at least 401 for a non-negative concentration.
   */
  lemma SubIndexOutsideEveryBin(algo: Algorithm, p: Pollutant, c: real)
    requires Bins(algo, p).Found?
    requires forall k :: 0 <= k < |Bins(algo, p).bins| ==> !Contains(Bins(algo, p).bins[k], c)
    ensures SubIndex(algo, Concentration(p, c)) == Trunc(99.0 * c + 401.0)
    ensures 0.0 <= c ==> SubIndex(algo, Concentration(p, c)) >= 401
  {
    var bins := Bins(algo, p).bins;
    assert FirstContaining(bins, c) == |bins|;
    assert Interpolate(IndexBins[6], NoMatch, c) == 99.0 * c + 401.0;
  }

  /**
   * Above the last bin's high bound no bin applies, so an unclamped
   * concentration overshoots the 0-500 scale.
   */
  lemma AboveCeilingOvershoots(algo: Algorithm, p: Pollutant, c: real)
    requires Bins(algo, p).Found?
    requires c > Bins(algo, p).bins[|Bins(algo, p).bins| - 1].hi
    ensures SubIndex(algo, Concentration(p, c)) == Trunc(99.0 * c + 401.0)
    ensures SubIndex(algo, Concentration(p, c)) > 500
  {
    var bins := Bins(algo, p).bins;
    forall k | 0 <= k < |bins| ensures !Contains(bins[k], c) {
      LastBinIsCeiling(bins, k);
    }
    LastBinIsCeiling(bins, 0);
    SubIndexOutsideEveryBin(algo, p, c);
  }

  /** Sub-index values at published bin boundaries. */
  lemma BoundaryExamples()
    ensures SubIndex(Algorithm.EPA, Concentration(Pollutant.PM25, 0.0)) == 0
    ensures SubIndex(Algorithm.EPA, Concentration(Pollutant.PM25, 35.4)) == 100
    ensures SubIndex(Algorithm.EPA, Concentration(Pollutant.PM25, 150.4)) == 200
    ensures SubIndex(Algorithm.MEP, Concentration(Pollutant.PM10, 50.0)) == 50
    ensures SubIndex(Algorithm.EPA, Concentration(Pollutant.PM10, 604.0)) == 500
  {
    SubIndexInBin(Algorithm.EPA, Pollutant.PM25, 0, 0.0);
    SubIndexInBin(Algorithm.EPA, Pollutant.PM25, 1, 35.4);
    SubIndexInBin(Algorithm.EPA, Pollutant.PM25, 3, 150.4);
    OtherBoundaryExamples();
  }

  lemma OtherBoundaryExamples()
    ensures SubIndex(Algorithm.MEP, Concentration(Pollutant.PM10, 50.0)) == 50
    ensures SubIndex(Algorithm.EPA, Concentration(Pollutant.PM10, 604.0)) == 500
  {
    SubIndexInBin(Algorithm.MEP, Pollutant.PM10, 0, 50.0);
    SubIndexInBin(Algorithm.EPA, Pollutant.PM10, 6, 604.0);
  }

  /**
   * The sub-index is not monotone: EPA PM2.5 12.05 lies between the bins
   * ending at 12.0 and starting at 12.1 and gets 1593, far above both
   * neighbours.
   */
  lemma GapBreaksMonotonicity()
    ensures SubIndex(Algorithm.EPA, Concentration(Pollutant.PM25, 12.0)) == 50
    ensures SubIndex(Algorithm.EPA, Concentration(Pollutant.PM25, 12.05)) == 1593
    ensures SubIndex(Algorithm.EPA, Concentration(Pollutant.PM25, 12.1)) == 51
  {
    SubIndexInBin(Algorithm.EPA, Pollutant.PM25, 0, 12.0);
    SubIndexInBin(Algorithm.EPA, Pollutant.PM25, 1, 12.1);
    var bins := Bins(Algorithm.EPA, Pollutant.PM25).bins;
    forall k | 0 <= k < |bins| ensures !Contains(bins[k], 12.05) {
      if k >= 1 {
        EarlierBinEndsBelow(bins, 0, k);
      }
    }
    SubIndexOutsideEveryBin(Algorithm.EPA, Pollutant.PM25, 12.05);
    var t := Trunc(99.0 * 12.05 + 401.0);
    assert t as real <= 1593.95 < t as real + 1.0;
  }

  // ---------------------------------------------------------------------
  // Display precision against the tables
  // ---------------------------------------------------------------------

  /** `x` is a whole multiple of the step `q`. */
  ghost predicate OnGrid(x: real, q: real)
    requires q > 0.0
  {
    (x / q).Floor as real == x / q
  }

  /**
   * Every table bound is a whole multiple of its pollutant's display
   * precision, and, except under MEP for PM2.5, consecutive bins are exactly
   * one precision step apart.
   */
  lemma TablesFitPrecision(algo: Algorithm, p: Pollutant, k: nat)
    requires Bins(algo, p).Found?
    requires k < |Bins(algo, p).bins|
    ensures OnGrid(Bins(algo, p).bins[k].lo, AQI.GetPrecision(p))
    ensures OnGrid(Bins(algo, p).bins[k].hi, AQI.GetPrecision(p))
    ensures !(algo == Algorithm.MEP && p == Pollutant.PM25) && k + 1 < |Bins(algo, p).bins| ==>
      Bins(algo, p).bins[k + 1].lo == Bins(algo, p).bins[k].hi + AQI.GetPrecision(p)
  {
    match (algo, p)
    case (EPA, PM10) => EpaPm10FitsGrid();
    case (EPA, PM25) => EpaPm25FitsGrid();
    case (MEP, PM10) => MepPm10FitsGrid();
    case (MEP, PM25) => MepPm25FitsGrid();
  }

  /** Every bound of `bins` lies on the grid of step `q`. */
  ghost predicate FitsGrid(bins: Breakpoints, q: real)
    requires q > 0.0
  {
    forall k :: 0 <= k < |bins| ==> OnGrid(bins[k].lo, q) && OnGrid(bins[k].hi, q)
  }

  /** Each bin of `bins` starts one step of `q` after the previous one ends. */
  ghost predicate Stepped(bins: Breakpoints, q: real) {
    forall k :: 0 <= k < |bins| - 1 ==> bins[k + 1].lo == bins[k].hi + q
  }

  lemma EpaPm10FitsGrid()
    ensures FitsGrid(EpaPm10, 1.0) && Stepped(EpaPm10, 1.0)
  {
  }

  lemma EpaPm25FitsGrid()
    ensures FitsGrid(EpaPm25, 0.1) && Stepped(EpaPm25, 0.1)
  {
  }

  lemma MepPm10FitsGrid()
    ensures FitsGrid(MepPm10, 1.0) && Stepped(MepPm10, 1.0)
  {
  }

  /** MEP PM2.5 bounds are whole numbers, one apart: a whole step of ten display steps. */
  lemma MepPm25FitsGrid()
    ensures FitsGrid(MepPm25, 0.1) && Stepped(MepPm25, 1.0)
  {
  }

  /**
   * A reading on the display grid that lies between the first bin's low
   * bound and the last bin's high bound, but in no bin, must fall strictly
   * inside a gap: between some bin k and bin k + 1.
   */
  lemma {:induction false} InsideSomeGap(bins: Breakpoints, c: real, k: nat)
    requires WellFormed(bins)
    requires k < |bins| && bins[k].lo <= c <= bins[|bins| - 1].hi
    requires forall j :: 0 <= j < |bins| ==> !Contains(bins[j], c)
    ensures exists j :: k <= j < |bins| - 1 && bins[j].hi < c < bins[j + 1].lo
    decreases |bins| - k
  {
    assert !Contains(bins[k], c);
    assert k < |bins| - 1;
    if c < bins[k + 1].lo {
      assert bins[k].hi < c < bins[k + 1].lo;
    } else {
      InsideSomeGap(bins, c, k + 1);
    }
  }

  /** Dividing by a positive step keeps a strict order. */
  lemma DivideKeepsOrder(x: real, c: real, q: real)
    requires q > 0.0 && x < c
    ensures x / q < c / q
  {
    assert c / q - x / q == (c - x) / q;
    assert (c - x) / q * q == c - x;
  }

  /** Strictly between two neighbouring points of a grid there is no point of it. */
  lemma NothingOnGridBetween(x: real, c: real, q: real)
    requires q > 0.0
    requires OnGrid(x, q)
    requires x < c < x + q
    ensures !OnGrid(c, q)
  {
    DivideKeepsOrder(x, c, q);
    DivideKeepsOrder(c, x + q, q);
    StepUp(x, q);
    NoWholeBetween(x / q, c / q);
  }

  /** One step further along the grid is one unit further in steps. */
  lemma StepUp(x: real, q: real)
    requires q > 0.0
    ensures (x + q) / q == x / q + 1.0
  {
    var y1, y2 := (x + q) / q, x / q + 1.0;
    assert x / q * q == x;
    assert y1 * q == x + q;
    assert y2 * q == x + q;
    var d := y1 - y2;
    assert d * q == 0.0;
    assert d == d * q / q;
  }

  /** No whole number lies strictly between a whole number and its successor. */
  lemma NoWholeBetween(a: real, b: real)
    requires a.Floor as real == a
    requires a < b < a + 1.0
    ensures b.Floor as real != b
  {
    var m, n := a.Floor, b.Floor;
    assert n as real <= b < n as real + 1.0;
    assert m <= n by {
      assert m as real < n as real + 1.0;
    }
    assert n <= m by {
      assert n as real < m as real + 1.0;
    }
  }

  /**
   * Except under MEP for PM2.5, a reading rounded to its pollutant's display
   * precision that lies between 0 and the ceiling is always inside a bin, so
   * it never takes the gap fallback.
   */
  lemma OnGridReadingFindsBin(algo: Algorithm, p: Pollutant, c: real)
    requires Bins(algo, p).Found?
    requires !(algo == Algorithm.MEP && p == Pollutant.PM25)
    requires OnGrid(c, AQI.GetPrecision(p))
    requires 0.0 <= c <= Bins(algo, p).bins[|Bins(algo, p).bins| - 1].hi
    ensures FirstContaining(Bins(algo, p).bins, c) < |Bins(algo, p).bins|
  {
    var bins := Bins(algo, p).bins;
    if FirstContaining(bins, c) == |bins| {
      TablesFitPrecision(algo, p, 0);
      InsideSomeGap(bins, c, 0);
      var j :| 0 <= j < |bins| - 1 && bins[j].hi < c < bins[j + 1].lo;
      TablesFitPrecision(algo, p, j);
      NothingOnGridBetween(bins[j].hi, c, AQI.GetPrecision(p));
    }
  }

  /**
   * Under MEP the PM2.5 bins are a whole unit apart although PM2.5 is shown
   * to a tenth: 35.5 is on the display grid, lies in no bin and gets 3915.
   */
  lemma MepPm25GridReadingInGap()
    ensures OnGrid(35.5, AQI.GetPrecision(Pollutant.PM25))
    ensures FirstContaining(Bins(Algorithm.MEP, Pollutant.PM25).bins, 35.5) == 7
    ensures SubIndex(Algorithm.MEP, Concentration(Pollutant.PM25, 35.5)) == 3915
  {
    var bins := Bins(Algorithm.MEP, Pollutant.PM25).bins;
    forall k | 0 <= k < |bins| ensures !Contains(bins[k], 35.5) {
      if k >= 2 {
        EarlierBinEndsBelow(bins, 1, k);
      }
    }
    SubIndexOutsideEveryBin(Algorithm.MEP, Pollutant.PM25, 35.5);
    var t := Trunc(99.0 * 35.5 + 401.0);
    assert t as real <= 3915.5 < t as real + 1.0;
  }

  // ---------------------------------------------------------------------
  // Overall index
  // ---------------------------------------------------------------------

  /** With no readings the overall index is 0. */
  lemma OverallIndexOfNothing(algo: Algorithm)
    ensures OverallIndex(algo, []) == 0
  {
  }

  /** Readings drawn from those of `b` never give a larger overall index than `b` does. */
  lemma OverallIndexOfSubset(algo: Algorithm, a: Concentrations, b: Concentrations)
    requires forall x :: x in a ==> x in b
    ensures OverallIndex(algo, a) <= OverallIndex(algo, b)
  {
    var r := OverallIndex(algo, a);
    if r != 0 {
      var i :| 0 <= i < |a| && SubIndex(algo, a[i]) == r;
      assert a[i] in b;
      var j :| 0 <= j < |b| && b[j] == a[i];
    }
  }

  /** The overall index depends only on which readings are given, not on their order or repetition. */
  lemma OverallIndexOrderFree(algo: Algorithm, a: Concentrations, b: Concentrations)
    requires forall x :: x in a <==> x in b
    ensures OverallIndex(algo, a) == OverallIndex(algo, b)
  {
    OverallIndexOfSubset(algo, a, b);
    OverallIndexOfSubset(algo, b, a);
  }

  /** A permutation of the readings gives the same overall index. */
  lemma OverallIndexOfPermutation(algo: Algorithm, a: Concentrations, b: Concentrations)
    requires multiset(a) == multiset(b)
    ensures OverallIndex(algo, a) == OverallIndex(algo, b)
  {
    forall x ensures x in a <==> x in b {
      assert x in a <==> x in multiset(a);
      assert x in b <==> x in multiset(b);
    }
    OverallIndexOrderFree(algo, a, b);
  }

  /**
   * A reading whose sub-index is negative, such as a lookup error -1 or -2,
   * never changes the overall index, wherever it is placed.
   */
  lemma FailedReadingNeverWins(algo: Algorithm, cons: Concentrations, c: Concentration)
    requires SubIndex(algo, c) < 0
    ensures OverallIndex(algo, cons + [c]) == OverallIndex(algo, cons)
    ensures OverallIndex(algo, [c] + cons) == OverallIndex(algo, cons)
  {
    assert (cons + [c])[..|cons|] == cons;
    OverallIndexOrderFree(algo, [c] + cons, cons + [c]);
  }

  /** An engine whose algorithm has no table rates every list of readings 0. */
  lemma NoTableRatesZero(cons: Concentrations)
    ensures OverallIndex(Algorithm.None, cons) == 0
  {
  }

  // ---------------------------------------------------------------------
  // Ceiling
  // ---------------------------------------------------------------------

  /** The ceilings of the four tables, and 0 wherever there is no table. */
  lemma MaxConcentrationValues(a: AQI)
    requires a.Valid()
    ensures a.algo == Algorithm.EPA ==>
      a.GetMaxConcentration(Pollutant.PM10) == 604.0 && a.GetMaxConcentration(Pollutant.PM25) == 500.4
    ensures a.algo == Algorithm.MEP ==>
      a.GetMaxConcentration(Pollutant.PM10) == 600.0 && a.GetMaxConcentration(Pollutant.PM25) == 500.0
    ensures a.algo == Algorithm.None ==> a.GetMaxConcentration(Pollutant.PM10) == 0.0
    ensures a.GetMaxConcentration(Pollutant.None) == 0.0
  {
  }

  /** A concentration clamped to the ceiling gets exactly 500, the top of the scale. */
  lemma SubIndexAtCeiling(a: AQI, p: Pollutant)
    requires a.Valid()
    requires Bins(a.algo, p).Found?
    ensures SubIndex(a.algo, Concentration(p, a.GetMaxConcentration(p))) == 500
  {
    var bins := Bins(a.algo, p).bins;
    LastBinIsCeiling(bins, 6);
    SubIndexInBin(a.algo, p, 6, a.GetMaxConcentration(p));
  }
}
