/**
 * The AQI engine of main/aqi.cpp: the fixed breakpoint tables, the
 * sub-index of one reading (bin lookup plus linear interpolation, truncated
 * toward zero) and the overall index (the largest sub-index, at least 0).
 *
 * The functions below the tables are the specification; class `AQI` holds
 * the engine's state and its methods, which are proved equal to them.
 */
module Aqi {
  import opened AqiTypes
  import opened Wrappers

  // ---------------------------------------------------------------------
  // Tables
  // ---------------------------------------------------------------------

  /** The index scale shared by every algorithm: 0-50, 51-100, ..., 401-500. */
  const IndexBins: Breakpoints := [
    Breakpoint(0.0, 50.0),
    Breakpoint(51.0, 100.0),
    Breakpoint(101.0, 150.0),
    Breakpoint(151.0, 200.0),
    Breakpoint(201.0, 300.0),
    Breakpoint(301.0, 400.0),
    Breakpoint(401.0, 500.0)
  ]

  /** EPA PM10 bins, in micrograms per cubic metre, as the source writes them. */
  const EpaPm10: Breakpoints := [
    Breakpoint(0.0, 54.0),
    Breakpoint(55.0, 154.0),
    Breakpoint(155.0, 254.0),
    Breakpoint(255.0, 354.0),
    Breakpoint(355.0, 424.0),
    Breakpoint(425.0, 504.0),
    Breakpoint(505.0, 604.0)
  ]

  /** EPA PM2.5 bins. */
  const EpaPm25: Breakpoints := [
    Breakpoint(0.0, 12.0),
    Breakpoint(12.1, 35.4),
    Breakpoint(35.5, 55.4),
    Breakpoint(55.5, 150.4),
    Breakpoint(150.5, 250.4),
    Breakpoint(250.5, 350.4),
    Breakpoint(350.5, 500.4)
  ]

  /** MEP (HJ 633-2012) PM10 bins, as the source writes them. */
  const MepPm10: Breakpoints := [
    Breakpoint(0.0, 50.0),
    Breakpoint(51.0, 150.0),
    Breakpoint(151.0, 250.0),
    Breakpoint(251.0, 350.0),
    Breakpoint(351.0, 420.0),
    Breakpoint(421.0, 500.0),
    Breakpoint(501.0, 600.0)
  ]

  /** MEP PM2.5 bins. */
  const MepPm25: Breakpoints := [
    Breakpoint(0.0, 35.0),
    Breakpoint(36.0, 75.0),
    Breakpoint(76.0, 115.0),
    Breakpoint(116.0, 150.0),
    Breakpoint(151.0, 250.0),
    Breakpoint(251.0, 350.0),
    Breakpoint(351.0, 500.0)
  ]

  /** The table of every algorithm that has one: EPA and MEP, each for PM10 and PM2.5. */
  const Algorithms: map<Algorithm, BreakpointsMap> := map[
    Algorithm.EPA := map[Pollutant.PM10 := EpaPm10, Pollutant.PM25 := EpaPm25],
    Algorithm.MEP := map[Pollutant.PM10 := MepPm10, Pollutant.PM25 := MepPm25]
  ]

  /** The interpolation end points used when no bin contains the concentration. */
  const NoMatch: Breakpoint := Breakpoint(0.0, 1.0)

  // ---------------------------------------------------------------------
  // Specification
  // ---------------------------------------------------------------------

  /** Closed-interval membership, the test of the bin scan. */
  predicate Contains(bp: Breakpoint, c: real) {
    bp.lo <= c <= bp.hi
  }

  /**
   * The shape every concentration table has: one bin per index bin, each a
   * proper interval, each ending below the start of the next.
   */
  ghost predicate WellFormed(bins: Breakpoints) {
    && |bins| == |IndexBins|
    && (forall k :: 0 <= k < |bins| ==> bins[k].lo < bins[k].hi)
    && (forall k :: 0 <= k < |bins| - 1 ==> bins[k].hi < bins[k + 1].lo)
  }

  /** Every concentration table has the shape of the index scale. */
  lemma TablesWellFormed()
    ensures WellFormed(EpaPm10) && WellFormed(EpaPm25) && WellFormed(MepPm10) && WellFormed(MepPm25)
  {
    EpaTablesWellFormed();
    MepTablesWellFormed();
  }

  lemma EpaTablesWellFormed()
    ensures WellFormed(EpaPm10) && WellFormed(EpaPm25)
  {
  }

  lemma MepTablesWellFormed()
    ensures WellFormed(MepPm10) && WellFormed(MepPm25)
  {
  }

  /** The outcome of looking a pollutant up under an algorithm. */
  datatype Lookup = Found(bins: Breakpoints) | UnknownAlgorithm | UnknownPollutant

  /**
   * The bins of pollutant `p` under `algo`; the algorithm is looked up first,
   * so an unknown algorithm hides an unknown pollutant.
   */
  function Bins(algo: Algorithm, p: Pollutant): (l: Lookup)
    ensures l.UnknownAlgorithm? <==> algo !in Algorithms
    ensures l.UnknownPollutant? <==> algo in Algorithms && p !in Algorithms[algo]
    ensures l.Found? ==> WellFormed(l.bins)
  {
    TablesWellFormed();
    if algo !in Algorithms then UnknownAlgorithm
    else if p !in Algorithms[algo] then UnknownPollutant
    else Found(Algorithms[algo][p])
  }

  /**
   * The 0-based position of the first bin, in table order, that contains `c`;
   * `|bins|` when none does.
   */
  function FirstContaining(bins: Breakpoints, c: real): (k: nat)
    ensures k <= |bins|
    ensures k < |bins| ==> Contains(bins[k], c)
    ensures forall j :: 0 <= j < k ==> !Contains(bins[j], c)
  {
    if |bins| == 0 then 0
    else if Contains(bins[0], c) then 0
    else 1 + FirstContaining(bins[1..], c)
  }

  /** `static_cast<int>` of a value in range: truncation toward zero. */
  function Trunc(x: real): (r: int)
    ensures 0.0 <= x ==> r as real <= x < r as real + 1.0
    ensures x < 0.0 ==> r as real - 1.0 < x <= r as real
  {
    if x >= 0.0 then x.Floor else -((-x).Floor)
  }

  /** The straight line through (bp.lo, aqi.lo) and (bp.hi, aqi.hi), evaluated at `c`. */
  function Interpolate(aqi: Breakpoint, bp: Breakpoint, c: real): real
    requires bp.lo != bp.hi
  {
    (aqi.hi - aqi.lo) / (bp.hi - bp.lo) * (c - bp.lo) + aqi.lo
  }

  /**
   * The sub-index of `c` against a table: the first bin containing `c`
   * supplies the concentration end points (or `NoMatch` when none does), its
   * position, clamped to the last index bin, supplies the index end points.
   */
  function SubIndexOf(bins: Breakpoints, c: real): int
    requires WellFormed(bins)
  {
    var k := FirstContaining(bins, c);
    var bp := if k < |bins| then bins[k] else NoMatch;
    var idx := if k >= |IndexBins| then |IndexBins| - 1 else k;
    Trunc(Interpolate(IndexBins[idx], bp, c))
  }

  /** The sub-index of one reading under `algo`: -1 and -2 are the lookup errors. */
  function SubIndex(algo: Algorithm, con: Concentration): int {
    match Bins(algo, con.pollutant)
    case UnknownAlgorithm => -1
    case UnknownPollutant => -2
    case Found(bins) => SubIndexOf(bins, con.value)
  }

  /**
   * The overall index: the running maximum of the sub-indices, from 0. It is
   * the largest of 0 and every sub-index.
   */
  function OverallIndex(algo: Algorithm, cons: Concentrations): (r: int)
    ensures r >= 0
    ensures forall i :: 0 <= i < |cons| ==> SubIndex(algo, cons[i]) <= r
    ensures r == 0 || exists i :: 0 <= i < |cons| && SubIndex(algo, cons[i]) == r
  {
    if |cons| == 0 then 0
    else
      var prev := OverallIndex(algo, cons[..|cons| - 1]);
      var sub := SubIndex(algo, cons[|cons| - 1]);
      assert forall i :: 0 <= i < |cons| - 1 ==> cons[..|cons| - 1][i] == cons[i];
      if sub > prev then sub else prev
  }

  /** Every bin of a well-formed table ends at or below the last bin's high bound. */
  lemma {:induction false} LastBinIsCeiling(bins: Breakpoints, k: nat)
    requires WellFormed(bins)
    requires k < |bins|
    ensures bins[k].lo < bins[k].hi <= bins[|bins| - 1].hi
    decreases |bins| - k
  {
    if k < |bins| - 1 {
      LastBinIsCeiling(bins, k + 1);
    }
  }

  // ---------------------------------------------------------------------
  // The engine
  // ---------------------------------------------------------------------

  /**
   * An AQI engine. The algorithm is chosen at construction and fixed for
   * the object's lifetime; the tables are filled by the constructor and no
   * other member changes anything.
   */
  class AQI {
    const algo: Algorithm
    var indices: Breakpoints
    var algos: map<Algorithm, BreakpointsMap>

    /** The tables are the ones the constructor builds. */
    ghost predicate Valid()
      reads this
    {
      indices == IndexBins && algos == Algorithms
    }

    /** The algorithm defaults to EPA. */
    constructor (algo: Algorithm := Algorithm.EPA)
      ensures this.algo == algo
      ensures Valid()
    {
      this.algo := algo;
      new;
      InitIndices();
      InitAlgos();
    }

    /** Clears the index scale and appends its seven bins in order. */
    method InitIndices()
      modifies this`indices
      ensures indices == IndexBins
    {
      indices := [];
      indices := indices + [Breakpoint(0.0, 50.0)];
      indices := indices + [Breakpoint(51.0, 100.0)];
      indices := indices + [Breakpoint(101.0, 150.0)];
      indices := indices + [Breakpoint(151.0, 200.0)];
      indices := indices + [Breakpoint(201.0, 300.0)];
      indices := indices + [Breakpoint(301.0, 400.0)];
      indices := indices + [Breakpoint(401.0, 500.0)];
    }

    /** Clears the algorithm map and enters the EPA and then the MEP table. */
    method InitAlgos()
      modifies this`algos
      ensures algos == Algorithms
    {
      algos := map[];
      var epaBreakpoints: BreakpointsMap := map[];
      epaBreakpoints := epaBreakpoints[Pollutant.PM10 := EpaPm10];
      epaBreakpoints := epaBreakpoints[Pollutant.PM25 := EpaPm25];
      algos := algos[Algorithm.EPA := epaBreakpoints];
      var mepBreakpoints: BreakpointsMap := map[];
      mepBreakpoints := mepBreakpoints[Pollutant.PM10 := MepPm10];
      mepBreakpoints := mepBreakpoints[Pollutant.PM25 := MepPm25];
      algos := algos[Algorithm.MEP := mepBreakpoints];
    }

    /** The sub-index of one reading; -1 for an unknown algorithm, -2 for an unknown pollutant. */
    method GetIntermediateIndex(con: Concentration) returns (r: int)
      requires Valid()
      ensures r == SubIndex(algo, con)
    {
      if algo !in algos {
        return -1;
      }
      var breakpointsMap := algos[algo];
      var pollutant := con.pollutant;
      if pollutant !in breakpointsMap {
        return -2;
      }
      var breakpoints := breakpointsMap[pollutant];
      assert Bins(algo, pollutant) == Found(breakpoints);
      var concentration := con.value;
      var bpLo, bpHi := 0.0, 1.0;
      var idx := 0;
      while idx < |breakpoints|
        invariant 0 <= idx <= |breakpoints|
        invariant forall j :: 0 <= j < idx ==> !Contains(breakpoints[j], concentration)
        invariant bpLo == NoMatch.lo && bpHi == NoMatch.hi
      {
        var bp := breakpoints[idx];
        if concentration >= bp.lo && concentration <= bp.hi {
          bpLo, bpHi := bp.lo, bp.hi;
          break;
        }
        idx := idx + 1;
      }
      assert FirstContaining(breakpoints, concentration) == idx;
      ghost var bp := if idx < |breakpoints| then breakpoints[idx] else NoMatch;
      assert bpLo == bp.lo && bpHi == bp.hi;
      if idx >= |indices| {
        idx := |indices| - 1;
      }
      var aqi := indices[idx];
      assert aqi == IndexBins[idx];
      assert Breakpoint(bpLo, bpHi) == bp;
      var value := Interpolate(aqi, Breakpoint(bpLo, bpHi), concentration);
      r := Trunc(value);
    }

    /** The overall index of a list of readings: the running maximum from 0. */
    method GetIndex(concentrations: Concentrations) returns (r: int)
      requires Valid()
      ensures r == OverallIndex(algo, concentrations)
    {
      r := 0;
      var i := 0;
      while i < |concentrations|
        invariant 0 <= i <= |concentrations|
        invariant r == OverallIndex(algo, concentrations[..i])
      {
        var iidx := GetIntermediateIndex(concentrations[i]);
        assert concentrations[..i + 1][..i] == concentrations[..i];
        if iidx > r {
          r := iidx;
        }
        i := i + 1;
      }
      assert concentrations[..i] == concentrations;
    }

    /** An unimplemented inverse: whatever the index, the answer is 0. */
    function GetConcentration(intermediate: int): (r: real)
      ensures r == 0.0
    {
      0.0
    }

    /**
     * The high bound of the last bin of `p` under this engine's algorithm,
     * the ceiling of every bin; 0 when the algorithm or the pollutant has no
     * table.
     */
    function GetMaxConcentration(p: Pollutant): (r: real)
      reads this
      requires Valid()
      ensures Bins(algo, p).Found? ==>
        && r == Bins(algo, p).bins[|Bins(algo, p).bins| - 1].hi
        && forall k :: 0 <= k < |Bins(algo, p).bins| ==> Bins(algo, p).bins[k].hi <= r
      ensures !Bins(algo, p).Found? ==> r == 0.0
    {
      if algo !in algos then 0.0
      else if p !in algos[algo] then 0.0
      else
        var breakpoints := algos[algo][p];
        assert Bins(algo, p) == Found(breakpoints);
        assert forall k :: 0 <= k < |breakpoints| ==> breakpoints[k].hi <= breakpoints[|breakpoints| - 1].hi by {
          forall k | 0 <= k < |breakpoints| ensures breakpoints[k].hi <= breakpoints[|breakpoints| - 1].hi {
            LastBinIsCeiling(breakpoints, k);
          }
        }
        breakpoints[|breakpoints| - 1].hi
    }

    /** The display granularity of a pollutant, whatever the algorithm: 0.1 for PM2.5, 1 otherwise. */
    static function GetPrecision(p: Pollutant): (r: real)
      ensures 0.0 < r <= 1.0
      ensures r < 1.0 <==> p == Pollutant.PM25
    {
      match p
      case PM10 => 1.0
      case PM25 => 0.1
      case _ => 1.0
    }

    /**
     * The display unit of a pollutant, whatever the algorithm: defined
     * exactly for the pollutants every algorithm has a table for.
     */
    static function GetUnits(p: Pollutant): (r: Option<string>)
      ensures r.Some? <==> forall a :: a in Algorithms ==> p in Algorithms[a]
      ensures r.Some? ==> r.value == "µg/m³"
    {
      match p
      case PM10 => Some("µg/m³")
      case PM25 => Some("µg/m³")
      case _ =>
        assert Algorithm.EPA in Algorithms && p !in Algorithms[Algorithm.EPA];
        Option.None
    }
  }
}
