/**
  Parking-lot analysis: the parcels whose property type equals the parking
  identifier, their exemption-adjusted land and improvement values, the
  improvement-to-land ratio of each lot, the valuable but underutilized lots,
  the development those lots would carry at the citywide ratio, and a
  summary by land-value tier.
 */
module ParkingLots {
  import opened Table
  import opened Exemptions

  datatype ParkingParams = ParkingParams(
    landCol: string,
    improvementCol: string,
    propertyTypeCol: string,
    parkingIdentifier: string,
    minLandValue: real,
    maxImprovementRatio: real,
    exemptionCol: Option<string>,
    flagCol: Option<string>)

  function DefaultParams(): ParkingParams {
    ParkingParams("land_value", "improvement_value", "prop_use_desc", "Trans - Parking", 50000.0, 0.1, None, None)
  }

  function ParkingMask(f: Frame, p: ParkingParams): seq<bool> {
    MatchMask(f, p.propertyTypeCol, p.parkingIdentifier)
  }

  function Columns(p: ParkingParams): ValueColumns {
    ValueColumns(p.landCol, Some(p.improvementCol), p.exemptionCol, p.flagCol)
  }

  /** The columns a non-empty parking analysis reads: the allocator needs the
      land column, and the ratio needs the improvement column. */
  predicate HasValueColumns(f: Frame, p: ParkingParams) {
    p.landCol in f.columns && p.improvementCol in f.columns
  }

  /** Adjusted land values of the parking lots. */
  function ParkingLand(f: Frame, p: ParkingParams): (land: seq<real>)
    requires HasValueColumns(f, p)
    ensures |land| == Count(ParkingMask(f, p))
  {
    ComputeAdjustedValues(FilterRows(f, ParkingMask(f, p)), Columns(p)).0
  }

  /** Adjusted improvement values of the parking lots. */
  function ParkingImprovement(f: Frame, p: ParkingParams): (impr: seq<real>)
    requires HasValueColumns(f, p)
    ensures |impr| == Count(ParkingMask(f, p))
  {
    ComputeAdjustedValues(FilterRows(f, ParkingMask(f, p)), Columns(p)).1.value
  }

  /** The improvement-to-land ratio of each lot; the infinities and NaN that
      a zero land value produces are replaced by 0. */
  function Ratios(land: seq<real>, impr: seq<real>): (r: seq<real>)
    requires |land| == |impr|
    ensures |r| == |land|
    ensures forall i :: 0 <= i < |r| && land[i] != 0.0 ==> r[i] * land[i] == impr[i]
    ensures forall i :: 0 <= i < |r| && land[i] == 0.0 ==> r[i] == 0.0
  {
    seq(|land|, i requires 0 <= i < |land| => RatioOrZero(impr[i], land[i]))
  }

  /** Lots at or above the land-value threshold whose ratio is at most the maximum. */
  function UnderutilizedMask(land: seq<real>, ratios: seq<real>, p: ParkingParams): (m: seq<bool>)
    requires |land| == |ratios|
    ensures |m| == |land|
  {
    seq(|land|, i requires 0 <= i < |land| => land[i] >= p.minLandValue && ratios[i] <= p.maxImprovementRatio)
  }

  datatype Underutilized = Underutilized(count: nat, totalLand: real, averageLand: real, totalImprovement: real)

  /** Count, land total, land mean (0 when there is none) and improvement total of the selected lots. */
  function UnderutilizedOf(land: seq<real>, impr: seq<real>, m: seq<bool>): (u: Underutilized)
    requires |land| == |m| && |impr| == |m|
    ensures u.count == Count(m)
    ensures u.count == 0 ==> u.totalLand == 0.0 && u.averageLand == 0.0 && u.totalImprovement == 0.0
    ensures u.count > 0 ==> u.averageLand * (u.count as real) == u.totalLand
    ensures u.totalLand == Sum(Select(land, m))
    ensures u.totalImprovement == Sum(Select(impr, m))
  {
    var sel := Select(land, m);
    Underutilized(|sel|, Sum(sel), if |sel| > 0 then Mean(sel).value else 0.0, Sum(Select(impr, m)))
  }

  /** Total adjusted improvements over total adjusted land of the whole
      table, or 0 unless the land total is positive. */
  function CitywideRatio(cityLand: real, cityImpr: real): (r: real)
    ensures cityLand > 0.0 ==> r * cityLand == cityImpr
    ensures cityLand <= 0.0 ==> r == 0.0
  {
    if cityLand > 0.0 then cityImpr / cityLand else 0.0
  }

  datatype Potential = Potential(current: real, potential: real, untapped: real, citywideRatio: real)

  /** What the underutilized land would carry at the citywide ratio, what it
      carries now, and the difference. */
  function PotentialOf(u: Underutilized, ratio: real): (r: Potential)
    ensures r.current == u.totalImprovement && r.citywideRatio == ratio
    ensures r.potential == u.totalLand * ratio
    ensures r.untapped + r.current == r.potential
  {
    var potential := u.totalLand * ratio;
    Potential(u.totalImprovement, potential, potential - u.totalImprovement, ratio)
  }

  /** The land-value tiers, right-closed: (0, 25k], (25k, 50k], (50k, 100k],
      (100k, 250k] and (250k, infinity). */
  datatype Tier = Under25k | From25kTo50k | From50kTo100k | From100kTo250k | Over250k

  const AllTiers: seq<Tier> := [Under25k, From25kTo50k, From50kTo100k, From100kTo250k, Over250k]

  function Lower(t: Tier): real {
    match t
    case Under25k => 0.0
    case From25kTo50k => 25000.0
    case From50kTo100k => 50000.0
    case From100kTo250k => 100000.0
    case Over250k => 250000.0
  }

  function Upper(t: Tier): Option<real> {
    match t
    case Under25k => Some(25000.0)
    case From25kTo50k => Some(50000.0)
    case From50kTo100k => Some(100000.0)
    case From100kTo250k => Some(250000.0)
    case Over250k => None
  }

  /** `v` lies in the half-open bin of tier `t`. */
  predicate InBin(v: real, t: Tier) {
    Lower(t) < v && (Upper(t).Some? ==> v <= Upper(t).value)
  }

  /** The tier of a land value; values at or below 0 fall outside every bin. */
  function TierOf(v: real): (r: Option<Tier>)
    ensures r.Some? <==> v > 0.0
    ensures forall t :: InBin(v, t) <==> r == Some(t)
  {
    if v <= 0.0 then None
    else if v <= 25000.0 then Some(Under25k)
    else if v <= 50000.0 then Some(From25kTo50k)
    else if v <= 100000.0 then Some(From50kTo100k)
    else if v <= 250000.0 then Some(From100kTo250k)
    else Some(Over250k)
  }

  function TierMask(land: seq<real>, t: Tier): seq<bool> {
    seq(|land|, i requires 0 <= i < |land| => TierOf(land[i]) == Some(t))
  }

  function PositiveMask(land: seq<real>): seq<bool> {
    seq(|land|, i requires 0 <= i < |land| => land[i] > 0.0)
  }

  datatype TierStats = TierStats(tier: Tier, count: nat, totalLand: real, averageLand: Option<real>, averageRatio: Option<real>)

  function TierRow(land: seq<real>, ratios: seq<real>, t: Tier): (s: TierStats)
    requires |land| == |ratios|
    ensures s.tier == t && s.count == Count(TierMask(land, t))
    ensures s.totalLand == Sum(Select(land, TierMask(land, t)))
    ensures s.averageLand == Mean(Select(land, TierMask(land, t)))
    ensures s.averageRatio == Mean(Select(ratios, TierMask(land, t)))
    ensures s.averageLand.Some? <==> s.count > 0
    ensures s.averageRatio.Some? <==> s.count > 0
  {
    var m := TierMask(land, t);
    var sel := Select(land, m);
    TierStats(t, |sel|, Sum(sel), Mean(sel), Mean(Select(ratios, m)))
  }

  /** One row per tier, empty tiers included, in tier order. */
  function TierTable(land: seq<real>, ratios: seq<real>): (rows: seq<TierStats>)
    requires |land| == |ratios|
    ensures |rows| == |AllTiers|
    ensures forall i :: 0 <= i < |rows| ==> rows[i] == TierRow(land, ratios, AllTiers[i])
  {
    MapSeq((t: Tier) => TierRow(land, ratios, t), AllTiers)
  }

  datatype ParkingReport = ParkingReport(
    lots: nat,
    totalLand: real,
    totalImprovement: real,
    averageLand: real,
    averageRatio: real,
    underutilized: Underutilized,
    potential: Option<Potential>,
    byTier: seq<TierStats>)

  /** Citywide ratio over the adjusted values of the whole table. */
  function CityRatio(f: Frame, p: ParkingParams): (r: real)
    requires HasValueColumns(f, p)
    ensures var city := ComputeAdjustedValues(f, Columns(p));
            (Sum(city.0) > 0.0 ==> r * Sum(city.0) == Sum(city.1.value)) &&
            (Sum(city.0) <= 0.0 ==> r == 0.0)
  {
    var city := ComputeAdjustedValues(f, Columns(p));
    CitywideRatio(Sum(city.0), Sum(city.1.value))
  }

  /** The underutilized lots among lots with the given adjusted values. */
  function UnderutilizedLots(land: seq<real>, impr: seq<real>, p: ParkingParams): (u: Underutilized)
    requires |land| == |impr|
    ensures var m := UnderutilizedMask(land, Ratios(land, impr), p);
            u.count == Count(m) && u.totalLand == Sum(Select(land, m)) &&
            u.totalImprovement == Sum(Select(impr, m))
    ensures u.count > 0 ==> u.averageLand * (u.count as real) == u.totalLand
  {
    UnderutilizedOf(land, impr, UnderutilizedMask(land, Ratios(land, impr), p))
  }

  /** The report over the lots' adjusted values and the citywide ratio. */
  function ReportOf(land: seq<real>, impr: seq<real>, cityRatio: real, p: ParkingParams): (r: ParkingReport)
    requires |land| == |impr| && |land| > 0
    ensures r.lots == |land|
    ensures r.totalLand == Sum(land) && Mean(land) == Some(r.averageLand)
    ensures r.totalImprovement == Sum(impr)
    ensures Mean(Ratios(land, impr)) == Some(r.averageRatio)
    ensures r.underutilized == UnderutilizedLots(land, impr, p)
    ensures r.potential.Some? <==> r.underutilized.count > 0
    ensures r.potential.Some? ==> r.potential.value == PotentialOf(r.underutilized, cityRatio)
    ensures r.byTier == TierTable(land, Ratios(land, impr))
  {
    var ratios := Ratios(land, impr);
    var u := UnderutilizedLots(land, impr, p);
    ParkingReport(
      |land|,
      Sum(land),
      Sum(impr),
      Mean(land).value,
      Mean(ratios).value,
      u,
      if u.count > 0 then Some(PotentialOf(u, cityRatio)) else None,
      TierTable(land, ratios))
  }

  /** The report for a table with at least one parking lot. Its values are
      those of the whole table's adjusted values selected by the parking mask,
      and the development potential uses the whole table's ratio. */
  function Report(f: Frame, p: ParkingParams): (r: ParkingReport)
    requires HasValueColumns(f, p) && Count(ParkingMask(f, p)) > 0
    ensures r.lots == Count(ParkingMask(f, p))
    ensures var city := ComputeAdjustedValues(f, Columns(p));
            r.totalLand == Sum(Select(city.0, ParkingMask(f, p))) &&
            r.totalImprovement == Sum(Select(city.1.value, ParkingMask(f, p)))
    ensures r.potential.Some? <==> r.underutilized.count > 0
    ensures r.potential.Some? ==> r.potential.value.citywideRatio == CityRatio(f, p)
  {
    AdjustedValuesOfFiltered(f, Columns(p), ParkingMask(f, p));
    ReportOf(ParkingLand(f, p), ParkingImprovement(f, p), CityRatio(f, p), p)
  }

  /** The analysis: the error marker when no parcel is a parking lot, the
      report otherwise. The property-type column must exist, and the land
      and improvement columns must exist as soon as some parcel matches. */
  function AnalyzeParkingLots(f: Frame, p: ParkingParams): (r: Result<ParkingReport>)
    requires p.propertyTypeCol in f.columns
    requires HasValueColumns(f, p) || Count(ParkingMask(f, p)) == 0
    ensures r.Error? <==> Count(ParkingMask(f, p)) == 0
    ensures r.Error? ==> r.message == NoMatchMessage(p.propertyTypeCol, p.parkingIdentifier)
    ensures r.Ok? ==> r.value.lots > 0
  {
    if Count(ParkingMask(f, p)) == 0 then
      Error(NoMatchMessage(p.propertyTypeCol, p.parkingIdentifier))
    else
      Ok(Report(f, p))
  }

  /** If every selected lot has land at least `t`, the selected land total is
      at least `t` per lot, and so is their mean. */
  lemma {:induction false} SelectedAtLeast(land: seq<real>, impr: seq<real>, m: seq<bool>, t: real)
    requires |land| == |m| && |impr| == |m|
    requires forall i :: 0 <= i < |m| && m[i] ==> land[i] >= t
    ensures var u := UnderutilizedOf(land, impr, m);
            u.totalLand >= (u.count as real) * t && (u.count > 0 ==> u.averageLand >= t)
  {
    var u := UnderutilizedOf(land, impr, m);
    var sel := Select(land, m);
    assert u.totalLand == Sum(sel) && u.count == |sel|;
    SumSelectAtLeast(land, m, t);
    if u.count > 0 {
      assert u.averageLand == Mean(sel).value;
      MeanAtLeast(sel, t);
    }
  }

  /** Every underutilized lot is at the threshold or above, so their land
      total is at least the threshold times their number. */
  lemma {:induction false} UnderutilizedAboveThreshold(land: seq<real>, impr: seq<real>, p: ParkingParams)
    requires |land| == |impr|
    ensures var u := UnderutilizedLots(land, impr, p);
            u.totalLand >= (u.count as real) * p.minLandValue &&
            (u.count > 0 ==> u.averageLand >= p.minLandValue)
  {
    var m := UnderutilizedMask(land, Ratios(land, impr), p);
    assert forall i :: 0 <= i < |m| && m[i] ==> land[i] >= p.minLandValue;
    SelectedAtLeast(land, impr, m, p.minLandValue);
    assert UnderutilizedLots(land, impr, p) == UnderutilizedOf(land, impr, m);
  }

  /** If every selected lot has improvements at most `c` times its land, the
      same holds of the selected totals. */
  lemma {:induction false} SelectedScaledBound(land: seq<real>, impr: seq<real>, m: seq<bool>, c: real)
    requires |land| == |m| && |impr| == |m|
    requires forall i :: 0 <= i < |m| && m[i] ==> impr[i] <= c * land[i]
    ensures var u := UnderutilizedOf(land, impr, m);
            u.totalImprovement <= c * u.totalLand
  {
    var scaled := MapSeq(Scale(c), land);
    var sl := Select(land, m);
    assert Sum(Select(impr, m)) <= Sum(Select(scaled, m)) by {
      SumSelectMonotone(impr, scaled, m);
    }
    assert Select(scaled, m) == MapSeq(Scale(c), sl) by {
      SelectMap(Scale(c), land, m);
    }
    SumScaled(c, sl);
  }

  /** With a positive threshold every underutilized lot has positive land, so
      its improvements are its ratio times its land: the improvement total is
      at most the maximum ratio times the land total. */
  lemma {:induction false} UnderutilizedImprovementBounded(land: seq<real>, impr: seq<real>, p: ParkingParams)
    requires |land| == |impr| && p.minLandValue > 0.0
    ensures var u := UnderutilizedLots(land, impr, p);
            u.totalImprovement <= p.maxImprovementRatio * u.totalLand
  {
    var ratios := Ratios(land, impr);
    var m := UnderutilizedMask(land, ratios, p);
    var c := p.maxImprovementRatio;
    forall i | 0 <= i < |m| && m[i]
      ensures impr[i] <= c * land[i]
    {
      UnderutilizedByValues(land, impr, p, i);
    }
    SelectedScaledBound(land, impr, m, c);
  }

  /** With a positive threshold, a lot is underutilized exactly when its land
      reaches the threshold and its improvements are at most the maximum
      ratio times its land. */
  lemma {:induction false} UnderutilizedByValues(land: seq<real>, impr: seq<real>, p: ParkingParams, i: int)
    requires |land| == |impr| && p.minLandValue > 0.0 && 0 <= i < |land|
    ensures UnderutilizedMask(land, Ratios(land, impr), p)[i] <==>
            land[i] >= p.minLandValue && impr[i] <= p.maxImprovementRatio * land[i]
  {
    var r := Ratios(land, impr)[i];
    var c := p.maxImprovementRatio;
    if land[i] >= p.minLandValue {
      assert land[i] > 0.0 && r * land[i] == impr[i];
      assert impr[i] - c * land[i] == (r - c) * land[i];
      if r <= c {
        assert (c - r) * land[i] >= 0.0;
      } else {
        assert (r - c) * land[i] > 0.0;
      }
    }
  }

  /** With the default thresholds (land of at least 50,000 and a ratio of at
      most 0.1) only the first of these three lots is underutilized. */
  lemma {:induction false} DefaultUnderutilizedExample()
    ensures var u := UnderutilizedLots([60000.0, 40000.0, 80000.0], [5000.0, 0.0, 20000.0], DefaultParams());
            u.count == 1 && u.totalLand == 60000.0 && u.totalImprovement == 5000.0
  {
    var land := [60000.0, 40000.0, 80000.0];
    var impr := [5000.0, 0.0, 20000.0];
    var p := DefaultParams();
    var m := UnderutilizedMask(land, Ratios(land, impr), p);
    UnderutilizedByValues(land, impr, p, 0);
    UnderutilizedByValues(land, impr, p, 1);
    UnderutilizedByValues(land, impr, p, 2);
    assert m == [true, false, false];
    assert m[..2] == [true, false] && m[..2][..1] == [true] && m[..2][..1][..0] == [];
    assert land[..2] == [60000.0, 40000.0] && land[..2][..1] == [60000.0] && land[..2][..1][..0] == [];
    assert impr[..2] == [5000.0, 0.0] && impr[..2][..1] == [5000.0] && impr[..2][..1][..0] == [];
    assert Select(land[..2][..1], m[..2][..1]) == [60000.0];
    assert Select(land[..2], m[..2]) == [60000.0];
    assert Select(land, m) == [60000.0];
    assert Select(impr[..2][..1], m[..2][..1]) == [5000.0];
    assert Select(impr[..2], m[..2]) == [5000.0];
    assert Select(impr, m) == [5000.0];
  }

  /** When the maximum ratio is no higher than the citywide ratio, bringing
      the underutilized lots up to the citywide ratio never loses value. */
  lemma {:induction false} UntappedNonNegative(land: seq<real>, impr: seq<real>, cityRatio: real, p: ParkingParams)
    requires |land| == |impr| && |land| > 0
    requires p.minLandValue > 0.0 && p.maxImprovementRatio <= cityRatio
    ensures var r := ReportOf(land, impr, cityRatio, p);
            r.potential.Some? ==> r.potential.value.untapped >= 0.0
  {
    var u := UnderutilizedLots(land, impr, p);
    UnderutilizedImprovementBounded(land, impr, p);
    UnderutilizedAboveThreshold(land, impr, p);
    assert u.totalLand >= 0.0 by {
      assert (u.count as real) * p.minLandValue >= 0.0;
    }
    assert p.maxImprovementRatio * u.totalLand <= u.totalLand * cityRatio;
    var r := ReportOf(land, impr, cityRatio, p);
    if r.potential.Some? {
      assert r.underutilized == u;
      assert r.potential.value.untapped == u.totalLand * cityRatio - u.totalImprovement;
    }
  }

  /** The tier masks of one value are all false when it is not positive and
      pick exactly one tier otherwise. */
  lemma {:induction false} TierCountSnoc(land: seq<real>, t: Tier)
    requires |land| > 0
    ensures var n := |land| - 1;
            Count(TierMask(land, t)) == Count(TierMask(land[..n], t)) + (if TierOf(land[n]) == Some(t) then 1 else 0)
  {
    assert TierMask(land, t)[..|land| - 1] == TierMask(land[..|land| - 1], t);
  }

  lemma {:induction false} TiersPartitionCount(land: seq<real>)
    ensures Count(TierMask(land, Under25k)) + Count(TierMask(land, From25kTo50k)) +
            Count(TierMask(land, From50kTo100k)) + Count(TierMask(land, From100kTo250k)) +
            Count(TierMask(land, Over250k)) == Count(PositiveMask(land))
  {
    if land != [] {
      var n := |land| - 1;
      TiersPartitionCount(land[..n]);
      TierCountSnoc(land, Under25k);
      TierCountSnoc(land, From25kTo50k);
      TierCountSnoc(land, From50kTo100k);
      TierCountSnoc(land, From100kTo250k);
      TierCountSnoc(land, Over250k);
      assert PositiveMask(land)[..n] == PositiveMask(land[..n]);
      var tier := TierOf(land[n]);
      assert tier.Some? <==> land[n] > 0.0;
    }
  }

  /** The tier rows count exactly the lots with positive adjusted land. */
  lemma {:induction false} TierCountsPartitionLots(land: seq<real>, ratios: seq<real>)
    requires |land| == |ratios|
    ensures var rows := TierTable(land, ratios);
            rows[0].count + rows[1].count + rows[2].count + rows[3].count + rows[4].count
              == Count(PositiveMask(land))
  {
    TiersPartitionCount(land);
  }
}
