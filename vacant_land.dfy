/**
  Vacant-land analysis: the parcels whose property type equals the vacant
  identifier, their exemption-adjusted land value as a share of the whole
  table's, breakdowns by neighbourhood and zoning, and owner concentration
  (the value held by the top 5% and top 10% of owners).
 */
module VacantLand {
  import opened Table
  import opened Exemptions
  import opened Grouping

  /** One row of a breakdown: group key, parcel count, total and mean adjusted land value. */
  datatype GroupStats = GroupStats(key: Cell, count: nat, total: real, average: real)

  /** One owner: parcel count and total adjusted land value. */
  datatype OwnerStats = OwnerStats(owner: Cell, parcels: nat, total: real)

  datatype Concentration = Concentration(
    top5Count: nat, top10Count: nat,
    top5Value: real, top5Share: real,
    top10Value: real, top10Share: real)

  datatype VacantReport = VacantReport(
    parcels: nat,
    totalValue: real,
    averageValue: real,
    pctOfCityTotal: real,
    byNeighborhood: Option<seq<GroupStats>>,
    byZoning: Option<seq<GroupStats>>,
    topOwners: Option<seq<OwnerStats>>,
    concentration: Option<Concentration>)

  datatype VacantParams = VacantParams(
    landCol: string,
    propertyTypeCol: string,
    neighborhoodCol: Option<string>,
    zoningCol: Option<string>,
    ownerCol: Option<string>,
    vacantIdentifier: string,
    improvementCol: string,
    exemptionCol: Option<string>,
    flagCol: Option<string>)

  function DefaultParams(): VacantParams {
    VacantParams("land_value", "prop_use_desc", None, None, None, "Vacant Land", "improvement_value", None, None)
  }

  /** `part / total * 100`, or 0 when the total is not positive. */
  function PercentOf(part: real, total: real): (r: real)
    ensures total <= 0.0 ==> r == 0.0
    ensures total > 0.0 ==> r * total == part * 100.0
    ensures total > 0.0 && part >= 0.0 ==> r >= 0.0
  {
    if total > 0.0 then part / total * 100.0 else 0.0
  }

  /** A share of a non-negative part in a larger positive total lies in [0, 100]. */
  lemma {:induction false} PercentOfBounded(part: real, total: real)
    requires 0.0 <= part <= total
    ensures 0.0 <= PercentOf(part, total) <= 100.0
  {
    if total > 0.0 {
      var r := PercentOf(part, total);
      assert r * total == part * 100.0;
      CancelPositive(r, 0.0, total);
      CancelPositive(100.0, r, total);
    }
  }

  lemma {:induction false} PercentOfMonotone(a: real, b: real, total: real)
    requires a <= b
    ensures PercentOf(a, total) <= PercentOf(b, total)
  {
    if total > 0.0 {
      var ra, rb := PercentOf(a, total), PercentOf(b, total);
      assert ra * total == a * 100.0 && rb * total == b * 100.0;
      CancelPositive(rb, ra, total);
    }
  }

  function VacantMask(f: Frame, p: VacantParams): seq<bool> {
    MatchMask(f, p.propertyTypeCol, p.vacantIdentifier)
  }

  function Columns(p: VacantParams): ValueColumns {
    ValueColumns(p.landCol, Some(p.improvementCol), p.exemptionCol, p.flagCol)
  }

  /** A breakdown column is used when it is given, non-empty and part of the table. */
  predicate UseColumn(f: Frame, c: Option<string>) {
    Given(c) && c.value in f.columns
  }

  function StatsRow(keys: seq<Cell>, vals: seq<real>): Cell -> GroupStats
    requires |keys| == |vals|
  {
    k => var n := GroupCount(keys, k);
         var total := GroupSum(keys, vals, k);
         GroupStats(k, n, total, if n == 0 then 0.0 else total / (n as real))
  }

  /** Group-by count, sum and mean of `vals`, largest total first. */
  function Breakdown(keys: seq<Cell>, vals: seq<real>): (rows: seq<GroupStats>)
    requires |keys| == |vals|
    ensures forall i, j :: 0 <= i < j < |rows| ==> rows[i].total >= rows[j].total
    ensures multiset(rows) == multiset(MapSeq(StatsRow(keys, vals), GroupKeys(keys)))
  {
    SortDescending(MapSeq(StatsRow(keys, vals), GroupKeys(keys)), (g: GroupStats) => g.total)
  }

  function OwnerRow(keys: seq<Cell>, vals: seq<real>): Cell -> OwnerStats
    requires |keys| == |vals|
  {
    k => OwnerStats(k, GroupCount(keys, k), GroupSum(keys, vals, k))
  }

  /** Owners with their parcel counts and totals, largest total first. */
  function OwnerTable(keys: seq<Cell>, vals: seq<real>): (owners: seq<OwnerStats>)
    requires |keys| == |vals|
    ensures SortedDesc(OwnerTotals(owners))
    ensures multiset(owners) == multiset(MapSeq(OwnerRow(keys, vals), GroupKeys(keys)))
  {
    SortDescending(MapSeq(OwnerRow(keys, vals), GroupKeys(keys)), (o: OwnerStats) => o.total)
  }

  function OwnerTotals(owners: seq<OwnerStats>): seq<real> {
    MapSeq((o: OwnerStats) => o.total, owners)
  }

  /** How many owners make up the top 5% and the top 10%: the truncated
      products of the owner count (itself at least 1), never less than 1. */
  function TopCounts(owners: nat): (c: (nat, nat))
    ensures 1 <= c.0 <= c.1
    ensures owners >= 1 ==> c.1 <= owners
    ensures c.0 * 20 <= owners || c.0 == 1
    ensures c.1 * 10 <= owners || c.1 == 1
    ensures owners >= 20 ==> c.0 * 20 > owners - 20
    ensures owners >= 10 ==> c.1 * 10 > owners - 10
  {
    var n := if owners >= 1 then owners else 1;
    (if n / 20 >= 1 then n / 20 else 1, if n / 10 >= 1 then n / 10 else 1)
  }

  lemma {:induction false} TopCountsOfThreeOwners()
    ensures TopCounts(3) == (1, 1)
  {
  }

  /** The top-5% and top-10% owner groups: their sizes, the value they hold
      (the head of the owner table) and that value's share of the vacant total. */
  function ConcentrationOf(owners: seq<OwnerStats>, vacantTotal: real): (c: Concentration)
    ensures (c.top5Count, c.top10Count) == TopCounts(|owners|)
    ensures c.top5Value == Sum(Take(OwnerTotals(owners), c.top5Count))
    ensures c.top10Value == Sum(Take(OwnerTotals(owners), c.top10Count))
    ensures vacantTotal > 0.0 ==> c.top5Share * vacantTotal == c.top5Value * 100.0
    ensures vacantTotal > 0.0 ==> c.top10Share * vacantTotal == c.top10Value * 100.0
    ensures vacantTotal <= 0.0 ==> c.top5Share == 0.0 && c.top10Share == 0.0
  {
    var counts := TopCounts(|owners|);
    var c5, c10 := counts.0, counts.1;
    var totals := OwnerTotals(owners);
    var v5 := Sum(Take(totals, c5));
    var v10 := Sum(Take(totals, c10));
    Concentration(c5, c10, v5, PercentOf(v5, vacantTotal), v10, PercentOf(v10, vacantTotal))
  }

  /** The adjusted land values of the whole table. */
  function CityLand(f: Frame, p: VacantParams): seq<real>
    requires p.landCol in f.columns
  {
    ComputeAdjustedValues(f, Columns(p)).0
  }

  /** The cells of column `c` on the vacant parcels. */
  function VacantColumn(f: Frame, p: VacantParams, c: string): (cells: seq<Cell>)
    ensures |cells| == Count(VacantMask(f, p))
  {
    Column(FilterRows(f, VacantMask(f, p)).rows, c)
  }

  /** The report for a table with at least one vacant parcel. Its values are
      those of the whole table's adjusted land selected by the vacant mask;
      each breakdown and the owner table group these values by a column. */
  function Report(f: Frame, p: VacantParams): (r: VacantReport)
    requires p.propertyTypeCol in f.columns && p.landCol in f.columns
    requires Count(VacantMask(f, p)) > 0
    ensures r.parcels == Count(VacantMask(f, p))
    ensures r.totalValue == Sum(Select(CityLand(f, p), VacantMask(f, p)))
    ensures r.averageValue == r.totalValue / (r.parcels as real)
    ensures r.pctOfCityTotal == PercentOf(r.totalValue, Sum(CityLand(f, p)))
    ensures r.byNeighborhood.Some? <==> UseColumn(f, p.neighborhoodCol)
    ensures r.byNeighborhood.Some? ==>
              r.byNeighborhood.value == Breakdown(VacantColumn(f, p, p.neighborhoodCol.value), Select(CityLand(f, p), VacantMask(f, p)))
    ensures r.byZoning.Some? <==> UseColumn(f, p.zoningCol)
    ensures r.byZoning.Some? ==>
              r.byZoning.value == Breakdown(VacantColumn(f, p, p.zoningCol.value), Select(CityLand(f, p), VacantMask(f, p)))
    ensures r.topOwners.Some? <==> UseColumn(f, p.ownerCol)
    ensures r.concentration.Some? <==> UseColumn(f, p.ownerCol)
    ensures r.concentration.Some? ==>
              var owners := OwnerTable(VacantColumn(f, p, p.ownerCol.value), Select(CityLand(f, p), VacantMask(f, p)));
              r.topOwners.value == Take(owners, 10) && r.concentration.value == ConcentrationOf(owners, r.totalValue)
  {
    var vacant := FilterRows(f, VacantMask(f, p));
    var city := ComputeAdjustedValues(f, Columns(p)).0;
    AdjustedValuesOfFiltered(f, Columns(p), VacantMask(f, p));
    var land := ComputeAdjustedValues(vacant, Columns(p)).0;
    var n := |vacant.rows|;
    var total := Sum(land);
    var owners :=
      if UseColumn(f, p.ownerCol) then Some(OwnerTable(Column(vacant.rows, p.ownerCol.value), land)) else None;
    var average := Mean(land).value;
    VacantReport(
      n,
      total,
      average,
      PercentOf(total, Sum(city)),
      if UseColumn(f, p.neighborhoodCol) then Some(Breakdown(Column(vacant.rows, p.neighborhoodCol.value), land)) else None,
      if UseColumn(f, p.zoningCol) then Some(Breakdown(Column(vacant.rows, p.zoningCol.value), land)) else None,
      if owners.Some? then Some(Take(owners.value, 10)) else None,
      if owners.Some? then Some(ConcentrationOf(owners.value, total)) else None)
  }

  /** The analysis: the error marker when no parcel is vacant, the report
      otherwise. The property-type column must exist; the land column must
      exist as soon as some parcel is vacant. */
  function AnalyzeVacantLand(f: Frame, p: VacantParams): (r: Result<VacantReport>)
    requires p.propertyTypeCol in f.columns
    requires p.landCol in f.columns || Count(VacantMask(f, p)) == 0
    ensures r.Error? <==> Count(VacantMask(f, p)) == 0
    ensures r.Error? ==> r.message == NoMatchMessage(p.propertyTypeCol, p.vacantIdentifier)
  {
    if Count(VacantMask(f, p)) == 0 then
      Error(NoMatchMessage(p.propertyTypeCol, p.vacantIdentifier))
    else
      Ok(Report(f, p))
  }

  /** With non-negative raw values, vacant land is a part of the city's
      adjusted land total, so its percentage lies in [0, 100]. */
  lemma {:induction false} VacantShareOfCityBounded(f: Frame, p: VacantParams)
    requires p.propertyTypeCol in f.columns && p.landCol in f.columns
    requires NonNegativeRaw(f, Columns(p))
    requires Count(VacantMask(f, p)) > 0
    ensures 0.0 <= Report(f, p).totalValue && 0.0 <= Report(f, p).pctOfCityTotal <= 100.0
  {
    var m := VacantMask(f, p);
    var city := ComputeAdjustedValues(f, Columns(p)).0;
    AdjustedValuesOfFiltered(f, Columns(p), m);
    AdjustedNonNegative(f, Columns(p));
    SumSelectBounded(city, m);
    PercentOfBounded(Sum(Select(city, m)), Sum(city));
  }

  lemma {:induction false} SumMapSeq<T>(g: T -> real, xs: seq<T>)
    ensures Sum(MapSeq(g, xs)) == SumBy(xs, g)
  {
    if xs != [] {
      var n := |xs| - 1;
      assert MapSeq(g, xs)[..n] == MapSeq(g, xs[..n]);
      SumMapSeq(g, xs[..n]);
      assert xs == xs[..n] + [xs[n]];
      SumByAppend(xs[..n], [xs[n]], g);
    }
  }

  lemma {:induction false} OwnerRowsTotal(ks: seq<Cell>, keys: seq<Cell>, vals: seq<real>)
    requires |keys| == |vals|
    ensures SumBy(MapSeq(OwnerRow(keys, vals), ks), (o: OwnerStats) => o.total) == SumOverKeys(ks, keys, vals)
  {
    if ks != [] {
      assert MapSeq(OwnerRow(keys, vals), ks)[1..] == MapSeq(OwnerRow(keys, vals), ks[1..]);
      OwnerRowsTotal(ks[1..], keys, vals);
    }
  }

  /** The owner totals add up to the vacant land total of the parcels whose
      owner is not missing, and so to at most the vacant land total. */
  lemma {:induction false} OwnerTotalsConserved(keys: seq<Cell>, vals: seq<real>)
    requires |keys| == |vals|
    ensures Sum(OwnerTotals(OwnerTable(keys, vals))) == Sum(Select(vals, KeyedMask(keys)))
  {
    var owners := OwnerTable(keys, vals);
    var score := (o: OwnerStats) => o.total;
    SumMapSeq(score, owners);
    SumByPermutation(owners, MapSeq(OwnerRow(keys, vals), GroupKeys(keys)), score);
    OwnerRowsTotal(GroupKeys(keys), keys, vals);
    GroupTotalsConserved(keys, vals);
  }

  lemma {:induction false} OwnerTotalsNonNegative(keys: seq<Cell>, vals: seq<real>)
    requires |keys| == |vals| && AllNonNegative(vals)
    ensures AllNonNegative(OwnerTotals(OwnerTable(keys, vals)))
  {
    var owners := OwnerTable(keys, vals);
    var rows := MapSeq(OwnerRow(keys, vals), GroupKeys(keys));
    forall i | 0 <= i < |owners|
      ensures owners[i].total >= 0.0
    {
      assert owners[i] in multiset(rows);
      var j :| 0 <= j < |rows| && rows[j] == owners[i];
      SumSelectBounded(vals, EqualsMask(keys, GroupKeys(keys)[j]));
    }
  }

  /** The statistics row of a key that occurs in the column. */
  lemma {:induction false} StatsRowOfKey(keys: seq<Cell>, vals: seq<real>, k: Cell)
    requires |keys| == |vals| && k in GroupKeys(keys)
    ensures var g := StatsRow(keys, vals)(k);
            g.key == k && g.count >= 1 &&
            g.count == GroupCount(keys, k) && g.total == GroupSum(keys, vals, k) &&
            g.average * (g.count as real) == g.total
  {
    GroupCountPositive(keys, k);
    var n := GroupCount(keys, k);
    QuotientTimes(GroupSum(keys, vals, k), n as real);
  }

  lemma QuotientTimes(x: real, n: real)
    requires n != 0.0
    ensures (x / n) * n == x
  {
  }

  /** Every breakdown row is the count, total and mean of a group that occurs
      in the key column. */
  lemma {:induction false} BreakdownRows(keys: seq<Cell>, vals: seq<real>, g: GroupStats)
    requires |keys| == |vals| && g in Breakdown(keys, vals)
    ensures g.key in GroupKeys(keys) && g.count >= 1
    ensures g.count == GroupCount(keys, g.key) && g.total == GroupSum(keys, vals, g.key)
    ensures g.average == g.total / (g.count as real)
  {
    var ks := GroupKeys(keys);
    var rows := MapSeq(StatsRow(keys, vals), ks);
    var table := Breakdown(keys, vals);
    assert multiset(table) == multiset(rows);
    assert g in multiset(rows);
    assert g in rows;
    var j :| 0 <= j < |rows| && rows[j] == g;
    var h := StatsRow(keys, vals)(ks[j]);
    StatsRowOfKey(keys, vals, ks[j]);
    assert g == h;
  }

  lemma {:induction false} StatsRowsTotal(ks: seq<Cell>, keys: seq<Cell>, vals: seq<real>)
    requires |keys| == |vals|
    ensures SumBy(MapSeq(StatsRow(keys, vals), ks), (g: GroupStats) => g.total) == SumOverKeys(ks, keys, vals)
  {
    if ks != [] {
      assert MapSeq(StatsRow(keys, vals), ks)[1..] == MapSeq(StatsRow(keys, vals), ks[1..]);
      StatsRowsTotal(ks[1..], keys, vals);
    }
  }

  /** The group totals of a breakdown add up to the vacant land of the
      parcels whose key is not missing. */
  lemma {:induction false} BreakdownTotalsConserved(keys: seq<Cell>, vals: seq<real>)
    requires |keys| == |vals|
    ensures SumBy(Breakdown(keys, vals), (g: GroupStats) => g.total) == Sum(Select(vals, KeyedMask(keys)))
  {
    var score := (g: GroupStats) => g.total;
    SumByPermutation(Breakdown(keys, vals), MapSeq(StatsRow(keys, vals), GroupKeys(keys)), score);
    StatsRowsTotal(GroupKeys(keys), keys, vals);
    GroupTotalsConserved(keys, vals);
  }

  /** Owner concentration: the top-5% value never exceeds the top-10% value,
      which never exceeds the vacant total, so both shares lie in [0, 100]. */
  lemma {:induction false} ConcentrationOrdered(keys: seq<Cell>, vals: seq<real>)
    requires |keys| == |vals| && AllNonNegative(vals)
    ensures var c := ConcentrationOf(OwnerTable(keys, vals), Sum(vals));
            0.0 <= c.top5Value <= c.top10Value <= Sum(vals) &&
            0.0 <= c.top5Share <= c.top10Share <= 100.0
  {
    var owners := OwnerTable(keys, vals);
    var totals := OwnerTotals(owners);
    var c := ConcentrationOf(owners, Sum(vals));
    OwnerTotalsNonNegative(keys, vals);
    OwnerTotalsConserved(keys, vals);
    SumSelectBounded(vals, KeyedMask(keys));
    TakeSumMonotone(totals, c.top5Count, c.top10Count);
    SumNonNegative(Take(totals, c.top5Count));
    PercentOfBounded(c.top5Value, Sum(vals));
    PercentOfBounded(c.top10Value, Sum(vals));
    PercentOfMonotone(c.top5Value, c.top10Value, Sum(vals));
  }

  /** In an owner table sorted by total, the `k` largest owners (the top-5%
      and top-10% groups take `k` from `TopCounts`) hold at least `k / n` of
      the value held by all `n` owners. */
  lemma {:induction false} TopOwnersShare(owners: seq<OwnerStats>, k: nat)
    requires SortedDesc(OwnerTotals(owners)) && 0 < k <= |owners|
    ensures (|owners| as real) * Sum(Take(OwnerTotals(owners), k)) >= (k as real) * Sum(OwnerTotals(owners))
  {
    var totals := OwnerTotals(owners);
    assert |totals| == |owners| && Take(totals, k) == totals[..k];
    TopShareOfWhole(totals, k);
  }

  /** A table with one residential parcel and no vacant one. */
  function ResidentialOnlyFrame(): Frame {
    Frame({"land_value", "prop_use_desc"}, [map["land_value" := Num(1000.0), "prop_use_desc" := Text("Residential")]])
  }

  /** With the default parameters, a table without vacant land yields the
      error marker naming the property-type column and the vacant identifier. */
  lemma {:induction false} DefaultNoVacantLand()
    ensures AnalyzeVacantLand(ResidentialOnlyFrame(), DefaultParams()) ==
            Error(NoMatchMessage("prop_use_desc", "Vacant Land"))
  {
    var f := ResidentialOnlyFrame();
    var m := VacantMask(f, DefaultParams());
    assert Get(f.rows[0], "prop_use_desc") == Text("Residential");
    assert m == [false];
    assert m[..0] == [];
    assert Count(m) == 0;
  }
}
