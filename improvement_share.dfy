/**
  Land by improvement share: each parcel's improvement share, improvement
  over land plus improvement on full (unadjusted) values, places it in one of
  four categories; each category reports its parcel count, its adjusted land
  total and that total as a percentage of the adjusted land of all parcels
  that are not fully exempt.
 */
module ImprovementShare {
  import opened Table
  import opened Exemptions

  datatype ShareParams = ShareParams(
    landCol: string,
    improvementCol: string,
    exemptionCol: Option<string>,
    flagCol: Option<string>)

  function DefaultParams(): ShareParams {
    ShareParams("land_value", "improvement_value", None, None)
  }

  /** `improvement / (land + improvement)`; `None` for the NaN or infinity of a zero total. */
  function ShareOf(land: real, impr: real): (r: Option<real>)
    ensures r.Some? <==> land + impr != 0.0
    ensures r.Some? ==> r.value * (land + impr) == impr
  {
    if land + impr == 0.0 then None else Some(impr / (land + impr))
  }

  datatype Category = ZeroImprovement | Under10 | From10To25 | From25To50

  const AllCategories: seq<Category> := [ZeroImprovement, Under10, From10To25, From25To50]

  function CategoryName(c: Category): string {
    match c
    case ZeroImprovement => "0% improvement"
    case Under10 => "<10% improvement (excl. 0%)"
    case From10To25 => "10-25% improvement"
    case From25To50 => "25-50% improvement"
  }

  /** Whether a parcel with full values `land` and `impr` falls in category `c`.
      A missing share (NaN) fails every comparison. */
  predicate InCategory(land: real, impr: real, c: Category)
    ensures InCategory(land, impr, c) ==> land + impr != 0.0
    ensures c == ZeroImprovement ==> (InCategory(land, impr, c) <==> impr == 0.0 && land > 0.0)
  {
    var s := ShareOf(land, impr);
    match c
    case ZeroImprovement => impr == 0.0 && land + impr > 0.0
    case Under10 => s.Some? && 0.0 < s.value < 0.1
    case From10To25 => s.Some? && 0.1 <= s.value < 0.25
    case From25To50 => s.Some? && 0.25 <= s.value < 0.5
  }

  /** The categories do not overlap: a parcel is in at most one of them. */
  lemma {:induction false} CategoriesDisjoint(land: real, impr: real, c1: Category, c2: Category)
    requires InCategory(land, impr, c1) && InCategory(land, impr, c2)
    ensures c1 == c2
  {
    var s := ShareOf(land, impr);
    if c1 == ZeroImprovement || c2 == ZeroImprovement {
      assert s.Some? && s.value * (land + impr) == 0.0;
      assert s.value == 0.0;
    }
  }

  /** For a positive total the categories are bands of the improvement value
      itself, with no division: 0, (0, 10%), [10%, 25%) and [25%, 50%) of the total. */
  lemma {:induction false} CategoryByValues(land: real, impr: real, c: Category)
    requires land + impr > 0.0
    ensures InCategory(land, impr, c) <==>
      var t := land + impr;
      match c
      case ZeroImprovement => impr == 0.0
      case Under10 => 0.0 < impr < 0.1 * t
      case From10To25 => 0.1 * t <= impr < 0.25 * t
      case From25To50 => 0.25 * t <= impr < 0.5 * t
  {
    var t := land + impr;
    var s := ShareOf(land, impr).value;
    match c
    case ZeroImprovement =>
    case Under10 =>
      Band(s, t, impr, 0.0, 0.1);
    case From10To25 =>
      Band(s, t, impr, 0.1, 0.25);
    case From25To50 =>
      Band(s, t, impr, 0.25, 0.5);
  }

  /** A share `s` of a positive total `t` lies in a band exactly when `s * t`
      lies in the band scaled by `t`. */
  lemma Band(s: real, t: real, x: real, lo: real, hi: real)
    requires t > 0.0 && s * t == x
    ensures lo <= s <==> lo * t <= x
    ensures lo < s <==> lo * t < x
    ensures s < hi <==> x < hi * t
  {
    assert s * t - lo * t == (s - lo) * t;
    assert s * t - hi * t == (s - hi) * t;
  }

  /** The base of the percentages: the non-exempt adjusted land total, or 1
      when that total is not positive. */
  function Denominator(total: real): (d: real)
    ensures d > 0.0
    ensures total > 0.0 ==> d == total
    ensures total <= 0.0 ==> d == 1.0
  {
    if total <= 0.0 then 1.0 else total
  }

  function Percent(x: real, d: real): (r: real)
    requires d > 0.0
    ensures r * d == x * 100.0
  {
    x / d * 100.0
  }

  datatype CategoryStats = CategoryStats(name: string, count: nat, adjustedLand: real, sharePct: real)

  datatype ShareReport = ShareReport(totalAdjustedLand: real, categories: seq<CategoryStats>)

  /** Rows of category `c` that are not fully exempt. */
  function CategoryMask(land: seq<real>, impr: seq<real>, nonExempt: seq<bool>, c: Category): (m: seq<bool>)
    requires |land| == |nonExempt| && |impr| == |nonExempt|
    ensures |m| == |nonExempt|
  {
    seq(|land|, i requires 0 <= i < |land| => InCategory(land[i], impr[i], c) && nonExempt[i])
  }

  function CategoryRow(land: seq<real>, impr: seq<real>, adj: seq<real>, nonExempt: seq<bool>, d: real, c: Category): (s: CategoryStats)
    requires |land| == |nonExempt| && |impr| == |nonExempt| && |adj| == |nonExempt| && d > 0.0
    ensures s.name == CategoryName(c)
    ensures s.count == Count(CategoryMask(land, impr, nonExempt, c))
    ensures s.adjustedLand == Sum(Select(adj, CategoryMask(land, impr, nonExempt, c)))
    ensures s.sharePct == Percent(s.adjustedLand, d)
  {
    var m := CategoryMask(land, impr, nonExempt, c);
    var sum := Sum(Select(adj, m));
    CategoryStats(CategoryName(c), Count(m), sum, Percent(sum, d))
  }

  /** The summary over full values `land` and `impr`, adjusted land `adj` and
      the mask of rows that are not fully exempt. */
  function Summarize(land: seq<real>, impr: seq<real>, adj: seq<real>, nonExempt: seq<bool>): (r: ShareReport)
    requires |land| == |nonExempt| && |impr| == |nonExempt| && |adj| == |nonExempt|
    ensures r.totalAdjustedLand == Sum(Select(adj, nonExempt))
    ensures |r.categories| == |AllCategories|
    ensures forall i :: 0 <= i < |AllCategories| ==>
              r.categories[i] == CategoryRow(land, impr, adj, nonExempt, Denominator(r.totalAdjustedLand), AllCategories[i])
  {
    var total := Sum(Select(adj, nonExempt));
    var d := Denominator(total);
    ShareReport(total, MapSeq((c: Category) => CategoryRow(land, impr, adj, nonExempt, d, c), AllCategories))
  }

  lemma CategoryCountSnoc(land: seq<real>, impr: seq<real>, nonExempt: seq<bool>, c: Category)
    requires |land| == |nonExempt| && |impr| == |nonExempt| && |nonExempt| > 0
    ensures var n := |nonExempt| - 1;
            var m := CategoryMask(land, impr, nonExempt, c);
            m[..n] == CategoryMask(land[..n], impr[..n], nonExempt[..n], c) &&
            m[n] == (InCategory(land[n], impr[n], c) && nonExempt[n])
  {
    var n := |nonExempt| - 1;
    assert CategoryMask(land, impr, nonExempt, c)[..n] == CategoryMask(land[..n], impr[..n], nonExempt[..n], c);
  }

  /** At most one category mask holds at any row, and only at a row that is
      not fully exempt. */
  lemma {:induction false} AtMostOneCategory(land: real, impr: real, keep: bool)
    ensures (if InCategory(land, impr, ZeroImprovement) && keep then 1 else 0) +
            (if InCategory(land, impr, Under10) && keep then 1 else 0) +
            (if InCategory(land, impr, From10To25) && keep then 1 else 0) +
            (if InCategory(land, impr, From25To50) && keep then 1 else 0) <= (if keep then 1 else 0)
  {
    forall c1, c2 | InCategory(land, impr, c1) && InCategory(land, impr, c2)
      ensures c1 == c2
    {
      CategoriesDisjoint(land, impr, c1, c2);
    }
  }

  /** The categories together count no more parcels than are not fully exempt. */
  lemma {:induction false} CategoryCountsBounded(land: seq<real>, impr: seq<real>, nonExempt: seq<bool>)
    requires |land| == |nonExempt| && |impr| == |nonExempt|
    ensures Count(CategoryMask(land, impr, nonExempt, ZeroImprovement)) +
            Count(CategoryMask(land, impr, nonExempt, Under10)) +
            Count(CategoryMask(land, impr, nonExempt, From10To25)) +
            Count(CategoryMask(land, impr, nonExempt, From25To50)) <= Count(nonExempt)
  {
    if nonExempt != [] {
      var n := |nonExempt| - 1;
      CategoryCountsBounded(land[..n], impr[..n], nonExempt[..n]);
      CategoryCountSnoc(land, impr, nonExempt, ZeroImprovement);
      CategoryCountSnoc(land, impr, nonExempt, Under10);
      CategoryCountSnoc(land, impr, nonExempt, From10To25);
      CategoryCountSnoc(land, impr, nonExempt, From25To50);
      AtMostOneCategory(land[n], impr[n], nonExempt[n]);
    }
  }

  /** With non-negative adjusted land, the categories' land totals add up to
      at most the non-exempt total. */
  lemma {:induction false} CategoryLandBounded(land: seq<real>, impr: seq<real>, adj: seq<real>, nonExempt: seq<bool>)
    requires |land| == |nonExempt| && |impr| == |nonExempt| && |adj| == |nonExempt|
    requires AllNonNegative(adj)
    ensures Sum(Select(adj, CategoryMask(land, impr, nonExempt, ZeroImprovement))) +
            Sum(Select(adj, CategoryMask(land, impr, nonExempt, Under10))) +
            Sum(Select(adj, CategoryMask(land, impr, nonExempt, From10To25))) +
            Sum(Select(adj, CategoryMask(land, impr, nonExempt, From25To50))) <= Sum(Select(adj, nonExempt))
  {
    if nonExempt != [] {
      var n := |nonExempt| - 1;
      assert AllNonNegative(adj[..n]);
      CategoryLandBounded(land[..n], impr[..n], adj[..n], nonExempt[..n]);
      CategoryCountSnoc(land, impr, nonExempt, ZeroImprovement);
      CategoryCountSnoc(land, impr, nonExempt, Under10);
      CategoryCountSnoc(land, impr, nonExempt, From10To25);
      CategoryCountSnoc(land, impr, nonExempt, From25To50);
      SumSelectSnoc(adj, CategoryMask(land, impr, nonExempt, ZeroImprovement));
      SumSelectSnoc(adj, CategoryMask(land, impr, nonExempt, Under10));
      SumSelectSnoc(adj, CategoryMask(land, impr, nonExempt, From10To25));
      SumSelectSnoc(adj, CategoryMask(land, impr, nonExempt, From25To50));
      SumSelectSnoc(adj, nonExempt);
      AtMostOneCategory(land[n], impr[n], nonExempt[n]);
    }
  }

  /** With non-negative adjusted land every category's land total and share
      are non-negative. */
  lemma {:induction false} SharesNonNegative(land: seq<real>, impr: seq<real>, adj: seq<real>, nonExempt: seq<bool>)
    requires |land| == |nonExempt| && |impr| == |nonExempt| && |adj| == |nonExempt|
    requires AllNonNegative(adj)
    ensures var r := Summarize(land, impr, adj, nonExempt);
            forall i :: 0 <= i < |r.categories| ==> r.categories[i].adjustedLand >= 0.0 && r.categories[i].sharePct >= 0.0
  {
    var r := Summarize(land, impr, adj, nonExempt);
    var d := Denominator(r.totalAdjustedLand);
    forall i | 0 <= i < |r.categories|
      ensures r.categories[i].adjustedLand >= 0.0 && r.categories[i].sharePct >= 0.0
    {
      var s := r.categories[i];
      assert s == CategoryRow(land, impr, adj, nonExempt, d, AllCategories[i]);
      SumSelectBounded(adj, CategoryMask(land, impr, nonExempt, AllCategories[i]));
      PercentNonNegative(s.adjustedLand, d);
    }
  }

  /** With non-negative adjusted land the category shares add up to at most 100. */
  lemma {:induction false} SharesAtMostHundred(land: seq<real>, impr: seq<real>, adj: seq<real>, nonExempt: seq<bool>)
    requires |land| == |nonExempt| && |impr| == |nonExempt| && |adj| == |nonExempt|
    requires AllNonNegative(adj)
    ensures var r := Summarize(land, impr, adj, nonExempt);
            r.categories[0].sharePct + r.categories[1].sharePct +
            r.categories[2].sharePct + r.categories[3].sharePct <= 100.0
  {
    var r := Summarize(land, impr, adj, nonExempt);
    var total := r.totalAdjustedLand;
    var d := Denominator(total);
    var c0 := CategoryRow(land, impr, adj, nonExempt, d, ZeroImprovement);
    var c1 := CategoryRow(land, impr, adj, nonExempt, d, Under10);
    var c2 := CategoryRow(land, impr, adj, nonExempt, d, From10To25);
    var c3 := CategoryRow(land, impr, adj, nonExempt, d, From25To50);
    assert AllCategories[0] == ZeroImprovement && AllCategories[1] == Under10;
    assert AllCategories[2] == From10To25 && AllCategories[3] == From25To50;
    assert r.categories[0] == c0 && r.categories[1] == c1;
    assert r.categories[2] == c2 && r.categories[3] == c3;
    var lands := c0.adjustedLand + c1.adjustedLand + c2.adjustedLand + c3.adjustedLand;
    assert lands <= d by {
      CategoryLandBounded(land, impr, adj, nonExempt);
      SumSelectBounded(adj, nonExempt);
      SumSelectBounded(adj, CategoryMask(land, impr, nonExempt, ZeroImprovement));
      SumSelectBounded(adj, CategoryMask(land, impr, nonExempt, Under10));
      SumSelectBounded(adj, CategoryMask(land, impr, nonExempt, From10To25));
      SumSelectBounded(adj, CategoryMask(land, impr, nonExempt, From25To50));
    }
    FourPercents(c0.adjustedLand, c1.adjustedLand, c2.adjustedLand, c3.adjustedLand, d);
  }

  /** Four percentages of one positive base whose parts add up to at most
      the base add up to at most 100. */
  lemma FourPercents(x0: real, x1: real, x2: real, x3: real, d: real)
    requires d > 0.0 && x0 + x1 + x2 + x3 <= d
    ensures Percent(x0, d) + Percent(x1, d) + Percent(x2, d) + Percent(x3, d) <= 100.0
  {
    var ps := Percent(x0, d) + Percent(x1, d) + Percent(x2, d) + Percent(x3, d);
    assert ps * d == Percent(x0, d) * d + Percent(x1, d) * d + Percent(x2, d) * d + Percent(x3, d) * d;
    assert ps * d == (x0 + x1 + x2 + x3) * 100.0;
    assert (x0 + x1 + x2 + x3) * 100.0 <= d * 100.0;
    assert ps * d <= 100.0 * d;
    CancelPositive(100.0, ps, d);
  }

  lemma PercentNonNegative(x: real, d: real)
    requires d > 0.0 && x >= 0.0
    ensures Percent(x, d) >= 0.0
  {
    assert Percent(x, d) * d >= 0.0 * d;
    CancelPositive(Percent(x, d), 0.0, d);
  }

  /** Rows whose flag column holds a nonzero value are fully exempt; with no
      usable flag column every row is kept. */
  function NonExemptMask(f: Frame, p: ShareParams): (m: seq<bool>)
    ensures |m| == |f.rows|
    ensures !(Given(p.flagCol) && p.flagCol.value in f.columns) ==> forall i :: 0 <= i < |m| ==> m[i]
    ensures Given(p.flagCol) && p.flagCol.value in f.columns ==>
              forall i :: 0 <= i < |m| ==> (m[i] <==> !FullyExempt(Some(ToNumber(Get(f.rows[i], p.flagCol.value)))))
  {
    if Given(p.flagCol) && p.flagCol.value in f.columns then
      seq(|f.rows|, i requires 0 <= i < |f.rows| => ToNumber(Get(f.rows[i], p.flagCol.value)) == 0.0)
    else
      seq(|f.rows|, i => true)
  }

  function Columns(p: ShareParams): ValueColumns {
    ValueColumns(p.landCol, Some(p.improvementCol), p.exemptionCol, p.flagCol)
  }

  /** The analysis. Both value columns must exist. */
  function AnalyzeLandByImprovementShare(f: Frame, p: ShareParams): (r: ShareReport)
    requires p.landCol in f.columns && p.improvementCol in f.columns
    ensures r.totalAdjustedLand == Sum(Select(ComputeAdjustedValues(f, Columns(p)).0, NonExemptMask(f, p)))
    ensures |r.categories| == |AllCategories|
    ensures forall i :: 0 <= i < |AllCategories| ==>
              r.categories[i] == CategoryRow(NumericColumn(f.rows, p.landCol), NumericColumn(f.rows, p.improvementCol),
                                             ComputeAdjustedValues(f, Columns(p)).0, NonExemptMask(f, p),
                                             Denominator(r.totalAdjustedLand), AllCategories[i])
  {
    Summarize(NumericColumn(f.rows, p.landCol), NumericColumn(f.rows, p.improvementCol),
              ComputeAdjustedValues(f, Columns(p)).0, NonExemptMask(f, p))
  }

  /** A fully exempt row is counted in no category. */
  lemma {:induction false} FullyExemptExcluded(f: Frame, p: ShareParams, i: int, c: Category)
    requires Given(p.flagCol) && p.flagCol.value in f.columns
    requires 0 <= i < |f.rows| && ToNumber(Get(f.rows[i], p.flagCol.value)) != 0.0
    ensures !CategoryMask(NumericColumn(f.rows, p.landCol), NumericColumn(f.rows, p.improvementCol), NonExemptMask(f, p), c)[i]
  {
  }

  /** A row the analysis drops as fully exempt already has adjusted land 0:
      the allocator zeroes every row whose flag is nonzero. */
  lemma {:induction false} DroppedRowsHaveNoLand(f: Frame, p: ShareParams, i: int)
    requires p.landCol in f.columns && 0 <= i < |f.rows|
    requires !NonExemptMask(f, p)[i]
    ensures ComputeAdjustedValues(f, Columns(p)).0[i] == 0.0
  {
    var flag := p.flagCol.value;
    assert Given(p.flagCol) && flag in f.columns;
    assert Present(f.columns, Columns(p).flag);
    assert FullyExempt(Some(ToNumber(Get(f.rows[i], flag))));
    assert AdjustRow(f.columns, Columns(p), f.rows[i]).land == 0.0;
  }

  /** With non-negative raw values the analysis's category shares are
      non-negative and add up to at most 100. */
  lemma {:induction false} AnalysisSharesAtMostHundred(f: Frame, p: ShareParams)
    requires p.landCol in f.columns && p.improvementCol in f.columns
    requires NonNegativeRaw(f, Columns(p))
    ensures var r := AnalyzeLandByImprovementShare(f, p);
            r.categories[0].sharePct + r.categories[1].sharePct +
            r.categories[2].sharePct + r.categories[3].sharePct <= 100.0
  {
    AdjustedNonNegative(f, Columns(p));
    SharesAtMostHundred(NumericColumn(f.rows, p.landCol), NumericColumn(f.rows, p.improvementCol),
                        ComputeAdjustedValues(f, Columns(p)).0, NonExemptMask(f, p));
  }

  /** One parcel with land 100 and improvements 5, no exemption columns. */
  function OneParcelFrame(): Frame {
    Frame({"land_value", "improvement_value"}, [map["land_value" := Num(100.0), "improvement_value" := Num(5.0)]])
  }

  /** The coerced and adjusted columns of `OneParcelFrame` under the default columns. */
  lemma {:induction false} OneParcelInputs()
    ensures var f, p := OneParcelFrame(), DefaultParams();
            NumericColumn(f.rows, p.landCol) == [100.0] && NumericColumn(f.rows, p.improvementCol) == [5.0] &&
            ComputeAdjustedValues(f, Columns(p)).0 == [100.0] && NonExemptMask(f, p) == [true]
  {
    var f, p := OneParcelFrame(), DefaultParams();
    assert AdjustRow(f.columns, Columns(p), f.rows[0]) == Adjusted(100.0, Some(5.0));
  }

  lemma {:induction false} OneParcelTotal()
    ensures Sum(Select([100.0], [true])) == 100.0
  {
    var adj: seq<real> := [100.0];
    var keep := [true];
    assert keep[..0] == [] && adj[..0] == [];
    assert Select(adj, keep) == [100.0];
    assert [100.0][..0] == [];
  }

  lemma {:induction false} OneParcelUnder10()
    ensures CategoryMask([100.0], [5.0], [true], Under10) == [true]
  {
    CategoryByValues(100.0, 5.0, Under10);
  }

  /** One parcel under 10% that is not exempt holds all the land. */
  lemma {:induction false} OneParcelSummary()
    ensures var r := Summarize([100.0], [5.0], [100.0], [true]);
            r.totalAdjustedLand == 100.0 && r.categories[1].count == 1 && r.categories[1].sharePct == 100.0
  {
    OneParcelTotal();
    OneParcelUnder10();
    var r := Summarize([100.0], [5.0], [100.0], [true]);
    assert r.categories[1] == CategoryRow([100.0], [5.0], [100.0], [true], 100.0, Under10);
    assert r.categories[1].sharePct * 100.0 == 100.0 * 100.0;
  }

  /** With the default columns, a parcel whose improvements are 5 / 105 of
      its value is the one parcel under 10%, and it holds all the land. */
  lemma {:induction false} DefaultOneParcel()
    ensures var r := AnalyzeLandByImprovementShare(OneParcelFrame(), DefaultParams());
            r.totalAdjustedLand == 100.0 && r.categories[1].count == 1 && r.categories[1].sharePct == 100.0
  {
    OneParcelInputs();
    OneParcelSummary();
  }
}
