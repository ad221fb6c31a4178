/**
  The per-category summary: land and improvement totals, parcel counts and
  the improvement-to-land ratio of each property category, optionally with
  exemption totals, non-exempt (taxable) totals and fully exempt counts, one
  row per category, the largest land total first.
 */
module CategorySummary {
  import opened Table
  import opened Grouping
  import opened Exemptions

  datatype SummaryParams = SummaryParams(
    categoryCol: string,
    landCol: string,
    improvementCol: string,
    exemptionCol: Option<string>,
    flagCol: Option<string>)

  function DefaultParams(categoryCol: string): SummaryParams {
    SummaryParams(categoryCol, "land_value", "improvement_value", None, None)
  }

  /** The fully exempt count of a category: not a column of the summary
      without a flag column, missing for a category with no row flagged 1. */
  datatype FullyExemptCount = NotReported | NoneFlagged | Flagged(n: nat)

  datatype NonExemptTotals = NonExemptTotals(land: real, improvement: real, ratio: real)

  datatype CategoryTotals = CategoryTotals(
    category: Cell,
    totalLand: real,
    count: nat,
    totalImprovement: real,
    ratio: real,
    totalExemptions: Option<real>,
    nonExempt: Option<NonExemptTotals>,
    fullyExempt: FullyExemptCount)

  /** The coerced columns the summary reads, one entry per row: the
      exemption amounts when an exemption column is given, the adjusted
      (land, improvement) values when either exemption column is given, the
      flags when a flag column is given. */
  datatype CategoryInput = CategoryInput(
    categories: seq<Cell>,
    land: seq<real>,
    improvement: seq<real>,
    exemptions: Option<seq<real>>,
    adjusted: Option<(seq<real>, seq<real>)>,
    flags: Option<seq<real>>)

  predicate WellShaped(c: CategoryInput) {
    var n := |c.categories|;
    |c.land| == n && |c.improvement| == n &&
    (c.exemptions.Some? ==> |c.exemptions.value| == n) &&
    (c.adjusted.Some? ==> |c.adjusted.value.0| == n && |c.adjusted.value.1| == n) &&
    (c.flags.Some? ==> |c.flags.value| == n)
  }

  /** The rows flagged exactly 1 (the allocator zeroes any nonzero flag). */
  function FlaggedOneMask(flags: seq<real>): (m: seq<bool>)
    ensures |m| == |flags|
    ensures forall i :: 0 <= i < |m| ==> (m[i] <==> flags[i] == 1.0)
  {
    seq(|flags|, i requires 0 <= i < |flags| => flags[i] == 1.0)
  }

  function FullyExemptOf(n: nat): FullyExemptCount {
    if n == 0 then NoneFlagged else Flagged(n)
  }

  /** The summary row of category `k`. */
  function RowOf(c: CategoryInput, k: Cell): (t: CategoryTotals)
    requires WellShaped(c)
    ensures t.category == k && t.count == GroupCount(c.categories, k)
    ensures t.totalLand == GroupSum(c.categories, c.land, k)
    ensures t.totalImprovement == GroupSum(c.categories, c.improvement, k)
    ensures t.totalLand != 0.0 ==> t.ratio * t.totalLand == t.totalImprovement
    ensures t.totalLand == 0.0 ==> t.ratio == 0.0
    ensures t.totalExemptions.Some? <==> c.exemptions.Some?
    ensures t.totalExemptions.Some? ==> t.totalExemptions.value == GroupSum(c.categories, c.exemptions.value, k)
    ensures t.nonExempt.Some? <==> c.adjusted.Some?
    ensures t.nonExempt.Some? ==>
              t.nonExempt.value.land == GroupSum(c.categories, c.adjusted.value.0, k) &&
              t.nonExempt.value.improvement == GroupSum(c.categories, c.adjusted.value.1, k)
    ensures t.nonExempt.Some? && t.nonExempt.value.land != 0.0 ==>
              t.nonExempt.value.ratio * t.nonExempt.value.land == t.nonExempt.value.improvement
    ensures t.nonExempt.Some? && t.nonExempt.value.land == 0.0 ==> t.nonExempt.value.ratio == 0.0
    ensures t.fullyExempt.NotReported? <==> c.flags.None?
    ensures c.flags.Some? ==>
              t.fullyExempt == FullyExemptOf(Count(And(EqualsMask(c.categories, k), FlaggedOneMask(c.flags.value))))
    ensures t.fullyExempt.Flagged? ==>
              t.fullyExempt.n == Count(And(EqualsMask(c.categories, k), FlaggedOneMask(c.flags.value)))
  {
    var keys := c.categories;
    var land := GroupSum(keys, c.land, k);
    var impr := GroupSum(keys, c.improvement, k);
    CategoryTotals(
      k, land, GroupCount(keys, k), impr, RatioOrZero(impr, land),
      if c.exemptions.Some? then Some(GroupSum(keys, c.exemptions.value, k)) else None,
      if c.adjusted.Some? then
        var adjLand := GroupSum(keys, c.adjusted.value.0, k);
        var adjImpr := GroupSum(keys, c.adjusted.value.1, k);
        Some(NonExemptTotals(adjLand, adjImpr, RatioOrZero(adjImpr, adjLand)))
      else None,
      if c.flags.Some? then FullyExemptOf(Count(And(EqualsMask(keys, k), FlaggedOneMask(c.flags.value))))
      else NotReported)
  }

  function TotalsRow(c: CategoryInput): Cell -> CategoryTotals
    requires WellShaped(c)
  {
    k => RowOf(c, k)
  }

  /** One row per non-missing category, ordered by land total, largest first. */
  function Summarize(c: CategoryInput): (rows: seq<CategoryTotals>)
    requires WellShaped(c)
    ensures multiset(rows) == multiset(MapSeq(TotalsRow(c), GroupKeys(c.categories)))
    ensures forall i, j :: 0 <= i < j < |rows| ==> rows[i].totalLand >= rows[j].totalLand
  {
    var rows := SortDescending(MapSeq(TotalsRow(c), GroupKeys(c.categories)), (t: CategoryTotals) => t.totalLand);
    assert SortedBy(rows, (t: CategoryTotals) => t.totalLand);
    rows
  }

  /** Every row is the summary of a category that occurs in the data. */
  lemma {:induction false} RowOfSummary(c: CategoryInput, t: CategoryTotals)
    requires WellShaped(c) && t in Summarize(c)
    ensures t.category in GroupKeys(c.categories) && t == TotalsRow(c)(t.category)
  {
    var all := MapSeq(TotalsRow(c), GroupKeys(c.categories));
    assert t in multiset(all);
    var j :| 0 <= j < |all| && all[j] == t;
  }

  /** Every row is a non-missing category of the data with at least one parcel. */
  lemma {:induction false} RowsAreCategories(c: CategoryInput)
    requires WellShaped(c)
    ensures var rows := Summarize(c);
            forall i :: 0 <= i < |rows| ==> rows[i].category != Null && rows[i].category in c.categories && rows[i].count >= 1
  {
    var rows := Summarize(c);
    forall i | 0 <= i < |rows|
      ensures rows[i].category != Null && rows[i].category in c.categories && rows[i].count >= 1
    {
      RowOfSummary(c, rows[i]);
      GroupCountPositive(c.categories, rows[i].category);
    }
  }

  /** Every non-missing category of the data has a row. */
  lemma {:induction false} EveryCategoryListed(c: CategoryInput)
    requires WellShaped(c)
    ensures var rows := Summarize(c);
            forall k :: k != Null && k in c.categories ==> exists i :: 0 <= i < |rows| && rows[i].category == k
  {
    var rows := Summarize(c);
    var ks := GroupKeys(c.categories);
    var all := MapSeq(TotalsRow(c), ks);
    forall k | k != Null && k in c.categories
      ensures exists i :: 0 <= i < |rows| && rows[i].category == k
    {
      var j :| 0 <= j < |ks| && ks[j] == k;
      assert all[j] in multiset(rows);
      var i :| 0 <= i < |rows| && rows[i] == all[j];
      assert rows[i].category == k;
    }
  }

  /** No category has two rows. */
  lemma {:induction false} CategoriesDistinct(c: CategoryInput)
    requires WellShaped(c)
    ensures var rows := Summarize(c);
            forall i, j :: 0 <= i < j < |rows| ==> rows[i].category != rows[j].category
  {
    var rows := Summarize(c);
    var ks := GroupKeys(c.categories);
    var all := MapSeq(TotalsRow(c), ks);
    forall i, j | 0 <= i < j < |rows|
      ensures rows[i].category != rows[j].category
    {
      if rows[i].category == rows[j].category {
        RowOfSummary(c, rows[i]);
        RowOfSummary(c, rows[j]);
        assert rows[i] == rows[j];
        // the same row twice needs two occurrences in `all`, whose keys are distinct
        MultisetAtLeastTwo(rows, i, j);
        AtMostOnce(all, ks, TotalsRow(c), rows[i]);
        assert false;
      }
    }
  }

  lemma {:induction false} MultisetAtLeastTwo<T>(xs: seq<T>, i: int, j: int)
    requires 0 <= i < j < |xs| && xs[i] == xs[j]
    ensures multiset(xs)[xs[i]] >= 2
  {
    assert xs == xs[..i] + [xs[i]] + xs[i + 1..j] + [xs[j]] + xs[j + 1..];
  }

  /** A row built from distinct keys occurs at most once. */
  lemma {:induction false} AtMostOnce(all: seq<CategoryTotals>, ks: seq<Cell>, g: Cell -> CategoryTotals, t: CategoryTotals)
    requires all == MapSeq(g, ks)
    requires forall i, j :: 0 <= i < j < |ks| ==> ks[i] != ks[j]
    requires forall k :: g(k).category == k
    ensures multiset(all)[t] <= 1
    decreases |ks|
  {
    if ks != [] {
      var n := |ks| - 1;
      assert all == MapSeq(g, ks[..n]) + [g(ks[n])];
      AtMostOnce(MapSeq(g, ks[..n]), ks[..n], g, t);
    }
  }

  lemma {:induction false} RowsTotal(c: CategoryInput, ks: seq<Cell>)
    requires WellShaped(c)
    ensures SumBy(MapSeq(TotalsRow(c), ks), (t: CategoryTotals) => t.totalLand) == SumOverKeys(ks, c.categories, c.land)
  {
    if ks != [] {
      assert MapSeq(TotalsRow(c), ks)[1..] == MapSeq(TotalsRow(c), ks[1..]);
      RowsTotal(c, ks[1..]);
    }
  }

  /** The category land totals add up to the land of the parcels whose
      category is not missing: grouping loses and duplicates nothing. */
  lemma {:induction false} LandTotalsConserved(c: CategoryInput)
    requires WellShaped(c)
    ensures SumBy(Summarize(c), (t: CategoryTotals) => t.totalLand) == Sum(Select(c.land, KeyedMask(c.categories)))
  {
    var score := (t: CategoryTotals) => t.totalLand;
    SumByPermutation(Summarize(c), MapSeq(TotalsRow(c), GroupKeys(c.categories)), score);
    RowsTotal(c, GroupKeys(c.categories));
    GroupTotalsConserved(c.categories, c.land);
  }

  function Ones(n: nat): seq<real> {
    seq(n, i => 1.0)
  }

  lemma {:induction false} SumSelectOnes(m: seq<bool>)
    ensures Sum(Select(Ones(|m|), m)) == Count(m) as real
  {
    if m != [] {
      var n := |m| - 1;
      assert Ones(|m|)[..n] == Ones(n);
      SumSelectOnes(m[..n]);
      SumSelectSnoc(Ones(|m|), m);
    }
  }

  lemma {:induction false} RowsCount(c: CategoryInput, ks: seq<Cell>)
    requires WellShaped(c)
    ensures SumBy(MapSeq(TotalsRow(c), ks), (t: CategoryTotals) => t.count as real) ==
            SumOverKeys(ks, c.categories, Ones(|c.categories|))
  {
    if ks != [] {
      assert MapSeq(TotalsRow(c), ks)[1..] == MapSeq(TotalsRow(c), ks[1..]);
      RowsCount(c, ks[1..]);
      assert |EqualsMask(c.categories, ks[0])| == |c.categories|;
      SumSelectOnes(EqualsMask(c.categories, ks[0]));
    }
  }

  /** The category counts add up to the number of parcels whose category
      is not missing. */
  lemma {:induction false} CountsConserved(c: CategoryInput)
    requires WellShaped(c)
    ensures SumBy(Summarize(c), (t: CategoryTotals) => t.count as real) == Count(KeyedMask(c.categories)) as real
  {
    var score := (t: CategoryTotals) => t.count as real;
    var ones := Ones(|c.categories|);
    SumByPermutation(Summarize(c), MapSeq(TotalsRow(c), GroupKeys(c.categories)), score);
    RowsCount(c, GroupKeys(c.categories));
    GroupTotalsConserved(c.categories, ones);
    assert |KeyedMask(c.categories)| == |c.categories|;
    SumSelectOnes(KeyedMask(c.categories));
  }

  lemma {:induction false} CountAndBounded(a: seq<bool>, b: seq<bool>)
    requires |a| == |b|
    ensures Count(And(a, b)) <= Count(a)
  {
    if a != [] {
      var n := |a| - 1;
      assert And(a, b)[..n] == And(a[..n], b[..n]);
      CountAndBounded(a[..n], b[..n]);
    }
  }

  /** A category's fully exempt count never exceeds its parcel count, and
      is reported exactly when a flag column is given. */
  lemma {:induction false} FullyExemptWithinCount(c: CategoryInput)
    requires WellShaped(c)
    ensures forall t :: t in Summarize(c) ==>
              (t.fullyExempt.NotReported? <==> c.flags.None?) &&
              (t.fullyExempt.Flagged? ==> 1 <= t.fullyExempt.n <= t.count)
  {
    forall t | t in Summarize(c)
      ensures (t.fullyExempt.NotReported? <==> c.flags.None?) &&
              (t.fullyExempt.Flagged? ==> 1 <= t.fullyExempt.n <= t.count)
    {
      RowOfSummary(c, t);
      if c.flags.Some? {
        CountAndBounded(EqualsMask(c.categories, t.category), FlaggedOneMask(c.flags.value));
      }
    }
  }

  /** Non-exempt totals never exceed the raw totals when every adjusted
      value is at most its raw value. */
  lemma {:induction false} NonExemptWithinRawTotals(c: CategoryInput)
    requires WellShaped(c) && c.adjusted.Some?
    requires forall i :: 0 <= i < |c.categories| ==>
               c.adjusted.value.0[i] <= c.land[i] && c.adjusted.value.1[i] <= c.improvement[i]
    ensures forall t :: t in Summarize(c) ==>
              t.nonExempt.Some? && t.nonExempt.value.land <= t.totalLand &&
              t.nonExempt.value.improvement <= t.totalImprovement
  {
    forall t | t in Summarize(c)
      ensures t.nonExempt.Some? && t.nonExempt.value.land <= t.totalLand &&
              t.nonExempt.value.improvement <= t.totalImprovement
    {
      RowOfSummary(c, t);
      var m := EqualsMask(c.categories, t.category);
      SumSelectMonotone(c.adjusted.value.0, c.land, m);
      SumSelectMonotone(c.adjusted.value.1, c.improvement, m);
    }
  }

  /** The columns the summary requires: the category, land and improvement
      columns, and each exemption column that is given. */
  predicate CanSummarize(f: Frame, p: SummaryParams) {
    p.categoryCol in f.columns && p.landCol in f.columns && p.improvementCol in f.columns &&
    (Given(p.exemptionCol) ==> p.exemptionCol.value in f.columns) &&
    (Given(p.flagCol) ==> p.flagCol.value in f.columns)
  }

  function AllocatorColumns(p: SummaryParams): ValueColumns {
    ValueColumns(p.landCol, Some(p.improvementCol), p.exemptionCol, p.flagCol)
  }

  /** The coerced columns of a frame. */
  function InputOf(f: Frame, p: SummaryParams): (c: CategoryInput)
    requires CanSummarize(f, p)
    ensures WellShaped(c) && |c.categories| == |f.rows|
    ensures forall i :: 0 <= i < |f.rows| ==>
              c.categories[i] == Get(f.rows[i], p.categoryCol) &&
              c.land[i] == ToNumber(Get(f.rows[i], p.landCol)) &&
              c.improvement[i] == ToNumber(Get(f.rows[i], p.improvementCol))
    ensures c.exemptions.Some? <==> Given(p.exemptionCol)
    ensures c.exemptions.Some? ==>
              forall i :: 0 <= i < |f.rows| ==> c.exemptions.value[i] == ToNumber(Get(f.rows[i], p.exemptionCol.value))
    ensures c.adjusted.Some? <==> Given(p.exemptionCol) || Given(p.flagCol)
    ensures c.adjusted.Some? ==>
              forall i :: 0 <= i < |f.rows| ==>
                Adjusted(c.adjusted.value.0[i], Some(c.adjusted.value.1[i])) == AdjustRow(f.columns, AllocatorColumns(p), f.rows[i])
    ensures c.flags.Some? <==> Given(p.flagCol)
    ensures c.flags.Some? ==>
              forall i :: 0 <= i < |f.rows| ==> c.flags.value[i] == ToNumber(Get(f.rows[i], p.flagCol.value))
  {
    var adj := ComputeAdjustedValues(f, AllocatorColumns(p));
    CategoryInput(
      Column(f.rows, p.categoryCol),
      NumericColumn(f.rows, p.landCol),
      NumericColumn(f.rows, p.improvementCol),
      if Given(p.exemptionCol) then Some(NumericColumn(f.rows, p.exemptionCol.value)) else None,
      if Given(p.exemptionCol) || Given(p.flagCol) then Some((adj.0, adj.1.value)) else None,
      if Given(p.flagCol) then Some(NumericColumn(f.rows, p.flagCol.value)) else None)
  }

  /** The per-category summary of a frame. */
  function AnalyzePropertyValuesByCategory(f: Frame, p: SummaryParams): (rows: seq<CategoryTotals>)
    requires CanSummarize(f, p)
    ensures multiset(rows) == multiset(MapSeq(TotalsRow(InputOf(f, p)), GroupKeys(Column(f.rows, p.categoryCol))))
    ensures forall i, j :: 0 <= i < j < |rows| ==> rows[i].totalLand >= rows[j].totalLand
  {
    Summarize(InputOf(f, p))
  }

  /** With non-negative raw values and exemption amounts, each category's
      non-exempt totals lie between 0 and its raw totals. */
  lemma {:induction false} NonExemptWithinRaw(f: Frame, p: SummaryParams)
    requires CanSummarize(f, p) && (Given(p.exemptionCol) || Given(p.flagCol))
    requires NonNegativeRaw(f, AllocatorColumns(p))
    requires Present(f.columns, p.exemptionCol) ==>
               forall i :: 0 <= i < |f.rows| ==> ToNumber(Get(f.rows[i], p.exemptionCol.value)) >= 0.0
    ensures forall t :: t in AnalyzePropertyValuesByCategory(f, p) ==>
              t.nonExempt.Some? &&
              0.0 <= t.nonExempt.value.land <= t.totalLand &&
              0.0 <= t.nonExempt.value.improvement <= t.totalImprovement
  {
    var c := InputOf(f, p);
    var cols := AllocatorColumns(p);
    var adj := ComputeAdjustedValues(f, cols);
    forall i | 0 <= i < |f.rows|
      ensures 0.0 <= adj.0[i] <= c.land[i] && 0.0 <= adj.1.value[i] <= c.improvement[i]
    {
      var r := f.rows[i];
      AllocateBounded(ToNumber(Get(r, cols.land)),
        Some(ToNumber(Get(r, p.improvementCol))),
        if Present(f.columns, cols.exemption) then Some(ToNumber(Get(r, cols.exemption.value))) else None,
        if Present(f.columns, cols.flag) then Some(ToNumber(Get(r, cols.flag.value))) else None);
    }
    NonExemptWithinRawTotals(c);
    forall t | t in Summarize(c)
      ensures 0.0 <= t.nonExempt.value.land && 0.0 <= t.nonExempt.value.improvement
    {
      RowOfSummary(c, t);
      var m := EqualsMask(c.categories, t.category);
      SelectNonNegative(adj.0, m);
      SumNonNegative(Select(adj.0, m));
      SelectNonNegative(adj.1.value, m);
      SumNonNegative(Select(adj.1.value, m));
    }
  }

  /** One parcel of category "A" with land 100, improvements 50 and flag 2. */
  function FlagTwoFrame(): Frame {
    Frame({"category", "land_value", "improvement_value", "flag"},
          [map["category" := Text("A"), "land_value" := Num(100.0),
               "improvement_value" := Num(50.0), "flag" := Num(2.0)]])
  }

  function FlagTwoParams(): SummaryParams {
    DefaultParams("category").(flagCol := Some("flag"))
  }

  lemma {:induction false} FlagTwoInput()
    ensures InputOf(FlagTwoFrame(), FlagTwoParams()) ==
            CategoryInput([Text("A")], [100.0], [50.0], None, Some(([0.0], [0.0])), Some([2.0]))
  {
    var f := FlagTwoFrame();
    var p := FlagTwoParams();
    var c := InputOf(f, p);
    var adj := ComputeAdjustedValues(f, AllocatorColumns(p));
    assert AdjustRow(f.columns, AllocatorColumns(p), f.rows[0]) == Adjusted(0.0, Some(0.0)) by {
      assert Allocate(100.0, Some(50.0), None, Some(2.0)) == Adjusted(0.0, Some(0.0));
    }
    assert |adj.0| == 1 && adj.1.Some? && |adj.1.value| == 1;
    assert Adjusted(adj.0[0], Some(adj.1.value[0])) == AdjustRow(f.columns, AllocatorColumns(p), f.rows[0]);
    assert adj.0 == [0.0] && adj.1.value == [0.0];
    assert c.categories == [Text("A")] && c.land == [100.0] && c.improvement == [50.0];
    assert c.flags.value == [2.0];
  }

  /** A table whose rows all belong to one category summarizes to one row. */
  lemma {:induction false} SingleCategory(c: CategoryInput)
    requires WellShaped(c) && c.categories == [Text("A")]
    ensures Summarize(c) == [RowOf(c, Text("A"))]
  {
    assert GroupKeys(c.categories) == [Text("A")] by {
      assert c.categories[..0] == [];
    }
    var rows := Summarize(c);
    assert multiset(rows) == multiset{RowOf(c, Text("A"))};
    assert |multiset(rows)| == 1;
    assert rows[0] in multiset(rows);
  }

  lemma {:induction false} FlagTwoMasks()
    ensures EqualsMask([Text("A")], Text("A")) == [true]
    ensures FlaggedOneMask([2.0]) == [false] && And([true], [false]) == [false]
    ensures Count([true]) == 1 && Count([false]) == 0
  {
    assert [true][..0] == [] && [false][..0] == [];
  }

  lemma {:induction false} FlagTwoSums()
    ensures Sum(Select([100.0], [true])) == 100.0 && Sum(Select([50.0], [true])) == 50.0
    ensures Sum(Select([0.0], [true])) == 0.0
  {
    assert [true][..0] == [];
    assert Select([100.0], [true]) == [100.0] && [100.0][..0] == [];
    assert Select([50.0], [true]) == [50.0] && [50.0][..0] == [];
    assert Select([0.0], [true]) == [0.0] && [0.0][..0] == [];
  }

  /** The summary row of the single parcel flagged 2. */
  lemma {:induction false} FlagTwoRow()
    ensures var t := RowOf(CategoryInput([Text("A")], [100.0], [50.0], None, Some(([0.0], [0.0])), Some([2.0])), Text("A"));
            t.count == 1 && t.totalLand == 100.0 &&
            t.nonExempt == Some(NonExemptTotals(0.0, 0.0, 0.0)) && t.fullyExempt == NoneFlagged
  {
    FlagTwoMasks();
    FlagTwoSums();
  }

  /** The allocator zeroes every row whose flag is nonzero, but the fully
      exempt count only counts flags equal to 1: a single parcel flagged 2
      is taxed at 0 and yet its category reports no fully exempt parcel. */
  lemma {:induction false} FlagTwoZeroedButNotCounted()
    ensures var rows := AnalyzePropertyValuesByCategory(FlagTwoFrame(), FlagTwoParams());
            |rows| == 1 && rows[0].count == 1 && rows[0].totalLand == 100.0 &&
            rows[0].nonExempt == Some(NonExemptTotals(0.0, 0.0, 0.0)) &&
            rows[0].fullyExempt == NoneFlagged
  {
    var c := InputOf(FlagTwoFrame(), FlagTwoParams());
    FlagTwoInput();
    SingleCategory(c);
    FlagTwoRow();
  }
}
