/**
  The exemption allocator: turns a parcel's raw land and improvement values
  into taxable (non-exempt) values. A partial exemption amount comes off the
  improvements first, the remainder off the land, each clipped at 0; a nonzero
  full-exemption flag then forces both values to 0.
 */
module Exemptions {
  import opened Table

  /** The adjusted pair; `improvement` is `None` when the table has no
      improvement column. */
  datatype Adjusted = Adjusted(land: real, improvement: Option<real>)

  /** `.clip(lower=0)` */
  function Clip(x: real): (r: real)
    ensures r >= 0.0 && r >= x
    ensures x >= 0.0 ==> r == x
    ensures x < 0.0 ==> r == 0.0
  {
    if x < 0.0 then 0.0 else x
  }

  predicate FullyExempt(flag: Option<real>) {
    flag.Some? && flag.value != 0.0
  }

  /** The allocation rule for one parcel, given its coerced values; an
      argument is `None` when its column is not part of the table. */
  function Allocate(land: real, improvement: Option<real>, exemption: Option<real>, flag: Option<real>): (r: Adjusted)
    ensures r.improvement.Some? <==> improvement.Some?
    // the full-exemption flag dominates whatever the partial amount
    ensures FullyExempt(flag) ==> r.land == 0.0 && (r.improvement.Some? ==> r.improvement.value == 0.0)
    // without exemption columns the raw values pass through unchanged
    ensures exemption.None? && !FullyExempt(flag) ==> r == Adjusted(land, improvement)
    // a partial amount no larger than the improvements only reduces the improvements
    // (the land is still clipped at 0, which changes it only when it was negative)
    ensures !FullyExempt(flag) && exemption.Some? && improvement.Some? && exemption.value <= improvement.value ==>
              r == Adjusted(if land >= 0.0 then land else 0.0, Some(improvement.value - exemption.value))
    // a larger amount zeroes the improvements and takes the excess off the land
    ensures !FullyExempt(flag) && exemption.Some? && improvement.Some? && exemption.value > improvement.value ==>
              r.improvement == Some(0.0) &&
              r.land == (if land >= exemption.value - improvement.value then land - (exemption.value - improvement.value) else 0.0)
    // with no improvement column the whole amount comes off the land
    ensures !FullyExempt(flag) && exemption.Some? && improvement.None? ==>
              r.land == (if land >= exemption.value then land - exemption.value else 0.0)
  {
    var partial :=
      match exemption
      case None => Adjusted(land, improvement)
      case Some(amount) =>
        match improvement
        case Some(impr) => Adjusted(Clip(land - Clip(amount - impr)), Some(Clip(impr - amount)))
        case None => Adjusted(Clip(land - amount), None);
    if FullyExempt(flag) then
      Adjusted(0.0, if partial.improvement.Some? then Some(0.0) else None)
    else
      partial
  }

  /** With non-negative raw values and a non-negative exemption amount the
      adjusted values are never negative and never exceed the raw values. */
  lemma {:induction false} AllocateBounded(land: real, improvement: Option<real>, exemption: Option<real>, flag: Option<real>)
    requires land >= 0.0
    requires improvement.Some? ==> improvement.value >= 0.0
    requires exemption.Some? ==> exemption.value >= 0.0
    ensures var r := Allocate(land, improvement, exemption, flag);
            0.0 <= r.land <= land &&
            (r.improvement.Some? ==> 0.0 <= r.improvement.value <= improvement.value)
  {
  }

  /** Non-negativity needs only non-negative raw values: the exemption
      amount's sign does not matter. */
  lemma {:induction false} AllocateNonNegative(land: real, improvement: Option<real>, exemption: Option<real>, flag: Option<real>)
    requires land >= 0.0
    requires improvement.Some? ==> improvement.value >= 0.0
    ensures var r := Allocate(land, improvement, exemption, flag);
            r.land >= 0.0 && (r.improvement.Some? ==> r.improvement.value >= 0.0)
  {
  }

  /** Worked examples: a partial amount larger than the improvements, and a
      flagged parcel whose partial amount is ignored. */
  lemma {:induction false} AllocateExamples()
    ensures Allocate(100000.0, Some(20000.0), Some(30000.0), Some(0.0)) == Adjusted(90000.0, Some(0.0))
    ensures Allocate(50000.0, Some(10000.0), Some(5000.0), Some(1.0)) == Adjusted(0.0, Some(0.0))
    ensures Allocate(0.0, Some(0.0), Some(5000.0), None) == Adjusted(0.0, Some(0.0))
  {
  }

  /** Which columns the allocator reads; the optional ones may be absent. */
  datatype ValueColumns = ValueColumns(land: string, improvement: Option<string>, exemption: Option<string>, flag: Option<string>)

  /** The allocator's reading of one row: each optional column is used only
      when it is named and part of the table. */
  function AdjustRow(columns: set<string>, cols: ValueColumns, r: Row): (a: Adjusted)
    ensures a.improvement.Some? <==> Present(columns, cols.improvement)
  {
    Allocate(
      ToNumber(Get(r, cols.land)),
      if Present(columns, cols.improvement) then Some(ToNumber(Get(r, cols.improvement.value))) else None,
      if Present(columns, cols.exemption) then Some(ToNumber(Get(r, cols.exemption.value))) else None,
      if Present(columns, cols.flag) then Some(ToNumber(Get(r, cols.flag.value))) else None)
  }

  /** How one row is adjusted: a nonzero flag in a present flag column zeroes
      the row; with neither exemption column present the coerced values pass
      through; non-negative raw values stay non-negative. */
  lemma {:induction false} AdjustRowCases(columns: set<string>, cols: ValueColumns, r: Row)
    ensures var a := AdjustRow(columns, cols, r);
            (Present(columns, cols.flag) && ToNumber(Get(r, cols.flag.value)) != 0.0 ==>
               a.land == 0.0 && (a.improvement.Some? ==> a.improvement.value == 0.0)) &&
            (!Present(columns, cols.exemption) && !Present(columns, cols.flag) ==>
               a.land == ToNumber(Get(r, cols.land)) &&
               (a.improvement.Some? ==> a.improvement.value == ToNumber(Get(r, cols.improvement.value)))) &&
            (ToNumber(Get(r, cols.land)) >= 0.0 &&
             (Present(columns, cols.improvement) ==> ToNumber(Get(r, cols.improvement.value)) >= 0.0) ==>
               a.land >= 0.0 && (a.improvement.Some? ==> a.improvement.value >= 0.0))
  {
  }

  function LandOf(columns: set<string>, cols: ValueColumns): Row -> real {
    r => AdjustRow(columns, cols, r).land
  }

  function ImprovementOf(columns: set<string>, cols: ValueColumns): Row -> real {
    r => var a := AdjustRow(columns, cols, r); if a.improvement.Some? then a.improvement.value else 0.0
  }

  /** The adjusted land and, when the table has an improvement column, the
      adjusted improvement columns of a frame. The land column must exist. */
  function ComputeAdjustedValues(f: Frame, cols: ValueColumns): (r: (seq<real>, Option<seq<real>>))
    requires cols.land in f.columns
    ensures |r.0| == |f.rows|
    ensures r.1.Some? <==> Present(f.columns, cols.improvement)
    ensures r.1.Some? ==> |r.1.value| == |f.rows|
    ensures forall i :: 0 <= i < |f.rows| ==>
              Adjusted(r.0[i], if r.1.Some? then Some(r.1.value[i]) else None) == AdjustRow(f.columns, cols, f.rows[i])
  {
    (MapSeq(LandOf(f.columns, cols), f.rows),
     if Present(f.columns, cols.improvement) then Some(MapSeq(ImprovementOf(f.columns, cols), f.rows)) else None)
  }

  /** The raw land and improvement values of every row are non-negative. */
  predicate NonNegativeRaw(f: Frame, cols: ValueColumns) {
    forall i :: 0 <= i < |f.rows| ==>
      ToNumber(Get(f.rows[i], cols.land)) >= 0.0 &&
      (Present(f.columns, cols.improvement) ==> ToNumber(Get(f.rows[i], cols.improvement.value)) >= 0.0)
  }

  lemma {:induction false} AdjustedNonNegative(f: Frame, cols: ValueColumns)
    requires cols.land in f.columns && NonNegativeRaw(f, cols)
    ensures AllNonNegative(ComputeAdjustedValues(f, cols).0)
    ensures var impr := ComputeAdjustedValues(f, cols).1; impr.Some? ==> AllNonNegative(impr.value)
  {
    var (land, impr) := ComputeAdjustedValues(f, cols);
    forall i | 0 <= i < |f.rows|
      ensures land[i] >= 0.0 && (impr.Some? ==> impr.value[i] >= 0.0)
    {
      var r := f.rows[i];
      AllocateNonNegative(ToNumber(Get(r, cols.land)),
        if Present(f.columns, cols.improvement) then Some(ToNumber(Get(r, cols.improvement.value))) else None,
        if Present(f.columns, cols.exemption) then Some(ToNumber(Get(r, cols.exemption.value))) else None,
        if Present(f.columns, cols.flag) then Some(ToNumber(Get(r, cols.flag.value))) else None);
    }
  }

  /** The allocator works row by row, so adjusting a filtered frame gives the
      filtered adjusted values of the whole frame. */
  lemma {:induction false} AdjustedValuesOfFiltered(f: Frame, cols: ValueColumns, m: seq<bool>)
    requires cols.land in f.columns && |m| == |f.rows|
    ensures ComputeAdjustedValues(FilterRows(f, m), cols).0 == Select(ComputeAdjustedValues(f, cols).0, m)
    ensures var sub := ComputeAdjustedValues(FilterRows(f, m), cols).1;
            var all := ComputeAdjustedValues(f, cols).1;
            sub.Some? == all.Some? && (sub.Some? ==> sub.value == Select(all.value, m))
  {
    SelectMap(LandOf(f.columns, cols), f.rows, m);
    SelectMap(ImprovementOf(f.columns, cols), f.rows, m);
  }
}
