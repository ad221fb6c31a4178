/**
  The in-memory table that every analysis receives: named columns whose values
  are aligned by row position, together with the vectorised column operations
  the analyses are built from (numeric coercion, boolean masks, masked
  selection, sums, counts, means and zero-guarded ratios).
 */
module Table {

  datatype Option<+T> = None | Some(value: T)

  /** One cell of the table. `Num` is a value that converts to a number,
      `Text` one that does not, `Null` a missing value (None or NaN). */
  datatype Cell = Num(x: real) | Text(s: string) | Null

  /** A row maps column names to cells; a name it lacks reads as `Null`. */
  type Row = map<string, Cell>

  /** A data frame: the set of its column names and its rows in order. */
  datatype Frame = Frame(columns: set<string>, rows: seq<Row>)

  /** An analysis either reports or returns the error marker of an empty filter. */
  datatype Result<T> = Ok(value: T) | Error(message: string)

  /** The error marker's message when no row has `column == identifier`. */
  function NoMatchMessage(column: string, identifier: string): string {
    "No properties found with " + column + " == '" + identifier + "'"
  }

  function Get(r: Row, c: string): Cell {
    if c in r then r[c] else Null
  }

  /** Numeric coercion with errors turned into missing values and missing
      values filled with 0. */
  function ToNumber(c: Cell): (r: real)
    ensures c.Num? ==> r == c.x
    ensures !c.Num? ==> r == 0.0
  {
    match c
    case Num(x) => x
    case _ => 0.0
  }

  /** An optional column-name parameter that is truthy: given and non-empty. */
  predicate Given(c: Option<string>) {
    c.Some? && c.value != ""
  }

  /** An optional column-name parameter that is given and names a column. */
  predicate Present(columns: set<string>, c: Option<string>) {
    c.Some? && c.value in columns
  }

  /** The cells of column `c`, one per row. */
  function Column(rows: seq<Row>, c: string): seq<Cell> {
    seq(|rows|, i requires 0 <= i < |rows| => Get(rows[i], c))
  }

  /** Column `c` coerced to numbers. */
  function NumericColumn(rows: seq<Row>, c: string): seq<real> {
    seq(|rows|, i requires 0 <= i < |rows| => ToNumber(Get(rows[i], c)))
  }

  /** The mask `cells == v`, element by element. */
  function EqualsMask(cells: seq<Cell>, v: Cell): seq<bool> {
    seq(|cells|, i requires 0 <= i < |cells| => cells[i] == v)
  }

  /** The rows whose `column` holds the text `identifier`. */
  function MatchMask(f: Frame, column: string, identifier: string): (m: seq<bool>)
    ensures |m| == |f.rows|
    ensures forall i :: 0 <= i < |m| ==> (m[i] <==> Get(f.rows[i], column) == Text(identifier))
  {
    EqualsMask(Column(f.rows, column), Text(identifier))
  }

  /** The mask `m1 & m2`. */
  function And(m1: seq<bool>, m2: seq<bool>): seq<bool>
    requires |m1| == |m2|
  {
    seq(|m1|, i requires 0 <= i < |m1| => m1[i] && m2[i])
  }

  /** Applies `g` to every element. */
  function MapSeq<A, B>(g: A -> B, xs: seq<A>): seq<B> {
    seq(|xs|, i requires 0 <= i < |xs| => g(xs[i]))
  }

  function Sum(xs: seq<real>): real {
    if xs == [] then 0.0 else Sum(xs[..|xs| - 1]) + xs[|xs| - 1]
  }

  /** Number of `true` entries of a mask. */
  function Count(m: seq<bool>): (n: nat)
    ensures n <= |m|
  {
    if m == [] then 0 else Count(m[..|m| - 1]) + (if m[|m| - 1] then 1 else 0)
  }

  /** Boolean indexing `xs[m]`: the elements whose mask entry is true, in order. */
  function Select<T>(xs: seq<T>, m: seq<bool>): (r: seq<T>)
    requires |xs| == |m|
    ensures |r| == Count(m)
  {
    if xs == [] then []
    else Select(xs[..|xs| - 1], m[..|m| - 1]) + (if m[|m| - 1] then [xs[|xs| - 1]] else [])
  }

  /** The rows of a frame selected by a mask; the columns are kept. */
  function FilterRows(f: Frame, m: seq<bool>): (g: Frame)
    requires |m| == |f.rows|
    ensures g.columns == f.columns && |g.rows| == Count(m)
  {
    Frame(f.columns, Select(f.rows, m))
  }

  /** Arithmetic mean; `None` stands for the NaN of an empty column. */
  function Mean(xs: seq<real>): (r: Option<real>)
    ensures r.Some? <==> |xs| > 0
    ensures r.Some? ==> r.value * (|xs| as real) == Sum(xs)
  {
    if |xs| == 0 then None else Some(Sum(xs) / (|xs| as real))
  }

  /** A quotient whose infinities and NaN are replaced by 0. */
  function RatioOrZero(n: real, d: real): (r: real)
    ensures d == 0.0 ==> r == 0.0
    ensures d != 0.0 ==> r * d == n
  {
    if d == 0.0 then 0.0 else n / d
  }

  predicate AllNonNegative(xs: seq<real>) {
    forall i :: 0 <= i < |xs| ==> xs[i] >= 0.0
  }

  lemma {:induction false} SumAppend(a: seq<real>, b: seq<real>)
    ensures Sum(a + b) == Sum(a) + Sum(b)
    decreases |b|
  {
    if b != [] {
      assert (a + b)[..|a + b| - 1] == a + b[..|b| - 1];
      SumAppend(a, b[..|b| - 1]);
    } else {
      assert a + b == a;
    }
  }

  lemma {:induction false} SumNonNegative(xs: seq<real>)
    requires AllNonNegative(xs)
    ensures Sum(xs) >= 0.0
  {
    if xs != [] {
      SumNonNegative(xs[..|xs| - 1]);
    }
  }

  /** Every selected element comes from the input, at a position the mask keeps. */
  lemma {:induction false} SelectFrom<T>(xs: seq<T>, m: seq<bool>, j: int)
    requires |xs| == |m| && 0 <= j < |Select(xs, m)|
    ensures exists i :: 0 <= i < |xs| && m[i] && Select(xs, m)[j] == xs[i]
  {
    var n := |xs| - 1;
    var prev := Select(xs[..n], m[..n]);
    if j < |prev| {
      SelectFrom(xs[..n], m[..n], j);
      var i :| 0 <= i < n && m[..n][i] && prev[j] == xs[..n][i];
      assert m[i] && Select(xs, m)[j] == xs[i];
    } else {
      assert m[n] && Select(xs, m)[j] == xs[n];
    }
  }

  lemma {:induction false} SelectNonNegative(xs: seq<real>, m: seq<bool>)
    requires |xs| == |m| && AllNonNegative(xs)
    ensures AllNonNegative(Select(xs, m))
  {
    forall j | 0 <= j < |Select(xs, m)|
      ensures Select(xs, m)[j] >= 0.0
    {
      SelectFrom(xs, m, j);
    }
  }

  /** The masked sum of a sequence extended by one element. */
  lemma {:induction false} SumSelectSnoc(xs: seq<real>, m: seq<bool>)
    requires |xs| == |m| > 0
    ensures var n := |m| - 1;
            Sum(Select(xs, m)) == Sum(Select(xs[..n], m[..n])) + (if m[n] then xs[n] else 0.0)
  {
    var n := |m| - 1;
    var prev := Select(xs[..n], m[..n]);
    if m[n] {
      assert Select(xs, m) == prev + [xs[n]];
      SumAppend(prev, [xs[n]]);
      assert [xs[n]][..0] == [];
    } else {
      assert Select(xs, m) == prev + [];
      assert prev + [] == prev;
    }
  }

  /** A masked sum of non-negative values lies between 0 and the full sum. */
  lemma {:induction false} SumSelectBounded(xs: seq<real>, m: seq<bool>)
    requires |xs| == |m| && AllNonNegative(xs)
    ensures 0.0 <= Sum(Select(xs, m)) <= Sum(xs)
  {
    if xs != [] {
      var n := |xs| - 1;
      SumSelectBounded(xs[..n], m[..n]);
      SumSelectSnoc(xs, m);
    }
  }

  /** `k * t` as repeated addition, which keeps the inductive proofs below linear. */
  function Times(k: nat, t: real): real {
    if k == 0 then 0.0 else Times(k - 1, t) + t
  }

  lemma {:induction false} TimesIsProduct(k: nat, t: real)
    ensures Times(k, t) == (k as real) * t
  {
    if k > 0 {
      TimesIsProduct(k - 1, t);
      assert (k as real) * t == ((k - 1) as real) * t + t;
    }
  }

  /** If every selected value is at least `t`, the masked sum is at least
      `t` times the number of selected values. */
  lemma {:induction false} SumSelectAtLeast(xs: seq<real>, m: seq<bool>, t: real)
    requires |xs| == |m|
    requires forall i :: 0 <= i < |xs| && m[i] ==> xs[i] >= t
    ensures Sum(Select(xs, m)) >= (Count(m) as real) * t
  {
    SumSelectAtLeastTimes(xs, m, t);
    TimesIsProduct(Count(m), t);
  }

  lemma {:induction false} SumSelectAtLeastTimes(xs: seq<real>, m: seq<bool>, t: real)
    requires |xs| == |m|
    requires forall i :: 0 <= i < |xs| && m[i] ==> xs[i] >= t
    ensures Sum(Select(xs, m)) >= Times(Count(m), t)
  {
    if xs != [] {
      var n := |xs| - 1;
      SumSelectAtLeastTimes(xs[..n], m[..n], t);
      SumSelectSnoc(xs, m);
    }
  }

  /** A masked sum is monotone in the values it selects. */
  lemma {:induction false} SumSelectMonotone(xs: seq<real>, ys: seq<real>, m: seq<bool>)
    requires |xs| == |m| && |ys| == |m|
    requires forall i :: 0 <= i < |m| && m[i] ==> xs[i] <= ys[i]
    ensures Sum(Select(xs, m)) <= Sum(Select(ys, m))
  {
    if m != [] {
      var n := |m| - 1;
      SumSelectMonotone(xs[..n], ys[..n], m[..n]);
      SumSelectSnoc(xs, m);
      SumSelectSnoc(ys, m);
    }
  }

  /** Dividing both sides of an inequality by a positive factor. */
  lemma {:induction false} CancelPositive(a: real, b: real, c: real)
    requires c > 0.0 && a * c >= b * c
    ensures a >= b
  {
    assert (a - b) * c == a * c - b * c;
  }

  /** A mean is at least `t` when the sum is at least `t` per element. */
  lemma {:induction false} MeanAtLeast(xs: seq<real>, t: real)
    requires |xs| > 0 && Sum(xs) >= (|xs| as real) * t
    ensures Mean(xs).value >= t
  {
    var n := |xs| as real;
    assert Mean(xs).value * n == Sum(xs);
    assert t * n == n * t;
    CancelPositive(Mean(xs).value, t, n);
  }

  /** Multiplication by `c`, as a function to map over a sequence. */
  function Scale(c: real): real -> real {
    x => c * x
  }

  /** Scaling every element scales the sum. */
  lemma {:induction false} SumScaled(c: real, xs: seq<real>)
    ensures Sum(MapSeq(Scale(c), xs)) == c * Sum(xs)
  {
    if xs != [] {
      var n := |xs| - 1;
      assert MapSeq(Scale(c), xs)[..n] == MapSeq(Scale(c), xs[..n]);
      SumScaled(c, xs[..n]);
      assert c * (Sum(xs[..n]) + xs[n]) == c * Sum(xs[..n]) + c * xs[n];
    }
  }

  /** Selecting after mapping is mapping after selecting. */
  lemma {:induction false} SelectMap<A, B>(g: A -> B, xs: seq<A>, m: seq<bool>)
    requires |xs| == |m|
    ensures Select(MapSeq(g, xs), m) == MapSeq(g, Select(xs, m))
  {
    if xs != [] {
      var n := |xs| - 1;
      assert MapSeq(g, xs)[..n] == MapSeq(g, xs[..n]);
      SelectMap(g, xs[..n], m[..n]);
      var tail := if m[n] then [xs[n]] else [];
      assert MapSeq(g, Select(xs[..n], m[..n]) + tail)
          == MapSeq(g, Select(xs[..n], m[..n])) + MapSeq(g, tail);
    }
  }
}
