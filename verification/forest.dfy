/**
 The best split of a node's rows on one binned column (`_best_split`), and why
 scanning the bins in the order of their means finds the best subset of them.

 Rows are indices; `col` gives a row's bin, `y` its target. A split keeps at least
 `MIN_LEAF` rows on either side. `BestSubset` is the exactness of the scan for an
 unordered column: no set of bins buys a larger drop in squared error than the cut
 the scan returns, as long as the bins with the lowest and the highest mean hold
 `MIN_LEAF` rows, so that the scan skips no cut. `ScanFindsBestSubset` has the exact
 condition, that no cut skipped gains more, and `SkippedCutLoses` an input without it.
 Targets are reals: rounding is not modelled.
 */
module Forest {
  const MIN_LEAF := 5

  datatype Option<+T> = None | Some(value: T)

  // ------------------------------------------------------------- squared error

  function Target(y: seq<real>, r: nat): real { if r < |y| then y[r] else 0.0 }

  function Code(col: seq<int>, r: nat): int { if r < |col| then col[r] else 0 }

  function Sum(rows: seq<nat>, y: seq<real>): real {
    if rows == [] then 0.0 else Sum(rows[..|rows| - 1], y) + Target(y, rows[|rows| - 1])
  }

  /** The rows' targets. */
  function Values(rows: seq<nat>, y: seq<real>): seq<real> {
    seq(|rows|, i requires 0 <= i < |rows| => Target(y, rows[i]))
  }

  function Total(vs: seq<real>): real {
    if vs == [] then 0.0 else Total(vs[..|vs| - 1]) + vs[|vs| - 1]
  }

  /** The values' squared distances from `c`. */
  function Errors(vs: seq<real>, c: real): seq<real> {
    seq(|vs|, i requires 0 <= i < |vs| => (vs[i] - c) * (vs[i] - c))
  }

  function Spread(rows: seq<nat>, y: seq<real>, c: real): real { Total(Errors(Values(rows, y), c)) }

  /** The squared error of predicting the rows' mean. */
  function SSE(rows: seq<nat>, y: seq<real>): real {
    if rows == [] then 0.0 else Spread(rows, y, Sum(rows, y) / |rows| as real)
  }

  /** The rows whose bin is among `bins`, or those whose bin is not, in order. */
  function Keep(rows: seq<nat>, col: seq<int>, bins: set<int>, inside: bool): seq<nat> {
    if rows == [] then []
    else
      var rest := Keep(rows[..|rows| - 1], col, bins, inside);
      var r := rows[|rows| - 1];
      if (Code(col, r) in bins) == inside then rest + [r] else rest
  }

  /** The drop in squared error bought by parting the rows by bin. */
  function Drop(rows: seq<nat>, col: seq<int>, y: seq<real>, bins: set<int>): real {
    SSE(rows, y) - SSE(Keep(rows, col, bins, true), y) - SSE(Keep(rows, col, bins, false), y)
  }

  /** The targets' squares. */
  function Squared(y: seq<real>): seq<real> {
    seq(|y|, i requires 0 <= i < |y| => y[i] * y[i])
  }

  /** The sum of the targets' squares. */
  function Squares(rows: seq<nat>, y: seq<real>): real { Sum(rows, Squared(y)) }

  lemma {:induction false} SumIsTotal(rows: seq<nat>, y: seq<real>)
    ensures Sum(rows, y) == Total(Values(rows, y))
  {
    if rows != [] {
      SumIsTotal(rows[..|rows| - 1], y);
      assert Values(rows, y)[..|rows| - 1] == Values(rows[..|rows| - 1], y);
    }
  }

  function Scaled(vs: seq<real>, k: real): seq<real> {
    seq(|vs|, i requires 0 <= i < |vs| => k * vs[i])
  }

  lemma {:induction false} ScaledTotal(vs: seq<real>, k: real)
    ensures Total(Scaled(vs, k)) == k * Total(vs)
  {
    if vs != [] {
      var before, t := vs[..|vs| - 1], vs[|vs| - 1];
      ScaledTotal(before, k);
      ScaledPrefix(vs, |before|, k);
      assert k * (Total(before) + t) == k * Total(before) + k * t;
    }
  }

  lemma ScaledPrefix(vs: seq<real>, n: nat, k: real)
    requires n <= |vs|
    ensures Scaled(vs, k)[..n] == Scaled(vs[..n], k)
  {
    forall i | 0 <= i < n ensures Scaled(vs, k)[i] == Scaled(vs[..n], k)[i] {
      assert vs[..n][i] == vs[i];
    }
  }

  lemma ScaledSum(rows: seq<nat>, y: seq<real>, k: real)
    ensures Total(Scaled(Values(rows, y), k)) == k * Sum(rows, y)
  {
    ScaledTotal(Values(rows, y), k);
    SumIsTotal(rows, y);
  }

  function Repeated(q: real, n: nat): real { if n == 0 then 0.0 else Repeated(q, n - 1) + q }

  lemma {:induction false} RepeatedIs(q: real, n: nat)
    ensures Repeated(q, n) == q * n as real
  {
    if n > 0 {
      RepeatedIs(q, n - 1);
      assert q * ((n - 1) as real + 1.0) == q * (n - 1) as real + q;
    }
  }

  /** Sums of values each made of others. */
  lemma {:induction false} TotalsCombine(d: seq<real>, a: seq<real>, b: seq<real>, q: real)
    requires |d| == |a| == |b| && forall i :: 0 <= i < |d| ==> d[i] == a[i] - b[i] + q
    ensures Total(d) == Total(a) - Total(b) + Repeated(q, |d|)
  {
    if d != [] {
      var n := |d| - 1;
      TotalsCombine(d[..n], a[..n], b[..n], q);
    }
  }

  lemma SpreadTerms(rows: seq<nat>, y: seq<real>, c: real)
    ensures Spread(rows, y, c)
            == Squares(rows, y) - Total(Scaled(Values(rows, y), 2.0 * c)) + Repeated(c * c, |rows|)
  {
    var vs := Values(rows, y);
    forall i | 0 <= i < |rows|
      ensures Errors(vs, c)[i] == Values(rows, Squared(y))[i] - Scaled(vs, 2.0 * c)[i] + c * c
    {
      assert (vs[i] - c) * (vs[i] - c) == vs[i] * vs[i] - 2.0 * c * vs[i] + c * c;
    }
    TotalsCombine(Errors(vs, c), Values(rows, Squared(y)), Scaled(vs, 2.0 * c), c * c);
    SumIsTotal(rows, Squared(y));
  }

  lemma SpreadParts(rows: seq<nat>, y: seq<real>, c: real)
    ensures Spread(rows, y, c) == Squares(rows, y) - 2.0 * c * Sum(rows, y) + Repeated(c * c, |rows|)
  {
    SpreadTerms(rows, y, c);
    ScaledSum(rows, y, 2.0 * c);
  }

  lemma SpreadExpands(rows: seq<nat>, y: seq<real>, c: real)
    ensures Spread(rows, y, c) == Squares(rows, y) - 2.0 * c * Sum(rows, y) + c * c * |rows| as real
  {
    hide *;
    SpreadParts(rows, y, c);
    RepeatedIs(c * c, |rows|);
  }

  /** The sum of squares a side's mean explains. */
  function Explained(s: real, n: nat): real { if n == 0 then 0.0 else s * s / n as real }

  lemma AtTheMean(s: real, n: real, m: real)
    requires n > 0.0 && m == s / n
    ensures 2.0 * m * s - m * m * n == s * s / n
  {
    assert m * n == s;
    assert m * m * n == m * (m * n);
    assert s * s / n == s / n * s;
  }

  lemma MeanTerms(spread: real, squares: real, s: real, n: nat, m: real)
    ensures n > 0 && m == s / n as real && spread == squares - 2.0 * m * s + m * m * n as real ==>
              spread == squares - Explained(s, n)
  {
    if n > 0 && m == s / n as real {
      AtTheMean(s, n as real, m);
    }
  }

  lemma ErrorAtMean(rows: seq<nat>, y: seq<real>, m: real)
    requires rows != [] && m == Sum(rows, y) / |rows| as real
    ensures Spread(rows, y, m) == Squares(rows, y) - Explained(Sum(rows, y), |rows|)
  {
    hide *;
    SpreadExpands(rows, y, m);
    MeanTerms(Spread(rows, y, m), Squares(rows, y), Sum(rows, y), |rows|, m);
  }

  lemma SSEIs(rows: seq<nat>, y: seq<real>)
    ensures SSE(rows, y) == Squares(rows, y) - Explained(Sum(rows, y), |rows|)
  {
    if rows != [] {
      ErrorAtMean(rows, y, Sum(rows, y) / |rows| as real);
    }
  }

  lemma Appended(rows: seq<nat>, y: seq<real>, r: nat)
    ensures Sum(rows + [r], y) == Sum(rows, y) + Target(y, r)
  {
    assert (rows + [r])[..|rows|] == rows;
  }

  lemma {:induction false} SidesAddUp(rows: seq<nat>, col: seq<int>, y: seq<real>, bins: set<int>)
    ensures var l, r := Keep(rows, col, bins, true), Keep(rows, col, bins, false);
            |l| + |r| == |rows| && Sum(l, y) + Sum(r, y) == Sum(rows, y)
  {
    if rows != [] {
      var before, x := rows[..|rows| - 1], rows[|rows| - 1];
      SidesAddUp(before, col, y, bins);
      Appended(Keep(before, col, bins, true), y, x);
      Appended(Keep(before, col, bins, false), y, x);
    }
  }

  /** What parting `n` of `all` rows explains beyond their common mean, `s` and `total` being
      the sums of their targets. */
  function Gain(n: nat, s: real, all: nat, total: real): real
    requires n <= all
  {
    Explained(s, n) + Explained(total - s, all - n) - Explained(total, all)
  }

  /** The drop is what the sides' means explain beyond what the whole's mean does. */
  lemma DropIs(rows: seq<nat>, col: seq<int>, y: seq<real>, bins: set<int>)
    ensures var l := Keep(rows, col, bins, true);
            |l| <= |rows| && Drop(rows, col, y, bins) == Gain(|l|, Sum(l, y), |rows|, Sum(rows, y))
  {
    var l, r := Keep(rows, col, bins, true), Keep(rows, col, bins, false);
    DropExplained(rows, y, l, r, Sum(rows, y) - Sum(l, y), |rows| - |l|) by {
      SidesAddUp(rows, col, y, bins);
      SidesAddUp(rows, col, Squared(y), bins);
    }
  }

  lemma DropExplained(rows: seq<nat>, y: seq<real>, l: seq<nat>, r: seq<nat>, sum: real, n: int)
    requires Squares(l, y) + Squares(r, y) == Squares(rows, y) && Sum(r, y) == sum && |r| == n
    ensures SSE(rows, y) - SSE(l, y) - SSE(r, y)
            == Explained(Sum(l, y), |l|) + Explained(sum, n) - Explained(Sum(rows, y), |rows|)
  {
    SSEIs(rows, y);
    SSEIs(l, y);
    SSEIs(r, y);
  }

  // ---------------------------------------------------------------- histograms

  datatype Bin = Bin(code: int, count: nat, sum: real)

  /** What grouping consecutive rows of a bin gives. */
  function Histogram(rows: seq<nat>, col: seq<int>, y: seq<real>): seq<Bin> {
    if rows == [] then []
    else
      Grouped(Histogram(rows[..|rows| - 1], col, y), Code(col, rows[|rows| - 1]), Target(y, rows[|rows| - 1]))
  }

  function Grouped(hist: seq<Bin>, code: int, t: real): seq<Bin> {
    if hist != [] && hist[|hist| - 1].code == code then
      var b := hist[|hist| - 1];
      hist[..|hist| - 1] + [Bin(code, b.count + 1, b.sum + t)]
    else hist + [Bin(code, 1, t)]
  }

  function CountIn(hist: seq<Bin>, bins: set<int>): nat {
    if hist == [] then 0
    else
      var b := hist[|hist| - 1];
      CountIn(hist[..|hist| - 1], bins) + if b.code in bins then b.count else 0
  }

  function SumIn(hist: seq<Bin>, bins: set<int>): real {
    if hist == [] then 0.0
    else
      var b := hist[|hist| - 1];
      SumIn(hist[..|hist| - 1], bins) + if b.code in bins then b.sum else 0.0
  }

  function Codes(hist: seq<Bin>): set<int> {
    set i | 0 <= i < |hist| :: hist[i].code
  }

  ghost predicate Distinct(hist: seq<Bin>) {
    forall i, j :: 0 <= i < j < |hist| ==> hist[i].code != hist[j].code
  }

  ghost predicate Filled(hist: seq<Bin>) {
    forall i :: 0 <= i < |hist| ==> hist[i].count > 0
  }

  lemma GroupedSums(hist: seq<Bin>, code: int, t: real, bins: set<int>)
    ensures var grown := Grouped(hist, code, t);
            && CountIn(grown, bins) == CountIn(hist, bins) + (if code in bins then 1 else 0)
            && SumIn(grown, bins) == SumIn(hist, bins) + (if code in bins then t else 0.0)
  {
    var grown := Grouped(hist, code, t);
    if hist != [] && hist[|hist| - 1].code == code {
      assert grown[..|grown| - 1] == hist[..|hist| - 1];
    } else {
      assert grown[..|grown| - 1] == hist;
    }
  }

  /** A histogram counts and sums what is on either side of any parting of its bins. */
  lemma {:induction false} HistogramSums(rows: seq<nat>, col: seq<int>, y: seq<real>, bins: set<int>)
    ensures var hist, l := Histogram(rows, col, y), Keep(rows, col, bins, true);
            CountIn(hist, bins) == |l| && SumIn(hist, bins) == Sum(l, y)
  {
    if rows != [] {
      var before, r := rows[..|rows| - 1], rows[|rows| - 1];
      HistogramSums(before, col, y, bins);
      GroupedSums(Histogram(before, col, y), Code(col, r), Target(y, r), bins);
      Appended(Keep(before, col, bins, true), y, r);
    }
  }

  lemma {:induction false} HistogramFilled(rows: seq<nat>, col: seq<int>, y: seq<real>)
    ensures Filled(Histogram(rows, col, y))
  {
    if rows != [] {
      HistogramFilled(rows[..|rows| - 1], col, y);
    }
  }

  // ------------------------------------------------------------------ the sorts

  ghost predicate ByBin(rows: seq<nat>, col: seq<int>) {
    forall i, j :: 0 <= i < j < |rows| ==> Code(col, rows[i]) <= Code(col, rows[j])
  }

  function InsertRow(rows: seq<nat>, col: seq<int>, r: nat): seq<nat> {
    if rows == [] || Code(col, rows[|rows| - 1]) <= Code(col, r) then rows + [r]
    else InsertRow(rows[..|rows| - 1], col, r) + [rows[|rows| - 1]]
  }

  /** The rows sorted by bin, those of a bin in their order. */
  function SortRows(rows: seq<nat>, col: seq<int>): seq<nat> {
    if rows == [] then [] else InsertRow(SortRows(rows[..|rows| - 1], col), col, rows[|rows| - 1])
  }

  ghost predicate CodesUpTo(rows: seq<nat>, col: seq<int>, v: int) {
    forall i :: 0 <= i < |rows| ==> Code(col, rows[i]) <= v
  }

  lemma {:induction false} InsertRowUpTo(rows: seq<nat>, col: seq<int>, r: nat, v: int)
    requires CodesUpTo(rows, col, v) && Code(col, r) <= v
    ensures CodesUpTo(InsertRow(rows, col, r), col, v)
  {
    if rows != [] && Code(col, rows[|rows| - 1]) > Code(col, r) {
      InsertRowUpTo(rows[..|rows| - 1], col, r, v);
    }
  }

  lemma {:induction false} InsertRowHolds(rows: seq<nat>, col: seq<int>, r: nat)
    ensures multiset(InsertRow(rows, col, r)) == multiset(rows) + multiset{r}
  {
    if rows != [] && Code(col, rows[|rows| - 1]) > Code(col, r) {
      InsertRowHolds(rows[..|rows| - 1], col, r);
      assert rows == rows[..|rows| - 1] + [rows[|rows| - 1]];
    }
  }

  lemma {:induction false} InsertRowSorts(rows: seq<nat>, col: seq<int>, r: nat)
    requires ByBin(rows, col)
    ensures ByBin(InsertRow(rows, col, r), col)
  {
    if rows != [] && Code(col, rows[|rows| - 1]) > Code(col, r) {
      InsertRowSorts(rows[..|rows| - 1], col, r);
      InsertRowUpTo(rows[..|rows| - 1], col, r, Code(col, rows[|rows| - 1]));
    }
  }

  lemma {:induction false} SortRowsSorts(rows: seq<nat>, col: seq<int>)
    ensures ByBin(SortRows(rows, col), col) && multiset(SortRows(rows, col)) == multiset(rows)
  {
    if rows != [] {
      SortRowsSorts(rows[..|rows| - 1], col);
      InsertRowSorts(SortRows(rows[..|rows| - 1], col), col, rows[|rows| - 1]);
      InsertRowHolds(SortRows(rows[..|rows| - 1], col), col, rows[|rows| - 1]);
      assert rows == rows[..|rows| - 1] + [rows[|rows| - 1]];
    }
  }

  lemma {:induction false} InsertRowKeeps(rows: seq<nat>, col: seq<int>, r: nat, y: seq<real>, bins: set<int>,
                                          inside: bool)
    ensures var out, was := Keep(InsertRow(rows, col, r), col, bins, inside), Keep(rows, col, bins, inside);
            if (Code(col, r) in bins) == inside
            then |out| == |was| + 1 && Sum(out, y) == Sum(was, y) + Target(y, r)
            else |out| == |was| && Sum(out, y) == Sum(was, y)
  {
    var was := Keep(rows, col, bins, inside);
    if rows == [] || Code(col, rows[|rows| - 1]) <= Code(col, r) {
      assert (rows + [r])[..|rows|] == rows;
      assert (was + [r])[..|was|] == was;
    } else {
      var before, last := rows[..|rows| - 1], rows[|rows| - 1];
      InsertRowKeeps(before, col, r, y, bins, inside);
      var out := InsertRow(before, col, r);
      assert (out + [last])[..|out|] == out;
      var kept, keptWas := Keep(out, col, bins, inside), Keep(before, col, bins, inside);
      assert (kept + [last])[..|kept|] == kept && (keptWas + [last])[..|keptWas|] == keptWas;
    }
  }

  /** Sorting the rows moves none across a parting. */
  lemma {:induction false} SortRowsKeeps(rows: seq<nat>, col: seq<int>, y: seq<real>, bins: set<int>, inside: bool)
    ensures var out, was := Keep(SortRows(rows, col), col, bins, inside), Keep(rows, col, bins, inside);
            |out| == |was| && Sum(out, y) == Sum(was, y)
  {
    if rows != [] {
      var before, r := rows[..|rows| - 1], rows[|rows| - 1];
      SortRowsKeeps(before, col, y, bins, inside);
      InsertRowKeeps(SortRows(before, col), col, r, y, bins, inside);
      var was := Keep(before, col, bins, inside);
      assert (was + [r])[..|was|] == was;
    }
  }

  ghost predicate CodesRise(hist: seq<Bin>) {
    forall i, j :: 0 <= i < j < |hist| ==> hist[i].code < hist[j].code
  }

  lemma GroupedInOrder(hist: seq<Bin>, code: int, t: real)
    requires CodesRise(hist) && (hist != [] ==> hist[|hist| - 1].code <= code)
    ensures var grown := Grouped(hist, code, t); CodesRise(grown) && grown != [] && grown[|grown| - 1].code == code
  {
  }

  /** Sorted rows group into one bin per code, in code order. */
  lemma {:induction false} SortedIsDistinct(rows: seq<nat>, col: seq<int>, y: seq<real>)
    requires ByBin(rows, col)
    ensures var hist := Histogram(rows, col, y);
            && CodesRise(hist)
            && (rows != [] ==> hist != [] && hist[|hist| - 1].code == Code(col, rows[|rows| - 1]))
            && (rows == [] ==> hist == [])
  {
    if rows != [] {
      var before, r := rows[..|rows| - 1], rows[|rows| - 1];
      SortedIsDistinct(before, col, y);
      GroupedInOrder(Histogram(before, col, y), Code(col, r), Target(y, r));
    }
  }

  function Mean(b: Bin): real
    requires b.count > 0
  {
    b.sum / b.count as real
  }

  ghost predicate ByMean(hist: seq<Bin>)
    requires Filled(hist)
  {
    forall i, j :: 0 <= i < j < |hist| ==> Mean(hist[i]) <= Mean(hist[j])
  }

  function InsertBin(hist: seq<Bin>, b: Bin): (out: seq<Bin>)
    requires Filled(hist) && b.count > 0
    ensures Filled(out) && |out| == |hist| + 1
  {
    if hist == [] || Mean(hist[|hist| - 1]) <= Mean(b) then hist + [b]
    else InsertBin(hist[..|hist| - 1], b) + [hist[|hist| - 1]]
  }

  /** The bins sorted by mean target. */
  function SortBins(hist: seq<Bin>): (out: seq<Bin>)
    requires Filled(hist)
    ensures Filled(out) && |out| == |hist|
  {
    if hist == [] then [] else InsertBin(SortBins(hist[..|hist| - 1]), hist[|hist| - 1])
  }

  ghost predicate MeansUpTo(hist: seq<Bin>, v: real)
    requires Filled(hist)
  {
    forall i :: 0 <= i < |hist| ==> Mean(hist[i]) <= v
  }

  lemma {:induction false} InsertBinUpTo(hist: seq<Bin>, b: Bin, v: real)
    requires Filled(hist) && b.count > 0 && MeansUpTo(hist, v) && Mean(b) <= v
    ensures MeansUpTo(InsertBin(hist, b), v)
  {
    if hist != [] && Mean(hist[|hist| - 1]) > Mean(b) {
      InsertBinUpTo(hist[..|hist| - 1], b, v);
    }
  }

  lemma {:induction false} InsertBinHolds(hist: seq<Bin>, b: Bin)
    requires Filled(hist) && b.count > 0
    ensures multiset(InsertBin(hist, b)) == multiset(hist) + multiset{b}
  {
    if hist != [] && Mean(hist[|hist| - 1]) > Mean(b) {
      InsertBinHolds(hist[..|hist| - 1], b);
      assert hist == hist[..|hist| - 1] + [hist[|hist| - 1]];
    }
  }

  lemma {:induction false} InsertBinSorts(hist: seq<Bin>, b: Bin)
    requires Filled(hist) && b.count > 0 && ByMean(hist)
    ensures ByMean(InsertBin(hist, b))
  {
    if hist != [] && Mean(hist[|hist| - 1]) > Mean(b) {
      InsertBinSorts(hist[..|hist| - 1], b);
      InsertBinUpTo(hist[..|hist| - 1], b, Mean(hist[|hist| - 1]));
    }
  }

  lemma {:induction false} InsertBinSums(hist: seq<Bin>, b: Bin, bins: set<int>)
    requires Filled(hist) && b.count > 0
    ensures var out := InsertBin(hist, b);
            && CountIn(out, bins) == CountIn(hist, bins) + (if b.code in bins then b.count else 0)
            && SumIn(out, bins) == SumIn(hist, bins) + (if b.code in bins then b.sum else 0.0)
  {
    if hist == [] || Mean(hist[|hist| - 1]) <= Mean(b) {
      assert (hist + [b])[..|hist|] == hist;
    } else {
      InsertBinSums(hist[..|hist| - 1], b, bins);
      var out := InsertBin(hist[..|hist| - 1], b);
      assert (out + [hist[|hist| - 1]])[..|out|] == out;
    }
  }

  lemma {:induction false} SortBinsHolds(hist: seq<Bin>)
    requires Filled(hist)
    ensures multiset(SortBins(hist)) == multiset(hist)
  {
    if hist != [] {
      var before, last := hist[..|hist| - 1], hist[|hist| - 1];
      SortBinsHolds(before);
      InsertBinHolds(SortBins(before), last);
      assert hist == before + [last];
    }
  }

  lemma {:induction false} SortBinsSorts(hist: seq<Bin>)
    requires Filled(hist)
    ensures ByMean(SortBins(hist)) && multiset(SortBins(hist)) == multiset(hist)
  {
    SortBinsHolds(hist);
    if hist != [] {
      SortBinsSorts(hist[..|hist| - 1]);
      InsertBinSorts(SortBins(hist[..|hist| - 1]), hist[|hist| - 1]);
    }
  }

  lemma {:induction false} SortBinsSums(hist: seq<Bin>, bins: set<int>)
    requires Filled(hist)
    ensures CountIn(SortBins(hist), bins) == CountIn(hist, bins)
    ensures SumIn(SortBins(hist), bins) == SumIn(hist, bins)
  {
    if hist != [] {
      SortBinsSums(hist[..|hist| - 1], bins);
      InsertBinSums(SortBins(hist[..|hist| - 1]), hist[|hist| - 1], bins);
    }
  }

  // ---------------------------------------------------------- cuts and subsets

  function CountAll(hist: seq<Bin>): nat {
    if hist == [] then 0 else CountAll(hist[..|hist| - 1]) + hist[|hist| - 1].count
  }

  function SumAll(hist: seq<Bin>): real {
    if hist == [] then 0.0 else SumAll(hist[..|hist| - 1]) + hist[|hist| - 1].sum
  }

  lemma {:induction false} InAtMostAll(hist: seq<Bin>, bins: set<int>)
    ensures CountIn(hist, bins) <= CountAll(hist)
  {
    if hist != [] {
      InAtMostAll(hist[..|hist| - 1], bins);
    }
  }

  /** The gain of taking `bins` as the left side. */
  function SubsetGain(hist: seq<Bin>, bins: set<int>): real {
    InAtMostAll(hist, bins);
    Gain(CountIn(hist, bins), SumIn(hist, bins), CountAll(hist), SumAll(hist))
  }

  lemma {:induction false} PrefixAtMostAll(hist: seq<Bin>, p: nat)
    requires p <= |hist|
    ensures CountAll(hist[..p]) <= CountAll(hist)
  {
    if p < |hist| {
      PrefixAtMostAll(hist[..|hist| - 1], p);
      assert hist[..|hist| - 1][..p] == hist[..p];
    } else {
      assert hist[..p] == hist;
    }
  }

  /** The gain of cutting after the first `p` bins. */
  function CutGain(hist: seq<Bin>, p: nat): real
    requires p <= |hist|
  {
    PrefixAtMostAll(hist, p);
    Gain(CountAll(hist[..p]), SumAll(hist[..p]), CountAll(hist), SumAll(hist))
  }

  predicate Legal(hist: seq<Bin>, p: nat) {
    && 1 <= p < |hist|
    && MIN_LEAF <= CountAll(hist[..p]) <= CountAll(hist) - MIN_LEAF
  }

  lemma {:induction false} NoneIn(hist: seq<Bin>, bins: set<int>)
    requires forall i :: 0 <= i < |hist| ==> hist[i].code !in bins
    ensures CountIn(hist, bins) == 0 && SumIn(hist, bins) == 0.0
  {
    if hist != [] {
      NoneIn(hist[..|hist| - 1], bins);
    }
  }

  /** Cutting after `p` bins takes the first `p` as the left side. */
  lemma {:induction false} CutTakesPrefix(hist: seq<Bin>, p: nat, bins: set<int>)
    requires p <= |hist|
    requires forall i :: 0 <= i < |hist| ==> (hist[i].code in bins <==> i < p)
    ensures CountIn(hist, bins) == CountAll(hist[..p]) && SumIn(hist, bins) == SumAll(hist[..p])
  {
    if hist != [] {
      var before := hist[..|hist| - 1];
      if p == |hist| {
        CutTakesPrefix(before, p - 1, bins);
        assert before[..p - 1] == before && hist[..p] == hist;
      } else {
        CutTakesPrefix(before, p, bins);
        assert before[..p] == hist[..p];
      }
    }
  }

  // ------------------------------------------------ the best subset is a cut

  /** A lower bound of what a bin's rows explain when predicted by `c`; exact at their mean. */
  function Worth(n: nat, s: real, c: real): real { 2.0 * c * s - c * c * n as real }

  /** The bins' worth when those in `bins` are predicted by `a`, the others by `b`. */
  function Score(hist: seq<Bin>, bins: set<int>, a: real, b: real): real {
    if hist == [] then 0.0
    else
      var last := hist[|hist| - 1];
      Score(hist[..|hist| - 1], bins, a, b)
      + Worth(last.count, last.sum, if last.code in bins then a else b)
  }

  lemma WorthAddsUp(n: nat, s: real, m: nat, t: real, c: real)
    ensures Worth(n + m, s + t, c) == Worth(n, s, c) + Worth(m, t, c)
  {
    assert 2.0 * c * (s + t) == 2.0 * c * s + 2.0 * c * t;
    assert c * c * (n as real + m as real) == c * c * n as real + c * c * m as real;
  }

  lemma {:induction false} ScoreIs(hist: seq<Bin>, bins: set<int>, a: real, b: real)
    ensures CountIn(hist, bins) <= CountAll(hist)
    ensures Score(hist, bins, a, b) == Worth(CountIn(hist, bins), SumIn(hist, bins), a)
                         + Worth(CountAll(hist) - CountIn(hist, bins), SumAll(hist) - SumIn(hist, bins), b)
  {
    InAtMostAll(hist, bins);
    if hist != [] {
      var before, last := hist[..|hist| - 1], hist[|hist| - 1];
      ScoreIs(before, bins, a, b);
      var n, s := CountIn(before, bins), SumIn(before, bins);
      WorthAddsUp(n, s, last.count, last.sum, a);
      WorthAddsUp(CountAll(before) - n, SumAll(before) - s, last.count, last.sum, b);
    }
  }

  lemma WorthAtMost(n: nat, s: real, c: real)
    ensures n > 0 ==> Worth(n, s, c) <= Explained(s, n)
    ensures n > 0 && c == s / n as real ==> Worth(n, s, c) == Explained(s, n)
  {
    if n > 0 {
      var k := n as real;
      var m := s / k;
      AtTheMean(s, k, m);
      SquareGap(m, c, k, s);
    }
  }

  lemma SquareGap(m: real, c: real, k: real, s: real)
    requires k > 0.0 && s == m * k
    ensures 2.0 * c * s - c * c * k <= 2.0 * m * s - m * m * k
  {
    var d := m - c;
    assert d * d >= 0.0;
    assert d * d * k >= 0.0;
    assert d * d == m * m - 2.0 * m * c + c * c;
    assert d * d * k == m * m * k - 2.0 * m * c * k + c * c * k;
    assert 2.0 * m * s == 2.0 * (m * m * k);
    assert 2.0 * c * s == 2.0 * m * c * k;
  }

  /** A bin is worth more with the mean it is closer to. */
  lemma CloserIsWorthMore(bin: Bin, a: real, b: real)
    requires bin.count > 0 && a < b
    ensures Mean(bin) <= (a + b) / 2.0 ==> Worth(bin.count, bin.sum, a) >= Worth(bin.count, bin.sum, b)
    ensures Mean(bin) >= (a + b) / 2.0 ==> Worth(bin.count, bin.sum, a) <= Worth(bin.count, bin.sum, b)
  {
    var k := bin.count as real;
    GapOfWorths(Mean(bin), k, bin.sum, a, b);
  }

  lemma GapOfWorths(m: real, k: real, s: real, a: real, b: real)
    requires k > 0.0 && s == m * k && a < b
    ensures m <= (a + b) / 2.0 ==> 2.0 * a * s - a * a * k >= 2.0 * b * s - b * b * k
    ensures m >= (a + b) / 2.0 ==> 2.0 * a * s - a * a * k <= 2.0 * b * s - b * b * k
  {
    var gap := (b - a) * ((a + b) - 2.0 * m) * k;
    assert (b - a) * ((a + b) - 2.0 * m) == b * b - a * a - 2.0 * m * b + 2.0 * m * a;
    assert gap == b * b * k - a * a * k - 2.0 * b * (m * k) + 2.0 * a * (m * k);
    if m <= (a + b) / 2.0 {
      assert (b - a) * ((a + b) - 2.0 * m) >= 0.0;
      assert gap >= 0.0;
    }
    if m >= (a + b) / 2.0 {
      assert (b - a) * ((a + b) - 2.0 * m) <= 0.0;
      assert gap <= 0.0;
    }
  }

  /** Giving every bin the mean it is closer to scores best. */
  lemma {:induction false} ClosestScoresBest(hist: seq<Bin>, closer: set<int>, bins: set<int>, a: real, b: real)
    requires Filled(hist) && a < b
    requires forall i :: 0 <= i < |hist| ==> (hist[i].code in closer <==> Mean(hist[i]) <= (a + b) / 2.0)
    ensures Score(hist, bins, a, b) <= Score(hist, closer, a, b)
  {
    if hist != [] {
      ClosestScoresBest(hist[..|hist| - 1], closer, bins, a, b);
      CloserIsWorthMore(hist[|hist| - 1], a, b);
    }
  }

  /** How many bins have a mean up to `c`: in mean order, the first ones. */
  lemma {:induction false} BinsUpTo(hist: seq<Bin>, c: real) returns (p: nat)
    requires Filled(hist) && ByMean(hist)
    ensures p <= |hist|
    ensures forall i :: 0 <= i < |hist| ==> (Mean(hist[i]) <= c <==> i < p)
  {
    if hist == [] || Mean(hist[|hist| - 1]) <= c {
      p := |hist|;
    } else {
      p := BinsUpTo(hist[..|hist| - 1], c);
    }
  }

  lemma {:induction false} AllPositive(hist: seq<Bin>)
    requires Filled(hist) && hist != []
    ensures CountAll(hist) > 0
  {
    if |hist| > 1 {
      AllPositive(hist[..|hist| - 1]);
    }
  }

  lemma {:induction false} AllSplits(hist: seq<Bin>, p: nat)
    requires Filled(hist) && p <= |hist|
    ensures CountAll(hist[..p]) + CountAll(hist[p..]) == CountAll(hist)
    ensures p < |hist| ==> CountAll(hist[..p]) < CountAll(hist)
  {
    if p < |hist| {
      var before := hist[..|hist| - 1];
      AllSplits(before, p);
      assert before[..p] == hist[..p] && hist[p..][..|hist| - 1 - p] == before[p..];
    } else {
      assert hist[..p] == hist;
    }
  }

  lemma SameMeansGainNothing(n: nat, s: real, m: nat, t: real)
    requires n > 0 && m > 0 && s / n as real == t / m as real
    ensures Explained(s, n) + Explained(t, m) == Explained(s + t, n + m)
  {
    var c := s / n as real;
    WorthAtMost(n, s, c);
    WorthAtMost(m, t, c);
    WorthAddsUp(n, s, m, t, c);
    assert c * n as real == s && c * m as real == t;
    assert (n + m) as real == n as real + m as real;
    assert c * (n + m) as real == s + t;
    MeanIs(s + t, (n + m) as real, c);
    WorthAtMost(n + m, s + t, c);
  }

  lemma MeanIs(s: real, n: real, c: real)
    requires n > 0.0 && c * n == s
    ensures c == s / n
  {
  }

  lemma ScoreAtMeans(hist: seq<Bin>, bins: set<int>, a: real, b: real)
    requires 0 < CountIn(hist, bins) < CountAll(hist)
    requires a == SumIn(hist, bins) / CountIn(hist, bins) as real
    requires b == (SumAll(hist) - SumIn(hist, bins)) / (CountAll(hist) - CountIn(hist, bins)) as real
    ensures Score(hist, bins, a, b) == SubsetGain(hist, bins) + Explained(SumAll(hist), CountAll(hist))
  {
    ScoreIs(hist, bins, a, b);
    WorthAtMost(CountIn(hist, bins), SumIn(hist, bins), a);
    WorthAtMost(CountAll(hist) - CountIn(hist, bins), SumAll(hist) - SumIn(hist, bins), b);
  }

  lemma ScoreOfEnd(hist: seq<Bin>, closer: set<int>, a: real, b: real, p: nat)
    requires Filled(hist) && hist != [] && (p == 0 || p == |hist|)
    requires forall i :: 0 <= i < |hist| ==> (hist[i].code in closer <==> i < p)
    ensures Score(hist, closer, a, b) <= Explained(SumAll(hist), CountAll(hist))
  {
    ScoreIs(hist, closer, a, b);
    CutTakesPrefix(hist, p, closer);
    AllPositive(hist);
    if p == 0 {
      assert hist[..p] == [] && Worth(0, 0.0, a) == 0.0;
      WorthAtMost(CountAll(hist), SumAll(hist), b);
    } else {
      assert hist[..p] == hist && Worth(0, 0.0, b) == 0.0;
      WorthAtMost(CountAll(hist), SumAll(hist), a);
    }
  }

  lemma ScoreOfCut(hist: seq<Bin>, closer: set<int>, a: real, b: real, p: nat)
    requires Filled(hist) && p <= |hist| && hist != []
    requires forall i :: 0 <= i < |hist| ==> (hist[i].code in closer <==> i < p)
    ensures Score(hist, closer, a, b) <= Explained(SumAll(hist), CountAll(hist))
                                         + if 0 < p < |hist| then CutGain(hist, p) else 0.0
  {
    if p == 0 || p == |hist| {
      ScoreOfEnd(hist, closer, a, b, p);
    } else {
      var nl, sl := CountAll(hist[..p]), SumAll(hist[..p]);
      ScoreIs(hist, closer, a, b);
      CutTakesPrefix(hist, p, closer);
      AllSplits(hist, p);
      AllPositive(hist);
      AllPositive(hist[..p]);
      WorthAtMost(nl, sl, a);
      WorthAtMost(CountAll(hist) - nl, SumAll(hist) - sl, b);
    }
  }

  /** What the cut at the midpoint of the sides' means, `p` bins, has over the subset. */
  lemma SubsetBelowCut(hist: seq<Bin>, bins: set<int>, a: real, b: real, p: nat)
    requires Filled(hist) && Distinct(hist) && p <= |hist| && a < b
    requires forall i :: 0 <= i < |hist| ==> (Mean(hist[i]) <= (a + b) / 2.0 <==> i < p)
    requires 0 < CountIn(hist, bins) < CountAll(hist)
    requires a == SumIn(hist, bins) / CountIn(hist, bins) as real
    requires b == (SumAll(hist) - SumIn(hist, bins)) / (CountAll(hist) - CountIn(hist, bins)) as real
    ensures SubsetGain(hist, bins) <= if 0 < p < |hist| then CutGain(hist, p) else 0.0
  {
    var closer := Codes(hist[..p]);
    forall i | 0 <= i < |hist| ensures hist[i].code in closer <==> i < p {
      if i < p {
        assert hist[..p][i] == hist[i];
      }
    }
    ScoreAtMeans(hist, bins, a, b);
    ClosestScoresBest(hist, closer, bins, a, b);
    ScoreOfCut(hist, closer, a, b, p);
  }

  lemma Complement(hist: seq<Bin>, bins: set<int>) returns (others: set<int>)
    ensures CountIn(hist, bins) + CountIn(hist, others) == CountAll(hist)
    ensures SumIn(hist, bins) + SumIn(hist, others) == SumAll(hist)
  {
    others := Codes(hist) - bins;
    ComplementSums(hist, bins, others);
  }

  lemma {:induction false} ComplementSums(hist: seq<Bin>, bins: set<int>, others: set<int>)
    requires forall i :: 0 <= i < |hist| ==> (hist[i].code in others <==> hist[i].code !in bins)
    ensures CountIn(hist, bins) + CountIn(hist, others) == CountAll(hist)
    ensures SumIn(hist, bins) + SumIn(hist, others) == SumAll(hist)
  {
    if hist != [] {
      ComplementSums(hist[..|hist| - 1], bins, others);
    }
  }

  /** No subset of the bins gains more than the best cut of them in mean order. */
  lemma SubsetsGainNoMore(hist: seq<Bin>, bins: set<int>) returns (p: nat)
    requires Filled(hist) && ByMean(hist) && Distinct(hist)
    ensures SubsetGain(hist, bins) <= 0.0
            || (0 < p < |hist| && SubsetGain(hist, bins) <= CutGain(hist, p))
  {
    p := 0;
    InAtMostAll(hist, bins);
    var n, s, all, total := CountIn(hist, bins), SumIn(hist, bins), CountAll(hist), SumAll(hist);
    var others := Complement(hist, bins);
    if n == 0 {
      NoCountNoSum(hist, bins);
    } else if n == all {
      NoCountNoSum(hist, others);
    } else {
      var a, b := s / n as real, (total - s) / (all - n) as real;
      if a < b {
        p := BinsUpTo(hist, (a + b) / 2.0);
        SubsetBelowCut(hist, bins, a, b, p);
      } else if b < a {
        p := BinsUpTo(hist, (b + a) / 2.0);
        SubsetBelowCut(hist, others, b, a, p);
      } else {
        SameMeansGainNothing(n, s, all - n, total - s);
      }
    }
  }

  lemma {:induction false} NoCountNoSum(hist: seq<Bin>, bins: set<int>)
    requires Filled(hist) && CountIn(hist, bins) == 0
    ensures SumIn(hist, bins) == 0.0
  {
    if hist != [] {
      NoCountNoSum(hist[..|hist| - 1], bins);
    }
  }

  // ------------------------------------------------------------- from bins to rows

  lemma {:induction false} InsertBinDistinct(hist: seq<Bin>, b: Bin)
    requires Filled(hist) && b.count > 0 && Distinct(hist) && b.code !in Codes(hist)
    ensures Distinct(InsertBin(hist, b)) && Codes(InsertBin(hist, b)) == Codes(hist) + {b.code}
  {
    if hist == [] || Mean(hist[|hist| - 1]) <= Mean(b) {
      assert (hist + [b])[|hist|] == b;
      assert forall i :: 0 <= i < |hist| ==> (hist + [b])[i] == hist[i];
    } else {
      var before, last := hist[..|hist| - 1], hist[|hist| - 1];
      CodesOfLast(hist);
      assert last.code !in Codes(before);
      InsertBinDistinct(before, b);
      var out := InsertBin(before, b);
      CodesOfLast(out + [last]);
      assert (out + [last])[..|out|] == out;
      assert last.code !in Codes(out);
    }
  }

  lemma CodesOfLast(hist: seq<Bin>)
    requires hist != []
    ensures Codes(hist) == Codes(hist[..|hist| - 1]) + {hist[|hist| - 1].code}
  {
    forall c | c in Codes(hist[..|hist| - 1]) ensures c in Codes(hist) {
      var i :| 0 <= i < |hist| - 1 && hist[..|hist| - 1][i].code == c;
      assert hist[i].code == c;
    }
    forall c | c in Codes(hist) ensures c in Codes(hist[..|hist| - 1]) + {hist[|hist| - 1].code} {
      var i :| 0 <= i < |hist| && hist[i].code == c;
      if i < |hist| - 1 {
        assert hist[..|hist| - 1][i].code == c;
      }
    }
  }

  lemma {:induction false} SortBinsDistinct(hist: seq<Bin>)
    requires Filled(hist) && Distinct(hist)
    ensures Distinct(SortBins(hist)) && Codes(SortBins(hist)) == Codes(hist)
  {
    if hist != [] {
      SortBinsDistinct(hist[..|hist| - 1]);
      CodesOfLast(hist);
      assert hist[|hist| - 1].code !in Codes(hist[..|hist| - 1]);
      InsertBinDistinct(SortBins(hist[..|hist| - 1]), hist[|hist| - 1]);
    }
  }

  /** The bins in the order they are scanned in. */
  function Scanned(node: seq<nat>, col: seq<int>, y: seq<real>, unordered: bool): (order: seq<Bin>)
    ensures Filled(order)
  {
    var hist := Histogram(SortRows(node, col), col, y);
    HistogramFilled(SortRows(node, col), col, y);
    if unordered then SortBins(hist) else hist
  }

  lemma ScannedDistinct(node: seq<nat>, col: seq<int>, y: seq<real>, unordered: bool)
    ensures Distinct(Scanned(node, col, y, unordered))
    ensures unordered ==> ByMean(Scanned(node, col, y, unordered))
  {
    var rows := SortRows(node, col);
    SortRowsSorts(node, col);
    SortedIsDistinct(rows, col, y);
    HistogramFilled(rows, col, y);
    if unordered {
      SortBinsDistinct(Histogram(rows, col, y));
      SortBinsSorts(Histogram(rows, col, y));
    }
  }

  /** The scanned bins count and sum what a parting of the node's rows does. */
  lemma ScannedSums(node: seq<nat>, col: seq<int>, y: seq<real>, unordered: bool, bins: set<int>)
    ensures var order, l := Scanned(node, col, y, unordered), Keep(node, col, bins, true);
            CountIn(order, bins) == |l| && SumIn(order, bins) == Sum(l, y)
  {
    var rows := SortRows(node, col);
    var hist := Histogram(rows, col, y);
    SortRowsKeeps(node, col, y, bins, true);
    HistogramSums(rows, col, y, bins);
    HistogramFilled(rows, col, y);
    if unordered {
      SortBinsSums(hist, bins);
      assert Scanned(node, col, y, unordered) == SortBins(hist);
    } else {
      assert Scanned(node, col, y, unordered) == hist;
    }
  }

  lemma {:induction false} AllIn(hist: seq<Bin>, bins: set<int>)
    requires forall i :: 0 <= i < |hist| ==> hist[i].code in bins
    ensures CountIn(hist, bins) == CountAll(hist) && SumIn(hist, bins) == SumAll(hist)
  {
    if hist != [] {
      AllIn(hist[..|hist| - 1], bins);
    }
  }

  lemma {:induction false} KeepsAll(rows: seq<nat>, col: seq<int>, bins: set<int>)
    requires forall i :: 0 <= i < |rows| ==> Code(col, rows[i]) in bins
    ensures Keep(rows, col, bins, true) == rows
  {
    if rows != [] {
      KeepsAll(rows[..|rows| - 1], col, bins);
    }
  }

  lemma ScannedAll(node: seq<nat>, col: seq<int>, y: seq<real>, unordered: bool)
    ensures CountAll(Scanned(node, col, y, unordered)) == |node|
    ensures SumAll(Scanned(node, col, y, unordered)) == Sum(node, y)
  {
    var order := Scanned(node, col, y, unordered);
    var bins := Codes(order) + set i | 0 <= i < |node| :: Code(col, node[i]);
    AllIn(order, bins);
    KeepsAll(node, col, bins);
    ScannedSums(node, col, y, unordered, bins);
  }

  /** The gain of a subset of the bins is the drop in squared error it buys. */
  lemma SubsetGainIsDrop(node: seq<nat>, col: seq<int>, y: seq<real>, unordered: bool, bins: set<int>)
    ensures SubsetGain(Scanned(node, col, y, unordered), bins) == Drop(node, col, y, bins)
  {
    ScannedSums(node, col, y, unordered, bins);
    ScannedAll(node, col, y, unordered);
    DropIs(node, col, y, bins);
  }

  /** The bins a cut takes as its left side. */
  function LeftOf(order: seq<Bin>, p: nat): set<int>
    requires p <= |order|
  {
    Codes(order[..p])
  }

  lemma CutIsDrop(node: seq<nat>, col: seq<int>, y: seq<real>, unordered: bool, p: nat)
    requires p <= |Scanned(node, col, y, unordered)|
    ensures var order := Scanned(node, col, y, unordered);
            var bins := LeftOf(order, p);
            && CutGain(order, p) == Drop(node, col, y, bins)
            && CountAll(order[..p]) == |Keep(node, col, bins, true)|
  {
    var order := Scanned(node, col, y, unordered);
    var bins := LeftOf(order, p);
    ScannedDistinct(node, col, y, unordered);
    forall i | 0 <= i < |order| ensures order[i].code in bins <==> i < p {
      if i < p {
        assert order[..p][i] == order[i];
      }
    }
    CutTakesPrefix(order, p, bins);
    SubsetGainIsDrop(node, col, y, unordered, bins);
    ScannedSums(node, col, y, unordered, bins);
  }

  // -------------------------------------------------------------- the best split

  /** `gain` rows parted: `ordered` sorted by bin, the left side `size` rows; the left
      side's bins for an unordered column. */
  datatype Split = Split(gain: real, ordered: seq<nat>, size: nat, leftBins: Option<set<int>>)

  /** The gain the caller gets: none is no gain. */
  function GainOf(best: Option<Split>): real {
    if best.Some? then best.value.gain else 0.0
  }

  /** No legal cut of the scanned bins gains more. */
  ghost predicate NoCutGainsMore(order: seq<Bin>, gain: real) {
    forall p :: Legal(order, p) ==> CutGain(order, p) <= gain
  }

  /** The bins scanned first and last hold `MIN_LEAF` rows, so no cut is skipped. */
  predicate WideEnds(order: seq<Bin>) {
    order != [] ==> order[0].count >= MIN_LEAF && order[|order| - 1].count >= MIN_LEAF
  }

  lemma {:induction false} FirstInPrefix(order: seq<Bin>, p: nat)
    requires 0 < p <= |order|
    ensures CountAll(order[..p]) >= order[0].count
  {
    assert order[..p][..p - 1] == order[..p - 1];
    if p > 1 {
      FirstInPrefix(order, p - 1);
    }
  }

  lemma WideEndsSkipNothing(order: seq<Bin>, p: nat)
    requires WideEnds(order) && 0 < p < |order|
    ensures Legal(order, p)
  {
    FirstInPrefix(order, p);
    PrefixAtMostAll(order[..|order| - 1], p);
    assert order[..|order| - 1][..p] == order[..p];
  }

  /** With wide ends, what no cut in mean order beats, no subset of the bins does. */
  lemma BestSubset(node: seq<nat>, col: seq<int>, y: seq<real>, gain: real, bins: set<int>)
    requires var order := Scanned(node, col, y, true);
             WideEnds(order) && NoCutGainsMore(order, gain) && gain >= 0.0
    ensures Drop(node, col, y, bins) <= gain
  {
    var order := Scanned(node, col, y, true);
    ScannedDistinct(node, col, y, true);
    SubsetGainIsDrop(node, col, y, true, bins);
    var p := SubsetsGainNoMore(order, bins);
    if 0 < p < |order| {
      WideEndsSkipNothing(order, p);
    }
  }

  /** Rows in order of bin up to a threshold. */
  function UpTo(order: seq<Bin>, threshold: int): set<int> {
    set i | 0 <= i < |order| && order[i].code <= threshold :: order[i].code
  }

  lemma {:induction false} ThresholdIsCut(hist: seq<Bin>, threshold: int) returns (p: nat)
    requires forall i, j :: 0 <= i < j < |hist| ==> hist[i].code < hist[j].code
    ensures p <= |hist| && forall i :: 0 <= i < |hist| ==> (hist[i].code <= threshold <==> i < p)
  {
    if hist == [] || hist[|hist| - 1].code <= threshold {
      p := |hist|;
    } else {
      p := ThresholdIsCut(hist[..|hist| - 1], threshold);
    }
  }

  /** A threshold's left side is a cut's. */
  lemma ThresholdCut(node: seq<nat>, col: seq<int>, y: seq<real>, threshold: int) returns (p: nat)
    ensures var order := Scanned(node, col, y, false);
            var bins := UpTo(order, threshold);
            && p <= |order| && CutGain(order, p) == Drop(node, col, y, bins)
            && CountAll(order[..p]) == |Keep(node, col, bins, true)|
  {
    var order := Scanned(node, col, y, false);
    var bins := UpTo(order, threshold);
    SortRowsSorts(node, col);
    SortedIsDistinct(SortRows(node, col), col, y);
    p := ThresholdIsCut(order, threshold);
    CutTakesPrefix(order, p, bins);
    SubsetGainIsDrop(node, col, y, false, bins);
    ScannedSums(node, col, y, false, bins);
  }

  /** For an ordered column: no threshold leaving `MIN_LEAF` rows on either side gains more. */
  lemma BestThreshold(node: seq<nat>, col: seq<int>, y: seq<real>, gain: real, threshold: int)
    requires var order := Scanned(node, col, y, false); NoCutGainsMore(order, gain) && gain >= 0.0
    requires var left := Keep(node, col, UpTo(Scanned(node, col, y, false), threshold), true);
             MIN_LEAF <= |left| <= |node| - MIN_LEAF
    ensures Drop(node, col, y, UpTo(Scanned(node, col, y, false), threshold)) <= gain
  {
    var order := Scanned(node, col, y, false);
    var p := ThresholdCut(node, col, y, threshold);
    ScannedAll(node, col, y, false);
    assert order[..|order|] == order && order[..0] == [];
    assert Legal(order, p);
  }

  method HistogramOf(ordered: seq<nat>, col: seq<int>, y: seq<real>) returns (hist: seq<Bin>)
    ensures hist == Histogram(ordered, col, y)
  {
    hist := [];
    var i := 0;
    while i < |ordered|
      invariant i <= |ordered|
      invariant hist == Histogram(ordered[..i], col, y)
      invariant i > 0 && i < |ordered| ==> hist != []
      decreases |ordered| - i
    {
      hist := Grouped(hist, Code(col, ordered[i]), Target(y, ordered[i]));
      assert ordered[..i + 1][..i] == ordered[..i];
      i := i + 1;
    }
    assert ordered[..i] == ordered;
  }

  lemma NextPrefix(hist: seq<Bin>, at: nat)
    requires at < |hist|
    ensures CountAll(hist[..at + 1]) == CountAll(hist[..at]) + hist[at].count <= CountAll(hist)
    ensures SumAll(hist[..at + 1]) == SumAll(hist[..at]) + hist[at].sum
  {
    assert hist[..at + 1][..at] == hist[..at];
    PrefixAtMostAll(hist, at + 1);
  }

  /** No parting by bin drops the squared error further — nor, none found, at all. */
  ghost predicate NoSubsetDropsMore(node: seq<nat>, col: seq<int>, y: seq<real>, best: Option<Split>) {
    forall bins :: Drop(node, col, y, bins) <= GainOf(best)
  }

  /** No cut the scan skips, one side too small, gains more. */
  ghost predicate SkippedGainNoMore(order: seq<Bin>, gain: real) {
    forall p :: 0 < p < |order| && !Legal(order, p) ==> CutGain(order, p) <= gain
  }

  /** The scan finds the best subset of all if and only if no cut it skips gains more; with
      wide ends it skips none. */
  lemma ScanFindsBestSubset(node: seq<nat>, col: seq<int>, y: seq<real>, best: Option<Split>)
    requires NoCutGainsMore(Scanned(node, col, y, true), GainOf(best)) && GainOf(best) >= 0.0
    ensures NoSubsetDropsMore(node, col, y, best) <==> SkippedGainNoMore(Scanned(node, col, y, true), GainOf(best))
    ensures WideEnds(Scanned(node, col, y, true)) ==> NoSubsetDropsMore(node, col, y, best)
  {
    var order, gain := Scanned(node, col, y, true), GainOf(best);
    ScannedDistinct(node, col, y, true);
    if WideEnds(order) {
      forall p | 0 < p < |order| ensures Legal(order, p) { WideEndsSkipNothing(order, p); }
    }
    if SkippedGainNoMore(order, gain) {
      forall bins ensures Drop(node, col, y, bins) <= gain {
        SubsetGainIsDrop(node, col, y, true, bins);
        var p := SubsetsGainNoMore(order, bins);
        assert 0 < p < |order| ==> CutGain(order, p) <= gain;
      }
    }
    if NoSubsetDropsMore(node, col, y, best) {
      forall p | 0 < p < |order| ensures CutGain(order, p) <= gain {
        CutIsDrop(node, col, y, true, p);
        assert Drop(node, col, y, LeftOf(order, p)) <= gain;
      }
    }
  }

  ghost predicate NoneBetterUpTo(hist: seq<Bin>, at: nat, gain: real) {
    forall p: nat :: p <= at && Legal(hist, p) ==> CutGain(hist, p) <= gain
  }

  ghost predicate IsBestCut(hist: seq<Bin>, p: nat, gain: real, size: nat) {
    Legal(hist, p) && gain == CutGain(hist, p) && size == CountAll(hist[..p])
  }

  /** The best cut of the bins, scanned once with running left sums: its gain, its last
      left bin (-1 for none) and how many rows it takes. */
  method BestCut(hist: seq<Bin>, n: nat, total: real) returns (bestGain: real, cut: int, size: nat)
    requires Filled(hist) && |hist| >= 2 && n == CountAll(hist) && total == SumAll(hist)
    ensures NoCutGainsMore(hist, bestGain)
    ensures -1 <= cut < |hist| - 1
    ensures cut == -1 ==> bestGain == 0.0
    ensures cut >= 0 ==> bestGain > 0.0 && IsBestCut(hist, cut + 1, bestGain, size)
  {
    AllPositive(hist);
    var base := Explained(total, n);
    bestGain, cut, size := 0.0, -1, 0;
    var nLeft: nat, sLeft := 0, 0.0;
    for at := 0 to |hist| - 1
      invariant nLeft == CountAll(hist[..at]) && sLeft == SumAll(hist[..at])
      invariant -1 <= cut < at && bestGain >= 0.0
      invariant NoneBetterUpTo(hist, at, bestGain)
      invariant cut == -1 ==> bestGain == 0.0
      invariant cut >= 0 ==> bestGain > 0.0 && IsBestCut(hist, cut + 1, bestGain, size)
    {
      NextPrefix(hist, at);
      nLeft := nLeft + hist[at].count;
      sLeft := sLeft + hist[at].sum;
      var nRight: nat := n - nLeft;
      if nLeft < MIN_LEAF || nRight < MIN_LEAF {
        continue;
      }
      var sRight := total - sLeft;
      var gain := Explained(sLeft, nLeft) + Explained(sRight, nRight) - base;
      assert gain == CutGain(hist, at + 1);
      if gain > bestGain {
        bestGain, cut, size := gain, at, nLeft;
      }
    }
  }

  /** The best split on `col`: none when no legal cut gains. */
  method BestSplit(node: seq<nat>, col: seq<int>, y: seq<real>, unordered: bool) returns (best: Option<Split>)
    ensures NoCutGainsMore(Scanned(node, col, y, unordered), GainOf(best))
    ensures unordered ==>
      (NoSubsetDropsMore(node, col, y, best) <==> SkippedGainNoMore(Scanned(node, col, y, true), GainOf(best)))
    ensures unordered && WideEnds(Scanned(node, col, y, unordered)) ==> NoSubsetDropsMore(node, col, y, best)
    ensures best.Some? ==>
      exists p: nat :: IsCut(node, col, y, unordered, best.value, p) && Legal(Scanned(node, col, y, unordered), p)
  {
    var ordered := SortRows(node, col);
    var hist := HistogramOf(ordered, col, y);
    HistogramFilled(ordered, col, y);
    if unordered {
      hist := SortBins(hist);
    }
    ScannedAll(node, col, y, unordered);
    best := None;
    if |hist| >= 2 {
      var gain, cut, size := BestCut(hist, |node|, Sum(node, y));
      if cut >= 0 {
        var leftBins := if unordered then Some(Codes(hist[..cut + 1])) else None;
        best := Some(Split(gain, ordered, size, leftBins));
        assert IsCut(node, col, y, unordered, best.value, cut + 1);
      }
    }
    if unordered {
      ScanFindsBestSubset(node, col, y, best);
    }
  }

  /** `split` is the cut of the scanned bins after the first `p`. */
  ghost predicate IsCut(node: seq<nat>, col: seq<int>, y: seq<real>, unordered: bool, split: Split, p: nat) {
    var order := Scanned(node, col, y, unordered);
    && p <= |order|
    && split.gain == CutGain(order, p) > 0.0
    && split.ordered == SortRows(node, col)
    && split.size == CountAll(order[..p])
    && split.leftBins == if unordered then Some(LeftOf(order, p)) else None
  }

  // ------------------------------------------------------------ parting the rows

  /** The rows with the left side's brought to the front. */
  function Parted(split: Split, col: seq<int>): seq<nat> {
    match split.leftBins
    case None => split.ordered
    case Some(bins) => Keep(split.ordered, col, bins, true) + Keep(split.ordered, col, bins, false)
  }

  /** Rows with those of the left side first are parted where the left side ends. */
  lemma {:induction false} LeftFirst(rows: seq<nat>, col: seq<int>, bins: set<int>)
    requires forall i, j :: 0 <= i < j < |rows| && Code(col, rows[j]) in bins ==> Code(col, rows[i]) in bins
    ensures var n := |Keep(rows, col, bins, true)|;
            n <= |rows| && Keep(rows, col, bins, true) == rows[..n] && Keep(rows, col, bins, false) == rows[n..]
  {
    if rows != [] {
      var before, r := rows[..|rows| - 1], rows[|rows| - 1];
      LeftFirst(before, col, bins);
      if Code(col, r) in bins {
        InsideAll(before, col, bins);
        assert Keep(before, col, bins, true) == before;
      }
    }
  }

  lemma {:induction false} InsideAll(rows: seq<nat>, col: seq<int>, bins: set<int>)
    requires forall i :: 0 <= i < |rows| ==> Code(col, rows[i]) in bins
    ensures Keep(rows, col, bins, true) == rows && Keep(rows, col, bins, false) == []
  {
    if rows != [] {
      InsideAll(rows[..|rows| - 1], col, bins);
    }
  }

  lemma {:induction false} RowsHaveBins(rows: seq<nat>, col: seq<int>, y: seq<real>, i: nat)
    requires i < |rows|
    ensures Code(col, rows[i]) in Codes(Histogram(rows, col, y))
  {
    var before, r := rows[..|rows| - 1], rows[|rows| - 1];
    var was, hist := Histogram(before, col, y), Histogram(rows, col, y);
    assert hist[|hist| - 1].code == Code(col, r);
    if i < |before| {
      RowsHaveBins(before, col, y, i);
      var k :| 0 <= k < |was| && was[k].code == Code(col, before[i]);
      assert hist[k].code == was[k].code;
    }
  }

  /** What is below a code of the left side is on it. */
  lemma LowerIsLeft(order: seq<Bin>, p: nat, h: nat, code: int)
    requires CodesRise(order) && p <= |order| && h < |order| && code in LeftOf(order, p) && order[h].code <= code
    ensures order[h].code in LeftOf(order, p)
  {
    var k :| 0 <= k < p && order[..p][k].code == code;
    assert h <= k;
    assert order[..p][h].code == order[h].code;
  }

  lemma SortedLeftFirst(node: seq<nat>, col: seq<int>, y: seq<real>, p: nat)
    requires p <= |Scanned(node, col, y, false)|
    ensures var bins, rows := LeftOf(Scanned(node, col, y, false), p), SortRows(node, col);
            var n := |Keep(rows, col, bins, true)|;
            n <= |rows| && Keep(rows, col, bins, true) == rows[..n] && Keep(rows, col, bins, false) == rows[n..]
  {
    var order := Scanned(node, col, y, false);
    var bins, rows := LeftOf(order, p), SortRows(node, col);
    SortRowsSorts(node, col);
    SortedIsDistinct(rows, col, y);
    forall i, j | 0 <= i < j < |rows| && Code(col, rows[j]) in bins ensures Code(col, rows[i]) in bins {
      RowsHaveBins(rows, col, y, i);
      var h: nat :| h < |order| && order[h].code == Code(col, rows[i]);
      LowerIsLeft(order, p, h, Code(col, rows[j]));
    }
    LeftFirst(rows, col, bins);
  }

  lemma SortedSumsSame(node: seq<nat>, col: seq<int>, y: seq<real>)
    ensures |SortRows(node, col)| == |node| && Sum(SortRows(node, col), y) == Sum(node, y)
  {
    SortRowsKeeps(node, col, y, {}, true);
    SortRowsKeeps(node, col, y, {}, false);
    SidesAddUp(node, col, y, {});
    SidesAddUp(SortRows(node, col), col, y, {});
  }

  lemma SortedDropsSame(node: seq<nat>, col: seq<int>, y: seq<real>, bins: set<int>)
    ensures Drop(SortRows(node, col), col, y, bins) == Drop(node, col, y, bins)
  {
    SortedSumsSame(node, col, y);
    SortRowsKeeps(node, col, y, bins, true);
    SortRowsKeeps(node, col, y, bins, false);
    DropIs(node, col, y, bins);
    DropIs(SortRows(node, col), col, y, bins);
  }

  /** The left rows of a split come first: `size` of them, exactly those whose bin the cut
      took; the gain is the drop in squared error of parting the rows there. */
  lemma PartedAtSize(node: seq<nat>, col: seq<int>, y: seq<real>, unordered: bool, split: Split, p: nat)
    requires IsCut(node, col, y, unordered, split, p)
    ensures multiset(split.ordered) == multiset(node)
    ensures var bins, rows := LeftOf(Scanned(node, col, y, unordered), p), Parted(split, col);
            && split.size <= |rows|
            && rows[..split.size] == Keep(split.ordered, col, bins, true)
            && rows[split.size..] == Keep(split.ordered, col, bins, false)
            && split.gain == Drop(node, col, y, bins)
            && split.gain == SSE(split.ordered, y) - SSE(rows[..split.size], y) - SSE(rows[split.size..], y)
  {
    var bins := LeftOf(Scanned(node, col, y, unordered), p);
    CutIsDrop(node, col, y, unordered, p);
    SortRowsKeeps(node, col, y, bins, true);
    SortedDropsSame(node, col, y, bins);
    SortRowsSorts(node, col);
    if !unordered {
      SortedLeftFirst(node, col, y, p);
    }
  }

  // ---------------------------------------------------------- when cuts are skipped

  /** Why `ScanFindsBestSubset` asks about the cuts skipped: with a lowest bin too small to
      stand alone, the one legal cut in mean order gains less than a legal subset joining the
      two ends. */
  lemma SkippedCutLoses() returns (hist: seq<Bin>, bins: set<int>)
    ensures Filled(hist) && ByMean(hist) && Distinct(hist)
    ensures MIN_LEAF <= CountIn(hist, bins) <= CountAll(hist) - MIN_LEAF
    ensures forall p :: Legal(hist, p) ==> CutGain(hist, p) < SubsetGain(hist, bins)
  {
    var a, b, c := Bin(0, 1, -100.0), Bin(1, 9, 0.0), Bin(2, 5, 5.0);
    hist, bins := [a, b, c], {0, 2};
    assert [a] == [] + [a] && [a, b] == [a] + [b] && hist == [a, b] + [c];
    assert hist[..2] == [a, b] && hist[..1] == [a];
    OneMoreBin([], a, bins);
    OneMoreBin([a], b, bins);
    OneMoreBin([a, b], c, bins);
    assert CountAll(hist[..1]) == 1;
    assert Explained(-100.0, 10) == 1000.0 && Explained(5.0, 5) == 5.0 && Explained(0.0, 9) == 0.0;
    assert Explained(-95.0, 6) > 1500.0;
    forall p | Legal(hist, p) ensures CutGain(hist, p) < SubsetGain(hist, bins) {
      assert p == 2;
      assert CutGain(hist, 2) == Gain(10, -100.0, 15, -95.0);
      assert SubsetGain(hist, bins) == Gain(6, -95.0, 15, -95.0);
    }
  }

  lemma OneMoreBin(hist: seq<Bin>, b: Bin, bins: set<int>)
    ensures CountAll(hist + [b]) == CountAll(hist) + b.count && SumAll(hist + [b]) == SumAll(hist) + b.sum
    ensures CountIn(hist + [b], bins) == CountIn(hist, bins) + if b.code in bins then b.count else 0
    ensures SumIn(hist + [b], bins) == SumIn(hist, bins) + if b.code in bins then b.sum else 0.0
  {
    assert (hist + [b])[..|hist|] == hist;
  }
}
