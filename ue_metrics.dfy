/** `srsUEMetrics.verify`: checks a KPI computed from the srsUE metrics CSV against an
    expected value. The parsed CSV is a table of named numeric columns; numpy's array
    arithmetic is stated over exact reals. */
module UeMetrics {
  import opened Text
  import opened Base

  /** The parsed metrics file: one column of samples per CSV header name. */
  type Table = map<string, seq<real>>

  const ValidOperations: seq<string> := ["avg", "sum", "max_rolling_avg", "min_rolling_avg"]
  const ValidCriteria: seq<string> := ["eq", "gt", "lt"]

  // ---------------------------------------------------------------------------------------
  // numpy's in-place `a += b` on one-dimensional arrays

  /** `a += b`: element-wise when the lengths agree, the single element of `b` added to every
      element of `a` when `b` has length one, and a broadcasting error otherwise. */
  function AddInPlace(a: seq<real>, b: seq<real>): (r: Result<seq<real>>)
    ensures r.Ok? <==> |a| == |b| || |b| == 1
    ensures r.Ok? ==> |r.value| == |a|
    ensures r.Ok? && |a| == |b| ==> forall i :: 0 <= i < |a| ==> r.value[i] == a[i] + b[i]
    ensures r.Ok? && |b| == 1 ==> forall i :: 0 <= i < |a| ==> r.value[i] == a[i] + b[0]
  {
    if |a| == |b| then Ok(seq(|a|, i requires 0 <= i < |a| => a[i] + b[i]))
    else if |b| == 1 then Ok(seq(|a|, i requires 0 <= i < |a| => a[i] + b[0]))
    else Err("operands could not be broadcast together")
  }

  // ---------------------------------------------------------------------------------------
  // Column selection: `metric_str.split('+')`

  /** The column-selection loop from its current accumulator on: an empty accumulator takes
      the next column as it is, a non-empty one has the next column added to it; a name
      that is not a column raises. */
  function SelectFrom(table: Table, names: seq<string>, acc: seq<real>): Result<seq<real>>
    decreases |names|
  {
    if |names| == 0 then Ok(acc)
    else if names[0] !in table then Err("no field of name " + names[0])
    else if |acc| == 0 then SelectFrom(table, names[1..], table[names[0]])
    else
      match AddInPlace(acc, table[names[0]])
      case Err(e) => Err(e)
      case Ok(sum) => SelectFrom(table, names[1..], sum)
  }

  /** The selected series for a list of column names. */
  function SelectColumns(table: Table, names: seq<string>): Result<seq<real>> {
    SelectFrom(table, names, [])
  }

  /** Sum over the named columns of their samples at index `i`. */
  function ColumnSum(table: Table, names: seq<string>, i: nat): real
    requires forall k :: 0 <= k < |names| ==> names[k] in table && i < |table[names[k]]|
  {
    if |names| == 0 then 0.0 else table[names[0]][i] + ColumnSum(table, names[1..], i)
  }

  /** `a+b+...` selects the element-wise sum of the columns when they are all present and
      have the same non-zero length. */
  lemma SelectColumnsSum(table: Table, names: seq<string>, len: nat)
    requires |names| >= 1 && len > 0
    requires forall k :: 0 <= k < |names| ==> names[k] in table && |table[names[k]]| == len
    ensures SelectColumns(table, names).Ok?
    ensures SelectColumns(table, names).value == seq(len, i requires 0 <= i < len => ColumnSum(table, names, i))
  {
    var first := table[names[0]];
    SelectFromSum(table, names[1..], first, len);
    assert SelectColumns(table, names) == SelectFrom(table, names[1..], first);
    var a := seq(len, i requires 0 <= i < len => first[i] + ColumnSum(table, names[1..], i));
    var b := seq(len, i requires 0 <= i < len => ColumnSum(table, names, i));
    assert forall i :: 0 <= i < len ==> a[i] == b[i];
    assert a == b;
  }

  lemma {:induction false} SelectFromSum(table: Table, names: seq<string>, acc: seq<real>, len: nat)
    requires len > 0 && |acc| == len
    requires forall k :: 0 <= k < |names| ==> names[k] in table && |table[names[k]]| == len
    ensures SelectFrom(table, names, acc) == Ok(seq(len, i requires 0 <= i < len => acc[i] + ColumnSum(table, names, i)))
    decreases |names|
  {
    if |names| == 0 {
      var r := seq(len, i requires 0 <= i < len => acc[i] + ColumnSum(table, names, i));
      assert forall i :: 0 <= i < len ==> r[i] == acc[i];
      assert acc == r;
    } else {
      var col := table[names[0]];
      var sum := AddInPlace(acc, col).value;
      SelectFromSum(table, names[1..], sum, len);
      var a := seq(len, i requires 0 <= i < len => sum[i] + ColumnSum(table, names[1..], i));
      var b := seq(len, i requires 0 <= i < len => acc[i] + ColumnSum(table, names, i));
      assert forall i :: 0 <= i < len ==> a[i] == b[i];
      assert a == b;
    }
  }

  // ---------------------------------------------------------------------------------------
  // Carrier de-interleaving: `tmp[cc::num_cc]`

  /** Python slice `xs[start::n]`. */
  function Stride(xs: seq<real>, start: nat, n: nat): (r: seq<real>)
    requires n >= 1
    ensures start >= |xs| ==> r == []
    decreases |xs| - start
  {
    if start >= |xs| then [] else [xs[start]] + Stride(xs, start + n, n)
  }

  /** A stride has `k` elements when its last element lies in the last stretch of `n`. */
  lemma {:induction false} StrideLength(xs: seq<real>, start: nat, n: nat, k: nat)
    requires n >= 1
    requires (k == 0 && start >= |xs|) || (k > 0 && start + (k - 1) * n < |xs| <= start + k * n)
    ensures |Stride(xs, start, n)| == k
    decreases k
  {
    if k > 0 {
      if k == 1 {
        StrideLength(xs, start + n, n, 0);
      } else {
        assert (k - 1) * n == (k - 2) * n + n;
        assert k * n == (k - 1) * n + n;
        StrideLength(xs, start + n, n, k - 1);
      }
    }
  }

  /** Element `i` of `xs[start::n]` is `xs[start + i*n]`. */
  lemma {:induction false} StrideIndex(xs: seq<real>, start: nat, n: nat, i: nat)
    requires n >= 1 && start + i * n < |xs|
    ensures i < |Stride(xs, start, n)| && Stride(xs, start, n)[i] == xs[start + i * n]
    decreases i
  {
    if i > 0 {
      assert start + n + (i - 1) * n == start + i * n;
      StrideIndex(xs, start + n, n, i - 1);
    }
  }

  lemma StrideOfBlocks(xs: seq<real>, start: nat, n: nat, m: nat)
    requires n >= 1 && start < n && |xs| == m * n
    ensures |Stride(xs, start, n)| == m
    ensures forall i :: 0 <= i < m ==> i * n + start < |xs| && Stride(xs, start, n)[i] == xs[i * n + start]
  {
    if m == 0 {
      StrideLength(xs, start, n, 0);
    } else {
      assert (m - 1) * n == m * n - n;
      StrideLength(xs, start, n, m);
    }
    forall i | 0 <= i < m
      ensures i * n + start < |xs| && Stride(xs, start, n)[i] == xs[i * n + start]
    {
      BlockInRange(i, m, n);
      StrideIndex(xs, start, n, i);
    }
  }

  /** The fold loop from carrier `cc` on: every remaining carrier's stride is added. */
  function FoldFrom(acc: seq<real>, xs: seq<real>, n: nat, cc: nat): Result<seq<real>>
    requires n >= 1
    decreases n - cc
  {
    if cc >= n then Ok(acc)
    else
      match AddInPlace(acc, Stride(xs, cc, n))
      case Err(e) => Err(e)
      case Ok(sum) => FoldFrom(sum, xs, n, cc + 1)
  }

  /** Sums the `n` interleaved carriers of a series: the first carrier's samples with every
      other carrier's samples added, numpy broadcasting included. */
  function FoldCarriers(xs: seq<real>, n: nat): Result<seq<real>>
    requires n >= 1
  {
    FoldFrom(Stride(xs, 0, n), xs, n, 1)
  }

  /** Sum of the samples of one instant over the first `cnt` carriers. */
  function CarrierSum(xs: seq<real>, n: nat, i: nat, cnt: nat): real
  {
    if cnt == 0 then 0.0
    else CarrierSum(xs, n, i, cnt - 1) + (if i * n + cnt - 1 < |xs| then xs[i * n + cnt - 1] else 0.0)
  }

  /** When every instant has a sample for each of the `n` carriers, the fold gives one sum per
      instant: sample `i` of the result is the sum of samples `i*n .. i*n+n-1`. */
  lemma FoldCarriersPerInstant(xs: seq<real>, n: nat, m: nat)
    requires n >= 1 && |xs| == m * n
    ensures FoldCarriers(xs, n).Ok?
    ensures |FoldCarriers(xs, n).value| == m
    ensures forall i :: 0 <= i < m ==> FoldCarriers(xs, n).value[i] == CarrierSum(xs, n, i, n)
  {
    StrideOfBlocks(xs, 0, n, m);
    FoldFromPerInstant(xs, n, m, 1, Stride(xs, 0, n));
  }

  /** Block `i` of `m` blocks of `n` lies inside the series. */
  lemma BlockInRange(i: nat, m: nat, n: nat)
    requires i < m
    ensures i * n + n <= m * n
  {
    var d := m - (i + 1);
    assert m * n == (i + 1) * n + d * n;
    assert (i + 1) * n == i * n + n;
  }

  lemma {:induction false} FoldFromPerInstant(xs: seq<real>, n: nat, m: nat, cc: nat, acc: seq<real>)
    requires n >= 1 && |xs| == m * n && 1 <= cc <= n && |acc| == m
    requires forall i :: 0 <= i < m ==> acc[i] == CarrierSum(xs, n, i, cc)
    ensures FoldFrom(acc, xs, n, cc).Ok?
    ensures |FoldFrom(acc, xs, n, cc).value| == m
    ensures forall i :: 0 <= i < m ==> FoldFrom(acc, xs, n, cc).value[i] == CarrierSum(xs, n, i, n)
    decreases n - cc
  {
    if cc < n {
      StrideOfBlocks(xs, cc, n, m);
      var stride := Stride(xs, cc, n);
      var sum := AddInPlace(acc, stride).value;
      forall i | 0 <= i < m
        ensures sum[i] == CarrierSum(xs, n, i, cc + 1)
      {
        assert stride[i] == xs[i * n + cc];
      }
      FoldFromPerInstant(xs, n, m, cc + 1, sum);
    }
  }

  /** Two carriers, two instants: the fold adds each instant's pair. */
  lemma FoldTwoCarriersExample()
    ensures FoldCarriers([10.0, 20.0, 30.0, 40.0], 2) == Ok([30.0, 70.0])
  {
    var xs := [10.0, 20.0, 30.0, 40.0];
    assert Stride(xs, 0, 2) == [10.0, 30.0];
    assert Stride(xs, 1, 2) == [20.0, 40.0];
    var sum := AddInPlace([10.0, 30.0], [20.0, 40.0]).value;
    assert sum[0] == 30.0 && sum[1] == 70.0;
    assert sum == [30.0, 70.0];
  }

  /** `numpy.amax(raw_data['cc']) + 1`: the number of component carriers. A missing or empty
      column and a non-integral maximum raise; so do maxima below zero (see README). */
  function NumCarriers(table: Table): (r: Result<nat>)
    ensures r.Ok? ==> r.value >= 1
    ensures r.Ok? ==>
      "cc" in table && |table["cc"]| > 0 && r.value as real == MaxOf(table["cc"]) + 1.0 &&
      (forall i :: 0 <= i < |table["cc"]| ==> table["cc"][i] < r.value as real) &&
      (exists i :: 0 <= i < |table["cc"]| && table["cc"][i] == (r.value - 1) as real)
    ensures ("cc" in table && |table["cc"]| > 0 && MaxOf(table["cc"]) >= 0.0 &&
             MaxOf(table["cc"]) == MaxOf(table["cc"]).Floor as real) ==> r.Ok?
  {
    if "cc" !in table || |table["cc"]| == 0 then Err("cannot determine the number of carriers")
    else
      var mx := MaxOf(table["cc"]);
      if mx != mx.Floor as real || mx < 0.0 then Err("invalid carrier index")
      else Ok(mx.Floor + 1)
  }

  // ---------------------------------------------------------------------------------------
  // The numpy reductions

  function Sum(xs: seq<real>): real {
    if |xs| == 0 then 0.0 else Sum(xs[..|xs| - 1]) + xs[|xs| - 1]
  }

  /** `numpy.average`; the average of nothing is NaN, written `None`. */
  function Average(xs: seq<real>): (r: Option<real>)
    ensures r.None? <==> |xs| == 0
  {
    if |xs| == 0 then None else Some(Sum(xs) / |xs| as real)
  }

  function MaxOf(xs: seq<real>): (m: real)
    requires |xs| > 0
    ensures forall i :: 0 <= i < |xs| ==> xs[i] <= m
    ensures exists i :: 0 <= i < |xs| && xs[i] == m
  {
    if |xs| == 1 then xs[0]
    else
      var t := MaxOf(xs[1..]);
      assert forall i :: 1 <= i < |xs| ==> xs[i] == xs[1..][i - 1];
      if xs[0] >= t then xs[0] else t
  }

  function MinOf(xs: seq<real>): (m: real)
    requires |xs| > 0
    ensures forall i :: 0 <= i < |xs| ==> m <= xs[i]
    ensures exists i :: 0 <= i < |xs| && xs[i] == m
  {
    if |xs| == 1 then xs[0]
    else
      var t := MinOf(xs[1..]);
      assert forall i :: 1 <= i < |xs| ==> xs[i] == xs[1..][i - 1];
      if xs[0] <= t then xs[0] else t
  }

  /** The average lies between the smallest and the largest sample. */
  lemma AverageBetween(xs: seq<real>)
    requires |xs| > 0
    ensures MinOf(xs) <= Average(xs).value <= MaxOf(xs)
  {
    AverageWithin(xs, MinOf(xs), MaxOf(xs));
  }

  lemma AverageWithin(xs: seq<real>, lo: real, hi: real)
    requires |xs| > 0
    requires forall i :: 0 <= i < |xs| ==> lo <= xs[i] <= hi
    ensures lo <= Average(xs).value <= hi
  {
    SumBounds(xs, lo, hi);
    DivideBounds(Sum(xs), |xs| as real, lo, hi);
  }

  lemma DivideBounds(s: real, n: real, lo: real, hi: real)
    requires n > 0.0 && n * lo <= s <= n * hi
    ensures lo <= s / n <= hi
  {
    assert (s / n) * n == s;
  }

  lemma {:induction false} SumBounds(xs: seq<real>, lo: real, hi: real)
    requires forall i :: 0 <= i < |xs| ==> lo <= xs[i] <= hi
    ensures |xs| as real * lo <= Sum(xs) <= |xs| as real * hi
  {
    if |xs| > 0 {
      SumBounds(xs[..|xs| - 1], lo, hi);
    }
  }

  /** `numpy.convolve(xs, numpy.ones((w,))/w, mode='valid')`: the averages of the windows of `w`
      consecutive samples. numpy swaps the operands when the window is the longer one, so then
      every output is the sum of all samples over `w`. An empty series or a window below one
      raises. */
  function RollingAverages(xs: seq<real>, w: int): (r: Result<seq<real>>)
    ensures r.Ok? <==> w >= 1 && |xs| >= 1
    ensures r.Ok? ==> |r.value| >= 1
    ensures r.Ok? && w <= |xs| ==>
              |r.value| == |xs| - w + 1 &&
              forall i :: 0 <= i < |r.value| ==> r.value[i] == Sum(xs[i..i + w]) / w as real
    ensures r.Ok? && w > |xs| ==>
              |r.value| == w - |xs| + 1 &&
              forall i :: 0 <= i < |r.value| ==> r.value[i] == Sum(xs) / w as real
  {
    if w <= 0 || |xs| == 0 then Err("convolution operand cannot be empty")
    else if w <= |xs| then Ok(seq(|xs| - w + 1, i requires 0 <= i <= |xs| - w => Sum(xs[i..i + w]) / w as real))
    else Ok(seq(w - |xs| + 1, i requires 0 <= i <= w - |xs| => Sum(xs) / w as real))
  }

  /** With a window of one sample the rolling averages are the samples themselves. */
  lemma RollingWindowOne(xs: seq<real>)
    requires |xs| >= 1
    ensures RollingAverages(xs, 1) == Ok(xs)
  {
    var r := RollingAverages(xs, 1).value;
    forall i | 0 <= i < |xs|
      ensures r[i] == xs[i]
    {
      var one := xs[i..i + 1];
      assert one[..0] == [];
      assert Sum(one) == xs[i];
    }
    assert r == xs;
  }

  /** `numpy.trim_zeros(xs, 'f')`: drops the leading zero samples. */
  function TrimLeadingZeros(xs: seq<real>): (r: seq<real>)
    ensures |r| <= |xs| && r == xs[|xs| - |r|..]
    ensures forall i :: 0 <= i < |xs| - |r| ==> xs[i] == 0.0
    ensures |r| > 0 ==> r[0] != 0.0
  {
    if |xs| > 0 && xs[0] == 0.0 then TrimLeadingZeros(xs[1..]) else xs
  }

  /** Trimming twice trims nothing more, and zeros after the first non-zero sample stay. */
  lemma TrimLeadingZerosIdempotent(xs: seq<real>)
    ensures TrimLeadingZeros(TrimLeadingZeros(xs)) == TrimLeadingZeros(xs)
  {
  }

  /** A series with a non-zero first sample is left as it is. */
  lemma TrimKeepsInnerZeros(xs: seq<real>)
    requires |xs| > 0 && xs[0] != 0.0
    ensures TrimLeadingZeros(xs) == xs
  {
  }

  /** The reduction named by the operation; `None` is NaN. */
  function Apply(operation: string, xs: seq<real>, window: int): Result<Option<real>>
  {
    if operation == "avg" then Ok(Average(xs))
    else if operation == "sum" then Ok(Some(Sum(xs)))
    else if operation == "max_rolling_avg" then
      match RollingAverages(xs, window)
      case Err(e) => Err(e)
      case Ok(avgs) => Ok(Some(MaxOf(avgs)))
    else
      match RollingAverages(TrimLeadingZeros(xs), window)
      case Err(e) => Err(e)
      case Ok(avgs) => Ok(Some(MinOf(avgs)))
  }

  // ---------------------------------------------------------------------------------------
  // Criterion and report

  function Symbol(criterion: string): string {
    if criterion == "eq" then "==" else if criterion == "gt" then ">" else "<"
  }

  function OppositeSymbol(criterion: string): string {
    if criterion == "eq" then "!=" else if criterion == "gt" then "<=" else ">="
  }

  /** The relation a printed comparison symbol stands for. */
  predicate Holds(symbol: string, a: real, b: real) {
    match symbol
    case "==" => a == b
    case "!=" => a != b
    case ">" => a > b
    case "<=" => a <= b
    case "<" => a < b
    case ">=" => a >= b
    case _ => false
  }

  /** Whether the computed result satisfies the criterion; NaN satisfies none. */
  predicate Meets(criterion: string, result: Option<real>, value: real) {
    result.Some? &&
    ((criterion == "eq" && result.value == value) ||
     (criterion == "gt" && result.value > value) ||
     (criterion == "lt" && result.value < value))
  }

  /** For a valid criterion, success means the criterion's symbol holds, and the opposite
      symbol holds exactly when it does not. */
  lemma CriterionSymbols(criterion: string, result: real, value: real)
    requires criterion in ValidCriteria
    ensures Meets(criterion, Some(result), value) <==> Holds(Symbol(criterion), result, value)
    ensures Holds(OppositeSymbol(criterion), result, value) <==> !Holds(Symbol(criterion), result, value)
  {
  }

  /** Dividing both sides by 1e6 for the Mbit/s display keeps every printed relation. */
  lemma HoldsScaled(symbol: string, a: real, b: real)
    ensures Holds(symbol, a / 1000000.0, b / 1000000.0) <==> Holds(symbol, a, b)
  {
  }

  /** What `verify` prints: the result, the comparison symbol and the expected value, both
      in Mbit/s for rate metrics. A NaN result is `None`. */
  datatype Report = Report(result: Option<real>, symbol: string, value: real, unit: string)

  /** `verify` either rejects its arguments or the data, raises with a failure report, or
      returns a success report. */
  datatype Verdict = Rejected(reason: string) | Failed(report: Report) | Passed(report: Report)

  /** The condition as written that decides whether to fold carriers:
      `if metric_str.find('brate'):` is true for every result other than index 0. */
  predicate FoldsAsWritten(metric: string) {
    Find(metric, "brate") != 0
  }

  /** The condition the comment states: fold the carriers of rate metrics. */
  predicate IsRateMetric(metric: string) {
    Contains(metric, "brate")
  }

  /** The as-written test folds a metric that is no rate, and skips a rate metric whose name
      starts with `brate`. */
  lemma FoldTestMisfires()
    ensures FoldsAsWritten("dl_snr") && !IsRateMetric("dl_snr")
    ensures !FoldsAsWritten("brate") && IsRateMetric("brate")
  {
    forall j | 0 <= j && j + 5 <= 6
      ensures !OccursAt("dl_snr", "brate", j)
    {
      assert "dl_snr"[j..j + 5][0] == "dl_snr"[j] != 'b';
    }
    assert OccursAt("brate", "brate", 0);
  }

  /** The intended test folds exactly the metrics whose names contain `brate`. */
  lemma IsRateMetricExact(metric: string)
    ensures IsRateMetric(metric) <==> exists i :: OccursAt(metric, "brate", i)
  {
    if IsRateMetric(metric) {
      assert OccursAt(metric, "brate", Find(metric, "brate"));
    }
  }

  /** Whether results are shown in Mbit/s: `metric_str.find('brate') > 0`. */
  predicate ShownInMbit(metric: string) {
    Find(metric, "brate") > 0
  }

  function Scaled(x: real, mbit: bool): real {
    if mbit then x / 1000000.0 else x
  }

  function ScaledOpt(x: Option<real>, mbit: bool): Option<real> {
    if x.Some? then Some(Scaled(x.value, mbit)) else None
  }

  /** The series after selection and, when `fold` says so, the carrier fold. */
  function Series(table: Table, metric: string, fold: bool): Result<seq<real>> {
    match SelectColumns(table, Split(metric, '+'))
    case Err(e) => Err(e)
    case Ok(sel) =>
      if !fold then Ok(sel)
      else
        match NumCarriers(table)
        case Err(e) => Err(e)
        case Ok(n) => FoldCarriers(sel, n)
  }

  /** The verdict from a computed result. */
  function Judge(criterion: string, result: Option<real>, value: real, metric: string): Verdict {
    var mbit := ShownInMbit(metric);
    var unit := if mbit then " Mbit/s" else "";
    if Meets(criterion, result, value) then
      Passed(Report(ScaledOpt(result, mbit), Symbol(criterion), Scaled(value, mbit), unit))
    else
      Failed(Report(ScaledOpt(result, mbit), OppositeSymbol(criterion), Scaled(value, mbit), unit))
  }

  /** `verify` with the fold decision given. */
  function VerifyWith(table: Table, value: real, operation: string, metric: string,
                      criterion: string, window: int, fold: bool): Verdict
  {
    if operation !in ValidOperations then Rejected("Unknown operation " + operation)
    else if criterion !in ValidCriteria then Rejected("Unknown operation " + operation)
    else
      match Series(table, metric, fold)
      case Err(e) => Rejected(e)
      case Ok(xs) =>
        match Apply(operation, xs, window)
        case Err(e) => Rejected(e)
        case Ok(result) => Judge(criterion, result, value, metric)
  }

  /** `verify` as written. */
  function VerifySpec(table: Table, value: real, operation: string, metric: string,
                      criterion: string, window: int): Verdict
  {
    VerifyWith(table, value, operation, metric, criterion, window, FoldsAsWritten(metric))
  }

  /** `verify` with the intended fold test. */
  function VerifyIntended(table: Table, value: real, operation: string, metric: string,
                          criterion: string, window: int): Verdict
  {
    VerifyWith(table, value, operation, metric, criterion, window, IsRateMetric(metric))
  }

  /** Unknown operations and criteria are rejected before any data is looked at; otherwise
      the verdict passes exactly when the computed result meets the criterion. */
  lemma VerifyOutcomes(table: Table, value: real, operation: string, metric: string,
                       criterion: string, window: int, fold: bool)
    ensures operation !in ValidOperations || criterion !in ValidCriteria ==>
      VerifyWith(table, value, operation, metric, criterion, window, fold).Rejected?
    ensures VerifyWith(table, value, operation, metric, criterion, window, fold).Passed? <==>
      operation in ValidOperations && criterion in ValidCriteria &&
      Series(table, metric, fold).Ok? && Apply(operation, Series(table, metric, fold).value, window).Ok? &&
      Meets(criterion, Apply(operation, Series(table, metric, fold).value, window).value, value)
  {
  }

  /** Every report states a true relation between the printed result and the printed value:
      the criterion's symbol on success, its opposite on failure. */
  lemma ReportIsTrue(table: Table, value: real, operation: string, metric: string,
                     criterion: string, window: int, fold: bool)
    requires !VerifyWith(table, value, operation, metric, criterion, window, fold).Rejected?
    ensures var rep := VerifyWith(table, value, operation, metric, criterion, window, fold).report;
      rep.result.Some? ==> Holds(rep.symbol, rep.result.value, rep.value)
  {
    var xs := Series(table, metric, fold).value;
    var result := Apply(operation, xs, window).value;
    if result.Some? {
      var mbit := ShownInMbit(metric);
      CriterionSymbols(criterion, result.value, value);
      HoldsScaled(Symbol(criterion), result.value, value);
      HoldsScaled(OppositeSymbol(criterion), result.value, value);
    }
  }

  /** For every metric whose name has `brate` after its first character (`dl_brate`,
      `ul_brate`, ...) the as-written and the intended fold test agree. */
  lemma AsWrittenAgreesOnRateMetrics(table: Table, value: real, operation: string, metric: string,
                                     criterion: string, window: int)
    requires Find(metric, "brate") > 0
    ensures VerifySpec(table, value, operation, metric, criterion, window)
         == VerifyIntended(table, value, operation, metric, criterion, window)
  {
  }

  /** The column-selection loop of `verify`. */
  method SelectLoop(table: Table, names: seq<string>) returns (r: Result<seq<real>>)
    ensures r == SelectColumns(table, names)
  {
    var sel: seq<real> := [];
    var i := 0;
    while i < |names|
      invariant 0 <= i <= |names|
      invariant SelectFrom(table, names[i..], sel) == SelectColumns(table, names)
    {
      assert names[i..][1..] == names[i + 1..];
      var metric := names[i];
      if metric !in table {
        return Err("no field of name " + metric);
      }
      var vec := table[metric];
      if |sel| == 0 {
        sel := vec;
      } else {
        var sum := AddInPlace(sel, vec);
        if sum.Err? {
          return Err(sum.error);
        }
        sel := sum.value;
      }
      i := i + 1;
    }
    r := Ok(sel);
  }

  /** The carrier fold loop of `verify`. */
  method FoldLoop(xs: seq<real>, n: nat) returns (r: Result<seq<real>>)
    requires n >= 1
    ensures r == FoldCarriers(xs, n)
  {
    var sel := Stride(xs, 0, n);
    var cc := 1;
    while cc < n
      invariant 1 <= cc <= n
      invariant FoldFrom(sel, xs, n, cc) == FoldCarriers(xs, n)
    {
      var sum := AddInPlace(sel, Stride(xs, cc, n));
      if sum.Err? {
        return Err(sum.error);
      }
      sel := sum.value;
      cc := cc + 1;
    }
    r := Ok(sel);
  }

  /** `srsUEMetrics.verify`. */
  method Verify(table: Table, value: real, operation: string, metric: string,
                criterion: string, window: int) returns (v: Verdict)
    ensures v == VerifySpec(table, value, operation, metric, criterion, window)
  {
    if operation !in ValidOperations {
      return Rejected("Unknown operation " + operation);
    }
    if criterion !in ValidCriteria {
      return Rejected("Unknown operation " + operation);
    }
    var sel := SelectLoop(table, Split(metric, '+'));
    if sel.Err? {
      return Rejected(sel.error);
    }
    var data := sel.value;
    if Find(metric, "brate") != 0 {
      var n := NumCarriers(table);
      if n.Err? {
        return Rejected(n.error);
      }
      var folded := FoldLoop(data, n.value);
      if folded.Err? {
        return Rejected(folded.error);
      }
      data := folded.value;
    }
    var result := Apply(operation, data, window);
    if result.Err? {
      return Rejected(result.error);
    }
    v := Judge(criterion, result.value, value, metric);
  }
}
