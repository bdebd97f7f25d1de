/** Vocabulary shared by the six grid scripts: optional values (Python's None),
    trade sides, candlestick bars, Python's integer conversion, clipping, and the
    few sequence operations the scripts perform through pandas and numpy. */
module GridCommon {

  /** A value that may be missing, as Python's `None`. */
  datatype Option<+T> = None | Some(value: T)

  datatype Side = Buy | Sell

  /** A BUY or SELL notification: the grid level it is for and the price seen. */
  datatype Signal = Signal(side: Side, level: real, price: real)

  /** One candlestick. Open, volume and timestamps are never read by the core. */
  datatype Bar = Bar(high: real, low: real, close: real)

  /** Python's `int(x)` on a float: truncation toward zero. */
  function Trunc(x: real): (r: int)
    ensures 0.0 <= x ==> r >= 0 && r as real <= x < r as real + 1.0
    ensures x < 0.0 ==> r <= 0 && r as real - 1.0 < x <= r as real
  {
    if x >= 0.0 then x.Floor else -((-x).Floor)
  }

  /** numpy's `np.clip` on an integer. */
  function ClipInt(x: int, lo: int, hi: int): (r: int)
    ensures lo <= hi ==> lo <= r <= hi
    ensures lo <= x <= hi ==> r == x
    ensures x < lo <= hi ==> r == lo
    ensures lo <= hi < x ==> r == hi
  {
    if x < lo then (if lo < hi then lo else hi) else if x > hi then hi else x
  }

  /** numpy's `np.clip` on a float. */
  function ClipReal(x: real, lo: real, hi: real): (r: real)
    ensures lo <= hi ==> lo <= r <= hi
    ensures lo <= x <= hi ==> r == x
    ensures x < lo <= hi ==> r == lo
    ensures lo <= hi < x ==> r == hi
  {
    if x < lo then (if lo < hi then lo else hi) else if x > hi then hi else x
  }

  function Abs(x: real): real { if x < 0.0 then -x else x }

  function Max(a: real, b: real): real { if a < b then b else a }

  /** Sum of a sequence, folded from its last element. */
  function Sum(s: seq<real>): real
  {
    if s == [] then 0.0 else Sum(s[..|s| - 1]) + s[|s| - 1]
  }

  /** numpy's `np.mean` of a non-empty sequence. */
  function Mean(s: seq<real>): real
    requires |s| > 0
  {
    Sum(s) / (|s| as real)
  }

  /** `n` copies of `x`. */
  function Repeat(x: real, n: nat): (r: seq<real>)
    ensures |r| == n && forall i :: 0 <= i < n ==> r[i] == x
  {
    seq(n, _ => x)
  }

  /** n copies of x add up to n times x. */
  lemma {:induction false} SumRepeat(x: real, n: nat)
    ensures Sum(Repeat(x, n)) == (n as real) * x
  {
    if n > 0 {
      assert Repeat(x, n)[..n - 1] == Repeat(x, n - 1);
      SumRepeat(x, n - 1);
    }
  }

  /** Splitting a balance evenly over n parts and adding the parts back gives the balance. */
  lemma EvenSplitSums(balance: real, n: nat)
    requires n > 0
    ensures Sum(Repeat(balance / (n as real), n)) == balance
  {
    SumRepeat(balance / (n as real), n);
  }

  /** Python's `s[-k:]` for `k >= 0`: the last `k` elements, all of `s` when `k`
      exceeds its length, and also all of `s` when `k == 0` (since `-0 == 0`). */
  function TakeLast<T>(s: seq<T>, k: nat): (r: seq<T>)
    ensures |r| == (if k == 0 || k >= |s| then |s| else k)
    ensures r == s[|s| - |r|..]
  {
    if k == 0 || k >= |s| then s else s[|s| - k..]
  }

  /** Index of the first element of `TakeLast(s, k)` within `s`. */
  function WindowStart(n: nat, k: nat): (i: nat)
    ensures i <= n
  {
    if k == 0 || k >= n then 0 else n - k
  }

  /** pandas' `Series.min()` of the bars' lows: the smallest low, which some bar attains. */
  function MinLow(bars: seq<Bar>): (r: real)
    requires |bars| > 0
    ensures forall i :: 0 <= i < |bars| ==> r <= bars[i].low
    ensures exists i :: 0 <= i < |bars| && r == bars[i].low
  {
    if |bars| == 1 then bars[0].low
    else
      var m := MinLow(bars[..|bars| - 1]);
      var last := bars[|bars| - 1].low;
      assert forall i :: 0 <= i < |bars| - 1 ==> bars[..|bars| - 1][i] == bars[i];
      if last < m then last else m
  }

  /** pandas' `Series.max()` of the bars' highs: the largest high, which some bar attains. */
  function MaxHigh(bars: seq<Bar>): (r: real)
    requires |bars| > 0
    ensures forall i :: 0 <= i < |bars| ==> bars[i].high <= r
    ensures exists i :: 0 <= i < |bars| && r == bars[i].high
  {
    if |bars| == 1 then bars[0].high
    else
      var m := MaxHigh(bars[..|bars| - 1]);
      var last := bars[|bars| - 1].high;
      assert forall i :: 0 <= i < |bars| - 1 ==> bars[..|bars| - 1][i] == bars[i];
      if last > m then last else m
  }

  /** Python's `min(xs)` of a non-empty list: the smallest element, which the list contains. */
  function MinOf(s: seq<real>): (r: real)
    requires |s| > 0
    ensures forall i :: 0 <= i < |s| ==> r <= s[i]
    ensures exists i :: 0 <= i < |s| && r == s[i]
  {
    if |s| == 1 then s[0]
    else
      var m := MinOf(s[..|s| - 1]);
      assert forall i :: 0 <= i < |s| - 1 ==> s[..|s| - 1][i] == s[i];
      if s[|s| - 1] < m then s[|s| - 1] else m
  }

  /** Python's `max(xs)` of a non-empty list: the largest element, which the list contains. */
  function MaxOf(s: seq<real>): (r: real)
    requires |s| > 0
    ensures forall i :: 0 <= i < |s| ==> s[i] <= r
    ensures exists i :: 0 <= i < |s| && r == s[i]
  {
    if |s| == 1 then s[0]
    else
      var m := MaxOf(s[..|s| - 1]);
      assert forall i :: 0 <= i < |s| - 1 ==> s[..|s| - 1][i] == s[i];
      if s[|s| - 1] > m then s[|s| - 1] else m
  }

  ghost predicate StrictlyIncreasing(s: seq<real>)
  {
    forall i, j :: 0 <= i < j < |s| ==> s[i] < s[j]
  }

  ghost predicate StrictlyDecreasing(s: seq<real>)
  {
    forall i, j :: 0 <= i < j < |s| ==> s[i] > s[j]
  }

  /** Python's `list(reversed(s))`. */
  function Reverse<T>(s: seq<T>): (r: seq<T>)
    ensures |r| == |s|
    ensures forall i :: 0 <= i < |s| ==> r[i] == s[|s| - 1 - i]
  {
    seq(|s|, i requires 0 <= i < |s| => s[|s| - 1 - i])
  }

  /** The evenly spaced ladder `start + (i+1)*step` for `i` in `range(n)`. */
  function Ladder(start: real, step: real, n: nat): (r: seq<real>)
    ensures |r| == n
    ensures forall i :: 0 <= i < n ==> r[i] == start + ((i + 1) as real) * step
  {
    seq(n, i => start + ((i + 1) as real) * step)
  }

  /** A ladder with a positive step rises strictly, one step at a time, from
      one step above its start to `n` steps above it. */
  lemma LadderRises(start: real, step: real, n: nat)
    requires step > 0.0
    ensures StrictlyIncreasing(Ladder(start, step, n))
    ensures forall i :: 0 <= i < n ==> start < Ladder(start, step, n)[i] <= start + (n as real) * step
    ensures forall i :: 0 <= i < n - 1 ==> Ladder(start, step, n)[i + 1] - Ladder(start, step, n)[i] == step
  {
    LadderIncreasing(start, step, n);
    LadderBounds(start, step, n);
    LadderGaps(start, step, n);
  }

  lemma LadderIncreasing(start: real, step: real, n: nat)
    requires step > 0.0
    ensures StrictlyIncreasing(Ladder(start, step, n))
  {
    var r := Ladder(start, step, n);
    forall i, j | 0 <= i < j < n ensures r[i] < r[j] {
      MulStrict((j - i) as real, step);
      assert r[j] - r[i] == ((j - i) as real) * step;
    }
  }

  lemma LadderBounds(start: real, step: real, n: nat)
    requires step > 0.0
    ensures forall i :: 0 <= i < n ==> start < Ladder(start, step, n)[i] <= start + (n as real) * step
  {
    var r := Ladder(start, step, n);
    forall i | 0 <= i < n ensures start < r[i] <= start + (n as real) * step {
      MulStrict((i + 1) as real, step);
      MulMono((i + 1) as real, n as real, step);
    }
  }

  lemma LadderGaps(start: real, step: real, n: nat)
    ensures forall i :: 0 <= i < n - 1 ==> Ladder(start, step, n)[i + 1] - Ladder(start, step, n)[i] == step
  {
  }

  /** A ladder with a negative step falls strictly from one step below its start. */
  lemma LadderFalls(start: real, step: real, n: nat)
    requires step < 0.0
    ensures StrictlyDecreasing(Ladder(start, step, n))
    ensures forall i :: 0 <= i < n ==> start + (n as real) * step <= Ladder(start, step, n)[i] < start
  {
    var r := Ladder(start, step, n);
    var up := Ladder(start, -step, n);
    LadderRises(start, -step, n);
    forall i | 0 <= i < n ensures r[i] == 2.0 * start - up[i] {
    }
  }

  /** The ladders with steps `step` and `-step` mirror each other about `start`. */
  lemma LadderMirror(start: real, step: real, n: nat)
    ensures forall i :: 0 <= i < n ==> Ladder(start, -step, n)[i] + Ladder(start, step, n)[i] == 2.0 * start
  {
    forall i | 0 <= i < n ensures Ladder(start, -step, n)[i] + Ladder(start, step, n)[i] == 2.0 * start {
      assert ((i + 1) as real) * (-step) == -(((i + 1) as real) * step);
    }
  }

  lemma MulStrict(a: real, b: real)
    requires a > 0.0 && b > 0.0
    ensures a * b > 0.0
  {
  }

  lemma MulMono(a: real, c: real, b: real)
    requires a <= c && b > 0.0
    ensures a * b <= c * b
  {
    assert c * b - a * b == (c - a) * b;
    if a < c { MulStrict(c - a, b); }
  }

  lemma MulStrictMono(a: real, c: real, b: real)
    requires a < c && b > 0.0
    ensures a * b < c * b
  {
    assert c * b - a * b == (c - a) * b;
    MulStrict(c - a, b);
  }

  lemma DivTimes(x: real, s: real)
    requires s != 0.0
    ensures (x / s) * s == x
  {
  }

  /** `x` lies between `f` and `f + 1` steps when its quotient `q` does
      between `f` and `f + 1`. Kept free of `Floor`: Z3 gives up on goals
      that mix integer conversions with products of variables. */
  lemma StepsBracket(x: real, s: real, q: real, f: real)
    requires s > 0.0 && q * s == x && f <= q < f + 1.0
    ensures f * s <= x < (f + 1.0) * s
  {
    var g := f + 1.0;
    MulMono(f, q, s);
    MulStrictMono(q, g, s);
    assert x < g * s;
  }

  /** Flooring a non-negative quotient `x / s` counts how many whole steps `s` fit in `x`. */
  lemma FloorQuotient(x: real, s: real)
    requires x >= 0.0 && s > 0.0
    ensures ((x / s).Floor as real) * s <= x < ((x / s).Floor as real + 1.0) * s
  {
    DivTimes(x, s);
    StepsBracket(x, s, x / s, (x / s).Floor as real);
  }

  /** What `max(1, int(range / step) - 1)` promises: either one grid, when fewer
      than three target steps fit in the range, or `n` grids whose `n + 1` gaps
      are each at least one target step wide (and not two steps wider in total). */
  ghost predicate CountFitsStep(range: real, step: real, n: int)
  {
    (n == 1 && range < 3.0 * step)
    || (n > 1 && ((n + 1) as real) * step <= range < ((n + 2) as real) * step)
  }

  lemma SuggestedCountFits(range: real, step: real)
    requires range > 0.0 && step > 0.0
    ensures var n := Trunc(range / step) - 1; CountFitsStep(range, step, if n < 1 then 1 else n)
  {
    FloorQuotient(range, step);
    var q := (range / step).Floor;
    if q <= 2 {
      MulMono(q as real + 1.0, 3.0, step);
    }
  }

  lemma MulCancelLess(a: real, b: real, s: real, r: real)
    requires s > 0.0 && a * s <= r && r < b * s
    ensures a < b
  {
    if b <= a {
      MulMono(b, a, s);
    }
  }

  /** At most one count fits a range and a step, so any two rules that promise
      `CountFitsStep` suggest the same count. */
  lemma CountFitsStepUnique(range: real, step: real, n: int, m: int)
    requires step > 0.0
    requires CountFitsStep(range, step, n) && CountFitsStep(range, step, m)
    ensures n == m
  {
    if n > 1 && m == 1 {
      MulCancelLess((n + 1) as real, 3.0, step, range);
    } else if n > 1 && m > 1 {
      MulCancelLess((n + 1) as real, (m + 2) as real, step, range);
      MulCancelLess((m + 1) as real, (n + 2) as real, step, range);
    } else if n == 1 && m > 1 {
      MulCancelLess((m + 1) as real, 3.0, step, range);
    }
  }

  /** The extremes of a suffix `bars[start..]`, stated with indices into `bars`. */
  lemma SuffixExtremes(bars: seq<Bar>, start: nat)
    requires start < |bars|
    ensures forall i :: start <= i < |bars| ==> MinLow(bars[start..]) <= bars[i].low && bars[i].high <= MaxHigh(bars[start..])
    ensures exists i :: start <= i < |bars| && MinLow(bars[start..]) == bars[i].low
    ensures exists i :: start <= i < |bars| && MaxHigh(bars[start..]) == bars[i].high
  {
    var w := bars[start..];
    forall i | start <= i < |bars| ensures MinLow(w) <= bars[i].low && bars[i].high <= MaxHigh(w) {
      assert w[i - start] == bars[i];
    }
    var j :| 0 <= j < |w| && MinLow(w) == w[j].low;
    assert bars[start + j] == w[j];
    var k :| 0 <= k < |w| && MaxHigh(w) == w[k].high;
    assert bars[start + k] == w[k];
  }
}
