/** The process-capability (Cp/Cpk) calculator of the main chat screen
    (`calculateCpCpk` in frontend/src/App.tsx) and the verdict line shown under
    its results.

    `parseFloat` and `Math.sqrt` are parameters: `parseFloat` gives `None`
    where JavaScript gives NaN, and the lemmas that need the meaning of the
    square root assume `IsSquareRoot(sqrt)`. Numbers are reals; the three
    IEEE values the calculator can produce beyond them (Infinity for a
    zero-spread sample inside the limits, NaN from a limit that does not
    parse) are the constructors of `Number`. */
module Capability {
  import opened Common

  /** A JavaScript number as the calculator can produce it. */
  datatype Number = Finite(value: real) | Infinity | NaN {
    predicate IsFinite() { Finite? }
  }

  /** The object passed to `setCalculatorResults`. */
  datatype CapabilityResult = CapabilityResult(mean: real, stdDev: real, cp: Number, cpk: Number)

  /** The text fields of the calculator panel. */
  datatype CalculatorInput = CalculatorInput(measurementData: string, usl: string, lsl: string)

  /** The four lines the results panel can show, best first. */
  datatype Verdict = PerfectlyCapable | Capable | NeedsImprovement | NotCapable

  /** Square-root semantics of the `sqrt` parameter. */
  ghost predicate IsSquareRoot(sqrt: real -> real) {
    forall x: real :: 0.0 <= x ==> 0.0 <= sqrt(x) && sqrt(x) * sqrt(x) == x
  }

  // ---------------------------------------------------------------------
  // Parsing the measurement text
  // ---------------------------------------------------------------------

  /** `.map(x => parseFloat(x.trim()))`: one parse per token, in order. */
  function ParseTokens(tokens: seq<string>, parseFloat: string -> Option<real>): (parsed: seq<Option<real>>)
    ensures |parsed| == |tokens|
    ensures forall i :: 0 <= i < |tokens| ==> parsed[i] == parseFloat(Trim(tokens[i]))
  {
    seq(|tokens|, i requires 0 <= i < |tokens| => parseFloat(Trim(tokens[i])))
  }

  /** `.filter(x => !isNaN(x))`: the numbers among the parses, in order. */
  function KeepNumbers(parsed: seq<Option<real>>): (data: seq<real>)
    ensures |data| <= |parsed|
    ensures data == [] <==> forall i :: 0 <= i < |parsed| ==> parsed[i].None?
  {
    if parsed == [] then []
    else
      var rest := KeepNumbers(parsed[1..]);
      assert forall i :: 1 <= i < |parsed| ==> parsed[i] == parsed[1..][i - 1];
      match parsed[0]
      case Some(x) => [x] + rest
      case None => rest
  }

  /** Every kept number is one of the parses, and nothing else is kept. */
  lemma {:induction false} KeptNumbersComeFromTokens(parsed: seq<Option<real>>, k: nat)
    requires k < |KeepNumbers(parsed)|
    ensures exists i :: 0 <= i < |parsed| && parsed[i] == Some(KeepNumbers(parsed)[k])
  {
    var data := KeepNumbers(parsed);
    var rest := KeepNumbers(parsed[1..]);
    var front := if parsed[0].Some? then [parsed[0].value] else [];
    assert data == front + rest;
    if k < |front| {
      assert parsed[0] == Some(data[k]);
    } else {
      KeptNumbersComeFromTokens(parsed[1..], k - |front|);
      var i :| 0 <= i < |parsed[1..]| && parsed[1..][i] == Some(rest[k - |front|]);
      assert parsed[1..][i] == parsed[i + 1] && data[k] == rest[k - |front|];
    }
  }

  /** One more parse keeps everything kept so far and adds the new parse
      exactly when it is a number; with `KeepNumbers([]) == []` this fixes
      the filter: every number is kept, once, in the order of the tokens. */
  lemma {:induction false} KeepNumbersSnoc(parsed: seq<Option<real>>, o: Option<real>)
    ensures KeepNumbers(parsed + [o]) == KeepNumbers(parsed) + (if o.Some? then [o.value] else [])
  {
    if parsed == [] {
      assert parsed + [o] == [o];
      assert [o][1..] == [];
    } else {
      assert (parsed + [o])[0] == parsed[0];
      assert (parsed + [o])[1..] == parsed[1..] + [o];
      KeepNumbersSnoc(parsed[1..], o);
    }
  }

  /** The same law read on prefixes of the parses. */
  lemma KeepNumbersPrefix(parsed: seq<Option<real>>, i: nat)
    requires i < |parsed|
    ensures KeepNumbers(parsed[..i + 1]) == KeepNumbers(parsed[..i]) + (if parsed[i].Some? then [parsed[i].value] else [])
  {
    assert parsed[..i + 1] == parsed[..i] + [parsed[i]];
    KeepNumbersSnoc(parsed[..i], parsed[i]);
  }

  /** The numbers of the measurement text, split at commas. */
  function Measurements(text: string, parseFloat: string -> Option<real>): seq<real> {
    KeepNumbers(ParseTokens(Split(text, ','), parseFloat))
  }

  // ---------------------------------------------------------------------
  // Descriptive statistics
  // ---------------------------------------------------------------------

  function Sum(s: seq<real>): real {
    if s == [] then 0.0 else s[0] + Sum(s[1..])
  }

  function Mean(s: seq<real>): real
    requires |s| > 0
  {
    Sum(s) / |s| as real
  }

  /** `Math.pow(x, 2)`. */
  function Square(x: real): real {
    x * x
  }

  /** A square is never negative, and is zero only for zero. */
  lemma SquareSign(x: real)
    ensures Square(x) >= 0.0
    ensures Square(x) > 0.0 <==> x != 0.0
  {
    if x < 0.0 {
      assert Square(x) == Square(-x);
    }
    if x != 0.0 {
      assert (x * x) / x == x;
      assert Square(x) == x * x;
    }
  }

  /** Σ (x - m)², the reduce over `Math.pow(val - mean, 2)`. */
  function SquaredDeviations(s: seq<real>, m: real): (r: real)
    ensures r >= 0.0
  {
    if s == [] then 0.0
    else
      SquareSign(s[0] - m);
      Square(s[0] - m) + SquaredDeviations(s[1..], m)
  }

  /** The Bessel-corrected standard deviation, 0 for a single value. */
  function StdDev(s: seq<real>, sqrt: real -> real): real
    requires |s| > 0
  {
    if |s| > 1 then sqrt(SquaredDeviations(s, Mean(s)) / (|s| - 1) as real) else 0.0
  }

  function Minimum(s: seq<real>): (r: real)
    requires |s| > 0
    ensures r in s && forall i :: 0 <= i < |s| ==> r <= s[i]
  {
    if |s| == 1 then s[0]
    else
      var m := Minimum(s[1..]);
      assert forall i :: 1 <= i < |s| ==> s[i] == s[1..][i - 1];
      if s[0] <= m then s[0] else m
  }

  function Maximum(s: seq<real>): (r: real)
    requires |s| > 0
    ensures r in s && forall i :: 0 <= i < |s| ==> s[i] <= r
  {
    if |s| == 1 then s[0]
    else
      var m := Maximum(s[1..]);
      assert forall i :: 1 <= i < |s| ==> s[i] == s[1..][i - 1];
      if m <= s[0] then s[0] else m
  }

  lemma {:induction false} SumBetween(s: seq<real>, lo: real, hi: real)
    requires forall i :: 0 <= i < |s| ==> lo <= s[i] <= hi
    ensures |s| as real * lo <= Sum(s) <= |s| as real * hi
  {
    if s != [] {
      assert forall i :: 0 <= i < |s[1..]| ==> s[1..][i] == s[i + 1];
      SumBetween(s[1..], lo, hi);
    }
  }

  /** The mean lies between the smallest and the largest kept value. */
  lemma MeanWithinRange(s: seq<real>)
    requires |s| > 0
    ensures Minimum(s) <= Mean(s) <= Maximum(s)
  {
    var lo, hi := Minimum(s), Maximum(s);
    SumBetween(s, lo, hi);
    MeanBetween(s, lo, hi);
  }

  lemma MeanBetween(s: seq<real>, lo: real, hi: real)
    requires |s| > 0
    requires |s| as real * lo <= Sum(s) <= |s| as real * hi
    ensures lo <= Mean(s) <= hi
  {
    QuotientBetween(Sum(s), |s| as real, lo, hi);
  }

  lemma QuotientBetween(sum: real, n: real, lo: real, hi: real)
    requires n > 0.0 && n * lo <= sum <= n * hi
    ensures lo <= sum / n <= hi
  {
    assert sum / n - lo == (sum - n * lo) / n;
    assert hi - sum / n == (n * hi - sum) / n;
  }

  lemma DivMonotone(a: real, b: real, n: real)
    requires n > 0.0 && a <= b
    ensures a / n <= b / n
  {
    assert b / n - a / n == (b - a) / n;
  }

  /** Σ (x - m)² is zero exactly when every value equals m. */
  lemma {:induction false} SquaredDeviationsZero(s: seq<real>, m: real)
    ensures SquaredDeviations(s, m) == 0.0 <==> forall i :: 0 <= i < |s| ==> s[i] == m
  {
    if s != [] {
      SquaredDeviationsZero(s[1..], m);
      SquareSign(s[0] - m);
      assert forall i :: 1 <= i < |s| ==> s[i] == s[1..][i - 1];
    }
  }

  lemma MulDivCancel(c: real, n: real)
    requires n > 0.0
    ensures (n * c) / n == c
  {
  }

  lemma {:induction false} SumOfConstant(s: seq<real>, c: real)
    requires forall i :: 0 <= i < |s| ==> s[i] == c
    ensures Sum(s) == |s| as real * c
  {
    if s != [] {
      assert forall i :: 0 <= i < |s[1..]| ==> s[1..][i] == s[i + 1];
      SumOfConstant(s[1..], c);
    }
  }

  /** The standard deviation is never negative. */
  lemma StdDevNonNegative(s: seq<real>, sqrt: real -> real)
    requires |s| > 0 && IsSquareRoot(sqrt)
    ensures StdDev(s, sqrt) >= 0.0
  {
    if |s| > 1 {
      var v := SquaredDeviations(s, Mean(s)) / (|s| - 1) as real;
      assert v >= 0.0;
    }
  }

  /** The standard deviation is zero exactly when all kept values are equal;
      in particular for a single value. */
  lemma StdDevZeroIffConstant(s: seq<real>, sqrt: real -> real)
    requires |s| > 0 && IsSquareRoot(sqrt)
    ensures StdDev(s, sqrt) == 0.0 <==> forall i :: 0 <= i < |s| ==> s[i] == s[0]
  {
    var m := Mean(s);
    if forall i :: 0 <= i < |s| ==> s[i] == s[0] {
      SumOfConstant(s, s[0]);
      MulDivCancel(s[0], |s| as real);
      assert m == s[0];
      SquaredDeviationsZero(s, m);
      if |s| > 1 {
        var v := SquaredDeviations(s, m) / (|s| - 1) as real;
        assert v == 0.0;
        var r := sqrt(v);
        SquareSign(r);
        assert Square(r) == 0.0;
      }
    } else {
      var i :| 0 <= i < |s| && s[i] != s[0];
      assert |s| > 1;
      var ss := SquaredDeviations(s, m);
      SquaredDeviationsZero(s, m);
      assert s[0] != m || s[i] != m;
      assert ss != 0.0;
      var v := ss / (|s| - 1) as real;
      assert v > 0.0;
      var r := sqrt(v);
      assert r * r == v;
    }
  }

  // ---------------------------------------------------------------------
  // Capability indices
  // ---------------------------------------------------------------------

  /** `Math.min` on numbers: NaN if either side is NaN. */
  function JsMin(a: Number, b: Number): Number {
    match (a, b)
    case (Finite(x), Finite(y)) => Finite(if x <= y then x else y)
    case (NaN, _) => NaN
    case (_, NaN) => NaN
    case (Infinity, _) => b
    case (_, Infinity) => a
  }

  /** (usl - lsl) / (6σ), NaN when a limit did not parse. */
  function Cp(sd: real, usl: Option<real>, lsl: Option<real>): Number
    requires sd > 0.0
  {
    if usl.Some? && lsl.Some? then Finite((usl.value - lsl.value) / (6.0 * sd)) else NaN
  }

  /** (usl - mean) / (3σ). */
  function Cpu(mean: real, sd: real, usl: Option<real>): Number
    requires sd > 0.0
  {
    if usl.Some? then Finite((usl.value - mean) / (3.0 * sd)) else NaN
  }

  /** (mean - lsl) / (3σ). */
  function Cpl(mean: real, sd: real, lsl: Option<real>): Number
    requires sd > 0.0
  {
    if lsl.Some? then Finite((mean - lsl.value) / (3.0 * sd)) else NaN
  }

  /** Cp and Cpk, with the zero-spread policy of the source. */
  function Indices(mean: real, sd: real, usl: Option<real>, lsl: Option<real>): (r: (Number, Number))
  {
    if sd > 0.0 then
      (Cp(sd, usl, lsl), JsMin(Cpu(mean, sd, usl), Cpl(mean, sd, lsl)))
    else if usl.Some? && lsl.Some? && mean >= lsl.value && mean <= usl.value then
      (Infinity, Infinity)
    else
      (Finite(0.0), Finite(0.0))
  }

  /** With a positive spread, Cpk = min(CPU, CPL) and, since CPU + CPL = 2·Cp,
      Cpk is at most Cp. */
  lemma CpkBounds(mean: real, sd: real, usl: real, lsl: real)
    requires sd > 0.0
    ensures var (cp, cpk) := Indices(mean, sd, Some(usl), Some(lsl));
      var cpu := (usl - mean) / (3.0 * sd);
      var cpl := (mean - lsl) / (3.0 * sd);
      && cp.Finite? && cpk.Finite?
      && cpu + cpl == 2.0 * cp.value
      && (cpk.value == cpu || cpk.value == cpl)
      && cpk.value <= cpu && cpk.value <= cpl && cpk.value <= cp.value
  {
    var cpu := (usl - mean) / (3.0 * sd);
    var cpl := (mean - lsl) / (3.0 * sd);
    var cp := (usl - lsl) / (6.0 * sd);
    assert cpu + cpl == (usl - lsl) / (3.0 * sd);
    assert (usl - lsl) / (3.0 * sd) == 2.0 * cp;
  }

  /** With no spread, both indices are Infinity when the mean lies within
      [LSL, USL] and both are 0 otherwise. */
  lemma ZeroSpreadPolicy(mean: real, sd: real, usl: real, lsl: real)
    requires sd <= 0.0
    ensures var (cp, cpk) := Indices(mean, sd, Some(usl), Some(lsl));
      && cp == cpk
      && (cp == Infinity <==> lsl <= mean <= usl)
      && (cp != Infinity ==> cp == Finite(0.0))
  {
  }

  /** Indices are never NaN when both limits parse; a limit that does not
      parse turns Cpk into NaN whenever the spread is positive. */
  lemma NaNOnlyFromLimits(mean: real, sd: real, usl: Option<real>, lsl: Option<real>)
    ensures var (cp, cpk) := Indices(mean, sd, usl, lsl);
      (usl.Some? && lsl.Some? ==> cp != NaN && cpk != NaN) &&
      (sd > 0.0 && (usl.None? || lsl.None?) ==> cp == NaN && cpk == NaN)
  {
  }

  // ---------------------------------------------------------------------
  // The calculation as a whole
  // ---------------------------------------------------------------------

  /** The results for a non-empty sample and the parsed limits. */
  function Summarize(data: seq<real>, usl: Option<real>, lsl: Option<real>, sqrt: real -> real): (r: CapabilityResult)
    requires |data| > 0
  {
    var mean := Mean(data);
    var sd := StdDev(data, sqrt);
    var (cp, cpk) := Indices(mean, sd, usl, lsl);
    CapabilityResult(mean, sd, cp, cpk)
  }

  /** `calculateCpCpk`: `None` is an early return that leaves the previous
      results as they were. */
  function Calculate(input: CalculatorInput, parseFloat: string -> Option<real>, sqrt: real -> real): Option<CapabilityResult> {
    if Trim(input.measurementData) == "" || input.usl == "" || input.lsl == "" then None
    else
      var data := Measurements(input.measurementData, parseFloat);
      if |data| == 0 then None
      else Some(Summarize(data, parseFloat(input.usl), parseFloat(input.lsl), sqrt))
  }

  /** No result is produced exactly when the measurement text is blank, a
      limit field is empty, or no comma-separated token parses as a number. */
  lemma CalculateNoResult(input: CalculatorInput, parseFloat: string -> Option<real>, sqrt: real -> real)
    ensures Calculate(input, parseFloat, sqrt).None? <==>
      || IsBlank(input.measurementData) || input.usl == "" || input.lsl == ""
      || (forall i :: 0 <= i < |Split(input.measurementData, ',')| ==>
            parseFloat(Trim(Split(input.measurementData, ',')[i])).None?)
  {
    TrimEmptyIffBlank(input.measurementData);
    if Trim(input.measurementData) != "" && input.usl != "" && input.lsl != "" {
      var data := Measurements(input.measurementData, parseFloat);
      assert data == KeepNumbers(ParseTokens(Split(input.measurementData, ','), parseFloat));
    }
  }

  /** A produced result summarises the kept numbers and the parsed limits:
      its mean lies between their extremes, and its spread is not negative
      and is zero exactly when all kept numbers are equal. */
  lemma CalculateResultSound(input: CalculatorInput, parseFloat: string -> Option<real>, sqrt: real -> real)
    requires IsSquareRoot(sqrt)
    requires Calculate(input, parseFloat, sqrt).Some?
    ensures var data := Measurements(input.measurementData, parseFloat);
      var r := Calculate(input, parseFloat, sqrt).value;
      && |data| > 0
      && r == Summarize(data, parseFloat(input.usl), parseFloat(input.lsl), sqrt)
      && Minimum(data) <= r.mean <= Maximum(data)
      && r.stdDev >= 0.0
      && (r.stdDev == 0.0 <==> forall i :: 0 <= i < |data| ==> data[i] == data[0])
  {
    var data := Measurements(input.measurementData, parseFloat);
    MeanWithinRange(data);
    StdDevNonNegative(data, sqrt);
    StdDevZeroIffConstant(data, sqrt);
  }

  // ---------------------------------------------------------------------
  // The verdict line
  // ---------------------------------------------------------------------

  /** The verdict shown under the results, tests taken in the source's order. */
  function VerdictOf(cpk: Number): Verdict {
    if !cpk.IsFinite() then PerfectlyCapable
    else if cpk.value >= 1.33 then Capable
    else if cpk.value >= 1.0 then NeedsImprovement
    else NotCapable
  }

  function Rank(v: Verdict): nat {
    match v
    case NotCapable => 0
    case NeedsImprovement => 1
    case Capable => 2
    case PerfectlyCapable => 3
  }

  /** The verdict bands partition the numbers: each finite Cpk falls in
      exactly the band its thresholds name, and a larger Cpk never gets a
      worse verdict. Infinity and NaN both read as perfectly capable. */
  lemma VerdictBands(a: real, b: real)
    ensures VerdictOf(Finite(a)) == Capable <==> a >= 1.33
    ensures VerdictOf(Finite(a)) == NeedsImprovement <==> 1.0 <= a < 1.33
    ensures VerdictOf(Finite(a)) == NotCapable <==> a < 1.0
    ensures VerdictOf(Finite(a)) != PerfectlyCapable
    ensures VerdictOf(Infinity) == PerfectlyCapable && VerdictOf(NaN) == PerfectlyCapable
    ensures a <= b ==> Rank(VerdictOf(Finite(a))) <= Rank(VerdictOf(Finite(b)))
  {
  }

  /** The worked sample 10.2, 10.1, 10.3, 10.0, 10.2 against USL 10.5 and
      LSL 9.5: mean 10.16, variance 0.013, Cp above 1.33 but Cpk = CPU below
      1, so the panel reports a process that is not capable. */
  lemma WorkedSample(sqrt: real -> real)
    requires IsSquareRoot(sqrt)
    ensures var r := Summarize([10.2, 10.1, 10.3, 10.0, 10.2], Some(10.5), Some(9.5), sqrt);
      && r.mean == 10.16
      && r.stdDev * r.stdDev == 0.013
      && r.cp.Finite? && r.cp.value >= 1.33
      && VerdictOf(r.cpk) == NotCapable
  {
    var s := [10.2, 10.1, 10.3, 10.0, 10.2];
    assert Sum(s) == 50.8;
    assert Mean(s) == 10.16;
    var ss := SquaredDeviations(s, 10.16);
    assert ss == 0.052;
    var sd := sqrt(0.052 / 4.0);
    assert 0.052 / 4.0 == 0.013;
    assert sd >= 0.0 && sd * sd == 0.013;
    assert StdDev(s, sqrt) == sd;
    // sd lies between 0.114 and 0.115, since 0.114² < 0.013 < 0.115²
    assert sd > 0.114 by {
      var b := sd + 0.114;
      assert (sd - 0.114) * b == 0.000004;
      assert sd - 0.114 == 0.000004 / b;
    }
    assert sd < 0.115 by {
      var b := 0.115 + sd;
      assert (0.115 - sd) * b == 0.000225;
      assert 0.115 - sd == 0.000225 / b;
    }
    CpkBounds(10.16, sd, 10.5, 9.5);
    var cpu := (10.5 - 10.16) / (3.0 * sd);
    var cpl := (10.16 - 9.5) / (3.0 * sd);
    assert cpu < 1.0 by {
      assert 0.34 < 3.0 * sd;
      assert cpu == 0.34 / (3.0 * sd);
    }
    assert cpu < cpl by {
      DivMonotone(0.34, 0.66, 3.0 * sd);
    }
    var cp := (10.5 - 9.5) / (6.0 * sd);
    assert cp >= 1.33 by {
      assert 6.0 * sd < 0.69;
      assert 1.0 / (6.0 * sd) > 1.0 / 0.69 by {
        assert 1.0 / (6.0 * sd) * (6.0 * sd) == 1.0;
      }
    }
  }
}
