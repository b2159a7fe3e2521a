/**
  Threshold calibration (lib_SMML.py:108-147) and the three-way label
  (lib_SMML.py:155-167).  The weighted mean and variance are computed over
  the reals; sqrt and round(., 3) come from the caller's `Numerics`.
 */
module Calibration {
  import opened Wrappers
  import opened Corpus
  import opened Frequency
  import opened Scoring

  // ------------------------------------------------- weighted statistics

  function WeightTotal(ws: seq<nat>): nat {
    if ws == [] then 0 else WeightTotal(ws[..|ws| - 1]) + ws[|ws| - 1]
  }

  /** The sum of xs[i] * ws[i]. */
  function WeightedSum(xs: seq<real>, ws: seq<nat>): real
    requires |xs| == |ws|
  {
    if xs == [] then 0.0
    else WeightedSum(xs[..|xs| - 1], ws[..|ws| - 1]) + xs[|xs| - 1] * ws[|ws| - 1] as real
  }

  /** `np.average(xs, weights=ws)`. */
  function WeightedMean(xs: seq<real>, ws: seq<nat>): real
    requires |xs| == |ws| && WeightTotal(ws) > 0
  {
    WeightedSum(xs, ws) / WeightTotal(ws) as real
  }

  function SquaredDeviations(xs: seq<real>, m: real): (ds: seq<real>)
    ensures |ds| == |xs|
  {
    seq(|xs|, i requires 0 <= i < |xs| => (xs[i] - m) * (xs[i] - m))
  }

  /** `np.average((xs - mean)**2, weights=ws)`. */
  function WeightedVariance(xs: seq<real>, ws: seq<nat>): real
    requires |xs| == |ws| && WeightTotal(ws) > 0
  {
    WeightedMean(SquaredDeviations(xs, WeightedMean(xs, ws)), ws)
  }

  /** One step of the bound: adding x * w to a sum bounded below by lo * a. */
  lemma ScaledStepBelow(lo: real, a: real, w: real, s: real, x: real)
    requires lo * a <= s && lo <= x && w >= 0.0
    ensures lo * (a + w) <= s + x * w
  {
    assert (x - lo) * w >= 0.0;
    assert lo * (a + w) == lo * a + lo * w;
  }

  lemma ScaledStepAbove(hi: real, a: real, w: real, s: real, x: real)
    requires s <= hi * a && x <= hi && w >= 0.0
    ensures s + x * w <= hi * (a + w)
  {
    assert (hi - x) * w >= 0.0;
    assert hi * (a + w) == hi * a + hi * w;
  }

  lemma {:induction false} WeightedSumLowerBound(xs: seq<real>, ws: seq<nat>, lo: real)
    requires |xs| == |ws|
    requires forall i :: 0 <= i < |xs| ==> lo <= xs[i]
    ensures lo * WeightTotal(ws) as real <= WeightedSum(xs, ws)
  {
    if xs != [] {
      var n := |xs| - 1;
      assert ws[..|ws| - 1] == ws[..n] && xs[..|xs| - 1] == xs[..n];
      WeightedSumLowerBound(xs[..n], ws[..n], lo);
      var w := ws[n] as real;
      var a := WeightTotal(ws[..n]) as real;
      var s := WeightedSum(xs[..n], ws[..n]);
      assert WeightedSum(xs, ws) == s + xs[n] * w;
      assert WeightTotal(ws) as real == a + w;
      ScaledStepBelow(lo, a, w, s, xs[n]);
    }
  }

  lemma {:induction false} WeightedSumUpperBound(xs: seq<real>, ws: seq<nat>, hi: real)
    requires |xs| == |ws|
    requires forall i :: 0 <= i < |xs| ==> xs[i] <= hi
    ensures WeightedSum(xs, ws) <= hi * WeightTotal(ws) as real
  {
    if xs != [] {
      var n := |xs| - 1;
      assert ws[..|ws| - 1] == ws[..n] && xs[..|xs| - 1] == xs[..n];
      WeightedSumUpperBound(xs[..n], ws[..n], hi);
      var w := ws[n] as real;
      var a := WeightTotal(ws[..n]) as real;
      var s := WeightedSum(xs[..n], ws[..n]);
      assert WeightedSum(xs, ws) == s + xs[n] * w;
      assert WeightTotal(ws) as real == a + w;
      ScaledStepAbove(hi, a, w, s, xs[n]);
    }
  }

  lemma DivisionBounds(s: real, w: real, c: real)
    requires w > 0.0
    ensures c * w <= s ==> c <= s / w
    ensures s <= c * w ==> s / w <= c
  {
    var q := s / w;
    assert q * w == s;
    if q < c {
      assert (c - q) * w > 0.0;
    }
    if c < q {
      assert (q - c) * w > 0.0;
    }
  }

  /** The weighted mean lies between a lower and an upper bound of the values. */
  lemma MeanWithinBounds(xs: seq<real>, ws: seq<nat>, lo: real, hi: real)
    requires |xs| == |ws| && WeightTotal(ws) > 0
    requires forall i :: 0 <= i < |xs| ==> lo <= xs[i] <= hi
    ensures lo <= WeightedMean(xs, ws) <= hi
  {
    WeightedSumLowerBound(xs, ws, lo);
    WeightedSumUpperBound(xs, ws, hi);
    DivisionBounds(WeightedSum(xs, ws), WeightTotal(ws) as real, lo);
    DivisionBounds(WeightedSum(xs, ws), WeightTotal(ws) as real, hi);
  }

  lemma VarianceNonNegative(xs: seq<real>, ws: seq<nat>)
    requires |xs| == |ws| && WeightTotal(ws) > 0
    ensures WeightedVariance(xs, ws) >= 0.0
  {
    var m := WeightedMean(xs, ws);
    var ds := SquaredDeviations(xs, m);
    forall i | 0 <= i < |ds| ensures 0.0 <= ds[i] {
      var d := xs[i] - m;
      if d < 0.0 {
        assert d * d == (-d) * (-d);
      }
    }
    WeightedSumLowerBound(ds, ws, 0.0);
    DivisionBounds(WeightedSum(ds, ws), WeightTotal(ws) as real, 0.0);
  }

  /** Identical values have that value as mean and variance 0. */
  lemma ConstantValues(xs: seq<real>, ws: seq<nat>, c: real)
    requires |xs| == |ws| && WeightTotal(ws) > 0
    requires forall i :: 0 <= i < |xs| ==> xs[i] == c
    ensures WeightedMean(xs, ws) == c
    ensures WeightedVariance(xs, ws) == 0.0
  {
    MeanWithinBounds(xs, ws, c, c);
    var ds := SquaredDeviations(xs, c);
    MeanWithinBounds(ds, ws, 0.0, 0.0);
  }

  /** The weights add up to 0 exactly when every weight is 0. */
  lemma {:induction false} WeightTotalZero(ws: seq<nat>)
    ensures WeightTotal(ws) == 0 <==> forall i :: 0 <= i < |ws| ==> ws[i] == 0
  {
    if ws != [] {
      WeightTotalZero(ws[..|ws| - 1]);
      assert forall i :: 0 <= i < |ws| - 1 ==> ws[..|ws| - 1][i] == ws[i];
    }
  }

  // ------------------------------------------------- the calibration pass

  /** Scores one password: `calculate_score` on fixed tables. */
  type Scorer = string -> Result<real, ScoreError>

  function ScoreWith(t: Tables, n: Numerics): Scorer {
    p => Score(t, p, n)
  }

  type Pass = Result<(seq<real>, seq<nat>), ScoreError>

  /** Appends one entry's score and weight; an earlier or a new error stops the pass. */
  function ScoreStep(score: Scorer, r: Pass, e: Entry): (s: Pass)
    ensures s.Ok? <==> r.Ok? && score(e.password).Ok?
    ensures s.Ok? && |r.value.0| == |r.value.1| ==> |s.value.0| == |s.value.1|
  {
    match r
    case Err(x) => Err(x)
    case Ok(sw) =>
      match score(e.password)
      case Err(x) => Err(x)
      case Ok(v) => Ok((sw.0 + [v], sw.1 + [e.weight]))
  }

  /**
    The `scores` and `counts` lists of `compute_thresholds` (lines 119-137):
    one score and one weight per non-blank line; the first scoring error
    aborts the pass.
   */
  function CorpusScores(score: Scorer, lines: seq<string>): (r: Pass)
    ensures r.Ok? ==> |r.value.0| == |r.value.1|
  {
    if lines == [] then Ok(([], []))
    else
      var r := CorpusScores(score, lines[..|lines| - 1]);
      match ParseLine(lines[|lines| - 1])
      case None => r
      case Some(e) => ScoreStep(score, r, e)
  }

  /** The pass result `r` lines up with the entries `es`. */
  ghost predicate Aligned(score: Scorer, es: seq<Entry>, r: Pass) {
    && (r.Ok? <==> forall i :: 0 <= i < |es| ==> score(es[i].password).Ok?)
    && (r.Ok? ==>
          && |r.value.0| == |es| && |r.value.1| == |es|
          && forall i :: 0 <= i < |es| ==>
               r.value.0[i] == score(es[i].password).value && r.value.1[i] == es[i].weight)
  }

  lemma AlignedStep(score: Scorer, es: seq<Entry>, r: Pass, e: Entry)
    requires Aligned(score, es, r)
    ensures Aligned(score, es + [e], ScoreStep(score, r, e))
  {
    var es' := es + [e];
    assert forall i :: 0 <= i < |es| ==> es'[i] == es[i];
    assert es'[|es|] == e;
  }

  /** Line k extends the pass over the lines before it. */
  lemma CorpusScoresNext(score: Scorer, lines: seq<string>, k: nat)
    requires k < |lines|
    ensures CorpusScores(score, lines[..k + 1]) ==
      match ParseLine(lines[k])
      case None => CorpusScores(score, lines[..k])
      case Some(e) => ScoreStep(score, CorpusScores(score, lines[..k]), e)
  {
    var pre := lines[..k + 1];
    assert pre[..k] == lines[..k] && pre[k] == lines[k];
  }

  /**
    The pass succeeds exactly when every entry of the corpus scores without
    error, and then its i-th score and count are those of the i-th entry.
   */
  lemma {:induction false} CorpusScoresAligned(score: Scorer, lines: seq<string>)
    ensures Aligned(score, Parsed(lines), CorpusScores(score, lines))
  {
    if lines != [] {
      var init := lines[..|lines| - 1];
      CorpusScoresAligned(score, init);
      CorpusScoresNext(score, lines, |lines| - 1);
      assert lines[..|lines|] == lines;
      var o := ParseLine(lines[|lines| - 1]);
      if o.Some? {
        AlignedStep(score, Parsed(init), CorpusScores(score, init), o.value);
      }
    }
  }

  /** Once a prefix of the corpus fails to score, the whole pass fails with that error. */
  lemma {:induction false} CorpusScoresErrorSticks(score: Scorer, lines: seq<string>, k: nat)
    requires k <= |lines| && CorpusScores(score, lines[..k]).Err?
    ensures CorpusScores(score, lines) == CorpusScores(score, lines[..k])
  {
    if k < |lines| {
      var init := lines[..|lines| - 1];
      assert init[..k] == lines[..k];
      CorpusScoresErrorSticks(score, init, k);
    } else {
      assert lines[..k] == lines;
    }
  }

  /** Outcome of `compute_thresholds`. */
  datatype Calibrated =
    | NotTrained              // the guard at lines 113-115: nothing is changed
    | ScoringFailed(error: ScoreError)
    | ZeroWeights             // np.average raises ZeroDivisionError
    | Thresholds(normal: real, strong: real)

  /**
    Lines 139-147 on the collected scores and counts: the weighted mean and
    standard deviation, and the thresholds mean + 2 sd and mean + 3 sd,
    rounded; a zero weight sum makes `np.average` raise.
   */
  function WeightedThresholds(scores: seq<real>, counts: seq<nat>, n: Numerics): (c: Calibrated)
    requires |scores| == |counts|
    ensures c.ZeroWeights? || c.Thresholds?
    ensures c.ZeroWeights? <==> WeightTotal(counts) == 0
  {
    if WeightTotal(counts) == 0 then ZeroWeights
    else
      var mean := WeightedMean(scores, counts);
      var sd := n.sqrt(WeightedVariance(scores, counts));
      Thresholds(n.round3(mean + 2.0 * sd), n.round3(mean + 3.0 * sd))
  }

  function Calibrate(t: Tables, trained: bool, lines: seq<string>, n: Numerics): Calibrated {
    if !trained then NotTrained
    else
      match CorpusScores(ScoreWith(t, n), lines)
      case Err(e) => ScoringFailed(e)
      case Ok(sw) => WeightedThresholds(sw.0, sw.1, n)
  }

  /** The normal threshold never exceeds the strong one (mean + 2 sd <= mean + 3 sd). */
  lemma ThresholdsOrdered(t: Tables, trained: bool, lines: seq<string>, n: Numerics)
    requires Sane(n)
    ensures var c := Calibrate(t, trained, lines, n); c.Thresholds? ==> c.normal <= c.strong
  {
    if trained && CorpusScores(ScoreWith(t, n), lines).Ok? {
      var sw := CorpusScores(ScoreWith(t, n), lines).value;
      if WeightTotal(sw.1) > 0 {
        VarianceNonNegative(sw.0, sw.1);
      }
    }
  }

  /**
    When every entry scores the same value c (and some weight is positive),
    the deviation is 0 and both thresholds are round(c).
   */
  lemma UniformScoresThresholds(t: Tables, lines: seq<string>, n: Numerics, c: real)
    requires Sane(n)
    requires forall i :: 0 <= i < |Parsed(lines)| ==> Score(t, Parsed(lines)[i].password, n) == Ok(c)
    requires exists i :: 0 <= i < |Parsed(lines)| && Parsed(lines)[i].weight > 0
    ensures Calibrate(t, true, lines, n) == Thresholds(n.round3(c), n.round3(c))
  {
    var es := Parsed(lines);
    CorpusScoresAligned(ScoreWith(t, n), lines);
    var sw := CorpusScores(ScoreWith(t, n), lines).value;
    WeightTotalZero(sw.1);
    ConstantValues(sw.0, sw.1, c);
  }

  /**
    Calibrating on the corpus the estimator was trained on, with positive
    weights, never fails while scoring; it sets thresholds exactly when the
    corpus has a non-blank line.
   */
  lemma CalibrateTrainingCorpus(lines: seq<string>, n: Numerics)
    requires PositiveWeights(Parsed(lines))
    ensures var c := Calibrate(TrainLines(Empty, lines), true, lines, n);
      && (c.Thresholds? <==> Parsed(lines) != [])
      && (c.ZeroWeights? <==> Parsed(lines) == [])
  {
    var t := TrainLines(Empty, lines);
    var es := Parsed(lines);
    forall i | 0 <= i < |es| ensures Score(t, es[i].password, n).Ok? {
      ScoreOfTrainedTables(lines, es[i].password, n);
    }
    CorpusScoresAligned(ScoreWith(t, n), lines);
    var sw := CorpusScores(ScoreWith(t, n), lines).value;
    WeightTotalZero(sw.1);
    if es != [] {
      assert sw.1[0] >= 1;
    }
  }

  // ------------------------------------------------------------ labels

  /** `ValueError` when no thresholds are set; `TypeError` comparing against a missing strong threshold. */
  datatype LabelError = NoThresholds | Incomparable

  /** `get_label(score)`: 0 weak, 1 normal, 2 strong; a boundary value goes to the upper band. */
  function Label(score: real, normal: Option<real>, strong: Option<real>): (r: Result<nat, LabelError>)
    ensures normal.None? <==> r == Err(NoThresholds)
    ensures r.Ok? ==> r.value <= 2
    ensures normal.Some? ==> (r == Ok(0) <==> score < normal.value)
    ensures normal.Some? && strong.Some? ==> (r == Ok(1) <==> normal.value <= score < strong.value)
    ensures normal.Some? && strong.Some? ==> (r == Ok(2) <==> normal.value <= score && strong.value <= score)
    ensures normal.Some? && strong.None? ==> (r.Err? <==> normal.value <= score)
  {
    if normal.None? then Err(NoThresholds)
    else if score < normal.value then Ok(0)
    else if strong.None? then Err(Incomparable)
    else if score < strong.value then Ok(1)
    else Ok(2)
  }

  /** With ordered thresholds a higher score never gets a lower label. */
  lemma LabelMonotone(s1: real, s2: real, normal: real, strong: real)
    requires normal <= strong && s1 <= s2
    ensures Label(s1, Some(normal), Some(strong)).Ok? && Label(s2, Some(normal), Some(strong)).Ok?
    ensures Label(s1, Some(normal), Some(strong)).value <= Label(s2, Some(normal), Some(strong)).value
  {
  }
}
