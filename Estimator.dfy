/**
  The `SMMLEstimator` object (lib_SMML.py:13-167): the frequency tables and
  thresholds it holds, and the operations that update them in place.  Each
  method is tied to the functions of the modules above, whose properties are
  proved there.  The corpus file is given as its sequence of lines.
 */
module Estimator {
  import opened Wrappers
  import opened Corpus
  import opened Frequency
  import opened Scoring
  import opened Calibration

  class SMMLEstimator {
    /** `databases[L][g]`: weighted count of gram g in passwords of length L. */
    var databases: map<nat, Bucket>
    /** `total_characters[L]`: weighted character count of passwords of length L. */
    var totalCharacters: map<nat, nat>
    /** `thre_nor` and `thre_str`. */
    var normalThreshold: Option<real>
    var strongThreshold: Option<real>
    var isTrained: bool

    /** The tables as a value. */
    function State(): Tables
      reads this
    {
      Tables(databases, totalCharacters)
    }

    /**
      `thre_nor` and `thre_str` are set together (lines 146-147) and never
      cleared, so either both are present or neither is.
     */
    predicate ThresholdsPaired()
      reads this
    {
      normalThreshold.Some? <==> strongThreshold.Some?
    }

    /** `__init__`: empty tables, no thresholds, untrained. */
    constructor ()
      ensures State() == Empty
      ensures normalThreshold == None && strongThreshold == None
      ensures !isTrained
      ensures ThresholdsPaired()
    {
      databases := map[];
      totalCharacters := map[];
      normalThreshold := None;
      strongThreshold := None;
      isTrained := false;
    }

    /**
      `train`: every non-blank line adds its weight to `total_characters[L]`
      (L times) and to the count of each of its unigrams and bigrams.
      Training again accumulates on top of the current tables.
     */
    method Train(lines: seq<string>)
      modifies this
      ensures State() == TrainLines(old(State()), lines)
      ensures isTrained
      ensures normalThreshold == old(normalThreshold) && strongThreshold == old(strongThreshold)
      ensures old(ThresholdsPaired()) ==> ThresholdsPaired()
    {
      ghost var t0 := State();
      var k := 0;
      while k < |lines|
        invariant 0 <= k <= |lines|
        invariant State() == TrainLines(t0, lines[..k])
        invariant normalThreshold == old(normalThreshold) && strongThreshold == old(strongThreshold)
      {
        TrainLinesSnoc(t0, lines, k);
        var entry := ParseLine(lines[k]);
        if entry.Some? {
          AddEntry(entry.value.password, entry.value.weight);
        }
        k := k + 1;
      }
      isTrained := true;
      assert lines[..|lines|] == lines;
    }

    /** One pass of the training loop body (lines 48-61) for a parsed entry. */
    method AddEntry(password: string, count: nat)
      modifies this
      ensures State() == TrainEntry(old(State()), Entry(password, count))
      ensures normalThreshold == old(normalThreshold) && strongThreshold == old(strongThreshold)
      ensures isTrained == old(isTrained)
    {
      var L := |password|;
      totalCharacters := totalCharacters[L := TotalOf(State(), L) + L * count];
      // the inner dictionary `databases[L]`, created by its first update
      var db := if L in databases then databases[L] else map[];
      ghost var db0 := db;
      var i := 0;
      while i < L
        invariant 0 <= i <= L
        invariant db == AddPrefix(db0, password, count, i)
      {
        var g1 := [password[i]];
        db := AddCount(db, g1, count);
        if i < L - 1 {
          var g2 := password[i..i + 2];
          db := AddCount(db, g2, count);
        }
        i := i + 1;
      }
      assert db0 == BucketOf(old(State()), L);
      if L > 0 {
        databases := databases[L := db];
      }
      assert databases == TrainEntry(old(State()), Entry(password, count)).databases;
    }

    /**
      `calculate_score`: 0.0 for a length with no bucket or a zero total;
      otherwise the rounded sum of the surprisals of the first gram and of
      every later adjacent pair, or the first error a term raises.
     */
    method CalculateScore(password: string, n: Numerics) returns (r: Result<real, ScoreError>)
      ensures r == Score(State(), password, n)
    {
      var L := |password|;
      if L !in databases || TotalOf(State(), L) == 0 {
        return Ok(0.0);
      }
      var db := databases[L];
      var total := totalCharacters[L];
      var x := Surprisal(FirstTerm(db, total, password), n);
      if x.Err? {
        SumTermsErrorSticks(db, total, password, 1, n);
        return Err(x.error);
      }
      var strength := x.value;
      var i := 1;
      while i < L - 1
        invariant 1 <= i <= TermCount(password)
        invariant SumTerms(db, total, password, i, n) == Ok(strength)
      {
        x := Surprisal(MiddleTerm(db, total, password, i), n);
        if x.Err? {
          SumTermsErrorSticks(db, total, password, i + 1, n);
          return Err(x.error);
        }
        strength := strength + x.value;
        i := i + 1;
      }
      return Ok(n.round3(strength));
    }

    /**
      The scoring loop of `compute_thresholds` (lines 119-137): the score and
      the count of every non-blank line, or the first scoring error.
     */
    method ScoreCorpus(lines: seq<string>, n: Numerics) returns (r: Pass)
      ensures r == CorpusScores(ScoreWith(State(), n), lines)
    {
      ghost var score := ScoreWith(State(), n);
      var scores: seq<real> := [];
      var counts: seq<nat> := [];
      var k := 0;
      while k < |lines|
        invariant 0 <= k <= |lines|
        invariant CorpusScores(score, lines[..k]) == Ok((scores, counts))
      {
        CorpusScoresNext(score, lines, k);
        var entry := ParseLine(lines[k]);
        if entry.Some? {
          var s := CalculateScore(entry.value.password, n);
          assert s == score(entry.value.password);
          if s.Err? {
            CorpusScoresErrorSticks(score, lines, k + 1);
            return Err(s.error);
          }
          scores := scores + [s.value];
          counts := counts + [entry.value.weight];
        }
        k := k + 1;
      }
      assert lines[..k] == lines;
      return Ok((scores, counts));
    }

    /**
      `compute_thresholds`: untrained, it changes nothing; otherwise it scores
      every non-blank line, and sets both thresholds exactly when scoring
      succeeds and the weights do not sum to zero.
     */
    method ComputeThresholds(lines: seq<string>, n: Numerics) returns (c: Calibrated)
      modifies this
      ensures c == Calibrate(State(), isTrained, lines, n)
      ensures State() == old(State()) && isTrained == old(isTrained)
      ensures c.Thresholds? ==> normalThreshold == Some(c.normal) && strongThreshold == Some(c.strong)
      ensures !c.Thresholds? ==> normalThreshold == old(normalThreshold) && strongThreshold == old(strongThreshold)
      ensures Sane(n) && c.Thresholds? ==> c.normal <= c.strong
      ensures c.Thresholds? || old(ThresholdsPaired()) ==> ThresholdsPaired()
    {
      if Sane(n) {
        ThresholdsOrdered(State(), isTrained, lines, n);
      }
      if !isTrained {
        return NotTrained;
      }
      ghost var t := State();
      var r := ScoreCorpus(lines, n);
      if r.Err? {
        return ScoringFailed(r.error);
      }
      c := WeightedThresholds(r.value.0, r.value.1, n);
      if c.Thresholds? {
        normalThreshold := Some(c.normal);
        strongThreshold := Some(c.strong);
      }
      assert State() == t;
    }

    /**
      `get_label`: the band of a score against the thresholds held.  A
      missing `thre_str` with `thre_nor` set, which the methods above never
      produce from a paired state, is the `TypeError` of comparing a float
      with None (`Incomparable`).
     */
    function GetLabel(score: real): (r: Result<nat, LabelError>)
      reads this
      ensures normalThreshold.None? <==> r == Err(NoThresholds)
      ensures ThresholdsPaired() ==> (r.Err? <==> normalThreshold.None?)
      ensures normalThreshold.Some? && strongThreshold.None? ==>
        (r == Err(Incomparable) <==> normalThreshold.value <= score)
      ensures r.Ok? ==> r.value <= 2
      ensures normalThreshold.Some? ==> (r == Ok(0) <==> score < normalThreshold.value)
      ensures normalThreshold.Some? && strongThreshold.Some? ==>
        (r == Ok(1) <==> normalThreshold.value <= score < strongThreshold.value)
      ensures normalThreshold.Some? && strongThreshold.Some? ==>
        (r == Ok(2) <==> normalThreshold.value <= score && strongThreshold.value <= score)
    {
      Label(score, normalThreshold, strongThreshold)
    }
  }
}
