/**
  The score of a password (lib_SMML.py:69-106): a sum of surprisals
  -log2(num/den), one per ratio term, rounded to three decimals.  The
  floating-point functions -log2, sqrt and round(., 3) are not modelled; they
  are the fields of a `Numerics` value the caller supplies.
 */
module Scoring {
  import opened Wrappers
  import opened Frequency

  /** A probability estimate num/den, before the logarithm is taken. */
  datatype Ratio = Ratio(num: nat, den: nat)

  /** ZeroDivisionError from `/`, or ValueError from `math.log2(0)`. */
  datatype ScoreError = ZeroDivision | MathDomain

  datatype Numerics = Numerics(negLog2: real -> real, sqrt: real -> real, round3: real -> real)

  /** The few facts about the floating-point functions that the lemmas rely on. */
  ghost predicate Sane(n: Numerics) {
    && (forall x :: 0.0 < x <= 1.0 ==> 0.0 <= n.negLog2(x))
    && (forall x, y :: x <= y ==> n.round3(x) <= n.round3(y))
    && n.round3(0.0) == 0.0
    && (forall x :: 0.0 <= x ==> 0.0 <= n.sqrt(x))
    && n.sqrt(0.0) == 0.0
  }

  /** The first term, for `password[0:2]` (lines 85-91). */
  function FirstTerm(db: Bucket, total: nat, p: string): Ratio {
    var g0 := p[..if |p| < 2 then |p| else 2];
    if g0 in db then Ratio(db[g0], total) else Ratio(1, total)
  }

  /** The term for position i, 1 <= i <= |p|-2 (lines 94-104). */
  function MiddleTerm(db: Bucket, total: nat, p: string, i: nat): Ratio
    requires 1 <= i && i + 2 <= |p|
  {
    var g2 := p[i..i + 2];
    var g1 := [p[i]];
    if g2 in db then Ratio(db[g2], Count(db, g1))
    else if g1 in db then Ratio(1, db[g1])
    else Ratio(1, total)
  }

  function TermCount(p: string): nat {
    if |p| < 2 then 1 else |p| - 1
  }

  function Term(db: Bucket, total: nat, p: string, k: nat): Ratio
    requires k < TermCount(p)
  {
    if k == 0 then FirstTerm(db, total, p) else MiddleTerm(db, total, p, k)
  }

  /** The first m terms, as the scoring loop has produced them after m steps. */
  function TermsUpTo(db: Bucket, total: nat, p: string, m: nat): (ts: seq<Ratio>)
    requires m <= TermCount(p)
    ensures |ts| == m
  {
    if m == 0 then [] else TermsUpTo(db, total, p, m - 1) + [Term(db, total, p, m - 1)]
  }

  /** Entry k of the first m terms is the k-th term. */
  lemma {:induction false} TermsUpToAt(db: Bucket, total: nat, p: string, m: nat, k: nat)
    requires k < m <= TermCount(p)
    ensures TermsUpTo(db, total, p, m)[k] == Term(db, total, p, k)
  {
    if k < m - 1 {
      TermsUpToAt(db, total, p, m - 1, k);
    }
  }

  /** The ratio terms of a password scored against bucket `db` with total `total`. */
  function Terms(db: Bucket, total: nat, p: string): seq<Ratio> {
    TermsUpTo(db, total, p, TermCount(p))
  }

  /** Unseen: the length has no bucket or a zero total (lines 76-77). */
  datatype Plan = Unseen | Scored(terms: seq<Ratio>)

  function ScorePlan(t: Tables, p: string): Plan {
    var L := |p|;
    if L !in t.databases || TotalOf(t, L) == 0 then Unseen
    else Scored(Terms(t.databases[L], TotalOf(t, L), p))
  }

  /** `-math.log2(num / den)` with the exceptions Python raises. */
  function Surprisal(r: Ratio, n: Numerics): Result<real, ScoreError> {
    if r.den == 0 then Err(ZeroDivision)
    else if r.num == 0 then Err(MathDomain)
    else Ok(n.negLog2(r.num as real / r.den as real))
  }

  /** `strength += -log2(...)`: the sum so far plus one surprisal, unless either fails. */
  function AddSurprisal(acc: Result<real, ScoreError>, r: Ratio, n: Numerics): Result<real, ScoreError> {
    match acc
    case Err(e) => Err(e)
    case Ok(s) =>
      match Surprisal(r, n)
      case Err(e) => Err(e)
      case Ok(v) => Ok(s + v)
  }

  /** The left-to-right sum of the surprisals of ts[..m]; the first failing term aborts. */
  function SumPrefix(ts: seq<Ratio>, m: nat, n: Numerics): Result<real, ScoreError>
    requires m <= |ts|
  {
    if m == 0 then Ok(0.0) else AddSurprisal(SumPrefix(ts, m - 1, n), ts[m - 1], n)
  }

  function SumSurprisal(ts: seq<Ratio>, n: Numerics): Result<real, ScoreError> {
    SumPrefix(ts, |ts|, n)
  }

  /**
    The running `strength` of the scoring loop after its first m terms:
    the left-to-right sum of their surprisals, or the first error.
   */
  function SumTerms(db: Bucket, total: nat, p: string, m: nat, n: Numerics): Result<real, ScoreError>
    requires m <= TermCount(p)
  {
    if m == 0 then Ok(0.0)
    else AddSurprisal(SumTerms(db, total, p, m - 1, n), Term(db, total, p, m - 1), n)
  }

  /** `calculate_score(password)`. */
  function Score(t: Tables, p: string, n: Numerics): Result<real, ScoreError> {
    var L := |p|;
    if L !in t.databases || TotalOf(t, L) == 0 then Ok(0.0)
    else
      match SumTerms(t.databases[L], TotalOf(t, L), p, TermCount(p), n)
      case Err(e) => Err(e)
      case Ok(s) => Ok(n.round3(s))
  }

  /** The running sum is the sum of the surprisals of the terms produced so far. */
  lemma {:induction false} SumTermsAgrees(db: Bucket, total: nat, p: string, m: nat, n: Numerics)
    requires m <= TermCount(p)
    ensures SumTerms(db, total, p, m, n) == SumPrefix(Terms(db, total, p), m, n)
  {
    if m > 0 {
      SumTermsAgrees(db, total, p, m - 1, n);
      TermsUpToAt(db, total, p, TermCount(p), m - 1);
    }
  }

  /** `Score` through the plan: unseen lengths score 0, others the rounded sum of their terms. */
  lemma ScoreByPlan(t: Tables, p: string, n: Numerics)
    ensures Score(t, p, n) ==
      match ScorePlan(t, p)
      case Unseen => Ok(0.0)
      case Scored(ts) =>
        match SumSurprisal(ts, n)
        case Err(e) => Err(e)
        case Ok(s) => Ok(n.round3(s))
  {
    var L := |p|;
    if L in t.databases && TotalOf(t, L) != 0 {
      SumTermsAgrees(t.databases[L], TotalOf(t, L), p, TermCount(p), n);
    }
  }

  /** Once the running sum fails, the score fails with that error. */
  lemma {:induction false} SumTermsErrorSticks(db: Bucket, total: nat, p: string, m: nat, n: Numerics)
    requires m <= TermCount(p) && SumTerms(db, total, p, m, n).Err?
    ensures SumTerms(db, total, p, TermCount(p), n) == SumTerms(db, total, p, m, n)
    decreases TermCount(p) - m
  {
    if m < TermCount(p) {
      SumTermsErrorSticks(db, total, p, m + 1, n);
    }
  }

  // --------------------------------------------------------------- lemmas

  /**
    A password of length L >= 2 gets L-1 terms, and term k reads the pair
    p[k..k+2]: every adjacent pair, the one ending in the last character
    included, is looked up.
   */
  lemma EveryPairLookedUp(db: Bucket, total: nat, p: string, k: nat)
    requires k + 2 <= |p|
    ensures |Terms(db, total, p)| == |p| - 1
    ensures p[k..k + 2] in db ==> Terms(db, total, p)[k].num == db[p[k..k + 2]]
    ensures p[k..k + 2] !in db ==> Terms(db, total, p)[k].num == 1
  {
    TermsUpToAt(db, total, p, TermCount(p), k);
  }

  /** In a well-formed bucket with positive counts every term lies in (0, 1]. */
  lemma TermsInUnitInterval(db: Bucket, total: nat, p: string)
    requires WellFormedBucket(db, total) && PositiveBucket(db) && total >= 1
    ensures var ts := Terms(db, total, p);
      forall k :: 0 <= k < |ts| ==> 0 < ts[k].num <= ts[k].den
  {
    var ts := Terms(db, total, p);
    forall k | 0 <= k < |ts| ensures 0 < ts[k].num <= ts[k].den {
      TermsUpToAt(db, total, p, TermCount(p), k);
      if k == 0 {
        var g0 := p[..if |p| < 2 then |p| else 2];
        if g0 in db {
          if |g0| == 1 {
            UnigramAtMostTotal(db, g0);
          } else {
            UnigramAtMostTotal(db, g0[..1]);
          }
        }
      } else {
        var g2 := p[k..k + 2];
        assert g2[..1] == [p[k]];
      }
    }
  }

  /** Terms with non-zero numerator and denominator never fail; in (0, 1] they sum to a non-negative value. */
  lemma {:induction false} SumPrefixDefined(ts: seq<Ratio>, m: nat, n: Numerics)
    requires m <= |ts|
    requires forall k :: 0 <= k < |ts| ==> 0 < ts[k].num && 0 < ts[k].den
    ensures SumPrefix(ts, m, n).Ok?
    ensures Sane(n) && (forall k :: 0 <= k < |ts| ==> ts[k].num <= ts[k].den) ==> SumPrefix(ts, m, n).value >= 0.0
  {
    if m > 0 {
      SumPrefixDefined(ts, m - 1, n);
      var last := ts[m - 1];
      if Sane(n) && last.num <= last.den {
        assert 0.0 < last.num as real / last.den as real <= 1.0;
      }
    }
  }

  /**
    Scoring against tables trained with positive weights never raises, and
    (for sane numerics) gives a non-negative score.
   */
  lemma ScoreOfTrainedTables(lines: seq<string>, p: string, n: Numerics)
    requires PositiveWeights(Parsed(lines))
    ensures Score(TrainLines(Empty, lines), p, n).Ok?
    ensures Sane(n) ==> Score(TrainLines(Empty, lines), p, n).value >= 0.0
  {
    var t := TrainLines(Empty, lines);
    TrainedTablesValid(lines);
    ScoreByPlan(t, p, n);
    var L := |p|;
    if L in t.databases && TotalOf(t, L) != 0 {
      TermsInUnitInterval(t.databases[L], TotalOf(t, L), p);
      var ts := Terms(t.databases[L], TotalOf(t, L), p);
      SumPrefixDefined(ts, |ts|, n);
    }
  }

  /** Training on passwords of other lengths does not change the score of `p`. */
  lemma ScoreIgnoresOtherLengths(t: Tables, lines: seq<string>, p: string, n: Numerics)
    requires !LengthSeen(Parsed(lines), |p|)
    ensures Score(TrainLines(t, lines), p, n) == Score(t, p, n)
  {
    var t' := TrainLines(t, lines);
    ScoreByPlan(t, p, n);
    ScoreByPlan(t', p, n);
    TrainEntriesCounts(t, Parsed(lines), |p|, []);
    assert ScorePlan(t', p) == ScorePlan(t, p) by {
      if |p| in t.databases {
        assert t'.databases[|p|] == t.databases[|p|] by {
          assert BucketOf(t', |p|) == BucketOf(t, |p|);
        }
      }
    }
  }

  /** A password whose length was never trained scores 0.0. */
  lemma ScoreUnseenLength(lines: seq<string>, p: string, n: Numerics)
    requires !LengthSeen(Parsed(lines), |p|)
    ensures Score(TrainLines(Empty, lines), p, n) == Ok(0.0)
  {
    ScoreIgnoresOtherLengths(Empty, lines, p, n);
  }
}
