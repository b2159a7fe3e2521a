/**
  The length-bucketed frequency tables of the estimator and the training
  step that fills them (lib_SMML.py:48-62).  `databases[L][g]` is the weighted
  number of times gram `g` (one or two characters) was seen in passwords of
  length `L`; `totals[L]` is the weighted number of characters in them.
  A missing key reads as 0, in place of the auto-vivifying `defaultdict`.
 */
module Frequency {
  import opened Wrappers
  import opened Corpus

  type Bucket = map<string, nat>

  /** `databases` and `total_characters` of the estimator. */
  datatype Tables = Tables(databases: map<nat, Bucket>, totals: map<nat, nat>)

  /** The tables of a freshly constructed estimator (lib_SMML.py:14-19). */
  const Empty := Tables(map[], map[])

  function Count(db: Bucket, g: string): nat {
    if g in db then db[g] else 0
  }

  function BucketOf(t: Tables, L: nat): Bucket {
    if L in t.databases then t.databases[L] else map[]
  }

  function TotalOf(t: Tables, L: nat): nat {
    if L in t.totals then t.totals[L] else 0
  }

  /** `db[g] += w` on a `defaultdict(int)`. */
  function AddCount(db: Bucket, g: string, w: nat): Bucket {
    db[g := Count(db, g) + w]
  }

  /** Iteration `i` of the inner training loop: the unigram, then the bigram if one starts here. */
  function AddPosition(db: Bucket, p: string, w: nat, i: nat): Bucket
    requires i < |p|
  {
    var d := AddCount(db, [p[i]], w);
    if i < |p| - 1 then AddCount(d, p[i..i + 2], w) else d
  }

  /** The bucket after iterations `0 .. n-1` of the inner training loop. */
  function AddPrefix(db: Bucket, p: string, w: nat, n: nat): Bucket
    requires n <= |p|
  {
    if n == 0 then db else AddPosition(AddPrefix(db, p, w, n - 1), p, w, n - 1)
  }

  /** Training on one parsed entry. */
  function TrainEntry(t: Tables, e: Entry): Tables {
    var L := |e.password|;
    Tables(
      if L == 0 then t.databases
      else t.databases[L := AddPrefix(BucketOf(t, L), e.password, e.weight, L)],
      t.totals[L := TotalOf(t, L) + L * e.weight])
  }

  /** The entries of the non-blank lines, in order. */
  function Parsed(lines: seq<string>): (es: seq<Entry>)
    ensures forall i :: 0 <= i < |es| ==> es[i].password != []
    ensures |es| <= |lines|
  {
    if lines == [] then []
    else
      var es := Parsed(lines[..|lines| - 1]);
      match ParseLine(lines[|lines| - 1])
      case None => es
      case Some(e) => es + [e]
  }

  function TrainEntries(t: Tables, es: seq<Entry>): Tables {
    if es == [] then t else TrainEntry(TrainEntries(t, es[..|es| - 1]), es[|es| - 1])
  }

  /** `train` over the lines of a corpus (blank lines are skipped). */
  function TrainLines(t: Tables, lines: seq<string>): Tables {
    TrainEntries(t, Parsed(lines))
  }

  /** Training on one more line: a blank line changes nothing, an entry is trained on. */
  lemma TrainLinesSnoc(t: Tables, lines: seq<string>, k: nat)
    requires k < |lines|
    ensures TrainLines(t, lines[..k + 1]) ==
      match ParseLine(lines[k])
      case None => TrainLines(t, lines[..k])
      case Some(e) => TrainEntry(TrainLines(t, lines[..k]), e)
  {
    var pre := lines[..k + 1];
    assert pre[..k] == lines[..k] && pre[k] == lines[k];
    match ParseLine(lines[k])
    case None =>
    case Some(e) =>
      var es := Parsed(lines[..k]) + [e];
      assert Parsed(pre) == es;
      assert es[..|es| - 1] == Parsed(lines[..k]);
  }

  // ------------------------------------------------ reference counts

  /** Number of start positions `i < n` at which gram `g` occurs in `p`. */
  function Occurrences(p: string, g: string, n: nat): nat
    requires n <= |p|
  {
    if n == 0 then 0
    else
      var i := n - 1;
      Occurrences(p, g, i) + (if i + |g| <= |p| && p[i..i + |g|] == g then 1 else 0)
  }

  predicate IsGram(g: string) {
    1 <= |g| <= 2
  }

  /** What an entry contributes to `databases[L][g]`. */
  function EntryGramCount(e: Entry, L: nat, g: string): nat {
    if |e.password| == L && IsGram(g) then e.weight * Occurrences(e.password, g, L) else 0
  }

  /** Whether an entry makes `g` a key of `databases[L]` (even with weight 0). */
  predicate EntryMentions(e: Entry, L: nat, g: string) {
    |e.password| == L && IsGram(g) && Occurrences(e.password, g, L) > 0
  }

  function GramTotal(es: seq<Entry>, L: nat, g: string): nat {
    if es == [] then 0 else GramTotal(es[..|es| - 1], L, g) + EntryGramCount(es[|es| - 1], L, g)
  }

  predicate Mentioned(es: seq<Entry>, L: nat, g: string) {
    es != [] && (Mentioned(es[..|es| - 1], L, g) || EntryMentions(es[|es| - 1], L, g))
  }

  function CharTotal(es: seq<Entry>, L: nat): nat {
    if es == [] then 0
    else CharTotal(es[..|es| - 1], L) + (if |es[|es| - 1].password| == L then L * es[|es| - 1].weight else 0)
  }

  predicate LengthSeen(es: seq<Entry>, L: nat) {
    es != [] && (LengthSeen(es[..|es| - 1], L) || |es[|es| - 1].password| == L)
  }

  // ------------------------------------------------ one entry

  lemma AddPositionCounts(db: Bucket, p: string, w: nat, i: nat, g: string)
    requires i < |p|
    ensures var hit := if IsGram(g) && i + |g| <= |p| && p[i..i + |g|] == g then 1 else 0;
      && Count(AddPosition(db, p, w, i), g) == Count(db, g) + w * hit
      && (g in AddPosition(db, p, w, i) <==> g in db || hit == 1)
  {
    assert [p[i]] == p[i..i + 1];
  }

  lemma MulDistributes(w: nat, a: nat, b: nat)
    ensures w * (a + b) == w * a + w * b
  {
  }

  /** The inner loop adds `w` per occurrence of a gram and touches no other key. */
  lemma {:induction false} AddPrefixCounts(db: Bucket, p: string, w: nat, n: nat, g: string)
    requires n <= |p|
    ensures Count(AddPrefix(db, p, w, n), g) == Count(db, g) + (if IsGram(g) then w * Occurrences(p, g, n) else 0)
    ensures g in AddPrefix(db, p, w, n) <==> g in db || (IsGram(g) && Occurrences(p, g, n) > 0)
  {
    if n > 0 {
      var i := n - 1;
      AddPrefixCounts(db, p, w, i, g);
      AddPositionCounts(AddPrefix(db, p, w, i), p, w, i, g);
      var hit := if i + |g| <= |p| && p[i..i + |g|] == g then 1 else 0;
      assert Occurrences(p, g, n) == Occurrences(p, g, i) + hit;
      MulDistributes(w, Occurrences(p, g, i), hit);
    }
  }

  /**
    Training one entry of length L >= 1 adds L*w to totals[L] and w per
    occurrence to each gram of databases[L]; every other bucket, total and
    key is left as it was.
   */
  lemma TrainEntryEffect(t: Tables, e: Entry, L: nat, g: string)
    requires e.password != []
    ensures var t' := TrainEntry(t, e);
      && Count(BucketOf(t', L), g) == Count(BucketOf(t, L), g) + EntryGramCount(e, L, g)
      && (g in BucketOf(t', L) <==> g in BucketOf(t, L) || EntryMentions(e, L, g))
      && TotalOf(t', L) == TotalOf(t, L) + (if |e.password| == L then L * e.weight else 0)
      && (L in t'.totals <==> L in t.totals || |e.password| == L)
      && (L in t'.databases <==> L in t.databases || |e.password| == L)
      && (|e.password| != L ==> BucketOf(t', L) == BucketOf(t, L))
  {
    if |e.password| == L {
      AddPrefixCounts(BucketOf(t, L), e.password, e.weight, L, g);
    }
  }

  // ------------------------------------------------ a whole corpus

  lemma {:induction false} TrainEntriesCounts(t: Tables, es: seq<Entry>, L: nat, g: string)
    requires forall i :: 0 <= i < |es| ==> es[i].password != []
    ensures var t' := TrainEntries(t, es);
      && Count(BucketOf(t', L), g) == Count(BucketOf(t, L), g) + GramTotal(es, L, g)
      && (g in BucketOf(t', L) <==> g in BucketOf(t, L) || Mentioned(es, L, g))
      && TotalOf(t', L) == TotalOf(t, L) + CharTotal(es, L)
      && (L in t'.totals <==> L in t.totals || LengthSeen(es, L))
      && (L in t'.databases <==> L in t.databases || LengthSeen(es, L))
      && (!LengthSeen(es, L) ==> BucketOf(t', L) == BucketOf(t, L) && TotalOf(t', L) == TotalOf(t, L))
  {
    if es != [] {
      var init := es[..|es| - 1];
      TrainEntriesCounts(t, init, L, g);
      TrainEntryEffect(TrainEntries(t, init), es[|es| - 1], L, g);
    }
  }

  lemma {:induction false} ParsedConcat(a: seq<string>, b: seq<string>)
    ensures Parsed(a + b) == Parsed(a) + Parsed(b)
  {
    if b == [] {
      assert a + b == a;
    } else {
      var b' := b[..|b| - 1];
      assert (a + b)[..|a + b| - 1] == a + b';
      assert (a + b)[|a + b| - 1] == b[|b| - 1];
      ParsedConcat(a, b');
    }
  }

  lemma {:induction false} TrainEntriesConcat(t: Tables, a: seq<Entry>, b: seq<Entry>)
    ensures TrainEntries(t, a + b) == TrainEntries(TrainEntries(t, a), b)
  {
    if b == [] {
      assert a + b == a;
    } else {
      var b' := b[..|b| - 1];
      assert (a + b)[..|a + b| - 1] == a + b';
      assert (a + b)[|a + b| - 1] == b[|b| - 1];
      TrainEntriesConcat(t, a, b');
    }
  }

  /** Calling `train` on corpus A and then on corpus B is training on A followed by B. */
  lemma TrainSequentially(t: Tables, a: seq<string>, b: seq<string>)
    ensures TrainLines(t, a + b) == TrainLines(TrainLines(t, a), b)
  {
    ParsedConcat(a, b);
    TrainEntriesConcat(t, Parsed(a), Parsed(b));
  }

  lemma {:induction false} CorpusSumsConcat(a: seq<Entry>, b: seq<Entry>, L: nat, g: string)
    ensures GramTotal(a + b, L, g) == GramTotal(a, L, g) + GramTotal(b, L, g)
    ensures Mentioned(a + b, L, g) <==> Mentioned(a, L, g) || Mentioned(b, L, g)
    ensures CharTotal(a + b, L) == CharTotal(a, L) + CharTotal(b, L)
    ensures LengthSeen(a + b, L) <==> LengthSeen(a, L) || LengthSeen(b, L)
  {
    if b == [] {
      assert a + b == a;
    } else {
      var b' := b[..|b| - 1];
      assert (a + b)[..|a + b| - 1] == a + b';
      assert (a + b)[|a + b| - 1] == b[|b| - 1];
      CorpusSumsConcat(a, b', L, g);
    }
  }

  /**
    Counts are additive: training a fresh estimator on A ++ B gives, for every
    length and gram, the sum of the counts from training on A and on B alone,
    and a key is present exactly when it is present in one of the two.
   */
  lemma TrainAdditive(a: seq<string>, b: seq<string>, L: nat, g: string)
    ensures var ab, ta, tb := TrainLines(Empty, a + b), TrainLines(Empty, a), TrainLines(Empty, b);
      && Count(BucketOf(ab, L), g) == Count(BucketOf(ta, L), g) + Count(BucketOf(tb, L), g)
      && (g in BucketOf(ab, L) <==> g in BucketOf(ta, L) || g in BucketOf(tb, L))
      && TotalOf(ab, L) == TotalOf(ta, L) + TotalOf(tb, L)
      && (L in ab.databases <==> L in ta.databases || L in tb.databases)
      && (L in ab.totals <==> L in ta.totals || L in tb.totals)
  {
    ParsedConcat(a, b);
    CorpusSumsConcat(Parsed(a), Parsed(b), L, g);
    TrainEntriesCounts(Empty, Parsed(a + b), L, g);
    TrainEntriesCounts(Empty, Parsed(a), L, g);
    TrainEntriesCounts(Empty, Parsed(b), L, g);
  }

  function DoubledBucket(db: Bucket): (d: Bucket)
    ensures d.Keys == db.Keys
  {
    map g | g in db :: 2 * db[g]
  }

  /** Every bucket and total of `t` doubled. */
  function Doubled(t: Tables): (d: Tables)
    ensures d.databases.Keys == t.databases.Keys && d.totals.Keys == t.totals.Keys
  {
    Tables(map L | L in t.databases :: DoubledBucket(t.databases[L]),
           map L | L in t.totals :: 2 * t.totals[L])
  }

  /** Training a fresh estimator twice on the same corpus doubles every entry of both tables. */
  lemma TrainTwiceDoubles(a: seq<string>)
    ensures TrainLines(TrainLines(Empty, a), a) == Doubled(TrainLines(Empty, a))
  {
    var once := TrainLines(Empty, a);
    var twice := TrainLines(once, a);
    var d := Doubled(once);
    forall L ensures (L in twice.totals <==> L in d.totals) && (L in twice.totals ==> twice.totals[L] == d.totals[L])
    {
      TrainEntriesCounts(Empty, Parsed(a), L, []);
      TrainEntriesCounts(once, Parsed(a), L, []);
    }
    assert twice.totals == d.totals;
    forall L | L in twice.databases
      ensures L in d.databases && twice.databases[L] == d.databases[L]
    {
      TrainEntriesCounts(Empty, Parsed(a), L, []);
      TrainEntriesCounts(once, Parsed(a), L, []);
      forall g ensures (g in twice.databases[L] <==> g in d.databases[L])
        && (g in twice.databases[L] ==> twice.databases[L][g] == d.databases[L][g])
      {
        TrainEntriesCounts(Empty, Parsed(a), L, g);
        TrainEntriesCounts(once, Parsed(a), L, g);
      }
    }
    forall L ensures L in twice.databases <==> L in d.databases {
      TrainEntriesCounts(Empty, Parsed(a), L, []);
      TrainEntriesCounts(once, Parsed(a), L, []);
    }
    assert twice.databases == d.databases;
  }

  // ------------------------------------------------ table invariants

  ghost function Pick(keys: set<string>): (k: string)
    requires keys != {}
    ensures k in keys
  {
    var k :| k in keys; k
  }

  /** The sum of `db[k]` over `keys`. */
  ghost function SumOver(db: Bucket, keys: set<string>): nat
    requires keys <= db.Keys
    decreases keys
  {
    if keys == {} then 0 else var k := Pick(keys); db[k] + SumOver(db, keys - {k})
  }

  ghost function Unigrams(db: Bucket): set<string> {
    set g | g in db && |g| == 1
  }

  /** The sum of the unigram counts of a bucket. */
  ghost function UnigramTotal(db: Bucket): nat {
    SumOver(db, Unigrams(db))
  }

  /**
    The invariants of one length bucket: every key is a gram of one or two
    characters, every bigram's leading character is a key whose count is at
    least the bigram's, and the unigram counts add up to the bucket's total.
   */
  ghost predicate WellFormedBucket(db: Bucket, total: nat) {
    && (forall g :: g in db ==> IsGram(g))
    && (forall g :: g in db && |g| == 2 ==> g[..1] in db && db[g[..1]] >= db[g])
    && UnigramTotal(db) == total
  }

  ghost predicate Valid(t: Tables) {
    && t.databases.Keys == t.totals.Keys
    && forall L :: L in t.databases ==> WellFormedBucket(t.databases[L], t.totals[L])
  }

  /** All counts and totals are at least 1 (what positive weights give). */
  ghost predicate Positive(t: Tables) {
    forall L :: L in t.databases ==>
      && TotalOf(t, L) >= 1
      && PositiveBucket(t.databases[L])
  }

  predicate PositiveWeights(es: seq<Entry>) {
    forall i :: 0 <= i < |es| ==> es[i].weight >= 1
  }

  lemma {:induction false} SumOverRemove(db: Bucket, keys: set<string>, k: string)
    requires keys <= db.Keys && k in keys
    ensures SumOver(db, keys) == db[k] + SumOver(db, keys - {k})
    decreases keys
  {
    var j := Pick(keys);
    if j != k {
      calc {
        SumOver(db, keys);
        db[j] + SumOver(db, keys - {j});
        { SumOverRemove(db, keys - {j}, k); }
        db[j] + db[k] + SumOver(db, keys - {j} - {k});
        { assert keys - {j} - {k} == keys - {k} - {j};
          SumOverRemove(db, keys - {k}, j); }
        db[k] + SumOver(db, keys - {k});
      }
    }
  }

  lemma {:induction false} SumOverAgree(d1: Bucket, d2: Bucket, keys: set<string>)
    requires keys <= d1.Keys && keys <= d2.Keys
    requires forall k :: k in keys ==> d1[k] == d2[k]
    ensures SumOver(d1, keys) == SumOver(d2, keys)
    decreases keys
  {
    if keys != {} {
      SumOverAgree(d1, d2, keys - {Pick(keys)});
    }
  }

  /** A unigram's count never exceeds the bucket's unigram total. */
  lemma UnigramAtMostTotal(db: Bucket, g: string)
    requires g in db && |g| == 1
    ensures db[g] <= UnigramTotal(db)
  {
    SumOverRemove(db, Unigrams(db), g);
  }

  lemma UnigramTotalAddCount(db: Bucket, g: string, w: nat)
    ensures UnigramTotal(AddCount(db, g, w)) == UnigramTotal(db) + (if |g| == 1 then w else 0)
  {
    var d := AddCount(db, g, w);
    if |g| != 1 {
      assert Unigrams(d) == Unigrams(db);
      SumOverAgree(d, db, Unigrams(db));
    } else if g in db {
      assert Unigrams(d) == Unigrams(db);
      SumOverRemove(d, Unigrams(d), g);
      SumOverRemove(db, Unigrams(db), g);
      SumOverAgree(d, db, Unigrams(db) - {g});
    } else {
      assert Unigrams(d) == Unigrams(db) + {g};
      SumOverRemove(d, Unigrams(d), g);
      assert Unigrams(d) - {g} == Unigrams(db);
      SumOverAgree(d, db, Unigrams(db));
    }
  }

  lemma UnigramTotalAddPosition(d: Bucket, p: string, w: nat, i: nat)
    requires i < |p|
    ensures UnigramTotal(AddPosition(d, p, w, i)) == UnigramTotal(d) + w
  {
    var d1 := AddCount(d, [p[i]], w);
    UnigramTotalAddCount(d, [p[i]], w);
    if i < |p| - 1 {
      UnigramTotalAddCount(d1, p[i..i + 2], w);
    }
  }

  /** The inner loop over a prefix of n characters adds n*w to the unigram total. */
  lemma {:induction false} UnigramTotalAddPrefix(db: Bucket, p: string, w: nat, n: nat)
    requires n <= |p|
    ensures UnigramTotal(AddPrefix(db, p, w, n)) == UnigramTotal(db) + n * w
  {
    if n > 0 {
      UnigramTotalAddPrefix(db, p, w, n - 1);
      UnigramTotalAddPosition(AddPrefix(db, p, w, n - 1), p, w, n - 1);
      assert n * w == (n - 1) * w + w;
    }
  }

  /** Wherever a bigram starts, its leading character occurs too. */
  lemma {:induction false} BigramAtMostLeading(p: string, g: string, n: nat)
    requires n <= |p| && |g| == 2
    ensures Occurrences(p, g, n) <= Occurrences(p, g[..1], n)
  {
    if n > 0 {
      var i := n - 1;
      BigramAtMostLeading(p, g, i);
      if i + 2 <= |p| && p[i..i + 2] == g {
        assert p[i..i + 1] == g[..1];
      }
    }
  }

  lemma MulMonotone(w: nat, a: nat, b: nat)
    requires a <= b
    ensures w * a <= w * b
  {
  }

  /** The inner loop over a whole password keeps a bucket well formed. */
  lemma AddPasswordKeepsWellFormed(db: Bucket, total: nat, p: string, w: nat)
    requires WellFormedBucket(db, total)
    ensures WellFormedBucket(AddPrefix(db, p, w, |p|), total + |p| * w)
  {
    var db' := AddPrefix(db, p, w, |p|);
    forall g | g in db' ensures IsGram(g) {
      AddPrefixCounts(db, p, w, |p|, g);
    }
    forall g | g in db' && |g| == 2 ensures g[..1] in db' && db'[g[..1]] >= db'[g] {
      AddPrefixCounts(db, p, w, |p|, g);
      AddPrefixCounts(db, p, w, |p|, g[..1]);
      BigramAtMostLeading(p, g, |p|);
      MulMonotone(w, Occurrences(p, g, |p|), Occurrences(p, g[..1], |p|));
    }
    UnigramTotalAddPrefix(db, p, w, |p|);
  }

  ghost predicate PositiveBucket(db: Bucket) {
    forall g :: g in db ==> db[g] >= 1
  }

  /** With a positive weight, every key the inner loop creates or touches has count at least 1. */
  lemma AddPasswordKeepsPositive(db: Bucket, p: string, w: nat)
    requires w >= 1 && PositiveBucket(db)
    ensures PositiveBucket(AddPrefix(db, p, w, |p|))
  {
    var db' := AddPrefix(db, p, w, |p|);
    forall g | g in db' ensures db'[g] >= 1 {
      AddPrefixCounts(db, p, w, |p|, g);
      if g in db {
        assert Count(db, g) >= 1;
      } else {
        var o := Occurrences(p, g, |p|);
        assert IsGram(g) && o >= 1;
        MulMonotone(w, 1, o);
        assert Count(db', g) >= w * o;
      }
    }
  }

  /** Training one entry changes bucket |password| only, and keeps the two key sets equal. */
  lemma TrainEntryFrame(t: Tables, e: Entry)
    requires t.databases.Keys == t.totals.Keys && e.password != []
    ensures var t' := TrainEntry(t, e);
      && t'.databases.Keys == t'.totals.Keys
      && t'.databases[|e.password|] == AddPrefix(BucketOf(t, |e.password|), e.password, e.weight, |e.password|)
      && t'.totals[|e.password|] == TotalOf(t, |e.password|) + |e.password| * e.weight
      && forall L :: L in t'.databases && L != |e.password| ==>
           t'.databases[L] == t.databases[L] && t'.totals[L] == t.totals[L]
  {
  }

  /** Under the invariants, the bucket a length reads (empty when absent) is well formed. */
  lemma BucketOfWellFormed(t: Tables, L: nat)
    requires Valid(t)
    ensures WellFormedBucket(BucketOf(t, L), TotalOf(t, L))
  {
    if L !in t.databases {
      assert Unigrams(map[]) == {};
    }
  }

  /** Training one entry keeps the table invariants. */
  lemma TrainEntryKeepsValid(t: Tables, e: Entry)
    requires Valid(t) && e.password != []
    ensures Valid(TrainEntry(t, e))
  {
    var L := |e.password|;
    var t' := TrainEntry(t, e);
    BucketOfWellFormed(t, L);
    TrainEntryFrame(t, e);
    AddPasswordKeepsWellFormed(BucketOf(t, L), TotalOf(t, L), e.password, e.weight);
    forall L' | L' in t'.databases
      ensures WellFormedBucket(t'.databases[L'], t'.totals[L'])
    {
      if L' != L {
        assert t'.databases[L'] == t.databases[L'] && t'.totals[L'] == t.totals[L'];
      }
    }
  }

  /** Training one entry of positive weight keeps every count and total at least 1. */
  lemma TrainEntryKeepsPositive(t: Tables, e: Entry)
    requires t.databases.Keys == t.totals.Keys && Positive(t) && e.password != [] && e.weight >= 1
    ensures Positive(TrainEntry(t, e))
  {
    var L := |e.password|;
    var t' := TrainEntry(t, e);
    TrainEntryFrame(t, e);
    AddPasswordKeepsPositive(BucketOf(t, L), e.password, e.weight);
    MulMonotone(L, 1, e.weight);
    forall L' | L' in t'.databases
      ensures TotalOf(t', L') >= 1 && PositiveBucket(t'.databases[L'])
    {
    }
  }

  lemma {:induction false} TrainEntriesKeepsValid(t: Tables, es: seq<Entry>)
    requires Valid(t)
    requires forall i :: 0 <= i < |es| ==> es[i].password != []
    ensures Valid(TrainEntries(t, es))
    ensures Positive(t) && PositiveWeights(es) ==> Positive(TrainEntries(t, es))
  {
    if es != [] {
      var init := es[..|es| - 1];
      TrainEntriesKeepsValid(t, init);
      TrainEntryKeepsValid(TrainEntries(t, init), es[|es| - 1]);
      if Positive(t) && PositiveWeights(es) {
        assert PositiveWeights(init);
        TrainEntryKeepsPositive(TrainEntries(t, init), es[|es| - 1]);
      }
    }
  }

  /** Training preserves the table invariants, whatever the tables held before. */
  lemma TrainLinesKeepsValid(t: Tables, lines: seq<string>)
    ensures Valid(t) ==> Valid(TrainLines(t, lines))
  {
    if Valid(t) {
      TrainEntriesKeepsValid(t, Parsed(lines));
    }
  }

  /**
    After training an estimator on any corpus, starting from the empty tables,
    the table invariants hold; with positive weights every count is at least 1.
   */
  lemma TrainedTablesValid(lines: seq<string>)
    ensures Valid(TrainLines(Empty, lines))
    ensures PositiveWeights(Parsed(lines)) ==> Positive(TrainLines(Empty, lines))
  {
    TrainEntriesKeepsValid(Empty, Parsed(lines));
  }
}
