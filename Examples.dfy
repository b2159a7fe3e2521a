/** Worked examples: the two-line corpus "2 abab" / "cdcd", and a zero-weight line. */
module Examples {
  import opened Wrappers
  import opened Corpus
  import opened Frequency
  import opened Scoring

  lemma ParsedTwoLines(a: string, b: string, ea: Entry, eb: Entry)
    requires ParseLine(a) == Some(ea) && ParseLine(b) == Some(eb)
    ensures Parsed([a, b]) == [ea, eb]
  {
    assert [a, b][..1] == [a] && [a][..0] == [];
  }

  /** The counts after training a fresh estimator on two entries. */
  lemma TrainTwoEntries(e1: Entry, e2: Entry, L: nat, g: string)
    requires e1.password != [] && e2.password != []
    ensures var t := TrainEntries(Empty, [e1, e2]);
      && Count(BucketOf(t, L), g) == EntryGramCount(e1, L, g) + EntryGramCount(e2, L, g)
      && (g in BucketOf(t, L) <==> EntryMentions(e1, L, g) || EntryMentions(e2, L, g))
      && TotalOf(t, L) == (if |e1.password| == L then L * e1.weight else 0)
                          + (if |e2.password| == L then L * e2.weight else 0)
      && (L in t.databases <==> |e1.password| == L || |e2.password| == L)
  {
    var es := [e1, e2];
    assert es[..1] == [e1] && [e1][..0] == [];
    assert GramTotal([e1], L, g) == EntryGramCount(e1, L, g);
    assert Mentioned([e1], L, g) == EntryMentions(e1, L, g);
    assert CharTotal([e1], L) == (if |e1.password| == L then L * e1.weight else 0);
    assert LengthSeen([e1], L) == (|e1.password| == L);
    TrainEntriesCounts(Empty, es, L, g);
  }

  lemma ParseExampleLines()
    ensures Parsed(["2 abab", "cdcd"]) == [Entry("abab", 2), Entry("cdcd", 1)]
  {
    assert IsToken("abab") && IsToken("cdcd");
    SplitJoin(["abab"]);
    assert Numeral(2) == "2";
    assert FormatLine(Entry("abab", 2)) == "2 abab";
    ParseFormatLine(Entry("abab", 2));
    ParseBarePassword("cdcd");
    ParsedTwoLines("2 abab", "cdcd", Entry("abab", 2), Entry("cdcd", 1));
  }

  lemma OccurrencesInAbab()
    ensures Occurrences("abab", "ab", 4) == 2 && Occurrences("abab", "ba", 4) == 1
  {
    assert "abab"[0..2] == "ab" && "abab"[2..4] == "ab" && "abab"[1..3] == "ba";
  }

  lemma UnigramsInAbab()
    ensures Occurrences("abab", "a", 4) == 2 && Occurrences("abab", "b", 4) == 2
  {
    assert "abab"[0..1] == "a" && "abab"[1..2] == "b" && "abab"[2..3] == "a" && "abab"[3..4] == "b";
  }

  /** A gram whose first character appears nowhere in p[..n] does not occur there. */
  lemma {:induction false} OccurrencesAbsent(p: string, g: string, n: nat)
    requires n <= |p| && g != []
    requires forall i :: 0 <= i < n ==> p[i] != g[0]
    ensures Occurrences(p, g, n) == 0
  {
    if n > 0 {
      OccurrencesAbsent(p, g, n - 1);
      var i := n - 1;
      if i + |g| <= |p| {
        assert p[i..i + |g|][0] == p[i];
      }
    }
  }

  lemma OccurrencesInCdcd()
    ensures Occurrences("cdcd", "ab", 4) == 0 && Occurrences("cdcd", "ba", 4) == 0
    ensures Occurrences("cdcd", "a", 4) == 0 && Occurrences("cdcd", "b", 4) == 0
  {
    OccurrencesAbsent("cdcd", "ab", 4);
    OccurrencesAbsent("cdcd", "ba", 4);
    OccurrencesAbsent("cdcd", "a", 4);
    OccurrencesAbsent("cdcd", "b", 4);
  }

  /** The counts of the length-4 bucket after training on the example corpus. */
  lemma ExampleBigramCounts(t: Tables)
    requires t == TrainEntries(Empty, [Entry("abab", 2), Entry("cdcd", 1)])
    ensures Count(BucketOf(t, 4), "ab") == 4 && Count(BucketOf(t, 4), "ba") == 2
  {
    OccurrencesInAbab();
    OccurrencesInCdcd();
    TrainTwoEntries(Entry("abab", 2), Entry("cdcd", 1), 4, "ab");
    TrainTwoEntries(Entry("abab", 2), Entry("cdcd", 1), 4, "ba");
  }

  lemma ExampleUnigramCounts(t: Tables)
    requires t == TrainEntries(Empty, [Entry("abab", 2), Entry("cdcd", 1)])
    ensures Count(BucketOf(t, 4), "a") == 4 && Count(BucketOf(t, 4), "b") == 4
  {
    UnigramsInAbab();
    OccurrencesInCdcd();
    TrainTwoEntries(Entry("abab", 2), Entry("cdcd", 1), 4, "a");
    TrainTwoEntries(Entry("abab", 2), Entry("cdcd", 1), 4, "b");
  }

  lemma ExampleTotal(t: Tables)
    requires t == TrainEntries(Empty, [Entry("abab", 2), Entry("cdcd", 1)])
    ensures 4 in t.databases && TotalOf(t, 4) == 12
  {
    TrainTwoEntries(Entry("abab", 2), Entry("cdcd", 1), 4, "a");
  }

  /** The terms of any four-character password. */
  lemma TermsOfFour(db: Bucket, total: nat, p: string)
    requires |p| == 4
    ensures Terms(db, total, p) == [FirstTerm(db, total, p), MiddleTerm(db, total, p, 1), MiddleTerm(db, total, p, 2)]
  {
    TermsUpToAt(db, total, p, 3, 0);
    TermsUpToAt(db, total, p, 3, 1);
    TermsUpToAt(db, total, p, 3, 2);
  }

  /**
    After training on "2 abab" and "cdcd" the bucket for length 4 holds
    a:4 b:4 ab:4 ba:2 and its total is 12, so "abab" is scored with the terms
    4/12, 2/4 and 4/4 (whose product is 1/6, about 2.585 bits).
   */
  lemma ExampleCorpusTerms()
    ensures var t := TrainLines(Empty, ["2 abab", "cdcd"]);
      && TotalOf(t, 4) == 12
      && ScorePlan(t, "abab") == Scored([Ratio(4, 12), Ratio(2, 4), Ratio(4, 4)])
  {
    ParseExampleLines();
    var t := TrainEntries(Empty, [Entry("abab", 2), Entry("cdcd", 1)]);
    ExampleTotal(t);
    ExampleBigramCounts(t);
    ExampleUnigramCounts(t);
    AbabTerms(t);
  }

  lemma AbabTerms(t: Tables)
    requires 4 in t.databases && TotalOf(t, 4) == 12
    requires Count(BucketOf(t, 4), "ab") == 4 && Count(BucketOf(t, 4), "ba") == 2
    requires Count(BucketOf(t, 4), "a") == 4 && Count(BucketOf(t, 4), "b") == 4
    ensures ScorePlan(t, "abab") == Scored([Ratio(4, 12), Ratio(2, 4), Ratio(4, 4)])
  {
    var db := t.databases[4];
    assert db == BucketOf(t, 4);
    TermsOfFour(db, 12, "abab");
    assert "abab"[..2] == "ab" && "abab"[1..3] == "ba" && "abab"[2..4] == "ab";
    assert ["abab"[1]] == "b" && ["abab"[2]] == "a";
  }

  lemma ZeroWeightLines()
    ensures Parsed(["0 ab", "cd"]) == [Entry("ab", 0), Entry("cd", 1)]
  {
    assert IsToken("ab") && IsToken("cd");
    SplitJoin(["ab"]);
    assert Numeral(0) == "0";
    assert FormatLine(Entry("ab", 0)) == "0 ab";
    ParseFormatLine(Entry("ab", 0));
    ParseBarePassword("cd");
    ParsedTwoLines("0 ab", "cd", Entry("ab", 0), Entry("cd", 1));
  }

  lemma ZeroWeightBucket(t: Tables)
    requires t == TrainEntries(Empty, [Entry("ab", 0), Entry("cd", 1)])
    ensures 2 in t.databases && TotalOf(t, 2) == 2
    ensures "ab" in t.databases[2] && t.databases[2]["ab"] == 0
  {
    assert "ab"[0..2] == "ab" && "cd"[0..2] == "cd";
    assert Occurrences("ab", "ab", 2) == 1 && Occurrences("cd", "ab", 2) == 0;
    TrainTwoEntries(Entry("ab", 0), Entry("cd", 1), 2, "ab");
  }

  /**
    A weight of 0 is accepted ("0 ab"), which creates keys with count 0; with
    a second line making the total non-zero, scoring "ab" takes log2(0 / 2)
    and fails with a math domain error.
   */
  lemma ZeroWeightScoreFails(n: Numerics)
    ensures Score(TrainLines(Empty, ["0 ab", "cd"]), "ab", n) == Err(MathDomain)
  {
    ZeroWeightLines();
    var t := TrainEntries(Empty, [Entry("ab", 0), Entry("cd", 1)]);
    ZeroWeightBucket(t);
    ZeroCountFails(t, n);
  }

  lemma ZeroCountFails(t: Tables, n: Numerics)
    requires 2 in t.databases && TotalOf(t, 2) == 2
    requires "ab" in t.databases[2] && t.databases[2]["ab"] == 0
    ensures Score(t, "ab", n) == Err(MathDomain)
  {
    assert "ab"[..2] == "ab";
    assert FirstTerm(t.databases[2], 2, "ab") == Ratio(0, 2);
    assert SumTerms(t.databases[2], 2, "ab", 1, n) == Err(MathDomain);
  }
}
