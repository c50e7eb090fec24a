/**
 * Properties of the report the scoring engine builds: the score scale, the
 * ranges of the category and overall scores, the weighted mean behind the
 * overall score, the risk tiers, the shape of the recommendation list, and
 * the ordering of the category scores in the returned report.
 */
module ReportProperties {
  import opened Wrappers
  import opened QuizData
  import opened StringOrder
  import opened ReportUtils

  // ---------------------------------------------------------------------
  // The answer scale
  // ---------------------------------------------------------------------

  /** The frequency scale: four labelled steps, and 50 for any other answer. */
  lemma FrequencyScale(iqAnswers: map<int, string>, questionId: int, answer: string)
    ensures GetScoreForAnswer(iqAnswers, questionId, "Never", "frequency") == Some(100)
    ensures GetScoreForAnswer(iqAnswers, questionId, "Sometimes", "frequency") == Some(50)
    ensures GetScoreForAnswer(iqAnswers, questionId, "Often", "frequency") == Some(20)
    ensures GetScoreForAnswer(iqAnswers, questionId, "Always", "frequency") == Some(10)
    ensures answer != "Never" && answer != "Sometimes" && answer != "Often" && answer != "Always" ==>
      GetScoreForAnswer(iqAnswers, questionId, answer, "frequency") == Some(50)
  {
  }

  /** Against the catalog's key, only the exact keyed text is a correct reasoning answer. */
  lemma IqAgainstCatalogKey(answer: string)
    ensures GetScoreForAnswer(IQ_ANSWERS, 34, answer, "iq") == if answer == "Cube" then Some(100) else Some(30)
    ensures GetScoreForAnswer(IQ_ANSWERS, 34, "cube", "iq") == Some(30)
    ensures GetScoreForAnswer(IQ_ANSWERS, 2, "Cube", "iq") == Some(30)
  {
    assert 2 !in IQ_ANSWERS;
  }

  /** Every score in a category's list is a value of the answer scale. */
  lemma {:induction false} ScoresInRange(iqAnswers: map<int, string>, answers: map<int, string>, qs: seq<Question>, category: string)
    decreases |qs|
    ensures forall i | 0 <= i < |ScoresIn(iqAnswers, answers, qs, category)| :: 10 <= ScoresIn(iqAnswers, answers, qs, category)[i] <= 100
  {
    if qs != [] {
      ScoresInRange(iqAnswers, answers, qs[..|qs| - 1], category);
    }
  }

  // ---------------------------------------------------------------------
  // Category scores
  // ---------------------------------------------------------------------

  /** `x` is the rounded mean of its category's non-empty score list, counts it, and lies in [10, 100]. */
  predicate EntryHolds(iqAnswers: map<int, string>, answers: map<int, string>, qs: seq<Question>, x: CategoryScore)
  {
    var s := ScoresIn(iqAnswers, answers, qs, x.category);
    |s| > 0 && x.maxQuestions == |s| && x.score == MeanRounded(s) && 10 <= x.score <= 100
  }

  lemma BucketScoresAt(iqAnswers: map<int, string>, answers: map<int, string>, qs: seq<Question>, i: int)
    requires 0 <= i < |Buckets(iqAnswers, answers, qs)|
    ensures Buckets(iqAnswers, answers, qs)[i].scores == ScoresIn(iqAnswers, answers, qs, Buckets(iqAnswers, answers, qs)[i].category)
  {
    BucketsHoldScores(iqAnswers, answers, qs);
  }

  /** Each unsorted category score is the rounded mean of its category's scores and lies in [10, 100]. */
  lemma CategoryScoresFromBuckets(iqAnswers: map<int, string>, answers: map<int, string>, qs: seq<Question>)
    ensures forall i | 0 <= i < |CategoryScores(Buckets(iqAnswers, answers, qs))| ::
      EntryHolds(iqAnswers, answers, qs, CategoryScores(Buckets(iqAnswers, answers, qs))[i])
  {
    var bs := Buckets(iqAnswers, answers, qs);
    var cs := CategoryScores(bs);
    assert |cs| == |bs|;
    forall i | 0 <= i < |cs| ensures EntryHolds(iqAnswers, answers, qs, cs[i]) {
      var s := bs[i].scores;
      BucketScoresAt(iqAnswers, answers, qs, i);
      assert cs[i] == CategoryScore(bs[i].category, MeanRounded(s), |s|);
      ScoresInRange(iqAnswers, answers, qs, bs[i].category);
      SumBounds(s, 10, 100);
      RoundDivBounds(Sum(s), |s|, 10, 100);
    }
  }

  lemma {:induction false} TotalQuestionsOfBuckets(bs: seq<Bucket>)
    requires NonEmptyBuckets(bs)
    ensures TotalQuestions(CategoryScores(bs)) == TotalSize(bs)
  {
    if bs != [] {
      assert CategoryScores(bs)[1..] == CategoryScores(bs[1..]);
      TotalQuestionsOfBuckets(bs[1..]);
    }
  }

  lemma {:induction false} AllScoresRange(cs: seq<CategoryScore>, lo: int, hi: int)
    requires CountsNonNegative(cs)
    requires forall i | 0 <= i < |cs| :: lo <= cs[i].score <= hi
    ensures forall k | 0 <= k < |AllScores(cs)| :: lo <= AllScores(cs)[k] <= hi
  {
    if cs != [] {
      AllScoresRange(cs[1..], lo, hi);
      var head := Repeat(cs[0].score, cs[0].maxQuestions);
      forall k | 0 <= k < |AllScores(cs)| ensures lo <= AllScores(cs)[k] <= hi {
        if k >= |head| {
          assert AllScores(cs)[k] == AllScores(cs[1..])[k - |head|];
        }
      }
    }
  }

  // ---------------------------------------------------------------------
  // The sort keeps the totals and the categories
  // ---------------------------------------------------------------------

  lemma {:induction false} TotalsAppend(a: seq<CategoryScore>, b: seq<CategoryScore>)
    ensures TotalQuestions(a + b) == TotalQuestions(a) + TotalQuestions(b)
    ensures WeightedSum(a + b) == WeightedSum(a) + WeightedSum(b)
  {
    if a == [] {
      assert a + b == b;
    } else {
      assert (a + b)[1..] == a[1..] + b;
      TotalsAppend(a[1..], b);
    }
  }

  lemma {:induction false} InsertTotals(sorted: seq<CategoryScore>, x: CategoryScore)
    decreases |sorted|
    ensures TotalQuestions(InsertByCategory(sorted, x)) == TotalQuestions(sorted) + x.maxQuestions
    ensures WeightedSum(InsertByCategory(sorted, x)) == WeightedSum(sorted) + x.score * x.maxQuestions
  {
    TotalsAppend(sorted, [x]);
    if sorted != [] && !LexLe(sorted[|sorted| - 1].category, x.category) {
      var init, last := sorted[..|sorted| - 1], sorted[|sorted| - 1];
      InsertTotals(init, x);
      TotalsAppend(InsertByCategory(init, x), [last]);
      TotalsAppend(init, [last]);
      assert sorted == init + [last];
    }
  }

  /** Sorting changes neither the question count nor the weighted sum of the category scores. */
  lemma {:induction false} SortKeepsTotals(cs: seq<CategoryScore>)
    ensures TotalQuestions(SortByCategory(cs)) == TotalQuestions(cs)
    ensures WeightedSum(SortByCategory(cs)) == WeightedSum(cs)
  {
    if cs != [] {
      var init, last := cs[..|cs| - 1], cs[|cs| - 1];
      SortKeepsTotals(init);
      InsertTotals(SortByCategory(init), last);
      TotalsAppend(init, [last]);
      assert cs == init + [last];
    }
  }

  predicate DistinctNames(cs: seq<CategoryScore>)
  {
    forall i, j | 0 <= i < j < |cs| :: cs[i].category != cs[j].category
  }

  /** Equal multisets have the same members. */
  lemma SameMembers(a: seq<CategoryScore>, b: seq<CategoryScore>)
    requires multiset(a) == multiset(b)
    ensures forall x :: x in a <==> x in b
  {
    forall x ensures x in a <==> x in b {
      assert x in a <==> x in multiset(a);
      assert x in b <==> x in multiset(b);
    }
  }

  lemma {:induction false} InsertKeepsDistinct(sorted: seq<CategoryScore>, x: CategoryScore)
    decreases |sorted|
    requires SortedByCategory(sorted) && DistinctNames(sorted)
    requires forall i | 0 <= i < |sorted| :: sorted[i].category != x.category
    ensures DistinctNames(InsertByCategory(sorted, x))
  {
    if sorted != [] && !LexLe(sorted[|sorted| - 1].category, x.category) {
      var init, last := sorted[..|sorted| - 1], sorted[|sorted| - 1];
      assert forall m | 0 <= m < |init| :: init[m] == sorted[m];
      InsertKeepsDistinct(init, x);
      InsertByCategoryCorrect(init, x);
      var ins := InsertByCategory(init, x);
      forall k | 0 <= k < |ins| ensures ins[k].category != last.category {
        assert ins[k] in multiset(init) + multiset{x};
        if ins[k] != x {
          var m :| 0 <= m < |init| && init[m] == ins[k];
          assert sorted[m] == init[m];
        }
      }
    }
  }

  /** Sorting a list whose categories are distinct keeps them distinct. */
  lemma {:induction false} SortKeepsDistinct(cs: seq<CategoryScore>)
    requires DistinctNames(cs)
    ensures DistinctNames(SortByCategory(cs))
  {
    if cs != [] {
      var init, last := cs[..|cs| - 1], cs[|cs| - 1];
      assert forall m | 0 <= m < |init| :: init[m] == cs[m];
      SortKeepsDistinct(init);
      SortByCategoryCorrect(init);
      var sorted := SortByCategory(init);
      forall i | 0 <= i < |sorted| ensures sorted[i].category != last.category {
        assert sorted[i] in multiset(init);
        var m :| 0 <= m < |init| && init[m] == sorted[i];
        assert cs[m] == init[m];
      }
      InsertKeepsDistinct(sorted, last);
    }
  }


  // ---------------------------------------------------------------------
  // The report
  // ---------------------------------------------------------------------

  /**
   * The report's category list is sorted by name, is a permutation of the
   * unsorted list, and names each category at most once.
   */
  lemma ReportCategoriesSorted(iqAnswers: map<int, string>, answers: map<int, string>, qs: seq<Question>, generatedAt: string)
    ensures var rc := Report(iqAnswers, answers, qs, generatedAt).categoryScores;
      && SortedByCategory(rc)
      && multiset(rc) == multiset(CategoryScores(Buckets(iqAnswers, answers, qs)))
      && DistinctNames(rc)
  {
    var cs := CategoryScores(Buckets(iqAnswers, answers, qs));
    SortByCategoryCorrect(cs);
    SortKeepsDistinct(cs);
  }

  /**
   * Each entry of the report's category list is the rounded mean of its
   * category's scores, lies in [10, 100], and counts those scores.
   */
  lemma ReportCategoryEntries(iqAnswers: map<int, string>, answers: map<int, string>, qs: seq<Question>, generatedAt: string)
    ensures forall x | x in Report(iqAnswers, answers, qs, generatedAt).categoryScores :: EntryHolds(iqAnswers, answers, qs, x)
  {
    var cs := CategoryScores(Buckets(iqAnswers, answers, qs));
    var rc := Report(iqAnswers, answers, qs, generatedAt).categoryScores;
    assert rc == SortByCategory(cs);
    CategoryScoresFromBuckets(iqAnswers, answers, qs);
    SortKeepsEntries(iqAnswers, answers, qs, cs);
  }

  lemma SortKeepsEntries(iqAnswers: map<int, string>, answers: map<int, string>, qs: seq<Question>, cs: seq<CategoryScore>)
    requires forall i | 0 <= i < |cs| :: EntryHolds(iqAnswers, answers, qs, cs[i])
    ensures forall x | x in SortByCategory(cs) :: EntryHolds(iqAnswers, answers, qs, x)
  {
    SortByCategoryCorrect(cs);
    SameMembers(SortByCategory(cs), cs);
    forall x | x in SortByCategory(cs) ensures EntryHolds(iqAnswers, answers, qs, x) {
      var i :| 0 <= i < |cs| && cs[i] == x;
    }
  }

  /** Some entry of `cs` is for category `c`. */
  predicate Lists(cs: seq<CategoryScore>, c: string)
  {
    exists i | 0 <= i < |cs| :: cs[i].category == c
  }

  /** The unsorted list has an entry for a category exactly when the category has scores. */
  lemma CategoryScoresCover(iqAnswers: map<int, string>, answers: map<int, string>, qs: seq<Question>)
    ensures forall c :: Lists(CategoryScores(Buckets(iqAnswers, answers, qs)), c) <==> ScoresIn(iqAnswers, answers, qs, c) != []
  {
    var bs := Buckets(iqAnswers, answers, qs);
    var cs := CategoryScores(bs);
    BucketsCover(iqAnswers, answers, qs);
    forall c ensures Lists(cs, c) <==> HasBucket(bs, c) {
      if Lists(cs, c) {
        var k :| 0 <= k < |cs| && cs[k].category == c;
        assert bs[k].category == c;
      }
      if HasBucket(bs, c) {
        var k :| 0 <= k < |bs| && bs[k].category == c;
        assert cs[k].category == c;
      }
    }
  }

  lemma SortKeepsNames(cs: seq<CategoryScore>)
    ensures forall c :: Lists(SortByCategory(cs), c) <==> Lists(cs, c)
  {
    var rc := SortByCategory(cs);
    SortByCategoryCorrect(cs);
    SameMembers(rc, cs);
    forall c ensures Lists(rc, c) <==> Lists(cs, c) {
      if Lists(rc, c) {
        var i :| 0 <= i < |rc| && rc[i].category == c;
        assert rc[i] in cs;
        var k :| 0 <= k < |cs| && cs[k] == rc[i];
      }
      if Lists(cs, c) {
        var k :| 0 <= k < |cs| && cs[k].category == c;
        assert cs[k] in rc;
        var i :| 0 <= i < |rc| && rc[i] == cs[k];
      }
    }
  }

  /** A category appears in the report exactly when one of its questions was answered and scored. */
  lemma ReportCategoryCoverage(iqAnswers: map<int, string>, answers: map<int, string>, qs: seq<Question>, generatedAt: string)
    ensures forall c :: Lists(Report(iqAnswers, answers, qs, generatedAt).categoryScores, c) <==> ScoresIn(iqAnswers, answers, qs, c) != []
  {
    var cs := CategoryScores(Buckets(iqAnswers, answers, qs));
    assert Report(iqAnswers, answers, qs, generatedAt).categoryScores == SortByCategory(cs);
    CategoryScoresCover(iqAnswers, answers, qs);
    SortKeepsNames(cs);
  }

  /** The question counts of the report's categories add up to the number of scored answers. */
  lemma ReportCategoryCounts(iqAnswers: map<int, string>, answers: map<int, string>, qs: seq<Question>, generatedAt: string)
    ensures TotalQuestions(Report(iqAnswers, answers, qs, generatedAt).categoryScores) == ScoredCount(iqAnswers, answers, qs)
  {
    var bs := Buckets(iqAnswers, answers, qs);
    SortKeepsTotals(CategoryScores(bs));
    TotalQuestionsOfBuckets(bs);
    BucketsTotal(iqAnswers, answers, qs);
  }

  /**
   * The overall score lies in [0, 100], is 0 exactly when no answer was
   * scored and at least 10 otherwise, and is the rounded mean of the
   * report's category scores weighted by their question counts.
   */
  lemma ReportOverallScore(iqAnswers: map<int, string>, answers: map<int, string>, qs: seq<Question>, generatedAt: string)
    ensures var r := Report(iqAnswers, answers, qs, generatedAt);
      var n := ScoredCount(iqAnswers, answers, qs);
      && 0 <= r.overallScore <= 100
      && (r.overallScore == 0 <==> n == 0)
      && (n > 0 ==> 10 <= r.overallScore)
      && r.overallScore == if n > 0 then RoundDiv(WeightedSum(r.categoryScores), n) else 0
  {
    var bs := Buckets(iqAnswers, answers, qs);
    var cs := CategoryScores(bs);
    var n := ScoredCount(iqAnswers, answers, qs);
    CategoryScoresFromBuckets(iqAnswers, answers, qs);
    TotalQuestionsOfBuckets(bs);
    BucketsTotal(iqAnswers, answers, qs);
    SortKeepsTotals(cs);
    OverallScoreIsWeightedMean(cs);
    AllScoresSums(cs);
    AllScoresRange(cs, 10, 100);
    var all := AllScores(cs);
    if n > 0 {
      SumBounds(all, 10, 100);
      RoundDivBounds(Sum(all), |all|, 10, 100);
    }
  }

  /** The risk tier and its summary follow the overall score's thresholds 50 and 70. */
  lemma ReportRiskTier(iqAnswers: map<int, string>, answers: map<int, string>, qs: seq<Question>, generatedAt: string)
    ensures var r := Report(iqAnswers, answers, qs, generatedAt);
      && (r.riskLevel == Elevated <==> r.overallScore < 50)
      && (r.riskLevel == Moderate <==> 50 <= r.overallScore < 70)
      && (r.riskLevel == Low <==> 70 <= r.overallScore)
      && r.riskSummary == (if r.riskLevel == Elevated then ELEVATED_SUMMARY
                           else if r.riskLevel == Moderate then MODERATE_SUMMARY else LOW_SUMMARY)
      && r.generatedAt == generatedAt
  {
  }

  /** The tier boundaries: 49 is Elevated, 50 and 69 Moderate, 70 and 100 Low. */
  lemma RiskTierBoundaries()
    ensures RiskLevelFor(0) == Elevated && RiskLevelFor(49) == Elevated
    ensures RiskLevelFor(50) == Moderate && RiskLevelFor(69) == Moderate
    ensures RiskLevelFor(70) == Low && RiskLevelFor(100) == Low
  {
  }

  /** When no answer is scored the report is empty, Elevated, and recommends sharing it. */
  lemma NothingScoredReport(iqAnswers: map<int, string>, answers: map<int, string>, qs: seq<Question>, generatedAt: string)
    requires ScoredCount(iqAnswers, answers, qs) == 0
    ensures Report(iqAnswers, answers, qs, generatedAt)
      == GeneratedReport([], 0, Elevated, ELEVATED_SUMMARY,
                         [SHARE_RECOMMENDATION, ACTIVITY_RECOMMENDATION, FOLLOW_UP_RECOMMENDATION], generatedAt)
  {
    var bs := Buckets(iqAnswers, answers, qs);
    BucketsTotal(iqAnswers, answers, qs);
    assert CategoryScores(bs) == [];
    assert LowCategories([]) == [];
  }

  /** With an empty answer map nothing is scored. */
  lemma {:induction false} NoAnswersNothingScored(iqAnswers: map<int, string>, qs: seq<Question>)
    decreases |qs|
    ensures ScoredCount(iqAnswers, map[], qs) == 0
  {
    if qs != [] {
      NoAnswersNothingScored(iqAnswers, qs[..|qs| - 1]);
    }
  }

  // ---------------------------------------------------------------------
  // Recommendations
  // ---------------------------------------------------------------------

  predicate AnyLow(cs: seq<CategoryScore>)
  {
    exists i | 0 <= i < |cs| :: cs[i].score < 60
  }

  lemma LowCategoriesNonEmpty(cs: seq<CategoryScore>)
    ensures |LowCategories(cs)| > 0 <==> AnyLow(cs)
  {
    var low := LowCategories(cs);
    if AnyLow(cs) {
      var i :| 0 <= i < |cs| && cs[i].score < 60;
      assert cs[i] in low;
    }
    if |low| > 0 {
      assert low[0] in cs;
    }
  }

  /** The focus text never equals one of the fixed texts. */
  lemma FocusIsNotFixed(names: string)
    ensures FocusRecommendation(names) != SHARE_RECOMMENDATION
    ensures FocusRecommendation(names) != ACTIVITY_RECOMMENDATION
    ensures FocusRecommendation(names) != FOLLOW_UP_RECOMMENDATION
  {
    var f := FocusRecommendation(names);
    assert f[|f| - 3] == 'e';
    assert SHARE_RECOMMENDATION[|SHARE_RECOMMENDATION| - 3] == 'o';
    assert ACTIVITY_RECOMMENDATION[|ACTIVITY_RECOMMENDATION| - 3] == 't';
    assert FOLLOW_UP_RECOMMENDATION[|FOLLOW_UP_RECOMMENDATION| - 3] == 'n';
  }

  /**
   * The recommendation list has 2 to 4 entries: one more when the tier is
   * Elevated, one more when some category scores below 60, and it always ends
   * with the activity and follow-up texts.
   */
  lemma RecommendationsLength(cs: seq<CategoryScore>, level: RiskLevel)
    ensures var r := Recommendations(cs, level);
      && |r| == 2 + (if level == Elevated then 1 else 0) + (if AnyLow(cs) then 1 else 0)
      && 2 <= |r| <= 4
      && r[|r| - 2] == ACTIVITY_RECOMMENDATION && r[|r| - 1] == FOLLOW_UP_RECOMMENDATION
  {
    LowCategoriesNonEmpty(cs);
  }

  /** The list starts with, and holds, the sharing text exactly when the tier is Elevated. */
  lemma RecommendationsShare(cs: seq<CategoryScore>, level: RiskLevel)
    ensures var r := Recommendations(cs, level);
      && (r[0] == SHARE_RECOMMENDATION <==> level == Elevated)
      && (SHARE_RECOMMENDATION in r <==> level == Elevated)
  {
    FocusIsNotFixed(Join(Names(LowCategories(cs)), " and "));
    assert |ACTIVITY_RECOMMENDATION| != |SHARE_RECOMMENDATION| && |FOLLOW_UP_RECOMMENDATION| != |SHARE_RECOMMENDATION|;
  }

  /** A focus entry appears exactly when some category scores below 60. */
  lemma RecommendationsFocus(cs: seq<CategoryScore>, level: RiskLevel)
    ensures AnyLow(cs) <==> exists names :: FocusRecommendation(names) in Recommendations(cs, level)
  {
    var r := Recommendations(cs, level);
    LowCategoriesNonEmpty(cs);
    if AnyLow(cs) {
      assert FocusRecommendation(Join(Names(LowCategories(cs)), " and ")) in r;
    } else {
      forall names | FocusRecommendation(names) in r ensures false {
        FocusIsNotFixed(names);
      }
    }
  }

  /**
   * When some category is low, the focus entry comes right after the sharing
   * text, or first when that is absent, and names the low categories joined
   * with " and ".
   */
  lemma FocusPosition(cs: seq<CategoryScore>, level: RiskLevel)
    requires AnyLow(cs)
    ensures |Recommendations(cs, level)| > (if level == Elevated then 1 else 0)
    ensures Recommendations(cs, level)[if level == Elevated then 1 else 0] == FocusRecommendation(Join(Names(LowCategories(cs)), " and "))
  {
    LowCategoriesNonEmpty(cs);
  }

  /** The focus entry names exactly the low categories, in the order of the unsorted list. */
  lemma LowCategoryNames(cs: seq<CategoryScore>)
    ensures var names := Names(LowCategories(cs));
      && (forall n :: n in names <==> exists x | x in cs :: x.category == n && x.score < 60)
      && (forall k | 0 <= k < |names| :: names[k] == LowCategories(cs)[k].category)
  {
    var low := LowCategories(cs);
    var names := Names(low);
    forall n ensures n in names <==> exists x | x in cs :: x.category == n && x.score < 60 {
      if n in names {
        var k :| 0 <= k < |names| && names[k] == n;
        assert low[k] in low;
      }
      if x :| x in cs && x.category == n && x.score < 60 {
        var k :| 0 <= k < |low| && low[k] == x;
        assert names[k] == n;
      }
    }
  }

  /**
   * The focus text names the low categories in the order of their first
   * scored question in the catalog.
   */
  lemma FocusNamesInCatalogOrder(iqAnswers: map<int, string>, answers: map<int, string>, qs: seq<Question>, k: int, k2: int)
    requires 0 <= k < k2 < |LowCategories(CategoryScores(Buckets(iqAnswers, answers, qs)))|
    ensures var names := Names(LowCategories(CategoryScores(Buckets(iqAnswers, answers, qs))));
      FirstScored(iqAnswers, answers, qs, names[k]) < FirstScored(iqAnswers, answers, qs, names[k2]) < |qs|
  {
    var bs := Buckets(iqAnswers, answers, qs);
    var cs := CategoryScores(bs);
    var low := LowCategories(cs);
    LowInOrder(cs, k, k2);
    LowSourceIs(cs, k);
    LowSourceIs(cs, k2);
    var i, i2 := LowSource(cs, k), LowSource(cs, k2);
    assert Names(low)[k] == bs[i].category && Names(low)[k2] == bs[i2].category;
    BucketsInFirstAppearanceOrder(iqAnswers, answers, qs, i, i2);
  }

  /** Three parts are joined with the separator between each two, as in "Memory and Attention and Orientation". */
  lemma JoinThree(a: string, b: string, c: string, sep: string)
    ensures Join([a, b, c], sep) == a + sep + b + sep + c
  {
    assert [a, b, c][1..] == [b, c];
    assert [b, c][1..] == [c];
    assert Join([b, c], sep) == b + sep + c;
    assert a + sep + (b + sep + c) == a + sep + b + sep + c;
  }

  // ---------------------------------------------------------------------
  // The overall score is not the mean of the raw answer scores
  // ---------------------------------------------------------------------

  /**
   * Rounding each category before the overall mean changes the result: with
   * Memory scores 10, 10, 20 and one Orientation score 10, the overall score
   * is 12 while the rounded mean of the four raw scores is 13.
   */
  lemma OverallFromRoundedCategories()
    ensures var bs := [Bucket("Memory", [10, 10, 20]), Bucket("Orientation", [10])];
      && NonEmptyBuckets(bs)
      && CategoryScores(bs) == [CategoryScore("Memory", 13, 3), CategoryScore("Orientation", 10, 1)]
      && OverallScore(CategoryScores(bs)) == 12
      && RoundDiv(Sum([10, 10, 20, 10]), 4) == 13
  {
    var bs := [Bucket("Memory", [10, 10, 20]), Bucket("Orientation", [10])];
    var cs := CategoryScores(bs);
    assert Sum([10, 10, 20]) == 40 by {
      assert [10, 10, 20][..2] == [10, 10] && [10, 10][..1] == [10] && [10][..0] == [];
    }
    assert Sum([10]) == 10 by {
      assert [10][..0] == [];
    }
    var m, o := CategoryScore("Memory", 13, 3), CategoryScore("Orientation", 10, 1);
    assert cs == [m, o];
    assert [m, o][1..] == [o] && [o][1..] == [];
    OverallScoreIsWeightedMean(cs);
    assert TotalQuestions([o]) == 1 && WeightedSum([o]) == 10;
    assert TotalQuestions([m, o]) == 4 && WeightedSum([m, o]) == 49;
    assert Sum([10, 10, 20, 10]) == 50 by {
      assert [10, 10, 20, 10][..3] == [10, 10, 20];
      assert [10, 10, 20][..2] == [10, 10] && [10, 10][..1] == [10] && [10][..0] == [];
    }
  }
}
