/**
 * The answer-to-report scoring engine: per-answer scores, per-category
 * buckets and their rounded means, the overall score, the risk tier, the
 * recommendation list and the sort of the category scores.
 *
 * The engine reads a question catalog and a reasoning-question answer key;
 * here both are parameters, and the quiz passes `QUESTIONS` and `IQ_ANSWERS`.
 */
module ReportUtils {
  import opened Wrappers
  import opened QuizData
  import opened StringOrder

  datatype CategoryScore = CategoryScore(category: string, score: int, maxQuestions: int)

  datatype RiskLevel = Low | Moderate | Elevated

  datatype GeneratedReport = GeneratedReport(
    categoryScores: seq<CategoryScore>,
    overallScore: int,
    riskLevel: RiskLevel,
    riskSummary: string,
    recommendations: seq<string>,
    generatedAt: string)

  /** One entry of the `byCategory` dictionary: a category and the scores pushed into it. */
  datatype Bucket = Bucket(category: string, scores: seq<int>)

  // ---------------------------------------------------------------------
  // Per-answer scoring
  // ---------------------------------------------------------------------

  /** The frequency table; an answer missing from it falls back to 50. */
  const FREQUENCY_SCORE: map<string, int> := map[
      "Never" := 100,
      "Sometimes" := 50,
      "Often" := 20,
      "Always" := 10
    ]

  /** The type tags the engine knows how to score. */
  predicate ScoredType(questionType: string)
  {
    questionType == "frequency" || questionType == "yes-no" || questionType == "iq"
    || questionType == "recall" || questionType == "gender"
  }

  /** The score of one answer, or None (the source's `null`) for a type the engine does not know. */
  function GetScoreForAnswer(iqAnswers: map<int, string>, questionId: int, answer: string, questionType: string): (r: Option<int>)
    ensures r.None? <==> !ScoredType(questionType)
    ensures r.Some? ==> r.value in {10, 20, 30, 40, 50, 100}
    ensures questionType == "yes-no" ==> (r == Some(100) <==> answer == "No") && (r != Some(100) ==> r == Some(40))
    ensures questionType == "iq" ==>
      (r == Some(100) <==> questionId in iqAnswers && iqAnswers[questionId] != "" && answer == iqAnswers[questionId])
      && (r != Some(100) ==> r == Some(30))
    ensures questionType == "gender" || questionType == "recall" ==> r == Some(50)
  {
    if questionType == "frequency" then
      Some(if answer in FREQUENCY_SCORE then FREQUENCY_SCORE[answer] else 50)
    else if questionType == "yes-no" then
      Some(if answer == "No" then 100 else 40)
    else if questionType == "iq" then
      var correct := if questionId in iqAnswers then iqAnswers[questionId] else "";
      Some(if correct != "" && answer == correct then 100 else 30)
    else if questionType == "recall" || questionType == "gender" then
      Some(50)
    else
      None
  }

  /** The score a catalog question contributes: None when unanswered or unscored. */
  function QuestionScore(iqAnswers: map<int, string>, answers: map<int, string>, q: Question): Option<int>
  {
    if q.id in answers then GetScoreForAnswer(iqAnswers, q.id, answers[q.id], q.questionType.Name()) else None
  }

  // ---------------------------------------------------------------------
  // Buckets: the `byCategory` dictionary after the pass over the catalog
  // ---------------------------------------------------------------------

  /** Some bucket belongs to `category`. */
  predicate HasBucket(buckets: seq<Bucket>, category: string)
  {
    exists i | 0 <= i < |buckets| :: buckets[i].category == category
  }

  /** Pushes `score` onto the bucket of `category`, creating it at the end when absent. */
  function AddScore(buckets: seq<Bucket>, category: string, score: int): (r: seq<Bucket>)
    ensures |r| == if HasBucket(buckets, category) then |buckets| else |buckets| + 1
    ensures forall i | 0 <= i < |buckets| ::
      (r[i].category == buckets[i].category
       && r[i].scores == if buckets[i].category == category then buckets[i].scores + [score] else buckets[i].scores)
    ensures |r| > |buckets| ==> r[|buckets|] == Bucket(category, [score])
  {
    if HasBucket(buckets, category) then
      seq(|buckets|, i requires 0 <= i < |buckets| =>
        if buckets[i].category == category then Bucket(category, buckets[i].scores + [score]) else buckets[i])
    else
      buckets + [Bucket(category, [score])]
  }

  /** The scores of the answered, scored questions of `category`, in catalog order. */
  function ScoresIn(iqAnswers: map<int, string>, answers: map<int, string>, qs: seq<Question>, category: string): seq<int>
    decreases |qs|
  {
    if qs == [] then []
    else
      var q := qs[|qs| - 1];
      var s := QuestionScore(iqAnswers, answers, q);
      ScoresIn(iqAnswers, answers, qs[..|qs| - 1], category) + (if s.Some? && q.category == category then [s.value] else [])
  }

  /** How many questions of `qs` are answered and scored. */
  function ScoredCount(iqAnswers: map<int, string>, answers: map<int, string>, qs: seq<Question>): nat
    decreases |qs|
  {
    if qs == [] then 0
    else ScoredCount(iqAnswers, answers, qs[..|qs| - 1]) + (if QuestionScore(iqAnswers, answers, qs[|qs| - 1]).Some? then 1 else 0)
  }

  function TotalSize(buckets: seq<Bucket>): nat
  {
    if buckets == [] then 0 else |buckets[0].scores| + TotalSize(buckets[1..])
  }

  predicate DistinctCategories(buckets: seq<Bucket>)
  {
    forall i, j | 0 <= i < j < |buckets| :: buckets[i].category != buckets[j].category
  }

  predicate NonEmptyBuckets(buckets: seq<Bucket>)
  {
    forall i | 0 <= i < |buckets| :: |buckets[i].scores| >= 1
  }

  /**
   * The buckets after visiting `qs` in order: none is empty and no category
   * has two. (BucketsHoldScores and BucketsTotal say what they hold.)
   */
  function Buckets(iqAnswers: map<int, string>, answers: map<int, string>, qs: seq<Question>): (bs: seq<Bucket>)
    decreases |qs|
    ensures NonEmptyBuckets(bs)
    ensures DistinctCategories(bs)
  {
    if qs == [] then []
    else
      var prev := Buckets(iqAnswers, answers, qs[..|qs| - 1]);
      var q := qs[|qs| - 1];
      match QuestionScore(iqAnswers, answers, q)
      case None => prev
      case Some(s) =>
        AddScoreProperties(prev, q.category, s);
        AddScore(prev, q.category, s)
  }

  lemma {:induction false} TotalSizeAppend(a: seq<Bucket>, b: seq<Bucket>)
    ensures TotalSize(a + b) == TotalSize(a) + TotalSize(b)
  {
    if a == [] {
      assert a + b == b;
    } else {
      assert (a + b)[1..] == a[1..] + b;
      TotalSizeAppend(a[1..], b);
    }
  }

  /** Pushing onto a bucket whose category occurs once grows the total by one. */
  lemma {:induction false} TotalSizePush(buckets: seq<Bucket>, p: int, score: int)
    requires 0 <= p < |buckets|
    ensures TotalSize(buckets[p := Bucket(buckets[p].category, buckets[p].scores + [score])]) == TotalSize(buckets) + 1
  {
    if p > 0 {
      var r := buckets[p := Bucket(buckets[p].category, buckets[p].scores + [score])];
      assert r[1..] == buckets[1..][p - 1 := Bucket(buckets[p].category, buckets[p].scores + [score])];
      TotalSizePush(buckets[1..], p - 1, score);
    }
  }

  lemma AddScoreProperties(buckets: seq<Bucket>, category: string, score: int)
    requires DistinctCategories(buckets)
    ensures NonEmptyBuckets(buckets) ==> NonEmptyBuckets(AddScore(buckets, category, score))
    ensures DistinctCategories(AddScore(buckets, category, score))
    ensures TotalSize(AddScore(buckets, category, score)) == TotalSize(buckets) + 1
  {
    var r := AddScore(buckets, category, score);
    if p :| 0 <= p < |buckets| && buckets[p].category == category {
      assert r == buckets[p := Bucket(category, buckets[p].scores + [score])];
      TotalSizePush(buckets, p, score);
    } else {
      TotalSizeAppend(buckets, [Bucket(category, [score])]);
      assert TotalSize([Bucket(category, [score])]) == 1;
    }
  }

  /** Each bucket holds exactly the scores of its category's answered, scored questions, in catalog order. */
  lemma {:induction false} BucketsHoldScores(iqAnswers: map<int, string>, answers: map<int, string>, qs: seq<Question>)
    decreases |qs|
    ensures var bs := Buckets(iqAnswers, answers, qs);
      forall i | 0 <= i < |bs| :: bs[i].scores == ScoresIn(iqAnswers, answers, qs, bs[i].category)
  {
    if qs != [] {
      var init := qs[..|qs| - 1];
      var q := qs[|qs| - 1];
      BucketsHoldScores(iqAnswers, answers, init);
      BucketsCover(iqAnswers, answers, init);
      var prev := Buckets(iqAnswers, answers, init);
      var bs := Buckets(iqAnswers, answers, qs);
      forall i | 0 <= i < |bs| ensures bs[i].scores == ScoresIn(iqAnswers, answers, qs, bs[i].category) {
        var c := bs[i].category;
        ScoresInLast(iqAnswers, answers, qs, c);
        match QuestionScore(iqAnswers, answers, q)
        case None =>
          assert bs == prev;
        case Some(s) =>
          assert bs == AddScore(prev, q.category, s);
          if i == |prev| {
            assert !HasBucket(prev, c);
          }
      }
    }
  }

  /** After a push, a category has a bucket exactly when it had one before or is the category pushed to. */
  lemma AddScoreHas(buckets: seq<Bucket>, category: string, score: int, c: string)
    ensures HasBucket(AddScore(buckets, category, score), c) <==> HasBucket(buckets, c) || c == category
  {
    var r := AddScore(buckets, category, score);
    if HasBucket(buckets, c) {
      var i :| 0 <= i < |buckets| && buckets[i].category == c;
      assert r[i].category == c;
    }
    if c == category && !HasBucket(buckets, c) {
      assert r[|buckets|].category == c;
    }
    if HasBucket(r, c) && !HasBucket(buckets, c) {
      var i :| 0 <= i < |r| && r[i].category == c;
      assert i == |buckets|;
    }
  }

  /** The scores of `category` after one more catalog question. */
  lemma ScoresInLast(iqAnswers: map<int, string>, answers: map<int, string>, qs: seq<Question>, category: string)
    requires qs != []
    ensures var q := qs[|qs| - 1];
      ScoresIn(iqAnswers, answers, qs, category)
        == ScoresIn(iqAnswers, answers, qs[..|qs| - 1], category)
           + (if q.category == category && QuestionScore(iqAnswers, answers, q).Some? then [QuestionScore(iqAnswers, answers, q).value] else [])
  {
  }

  /** A category has a bucket exactly when one of its questions was answered and scored. */
  lemma {:induction false} BucketsCover(iqAnswers: map<int, string>, answers: map<int, string>, qs: seq<Question>)
    decreases |qs|
    ensures var bs := Buckets(iqAnswers, answers, qs);
      forall c :: HasBucket(bs, c) <==> ScoresIn(iqAnswers, answers, qs, c) != []
  {
    if qs != [] {
      var init := qs[..|qs| - 1];
      var q := qs[|qs| - 1];
      BucketsCover(iqAnswers, answers, init);
      var prev := Buckets(iqAnswers, answers, init);
      var bs := Buckets(iqAnswers, answers, qs);
      forall c
        ensures HasBucket(bs, c) <==> ScoresIn(iqAnswers, answers, qs, c) != []
      {
        ScoresInLast(iqAnswers, answers, qs, c);
        match QuestionScore(iqAnswers, answers, q)
        case None =>
          assert bs == prev;
        case Some(s) =>
          assert bs == AddScore(prev, q.category, s);
          AddScoreHas(prev, q.category, s, c);
      }
    }
  }

  /** The bucket sizes add up to the number of answered, scored questions. */
  lemma {:induction false} BucketsTotal(iqAnswers: map<int, string>, answers: map<int, string>, qs: seq<Question>)
    decreases |qs|
    ensures TotalSize(Buckets(iqAnswers, answers, qs)) == ScoredCount(iqAnswers, answers, qs)
  {
    if qs != [] {
      var init := qs[..|qs| - 1];
      BucketsTotal(iqAnswers, answers, init);
      var prev := Buckets(iqAnswers, answers, init);
      match QuestionScore(iqAnswers, answers, qs[|qs| - 1])
      case None =>
      case Some(s) => AddScoreProperties(prev, qs[|qs| - 1].category, s);
    }
  }

  /** Question `q` is answered, scored and in `category`. */
  predicate ScoredIn(iqAnswers: map<int, string>, answers: map<int, string>, q: Question, category: string)
  {
    q.category == category && QuestionScore(iqAnswers, answers, q).Some?
  }

  /** Index of the first answered, scored question of `category` in `qs`; `|qs|` when there is none. */
  function FirstScored(iqAnswers: map<int, string>, answers: map<int, string>, qs: seq<Question>, category: string): (k: nat)
    ensures k <= |qs|
    ensures k < |qs| ==> ScoredIn(iqAnswers, answers, qs[k], category)
    ensures forall m | 0 <= m < k :: !ScoredIn(iqAnswers, answers, qs[m], category)
  {
    if qs == [] then 0
    else if ScoredIn(iqAnswers, answers, qs[0], category) then 0
    else 1 + FirstScored(iqAnswers, answers, qs[1..], category)
  }

  lemma FirstScoredExtend(iqAnswers: map<int, string>, answers: map<int, string>, qs: seq<Question>, category: string)
    requires qs != []
    ensures var init := qs[..|qs| - 1];
      FirstScored(iqAnswers, answers, qs, category)
        == if FirstScored(iqAnswers, answers, init, category) < |init| then FirstScored(iqAnswers, answers, init, category)
           else if ScoredIn(iqAnswers, answers, qs[|qs| - 1], category) then |init|
           else |qs|
  {
    var init := qs[..|qs| - 1];
    var a := FirstScored(iqAnswers, answers, qs, category);
    var b := FirstScored(iqAnswers, answers, init, category);
    assert forall m | 0 <= m < |init| :: qs[m] == init[m];
    if b < |init| {
      assert ScoredIn(iqAnswers, answers, qs[b], category);
    } else if ScoredIn(iqAnswers, answers, qs[|qs| - 1], category) {
      assert a <= |init|;
    }
  }

  /** A category has scores exactly when it has a first scored question. */
  lemma {:induction false} ScoresInFirst(iqAnswers: map<int, string>, answers: map<int, string>, qs: seq<Question>, category: string)
    decreases |qs|
    ensures ScoresIn(iqAnswers, answers, qs, category) != [] <==> FirstScored(iqAnswers, answers, qs, category) < |qs|
  {
    if qs != [] {
      ScoresInFirst(iqAnswers, answers, qs[..|qs| - 1], category);
      FirstScoredExtend(iqAnswers, answers, qs, category);
    }
  }

  /** A category already scored in `init` keeps its first scored question when the catalog grows by one. */
  lemma FirstScoredKept(iqAnswers: map<int, string>, answers: map<int, string>, qs: seq<Question>, category: string)
    requires qs != [] && ScoresIn(iqAnswers, answers, qs[..|qs| - 1], category) != []
    ensures FirstScored(iqAnswers, answers, qs, category) == FirstScored(iqAnswers, answers, qs[..|qs| - 1], category) < |qs| - 1
  {
    ScoresInFirst(iqAnswers, answers, qs[..|qs| - 1], category);
    FirstScoredExtend(iqAnswers, answers, qs, category);
  }

  /** A category first scored by the last question has that question as its first. */
  lemma FirstScoredNew(iqAnswers: map<int, string>, answers: map<int, string>, qs: seq<Question>, category: string)
    requires qs != [] && ScoresIn(iqAnswers, answers, qs[..|qs| - 1], category) == []
    requires ScoredIn(iqAnswers, answers, qs[|qs| - 1], category)
    ensures FirstScored(iqAnswers, answers, qs, category) == |qs| - 1
  {
    ScoresInFirst(iqAnswers, answers, qs[..|qs| - 1], category);
    FirstScoredExtend(iqAnswers, answers, qs, category);
  }

  /** Where bucket `i` of the grown catalog's buckets gets its first scored question. */
  lemma BucketFirstAt(iqAnswers: map<int, string>, answers: map<int, string>, qs: seq<Question>, i: int)
    requires qs != [] && 0 <= i < |Buckets(iqAnswers, answers, qs)|
    ensures var prev := Buckets(iqAnswers, answers, qs[..|qs| - 1]);
      var c := Buckets(iqAnswers, answers, qs)[i].category;
      && i <= |prev|
      && (i < |prev| ==> c == prev[i].category && FirstScored(iqAnswers, answers, qs, c) == FirstScored(iqAnswers, answers, qs[..|qs| - 1], c) < |qs| - 1)
      && (i == |prev| ==> FirstScored(iqAnswers, answers, qs, c) == |qs| - 1)
  {
    var init := qs[..|qs| - 1];
    var q := qs[|qs| - 1];
    BucketsCover(iqAnswers, answers, init);
    var prev := Buckets(iqAnswers, answers, init);
    var bs := Buckets(iqAnswers, answers, qs);
    var sq := QuestionScore(iqAnswers, answers, q);
    assert sq.None? ==> bs == prev;
    assert sq.Some? ==> bs == AddScore(prev, q.category, sq.value);
    if i < |prev| {
      assert bs[i].category == prev[i].category;
      assert HasBucket(prev, prev[i].category);
      FirstScoredKept(iqAnswers, answers, qs, prev[i].category);
    } else {
      assert sq.Some? && !HasBucket(prev, q.category) && bs[i].category == q.category;
      FirstScoredNew(iqAnswers, answers, qs, q.category);
    }
  }

  /**
   * The buckets come in first-appearance order: when bucket `i` precedes
   * bucket `j`, its category's first scored question comes first in the catalog.
   */
  lemma {:induction false} BucketsInFirstAppearanceOrder(iqAnswers: map<int, string>, answers: map<int, string>, qs: seq<Question>, i: int, j: int)
    requires 0 <= i < j < |Buckets(iqAnswers, answers, qs)|
    decreases |qs|
    ensures FirstScored(iqAnswers, answers, qs, Buckets(iqAnswers, answers, qs)[i].category)
      < FirstScored(iqAnswers, answers, qs, Buckets(iqAnswers, answers, qs)[j].category) < |qs|
  {
    var init := qs[..|qs| - 1];
    var prev := Buckets(iqAnswers, answers, init);
    BucketFirstAt(iqAnswers, answers, qs, i);
    BucketFirstAt(iqAnswers, answers, qs, j);
    if j < |prev| {
      BucketsInFirstAppearanceOrder(iqAnswers, answers, init, i, j);
    }
  }

  // ---------------------------------------------------------------------
  // Rounding, category scores and the overall score
  // ---------------------------------------------------------------------

  /** `Math.round(num / den)`: the nearest integer, a half rounded up. */
  function RoundDiv(num: int, den: int): (r: int)
    requires den > 0
    ensures den * (2 * r - 1) <= 2 * num < den * (2 * r + 1)
  {
    (2 * num + den) / (2 * den)
  }

  /** A rounded quotient of a value between `lo * den` and `hi * den` lies between `lo` and `hi`. */
  lemma RoundDivBounds(num: int, den: int, lo: int, hi: int)
    requires den > 0
    requires lo * den <= num <= hi * den
    ensures lo <= RoundDiv(num, den) <= hi
  {
    var r := RoundDiv(num, den);
    if r < lo {
      MulMonotone(den, 2 * r + 1, 2 * lo - 1);
    }
    if r > hi {
      MulMonotone(den, 2 * hi + 1, 2 * r - 1);
    }
  }

  lemma MulMonotone(d: int, a: int, b: int)
    requires d > 0 && a <= b
    ensures d * a <= d * b
  {
    assert d * b - d * a == d * (b - a);
  }

  /** The `reduce((a, b) => a + b, 0)` of a list of scores. */
  function Sum(s: seq<int>): int
  {
    if s == [] then 0 else Sum(s[..|s| - 1]) + s[|s| - 1]
  }

  lemma {:induction false} SumBounds(s: seq<int>, lo: int, hi: int)
    requires forall i | 0 <= i < |s| :: lo <= s[i] <= hi
    ensures lo * |s| <= Sum(s) <= hi * |s|
  {
    if s != [] {
      SumBounds(s[..|s| - 1], lo, hi);
    }
  }

  lemma {:induction false} SumAppend(a: seq<int>, b: seq<int>)
    ensures Sum(a + b) == Sum(a) + Sum(b)
  {
    if b == [] {
      assert a + b == a;
    } else {
      assert (a + b)[..|a + b| - 1] == a + b[..|b| - 1];
      SumAppend(a, b[..|b| - 1]);
    }
  }

  /** A list of `n` copies of `v`: `Array(n).fill(v)`. */
  function Repeat(v: int, n: nat): (r: seq<int>)
    ensures |r| == n && forall i | 0 <= i < n :: r[i] == v
  {
    seq(n, _ => v)
  }

  lemma {:induction false} SumRepeat(v: int, n: nat)
    ensures Sum(Repeat(v, n)) == v * n
  {
    if n > 0 {
      assert Repeat(v, n)[..n - 1] == Repeat(v, n - 1);
      SumRepeat(v, n - 1);
    }
  }

  /** The rounded mean of a non-empty bucket. */
  function MeanRounded(scores: seq<int>): int
    requires |scores| > 0
  {
    RoundDiv(Sum(scores), |scores|)
  }

  /** `Object.entries(byCategory).map(...)`: one category score per bucket, in bucket order. */
  function CategoryScores(buckets: seq<Bucket>): (cs: seq<CategoryScore>)
    requires NonEmptyBuckets(buckets)
  {
    seq(|buckets|, i requires 0 <= i < |buckets| =>
      CategoryScore(buckets[i].category, MeanRounded(buckets[i].scores), |buckets[i].scores|))
  }

  predicate CountsNonNegative(cs: seq<CategoryScore>)
  {
    forall i | 0 <= i < |cs| :: cs[i].maxQuestions >= 0
  }

  /** `categoryScores.flatMap(c => Array(c.maxQuestions).fill(c.score))`. */
  function AllScores(cs: seq<CategoryScore>): seq<int>
    requires CountsNonNegative(cs)
  {
    if cs == [] then [] else Repeat(cs[0].score, cs[0].maxQuestions) + AllScores(cs[1..])
  }

  /** The overall score: the rounded mean of `AllScores`, or 0 when it is empty. */
  function OverallScore(cs: seq<CategoryScore>): int
    requires CountsNonNegative(cs)
  {
    var all := AllScores(cs);
    if |all| > 0 then RoundDiv(Sum(all), |all|) else 0
  }

  /** The sum of the `maxQuestions` values. */
  function TotalQuestions(cs: seq<CategoryScore>): int
  {
    if cs == [] then 0 else cs[0].maxQuestions + TotalQuestions(cs[1..])
  }

  /** The sum of `score * maxQuestions` over the categories. */
  function WeightedSum(cs: seq<CategoryScore>): int
  {
    if cs == [] then 0 else cs[0].score * cs[0].maxQuestions + WeightedSum(cs[1..])
  }

  lemma {:induction false} AllScoresSums(cs: seq<CategoryScore>)
    requires CountsNonNegative(cs)
    ensures |AllScores(cs)| == TotalQuestions(cs)
    ensures Sum(AllScores(cs)) == WeightedSum(cs)
  {
    if cs != [] {
      AllScoresSums(cs[1..]);
      SumAppend(Repeat(cs[0].score, cs[0].maxQuestions), AllScores(cs[1..]));
      SumRepeat(cs[0].score, cs[0].maxQuestions);
    }
  }

  /**
   * The overall score is the mean of the already-rounded category scores,
   * each weighted by its `maxQuestions`, rounded again; 0 when nothing counted.
   */
  lemma OverallScoreIsWeightedMean(cs: seq<CategoryScore>)
    requires CountsNonNegative(cs)
    ensures OverallScore(cs) == if TotalQuestions(cs) > 0 then RoundDiv(WeightedSum(cs), TotalQuestions(cs)) else 0
  {
    AllScoresSums(cs);
  }

  // ---------------------------------------------------------------------
  // Risk tier
  // ---------------------------------------------------------------------

  const LOW_SUMMARY := "Your responses suggest a low likelihood of significant cognitive concern in the screened areas."
  const ELEVATED_SUMMARY := "Your responses indicate areas that may benefit from further evaluation. We recommend discussing these results with a healthcare provider."
  const MODERATE_SUMMARY := "Some patterns in your responses suggest it may be helpful to monitor cognition and consider lifestyle measures. A follow-up with a clinician can provide clarity."

  function RiskLevelFor(overallScore: int): RiskLevel
  {
    if overallScore < 50 then Elevated else if overallScore < 70 then Moderate else Low
  }

  function RiskSummary(level: RiskLevel): string
  {
    match level
    case Low => LOW_SUMMARY
    case Moderate => MODERATE_SUMMARY
    case Elevated => ELEVATED_SUMMARY
  }

  // ---------------------------------------------------------------------
  // Recommendations
  // ---------------------------------------------------------------------

  const SHARE_RECOMMENDATION := "Share this report with a healthcare provider for a full clinical evaluation."
  const ACTIVITY_RECOMMENDATION := "Stay physically active and maintain social connections; both are associated with better cognitive health."
  const FOLLOW_UP_RECOMMENDATION := "Schedule a follow-up with your doctor to review this assessment and any concerns."

  function FocusRecommendation(names: string): string
  {
    "Focus on activities that support " + names + ", such as structured routines and cognitive exercises."
  }

  /** `categoryScores.filter(c => c.score < 60)`: the low categories, in their original order. */
  function LowCategories(cs: seq<CategoryScore>): (low: seq<CategoryScore>)
    ensures |low| <= |cs|
    ensures forall x :: x in low <==> x in cs && x.score < 60
  {
    if cs == [] then []
    else (if cs[0].score < 60 then [cs[0]] else []) + LowCategories(cs[1..])
  }

  /** The position in `cs` of entry `k` of the filtered list. */
  function LowSource(cs: seq<CategoryScore>, k: int): (i: nat)
    requires 0 <= k < |LowCategories(cs)|
    decreases |cs|
    ensures i < |cs|
  {
    var tail := LowCategories(cs[1..]);
    if cs[0].score < 60 then
      assert LowCategories(cs) == [cs[0]] + tail;
      if k == 0 then 0 else 1 + LowSource(cs[1..], k - 1)
    else
      assert LowCategories(cs) == tail;
      1 + LowSource(cs[1..], k)
  }

  /** Entry `k` of the filtered list is the element of `cs` at `LowSource(cs, k)`. */
  lemma {:induction false} LowSourceIs(cs: seq<CategoryScore>, k: int)
    requires 0 <= k < |LowCategories(cs)|
    decreases |cs|
    ensures cs[LowSource(cs, k)] == LowCategories(cs)[k]
  {
    var tail := LowCategories(cs[1..]);
    if cs[0].score < 60 {
      assert LowCategories(cs) == [cs[0]] + tail;
      if k > 0 {
        LowSourceIs(cs[1..], k - 1);
      }
    } else {
      assert LowCategories(cs) == tail;
      LowSourceIs(cs[1..], k);
    }
  }

  /** The filter keeps the order of its input: later entries of the result come from later positions of `cs`. */
  lemma {:induction false} LowInOrder(cs: seq<CategoryScore>, k: int, k2: int)
    requires 0 <= k < k2 < |LowCategories(cs)|
    decreases |cs|
    ensures LowSource(cs, k) < LowSource(cs, k2)
  {
    if cs[0].score < 60 {
      assert LowSource(cs, k2) == 1 + LowSource(cs[1..], k2 - 1);
      if k == 0 {
        assert LowSource(cs, k) == 0;
        assert LowSource(cs, k) < LowSource(cs, k2);
      } else {
        assert LowSource(cs, k) == 1 + LowSource(cs[1..], k - 1);
        LowInOrder(cs[1..], k - 1, k2 - 1);
        assert LowSource(cs, k) < LowSource(cs, k2);
      }
    } else {
      assert LowSource(cs, k) == 1 + LowSource(cs[1..], k) && LowSource(cs, k2) == 1 + LowSource(cs[1..], k2);
      LowInOrder(cs[1..], k, k2);
      assert LowSource(cs, k) < LowSource(cs, k2);
    }
  }

  function Names(cs: seq<CategoryScore>): (names: seq<string>)
    ensures |names| == |cs|
  {
    seq(|cs|, i requires 0 <= i < |cs| => cs[i].category)
  }

  /** `Array.prototype.join`: the parts with `sep` between each two neighbours. */
  function Join(parts: seq<string>, sep: string): string
  {
    if |parts| == 0 then ""
    else if |parts| == 1 then parts[0]
    else parts[0] + sep + Join(parts[1..], sep)
  }

  /** The recommendation list for the unsorted category scores `cs` and the tier `level`. */
  function Recommendations(cs: seq<CategoryScore>, level: RiskLevel): seq<string>
  {
    var low := LowCategories(cs);
    (if level == Elevated then [SHARE_RECOMMENDATION] else [])
    + (if |low| > 0 then [FocusRecommendation(Join(Names(low), " and "))] else [])
    + [ACTIVITY_RECOMMENDATION, FOLLOW_UP_RECOMMENDATION]
  }

  // ---------------------------------------------------------------------
  // Sorting by category name
  // ---------------------------------------------------------------------

  predicate SortedByCategory(cs: seq<CategoryScore>)
  {
    forall i, j | 0 <= i < j < |cs| :: LexLe(cs[i].category, cs[j].category)
  }

  /** Inserts `x` after every element whose category does not sort after it. */
  function InsertByCategory(sorted: seq<CategoryScore>, x: CategoryScore): seq<CategoryScore>
  {
    if sorted == [] || LexLe(sorted[|sorted| - 1].category, x.category) then sorted + [x]
    else InsertByCategory(sorted[..|sorted| - 1], x) + [sorted[|sorted| - 1]]
  }

  /** The stable sort of `cs` by category name. */
  function SortByCategory(cs: seq<CategoryScore>): seq<CategoryScore>
  {
    if cs == [] then [] else InsertByCategory(SortByCategory(cs[..|cs| - 1]), cs[|cs| - 1])
  }

  lemma {:induction false} InsertByCategoryCorrect(sorted: seq<CategoryScore>, x: CategoryScore)
    requires SortedByCategory(sorted)
    ensures SortedByCategory(InsertByCategory(sorted, x))
    ensures multiset(InsertByCategory(sorted, x)) == multiset(sorted) + multiset{x}
  {
    var r := InsertByCategory(sorted, x);
    if sorted == [] {
    } else {
      var init, last := sorted[..|sorted| - 1], sorted[|sorted| - 1];
      assert sorted == init + [last];
      if LexLe(last.category, x.category) {
        forall i | 0 <= i < |sorted| ensures LexLe(sorted[i].category, x.category) {
          if i < |sorted| - 1 {
            LexLeTransitive(sorted[i].category, last.category, x.category);
          }
        }
      } else {
        LexLeTotal(last.category, x.category);
        InsertByCategoryCorrect(init, x);
        var ins := InsertByCategory(init, x);
        assert r == ins + [last];
        forall k | 0 <= k < |ins| ensures LexLe(ins[k].category, last.category) {
          assert ins[k] in multiset(init) + multiset{x};
          if ins[k] != x {
            var m :| 0 <= m < |init| && init[m] == ins[k];
            assert sorted[m] == init[m];
          }
        }
      }
    }
  }

  /** The sort yields a list sorted by category that is a permutation of its input. */
  lemma {:induction false} SortByCategoryCorrect(cs: seq<CategoryScore>)
    ensures SortedByCategory(SortByCategory(cs))
    ensures multiset(SortByCategory(cs)) == multiset(cs)
  {
    if cs != [] {
      var init, last := cs[..|cs| - 1], cs[|cs| - 1];
      SortByCategoryCorrect(init);
      InsertByCategoryCorrect(SortByCategory(init), last);
      assert SortByCategory(cs) == InsertByCategory(SortByCategory(init), last);
      assert cs == init + [last];
      assert multiset(cs) == multiset(init) + multiset{last};
    }
  }

  /** One step of the insertion: `x` moves left past `prefix[j - 1]`. */
  lemma InsertStep(prefix: seq<CategoryScore>, j: int, x: CategoryScore)
    requires 0 < j <= |prefix|
    requires !LexLe(prefix[j - 1].category, x.category)
    ensures InsertByCategory(prefix[..j], x) + prefix[j..] == InsertByCategory(prefix[..j - 1], x) + prefix[j - 1..]
  {
    assert prefix[..j][..j - 1] == prefix[..j - 1];
    assert prefix[j - 1..] == [prefix[j - 1]] + prefix[j..];
  }

  /** The insertion stops where the element to the left does not sort after `x`. */
  lemma InsertStop(prefix: seq<CategoryScore>, j: int, x: CategoryScore)
    requires 0 <= j <= |prefix|
    requires j == 0 || LexLe(prefix[j - 1].category, x.category)
    ensures InsertByCategory(prefix[..j], x) == prefix[..j] + [x]
  {
  }

  /** Moves `a[i]` left past every element of the prefix `a[..i]` whose category sorts after it. */
  method InsertInPlace(a: array<CategoryScore>, i: int)
    requires 0 <= i < a.Length
    modifies a
    ensures a[..i + 1] == InsertByCategory(old(a[..i]), old(a[i]))
    ensures a[i + 1..] == old(a[i + 1..])
  {
    ghost var prefix := a[..i];
    ghost var rest := a[i + 1..];
    var x := a[i];
    var j := i;
    assert prefix[..j] == prefix && prefix[j..] == [];
    assert a[..] == prefix[..j] + [x] + prefix[j..] + rest;
    while j > 0 && !LexLe(a[j - 1].category, x.category)
      invariant 0 <= j <= i
      invariant a[..] == prefix[..j] + [x] + prefix[j..] + rest
      invariant InsertByCategory(prefix, x) == InsertByCategory(prefix[..j], x) + prefix[j..]
    {
      SwapStep(a[..], prefix, rest, j, x);
      InsertStep(prefix, j, x);
      a[j - 1], a[j] := a[j], a[j - 1];
      j := j - 1;
    }
    InsertDone(a[..], prefix, rest, j, x);
  }

  /** When the insertion stops, the first `|prefix| + 1` elements are `x` inserted into `prefix`, and `rest` follows. */
  lemma InsertDone(s: seq<CategoryScore>, prefix: seq<CategoryScore>, rest: seq<CategoryScore>, j: int, x: CategoryScore)
    requires 0 <= j <= |prefix|
    requires s == prefix[..j] + [x] + prefix[j..] + rest
    requires InsertByCategory(prefix, x) == InsertByCategory(prefix[..j], x) + prefix[j..]
    requires j == 0 || LexLe(prefix[j - 1].category, x.category)
    ensures s[..|prefix| + 1] == InsertByCategory(prefix, x)
    ensures s[|prefix| + 1..] == rest
  {
    InsertStop(prefix, j, x);
    assert s == InsertByCategory(prefix, x) + rest;
  }

  /** Where `x` sits at `j`, the element before it is `prefix[j - 1]`, and swapping the two moves `x` one place left. */
  lemma SwapStep(s: seq<CategoryScore>, prefix: seq<CategoryScore>, rest: seq<CategoryScore>, j: int, x: CategoryScore)
    requires 0 < j <= |prefix|
    requires s == prefix[..j] + [x] + prefix[j..] + rest
    ensures s[j - 1] == prefix[j - 1] && s[j] == x
    ensures s[j - 1 := x][j := prefix[j - 1]] == prefix[..j - 1] + [x] + prefix[j - 1..] + rest
  {
    var t := prefix[..j - 1] + [x] + prefix[j - 1..] + rest;
    var u := s[j - 1 := x][j := prefix[j - 1]];
    assert |u| == |t|;
    forall k | 0 <= k < |u| ensures u[k] == t[k] {
      if k > j {
        assert u[k] == s[k];
      }
    }
  }

  /** `categoryScores.sort(...)`: an in-place, stable insertion sort by category name. */
  method SortInPlace(a: array<CategoryScore>)
    modifies a
    ensures a[..] == SortByCategory(old(a[..]))
  {
    ghost var original := a[..];
    var i := 0;
    while i < a.Length
      invariant 0 <= i <= a.Length
      invariant a[..i] == SortByCategory(original[..i])
      invariant a[i..] == original[i..]
    {
      assert original[..i + 1][..i] == original[..i];
      InsertInPlace(a, i);
      i := i + 1;
    }
    assert original[..a.Length] == original;
  }

  // ---------------------------------------------------------------------
  // The report
  // ---------------------------------------------------------------------

  /** The report the engine builds for `answers` against the catalog `qs`. */
  function Report(iqAnswers: map<int, string>, answers: map<int, string>, qs: seq<Question>, generatedAt: string): GeneratedReport
  {
    var cs := CategoryScores(Buckets(iqAnswers, answers, qs));
    var overall := OverallScore(cs);
    var level := RiskLevelFor(overall);
    GeneratedReport(SortByCategory(cs), overall, level, RiskSummary(level), Recommendations(cs, level), generatedAt)
  }

  /** `Object.entries` of the dictionary whose keys were inserted in the order `keys`. */
  function Entries(keys: seq<string>, byCategory: map<string, seq<int>>): (bs: seq<Bucket>)
    requires forall k | k in keys :: k in byCategory
    ensures |bs| == |keys|
  {
    seq(|keys|, i requires 0 <= i < |keys| => Bucket(keys[i], byCategory[keys[i]]))
  }

  /** One more question extends the buckets by that question's score, if it has one. */
  lemma BucketsStep(iqAnswers: map<int, string>, answers: map<int, string>, questions: seq<Question>, i: int)
    requires 0 <= i < |questions|
    ensures var q := questions[i];
      Buckets(iqAnswers, answers, questions[..i + 1])
        == if QuestionScore(iqAnswers, answers, q).Some?
           then AddScore(Buckets(iqAnswers, answers, questions[..i]), q.category, QuestionScore(iqAnswers, answers, q).value)
           else Buckets(iqAnswers, answers, questions[..i])
  {
    assert questions[..i + 1][..i] == questions[..i];
  }

  lemma EntriesPush(keys: seq<string>, byCategory: map<string, seq<int>>, category: string, score: int)
    requires forall k :: k in keys <==> k in byCategory
    ensures category in byCategory ==>
      Entries(keys, byCategory[category := byCategory[category] + [score]]) == AddScore(Entries(keys, byCategory), category, score)
    ensures category !in byCategory ==>
      Entries(keys + [category], byCategory[category := [score]]) == AddScore(Entries(keys, byCategory), category, score)
  {
    var bs := Entries(keys, byCategory);
    if category in byCategory {
      var i :| 0 <= i < |keys| && keys[i] == category;
      assert bs[i].category == category;
    } else {
      assert !HasBucket(bs, category);
    }
  }

  /**
   * `if (!byCategory[category]) byCategory[category] = []` followed by
   * `byCategory[category].push(score)`, with `keys` recording a new key.
   */
  method PushScore(keys: seq<string>, byCategory: map<string, seq<int>>, category: string, score: int)
    returns (keys': seq<string>, byCategory': map<string, seq<int>>)
    requires forall k :: k in keys <==> k in byCategory
    ensures forall k :: k in keys' <==> k in byCategory'
    ensures Entries(keys', byCategory') == AddScore(Entries(keys, byCategory), category, score)
  {
    EntriesPush(keys, byCategory, category, score);
    keys', byCategory' := keys, byCategory;
    if category !in byCategory' {
      keys' := keys' + [category];
      byCategory' := byCategory'[category := []];
    }
    byCategory' := byCategory'[category := byCategory'[category] + [score]];
    if category in byCategory {
      assert keys' == keys && byCategory' == byCategory[category := byCategory[category] + [score]];
    } else {
      assert byCategory'[category] == [score];
      assert keys' == keys + [category] && byCategory' == byCategory[category := [score]];
    }
  }

  /**
   * The `forEach` callback for one question: skips it when it is unanswered
   * or its answer scores nothing, and otherwise pushes its score.
   */
  method VisitQuestion(keys: seq<string>, byCategory: map<string, seq<int>>, iqAnswers: map<int, string>, answers: map<int, string>, q: Question)
    returns (keys': seq<string>, byCategory': map<string, seq<int>>)
    requires forall k :: k in keys <==> k in byCategory
    ensures forall k :: k in keys' <==> k in byCategory'
    ensures Entries(keys', byCategory') ==
      if QuestionScore(iqAnswers, answers, q).Some?
      then AddScore(Entries(keys, byCategory), q.category, QuestionScore(iqAnswers, answers, q).value)
      else Entries(keys, byCategory)
  {
    keys', byCategory' := keys, byCategory;
    if q.id in answers {
      var score := GetScoreForAnswer(iqAnswers, q.id, answers[q.id], q.questionType.Name());
      if score.Some? {
        keys', byCategory' := PushScore(keys, byCategory, q.category, score.value);
      }
    }
  }

  /**
   * The `questions.forEach` pass: fills the `byCategory` dictionary in place,
   * with `keys` recording the order in which its keys were first inserted.
   */
  method GroupByCategory(questions: seq<Question>, iqAnswers: map<int, string>, answers: map<int, string>)
    returns (keys: seq<string>, byCategory: map<string, seq<int>>)
    ensures forall k :: k in keys <==> k in byCategory
    ensures Entries(keys, byCategory) == Buckets(iqAnswers, answers, questions)
  {
    byCategory := map[];
    keys := [];
    var i := 0;
    while i < |questions|
      invariant 0 <= i <= |questions|
      invariant forall k :: k in keys <==> k in byCategory
      invariant Entries(keys, byCategory) == Buckets(iqAnswers, answers, questions[..i])
    {
      BucketsStep(iqAnswers, answers, questions, i);
      keys, byCategory := VisitQuestion(keys, byCategory, iqAnswers, answers, questions[i]);
      i := i + 1;
    }
    assert questions[..i] == questions;
  }

  /** Builds the recommendation list with `push` and `unshift`, as the source does. */
  method BuildRecommendations(categoryScores: seq<CategoryScore>, riskLevel: RiskLevel) returns (recommendations: seq<string>)
    ensures recommendations == Recommendations(categoryScores, riskLevel)
  {
    recommendations := [];
    var lowCategories := LowCategories(categoryScores);
    if |lowCategories| > 0 {
      var names := Join(Names(lowCategories), " and ");
      recommendations := recommendations + [FocusRecommendation(names)];
    }
    recommendations := recommendations + [ACTIVITY_RECOMMENDATION];
    recommendations := recommendations + [FOLLOW_UP_RECOMMENDATION];
    if riskLevel == Elevated {
      recommendations := [SHARE_RECOMMENDATION] + recommendations;
    }
  }

  /**
   * `generateReportFromAnswers`: groups the scores by category, scores the
   * categories, classifies the overall score, builds the recommendations from
   * the unsorted category list, and only then sorts the category scores in place.
   * `generatedAt` is the timestamp the source reads from the clock.
   */
  method GenerateReportFromAnswers(questions: seq<Question>, iqAnswers: map<int, string>, answers: map<int, string>, generatedAt: string)
    returns (report: GeneratedReport)
    ensures report == Report(iqAnswers, answers, questions, generatedAt)
  {
    var keys, byCategory := GroupByCategory(questions, iqAnswers, answers);
    var categoryScores := CategoryScores(Entries(keys, byCategory));
    assert categoryScores == CategoryScores(Buckets(iqAnswers, answers, questions));

    var overallScore := OverallScore(categoryScores);

    var riskLevel := Low;
    var riskSummary := LOW_SUMMARY;
    if overallScore < 50 {
      riskLevel := Elevated;
      riskSummary := ELEVATED_SUMMARY;
    } else if overallScore < 70 {
      riskLevel := Moderate;
      riskSummary := MODERATE_SUMMARY;
    }

    assert riskLevel == RiskLevelFor(overallScore) && riskSummary == RiskSummary(riskLevel);
    var recommendations := BuildRecommendations(categoryScores, riskLevel);

    var sorted := SortCategoryScores(categoryScores);
    report := GeneratedReport(sorted, overallScore, riskLevel, riskSummary, recommendations, generatedAt);
  }

  /** Copies the category scores into an array and sorts it in place, as `categoryScores.sort(...)` does. */
  method SortCategoryScores(categoryScores: seq<CategoryScore>) returns (sorted: seq<CategoryScore>)
    ensures sorted == SortByCategory(categoryScores)
  {
    var a := new CategoryScore[|categoryScores|](k requires 0 <= k < |categoryScores| => categoryScores[k]);
    assert a[..] == categoryScores;
    SortInPlace(a);
    sorted := a[..];
  }
}
