# Cognitive screening quiz: scoring engine and quiz flow in Dafny

This project models the core of a web-based cognitive screening quiz:

- **QuizData** (`quiz_data.dfy`): the static catalog of 40 questions, the three popups, and the answer key for the reasoning ("iq") questions. The display texts, which nothing modelled reads, are kept in tables of their own (`QUESTION_TEXTS`, `POPUP_TEXTS`) in the order of the records they belong to.
- **ReportUtils** (`report_utils.dfy`): the engine that turns an answer map into a report. It scores each answer. It groups the scores by category in first-appearance order and takes each category's rounded mean. It averages those into an overall score, picks a risk tier and its summary, and builds the recommendation list. Finally it sorts the category scores by name.
  - The grouping pass and the in-place sort are methods with loops; the recommendation builder is a push/unshift method. Each is proved equal to a specification function.
  - Dafny cannot read the clock, so the timestamp is a parameter.
- **ReportProperties** (`report_properties.dfy`): what the report satisfies for any catalog and any answers:
  - ranges;
  - coverage of the categories;
  - question counts;
  - the weighted-mean form of the overall score;
  - risk tiers;
  - the shape of the recommendation list;
  - sortedness and permutation of the category list.
- **StringOrder** (`string_order.dfy`): the order the category sort uses. It is lexicographic order on characters, proved to be a total order.
- **QuizFlow** (`quiz_page.dfy`): the quiz page component as a class. Its fields are the page's state variables. Its methods are the event handlers, each allowed to change only the fields that handler sets.
- **EmailCapture** (`email_capture.dfy`):
  - the address check `^[^\s@]+@[^\s@]+\.[^\s@]+$`, written as a scanning predicate and proved equal to the regular language;
  - the form class whose `isValid` flag tracks it;
  - the submit gate.
- **DoctorQuote** (`doctor_quote.dfy`): the clinician quote picked for the current question, using JavaScript's truncating `%`.
- **Wrappers** (`wrappers.dfy`): `Option`.

## Behaviour of the code worth noting

- **`"Always"` scores 10** (`lib/report-utils.ts:19-24`), not the unknown-answer fallback of 50. `ReportProperties.FrequencyScale` proves this.
- **The overall score is the mean of the already rounded category scores, each repeated `maxQuestions` times** (`lib/report-utils.ts:71-79`). It can therefore differ from the rounded mean of the raw scores. `ReportUtils.OverallScoreIsWeightedMean` and `ReportProperties.ReportOverallScore` state what the code computes. `ReportProperties.OverallFromRoundedCategories` gives an input where the two differ:
  - Memory scores 10, 10 and 20, and one Orientation score is 10.
  - The code gives 12.
  - The rounded raw mean is 13.
- **A reasoning answer counts as correct only when the key entry exists, is non-empty and equals the answer exactly** (`lib/report-utils.ts:39`). A key whose value is the empty string therefore never counts as correct.

## Model

| member | source | states |
|---|---|---|
| `QuizData.TextPerQuestion` | lib/quiz-data.ts:18-290 | There is one display text per catalog question, 40 in all |
| `QuizData.TextPerPopup` | lib/quiz-data.ts:292-314 | There is one title and body per popup, 3 in all |
| `QuizData.CatalogIds` | lib/quiz-data.ts:18-290 | The catalog has 40 questions, with ids 1..40 in order, so ids are unique and id - 1 is the index |
| `QuizData.AnswerKeyNamesIqQuestions` | lib/quiz-data.ts:316-322 | The answer key has exactly the keys 10, 17, 23, 29, 34, and each names a catalog question of type iq |
| `QuizData.IqQuestionsAreKeyed` | lib/quiz-data.ts:18-322 | Every iq question has options and a key entry, and its key entry is one of its options |
| `QuizData.CatalogTypes` | lib/quiz-data.ts:18-290 | The catalog uses only the gender, frequency and iq types; no yes-no or recall questions |
| `QuizData.PopupTriggers` | lib/quiz-data.ts:292-314 | Three popups are triggered after questions 8, 20 and 27: distinct ids that exist in the catalog |
| `QuizData.GenderQuestion` | lib/quiz-data.ts:20-26 | Question 1 is the only gender question; it belongs to Demographics and has four options |
| `StringOrder.LexLe` | lib/report-utils.ts:115 | Specification function: lexicographic order on characters, the model of `localeCompare`; the four lemmas below prove it a total order |
| `StringOrder.LexLeReflexive` | lib/report-utils.ts:115 | The comparison used by the category sort is reflexive |
| `StringOrder.LexLeTotal` | lib/report-utils.ts:115 | The comparison used by the category sort is total |
| `StringOrder.LexLeAntisymmetric` | lib/report-utils.ts:115 | The comparison used by the category sort is antisymmetric |
| `StringOrder.LexLeTransitive` | lib/report-utils.ts:115 | The comparison used by the category sort is transitive |
| `ReportUtils.QuestionScore` | lib/report-utils.ts:53-56 | Specification function: the score of an answered question, or nothing when it is unanswered or its type scores nothing; `GetScoreForAnswer`, `BucketsHoldScores` and `VisitQuestion` state its use |
| `ReportUtils.GetScoreForAnswer` | lib/report-utils.ts:26-45 | null exactly for unknown types; every score is one of 10, 20, 30, 40, 50, 100; yes-no gives 100 iff the answer is "No", else 40; iq gives 100 iff the key entry exists, is non-empty and equals the answer, else 30; gender and recall give 50 |
| `ReportProperties.FrequencyScale` | lib/report-utils.ts:19-33 | Never 100, Sometimes 50, Often 20, Always 10, and any other frequency answer 50 |
| `ReportProperties.IqAgainstCatalogKey` | lib/report-utils.ts:37-40 | Against the catalog key, question 34 scores 100 only for exactly "Cube": "cube" gets 30, and an unkeyed question gets 30 |
| `ReportProperties.ScoresInRange` | lib/report-utils.ts:52-59 | Every score collected for a category lies in [10, 100] |
| `ReportUtils.AddScore` | lib/report-utils.ts:57-58 | Pushes the score onto the category's bucket, leaving the others unchanged, or appends a new one-element bucket when the category has none |
| `ReportUtils.Buckets` | lib/report-utils.ts:52-59 | After the pass over the catalog no bucket is empty and no category has two buckets |
| `ReportUtils.BucketsHoldScores` | lib/report-utils.ts:52-59 | Each bucket holds exactly the scores of its category's answered, scored questions, in catalog order |
| `ReportUtils.BucketsCover` | lib/report-utils.ts:52-59 | A category has a bucket iff one of its questions was answered and scored |
| `ReportUtils.BucketsTotal` | lib/report-utils.ts:52-59 | The bucket sizes add up to the number of answered, scored questions |
| `ReportUtils.BucketsInFirstAppearanceOrder` | lib/report-utils.ts:52-61 | For any two entries i < j, the first scored question of entry i's category comes before that of entry j's in the catalog: entries follow first appearance |
| `ReportUtils.EntriesPush` | lib/report-utils.ts:57-58 | Pushing into the insertion-ordered dictionary, with the key created first when absent, has the same effect on its entries as `AddScore` |
| `ReportUtils.PushScore` | lib/report-utils.ts:57-58 | Creating the key when absent and then pushing the score keeps the key list and the dictionary in step, and changes the entries as `AddScore` does |
| `ReportUtils.VisitQuestion` | lib/report-utils.ts:52-59 | The callback for one question changes the entries as the question's score says: unchanged when it is unanswered or scores nothing, `AddScore` of its score otherwise |
| `ReportUtils.GroupByCategory` | lib/report-utils.ts:50-59 | The forEach pass over the catalog leaves a dictionary whose entries, in insertion order, are exactly `Buckets` |
| `ReportUtils.RoundDiv` | lib/report-utils.ts:64-66 | The result is the integer nearest num/den, with halves rounded up, as Math.round does for non-negative quotients |
| `ReportUtils.RoundDivBounds` | lib/report-utils.ts:64-66 | Rounding a quotient that lies in [lo, hi] gives a result in [lo, hi] |
| `ReportUtils.SumRepeat` | lib/report-utils.ts:71-73 | n copies of v sum to v * n |
| `ReportUtils.AllScoresSums` | lib/report-utils.ts:71-79 | The flattened list has one entry per counted question, and its sum is the count-weighted sum of the category scores |
| `ReportUtils.OverallScoreIsWeightedMean` | lib/report-utils.ts:71-79 | The overall score is the rounded, count-weighted mean of the rounded category scores, or 0 when nothing counted |
| `ReportUtils.CategoryScores` | lib/report-utils.ts:61-69 | Specification function: one category score per bucket, in bucket order; `CategoryScoresFromBuckets` and `ReportCategoryEntries` state its values |
| `ReportUtils.OverallScore` | lib/report-utils.ts:71-79 | Specification function: the rounded mean of the flattened list, or 0 when it is empty; `OverallScoreIsWeightedMean` and `ReportOverallScore` state its value and range |
| `ReportProperties.CategoryScoresFromBuckets` | lib/report-utils.ts:61-69 | Each unsorted category score is the rounded mean of its category's non-empty score list, counts that list, and lies in [10, 100] |
| `ReportProperties.ReportCategoryEntries` | lib/report-utils.ts:61-69 | Each entry of the returned category list is the rounded mean of its category's scores, in [10, 100], with `maxQuestions` equal to their number |
| `ReportProperties.ReportCategoryCoverage` | lib/report-utils.ts:52-69 | A category appears in the report iff one of its questions was answered and scored |
| `ReportProperties.ReportCategoryCounts` | lib/report-utils.ts:61-69 | The `maxQuestions` values of the report add up to the number of scored answers |
| `ReportProperties.ReportOverallScore` | lib/report-utils.ts:71-79 | The overall score is in [0, 100]; it is 0 iff no answer was scored and at least 10 otherwise; it equals the rounded weighted mean of the report's category scores |
| `ReportProperties.OverallFromRoundedCategories` | lib/report-utils.ts:61-79 | An input for which the overall score (12) differs from the rounded mean of the raw scores (13) |
| `ReportUtils.RiskLevelFor` | lib/report-utils.ts:81-92 | Specification function: the tier for an overall score; `ReportRiskTier` and `RiskTierBoundaries` state its thresholds |
| `ReportUtils.RiskSummary` | lib/report-utils.ts:81-92 | Specification function: the summary text of each tier; `ReportRiskTier` states that each tier has its own |
| `ReportProperties.ReportRiskTier` | lib/report-utils.ts:81-92 | Elevated iff the overall score < 50, Moderate iff 50 <= it < 70, Low iff it >= 70; each tier comes with its own summary text; the timestamp is passed through |
| `ReportProperties.RiskTierBoundaries` | lib/report-utils.ts:84-92 | At the boundaries, 0 and 49 are Elevated, 50 and 69 Moderate, and 70 and 100 Low |
| `ReportProperties.NoAnswersNothingScored` | lib/report-utils.ts:52-54 | With an empty answer map no question is scored |
| `ReportProperties.NothingScoredReport` | lib/report-utils.ts:47-121 | When nothing is scored the report has no categories, overall score 0 and tier Elevated, and its recommendations are the sharing, activity and follow-up texts |
| `ReportUtils.LowCategories` | lib/report-utils.ts:95 | The filtered list holds exactly the category scores below 60 |
| `ReportProperties.LowCategoriesNonEmpty` | lib/report-utils.ts:95-96 | Some category is low iff the filtered list is non-empty |
| `ReportUtils.LowSource` | lib/report-utils.ts:95 | The position in the unsorted list that each entry of the filtered list comes from |
| `ReportUtils.LowSourceIs` | lib/report-utils.ts:95 | Entry k of the filtered list is the unsorted list's element at its source position |
| `ReportUtils.LowInOrder` | lib/report-utils.ts:95 | The filter keeps order: later entries of the filtered list come from later positions of the unsorted list |
| `ReportProperties.LowCategoryNames` | lib/report-utils.ts:95-97 | The joined names are exactly the low categories, name k being the category of entry k of the filtered list |
| `ReportProperties.FocusNamesInCatalogOrder` | lib/report-utils.ts:52-97 | The focus text names the low categories in the order of their first scored question in the catalog |
| `ReportProperties.JoinThree` | lib/report-utils.ts:97 | Any three parts are joined with the separator between each two neighbours |
| `ReportProperties.FocusIsNotFixed` | lib/report-utils.ts:98-110 | The focus text never equals one of the three fixed texts |
| `ReportProperties.RecommendationsLength` | lib/report-utils.ts:94-112 | The list has 2 entries, plus 1 when the tier is Elevated and 1 when some category is low, and it ends with the activity and follow-up texts |
| `ReportProperties.RecommendationsShare` | lib/report-utils.ts:108-112 | The sharing text comes first, and appears at all, iff the tier is Elevated |
| `ReportProperties.RecommendationsFocus` | lib/report-utils.ts:95-101 | A focus text is present iff some category is low |
| `ReportProperties.FocusPosition` | lib/report-utils.ts:95-112 | When some category is low, the focus text comes right after the sharing text, or first when that is absent, and it names the low categories joined with " and " |
| `ReportUtils.Recommendations` | lib/report-utils.ts:94-112 | Specification function: the recommendation list; `RecommendationsLength`, `RecommendationsShare`, `RecommendationsFocus`, `FocusPosition` and `FocusNamesInCatalogOrder` state its shape |
| `ReportUtils.BuildRecommendations` | lib/report-utils.ts:94-112 | The push/unshift sequence yields exactly `Recommendations` of the unsorted category list |
| `ReportUtils.InsertByCategoryCorrect` | lib/report-utils.ts:115 | Inserting into a sorted list keeps it sorted and adds exactly the one element |
| `ReportUtils.SortByCategoryCorrect` | lib/report-utils.ts:115 | The sort's result is sorted by category and is a permutation of its input |
| `ReportProperties.SortKeepsTotals` | lib/report-utils.ts:115 | Sorting changes neither the question count nor the weighted sum |
| `ReportProperties.SortKeepsDistinct` | lib/report-utils.ts:115 | Sorting keeps distinct category names distinct |
| `ReportUtils.InsertInPlace` | lib/report-utils.ts:115 | One step of the in-place insertion: the array's prefix becomes the sorted insertion of the element, and the rest is unchanged |
| `ReportUtils.SortInPlace` | lib/report-utils.ts:115 | The in-place sort leaves the array equal to the stable sort by category name of its old contents |
| `ReportUtils.SortCategoryScores` | lib/report-utils.ts:115 | Sorting a copy of the category list in place yields exactly the stable sort by category name |
| `ReportProperties.ReportCategoriesSorted` | lib/report-utils.ts:115 | The returned category list is sorted by name, is a permutation of the unsorted list, and names each category at most once |
| `ReportUtils.Report` | lib/report-utils.ts:47-122 | Specification function: the composition of buckets, category scores, overall score, tier, recommendations and sort; the `Report*` lemmas of `ReportProperties` state its fields |
| `ReportUtils.GenerateReportFromAnswers` | lib/report-utils.ts:47-122 | The method's report equals `Report`, the composition of every step above; the recommendations come from the unsorted list and the sort comes last |
| `QuizFlow.FindPopupIn` | app/quiz/page.tsx:35 | `find` returns the first popup whose trigger is the question id, and nothing iff no popup has that trigger |
| `QuizFlow.PopupSchedule` | app/quiz/page.tsx:34-41 | A popup appears exactly after questions 8, 20 and 27; the one after 27 is the recall check |
| `QuizFlow.QuizPage.constructor` | app/quiz/page.tsx:21-28 | The initial state: the disclaimer is shown, stage quiz, index 0, no answers, no popup, empty email and plan, no recall answer |
| `QuizFlow.QuizPage.AcceptDisclaimer` | app/quiz/page.tsx:187 | Hides the disclaimer and changes nothing else |
| `QuizFlow.QuizPage.CheckForPopup` | app/quiz/page.tsx:34-41 | Reports whether the question has a popup, shows it if so, and otherwise leaves the popup unchanged |
| `QuizFlow.QuizPage.HandleAnswer` | app/quiz/page.tsx:43-57 | Records the answer under the current question's id; then shows the question's popup, or moves to the next question, or after the last one enters the analysis stage |
| `QuizFlow.QuizPage.HandlePopupContinue` | app/quiz/page.tsx:59-66 | Hides the popup, then advances or, on the last question, enters the analysis stage |
| `QuizFlow.QuizPage.HandleRecallAnswer` | app/quiz/page.tsx:68-71 | Records the recall answer, then continues as `HandlePopupContinue` does |
| `QuizFlow.QuizPage.HandleAnalysisComplete` | app/quiz/page.tsx:73-75 | Moves to the email stage |
| `QuizFlow.QuizPage.HandleEmailSubmit` | app/quiz/page.tsx:77-80 | Stores the address and moves to the pricing stage |
| `QuizFlow.QuizPage.HandlePlanSelect` | app/quiz/page.tsx:82-85 | Stores the plan and moves to the success stage |
| `QuizFlow.QuizPage.HandleStartOver` | app/quiz/page.tsx:87-95 | Resets every field except the disclaimer flag to its initial value |
| `QuizFlow.QuizPage.HandleGoBack` | app/quiz/page.tsx:97-101 | Steps back one question unless already on the first; the answers stay |
| `EmailCapture.IndexOfAt` | components/quiz/email-capture.tsx:20 | The index of the first '@', or the length when there is none |
| `EmailCapture.MatchesPattern` | components/quiz/email-capture.tsx:20 | Specification predicate: the language of the regular expression, as three non-empty runs without whitespace or '@' around an '@' and a '.' |
| `EmailCapture.ValidEmail` | components/quiz/email-capture.tsx:20 | The form's scanning check; `ValidEmailIsPattern` proves it accepts exactly `MatchesPattern` |
| `EmailCapture.ValidIsPattern` | components/quiz/email-capture.tsx:20 | Every string the form's check accepts matches the regular expression |
| `EmailCapture.PatternIsValid` | components/quiz/email-capture.tsx:20 | Every string the regular expression matches is accepted by the form's check |
| `EmailCapture.ValidEmailIsPattern` | components/quiz/email-capture.tsx:20 | The form's check accepts exactly the strings the regular expression matches |
| `EmailCapture.ValidHasOneAt` | components/quiz/email-capture.tsx:20 | An accepted address has no whitespace and exactly one '@' |
| `EmailCapture.ValidParts` | components/quiz/email-capture.tsx:20 | An accepted address is a non-empty local part, '@', and a domain; neither part contains whitespace or '@'; the domain has a '.' that is neither its first nor its last character |
| `EmailCapture.NoAtIsInvalid` | components/quiz/email-capture.tsx:20 | The empty string and any string without '@' are rejected |
| `EmailCapture.AcceptedExamples` | components/quiz/email-capture.tsx:20 | "a@b.c" and "a@b..c" (two dots in a row after the '@') are accepted |
| `EmailCapture.AcceptedDotted` | components/quiz/email-capture.tsx:20 | "a.b@c.d.e" is accepted: dots before the '@' and several after it |
| `EmailCapture.RejectedExamples` | components/quiz/email-capture.tsx:20 | "a@b.", "a@.c", "@b.c", "a@@b.c" and "a b@c.d" are rejected |
| `EmailCapture.EmailForm.constructor` | components/quiz/email-capture.tsx:15-16 | Starts with an empty address that is marked invalid |
| `EmailCapture.EmailForm.HandleEmailChange` | components/quiz/email-capture.tsx:18-21 | Stores the value, and the validity flag is the pattern test of that value |
| `EmailCapture.EmailForm.Submit` | components/quiz/email-capture.tsx:111-113 | Hands the address on iff it matches the pattern, and then hands on exactly that address |
| `DoctorQuote.Tagged` | components/quiz/doctor-quote.tsx:58 | The filter keeps exactly the entries whose tag equals the category |
| `DoctorQuote.TaggedSource` | components/quiz/doctor-quote.tsx:58 | The table position that each entry of the tagged list comes from |
| `DoctorQuote.TaggedSourceIs` | components/quiz/doctor-quote.tsx:58 | Entry k of the tagged list is the table entry at its source position |
| `DoctorQuote.TaggedInOrder` | components/quiz/doctor-quote.tsx:58 | The filter keeps table order: later entries of the tagged list come from later table positions |
| `DoctorQuote.JsRem` | components/quiz/doctor-quote.tsx:60-62 | JavaScript's `%`: the remainder takes the sign of the dividend and satisfies a == n * trunc(a / n) + r |
| `DoctorQuote.GetQuote` | components/quiz/doctor-quote.tsx:57-63 | `getQuote`, with `None` where the source throws; `GetQuoteBranches`, `GetQuoteFromTable`, `NegativePosition`, `QuotePeriodic` and `PageQuoteCycles` state its behaviour |
| `DoctorQuote.GetQuoteBranches` | components/quiz/doctor-quote.tsx:57-63 | For a position >= 0, the quote is entry position mod n of the tagged list when the category has tagged quotes, and of the whole table otherwise |
| `DoctorQuote.GetQuoteFromTable` | components/quiz/doctor-quote.tsx:57-63 | For a position >= 0 there is always a quote, and it is one of the table's |
| `DoctorQuote.NegativePosition` | components/quiz/doctor-quote.tsx:60-62 | A negative position reads past the list, and the source throws, exactly when it is not a multiple of the list length |
| `DoctorQuote.QuotePeriodic` | components/quiz/doctor-quote.tsx:57-63 | Positions p and p + n get the same quote, where n is the length of the list indexed |
| `DoctorQuote.TagsAreLowerCase` | components/quiz/doctor-quote.tsx:7-48 | Every tag in the table starts with a lower-case letter |
| `DoctorQuote.CapitalisedIsUntagged` | components/quiz/doctor-quote.tsx:58 | A category starting with a capital letter has no tagged quotes |
| `DoctorQuote.TaggedKeeps` | components/quiz/doctor-quote.tsx:58 | An entry whose tag equals the category is kept by the filter |
| `DoctorQuote.MemoryTagged` | components/quiz/doctor-quote.tsx:7-16 | The first two quotes are among those tagged "memory" |
| `DoctorQuote.CaseSensitiveMatch` | components/quiz/doctor-quote.tsx:58 | Tags match exactly: "Memory", the catalog's spelling, tags no quote |
| `DoctorQuote.CapitalisedCycles` | components/quiz/doctor-quote.tsx:57-63 | A capitalised category cycles through the whole table of 10 by position |
| `DoctorQuote.CatalogCategoriesCapitalised` | lib/quiz-data.ts:18-290 | Every catalog category starts with a capital letter |
| `DoctorQuote.PageQuoteCycles` | app/quiz/page.tsx:261-264 | On the quiz page, where the position is the question index and the category is that question's own, the quote is always entry index mod 10 of the whole table |

## Left out

- The report-draft helpers after the engine (`lib/report-utils.ts:124-153`) and every other page and component: they render, store or route, and compute nothing the report depends on.
- The rendering of every screen: progress bar, animations, modals, analysis screen, pricing cards, success screen.
- Stripe checkout and navigation.
- `generatedAt` is a parameter, since the engine reads it from the system clock (`new Date().toISOString()`).
- ReportUtils.GetScoreForAnswer: a lookup of an inherited property name (such as "constructor") in the frequency table is not modelled. In JavaScript that finds the prototype's member instead of falling back to 50. The model treats the table as holding only its four entries.
- ReportUtils.GroupByCategory: dictionary keys that look like integers are not modelled. JavaScript lists them before other keys in `Object.entries`. The model keeps plain insertion order, which is exact for the catalog's category names. A category named after an inherited property (such as "constructor") is not modelled either: there `!byCategory[q.category]` is false, so no array is created and the following `push` throws, while the model treats the name as a fresh key. No catalog category is such a name.
- ReportUtils.SortInPlace: `localeCompare` is modelled as lexicographic order on characters. Locale collation (accents, case folding) is not modelled. The catalog's category names are capitalised ASCII words, and both orders sort them the same way.
- ReportUtils.RoundDiv: the division is exact, whereas the source divides in floating point and then rounds. At this scale (at most 40 scores of at most 100) the two agree.
- QuizFlow.QuizPage.HandleAnswer: the 300 ms delay is not modelled; the delayed step runs at once here. In the source the answer buttons stay live during the delay, and each timeout advances with `prev => prev + 1`. Two quick answers therefore advance twice: one question is skipped, and from index 38 the index reaches 40, where `questions[40]` is undefined and reading `currentQuestion.id` throws. The atomic model cannot reach that state, so `QuizPage.Valid()` (index below 40) holds here but not in the source under such an interleaving.
- QuizFlow.QuizPage: React's batching of state updates and re-rendering is not modelled. Each handler is one atomic state change.
- Reading the email field from the keyboard and the form's visual feedback are not modelled. Only `handleEmailChange` and the submit gate are.
- EmailCapture: strings are sequences of Unicode scalar values, whereas JavaScript strings are UTF-16 code units. The regular expression has no `u` flag. For characters outside the Basic Multilingual Plane the code-unit view differs, but no such character is whitespace or '@', so acceptance is the same.
- DoctorQuote.GetQuote: non-integer or non-finite question positions are not modelled; positions are integers. A throwing `undefined.quote` is modelled as `None`. The quote table is a parameter, and the page passes `DOCTOR_QUOTES`.
