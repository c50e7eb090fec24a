/**
 * The clinician quote shown above each question: the quotes tagged with the
 * question's category if there are any, otherwise the whole table, indexed
 * by the question position with JavaScript's remainder.
 */
module DoctorQuote {
  import opened Wrappers
  import opened QuizData

  datatype QuoteEntry = QuoteEntry(quote: string, category: string)

  const DOCTOR_QUOTES: seq<QuoteEntry> := [
      QuoteEntry("Each question in this assessment has been carefully calibrated based on decades of clinical research. Answer honestly for the most accurate results.", "memory"),
      QuoteEntry("Memory fluctuations are normal. Our questions are designed to distinguish everyday forgetfulness from patterns that may need attention.", "memory"),
      QuoteEntry("Executive function is crucial for daily life. These questions help us understand how your brain processes complex tasks.", "executive"),
      QuoteEntry("Don't be alarmed by challenging questions. They're designed to thoroughly assess different cognitive domains.", "attention"),
      QuoteEntry("Attention and focus vary throughout the day. Our assessment accounts for natural variations to give you accurate insights.", "attention"),
      QuoteEntry("Language processing is a complex cognitive skill. These questions help evaluate multiple brain regions working together.", "language"),
      QuoteEntry("Orientation questions may seem simple, but they provide valuable information about cognitive health patterns.", "orientation"),
      QuoteEntry("Emotional well-being is deeply connected to cognitive function. Your honest answers help us see the complete picture.", "mood"),
      QuoteEntry("Our team of neurologists and cognitive scientists has validated every question against clinical benchmarks.", "iq"),
      QuoteEntry("Take your time with each question. There are no time limits, and thoughtful answers lead to better insights.", "general")
    ]

  /** `quotes.filter(q => q.category === category)`: the entries tagged exactly `category`, in table order. */
  function Tagged(quotes: seq<QuoteEntry>, category: string): (r: seq<QuoteEntry>)
    ensures |r| <= |quotes|
    ensures forall x :: x in r <==> x in quotes && x.category == category
  {
    if quotes == [] then []
    else (if quotes[0].category == category then [quotes[0]] else []) + Tagged(quotes[1..], category)
  }

  /** The position in `quotes` of entry `k` of the tagged list. */
  function TaggedSource(quotes: seq<QuoteEntry>, category: string, k: int): (i: nat)
    requires 0 <= k < |Tagged(quotes, category)|
    decreases |quotes|
    ensures i < |quotes|
  {
    var tail := Tagged(quotes[1..], category);
    if quotes[0].category == category then
      assert Tagged(quotes, category) == [quotes[0]] + tail;
      if k == 0 then 0 else 1 + TaggedSource(quotes[1..], category, k - 1)
    else
      assert Tagged(quotes, category) == tail;
      1 + TaggedSource(quotes[1..], category, k)
  }

  /** Entry `k` of the tagged list is the table entry at `TaggedSource(quotes, category, k)`. */
  lemma {:induction false} TaggedSourceIs(quotes: seq<QuoteEntry>, category: string, k: int)
    requires 0 <= k < |Tagged(quotes, category)|
    decreases |quotes|
    ensures quotes[TaggedSource(quotes, category, k)] == Tagged(quotes, category)[k]
  {
    var tail := Tagged(quotes[1..], category);
    if quotes[0].category == category {
      assert Tagged(quotes, category) == [quotes[0]] + tail;
      if k > 0 {
        TaggedSourceIs(quotes[1..], category, k - 1);
      }
    } else {
      assert Tagged(quotes, category) == tail;
      TaggedSourceIs(quotes[1..], category, k);
    }
  }

  /** The filter keeps table order: later entries of the tagged list come from later table positions. */
  lemma {:induction false} TaggedInOrder(quotes: seq<QuoteEntry>, category: string, k: int, k2: int)
    requires 0 <= k < k2 < |Tagged(quotes, category)|
    decreases |quotes|
    ensures TaggedSource(quotes, category, k) < TaggedSource(quotes, category, k2)
  {
    if quotes[0].category == category {
      assert TaggedSource(quotes, category, k2) == 1 + TaggedSource(quotes[1..], category, k2 - 1);
      if k == 0 {
        assert TaggedSource(quotes, category, k) == 0;
      } else {
        assert TaggedSource(quotes, category, k) == 1 + TaggedSource(quotes[1..], category, k - 1);
        TaggedInOrder(quotes[1..], category, k - 1, k2 - 1);
      }
    } else {
      assert TaggedSource(quotes, category, k) == 1 + TaggedSource(quotes[1..], category, k);
      assert TaggedSource(quotes, category, k2) == 1 + TaggedSource(quotes[1..], category, k2);
      TaggedInOrder(quotes[1..], category, k, k2);
    }
  }

  /** The truncating quotient that goes with `JsRem`. */
  function JsQuot(a: int, n: int): int
    requires n > 0
  {
    if a >= 0 then a / n else -((-a) / n)
  }

  /** JavaScript's `a % n` for `n > 0`: the remainder of truncating division, with the sign of `a`. */
  function JsRem(a: int, n: int): (r: int)
    requires n > 0
    ensures -n < r < n
    ensures a >= 0 ==> r == a % n
    ensures a < 0 ==> r <= 0 && -r == (-a) % n
    ensures a == n * JsQuot(a, n) + r
  {
    if a >= 0 then a % n else -((-a) % n)
  }

  /** `list[k].quote`, or None where the source would read `.quote` of `undefined` and throw. */
  function QuoteAt(list: seq<QuoteEntry>, k: int): Option<string>
  {
    if 0 <= k < |list| then Some(list[k].quote) else None
  }

  /** `getQuote()` over the table `quotes`, for position `currentQuestion` and category `category`. */
  function GetQuote(quotes: seq<QuoteEntry>, currentQuestion: int, category: string): Option<string>
  {
    var categoryQuotes := Tagged(quotes, category);
    if |categoryQuotes| > 0 then QuoteAt(categoryQuotes, JsRem(currentQuestion, |categoryQuotes|))
    else if |quotes| > 0 then QuoteAt(quotes, JsRem(currentQuestion, |quotes|))
    else None
  }

  /** The length of the list `getQuote` indexes for `category`. */
  function Period(quotes: seq<QuoteEntry>, category: string): nat
  {
    if |Tagged(quotes, category)| > 0 then |Tagged(quotes, category)| else |quotes|
  }

  /**
   * For a non-negative position the quote is entry `currentQuestion mod n`
   * of the tagged list when the category has tagged quotes, and of the
   * whole table otherwise.
   */
  lemma GetQuoteBranches(quotes: seq<QuoteEntry>, currentQuestion: int, category: string)
    requires currentQuestion >= 0 && |quotes| > 0
    ensures var cq := Tagged(quotes, category);
      GetQuote(quotes, currentQuestion, category)
        == if |cq| > 0 then Some(cq[currentQuestion % |cq|].quote)
           else Some(quotes[currentQuestion % |quotes|].quote)
  {
  }

  /** For a non-negative position the quote is always one of the table's quotes. */
  lemma GetQuoteFromTable(quotes: seq<QuoteEntry>, currentQuestion: int, category: string)
    requires currentQuestion >= 0 && |quotes| > 0
    ensures GetQuote(quotes, currentQuestion, category).Some?
    ensures exists k | 0 <= k < |quotes| :: quotes[k].quote == GetQuote(quotes, currentQuestion, category).value
  {
    var cq := Tagged(quotes, category);
    if |cq| > 0 {
      var x := cq[currentQuestion % |cq|];
      assert x in cq;
      var k :| 0 <= k < |quotes| && quotes[k] == x;
    } else {
      assert quotes[currentQuestion % |quotes|] in quotes;
    }
  }

  /**
   * A negative position makes the source throw, unless it is a multiple of
   * the list length: JavaScript's remainder is then 0 (or -0) and picks the
   * first entry.
   */
  lemma NegativePosition(quotes: seq<QuoteEntry>, currentQuestion: int, category: string)
    requires currentQuestion < 0 && |quotes| > 0
    ensures GetQuote(quotes, currentQuestion, category).None? <==> (-currentQuestion) % Period(quotes, category) != 0
  {
  }

  /** `a` divided by `n` has quotient `q` and remainder `r` when `a == n * q + r` and `0 <= r < n`. */
  lemma DivModUnique(a: int, n: int, q: int, r: int)
    requires n > 0 && 0 <= r < n && a == n * q + r
    ensures a / n == q && a % n == r
  {
    var q0, r0 := a / n, a % n;
    assert n * (q - q0) == r0 - r;
    if q > q0 {
      MulAtLeast(n, q - q0);
    } else if q < q0 {
      MulAtLeast(n, q0 - q);
    }
  }

  lemma MulAtLeast(n: int, d: int)
    requires n > 0 && d >= 1
    ensures n * d >= n
  {
    assert n * d == n + n * (d - 1);
  }

  /** Positions `p` and `p + n` get the same quote, `n` being the length of the indexed list. */
  lemma QuotePeriodic(quotes: seq<QuoteEntry>, currentQuestion: int, category: string)
    requires currentQuestion >= 0 && |quotes| > 0
    ensures GetQuote(quotes, currentQuestion, category) == GetQuote(quotes, currentQuestion + Period(quotes, category), category)
  {
    var n := Period(quotes, category);
    DivModUnique(currentQuestion + n, n, currentQuestion / n + 1, currentQuestion % n);
  }

  // ---------------------------------------------------------------------
  // The table the page uses
  // ---------------------------------------------------------------------

  /** Every tag of the table starts with a lower-case letter. */
  lemma TagsAreLowerCase()
    ensures forall x | x in DOCTOR_QUOTES :: |x.category| > 0 && 'a' <= x.category[0] <= 'z'
  {
  }

  /** No entry of a table whose tags all start in lower case is tagged with a capitalised category. */
  lemma {:induction false} CapitalisedIsUntaggedIn(quotes: seq<QuoteEntry>, category: string)
    requires forall x | x in quotes :: |x.category| > 0 && 'a' <= x.category[0] <= 'z'
    requires |category| > 0 && 'A' <= category[0] <= 'Z'
    ensures Tagged(quotes, category) == []
  {
    if quotes != [] {
      assert quotes[0] in quotes;
      assert forall x | x in quotes[1..] :: x in quotes;
      CapitalisedIsUntaggedIn(quotes[1..], category);
    }
  }

  /** A category that starts with a capital letter has no tagged quotes, so it takes the global cycle. */
  lemma CapitalisedIsUntagged(category: string)
    requires |category| > 0 && 'A' <= category[0] <= 'Z'
    ensures Tagged(DOCTOR_QUOTES, category) == []
  {
    TagsAreLowerCase();
    CapitalisedIsUntaggedIn(DOCTOR_QUOTES, category);
  }

  /** An entry tagged `category` is among the quotes the filter keeps. */
  lemma TaggedKeeps(quotes: seq<QuoteEntry>, category: string, k: int)
    requires 0 <= k < |quotes| && quotes[k].category == category
    ensures quotes[k] in Tagged(quotes, category)
  {
    assert quotes[k] in quotes;
  }

  /** The first two quotes are tagged "memory". */
  lemma MemoryTagged(k: int)
    requires k == 0 || k == 1
    ensures DOCTOR_QUOTES[k] in Tagged(DOCTOR_QUOTES, "memory")
  {
    TaggedKeeps(DOCTOR_QUOTES, "memory", k);
  }

  /** Matching is exact: "Memory", the catalog's spelling, tags no quote. */
  lemma CaseSensitiveMatch()
    ensures Tagged(DOCTOR_QUOTES, "Memory") == []
  {
    CapitalisedIsUntagged("Memory");
  }

  /** A capitalised category cycles through the whole table by position. */
  lemma CapitalisedCycles(currentQuestion: int, category: string)
    requires currentQuestion >= 0
    requires |category| > 0 && 'A' <= category[0] <= 'Z'
    ensures GetQuote(DOCTOR_QUOTES, currentQuestion, category) == Some(DOCTOR_QUOTES[currentQuestion % 10].quote)
  {
    CapitalisedIsUntagged(category);
  }

  /** Every category of the catalog starts with a capital letter. */
  lemma CatalogCategoriesCapitalised()
    ensures forall i | 0 <= i < |QUESTIONS| :: |QUESTIONS[i].category| > 0 && 'A' <= QUESTIONS[i].category[0] <= 'Z'
  {
  }

  /**
   * On the quiz page, where the position is the question index and the
   * category is the question's own, the quote always cycles through the
   * whole table.
   */
  lemma PageQuoteCycles(index: int)
    requires 0 <= index < |QUESTIONS|
    ensures GetQuote(DOCTOR_QUOTES, index, QUESTIONS[index].category) == Some(DOCTOR_QUOTES[index % 10].quote)
  {
    CatalogCategoriesCapitalised();
    CapitalisedCycles(index, QUESTIONS[index].category);
  }
}
