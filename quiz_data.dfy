/**
 * The static question catalog, the popup list and the answer key for the
 * reasoning ("iq") questions. All of it is constant data that the scoring
 * engine and the quiz flow only read.
 */
module QuizData {
  import opened Wrappers

  /** The closed set of question tags. */
  datatype QuestionType = Frequency | YesNo | Iq | Gender | Recall {
    /** The tag as the source spells it; the engine dispatches on this string. */
    function Name(): string {
      match this
      case Frequency => "frequency"
      case YesNo => "yes-no"
      case Iq => "iq"
      case Gender => "gender"
      case Recall => "recall"
    }
  }

  /** A catalog entry. Its display text is kept apart, in `QUESTION_TEXTS`: nothing that is modelled reads it. */
  datatype Question = Question(
    id: int,
    questionType: QuestionType,
    category: string,
    options: Option<seq<string>>)

  datatype PopupType = WarningPopup | InfoPopup | RecallPopup

  /** A popup entry. Its title and body are kept apart, in `POPUP_TEXTS`: nothing that is modelled reads them. */
  datatype PopupData = PopupData(
    triggerAfterQuestion: int,
    popupType: PopupType)

  datatype PopupText = PopupText(title: string, content: string)

  /** The catalog, in the order the quiz presents it. */
  const QUESTIONS: seq<Question> := [
      Question(1, Gender, "Demographics", Some(["Male", "Female", "Other", "Prefer not to say"])),
      Question(2, Frequency, "Memory", None),
      Question(3, Frequency, "Memory", None),
      Question(4, Frequency, "Memory", None),
      Question(5, Frequency, "Memory", None),
      Question(6, Frequency, "Memory", None),
      Question(7, Frequency, "Memory", None),
      Question(8, Frequency, "Memory", None),
      Question(9, Frequency, "Memory", None),
      Question(10, Iq, "Cognitive", Some(["120 miles", "150 miles", "180 miles", "100 miles"])),
      Question(11, Frequency, "Memory", None),
      Question(12, Frequency, "Memory", None),
      Question(13, Frequency, "Memory", None),
      Question(14, Frequency, "Memory", None),
      Question(15, Frequency, "Memory", None),
      Question(16, Frequency, "Memory", None),
      Question(17, Iq, "Cognitive", Some(["36", "40", "42", "44"])),
      Question(18, Frequency, "Executive Function", None),
      Question(19, Frequency, "Executive Function", None),
      Question(20, Frequency, "Executive Function", None),
      Question(21, Frequency, "Executive Function", None),
      Question(22, Frequency, "Executive Function", None),
      Question(23, Iq, "Cognitive", Some(["Yes", "No", "Cannot determine", "Sometimes"])),
      Question(24, Frequency, "Attention", None),
      Question(25, Frequency, "Attention", None),
      Question(26, Frequency, "Attention", None),
      Question(27, Frequency, "Attention", None),
      Question(28, Frequency, "Attention", None),
      Question(29, Iq, "Cognitive", Some(["8", "9", "17", "0"])),
      Question(30, Frequency, "Orientation", None),
      Question(31, Frequency, "Orientation", None),
      Question(32, Frequency, "Orientation", None),
      Question(33, Frequency, "Orientation", None),
      Question(34, Iq, "Cognitive", Some(["Circle", "Square", "Triangle", "Cube"])),
      Question(35, Frequency, "Language", None),
      Question(36, Frequency, "Language", None),
      Question(37, Frequency, "Language", None),
      Question(38, Frequency, "Language", None),
      Question(39, Frequency, "Mood & Behavior", None),
      Question(40, Frequency, "Mood & Behavior", None)
    ]

  const POPUPS: seq<PopupData> := [
      PopupData(8, WarningPopup),
      PopupData(20, InfoPopup),
      PopupData(27, RecallPopup)
    ]

  /** The title and body of each popup, in the order of `POPUPS`. */
  const POPUP_TEXTS: seq<PopupText> := [
      PopupText("Medical Notice",
        "Based on your responses, we're detecting patterns that warrant attention.\n\nThis assessment helps identify cognitive changes early.\n\nContinuing will provide you with a comprehensive analysis of your results."),
      PopupText("Progress Update",
        "You're halfway through the assessment.\n\nOur system is analyzing your response patterns to provide accurate insights.\n\nPlease continue answering honestly for the most reliable results."),
      PopupText("Memory Check",
        "Do you remember the first question we asked you at the start of this assessment?\n\nWe asked about your gender to help personalize your results.\n\nThis memory check helps us evaluate your recall ability.")
    ]

  /** The single correct option of each reasoning question, keyed by question id. */
  const IQ_ANSWERS: map<int, string> := map[
      10 := "150 miles",
      17 := "42",
      23 := "Yes",
      29 := "9",
      34 := "Cube"
    ]

  /** The display text of each catalog question, in catalog order. */
  const QUESTION_TEXTS: seq<string> := [
      "What is your gender?",
      "Do you frequently forget recent conversations?",
      "Do you have trouble recalling the names of people you meet often?",
      "Do you misplace items frequently?",
      "Do you have difficulty remembering appointments or events?",
      "Can you easily remember details from recent television shows or books?",
      "Do you find yourself asking the same questions repeatedly?",
      "Is it challenging to remember recent instructions?",
      "Do you frequently forget what you intended to do upon entering a room?",
      "If a train travels 60 miles in 1 hour, how far will it travel in 2.5 hours?",
      "Do you have trouble recalling details from recent meals?",
      "Do you easily recall phone numbers you recently learned?",
      "Do you struggle to remember where you parked your car?",
      "Are you forgetting to perform daily tasks?",
      "Do you rely heavily on reminders or notes?",
      "Do you find yourself confused about recent family activities?",
      "Which number comes next in the sequence: 2, 6, 12, 20, 30, ?",
      "Do you find planning tasks challenging?",
      "Is it difficult for you to solve simple problems?",
      "Do you struggle with managing your time effectively?",
      "Can you easily organize your daily activities?",
      "Do you find following recipes or instructions challenging?",
      "If all Bloops are Razzles and all Razzles are Lazzles, are all Bloops definitely Lazzles?",
      "Is maintaining focus on complex tasks difficult for you?",
      "Do you frequently start tasks and leave them unfinished?",
      "Do you find it hard to concentrate on conversations?",
      "Can you easily maintain attention when reading?",
      "Do you frequently lose focus when watching television?",
      "A farmer has 17 sheep. All but 9 die. How many sheep are left?",
      "Do you frequently feel confused about the date?",
      "Can you easily remember the day of the week?",
      "Do you find yourself unsure about your current location occasionally?",
      "Do you frequently forget the month or year?",
      "Which shape does not belong: Circle, Square, Triangle, Cube?",
      "Do you frequently have trouble finding the right word?",
      "Is it challenging for you to understand common phrases or expressions?",
      "Do you often forget names of common objects?",
      "Do you struggle to follow conversations involving multiple people?",
      "Do you often feel unusually sad or depressed?",
      "Have family or friends commented on changes in your mood or behavior?"
    ]

  /** There is one text per catalog question. */
  lemma TextPerQuestion()
    ensures |QUESTION_TEXTS| == |QUESTIONS| == 40
  {
  }

  /** There is one title and body per popup. */
  lemma TextPerPopup()
    ensures |POPUP_TEXTS| == |POPUPS| == 3
  {
  }

  /** Ids run 1..40 in catalog order, so they are unique and id - 1 is the index. */
  lemma CatalogIds()
    ensures |QUESTIONS| == 40
    ensures forall i | 0 <= i < |QUESTIONS| :: QUESTIONS[i].id == i + 1
    ensures forall i, j | 0 <= i < j < |QUESTIONS| :: QUESTIONS[i].id != QUESTIONS[j].id
  {
  }

  /** Every key of the answer key names a reasoning question. */
  lemma AnswerKeyNamesIqQuestions()
    ensures IQ_ANSWERS.Keys == {10, 17, 23, 29, 34}
    ensures forall k | k in IQ_ANSWERS :: 1 <= k <= |QUESTIONS| && QUESTIONS[k - 1].questionType == Iq
  {
    assert forall k | k in IQ_ANSWERS :: k == 10 || k == 17 || k == 23 || k == 29 || k == 34;
    assert QUESTIONS[9].questionType == Iq && QUESTIONS[16].questionType == Iq && QUESTIONS[22].questionType == Iq;
    assert QUESTIONS[28].questionType == Iq && QUESTIONS[33].questionType == Iq;
  }

  /** Every reasoning question has options, a key entry, and its key entry is one of its options. */
  lemma IqQuestionsAreKeyed()
    ensures forall i | 0 <= i < |QUESTIONS| && QUESTIONS[i].questionType == Iq ::
      && QUESTIONS[i].options.Some?
      && QUESTIONS[i].id in IQ_ANSWERS
      && IQ_ANSWERS[QUESTIONS[i].id] in QUESTIONS[i].options.value
  {
  }

  /** The catalog uses only the gender, frequency and reasoning types. */
  lemma CatalogTypes()
    ensures forall i | 0 <= i < |QUESTIONS| :: QUESTIONS[i].questionType in {Gender, Frequency, Iq}
    ensures forall i | 0 <= i < |QUESTIONS| :: QUESTIONS[i].questionType != YesNo && QUESTIONS[i].questionType != Recall
  {
  }

  /** The popup triggers are 8, 20 and 27: distinct ids of catalog questions. */
  lemma PopupTriggers()
    ensures |POPUPS| == 3
    ensures POPUPS[0].triggerAfterQuestion == 8 && POPUPS[1].triggerAfterQuestion == 20 && POPUPS[2].triggerAfterQuestion == 27
    ensures forall i, j | 0 <= i < j < |POPUPS| :: POPUPS[i].triggerAfterQuestion != POPUPS[j].triggerAfterQuestion
    ensures forall p | p in POPUPS :: exists i :: 0 <= i < |QUESTIONS| && QUESTIONS[i].id == p.triggerAfterQuestion
  {
    assert QUESTIONS[7].id == 8 && QUESTIONS[19].id == 20 && QUESTIONS[26].id == 27;
  }

  /** Question 1 is the only gender question; it is in "Demographics" and has four options. */
  lemma GenderQuestion()
    ensures QUESTIONS[0].id == 1 && QUESTIONS[0].questionType == Gender
    ensures QUESTIONS[0].category == "Demographics"
    ensures QUESTIONS[0].options == Some(["Male", "Female", "Other", "Prefer not to say"])
    ensures forall i | 0 < i < |QUESTIONS| :: QUESTIONS[i].questionType != Gender
  {
  }
}
