/**
 * The quiz page's state machine: which stage is shown, which question is
 * current, the answers given so far, the popup on screen, and what the user
 * entered after the quiz. Each event handler is a method that updates only
 * the fields it names in its `modifies` clause.
 */
module QuizFlow {
  import opened Wrappers
  import opened QuizData

  datatype Stage = Quiz | Analyzing | Email | Pricing | Success

  /** `popups.find(p => p.triggerAfterQuestion === questionId)` over `ps`. */
  function FindPopupIn(ps: seq<PopupData>, questionId: int): (r: Option<PopupData>)
    ensures r.Some? ==> r.value in ps && r.value.triggerAfterQuestion == questionId
    ensures r.None? <==> forall p | p in ps :: p.triggerAfterQuestion != questionId
    ensures r.Some? ==> exists k | 0 <= k < |ps| :: ps[k] == r.value && forall m | 0 <= m < k :: ps[m].triggerAfterQuestion != questionId
  {
    if ps == [] then None
    else if ps[0].triggerAfterQuestion == questionId then Some(ps[0])
    else
      var r := FindPopupIn(ps[1..], questionId);
      if r.Some? then
        var k :| 0 <= k < |ps[1..]| && ps[1..][k] == r.value && forall m | 0 <= m < k :: ps[1..][m].triggerAfterQuestion != questionId;
        assert ps[k + 1] == r.value;
        r
      else r
  }

  /** The popup the catalog attaches to question `questionId`, if any. */
  function FindPopup(questionId: int): Option<PopupData>
  {
    FindPopupIn(POPUPS, questionId)
  }

  /** Exactly questions 8, 20 and 27 raise a popup: the warning, the progress note and the recall check. */
  lemma PopupSchedule(questionId: int)
    ensures FindPopup(questionId).Some? <==> questionId == 8 || questionId == 20 || questionId == 27
    ensures FindPopup(8) == Some(POPUPS[0]) && FindPopup(20) == Some(POPUPS[1]) && FindPopup(27) == Some(POPUPS[2])
    ensures FindPopup(27).value.popupType == RecallPopup
  {
    assert POPUPS[0].triggerAfterQuestion == 8 && POPUPS[1].triggerAfterQuestion == 20 && POPUPS[2].triggerAfterQuestion == 27;
    assert POPUPS[1..][1..][1..] == [];
  }

  /** The page component's state, with the values `useState` starts from. */
  class QuizPage {
    var showDisclaimer: bool
    var stage: Stage
    var currentQuestionIndex: int
    var answers: map<int, string>
    var currentPopup: Option<PopupData>
    var email: string
    var selectedPlan: string
    var recallAnswer: Option<bool>

    /** The current index always names a catalog question, and a shown popup is one of the catalog's. */
    predicate Valid()
      reads this
    {
      && 0 <= currentQuestionIndex < |QUESTIONS|
      && (currentPopup.Some? ==> currentPopup.value in POPUPS)
    }

    /** The id of the question on screen. */
    function CurrentQuestionId(): int
      reads this
      requires Valid()
    {
      QUESTIONS[currentQuestionIndex].id
    }

    constructor ()
      ensures Valid()
      ensures showDisclaimer && stage == Quiz && currentQuestionIndex == 0 && answers == map[]
      ensures currentPopup == None && email == "" && selectedPlan == "" && recallAnswer == None
    {
      showDisclaimer := true;
      stage := Quiz;
      currentQuestionIndex := 0;
      answers := map[];
      currentPopup := None;
      email := "";
      selectedPlan := "";
      recallAnswer := None;
    }

    /** The disclaimer's "I Understand" button. */
    method AcceptDisclaimer()
      modifies this`showDisclaimer
      ensures !showDisclaimer
    {
      showDisclaimer := false;
    }

    /** `checkForPopup`: shows the popup attached to `questionId` and reports whether there was one. */
    method CheckForPopup(questionId: int) returns (hasPopup: bool)
      requires Valid()
      modifies this`currentPopup
      ensures Valid()
      ensures hasPopup <==> FindPopup(questionId).Some?
      ensures currentPopup == if hasPopup then FindPopup(questionId) else old(currentPopup)
    {
      var popup := FindPopup(questionId);
      if popup.Some? {
        currentPopup := popup;
        return true;
      }
      return false;
    }

    /**
     * `handleAnswer`: records the answer under the current question's id, then
     * (the delayed step, taken at once here) shows that question's popup if it
     * has one, and otherwise moves to the next question or, after the last,
     * to the analysis stage.
     */
    method HandleAnswer(answer: string)
      requires Valid()
      modifies this`answers, this`currentPopup, this`currentQuestionIndex, this`stage
      ensures Valid()
      ensures answers == old(answers)[QUESTIONS[old(currentQuestionIndex)].id := answer]
      ensures var popup := FindPopup(QUESTIONS[old(currentQuestionIndex)].id);
        if popup.Some? then
          currentPopup == popup && currentQuestionIndex == old(currentQuestionIndex) && stage == old(stage)
        else
          && currentPopup == old(currentPopup)
          && (if old(currentQuestionIndex) < |QUESTIONS| - 1
              then currentQuestionIndex == old(currentQuestionIndex) + 1 && stage == old(stage)
              else currentQuestionIndex == old(currentQuestionIndex) && stage == Analyzing)
    {
      var questionId := CurrentQuestionId();
      answers := answers[questionId := answer];
      var hasPopup := CheckForPopup(questionId);
      if !hasPopup {
        if currentQuestionIndex < |QUESTIONS| - 1 {
          currentQuestionIndex := currentQuestionIndex + 1;
        } else {
          stage := Analyzing;
        }
      }
    }

    /** `handlePopupContinue`: hides the popup, then advances or, after the last question, starts the analysis. */
    method HandlePopupContinue()
      requires Valid()
      modifies this`currentPopup, this`currentQuestionIndex, this`stage
      ensures Valid()
      ensures currentPopup == None
      ensures if old(currentQuestionIndex) < |QUESTIONS| - 1
        then currentQuestionIndex == old(currentQuestionIndex) + 1 && stage == old(stage)
        else currentQuestionIndex == old(currentQuestionIndex) && stage == Analyzing
    {
      currentPopup := None;
      if currentQuestionIndex < |QUESTIONS| - 1 {
        currentQuestionIndex := currentQuestionIndex + 1;
      } else {
        stage := Analyzing;
      }
    }

    /** `handleRecallAnswer`: records whether the user remembered, then continues past the popup. */
    method HandleRecallAnswer(remembered: bool)
      requires Valid()
      modifies this`recallAnswer, this`currentPopup, this`currentQuestionIndex, this`stage
      ensures Valid()
      ensures recallAnswer == Some(remembered)
      ensures currentPopup == None
      ensures if old(currentQuestionIndex) < |QUESTIONS| - 1
        then currentQuestionIndex == old(currentQuestionIndex) + 1 && stage == old(stage)
        else currentQuestionIndex == old(currentQuestionIndex) && stage == Analyzing
    {
      recallAnswer := Some(remembered);
      HandlePopupContinue();
    }

    /** `handleAnalysisComplete`: the analysis screen hands over to the email form. */
    method HandleAnalysisComplete()
      modifies this`stage
      ensures stage == Email
    {
      stage := Email;
    }

    /** `handleEmailSubmit`: stores the submitted address and shows the plans. */
    method HandleEmailSubmit(submittedEmail: string)
      modifies this`email, this`stage
      ensures email == submittedEmail && stage == Pricing
    {
      email := submittedEmail;
      stage := Pricing;
    }

    /** `handlePlanSelect`: stores the chosen plan and shows the success screen. */
    method HandlePlanSelect(plan: string)
      modifies this`selectedPlan, this`stage
      ensures selectedPlan == plan && stage == Success
    {
      selectedPlan := plan;
      stage := Success;
    }

    /** `handleStartOver`: every field but the disclaimer flag goes back to its initial value. */
    method HandleStartOver()
      modifies this`stage, this`currentQuestionIndex, this`answers, this`email, this`selectedPlan, this`recallAnswer, this`currentPopup
      ensures Valid()
      ensures stage == Quiz && currentQuestionIndex == 0 && answers == map[]
      ensures currentPopup == None && email == "" && selectedPlan == "" && recallAnswer == None
    {
      stage := Quiz;
      currentQuestionIndex := 0;
      answers := map[];
      email := "";
      selectedPlan := "";
      recallAnswer := None;
      currentPopup := None;
    }

    /** `handleGoBack`: steps back one question unless already on the first; the answers stay. */
    method HandleGoBack()
      requires Valid()
      modifies this`currentQuestionIndex
      ensures Valid()
      ensures currentQuestionIndex == if old(currentQuestionIndex) > 0 then old(currentQuestionIndex) - 1 else 0
    {
      if currentQuestionIndex > 0 {
        currentQuestionIndex := currentQuestionIndex - 1;
      }
    }
  }
}
