/** What the screens derive from the quiz list and the user's selection: the
    prompt a row shows, the verdict of the result screen, and the single
    selection state of `ContentView`. Layout, fonts and navigation
    transitions are not modelled. */
module Presentation {
  import opened QuizModel
  import opened TriviaFetch

  /** The prompt shown when an item's question text is empty. */
  const NoQuestionPrompt: string := "No Question Available"

  /** The prompt a list row shows for a question: never blank, and the
      question text itself whenever there is one. */
  function Prompt(q: Question): (p: string)
    ensures |p| > 0
    ensures q.text != [] ==> p == q.text
    ensures q.text == [] ==> p == NoQuestionPrompt
  {
    if q.text == [] then NoQuestionPrompt else q.text
  }

  /** The two faces of `AnswerResultView`: checkmark or cross. */
  datatype Verdict = Correct | Incorrect

  /** The result screen's test: exact text equality with the correct answer. */
  function Evaluate(item: QuizItem, selected: string): (v: Verdict)
  {
    if selected == item.correctAnswer then Correct else Incorrect
  }

  /** Evaluation needs no knowledge of the answer list: the correct answer is
      judged correct, and any other text is judged incorrect, whether or not it
      is one of the item's answers. */
  lemma EvaluateIsExactMatch(item: QuizItem, selected: string)
    ensures Evaluate(item, item.correctAnswer) == Correct
    ensures selected != item.correctAnswer ==> Evaluate(item, selected) == Incorrect
    ensures selected !in Pool(item) ==> Evaluate(item, selected) == Incorrect
  {
  }

  /** Among the answers a row shows, at least one leads to the checkmark,
      whatever order the shuffle chose, even for an item whose correct answer
      is also listed as a distractor (the app never rejects one). */
  lemma {:induction false} SomeAnswerIsCorrect(item: QuizItem, answers: seq<string>)
    requires multiset(answers) == multiset(Pool(item))
    ensures exists k :: 0 <= k < |answers| && Evaluate(item, answers[k]) == Correct
  {
    CorrectAnswerPresent(item, answers);
    var k :| 0 <= k < |answers| && answers[k] == item.correctAnswer;
    assert Evaluate(item, answers[k]) == Correct;
  }

  /** Among the answers a row shows for a well-formed item, at most one leads
      to the checkmark, whatever order the shuffle chose. */
  lemma {:induction false} AtMostOneAnswerIsCorrect(item: QuizItem, answers: seq<string>)
    requires WellFormed(item)
    requires multiset(answers) == multiset(Pool(item))
    ensures forall i, j ::
              0 <= i < |answers| && 0 <= j < |answers| &&
              Evaluate(item, answers[i]) == Correct && Evaluate(item, answers[j]) == Correct
              ==> i == j
  {
    CorrectAnswerAtMostOnce(item, answers);
  }

  /** The verdict behind a row's active link for the current selection. Each
      answer of a row is a navigation link tagged with the answer text and
      bound to the one shared selection, so a row has an active link exactly
      when the selection is one of that row's answers, and that link's
      destination judges the text against the row's own item. Which of
      several active links the navigation view presents is not modelled. */
  function RowResult(item: QuizItem, selection: Option<string>): (r: Option<Verdict>)
    ensures r.Some? <==> selection.Some? && selection.value in Pool(item)
    ensures r.Some? ==> (r.value == Correct <==> selection.value == item.correctAnswer)
  {
    match selection
    case None => None
    case Some(answer) => if answer in Pool(item) then Some(Evaluate(item, answer)) else None
  }

  /** `ContentView`: the view model it owns and the single optional selection
      shared by every row of the list. */
  class ContentView {
    const viewModel: QuizViewModel
    var selectedAnswer: Option<string>

    constructor ()
      ensures fresh(viewModel)
      ensures viewModel.quizList == []
      ensures selectedAnswer == None
    {
      viewModel := new QuizViewModel();
      selectedAnswer := None;
    }

    /** A tap on an answer: the selection becomes that answer, whatever was
        selected before; the quiz list is not touched. The selection is not
        scoped to a row: every row of the list that lists the tapped text has
        an active link (its tag equals the selection), whose destination
        judges the text against that row's own item, and no other row has one. */
    method Tap(answer: string)
      modifies this
      ensures selectedAnswer == Some(answer)
      ensures viewModel.quizList == old(viewModel.quizList)
      ensures forall k :: 0 <= k < |viewModel.quizList| ==>
                (RowResult(viewModel.quizList[k], selectedAnswer).Some? <==>
                 answer in Pool(viewModel.quizList[k]))
      ensures forall k ::
                0 <= k < |viewModel.quizList| && answer in Pool(viewModel.quizList[k])
                ==> RowResult(viewModel.quizList[k], selectedAnswer)
                    == Some(Evaluate(viewModel.quizList[k], answer))
    {
      selectedAnswer := Some(answer);
    }

    /** Leaving a result screen: the navigation link writes nil back through
        its selection binding, so no row has an active link any more; the quiz
        list is not touched. */
    method Back()
      modifies this
      ensures selectedAnswer == None
      ensures viewModel.quizList == old(viewModel.quizList)
      ensures forall k :: 0 <= k < |viewModel.quizList| ==>
                RowResult(viewModel.quizList[k], selectedAnswer) == None
    {
      selectedAnswer := None;
    }

    /** `.onAppear` and `.refreshable`: one fetch, applied when it completes;
        the selection is not touched. */
    method Refresh(endpointValid: bool, response: Response,
                   decode: seq<Byte> -> Option<seq<QuizItem>>)
      modifies viewModel
      ensures viewModel.quizList == Next(old(viewModel.quizList),
                                         Classify(endpointValid, response, decode))
      ensures selectedAnswer == old(selectedAnswer)
    {
      var _ := viewModel.FetchTrivia(endpointValid, response, decode);
    }
  }

  /** A client of the contracts above: a failed first fetch leaves the list
      empty, a successful one publishes the single decoded item, whose row
      shows three answers, one of them correct. */
  method OneItemScenario(body: seq<Byte>)
  {
    var mars := QuizItem("Science", "abc1", "Mars", ["Venus", "Jupiter"],
                         Question("Which planet is red?"), [], "text", "easy", [], false);
    var view := new ContentView();
    view.Refresh(true, Response(Some(body), None), _ => None);
    assert view.viewModel.quizList == [];
    view.Refresh(true, Response(None, None), _ => Some([mars]));
    assert view.viewModel.quizList == [];
    view.Refresh(true, Response(Some(body), None), _ => Some([mars]));
    assert view.viewModel.quizList == [mars];
    var answers := AllAnswers(mars);
    assert |answers| == 3;
    assert DifficultyColor(mars.difficulty) == Green;
    view.Tap("Mars");
    assert RowResult(mars, view.selectedAnswer) == Some(Correct);
    view.Back();
    assert RowResult(mars, view.selectedAnswer) == None;
  }
}
