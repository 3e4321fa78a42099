/**
 * The screen machine of src/pages/Index.tsx: topic selection, question selection, answering
 * and results, with the selected ids held as nullable numbers and the feedback of the last
 * submission. Whether the feedback call resolves is a parameter of the submit handler; the
 * feedback it resolves to is `generateMockFeedback` over the app's fixed texts (`MockTexts`
 * in the shipped app, where `GenerateFeedback(MockTexts, …)` is `GenerateMockFeedback`).
 */
module AppIndex {
  import opened Wrappers
  import opened Peel
  import opened MockData

  datatype Screen = TopicsScreen | QuestionsScreen | AnsweringScreen | ResultsScreen

  /** A `number | null` tested in a JavaScript condition: set and not 0. */
  predicate Truthy(id: Option<int>) {
    id.Some? && id.value != 0
  }

  /** What the page renders: at most one screen, each only on its own state and when its prerequisite is present. */
  datatype Page =
    | TopicSelectionPage
    | QuestionSelectionPage(topicId: int)
    | QuestionAnswerPage(questionId: int)
    | ResultsPage(feedback: Feedback)
    | NothingRendered

  /** The conditional rendering of the screen components. */
  function Render(appState: Screen, topicId: Option<int>, questionId: Option<int>,
                  feedback: Option<Feedback>): (r: Page)
    ensures r.TopicSelectionPage? <==> appState == TopicsScreen
    ensures r.QuestionSelectionPage? ==> appState == QuestionsScreen
    ensures r.QuestionAnswerPage? ==> appState == AnsweringScreen
    ensures r.ResultsPage? ==> appState == ResultsScreen
    ensures r.QuestionSelectionPage? ==> Truthy(topicId) && r.topicId == topicId.value
    ensures r.QuestionAnswerPage? ==> Truthy(questionId) && r.questionId == questionId.value
    ensures r.ResultsPage? ==> feedback == Some(r.feedback)
    ensures r.NothingRendered? <==>
      || (appState == QuestionsScreen && !Truthy(topicId))
      || (appState == AnsweringScreen && !Truthy(questionId))
      || (appState == ResultsScreen && feedback.None?)
  {
    match appState
    case TopicsScreen => TopicSelectionPage
    case QuestionsScreen => if Truthy(topicId) then QuestionSelectionPage(topicId.value) else NothingRendered
    case AnsweringScreen => if Truthy(questionId) then QuestionAnswerPage(questionId.value) else NothingRendered
    case ResultsScreen => if feedback.Some? then ResultsPage(feedback.value) else NothingRendered
  }

  class App {
    /** The fixed texts the feedback generator draws on. */
    const texts: FeedbackTexts
    var appState: Screen
    var selectedTopicId: Option<int>
    var selectedQuestionId: Option<int>
    var feedback: Option<Feedback>
    var isLoading: bool

    /**
     * What the handlers guarantee when each is only reached from the screens that offer it:
     * every screen past the first has the selections it needs, so something is always shown.
     */
    ghost predicate Valid()
      reads this
    {
      && (appState == QuestionsScreen ==> Truthy(selectedTopicId))
      && (appState == AnsweringScreen ==> Truthy(selectedTopicId) && Truthy(selectedQuestionId))
      && (appState == ResultsScreen ==>
            Truthy(selectedTopicId) && Truthy(selectedQuestionId) && feedback.Some?)
    }

    /** The page on screen; with the selections in place there always is one. */
    function Rendered(): (r: Page)
      reads this
      ensures Valid() ==> !r.NothingRendered?
    {
      Render(appState, selectedTopicId, selectedQuestionId, feedback)
    }

    constructor (texts: FeedbackTexts)
      ensures this.texts == texts
      ensures Valid() && Rendered() == TopicSelectionPage
      ensures appState == TopicsScreen && selectedTopicId.None? && selectedQuestionId.None?
      ensures feedback.None? && !isLoading
    {
      this.texts := texts;
      appState := TopicsScreen;
      selectedTopicId, selectedQuestionId := None, None;
      feedback := None;
      isLoading := false;
    }

    /** `handleTopicSelect`: remember the topic and show its questions. */
    method HandleTopicSelect(topicId: int)
      modifies this`selectedTopicId, this`appState
      ensures selectedTopicId == Some(topicId) && appState == QuestionsScreen
      ensures topicId != 0 ==> Valid() && Rendered() == QuestionSelectionPage(topicId)
    {
      selectedTopicId := Some(topicId);
      appState := QuestionsScreen;
    }

    /** `handleQuestionSelect`: remember the question and show the answer form. */
    method HandleQuestionSelect(questionId: int)
      modifies this`selectedQuestionId, this`appState
      ensures selectedQuestionId == Some(questionId) && appState == AnsweringScreen
      ensures old(Valid()) && old(appState) == QuestionsScreen && questionId != 0 ==>
        Valid() && Rendered() == QuestionAnswerPage(questionId)
    {
      selectedQuestionId := Some(questionId);
      appState := AnsweringScreen;
    }

    /** `handleBackToTopics`: forget the topic and go back to the topic list. */
    method HandleBackToTopics()
      modifies this`selectedTopicId, this`appState
      ensures selectedTopicId.None? && appState == TopicsScreen
      ensures Valid() && Rendered() == TopicSelectionPage
    {
      selectedTopicId := None;
      appState := TopicsScreen;
    }

    /** `handleBackToQuestions`: forget the question and go back to the topic's questions. */
    method HandleBackToQuestions()
      modifies this`selectedQuestionId, this`appState
      ensures selectedQuestionId.None? && appState == QuestionsScreen
      ensures old(Valid()) && old(appState) in {AnsweringScreen, ResultsScreen} ==>
        Valid() && Rendered() == QuestionSelectionPage(selectedTopicId.value)
    {
      selectedQuestionId := None;
      appState := QuestionsScreen;
    }

    /**
     * `handleAnswerSubmit`: nothing happens unless both a topic and a question are selected.
     * Otherwise, when the feedback call resolves (`delivered`), its result is stored and the
     * results are shown; when it fails the screen stays. Loading has ended either way.
     */
    method HandleAnswerSubmit(response: PeelResponse, isAudio: bool, delivered: bool)
      modifies this`isLoading, this`feedback, this`appState
      ensures !(Truthy(selectedTopicId) && Truthy(selectedQuestionId)) ==>
        isLoading == old(isLoading) && feedback == old(feedback) && appState == old(appState)
      ensures Truthy(selectedTopicId) && Truthy(selectedQuestionId) ==> !isLoading
      ensures Truthy(selectedTopicId) && Truthy(selectedQuestionId) && delivered ==>
        feedback == Some(GenerateFeedback(texts, response, isAudio)) && appState == ResultsScreen
      ensures Truthy(selectedTopicId) && Truthy(selectedQuestionId) && !delivered ==>
        feedback == old(feedback) && appState == old(appState)
      ensures old(Valid()) ==> Valid()
    {
      if Truthy(selectedTopicId) && Truthy(selectedQuestionId) {
        isLoading := true;
        if delivered {
          var feedbackData := GenerateFeedback(texts, response, isAudio);
          feedback := Some(feedbackData);
          appState := ResultsScreen;
        }
        isLoading := false;
      }
    }

    /** `handleTryAgain`: drop the feedback and answer the same question again. */
    method HandleTryAgain()
      modifies this`feedback, this`appState
      ensures feedback.None? && appState == AnsweringScreen
      ensures old(Valid()) && old(appState) == ResultsScreen ==>
        Valid() && Rendered() == QuestionAnswerPage(selectedQuestionId.value)
    {
      feedback := None;
      appState := AnsweringScreen;
    }
  }

  /**
   * One walk through the app with question 1 of topic 1: choose, submit, look at the
   * results, try again and go back; the rendered page follows each step.
   */
  method WalkThrough(texts: FeedbackTexts, response: PeelResponse) returns (pages: seq<Page>)
    ensures pages == [QuestionAnswerPage(1), ResultsPage(GenerateFeedback(texts, response, false)),
                      QuestionAnswerPage(1), QuestionSelectionPage(1), TopicSelectionPage]
  {
    var app := new App(texts);
    app.HandleTopicSelect(1);
    app.HandleQuestionSelect(1);
    pages := [app.Rendered()];
    app.HandleAnswerSubmit(response, false, true);
    pages := pages + [app.Rendered()];
    app.HandleTryAgain();
    pages := pages + [app.Rendered()];
    app.HandleBackToQuestions();
    pages := pages + [app.Rendered()];
    app.HandleBackToTopics();
    pages := pages + [app.Rendered()];
  }
}
