/**
 * The static tables and the mock feedback generator of src/lib/mockData.ts. String lengths
 * are counted in characters.
 */
module MockData {
  import opened Wrappers
  import opened Peel

  datatype Topic = Topic(id: int, title: string, imageSrc: string)

  /** 1: picture-based, 2: personal experience, 3: opinion or suggestion. */
  type QuestionType = t: int | 1 <= t <= 3 witness 1

  /** `Question`; `imageSrc` is the optional field the source reserves for type 1. */
  datatype Question = Question(id: int, topicId: int, qtype: QuestionType, text: string, imageSrc: Option<string>)

  datatype Language = Language(
    vocabulary: seq<string>,
    grammar: seq<string>,
    sentenceStructure: seq<string>,
    pronunciation: Option<seq<string>>)

  /** `Feedback`: the `peel` record holds one comment per section. */
  datatype Feedback = Feedback(originalAnswer: string, peel: PerSection<string>, language: Language, revisedAnswer: string)

  const Placeholder := "/placeholder.svg"

  const Topics: seq<Topic> := [
    Topic(1, "School Life", Placeholder),
    Topic(2, "Family & Friends", Placeholder),
    Topic(3, "Hobbies & Interests", Placeholder),
    Topic(4, "Technology", Placeholder),
    Topic(5, "Environment", Placeholder),
    Topic(6, "Health & Wellness", Placeholder),
    Topic(7, "Celebrations", Placeholder),
    Topic(8, "Sports & Games", Placeholder),
    Topic(9, "Food & Nutrition", Placeholder),
    Topic(10, "Community", Placeholder),
    Topic(11, "Travel", Placeholder),
    Topic(12, "Books & Reading", Placeholder)
  ]

  const Questions: seq<Question> := [
    Question(1, 1, 1, "How are the students feeling in this picture? Why do you think they feel this way?", Some(Placeholder)),
    Question(2, 1, 2, "Tell me about a time when you felt proud of your achievements in school.", None),
    Question(3, 1, 3, "What changes would you suggest to make school more enjoyable for students?", None),
    Question(4, 2, 1, "How are the family members interacting in this picture? What might they be celebrating?", Some(Placeholder)),
    Question(5, 2, 2, "Share an experience where a friend or family member helped you during a difficult time.", None),
    Question(6, 2, 3, "What are some ways families can spend quality time together in today's busy world?", None),
    Question(7, 3, 1, "What activities do you see in the picture? Which one would you most enjoy?", Some(Placeholder)),
    Question(8, 3, 2, "Describe a hobby you enjoy and explain how you became interested in it.", None),
    Question(9, 3, 3, "What hobby do you think every student should try? Why would it be beneficial?", None)
  ]

  /** `topics` lists twelve topics with ids 1 to 12 in order. */
  lemma TopicIdsInOrder()
    ensures |Topics| == 12
    ensures forall i :: 0 <= i < |Topics| ==> Topics[i].id == i + 1
  {
  }

  /**
   * The layout of the shipped `questions` table: nine questions with ids 1 to 9, three per
   * topic for topics 1 to 3, types 1, 2, 3 in turn, and an image exactly on type 1.
   */
  predicate ShippedLayout(qs: seq<Question>) {
    && |qs| == 9
    && forall i :: 0 <= i < |qs| ==>
      && qs[i].id == i + 1 && qs[i].topicId == i / 3 + 1 && qs[i].qtype == i % 3 + 1
      && (qs[i].imageSrc.Some? <==> qs[i].qtype == 1)
  }

  lemma QuestionLayout()
    ensures ShippedLayout(Questions)
  {
  }

  /** In a table so laid out, ids are 1 to 9 and no two questions share one. */
  lemma LaidOutIdsUnique(qs: seq<Question>)
    requires ShippedLayout(qs)
    ensures forall q :: q in qs ==> 1 <= q.id <= 9
    ensures forall i, j :: 0 <= i < |qs| && 0 <= j < |qs| && qs[i].id == qs[j].id ==> i == j
  {
  }

  /** Question ids are 1 to 9, and no two questions share one. */
  lemma QuestionIdsUnique()
    ensures forall q :: q in Questions ==> 1 <= q.id <= 9
    ensures forall i, j :: 0 <= i < |Questions| && 0 <= j < |Questions| && Questions[i].id == Questions[j].id ==> i == j
  {
    QuestionLayout();
    LaidOutIdsUnique(Questions);
  }

  /** In a table so laid out, each of topics 1 to 3 has exactly one question of each type. */
  lemma LaidOutOnePerTypePerTopic(qs: seq<Question>, topicId: int, qtype: QuestionType)
    requires ShippedLayout(qs) && 1 <= topicId <= 3
    ensures var k := (topicId - 1) * 3 + (qtype - 1);
      && 0 <= k < |qs| && qs[k].topicId == topicId && qs[k].qtype == qtype
      && forall j :: 0 <= j < |qs| && qs[j].topicId == topicId && qs[j].qtype == qtype ==> j == k
  {
    forall j | 0 <= j < |qs| && qs[j].topicId == topicId && qs[j].qtype == qtype
      ensures j == (topicId - 1) * 3 + (qtype - 1)
    {
      assert j == j / 3 * 3 + j % 3;
    }
  }

  /** Each of topics 1 to 3 has exactly one question of each type. */
  lemma OneQuestionPerTypePerTopic(topicId: int, qtype: QuestionType)
    requires 1 <= topicId <= 3
    ensures var k := (topicId - 1) * 3 + (qtype - 1);
      && 0 <= k < |Questions| && Questions[k].topicId == topicId && Questions[k].qtype == qtype
      && forall j :: 0 <= j < |Questions| && Questions[j].topicId == topicId && Questions[j].qtype == qtype ==> j == k
  {
    QuestionLayout();
    LaidOutOnePerTypePerTopic(Questions, topicId, qtype);
  }

  /** Exactly the picture-based questions carry an image. */
  lemma ImageOnlyForPictureQuestions()
    ensures forall q :: q in Questions ==> (q.imageSrc.Some? <==> q.qtype == 1)
  {
    QuestionLayout();
  }

  /** Every question of a table so laid out has its topic in a list of topics 1 to 12. */
  lemma LaidOutTopicsListed(qs: seq<Question>, ts: seq<Topic>)
    requires ShippedLayout(qs)
    requires |ts| == 12 && forall i :: 0 <= i < |ts| ==> ts[i].id == i + 1
    ensures forall q :: q in qs ==> exists t :: t in ts && t.id == q.topicId
  {
    forall q | q in qs
      ensures exists t :: t in ts && t.id == q.topicId
    {
      assert ts[q.topicId - 1].id == q.topicId;
    }
  }

  /** Every question's topic is listed in `topics`. */
  lemma QuestionTopicsListed()
    ensures forall q :: q in Questions ==> exists t :: t in Topics && t.id == q.topicId
  {
    QuestionLayout();
    TopicIdsInOrder();
    LaidOutTopicsListed(Questions, Topics);
  }

  /**
   * `questions.find(q => q.id === id)`: the first question with that id, or none when no
   * question has it.
   */
  function FindQuestion(qs: seq<Question>, id: int): (r: Option<Question>)
    ensures r.None? <==> forall i :: 0 <= i < |qs| ==> qs[i].id != id
    ensures r.Some? ==>
      exists i :: 0 <= i < |qs| && qs[i] == r.value && r.value.id == id && forall j :: 0 <= j < i ==> qs[j].id != id
  {
    if qs == [] then None
    else if qs[0].id == id then Some(qs[0])
    else
      var r := FindQuestion(qs[1..], id);
      if r.Some? then
        ghost var i :| 0 <= i < |qs[1..]| && qs[1..][i] == r.value && r.value.id == id
          && forall j :: 0 <= j < i ==> qs[1..][j].id != id;
        assert qs[i + 1] == r.value && forall j :: 0 <= j < i + 1 ==> qs[j].id != id;
        r
      else
        r
  }

  /** In a table so laid out, the lookup succeeds exactly for the ids 1 to 9, at index id - 1. */
  lemma FindLaidOut(qs: seq<Question>, id: int)
    requires ShippedLayout(qs)
    ensures FindQuestion(qs, id).Some? <==> 1 <= id <= 9
    ensures 1 <= id <= 9 ==> FindQuestion(qs, id) == Some(qs[id - 1])
  {
    LaidOutIdsUnique(qs);
    if 1 <= id <= 9 {
      assert qs[id - 1].id == id;
    }
  }

  /** In the shipped table the lookup succeeds exactly for the ids 1 to 9, and finds that question. */
  lemma FindQuestionInTable(id: int)
    ensures FindQuestion(Questions, id).Some? <==> 1 <= id <= 9
    ensures 1 <= id <= 9 ==> FindQuestion(Questions, id) == Some(Questions[id - 1])
  {
    QuestionLayout();
    FindLaidOut(Questions, id);
  }

  /** The fixed texts of `generateMockFeedback`. */
  datatype FeedbackTexts = FeedbackTexts(
    defaults: PeelResponse,
    strong: PeelResponse,
    weak: PeelResponse,
    vocabulary: seq<string>,
    grammar: seq<string>,
    sentenceStructure: seq<string>,
    pronunciation: seq<string>,
    revisedAnswer: string)

  // The texts the source ships.
  const MockDefaults: PeelResponse := PerSection(
    "have an opinion about this",
    "Let me explain my reasoning.",
    "For instance, this is an example.",
    "In conclusion, this is important.")
  const MockStrong: PeelResponse := PerSection(
    "Good effort in stating your main point. Try to make it even more concise and focused.",
    "You've provided a good explanation. Consider using more precise language to strengthen your reasoning.",
    "Great example! It supports your explanation well. Consider adding more specific details next time.",
    "Good job connecting back to the main question. Your link adds value to your response.")
  const MockWeak: PeelResponse := PerSection(
    "Your point needs to be more clearly stated. Aim for a direct statement that answers the question.",
    "Your explanation needs more detail. Try to elaborate on why you think this way.",
    "Your example needs to be more specific to support your explanation.",
    "Try to make a stronger connection to the original question or broader context.")
  const MockVocabulary: seq<string> := [
    "Good use of descriptive words like 'enthusiastic'",
    "Consider using more varied adjectives to describe emotions",
    "Try including topic-specific vocabulary in your next response"
  ]
  const MockGrammar: seq<string> := [
    "Your sentence structures are generally correct",
    "Pay attention to subject-verb agreement in complex sentences",
    "Consider varying your sentence beginnings for more engaging responses"
  ]
  const MockSentenceStructure: seq<string> := [
    "Good mix of simple and compound sentences",
    "Try incorporating more complex sentences with subordinate clauses",
    "Practice transitioning between ideas more smoothly"
  ]
  const MockPronunciation: seq<string> := [
    "Clear pronunciation of most words",
    "Work on emphasizing key words to enhance meaning",
    "Practice the pronunciation of longer, multi-syllable words"
  ]
  const MockRevisedAnswer: string := "I believe the students in the picture are feeling excited and proud because they are receiving recognition for their hard work at what appears to be a school award ceremony. For instance, the student in the center is holding a trophy with a beaming smile, while her classmates are applauding enthusiastically around her. These moments of recognition are significant as they not only boost students' confidence but also create lasting positive memories of their educational journey."

  const MockTexts := FeedbackTexts(MockDefaults, MockStrong, MockWeak, MockVocabulary,
    MockGrammar, MockSentenceStructure, MockPronunciation, MockRevisedAnswer)

  /** The shipped lists have three items each. */
  lemma MockListSizes()
    ensures |MockVocabulary| == |MockGrammar| == |MockSentenceStructure| == |MockPronunciation| == 3
  {
  }

  /** The length above which a section earns the stronger comment. */
  function Threshold(s: Section): nat {
    if s == Point then 5 else 20
  }

  /** A field of the original answer: the text itself, or the fixed default when it is empty. */
  function OrDefault(s: string, default: string): string {
    if |s| > 0 then s else default
  }

  /** The comment for one section, chosen by its length threshold. */
  function Comment(texts: FeedbackTexts, response: PeelResponse, s: Section): string {
    if |response.Get(s)| > Threshold(s) then texts.strong.Get(s) else texts.weak.Get(s)
  }

  /** `generateMockFeedback`, over the fixed texts `texts`. */
  function GenerateFeedback(texts: FeedbackTexts, response: PeelResponse, isAudio: bool): (r: Feedback)
    ensures forall s :: r.peel.Get(s) == texts.strong.Get(s) || r.peel.Get(s) == texts.weak.Get(s)
  {
    var originalAnswer := "I " + OrDefault(response.point, texts.defaults.point) + ". "
      + OrDefault(response.explanation, texts.defaults.explanation) + " "
      + OrDefault(response.example, texts.defaults.example) + " "
      + OrDefault(response.link, texts.defaults.link);
    Feedback(
      originalAnswer,
      PerSection(
        Comment(texts, response, Point),
        Comment(texts, response, Explanation),
        Comment(texts, response, Example),
        Comment(texts, response, Link)),
      Language(texts.vocabulary, texts.grammar, texts.sentenceStructure,
               if isAudio then Some(texts.pronunciation) else None),
      texts.revisedAnswer)
  }

  /** `generateMockFeedback` with the texts the source ships. */
  function GenerateMockFeedback(response: PeelResponse, isAudio: bool): Feedback {
    GenerateFeedback(MockTexts, response, isAudio)
  }

  /**
   * The original answer is "I " followed by the four fields in order, the point closed by
   * ". " and the rest separated by spaces. Each field is chosen on its own: an empty field is
   * replaced by its fixed default, a non-empty one is kept as it is.
   */
  lemma OriginalAnswerFields(texts: FeedbackTexts, response: PeelResponse, isAudio: bool)
    ensures var a := GenerateFeedback(texts, response, isAudio).originalAnswer;
      var d := texts.defaults;
      a == "I " + (if response.point == "" then d.point else response.point)
        + ". " + (if response.explanation == "" then d.explanation else response.explanation)
        + " " + (if response.example == "" then d.example else response.example)
        + " " + (if response.link == "" then d.link else response.link)
    ensures var a := GenerateFeedback(texts, response, isAudio).originalAnswer;
      (forall s :: response.Get(s) != "") ==>
        a == "I " + response.point + ". " + response.explanation + " " + response.example + " " + response.link
  {
    if forall s :: response.Get(s) != "" {
      assert response.Get(Point) != "" && response.Get(Explanation) != "";
      assert response.Get(Example) != "" && response.Get(Link) != "";
    }
  }

  /**
   * Each section comment is the stronger text when the field is long enough, more than 5
   * characters for the point and more than 20 for the others, and the weaker text otherwise.
   */
  lemma CommentsByLength(texts: FeedbackTexts, response: PeelResponse, isAudio: bool)
    ensures forall s :: |response.Get(s)| > Threshold(s) ==> GenerateFeedback(texts, response, isAudio).peel.Get(s) == texts.strong.Get(s)
    ensures forall s :: |response.Get(s)| <= Threshold(s) ==> GenerateFeedback(texts, response, isAudio).peel.Get(s) == texts.weak.Get(s)
    ensures Threshold(Point) == 5 && Threshold(Explanation) == Threshold(Example) == Threshold(Link) == 20
  {
    var c := GenerateFeedback(texts, response, isAudio).peel;
    assert forall s :: c.Get(s) == Comment(texts, response, s);
  }

  /** Pronunciation advice, all of the fixed list, comes exactly with audio submissions. */
  lemma PronunciationIffAudio(texts: FeedbackTexts, response: PeelResponse, isAudio: bool)
    ensures var p := GenerateFeedback(texts, response, isAudio).language.pronunciation;
      (p.Some? <==> isAudio) && (p.Some? ==> p.value == texts.pronunciation)
  {
  }

  /** The language lists and the revised answer are the same whatever the input. */
  lemma FixedParts(texts: FeedbackTexts, r1: PeelResponse, a1: bool, r2: PeelResponse, a2: bool)
    ensures var f1, f2 := GenerateFeedback(texts, r1, a1), GenerateFeedback(texts, r2, a2);
      && f1.language.vocabulary == f2.language.vocabulary == texts.vocabulary
      && f1.language.grammar == f2.language.grammar == texts.grammar
      && f1.language.sentenceStructure == f2.language.sentenceStructure == texts.sentenceStructure
      && f1.revisedAnswer == f2.revisedAnswer == texts.revisedAnswer
  {
  }

  /**
   * Apart from the original answer, which echoes the text, the feedback depends only on the
   * lengths of the four fields and on the audio flag.
   */
  lemma DependsOnlyOnLengths(texts: FeedbackTexts, r1: PeelResponse, r2: PeelResponse, isAudio: bool)
    requires forall s :: |r1.Get(s)| == |r2.Get(s)|
    ensures var f1, f2 := GenerateFeedback(texts, r1, isAudio), GenerateFeedback(texts, r2, isAudio);
      f1.(originalAnswer := "") == f2.(originalAnswer := "")
  {
    assert forall s :: Comment(texts, r1, s) == Comment(texts, r2, s);
  }
}
