/**
 * The lookups of src/components/QuestionSelection.tsx: the questions of one topic, and the
 * guard on the "mock answer" navigation.
 */
module QuestionSelection {
  import opened Wrappers
  import opened MockData

  /**
   * `questions.filter(q => q.topicId === topicId)`: exactly the questions of that topic,
   * taken from the table.
   */
  function FilterByTopic(qs: seq<Question>, topicId: int): (r: seq<Question>)
    ensures |r| <= |qs|
    ensures forall q :: q in r ==> q in qs && q.topicId == topicId
    ensures forall q :: q in qs && q.topicId == topicId ==> q in r
  {
    if qs == [] then []
    else
      var rest := FilterByTopic(qs[1..], topicId);
      assert forall q :: q in qs ==> q == qs[0] || q in qs[1..];
      if qs[0].topicId == topicId then [qs[0]] + rest else rest
  }

  /** Filtering distributes over concatenation, so the filtered list keeps the table order. */
  lemma {:induction false} FilterAppend(a: seq<Question>, b: seq<Question>, topicId: int)
    ensures FilterByTopic(a + b, topicId) == FilterByTopic(a, topicId) + FilterByTopic(b, topicId)
  {
    if a == [] {
      assert a + b == b;
    } else {
      assert (a + b)[1..] == a[1..] + b;
      FilterAppend(a[1..], b, topicId);
    }
  }

  /** Filtering an already filtered list by the same topic changes nothing. */
  lemma {:induction false} FilterTwice(qs: seq<Question>, t: int)
    ensures FilterByTopic(FilterByTopic(qs, t), t) == FilterByTopic(qs, t)
  {
    if qs != [] {
      FilterTwice(qs[1..], t);
      var rest := FilterByTopic(qs[1..], t);
      if qs[0].topicId == t {
        assert ([qs[0]] + rest)[1..] == rest;
      }
    }
  }

  /** A list of questions of that topic passes the filter whole. */
  lemma {:induction false} FilterKeepsAll(qs: seq<Question>, topicId: int)
    requires forall i :: 0 <= i < |qs| ==> qs[i].topicId == topicId
    ensures FilterByTopic(qs, topicId) == qs
  {
    if qs != [] {
      FilterKeepsAll(qs[1..], topicId);
      assert [qs[0]] + qs[1..] == qs;
    }
  }

  /** A list of questions of other topics is filtered out entirely. */
  lemma {:induction false} FilterDropsAll(qs: seq<Question>, topicId: int)
    requires forall i :: 0 <= i < |qs| ==> qs[i].topicId != topicId
    ensures FilterByTopic(qs, topicId) == []
  {
    if qs != [] {
      FilterDropsAll(qs[1..], topicId);
    }
  }

  /** Whether every question of the list belongs to the topic. */
  predicate AllOfTopic(qs: seq<Question>, topicId: int) {
    forall i :: 0 <= i < |qs| ==> qs[i].topicId == topicId
  }

  /**
   * Three blocks of questions for topics 1, 2 and 3 in turn: filtering by one of these
   * topics gives its block, filtering by any other topic gives nothing.
   */
  lemma FilterThreeBlocks(a: seq<Question>, b: seq<Question>, c: seq<Question>, topicId: int)
    requires AllOfTopic(a, 1) && AllOfTopic(b, 2) && AllOfTopic(c, 3)
    ensures FilterByTopic(a + b + c, topicId) ==
      if topicId == 1 then a else if topicId == 2 then b else if topicId == 3 then c else []
  {
    FilterAppend(a + b, c, topicId);
    FilterAppend(a, b, topicId);
    if topicId == 1 { FilterKeepsAll(a, topicId); } else { FilterDropsAll(a, topicId); }
    if topicId == 2 { FilterKeepsAll(b, topicId); } else { FilterDropsAll(b, topicId); }
    if topicId == 3 { FilterKeepsAll(c, topicId); } else { FilterDropsAll(c, topicId); }
  }

  /**
   * In the shipped table each of topics 1 to 3 lists its three questions, picture-based
   * first, then personal experience, then opinion; the other topics list none.
   */
  lemma ShippedTopics(topicId: int)
    ensures FilterByTopic(Questions, topicId) ==
      if 1 <= topicId <= 3 then Questions[3 * (topicId - 1)..3 * topicId] else []
  {
    QuestionLayout();
    LaidOutTopics(Questions, topicId);
  }

  /** The same for any table laid out like the shipped one. */
  lemma LaidOutTopics(qs: seq<Question>, topicId: int)
    requires ShippedLayout(qs)
    ensures FilterByTopic(qs, topicId) ==
      if 1 <= topicId <= 3 then qs[3 * (topicId - 1)..3 * topicId] else []
  {
    var a, b, c := qs[..3], qs[3..6], qs[6..];
    assert AllOfTopic(a, 1) && AllOfTopic(b, 2) && AllOfTopic(c, 3);
    assert qs == a + b + c;
    FilterThreeBlocks(a, b, c, topicId);
  }

  /** Where a card's "mock answer" button leads. */
  datatype MockAnswerTarget = StayOnPage | Revise(question: Question)

  /** `handleMockAnswer`: navigate to the revise page only when the id is in the table. */
  function HandleMockAnswer(questionId: int): (r: MockAnswerTarget)
    ensures r.Revise? <==> exists i :: 0 <= i < |Questions| && Questions[i].id == questionId
    ensures r.Revise? ==> r.question in Questions && r.question.id == questionId
  {
    match FindQuestion(Questions, questionId)
    case Some(question) => Revise(question)
    case None => StayOnPage
  }

  /** Only the ids 1 to 9 lead to the revise page. */
  lemma MockAnswerIds(questionId: int)
    ensures HandleMockAnswer(questionId).Revise? <==> 1 <= questionId <= 9
  {
    QuestionLayout();
    FindLaidOut(Questions, questionId);
  }
}
