/**
 * The guided revise flow of src/pages/ReviseAnswer.tsx: stepping through the four PEEL
 * sections, scoring the words of the current section after a recording is submitted, and
 * building the revised answer. `Math.random` is replaced by a sequence of draws supplied by
 * the caller, one score per word.
 */
module ReviseAnswer {
  import opened Peel
  import opened JsString
  import opened AudioRecorderHook

  /** `handleNextSection`: one section further in the fixed order, and link stays link. */
  function NextSection(s: Section): (r: Section)
    ensures s != Link ==> Index(r) == Index(s) + 1
    ensures s == Link ==> r == Link
  {
    match s
    case Point => Explanation
    case Explanation => Example
    case Example => Link
    case Link => Link
  }

  /** `handlePreviousSection`: one section back in the fixed order, and point stays point. */
  function PreviousSection(s: Section): (r: Section)
    ensures s != Point ==> Index(r) + 1 == Index(s)
    ensures s == Point ==> r == Point
  {
    match s
    case Point => Point
    case Explanation => Point
    case Example => Explanation
    case Link => Example
  }

  /** Previous undoes next everywhere except at link, and next undoes previous except at point. */
  lemma PreviousUndoesNext(s: Section)
    ensures s != Link ==> PreviousSection(NextSection(s)) == s
    ensures s != Point ==> NextSection(PreviousSection(s)) == s
  {
    if s != Link {
      assert Sections[Index(PreviousSection(NextSection(s)))] == Sections[Index(s)];
    }
    if s != Point {
      assert Sections[Index(NextSection(PreviousSection(s)))] == Sections[Index(s)];
    }
  }

  /** `n` presses of Next from section `s`. */
  function AfterNext(s: Section, n: nat): Section {
    if n == 0 then s else NextSection(AfterNext(s, n - 1))
  }

  /**
   * Pressing Next from point visits the sections in their fixed order; from the third
   * press on it stays at link, where the button is disabled.
   */
  lemma {:induction false} NextVisitsInOrder(n: nat)
    ensures n < |Sections| ==> AfterNext(Point, n) == Sections[n]
    ensures n >= |Sections| - 1 ==> AfterNext(Point, n) == Link
  {
    if n > 0 {
      NextVisitsInOrder(n - 1);
    }
  }

  /**
   * The scoring `map` over `content.split(' ')`: one entry per piece, entry `i` holds piece
   * `i` and the `i`-th draw. Joining the words back with spaces gives the content.
   */
  function ScoreWords(content: string, draws: nat -> Score): (r: seq<ScoredWord>)
    ensures |r| == |Split(content, " ")| >= 1
    ensures forall i :: 0 <= i < |r| ==> r[i].word == Split(content, " ")[i] && r[i].score == draws(i)
  {
    var words := Split(content, " ");
    seq(|words|, i requires 0 <= i < |words| => ScoredWord(words[i], draws(i)))
  }

  /** The words of a score list, in order. */
  function Words(ws: seq<ScoredWord>): (r: seq<string>)
    ensures |r| == |ws| && forall i :: 0 <= i < |ws| ==> r[i] == ws[i].word
  {
    seq(|ws|, i requires 0 <= i < |ws| => ws[i].word)
  }

  /** Scoring loses no text: the scored words, joined with single spaces, are the content. */
  lemma ScoredWordsRejoin(content: string, draws: nat -> Score)
    ensures Join(Words(ScoreWords(content, draws)), " ") == content
  {
    assert Words(ScoreWords(content, draws)) == Split(content, " ");
    JoinSplit(content, " ");
  }

  /**
   * `renderRevisedAnswer`: the four sections of the answer in order, joined by single
   * spaces. The scores play no part in it.
   */
  function RevisedAnswer(answer: PeelResponse): (r: string)
    ensures r == answer.point + " " + answer.explanation + " " + answer.example + " " + answer.link
  {
    var parts := seq(|Sections|, i requires 0 <= i < |Sections| => answer.Get(Sections[i]));
    assert parts[1..][1..][1..] == [answer.link];
    assert Join(parts[1..][1..], " ") == answer.example + " " + answer.link;
    assert Join(parts[1..], " ") == answer.explanation + " " + answer.example + " " + answer.link;
    Join(parts, " ")
  }

  /** "Practice Full Answer" is enabled unless every section's score list is empty. */
  predicate PracticeFullAnswerEnabled(scored: PerSection<seq<ScoredWord>>): (r: bool)
    ensures r <==> exists s :: |scored.Get(s)| > 0
  {
    assert scored.Get(Point) == scored.point && scored.Get(Explanation) == scored.explanation;
    assert scored.Get(Example) == scored.example && scored.Get(Link) == scored.link;
    !(scored.point == [] && scored.explanation == [] && scored.example == [] && scored.link == [])
  }

  /** Once any section has been scored the button stays enabled: scoring never empties a list. */
  lemma ScoringEnablesPractice(scored: PerSection<seq<ScoredWord>>, s: Section, content: string, draws: nat -> Score)
    ensures PracticeFullAnswerEnabled(scored.Set(s, ScoreWords(content, draws)))
  {
    var r := scored.Set(s, ScoreWords(content, draws));
    assert |r.Get(s)| > 0;
  }

  class ReviseSession {
    /** The answer passed in through the route state. */
    const mockAnswer: PeelResponse
    /** The page's own `useAudioRecorder`. */
    const recorder: AudioRecorderSession

    var currentSection: Section
    var showScoreModal: bool
    var scoredWords: PerSection<seq<ScoredWord>>
    var showRevisionModal: bool
    var isProcessing: bool
    /** How many "Failed to process audio recording." toasts have been raised. */
    var errorNotifications: nat

    constructor (mockAnswer: PeelResponse)
      ensures this.mockAnswer == mockAnswer && fresh(recorder)
      ensures recorder.Valid() && recorder.Settled() && recorder.Quiescent()
      ensures recorder.state == InitialState
      ensures currentSection == Point && scoredWords == Uniform([])
      ensures !showScoreModal && !showRevisionModal && !isProcessing && errorNotifications == 0
    {
      this.mockAnswer := mockAnswer;
      recorder := new AudioRecorderSession();
      currentSection := Point;
      scoredWords := Uniform([]);
      showScoreModal, showRevisionModal, isProcessing := false, false, false;
      errorNotifications := 0;
    }

    /** `getSectionContent`: the switch over the four sections reads the answer's own field. */
    function SectionContent(s: Section): (r: string)
      ensures r == mockAnswer.Get(s)
    {
      match s
      case Point => mockAnswer.point
      case Explanation => mockAnswer.explanation
      case Example => mockAnswer.example
      case Link => mockAnswer.link
    }

    /** Next moves on exactly when it is enabled, that is, everywhere but at link. */
    method HandleNextSection()
      modifies this`currentSection
      ensures currentSection == NextSection(old(currentSection))
      ensures currentSection != old(currentSection) <==> old(NextEnabled())
    {
      if currentSection == Point {
        currentSection := Explanation;
      } else if currentSection == Explanation {
        currentSection := Example;
      } else if currentSection == Example {
        currentSection := Link;
      }
    }

    /** Previous moves back exactly when it is enabled, that is, everywhere but at point. */
    method HandlePreviousSection()
      modifies this`currentSection
      ensures currentSection == PreviousSection(old(currentSection))
      ensures currentSection != old(currentSection) <==> old(PreviousEnabled())
    {
      if currentSection == Explanation {
        currentSection := Point;
      } else if currentSection == Example {
        currentSection := Explanation;
      } else if currentSection == Link {
        currentSection := Example;
      }
    }

    /** Clicking a section tab. */
    method SelectSection(s: Section)
      modifies this`currentSection
      ensures currentSection == s
    {
      currentSection := s;
    }

    /** Next is disabled at link, Previous at point. */
    predicate NextEnabled()
      reads this
    {
      currentSection != Link
    }

    predicate PreviousEnabled()
      reads this
    {
      currentSection != Point
    }

    /**
     * `processRecording`: without a blob nothing happens. Otherwise, when the transcription
     * succeeds, the current section's score list is replaced by the scored words of its
     * content and the score dialog opens; when it fails, a notification is raised and the
     * scores are kept. Either way processing has ended.
     */
    method ProcessRecording(transcribed: bool, draws: nat -> Score)
      modifies this`isProcessing, this`scoredWords, this`showScoreModal, this`errorNotifications
      ensures recorder.state.audioBlob.None? ==>
        && isProcessing == old(isProcessing) && scoredWords == old(scoredWords)
        && showScoreModal == old(showScoreModal) && errorNotifications == old(errorNotifications)
      ensures recorder.state.audioBlob.Some? ==> !isProcessing
      ensures recorder.state.audioBlob.Some? && transcribed ==>
        && scoredWords == old(scoredWords).Set(currentSection, ScoreWords(SectionContent(currentSection), draws))
        && showScoreModal && errorNotifications == old(errorNotifications)
      ensures recorder.state.audioBlob.Some? && !transcribed ==>
        && scoredWords == old(scoredWords) && showScoreModal == old(showScoreModal)
        && errorNotifications == old(errorNotifications) + 1
    {
      if recorder.state.audioBlob.Some? {
        isProcessing := true;
        if transcribed {
          var scoredWordsForSection := ScoreWords(SectionContent(currentSection), draws);
          scoredWords := scoredWords.Set(currentSection, scoredWordsForSection);
          showScoreModal := true;
        } else {
          errorNotifications := errorNotifications + 1;
        }
        isProcessing := false;
      }
    }

    /** The score dialog's Close button: hide the dialog and reset the recorder. */
    method CloseScoreDialog()
      requires recorder.Valid()
      modifies this`showScoreModal,
        recorder`state, recorder`platform, recorder`streamRef, recorder`timerInterval
      ensures !showScoreModal && recorder.Valid()
      ensures recorder.state == InitialState
      ensures recorder.timerInterval.None? && recorder.streamRef.None?
      ensures recorder.platform.intervals == old(recorder.platform.intervals) - Tokens(old(recorder.timerInterval))
      ensures recorder.platform.urls == old(recorder.platform.urls) - Tokens(old(recorder.state.audioUrl))
      ensures recorder.platform.streams == old(recorder.platform.streams) - Tokens(old(recorder.streamRef))
      ensures recorder.platform.next == old(recorder.platform.next)
      ensures old(recorder.Settled()) ==> recorder.OwnsResources() && recorder.Quiescent()
    {
      showScoreModal := false;
      recorder.ResetRecording();
    }

    /** The "Practice Full Answer" button opens the revision dialog with the revised answer. */
    method OpenRevision() returns (revised: string)
      modifies this`showRevisionModal
      ensures showRevisionModal
      ensures revised == mockAnswer.point + " " + mockAnswer.explanation + " "
        + mockAnswer.example + " " + mockAnswer.link
    {
      showRevisionModal := true;
      revised := RevisedAnswer(mockAnswer);
    }
  }

  /**
   * Scoring one section after another: each successful submission fills in only the
   * section it was made on, and the other lists keep their earlier scores.
   */
  method ScoreTwoSections(page: ReviseSession, d1: nat -> Score, d2: nat -> Score)
    requires page.recorder.state.audioBlob.Some? && page.currentSection == Point
    modifies page
    ensures page.scoredWords == PerSection(ScoreWords(page.mockAnswer.point, d1),
      ScoreWords(page.mockAnswer.explanation, d2), old(page.scoredWords.example), old(page.scoredWords.link))
    ensures PracticeFullAnswerEnabled(page.scoredWords)
  {
    page.ProcessRecording(true, d1);
    page.HandleNextSection();
    page.ProcessRecording(true, d2);
    assert page.scoredWords.Get(Point) == ScoreWords(page.mockAnswer.point, d1);
    assert page.scoredWords.Get(Explanation) == ScoreWords(page.mockAnswer.explanation, d2);
    assert |page.scoredWords.Get(Point)| > 0;
  }
}
