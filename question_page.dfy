/**
 * The answer form of src/components/QuestionPage.tsx: editing the four PEEL fields, the
 * trim-based validation, written submission, and turning a transcription into the four
 * fields by splitting it on ". ". Each call of the `onSubmit` prop is recorded.
 */
module QuestionPage {
  import opened Wrappers
  import opened Peel
  import opened JsString
  import opened MockData

  const SentenceSeparator := ". "

  /**
   * The transcription split into PEEL fields: the first three pieces of the split on ". "
   * (empty when missing) and the rest rejoined with ". ".
   */
  function TranscriptionToPeel(transcription: string): (r: PeelResponse)
    ensures !Contains(transcription, SentenceSeparator) ==> r == PerSection(transcription, "", "", "")
  {
    SplitWithoutSeparator(transcription, SentenceSeparator);
    var sentences := Split(transcription, SentenceSeparator);
    PerSection(
      sentences[0],
      if |sentences| > 1 then sentences[1] else "",
      if |sentences| > 2 then sentences[2] else "",
      if |sentences| > 3 then Join(sentences[3..], SentenceSeparator) else "")
  }

  /**
   * The split loses nothing: the fields joined back with ". " give the transcription, with
   * as many fields as there were pieces (all four once there are four or more), and the
   * fields not used are empty.
   */
  lemma TranscriptionRoundTrip(transcription: string)
    ensures var p, n := TranscriptionToPeel(transcription), |Split(transcription, SentenceSeparator)|;
      && (n == 1 ==> p.point == transcription && p.explanation == p.example == p.link == "")
      && (n == 2 ==> p.point + ". " + p.explanation == transcription && p.example == p.link == "")
      && (n == 3 ==> p.point + ". " + p.explanation + ". " + p.example == transcription && p.link == "")
      && (n >= 4 ==> p.point + ". " + p.explanation + ". " + p.example + ". " + p.link == transcription)
  {
    var ps := Split(transcription, SentenceSeparator);
    JoinSplit(transcription, SentenceSeparator);
    if |ps| == 2 {
      JoinTwo(ps, SentenceSeparator);
    } else if |ps| == 3 {
      JoinThree(ps, SentenceSeparator);
    } else if |ps| >= 4 {
      JoinFour(ps, SentenceSeparator);
    }
  }

  /** `Join` written out for two, three and at least four pieces. */
  lemma JoinTwo(ps: seq<string>, sep: string)
    requires |ps| == 2
    ensures Join(ps, sep) == ps[0] + sep + ps[1]
  {
    assert Join(ps, sep) == ps[0] + sep + Join(ps[1..], sep);
  }

  lemma JoinThree(ps: seq<string>, sep: string)
    requires |ps| == 3
    ensures Join(ps, sep) == ps[0] + sep + ps[1] + sep + ps[2]
  {
    var t := ps[1..];
    assert Join(ps, sep) == ps[0] + sep + Join(t, sep);
    JoinTwo(t, sep);
  }

  lemma JoinFour(ps: seq<string>, sep: string)
    requires |ps| >= 4
    ensures Join(ps, sep) == ps[0] + sep + ps[1] + sep + ps[2] + sep + Join(ps[3..], sep)
  {
    var t := ps[1..];
    var u := t[1..];
    var x := Join(ps[3..], sep);
    assert u[1..] == ps[3..];
    assert Join(u, sep) == ps[2] + sep + x;
    assert Join(t, sep) == ps[1] + sep + (ps[2] + sep + x);
    assert Join(ps, sep) == ps[0] + sep + (ps[1] + sep + (ps[2] + sep + x));
  }

  /** Point, explanation and example never contain ". "; only the link can. */
  lemma FirstFieldsHaveNoSeparator(transcription: string)
    ensures var p := TranscriptionToPeel(transcription);
      !Contains(p.point, ". ") && !Contains(p.explanation, ". ") && !Contains(p.example, ". ")
  {
    SplitPiecesAvoidSeparator(transcription, SentenceSeparator);
    assert !Contains("", ". ");
  }

  /** A transcription of three sentences fills point, explanation and example and leaves link empty. */
  lemma ThreeSentences(a: string, b: string, c: string)
    requires !Contains(a, ". ") && !Contains(b, ". ") && !Contains(c, ". ")
    ensures TranscriptionToPeel(a + ". " + b + ". " + c) == PerSection(a, b, c, "")
  {
    var sep := SentenceSeparator;
    NoOccurrenceBefore(a, b + ". " + c);
    NoOccurrenceBefore(b, c);
    SplitWithoutSeparator(c, sep);
    assert Split(c, sep) == [c];
    SplitCons(b, sep, c);
    assert a + sep + b + sep + c == a + sep + (b + sep + c);
    SplitCons(a, sep, b + sep + c);
  }

  /** With no ". " inside `a`, the first ". " of `a + ". " + b` is the joining one. */
  lemma NoOccurrenceBefore(a: string, b: string)
    requires !Contains(a, ". ")
    ensures forall j: nat :: j <= |a| ==> !OccursAt(a + ". " + b, ". ", j) || j == |a|
  {
    var s := a + ". " + b;
    forall j: nat | j < |a|
      ensures !OccursAt(s, ". ", j)
    {
      if j + 2 <= |a| {
        assert a[j..j + 2] == s[j..j + 2];
        assert !OccursAt(a, ". ", j);
      } else {
        assert s[j + 1] == '.';
      }
    }
  }

  /** One field's check, `value.trim() === ""`: true exactly when the text is blank. */
  predicate TrimsToEmpty(value: string): (r: bool)
    ensures r <==> AllWhitespace(value)
  {
    TrimEmptyIffBlank(value);
    Trim(value) == ""
  }

  /** The error flags of a response: a field is in error when its trimmed text is empty, that is, when it is blank. */
  function FieldErrors(response: PeelResponse): (r: PerSection<bool>)
    ensures r.point <==> AllWhitespace(response.point)
    ensures r.explanation <==> AllWhitespace(response.explanation)
    ensures r.example <==> AllWhitespace(response.example)
    ensures r.link <==> AllWhitespace(response.link)
  {
    PerSection(
      TrimsToEmpty(response.point),
      TrimsToEmpty(response.explanation),
      TrimsToEmpty(response.example),
      TrimsToEmpty(response.link))
  }

  /** A field is flagged exactly when all of its text is whitespace. */
  lemma FieldErrorsBlank(response: PeelResponse)
    ensures forall s :: FieldErrors(response).Get(s) <==> AllWhitespace(response.Get(s))
  {
    var e := FieldErrors(response);
    forall s ensures e.Get(s) <==> AllWhitespace(response.Get(s)) {
      match s
      case Point =>
      case Explanation =>
      case Example =>
      case Link =>
    }
  }

  /** `!Object.values(errors).some(Boolean)`. */
  predicate NoErrors(errors: PerSection<bool>) {
    !(errors.point || errors.explanation || errors.example || errors.link)
  }

  lemma NoErrorsIff(errors: PerSection<bool>)
    ensures NoErrors(errors) <==> forall s :: !errors.Get(s)
  {
    assert errors.Get(Point) == errors.point && errors.Get(Explanation) == errors.explanation;
    assert errors.Get(Example) == errors.example && errors.Get(Link) == errors.link;
  }

  /** The form passes validation exactly when no field is blank. */
  lemma ValidIffNoBlankField(response: PeelResponse)
    ensures NoErrors(FieldErrors(response)) <==> forall s :: !AllWhitespace(response.Get(s))
  {
    FieldErrorsBlank(response);
    NoErrorsIff(FieldErrors(response));
  }

  /** One call of `onSubmit`. */
  datatype Submission = Submission(response: PeelResponse, isAudio: bool)

  /** What the page shows for a question id. */
  datatype PageView = QuestionNotFound | AnswerPage(question: Question)

  /** The page shows the form exactly for the ids in the table, and then for that question. */
  function View(questionId: int): (r: PageView)
    ensures r.AnswerPage? <==> 1 <= questionId <= 9
    ensures r.AnswerPage? ==> r.question == Questions[questionId - 1] && r.question.id == questionId
  {
    QuestionLayout();
    FindLaidOut(Questions, questionId);
    match FindQuestion(Questions, questionId)
    case None => QuestionNotFound
    case Some(q) => AnswerPage(q)
  }

  class AnswerForm {
    var response: PeelResponse
    var formErrors: PerSection<bool>
    var isSubmitting: bool
    /** The calls of `onSubmit`, oldest first. */
    var submissions: seq<Submission>

    constructor ()
      ensures response == Uniform("") && formErrors == Uniform(false)
      ensures !isSubmitting && submissions == []
    {
      response := Uniform("");
      formErrors := Uniform(false);
      isSubmitting := false;
      submissions := [];
    }

    /** `handleFormChange`: field `f` takes the new text and its error flag clears. */
    method HandleFormChange(f: Section, value: string)
      modifies this`response, this`formErrors
      ensures response == old(response).Set(f, value)
      ensures formErrors == old(formErrors).Set(f, false)
    {
      response := response.Set(f, value);
      if formErrors.Get(f) {
        formErrors := formErrors.Set(f, false);
      }
    }

    /**
     * `validateForm`: flag every blank field; the form is valid exactly when none is blank.
     * The response is not in the frame, so `old(response)` is `response`; the flags are stated
     * on the former, which keeps the proof from unfolding the trim of both heaps' reads.
     */
    method ValidateForm() returns (valid: bool)
      modifies this`formErrors
      ensures formErrors == FieldErrors(old(response))
      ensures valid <==> forall s :: !AllWhitespace(old(response).Get(s))
    {
      var errors := FieldErrors(response);
      ValidIffNoBlankField(response);
      formErrors := errors;
      valid := NoErrors(errors);
    }

    /**
     * `handleFormSubmit`: the written response is submitted only when the form is valid. As
     * for `ValidateForm`, the unchanged response is named `old(response)`.
     */
    method HandleFormSubmit()
      modifies this`formErrors, this`submissions
      ensures formErrors == FieldErrors(old(response))
      ensures (forall s :: !AllWhitespace(old(response).Get(s))) ==>
        submissions == old(submissions) + [Submission(old(response), false)]
      ensures (exists s :: AllWhitespace(old(response).Get(s))) ==> submissions == old(submissions)
    {
      var written := response;
      var valid := ValidateForm();
      if valid {
        submissions := submissions + [Submission(written, false)];
      }
    }

    /**
     * `handleAudioComplete`. `transcription` is the outcome of the transcription call: when it
     * fails nothing is submitted. Either way the page is no longer submitting afterwards.
     */
    method HandleAudioComplete(transcription: Option<string>)
      modifies this`isSubmitting, this`submissions
      ensures !isSubmitting
      ensures transcription.Some? ==>
        submissions == old(submissions) + [Submission(TranscriptionToPeel(transcription.value), true)]
      ensures transcription.None? ==> submissions == old(submissions)
    {
      isSubmitting := true;
      if transcription.Some? {
        var audioResponse := TranscriptionToPeel(transcription.value);
        submissions := submissions + [Submission(audioResponse, true)];
      }
      isSubmitting := false;
    }
  }

  /**
   * Validating and then editing one field: that field's flag is clear and holds the new
   * text, and every other flag still says whether that field was blank.
   */
  method EditAfterValidation(form: AnswerForm, f: Section, value: string)
    modifies form
    ensures !form.formErrors.Get(f) && form.response.Get(f) == value
    ensures forall g :: g != f ==>
      form.formErrors.Get(g) == AllWhitespace(old(form.response).Get(g)) &&
      form.response.Get(g) == old(form.response).Get(g)
  {
    var valid := form.ValidateForm();
    FieldErrorsBlank(form.response);
    form.HandleFormChange(f, value);
  }
}
