# oralize-aid: a verified model of the quiz app's logic

oralize-aid is a React app for practising oral answers in the PEEL structure (Point,
Explanation, Example, Link). Under the markup is a small layer of logic, and this project
models that layer in Dafny and proves what it promises:

- the `useAudioRecorder` hook: a recording session with a chunk buffer, an elapsed-time
  counter, the assembled blob and its object URL, and the `MM:SS` formatter;
- the guided revise page: stepping through the four sections, scoring the words of a
  section, and building the revised answer;
- the answer form: field edits, trim-based validation, submission, and splitting a
  transcription into the four fields on `". "`;
- `generateMockFeedback` and the static `topics` and `questions` tables;
- the screen machine of the index page;
- the read-aloud flags of `useTextToSpeech`;
- the three-step countdown of the recorder widget;
- the question filter and the mock-answer guard of the question list.

Pure code (`formatTime`, the split, the feedback generator, the filters) is modelled as
functions with lemmas. Code that changes state step by step (the hooks, the pages' handlers)
is modelled as classes, with one field per piece of React state or ref. Their methods name
what they change in `modifies` and state the whole new state in `ensures`.

Browser resources are natural-number tokens. This covers the media stream, the object URLs,
the interval timer and the speech utterances. Each class keeps the set of live tokens and a
counter for fresh ones, so that "released", "revoked" and "no further ticks" can be stated.

Outcomes decided outside the app are method parameters:

- whether the microphone is granted;
- whether transcription or feedback succeeds;
- the random word scores, given as a function `nat -> Score`.

JavaScript's own string operations are defined in module `JsString`: `split` and `join` with
a non-empty separator, `trim` with the ECMAScript whitespace set, `toString` of a
non-negative integer, and `padStart` with `'0'`.

Modules, one file each:

- `Wrappers`: `Option`.
- `Peel`: sections, scores and the one-value-per-section record. The record serves as the
  response, the error flags and the score lists.
- `JsString`: the string operations above.
- `AudioRecorderHook`: `useAudioRecorder`.
- `ReviseAnswer`: the revise page.
- `QuestionPage`: the answer form.
- `MockData`: the tables and the feedback generator.
- `QuestionSelection`: the question list.
- `AppIndex`: the index page.
- `TextToSpeech`: `useTextToSpeech`.
- `AudioRecorderWidget`: `AudioRecorder.tsx`.

In three places the model follows the code where a reader of the page might expect otherwise:

- `resetRecording` does not empty the chunk buffer (src/hooks/useAudioRecorder.tsx:104-124).
  The buffer is emptied only by the next start.
- The revise page's Next button is disabled only at the link section, not until a section is
  scored (src/pages/ReviseAnswer.tsx:277-280).
- Pressing Next does not reset the recorder: the handler only sets `currentSection`
  (src/pages/ReviseAnswer.tsx:60-64, :277-280), so a recording made for one section stays
  available on the next, and `HandleNextSection` changes nothing else.

## Model

| member | source | states |
|---|---|---|
| Peel.Index | src/types/peel.ts:2 | each section has its position in the fixed order point, explanation, example, link |
| Peel.PerSection.Set | src/components/QuestionPage.tsx:58-61 | the object spread `{...prev, [s]: v}`: section `s` holds `v`, every other section keeps its value |
| Peel.Uniform | src/components/QuestionPage.tsx:31-43 | the record with the same value in all four sections, as the initial response and error flags |
| JsString.IndexOf | src/components/QuestionPage.tsx:99 | `indexOf` finds an occurrence with none earlier, and finds nothing only when the separator does not occur |
| JsString.Split | src/components/QuestionPage.tsx:99 | `split` never returns an empty list |
| JsString.JoinEnds | src/components/QuestionPage.tsx:105 | `join` starts with the first part and ends with the last |
| JsString.JoinSplit | src/components/QuestionPage.tsx:99-105 | joining the pieces of a split with the same separator gives back the string |
| JsString.SplitPiecesAvoidSeparator | src/components/QuestionPage.tsx:99 | no piece of a split contains the separator |
| JsString.SplitWithoutSeparator | src/components/QuestionPage.tsx:99 | a string without the separator splits into itself alone |
| JsString.SplitCons | src/components/QuestionPage.tsx:99 | when the first occurrence is right after `a`, splitting `a + sep + b` gives `a` and then the pieces of `b` |
| JsString.TrimStart | src/components/QuestionPage.tsx:74-77 | `trimStart` drops exactly a leading run of whitespace: the result is a suffix, starts with a non-whitespace character or is empty, and all it removed is whitespace |
| JsString.TrimEnd | src/components/QuestionPage.tsx:74-77 | `trimEnd`, the mirror image: a prefix, ends with a non-whitespace character or is empty, and it removed only whitespace |
| JsString.Trim | src/components/QuestionPage.tsx:74-77 | `trim` gives a stretch of the string that starts and ends with a non-whitespace character or is empty, with only whitespace cut off before and after it |
| JsString.TrimEmptyIffBlank | src/components/QuestionPage.tsx:74-77 | `s.trim() === ""` exactly when every character of `s` is whitespace |
| JsString.NatToString | src/hooks/useAudioRecorder.tsx:146 | `toString` of a non-negative integer gives decimal digits without a leading zero; one digit below 10, at most two below 100 |
| JsString.NatToStringValue | src/hooks/useAudioRecorder.tsx:146 | the digits of `n.toString()` read back as `n` |
| JsString.Zeros | src/hooks/useAudioRecorder.tsx:146 | the padding string is `k` zeros |
| JsString.PadStartZero | src/hooks/useAudioRecorder.tsx:146 | `padStart(width, '0')` gives the larger of `width` and the length, ends with the original string, and is zeros before it |
| JsString.LeadingZeroValue | src/hooks/useAudioRecorder.tsx:146 | one leading zero keeps a digit string's value |
| JsString.ZerosValue | src/hooks/useAudioRecorder.tsx:146 | any number of leading zeros keeps a digit string's value |
| JsString.PadStartZeroValue | src/hooks/useAudioRecorder.tsx:146 | zero padding keeps a digit string's value |
| AudioRecorderHook.ConcatAppend | src/hooks/useAudioRecorder.tsx:55-62 | the bytes of two chunk runs in a row are the bytes of the first run followed by those of the second |
| AudioRecorderHook.ConcatNonEmpty | src/hooks/useAudioRecorder.tsx:55-62 | skipping the zero-size chunks leaves the blob's bytes the same |
| AudioRecorderHook.TwoDigitField | src/hooks/useAudioRecorder.tsx:146 | one field of the time is all digits, at least two of them (exactly two below 100, and then without a leading zero), and reads back as its number |
| AudioRecorderHook.FormatTimeFields | src/hooks/useAudioRecorder.tsx:143-147 | the output is a clock: minutes, ':' and two-digit seconds. The seconds field reads back as `s % 60` (below 60) and the minutes as `s / 60`, so the fields add up to `s`; the length is 5 exactly when `s` < 6000, and longer minutes have no leading zero |
| AudioRecorderHook.FormatTimeExamples | src/hooks/useAudioRecorder.tsx:143-147 | 65 seconds format as "01:05" and 5 seconds as "00:05" |
| AudioRecorderHook.AudioRecorderSession.constructor | src/hooks/useAudioRecorder.tsx:14-25 | initial state: not recording, time 0, no recorder, blob or URL, empty buffer and refs, nothing live |
| AudioRecorderHook.AudioRecorderSession.FormattedTime | src/hooks/useAudioRecorder.tsx:154 | the clock on screen reads back as the elapsed recording time, five characters below 100 minutes and without a padded third minutes digit |
| AudioRecorderHook.AudioRecorderSession.StartTimer | src/hooks/useAudioRecorder.tsx:27-38 | the interval in the ref, if any, is cleared, and a fresh live interval is stored in the ref |
| AudioRecorderHook.AudioRecorderSession.StopTimer | src/hooks/useAudioRecorder.tsx:40-45 | the interval in the ref is cleared and the ref emptied; no other resource changes, and no interval stays live |
| AudioRecorderHook.AudioRecorderSession.Tick | src/hooks/useAudioRecorder.tsx:32-37 | a live interval firing adds exactly 1 to the recording time; a cleared one changes nothing |
| AudioRecorderHook.AudioRecorderSession.StartRecording | src/hooks/useAudioRecorder.tsx:47-94 | a refused microphone changes nothing. A grant stores a fresh live stream, empties the buffer, starts a fresh timer and sets recording, time 0 and no blob or URL |
| AudioRecorderHook.AudioRecorderSession.OnDataAvailable | src/hooks/useAudioRecorder.tsx:55-59 | a chunk is appended at the end exactly when its size is positive |
| AudioRecorderHook.AudioRecorderSession.OnStop | src/hooks/useAudioRecorder.tsx:61-78 | the blob is the in-order concatenation of the buffer tagged `audio/webm`, with a fresh live URL. Recording ends, and the stream in the ref is released and the ref cleared |
| AudioRecorderHook.AudioRecorderSession.StopRecording | src/hooks/useAudioRecorder.tsx:96-102 | the timer always stops; the recorder is asked to stop exactly when one exists and is recording |
| AudioRecorderHook.AudioRecorderSession.ResetRecording | src/hooks/useAudioRecorder.tsx:104-124 | the timer stops, the current URL is revoked, the stream is released and the initial state restored; from a settled session nothing stays live |
| AudioRecorderHook.AudioRecorderSession.Cleanup | src/hooks/useAudioRecorder.tsx:128-140 | the effect's cleanup clears the interval, revokes the captured URL and releases the stream in the ref, and touches nothing else |
| AudioRecorderHook.AudioRecorderSession.RunUrlEffect | src/hooks/useAudioRecorder.tsx:127-141 | when the URL changed, the previous run's cleanup revokes the URL it captured and the new run captures the current one; otherwise nothing happens |
| AudioRecorderHook.AudioRecorderSession.Unmount | src/hooks/useAudioRecorder.tsx:127-141 | unmounting runs the cleanup with the captured URL; from a settled session nothing stays live |
| ReviseAnswer.NextSection | src/pages/ReviseAnswer.tsx:60-64 | Next moves one place on in the fixed order, and link stays link |
| ReviseAnswer.PreviousSection | src/pages/ReviseAnswer.tsx:66-70 | Previous moves one place back, and point stays point |
| ReviseAnswer.PreviousUndoesNext | src/pages/ReviseAnswer.tsx:60-70 | previous(next(s)) = s except at link, and next(previous(s)) = s except at point |
| ReviseAnswer.NextVisitsInOrder | src/pages/ReviseAnswer.tsx:60-64 | pressing Next from point visits the sections in order and then stays at link |
| ReviseAnswer.ScoreWords | src/pages/ReviseAnswer.tsx:108-112 | one entry per `' '`-separated piece of the content; entry i holds piece i and the i-th score |
| ReviseAnswer.ScoredWordsRejoin | src/pages/ReviseAnswer.tsx:108-112 | the scored words joined with spaces give back the section's content |
| ReviseAnswer.RevisedAnswer | src/pages/ReviseAnswer.tsx:161-169 | the revised answer is point, explanation, example and link joined by single spaces, whatever the scores |
| ReviseAnswer.PracticeFullAnswerEnabled | src/pages/ReviseAnswer.tsx:293 | "Practice Full Answer" is enabled exactly when some section's score list is non-empty |
| ReviseAnswer.ScoringEnablesPractice | src/pages/ReviseAnswer.tsx:114-117 | after any section is scored the button is enabled |
| ReviseAnswer.ReviseSession.constructor | src/pages/ReviseAnswer.tsx:33-54 | initial state: at point, empty score lists, no dialog open, not processing, a fresh idle recorder |
| ReviseAnswer.ReviseSession.SectionContent | src/pages/ReviseAnswer.tsx:81-88 | the switch over the four sections gives the answer's text for that section |
| ReviseAnswer.ReviseSession.HandleNextSection | src/pages/ReviseAnswer.tsx:60-64 | the current section becomes its next section; it changes exactly when Next is enabled (not at link, src/pages/ReviseAnswer.tsx:277-280) |
| ReviseAnswer.ReviseSession.HandlePreviousSection | src/pages/ReviseAnswer.tsx:66-70 | the current section becomes its previous section; it changes exactly when Previous is enabled (not at point, src/pages/ReviseAnswer.tsx:229-232) |
| ReviseAnswer.ReviseSession.SelectSection | src/pages/ReviseAnswer.tsx:186 | a section tab makes that section current |
| ReviseAnswer.ReviseSession.ProcessRecording | src/pages/ReviseAnswer.tsx:99-131 | without a blob nothing changes. On success only the current section's list is replaced by its scored words and the score dialog opens. On failure one error is raised and the scores are kept. Processing ends either way |
| ReviseAnswer.ReviseSession.CloseScoreDialog | src/pages/ReviseAnswer.tsx:332-336 | closing the score dialog hides it and resets the recorder to its initial state: the timer is cleared, the stream released and the URL revoked, each platform set losing exactly that token, with no fresh token issued; a settled recorder is left quiescent |
| ReviseAnswer.ReviseSession.OpenRevision | src/pages/ReviseAnswer.tsx:290-291 | the revision dialog opens with the four sections joined by spaces |
| ReviseAnswer.ScoreTwoSections | src/pages/ReviseAnswer.tsx:114-117 | scoring point and then explanation fills exactly those two lists and enables practice |
| QuestionPage.TranscriptionRoundTrip | src/components/QuestionPage.tsx:99-106 | joining the fields back with ". " gives the transcription: all four fields from four or more pieces, fewer with the rest empty; one piece makes the point the whole transcription |
| QuestionPage.FirstFieldsHaveNoSeparator | src/components/QuestionPage.tsx:99-106 | point, explanation and example never contain ". "; only the link can |
| QuestionPage.TranscriptionToPeel | src/components/QuestionPage.tsx:99-106 | a transcription without ". " goes whole into the point, the other fields empty |
| QuestionPage.ThreeSentences | src/components/QuestionPage.tsx:99-106 | three sentences, any of them possibly empty, fill point, explanation and example and leave link empty |
| QuestionPage.FieldErrors | src/components/QuestionPage.tsx:72-78 | each field's flag (`trim() === ""`) is set exactly when that field is all whitespace |
| QuestionPage.FieldErrorsBlank | src/components/QuestionPage.tsx:72-78 | a field is flagged exactly when all its text is whitespace |
| QuestionPage.NoErrorsIff | src/components/QuestionPage.tsx:81 | `!Object.values(errors).some(Boolean)` holds exactly when no flag is set |
| QuestionPage.ValidIffNoBlankField | src/components/QuestionPage.tsx:72-82 | the form passes validation exactly when no field is blank |
| QuestionPage.View | src/components/QuestionPage.tsx:45-49 | the form is shown exactly for the ids 1 to 9, for the question with that id; any other id gives "Question not found" |
| QuestionPage.AnswerForm.constructor | src/components/QuestionPage.tsx:31-43 | empty fields, no flags, not submitting, nothing submitted |
| QuestionPage.AnswerForm.HandleFormChange | src/components/QuestionPage.tsx:57-70 | field f takes the new text and its flag clears; the other fields and flags are unchanged |
| QuestionPage.AnswerForm.ValidateForm | src/components/QuestionPage.tsx:72-82 | the flags become those of the trimmed fields of the (unchanged) response, and the result is true exactly when no field is blank |
| QuestionPage.AnswerForm.HandleFormSubmit | src/components/QuestionPage.tsx:84-90 | the written response is submitted with `isAudio` false exactly when no field is blank |
| QuestionPage.AnswerForm.HandleAudioComplete | src/components/QuestionPage.tsx:92-113 | a successful transcription submits its split with `isAudio` true, a failure submits nothing, and submitting ends either way |
| QuestionPage.EditAfterValidation | src/components/QuestionPage.tsx:57-82 | after validating and editing one field, that flag is clear and the others still tell which fields were blank |
| MockData.TopicIdsInOrder | src/lib/mockData.ts:40-53 | twelve topics with ids 1 to 12 in order |
| MockData.QuestionLayout | src/lib/mockData.ts:55-123 | the shipped questions: ids 1 to 9, three per topic for topics 1 to 3, types 1, 2, 3 in turn, an image exactly on type 1 |
| MockData.LaidOutIdsUnique | src/lib/mockData.ts:55-123 | in a table so laid out, ids are 1 to 9 and no two questions share one |
| MockData.QuestionIdsUnique | src/lib/mockData.ts:55-123 | the question ids are 1 to 9 and unique |
| MockData.LaidOutOnePerTypePerTopic | src/lib/mockData.ts:98-99 | in a table so laid out, each of topics 1 to 3 has exactly one question of each type |
| MockData.OneQuestionPerTypePerTopic | src/lib/mockData.ts:98-99 | each of topics 1 to 3 has exactly one question of each type, at a known position |
| MockData.ImageOnlyForPictureQuestions | src/lib/mockData.ts:11-13 | exactly the type-1 questions carry an image |
| MockData.LaidOutTopicsListed | src/lib/mockData.ts:40-123 | in a table so laid out, every question's topic is among topics 1 to 12 |
| MockData.QuestionTopicsListed | src/lib/mockData.ts:40-123 | every question's topic is in `topics` |
| MockData.FindQuestion | src/components/QuestionPage.tsx:45 | `find` gives the first question with the id, and none exactly when no question has it |
| MockData.FindLaidOut | src/components/QuestionPage.tsx:45 | in a table so laid out, the lookup succeeds exactly for ids 1 to 9, at index id - 1 |
| MockData.FindQuestionInTable | src/components/QuestionPage.tsx:45 | in the shipped table the lookup succeeds exactly for ids 1 to 9 |
| MockData.MockListSizes | src/lib/mockData.ts:177-197 | the vocabulary, grammar, sentence-structure and pronunciation lists have three items each |
| MockData.GenerateFeedback | src/lib/mockData.ts:157-200 | each section comment is one of that section's two fixed texts |
| MockData.OriginalAnswerFields | src/lib/mockData.ts:159 | the original answer is "I " + point + ". " + explanation + " " + example + " " + link, each field chosen on its own: its fixed default exactly when it is empty, itself otherwise |
| MockData.CommentsByLength | src/lib/mockData.ts:164-175 | each comment is the stronger text when the field is longer than its threshold (5 for point, 20 for the others) and the weaker one otherwise |
| MockData.PronunciationIffAudio | src/lib/mockData.ts:193-197 | pronunciation advice, the whole fixed list, is present exactly for audio submissions |
| MockData.FixedParts | src/lib/mockData.ts:177-199 | the language lists and the revised answer do not depend on the input |
| MockData.DependsOnlyOnLengths | src/lib/mockData.ts:157-200 | apart from the echoed original answer, the feedback depends only on the field lengths and the audio flag |
| QuestionSelection.FilterByTopic | src/components/QuestionSelection.tsx:23 | the filter keeps exactly the questions of the topic, all of them taken from the table |
| QuestionSelection.FilterAppend | src/components/QuestionSelection.tsx:23 | filtering distributes over concatenation, so the table order is kept |
| QuestionSelection.FilterTwice | src/components/QuestionSelection.tsx:23 | filtering twice by the same topic changes nothing |
| QuestionSelection.FilterKeepsAll | src/components/QuestionSelection.tsx:23 | a list of questions of the topic passes whole |
| QuestionSelection.FilterDropsAll | src/components/QuestionSelection.tsx:23 | a list of questions of other topics is filtered out |
| QuestionSelection.FilterThreeBlocks | src/components/QuestionSelection.tsx:23 | over three topic blocks in a row the filter picks out exactly the block of its topic |
| QuestionSelection.LaidOutTopics | src/components/QuestionSelection.tsx:23 | in a table so laid out, topics 1 to 3 get their three questions in order and other topics none |
| QuestionSelection.ShippedTopics | src/components/QuestionSelection.tsx:23 | the same for the shipped table |
| QuestionSelection.HandleMockAnswer | src/components/QuestionSelection.tsx:25-35 | the revise page opens exactly when some question has the id, with that question |
| QuestionSelection.MockAnswerIds | src/components/QuestionSelection.tsx:25-35 | only the ids 1 to 9 lead to the revise page |
| AppIndex.Render | src/pages/Index.tsx:87-114 | each screen renders only in its own app state (the topic list exactly on the topics state) and only with its prerequisite (a truthy topic id, a truthy question id, feedback), with those values; nothing renders exactly when it is missing |
| AppIndex.App.Rendered | src/pages/Index.tsx:87-114 | with the selections the handlers maintain, some screen is always rendered |
| AppIndex.App.constructor | src/pages/Index.tsx:13-17 | the app starts on the topic list with nothing selected, no feedback, not loading |
| AppIndex.App.HandleTopicSelect | src/pages/Index.tsx:19-21 | the topic is stored and the question list is shown |
| AppIndex.App.HandleQuestionSelect | src/pages/Index.tsx:27-29 | the question is stored and the form is shown |
| AppIndex.App.HandleBackToTopics | src/pages/Index.tsx:35-41 | the topic is cleared and the topic list is shown |
| AppIndex.App.HandleBackToQuestions | src/pages/Index.tsx:43-49 | the question is cleared and the topic's questions are shown |
| AppIndex.App.HandleAnswerSubmit | src/pages/Index.tsx:51-74 | nothing happens unless both ids are set and non-zero. Delivered feedback is stored and the results shown; a failure keeps the screen. Loading ends either way |
| AppIndex.App.HandleTryAgain | src/pages/Index.tsx:76-78 | the feedback is dropped and the same question is shown again |
| AppIndex.WalkThrough | src/pages/Index.tsx:19-82 | choosing, submitting, trying again and going back shows the form, the results, the form, the question list and the topic list in turn |
| TextToSpeech.Cancel | src/hooks/useTextToSpeech.ts:18 | after a cancel nothing is spoken, no utterance is lost (each stopped one owes its error event), no token is issued, and the queue stays consistent |
| TextToSpeech.CancelIdempotent | src/hooks/useTextToSpeech.ts:18 | a second cancel finds nothing to stop |
| TextToSpeech.SpeechChannel.constructor | src/hooks/useTextToSpeech.ts:12-13 | not speaking, no section, nothing queued |
| TextToSpeech.SpeechChannel.ReadAloudSection | src/hooks/useTextToSpeech.ts:15-46 | with speech support, ongoing speech is always cancelled first. With text, the section is marked as spoken and a fresh utterance is queued. With empty text both flags stay |
| TextToSpeech.SpeechChannel.OnUtteranceEnd | src/hooks/useTextToSpeech.ts:29-32 | an utterance ending clears both flags |
| TextToSpeech.SpeechChannel.OnUtteranceError | src/hooks/useTextToSpeech.ts:34-42 | as written: any error of a queued utterance, a cancelled one included, clears both flags and raises a notification |
| TextToSpeech.SpeechChannel.OnUtteranceErrorCorrected | src/hooks/useTextToSpeech.ts:34-42 | as intended: a cancelled utterance's error is ignored; only a failure of the one being spoken clears the flags and notifies |
| TextToSpeech.SpeechChannel.StopSpeaking | src/hooks/useTextToSpeech.ts:48-54 | with speech support, speech is cancelled and both flags clear; without it nothing changes; calling it with nothing spoken changes nothing |
| TextToSpeech.StopSpeakingTwice | src/hooks/useTextToSpeech.ts:48-54 | stopping twice ends in the same state as stopping once |
| TextToSpeech.StopRaisesSpeechError | src/hooks/useTextToSpeech.ts:34-53 | as written, reading a section and pressing stop raises a "Speech Error" notification |
| TextToSpeech.SupersededUtteranceClearsFlags | src/hooks/useTextToSpeech.ts:15-42 | as written, reading a second section clears its own flags once the first utterance's cancel error arrives |
| TextToSpeech.CancelErrorsIgnoredWhenCorrected | src/hooks/useTextToSpeech.ts:15-53 | with the corrected handler, the superseded utterance's error and a later stop raise no notification, and the stop ends the speech |
| AudioRecorderWidget.RecorderWidget.constructor | src/components/AudioRecorder.tsx:22-25 | no countdown, no waveform, nothing completed, an idle recorder |
| AudioRecorderWidget.RecorderWidget.MicButtonShown | src/components/AudioRecorder.tsx:102 | the microphone is offered exactly when nothing is being recorded and no recording is kept |
| AudioRecorderWidget.RecorderWidget.MicButtonEnabled | src/components/AudioRecorder.tsx:102-109 | the microphone can be clicked only with no other control on screen, and never during a countdown |
| AudioRecorderWidget.RecorderWidget.StopButtonShown | src/components/AudioRecorder.tsx:115 | stop is offered only while recording, when there is a recorder to stop and no URL yet |
| AudioRecorderWidget.RecorderWidget.PlaybackShown | src/components/AudioRecorder.tsx:90-98 | playback and reset are offered exactly when a finished recording is kept |
| AudioRecorderWidget.RecorderWidget.OneControlShown | src/components/AudioRecorder.tsx:100-130 | exactly one of the microphone, stop and playback controls is offered |
| AudioRecorderWidget.RecorderWidget.HandleStartRecording | src/components/AudioRecorder.tsx:50-52 | the countdown starts at 3 |
| AudioRecorderWidget.RecorderWidget.CountdownTick | src/components/AudioRecorder.tsx:30-34 | a timer step lowers a positive countdown by exactly 1 and leaves it otherwise |
| AudioRecorderWidget.RecorderWidget.CountdownEffect | src/components/AudioRecorder.tsx:28-41 | at 0 the waveform shows and the countdown ends, and a granted start gives the recorder's whole new state (recording from 0, no blob or URL, empty buffer, a fresh stream and timer, URLs untouched); a refused one leaves the recorder as it was; at any other value nothing changes |
| AudioRecorderWidget.RecorderWidget.CompletionEffect | src/components/AudioRecorder.tsx:44-48 | the blob is handed on exactly when not recording and a blob exists |
| AudioRecorderWidget.RecorderWidget.HandleStopRecording | src/components/AudioRecorder.tsx:54-57 | the waveform is hidden and the recorder stopped: its timer is cleared and no other resource changes; a stop is requested exactly when recording |
| AudioRecorderWidget.RecorderWidget.HandleReset | src/components/AudioRecorder.tsx:59-62 | the waveform is hidden and the recorder reset: initial state, timer cleared, URL revoked, stream released, nothing live from a settled session; the microphone is offered again |
| AudioRecorderWidget.RecordingStartsAfterThreeTicks | src/components/AudioRecorder.tsx:28-52 | from a click, the recording flag observed after the four effects is false, false, false, true: recording starts exactly after the third tick |

## Left out

- Browser media and speech APIs are not modelled: `getUserMedia`, `MediaRecorder`, object
  URLs and `speechSynthesis`. They appear only as tokens and as events the environment
  calls. A `MediaRecorder` constructor that throws is not modelled; a refused microphone is.
- ReviseAnswer.ReviseSession.ProcessRecording, QuestionPage.AnswerForm.HandleAudioComplete,
  AppIndex.App.HandleAnswerSubmit and AudioRecorderHook.AudioRecorderSession.StartRecording run
  their `await` as one atomic step. The in-flight state is therefore never observable
  (`isProcessing`, `isSubmitting` and `isLoading` are never true between calls). Events the
  source admits during the await are not interleaved either, such as Next or a tab on the
  revise page during the transcription.
- MockData.GenerateMockFeedback: no contract of its own. It is `GenerateFeedback` over the
  shipped texts, and the lemmas about `GenerateFeedback` hold for any texts. Stating facts about
  the shipped texts inside its contract is too costly for the verifier, because of their long
  literals. `MockListSizes` covers the list sizes.
- Wall-clock timing is not modelled. Interval, timeout and countdown firings are method calls,
  and the 2 s and 3 s delays of src/lib/feedback.ts are not represented.
- src/lib/feedback.ts is not modelled separately. `getFeedback` is a delayed
  `generateMockFeedback`, so a call that resolves gives `GenerateFeedback` over the app's texts.
  `processAudioTranscription`'s fixed text is not used as a test vector, because long literals
  are too costly for the verifier. `ThreeSentences` states the same shape generally.
- `Math.random` is replaced by a function from word position to score. Nothing is said about
  the score distribution.
- React machinery is not modelled: batching, re-renders, effect scheduling, stale closures,
  toasts and router navigation. The completion effect re-running when the callback's identity
  changes is not modelled either.
- Presentational files are not modelled: ResultsPage, the modals, TopicSelection and the other
  view components. The same goes for the title and colour lookups, `renderScoredContent` and
  the `topics.find` title on the question list.
- `getMockAnswer` is imported by src/components/QuestionSelection.tsx but not defined in the
  source files. Its result is the revise page's `mockAnswer` parameter.
- `handlePractice` (src/components/QuestionSelection.tsx:37-40) only forwards the id to
  `onSelectQuestion`, which is `AppIndex.App.HandleQuestionSelect`.
- String lengths are counted in characters, not UTF-16 code units.
- `App` takes the fixed feedback texts as a value. The shipped app uses `MockTexts`, and
  `GenerateMockFeedback` is `GenerateFeedback(MockTexts, …)`. The comment lemmas are proved
  for any texts, so they hold for the shipped ones.

## Findings

| source | as written | input that shows it | evidently intended | confidence | as-written member | corrected member |
|---|---|---|---|---|---|---|
| src/hooks/useTextToSpeech.ts:34-42 | `onerror` clears both flags and raises a "Speech Error" toast for every error event, including the `interrupted`/`canceled` error the browser delivers for an utterance the hook itself cancelled (lines 17-19 and 48-53) | read a section aloud and press stop; or read one section and then another while the first is spoken | ignore the errors caused by the hook's own cancel, and clear the flags only when the utterance being spoken fails | not executed; relies on the browser firing an error event for cancelled utterances, as the Web Speech API specifies | TextToSpeech.SupersededUtteranceClearsFlags | TextToSpeech.CancelErrorsIgnoredWhenCorrected |
