/**
 * The read-aloud flags of src/hooks/useTextToSpeech.ts. The browser's speech queue is kept
 * abstract: utterances are tokens, `speechSynthesis.cancel()` moves the utterance being spoken
 * to the set of cancelled ones, and the utterance callbacks are methods the platform calls
 * with the token of the utterance that finished or failed.
 */
module TextToSpeech {
  import opened Wrappers
  import opened Peel

  type Utterance = nat

  /**
   * The speech queue: utterances still being spoken, utterances removed by a cancel whose
   * error event is still due, and the next unused token.
   */
  datatype Speech = Speech(speaking: set<Utterance>, cancelled: set<Utterance>, next: Utterance)

  predicate Issues(q: Speech) {
    && (forall u :: u in q.speaking ==> u < q.next)
    && (forall u :: u in q.cancelled ==> u < q.next)
    && q.speaking !! q.cancelled
  }

  /**
   * `speechSynthesis.cancel()`: nothing is spoken any more, no utterance is lost (each one
   * spoken before now owes its error event), no token is issued, and the queue stays
   * consistent.
   */
  function Cancel(q: Speech): (r: Speech)
    ensures r.speaking == {}
    ensures r.speaking + r.cancelled == q.speaking + q.cancelled && q.cancelled <= r.cancelled
    ensures r.next == q.next
    ensures Issues(q) ==> Issues(r)
  {
    Speech({}, q.cancelled + q.speaking, q.next)
  }

  /** A second cancel finds nothing to stop. */
  lemma CancelIdempotent(q: Speech)
    ensures Cancel(Cancel(q)) == Cancel(q)
  {
  }

  class SpeechChannel {
    /** `'speechSynthesis' in window`. */
    const supported: bool
    /** `getSectionContent`, the text the hook reads for a section. */
    const sectionContent: Section -> string

    var isSpeaking: bool
    var currentSpeakingSection: Option<Section>
    var queue: Speech
    /** How many "Speech Error" toasts have been raised. */
    var notifications: nat

    /** The flags agree, and without speech support nothing is ever queued. */
    ghost predicate Valid()
      reads this
    {
      && (isSpeaking <==> currentSpeakingSection.Some?)
      && Issues(queue)
      && (!supported ==> queue.speaking == {} && queue.cancelled == {})
    }

    constructor (supported: bool, sectionContent: Section -> string)
      ensures Valid()
      ensures this.supported == supported && this.sectionContent == sectionContent
      ensures !isSpeaking && currentSpeakingSection.None? && notifications == 0
      ensures queue == Speech({}, {}, 0)
    {
      this.supported := supported;
      this.sectionContent := sectionContent;
      isSpeaking, currentSpeakingSection := false, None;
      queue := Speech({}, {}, 0);
      notifications := 0;
    }

    /**
     * `readAloudSection`: cancel any ongoing speech first; then, when the section has text,
     * mark it as the one being spoken and queue a fresh utterance for it. With empty text
     * no utterance is created and both flags are left as they were.
     */
    method ReadAloudSection(section: Section)
      requires Valid()
      modifies this`isSpeaking, this`currentSpeakingSection, this`queue
      ensures Valid()
      ensures !supported ==>
        && queue == old(queue) && isSpeaking == old(isSpeaking)
        && currentSpeakingSection == old(currentSpeakingSection)
      ensures supported && sectionContent(section) != "" ==>
        && isSpeaking && currentSpeakingSection == Some(section)
        && queue == Cancel(old(queue)).(speaking := {old(queue.next)}, next := old(queue.next) + 1)
      ensures supported && sectionContent(section) == "" ==>
        && queue == Cancel(old(queue))
        && isSpeaking == old(isSpeaking) && currentSpeakingSection == old(currentSpeakingSection)
    {
      if supported {
        queue := Cancel(queue);
      }
      var text := sectionContent(section);
      if supported && text != "" {
        currentSpeakingSection := Some(section);
        isSpeaking := true;
        var u := queue.next;
        queue := queue.(speaking := {u}, next := u + 1);
      }
    }

    /** `utterance.onend`: an utterance that was being spoken finished; both flags clear. */
    method OnUtteranceEnd(u: Utterance)
      requires Valid()
      modifies this`isSpeaking, this`currentSpeakingSection, this`queue
      ensures Valid()
      ensures u in old(queue.speaking) ==>
        && !isSpeaking && currentSpeakingSection.None?
        && queue == old(queue).(speaking := old(queue.speaking) - {u})
      ensures u !in old(queue.speaking) ==>
        && queue == old(queue) && isSpeaking == old(isSpeaking)
        && currentSpeakingSection == old(currentSpeakingSection)
    {
      if u in queue.speaking {
        queue := queue.(speaking := queue.speaking - {u});
        isSpeaking, currentSpeakingSection := false, None;
      }
    }

    /**
     * `utterance.onerror` as written: any error event of a queued utterance, including the
     * one a cancel causes, clears both flags and raises a notification.
     */
    method OnUtteranceError(u: Utterance)
      requires Valid()
      modifies this`isSpeaking, this`currentSpeakingSection, this`queue, this`notifications
      ensures Valid()
      ensures u in old(queue.speaking) + old(queue.cancelled) ==>
        && !isSpeaking && currentSpeakingSection.None?
        && notifications == old(notifications) + 1
        && queue == old(queue).(speaking := old(queue.speaking) - {u},
                                cancelled := old(queue.cancelled) - {u})
      ensures u !in old(queue.speaking) + old(queue.cancelled) ==>
        && queue == old(queue) && notifications == old(notifications)
        && isSpeaking == old(isSpeaking) && currentSpeakingSection == old(currentSpeakingSection)
    {
      if u in queue.speaking || u in queue.cancelled {
        queue := queue.(speaking := queue.speaking - {u}, cancelled := queue.cancelled - {u});
        isSpeaking, currentSpeakingSection := false, None;
        notifications := notifications + 1;
      }
    }

    /**
     * The error handler as evidently intended: the error a cancel causes (`interrupted` or
     * `canceled`) is the app's own doing and is ignored; only a genuine failure of the
     * utterance being spoken clears the flags and raises a notification.
     */
    method OnUtteranceErrorCorrected(u: Utterance)
      requires Valid()
      modifies this`isSpeaking, this`currentSpeakingSection, this`queue, this`notifications
      ensures Valid()
      ensures u in old(queue.cancelled) ==>
        && queue == old(queue).(cancelled := old(queue.cancelled) - {u})
        && notifications == old(notifications)
        && isSpeaking == old(isSpeaking) && currentSpeakingSection == old(currentSpeakingSection)
      ensures u in old(queue.speaking) ==>
        && !isSpeaking && currentSpeakingSection.None?
        && notifications == old(notifications) + 1
        && queue == old(queue).(speaking := old(queue.speaking) - {u})
      ensures u !in old(queue.speaking) + old(queue.cancelled) ==>
        && queue == old(queue) && notifications == old(notifications)
        && isSpeaking == old(isSpeaking) && currentSpeakingSection == old(currentSpeakingSection)
    {
      if u in queue.cancelled {
        queue := queue.(cancelled := queue.cancelled - {u});
      } else if u in queue.speaking {
        queue := queue.(speaking := queue.speaking - {u});
        isSpeaking, currentSpeakingSection := false, None;
        notifications := notifications + 1;
      }
    }

    /** `stopSpeaking`: with speech support, cancel and clear both flags; otherwise nothing. */
    method StopSpeaking()
      requires Valid()
      modifies this`isSpeaking, this`currentSpeakingSection, this`queue
      ensures Valid()
      ensures supported ==> !isSpeaking && currentSpeakingSection.None? && queue == Cancel(old(queue))
      ensures !supported ==>
        && queue == old(queue) && isSpeaking == old(isSpeaking)
        && currentSpeakingSection == old(currentSpeakingSection)
      ensures old(queue.speaking) == {} && !old(isSpeaking) ==>
        queue == old(queue) && !isSpeaking && currentSpeakingSection == old(currentSpeakingSection)
    {
      if supported {
        queue := Cancel(queue);
        isSpeaking, currentSpeakingSection := false, None;
      }
    }
  }

  /**
   * Stopping twice is the same as stopping once: the second call finds nothing spoken and
   * both flags clear, so it changes nothing.
   */
  method StopSpeakingTwice(c: SpeechChannel)
    requires c.Valid()
    modifies c
    ensures c.Valid()
    ensures c.supported ==>
      !c.isSpeaking && c.currentSpeakingSection.None? && c.queue == Cancel(old(c.queue))
    ensures !c.supported ==>
      && c.queue == old(c.queue) && c.isSpeaking == old(c.isSpeaking)
      && c.currentSpeakingSection == old(c.currentSpeakingSection)
  {
    c.StopSpeaking();
    c.StopSpeaking();
  }

  /**
   * Reading a section aloud and pressing stop, as written: the cancel makes the browser
   * deliver an `interrupted` error for the stopped utterance, and the handler reports it as
   * a "Speech Error" although nothing failed.
   */
  method StopRaisesSpeechError() returns (c: SpeechChannel)
    ensures c.notifications == 1 && !c.isSpeaking
  {
    c := new SpeechChannel(true, (s: Section) => if s == Point then "First point." else "");
    c.ReadAloudSection(Point);
    assert c.isSpeaking && c.queue.speaking == {0};
    c.StopSpeaking();
    assert c.queue.cancelled == {0};
    c.OnUtteranceError(0);
  }

  /**
   * Reading a second section while the first is spoken, as written: the first utterance's
   * `interrupted` error clears the flags of the second, which is still being spoken.
   */
  method SupersededUtteranceClearsFlags() returns (c: SpeechChannel)
    ensures c.queue.speaking == {1} && !c.isSpeaking && c.currentSpeakingSection.None?
    ensures c.notifications == 1
  {
    c := new SpeechChannel(true, (s: Section) => "Some text.");
    c.ReadAloudSection(Point);
    c.ReadAloudSection(Example);
    assert c.queue.speaking == {1} && c.queue.cancelled == {0};
    c.OnUtteranceError(0);
  }

  /**
   * The same two scenarios with the corrected handler: the superseded utterance's error
   * leaves the second section marked as spoken, and stopping raises no notification.
   */
  method CancelErrorsIgnoredWhenCorrected() returns (c: SpeechChannel)
    ensures c.notifications == 0 && !c.isSpeaking
  {
    c := new SpeechChannel(true, (s: Section) => "Some text.");
    c.ReadAloudSection(Point);
    c.ReadAloudSection(Example);
    c.OnUtteranceErrorCorrected(0);
    assert c.isSpeaking && c.currentSpeakingSection == Some(Example) && c.notifications == 0;
    c.StopSpeaking();
    c.OnUtteranceErrorCorrected(1);
  }
}
