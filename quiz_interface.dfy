/** The quiz screen (QuizInterface.tsx): the spoken-answer matcher, the read-aloud text of a question,
    the guarded answer submission and the step to the next question. Speech output is returned as the
    text handed to `voiceManager.speak`; timers and the network are inputs. */
module QuizInterface {
  import opened Basics
  import opened Text
  import opened QuizTypes

  // ---------------------------------------------------------------------------------------------
  // Matching a transcript to an option

  /** Saying "option x" always contains the bare letter x, so the second test of each pair in the
      letter rule never decides anything. */
  lemma OptionPhraseSubsumed(spoken: string, letter: char)
    ensures Contains(spoken, "option " + [letter]) ==> Contains(spoken, [letter])
  {
    if Contains(spoken, "option " + [letter]) {
      assert OccursAt("option " + [letter], [letter], 7);
      ContainsTransitive(spoken, "option " + [letter], [letter]);
    }
  }

  /** The letter rule on the lower-cased transcript: 0 if it contains 'a' (or "option a"), else 1 for
      'b', 2 for 'c', 3 for 'd', and -1 when none of the four letters occurs. */
  function LetterRule(spoken: string): (r: int)
    ensures -1 <= r <= 3
    ensures r == 0 <==> Contains(spoken, "a")
    ensures r == 1 <==> !Contains(spoken, "a") && Contains(spoken, "b")
    ensures r == 2 <==> !Contains(spoken, "a") && !Contains(spoken, "b") && Contains(spoken, "c")
    ensures r == 3 <==> !Contains(spoken, "a") && !Contains(spoken, "b") && !Contains(spoken, "c") && Contains(spoken, "d")
  {
    assert "option a" == "option " + ['a'] && "option b" == "option " + ['b'];
    assert "option c" == "option " + ['c'] && "option d" == "option " + ['d'];
    OptionPhraseSubsumed(spoken, 'a');
    OptionPhraseSubsumed(spoken, 'b');
    OptionPhraseSubsumed(spoken, 'c');
    OptionPhraseSubsumed(spoken, 'd');
    if Contains(spoken, "a") || Contains(spoken, "option a") then 0
    else if Contains(spoken, "b") || Contains(spoken, "option b") then 1
    else if Contains(spoken, "c") || Contains(spoken, "option c") then 2
    else if Contains(spoken, "d") || Contains(spoken, "option d") then 3
    else -1
  }

  /** The option-text scan: the last index whose lower-cased option text occurs in the transcript,
      or -1 when none does. */
  function LastContainedOption(spoken: string, options: seq<string>): (r: int)
    ensures -1 <= r < |options|
    ensures r >= 0 ==> Contains(spoken, ToLower(options[r]))
    ensures forall k :: r < k < |options| ==> !Contains(spoken, ToLower(options[k]))
  {
    if options == [] then -1
    else if Contains(spoken, ToLower(options[|options| - 1])) then |options| - 1
    else LastContainedOption(spoken, options[..|options| - 1])
  }

  /** The index `handleSpeechResult` settles on: the letter rule first, the option-text scan only
      when the transcript contains none of the letters a to d; -1 means "not understood". */
  function ResolveAnswer(transcript: string, options: seq<string>): int {
    var spoken := ToLower(transcript);
    var letter := LetterRule(spoken);
    if letter != -1 then letter else LastContainedOption(spoken, options)
  }

  /** The matcher as the component runs it: the if-chain, then a pass over the options in which each
      containing option overwrites the answer. */
  method MatchSpokenAnswer(transcript: string, options: seq<string>) returns (answerIndex: int)
    ensures answerIndex == ResolveAnswer(transcript, options)
  {
    var spoken := ToLower(transcript);
    answerIndex := -1;
    if Contains(spoken, "a") || Contains(spoken, "option a") {
      answerIndex := 0;
    } else if Contains(spoken, "b") || Contains(spoken, "option b") {
      answerIndex := 1;
    } else if Contains(spoken, "c") || Contains(spoken, "option c") {
      answerIndex := 2;
    } else if Contains(spoken, "d") || Contains(spoken, "option d") {
      answerIndex := 3;
    } else {
      var index := 0;
      while index < |options|
        invariant 0 <= index <= |options|
        invariant answerIndex == LastContainedOption(spoken, options[..index])
      {
        if Contains(spoken, ToLower(options[index])) {
          answerIndex := index;
        }
        assert options[..index + 1][..index] == options[..index];
        index := index + 1;
      }
      assert options[..index] == options;
    }
  }

  /** The letter rule answers 0 to 3 whatever the number of options, and -1 only falls through to the scan. */
  lemma ResolveAnswerRange(transcript: string, options: seq<string>)
    ensures var r := ResolveAnswer(transcript, options);
            -1 <= r && (r <= 3 || r < |options|)
    ensures LetterRule(ToLower(transcript)) != -1 ==> ResolveAnswer(transcript, options) == LetterRule(ToLower(transcript))
  {
  }

  /** An option can only be picked by its text when that text contains none of the letters a to d:
      otherwise the transcript would contain the letter too and the letter rule would have fired. */
  lemma ScanMatchHasNoLetters(transcript: string, options: seq<string>)
    requires LetterRule(ToLower(transcript)) == -1
    requires ResolveAnswer(transcript, options) >= 0
    ensures var option := ToLower(options[ResolveAnswer(transcript, options)]);
            !Contains(option, "a") && !Contains(option, "b") && !Contains(option, "c") && !Contains(option, "d")
  {
    var spoken := ToLower(transcript);
    var option := ToLower(options[ResolveAnswer(transcript, options)]);
    assert Contains(spoken, option);
    if Contains(option, "a") { ContainsTransitive(spoken, option, "a"); }
    if Contains(option, "b") { ContainsTransitive(spoken, option, "b"); }
    if Contains(option, "c") { ContainsTransitive(spoken, option, "c"); }
    if Contains(option, "d") { ContainsTransitive(spoken, option, "d"); }
  }

  /** A transcript containing 'a' anywhere picks option A, whatever the options say. */
  lemma MaybeMeansA(options: seq<string>)
    ensures ResolveAnswer("maybe", options) == 0
  {
    assert ToLower("maybe") == "maybe";
    assert OccursAt("maybe", "a", 1);
  }

  /** "i choose bird" picks B through the 'b' in "bird" before the option text is looked at. */
  lemma BirdSaysB()
    ensures ResolveAnswer("i choose bird", ["Cat", "Dog", "Bird", "Fish"]) == 1
  {
    var s := "i choose bird";
    assert ToLower(s) == s;
    assert OccursAt(s, "b", 9);
    ContainsLetter(s, 'a');
  }

  /** "I think it's B" picks B by its letter. */
  lemma ThinkItsB()
    ensures ResolveAnswer("I think it's B", ["Cat", "Dog", "Bird", "Fish"]) == 1
  {
    var s := "i think it's b";
    assert ToLower("I think it's B") == s;
    assert OccursAt(s, "b", 13);
    ContainsLetter(s, 'a');
  }

  /** "Fish" holds none of the letters a to d, so the option text decides. */
  lemma FishByText()
    ensures ResolveAnswer("Fish", ["Cat", "Dog", "Bird", "Fish"]) == 3
  {
    var options := ["Cat", "Dog", "Bird", "Fish"];
    var s := "fish";
    assert ToLower("Fish") == s;
    assert ToLower(options[3]) == s;
    ContainsLetter(s, 'a');
    ContainsLetter(s, 'b');
    ContainsLetter(s, 'c');
    ContainsLetter(s, 'd');
    assert OccursAt(s, s, 0);
  }

  // ---------------------------------------------------------------------------------------------
  // Spoken texts

  /** `String.fromCharCode(65 + index)`: the code is taken modulo 2^16; the surrogate codes, which
      a Dafny `char` cannot hold, are shown as U+FFFD. */
  function OptionLabel(index: int): char {
    var code := (65 + index) % 0x1_0000;
    if 0xD800 <= code < 0xE000 then '\U{FFFD}' else code as char
  }

  /** `options[index]` in a template string: "undefined" past the end of the list. */
  function OptionText(options: seq<string>, index: int): string {
    if 0 <= index < |options| then options[index] else "undefined"
  }

  function ChoiceAnnouncement(options: seq<string>, index: int): string {
    "You chose " + [OptionLabel(index)] + ": " + OptionText(options, index)
  }

  const RetryPrompt := "I didn't understand that answer. Please try again or click your choice."
  const CatchPrompt := "I didn't catch that. Please try speaking again or click your answer."
  const ListeningPrompt := "I'm listening for your answer. You can say A, B, C, or D, or speak the full answer."
  const SubmitErrorPrompt := "There was a problem submitting your answer. Please try again."

  /** "A: text", "B: text", ... for the options in order. */
  function LabelledOptions(options: seq<string>): (r: seq<string>)
    ensures |r| == |options|
    ensures forall i :: 0 <= i < |options| ==> r[i] == [OptionLabel(i)] + ": " + options[i]
  {
    seq(|options|, i requires 0 <= i < |options| => [OptionLabel(i)] + ": " + options[i])
  }

  /** The text `readQuestionAloud` speaks for the current question. */
  function ReadAloudText(session: QuizSession): string
    requires session.currentQuestion < |session.questions|
  {
    var q := session.questions[session.currentQuestion];
    "Question " + IntToString(session.currentQuestion + 1) + ": " + q.question
      + ". Your options are: " + Join(". ", LabelledOptions(q.options))
  }

  /** The read-aloud text names the question and every option with its letter. */
  lemma ReadAloudMentionsEverything(session: QuizSession, k: nat)
    requires session.currentQuestion < |session.questions|
    requires k < |session.questions[session.currentQuestion].options|
    ensures var q := session.questions[session.currentQuestion];
            && Contains(ReadAloudText(session), q.question)
            && Contains(ReadAloudText(session), [OptionLabel(k)] + ": " + q.options[k])
  {
    var q := session.questions[session.currentQuestion];
    var head := "Question " + IntToString(session.currentQuestion + 1) + ": ";
    var joined := Join(". ", LabelledOptions(q.options));
    var text := ReadAloudText(session);
    assert text == (head + q.question) + (". Your options are: " + joined);
    ContainsParts(head, q.question);
    ContainsParts(head + q.question, ". Your options are: " + joined);
    ContainsTransitive(text, head + q.question, q.question);
    JoinContainsParts(". ", LabelledOptions(q.options), k);
    ContainsParts(". Your options are: ", joined);
    ContainsTransitive(text, ". Your options are: " + joined, joined);
    ContainsTransitive(text, joined, [OptionLabel(k)] + ": " + q.options[k]);
  }

  /** Whether `onQuizComplete` is scheduled after an answer request, and with what: only for an
      accepted reply that ends the quiz, and only when the notifications before it return normally. */
  function Completion(reply: SubmitReply, notifyThrows: bool): Option<(int, int)> {
    if reply.Accepted? && reply.isQuizComplete && !notifyThrows
    then Some((reply.finalScore, reply.totalQuestions))
    else None
  }

  /** As the component is mounted, `onScoreUpdate` is not passed and the voice manager has no
      `speakCorrectAnswer` or `speakIncorrectAnswer`, so the calls after an accepted answer throw. */
  const NotifyThrowsAsWired := true

  /** As wired, no reply ever schedules `onQuizComplete`, not even the one for the last question. */
  lemma QuizNeverCompletesAsWired(reply: SubmitReply)
    ensures Completion(reply, NotifyThrowsAsWired) == None
    ensures var last := Accepted(true, "Right!", 4, true, 4, 4);
            last.isQuizComplete && Completion(last, NotifyThrowsAsWired) == None
  {
  }

  /** With the notifications defined, the quiz completes exactly on an accepted reply that says so,
      with the server's final score and question count. */
  lemma CompletionWithDefinedNotifiers(reply: SubmitReply)
    ensures Completion(reply, false).Some? <==> reply.Accepted? && reply.isQuizComplete
    ensures Completion(reply, false).Some? ==> Completion(reply, false).value == (reply.finalScore, reply.totalQuestions)
  {
  }

  // ---------------------------------------------------------------------------------------------
  // The component state

  datatype Feedback = Feedback(isCorrect: bool, explanation: string)

  /** The body POSTed to /api/quiz/answer. */
  datatype SubmitRequest = SubmitRequest(sessionId: string, answerIndex: int)

  /** How the answer request ends, as the component sees it. */
  datatype SubmitReply =
    | NetworkError     // fetch or response.json() rejected
    | Unsuccessful     // data.success is false
    | Accepted(isCorrect: bool, explanation: string, currentScore: int, isQuizComplete: bool,
               finalScore: int, totalQuestions: int)

  class QuizView {
    var session: QuizSession
    var selectedAnswer: Option<int>
    var showFeedback: bool
    var feedback: Option<Feedback>
    var isSubmitting: bool
    var isListening: bool

    constructor (initial: QuizSession)
      ensures session == initial && selectedAnswer == None && feedback == None
      ensures !showFeedback && !isSubmitting && !isListening
    {
      session := initial;
      selectedAnswer := None;
      showFeedback := false;
      feedback := None;
      isSubmitting := false;
      isListening := false;
    }

    /** The question on screen, when `session.current_question` is in range. */
    predicate HasQuestion()
      reads this
    {
      session.currentQuestion < |session.questions|
    }

    /** A click on an option button. */
    method SelectOption(index: nat)
      modifies this`selectedAnswer
      ensures selectedAnswer == Some(index)
    {
      selectedAnswer := Some(index);
    }

    /** `handleSpeechResult`: a recognised answer is selected and announced; otherwise the selection
        stays and only the retry prompt is spoken. */
    method HandleSpeechResult(transcript: string) returns (said: string)
      requires HasQuestion()
      modifies this`selectedAnswer
      ensures var options := session.questions[session.currentQuestion].options;
              var k := ResolveAnswer(transcript, options);
              && (k == -1 ==> selectedAnswer == old(selectedAnswer) && said == RetryPrompt)
              && (k != -1 ==> selectedAnswer == Some(k) && said == ChoiceAnnouncement(options, k))
    {
      var options := session.questions[session.currentQuestion].options;
      var answerIndex := MatchSpokenAnswer(transcript, options);
      if answerIndex != -1 {
        selectedAnswer := Some(answerIndex);
        said := ChoiceAnnouncement(options, answerIndex);
      } else {
        said := RetryPrompt;
      }
    }

    method HandleSpeechError(error: string) returns (said: string)
      ensures said == CatchPrompt
    {
      said := CatchPrompt;
    }

    method HandleSpeechStart() returns (said: string)
      modifies this`isListening
      ensures isListening && said == ListeningPrompt
    {
      isListening := true;
      said := ListeningPrompt;
    }

    method HandleSpeechEnd()
      modifies this`isListening
      ensures !isListening
    {
      isListening := false;
    }

    method ReadQuestionAloud() returns (said: string)
      requires HasQuestion()
      ensures said == ReadAloudText(session)
    {
      said := ReadAloudText(session);
    }

    /** The start of `submitAnswer`: nothing happens without a selection or while a submission is in
        flight; otherwise the request is sent and the submission is marked in flight. */
    method BeginSubmit() returns (request: Option<SubmitRequest>)
      modifies this`isSubmitting
      ensures old(selectedAnswer.None? || isSubmitting) ==> request == None && isSubmitting == old(isSubmitting)
      ensures old(selectedAnswer.Some? && !isSubmitting) ==>
                request == Some(SubmitRequest(session.id, selectedAnswer.value)) && isSubmitting
    {
      if selectedAnswer.None? || isSubmitting {
        return None;
      }
      isSubmitting := true;
      request := Some(SubmitRequest(session.id, selectedAnswer.value));
    }

    /** The rest of `submitAnswer`, once the reply is in. On success the feedback is shown, the score
        becomes the server's and the question counter advances. Then the score notification and the
        feedback speech run; when they throw (`notifyThrows`), the catch speaks the error prompt and
        the completion step is never reached. `completion` carries the final score and question count
        handed to `onQuizComplete`. */
    method FinishSubmit(reply: SubmitReply, notifyThrows: bool) returns (completion: Option<(int, int)>, said: Option<string>)
      requires isSubmitting
      modifies this`session, this`feedback, this`showFeedback, this`isSubmitting
      ensures !isSubmitting
      ensures completion == Completion(reply, notifyThrows)
      ensures reply.Accepted? ==>
                && session == old(session).(score := reply.currentScore, currentQuestion := old(session.currentQuestion) + 1)
                && feedback == Some(Feedback(reply.isCorrect, reply.explanation)) && showFeedback
                && said == (if notifyThrows then Some(SubmitErrorPrompt) else None)
      ensures !reply.Accepted? ==>
                && session == old(session) && feedback == old(feedback) && showFeedback == old(showFeedback)
                && said == (if reply.NetworkError? then Some(SubmitErrorPrompt) else None)
    {
      completion, said := None, None;
      isSubmitting := false;
      match reply
      case NetworkError =>
        said := Some(SubmitErrorPrompt);
      case Unsuccessful =>
      case Accepted(isCorrect, explanation, currentScore, isQuizComplete, finalScore, totalQuestions) =>
        feedback := Some(Feedback(isCorrect, explanation));
        showFeedback := true;
        session := session.(score := currentScore, currentQuestion := session.currentQuestion + 1);
        if notifyThrows {
          said := Some(SubmitErrorPrompt);
        } else if isQuizComplete {
          completion := Some((finalScore, totalQuestions));
        }
    }

    /** The effect that reads the question when the component mounts or the question changes. */
    method QuestionShown() returns (toRead: Option<string>)
      ensures toRead == if HasQuestion() && !showFeedback then Some(ReadAloudText(session)) else None
    {
      toRead := if session.currentQuestion < |session.questions| && !showFeedback then Some(ReadAloudText(session)) else None;
    }

    /** `nextQuestion`: clears the selection and the feedback; the next question is read aloud when
        there is one. */
    method NextQuestion() returns (toRead: Option<string>)
      modifies this`selectedAnswer, this`showFeedback, this`feedback
      ensures selectedAnswer == None && !showFeedback && feedback == None
      ensures toRead == if HasQuestion() then Some(ReadAloudText(session)) else None
    {
      selectedAnswer := None;
      showFeedback := false;
      feedback := None;
      toRead := if session.currentQuestion < |session.questions| then Some(ReadAloudText(session)) else None;
    }
  }

  /** The last answer of a quiz, as the screen is wired: the child picks an option, the answer is
      sent, and the server accepts it and says the quiz is complete. The score and counter are
      updated, but the notifications throw, so the error prompt is spoken and `onQuizComplete` is
      never scheduled. */
  method LastAnswerAsWiredScenario(initial: QuizSession, choice: nat, finalScore: int)
    returns (completion: Option<(int, int)>, said: Option<string>, questionAfter: nat, scoreAfter: int)
    ensures completion == None && said == Some(SubmitErrorPrompt)
    ensures questionAfter == initial.currentQuestion + 1 && scoreAfter == finalScore
  {
    var view := new QuizView(initial);
    view.SelectOption(choice);
    var request := view.BeginSubmit();
    var reply := Accepted(true, "Right!", finalScore, true, finalScore, |initial.questions|);
    completion, said := view.FinishSubmit(reply, NotifyThrowsAsWired);
    questionAfter := view.session.currentQuestion;
    scoreAfter := view.session.score;
  }
}
