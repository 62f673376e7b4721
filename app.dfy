/** The screen wizard (App.tsx): profile, topic, quiz and results screens, the two requests that
    start a quiz, and the spoken messages. The requests' outcomes are inputs. */
module Wizard {
  import opened Basics
  import opened Text
  import opened QuizTypes

  datatype Screen = ProfileScreen | TopicScreen | QuizScreen | ResultsScreen

  /** How the quiz-generation request ends. */
  datatype GenerateOutcome = GenerateUnreachable | GenerateRefused | Generated(sessionId: string)

  /** How the follow-up session request ends. */
  datatype SessionOutcome = SessionUnreachable | SessionRefused | SessionFetched(session: QuizSession)

  const WelcomeMessage := "Welcome to the AI Quiz Toy! Let's start by creating your profile."
  const ReadyMessage := "Your quiz is ready! Let's begin with the first question."
  const SorryMessage := "I'm sorry, there was a problem creating your quiz. Let's try a different topic."
  const PlayAgainMessage := "Let's choose a new topic for another fun quiz!"
  const NewProfileMessage := "Let's create a new profile and start fresh!"

  /** `Math.round(score / total * 100)` in exact arithmetic: the nearest whole percentage, halves
      rounded up; None when the total is 0. */
  function RoundedPercentage(score: int, total: int): (r: Option<int>)
    ensures r.None? <==> total == 0
    ensures total > 0 ==> 2 * total * r.value <= 200 * score + total < 2 * total * (r.value + 1)
    ensures total < 0 ==> 2 * (-total) * r.value <= 200 * (-score) - total < 2 * (-total) * (r.value + 1)
  {
    if total == 0 then None
    else if total > 0 then Some(RoundHalfUp(200 * score + total, 2 * total))
    else Some(RoundHalfUp(-200 * score - total, -2 * total))
  }

  /** Euclidean quotient, with the bounds that define it. */
  function RoundHalfUp(a: int, b: int): (q: int)
    requires b > 0
    ensures b * q <= a < b * (q + 1)
  {
    var q := a / b;
    assert a == b * q + a % b;
    q
  }

  lemma MulMono(a: int, b: int, c: int)
    requires a > 0 && b <= c
    ensures a * b <= a * c
  {
    assert a * c - a * b == a * (c - b);
  }

  /** A quotient is at least every k whose multiple fits under the dividend. */
  lemma QuotientAtLeast(x: int, b: int, q: int, k: int)
    requires b > 0 && b * q <= x < b * (q + 1) && b * k <= x
    ensures k <= q
  {
    if k > q {
      MulMono(b, q + 1, k);
    }
  }

  /** A quotient is below every k whose multiple exceeds the dividend. */
  lemma QuotientBelow(x: int, b: int, q: int, k: int)
    requires b > 0 && b * q <= x && x < b * k
    ensures q < k
  {
    if q >= k {
      MulMono(b, k, q);
    }
  }

  /** For a score between 0 and the total the percentage lies between 0 and 100; it is 100 exactly
      when the score is within half a percent of the total, so for a full score, and 0 for no score. */
  lemma RoundedPercentageBounds(score: int, total: int)
    requires total > 0 && 0 <= score <= total
    ensures 0 <= RoundedPercentage(score, total).value <= 100
    ensures RoundedPercentage(score, total).value == 100 <==> 200 * score >= 199 * total
    ensures score == total ==> RoundedPercentage(score, total).value == 100
    ensures score == 0 ==> RoundedPercentage(score, total).value == 0
  {
    var r := RoundedPercentage(score, total).value;
    var x, b := 200 * score + total, 2 * total;
    assert b * r <= x < b * (r + 1);
    QuotientAtLeast(x, b, r, 0);
    QuotientBelow(x, b, r, 101);
    if 200 * score >= 199 * total {
      QuotientAtLeast(x, b, r, 100);
    }
    if score == 0 {
      QuotientBelow(x, b, r, 1);
    }
  }

  /** The percentage as the template string shows it, including the non-numbers of a zero total. */
  function PercentText(score: int, total: int): string {
    var r := RoundedPercentage(score, total);
    if r.Some? then IntToString(r.value)
    else if score > 0 then "Infinity"
    else if score < 0 then "-Infinity"
    else "NaN"
  }

  function GreetingMessage(name: string): string {
    "Great to meet you, " + name + "! Now let's choose a topic for your quiz."
  }

  function CreatingMessage(topic: string): string {
    "Excellent choice! I'm creating a fun quiz about " + topic + " just for you. This will only take a moment."
  }

  function CongratulationsMessage(finalScore: int, totalQuestions: int): string {
    "Congratulations! You completed the quiz with " + IntToString(finalScore) + " out of "
      + IntToString(totalQuestions) + " correct answers. That's " + PercentText(finalScore, totalQuestions)
      + " percent! You did amazing!"
  }

  class App {
    var screen: Screen
    var profile: Option<Profile>
    var currentTopic: string
    var quizSession: Option<QuizSession>
    var isLoading: bool
    /** The texts handed to the voice manager, in order. */
    var spoken: seq<string>

    /** Every screen's render guard holds: the topic screen has a profile, the quiz and results
        screens a session; so the wizard never lands on a blank page. */
    predicate Valid()
      reads this
    {
      && (screen == TopicScreen ==> profile.Some?)
      && (screen == QuizScreen || screen == ResultsScreen ==> quizSession.Some? && profile.Some?)
    }

    /** The screen that renders, when its guard holds. */
    function Shown(): (r: Option<Screen>)
      reads this
      ensures Valid() ==> r == Some(screen)
    {
      match screen
      case ProfileScreen => Some(ProfileScreen)
      case TopicScreen => if profile.Some? then Some(TopicScreen) else None
      case QuizScreen => if quizSession.Some? then Some(QuizScreen) else None
      case ResultsScreen => if quizSession.Some? then Some(ResultsScreen) else None
    }

    /** The first render, and the welcome the mount effect speaks. */
    constructor ()
      ensures Valid()
      ensures screen == ProfileScreen && profile == None && currentTopic == "" && quizSession == None
      ensures !isLoading && spoken == [WelcomeMessage]
    {
      screen, profile, currentTopic, quizSession := ProfileScreen, None, "", None;
      isLoading := false;
      spoken := [WelcomeMessage];
    }

    method HandleProfileCreated(newProfile: Profile)
      requires Valid() && screen == ProfileScreen
      modifies this`profile, this`screen, this`spoken
      ensures Valid()
      ensures profile == Some(newProfile) && screen == TopicScreen
      ensures spoken == old(spoken) + [GreetingMessage(newProfile.name)]
    {
      profile := Some(newProfile);
      screen := TopicScreen;
      spoken := spoken + [GreetingMessage(newProfile.name)];
    }

    /** The start of `handleTopicSelected`: without a profile nothing happens; otherwise the topic is
        stored, loading starts, and the generation request (topic and profile id) goes out. The
        topic screen only calls it with a profile. */
    method BeginTopicSelected(topic: string) returns (request: Option<(string, string)>)
      requires Valid()
      modifies this`currentTopic, this`isLoading, this`spoken
      ensures Valid()
      ensures old(profile).None? ==> request == None && currentTopic == old(currentTopic) && isLoading == old(isLoading) && spoken == old(spoken)
      ensures old(profile).Some? ==>
                && request == Some((topic, profile.value.id)) && currentTopic == topic && isLoading
                && spoken == old(spoken) + [CreatingMessage(topic)]
    {
      if profile.None? {
        return None;
      }
      currentTopic := topic;
      isLoading := true;
      spoken := spoken + [CreatingMessage(topic)];
      request := Some((topic, profile.value.id));
    }

    /** The rest of `handleTopicSelected`, once the requests sent with the profile are answered.
        Only when both succeed does the quiz start; a refused session request changes nothing
        and says nothing; a refused generation or an unreachable server is apologised for. Loading
        ends in every case. */
    method FinishTopicSelected(generate: GenerateOutcome, session: SessionOutcome)
      requires Valid() && profile.Some?
      modifies this`quizSession, this`screen, this`isLoading, this`spoken
      ensures Valid() && !isLoading
      ensures generate.Generated? && session.SessionFetched? ==>
                quizSession == Some(session.session) && screen == QuizScreen && spoken == old(spoken) + [ReadyMessage]
      ensures generate.Generated? && session.SessionRefused? ==>
                quizSession == old(quizSession) && screen == old(screen) && spoken == old(spoken)
      ensures generate.GenerateUnreachable? || generate.GenerateRefused? || (generate.Generated? && session.SessionUnreachable?) ==>
                quizSession == old(quizSession) && screen == old(screen) && spoken == old(spoken) + [SorryMessage]
    {
      if generate.Generated? && session.SessionFetched? {
        quizSession := Some(session.session);
        screen := QuizScreen;
        spoken := spoken + [ReadyMessage];
      } else if generate.Generated? && session.SessionRefused? {
      } else {
        spoken := spoken + [SorryMessage];
      }
      isLoading := false;
    }

    method HandleQuizComplete(finalScore: int, totalQuestions: int)
      requires Valid() && screen == QuizScreen
      modifies this`screen, this`spoken
      ensures Valid() && screen == ResultsScreen
      ensures spoken == old(spoken) + [CongratulationsMessage(finalScore, totalQuestions)]
    {
      screen := ResultsScreen;
      spoken := spoken + [CongratulationsMessage(finalScore, totalQuestions)];
    }

    /** "Play Again": back to the topic screen with the profile kept and the quiz forgotten. */
    method HandlePlayAgain()
      requires Valid() && screen == ResultsScreen
      modifies this`screen, this`quizSession, this`currentTopic, this`spoken
      ensures Valid()
      ensures screen == TopicScreen && quizSession == None && currentTopic == "" && profile == old(profile)
      ensures spoken == old(spoken) + [PlayAgainMessage]
    {
      screen := TopicScreen;
      quizSession := None;
      currentTopic := "";
      spoken := spoken + [PlayAgainMessage];
    }

    /** "New Profile": back to the start with everything forgotten. */
    method HandleNewProfile()
      requires Valid() && screen == ResultsScreen
      modifies this`screen, this`profile, this`quizSession, this`currentTopic, this`spoken
      ensures Valid()
      ensures screen == ProfileScreen && profile == None && quizSession == None && currentTopic == ""
      ensures spoken == old(spoken) + [NewProfileMessage]
    {
      screen := ProfileScreen;
      profile := None;
      quizSession := None;
      currentTopic := "";
      spoken := spoken + [NewProfileMessage];
    }
  }
}
