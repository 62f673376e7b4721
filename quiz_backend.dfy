/** The quiz backend (app.py): profile and session allocation over the in-memory `profiles` and
    `quiz_sessions` dicts, the validation of generated quiz data with its fallback to a fixed mock
    quiz, the extraction of a `{...}` block from the model's raw text, and the answer-submission
    state machine. The HTTP layer, the generative model and `json.loads` are parameters. */
module QuizBackend {
  import opened Basics
  import opened Text
  import J = Json

  /** Failure replies of the handlers. */
  datatype Error =
    | InvalidProfile   // 'Invalid profile'
    | InvalidSession   // 'Invalid session'
    | QuizCompleted    // 'Quiz completed'
    | SessionNotFound  // 'Session not found'
    | ServerError      // any exception, caught by the handler's `except Exception`

  function Status(e: Error): (code: nat)
    ensures code == 404 <==> e == SessionNotFound
    ensures code == 500 <==> e == ServerError
    ensures code == 400 || code == 404 || code == 500
  {
    match e
    case InvalidProfile => 400
    case InvalidSession => 400
    case QuizCompleted => 400
    case SessionNotFound => 404
    case ServerError => 500
  }

  // ---------------------------------------------------------------------------------------------
  // Identifiers: `profile_{len(profiles) + 1}` and `session_{len(quiz_sessions) + 1}`

  function ProfileId(n: nat): string {
    "profile_" + NatToString(n)
  }

  function SessionId(n: nat): string {
    "session_" + NatToString(n)
  }

  /** Every key is `prefix` followed by one of the numbers 1..count. */
  ghost predicate NumberedUpTo(keys: set<string>, prefix: string, count: nat) {
    forall id :: id in keys ==> exists n :: 1 <= n <= count && id == prefix + NatToString(n)
  }

  /** The next number names a key not yet taken. */
  lemma NextNumberIsFresh(keys: set<string>, prefix: string, count: nat)
    requires NumberedUpTo(keys, prefix, count)
    ensures prefix + NatToString(count + 1) !in keys
  {
    if prefix + NatToString(count + 1) in keys {
      var n :| 1 <= n <= count && prefix + NatToString(count + 1) == prefix + NatToString(n);
      PrefixedNumberInjective(prefix, count + 1, n);
    }
  }

  /** Adding the next key keeps the keys numbered, now up to count + 1. */
  lemma NumberedUpToGrow(keys: set<string>, prefix: string, count: nat)
    requires NumberedUpTo(keys, prefix, count)
    ensures NumberedUpTo(keys + {prefix + NatToString(count + 1)}, prefix, count + 1)
  {
    forall id | id in keys
      ensures exists n :: 1 <= n <= count + 1 && id == prefix + NatToString(n)
    {
      var n :| 1 <= n <= count && id == prefix + NatToString(n);
    }
    assert 1 <= count + 1 <= count + 1;
  }

  // ---------------------------------------------------------------------------------------------
  // Profiles

  datatype Profile = Profile(id: string, name: string, age: int, interests: seq<string>)

  /** The fields of the JSON body of `create_profile`; an absent field is None. */
  datatype ProfileRequest = ProfileRequest(name: Option<string>, age: Option<int>, interests: Option<seq<string>>)

  /** The profile stored as number `n`: absent fields default to name '', age 8 and no interests. */
  function NewProfile(n: nat, req: ProfileRequest): Profile {
    Profile(ProfileId(n), req.name.GetOr(""), req.age.GetOr(8), req.interests.GetOr([]))
  }

  // ---------------------------------------------------------------------------------------------
  // Quiz data

  /** Where `generate_quiz` gets its quiz from: no model configured, a model call that raised, or the
      text the model answered with. */
  datatype Generation = NoModel | CallFailed | Replied(text: string)

  /** The structure `generate_quiz` accepts: a dict whose 'questions' is a non-empty list. */
  predicate UsableQuizData(d: J.Value) {
    && d.Obj?
    && "questions" in d.fields
    && d.fields["questions"].Arr?
    && |d.fields["questions"].items| > 0
  }

  /** The match of `re.search(r'\{.*\}', text, re.DOTALL)`: from the first '{' through the last '}',
      provided some '{' comes before some '}'. */
  function ExtractBraced(text: string): (r: Option<string>)
    ensures r.Some? ==> |r.value| >= 2 && r.value[0] == '{' && r.value[|r.value| - 1] == '}'
    ensures r.Some? ==> Contains(text, r.value)
    ensures r.None? <==> !exists i, j :: 0 <= i < j < |text| && text[i] == '{' && text[j] == '}'
  {
    match FirstIndexOf(text, '{')
    case None => None
    case Some(i) =>
      match LastIndexOf(text, '}')
      case None => None
      case Some(j) =>
        if i < j then
          assert OccursAt(text, text[i..j + 1], i);
          Some(text[i..j + 1])
        else None
  }

  /** The extraction is greedy on both sides: it starts at the first '{' and ends at the last '}'. */
  lemma ExtractBracedSpan(text: string, i: nat, j: nat)
    requires i < j < |text| && text[i] == '{' && text[j] == '}'
    requires forall k :: 0 <= k < i ==> text[k] != '{'
    requires forall k :: j < k < |text| ==> text[k] != '}'
    ensures ExtractBraced(text) == Some(text[i..j + 1])
  {
    assert FirstIndexOf(text, '{') == Some(i);
    assert LastIndexOf(text, '}') == Some(j);
  }

  /** The model's text decoded as `generate_quiz` does: `json.loads(text)`, and when that raises,
      `json.loads` of the extracted `{...}` block. `parse` stands for `json.loads`, None for a
      `JSONDecodeError`. */
  function ParseReply(text: string, parse: string -> Option<J.Value>): Option<J.Value> {
    match parse(text)
    case Some(d) => Some(d)
    case None =>
      match ExtractBraced(text)
      case None => None
      case Some(block) => parse(block)
  }

  /** The generated quiz data that `generate_quiz` keeps, or None when it falls back to the mock. */
  function GeneratedQuizData(g: Generation, parse: string -> Option<J.Value>): (r: Option<J.Value>)
    ensures r.Some? ==> UsableQuizData(r.value)
    ensures r.Some? ==> g.Replied? && !IsBlank(g.text) && r == ParseReply(g.text, parse)
    ensures (g.Replied? && !IsBlank(g.text) && ParseReply(g.text, parse).Some?
             && UsableQuizData(ParseReply(g.text, parse).value)) ==> r.Some?
  {
    if !g.Replied? then None
    else
      TrimEmptyIffBlank(g.text);
      if Trim(g.text) == [] then None
      else match ParseReply(g.text, parse)
        case Some(d) => if UsableQuizData(d) then Some(d) else None
        case None => None
  }

  function Strs(options: seq<string>): (r: seq<J.Value>)
    ensures |r| == |options|
  {
    seq(|options|, i requires 0 <= i < |options| => J.Str(options[i]))
  }

  function MockQuestion(question: string, options: seq<string>, correct: int, explanation: string): J.Value {
    J.Obj(map[
      "question" := J.Str(question),
      "options" := J.Arr(Strs(options)),
      "correct_answer" := J.Num(correct),
      "explanation" := J.Str(explanation)])
  }

  /** The four fixed questions about `topic`; their correct answers are 3, 1, 3 and 3. */
  function MockQuestions(topic: string): (qs: seq<J.Value>)
    ensures |qs| == 4
    ensures forall k :: 0 <= k < 4 ==> J.Field(qs[k], "correct_answer") == Some(J.Num([3, 1, 3, 3][k]))
    ensures forall k :: 0 <= k < 4 ==> J.Field(qs[k], "explanation").Some?
    ensures forall k :: 0 <= k < 4 ==>
              (J.Field(qs[k], "options").Some? && J.Field(qs[k], "options").value.Arr?
               && |J.Field(qs[k], "options").value.items| == 4)
  {
    [ MockQuestion("What is a fun fact about " + topic + "?",
        ["It's amazing!", "It's interesting!", "It's cool!", "All of the above!"], 3,
        "Great job! " + topic + " is indeed amazing, interesting, and cool!"),
      MockQuestion("How would you describe " + topic + " to a friend?",
        ["Boring", "Exciting", "Confusing", "Scary"], 1,
        "That's right! " + topic + " is exciting and fun to learn about!"),
      MockQuestion("What's the best way to learn about " + topic + "?",
        ["Reading books", "Watching videos", "Asking questions", "All of these!"], 3,
        "Excellent! Learning happens in many different ways!"),
      MockQuestion("Why is " + topic + " important?",
        ["It helps us understand the world", "It's fun to know", "It makes us smarter", "All of the above"], 3,
        "Perfect! " + topic + " helps us in many wonderful ways!") ]
  }

  function MockQuiz(topic: string): (d: J.Value)
    ensures UsableQuizData(d) && d.fields["questions"].items == MockQuestions(topic)
  {
    J.Obj(map["questions" := J.Arr(MockQuestions(topic))])
  }

  /** The quiz data a new session is built from: the generated data when usable, else the mock. */
  function QuizDataOrMock(g: Generation, parse: string -> Option<J.Value>, topic: string): (d: J.Value)
    ensures UsableQuizData(d)
    ensures GeneratedQuizData(g, parse).None? ==> d == MockQuiz(topic)
    ensures GeneratedQuizData(g, parse).Some? ==> d == GeneratedQuizData(g, parse).value
  {
    match GeneratedQuizData(g, parse)
    case Some(d) => d
    case None => MockQuiz(topic)
  }

  // ---------------------------------------------------------------------------------------------
  // Sessions and answer submission

  datatype AnswerRecord = AnswerRecord(questionIndex: nat, answerIndex: int, isCorrect: bool)

  datatype Session = Session(
    id: string,
    profileId: string,
    topic: string,
    questions: seq<J.Value>,
    currentQuestion: nat,
    score: nat,
    answers: seq<AnswerRecord>)

  /** The number of records marked correct. */
  function CorrectCount(answers: seq<AnswerRecord>): nat {
    if answers == [] then 0 else (if answers[0].isCorrect then 1 else 0) + CorrectCount(answers[1..])
  }

  lemma {:induction false} CorrectCountAppend(answers: seq<AnswerRecord>, r: AnswerRecord)
    ensures CorrectCount(answers + [r]) == CorrectCount(answers) + (if r.isCorrect then 1 else 0)
  {
    if answers != [] {
      assert (answers + [r])[1..] == answers[1..] + [r];
      CorrectCountAppend(answers[1..], r);
    }
  }

  /** What every stored session satisfies: score <= current_question == len(answers) <= len(questions),
      the score counts the correct records, and record k is about question k. */
  predicate SessionInvariant(s: Session) {
    && s.score <= s.currentQuestion
    && s.currentQuestion == |s.answers| <= |s.questions|
    && s.score == CorrectCount(s.answers)
    && forall k :: 0 <= k < |s.answers| ==> s.answers[k].questionIndex == k
  }

  /** The fresh session `generate_quiz` stores as number `n`. */
  function NewSession(n: nat, profileId: string, topic: string, questions: seq<J.Value>): (s: Session)
    ensures SessionInvariant(s)
    ensures s.currentQuestion == 0 && s.score == 0 && s.answers == []
  {
    Session(SessionId(n), profileId, topic, questions, 0, 0, [])
  }

  datatype AnswerReply = AnswerReply(
    isCorrect: bool,
    explanation: J.Value,
    currentScore: nat,
    isQuizComplete: bool,
    finalScore: Option<nat>,
    totalQuestions: Option<nat>)

  /** The effect of one submission on an existing session. */
  datatype Submission =
    | Refused(error: Error)                                      // the session is left as it was
    | Recorded(next: Session, reply: Result<AnswerReply, Error>) // the session is updated

  /** `submit_answer` on the session it found. `question['correct_answer']` is read before anything
      changes; `question['explanation']` only after the score, the answer log and the question counter
      were updated, so a question without an explanation yields a server error on an updated session. */
  function Submit(s: Session, answerIndex: int): (o: Submission)
    ensures o.Refused? <==>
              s.currentQuestion >= |s.questions| || J.Field(s.questions[s.currentQuestion], "correct_answer").None?
    ensures o.Refused? ==> o.error == if s.currentQuestion >= |s.questions| then QuizCompleted else ServerError
    ensures o.Recorded? ==>
              var correct := J.EqualsInt(J.Field(s.questions[s.currentQuestion], "correct_answer").value, answerIndex);
              && o.next.currentQuestion == s.currentQuestion + 1
              && o.next.score == s.score + (if correct then 1 else 0)
              && o.next.answers == s.answers + [AnswerRecord(s.currentQuestion, answerIndex, correct)]
    ensures SessionInvariant(s) && o.Recorded? ==> SessionInvariant(o.next)
    ensures o.Recorded? ==> o.next.(currentQuestion := s.currentQuestion, score := s.score, answers := s.answers) == s
    ensures o.Recorded? ==> (o.reply.Success? <==> J.Field(s.questions[s.currentQuestion], "explanation").Some?)
    ensures o.Recorded? && o.reply.Failure? ==> o.reply.error == ServerError
    ensures o.Recorded? && o.reply.Success? ==>
              && o.reply.value.explanation == J.Field(s.questions[s.currentQuestion], "explanation").value
              && o.reply.value.currentScore == o.next.score
              && o.reply.value.isCorrect == o.next.answers[|o.next.answers| - 1].isCorrect
              && (o.reply.value.isQuizComplete <==> o.next.currentQuestion >= |s.questions|)
              && (o.reply.value.finalScore.Some? <==> o.reply.value.isQuizComplete)
              && (o.reply.value.finalScore.Some? ==> o.reply.value.finalScore.value == o.next.score)
              && o.reply.value.totalQuestions == if o.reply.value.isQuizComplete then Some(|s.questions|) else None
  {
    var current := s.currentQuestion;
    if current >= |s.questions| then Refused(QuizCompleted)
    else
      var question := s.questions[current];
      match J.Field(question, "correct_answer")
      case None => Refused(ServerError)
      case Some(expected) =>
        var isCorrect := J.EqualsInt(expected, answerIndex);
        var record := AnswerRecord(current, answerIndex, isCorrect);
        CorrectCountAppend(s.answers, record);
        var next := s.(score := s.score + (if isCorrect then 1 else 0),
                       answers := s.answers + [record],
                       currentQuestion := current + 1);
        var reply :=
          match J.Field(question, "explanation")
          case None => Failure(ServerError)
          case Some(explanation) =>
            var complete := next.currentQuestion >= |next.questions|;
            Success(AnswerReply(isCorrect, explanation, next.score, complete,
                                if complete then Some(next.score) else None,
                                if complete then Some(|next.questions|) else None));
        Recorded(next, reply)
  }

  // ---------------------------------------------------------------------------------------------
  // The server state

  /** What the two dicts satisfy between requests: keys are `profile_1..n` and `session_1..m`, each
      record carries its own key, each session belongs to a stored profile and keeps the session invariant. */
  ghost predicate ValidState(profiles: map<string, Profile>, sessions: map<string, Session>) {
    ProfilesValid(profiles) && SessionsValid(profiles, sessions)
  }

  ghost predicate ProfilesValid(profiles: map<string, Profile>) {
    && NumberedUpTo(profiles.Keys, "profile_", |profiles|)
    && (forall id :: id in profiles ==> profiles[id].id == id)
  }

  ghost predicate SessionsValid(profiles: map<string, Profile>, sessions: map<string, Session>) {
    && NumberedUpTo(sessions.Keys, "session_", |sessions|)
    && (forall id :: id in sessions ==> sessions[id].id == id && sessions[id].profileId in profiles)
    && (forall id :: id in sessions ==> SessionInvariant(sessions[id]))
  }

  /** Storing a profile under the next number keeps the state valid and grows the map by one. */
  lemma AddProfileKeepsValid(profiles: map<string, Profile>, sessions: map<string, Session>, p: Profile)
    requires ValidState(profiles, sessions)
    requires p.id == ProfileId(|profiles| + 1)
    ensures p.id !in profiles
    ensures |profiles[p.id := p]| == |profiles| + 1
    ensures ValidState(profiles[p.id := p], sessions)
  {
    NextNumberIsFresh(profiles.Keys, "profile_", |profiles|);
    NumberedUpToGrow(profiles.Keys, "profile_", |profiles|);
    var ps := profiles[p.id := p];
    assert ps.Keys == profiles.Keys + {p.id};
    assert ProfilesValid(ps);
    assert SessionsValid(ps, sessions) by {
      assert forall id :: id in sessions ==> sessions[id].profileId in ps;
    }
  }

  /** Storing a fresh session of a stored profile under the next number keeps the state valid. */
  lemma AddSessionKeepsValid(profiles: map<string, Profile>, sessions: map<string, Session>, s: Session)
    requires ValidState(profiles, sessions)
    requires s.id == SessionId(|sessions| + 1) && s.profileId in profiles && SessionInvariant(s)
    ensures s.id !in sessions
    ensures ValidState(profiles, sessions[s.id := s])
  {
    NextNumberIsFresh(sessions.Keys, "session_", |sessions|);
    NumberedUpToGrow(sessions.Keys, "session_", |sessions|);
    var ss := sessions[s.id := s];
    assert ss.Keys == sessions.Keys + {s.id};
    assert NumberedUpTo(ss.Keys, "session_", |ss|);
    assert forall id :: id in ss ==> ss[id].id == id && ss[id].profileId in profiles;
    assert forall id :: id in ss ==> SessionInvariant(ss[id]);
  }

  datatype QuizRequest = QuizRequest(topic: Option<string>, profileId: Option<string>)

  datatype GenerateReply = GenerateReply(sessionId: string, quiz: J.Value)

  datatype AnswerRequest = AnswerRequest(sessionId: Option<string>, answerIndex: Option<int>)

  /** The module-level `profiles` and `quiz_sessions` dicts and the handlers that update them. A request
      body that is not a JSON object is None: `data.get` then raises and the handler answers 500. */
  class Backend {
    var profiles: map<string, Profile>
    var sessions: map<string, Session>

    ghost predicate Valid()
      reads this
    {
      ValidState(profiles, sessions)
    }

    constructor ()
      ensures Valid() && profiles == map[] && sessions == map[]
    {
      profiles := map[];
      sessions := map[];
    }

    /** POST /api/profile. */
    method CreateProfile(req: Option<ProfileRequest>) returns (r: Result<Profile, Error>)
      requires Valid()
      modifies this
      ensures Valid() && sessions == old(sessions)
      ensures r.Failure? ==> Status(r.error) == 500
      ensures req.None? ==> r == Failure(ServerError) && profiles == old(profiles)
      ensures req.Some? ==>
                && r == Success(NewProfile(old(|profiles|) + 1, req.value))
                && r.value.id !in old(profiles)
                && profiles == old(profiles)[r.value.id := r.value]
                && |profiles| == old(|profiles|) + 1
    {
      if req.None? {
        return Failure(ServerError);
      }
      var n := |profiles| + 1;
      var profile := NewProfile(n, req.value);
      AddProfileKeepsValid(profiles, sessions, profile);
      profiles := profiles[profile.id := profile];
      r := Success(profile);
    }

    /** POST /api/quiz/generate. */
    method GenerateQuiz(req: Option<QuizRequest>, g: Generation, parse: string -> Option<J.Value>)
      returns (r: Result<GenerateReply, Error>)
      requires Valid()
      modifies this
      ensures Valid() && profiles == old(profiles)
      ensures r.Failure? ==> Status(r.error) == (if r.error == ServerError then 500 else 400)
      ensures req.None? ==> r == Failure(ServerError) && sessions == old(sessions)
      ensures req.Some? && (req.value.profileId.GetOr("") == "" || req.value.profileId.GetOr("") !in old(profiles)) ==>
                r == Failure(InvalidProfile) && sessions == old(sessions)
      ensures req.Some? && req.value.profileId.GetOr("") != "" && req.value.profileId.GetOr("") in old(profiles) ==>
                var topic := req.value.topic.GetOr("");
                var data := QuizDataOrMock(g, parse, topic);
                var id := SessionId(old(|sessions|) + 1);
                && r == Success(GenerateReply(id, data))
                && id !in old(sessions)
                && sessions == old(sessions)[id := NewSession(old(|sessions|) + 1, req.value.profileId.value, topic,
                                                              data.fields["questions"].items)]
    {
      if req.None? {
        return Failure(ServerError);
      }
      var topic := req.value.topic.GetOr("");
      var profileId := req.value.profileId.GetOr("");
      if profileId == "" || profileId !in profiles {
        return Failure(InvalidProfile);
      }
      var data := QuizDataOrMock(g, parse, topic);
      var n := |sessions| + 1;
      var session := NewSession(n, profileId, topic, data.fields["questions"].items);
      AddSessionKeepsValid(profiles, sessions, session);
      sessions := sessions[session.id := session];
      r := Success(GenerateReply(session.id, data));
    }

    /** POST /api/quiz/answer. A missing session_id is '' and a missing answer_index is -1. */
    method SubmitAnswer(req: Option<AnswerRequest>) returns (r: Result<AnswerReply, Error>)
      requires Valid()
      modifies this
      ensures Valid() && profiles == old(profiles)
      ensures r.Failure? ==> Status(r.error) == (if r.error == ServerError then 500 else 400)
      ensures req.None? ==> r == Failure(ServerError) && sessions == old(sessions)
      ensures req.Some? && req.value.sessionId.GetOr("") !in old(sessions) ==>
                r == Failure(InvalidSession) && sessions == old(sessions)
      ensures req.Some? && req.value.sessionId.GetOr("") in old(sessions) ==>
                var id := req.value.sessionId.GetOr("");
                var o := Submit(old(sessions)[id], req.value.answerIndex.GetOr(-1));
                && (o.Refused? ==> r == Failure(o.error) && sessions == old(sessions))
                && (o.Recorded? ==> r == o.reply && sessions == old(sessions)[id := o.next])
    {
      if req.None? {
        return Failure(ServerError);
      }
      var id := req.value.sessionId.GetOr("");
      if id !in sessions {
        return Failure(InvalidSession);
      }
      var o := Submit(sessions[id], req.value.answerIndex.GetOr(-1));
      match o
      case Refused(e) =>
        r := Failure(e);
      case Recorded(next, reply) =>
        sessions := sessions[id := next];
        r := reply;
    }

    /** GET /api/quiz/session/<session_id>. */
    method GetQuizSession(id: string) returns (r: Result<Session, Error>)
      requires Valid()
      ensures id in sessions ==> r == Success(sessions[id]) && SessionInvariant(r.value)
      ensures id !in sessions ==> r == Failure(SessionNotFound)
      ensures r.Failure? ==> Status(r.error) == 404
    {
      if id !in sessions {
        return Failure(SessionNotFound);
      }
      r := Success(sessions[id]);
    }
  }
}
