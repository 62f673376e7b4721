# AI Quiz Toy, modelled in Dafny

AI Quiz Toy is a voice-driven quiz for children. A Flask backend (`app.py`) stores child profiles and quiz
sessions in two in-memory dicts. It asks a generative model for four multiple-choice questions on a
topic, falls back to a fixed mock quiz when the model is missing or answers with something unusable,
and scores answers one question at a time. A React frontend walks the child through profile, topic,
quiz and results screens. It reads questions aloud through the browser's speech synthesis, takes
spoken answers through speech recognition, keeps an achievement list and logs what happens.

This project models those parts, one module per source file:

| module | file | form |
|---|---|---|
| `QuizBackend` | `app.py` | class `Backend` over the two dicts; pure functions for JSON extraction, validation, mock quiz, answer step |
| `QuizTypes` | `src/App.tsx` | the shared record types |
| `QuizInterface` | `src/components/QuizInterface.tsx` | spoken-answer matcher (loop proved against functions), read-aloud text, class `QuizView` |
| `Achievements` | `src/components/AchievementSystem.tsx` | per-achievement update rule; class `AchievementBoard` with the refresh loop |
| `Logging` | `src/utils/logger.ts` | class `Logger` with its 100-entry buffer; class `LoggerHolder` for the shared instance |
| `Voice` | `src/components/VoiceManager.ts` | class `VoiceManager` with the engine's command trace |
| `SpeechInput` | `src/components/SpeechInput.tsx` | class `Recognizer`: flags, numbered recognition objects, command and callback traces |
| `Wizard` | `src/App.tsx` | class `App`: the screen state machine; the rounded percentage |
| `ProfileForm` | `src/components/ProfileCreation.tsx` | interest toggle and its lemmas; class `Form` |

`Basics` (Option, Result), `Json` (JSON values) and `Text` (substring search, lower-casing, trimming,
number formatting, joining) are shared helpers.

Network requests, the generative model, `json.loads`, timers and browser engines are inputs.
- A request's outcome is a parameter of the method that handles it. Handlers that await a reply
  are split into a `Begin…` method, which returns the request, and a `Finish…` method, which takes
  the outcome.
- `json.loads` is a parameter `parse: string -> Option<Json.Value>`.
- Speech output is the text handed to `voiceManager.speak`. It is a returned value or a `spoken`
  trace.
- Speech-recognition events are methods that the browser calls.

The spoken-answer matcher tests the bare letters first (`src/components/QuizInterface.tsx:34-37`): `includes('a')`
fires before `includes('option a')`. So "maybe" selects A (`MaybeMeansA`), and "I choose bird" selects B
through the "b" of "bird" (`BirdSaysB`). `speakCorrectAnswer` and `speakIncorrectAnswer`, which the quiz
screen calls, are not defined in `VoiceManager.ts`; see "Findings".

## Model

| member | source | states |
|---|---|---|
| Text.TrimStart | src/components/ProfileCreation.tsx:32 | the result is a suffix, everything removed is whitespace, and the result does not start with whitespace |
| Text.TrimEnd | src/components/ProfileCreation.tsx:43 | the result is a prefix, everything removed is whitespace, and the result does not end with whitespace |
| Text.TrimEmptyIffBlank | src/components/ProfileCreation.tsx:32 | `name.trim()` is empty exactly when the name is all whitespace |
| Text.NatToString | app.py:45 | decimal rendering is non-empty, all digits, without a leading zero |
| Text.ParseNatToString | app.py:45 | decimal rendering round-trips: parsing `str(n)` gives back n |
| Text.PrefixedNumberInjective | app.py:45 | `prefix + str(m) == prefix + str(n)` only when m == n |
| Text.JoinContainsParts | src/components/QuizInterface.tsx:71-73 | every part occurs in the joined text |
| QuizBackend.Status | app.py:63-266 | the HTTP code of each refusal: 404 exactly for 'Session not found', 500 exactly for a caught exception, 400 for every other refusal; the handlers' contracts below state the code of every failure they return |
| QuizBackend.NextNumberIsFresh | app.py:45 | with ids `profile_1..n` in the dict, `profile_{n+1}` is not taken, so a new record never overwrites one |
| QuizBackend.NumberedUpToGrow | app.py:45-54 | storing the next id keeps the ids numbered 1..n+1 |
| QuizBackend.ExtractBraced | app.py:120-123 | the `{.*}` match starts with '{', ends with '}', occurs in the text, and exists exactly when some '{' precedes some '}' |
| QuizBackend.ExtractBracedSpan | app.py:120 | the match is greedy: it runs from the first '{' to the last '}' |
| QuizBackend.GeneratedQuizData | app.py:104-146 | generated data is kept only from a non-blank model reply that parses (directly or via the braced block) to a dict with a non-empty 'questions' list; such a reply is always kept |
| QuizBackend.MockQuestions | app.py:149-177 | the mock quiz has four questions on the topic with four options each, correct answers 3, 1, 3, 3, and an explanation each |
| QuizBackend.MockQuiz | app.py:150-177 | the mock quiz is usable quiz data whose questions are the four mock questions |
| QuizBackend.QuizDataOrMock | app.py:148-177 | a session is always built from usable data: the generated data when kept, the mock quiz otherwise |
| QuizBackend.CorrectCountAppend | app.py:222-229 | appending an answer record raises the count of correct records by one exactly when it is correct |
| QuizBackend.NewSession | app.py:180-189 | a new session starts at question 0 with score 0 and no answers, and satisfies the session invariant |
| QuizBackend.Submit | app.py:213-243 | refused with 'Quiz completed' past the last question, or a server error when 'correct_answer' is missing, leaving the session unchanged; otherwise the counter advances by one, the score rises by one exactly for a correct answer (Python `==`, so `True` equals 1), the record is appended, nothing else changes and the invariant is kept; the reply fails with a server error exactly when 'explanation' is missing (after the update), and otherwise reports the question's explanation, the new score, completion and, only when complete, final score and question count |
| QuizBackend.AddProfileKeepsValid | app.py:45-54 | storing a profile under the next id adds a fresh key and keeps the dicts consistent |
| QuizBackend.AddSessionKeepsValid | app.py:180-189 | storing a session of a stored profile under the next id adds a fresh key and keeps the dicts consistent |
| QuizBackend.Backend.constructor | app.py:30-31 | both dicts start empty |
| QuizBackend.Backend.CreateProfile | app.py:42-63 | a body that is not a JSON object gives 500 (the only failure); otherwise a profile with defaults '', 8 and [] is stored under the next fresh id and returned |
| QuizBackend.Backend.GenerateQuiz | app.py:66-201 | an empty or unknown profile id gives 'Invalid profile' (400), a body that is not an object 500; otherwise a session built from the generated or mock data is stored under the next fresh id and returned with the quiz; profiles are untouched |
| QuizBackend.Backend.SubmitAnswer | app.py:204-251 | an unknown session id gives 'Invalid session'; every failure is 400 except a server error, 500; otherwise the session follows `Submit` with answer_index defaulting to -1; the state stays consistent |
| QuizBackend.Backend.GetQuizSession | app.py:254-266 | returns the stored session, which satisfies the session invariant, or 'Session not found' with 404 |
| QuizInterface.OptionPhraseSubsumed | src/components/QuizInterface.tsx:34-37 | a transcript containing "option x" contains the letter x, so the second test of each pair never decides |
| QuizInterface.LetterRule | src/components/QuizInterface.tsx:33-37 | the letter rule gives 0..3 for the first of a, b, c, d contained in the transcript, -1 when none is |
| QuizInterface.LastContainedOption | src/components/QuizInterface.tsx:39-44 | the option scan gives the last option whose lower-cased text occurs in the transcript, -1 when none does |
| QuizInterface.MatchSpokenAnswer | src/components/QuizInterface.tsx:27-45 | the matcher's if-chain and overwriting loop compute the letter rule, else the option scan |
| QuizInterface.ResolveAnswerRange | src/components/QuizInterface.tsx:31-45 | the result is -1, a letter index 0..3, or an option index; the letter rule wins whenever it fires |
| QuizInterface.ScanMatchHasNoLetters | src/components/QuizInterface.tsx:33-44 | an option picked by its text contains none of the letters a to d |
| QuizInterface.MaybeMeansA | src/components/QuizInterface.tsx:34 | "maybe" selects option A |
| QuizInterface.BirdSaysB | src/components/QuizInterface.tsx:35 | "i choose bird" with options Cat, Dog, Bird, Fish selects B |
| QuizInterface.ThinkItsB | src/components/QuizInterface.tsx:35 | "I think it's B" selects B |
| QuizInterface.FishByText | src/components/QuizInterface.tsx:38-44 | "Fish" is matched by option text to index 3 |
| QuizInterface.ReadAloudMentionsEverything | src/components/QuizInterface.tsx:69-76 | the read-aloud text contains the question and every labelled option |
| QuizInterface.QuizNeverCompletesAsWired | src/components/QuizInterface.tsx:115-129 | as wired, no answer reply schedules `onQuizComplete`, not even the last one |
| QuizInterface.CompletionWithDefinedNotifiers | src/components/QuizInterface.tsx:124-129 | with working notifications, completion happens exactly on an accepted reply that says the quiz is complete, with the server's final score and count |
| QuizInterface.QuizView.constructor | src/components/QuizInterface.tsx:15-23 | the screen starts on the given session with no selection, no feedback, not submitting, not listening |
| QuizInterface.QuizView.SelectOption | src/components/QuizInterface.tsx:214 | a click selects that option |
| QuizInterface.QuizView.HandleSpeechResult | src/components/QuizInterface.tsx:27-53 | a recognised answer is selected and announced as "You chose X: text" ("undefined" past the options); otherwise the selection stays and the retry prompt is spoken |
| QuizInterface.QuizView.HandleSpeechError | src/components/QuizInterface.tsx:55-58 | a recognition error speaks the "didn't catch that" prompt |
| QuizInterface.QuizView.HandleSpeechStart | src/components/QuizInterface.tsx:60-63 | listening starts and the listening prompt is spoken |
| QuizInterface.QuizView.HandleSpeechEnd | src/components/QuizInterface.tsx:65-67 | listening stops |
| QuizInterface.QuizView.ReadQuestionAloud | src/components/QuizInterface.tsx:69-76 | speaks the read-aloud text of the current question |
| QuizInterface.QuizView.BeginSubmit | src/components/QuizInterface.tsx:78-93 | without a selection or while submitting nothing is sent; otherwise session id and selection are sent and submission starts |
| QuizInterface.QuizView.FinishSubmit | src/components/QuizInterface.tsx:95-136 | an accepted reply shows the feedback, takes the server's score and advances the counter; a throwing notification speaks the error prompt and skips completion; a refusal changes nothing; a network failure speaks the error prompt; submission always ends |
| QuizInterface.QuizView.QuestionShown | src/components/QuizInterface.tsx:153-157 | the question is read when there is one and no feedback is shown |
| QuizInterface.QuizView.NextQuestion | src/components/QuizInterface.tsx:139-150 | selection and feedback are cleared, and the next question is read when there is one |
| QuizInterface.LastAnswerAsWiredScenario | src/components/QuizInterface.tsx:95-133 | as wired, the last answer accepted as completing the quiz advances the counter and takes the final score, then speaks the error prompt and never schedules `onQuizComplete` |
| Achievements.Updated | src/components/AchievementSystem.tsx:108-149 | the update keeps id, name, description, cap and rarity, unlocks exactly when already unlocked or the achievement's condition holds, sets the capped progress of each rule, and leaves unknown ids alone |
| Achievements.InitialAchievementsShape | src/components/AchievementSystem.tsx:33-94 | six achievements with distinct ids, all locked at progress 0, caps 1, 1, 3, 3, 5, 50 |
| Achievements.UpdatedKeepsWellFormed | src/components/AchievementSystem.tsx:112-148 | for nonnegative statistics, progress stays within 0..cap and reaching the cap means unlocked |
| Achievements.UpdatedIdempotentOnUnlock | src/components/AchievementSystem.tsx:109-148 | updating twice with the same statistics unlocks nothing more |
| Achievements.FlippedMembers | src/components/AchievementSystem.tsx:151-157 | the newly unlocked list holds exactly the entries unlocked now and locked before |
| Achievements.SecondRefreshFlipsNothing | src/components/AchievementSystem.tsx:105-164 | a second refresh with the same statistics reports no new unlocks |
| Achievements.AchievementBoard.constructor | src/components/AchievementSystem.tsx:30-31 | both lists start empty |
| Achievements.AchievementBoard.Load | src/components/AchievementSystem.tsx:96-103 | the stored list when there is one, the initial list otherwise |
| Achievements.AchievementBoard.Refresh | src/components/AchievementSystem.tsx:105-164 | an empty list is left alone; otherwise every entry is updated, the flipped ones are appended to the newly unlocked list and, with a callback, announced in order |
| Logging.LastN | src/utils/logger.ts:67 | `slice(-n)` keeps the last n elements |
| Logging.LastNOfLastN | src/utils/logger.ts:30-35 | trimming to the last n, appending, and trimming again equals one trim |
| Logging.Appended | src/utils/logger.ts:30-35 | a log call keeps at most 100 entries, ends with the new one, and drops exactly the oldest when full |
| Logging.AppendAllKeepsLast | src/utils/logger.ts:30-35 | after any sequence of log calls the buffer is the last 100 entries in order |
| Logging.ApiResponseLevel | src/utils/logger.ts:94-100 | `apiResponse` logs an API error exactly for status 400 and above, info otherwise, with the status in the message |
| Logging.Stored | src/utils/logger.ts:46-48 | the production error store keeps at most ten entries and changes only for errors in production |
| Logging.ErrorData | src/utils/logger.ts:102-107 | `apiError` records exactly the keys message, stack and name; each holds the error's property when it has one, and a non-string exactly when it has none |
| Logging.Logger.constructor | src/utils/logger.ts:4-12 | the buffer starts empty |
| Logging.Logger.Log | src/utils/logger.ts:21-49 | the entry joins the 100-entry buffer; errors in production join the store of the last ten |
| Logging.Logger.Info | src/utils/logger.ts:73-75 | logs at info level |
| Logging.Logger.Warn | src/utils/logger.ts:77-79 | logs at warn level |
| Logging.Logger.Error | src/utils/logger.ts:81-83 | logs at error level |
| Logging.Logger.Debug | src/utils/logger.ts:85-87 | logs at debug level |
| Logging.Logger.ApiRequest | src/utils/logger.ts:90-92 | logs info/API "METHOD endpoint" |
| Logging.Logger.ApiResponse | src/utils/logger.ts:94-100 | logs the entry of `ApiResponseLevel` |
| Logging.Logger.ApiError | src/utils/logger.ts:102-108 | logs error/API "endpoint error" with the error's details |
| Logging.Logger.VoiceEvent | src/utils/logger.ts:111-113 | logs debug/VOICE |
| Logging.Logger.VoiceError | src/utils/logger.ts:115-117 | logs error/VOICE |
| Logging.Logger.UserAction | src/utils/logger.ts:120-122 | logs info/USER |
| Logging.Logger.Performance | src/utils/logger.ts:125-127 | logs debug/PERFORMANCE "metric: value unit", unit "ms" by default |
| Logging.Logger.GetAllLogs | src/utils/logger.ts:130-132 | returns the buffer as a value, unaffected by later logging |
| Logging.Logger.ClearLogs | src/utils/logger.ts:135-138 | leaves exactly one entry: info/SYSTEM "Logs cleared" |
| Logging.LoggerHolder.constructor | src/utils/logger.ts:3 | no instance yet |
| Logging.LoggerHolder.GetInstance | src/utils/logger.ts:14-19 | the first call creates an empty logger, every later call returns that same one |
| Voice.FirstPreferred | src/components/VoiceManager.ts:21-26 | the earliest voice whose lower-cased name contains one of the five hints |
| Voice.ChooseVoiceSpec | src/components/VoiceManager.ts:17-28 | the chosen voice is one of the voices: the earliest preferred one if any, else the first; none only without voices |
| Voice.FindByName | src/components/VoiceManager.ts:56 | the first voice with exactly that name, none when no voice has it |
| Voice.OrDefault | src/components/VoiceManager.ts:40-41 | a missing or zero rate or pitch takes the default, any other value is kept |
| Voice.VoiceManager.constructor | src/components/VoiceManager.ts:6-15 | the voices are loaded and chosen, nothing has been spoken |
| Voice.VoiceManager.LoadVoices | src/components/VoiceManager.ts:17-28 | voices replaced and the choice remade |
| Voice.VoiceManager.Speak | src/components/VoiceManager.ts:30-45 | the engine gets a cancel then the utterance: the text unchanged, the selected voice if any, rate and pitch defaulted, volume 1; every speak follows a cancel |
| Voice.VoiceManager.Stop | src/components/VoiceManager.ts:47-49 | the engine gets only a cancel |
| Voice.VoiceManager.GetAvailableVoices | src/components/VoiceManager.ts:51-53 | returns the loaded voices |
| Voice.VoiceManager.SetVoice | src/components/VoiceManager.ts:55-60 | selects the first voice with that exact name; an unknown name changes nothing |
| SpeechInput.Recognizer.constructor | src/components/SpeechInput.tsx:27-29 | supported, not listening, no recognition object |
| SpeechInput.Recognizer.Cleanup | src/components/SpeechInput.tsx:75-79 | the previous setup's cleanup stops the referenced object only if it was set up while listening |
| SpeechInput.Recognizer.Setup | src/components/SpeechInput.tsx:31-80 | without browser support the component becomes unsupported and reports once; otherwise a new object configured with interim results off becomes the referenced one |
| SpeechInput.Recognizer.StartListening | src/components/SpeechInput.tsx:82-100 | unsupported: reports and never starts; otherwise starts only when not listening, reporting a throwing start |
| SpeechInput.Recognizer.StopListening | src/components/SpeechInput.tsx:102-106 | stops only while listening |
| SpeechInput.Recognizer.Click | src/components/SpeechInput.tsx:82-116 | a click while listening stops the referenced object; otherwise it starts it, or reports 'not supported' without support, or reports the start failure when `start` throws, and with no object does nothing |
| SpeechInput.Recognizer.OnStart | src/components/SpeechInput.tsx:50-53 | listening, and `onStart` fires if given |
| SpeechInput.Recognizer.OnResult | src/components/SpeechInput.tsx:55-58 | the first transcript goes to `onResult` |
| SpeechInput.Recognizer.OnError | src/components/SpeechInput.tsx:60-65 | not listening, and `onError` gets "Speech recognition error: " and the code |
| SpeechInput.Recognizer.OnEnd | src/components/SpeechInput.tsx:67-70 | not listening, and `onEnd` fires if given |
| SpeechInput.StopAfterRestartScenario | src/components/SpeechInput.tsx:80 | with `listening` among the setup's dependencies, a stop click after the start event stops a new object that was never started, while the started one keeps listening |
| SpeechInput.StopWithoutRestartScenario | src/components/SpeechInput.tsx:102-106 | without an intervening setup, the stop click reaches the started object |
| Wizard.RoundedPercentage | src/App.tsx:105 | the percentage is the nearest whole number to 100·score/total with halves rounded up, undefined for a zero total |
| Wizard.RoundedPercentageBounds | src/App.tsx:210 | for 0 ≤ score ≤ total the percentage is in 0..100, 100 exactly when 200·score ≥ 199·total, 100 for a full score and 0 for none |
| Wizard.App.Shown | src/App.tsx:171-194 | in a valid state the current screen is the one rendered |
| Wizard.App.constructor | src/App.tsx:41-53 | the profile screen, no profile, no session, empty topic, not loading; the welcome is spoken |
| Wizard.App.HandleProfileCreated | src/App.tsx:55-59 | stores the profile, moves to the topic screen and greets the child by name |
| Wizard.App.BeginTopicSelected | src/App.tsx:61-78 | without a profile nothing happens; otherwise topic stored, loading on, request with topic and profile id |
| Wizard.App.FinishTopicSelected | src/App.tsx:80-100 | both requests succeeding moves to the quiz with the session; a refused session request stays silently; other failures apologise; loading always ends |
| Wizard.App.HandleQuizComplete | src/App.tsx:103-107 | moves to results and speaks the score, the total and the percentage |
| Wizard.App.HandlePlayAgain | src/App.tsx:109-114 | back to topics with the profile kept, session and topic cleared |
| Wizard.App.HandleNewProfile | src/App.tsx:116-122 | back to the profile screen with profile, session and topic cleared |
| ProfileForm.AgeOptionsRange | src/components/ProfileCreation.tsx:18 | the ages offered are exactly 5..14 and include the default 8 |
| ProfileForm.Without | src/components/ProfileCreation.tsx:25 | the filter removes every copy of the interest and keeps the rest with their counts |
| ProfileForm.WithoutAppend | src/components/ProfileCreation.tsx:25 | filtering distributes over concatenation, so the kept order is the original order |
| ProfileForm.ToggledFlips | src/components/ProfileCreation.tsx:22-28 | a toggle flips membership of the interest and keeps the count of every other |
| ProfileForm.ToggledKeepsOthersInOrder | src/components/ProfileCreation.tsx:24-26 | apart from the toggled interest the list is the same, in the same order |
| ProfileForm.ToggledKeepsDistinct | src/components/ProfileCreation.tsx:24-26 | a list without repeats stays without repeats |
| ProfileForm.ToggledTwice | src/components/ProfileCreation.tsx:24-26 | toggling an absent interest twice restores the list; a present one moves to the end |
| ProfileForm.Form.constructor | src/components/ProfileCreation.tsx:17-20 | empty name, age 8, no interests, not submitting |
| ProfileForm.Form.SetName | src/components/ProfileCreation.tsx:85 | the typed name is stored |
| ProfileForm.Form.SetAge | src/components/ProfileCreation.tsx:100 | the chosen age is stored |
| ProfileForm.Form.ToggleInterest | src/components/ProfileCreation.tsx:22-28 | the interests become the toggled list |
| ProfileForm.Form.BeginSubmit | src/components/ProfileCreation.tsx:30-47 | a blank name sends nothing; otherwise submission starts and the body carries the trimmed name (non-empty, not starting with whitespace), age and interests |
| ProfileForm.Form.FinishSubmit | src/components/ProfileCreation.tsx:49-61 | a created profile is passed on; a refusal or failure apologises; submission always ends |

## Left out

- Flask routing, CORS, static serving and logging in `app.py`, and the prompt text sent to the model: plumbing with no state. The model's reply is an input (`Generation`).
- `json.loads` is the parameter `parse`; its grammar is not modelled.
- JSON numbers are integers only (`Json.Value`'s `Num(int)`). A fractional `correct_answer` is not modelled: under Python `==` a value `1.0` would equal answer 1 and `1.5` no answer, and `QuizBackend.Submit` cannot receive either.
- Request fields of a type other than the expected one (for example a list as `profile_id`, which makes the handler raise): only absent and well-typed fields are modelled.
- `Text.IsSpace`: whitespace is the ASCII set (space, tab, line feed, carriage return, vertical tab, form feed); the wider Unicode whitespace of Python's `strip` and JavaScript's `trim` is not modelled.
- `Text.ToLower`: lower-cases ASCII letters only; Unicode case mapping is not modelled.
- Every `fetch` and its JSON decoding: outcomes are inputs (`SubmitReply`, `GenerateOutcome`, `SessionOutcome`, `CreateOutcome`).
- `setTimeout` delays before reading a question and before `onQuizComplete`: the delayed action is modelled as happening, the delay is not.
- Rendering: JSX, class names, progress-bar widths, icons.
- The browser's speech-synthesis and speech-recognition engines: modelled only as command traces and events.
- `Voice.OrDefault`: rates and pitches are exact reals; NaN, which `||` would also replace, is not modelled.
- `Wizard.RoundedPercentage`: computed in exact arithmetic; where floating-point division and multiplication by 100 round differently from the exact value, `Math.round` can differ.
- `Logging.Logger.Performance`: whole-number values only; JavaScript's rendering of fractional numbers is not modelled.
- Logging.Logger.ApiError: a missing message, stack or name is recorded as `null`, whereas JavaScript keeps the key with the value `undefined` (dropped by `JSON.stringify`); and a `null` or `undefined` error, for which `apiError` throws a TypeError before logging, is not modelled, since the error is given as its three optional properties.
- Timestamps, console output and its styling in `logger.ts`; `exportLogs`, which only serialises the buffer.
- `localStorage`: the achievements' stored list is an input to `Load`, and the write-back after a refresh is not modelled; the logger's error store is the field `storedErrors`, whose JSON round trip and failure path are not modelled.
- `Achievements.AchievementBoard.Load`: a stored value that is not a well-formed achievement list is not modelled.
- `BrowserCompatibility` in `logger.ts`: environment probes with no logic of their own.
- `useVoiceInput.ts`, `WebSpeechTest.tsx`, `VoiceTest.tsx`, `TestSuite.tsx`, `Mascot.tsx`, `Fireworks.tsx`, `ErrorBoundary.tsx`, `AppRouter.tsx`, `main.tsx`, `TopicSelection.tsx`: wrappers, test screens, animation and bootstrap code outside the modelled core.
- `QuizInterface.QuizView.FinishSubmit`: `onScoreUpdate`, `speakCorrectAnswer` and `speakIncorrectAnswer` have no implementation here, so the model tracks only whether they throw (`notifyThrows`), not what they would do.
- `SpeechInput.Recognizer`: the default button is disabled when recognition is unsupported (line 135), while a wrapper `div` is not; `Click` models the handler that runs when a click gets through.
- React's re-running of the setup effect whenever a dependency changes, including callback props recreated on each parent render: `Setup` is a method the environment calls, and the model does not decide when it runs.

## Findings

| source | as written | input that shows it | evidently intended | confidence | as-written member | corrected member |
|---|---|---|---|---|---|---|
| src/components/QuizInterface.tsx:115-129 | after an accepted answer it calls `onScoreUpdate`, which `App.tsx:187-191` never passes, and `voiceManager.speakCorrectAnswer`/`speakIncorrectAnswer`, which `VoiceManager.ts` does not define; the call throws, the catch speaks the error prompt, and `onQuizComplete` is never scheduled | the reply to the fourth answer of a four-question quiz: `Accepted(true, "Right!", 4, true, 4, 4)` | the results screen is reached after the last answer with the final score | high, not executed | QuizInterface.LastAnswerAsWiredScenario | QuizInterface.CompletionWithDefinedNotifiers |
