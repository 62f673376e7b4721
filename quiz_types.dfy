/** The records the frontend receives from the backend, as App.tsx declares them. */
module QuizTypes {

  datatype Profile = Profile(id: string, name: string, age: int, interests: seq<string>)

  datatype Question = Question(question: string, options: seq<string>, correctAnswer: int, explanation: string)

  datatype Answer = Answer(questionIndex: int, answerIndex: int, isCorrect: bool)

  datatype QuizSession = QuizSession(
    id: string,
    profileId: string,
    topic: string,
    questions: seq<Question>,
    currentQuestion: nat,
    score: int,
    answers: seq<Answer>)
}
