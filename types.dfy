/** The records and enumerations shared by the shell and the question card. */
module Types {

  /** A value that may be absent: JavaScript's `null` or `undefined`. */
  datatype Option<+T> = None | Some(value: T)

  /** One multiple-choice question as the AI provider returns it.
      `correctAnswer` is compared with the options by exact text. */
  datatype Question = Question(
    id: int,
    content: string,
    options: seq<string>,
    correctAnswer: string,
    explanation: string)

  /** The five views of the application shell; exactly one is active. */
  datatype AppState = Idle | NameInput | Loading | Result | Error
}
