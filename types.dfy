/** The records declared in types.ts. */
module Types {

  /** One solved question as the quiz screen receives it from the AI. */
  datatype QuizResult = QuizResult(
    question: string,
    options: seq<string>,
    correctAnswer: string,
    explanation: string)

  datatype Sender = User | Ai

  /** One entry of the chat transcript. */
  datatype ChatMessage = ChatMessage(sender: Sender, text: string)
}
