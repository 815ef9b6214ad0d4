/** components/QuizSolver.tsx: the quiz screen's state, its solve handler
    and the rule that highlights the correct option. */
module QuizSolver {
  import opened Wrappers
  import opened Types
  import opened JsString
  import opened GeminiService

  const PasteFirst: string := "Please paste your quiz questions first."
  const CouldNotProcess: string := "The AI could not process the quiz. Please check the format and try again."
  const UnknownError: string := "An unknown error occurred."

  /** `response && response.quizResults`: the answer list, when the parsed
      reply is a truthy value with a truthy `quizResults`. */
  function AcceptedResults(response: Option<ParsedQuiz>): (rs: Option<seq<QuizResult>>)
    ensures rs.Some? <==> response.Some? && response.value.TruthyValue? && response.value.quizResults.Some?
    ensures rs.Some? ==> rs.value == response.value.quizResults.value
  {
    match response
    case Some(TruthyValue(Some(results))) => Some(results)
    case _ => None
  }

  // ---------------------------------------------------------------------
  // Highlighting

  /** An option is shown as the answer when it is exactly the correct answer. */
  predicate IsHighlighted(option: string, correctAnswer: string) {
    option == correctAnswer
  }

  /** The highlight flag of every option of one answered question, in order. */
  function HighlightRow(options: seq<string>, correctAnswer: string): (flags: seq<bool>)
    ensures |flags| == |options|
    ensures forall i :: 0 <= i < |options| ==> (flags[i] <==> IsHighlighted(options[i], correctAnswer))
  {
    if options == [] then []
    else [IsHighlighted(options[0], correctAnswer)] + HighlightRow(options[1..], correctAnswer)
  }

  /** Number of set flags. */
  function CountTrue(flags: seq<bool>): nat {
    if flags == [] then 0 else (if flags[0] then 1 else 0) + CountTrue(flags[1..])
  }

  /** As many options are highlighted as there are copies of the correct
      answer among them: every duplicate is highlighted, and when the answer
      is not among the options nothing is. */
  lemma {:induction false} HighlightCount(options: seq<string>, correctAnswer: string)
    ensures CountTrue(HighlightRow(options, correctAnswer)) == multiset(options)[correctAnswer]
    ensures correctAnswer !in options ==> CountTrue(HighlightRow(options, correctAnswer)) == 0
  {
    if options != [] {
      HighlightCount(options[1..], correctAnswer);
      assert options == [options[0]] + options[1..];
      assert HighlightRow(options, correctAnswer)[1..] == HighlightRow(options[1..], correctAnswer);
    }
  }

  // ---------------------------------------------------------------------
  // The screen

  class State {
    var quizText: string
    var results: Option<seq<QuizResult>>
    var isLoading: bool
    var error: Option<string>
    /** The requests this screen has handed to the service, oldest first. */
    ghost var sent: seq<Request>

    constructor ()
      ensures quizText == "" && results == None && !isLoading && error == None && sent == []
    {
      quizText, results, isLoading, error := "", None, false, None;
      sent := [];
    }

    /** The solve button is disabled while loading and while the text is
        blank. */
    predicate SolveDisabled()
      reads this
    {
      isLoading || IsBlank(quizText)
    }

    /** The clear button is disabled while loading and while the text is
        empty. */
    predicate ClearDisabled()
      reads this
    {
      isLoading || quizText == ""
    }

    /** The clear button empties the text, which disables solving. */
    method Clear()
      modifies this`quizText
      ensures quizText == "" && SolveDisabled()
    {
      quizText := "";
      BlankIffAllWhitespace("");
    }

    /** `handleSolve` up to the `await`: the blank-text guard, then the reset
        the screen shows while the call is in flight. */
    method BeginSolve() returns (proceed: bool)
      modifies this`results, this`isLoading, this`error
      ensures proceed <==> !IsBlank(quizText)
      ensures !proceed ==> error == Some(PasteFirst) && results == old(results) && isLoading == old(isLoading)
      ensures proceed ==> isLoading && error == None && results == None
    {
      if IsBlank(quizText) {
        error := Some(PasteFirst);
        return false;
      }
      isLoading, error, results := true, None, None;
      return true;
    }

    /** `handleSolve` after the `await`: accept the answer list, or report
        why not, and stop loading in every case. */
    method FinishSolve(response: Result<Option<ParsedQuiz>>)
      modifies this`results, this`isLoading, this`error
      ensures !isLoading
      ensures response.Ok? && AcceptedResults(response.value).Some? ==>
        results == AcceptedResults(response.value) && error == old(error)
      ensures response.Ok? && AcceptedResults(response.value).None? ==>
        results == old(results) && error == Some(CouldNotProcess)
      ensures response.Err? ==> results == old(results) && error == Some(OrElse(response.message, UnknownError))
    {
      match response {
        case Ok(parsed) =>
          var accepted := AcceptedResults(parsed);
          if accepted.Some? {
            results := accepted;
          } else {
            error := Some(CouldNotProcess);
          }
        case Err(message) =>
          error := Some(OrElse(message, UnknownError));
      }
      isLoading := false;
    }

    /** `handleSolve`: blank text only sets the error and sends nothing;
        otherwise one quiz request is sent and, when loading ends, either the
        answers are shown with no error, or no answers are shown and the
        error says why. */
    method HandleSolve(remote: Request -> Reply, parse: string -> Option<ParsedQuiz>)
      modifies this
      ensures quizText == old(quizText)
      ensures IsBlank(quizText) ==>
        error == Some(PasteFirst) && results == old(results) && isLoading == old(isLoading) && sent == old(sent)
      ensures !IsBlank(quizText) ==> !isLoading && sent == old(sent) + [QuizRequest(quizText)]
      ensures !IsBlank(quizText) ==>
        match SolveQuizWithGrounding(remote, parse, quizText)
        case Ok(parsed) =>
          if AcceptedResults(parsed).Some? then results == AcceptedResults(parsed) && error == None
          else results == None && error == Some(CouldNotProcess)
        case Err(_) => results == None && error == Some(QuizFailure)
    {
      var proceed := BeginSolve();
      if proceed {
        var request := QuizRequest(quizText);
        sent := sent + [request];
        var response := SolveQuizWithGrounding(remote, parse, quizText);
        FinishSolve(response);
      }
    }
  }
}
