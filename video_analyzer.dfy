/** components/VideoAnalyzer.tsx: the video screen's state, its analyze
    handler, and the rewrite that shows the answer's line breaks as HTML. */
module VideoAnalyzer {
  import opened Wrappers
  import opened JsString
  import opened GeminiService

  const ProvideDescription: string := "Please provide a video title or description."
  const UnknownError: string := "An unknown error occurred."

  /** The HTML line break every `\n` of the answer becomes. */
  const LineBreak: string := "<br />"

  // ---------------------------------------------------------------------
  // The display rewrite

  /** `s.replace(/\n/g, '<br />')`: every line feed becomes a line break tag,
      so none is left. */
  function NewlinesToBreaks(s: string): (r: string)
    ensures '\n' !in r
  {
    if s == [] then ""
    else (if s[0] == '\n' then LineBreak else [s[0]]) + NewlinesToBreaks(s[1..])
  }

  /** Each line feed adds five characters: the tag is six long. */
  lemma {:induction false} NewlinesToBreaksLength(s: string)
    ensures |NewlinesToBreaks(s)| == |s| + 5 * Count(s, '\n')
  {
    if s != [] {
      NewlinesToBreaksLength(s[1..]);
    }
  }

  /** The rewrite works piece by piece: rewriting a concatenation is
      concatenating the rewrites. */
  lemma {:induction false} NewlinesToBreaksAppend(a: string, b: string)
    ensures NewlinesToBreaks(a + b) == NewlinesToBreaks(a) + NewlinesToBreaks(b)
  {
    if a == [] {
      assert a + b == b;
    } else {
      assert (a + b)[0] == a[0] && (a + b)[1..] == a[1..] + b;
      NewlinesToBreaksAppend(a[1..], b);
    }
  }

  /** Text without a line feed is shown unchanged. */
  lemma {:induction false} NoNewlineUnchanged(s: string)
    requires '\n' !in s
    ensures NewlinesToBreaks(s) == s
  {
    if s != [] {
      NoNewlineUnchanged(s[1..]);
      assert [s[0]] + s[1..] == s;
    }
  }

  /** The rewrite is the answer's lines, in order and otherwise untouched,
      joined with the line break tag instead of `\n`. */
  lemma {:induction false} NewlinesToBreaksJoinsLines(s: string)
    ensures NewlinesToBreaks(s) == Join(Split(s, '\n'), LineBreak)
    decreases |s|
  {
    if s != [] {
      var rest := Split(s[1..], '\n');
      NewlinesToBreaksJoinsLines(s[1..]);
      if s[0] == '\n' {
        var ps := [""] + rest;
        assert ps[1..] == rest;
        assert Join(ps, LineBreak) == "" + LineBreak + Join(rest, LineBreak);
      } else {
        JoinConsHead(s[0], rest, LineBreak);
      }
    }
  }

  /** What `{result && (...)}` renders: nothing for no result and for the
      empty, falsy answer; otherwise the rewritten answer, which is not
      empty either. */
  function RenderedHtml(result: Option<string>): (html: Option<string>)
    ensures html.Some? <==> result.Some? && result.value != ""
    ensures html.Some? ==> html.value == NewlinesToBreaks(result.value) && html.value != ""
  {
    if result.None? || result.value == "" then None
    else Some(NewlinesToBreaks(result.value))
  }

  // ---------------------------------------------------------------------
  // The screen

  class State {
    var description: string
    var result: Option<string>
    var isLoading: bool
    var error: Option<string>
    /** The requests this screen has handed to the service, oldest first. */
    ghost var sent: seq<Request>

    constructor ()
      ensures description == "" && result == None && !isLoading && error == None && sent == []
    {
      description, result, isLoading, error := "", None, false, None;
      sent := [];
    }

    /** The analyze button is disabled while loading and while the
        description is blank. */
    predicate AnalyzeDisabled()
      reads this
    {
      isLoading || IsBlank(description)
    }

    /** `handleAnalyze` up to the `await`: a blank description only sets the
        error; otherwise the screen starts loading with no error and no
        result. */
    method BeginAnalyze() returns (proceed: bool)
      modifies this`result, this`isLoading, this`error
      ensures proceed <==> !IsBlank(description)
      ensures !proceed ==> error == Some(ProvideDescription) && result == old(result) && isLoading == old(isLoading)
      ensures proceed ==> isLoading && error == None && result == None
    {
      proceed := !IsBlank(description);
      if !proceed {
        error := Some(ProvideDescription);
      } else {
        isLoading, error, result := true, None, None;
      }
    }

    /** `handleAnalyze` after the `await`: the answer becomes the result, or
        the error is set; loading stops either way. */
    method FinishAnalyze(response: Result<string>)
      modifies this`result, this`isLoading, this`error
      ensures !isLoading
      ensures response.Ok? ==> result == Some(response.value) && error == old(error)
      ensures response.Err? ==> result == old(result) && error == Some(OrElse(response.message, UnknownError))
    {
      match response {
        case Ok(text) => result := Some(text);
        case Err(message) => error := Some(OrElse(message, UnknownError));
      }
      isLoading := false;
    }

    /** `handleAnalyze`: a blank description sends nothing; otherwise one
        video request is sent and, when loading ends, the answer or the fixed
        failure message is shown. */
    method HandleAnalyze(remote: Request -> Reply)
      modifies this
      ensures description == old(description)
      ensures IsBlank(description) ==>
        error == Some(ProvideDescription) && result == old(result) && isLoading == old(isLoading) && sent == old(sent)
      ensures !IsBlank(description) ==>
        && !isLoading
        && sent == old(sent) + [VideoRequest(description)]
        && match AnalyzeVideoDescription(remote, description)
           case Ok(text) => result == Some(text) && error == None
           case Err(_) => result == None && error == Some(VideoFailure)
    {
      var proceed := BeginAnalyze();
      if proceed {
        var request := VideoRequest(description);
        sent := sent + [request];
        var response := AnalyzeVideoDescription(remote, description);
        FinishAnalyze(response);
      }
    }
  }
}
