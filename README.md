# Gemini AI study tools: a verified Dafny model

The application is a single-page React app with four screens, all backed by
Google's Gemini models through one service module:

- a **quiz solver**: paste multiple-choice questions and get the correct
  answers, found with Google Search grounding and returned as JSON;
- a **chat**: a running conversation with a selectable model, plus an
  optional "thinking mode" on the Pro model;
- an **image analyzer**: upload an image and ask a question about it;
- a **video analyzer**: describe a video and get a markdown analysis of it.

This project models the service module (`services/geminiService.ts`) and the
state machines behind the four screens. It proves what each of them promises.

- **The service.** Each request is built as a value. The proofs cover:
  - its model, tools and thinking budget;
  - for the image screen, its part list;
  - for the quiz and video prompts, where the user's text sits inside the
    prompt.

  The extraction of a fenced ```` ```json ```` block from the model's reply is
  written with `indexOf`-style search. It is proved to agree with an
  independent definition of the leftmost, lazy regular-expression match. The
  remote call is an oracle `Request -> Reply` and `JSON.parse` is an oracle
  `string -> Option<T>`. Each wrapper is proved to give the reply's text or
  its fixed failure message.
- **The screens.** Each screen is a `class State` whose fields are the
  component's `useState` variables. Each `async` handler is three methods:
  - `BeginX`: the guard and the reset, up to the `await`;
  - `FinishX`: the outcome of the `await` and the `finally`;
  - `HandleX`: the two composed around the service call. Each screen keeps a
    ghost log `sent` of the requests it has handed to the service.

  The chat screen keeps a transcript invariant across sends:
  - every user message is non-blank;
  - every AI message answers the user message just before it.
- **The string built-ins** the code relies on are written out over
  `seq<char>`, with their defining properties proved:
  - `trim`, with the ECMAScript whitespace set (module `JsString`);
  - `indexOf`;
  - `split` on one character, and `join`;
  - `||` on strings.

There is one module per source file. `Wrappers` holds `Option` and `Result`.
`Types` holds the records of `types.ts`.

## Model

| member | source | states |
|---|---|---|
| JsString.BlankIffAllWhitespace | components/QuizSolver.tsx:15 | `!s.trim()` holds exactly when every character of `s` is ECMAScript whitespace or a line terminator; in particular the empty string is blank |
| JsString.TrimStartIsSuffix | components/Chat.tsx:26 | trimming the start leaves the suffix beginning at the first non-whitespace character; everything removed is whitespace |
| JsString.TrimEndIsPrefix | components/Chat.tsx:26 | trimming the end leaves the prefix ending at the last non-whitespace character; everything removed is whitespace |
| JsString.IndexOfFrom | services/geminiService.ts:11 | the result is the first index at or after `from` where the pattern occurs, and "none" means it occurs nowhere from `from` on (for the non-empty fence patterns it is used with, this is `indexOf`) |
| JsString.Split | components/ImageAnalyzer.tsx:11 | `split` on one character gives at least one piece, no piece contains the separator, and joining the pieces with it gives the string back |
| JsString.SplitWithoutSeparator | components/ImageAnalyzer.tsx:11 | a string without the separator splits into itself alone |
| JsString.SplitAfterPiece | components/ImageAnalyzer.tsx:11 | a separator-free piece followed by the separator is split off as the first piece |
| JsString.SplitJoin | components/ImageAnalyzer.tsx:11 | any non-empty list of separator-free pieces is what splitting its own join gives back, so the three properties of `Split` determine it |
| JsString.OrElse | components/QuizSolver.tsx:30 | `e.message \|\| fallback`: the message unless it is the empty, falsy string, in which case the fallback |
| JsString.Count | components/VideoAnalyzer.tsx:59 | the result is the number of copies of the character in the string (its multiplicity in the string's multiset), so it is at most the length, and zero exactly when the character does not occur |
| GeminiService.ChatConfig | services/geminiService.ts:62-64 | no tools; a thinking budget exactly when thinking mode is on and the model is Pro, and that budget is 32768; otherwise the empty config |
| GeminiService.ChatRequest | services/geminiService.ts:66-70 | the chat request uses the chosen model, sends the prompt verbatim, and carries the config of `ChatConfig` |
| GeminiService.TextPartCountAppend | services/geminiService.ts:80 | the number of text parts of two concatenated part lists is the sum of their counts |
| GeminiService.ImageContents | services/geminiService.ts:80 | the parts are the image parts in order followed by one text part with the prompt, so there is exactly one more text part than among the image parts |
| GeminiService.ImageRequest | services/geminiService.ts:81-84 | the image request uses `gemini-2.5-flash`, no config, and the part list of `ImageContents` |
| GeminiService.QuizPromptEmbedsText | services/geminiService.ts:23-43 | the quiz prompt is the fixed instructions, a `---` line, the quiz text verbatim, a line break and a closing `---` line; slicing the prompt at those lengths recovers the text |
| GeminiService.VideoPromptEmbedsText | services/geminiService.ts:95-99 | the video prompt is the fixed introduction ending in an opening quote, the description verbatim, then the closing quote and the markdown instruction; slicing recovers the description |
| GeminiService.QuizRequest | services/geminiService.ts:44-50 | the quiz request uses `gemini-2.5-flash`, exactly the Google Search tool, no thinking budget, and the quiz prompt for the given text |
| GeminiService.VideoRequest | services/geminiService.ts:101-104 | the video request uses `gemini-2.5-pro`, no config, and the video prompt for the given description |
| GeminiService.LeftmostLazyMatchUnique | services/geminiService.ts:11 | there is at most one leftmost, lazy match of the fence pattern in a string |
| GeminiService.FenceMatch | services/geminiService.ts:11 | a found match is the leftmost, lazy match of ```` ```json\n([\s\S]*?)\n``` ````, and none is found exactly when the pattern matches nowhere |
| GeminiService.FenceCapture | services/geminiService.ts:11-12 | `jsonMatch[1]` is absent exactly when nothing matches; otherwise it is the text between the opener and the closer of the leftmost, lazy match, contains no closer, and is at least twelve characters shorter than the reply |
| GeminiService.CandidateOfMatch | services/geminiService.ts:12 | when the pattern matches, the string handed to `JSON.parse` is the captured group |
| GeminiService.CandidateWithoutMatch | services/geminiService.ts:12 | when the pattern matches nowhere, the whole reply is handed to `JSON.parse` |
| GeminiService.FencedBlockRoundTrip | services/geminiService.ts:11-12 | wrapping a closer-free body in a ```` ```json ```` fence and extracting gives the body back |
| GeminiService.EmptyBlockGivesEmptyCandidate | services/geminiService.ts:11-12 | an empty fenced block yields the empty string as the JSON text |
| GeminiService.OpenerAloneIsNoMatch | services/geminiService.ts:11-12 | the opener directly followed by the closing fence (no line break in between) is no match, so the whole reply is parsed |
| GeminiService.ParseJsonFromMarkdown | services/geminiService.ts:10-19 | the parse result is the parser's verdict on the fenced block when there is one, and on the whole reply otherwise; a throwing parse gives `null` |
| GeminiService.ParseFenced | services/geminiService.ts:10-19 | a reply that is one fenced block around a closer-free body is parsed as that body |
| GeminiService.ParsePlain | services/geminiService.ts:10-19 | a reply without an opener is parsed as it stands, so an unparsable plain reply gives `null` |
| GeminiService.Invoke | services/geminiService.ts:44-57 | the call succeeds exactly when the remote replies, with the reply's text; otherwise it fails with the given fixed message |
| GeminiService.SolveQuizWithGrounding | services/geminiService.ts:21-58 | a reply to the quiz request is put through `parseJsonFromMarkdown`; a failed call throws the fixed quiz failure message |
| GeminiService.GenerateChatResponse | services/geminiService.ts:60-76 | a reply to the chat request yields its text; a failed call throws the fixed chat failure message |
| GeminiService.AnalyzeImage | services/geminiService.ts:78-90 | a reply to the image request yields its text; a failed call throws the fixed image failure message |
| GeminiService.AnalyzeVideoDescription | services/geminiService.ts:93-110 | a reply to the video request yields its text; a failed call throws the fixed video failure message |
| QuizSolver.AcceptedResults | components/QuizSolver.tsx:24 | `response && response.quizResults` yields a list exactly when the parsed reply is truthy and its `quizResults` is present, and then it is that list |
| QuizSolver.HighlightRow | components/QuizSolver.tsx:46-53 | one flag per option, in order, set exactly when the option equals the correct answer |
| QuizSolver.HighlightCount | components/QuizSolver.tsx:50 | as many options are highlighted as there are copies of the correct answer among them, and none when it is not among them |
| QuizSolver.State.constructor | components/QuizSolver.tsx:9-12 | the screen starts with empty text, no results, not loading and no error |
| QuizSolver.State.Clear | components/QuizSolver.tsx:84 | the clear button empties the text, which disables the solve button |
| QuizSolver.State.BeginSolve | components/QuizSolver.tsx:15-21 | blank text only sets the "paste first" error; otherwise loading starts with no error and no results |
| QuizSolver.State.FinishSolve | components/QuizSolver.tsx:22-33 | accepted results are shown; a falsy or result-less reply sets the "could not process" error; a thrown error shows its message or the fallback; loading stops in every case |
| QuizSolver.State.HandleSolve | components/QuizSolver.tsx:14-34 | blank text sends nothing; otherwise exactly the quiz request is sent, and afterwards either results with no error, or no results with the "could not process" error or the quiz failure message |
| Chat.State.constructor | components/Chat.tsx:10-15 | empty transcript and input, not loading, no error, model `gemini-2.5-flash`, thinking mode off, and the transcript invariant holds |
| Chat.State.SetModel | components/Chat.tsx:59 | the model selector sets the model |
| Chat.State.SetThinkingMode | components/Chat.tsx:73 | the checkbox sets thinking mode |
| Chat.State.BeginSend | components/Chat.tsx:26-32 | a blank input changes nothing; otherwise the user's message is appended, the input is cleared, loading starts, the error is cleared, and the text sent is the input as it was; the invariant is kept |
| Chat.State.FinishSend | components/Chat.tsx:34-42 | the AI's answer is appended after the user's message, or the error is set and nothing is appended; loading stops; the invariant is kept |
| Chat.State.HandleSend | components/Chat.tsx:25-43 | one send has the effect `SendEffect` names: the old transcript is a prefix of the new one, which is longer by two on success and by one on failure; the request carries the old input, model and thinking flag; the invariant is kept |
| Chat.State.HandleKeyPress | components/Chat.tsx:45-49 | Enter sends unless a reply is loading; any other key changes nothing |
| ImageAnalyzer.DataUrlPayloadIsSecondSegment | components/ImageAnalyzer.tsx:11 | `split(',')[1]` is undefined exactly when the data URL has no comma; otherwise it is the text from just after the first comma up to the next comma or the end |
| ImageAnalyzer.FileToGenerativePart | components/ImageAnalyzer.tsx:8-17 | the part is inline data with the file's MIME type and the data URL's payload |
| ImageAnalyzer.State.constructor | components/ImageAnalyzer.tsx:20-25 | no image, empty prompt, no result, not loading, no error |
| ImageAnalyzer.State.HandleFileChange | components/ImageAnalyzer.tsx:27-38 | the first chosen file becomes the image and clears the result; choosing nothing changes nothing |
| ImageAnalyzer.State.BeginAnalyze | components/ImageAnalyzer.tsx:41-47 | without an image or with a blank prompt only the error is set; otherwise loading starts with no error and no result |
| ImageAnalyzer.State.FinishAnalyze | components/ImageAnalyzer.tsx:52-57 | the answer becomes the result, or the error is the message or the fallback; loading stops |
| ImageAnalyzer.State.HandleAnalyze | components/ImageAnalyzer.tsx:40-58 | an invalid submit sends nothing; a valid one sends one request whose parts are exactly the image part and then the prompt, and ends with the answer and no error, or no result and the image failure message |
| VideoAnalyzer.NewlinesToBreaks | components/VideoAnalyzer.tsx:59 | `replace(/\n/g, '<br />')` leaves no line feed |
| VideoAnalyzer.NewlinesToBreaksLength | components/VideoAnalyzer.tsx:59 | the rewrite is longer than the text by five characters per line feed |
| VideoAnalyzer.NewlinesToBreaksAppend | components/VideoAnalyzer.tsx:59 | rewriting a concatenation is concatenating the rewrites |
| VideoAnalyzer.NoNewlineUnchanged | components/VideoAnalyzer.tsx:59 | text without a line feed is shown unchanged |
| VideoAnalyzer.NewlinesToBreaksJoinsLines | components/VideoAnalyzer.tsx:59 | the rewrite is the text's lines, in order and untouched, joined with `<br />`, so every other character keeps its order |
| VideoAnalyzer.RenderedHtml | components/VideoAnalyzer.tsx:54-60 | nothing is rendered for no result or the empty, falsy result; otherwise the non-empty rewrite of the result |
| VideoAnalyzer.State.constructor | components/VideoAnalyzer.tsx:7-10 | empty description, no result, not loading, no error |
| VideoAnalyzer.State.BeginAnalyze | components/VideoAnalyzer.tsx:13-19 | a blank description only sets the error; otherwise loading starts with no error and no result |
| VideoAnalyzer.State.FinishAnalyze | components/VideoAnalyzer.tsx:21-28 | the answer becomes the result, or the error is the message or the fallback; loading stops |
| VideoAnalyzer.State.HandleAnalyze | components/VideoAnalyzer.tsx:12-29 | a blank description sends nothing; otherwise exactly the video request is sent, and the screen ends with the answer and no error, or no result and the video failure message |

Some members that model source expressions carry no `ensures` of their own.
Their properties are stated by the lemmas named here, which have rows above.

- `JsString.Trim` and `JsString.IsBlank` model `.trim()` and `!x.trim()`
  (components/QuizSolver.tsx:15, components/Chat.tsx:26,
  components/ImageAnalyzer.tsx:41, components/VideoAnalyzer.tsx:13). Their
  properties are in `JsString.TrimStartIsSuffix`, `JsString.TrimEndIsPrefix`
  and `JsString.BlankIffAllWhitespace`.
- `GeminiService.Prompt.Text` models the two template literals
  (services/geminiService.ts:23-43 and 95-99). Its properties are in
  `GeminiService.QuizPromptEmbedsText` and
  `GeminiService.VideoPromptEmbedsText`.
- `GeminiService.Candidate` models `jsonMatch ? jsonMatch[1] : markdownString`
  (services/geminiService.ts:12). Its properties are in
  `GeminiService.CandidateOfMatch`, `GeminiService.CandidateWithoutMatch` and
  `GeminiService.FencedBlockRoundTrip`.
- `ImageAnalyzer.DataUrlPayload` models `split(',')[1]`
  (components/ImageAnalyzer.tsx:11). Its property is in
  `ImageAnalyzer.DataUrlPayloadIsSecondSegment`.
- The five button-disabled predicates are each the source's condition
  written out:
  - `QuizSolver.State.ClearDisabled` (components/QuizSolver.tsx:86);
  - `QuizSolver.State.SolveDisabled` (components/QuizSolver.tsx:94);
  - `Chat.State.SendDisabled` (components/Chat.tsx:113);
  - `ImageAnalyzer.State.AnalyzeDisabled` (components/ImageAnalyzer.tsx:92);
  - `VideoAnalyzer.State.AnalyzeDisabled` (components/VideoAnalyzer.tsx:47).

`QuizSolver.State.BeginSolve` on its own has one case worth noting. If it
is called with blank text after a successful solve, it keeps the old
results and sets the "paste first" error, because the guard returns before
`setResults(null)`. In the app this case is never reached: the solve button
is disabled exactly when the text is blank (components/QuizSolver.tsx:94),
and nothing else calls the handler.

## Left out

- The GoogleGenAI client and the network (services/geminiService.ts:8,
  44-50 and the other calls):
  - a foreign library and I/O;
  - the call is an oracle from request to reply;
  - a thrown call is `Failed`.
- `response.text` being `undefined`: the reply's text is always a string
  here. The SDK's getter is not part of this model.
- `JSON.parse` (services/geminiService.ts:14): the parser is not visible.
  It is an oracle that either yields a value or throws.
- What the parsed value looks like beyond truthiness and its `quizResults`
  property. A truthy `quizResults` of the wrong shape is not modelled,
  because TypeScript's cast checks nothing at run time.
- The `API_KEY` check when the module loads (services/geminiService.ts:4-6):
  environment configuration.
- `console.error` logging: output only.
- GeminiService.ChatConfig: the empty `{}` config and an absent config are
  both `EmptyConfig`. The SDK treats them alike, and `{}` is what the code
  passes.
- `FileReader`, base64 encoding and the image preview
  (components/ImageAnalyzer.tsx:9-13 and 31-35): browser I/O. A file is its
  MIME type and the data URL the reader would produce.
- `imagePreview` is not a field of `ImageAnalyzer.State`: it only feeds the
  preview `<img>`.
- JSX, styling, `scrollIntoView` (components/Chat.tsx:19-23) and the
  `disabled` attribute of the text inputs: presentation.
- The chat's thinking-mode checkbox only shows on Pro (components/Chat.tsx:67).
  The model lets the flag be set at any time. It takes effect only on Pro
  through `ChatConfig`, as in the source.
- The controlled inputs' `onChange` handlers, which set the text fields:
  these are plain assignments. Each method takes the field's current value.
- A request's text contents are the prompt template and its argument
  (`Prompt`), not the rendered string `Prompt.Text()`. So the `sent` logs,
  and the `remote` oracle, tell apart a video request from a chat request
  on Pro without thinking mode whose text happens to equal the rendered
  video prompt, although the service sends those two alike. Every property
  holds for every oracle, so nothing proved depends on this. The rendered
  text is kept out of requests because the long quiz template made every
  handler proof that mentioned it too expensive.
- App.tsx tab switching and components/ui/Button.tsx: UI wiring and a
  styling wrapper.
- Interleaving of events during an `await`, such as a second click or the
  chat's stale `input` closure: concurrency. Each handler runs start to
  finish, with the service call as one step in between.
- JsString.IsJsWhitespace and the other string functions work on Unicode
  code points. JavaScript strings are UTF-16, so characters outside the
  Basic Multilingual Plane count as two units there. No whitespace lies
  outside it.
- GeminiService.QuizPromptEmbedsText and GeminiService.VideoPromptEmbedsText
  state where the user's text sits inside the prompt. They do not state
  that different texts give different prompts. That follows from the slice
  equations, but it is not a separate lemma.
