/** services/geminiService.ts: how each screen's request to the hosted model
    is shaped, how a remote failure is reported, and how the quiz answer is
    dug out of the model's text.

    The client library and the network are not modelled. A remote call is an
    oracle `remote: Request -> Reply` that either answers with the response's
    text or fails, and `JSON.parse` is an oracle `parse: string -> Option<T>`
    whose `None` means that it threw. */
module GeminiService {
  import opened Wrappers
  import opened Types
  import opened JsString

  // ---------------------------------------------------------------------
  // Requests

  /** The three model tiers the app names. */
  datatype ModelId = FlashLite | Flash | Pro {
    function Name(): string {
      match this
      case FlashLite => "gemini-2.5-flash-lite"
      case Flash => "gemini-2.5-flash"
      case Pro => "gemini-2.5-pro"
    }
  }

  /** `{ googleSearch: {} }`, the search-grounding tool. */
  datatype Tool = GoogleSearch

  /** A request's `config`: its tool list and an optional thinking budget.
      `Config([], None)` is the empty object, which the API treats the same
      as no config at all. */
  datatype Config = Config(tools: seq<Tool>, thinkingBudget: Option<int>)

  const EmptyConfig := Config([], None)

  /** A content part: inline binary data (its base64 `data` may be
      `undefined`) or a text part. */
  datatype Part = InlineData(data: Option<string>, mimeType: string) | TextPart(text: string)

  /** A request's `contents`: a prompt string or a list of parts. */
  datatype Contents = PromptText(prompt: Prompt) | PartList(parts: seq<Part>)

  datatype Request = Request(model: ModelId, contents: Contents, config: Config)

  /** What the remote call does: resolve with the response's text, or throw
      an error whose cause only reaches the console. */
  datatype Reply = Replied(text: string) | Failed(cause: string)

  const ThinkingBudget: int := 32768

  /** The chat config: a thinking budget of 32768 exactly when thinking mode
      is on and the Pro model is chosen, and the empty config otherwise. */
  function ChatConfig(model: ModelId, useThinkingMode: bool): (c: Config)
    ensures c.tools == []
    ensures c.thinkingBudget.Some? <==> useThinkingMode && model == Pro
    ensures c.thinkingBudget.Some? ==> c.thinkingBudget.value == ThinkingBudget
    ensures c.thinkingBudget.None? ==> c == EmptyConfig
  {
    if useThinkingMode && model == Pro then Config([], Some(ThinkingBudget)) else EmptyConfig
  }

  /** The chat request: the user's text verbatim, to the chosen model. */
  function ChatRequest(prompt: string, model: ModelId, useThinkingMode: bool): (r: Request)
    ensures r.model == model && r.contents == PromptText(Verbatim(prompt))
    ensures r.config == ChatConfig(model, useThinkingMode)
  {
    Request(model, PromptText(Verbatim(prompt)), ChatConfig(model, useThinkingMode))
  }

  /** Number of text parts in a part list. */
  function TextPartCount(parts: seq<Part>): nat {
    if parts == [] then 0 else (if parts[0].TextPart? then 1 else 0) + TextPartCount(parts[1..])
  }

  lemma {:induction false} TextPartCountAppend(a: seq<Part>, b: seq<Part>)
    ensures TextPartCount(a + b) == TextPartCount(a) + TextPartCount(b)
  {
    if a != [] {
      assert (a + b)[0] == a[0];
      assert (a + b)[1..] == a[1..] + b;
      TextPartCountAppend(a[1..], b);
    } else {
      assert a + b == b;
    }
  }

  /** The image request's parts: the image parts in their order, then one
      text part holding the prompt. */
  function ImageContents(imageParts: seq<Part>, prompt: string): (parts: seq<Part>)
    ensures |parts| == |imageParts| + 1
    ensures parts[..|imageParts|] == imageParts
    ensures parts[|imageParts|] == TextPart(prompt)
    ensures TextPartCount(parts) == TextPartCount(imageParts) + 1
  {
    TextPartCountAppend(imageParts, [TextPart(prompt)]);
    imageParts + [TextPart(prompt)]
  }

  /** The image request always goes to the Flash model, without config. */
  function ImageRequest(imageParts: seq<Part>, prompt: string): (r: Request)
    ensures r.model == Flash && r.config == EmptyConfig
    ensures r.contents == PartList(ImageContents(imageParts, prompt))
  {
    Request(Flash, PartList(ImageContents(imageParts, prompt)), EmptyConfig)
  }

  /** The quiz instructions before the opening `---` line. */
  const QuizIntroduction: string :=
    "You are an expert quiz solver. Analyze the following text which contains one or more multiple-choice questions. For each question, identify the correct answer using your knowledge and up-to-date information from Google Search.\n"
    + "\n"
    + "Respond ONLY with a JSON object in the following format:\n"
    + "{\n"
    + "  \"quizResults\": [\n"
    + "    {\n"
    + "      \"question\": \"The text of the first question\",\n"
    + "      \"options\": [\"Option A\", \"Option B\", \"Option C\", \"Option D\"],\n"
    + "      \"correctAnswer\": \"The text of the correct option\",\n"
    + "      \"explanation\": \"A brief explanation of why this is the correct answer.\"\n"
    + "    }\n"
    + "  ]\n"
    + "}\n"
    + "\n"
    + "Do not include any introductory text, concluding text, or markdown formatting like ```json. Your entire response must be a single, valid JSON object.\n"
    + "\n"
    + "Here is the quiz text:\n"

  /** The quiz instructions up to and including the opening `---` line;
      the quiz text follows. */
  const QuizPreamble: string := QuizIntroduction + QuizRule

  /** The line that closes the quiz text, and the one that opens it. */
  const QuizTrailer: string := "\n" + QuizRule
  const QuizRule: string := "---\n"

  /** The video instructions before the quoted description, and after it. */
  const VideoPreamble: string :=
    "You are a video analysis expert. Based on the following title and description of a video, provide a detailed analysis of its potential content, themes, and key information.\n"
    + "\n"
    + "Video Description: \""
  const VideoTrailer: string :=
    "\"\n"
    + "\n"
    + "Provide your analysis in well-structured markdown."

  /** A prompt: the user's text as it is, or one of the two instruction
      templates with the user's text filled in. `Text()` is the string sent. */
  datatype Prompt = Verbatim(text: string) | QuizInstructions(quizText: string) | VideoInstructions(description: string) {
    function Text(): string {
      match this
      case Verbatim(text) => text
      case QuizInstructions(quizText) => QuizPreamble + quizText + QuizTrailer
      case VideoInstructions(description) => VideoPreamble + description + VideoTrailer
    }
  }

  /** A text placed between a fixed head and tail can be read back from the
      result by slicing at the head's and the text's lengths. */
  lemma {:induction false} EmbedBetween(head: string, x: string, tail: string)
    ensures |head + x + tail| == |head| + |x| + |tail|
    ensures (head + x + tail)[..|head|] == head
    ensures (head + x + tail)[|head|..|head| + |x|] == x
    ensures (head + x + tail)[|head| + |x|..] == tail
  {
  }

  /** The quiz prompt holds the pasted text verbatim, right after a `---`
      line and right before another. */
  lemma QuizPromptEmbedsText(quizText: string)
    ensures QuizInstructions(quizText).Text() == QuizPreamble + quizText + QuizTrailer
    ensures QuizPreamble == QuizIntroduction + "---\n" && QuizTrailer == "\n---\n"
    ensures var prompt := QuizInstructions(quizText).Text();
      prompt[|QuizPreamble|..|QuizPreamble| + |quizText|] == quizText
  {
    EmbedBetween(QuizPreamble, quizText, QuizTrailer);
  }

  /** The video prompt holds the description verbatim between double quotes. */
  lemma VideoPromptEmbedsText(description: string)
    ensures VideoInstructions(description).Text() == VideoPreamble + description + VideoTrailer
    ensures VideoPreamble[|VideoPreamble| - 1] == '"' && VideoTrailer[0] == '"'
    ensures var prompt := VideoInstructions(description).Text();
      prompt[|VideoPreamble|..|VideoPreamble| + |description|] == description
  {
    EmbedBetween(VideoPreamble, description, VideoTrailer);
  }

  /** The quiz request always goes to the Flash model with search grounding. */
  function QuizRequest(quizText: string): (r: Request)
    ensures r.model == Flash && r.model.Name() == "gemini-2.5-flash"
    ensures r.config == Config([GoogleSearch], None)
    ensures r.contents == PromptText(QuizInstructions(quizText))
  {
    Request(Flash, PromptText(QuizInstructions(quizText)), Config([GoogleSearch], None))
  }

  /** The video request always goes to the Pro model, without config. */
  function VideoRequest(description: string): (r: Request)
    ensures r.model == Pro && r.model.Name() == "gemini-2.5-pro"
    ensures r.config == EmptyConfig
    ensures r.contents == PromptText(VideoInstructions(description))
  {
    Request(Pro, PromptText(VideoInstructions(description)), EmptyConfig)
  }

  // ---------------------------------------------------------------------
  // Fenced JSON extraction: /```json\n([\s\S]*?)\n```/

  const Opener: string := "```json\n"
  const Closer: string := "\n```"

  /** The pattern matches with its group spanning `s[i + |Opener|..k]`:
      the opener at `i`, the closer at `k`, anything in between. */
  ghost predicate MatchAt(s: string, i: nat, k: nat) {
    OccursAt(s, Opener, i) && i + |Opener| <= k && OccursAt(s, Closer, k)
  }

  /** The match JavaScript's `match` reports: the leftmost start, and for it
      the shortest group, because `*?` is lazy. */
  ghost predicate LeftmostLazyMatch(s: string, i: nat, k: nat) {
    MatchAt(s, i, k)
    && (forall i0, k0 :: MatchAt(s, i0, k0) ==> i <= i0)
    && (forall k0 :: i + |Opener| <= k0 < k ==> !OccursAt(s, Closer, k0))
  }

  /** At most one match is the leftmost lazy one. */
  lemma LeftmostLazyMatchUnique(s: string, i: nat, k: nat, i2: nat, k2: nat)
    requires LeftmostLazyMatch(s, i, k) && LeftmostLazyMatch(s, i2, k2)
    ensures i == i2 && k == k2
  {
  }

  /** Where the regular expression matches: the first opener, and the first
      closer at or after the end of that opener. */
  function FenceMatch(s: string): (m: Option<(nat, nat)>)
    ensures m.Some? ==> LeftmostLazyMatch(s, m.value.0, m.value.1)
    ensures m.None? <==> forall i, k :: !MatchAt(s, i, k)
  {
    match IndexOfFrom(s, Opener, 0)
    case None => None
    case Some(i) =>
      match IndexOfFrom(s, Closer, i + |Opener|)
      case None => NoMatchWithoutCloser(s, i); None
      case Some(k) => Some((i, k))
  }

  /** When no closer follows the first opener, no later opener can have one
      either, so the expression does not match at all. */
  lemma NoMatchWithoutCloser(s: string, i: nat)
    requires forall j :: 0 <= j < i ==> !OccursAt(s, Opener, j)
    requires forall k :: i + |Opener| <= k ==> !OccursAt(s, Closer, k)
    ensures forall i0, k0 :: !MatchAt(s, i0, k0)
  {
    forall i0: nat, k0: nat
      ensures !MatchAt(s, i0, k0)
    {
      if i <= i0 && i0 + |Opener| <= k0 {
        assert !OccursAt(s, Closer, k0);
      }
    }
  }

  /** The captured group `jsonMatch[1]`, when the expression matches. It is
      a piece of `s` at least 12 characters shorter than `s`, and the closer
      occurs nowhere inside it. */
  function FenceCapture(s: string): (c: Option<string>)
    ensures c.None? <==> forall i, k :: !MatchAt(s, i, k)
    ensures c.Some? ==> exists i: nat, k: nat :: LeftmostLazyMatch(s, i, k) && c.value == s[i + |Opener|..k]
    ensures c.Some? ==> |c.value| + |Opener| + |Closer| <= |s|
    ensures c.Some? ==> forall j :: !OccursAt(c.value, Closer, j)
  {
    match FenceMatch(s)
    case None => None
    case Some((i, k)) =>
      var c := s[i + |Opener|..k];
      forall j: nat | OccursAt(c, Closer, j)
        ensures false
      {
        assert s[i + |Opener| + j..i + |Opener| + j + |Closer|] == c[j..j + |Closer|];
        assert OccursAt(s, Closer, i + |Opener| + j);
      }
      Some(c)
  }

  /** The text handed to `JSON.parse`: the captured group, or the whole
      string when the expression does not match. */
  function Candidate(s: string): string {
    match FenceCapture(s)
    case Some(c) => c
    case None => s
  }

  /** With a match, the candidate is exactly the text from just after the
      leftmost opener up to the first closer at or after that point. */
  lemma CandidateOfMatch(s: string, i: nat, k: nat)
    requires LeftmostLazyMatch(s, i, k)
    ensures Candidate(s) == s[i + |Opener|..k]
  {
    var i2: nat, k2: nat :| LeftmostLazyMatch(s, i2, k2) && FenceCapture(s).value == s[i2 + |Opener|..k2];
    LeftmostLazyMatchUnique(s, i, k, i2, k2);
  }

  /** Without a match, the candidate is the input unchanged. */
  lemma CandidateWithoutMatch(s: string)
    requires forall i, k :: !MatchAt(s, i, k)
    ensures Candidate(s) == s
  {
  }

  /** A text that is exactly one fenced block gives back the block's body,
      as long as the body does not itself contain the closer. The body may be
      empty. */
  lemma FencedBlockRoundTrip(body: string)
    requires forall j :: 0 <= j < |body| ==> !OccursAt(body + Closer, Closer, j)
    ensures Candidate(Opener + body + Closer) == body
  {
    var s := Opener + body + Closer;
    var k := |Opener| + |body|;
    assert s[0..|Opener|] == Opener;
    assert s[k..k + |Closer|] == Closer;
    forall k0 | |Opener| <= k0 < k
      ensures !OccursAt(s, Closer, k0)
    {
      var j := k0 - |Opener|;
      assert !OccursAt(body + Closer, Closer, j);
      if k0 + |Closer| <= |s| {
        assert s[k0..k0 + |Closer|] == (body + Closer)[j..j + |Closer|];
      }
    }
    assert s[|Opener|..k] == body;
    CandidateOfMatch(s, 0, k);
  }

  /** The group may be empty: a block with nothing between its fences
      yields the empty candidate. */
  lemma EmptyBlockGivesEmptyCandidate()
    ensures Candidate("```json\n\n```") == ""
  {
    FencedBlockRoundTrip("");
    assert Opener + "" + Closer == "```json\n\n```";
  }

  /** An opener followed directly by three backticks is no match: the closer
      needs its own line feed. */
  lemma OpenerAloneIsNoMatch()
    ensures Candidate("```json\n```") == "```json\n```"
  {
    var s := "```json\n```";
    forall i: nat, k: nat
      ensures !MatchAt(s, i, k)
    {
    }
  }

  /** `parseJsonFromMarkdown`: parse the candidate, and give `null` instead
      of the exception when parsing fails. */
  function ParseJsonFromMarkdown<T>(parse: string -> Option<T>, markdownString: string): (r: Option<T>)
    ensures FenceCapture(markdownString).Some? ==> r == parse(FenceCapture(markdownString).value)
    ensures FenceCapture(markdownString).None? ==> r == parse(markdownString)
  {
    parse(Candidate(markdownString))
  }

  /** A reply that is one fenced block parses as the block's body. */
  lemma ParseFenced<T>(parse: string -> Option<T>, body: string)
    requires forall j :: 0 <= j < |body| ==> !OccursAt(body + Closer, Closer, j)
    ensures ParseJsonFromMarkdown(parse, Opener + body + Closer) == parse(body)
  {
    FencedBlockRoundTrip(body);
  }

  /** A reply with no opener at all is parsed whole, so unparsable plain
      text gives `null`. */
  lemma ParsePlain<T>(parse: string -> Option<T>, plain: string)
    requires forall i :: !OccursAt(plain, Opener, i)
    ensures ParseJsonFromMarkdown(parse, plain) == parse(plain)
  {
    CandidateWithoutMatch(plain);
  }

  // ---------------------------------------------------------------------
  // The four service operations

  const QuizFailure: string := "Failed to get a response from the AI. Please check your API key and network connection."
  const ChatFailure: string := "Failed to get a chat response from the AI."
  const ImageFailure: string := "Failed to analyze the image."
  const VideoFailure: string := "Failed to analyze the video description."

  /** What `JSON.parse` gives the quiz screen, as far as the screen looks at
      it: a falsy value (`null`, `false`, `0`, `""`), or a truthy one whose
      `quizResults` property is a result list or is absent or falsy. */
  datatype ParsedQuiz = FalsyValue | TruthyValue(quizResults: Option<seq<QuizResult>>)

  /** Send one request; a failure becomes the operation's fixed message and
      its cause is dropped. */
  function Invoke(remote: Request -> Reply, request: Request, failure: string): (r: Result<string>)
    ensures r.Ok? <==> remote(request).Replied?
    ensures r.Ok? ==> r.value == remote(request).text
    ensures r.Err? ==> r.message == failure
  {
    match remote(request)
    case Replied(text) => Ok(text)
    case Failed(_) => Err(failure)
  }

  /** `solveQuizWithGrounding`: a reply is run through
      `parseJsonFromMarkdown`, which never throws; a failure becomes the
      fixed quiz message. */
  function SolveQuizWithGrounding(remote: Request -> Reply, parse: string -> Option<ParsedQuiz>, quizText: string)
    : (r: Result<Option<ParsedQuiz>>)
    ensures remote(QuizRequest(quizText)).Replied? ==>
      r == Ok(ParseJsonFromMarkdown(parse, remote(QuizRequest(quizText)).text))
    ensures remote(QuizRequest(quizText)).Failed? ==> r == Err(QuizFailure)
  {
    match Invoke(remote, QuizRequest(quizText), QuizFailure)
    case Ok(text) => Ok(ParseJsonFromMarkdown(parse, text))
    case Err(message) => Err(message)
  }

  /** `generateChatResponse`: the reply's text, or the fixed chat message. */
  function GenerateChatResponse(remote: Request -> Reply, prompt: string, model: ModelId, useThinkingMode: bool)
    : (r: Result<string>)
    ensures var reply := remote(ChatRequest(prompt, model, useThinkingMode));
      (reply.Replied? ==> r == Ok(reply.text)) && (reply.Failed? ==> r == Err(ChatFailure))
  {
    Invoke(remote, ChatRequest(prompt, model, useThinkingMode), ChatFailure)
  }

  /** `analyzeImage`: the reply's text, or the fixed image message. */
  function AnalyzeImage(remote: Request -> Reply, imageParts: seq<Part>, prompt: string): (r: Result<string>)
    ensures var reply := remote(ImageRequest(imageParts, prompt));
      (reply.Replied? ==> r == Ok(reply.text)) && (reply.Failed? ==> r == Err(ImageFailure))
  {
    Invoke(remote, ImageRequest(imageParts, prompt), ImageFailure)
  }

  /** `analyzeVideoDescription`: the reply's text, or the fixed video
      message. */
  function AnalyzeVideoDescription(remote: Request -> Reply, description: string): (r: Result<string>)
    ensures var reply := remote(VideoRequest(description));
      (reply.Replied? ==> r == Ok(reply.text)) && (reply.Failed? ==> r == Err(VideoFailure))
  {
    Invoke(remote, VideoRequest(description), VideoFailure)
  }
}
