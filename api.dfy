/** The generation pipeline of src/lib/api.ts: prompt validation, prompt
    composition, image-URL extraction from a loosely shaped response, and
    the mapping from what the transport produced to a GenerationResponse.
    The network call itself is a function parameter. */
module Api {
  import opened Options
  import opened JsStrings
  import opened JsonValues
  import opened ImageTypes
  import ImageUrlPattern

  const DefaultModel := "replicate/black-forest-labs/flux-1.1-pro"

  // ---------------------------------------------------------------------
  // validatePrompt

  const MaxPromptLength := 1000
  const EmptyPromptError := "Prompt cannot be empty"
  const TooLongError := "Prompt must be less than 1000 characters"
  const InappropriateError := "Prompt contains inappropriate content"

  /** The alternatives of the three patterns `/\b(...)\b/i`, one row each. */
  const InappropriatePatterns: seq<seq<string>> := [
    ["nude", "naked", "nsfw", "explicit", "sexual"],
    ["violence", "blood", "gore", "death", "kill"],
    ["hate", "racism", "discrimination"]
  ]

  datatype Validation = Validation(valid: bool, error: Option<string>)

  /** The characters `\b` counts as word characters without the `u` flag. */
  predicate IsWordChar(c: char) {
    ('a' <= c <= 'z') || ('A' <= c <= 'Z') || ('0' <= c <= '9') || c == '_'
  }

  /** `\bw\b` matches at position i of p, letters compared case-insensitively. */
  predicate WordAt(p: string, i: nat, w: string) {
    && i + |w| <= |p|
    && EqualsIgnoreCase(p[i..i + |w|], w)
    && (i == 0 || !IsWordChar(p[i - 1]))
    && (i + |w| == |p| || !IsWordChar(p[i + |w|]))
  }

  /** One of `words` occurs in p as a whole word, in any case. */
  ghost predicate HasWholeWord(p: string, words: seq<string>) {
    exists k: nat, i: nat :: k < |words| && WordAt(p, i, words[k])
  }

  /** Some keyword of some pattern occurs in p as a whole word, in any case. */
  ghost predicate ContainsInappropriateWord(p: string) {
    exists g: nat :: g < |InappropriatePatterns| && HasWholeWord(p, InappropriatePatterns[g])
  }

  /** One of `words` matches as a whole word at position i. */
  function AnyWordAt(p: string, i: nat, words: seq<string>): (r: bool)
    ensures r <==> exists k: nat :: k < |words| && WordAt(p, i, words[k])
  {
    if words == [] then false
    else if WordAt(p, i, words[0]) then true
    else
      var rest := AnyWordAt(p, i, words[1..]);
      assert rest ==> exists k: nat :: k < |words| && WordAt(p, i, words[k]) by {
        if rest {
          var k: nat :| k < |words[1..]| && WordAt(p, i, words[1..][k]);
          assert words[1..][k] == words[k + 1];
        }
      }
      assert (exists k: nat :: k < |words| && WordAt(p, i, words[k])) ==> rest by {
        if exists k: nat :: k < |words| && WordAt(p, i, words[k]) {
          var k: nat :| k < |words| && WordAt(p, i, words[k]);
          assert k != 0 && words[1..][k - 1] == words[k];
        }
      }
      rest
  }

  /** `/\b(w1|...|wn)\b/i.test(p)`, scanning start positions from i on. */
  function PatternTestFrom(p: string, words: seq<string>, i: nat): (r: bool)
    ensures r <==> exists k: nat, j: nat :: i <= j && k < |words| && WordAt(p, j, words[k])
    decreases |p| + 1 - i
  {
    if i > |p| then false
    else AnyWordAt(p, i, words) || PatternTestFrom(p, words, i + 1)
  }

  function PatternTest(p: string, words: seq<string>): (r: bool)
    ensures r <==> HasWholeWord(p, words)
  {
    PatternTestFrom(p, words, 0)
  }

  /** What validatePrompt decides, stated declaratively: a blank prompt is
      rejected first, then one longer than 1000 UTF-16 units, then one
      holding a listed word; anything else is valid. */
  ghost function Verdict(prompt: string): Validation {
    if AllWhitespace(prompt) then Validation(false, Some(EmptyPromptError))
    else if Utf16Length(prompt) > MaxPromptLength then Validation(false, Some(TooLongError))
    else if ContainsInappropriateWord(prompt) then Validation(false, Some(InappropriateError))
    else Validation(true, None)
  }

  /** The loop of validatePrompt over the three patterns, stopping at the
      first that matches. */
  method MatchesAnyPattern(prompt: string) returns (found: bool)
    ensures found <==> ContainsInappropriateWord(prompt)
  {
    for g := 0 to |InappropriatePatterns|
      invariant forall g': nat :: g' < g ==> !HasWholeWord(prompt, InappropriatePatterns[g'])
    {
      if PatternTest(prompt, InappropriatePatterns[g]) {
        return true;
      }
    }
    return false;
  }

  /** validatePrompt: the empty check first, then the length of the
      untrimmed text in UTF-16 units, then the patterns. */
  method ValidatePrompt(prompt: string) returns (r: Validation)
    ensures r == Verdict(prompt)
  {
    if |Trim(prompt)| == 0 {
      return Validation(false, Some(EmptyPromptError));
    }
    if Utf16Length(prompt) > MaxPromptLength {
      return Validation(false, Some(TooLongError));
    }
    var flagged := MatchesAnyPattern(prompt);
    if flagged {
      return Validation(false, Some(InappropriateError));
    }
    return Validation(true, None);
  }

  // ---------------------------------------------------------------------
  // buildPrompt

  /** The style map of buildPrompt. */
  function StyleModifier(style: string): (r: Option<string>)
    ensures r.Some? ==> r.value != ""
  {
    match style
    case "photorealistic" => Some("photorealistic, highly detailed, professional photography")
    case "artistic" => Some("artistic, creative, expressive, unique style")
    case "cinematic" => Some("cinematic lighting, dramatic, movie-like composition")
    case "fantasy" => Some("fantasy art, magical, ethereal, mystical atmosphere")
    case "abstract" => Some("abstract art, geometric shapes, creative interpretation")
    case "vintage" => Some("vintage style, retro aesthetic, nostalgic atmosphere")
    case _ => None
  }

  /** The aspect-ratio hints of buildPrompt; the square ratio has none. */
  function RatioHint(a: AspectRatio): (r: Option<string>)
    ensures r.Some? <==> a != Square
    ensures r.Some? ==> r.value != ""
  {
    match a
    case Square => None
    case Wide16x9 => Some("wide landscape format")
    case Tall9x16 => Some("tall portrait format")
    case Landscape3x2 => Some("landscape format")
    case Portrait2x3 => Some("portrait format")
    case Standard4x3 => Some("standard format")
    case Vertical3x4 => Some("vertical format")
  }

  const HighQualityPhrase := "high quality, detailed, professional"
  const UltraQualityPhrase := "ultra high definition, masterpiece, award winning"

  function StylePhrases(style: Option<string>): seq<string> {
    if style.Some? && StyleModifier(style.value).Some? then [StyleModifier(style.value).value] else []
  }

  function QualityPhrases(quality: Option<ImageQuality>): seq<string> {
    match quality
    case Some(HighQuality) => [HighQualityPhrase]
    case Some(UltraQuality) => [HighQualityPhrase, UltraQualityPhrase]
    case _ => []
  }

  function RatioPhrases(ratio: Option<AspectRatio>): seq<string> {
    if ratio.Some? && RatioHint(ratio.value).Some? then [RatioHint(ratio.value).value] else []
  }

  /** The modifier phrases a request asks for, in the order they are
      appended: style, quality, aspect ratio. */
  function ModifierPhrases(request: GenerationRequest): seq<string> {
    StylePhrases(request.style) + QualityPhrases(request.quality) + RatioPhrases(request.aspectRatio)
  }

  /** Each phrase preceded by ", ". */
  function CommaJoined(phrases: seq<string>): string {
    if phrases == [] then "" else ", " + phrases[0] + CommaJoined(phrases[1..])
  }

  /** The composed prompt: the user's prompt followed by its modifiers. */
  function ComposedPrompt(request: GenerationRequest): string {
    request.prompt + CommaJoined(ModifierPhrases(request))
  }

  lemma {:induction false} CommaJoinedAppend(a: seq<string>, b: seq<string>)
    ensures CommaJoined(a + b) == CommaJoined(a) + CommaJoined(b)
  {
    if a != [] {
      assert (a + b)[1..] == a[1..] + b;
      CommaJoinedAppend(a[1..], b);
    } else {
      assert a + b == b;
    }
  }

  /** One appended phrase is the comma-joined sequence of that phrase. */
  lemma AppendOne(base: string, x: string)
    ensures base + ", " + x == base + CommaJoined([x])
  {
    assert [x][1..] == [];
  }

  lemma AppendTwo(base: string, x: string, y: string)
    ensures base + ", " + x + ", " + y == base + CommaJoined([x, y])
  {
    assert [x, y][1..] == [y];
    AppendOne(base + ", " + x, y);
  }

  /** An empty style and the style "none" have no modifier of their own. */
  lemma NoModifierForEmptyOrNone()
    ensures StyleModifier("") == None && StyleModifier("none") == None
  {}

  /** The composed prompt, stage by stage. */
  lemma ComposedPromptInParts(request: GenerationRequest)
    ensures ComposedPrompt(request) == request.prompt + CommaJoined(StylePhrases(request.style))
      + CommaJoined(QualityPhrases(request.quality)) + CommaJoined(RatioPhrases(request.aspectRatio))
  {
    var s, q, r := StylePhrases(request.style), QualityPhrases(request.quality), RatioPhrases(request.aspectRatio);
    CommaJoinedAppend(s + q, r);
    CommaJoinedAppend(s, q);
    AppendAssociates(request.prompt, CommaJoined(s) + CommaJoined(q), CommaJoined(r));
    AppendAssociates(request.prompt, CommaJoined(s), CommaJoined(q));
  }

  lemma AppendAssociates(a: string, b: string, c: string)
    ensures a + (b + c) == a + b + c
  {}

  /** buildPrompt: appends the modifiers to a local variable one at a time. */
  method BuildPrompt(request: GenerationRequest) returns (prompt: string)
    ensures prompt == ComposedPrompt(request)
  {
    prompt := request.prompt;
    if request.style.Some? && request.style.value != "" && request.style.value != "none" {
      var modifier := StyleModifier(request.style.value);
      if modifier.Some? && modifier.value != "" {
        AppendOne(prompt, modifier.value);
        prompt := prompt + ", " + modifier.value;
      }
    } else {
      NoModifierForEmptyOrNone();
    }
    ghost var styled := prompt;
    assert styled == request.prompt + CommaJoined(StylePhrases(request.style));

    if request.quality == Some(HighQuality) || request.quality == Some(UltraQuality) {
      prompt := prompt + ", " + HighQualityPhrase;
    }
    if request.quality == Some(UltraQuality) {
      prompt := prompt + ", " + UltraQualityPhrase;
    }
    ghost var qualified := prompt;
    assert qualified == styled + CommaJoined(QualityPhrases(request.quality)) by {
      if request.quality == Some(UltraQuality) {
        AppendTwo(styled, HighQualityPhrase, UltraQualityPhrase);
      } else if request.quality == Some(HighQuality) {
        AppendOne(styled, HighQualityPhrase);
      }
    }

    if request.aspectRatio.Some? && request.aspectRatio.value != Square {
      var hint := RatioHint(request.aspectRatio.value);
      if hint.Some? && hint.value != "" {
        AppendOne(prompt, hint.value);
        prompt := prompt + ", " + hint.value;
      }
    }
    assert prompt == qualified + CommaJoined(RatioPhrases(request.aspectRatio));
    ComposedPromptInParts(request);
  }

  /** No modifier phrase is appended exactly when the style is absent,
      "none" or unknown, the quality is absent or standard, and the aspect
      ratio is absent or square. */
  predicate AddsNoModifier(request: GenerationRequest) {
    && (request.style.None? || StyleModifier(request.style.value).None?)
    && (request.quality.None? || request.quality == Some(StandardQuality))
    && (request.aspectRatio.None? || request.aspectRatio == Some(Square))
  }

  lemma {:induction false} CommaJoinedEmpty(phrases: seq<string>)
    ensures CommaJoined(phrases) == "" <==> phrases == []
  {
    if phrases != [] {
      assert CommaJoined(phrases)[0] == ',';
    }
  }

  /** The composed prompt starts with the user's prompt, and equals it
      exactly when the request adds no modifier. */
  lemma ComposedPromptKeepsPrompt(request: GenerationRequest)
    ensures StartsWith(ComposedPrompt(request), request.prompt)
    ensures ComposedPrompt(request) == request.prompt <==> AddsNoModifier(request)
  {
    var tail := CommaJoined(ModifierPhrases(request));
    assert ComposedPrompt(request)[..|request.prompt|] == request.prompt;
    CommaJoinedEmpty(ModifierPhrases(request));
    if ComposedPrompt(request) == request.prompt {
      assert |tail| == 0;
    }
  }

  /** The order of the modifiers, on a request that asks for all of them:
      style, the two quality phrases, then the ratio hint. */
  lemma ComposedPromptExample()
    ensures ComposedPrompt(GenerationRequest("cat", Some("cinematic"), Some(Wide16x9), Some(UltraQuality)))
      == "cat" + ", " + "cinematic lighting, dramatic, movie-like composition"
         + ", " + "high quality, detailed, professional"
         + ", " + "ultra high definition, masterpiece, award winning"
         + ", " + "wide landscape format"
  {
    var request := GenerationRequest("cat", Some("cinematic"), Some(Wide16x9), Some(UltraQuality));
    var style, hint := StyleModifier("cinematic").value, RatioHint(Wide16x9).value;
    ComposedPromptInParts(request);
    assert StylePhrases(request.style) == [style];
    assert QualityPhrases(request.quality) == [HighQualityPhrase, UltraQualityPhrase];
    assert RatioPhrases(request.aspectRatio) == [hint];
    AppendOne("cat", style);
    AppendTwo("cat" + ", " + style, HighQualityPhrase, UltraQualityPhrase);
    AppendOne("cat" + ", " + style + ", " + HighQualityPhrase + ", " + UltraQualityPhrase, hint);
  }

  /** A request with the style "none", standard quality and a square image
      leaves the prompt as it is. */
  lemma ComposedPromptPlainExample()
    ensures ComposedPrompt(GenerationRequest("cat", Some("none"), Some(Square), Some(StandardQuality))) == "cat"
  {
    ComposedPromptKeepsPrompt(GenerationRequest("cat", Some("none"), Some(Square), Some(StandardQuality)));
  }

  // ---------------------------------------------------------------------
  // extractImageUrl

  /** What extractImageUrl makes of a response body: the value it returns,
      null, or the TypeError `content.match(...)` raises when the content
      is truthy but not a string. */
  datatype Extraction = Found(url: Json) | NotFound | ContentNotMatchable

  /** `response?.choices?.[0]?.message?.content` */
  function ChatContent(response: Json): Option<Json> {
    Field(Field(Index0(Field(Some(response), "choices")), "message"), "content")
  }

  /** `response?.data?.[0]?.url` */
  function DataUrl(response: Json): Option<Json> {
    Field(Index0(Field(Some(response), "data")), "url")
  }

  /** `response?.images?.[0]` */
  function FirstImage(response: Json): Option<Json> {
    Index0(Field(Some(response), "images"))
  }

  /** A string body that starts with "http", compared case-sensitively. */
  predicate IsUrlString(response: Json) {
    response.JString? && StartsWith(response.s, "http")
  }

  /** extractImageUrl: the four strategies in turn; each returns only a
      truthy value, and content without a URL falls through. */
  function ExtractImageUrl(response: Json): (r: Extraction)
    ensures r.Found? ==> Truthy(Some(r.url))
  {
    if IsUrlString(response) then Found(response)
    else if Truthy(ChatContent(response)) && !ChatContent(response).value.JString? then ContentNotMatchable
    else if Truthy(ChatContent(response)) && ImageUrlPattern.FirstImageUrl(ChatContent(response).value.s).Some? then
      Found(JString(ImageUrlPattern.FirstImageUrl(ChatContent(response).value.s).value))
    else if Truthy(DataUrl(response)) then Found(DataUrl(response).value)
    else if Truthy(FirstImage(response)) then Found(FirstImage(response).value)
    else NotFound
  }

  /** The outcome of one strategy taken on its own. */
  datatype Probe = Hit(value: Json) | Miss | Throws

  function RawStringProbe(response: Json): Probe {
    if IsUrlString(response) then Hit(response) else Miss
  }

  function ContentProbe(response: Json): Probe {
    var content := ChatContent(response);
    if !Truthy(content) then Miss
    else if !content.value.JString? then Throws
    else match ImageUrlPattern.FirstImageUrl(content.value.s)
      case Some(url) => Hit(JString(url))
      case None => Miss
  }

  function TruthyProbe(v: Option<Json>): Probe {
    if Truthy(v) then Hit(v.value) else Miss
  }

  /** The strategies in priority order. */
  function Probes(response: Json): seq<Probe> {
    [RawStringProbe(response), ContentProbe(response), TruthyProbe(DataUrl(response)), TruthyProbe(FirstImage(response))]
  }

  /** The first strategy that does not miss decides. */
  function FirstHit(probes: seq<Probe>): Extraction {
    if probes == [] then NotFound
    else match probes[0]
      case Hit(v) => Found(v)
      case Throws => ContentNotMatchable
      case Miss => FirstHit(probes[1..])
  }

  /** The first strategy that does not miss is the one that decides. */
  lemma {:induction false} FirstHitIsFirstNonMiss(probes: seq<Probe>, k: nat)
    requires k < |probes| && !probes[k].Miss?
    requires forall j :: 0 <= j < k ==> probes[j].Miss?
    ensures FirstHit(probes) == if probes[k].Hit? then Found(probes[k].value) else ContentNotMatchable
  {
    if k > 0 {
      assert probes[1..][k - 1] == probes[k];
      FirstHitIsFirstNonMiss(probes[1..], k - 1);
    }
  }

  /** Every strategy misses exactly when the result is null. */
  lemma {:induction false} FirstHitAllMiss(probes: seq<Probe>)
    ensures FirstHit(probes) == NotFound <==> forall j :: 0 <= j < |probes| ==> probes[j].Miss?
  {
    if probes != [] {
      FirstHitAllMiss(probes[1..]);
      assert forall j :: 1 <= j < |probes| ==> probes[j] == probes[1..][j - 1];
    }
  }

  /** extractImageUrl is the first-match-wins chain over its strategies. */
  lemma ExtractImageUrlIsFirstHit(response: Json)
    ensures ExtractImageUrl(response) == FirstHit(Probes(response))
  {
    var ps := Probes(response);
    if !ps[0].Miss? {
      FirstHitIsFirstNonMiss(ps, 0);
    } else if !ps[1].Miss? {
      FirstHitIsFirstNonMiss(ps, 1);
    } else if !ps[2].Miss? {
      FirstHitIsFirstNonMiss(ps, 2);
    } else if !ps[3].Miss? {
      FirstHitIsFirstNonMiss(ps, 3);
    } else {
      FirstHitAllMiss(ps);
    }
  }

  /** Content that holds no image URL is no failure: the later strategies
      decide. */
  lemma ContentWithoutUrlFallsThrough(response: Json)
    requires !IsUrlString(response)
    requires ChatContent(response).Some? && ChatContent(response).value.JString?
    requires ImageUrlPattern.FirstImageUrl(ChatContent(response).value.s).None?
    ensures ExtractImageUrl(response) == FirstHit(Probes(response)[2..])
  {
    var ps := Probes(response);
    ExtractImageUrlIsFirstHit(response);
    assert ps[1..][1..] == ps[2..];
  }

  /** A URL under data[0].url is returned when there is no chat content. */
  lemma ExtractFromDataExample()
    ensures ExtractImageUrl(JObject(map["data" := JArray([JObject(map["url" := JString("https://x.io/1")])])]))
      == Found(JString("https://x.io/1"))
  {
  }

  /** Truthy content that is not a string makes `content.match` throw. */
  lemma ExtractFromNumberContentExample()
    ensures ExtractImageUrl(JObject(map["choices" := JArray([JObject(map["message" :=
      JObject(map["content" := JNumber(1.0)])])])]))
      == ContentNotMatchable
  {
  }

  /** A string body must start with "http" in lower case to be taken as is;
      an object without any of the four fields gives null. */
  lemma ExtractNothingExample()
    ensures ExtractImageUrl(JString("HTTP://x.io/a.png")) == NotFound
    ensures ExtractImageUrl(JObject(map["images" := JArray([])])) == NotFound
  {
    var upper := "HTTP://x.io/a.png";
    assert upper[..4][0] == 'H' != "http"[0];
  }

  // ---------------------------------------------------------------------
  // generateImage

  /** A value a JavaScript `throw` or rejection carries: an instance of
      Error with its name and message, or anything else. */
  datatype Thrown = JsError(name: string, message: string) | NonErrorValue

  /** What `await response.json()` produces. */
  datatype BodyOutcome = BodyParsed(data: Json) | BodyRejected(reason: Thrown)

  /** What `await fetch(...)` produces: a rejection (an abort after the
      five-minute timer, a network failure), or a response. */
  datatype FetchOutcome =
    | FetchRejected(reason: Thrown)
    | FetchResolved(status: nat, statusText: string, body: BodyOutcome)

  datatype Message = Message(role: string, content: string)

  /** The JSON body the request posts. */
  datatype RequestBody = RequestBody(model: string, messages: seq<Message>)

  /** The body for a composed prompt: the default model and one user message. */
  function RequestFor(prompt: string): (body: RequestBody)
    ensures body.model == DefaultModel
    ensures |body.messages| == 1 && body.messages[0] == Message("user", prompt)
  {
    RequestBody(DefaultModel, [Message("user", prompt)])
  }

  /** `response.ok`. */
  predicate IsOk(status: nat) {
    200 <= status <= 299
  }

  const TimeoutMessage := "Generation timed out. Please try again with a simpler prompt."
  const NoUrlMessage := "No image URL found in response"
  const UnknownErrorMessage := "Unknown error occurred"
  /** The TypeError message V8 gives for `content.match(...)` on a value
      without a `match` method. */
  const ContentMatchMessage := "content.match is not a function"

  /** The message thrown for a response that is not ok. */
  function ApiFailedMessage(status: nat, statusText: string): (m: string)
    ensures StartsWith(m, "API request failed: ")
  {
    "API request failed: " + NatToDecimal(status) + " " + statusText
  }

  /** The catch block of generateImage: an AbortError becomes the timeout
      message, any other Error its own message, anything else the generic
      message. */
  function CaughtFailure(t: Thrown): (r: GenerationResponse)
    ensures r.Failure?
    ensures t.JsError? && t.name == "AbortError" ==> r.error == TimeoutMessage
    ensures t.JsError? && t.name != "AbortError" ==> r.error == t.message
    ensures t.NonErrorValue? ==> r.error == UnknownErrorMessage
  {
    match t
    case JsError(name, message) => Failure(if name == "AbortError" then TimeoutMessage else message)
    case NonErrorValue => Failure(UnknownErrorMessage)
  }

  /** generateImage, with the network call a parameter. Every path ends in
      one GenerationResponse; nothing escapes. `now` is what Date.now()
      returns on success. */
  method GenerateImage(request: GenerationRequest, send: RequestBody -> FetchOutcome, now: int)
    returns (r: GenerationResponse)
    ensures var outcome := send(RequestFor(ComposedPrompt(request)));
      && (outcome.FetchRejected? ==> r == CaughtFailure(outcome.reason))
      && (outcome.FetchResolved? && !IsOk(outcome.status) ==>
            r == Failure(ApiFailedMessage(outcome.status, outcome.statusText)))
      && (outcome.FetchResolved? && IsOk(outcome.status) && outcome.body.BodyRejected? ==>
            r == CaughtFailure(outcome.body.reason))
      && (outcome.FetchResolved? && IsOk(outcome.status) && outcome.body.BodyParsed? ==>
            match ExtractImageUrl(outcome.body.data)
            case Found(url) => r == Success(url, Metadata(DefaultModel, now, request.prompt))
            case NotFound => r == Failure(NoUrlMessage)
            case ContentNotMatchable => r == Failure(ContentMatchMessage))
  {
    var prompt := BuildPrompt(request);
    var outcome := send(RequestFor(prompt));
    if outcome.FetchRejected? {
      return CaughtFailure(outcome.reason);
    }
    if !IsOk(outcome.status) {
      return CaughtFailure(JsError("Error", ApiFailedMessage(outcome.status, outcome.statusText)));
    }
    if outcome.body.BodyRejected? {
      return CaughtFailure(outcome.body.reason);
    }
    var extraction := ExtractImageUrl(outcome.body.data);
    match extraction
    case ContentNotMatchable =>
      return CaughtFailure(JsError("TypeError", ContentMatchMessage));
    case NotFound =>
      return CaughtFailure(JsError("Error", NoUrlMessage));
    case Found(url) =>
      return Success(url, Metadata(DefaultModel, now, request.prompt));
  }

  /** The status line of a failed request, on an example. */
  lemma ApiFailedMessageExample()
    ensures ApiFailedMessage(503, "Service Unavailable") == "API request failed: 503 Service Unavailable"
  {
  }
}
