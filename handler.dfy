/** The `POST` handler of app/api/generate/route.ts. Its collaborators are
    parameters: the parsed body (or the error parsing it raised), the two
    environment variables, the clock's year and formatted date, the GNews
    search and the Gemini call. Besides the response it reports which
    outbound calls were made (`Exchange`), so that the order of the gates
    can be stated. */
module Handler {
  import opened Wrappers
  import opened Keywords
  import opened News
  import opened NewsFormat
  import opened Prompt
  import opened Inputs

  const PromptRequiredMessage := "Prompt wajib diisi."
  const GeminiKeyMissingMessage := "GEMINI_API_KEY belum diset di .env.local"
  const GenericServerError := "Terjadi kesalahan pada server."

  const DefaultModel := "gemini-2.0-flash"
  const DefaultMaxOutputTokens := 1024
  const DefaultTopK := 40

  /** The `prompt` field of the JSON body. */
  datatype PromptField = Missing | NotString | Text(text: string)

  /** The fields of `GenerateRequest` the model keeps; `None` is an absent
      field. `temperature` and `topP` are left out. */
  datatype Request = Request(
    prompt: PromptField,
    image: Option<string>,
    mimeType: Option<string>,
    model: Option<string>,
    maxOutputTokens: Option<int>,
    topK: Option<int>)

  /** A value thrown inside the handler's `try`. */
  datatype Thrown = ErrorObject(message: string) | OtherValue

  /** `await req.json()` and the destructuring either give the fields or throw. */
  datatype Body = Parsed(request: Request) | Unreadable(thrown: Thrown)

  datatype Env = Env(geminiKey: Option<string>, gnewsKey: Option<string>)

  /** `getFullYear()` and the "id-ID" long date of the current day. */
  datatype Clock = Clock(year: int, date: string)

  /** The `generateContent` request the handler makes. */
  datatype GenerationCall = GenerationCall(
    apiKey: string, model: string, parts: seq<InputPart>, maxOutputTokens: int, topK: int)

  datatype TextResult = TextReturned(text: string) | TextThrew

  /** `result.response`: what `text()` does, and `JSON.stringify` of it. */
  datatype ModelResponse = ModelResponse(text: TextResult, serialized: string)

  /** What `generateContent` did: threw, or gave a result whose
      `response` may be absent. */
  datatype GenerationOutcome = CallThrew(thrown: Thrown) | Generated(response: Option<ModelResponse>)

  /** The JSON response: `{ output, sources }` with status 200, or
      `{ error }` with the given status. */
  datatype Response = Success(output: string, sources: seq<string>) | Failure(status: int, error: string)

  /** The response, whether `fetchNews` was called, the query sent to
      GNews (if any), and the call made to Gemini (if any). */
  datatype Exchange = Exchange(
    response: Response, lookedUp: bool, newsQuery: Option<string>, generation: Option<GenerationCall>)

  /** A prompt passes the test of route.ts line 67 exactly when it is a
      non-empty string: an absent or non-string field is rejected, and so
      is the empty string. */
  predicate PromptAccepted(p: PromptField)
    ensures !p.Text? ==> !PromptAccepted(p)
    ensures p.Text? ==> (PromptAccepted(p) <==> Truthy(Some(p.text)))
  {
    p.Text? && p.text != ""
  }

  /** `err instanceof Error ? err.message : "Terjadi kesalahan pada server."`. */
  function ErrorMessage(t: Thrown): (m: string)
    ensures t.ErrorObject? ==> m == t.message
    ensures t.OtherValue? ==> m == GenericServerError
  {
    match t
    case ErrorObject(message) => message
    case OtherValue => GenericServerError
  }

  /** What route.ts lines 159-166 leave in `output`. */
  predicate IsOutputOf(response: Option<ModelResponse>, output: string)
  {
    match response
    case None => output == ""
    case Some(ModelResponse(TextReturned(t), _)) => output == t
    case Some(ModelResponse(TextThrew, serialized)) => output == serialized
  }

  /** The text and source records the news step contributes. */
  datatype NewsContext = NewsContext(text: string, refs: seq<SourceRef>)

  /** The news step of route.ts lines 87-108 as a function of the prompt:
      nothing without a keyword; with one, the blocks and records of the
      articles found, or the lookup's message when none were. */
  function GatherNews(prompt: string, gnewsKey: Option<string>, search: string -> NewsFetch): (c: NewsContext)
    ensures !MentionsNews(prompt) ==> c == NewsContext("", [])
    ensures MentionsNews(prompt) ==> c.text != ""
    ensures MentionsNews(prompt) ==>
      var found := FetchNews(gnewsKey, prompt, search);
      c.refs == SourceRefs(found.articles) &&
      c.text == (if found.articles != [] then NewsText(found.articles) else found.message)
    ensures NewsSlot(c.text) == NoNewsPlaceholder <==> !MentionsNews(prompt)
  {
    if !MentionsNews(prompt) then NewsContext("", [])
    else
      var found := FetchNews(gnewsKey, prompt, search);
      if |found.articles| > 0 then
        NewsTextStart(found.articles);
        assert NoNewsPlaceholder[0] == 'T' && NewsText(found.articles)[0] == "(1) "[0];
        NewsContext(NewsText(found.articles), SourceRefs(found.articles))
      else
        NewsContext(found.message, [])
  }

  /** The sources a response lists: the fallback line alone unless a
      lookup found articles, and then one numbered line per article, in
      the order GNews gave them. */
  lemma SourcesOfLookup(prompt: string, gnewsKey: Option<string>, search: string -> NewsFetch)
    ensures var c := GatherNews(prompt, gnewsKey, search);
      var found := FetchNews(gnewsKey, prompt, search);
      && (Citations(c.refs) == [NoSourcesLine] <==> !MentionsNews(prompt) || found.articles == [])
      && (MentionsNews(prompt) && found.articles != [] ==>
            |Citations(c.refs)| == |found.articles| &&
            forall i :: 0 <= i < |found.articles| ==>
              Citations(c.refs)[i] == CitationLine(i + 1, SourceRef(found.articles[i].title, found.articles[i].url)))
  {
    var c := GatherNews(prompt, gnewsKey, search);
    CitationsFallbackIff(c.refs);
  }

  /** Route.ts lines 159-166: an absent response gives an empty output,
      `text()` gives the output, and a `text()` that throws gives the
      serialised response. */
  method ExtractOutput(response: Option<ModelResponse>) returns (output: string)
    ensures IsOutputOf(response, output)
  {
    output := "";
    if response.Some? {
      match response.value.text
      case TextReturned(t) => output := t;
      case TextThrew => output := response.value.serialized;
    }
  }

  /** The `generateContent` request built for `req`: the model and the
      integer sampling parameters, each defaulted when absent, and the
      input parts, the composite prompt first and the image second. */
  predicate IsCallFor(req: Request, apiKey: string, clock: Clock, news: NewsContext, call: GenerationCall)
    requires req.prompt.Text?
  {
    && call.apiKey == apiKey
    && call.model == (if req.model.Some? then req.model.value else DefaultModel)
    && call.maxOutputTokens == (if req.maxOutputTokens.Some? then req.maxOutputTokens.value else DefaultMaxOutputTokens)
    && call.topK == (if req.topK.Some? then req.topK.value else DefaultTopK)
    && |call.parts| == (if Truthy(req.image) then 2 else 1)
    && call.parts[0] == TextPart(Compose(clock.year, clock.date, news.text, req.prompt.text))
    && (Truthy(req.image) ==>
          call.parts[1] == InlineDataPart(StripDataUriPrefix(req.image.value),
                                          if Truthy(req.mimeType) then req.mimeType.value else DefaultMimeType))
  }

  /** The response the handler gives for what `generateContent` did: a
      thrown error becomes a 500 with its message; any result becomes the
      extracted output with the formatted sources. */
  predicate IsResponseTo(outcome: GenerationOutcome, news: NewsContext, response: Response)
  {
    match outcome
    case CallThrew(t) => response == Failure(500, ErrorMessage(t))
    case Generated(r) =>
      response.Success? && IsOutputOf(r, response.output) && response.sources == Citations(news.refs)
  }

  /** Route.ts lines 87-108: `newsText` and `sources` start empty and are
      reassigned when the prompt mentions a keyword. */
  method LookUpNews(prompt: string, gnewsKey: Option<string>, search: string -> NewsFetch)
    returns (newsText: string, sources: seq<SourceRef>, lookedUp: bool, newsQuery: Option<string>)
    ensures NewsContext(newsText, sources) == GatherNews(prompt, gnewsKey, search)
    ensures lookedUp == MentionsNews(prompt)
    ensures newsQuery == (if lookedUp then SearchQuery(gnewsKey, prompt) else None)
  {
    newsText := "";
    sources := [];
    lookedUp := false;
    newsQuery := None;
    if MentionsNews(prompt) {
      lookedUp := true;
      newsQuery := SearchQuery(gnewsKey, prompt);
      var news := FetchNews(gnewsKey, prompt, search);
      if |news.articles| > 0 {
        newsText := NewsText(news.articles);
        sources := SourceRefs(news.articles);
      } else {
        newsText := news.message;
      }
    }
  }

  /** `POST(req)`. The prompt check comes first, then the Gemini key;
      neither failure makes an outbound call. Past both gates the news
      lookup happens exactly when the prompt mentions a keyword, the
      model gets the composite prompt first and the image second, and its
      failure becomes a 500 with the thrown error's message. */
  method Post(body: Body, env: Env, clock: Clock,
              search: string -> NewsFetch, generate: GenerationCall -> GenerationOutcome)
    returns (ex: Exchange)
    ensures body.Unreadable? ==>
      ex == Exchange(Failure(500, ErrorMessage(body.thrown)), false, None, None)
    ensures body.Parsed? && !PromptAccepted(body.request.prompt) ==>
      ex == Exchange(Failure(400, PromptRequiredMessage), false, None, None)
    ensures body.Parsed? && PromptAccepted(body.request.prompt) && !Truthy(env.geminiKey) ==>
      ex == Exchange(Failure(500, GeminiKeyMissingMessage), false, None, None)
    ensures ex.generation.Some? <==>
      body.Parsed? && PromptAccepted(body.request.prompt) && Truthy(env.geminiKey)
    ensures ex.lookedUp <==>
      body.Parsed? && PromptAccepted(body.request.prompt) && Truthy(env.geminiKey) &&
      MentionsNews(body.request.prompt.text)
    ensures ex.newsQuery == (if ex.lookedUp then SearchQuery(env.gnewsKey, body.request.prompt.text) else None)
    ensures ex.generation.Some? ==>
      var news := GatherNews(body.request.prompt.text, env.gnewsKey, search);
      && IsCallFor(body.request, env.geminiKey.value, clock, news, ex.generation.value)
      && IsResponseTo(generate(ex.generation.value), news, ex.response)
    ensures ex.response.Success? ==> ex.response.sources != []
    ensures ex.response.Success? && !MentionsNews(body.request.prompt.text) ==>
      ex.response.sources == [NoSourcesLine]
  {
    if body.Unreadable? {
      return Exchange(Failure(500, ErrorMessage(body.thrown)), false, None, None);
    }
    var req := body.request;
    if !PromptAccepted(req.prompt) {
      return Exchange(Failure(400, PromptRequiredMessage), false, None, None);
    }
    var prompt := req.prompt.text;
    if !Truthy(env.geminiKey) {
      return Exchange(Failure(500, GeminiKeyMissingMessage), false, None, None);
    }
    var model := if req.model.Some? then req.model.value else DefaultModel;
    var maxOutputTokens := if req.maxOutputTokens.Some? then req.maxOutputTokens.value else DefaultMaxOutputTokens;
    var topK := if req.topK.Some? then req.topK.value else DefaultTopK;

    var newsText, sources, lookedUp, newsQuery := LookUpNews(prompt, env.gnewsKey, search);
    var enhancedPrompt := Compose(clock.year, clock.date, newsText, prompt);
    var inputs := BuildInputs(enhancedPrompt, req.image, req.mimeType);
    var call := GenerationCall(env.geminiKey.value, model, inputs, maxOutputTokens, topK);
    match generate(call)
    case CallThrew(t) =>
      ex := Exchange(Failure(500, ErrorMessage(t)), lookedUp, newsQuery, Some(call));
    case Generated(r) =>
      var output := ExtractOutput(r);
      var formattedSources := Citations(sources);
      ex := Exchange(Success(output, formattedSources), lookedUp, newsQuery, Some(call));
  }
}

/** Four example requests (a news question with two articles, a greeting,
    a missing prompt, a failing model call), answered from `Post`'s
    contract alone. */
module Scenarios {
  import opened Wrappers
  import opened Keywords
  import opened News
  import opened NewsFormat
  import opened Handler

  const Keys := Env(Some("gemini-key"), Some("gnews-key"))
  const Today := Clock(2025, "1 Januari 2025")

  function Answering(c: GenerationCall): GenerationOutcome
  {
    Generated(Some(ModelResponse(TextReturned("jawaban"), "{}")))
  }

  method NewsPromptWithTwoArticles(a1: Article, a2: Article)
  {
    var search := (q: string) => Delivered([a1, a2]);
    ScenarioPrompts();
    var prompt := "apa berita ekonomi hari ini";
    assert FixedQuery(prompt) == prompt;
    var found := FetchNews(Keys.gnewsKey, prompt, search);
    assert found.articles == [a1, a2];
    assert GatherNews(prompt, Keys.gnewsKey, search).refs == SourceRefs([a1, a2]);
    var asked := Request(Text(prompt), None, None, None, None, None);
    assert MentionsNews(asked.prompt.text);
    assert PromptAccepted(asked.prompt);
    assert Truthy(Keys.geminiKey);
    var ex := Post(Parsed(asked), Keys, Today, search, Answering);
    assert ex.lookedUp;
    assert ex.generation.Some?;
    var call := ex.generation.value;
    assert Answering(call) == Generated(Some(ModelResponse(TextReturned("jawaban"), "{}")));
    assert ex.response.Success?;
    assert ex.response.output == "jawaban";
    assert ex.response.sources == Citations(GatherNews(prompt, Keys.gnewsKey, search).refs);
    assert ex.response.sources == Citations(SourceRefs([a1, a2]));
    TwoArticleCitations(a1, a2);
    var expected := ["1. [" + a1.title + "](" + a1.url + ")", "2. [" + a2.title + "](" + a2.url + ")"];
    assert ex.response.sources == expected;
    assert ex.response == Success("jawaban", expected);
  }

  method GreetingMakesNoLookup(search: string -> NewsFetch)
  {
    ScenarioPrompts();
    var greeting := Request(Text("hi"), None, None, None, None, None);
    var ex := Post(Parsed(greeting), Keys, Today, search, Answering);
    assert !ex.lookedUp && ex.newsQuery == None;
    assert ex.response == Success("jawaban", [NoSourcesLine]);
  }

  method MissingPromptIsRejected(search: string -> NewsFetch, generate: GenerationCall -> GenerationOutcome)
  {
    var empty := Request(Missing, None, None, None, None, None);
    var ex := Post(Parsed(empty), Keys, Today, search, generate);
    assert ex.response == Failure(400, PromptRequiredMessage) && ex.generation == None;
  }

  method GenerationFailureIsReported(search: string -> NewsFetch)
  {
    var failing := (c: GenerationCall) => CallThrew(ErrorObject("quota exceeded"));
    var greeting := Request(Text("hi"), None, None, None, None, None);
    var ex := Post(Parsed(greeting), Keys, Today, search, failing);
    assert ex.response == Failure(500, "quota exceeded");
  }
}
