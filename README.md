# Generate route of Amerta AI, modelled in Dafny

Amerta AI is a chat client. Its server side is a single Next.js route,
`POST /api/generate` (app/api/generate/route.ts), and this project models it.
The route works in the following order:

1. It validates the prompt.
2. It checks that the Gemini key is configured.
3. It decides by a keyword test whether to search GNews for news.
4. It turns the articles found into a numbered news text and a list of
   markdown source lines.
5. It builds a composite prompt from the year, the date, the news text and
   the user's question.
6. It builds the list of input parts from that prompt and an optional image.
7. It calls Gemini and extracts the output text, mapping any thrown error to a
   500 response.

The model keeps every decision of that route. Everything the route cannot
decide by itself is a parameter:

- the parsed JSON body, or the value thrown while parsing it;
- the two environment variables;
- the year and the formatted date;
- the GNews search, as a function from the query sent to the outcome
  (`News.NewsFetch`: threw, HTTP status not ok, or delivered a list of
  articles);
- the Gemini call, as a function from the request made to the outcome
  (`Handler.GenerationOutcome`: threw, or returned a result whose response may
  be absent and whose `text()` may throw).

`Handler.Post` returns an `Exchange`. It holds the JSON response and a trace of
the outbound work: whether `fetchNews` was called, the query sent to GNews and
the request sent to Gemini. With the trace, "this call is never reached" can be
stated as a postcondition.

Modules:

- `Wrappers`: optional values, and JavaScript truthiness of an optional string.
- `Text`: four helpers:
  - the UTF-16 length that JavaScript's `length` reports;
  - ASCII case folding;
  - decimal rendering of numbers;
  - `join`.
- `Keywords`: the news trigger `/berita|news|headline|politik|ekonomi|bola|dunia/i`.
- `News`: `fetchNews` as a function of the key and the search outcome.
- `NewsFormat`: the numbered news blocks, the `{title, url}` projection, and
  the source lines with their fallback.
- `Prompt`: the composite prompt.
- `Inputs`: the input parts and the stripping of the data-URI prefix.
- `Handler`: the `POST` handler. `LookUpNews`, `ExtractOutput` and `Post` are
  methods with local variables that are reassigned, as in the route.
  `GatherNews` and the predicates `IsCallFor`, `IsResponseTo` and `IsOutputOf`
  are the specification those methods are proved against.
- `Scenarios`: client methods that answer four example requests from `Post`'s
  contract alone: a news question with two articles, a greeting, a missing
  prompt and a failing model call.

Some behaviour of the route's code is easy to misread. The model keeps the
code's behaviour in each case:

- An error response can carry an empty message. The route returns
  `err.message` as it is, so a thrown `Error("")` gives `{ error: "" }`
  (`Handler.ErrorMessage`).
- The number of articles is not capped. The route asks GNews for `max=3` but
  does not truncate the list that comes back, and neither does the model.
- The sources are never empty. When no lookup happens, or the lookup finds no
  articles, the route returns the single line `"Tidak ada sumber tambahan."`.
- The `fetchNews` messages are the route's exact Indonesian strings.
- The answering instructions are three bullet lines. Not inventing
  information and saying "Maaf, saya tidak tahu." share one line. The model
  uses the route's exact text.

The pattern `^data:image\/\w+;base64,` does not strip a prefix whose subtype
holds a character outside `\w`, such as `svg+xml` or `x-icon`. Such a payload
reaches the model with its prefix still on (`Inputs.StripKeepsOtherSubtypes`).
This is what the code does. The model records it but does not call it a bug.

## Model

| member | source | states |
|---|---|---|
| `Text.Utf16Length` | app/api/generate/route.ts:29 | The length `query.length` compares with 5, in UTF-16 code units: between the number of code points and twice that, and zero only for the empty string. |
| `Text.Utf16Concat` | app/api/generate/route.ts:29 | Code units add up over concatenation. |
| `Text.Lower` | app/api/generate/route.ts:90 | ASCII letters fold to their lower-case partners and every other character stays as it is. Without `u`, the `i` flag never maps a non-ASCII character to an ASCII letter, so for the ASCII keywords this folding decides the same matches. The full non-`u` canonicalisation also pairs letters such as é and É; that pairing never affects these keywords and is not modelled. |
| `Text.LowerAll` | app/api/generate/route.ts:90 | Folding a string keeps its length and folds each character in place. |
| `Text.NatToString` | app/api/generate/route.ts:97 | `${i + 1}` is a non-empty string of decimal digits with no leading zero. |
| `Text.NatToStringRoundTrip` | app/api/generate/route.ts:97 | Reading the rendered digits back gives the number, so every block and source line carries its true index. |
| `Text.NatToStringInjective` | app/api/generate/route.ts:171 | Two different numbers never render alike. |
| `Text.IntToString` | app/api/generate/route.ts:121 | `${currentYear}` is non-empty and starts with a minus sign exactly when the year is negative. |
| `Text.IntToStringDigits` | app/api/generate/route.ts:121 | `${currentYear}` is the year's decimal numeral: digits denoting the year, or a minus sign followed by digits denoting its absolute value, with no leading zero either way. |
| `Text.JoinSnoc` | app/api/generate/route.ts:94-99 | `join` with one more part appends the separator and then that part. |
| `Text.Join` | app/api/generate/route.ts:94-99 | `join` of no parts is the empty string. Otherwise the result opens with the first part. |
| `Text.JoinLength` | app/api/generate/route.ts:94-99 | A joined string is as long as its parts together plus one separator between each pair of neighbours. |
| `Text.JoinPlacesPart` | app/api/generate/route.ts:94-99 | Part i sits in the joined string at its offset: after all earlier parts and one separator per earlier part. A separator follows every part but the last. With `JoinLength`, the joined string holds nothing else. |
| `Keywords.OccursFrom` | app/api/generate/route.ts:90 | The search from an index is true exactly when the keyword matches, ignoring ASCII case, at that index or a later one. |
| `Keywords.AnyOccurs` | app/api/generate/route.ts:90 | True exactly when some keyword of the list matches somewhere in the prompt. |
| `Keywords.MentionsNews` | app/api/generate/route.ts:90 | The regular-expression test is true exactly when one of the seven keywords occurs in the prompt, ignoring ASCII case. |
| `Keywords.MentionsNewsIgnoresCase` | app/api/generate/route.ts:90 | Folding the prompt to lower case never changes the decision. |
| `Keywords.MentionsNewsInContext` | app/api/generate/route.ts:90 | Text added before or after a triggering prompt never stops it from triggering. |
| `Keywords.ScenarioPrompts` | app/api/generate/route.ts:90 | "apa berita ekonomi hari ini" triggers the lookup and "hi" does not. |
| `News.FixedQuery` | app/api/generate/route.ts:29 | The query searched is never shorter than 5 code units and always ends with the caller's query. A short query's expansion counts the prefix's code units plus the query's own. |
| `News.FixedQueryShape` | app/api/generate/route.ts:29 | The searched query equals the caller's query exactly when that is 5 or more code units long. Otherwise it is `"berita terbaru "` followed by the query. |
| `News.SearchQuery` | app/api/generate/route.ts:22-35 | GNews is called exactly when its key is truthy, and then with the fixed query. |
| `News.FetchNews` | app/api/generate/route.ts:21-51 | For a query without lone surrogates, `fetchNews` never fails and its message is never empty. Each of the five outcomes has its own message, and each message holds exactly on its path: no key, HTTP not ok, zero articles, articles, exception. It carries articles exactly when the message is the success message, and those are the articles GNews delivered. |
| `NewsFormat.BlockShape` | app/api/generate/route.ts:97 | A block is `(`, the article's number, `) `, the title, a dash and the source's name, then a newline and the url, and nothing else: its length is the sum of those pieces. |
| `NewsFormat.NumberedBlocks` | app/api/generate/route.ts:94-98 | One block per article, in article order, and block i is `(first+i) title — source\nurl` for article i. |
| `NewsFormat.NewsText` | app/api/generate/route.ts:94-99 | The news text is empty exactly when there are no articles. |
| `NewsFormat.NewsTextPlacesBlock` | app/api/generate/route.ts:94-99 | Block i, numbered i+1, sits at its offset in the news text. A blank line follows every block but the last. |
| `NewsFormat.NewsTextStart` | app/api/generate/route.ts:93-99 | With no articles the news text is empty. With articles it opens with the first article's block, numbered `(1) `, so it is never empty. |
| `NewsFormat.NewsTextSnoc` | app/api/generate/route.ts:94-99 | One more article appends a blank line and its block, numbered N+1. The earlier blocks keep their numbers and their order. |
| `NewsFormat.SourceRefs` | app/api/generate/route.ts:101-104 | One `{title, url}` record per article, in article order, holding that article's title and url. |
| `NewsFormat.CitationLineShape` | app/api/generate/route.ts:171 | A source line is its number, `. [`, the title, `](`, the url and `)`, and nothing else: its length is the sum of those pieces. |
| `NewsFormat.NumberedCitations` | app/api/generate/route.ts:171 | One line per source, in order, and line i is `(first+i). [title](url)`. |
| `NewsFormat.Citations` | app/api/generate/route.ts:169-172 | With no sources the result is the single line `"Tidak ada sumber tambahan."`. With N sources it is N lines, and line i (from 1) is `i. [title_i](url_i)`. |
| `NewsFormat.CitationsFallbackIff` | app/api/generate/route.ts:169-172 | The source lines are the fallback line exactly when there were no sources. A numbered line starts with a digit, so it is never the fallback. |
| `NewsFormat.TwoArticleCitations` | app/api/generate/route.ts:169-172 | Two articles give exactly `["1. [t1](u1)", "2. [t2](u2)"]`. |
| `Prompt.NewsSlot` | app/api/generate/route.ts:125 | `newsText \|\| placeholder` is never empty. It is the news text when that is non-empty, and `"Tidak ditemukan berita relevan."` otherwise. |
| `Prompt.DateLinesShape` | app/api/generate/route.ts:119-122 | The template opens with a blank line, then `Tahun: ` and the year, then `Tanggal saat ini: ` and the date, then a blank line. Its length is the sum of those pieces. |
| `Prompt.Compose` | app/api/generate/route.ts:120-134 | The composite prompt has five parts in order: the year and date lines; the news heading with the news slot right after it; the question heading; the user's question verbatim; and the fixed instructions at the end. Each part sits right after the ones before it, and the length is exactly the sum of the parts, so nothing else is in the prompt. |
| `Prompt.ComposeDeterminesQuestion` | app/api/generate/route.ts:120-134 | With the same year, date and news text, two different questions always give two different composite prompts. |
| `Inputs.DataUriPrefixLength` | app/api/generate/route.ts:141 | Gives the length of the one prefix that `^data:image\/\w+;base64,` matches, or 0 when the pattern does not match. No other prefix length matches. |
| `Inputs.StripDataUriPrefix` | app/api/generate/route.ts:141 | When the pattern matches a prefix, the result is the image with that prefix removed. Otherwise the image is unchanged. |
| `Inputs.StripRemovesOnePrefix` | app/api/generate/route.ts:141 | `data:image/<word chars>;base64,` followed by any payload gives back exactly that payload. A second prefix inside the payload stays, because only one is removed. |
| `Inputs.StripKeepsOtherSubtypes` | app/api/generate/route.ts:141 | `data:image/svg+xml;base64,…` is forwarded unchanged, because `+` is not a word character. |
| `Inputs.BuildInputs` | app/api/generate/route.ts:136-145 | The first part is always the text part holding the composite prompt. A truthy image adds exactly one more part, second, holding the stripped image data and the given MIME type, or `image/png` when that is falsy. Without an image there is one part. |
| `Handler.PromptAccepted` | app/api/generate/route.ts:67 | An absent or non-string prompt is rejected. A string prompt passes exactly when it is truthy, so only the empty string is rejected. |
| `Handler.ErrorMessage` | app/api/generate/route.ts:177-178 | A thrown `Error` gives its own message. Any other thrown value gives `"Terjadi kesalahan pada server."`. |
| `Handler.GatherNews` | app/api/generate/route.ts:87-108 | Without a keyword there is no news text and there are no sources. With one, the news text is never empty: it is the numbered blocks when the lookup found articles and the lookup's message otherwise, and the sources are the articles' records. The news slot shows the placeholder exactly when no lookup happened. |
| `Handler.SourcesOfLookup` | app/api/generate/route.ts:88-172 | The response's sources are the fallback line exactly when there was no lookup or the lookup found no articles. A lookup with N articles gives N lines, and line i names article i's title and url. |
| `Handler.ExtractOutput` | app/api/generate/route.ts:159-166 | An absent response gives `""`. A `text()` that returns gives its text. A `text()` that throws gives the serialised response. |
| `Handler.LookUpNews` | app/api/generate/route.ts:87-108 | The reassigned `newsText` and `sources` equal `GatherNews`. `fetchNews` is called exactly when the prompt mentions a keyword, and GNews is queried with the fixed query only if its key is set. |
| `Handler.Post` | app/api/generate/route.ts:54-181 | An unreadable body gives 500 with `ErrorMessage` of the thrown value: its message for an `Error`, and `"Terjadi kesalahan pada server."` otherwise. A missing, non-string or empty prompt gives 400 `"Prompt wajib diisi."`. A missing Gemini key then gives 500 with the key message. None of the three makes any outbound call. Gemini is called exactly when both checks pass. `fetchNews` is called exactly when, in addition, the prompt mentions a keyword. The request sent carries the defaulted model, token limit and top-k, and the input parts built from the composite prompt. A thrown generation error gives 500 with its message. Otherwise the response holds the extracted output and the formatted sources, and those sources are never empty and are the fallback line when no keyword matched. A whitespace-only prompt is accepted. |

## Left out

- app/page.tsx, the browser page, is not part of this model. It holds React
  state, a typing animation driven by `setInterval`, and rendering, and states
  no contract about the route.
- The HTTP calls to GNews and Gemini are not modelled as I/O. They are the
  function parameters described above, so time-outs, retries and concurrency
  are not modelled either.
- The GNews URL is not modelled: `encodeURIComponent`, the `lang`, `max` and
  `apikey` parameters, and the key itself in the URL. The model records only
  the query text searched.
- `new Date()`, `getFullYear()` and `toLocaleDateString("id-ID", …)` are not
  modelled. The year and the formatted date are parameters.
- `temperature` and `topP` are not modelled, because they are floating-point
  values the route only passes through. The model keeps the defaults of the
  model name, `maxOutputTokens` and `topK`.
- Request fields that are present but `null`, and `image` or `mimeType` values
  that are not strings, are not modelled. JSON `null` does not trigger a
  destructuring default, and a non-string truthy `image` would make `replace`
  throw. An absent field is `None`, and every other field value is a string or
  an integer.
- Article records of arbitrary shape are not modelled. Articles are
  `{title, url, sourceName}` records, so the `TypeError` a missing `source`
  field would raise inside the route is not modelled.
- The exact text of `JSON.stringify(result.response)` is not modelled: it is an
  opaque string carried in the model response. `console` logging and the
  `NextResponse` objects are not modelled either, and responses are a
  datatype.
- `new GoogleGenerativeAI(apiKey)` and `getGenerativeModel` are assumed not to
  throw. In the route they run before the news lookup, so a failure there
  would end the request before `fetchNews`. A request can reach this case:
  with `{"prompt": "berita", "model": ""}` the default at line 60 does not
  apply to the empty string, so line 84 asks for a model named `""`. If the
  client library throws for that name, the route answers 500 with no lookup
  and no generation call, while `Handler.Post` promises a lookup and a call.
- Strings are sequences of Unicode code points, so a prompt that holds a lone
  UTF-16 surrogate (JSON `"berita \ud800"`) cannot be represented. For such a
  prompt with a keyword and a GNews key, the route's `encodeURIComponent` at
  line 30 throws a `URIError` before the `try` of `fetchNews`. The error is not
  absorbed into a fallback message: `POST` answers 500 with
  `"URI malformed"`. The model does not capture this path, and its promise
  that `fetchNews` never fails holds only for prompts without lone surrogates.
  Lengths are still measured in UTF-16 code units where the route compares
  them.
