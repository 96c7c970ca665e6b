/** `fetchNews` of route.ts: a chain of early returns over the outcome of
    one GNews search. The HTTP call is the `search` parameter, a function
    from the query sent to what the call produced; it is reached only
    when a GNews key is configured. */
module News {
  import opened Text
  import opened Wrappers

  /** An article as the route reads it: `title`, `url` and `source.name`. */
  datatype Article = Article(title: string, url: string, sourceName: string)

  /** What one GNews search produced. `Delivered` carries the `articles`
      field of the JSON body; a missing or null field is the empty list. */
  datatype NewsFetch =
    | Threw                          // fetch, res.json() or reading the body threw
    | NotOk(status: int)            // res.ok was false
    | Delivered(articles: seq<Article>)

  /** The `{ articles, message }` pair `fetchNews` returns. */
  datatype NewsResult = NewsResult(articles: seq<Article>, message: string)

  const KeyMissingMessage := "API Key GNews belum diset di .env.local"
  const HttpFailedMessage := "Gagal mengambil berita."
  const NoArticlesMessage := "Tidak ada berita terkait."
  const FetchedMessage := "Berhasil ambil berita."
  const FetchErrorMessage := "Error fetch berita."

  const ShortQueryPrefix := "berita terbaru "

  /** The query actually searched: a query shorter than five UTF-16 code
      units gets the generic prefix, so what is searched is never shorter
      than five units and always ends with the caller's query. */
  function FixedQuery(query: string): (q: string)
    ensures Utf16Length(q) >= 5
    ensures |q| >= |query| && q[|q| - |query|..] == query
    ensures Utf16Length(query) < 5 ==> Utf16Length(q) == Utf16Length(ShortQueryPrefix) + Utf16Length(query)
  {
    if Utf16Length(query) < 5 then
      Utf16Concat(ShortQueryPrefix, query);
      ShortQueryPrefix + query
    else query
  }

  /** The searched query is the query itself exactly when that was five
      code units or longer, and `"berita terbaru "` followed by the query
      otherwise. */
  lemma FixedQueryShape(query: string)
    ensures var q := FixedQuery(query);
      && (Utf16Length(query) >= 5 <==> q == query)
      && (Utf16Length(query) < 5 ==> q == ShortQueryPrefix + query)
  {
  }

  /** What the GNews search is asked for, if it is called at all. */
  function SearchQuery(apiKey: Option<string>, query: string): (r: Option<string>)
    ensures r.Some? <==> Truthy(apiKey)
    ensures r.Some? ==> r.value == FixedQuery(query)
  {
    if Truthy(apiKey) then Some(FixedQuery(query)) else None
  }

  /** `fetchNews(query)`. For a query without lone surrogates it never
      fails: every outcome becomes a result with a non-empty message, and
      only the success path carries articles. (`encodeURIComponent` runs
      before the `try` and throws on a lone surrogate; such strings are not
      values of this model.) */
  function FetchNews(apiKey: Option<string>, query: string, search: string -> NewsFetch): (r: NewsResult)
    ensures r.message != ""
    ensures |r.articles| > 0 <==> r.message == FetchedMessage
    ensures r.message == KeyMissingMessage <==> !Truthy(apiKey)
    ensures r.message == HttpFailedMessage <==> Truthy(apiKey) && search(FixedQuery(query)).NotOk?
    ensures r.message == FetchErrorMessage <==> Truthy(apiKey) && search(FixedQuery(query)).Threw?
    ensures r.message == NoArticlesMessage <==>
      Truthy(apiKey) && search(FixedQuery(query)) == Delivered([])
    ensures r.message == FetchedMessage <==>
      Truthy(apiKey) && search(FixedQuery(query)).Delivered? && search(FixedQuery(query)).articles != []
    ensures |r.articles| > 0 ==> r.articles == search(FixedQuery(query)).articles
    ensures r.message in {KeyMissingMessage, HttpFailedMessage, NoArticlesMessage, FetchedMessage, FetchErrorMessage}
  {
    if !Truthy(apiKey) then NewsResult([], KeyMissingMessage)
    else
      match search(FixedQuery(query))
      case Threw => NewsResult([], FetchErrorMessage)
      case NotOk(_) => NewsResult([], HttpFailedMessage)
      case Delivered(articles) =>
        if |articles| == 0 then NewsResult([], NoArticlesMessage)
        else NewsResult(articles, FetchedMessage)
  }
}
