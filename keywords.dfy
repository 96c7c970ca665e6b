/** The news trigger of the generate route: the prompt is tested against
    `/berita|news|headline|politik|ekonomi|bola|dunia/i`, a case-insensitive
    search for any of seven keywords anywhere in the prompt. */
module Keywords {
  import opened Text

  const NewsKeywords: seq<string> :=
    ["berita", "news", "headline", "politik", "ekonomi", "bola", "dunia"]

  /** `kw` (lower case) matches `s` at index `i`, ignoring ASCII case. */
  predicate MatchesAt(s: string, kw: string, i: int)
  {
    0 <= i && i + |kw| <= |s| && forall j :: 0 <= j < |kw| ==> Lower(s[i + j]) == kw[j]
  }

  /** Search for `kw` in `s` from index `from` on. */
  function OccursFrom(s: string, kw: string, from: nat): (b: bool)
    ensures b <==> exists i :: from <= i && MatchesAt(s, kw, i)
    decreases |s| - from
  {
    if from + |kw| > |s| then false
    else MatchesAt(s, kw, from) || OccursFrom(s, kw, from + 1)
  }

  /** Some keyword of `kws` occurs in `s`. */
  function AnyOccurs(s: string, kws: seq<string>): (b: bool)
    ensures b <==> exists k, i :: 0 <= k < |kws| && MatchesAt(s, kws[k], i)
    decreases |kws|
  {
    if kws == [] then false
    else
      OccursFrom(s, kws[0], 0) ||
      (var rest := AnyOccurs(s, kws[1..]);
       assert rest <==> exists k, i :: 1 <= k < |kws| && MatchesAt(s, kws[k], i) by {
         forall k, i | 1 <= k < |kws| && MatchesAt(s, kws[k], i)
           ensures exists k', i' :: 0 <= k' < |kws[1..]| && MatchesAt(s, kws[1..][k'], i')
         {
           assert kws[1..][k - 1] == kws[k];
         }
       }
       rest)
  }

  /** The regular-expression test of route.ts line 90: true exactly when
      one of the seven keywords occurs in the prompt, in any ASCII case. */
  function MentionsNews(prompt: string): (b: bool)
    ensures b <==> exists k, i :: 0 <= k < |NewsKeywords| && MatchesAt(prompt, NewsKeywords[k], i)
  {
    AnyOccurs(prompt, NewsKeywords)
  }

  /** The test ignores ASCII case: folding the prompt to lower case never
      changes the decision. */
  lemma MentionsNewsIgnoresCase(prompt: string)
    ensures MentionsNews(prompt) <==> MentionsNews(LowerAll(prompt))
  {
    forall k, i | 0 <= k < |NewsKeywords|
      ensures MatchesAt(prompt, NewsKeywords[k], i) <==> MatchesAt(LowerAll(prompt), NewsKeywords[k], i)
    {
      MatchesAtLowered(prompt, NewsKeywords[k], i);
    }
  }

  lemma MatchesAtLowered(s: string, kw: string, i: int)
    ensures MatchesAt(s, kw, i) <==> MatchesAt(LowerAll(s), kw, i)
  {
  }

  /** The test is a substring search: text around a prompt that triggers
      the lookup never stops it from triggering. */
  lemma MentionsNewsInContext(before: string, prompt: string, after: string)
    requires MentionsNews(prompt)
    ensures MentionsNews(before + prompt + after)
  {
    var s := before + prompt + after;
    var k, i :| 0 <= k < |NewsKeywords| && MatchesAt(prompt, NewsKeywords[k], i);
    var kw := NewsKeywords[k];
    forall j | 0 <= j < |kw| ensures Lower(s[|before| + i + j]) == kw[j] {
      assert s[|before| + i + j] == prompt[i + j];
    }
    assert MatchesAt(s, kw, |before| + i);
  }

  /** Two example prompts: a news question and a greeting. */
  lemma ScenarioPrompts()
    ensures MentionsNews("apa berita ekonomi hari ini")
    ensures !MentionsNews("hi")
  {
    assert MatchesAt("apa berita ekonomi hari ini", NewsKeywords[0], 4);
  }
}
