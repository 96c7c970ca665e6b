/** The two renderings of the articles a lookup returned (route.ts lines
    93-107 and 169-172): the news text given to the model, one numbered
    block per article, and the markdown source lines returned to the
    caller, with a single fallback line when there are none. */
module NewsFormat {
  import opened Text
  import opened News

  const BlockSeparator := "\n\n"
  const NoSourcesLine := "Tidak ada sumber tambahan."

  const TitleDash := " — "

  /** The middle of block `i`: `) title — source`. */
  function BlockMiddle(a: Article): string
  {
    ") " + a.title + TitleDash + a.sourceName
  }

  /** `(i) title — source\nurl`, a template literal of route.ts line 97. */
  function Block(i: nat, a: Article): string
  {
    "(" + NatToString(i) + BlockMiddle(a) + "\n" + a.url
  }

  /** A block is the number in parentheses, then the title, a dash and the
      source's name, then the url alone on the last line, and nothing else. */
  lemma BlockShape(i: nat, a: Article)
    ensures var b, n := Block(i, a), NatToString(i);
      && |b| == 1 + |n| + |BlockMiddle(a)| + 1 + |a.url|
      && b[0] == '('
      && OccursAt(n, b, 1)
      && OccursAt(BlockMiddle(a), b, 1 + |n|)
      && b[1 + |n| + |BlockMiddle(a)|] == '\n'
      && OccursAt(a.url, b, |b| - |a.url|)
  {
    BlockPieces(NatToString(i), BlockMiddle(a), a.url);
  }

  lemma BlockPieces(n: string, mid: string, url: string)
    ensures var b := "(" + n + mid + "\n" + url;
      && |b| == 1 + |n| + |mid| + 1 + |url|
      && b[0] == '('
      && OccursAt(n, b, 1)
      && OccursAt(mid, b, 1 + |n|)
      && b[1 + |n| + |mid|] == '\n'
      && OccursAt(url, b, |b| - |url|)
  {
    var b := "(" + n + mid + "\n" + url;
    assert b[1..1 + |n|] == n;
    assert b[1 + |n|..1 + |n| + |mid|] == mid;
    assert b[|b| - |url|..] == url;
  }

  /** The blocks of `articles`, numbered from `first` on in article order. */
  function NumberedBlocks(articles: seq<Article>, first: nat): (blocks: seq<string>)
    ensures |blocks| == |articles|
    ensures forall i :: 0 <= i < |articles| ==> blocks[i] == Block(first + i, articles[i])
    decreases |articles|
  {
    if articles == [] then []
    else [Block(first, articles[0])] + NumberedBlocks(articles[1..], first + 1)
  }

  /** The news text: blocks numbered 1..N joined by blank lines. It is
      empty exactly when there are no articles. */
  function NewsText(articles: seq<Article>): (t: string)
    ensures t == "" <==> articles == []
  {
    Join(NumberedBlocks(articles, 1), BlockSeparator)
  }

  /** Where block `i` sits: at its offset in the news text, followed by a
      blank line unless it is the last, which with `JoinLength` leaves
      nothing else in the text. */
  lemma NewsTextPlacesBlock(articles: seq<Article>, i: nat)
    requires i < |articles|
    ensures OccursAt(Block(i + 1, articles[i]), NewsText(articles),
                     PartOffset(NumberedBlocks(articles, 1), BlockSeparator, i))
    ensures i < |articles| - 1 ==>
      OccursAt(BlockSeparator, NewsText(articles),
               PartOffset(NumberedBlocks(articles, 1), BlockSeparator, i) + |Block(i + 1, articles[i])|)
  {
    var blocks := NumberedBlocks(articles, 1);
    assert blocks[i] == Block(i + 1, articles[i]);
    JoinPlacesPart(blocks, BlockSeparator, i);
  }

  /** With articles, the news text opens with the first block, numbered
      one, so it is never empty; without, it is empty. */
  lemma NewsTextStart(articles: seq<Article>)
    ensures articles == [] ==> NewsText(articles) == ""
    ensures articles != [] ==>
      |NewsText(articles)| >= |Block(1, articles[0])| &&
      NewsText(articles)[..|Block(1, articles[0])|] == Block(1, articles[0]) &&
      NewsText(articles)[..4] == "(1) "
  {
  }

  /** One more article adds a blank line and its block, numbered N+1,
      after the earlier blocks, which keep their numbers. */
  lemma {:induction false} NewsTextSnoc(articles: seq<Article>, a: Article)
    requires articles != []
    ensures NewsText(articles + [a]) == NewsText(articles) + BlockSeparator + Block(|articles| + 1, a)
  {
    var blocks := NumberedBlocks(articles, 1);
    var more := NumberedBlocks(articles + [a], 1);
    assert more == blocks + [Block(|articles| + 1, a)];
    JoinSnoc(blocks, Block(|articles| + 1, a), BlockSeparator);
  }

  /** The `{ title, url }` record kept of each article. */
  datatype SourceRef = SourceRef(title: string, url: string)

  /** The projection of route.ts lines 101-104, in article order. */
  function SourceRefs(articles: seq<Article>): (refs: seq<SourceRef>)
    ensures |refs| == |articles|
    ensures forall i :: 0 <= i < |articles| ==>
      refs[i].title == articles[i].title && refs[i].url == articles[i].url
    decreases |articles|
  {
    if articles == [] then []
    else [SourceRef(articles[0].title, articles[0].url)] + SourceRefs(articles[1..])
  }

  /** The middle of a source line: `. [title](`. */
  function CitationMiddle(s: SourceRef): string
  {
    ". [" + s.title + "]("
  }

  /** `i. [title](url)`, a markdown link numbered `i`. */
  function CitationLine(i: nat, s: SourceRef): string
  {
    NatToString(i) + CitationMiddle(s) + s.url + ")"
  }

  /** A source line is the number, then the title in brackets, then the url
      in parentheses, and nothing else. */
  lemma CitationLineShape(i: nat, s: SourceRef)
    ensures var line, n := CitationLine(i, s), NatToString(i);
      && |line| == |n| + |CitationMiddle(s)| + |s.url| + 1
      && OccursAt(n, line, 0)
      && OccursAt(CitationMiddle(s), line, |n|)
      && OccursAt(s.url, line, |n| + |CitationMiddle(s)|)
      && line[|line| - 1] == ')'
  {
    CitationPieces(NatToString(i), CitationMiddle(s), s.url);
  }

  lemma CitationPieces(n: string, mid: string, url: string)
    ensures var line := n + mid + url + ")";
      && |line| == |n| + |mid| + |url| + 1
      && OccursAt(n, line, 0)
      && OccursAt(mid, line, |n|)
      && OccursAt(url, line, |n| + |mid|)
      && line[|line| - 1] == ')'
  {
    var line := n + mid + url + ")";
    assert line[..|n|] == n;
    assert line[|n|..|n| + |mid|] == mid;
    assert line[|n| + |mid|..|n| + |mid| + |url|] == url;
  }

  function NumberedCitations(refs: seq<SourceRef>, first: nat): (lines: seq<string>)
    ensures |lines| == |refs|
    ensures forall i :: 0 <= i < |refs| ==> lines[i] == CitationLine(first + i, refs[i])
    decreases |refs|
  {
    if refs == [] then []
    else [CitationLine(first, refs[0])] + NumberedCitations(refs[1..], first + 1)
  }

  /** `formattedSources` of route.ts lines 169-172. */
  function Citations(refs: seq<SourceRef>): (lines: seq<string>)
    ensures refs == [] ==> lines == [NoSourcesLine]
    ensures refs != [] ==>
      (|lines| == |refs| && forall i :: 0 <= i < |refs| ==> lines[i] == CitationLine(i + 1, refs[i]))
  {
    if |refs| > 0 then NumberedCitations(refs, 1) else [NoSourcesLine]
  }

  /** A citation line starts with a digit, the fallback line does not, so
      the caller can tell the two apart: the sources are the fallback
      exactly when there were no articles. */
  lemma CitationsFallbackIff(refs: seq<SourceRef>)
    ensures Citations(refs) == [NoSourcesLine] <==> refs == []
  {
    if refs != [] {
      var line := Citations(refs)[0];
      CitationLineShape(1, refs[0]);
      assert line[0] == NatToString(1)[0];
      assert IsDigit(line[0]);
      assert !IsDigit(NoSourcesLine[0]);
    }
  }

  lemma MiddleRegroups(n: string, title: string, url: string)
    ensures n + CitationMiddle(SourceRef(title, url)) + url + ")" == n + ". [" + title + "](" + url + ")"
  {
  }

  /** The scenario of two articles: the sources are lines 1 and 2. */
  lemma TwoArticleCitations(a1: Article, a2: Article)
    ensures Citations(SourceRefs([a1, a2])) ==
      ["1. [" + a1.title + "](" + a1.url + ")", "2. [" + a2.title + "](" + a2.url + ")"]
  {
    var refs := SourceRefs([a1, a2]);
    var lines := Citations(refs);
    assert refs == [SourceRef(a1.title, a1.url), SourceRef(a2.title, a2.url)];
    assert NatToString(1) == "1";
    assert NatToString(2) == "2";
    assert "1" + ". [" == "1. [" && "2" + ". [" == "2. [";
    MiddleRegroups("1", a1.title, a1.url);
    MiddleRegroups("2", a2.title, a2.url);
    assert lines[0] == CitationLine(1, refs[0]);
    assert lines[1] == CitationLine(2, refs[1]);
    assert lines == [lines[0], lines[1]];
  }
}
