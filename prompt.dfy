/** The composite prompt of route.ts lines 120-134: the year and date,
    the news text (or a placeholder when it is empty), the user's question
    verbatim, and the fixed answering instructions. The clock and the
    "id-ID" date formatting are outside the model: the year and the date
    text arrive as parameters. */
module Prompt {
  import opened Text

  const NoNewsPlaceholder := "Tidak ditemukan berita relevan."

  const NewsHeading := "Berita atau fakta tambahan (dari GNews):\n"
  const QuestionHeading := "\n\nPertanyaan pengguna:\n"
  const Instructions :=
    "\n\nInstruksi:\n" +
    "- Jawablah dengan bahasa Indonesia yang baik dan jelas.\n" +
    "- Jika kamu menyebut informasi dari berita di atas, tambahkan nomor referensi [1], [2], dst.\n" +
    "- Jangan membuat informasi palsu. Jika tidak tahu, katakan \"Maaf, saya tidak tahu.\"\n"

  /** `newsText || "Tidak ditemukan berita relevan."`. */
  function NewsSlot(newsText: string): (slot: string)
    ensures slot != ""
    ensures newsText != "" ==> slot == newsText
    ensures newsText == "" ==> slot == NoNewsPlaceholder
  {
    if newsText == "" then NoNewsPlaceholder else newsText
  }

  const YearLabel := "\nTahun: "
  const DateLabel := "\nTanggal saat ini: "

  /** The lines that open the template. */
  function DateLines(year: int, date: string): string
  {
    YearLabel + IntToString(year) + DateLabel + date + "\n\n"
  }

  /** The opening lines are a blank line, the year after its label, the
      date after its label, and a blank line, and nothing else. */
  lemma DateLinesShape(year: int, date: string)
    ensures var r := DateLines(year, date);
      && |r| == |YearLabel| + |IntToString(year)| + |DateLabel| + |date| + 2
      && r[..|YearLabel|] == YearLabel
      && OccursAt(IntToString(year), r, |YearLabel|)
      && OccursAt(DateLabel, r, |YearLabel| + |IntToString(year)|)
      && OccursAt(date, r, |YearLabel| + |IntToString(year)| + |DateLabel|)
      && r[|r| - 2..] == "\n\n"
  {
    var y := IntToString(year);
    var r := DateLines(year, date);
    var a := |YearLabel| + |y|;
    var b := a + |DateLabel|;
    assert r[..|YearLabel|] == YearLabel;
    assert r[|YearLabel|..a] == y;
    assert r[a..b] == DateLabel;
    assert r[b..b + |date|] == date;
    assert r[|r| - 2..] == "\n\n";
  }

  /** `r` is the five sections `d`, `n`, `q`, `p`, `t` laid end to end:
      each occurs at the offset the ones before it leave, and there is
      nothing else. */
  predicate Laid(r: string, d: string, n: string, q: string, p: string, t: string)
  {
    && |r| == |d| + |n| + |q| + |p| + |t|
    && OccursAt(d, r, 0)
    && OccursAt(n, r, |d|)
    && OccursAt(q, r, |d| + |n|)
    && OccursAt(p, r, |d| + |n| + |q|)
    && OccursAt(t, r, |d| + |n| + |q| + |p|)
  }

  /** The news section: its heading, then the news text or the placeholder. */
  function NewsSection(newsText: string): string
  {
    NewsHeading + NewsSlot(newsText)
  }

  /** The composite prompt (`enhancedPrompt`): the year and date lines,
      the news section, the question heading, the user's question verbatim,
      and the fixed instructions, in that order and with nothing else, so
      the question is always the text between the question heading and
      the instructions. */
  function Compose(year: int, date: string, newsText: string, prompt: string): (r: string)
    ensures Laid(r, DateLines(year, date), NewsSection(newsText), QuestionHeading, prompt, Instructions)
  {
    var d, n := DateLines(year, date), NewsSection(newsText);
    Sections(d, n, QuestionHeading, prompt, Instructions);
    d + n + QuestionHeading + prompt + Instructions
  }

  /** Five concatenated sections are laid end to end. */
  lemma Sections(d: string, n: string, q: string, p: string, t: string)
    ensures Laid(d + n + q + p + t, d, n, q, p, t)
  {
    var r := d + n + q + p + t;
    assert r[..|d|] == d;
    assert r[|d|..|d| + |n|] == n;
    assert r[|d| + |n|..|d| + |n| + |q|] == q;
    assert r[|d| + |n| + |q|..|d| + |n| + |q| + |p|] == p;
    assert r[|d| + |n| + |q| + |p|..] == t;
  }

  /** The same year, date and news text with two different questions never
      give the same composite prompt: the model always sees exactly the
      question that was asked. */
  lemma ComposeDeterminesQuestion(year: int, date: string, newsText: string, p1: string, p2: string)
    requires Compose(year, date, newsText, p1) == Compose(year, date, newsText, p2)
    ensures p1 == p2
  {
  }
}
