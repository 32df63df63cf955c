/** The deterministic part of the research assistant: the text built from a
    list of paper records for the language model (`_build_research_context`),
    the summary written when the model gives no answer (`_fallback_summary`)
    and the choice `research_topic` makes between a summary from papers and
    a summary from the model alone. Fetching papers and calling the model
    are outside the model. */
module Research {
  import opened Strings

  /** A paper record as the fetcher returns it. */
  datatype Paper = Paper(
    title: string,
    authors: seq<string>,
    year: int,
    source: string,
    citations: int,
    summary: string,
    url: string,
    pdfUrl: string)

  function Min(a: nat, b: nat): nat { if a <= b then a else b }

  // ---------------------------------------------------------------------
  // Author line

  /** The first three authors joined by ", ", and " et al." when there are
      more than three. */
  function AuthorLine(authors: seq<string>): string {
    var shown := Join(authors[..Min(3, |authors|)], ", ");
    if |authors| > 3 then shown + " et al." else shown
  }

  /** Up to three authors are all shown, with nothing appended. */
  lemma AuthorLineAll(authors: seq<string>)
    requires |authors| <= 3
    ensures AuthorLine(authors) == Join(authors, ", ")
  {
    assert authors[..|authors|] == authors;
  }

  /** With more than three authors the line ends in " et al." and depends on
      the first three authors only. */
  lemma AuthorLineTruncated(a: seq<string>, b: seq<string>)
    requires |a| > 3 && |b| > 3 && a[..3] == b[..3]
    ensures AuthorLine(a) == AuthorLine(b) == Join(a[..3], ", ") + " et al."
  {
  }

  // ---------------------------------------------------------------------
  // Research context

  /** The citation count, or "N/A" when it is not positive. */
  function CitationField(citations: int): (r: string)
    ensures r == "N/A" <==> citations <= 0
    ensures citations > 0 ==> r == NatToString(citations)
  {
    if citations > 0 then NatToString(citations) else "N/A"
  }

  /** The lines of a context block up to the word "Abstract:". */
  function BlockHead(n: nat, p: Paper): (r: string)
    ensures r != [] && r[0] == '[' && r[|r| - 1] == ':'
  {
    "[Paper " + NatToString(n) + "] " + p.title
      + "\nAuthors: " + AuthorLine(p.authors)
      + "\nYear: " + IntToString(p.year)
      + "\nSource: " + p.source
      + "\nCitations: " + CitationField(p.citations)
      + "\nAbstract:"
  }

  /** The head opens with the numbered title line and closes with the
      "Abstract:" label on its own line. */
  lemma BlockHeadShape(n: nat, p: Paper)
    ensures "[Paper " + NatToString(n) + "] " + p.title <= BlockHead(n, p)
    ensures EndsWith(BlockHead(n, p), "\nAbstract:")
  {
    var title := "[Paper " + NatToString(n) + "] " + p.title;
    var lines := title
      + "\nAuthors: " + AuthorLine(p.authors)
      + "\nYear: " + IntToString(p.year)
      + "\nSource: " + p.source
      + "\nCitations: " + CitationField(p.citations);
    assert BlockHead(n, p) == lines + "\nAbstract:";
    assert BlockHead(n, p)[..|title|] == title;
    EndsWithAppend(lines, "\nAbstract:");
  }

  /** The block for the `n`-th paper: the template, stripped. */
  function ContextBlock(n: nat, p: Paper): string {
    Strip("\n" + BlockHead(n, p) + (" " + p.summary + "\n"))
  }

  /** Stripping leaves the block's head in front: the block starts with the
      paper's number, title, authors, year, source and citation field. */
  lemma ContextBlockHead(n: nat, p: Paper)
    ensures BlockHead(n, p) <= ContextBlock(n, p)
  {
    StripKeepsFront("\n", BlockHead(n, p), " " + p.summary + "\n");
  }

  /** When the abstract ends in a visible character, the block is exactly
      the head, one space and the abstract. */
  lemma ContextBlockExact(n: nat, p: Paper)
    requires p.summary != [] && !IsSpace(p.summary[|p.summary| - 1])
    ensures ContextBlock(n, p) == BlockHead(n, p) + " " + p.summary
  {
    var a := BlockHead(n, p) + " " + p.summary;
    assert a[0] == BlockHead(n, p)[0];
    assert a[|a| - 1] == p.summary[|p.summary| - 1];
    assert "\n" + BlockHead(n, p) + (" " + p.summary + "\n") == "\n" + a + "\n";
    StripExact("\n", a, "\n");
  }

  /** The blocks of all papers, numbered from 1 in list order. */
  function ContextBlocks(papers: seq<Paper>): (r: seq<string>)
    ensures |r| == |papers|
  {
    if papers == [] then []
    else ContextBlocks(papers[..|papers| - 1]) + [ContextBlock(|papers|, papers[|papers| - 1])]
  }

  /** The `i`-th block is the block of the `i`-th paper, numbered `i + 1`. */
  lemma {:induction false} ContextBlocksAt(papers: seq<Paper>, i: nat)
    requires i < |papers|
    ensures ContextBlocks(papers)[i] == ContextBlock(i + 1, papers[i])
  {
    if i < |papers| - 1 {
      ContextBlocksAt(papers[..|papers| - 1], i);
    }
  }

  lemma ContextBlocksStep(papers: seq<Paper>, i: nat)
    requires i < |papers|
    ensures ContextBlocks(papers[..i + 1]) == ContextBlocks(papers[..i]) + [ContextBlock(i + 1, papers[i])]
  {
    assert papers[..i + 1][..i] == papers[..i];
  }

  const BlockSeparator := "\n\n---\n\n"

  /** What `_build_research_context` returns. */
  function ResearchContext(papers: seq<Paper>): string {
    Join(ContextBlocks(papers), BlockSeparator)
  }

  /** `_build_research_context`: one block per paper, then the join. */
  method BuildResearchContext(papers: seq<Paper>) returns (context: string)
    ensures context == ResearchContext(papers)
  {
    var parts: seq<string> := [];
    for i := 0 to |papers|
      invariant parts == ContextBlocks(papers[..i])
    {
      ContextBlocksStep(papers, i);
      parts := parts + [ContextBlock(i + 1, papers[i])];
    }
    SliceAll(papers);
    context := Join(parts, BlockSeparator);
  }

  /** The context is empty exactly when there are no papers; otherwise it
      opens with the head of the first paper's block, "[Paper 1] " and the
      title first. */
  lemma ResearchContextShape(papers: seq<Paper>)
    ensures ResearchContext(papers) == "" <==> papers == []
    ensures papers != [] ==> BlockHead(1, papers[0]) <= ResearchContext(papers)
  {
    if papers != [] {
      ContextBlocksAt(papers, 0);
      ContextBlockHead(1, papers[0]);
      PrefixThroughJoin(BlockHead(1, papers[0]), ContextBlocks(papers), BlockSeparator);
    }
  }

  /** Joining one more block puts the separator and that block at the end. */
  lemma ResearchContextSnoc(papers: seq<Paper>, p: Paper)
    requires papers != []
    ensures ResearchContext(papers + [p])
         == ResearchContext(papers) + BlockSeparator + ContextBlock(|papers| + 1, p)
  {
    assert (papers + [p])[..|papers|] == papers;
    JoinSnoc(ContextBlocks(papers), ContextBlock(|papers| + 1, p), BlockSeparator);
  }

  // ---------------------------------------------------------------------
  // Fallback summary

  /** The title, the count line and the rule that open the summary. */
  function FallbackHeader(count: nat): string {
    "# Research Paper Summary\n\n"
      + "Retrieved " + NatToString(count) + " relevant research papers:\n\n"
      + "---\n\n"
  }

  /** The heading line of a section, without its line break. */
  function SectionTitle(n: nat, p: Paper): string {
    "## " + NatToString(n) + ". " + p.title
  }

  /** A section up to the end of the source line. */
  function SectionHead(n: nat, p: Paper): string {
    SectionTitle(n, p) + "\n\n"
      + "**Authors:** " + AuthorLine(p.authors) + "\n"
      + "**Year:** " + IntToString(p.year) + " | **Source:** " + p.source
  }

  /** From the citation segment, if any, to the paper link. */
  function SectionBody(p: Paper): string {
    (if p.citations > 0 then " | **Citations:** " + NatToString(p.citations) else "")
      + "\n\n**Abstract:**\n" + p.summary + "\n\n"
      + "**Links:** [View Paper](" + p.url + ")"
  }

  /** What follows the paper link: the PDF link when there is one, then the
      closing rule. */
  function SectionTail(p: Paper): string {
    (if p.pdfUrl != "" then " | [PDF](" + p.pdfUrl + ")" else "") + SectionRule
  }

  /** The rule that closes every section. */
  const SectionRule := "\n\n---\n\n"

  /** The section for the `n`-th paper. */
  function Section(n: nat, p: Paper): string {
    SectionHead(n, p) + SectionBody(p) + SectionTail(p)
  }

  /** A section opens with "## ", its number, ". " and the title. */
  lemma SectionStart(n: nat, p: Paper)
    ensures SectionTitle(n, p) <= Section(n, p)
  {
    var title := SectionTitle(n, p);
    PrefixOfAppend(title, Section(n, p)[|title|..]);
  }

  /** A section ends with the closing rule. */
  lemma SectionEnd(n: nat, p: Paper)
    ensures EndsWith(Section(n, p), SectionRule)
  {
    var pdf := if p.pdfUrl != "" then " | [PDF](" + p.pdfUrl + ")" else "";
    EndsWithAppend(pdf, SectionRule);
    EndsWithExtend(SectionHead(n, p) + SectionBody(p), SectionTail(p), SectionRule);
  }

  /** Right after the source line comes " | **Citations:** " and the count
      exactly when the count is positive; otherwise the abstract heading
      follows at once. */
  lemma SectionCitations(p: Paper)
    ensures p.citations > 0 <==> " | **Citations:** " <= SectionBody(p)
    ensures p.citations > 0 ==> " | **Citations:** " + NatToString(p.citations) + "\n\n**Abstract:**\n" <= SectionBody(p)
    ensures p.citations <= 0 ==> "\n\n**Abstract:**\n" + p.summary <= SectionBody(p)
  {
    if p.citations <= 0 {
      assert SectionBody(p)[0] == '\n';
    }
  }

  /** After the paper link comes " | [PDF](" and the link exactly when the
      paper has a PDF link; either way the section ends with the rule. */
  lemma SectionPdfLink(p: Paper)
    ensures p.pdfUrl != "" <==> " | [PDF](" <= SectionTail(p)
    ensures p.pdfUrl != "" ==> SectionTail(p) == " | [PDF](" + p.pdfUrl + ")\n\n---\n\n"
    ensures p.pdfUrl == "" ==> SectionTail(p) == "\n\n---\n\n"
  {
    if p.pdfUrl == "" {
      assert SectionTail(p)[0] == '\n';
    }
  }

  /** All sections, numbered from 1 in list order. */
  function Sections(papers: seq<Paper>): string {
    if papers == [] then ""
    else Sections(papers[..|papers| - 1]) + Section(|papers|, papers[|papers| - 1])
  }

  /** What `_fallback_summary` returns. */
  function FallbackSummary(papers: seq<Paper>): string {
    FallbackHeader(|papers|) + Sections(papers)
  }

  /** The body of the loop in `_fallback_summary`: the section of the
      `n`-th paper, written piece by piece. */
  method BuildSection(n: nat, paper: Paper) returns (section: string)
    ensures section == Section(n, paper)
  {
    var authors := AuthorLine(paper.authors);
    var head := "## " + NatToString(n) + ". " + paper.title;
    head := head + "\n\n";
    head := head + "**Authors:** " + authors + "\n";
    head := head + "**Year:** " + IntToString(paper.year) + " | **Source:** " + paper.source;
    var body := "";
    if paper.citations > 0 {
      body := body + " | **Citations:** " + NatToString(paper.citations);
    }
    body := body + "\n\n**Abstract:**\n" + paper.summary + "\n\n";
    body := body + "**Links:** [View Paper](" + paper.url + ")";
    var tail := "";
    if paper.pdfUrl != "" {
      tail := tail + " | [PDF](" + paper.pdfUrl + ")";
    }
    tail := tail + "\n\n---\n\n";
    section := head + body + tail;
  }

  /** The opening of `_fallback_summary`. */
  method BuildHeader(count: nat) returns (summary: string)
    ensures summary == FallbackHeader(count)
  {
    summary := "# Research Paper Summary\n\n";
    summary := summary + "Retrieved " + NatToString(count) + " relevant research papers:\n\n";
    summary := summary + "---\n\n";
  }

  /** `_fallback_summary`: the header, then one section per paper appended
      in order. */
  method BuildFallbackSummary(papers: seq<Paper>) returns (summary: string)
    ensures summary == FallbackSummary(papers)
  {
    summary := BuildHeader(|papers|);
    for i := 0 to |papers|
      invariant summary == FallbackHeader(|papers|) + Sections(papers[..i])
    {
      var section := BuildSection(i + 1, papers[i]);
      FallbackStep(papers, i);
      summary := summary + section;
    }
    SliceAll(papers);
  }

  /** One turn of the loop appends the next section. */
  lemma FallbackStep(papers: seq<Paper>, i: nat)
    requires i < |papers|
    ensures FallbackHeader(|papers|) + Sections(papers[..i + 1])
         == FallbackHeader(|papers|) + Sections(papers[..i]) + Section(i + 1, papers[i])
  {
    SlicePlusOne(papers, i);
    SectionsSnoc(papers[..i], papers[i]);
    AppendAssoc(FallbackHeader(|papers|), Sections(papers[..i]), Section(i + 1, papers[i]));
  }

  /** The summary opens with its header. */
  lemma FallbackSummaryHeader(papers: seq<Paper>)
    ensures FallbackHeader(|papers|) <= FallbackSummary(papers)
  {
    PrefixOfAppend(FallbackHeader(|papers|), Sections(papers));
  }

  /** Adding a paper appends exactly its section, numbered by its position. */
  lemma SectionsSnoc(papers: seq<Paper>, p: Paper)
    ensures Sections(papers + [p]) == Sections(papers) + Section(|papers| + 1, p)
  {
    SnocParts(papers, p);
  }

  lemma SlicePlusOne<T>(xs: seq<T>, i: nat)
    requires i < |xs|
    ensures xs[..i + 1] == xs[..i] + [xs[i]]
  {
  }

  lemma SliceAll<T>(xs: seq<T>)
    ensures xs[..|xs|] == xs
  {
  }

  lemma SnocParts<T>(xs: seq<T>, x: T)
    ensures var ys := xs + [x]; ys != [] && ys[..|ys| - 1] == xs && ys[|ys| - 1] == x
  {
    assert (xs + [x])[..|xs|] == xs;
  }

  /** Each section, and so the summary of a non-empty list, ends with the
      closing rule. */
  lemma FallbackSummaryEnd(papers: seq<Paper>)
    requires papers != []
    ensures EndsWith(FallbackSummary(papers), SectionRule)
  {
    var p := papers[|papers| - 1];
    SectionEnd(|papers|, p);
    EndsWithExtend(Sections(papers[..|papers| - 1]), Section(|papers|, p), SectionRule);
    EndsWithExtend(FallbackHeader(|papers|), Sections(papers), SectionRule);
  }

  // ---------------------------------------------------------------------
  // research_topic

  /** What the paper fetcher produced: papers, or an exception. */
  datatype FetchOutcome = Fetched(papers: seq<Paper>) | FetchFailed(message: string)

  /** The paper search, for a topic and a maximum count. */
  type Fetcher = (string, int) -> FetchOutcome

  /** The path `research_topic` takes: a summary from the model alone, or a
      summary from the fetched papers and the context built from them. */
  datatype Route = SummaryOnly | FromPapers(papers: seq<Paper>, context: string)

  function ResearchRoute(topic: string, skipTools: bool, fetchPapers: bool, maxPapers: int, fetch: Fetcher): Route {
    if skipTools || !fetchPapers then SummaryOnly
    else match fetch(topic, maxPapers)
      case FetchFailed(_) => SummaryOnly
      case Fetched(papers) =>
        if papers == [] then SummaryOnly else FromPapers(papers, ResearchContext(papers))
  }

  /** `research_topic` up to the call of the model. */
  method ResearchTopic(topic: string, skipTools: bool, fetchPapers: bool, maxPapers: int, fetch: Fetcher)
    returns (route: Route)
    ensures route == ResearchRoute(topic, skipTools, fetchPapers, maxPapers, fetch)
  {
    if skipTools || !fetchPapers {
      return SummaryOnly;
    }
    var outcome := fetch(topic, maxPapers);
    if outcome.FetchFailed? {
      return SummaryOnly;
    }
    var papers := outcome.papers;
    if papers == [] {
      return SummaryOnly;
    }
    var context := BuildResearchContext(papers);
    route := FromPapers(papers, context);
  }

  /** The summary-only path is taken exactly when tools are skipped, fetching
      is off, the fetch fails or it finds nothing; otherwise the papers come
      with their context. */
  lemma ResearchRouteCases(topic: string, skipTools: bool, fetchPapers: bool, maxPapers: int, fetch: Fetcher)
    ensures var route := ResearchRoute(topic, skipTools, fetchPapers, maxPapers, fetch);
      && (route == SummaryOnly <==>
            skipTools || !fetchPapers || fetch(topic, maxPapers).FetchFailed? || fetch(topic, maxPapers).papers == [])
      && (route.FromPapers? ==>
            route.papers == fetch(topic, maxPapers).papers && route.papers != []
            && route.context == ResearchContext(route.papers) && route.context != "")
  {
    var route := ResearchRoute(topic, skipTools, fetchPapers, maxPapers, fetch);
    if route.FromPapers? {
      ResearchContextShape(route.papers);
    }
  }

  /** When tools are skipped or fetching is off, the fetcher is not
      consulted: any two fetchers give the same route. */
  lemma ResearchRouteSkips(topic: string, skipTools: bool, fetchPapers: bool, maxPapers: int, fetch1: Fetcher, fetch2: Fetcher)
    requires skipTools || !fetchPapers
    ensures ResearchRoute(topic, skipTools, fetchPapers, maxPapers, fetch1)
         == ResearchRoute(topic, skipTools, fetchPapers, maxPapers, fetch2)
  {
  }
}
