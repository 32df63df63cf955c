# Athena-V2 text and search core, in Dafny

Athena-V2 is a study assistant. It reads PDFs, indexes their text for
semantic search, writes research summaries from fetched paper records and
ships a logo whose white background is made transparent. This project
models the deterministic core of those features and proves what each one
promises.

- **PDF text** (`pdf_utils.dfy`, with `rewrites.dfy` and `strings.dfy`).
  - `clean_extracted_text` is the de-kerning cleaner. It runs fifteen
    passes that join letters and digits separated by one space, then five
    rewrites that put a space back after `.`, after `,`, around
    parentheses and between a lower-case and an upper-case letter, then
    squeezes runs of spaces and of newlines, then strips.
  - Each regular-expression substitution is a left-to-right scan with
    `re.sub`'s greedy, non-overlapping matching.
  - The proofs show four things about the cleaner:
    - it removes only whitespace;
    - its output is "well spaced": no pattern a rewrite targets is left,
      there are no double spaces and no triple newlines, and there is no
      outer whitespace;
    - fifteen rounds are enough once a pass changes nothing;
    - it is not idempotent.
  - From `extract_text_from_pdf` the model keeps three things:
    - the page concatenation, skipping empty pages;
    - the "No text could be extracted from PDF" error;
    - the fall-back to the raw text when cleaning keeps less than 20% of it.
- **Semantic search** (`semantic_search.dfy`).
  - The index is a function from query and `k` to the (text, L2 distance)
    hits the vector store returns.
  - The model covers:
    - the empty-chunk error of `build_semantic_index`;
    - the blank-query and no-hit guards of `search_semantic`;
    - the similarity `1 / (1 + d)`;
    - the stable descending sort (`list.sort(reverse=True)`);
    - the `>=` threshold filter of `search_semantic_with_threshold`.
- **Research summaries** (`research.dfy`).
  - `_build_research_context` formats one stripped block per paper and
    joins the blocks with `"\n\n---\n\n"`.
  - `_fallback_summary` formats a header and one Markdown section per
    paper, with the citation segment and the PDF link only when present.
  - `research_topic` chooses between a model-only summary and a summary
    from papers.
  - Both text builders are the source's loops, proved against
    specification functions.
- **Logo transparency** (`white_background.dfy`). The masking step works
  on the RGBA array in place:
  - a Boolean mask of pixels whose three colour channels all exceed the
    threshold;
  - then alpha 0 exactly there.
- **Worked cases** (`clean_cases.dfy`). These work out the cleaner on the
  five inputs of the module's self-test table.
  - Three come out as the table expects.
  - For two, the code gives something else:
    - `"G e e k s f o r G e e k s"` becomes `"Geeksfor Geeks"`, because
      the lower-to-upper rewrite splits `rG`;
    - `"Normal text should stay"` becomes `"Normaltextshouldstay"`,
      because every single space between two letters is collapsed.
  - The model follows the code, not the table's expectations.

## Model

| member | source | states |
|---|---|---|
| PdfUtils.CleanExtractedText | pdf_utils.py:9-29 | the loop of fifteen collapsing passes followed by the rewrites, squeezes and strip computes the cleaner's function; its result is well spaced and has the same non-whitespace characters, in order, as the input |
| PdfUtils.CollapseTimes | pdf_utils.py:15-16 | `k` successive collapsing passes |
| PdfUtils.Cleaned | pdf_utils.py:9-29 | the cleaner as one function: fifteen collapsing passes, the five rewrites, the two squeezes, the strip |
| PdfUtils.CleanedIsWellSpaced | pdf_utils.py:14-29 | every cleaned text begins and ends with a visible character, contains none of the re-spaced pairs, no double space and no three newlines in a row |
| PdfUtils.CleanedVisible | pdf_utils.py:14-29 | cleaning only adds or removes whitespace: the visible characters are exactly those of the input |
| PdfUtils.CollapseTimesVisible | pdf_utils.py:15-16 | any number of collapsing passes preserves the visible characters and never lengthens the text |
| PdfUtils.CollapseTimesSettles | pdf_utils.py:15-16 | once a pass changes nothing, further passes change nothing: fifteen rounds give the fixpoint whenever it is reached within fifteen |
| Rewrites.CollapseFrom | pdf_utils.py:16 | one scan of `re.sub(r'([A-Za-z0-9]) ([A-Za-z0-9])', r'\1\2')` from a position: at a letter-or-digit, space, letter-or-digit triple it writes the two outer characters and resumes after the triple, otherwise it copies one character |
| Rewrites.CollapsePass | pdf_utils.py:16 | the scan over the whole text: one collapsing substitution |
| Rewrites.CollapseFromLength | pdf_utils.py:16 | the collapsing scan never lengthens its input and shortens it exactly when a letter-or-digit, space, letter-or-digit triple occurs |
| Rewrites.CollapsePassChanges | pdf_utils.py:16 | a collapsing pass leaves the text unchanged exactly when it contains no such triple |
| Rewrites.CollapsePassDeletesOnlySpaces | pdf_utils.py:16 | a collapsing pass deletes only spaces with an ASCII letter or digit on each side: the output is the input with some such flanked spaces deleted and nothing else changed; hence also, with flanked spaces left out, with plain spaces left out, and with all whitespace left out, output and input are equal |
| Rewrites.CollapseFromUnflanked | pdf_utils.py:16 | the scan from any position, behind what it has written, keeps every character that is not a flanked space, in order, and deletes no other |
| Rewrites.CollapseFromDropsFlanked | pdf_utils.py:16 | the scan from any position yields the rest of the input with some flanked spaces deleted and nothing else changed |
| Rewrites.CollapseIsLeftmostNonOverlapping | pdf_utils.py:16 | matches are taken left to right without overlap: one pass turns "a b c" into "ab c", a second into "abc" |
| Rewrites.Matches | pdf_utils.py:19-23 | the five patterns of the space-inserting rewrites, each as a pair of adjacent characters, and the double space |
| Rewrites.SplitFrom | pdf_utils.py:19-23 | one scan of a space-inserting substitution: a matching pair is written with a space between and the scan resumes after the pair, otherwise one character is copied |
| Rewrites.SplitPass | pdf_utils.py:19-23 | the scan over the whole text: one space-inserting substitution |
| PdfUtils.SplitPassEffect | pdf_utils.py:19-23 | after the rewrite for a pattern no occurrence of it remains, no occurrence of another pattern is created, and deleting some plain spaces of the output gives back the input, so plain spaces are inserted and nothing else changes |
| Rewrites.SplitFromRemoves | pdf_utils.py:19-23 | the space-inserting scan leaves no adjacent pair matching its pattern |
| Rewrites.SplitFromKeeps | pdf_utils.py:19-23 | the scan for one pattern creates no occurrence of any other re-spaced pattern |
| Rewrites.SplitPassChanges | pdf_utils.py:19-23 | a space-inserting pass changes the text exactly when the text contains its pattern, and never shortens it |
| Rewrites.SplitFromInsertsSpaces | pdf_utils.py:19-23 | the space-inserting scan from any position changes only plain spaces: with plain spaces left out, its output equals the rest of the input |
| Rewrites.SplitFromOnlyInserts | pdf_utils.py:19-23 | the space-inserting scan from any position only inserts plain spaces: deleting some plain spaces of its output gives back the rest of the input |
| Rewrites.SplitPassInsertsSpaces | pdf_utils.py:19-23 | a space-inserting pass inserts plain spaces only: deleting some plain spaces of the output gives back the input; with plain spaces left out, and with all whitespace left out, the text is unchanged |
| PdfUtils.Respace | pdf_utils.py:19-23 | the five space-inserting substitutions, in the source's order |
| PdfUtils.RespaceEffect | pdf_utils.py:19-23 | after the five rewrites in the source's order, none of the five patterns occurs, and the visible characters are unchanged |
| Rewrites.SqueezeFrom | pdf_utils.py:26-27 | one scan of the `c{n,}` substitution: a run of at least `n` copies of `c`, taken whole, becomes `n - 1` copies and the scan resumes after the run, otherwise one character is copied |
| Rewrites.Squeeze | pdf_utils.py:26-27 | the scan over the whole text: one squeezing substitution |
| Rewrites.SqueezeFromRunsBelow | pdf_utils.py:26-27 | after the greedy `c{n,}` rewrite no run of `c` has length `n` or more |
| Rewrites.SqueezeFromLeadRun | pdf_utils.py:26-27 | a run of `n` or more copies becomes exactly `n - 1` copies and a shorter run is kept |
| Rewrites.SqueezeChanges | pdf_utils.py:26-27 | squeezing changes the text exactly when it contains a run of length `n` or more |
| Rewrites.SqueezeFromKeeps | pdf_utils.py:26-27 | squeezing creates no new adjacent pair of any of the rewrite patterns |
| Rewrites.SqueezeVisible | pdf_utils.py:26-27 | squeezing a whitespace character leaves the visible characters unchanged |
| Rewrites.SqueezeFromWithout | pdf_utils.py:26-27 | the squeezing scan from any position changes only copies of `c`: with `c` left out, its output equals the rest of the input |
| Rewrites.SqueezeFromOnlyDeletes | pdf_utils.py:26-27 | the squeezing scan from any position only deletes: its output is the rest of the input with some copies of `c` deleted |
| Rewrites.SqueezeRemovesOnly | pdf_utils.py:26-27 | squeezing runs of `c` only deletes copies of `c`: the output is the input with some copies of `c` deleted, and with `c` left out the two are equal |
| PdfUtils.Squeezed | pdf_utils.py:26-27 | runs of two or more spaces become one space, then runs of three or more newlines become two |
| PdfUtils.SqueezeEffect | pdf_utils.py:26-27 | a squeeze leaves no run of length `n` and keeps every pattern the text was free of |
| PdfUtils.SqueezedShape | pdf_utils.py:26-27 | after both squeezes the text has no double space and no three newlines in a row, and stays free of the re-spaced pairs |
| Rewrites.SpacesSqueezed | pdf_utils.py:26 | no run of two spaces means no adjacent pair of spaces |
| Rewrites.NewlinesSqueezed | pdf_utils.py:27 | no run of three newlines means no three newlines in a row |
| PdfUtils.StripShape | pdf_utils.py:29 | stripping a text free of the patterns keeps it free of them and leaves no outer whitespace |
| Strings.Strip | pdf_utils.py:29 | `str.strip()`: the result is the slice between the leading and the trailing whitespace, is empty exactly for all-whitespace input, and has no outer whitespace |
| Strings.IsSpace | pdf_utils.py:29 | Python's `str.isspace` for one character, which decides what `strip()` removes |
| Strings.StripVisible | pdf_utils.py:29 | stripping removes whitespace only |
| Strings.StripExact | main.py:78-85 | text with a visible first and last character, surrounded by whitespace only, is exactly what stripping returns |
| PdfUtils.PagesText | pdf_utils.py:75-79 | the raw text: every page that yielded text, each followed by a newline, in page order |
| PdfUtils.PagesTextBlank | pdf_utils.py:75-79 | the concatenated page text is all whitespace exactly when every page is |
| PdfUtils.PagesTextAppend | pdf_utils.py:75-79 | the concatenation of two runs of pages is the concatenation of their texts |
| PdfUtils.KeepOrRevert | pdf_utils.py:109-114 | the result is the cleaned text when it keeps at least a fifth of the raw length, otherwise the raw text; either way it is at least a fifth of the raw length |
| PdfUtils.ExtractedText | pdf_utils.py:75-114 | extraction fails, with "No text could be extracted from PDF", exactly when every page is blank |
| PdfUtils.ExtractedTextContent | pdf_utils.py:104-114 | a successful extraction keeps the visible characters of the page text, at least a fifth of its length, and is not blank |
| PdfUtils.ExtractTextFromPdf | pdf_utils.py:75-138 | the loop over the pages followed by the check, the cleaning and the sanity check computes the extraction result |
| CleanCases.CleanMonthRange | pdf_utils.py:207 | the cleaner turns the spaced-out month range into "May 2025 - Aug 2025" |
| CleanCases.CleanGeeks | pdf_utils.py:208 | the cleaner turns "G e e k s f o r G e e k s" into "Geeksfor Geeks" |
| CleanCases.CleanPython | pdf_utils.py:209 | the cleaner turns the spaced-out phrase into "Python programming" |
| CleanCases.CleanProblems | pdf_utils.py:210 | the cleaner turns the spaced-out phrase into "540 problems" |
| CleanCases.CleanNormalText | pdf_utils.py:211 | the cleaner turns "Normal text should stay" into "Normaltextshouldstay" |
| CleanCases.CleanTwice | pdf_utils.py:9-29 | cleaning "May 2025 - Aug 2025" again gives "May2025 - Aug2025": the cleaner is not idempotent |
| SemanticSearch.BuildSemanticIndex | semantic_search.py:34-35 | indexing fails with "No text chunks created from PDF" exactly when there are no chunks, and otherwise indexes the chunks unchanged |
| SemanticSearch.Similarity | semantic_search.py:79 | the similarity lies in (0, 1] and is 1 exactly at distance 0 |
| SemanticSearch.SimilarityDecreasing | semantic_search.py:74-79 | a strictly smaller distance gives a strictly higher similarity |
| SemanticSearch.SimilarityInverse | semantic_search.py:74-79 | the distance can be recovered from the similarity as `1/s - 1` |
| SemanticSearch.ScoreHit | semantic_search.py:77-82 | a scored hit keeps the chunk text, with a score in (0, 1] |
| SemanticSearch.ScoredHits | semantic_search.py:76-82 | every hit scored, one result per hit, in hit order |
| SemanticSearch.ScoreHits | semantic_search.py:76-82 | the loop scores every hit, in the order the index returned them |
| SemanticSearch.ScoredHitsOrdered | semantic_search.py:84 | hits ordered nearest first give scores in descending order |
| SemanticSearch.InsertPermutes | semantic_search.py:85 | inserting into the sorted list adds exactly the one element |
| SemanticSearch.InsertSorted | semantic_search.py:85 | inserting into a descending list keeps it descending |
| SemanticSearch.SortDesc | semantic_search.py:85 | the sort returns a descending permutation of its input |
| SemanticSearch.SortDescStable | semantic_search.py:85 | the sort is stable: the results with any given score keep their relative order |
| SemanticSearch.SortDescOfSorted | semantic_search.py:84-85 | a list already in descending order is returned unchanged |
| SemanticSearch.SearchResults | semantic_search.py:57-67 | a blank or empty query, or an index that returns nothing, gives no results |
| SemanticSearch.SearchSemantic | semantic_search.py:54-88 | the method computes the search results |
| SemanticSearch.SearchBlankQuery | semantic_search.py:57-59 | for a blank query the index is not consulted: every index gives no results |
| SemanticSearch.SearchResultsOrdered | semantic_search.py:70-88 | the results are the scored hits, sorted descending by score, as a permutation that keeps ties in index order |
| SemanticSearch.SearchOfOrderedHits | semantic_search.py:84-85 | when the index returns hits nearest first, the sort changes nothing |
| SemanticSearch.AboveThreshold | semantic_search.py:115 | the filter keeps, in order, exactly the results whose score is at least the minimum |
| SemanticSearch.AboveThresholdCounts | semantic_search.py:115 | the filter keeps every copy of a result whose score is at least the minimum and no copy of any other |
| SemanticSearch.SubsequenceSorted | semantic_search.py:115 | a subsequence of a descending list is descending and contains only its elements |
| SemanticSearch.AboveThresholdSorted | semantic_search.py:115 | filtering a descending list keeps it descending |
| SemanticSearch.SearchSemanticWithThreshold | semantic_search.py:112-119 | the threshold search filters the search results, and its answer is in descending order |
| Strings.Join | main.py:74 | `sep.join` of no parts is the empty string |
| Strings.JoinSnoc | main.py:87 | joining one more part appends the separator and the part |
| Strings.NatToString | main.py:79 | the decimal rendering of a number is non-empty and starts with a digit |
| Strings.ParseNatToString | main.py:79 | the rendering is all digits, starts with '0' only for zero, and reads back as the number |
| Strings.IntToString | main.py:81 | the rendering of an integer starts with '-' exactly when it is negative |
| Research.AuthorLine | main.py:74-76 | the first three authors joined by ", ", followed by " et al." when there are more than three; the same line is built again in the summary at lines 225-227 |
| Research.AuthorLineAll | main.py:73-76 | with at most three authors, all are listed, joined by ", " |
| Research.AuthorLineTruncated | main.py:73-76 | with more than three authors, the line is the first three followed by " et al." and depends on nothing else |
| Research.CitationField | main.py:83 | the citation field is "N/A" exactly when the count is not positive, and the count otherwise |
| Research.BlockHead | main.py:78-84 | a block's head is non-empty, starts with "[" and ends with ":" |
| Research.BlockHeadShape | main.py:78-84 | a block's head starts with "[Paper ", the number, "] " and the title, and ends with a line break followed by "Abstract:" |
| Research.ContextBlock | main.py:78-85 | the block of the `n`-th paper: the template filled in, stripped |
| Research.ContextBlockHead | main.py:78-85 | after stripping, a block starts with its paper number, title, authors, year, source and citation field |
| Research.ContextBlockExact | main.py:78-85 | when the abstract ends in a visible character, the block is the head, a space and the abstract |
| Research.ContextBlocks | main.py:73-85 | there is one block per paper |
| Research.ContextBlocksAt | main.py:73-85 | block `i` is that of paper `i`, numbered from 1 |
| Research.BuildResearchContext | main.py:68-87 | the loop builds the blocks in order and joins them with the rule |
| Research.ResearchContext | main.py:87 | the blocks joined with the rule `"\n\n---\n\n"` |
| Research.ResearchContextShape | main.py:87 | the context is empty exactly when there are no papers, and otherwise starts with the first paper's head |
| Research.ResearchContextSnoc | main.py:87 | one more paper appends the rule and its block |
| Research.FallbackHeader | main.py:220-222 | the title line, the count line and the rule that open the summary |
| Research.BuildHeader | main.py:220-222 | the three header statements build the header for the paper count |
| Research.FallbackSummaryHeader | main.py:220-222 | the fallback summary starts with the header for the paper count |
| Research.BuildSection | main.py:224-242 | the statements of one loop iteration build the paper's section |
| Research.Section | main.py:224-242 | the section of the `n`-th paper: heading, authors, year and source, the citation segment when the count is positive, the abstract, the link, the PDF link when present, the rule |
| Research.Sections | main.py:224-242 | the sections of all papers, numbered from 1 in list order |
| Research.FallbackSummary | main.py:217-244 | the header followed by every section |
| Research.SectionStart | main.py:229 | a section starts with "## ", its number, ". " and the title |
| Research.SectionEnd | main.py:242 | a section ends with the closing rule |
| Research.SectionCitations | main.py:233-236 | the citation segment appears exactly when the count is positive; otherwise the abstract heading follows the source at once |
| Research.SectionPdfLink | main.py:239-242 | the PDF link appears exactly when the paper has one, and the section then ends with the rule |
| Research.SectionsSnoc | main.py:224-242 | one more paper appends its section, numbered after the others |
| Research.BuildFallbackSummary | main.py:217-244 | the loop builds the header followed by every section in order |
| Research.FallbackSummaryEnd | main.py:242-244 | with at least one paper, the summary ends with the closing rule |
| Research.ResearchTopic | main.py:28-59 | the method takes the route the branch structure determines, building the context only on the paper path |
| Research.ResearchRoute | main.py:28-59 | the branch structure: a model-only summary when tools are skipped, fetching is off, the fetch raises or finds nothing, otherwise the papers and their context |
| Research.ResearchRouteCases | main.py:28-59 | the model-only summary is chosen exactly when tools are skipped, fetching is off, the fetch raises or finds nothing; otherwise the fetched papers go on with their non-empty context |
| Research.ResearchRouteSkips | main.py:28-29 | when tools are skipped or fetching is off, the fetcher is not consulted |
| WhiteBackground.IsWhite | remove_white_background.py:33-35 | a pixel is white when each of its three colour channels is strictly above the threshold |
| WhiteBackground.MaskPixel | remove_white_background.py:33-38 | a white pixel gets alpha 0, any other pixel is unchanged, and the colour channels never change |
| WhiteBackground.MaskPixelCases | remove_white_background.py:33-38 | a channel equal to the threshold does not count as white; a pixel ends transparent exactly when it is white or already was |
| WhiteBackground.MaskPixelIdempotent | remove_white_background.py:33-38 | the mask depends only on the colour channels, so masking twice is masking once |
| WhiteBackground.MaskImage | remove_white_background.py:33-38 | every pixel of the image is masked, and the dimensions are kept |
| WhiteBackground.MaskImageIdempotent | remove_white_background.py:33-38 | running the step twice on an image gives the same result as once |
| WhiteBackground.ImageOf | remove_white_background.py:29 | the array read as rows of RGBA pixels |
| WhiteBackground.RemoveWhiteBackground | remove_white_background.py:29-38 | computing the mask over the whole array, then overwriting alpha where it holds, turns the array's contents into the masked image of the old contents |

## Left out

- Reading the PDF (PyPDF2, pdfplumber) and its page objects are not part of this model. The pages arrive as the strings `extract_text` returned, and a page that returned `None` is the empty string.
- The agent tracker and its rewards are left out, and so are timing, `print` output and the filename logic of `extract_text_from_pdf`. None of them affects the returned text.
- The exception re-raise paths of `extract_text_from_pdf`, `build_semantic_index` and `search_semantic` are left out. Each error raised by the modelled code becomes a `Failure` result.
- SemanticSearch.BuildSemanticIndex: the embedding model, the recursive text splitter and the FAISS store are outside the model. The chunks are an input, and the index is a function from query and `k` to hits.
- SemanticSearch.SearchResults: the model does not state that at most `k` hits are returned, because that bound belongs to the vector store.
- SemanticSearch: distances and similarities are real numbers, not binary floating point. Distances are assumed non-negative, as L2 distances are.
- PdfUtils.KeepOrRevert: the float comparison `len(cleaned) < len(text) * 0.2` is stated as the equivalent integer comparison `5 * len(cleaned) < len(text)`.
- The model-calling functions of main.py are left out because they are network calls. These are `_generate_summary_only`, `_generate_research_summary` and the HTTP request inside them. Research.ResearchTopic stops at the route it would hand them.
- `PaperFetcher` is not part of this model. Its `search_papers` is the `Fetcher` parameter, and an exception it raises is `FetchFailed`.
- Research.Paper: the `ResearchPaper` class is not part of this model. Its record is the `Paper` datatype, the `abstract` field is called `summary` because `abstract` is a Dafny keyword, and the year is an integer.
- WhiteBackground.RemoveWhiteBackground: opening the image, converting it to RGBA, resizing and saving are left out as Pillow I/O. The conversion is what guarantees the fourth dimension of length 4 that the method requires.
- The GUI modules, the voice engine and the styling files are outside the core.
