/** The text side of PDF extraction: the de-kerning cleaner
    `clean_extracted_text` and, from `extract_text_from_pdf`, the joining of
    page texts, the empty-document error and the fall-back to the raw text
    when cleaning has shrunk it too far. Parsing the PDF itself is outside
    the model: the pages arrive as the strings the parser extracted. */
module PdfUtils {
  import opened Strings
  import opened Rewrites
  import opened Results

  /** The cleaner applies the collapsing rewrite this many times. */
  const CollapseRounds: nat := 15

  /** `k` successive collapsing passes. */
  function CollapseTimes(s: string, k: nat): string {
    if k == 0 then s else CollapsePass(CollapseTimes(s, k - 1))
  }

  /** The five space-inserting rewrites, in the order the cleaner runs them. */
  function Respace(s: string): string {
    var s1 := SplitPass(s, DotUpper);
    var s2 := SplitPass(s1, CommaLetter);
    var s3 := SplitPass(s2, LetterParen);
    var s4 := SplitPass(s3, ParenLetter);
    SplitPass(s4, LowerUpper)
  }

  /** Runs of two or more spaces become one space, then runs of three or more
      newlines become two newlines. */
  function Squeezed(s: string): string {
    Squeeze(Squeeze(s, ' ', 2), '\n', 3)
  }

  /** What the cleaner computes: collapse, re-space, squeeze runs of spaces
      and of newlines, strip. */
  function Cleaned(text: string): string {
    Strip(Squeezed(Respace(CollapseTimes(text, CollapseRounds))))
  }

  /** The shape every cleaned text has. */
  predicate WellSpaced(s: string) {
    && (s == [] || (!IsSpace(s[0]) && !IsSpace(s[|s| - 1])))
    && (forall p: PairPattern :: FreeOf(s, p))
    && NoTripleNewline(s)
  }

  /** The cleaner's loop, as the source writes it: fifteen collapsing passes,
      then each rewrite in turn, then `strip`. */
  method CleanExtractedText(text: string) returns (cleaned: string)
    ensures cleaned == Cleaned(text)
    ensures WellSpaced(cleaned)
    ensures Visible(cleaned) == Visible(text)
  {
    var t := text;
    for round := 0 to CollapseRounds
      invariant t == CollapseTimes(text, round)
    {
      t := CollapsePass(t);
    }
    t := SplitPass(t, DotUpper);
    t := SplitPass(t, CommaLetter);
    t := SplitPass(t, LetterParen);
    t := SplitPass(t, ParenLetter);
    t := SplitPass(t, LowerUpper);
    t := Squeeze(t, ' ', 2);
    t := Squeeze(t, '\n', 3);
    cleaned := Strip(t);
    CleanedIsWellSpaced(text);
    CleanedVisible(text);
  }

  // ---------------------------------------------------------------------
  // Properties of the cleaner

  lemma {:induction false} CollapseTimesVisible(s: string, k: nat)
    ensures Visible(CollapseTimes(s, k)) == Visible(s)
    ensures |CollapseTimes(s, k)| <= |s|
  {
    if k > 0 {
      CollapseTimesVisible(s, k - 1);
      CollapsePassDeletesOnlySpaces(CollapseTimes(s, k - 1));
      CollapsePassChanges(CollapseTimes(s, k - 1));
    }
  }

  /** Once a pass changes nothing, further passes change nothing. */
  lemma {:induction false} CollapseTimesSettles(s: string, k: nat, m: nat)
    requires k <= m && CollapsePass(CollapseTimes(s, k)) == CollapseTimes(s, k)
    ensures CollapseTimes(s, m) == CollapseTimes(s, k)
    decreases m - k
  {
    if k < m {
      CollapseTimesSettles(s, k, m - 1);
    }
  }

  /** A space-inserting pass removes its own pattern, keeps every other
      space-free pattern absent, and inserts plain spaces only. */
  lemma SplitPassEffect(s: string, r: SplitRule)
    ensures FreeOf(SplitPass(s, r), r)
    ensures forall p: SplitRule :: FreeOf(s, p) ==> FreeOf(SplitPass(s, r), p)
    ensures DeletesOnly(SplitPass(s, r), s, ' ')
    ensures Without(SplitPass(s, r), ' ') == Without(s, ' ')
    ensures Visible(SplitPass(s, r)) == Visible(s)
  {
    SplitFromRemoves(s, 0, r);
    forall p: SplitRule | FreeOf(s, p)
      ensures FreeOf(SplitPass(s, r), p)
    {
      SplitFromKeeps(s, 0, r, p);
    }
    SplitPassInsertsSpaces(s, r);
  }

  lemma RespaceEffect(s: string)
    ensures forall p: SplitRule :: FreeOf(Respace(s), p)
    ensures Visible(Respace(s)) == Visible(s)
  {
    var s1 := SplitPass(s, DotUpper);
    var s2 := SplitPass(s1, CommaLetter);
    var s3 := SplitPass(s2, LetterParen);
    var s4 := SplitPass(s3, ParenLetter);
    var s5 := SplitPass(s4, LowerUpper);
    SplitPassEffect(s, DotUpper);
    SplitPassEffect(s1, CommaLetter);
    SplitPassEffect(s2, LetterParen);
    SplitPassEffect(s3, ParenLetter);
    SplitPassEffect(s4, LowerUpper);
    forall p: SplitRule
      ensures FreeOf(s5, p)
    {
      match p
      case DotUpper =>
      case CommaLetter =>
      case LetterParen =>
      case ParenLetter =>
      case LowerUpper =>
    }
  }

  lemma SqueezeEffect(s: string, c: char, n: nat)
    requires n >= 2
    ensures forall p: PairPattern :: FreeOf(s, p) ==> FreeOf(Squeeze(s, c, n), p)
    ensures RunsBelow(Squeeze(s, c, n), c, n)
  {
    forall p: PairPattern | FreeOf(s, p)
      ensures FreeOf(Squeeze(s, c, n), p)
    {
      SqueezeFromKeeps(s, 0, c, n, p);
    }
    SqueezeFromRunsBelow(s, 0, c, n);
  }

  /** Before the final strip, none of the six glued pairs and no three
      newlines in a row are left. */
  lemma SqueezedShape(s: string)
    requires forall p: SplitRule :: FreeOf(s, p)
    ensures forall p: PairPattern :: FreeOf(Squeezed(s), p)
    ensures NoTripleNewline(Squeezed(s))
  {
    var t6 := Squeeze(s, ' ', 2);
    var t7 := Squeeze(t6, '\n', 3);
    SqueezeEffect(s, ' ', 2);
    SpacesSqueezed(t6);
    SqueezeEffect(t6, '\n', 3);
    NewlinesSqueezed(t7);
    forall p: PairPattern
      ensures FreeOf(t7, p)
    {
      if p != DoubleSpace {
        var r: SplitRule := p;
        assert FreeOf(s, r);
      }
    }
  }

  /** Stripping keeps both properties, since it cuts out a slice. */
  lemma StripShape(t: string)
    requires forall p: PairPattern :: FreeOf(t, p)
    requires NoTripleNewline(t)
    ensures WellSpaced(Strip(t))
  {
    var lo := LeadingSpace(t);
    var r := Strip(t);
    forall p: PairPattern
      ensures FreeOf(r, p)
    {
      FreeOfSlice(t, lo, lo + |r|, p);
    }
    NoTripleNewlineSlice(t, lo, lo + |r|);
  }

  /** The cleaned text starts and ends with a non-whitespace character, holds
      none of the glued pairs the rewrites separate ('.' before a capital, ','
      before a letter, a letter before '(', ')' before a letter, a lower-case
      letter before a capital), no two spaces in a row and no three newlines
      in a row. */
  lemma CleanedIsWellSpaced(text: string)
    ensures WellSpaced(Cleaned(text))
  {
    var t5 := Respace(CollapseTimes(text, CollapseRounds));
    RespaceEffect(CollapseTimes(text, CollapseRounds));
    SqueezedShape(t5);
    StripShape(Squeezed(t5));
  }

  /** Cleaning only ever removes or inserts whitespace: the visible
      characters of the text come out unchanged and in order. */
  lemma CleanedVisible(text: string)
    ensures Visible(Cleaned(text)) == Visible(text)
  {
    var t0 := CollapseTimes(text, CollapseRounds);
    var t5 := Respace(t0);
    var t6 := Squeeze(t5, ' ', 2);
    var t7 := Squeeze(t6, '\n', 3);
    assert Cleaned(text) == Strip(t7);
    CollapseTimesVisible(text, CollapseRounds);
    RespaceEffect(t0);
    SqueezeVisible(t5, ' ', 2);
    SqueezeVisible(t6, '\n', 3);
    StripVisible(t7);
  }

  // ---------------------------------------------------------------------
  // From extract_text_from_pdf: joining the pages, the empty-document error
  // and the fall-back to the raw text

  /** The message of the error raised when no page yields any text. */
  const NoTextMessage := "No text could be extracted from PDF"

  /** The raw text: every page that yielded some text, followed by a
      newline, in page order. */
  function PagesText(pages: seq<string>): string {
    if pages == [] then ""
    else
      var page := pages[|pages| - 1];
      PagesText(pages[..|pages| - 1]) + (if page != "" then page + "\n" else "")
  }

  /** The raw text is blank exactly when every page is. */
  lemma {:induction false} PagesTextBlank(pages: seq<string>)
    ensures AllSpace(PagesText(pages)) <==> forall i :: 0 <= i < |pages| ==> AllSpace(pages[i])
  {
    if pages != [] {
      var init, page := pages[..|pages| - 1], pages[|pages| - 1];
      PagesTextBlank(init);
      AllSpaceAppend(PagesText(init), if page != "" then page + "\n" else "");
      AllSpaceAppend(page, "\n");
      assert forall i :: 0 <= i < |pages| - 1 ==> pages[i] == init[i];
    }
  }

  /** Joining pages one after another is joining their texts. */
  lemma {:induction false} PagesTextAppend(a: seq<string>, b: seq<string>)
    ensures PagesText(a + b) == PagesText(a) + PagesText(b)
    decreases |b|
  {
    if b == [] {
      assert a + b == a;
    } else {
      var init := b[..|b| - 1];
      assert (a + b)[..|a + b| - 1] == a + init;
      PagesTextAppend(a, init);
    }
  }

  /** The decision at the end of extraction: a cleaned text shorter than a
      fifth of the raw text is discarded in favour of the raw text. The
      source compares `len(cleaned) < len(raw) * 0.2`; over the integers
      that is `5 * len(cleaned) < len(raw)`. */
  function KeepOrRevert(raw: string, cleaned: string): (r: string)
    ensures r == raw || r == cleaned
    ensures r == cleaned <==> (5 * |cleaned| >= |raw| || cleaned == raw)
    ensures 5 * |r| >= |raw|
  {
    if 5 * |cleaned| < |raw| then raw else cleaned
  }

  /** What extraction returns for the given page texts. */
  function ExtractedText(pages: seq<string>): (r: Result<string>)
    ensures r.Failure? <==> forall i :: 0 <= i < |pages| ==> AllSpace(pages[i])
    ensures r.Failure? ==> r.error == NoTextMessage
  {
    var raw := PagesText(pages);
    PagesTextBlank(pages);
    if Strip(raw) == "" then Failure(NoTextMessage)
    else Success(KeepOrRevert(raw, Cleaned(raw)))
  }

  /** A successful extraction returns non-blank text with the same visible
      characters as the pages, never shorter than a fifth of the raw text. */
  lemma ExtractedTextContent(pages: seq<string>)
    requires ExtractedText(pages).Success?
    ensures Visible(ExtractedText(pages).value) == Visible(PagesText(pages))
    ensures 5 * |ExtractedText(pages).value| >= |PagesText(pages)|
    ensures !AllSpace(ExtractedText(pages).value)
  {
    var raw := PagesText(pages);
    CleanedVisible(raw);
    VisibleEmpty(raw);
    VisibleEmpty(ExtractedText(pages).value);
  }

  /** The extraction loop of the source over the pages' texts, then the
      empty check, the cleaner and the fall-back. */
  method ExtractTextFromPdf(pages: seq<string>) returns (r: Result<string>)
    ensures r == ExtractedText(pages)
  {
    var text := "";
    for i := 0 to |pages|
      invariant text == PagesText(pages[..i])
    {
      assert pages[..i + 1][..i] == pages[..i];
      if pages[i] != "" {
        text := text + pages[i] + "\n";
      }
    }
    assert pages[..|pages|] == pages;
    if Strip(text) == "" {
      return Failure(NoTextMessage);
    }
    var cleaned := CleanExtractedText(text);
    if 5 * |cleaned| < |text| {
      cleaned := text;
    }
    r := Success(cleaned);
  }
}
