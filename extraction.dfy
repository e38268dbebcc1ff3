/** Text extraction from a PDF: the text of every page, in document order. */
module Extraction {
  import opened PyText

  /** The page texts joined in order, with no separator: the first page opens the text and the last one closes it. */
  function Concat(pages: seq<string>): (text: string)
    ensures pages != [] ==> StartsWith(text, pages[0]) && EndsWith(text, pages[|pages| - 1])
  {
    if pages == [] then [] else Concat(pages[..|pages| - 1]) + pages[|pages| - 1]
  }

  /** The extraction loop: starts from the empty text and appends each page's text in turn. */
  method ExtractTextFromPdf(pages: seq<string>) returns (text: string)
    ensures text == Concat(pages)
  {
    text := "";
    for i := 0 to |pages|
      invariant text == Concat(pages[..i])
    {
      assert pages[..i + 1][..i] == pages[..i];
      text := text + pages[i];
    }
    assert pages[..|pages|] == pages;
  }

  /** Every page's text is empty or all whitespace. */
  predicate AllPagesBlank(pages: seq<string>)
  {
    forall i :: 0 <= i < |pages| ==> AllWhitespace(pages[i])
  }

  lemma AllPagesBlankSplit(pages: seq<string>)
    requires pages != []
    ensures AllPagesBlank(pages) <==>
      AllPagesBlank(pages[..|pages| - 1]) && AllWhitespace(pages[|pages| - 1])
  {
    var init := pages[..|pages| - 1];
    assert forall i :: 0 <= i < |init| ==> init[i] == pages[i];
  }

  /** The document has no readable text exactly when no page has any. */
  lemma {:induction false} BlankDocumentIffBlankPages(pages: seq<string>)
    ensures AllWhitespace(Concat(pages)) <==> AllPagesBlank(pages)
    decreases |pages|
  {
    if pages != [] {
      var n := |pages| - 1;
      BlankDocumentIffBlankPages(pages[..n]);
      AllWhitespaceConcat(Concat(pages[..n]), pages[n]);
      AllPagesBlankSplit(pages);
    }
  }
}
