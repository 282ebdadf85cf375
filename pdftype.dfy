/** The page-by-page check that tells a scanned PDF from one with a text layer. */
module PdfType {

  import opened Wrappers
  import opened Strings

  /** What the PDF library reports for one page: its text and how many images it holds. */
  datatype Page = Page(text: string, images: nat)

  const MinTextLength := 50

  predicate IsTextPage(p: Page) {
    |Strip(p.text)| > MinTextLength
  }

  /** A page without meaningful text counts as an image page when it holds an image. */
  predicate IsImagePage(p: Page) {
    !IsTextPage(p) && p.images > 0
  }

  function TextPages(pages: seq<Page>): nat {
    CountWhere(pages, IsTextPage)
  }

  function ImagePages(pages: seq<Page>): nat {
    CountWhere(pages, IsImagePage)
  }

  datatype PdfKind = Scanned | Text | Unknown | Error

  /** The verdict the two counters give. */
  function KindOf(textPages: nat, imagePages: nat): (k: PdfKind)
    ensures k == Scanned <==> textPages == 0 && imagePages > 0
    ensures k == Text <==> textPages > 0
    ensures k == Unknown <==> textPages == 0 && imagePages == 0
  {
    if textPages == 0 && imagePages > 0 then Scanned
    else if textPages > 0 then Text
    else Unknown
  }

  /** The result of `check_pdf_content`; a document that cannot be read is an error. */
  function PdfKindOf(doc: Option<seq<Page>>): PdfKind {
    if doc.None? then Error else KindOf(TextPages(doc.value), ImagePages(doc.value))
  }

  /** `check_pdf_content`: count text and image pages, then map the counts to a verdict. */
  method CheckPdfContent(doc: Option<seq<Page>>) returns (kind: PdfKind)
    ensures kind == PdfKindOf(doc)
  {
    if doc.None? {
      return Error;
    }
    var textPages, imagePages := CountPages(doc.value);
    if textPages == 0 && imagePages > 0 {
      kind := Scanned;
    } else if textPages > 0 {
      kind := Text;
    } else {
      kind := Unknown;
    }
  }

  /** The page loop of `check_pdf_content`. */
  method CountPages(pages: seq<Page>) returns (textPages: nat, imagePages: nat)
    ensures textPages == TextPages(pages) && imagePages == ImagePages(pages)
  {
    textPages, imagePages := 0, 0;
    for pageNum := 0 to |pages|
      invariant textPages == TextPages(pages[..pageNum]) && imagePages == ImagePages(pages[..pageNum])
    {
      CountsStep(pages, pageNum);
      var page := pages[pageNum];
      var textLength := |Strip(page.text)|;
      if textLength > 50 {
        textPages := textPages + 1;
      } else if page.images > 0 {
        imagePages := imagePages + 1;
      }
    }
    assert pages[..|pages|] == pages;
  }

  /** Reading one more page adds at most that page to one counter. */
  lemma CountsStep(pages: seq<Page>, k: nat)
    requires k < |pages|
    ensures TextPages(pages[..k + 1]) == TextPages(pages[..k]) + (if IsTextPage(pages[k]) then 1 else 0)
    ensures ImagePages(pages[..k + 1]) == ImagePages(pages[..k]) + (if IsImagePage(pages[k]) then 1 else 0)
  {
    CountWhereStep(pages, IsTextPage, k);
    CountWhereStep(pages, IsImagePage, k);
  }

  /** No page is counted twice. */
  lemma {:induction false} CountsBounded(pages: seq<Page>)
    ensures TextPages(pages) + ImagePages(pages) <= |pages|
  {
    if pages != [] {
      CountsBounded(pages[..|pages| - 1]);
    }
  }

  /** Both counters only grow as pages are read. */
  lemma {:induction false} CountsGrow(pages: seq<Page>, k: nat)
    requires k <= |pages|
    ensures TextPages(pages[..k]) <= TextPages(pages) && ImagePages(pages[..k]) <= ImagePages(pages)
    decreases |pages|
  {
    if k < |pages| {
      assert pages[..|pages| - 1][..k] == pages[..k];
      CountsGrow(pages[..|pages| - 1], k);
    } else {
      assert pages[..k] == pages;
    }
  }

  /** No text page counted iff no page has meaningful text. */
  lemma NoTextPages(pages: seq<Page>)
    ensures TextPages(pages) == 0 <==> forall i :: 0 <= i < |pages| ==> !IsTextPage(pages[i])
  {
    CountWhereZero(pages, IsTextPage);
  }

  /** Some image page counted iff some page is an image page. */
  lemma SomeImagePage(pages: seq<Page>)
    ensures ImagePages(pages) > 0 <==> exists i :: 0 <= i < |pages| && IsImagePage(pages[i])
  {
    CountWhereZero(pages, IsImagePage);
  }

  /** Scanned means: no page has meaningful text and some page holds an image. */
  lemma ScannedIff(pages: seq<Page>)
    ensures PdfKindOf(Some(pages)) == Scanned <==>
      (forall i :: 0 <= i < |pages| ==> !IsTextPage(pages[i])) && exists i :: 0 <= i < |pages| && pages[i].images > 0
  {
    NoTextPages(pages);
    SomeImagePage(pages);
  }

  /** A document without pages is of unknown type, not scanned. */
  lemma EmptyDocumentUnknown()
    ensures PdfKindOf(Some([])) == Unknown
  {
  }

  /** The threshold is strict: a page with exactly 50 characters of text is not a text page. */
  lemma FiftyIsNotText(text: string, images: nat)
    requires |Strip(text)| == MinTextLength
    ensures PdfKindOf(Some([Page(text, images)])) == (if images > 0 then Scanned else Unknown)
  {
    var pages := [Page(text, images)];
    assert pages[..0] == [];
  }
}
