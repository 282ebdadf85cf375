/**
 * Adaptive text extraction for PDF files: native extraction first, OCR when
 * the native text is too short or the native engine fails. The native engine
 * (pymupdf4llm) and the page renderer plus OCR engine (pdf2image, tesseract)
 * are inputs: what they returned for the file.
 */
module Extraction {

  import opened Wrappers
  import opened Strings

  /** What rendering the pages and running OCR on each of them produced. */
  datatype OcrRun =
    | OcrFailed                        // the renderer or the OCR engine raised
    | OcrPages(pages: seq<string>)     // the recognised text of each page, in page order

  /** Native text is accepted only when its stripped length exceeds this. */
  const MinNativeLength: nat := 100

  /** What every OCR page block starts with. */
  const PageMarkerPrefix := "=== Страница "

  /** The marker line of page number `n` (counted from 1). */
  function PageMarker(n: nat): string {
    PageMarkerPrefix + NatToString(n) + " ===\n"
  }

  function PageBlock(n: nat, text: string): string {
    PageMarker(n) + text
  }

  /** The blocks of the non-blank pages, each numbered by its position in the document. */
  function PageBlocks(pages: seq<string>): seq<string> {
    KeepNumbered(pages, (n: nat, p: string) => Strip(p) != "", (n: nat, p: string) => PageBlock(n, p))
  }

  /** The OCR path's result for a run: None when the engine raised. */
  function OcrText(run: OcrRun): Option<string> {
    match run
    case OcrFailed => None
    case OcrPages(pages) => Some(Join("\n\n", PageBlocks(pages)))
  }

  /** The page loop of `extract_text_with_ocr`. */
  method ExtractTextWithOcr(run: OcrRun) returns (r: Option<string>)
    ensures r == OcrText(run)
  {
    if run.OcrFailed? {
      return None;
    }
    var pages := run.pages;
    var allText: seq<string> := [];
    var i := 0;
    while i < |pages|
      invariant 0 <= i <= |pages|
      invariant allText == PageBlocks(pages[..i])
    {
      var text := pages[i];
      if Strip(text) != "" {
        allText := allText + [PageBlock(i + 1, text)];
      }
      assert pages[..i + 1][..i] == pages[..i];
      i := i + 1;
    }
    assert pages[..i] == pages;
    r := Some(Join("\n\n", allText));
  }

  /** Native text passes the quality gate. */
  predicate NativeAccepted(native: Option<string>) {
    native.Some? && |Strip(native.value)| > MinNativeLength
  }

  /** What `smart_extract_text` returns: the native text if it passes the gate, else the OCR result. */
  function SmartText(native: Option<string>, run: OcrRun): Option<string> {
    if NativeAccepted(native) then native else OcrText(run)
  }

  /** `smart_extract_text`: the native engine's result (None when it raised) and the OCR run. */
  method SmartExtractText(native: Option<string>, run: OcrRun) returns (r: Option<string>)
    ensures r == SmartText(native, run)
  {
    if native.Some? && |Strip(native.value)| > 100 {
      return native;
    }
    r := ExtractTextWithOcr(run);
  }

  /** Python truthiness of the extraction result: neither None nor "". */
  predicate Truthy(text: Option<string>) {
    text.Some? && text.value != ""
  }

  predicate AllBlank(pages: seq<string>) {
    forall j :: 0 <= j < |pages| ==> Strip(pages[j]) == ""
  }

  /** Each block belongs to a non-blank page and carries that page's number; every non-blank page has its block. */
  lemma PageBlocksMembers(pages: seq<string>)
    ensures forall b :: b in PageBlocks(pages) ==>
      exists j: nat :: j < |pages| && Strip(pages[j]) != "" && b == PageBlock(j + 1, pages[j])
    ensures forall j: nat :: j < |pages| && Strip(pages[j]) != "" ==> PageBlock(j + 1, pages[j]) in PageBlocks(pages)
    ensures |PageBlocks(pages)| <= |pages|
  {
    var keep := (n: nat, p: string) => Strip(p) != "";
    var render := (n: nat, p: string) => PageBlock(n, p);
    forall b | b in PageBlocks(pages)
      ensures exists j: nat :: j < |pages| && Strip(pages[j]) != "" && b == PageBlock(j + 1, pages[j])
    {
      KeepNumberedSound(pages, keep, render, b);
    }
    forall j: nat | j < |pages| && Strip(pages[j]) != "" ensures PageBlock(j + 1, pages[j]) in PageBlocks(pages) {
      KeepNumberedComplete(pages, keep, render, j);
    }
    KeepNumberedLength(pages, keep, render);
  }

  lemma PageBlockStarts(n: nat, text: string)
    ensures StartsWith(PageBlock(n, text), PageMarkerPrefix)
  {
    var rest := NatToString(n) + " ===\n" + text;
    StartsWithConcat(PageMarkerPrefix, rest);
    assert PageBlock(n, text) == PageMarkerPrefix + rest;
  }

  /** A block is never empty: it starts with its marker. */
  lemma {:induction false} BlocksStartWithMarker(pages: seq<string>)
    ensures forall b :: b in PageBlocks(pages) ==> StartsWith(b, PageMarkerPrefix)
  {
    if pages != [] {
      var n := |pages|;
      BlocksStartWithMarker(pages[..n - 1]);
      PageBlockStarts(n, pages[n - 1]);
    }
  }

  /** All-blank pages give no blocks. */
  lemma AllBlankNoBlocks(pages: seq<string>)
    requires AllBlank(pages)
    ensures PageBlocks(pages) == []
  {
    KeepNumberedNone(pages, (n: nat, p: string) => Strip(p) != "", (n: nat, p: string) => PageBlock(n, p));
  }

  /** OCR gives "" (falsy) exactly when every page is blank; it never gives None for recognised pages. */
  lemma OcrEmptyIffAllBlank(pages: seq<string>)
    ensures OcrText(OcrPages(pages)) == Some("") <==> AllBlank(pages)
  {
    PageBlocksMembers(pages);
    BlocksStartWithMarker(pages);
    JoinEmpty("\n\n", PageBlocks(pages));
    if AllBlank(pages) {
      AllBlankNoBlocks(pages);
    } else {
      var j :| 0 <= j < |pages| && Strip(pages[j]) != "";
      assert PageBlock(j + 1, pages[j]) in PageBlocks(pages);
      var b := PageBlocks(pages)[0];
      assert b in PageBlocks(pages);
      assert PageBlocks(pages) != [""];
    }
  }

  /** Non-empty OCR output starts with the page marker, so OCR provenance is visible in the text. */
  lemma OcrTextStartsWithMarker(pages: seq<string>)
    requires OcrText(OcrPages(pages)) != Some("")
    ensures StartsWith(OcrText(OcrPages(pages)).value, PageMarkerPrefix)
  {
    var blocks := PageBlocks(pages);
    BlocksStartWithMarker(pages);
    assert blocks != [];
    assert blocks[0] in blocks;
    JoinStartsWithFirst("\n\n", blocks);
    var t := Join("\n\n", blocks);
    assert t[..|PageMarkerPrefix|] == blocks[0][..|PageMarkerPrefix|];
  }

  /** A string that starts with `p` contains `p` (and every substring of `p`). */
  lemma StartsWithContains(t: string, p: string, i: nat, n: nat)
    requires StartsWith(t, p) && i + n <= |p|
    ensures Contains(t, p[i..i + n])
  {
    forall k | i <= k < i + n ensures t[k] == p[k] {
      assert t[..|p|][k] == t[k];
    }
    assert t[i..i + n] == p[i..i + n];
    assert OccursAt(t, p[i..i + n], i);
  }

  /**
   * The outcomes of the two-tier strategy: None exactly when the native text is
   * rejected and OCR raised; "" exactly when it is rejected and every page is blank;
   * otherwise either accepted native text or text that starts with the page marker.
   */
  lemma SmartTextOutcomes(native: Option<string>, run: OcrRun)
    ensures SmartText(native, run).None? <==> !NativeAccepted(native) && run.OcrFailed?
    ensures SmartText(native, run) == Some("") <==> !NativeAccepted(native) && run.OcrPages? && AllBlank(run.pages)
    ensures Truthy(SmartText(native, run)) ==>
      (NativeAccepted(native) && SmartText(native, run) == native) ||
      (!NativeAccepted(native) && StartsWith(SmartText(native, run).value, PageMarkerPrefix))
  {
    if NativeAccepted(native) {
      assert |Strip(native.value)| <= |native.value|;
    } else if run.OcrPages? {
      OcrEmptyIffAllBlank(run.pages);
      if OcrText(run) != Some("") {
        OcrTextStartsWithMarker(run.pages);
      }
    }
  }

  /** The gate is strict: native text whose stripped length is exactly 100 goes to OCR. */
  lemma GateIsStrict(t: string, run: OcrRun)
    requires |Strip(t)| == MinNativeLength
    ensures SmartText(Some(t), run) == OcrText(run)
  {
  }

  /** The two-page example: a recognised page and an empty one give one marker, numbered 1. */
  lemma TwoPageExample(native: Option<string>)
    requires !NativeAccepted(native)
    ensures SmartText(native, OcrPages(["Page 1: Ok", ""])) == Some(PageBlock(1, "Page 1: Ok"))
  {
    var pages := ["Page 1: Ok", ""];
    assert pages[..1] == ["Page 1: Ok"];
    assert ["Page 1: Ok"][..0] == [];
    assert Strip("") == "";
    assert Strip("Page 1: Ok") != "" by {
      assert !IsSpace("Page 1: Ok"[0]);
    }
  }
}
