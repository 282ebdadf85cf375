/**
 * The text renderers of the universal document processor, one per format.
 * Each parsing library is replaced by the structure it would hand over:
 * paragraphs and table cells for docx, sheets of cells for xlsx, an element
 * tree for XML and shape texts per slide for pptx.
 */
module Formats {

  import opened Wrappers
  import opened Strings

  // ---------------------------------------------------------------------------
  // docx
  // ---------------------------------------------------------------------------

  /** A Word document as python-docx reads it: paragraph texts, and tables as rows of cell texts. */
  datatype DocxDocument = DocxDocument(paragraphs: seq<string>, tables: seq<seq<seq<string>>>)

  /** The paragraphs with some non-space character, kept as they are. */
  function NonBlank(paragraphs: seq<string>): (r: seq<string>)
    ensures |r| <= |paragraphs|
  {
    if paragraphs == [] then []
    else
      var last := paragraphs[|paragraphs| - 1];
      NonBlank(paragraphs[..|paragraphs| - 1]) + (if Strip(last) != "" then [last] else [])
  }

  /** A paragraph is kept iff it is not whitespace-only. */
  lemma {:induction false} NonBlankMembership(paragraphs: seq<string>, p: string)
    ensures p in NonBlank(paragraphs) <==> p in paragraphs && Strip(p) != ""
  {
    if paragraphs != [] {
      var init := paragraphs[..|paragraphs| - 1];
      var last := paragraphs[|paragraphs| - 1];
      NonBlankMembership(init, p);
      InLastSplit(paragraphs, p);
      if p == last {
        assert p in NonBlank(paragraphs) <==> Strip(p) != "";
      }
    }
  }

  /** Membership in a non-empty sequence, split at its last element. */
  lemma InLastSplit<T>(xs: seq<T>, x: T)
    requires xs != []
    ensures x in xs <==> x in xs[..|xs| - 1] || x == xs[|xs| - 1]
  {
    assert xs == xs[..|xs| - 1] + [xs[|xs| - 1]];
  }

  /** The stripped non-blank cells of a row, in order. */
  function StrippedCells(cells: seq<string>): (r: seq<string>)
    ensures |r| <= |cells|
  {
    if cells == [] then []
    else
      var last := cells[|cells| - 1];
      StrippedCells(cells[..|cells| - 1]) + (if Strip(last) != "" then [Strip(last)] else [])
  }

  const CellSeparator := " | "

  /** The lines a list of table rows contributes: a row with no non-blank cell gives none. */
  function RowLines(rows: seq<seq<string>>): (r: seq<string>)
    ensures |r| <= |rows|
  {
    if rows == [] then []
    else
      var cells := StrippedCells(rows[|rows| - 1]);
      RowLines(rows[..|rows| - 1]) + (if cells != [] then [Join(CellSeparator, cells)] else [])
  }

  function TableLines(tables: seq<seq<seq<string>>>): seq<string> {
    if tables == [] then [] else TableLines(tables[..|tables| - 1]) + RowLines(tables[|tables| - 1])
  }

  /** The lines `extract_text_from_docx` joins: non-blank paragraphs, then the table rows. */
  function DocxLines(doc: DocxDocument): seq<string> {
    NonBlank(doc.paragraphs) + TableLines(doc.tables)
  }

  function DocxText(doc: DocxDocument): string {
    Join("\n", DocxLines(doc))
  }

  /** Every kept cell is non-empty and opens with a non-space character. */
  lemma {:induction false} StrippedCellsTrimmed(cells: seq<string>, x: string)
    requires x in StrippedCells(cells)
    ensures x != "" && !IsSpace(x[0])
  {
    var init := cells[..|cells| - 1];
    if x in StrippedCells(init) {
      StrippedCellsTrimmed(init, x);
    }
  }

  /** A rendered row begins with a stripped non-blank cell, so it is never blank. */
  lemma RowLineNotBlank(cells: seq<string>)
    requires StrippedCells(cells) != []
    ensures Strip(Join(CellSeparator, StrippedCells(cells))) != ""
  {
    var parts := StrippedCells(cells);
    StrippedCellsTrimmed(cells, parts[0]);
    JoinStartsWithFirst(CellSeparator, parts);
    var line := Join(CellSeparator, parts);
    assert line[0] == parts[0][0];
  }

  lemma {:induction false} RowLinesNotBlank(rows: seq<seq<string>>)
    ensures forall l :: l in RowLines(rows) ==> Strip(l) != ""
  {
    if rows != [] {
      RowLinesNotBlank(rows[..|rows| - 1]);
      var cells := StrippedCells(rows[|rows| - 1]);
      if cells != [] {
        RowLineNotBlank(rows[|rows| - 1]);
      }
    }
  }

  lemma {:induction false} TableLinesNotBlank(tables: seq<seq<seq<string>>>)
    ensures forall l :: l in TableLines(tables) ==> Strip(l) != ""
  {
    if tables != [] {
      TableLinesNotBlank(tables[..|tables| - 1]);
      RowLinesNotBlank(tables[|tables| - 1]);
    }
  }

  /** Every line of a docx rendering has some non-space character; paragraphs keep their whitespace. */
  lemma DocxLinesNotBlank(doc: DocxDocument)
    ensures forall l :: l in DocxLines(doc) ==> Strip(l) != ""
    ensures forall p :: p in doc.paragraphs && Strip(p) != "" ==> p in DocxLines(doc)
  {
    TableLinesNotBlank(doc.tables);
    forall l | l in NonBlank(doc.paragraphs) ensures Strip(l) != "" {
      NonBlankMembership(doc.paragraphs, l);
    }
    forall p | p in doc.paragraphs && Strip(p) != "" ensures p in DocxLines(doc) {
      NonBlankMembership(doc.paragraphs, p);
    }
  }

  /** The cell loop of one row. */
  method RowText(cells: seq<string>) returns (rowText: seq<string>)
    ensures rowText == StrippedCells(cells)
  {
    rowText := [];
    for k := 0 to |cells|
      invariant rowText == StrippedCells(cells[..k])
    {
      assert cells[..k + 1][..k] == cells[..k];
      if Strip(cells[k]) != "" {
        rowText := rowText + [Strip(cells[k])];
      }
    }
    assert cells[..|cells|] == cells;
  }

  /** The row loop of one table. */
  method TableText(rows: seq<seq<string>>) returns (r: seq<string>)
    ensures r == RowLines(rows)
  {
    r := [];
    for j := 0 to |rows|
      invariant r == RowLines(rows[..j])
    {
      assert rows[..j + 1][..j] == rows[..j];
      var rowText := RowText(rows[j]);
      if rowText != [] {
        r := r + [Join(CellSeparator, rowText)];
      }
    }
    assert rows[..|rows|] == rows;
  }

  /** The paragraph loop: keep the paragraphs that are not whitespace-only. */
  method CollectParagraphs(paragraphs: seq<string>) returns (text: seq<string>)
    ensures text == NonBlank(paragraphs)
  {
    text := [];
    for i := 0 to |paragraphs|
      invariant text == NonBlank(paragraphs[..i])
    {
      NonBlankStep(paragraphs, i);
      if Strip(paragraphs[i]) != "" {
        text := text + [paragraphs[i]];
      }
    }
    assert paragraphs[..|paragraphs|] == paragraphs;
  }

  /** `extract_text_from_docx`; None when the library raised. */
  method ExtractTextFromDocx(doc: Option<DocxDocument>) returns (r: Option<string>)
    ensures doc.None? ==> r.None?
    ensures doc.Some? ==> r == Some(DocxText(doc.value))
  {
    if doc.None? {
      return None;
    }
    var d := doc.value;
    var text := CollectParagraphs(d.paragraphs);
    var tableText: seq<string> := [];
    for t := 0 to |d.tables|
      invariant tableText == TableLines(d.tables[..t])
    {
      assert d.tables[..t + 1][..t] == d.tables[..t];
      var rowsText := TableText(d.tables[t]);
      tableText := tableText + rowsText;
    }
    assert d.tables[..|d.tables|] == d.tables;
    r := Some(Join("\n", text + tableText));
  }

  // ---------------------------------------------------------------------------
  // doc
  // ---------------------------------------------------------------------------

  /** What opening a legacy .doc with python-docx gives: its paragraphs, or the message of the exception. */
  datatype DocOpen = DocParagraphs(paragraphs: seq<string>) | DocError(message: string)

  const MinDocLength: nat := 50

  function DocNeedsWork(name: string): string {
    "[DOC файл " + name + " требует дополнительной обработки]"
  }

  function DocFailed(name: string, message: string): string {
    "[DOC файл " + name + " не удалось обработать - " + message + "]"
  }

  /** `extract_text_from_doc`: the joined paragraphs when longer than 50 characters, a placeholder otherwise. */
  function DocText(name: string, doc: DocOpen): (r: string)
    ensures doc.DocError? ==> r == DocFailed(name, doc.message)
    ensures doc.DocParagraphs? && |Join("\n", NonBlank(doc.paragraphs))| > MinDocLength ==> r == Join("\n", NonBlank(doc.paragraphs))
    ensures doc.DocParagraphs? && |Join("\n", NonBlank(doc.paragraphs))| <= MinDocLength ==> r == DocNeedsWork(name)
    ensures r != ""
  {
    match doc
    case DocError(message) => DocFailed(name, message)
    case DocParagraphs(paragraphs) =>
      var combined := Join("\n", NonBlank(paragraphs));
      if |combined| > MinDocLength then combined else DocNeedsWork(name)
  }

  /** `extract_text_from_doc`. */
  method ExtractTextFromDoc(name: string, doc: DocOpen) returns (r: string)
    ensures r == DocText(name, doc)
  {
    if doc.DocError? {
      return DocFailed(name, doc.message);
    }
    var text := CollectParagraphs(doc.paragraphs);
    var combinedText := Join("\n", text);
    if |combinedText| > MinDocLength {
      r := combinedText;
    } else {
      r := DocNeedsWork(name);
    }
  }

  // ---------------------------------------------------------------------------
  // xlsx
  // ---------------------------------------------------------------------------

  /** A spreadsheet cell: missing (NaN) or the text `str(val)` gives. */
  datatype Cell = NaN | Value(text: string)

  /** A sheet as pandas reads it: the column labels as text and the data rows. */
  datatype Sheet = Sheet(name: string, columns: seq<string>, rows: seq<seq<Cell>>)

  const MaxRows: nat := 1000

  function CellText(c: Cell): string {
    match c
    case NaN => ""
    case Value(t) => t
  }

  function CellTexts(row: seq<Cell>): (r: seq<string>)
    ensures |r| == |row| && forall i :: 0 <= i < |row| ==> r[i] == CellText(row[i])
  {
    seq(|row|, i requires 0 <= i < |row| => CellText(row[i]))
  }

  /** `" | ".join(str(val) if pd.notna(val) else "" for val in row)`. */
  function RowRendering(row: seq<Cell>): string {
    Join(CellSeparator, CellTexts(row))
  }

  /** `df.empty`: no columns or no rows. */
  predicate SheetEmpty(s: Sheet) {
    s.columns == [] || s.rows == []
  }

  function SheetHeader(name: string): string {
    "=== ЛИСТ: " + name + " ===\n"
  }

  function HeadersLine(columns: seq<string>): string {
    "ЗАГОЛОВКИ: " + Join(CellSeparator, columns) + "\n\n"
  }

  function Renderings(rows: seq<seq<Cell>>): (r: seq<string>)
    ensures |r| == |rows| && forall i :: 0 <= i < |rows| ==> r[i] == RowRendering(rows[i])
  {
    seq(|rows|, i requires 0 <= i < |rows| => RowRendering(rows[i]))
  }

  /** The renderings of the rows that are not whitespace-only, in order. */
  function KeptRows(rows: seq<seq<Cell>>): (r: seq<string>)
    ensures |r| <= |rows|
  {
    NonBlank(Renderings(rows))
  }

  /** Each line followed by a newline. */
  function Lines(lines: seq<string>): string {
    if lines == [] then "" else Lines(lines[..|lines| - 1]) + lines[|lines| - 1] + "\n"
  }

  /** The data lines of a sheet: at most the first 1000 rows, blank ones dropped. */
  function DataLines(s: Sheet): (r: seq<string>)
    ensures |r| <= MaxRows
  {
    KeptRows(Take(s.rows, MaxRows))
  }

  /** `sheet_text` for one sheet. */
  function SheetText(s: Sheet): string {
    SheetHeader(s.name) + (if SheetEmpty(s) then "" else HeadersLine(s.columns) + Lines(DataLines(s)))
  }

  function SheetTexts(sheets: seq<Sheet>): (r: seq<string>)
    ensures |r| == |sheets| && forall i :: 0 <= i < |sheets| ==> r[i] == SheetText(sheets[i])
  {
    seq(|sheets|, i requires 0 <= i < |sheets| => SheetText(sheets[i]))
  }

  function XlsxText(sheets: seq<Sheet>): string {
    Join("\n\n", SheetTexts(sheets))
  }

  /** A row is kept iff its rendering is not whitespace-only; every kept line is such a rendering. */
  lemma KeptRowsMembership(rows: seq<seq<Cell>>, l: string)
    ensures l in KeptRows(rows) <==> Strip(l) != "" && exists i :: 0 <= i < |rows| && l == RowRendering(rows[i])
  {
    NonBlankMembership(Renderings(rows), l);
    if exists i :: 0 <= i < |rows| && l == RowRendering(rows[i]) {
      var i :| 0 <= i < |rows| && l == RowRendering(rows[i]);
      assert Renderings(rows)[i] == l;
    }
  }

  lemma LinesAppend(lines: seq<string>, x: string)
    ensures Lines(lines + [x]) == Lines(lines) + x + "\n"
  {
    assert (lines + [x])[..|lines|] == lines;
  }

  lemma NonBlankStep(lines: seq<string>, k: nat)
    requires k < |lines|
    ensures NonBlank(lines[..k + 1]) == NonBlank(lines[..k]) + (if Strip(lines[k]) != "" then [lines[k]] else [])
  {
    assert lines[..k + 1][..k] == lines[..k];
  }

  /** Missing cells render as empty text, so an all-missing row of two or more cells still renders as separators and is kept. */
  lemma MissingCellsKeepSeparators()
    ensures RowRendering([NaN]) == ""
    ensures RowRendering([NaN, NaN]) == " | "
    ensures Strip(RowRendering([NaN, NaN])) != ""
    ensures KeptRows([[NaN]]) == [] && KeptRows([[NaN, NaN]]) == [" | "]
  {
    MissingRowRenderings();
    assert Strip(" | ") != "" by { assert " | "[1] == '|'; }
    MissingRowsKept();
  }

  /** Which of those one-row sheets keep their row. */
  lemma MissingRowsKept()
    requires RowRendering([NaN]) == "" && RowRendering([NaN, NaN]) == " | " && Strip(" | ") != ""
    ensures KeptRows([[NaN]]) == [] && KeptRows([[NaN, NaN]]) == [" | "]
  {
    KeptSingleRow([NaN]);
    KeptSingleRow([NaN, NaN]);
  }

  /** A one-row sheet keeps its row iff the row renders to non-blank text. */
  lemma KeptSingleRow(row: seq<Cell>)
    ensures KeptRows([row]) == if Strip(RowRendering(row)) != "" then [RowRendering(row)] else []
  {
    assert Renderings([row]) == [RowRendering(row)];
    assert [RowRendering(row)][..0] == [];
  }

  /** How rows of one and of two missing cells render. */
  lemma MissingRowRenderings()
    ensures RowRendering([NaN]) == ""
    ensures RowRendering([NaN, NaN]) == " | "
  {
    assert CellTexts([NaN, NaN]) == ["", ""];
    assert CellTexts([NaN]) == [""];
    assert Join(CellSeparator, ["", ""]) == "" + CellSeparator + Join(CellSeparator, [""]);
  }

  /** The data-row loop of one sheet. */
  method RowsText(rows: seq<seq<Cell>>) returns (r: string)
    ensures r == Lines(KeptRows(rows))
  {
    ghost var renderings := Renderings(rows);
    r := "";
    for k := 0 to |rows|
      invariant r == Lines(NonBlank(renderings[..k]))
    {
      var rowText := RowRendering(rows[k]);
      assert renderings[k] == rowText;
      NonBlankStep(renderings, k);
      if Strip(rowText) != "" {
        LinesAppend(NonBlank(renderings[..k]), rowText);
        r := r + rowText + "\n";
      } else {
        assert NonBlank(renderings[..k + 1]) == NonBlank(renderings[..k]);
      }
    }
    assert renderings[..|rows|] == renderings;
  }

  /** `extract_text_from_xlsx`; None when pandas raised. */
  method ExtractTextFromXlsx(workbook: Option<seq<Sheet>>) returns (r: Option<string>)
    ensures workbook.None? ==> r.None?
    ensures workbook.Some? ==> r == Some(XlsxText(workbook.value))
  {
    if workbook.None? {
      return None;
    }
    var sheets := workbook.value;
    var allText: seq<string> := [];
    for i := 0 to |sheets|
      invariant |allText| == i && forall j :: 0 <= j < i ==> allText[j] == SheetText(sheets[j])
    {
      var s := sheets[i];
      var sheetText := SheetHeader(s.name);
      if !SheetEmpty(s) {
        var rowsText := RowsText(Take(s.rows, MaxRows));
        sheetText := sheetText + (HeadersLine(s.columns) + rowsText);
      }
      allText := allText + [sheetText];
    }
    assert allText == SheetTexts(sheets);
    r := Some(Join("\n\n", allText));
  }

  // ---------------------------------------------------------------------------
  // XML
  // ---------------------------------------------------------------------------

  /** An element as ElementTree gives it. */
  datatype XmlElement = XmlElement(tag: string, text: Option<string>, children: seq<XmlElement>)

  function Indent(level: nat): (r: string)
    ensures |r| == 2 * level && forall i :: 0 <= i < |r| ==> r[i] == ' '
  {
    Repeat(' ', 2 * level)
  }

  /** The line of one element, or none when it has neither text nor tag. */
  function ElementLine(e: XmlElement, level: nat): seq<string> {
    if e.text.Some? && Strip(e.text.value) != "" then [Indent(level) + e.tag + ": " + Strip(e.text.value)]
    else if e.tag != "" then [Indent(level) + e.tag + ":"]
    else []
  }

  /** `extract_xml_text(element, level)`: the element's line, then its children's lines one level deeper. */
  function XmlLines(e: XmlElement, level: nat): (r: seq<string>)
    ensures |r| <= Size(e)
    ensures e.tag != "" ==> r != []
    decreases e, 1
  {
    ElementLine(e, level) + ChildrenLines(e.children, level + 1)
  }

  function ChildrenLines(children: seq<XmlElement>, level: nat): (r: seq<string>)
    ensures |r| <= SizeAll(children)
    decreases children, 0
  {
    if children == [] then [] else XmlLines(children[0], level) + ChildrenLines(children[1..], level)
  }

  /** The number of elements in a tree. */
  function Size(e: XmlElement): nat
    decreases e, 1
  {
    1 + SizeAll(e.children)
  }

  function SizeAll(children: seq<XmlElement>): nat
    decreases children, 0
  {
    if children == [] then 0 else Size(children[0]) + SizeAll(children[1..])
  }

  /** Every line is indented by at least two spaces per level of depth. */
  lemma {:induction false} XmlLinesIndented(e: XmlElement, level: nat)
    ensures forall l :: l in XmlLines(e, level) ==> |l| >= 2 * level && l[..2 * level] == Indent(level)
    decreases e, 1
  {
    ChildrenLinesIndented(e.children, level + 1);
    forall l | l in XmlLines(e, level) ensures |l| >= 2 * level && l[..2 * level] == Indent(level) {
      if l in ChildrenLines(e.children, level + 1) {
        assert l[..2 * level] == l[..2 * (level + 1)][..2 * level];
      }
    }
  }

  lemma {:induction false} ChildrenLinesIndented(children: seq<XmlElement>, level: nat)
    ensures forall l :: l in ChildrenLines(children, level) ==> |l| >= 2 * level && l[..2 * level] == Indent(level)
    decreases children, 0
  {
    if children != [] {
      XmlLinesIndented(children[0], level);
      ChildrenLinesIndented(children[1..], level);
    }
  }

  /** At most one line per element, and exactly one when every tag is non-empty. */
  predicate AllTagged(e: XmlElement)
    decreases e, 1
  {
    e.tag != "" && AllTaggedAll(e.children)
  }

  predicate AllTaggedAll(children: seq<XmlElement>)
    decreases children, 0
  {
    children == [] || (AllTagged(children[0]) && AllTaggedAll(children[1..]))
  }

  lemma {:induction false} XmlLineCount(e: XmlElement, level: nat)
    ensures |XmlLines(e, level)| <= Size(e)
    ensures AllTagged(e) ==> |XmlLines(e, level)| == Size(e)
    decreases e, 1
  {
    ChildrenLineCount(e.children, level + 1);
  }

  lemma {:induction false} ChildrenLineCount(children: seq<XmlElement>, level: nat)
    ensures |ChildrenLines(children, level)| <= SizeAll(children)
    ensures AllTaggedAll(children) ==> |ChildrenLines(children, level)| == SizeAll(children)
    decreases children, 0
  {
    if children != [] {
      XmlLineCount(children[0], level);
      ChildrenLineCount(children[1..], level);
    }
  }

  /** The root's line comes first, unindented: `tag: text` when the text has content, `tag:` otherwise. */
  lemma RootLineFirst(e: XmlElement)
    requires e.tag != ""
    ensures XmlLines(e, 0) != []
    ensures e.text.Some? && Strip(e.text.value) != "" ==> XmlLines(e, 0)[0] == e.tag + ": " + Strip(e.text.value)
    ensures !(e.text.Some? && Strip(e.text.value) != "") ==> XmlLines(e, 0)[0] == e.tag + ":"
  {
    assert Indent(0) == "";
    var own := ElementLine(e, 0);
    assert |own| == 1;
    assert XmlLines(e, 0) == own + ChildrenLines(e.children, 1);
    assert XmlLines(e, 0)[0] == own[0];
  }

  /** `extract_text_from_xml`; None when parsing raised. */
  function XmlText(root: Option<XmlElement>): (r: Option<string>)
    ensures r.None? <==> root.None?
    ensures root.Some? && root.value.tag != "" ==> StartsWith(r.value, root.value.tag)
  {
    if root.None? then None
    else
      var lines := XmlLines(root.value, 0);
      if root.value.tag != "" then
        RootLineFirst(root.value);
        JoinStartsWithFirst("\n", lines);
        assert lines[0][..|root.value.tag|] == root.value.tag;
        Some(Join("\n", lines))
      else Some(Join("\n", lines))
  }

  // ---------------------------------------------------------------------------
  // pptx
  // ---------------------------------------------------------------------------

  /** A presentation: python-pptx missing, the file unreadable, or slides of shapes (None: a shape without text). */
  datatype PptxInput = NoLibrary | Unreadable | Deck(slides: seq<seq<Option<string>>>)

  function SlideHeaderLine(n: nat): string {
    "=== СЛАЙД " + NatToString(n) + " ==="
  }

  /** The texts of the shapes that have a non-empty one, each followed by a newline. */
  function ShapeTexts(shapes: seq<Option<string>>): string {
    if shapes == [] then ""
    else
      var last := shapes[|shapes| - 1];
      ShapeTexts(shapes[..|shapes| - 1]) + (if last.Some? && last.value != "" then last.value + "\n" else "")
  }

  /** `slide_text` for the slide numbered `n`. */
  function SlideText(n: nat, shapes: seq<Option<string>>): string {
    SlideHeaderLine(n) + "\n" + ShapeTexts(shapes)
  }

  /** A slide is kept iff its stripped text differs from its bare header. */
  predicate SlideKept(n: nat, shapes: seq<Option<string>>) {
    Strip(SlideText(n, shapes)) != SlideHeaderLine(n)
  }

  /** The kept slide texts, numbered by their position in the deck. */
  function KeptSlides(slides: seq<seq<Option<string>>>): seq<string> {
    KeepNumbered(slides, (n: nat, shapes: seq<Option<string>>) => SlideKept(n, shapes),
                 (n: nat, shapes: seq<Option<string>>) => SlideText(n, shapes))
  }

  function PptxNoLibrary(name: string): string {
    "[PPTX файл " + name + " требует установки python-pptx]"
  }

  /** The result of `extract_text_from_pptx`. */
  function PptxText(name: string, input: PptxInput): Option<string> {
    match input
    case NoLibrary => Some(PptxNoLibrary(name))
    case Unreadable => None
    case Deck(slides) => Some(Join("\n\n", KeptSlides(slides)))
  }

  /** Every kept block is the text of some slide under its own original number, and that slide is kept. */
  lemma KeptSlidesNumbered(slides: seq<seq<Option<string>>>, b: string)
    requires b in KeptSlides(slides)
    ensures exists i: nat :: i < |slides| && SlideKept(i + 1, slides[i]) && b == SlideText(i + 1, slides[i])
  {
    KeepNumberedSound(slides, (n: nat, shapes: seq<Option<string>>) => SlideKept(n, shapes),
                      (n: nat, shapes: seq<Option<string>>) => SlideText(n, shapes), b);
  }

  /** A bare slide header is unchanged by stripping, also with its newline. */
  lemma HeaderStripped(n: nat)
    ensures Strip(SlideHeaderLine(n) + "\n") == SlideHeaderLine(n)
  {
    var h := SlideHeaderLine(n);
    var digits := NatToString(n);
    assert h == "=== СЛАЙД " + (digits + " ===");
    assert h[0] == '=';
    assert h[|h| - 1] == (digits + " ===")[|digits| + 3];
    StripTrimmed(h);
    assert IsBlank("\n");
    StripTrailingBlank(h, "\n");
  }

  /** A slide with no text in any shape is dropped. */
  lemma EmptySlideDropped(n: nat, shapes: seq<Option<string>>)
    requires forall s :: s in shapes ==> s.None? || s.value == ""
    ensures !SlideKept(n, shapes)
  {
    var h := SlideHeaderLine(n);
    NoShapeText(shapes);
    assert SlideText(n, shapes) == h + "\n" + "";
    assert h + "\n" + "" == h + "\n";
    HeaderStripped(n);
  }

  lemma {:induction false} NoShapeText(shapes: seq<Option<string>>)
    requires forall s :: s in shapes ==> s.None? || s.value == ""
    ensures ShapeTexts(shapes) == ""
  {
    if shapes != [] {
      NoShapeText(shapes[..|shapes| - 1]);
      assert shapes[|shapes| - 1] in shapes;
    }
  }

  /** A first shape whose text opens with a non-space character keeps the slide. */
  lemma SlideWithTextKept(n: nat, t: string, rest: seq<Option<string>>)
    requires t != "" && !IsSpace(t[0])
    ensures SlideKept(n, [Some(t)] + rest)
  {
    var h := SlideHeaderLine(n);
    var shapes := [Some(t)] + rest;
    ShapeTextsPrefix(shapes);
    var s := SlideText(n, shapes);
    assert s[|h| + 1] == t[0];
    assert s[0] == '=';
    StripKeepsUpTo(s, |h| + 1);
  }

  lemma ShapeTextsPrefix(shapes: seq<Option<string>>)
    requires shapes != [] && shapes[0].Some? && shapes[0].value != ""
    ensures StartsWith(ShapeTexts(shapes), shapes[0].value)
    decreases |shapes|
  {
    if |shapes| > 1 {
      ShapeTextsPrefix(shapes[..|shapes| - 1]);
    } else {
      assert shapes[..0] == [];
    }
  }

  lemma KeptSlidesStep(slides: seq<seq<Option<string>>>, i: nat)
    requires i < |slides|
    ensures KeptSlides(slides[..i + 1]) ==
      KeptSlides(slides[..i]) + (if SlideKept(i + 1, slides[i]) then [SlideText(i + 1, slides[i])] else [])
  {
    assert slides[..i + 1][..i] == slides[..i];
  }

  /** The shape loop of one slide. */
  method SlideTextOf(n: nat, shapes: seq<Option<string>>) returns (slideText: string)
    ensures slideText == SlideText(n, shapes)
  {
    var shapeText := "";
    for k := 0 to |shapes|
      invariant shapeText == ShapeTexts(shapes[..k])
    {
      assert shapes[..k + 1][..k] == shapes[..k];
      if shapes[k].Some? && shapes[k].value != "" {
        shapeText := shapeText + (shapes[k].value + "\n");
      }
    }
    assert shapes[..|shapes|] == shapes;
    slideText := SlideHeaderLine(n) + "\n" + shapeText;
  }

  /** `extract_text_from_pptx`. */
  method ExtractTextFromPptx(name: string, input: PptxInput) returns (r: Option<string>)
    ensures r == PptxText(name, input)
  {
    match input {
      case NoLibrary => return Some(PptxNoLibrary(name));
      case Unreadable => return None;
      case Deck(slides) =>
        var text: seq<string> := [];
        for i := 0 to |slides|
          invariant text == KeptSlides(slides[..i])
        {
          KeptSlidesStep(slides, i);
          var slideText := SlideTextOf(i + 1, slides[i]);
          if Strip(slideText) != SlideHeaderLine(i + 1) {
            text := text + [slideText];
          }
        }
        assert slides[..|slides|] == slides;
        r := Some(Join("\n\n", text));
    }
  }
}
