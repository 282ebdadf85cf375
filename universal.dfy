/**
 * The universal document processor: extension dispatch to the format
 * renderers, the processed-file format it writes, and the per-file status
 * table with its success count.
 */
module Universal {

  import opened Wrappers
  import opened Strings
  import opened Extraction
  import opened Banner
  import opened Formats

  /** `os.path.splitext(path)[1].lower()`. */
  function Extension(path: string): (ext: string)
    ensures ext == [] || ext[0] == '.'
  {
    Lower(ExtSuffix(path))
  }

  /** What each format engine gives for a file; only the one its extension selects is used. */
  datatype FileData = FileData(
    native: Option<string>,
    run: OcrRun,
    docx: Option<DocxDocument>,
    doc: DocOpen,
    workbook: Option<seq<Sheet>>,
    pptx: PptxInput)

  predicate Dispatched(ext: string) {
    ext in [".pdf", ".docx", ".doc", ".xlsx", ".xls", ".pptx", ".ppt"]
  }

  function Unsupported(name: string, ext: string): string {
    "[Файл " + name + " - неподдерживаемый формат " + ext + "]"
  }

  /** The renderer an extension selects. */
  datatype Format = Pdf | Docx | Doc | Spreadsheet | Slides | Other

  function FormatOf(ext: string): (f: Format)
    ensures f == Other <==> !Dispatched(ext)
  {
    if ext == ".pdf" then Pdf
    else if ext == ".docx" then Docx
    else if ext == ".doc" then Doc
    else if ext == ".xlsx" || ext == ".xls" then Spreadsheet
    else if ext == ".pptx" || ext == ".ppt" then Slides
    else Other
  }

  /** What the selected renderer gives for the file named `name`. */
  function Render(f: Format, name: string, ext: string, data: FileData): Option<string> {
    match f
    case Pdf => SmartText(data.native, data.run)
    case Docx => if data.docx.None? then None else Some(DocxText(data.docx.value))
    case Doc => Some(DocText(name, data.doc))
    case Spreadsheet => if data.workbook.None? then None else Some(XlsxText(data.workbook.value))
    case Slides => PptxText(name, data.pptx)
    case Other => Some(Unsupported(name, ext))
  }

  /** The result of `process_file`. XML is not dispatched: its branch is commented out in the source. */
  function ProcessedText(path: string, data: FileData): Option<string> {
    Render(FormatOf(Extension(path)), Basename(path), Extension(path), data)
  }

  /** `process_file`: the extension, lowered, selects the renderer. */
  method ProcessFile(path: string, data: FileData) returns (r: Option<string>)
    ensures r == ProcessedText(path, data)
  {
    var fileExt := Extension(path);
    var name := Basename(path);
    match FormatOf(fileExt)
    case Pdf =>
      r := SmartExtractText(data.native, data.run);
    case Docx =>
      r := ExtractTextFromDocx(data.docx);
    case Doc =>
      var text := ExtractTextFromDoc(name, data.doc);
      r := Some(text);
    case Spreadsheet =>
      r := ExtractTextFromXlsx(data.workbook);
    case Slides =>
      r := ExtractTextFromPptx(name, data.pptx);
    case Other =>
      r := Some(Unsupported(name, fileExt));
  }

  /** An extension outside the dispatch table yields the placeholder, which is a non-empty text. */
  lemma UnsupportedIsPlaceholder(path: string, data: FileData)
    requires !Dispatched(Extension(path))
    ensures ProcessedText(path, data) == Some(Unsupported(Basename(path), Extension(path)))
    ensures Truthy(ProcessedText(path, data))
  {
  }

  /** The extension of `stem.ext` is `.ext`, lowered, when the stem does not start with a dot. */
  lemma ExtensionOf(stem: string, ext: string)
    requires stem != [] && stem[0] != '.'
    requires forall i :: 0 <= i < |stem| ==> stem[i] != '/'
    requires forall i :: 0 <= i < |ext| ==> ext[i] != '/' && ext[i] != '.'
    ensures Extension(stem + "." + ext) == Lower("." + ext)
  {
    ExtSuffixOf(stem, ext);
  }

  lemma LowerXml()
    ensures Lower(".xml") == ".xml"
  {
  }

  lemma XmlNotDispatched()
    ensures !Dispatched(".xml")
  {
    assert ".xml"[1] == 'x' && ".xml"[2] == 'm';
    assert ".pdf"[1] == 'p' && ".docx"[1] == 'd' && ".doc"[1] == 'd' && ".pptx"[1] == 'p' && ".ppt"[1] == 'p';
    assert |".xlsx"| == 5 && ".xls"[2] == 'l';
  }

  /** An `.xml` file gets the placeholder rather than the XML renderer. */
  lemma XmlGetsPlaceholder(stem: string, data: FileData)
    requires stem != [] && stem[0] != '.'
    requires forall i :: 0 <= i < |stem| ==> stem[i] != '/'
    ensures ProcessedText(stem + ".xml", data) == Some(Unsupported(stem + ".xml", ".xml"))
  {
    var path := stem + ".xml";
    assert path == stem + "." + "xml";
    assert "xml"[0] == 'x' && "xml"[1] == 'm' && "xml"[2] == 'l';
    ExtensionOf(stem, "xml");
    DottedName(stem, "xml");
    LowerXml();
    XmlNotDispatched();
    UnsupportedIsPlaceholder(path, data);
  }

  lemma LowerPdf()
    ensures Lower(".PDF") == ".pdf"
  {
  }

  /** Dispatch ignores the case of the extension. */
  lemma UpperCaseDispatch(stem: string, data: FileData)
    requires stem != [] && stem[0] != '.'
    requires forall i :: 0 <= i < |stem| ==> stem[i] != '/'
    ensures ProcessedText(stem + ".PDF", data) == SmartText(data.native, data.run)
  {
    var path := stem + ".PDF";
    assert path == stem + "." + "PDF";
    ExtensionOf(stem, "PDF");
    LowerPdf();
    assert FormatOf(Extension(path)) == Pdf;
  }

  /** No '=' in a string. */
  predicate NoRule(s: string) {
    forall i :: 0 <= i < |s| ==> s[i] != '='
  }

  lemma NoRuleConcat(a: string, b: string)
    requires NoRule(a) && NoRule(b)
    ensures NoRule(a + b)
  {
  }

  /** The header lines `process_all_files` writes before the rule. */
  function OutputHeader(file: string, timestamp: string, textLength: nat): string {
    "ИСТОЧНИК: " + file + "\nДАТА ОБРАБОТКИ: " + timestamp + "\nРАЗМЕР ТЕКСТА: " + NatToString(textLength) + " символов\n"
  }

  /** The content of `<file>.txt` in the output folder. */
  function OutputFileContent(file: string, timestamp: string, text: string): string {
    OutputHeader(file, timestamp, |text|) + Rule() + "\n\n" + text
  }

  lemma HeaderHasNoRule(file: string, timestamp: string, n: nat)
    requires NoRule(file) && NoRule(timestamp)
    ensures NoRule(OutputHeader(file, timestamp, n))
  {
    var digits := NatToString(n);
    assert NoRule(digits);
    assert NoRule("ИСТОЧНИК: ");
    assert NoRule("\nДАТА ОБРАБОТКИ: ");
    assert NoRule("\nРАЗМЕР ТЕКСТА: ");
    assert NoRule(" символов\n");
    NoRuleConcat("ИСТОЧНИК: ", file);
    NoRuleConcat("ИСТОЧНИК: " + file, "\nДАТА ОБРАБОТКИ: ");
    NoRuleConcat("ИСТОЧНИК: " + file + "\nДАТА ОБРАБОТКИ: ", timestamp);
    NoRuleConcat("ИСТОЧНИК: " + file + "\nДАТА ОБРАБОТКИ: " + timestamp, "\nРАЗМЕР ТЕКСТА: ");
    NoRuleConcat("ИСТОЧНИК: " + file + "\nДАТА ОБРАБОТКИ: " + timestamp + "\nРАЗМЕР ТЕКСТА: ", digits);
    NoRuleConcat("ИСТОЧНИК: " + file + "\nДАТА ОБРАБОТКИ: " + timestamp + "\nРАЗМЕР ТЕКСТА: " + digits, " символов\n");
  }

  /**
   * The files this processor writes are read back by the analyzers' banner
   * strip: when neither the file name nor the timestamp holds '=', the reader
   * recovers exactly the stripped text.
   */
  lemma OutputReadsBack(file: string, timestamp: string, text: string)
    requires NoRule(file) && NoRule(timestamp)
    ensures StripBanner(OutputFileContent(file, timestamp, text)) == Strip(text)
  {
    HeaderHasNoRule(file, timestamp, |text|);
    assert IsBlank("\n\n") by {
      assert IsSpace('\n');
    }
    RuleThenBlank(OutputHeader(file, timestamp, |text|), "\n\n", text);
  }

  lemma RuleThenBlank(header: string, w: string, text: string)
    requires NoRule(header) && IsBlank(w)
    ensures StripBanner(header + Rule() + w + text) == Strip(text)
  {
    assert header + Rule() + w + text == header + Rule() + (w + text);
    BannerRoundTrip(header, w + text);
    StripLeadingBlank(w, text);
  }

  /** One file of the input folder: its name, whether it is a regular file, its engines, and the write failure if any. */
  datatype InputFile = InputFile(name: string, isFile: bool, data: FileData, writeError: Option<string>)

  /** An entry of the `processed_files` table. */
  datatype FileStatus = Success(textLength: nat, outputFile: string) | Failed(error: string) | Error(error: string)

  const InputDir := "./regulations"
  const OutputDir := "./processed_regulations"

  /** The status a file gets: success iff its text is truthy and writing its output did not raise. */
  function StatusOf(f: InputFile): (s: FileStatus)
    ensures s.Success? <==> Truthy(ProcessedText(PathJoin(InputDir, f.name), f.data)) && f.writeError.None?
  {
    var text := ProcessedText(PathJoin(InputDir, f.name), f.data);
    if text.None? || text.value == "" then Failed("Не удалось извлечь текст")
    else if f.writeError.Some? then Error(f.writeError.value)
    else Success(|text.value|, PathJoin(OutputDir, f.name + ".txt"))
  }

  /** Dict assignment on an insertion-ordered table: replace in place, or append a new key. */
  function Put<V>(table: seq<(string, V)>, key: string, value: V): (r: seq<(string, V)>)
    ensures |r| == |table| || |r| == |table| + 1
    ensures (key, value) in r
    ensures forall i :: 0 <= i < |table| && table[i].0 != key ==> table[i] in r
  {
    if table == [] then [(key, value)]
    else if table[0].0 == key then [(key, value)] + table[1..]
    else [table[0]] + Put(table[1..], key, value)
  }

  /** The keys of a table. */
  function Keys<V>(table: seq<(string, V)>): set<string> {
    if table == [] then {} else {table[0].0} + Keys(table[1..])
  }

  /** A table whose keys are distinct, as those of a dict. */
  predicate DistinctKeys<V>(table: seq<(string, V)>) {
    table == [] || (table[0].0 !in Keys(table[1..]) && DistinctKeys(table[1..]))
  }

  /** Assignment adds its key to the keys and no other. */
  lemma {:induction false} PutKeys<V>(table: seq<(string, V)>, key: string, value: V)
    ensures Keys(Put(table, key, value)) == Keys(table) + {key}
  {
    if table != [] && table[0].0 != key {
      PutKeys(table[1..], key, value);
      assert Put(table, key, value)[1..] == Put(table[1..], key, value);
    } else if table != [] {
      assert Put(table, key, value)[1..] == table[1..];
    }
  }

  /** Assignment keeps the keys distinct. */
  lemma {:induction false} PutDistinct<V>(table: seq<(string, V)>, key: string, value: V)
    requires DistinctKeys(table)
    ensures DistinctKeys(Put(table, key, value))
  {
    if table != [] && table[0].0 != key {
      PutDistinct(table[1..], key, value);
      PutKeys(table[1..], key, value);
      assert Put(table, key, value)[1..] == Put(table[1..], key, value);
    } else if table != [] {
      assert Put(table, key, value)[1..] == table[1..];
    }
  }

  /** The number of success entries. */
  function SuccessCount(table: seq<(string, FileStatus)>): (n: nat)
    ensures n <= |table|
  {
    if table == [] then 0
    else SuccessCount(table[..|table| - 1]) + (if table[|table| - 1].1.Success? then 1 else 0)
  }

  /** The table after processing a listing in order. */
  function Processed(table: seq<(string, FileStatus)>, files: seq<InputFile>): seq<(string, FileStatus)> {
    if files == [] then table
    else
      var f := files[|files| - 1];
      Put(Processed(table, files[..|files| - 1]), f.name, StatusOf(f))
  }

  /** Every processed file gets an entry under its name, and the table gains no other key. */
  lemma {:induction false} ProcessedKeys(table: seq<(string, FileStatus)>, files: seq<InputFile>)
    ensures Keys(Processed(table, files)) == Keys(table) + Names(files)
  {
    if files != [] {
      var f := files[|files| - 1];
      var before := Processed(table, files[..|files| - 1]);
      ProcessedKeys(table, files[..|files| - 1]);
      PutKeys(before, f.name, StatusOf(f));
      NamesSnoc(files);
    }
  }

  /** The names of a listing. */
  function Names(files: seq<InputFile>): set<string> {
    set f | f in files :: f.name
  }

  lemma NamesSnoc(files: seq<InputFile>)
    requires files != []
    ensures Names(files) == Names(files[..|files| - 1]) + {files[|files| - 1].name}
  {
    assert files == files[..|files| - 1] + [files[|files| - 1]];
  }

  /** Processing keeps the table a dict: one entry per file name. */
  lemma {:induction false} ProcessedDistinct(table: seq<(string, FileStatus)>, files: seq<InputFile>)
    requires DistinctKeys(table)
    ensures DistinctKeys(Processed(table, files))
  {
    if files != [] {
      var f := files[|files| - 1];
      ProcessedDistinct(table, files[..|files| - 1]);
      PutDistinct(Processed(table, files[..|files| - 1]), f.name, StatusOf(f));
    }
  }

  function RegularFiles(listing: seq<InputFile>): (r: seq<InputFile>)
    ensures forall f :: f in r <==> f in listing && f.isFile
  {
    if listing == [] then []
    else
      var last := listing[|listing| - 1];
      RegularFiles(listing[..|listing| - 1]) + (if last.isFile then [last] else [])
  }

  /** The counts `create_processing_report` writes. */
  datatype ProcessingReport = ProcessingReport(total: nat, successful: nat, failed: nat)

  function ReportFor(table: seq<(string, FileStatus)>): (r: ProcessingReport)
    ensures r.successful + r.failed == r.total && r.total == |table|
  {
    ProcessingReport(|table|, SuccessCount(table), |table| - SuccessCount(table))
  }

  /** The body of the loop in `process_all_files`: extract, then write. */
  method ProcessOne(file: InputFile) returns (status: FileStatus)
    ensures status == StatusOf(file)
  {
    var text := ProcessFile(PathJoin(InputDir, file.name), file.data);
    if text.Some? && text.value != "" {
      if file.writeError.None? {
        status := Success(|text.value|, PathJoin(OutputDir, file.name + ".txt"));
      } else {
        status := Error(file.writeError.value);
      }
    } else {
      status := Failed("Не удалось извлечь текст");
    }
  }

  /** Processing one more file puts its status under its name. */
  lemma ProcessedStep(table: seq<(string, FileStatus)>, files: seq<InputFile>, i: nat)
    requires i < |files|
    ensures Processed(table, files[..i + 1]) == Put(Processed(table, files[..i]), files[i].name, StatusOf(files[i]))
  {
    assert files[..i + 1][..i] == files[..i];
  }

  /** The loop of `process_all_files` over the regular files, in listing order. */
  method ProcessListing(table: seq<(string, FileStatus)>, files: seq<InputFile>) returns (r: seq<(string, FileStatus)>)
    ensures r == Processed(table, files)
  {
    r := table;
    for i := 0 to |files|
      invariant r == Processed(table, files[..i])
    {
      ProcessedStep(table, files, i);
      var status := ProcessOne(files[i]);
      r := Put(r, files[i].name, status);
    }
    assert files[..|files|] == files;
  }

  /** The processor, reduced to its status table. */
  class UniversalDocumentProcessor {
    var processedFiles: seq<(string, FileStatus)>

    constructor()
      ensures processedFiles == []
    {
      processedFiles := [];
    }

    /** `process_all_files`: false without an input folder or regular files; otherwise every file gets a status. */
    method ProcessAllFiles(inputExists: bool, listing: seq<InputFile>) returns (ok: bool, report: ProcessingReport)
      modifies this
      ensures !inputExists || RegularFiles(listing) == [] ==> !ok && processedFiles == old(processedFiles)
      ensures inputExists && RegularFiles(listing) != [] ==>
        ok && processedFiles == Processed(old(processedFiles), RegularFiles(listing)) && report == ReportFor(processedFiles)
    {
      report := ProcessingReport(0, 0, 0);
      if !inputExists {
        return false, report;
      }
      var files := RegularFiles(listing);
      if files == [] {
        return false, report;
      }
      processedFiles := ProcessListing(processedFiles, files);
      report := CreateProcessingReport();
      ok := true;
    }

    /** `create_processing_report`: count the success entries; the rest are failures. */
    method CreateProcessingReport() returns (report: ProcessingReport)
      ensures report == ReportFor(processedFiles)
    {
      var successful := 0;
      for i := 0 to |processedFiles|
        invariant successful == SuccessCount(processedFiles[..i])
      {
        assert processedFiles[..i + 1][..i] == processedFiles[..i];
        if processedFiles[i].1.Success? {
          successful := successful + 1;
        }
      }
      assert processedFiles[..|processedFiles|] == processedFiles;
      report := ProcessingReport(|processedFiles|, successful, |processedFiles| - successful);
    }
  }

  /** A file with an unsupported extension that is written without error counts as a success. */
  lemma PlaceholderCountsAsSuccess(f: InputFile)
    requires !Dispatched(Extension(PathJoin(InputDir, f.name))) && f.writeError.None?
    ensures StatusOf(f).Success?
  {
    UnsupportedIsPlaceholder(PathJoin(InputDir, f.name), f.data);
  }
}
