/**
 * How the OCR analyzer and the LangChain analyzer load their regulation
 * corpus, and the report fields the LangChain analyzer derives from the
 * contract text and the retrieved documents.
 */
module Corpus {

  import opened Wrappers
  import opened Strings
  import opened Extraction
  import opened Banner

  // ---------------------------------------------------------------------------
  // The OCR analyzer's `load_regulations`
  // ---------------------------------------------------------------------------

  /** Processed files fill the text table under their name without `.txt`, banner stripped; unreadable files are skipped. */
  function ProcessedTexts(texts: map<string, string>, files: seq<ProcessedFile>): map<string, string> {
    if files == [] then texts
    else
      var m := ProcessedTexts(texts, files[..|files| - 1]);
      var f := files[|files| - 1];
      if f.content.Some? then m[SourceName(f.name) := StripBanner(f.content.value)] else m
  }

  /** Every key the processed path adds is a source name whose text is a banner-stripped file content. */
  lemma {:induction false} ProcessedTextsSources(texts: map<string, string>, files: seq<ProcessedFile>, k: string)
    requires k in ProcessedTexts(texts, files) && k !in texts
    ensures exists f :: f in files && f.content.Some? && SourceName(f.name) == k
                          && ProcessedTexts(texts, files)[k] == StripBanner(f.content.value)
  {
    var init := files[..|files| - 1];
    var f := files[|files| - 1];
    if f.content.Some? && SourceName(f.name) == k {
      assert f in files;
    } else {
      ProcessedTextsSources(texts, init, k);
      var g :| g in init && g.content.Some? && SourceName(g.name) == k
                && ProcessedTexts(texts, init)[k] == StripBanner(g.content.value);
      assert g in files;
    }
  }

  /** A raw regulation file: what the PDF engines give for it and what reading it as text gives (None: it raised). */
  datatype RawFile = RawFile(name: string, native: Option<string>, run: OcrRun, read: Option<string>)

  const RawExtensions: seq<string> := [".pdf", ".docx", ".doc", ".txt", ".xlsx", ".xml"]

  /** The raw-folder filter: the lowered name ends with one of the six extensions. */
  predicate IsRegulationFile(name: string) {
    exists e :: e in RawExtensions && EndsWith(Lower(name), e)
  }

  function RegulationFiles(listing: seq<RawFile>): (r: seq<RawFile>)
    ensures forall f :: f in r <==> f in listing && IsRegulationFile(f.name)
  {
    if listing == [] then []
    else
      var last := listing[|listing| - 1];
      RegulationFiles(listing[..|listing| - 1]) + (if IsRegulationFile(last.name) then [last] else [])
  }

  /** The notice that stands for a format the analyzer leaves to the universal processor. */
  function PreprocessingNotice(name: string): string {
    "[Файл " + name + " требует предварительной обработки через universal_processor.py]"
  }

  /** The text of a raw file by its extension; None when the read raised or extraction gave nothing. */
  function RawText(f: RawFile): Option<string> {
    if EndsWith(Lower(f.name), ".pdf") then SmartText(f.native, f.run)
    else if EndsWith(Lower(f.name), ".txt") then f.read
    else Some(PreprocessingNotice(f.name))
  }

  /** `if text and len(text) > 50`. */
  predicate KeptRaw(text: Option<string>) {
    text.Some? && |text.value| > 50
  }

  /** Raw files fill the text table under their full name when their text is longer than 50 characters. */
  function RawTexts(texts: map<string, string>, files: seq<RawFile>): map<string, string> {
    if files == [] then texts
    else
      var m := RawTexts(texts, files[..|files| - 1]);
      var f := files[|files| - 1];
      if KeptRaw(RawText(f)) then m[f.name := RawText(f).value] else m
  }

  /** The raw path keeps only long texts: any entry it adds is longer than 50 characters. */
  lemma {:induction false} RawTextsAreLong(texts: map<string, string>, files: seq<RawFile>, k: string)
    requires k in RawTexts(texts, files) && k !in texts
    ensures |RawTexts(texts, files)[k]| > 50
    ensures exists f :: f in files && f.name == k
  {
    if files != [] {
      var init := files[..|files| - 1];
      var f := files[|files| - 1];
      if !(KeptRaw(RawText(f)) && f.name == k) {
        RawTextsAreLong(texts, init, k);
        var g :| g in init && g.name == k;
        assert g in files;
      } else {
        assert f in files;
      }
    }
  }

  /** The raw path never drops an entry it already had. */
  lemma {:induction false} RawTextsKeepKeys(texts: map<string, string>, files: seq<RawFile>)
    ensures texts.Keys <= RawTexts(texts, files).Keys
  {
    if files != [] {
      RawTextsKeepKeys(texts, files[..|files| - 1]);
    }
  }

  /** The regulation table after `load_regulations` and its return value. */
  function LoadOutcome(texts: map<string, string>, processedExists: bool, processed: seq<ProcessedFile>,
                       rawExists: bool, raw: seq<RawFile>): (map<string, string>, bool)
  {
    var txtFiles := TxtFiles(processed);
    var m := if processedExists && txtFiles != [] then ProcessedTexts(texts, txtFiles) else texts;
    if processedExists && txtFiles != [] && m != map[] then (m, true)
    else if !rawExists then (m, false)
    else
      var files := RegulationFiles(raw);
      if files == [] then (m, false)
      else
        var m' := RawTexts(m, files);
        (m', |m'| > 0)
  }

  /** The OCR analyzer, reduced to its regulation table. */
  class OcrContractAnalyzer {
    var regulationsTexts: map<string, string>

    constructor()
      ensures regulationsTexts == map[]
    {
      regulationsTexts := map[];
    }

    /** `load_regulations`: the processed folder first; the raw folder only when that left the table empty. */
    method LoadRegulations(processedExists: bool, processed: seq<ProcessedFile>, rawExists: bool, raw: seq<RawFile>)
      returns (ok: bool)
      modifies this
      ensures (regulationsTexts, ok) == LoadOutcome(old(regulationsTexts), processedExists, processed, rawExists, raw)
    {
      var txtFiles := TxtFiles(processed);
      if processedExists && txtFiles != [] {
        regulationsTexts := LoadProcessed(regulationsTexts, txtFiles);
        if regulationsTexts != map[] {
          return true;
        }
      }
      if !rawExists {
        return false;
      }
      var files := RegulationFiles(raw);
      if files == [] {
        return false;
      }
      regulationsTexts := LoadRaw(regulationsTexts, files);
      ok := |regulationsTexts| > 0;
    }
  }

  /** The processed-file loop of `load_regulations`. */
  method LoadProcessed(texts: map<string, string>, txtFiles: seq<ProcessedFile>) returns (r: map<string, string>)
    ensures r == ProcessedTexts(texts, txtFiles)
  {
    r := texts;
    for i := 0 to |txtFiles|
      invariant r == ProcessedTexts(texts, txtFiles[..i])
    {
      assert txtFiles[..i + 1][..i] == txtFiles[..i];
      var file := txtFiles[i];
      if file.content.Some? {
        var text := StripBanner(file.content.value);
        r := r[SourceName(file.name) := text];
      }
    }
    assert txtFiles[..|txtFiles|] == txtFiles;
  }

  /** The per-extension read of one raw file. */
  method ReadRaw(file: RawFile) returns (text: Option<string>)
    ensures text == RawText(file)
  {
    if EndsWith(Lower(file.name), ".pdf") {
      text := SmartExtractText(file.native, file.run);
    } else if EndsWith(Lower(file.name), ".txt") {
      text := file.read;
    } else {
      text := Some(PreprocessingNotice(file.name));
    }
  }

  /** The raw-file loop of `load_regulations`. */
  method LoadRaw(texts: map<string, string>, files: seq<RawFile>) returns (r: map<string, string>)
    ensures r == RawTexts(texts, files)
  {
    r := texts;
    for i := 0 to |files|
      invariant r == RawTexts(texts, files[..i])
    {
      assert files[..i + 1][..i] == files[..i];
      var text := ReadRaw(files[i]);
      if text.Some? && |text.value| > 50 {
        r := r[files[i].name := text.value];
      }
    }
    assert files[..|files|] == files;
  }

  /** A readable processed `.txt` file settles the load: the raw folder is not consulted and the result is true. */
  lemma ProcessedShortCircuits(texts: map<string, string>, processed: seq<ProcessedFile>, rawExists: bool, raw: seq<RawFile>,
                               f: ProcessedFile)
    requires f in processed && EndsWith(f.name, ".txt") && f.content.Some?
    ensures LoadOutcome(texts, true, processed, rawExists, raw) == (ProcessedTexts(texts, TxtFiles(processed)), true)
  {
    ProcessedTextsHasKey(texts, TxtFiles(processed), f);
  }

  lemma {:induction false} ProcessedTextsHasKey(texts: map<string, string>, files: seq<ProcessedFile>, f: ProcessedFile)
    requires f in files && f.content.Some?
    ensures SourceName(f.name) in ProcessedTexts(texts, files)
  {
    var init := files[..|files| - 1];
    var last := files[|files| - 1];
    if f != last {
      assert f in init by {
        var i :| 0 <= i < |files| && files[i] == f;
        assert i < |init| && init[i] == f;
      }
      ProcessedTextsHasKey(texts, init, f);
    }
  }

  /** With no folders at all, loading fails and the table is unchanged. */
  lemma NothingToLoad(texts: map<string, string>, processed: seq<ProcessedFile>, raw: seq<RawFile>)
    ensures LoadOutcome(texts, false, processed, false, raw) == (texts, false)
  {
  }

  // ---------------------------------------------------------------------------
  // The LangChain analyzer's `load_regulations`
  // ---------------------------------------------------------------------------

  /** A `Document` built from a processed regulation; its metadata type is always "regulation". */
  datatype RegulationDocument = RegulationDocument(pageContent: string, source: string, length: nat)

  /** One document per readable `.txt` file whose banner-stripped content is substantial, in listing order. */
  function RegulationDocuments(files: seq<ProcessedFile>): (r: seq<RegulationDocument>)
    ensures |r| <= |files|
  {
    if files == [] then []
    else
      var f := files[|files| - 1];
      RegulationDocuments(files[..|files| - 1])
        + (if f.content.Some? && Substantial(StripBanner(f.content.value))
           then [RegulationDocument(StripBanner(f.content.value), SourceName(f.name), |StripBanner(f.content.value)|)]
           else [])
  }

  /** Every regulation document is substantial, is named after its file without `.txt`, and records its own length. */
  lemma {:induction false} RegulationDocumentsShape(files: seq<ProcessedFile>, d: RegulationDocument)
    requires d in RegulationDocuments(files)
    ensures Substantial(d.pageContent) && d.length == |d.pageContent|
    ensures exists f :: f in files && f.content.Some? && d.source == SourceName(f.name)
                          && d.pageContent == StripBanner(f.content.value)
  {
    var init := files[..|files| - 1];
    if d in RegulationDocuments(init) {
      RegulationDocumentsShape(init, d);
      var f :| f in init && f.content.Some? && d.source == SourceName(f.name) && d.pageContent == StripBanner(f.content.value);
      assert f in files;
    } else {
      assert files[|files| - 1] in files;
    }
  }

  /** The documents `load_regulations` would index. */
  function CorpusDocuments(processedExists: bool, listing: seq<ProcessedFile>): seq<RegulationDocument> {
    if processedExists then RegulationDocuments(TxtFiles(listing)) else []
  }

  /** The vector store: the persisted one reopened, or one built from documents. */
  datatype VectorStore = Persisted | Built(documents: seq<RegulationDocument>)

  /** What building the store does: the build raises, the persist raises after the build, or both succeed. */
  datatype BuildOutcome = BuildFails | PersistFails | BuildOk

  /** The opinion of the language model, or the message of the exception its call raised. */
  datatype LlmOutcome = Answered(response: string, sources: seq<RetrievedDocument>) | Raised(message: string)

  /** A document the retriever returned: its content and the metadata keys it may lack. */
  datatype RetrievedDocument = RetrievedDocument(pageContent: string, source: Option<string>, docType: Option<string>)

  /** One `source_documents` entry of the report. */
  datatype SourceEntry = SourceEntry(source: string, docType: string, contentPreview: string)

  const PreviewLength: nat := 200

  /** `doc.metadata.get(key, "Unknown")`. */
  function OrUnknown(v: Option<string>): (r: string)
    ensures v.Some? ==> r == v.value
    ensures v.None? ==> r == "Unknown"
  {
    match v
    case None => "Unknown"
    case Some(s) => s
  }

  /** The first 200 characters of the content followed by "...". */
  function Preview(content: string): (p: string)
    ensures |p| <= PreviewLength + 3
    ensures p == Take(content, PreviewLength) + "..."
    ensures |content| <= PreviewLength ==> p == content + "..."
  {
    Take(content, PreviewLength) + "..."
  }

  function SourceDocuments(docs: seq<RetrievedDocument>): (r: seq<SourceEntry>)
    ensures |r| == |docs|
    ensures forall i :: 0 <= i < |docs| ==>
      r[i] == SourceEntry(OrUnknown(docs[i].source), OrUnknown(docs[i].docType), Preview(docs[i].pageContent))
  {
    seq(|docs|, i requires 0 <= i < |docs| => SourceEntry(OrUnknown(docs[i].source), OrUnknown(docs[i].docType), Preview(docs[i].pageContent)))
  }

  /** The report of the LangChain analyzer, without its timestamps and file names. */
  datatype LangchainReport = LangchainReport(
    contractFile: string,
    textLength: nat,
    llmAnalysis: string,
    sourceDocuments: seq<SourceEntry>,
    regulationsUsed: nat,
    extractionMethod: string)

  const OcrMarker := "=== Страница"

  /** `'OCR' if '=== Страница' in contract_text else 'Standard'`. */
  function ExtractionMethodLabel(contractText: string): (r: string)
    ensures r == "OCR" <==> Contains(contractText, OcrMarker)
    ensures r == "OCR" || r == "Standard"
  {
    if Contains(contractText, OcrMarker) then "OCR" else "Standard"
  }

  /** The report dict: an exception of the model becomes the analysis text and leaves no sources. */
  function ReportOf(contractFile: string, contractText: string, llm: LlmOutcome): (r: LangchainReport)
    ensures r.regulationsUsed == |r.sourceDocuments|
    ensures llm.Raised? ==> r.sourceDocuments == [] && r.llmAnalysis == "Ошибка анализа: " + llm.message
    ensures llm.Answered? ==> r.sourceDocuments == SourceDocuments(llm.sources) && r.llmAnalysis == llm.response
    ensures r.extractionMethod == ExtractionMethodLabel(contractText) && r.textLength == |contractText|
  {
    var docs := if llm.Answered? then llm.sources else [];
    var response := if llm.Answered? then llm.response else "Ошибка анализа: " + llm.message;
    var entries := SourceDocuments(docs);
    LangchainReport(contractFile, |contractText|, response, entries, |entries|, ExtractionMethodLabel(contractText))
  }

  /** Text the OCR path produced is always labelled OCR. */
  lemma OcrTextLabelledOcr(native: Option<string>, run: OcrRun)
    requires !NativeAccepted(native) && Truthy(SmartText(native, run))
    ensures ExtractionMethodLabel(SmartText(native, run).value) == "OCR"
  {
    SmartTextOutcomes(native, run);
    StartsWithContains(SmartText(native, run).value, PageMarkerPrefix, 0, 12);
    assert PageMarkerPrefix[0..12] == OcrMarker;
  }

  /** The vector store after `load_regulations`, starting from `prior`. */
  function StoreAfterLoad(prior: Option<VectorStore>, storeExists: bool, storeOpens: bool, processedExists: bool,
                          listing: seq<ProcessedFile>, build: BuildOutcome): (r: Option<VectorStore>)
    ensures r.Some? <==>
      (storeExists && storeOpens) || prior.Some? || (CorpusDocuments(processedExists, listing) != [] && build != BuildFails)
    ensures r != prior ==> r == Some(Persisted) || r == Some(Built(CorpusDocuments(processedExists, listing)))
  {
    if storeExists && storeOpens then Some(Persisted)
    else if CorpusDocuments(processedExists, listing) == [] || build == BuildFails then prior
    else Some(Built(CorpusDocuments(processedExists, listing)))
  }

  /** The LangChain analyzer, reduced to its vector store. */
  class LangchainAnalyzer {
    var vectorstore: Option<VectorStore>

    constructor()
      ensures vectorstore.None?
    {
      vectorstore := None;
    }

    /**
     * `load_regulations`: reopen the persisted store when it exists and opens;
     * otherwise build one from the substantial processed documents. A failed
     * persist leaves the freshly built store in place and still reports failure.
     */
    method LoadRegulations(storeExists: bool, storeOpens: bool, processedExists: bool, listing: seq<ProcessedFile>,
                           build: BuildOutcome) returns (ok: bool)
      modifies this
      ensures storeExists && storeOpens ==> ok && vectorstore == Some(Persisted)
      ensures !(storeExists && storeOpens) && CorpusDocuments(processedExists, listing) == [] ==>
        !ok && vectorstore == old(vectorstore)
      ensures !(storeExists && storeOpens) && CorpusDocuments(processedExists, listing) != [] ==>
        && (ok <==> build == BuildOk)
        && vectorstore == (if build == BuildFails then old(vectorstore)
                           else Some(Built(CorpusDocuments(processedExists, listing))))
      ensures vectorstore == StoreAfterLoad(old(vectorstore), storeExists, storeOpens, processedExists, listing, build)
    {
      if storeExists && storeOpens {
        vectorstore := Some(Persisted);
        return true;
      }
      var documents: seq<RegulationDocument> := [];
      if processedExists {
        var txtFiles := TxtFiles(listing);
        for i := 0 to |txtFiles|
          invariant documents == RegulationDocuments(txtFiles[..i])
        {
          assert txtFiles[..i + 1][..i] == txtFiles[..i];
          var file := txtFiles[i];
          if file.content.Some? {
            var content := StripBanner(file.content.value);
            if |Strip(content)| > 100 {
              documents := documents + [RegulationDocument(content, SourceName(file.name), |content|)];
            }
          }
        }
        assert txtFiles[..|txtFiles|] == txtFiles;
      }
      if documents == [] {
        return false;
      }
      if build == BuildFails {
        return false;
      }
      vectorstore := Some(Built(documents));
      ok := build == BuildOk;
    }

    /**
     * `analyze_contract`: no report for a falsy text or when no store is ready
     * after loading, since then no analysis chain is built; otherwise the
     * report dict, which the source writes out before returning a file name.
     */
    method AnalyzeContract(contractPath: string, native: Option<string>, run: OcrRun,
                           storeExists: bool, storeOpens: bool, processedExists: bool, listing: seq<ProcessedFile>,
                           build: BuildOutcome, llm: LlmOutcome) returns (report: Option<LangchainReport>)
      modifies this
      ensures !Truthy(SmartText(native, run)) ==> report.None? && vectorstore == old(vectorstore)
      ensures Truthy(SmartText(native, run)) ==>
        && vectorstore == StoreAfterLoad(old(vectorstore), storeExists, storeOpens, processedExists, listing, build)
        && (report.Some? <==> vectorstore.Some?)
      ensures report.Some? ==> report == Some(ReportOf(Basename(contractPath), SmartText(native, run).value, llm))
    {
      var contractText := SmartExtractText(native, run);
      if contractText.None? || contractText.value == "" {
        return None;
      }
      var loaded := LoadRegulations(storeExists, storeOpens, processedExists, listing, build);
      if vectorstore.None? {
        return None;
      }
      report := Some(ReportOf(Basename(contractPath), contractText.value, llm));
    }
  }
}
