# Contract-compliance intake pipeline, modelled in Dafny

This project models the deterministic core of the document-intake and
keyword-compliance pipeline in `workspace/llamaindex_pdf/`. The pipeline has
these parts:

- **Adaptive text extraction.** Native PDF text is taken when its stripped length
  is strictly greater than 100. Otherwise OCR runs page by page, and every
  non-blank page contributes `=== Страница N ===\n<text>`.
- **Keyword classifier and decision policy** of `OCRContractAnalyzer`. This
  includes the missing `return` that makes every report fall back to
  `ОШИБКА_АНАЛИЗА`.
- **Regulation compactor** of `EnhancedContractAnalyzer`. Each line is filed into
  at most one category, each document contributes at most 5 entries per category,
  the merged lists are capped at 10/10/8/8, and the result is rendered as the
  summary text.
- **Regulation loaders** of the OCR and LangChain analyzers. They strip the
  banner, filter by length and name each source.
- **Format renderers** of `UniversalDocumentProcessor` (docx, doc, xlsx, XML,
  pptx), its extension dispatch, the file it writes and its status table.
- **Batch orchestrator** `BatchContractProcessor`: discovery, the
  cache-freshness check, the results list, frequency tables and dashboard
  figures.
- **LLM verdict-line parser** and the whitespace-only text rejection of the
  simple analyzer.
- **Scanned/text PDF classifier.**

Every external engine is an input value:
- `pymupdf4llm` text: `Option<string>`; `None` means the call raised.
- OCR: `OcrRun`, either failed or the per-page strings.
- python-docx documents, pandas sheets, python-pptx decks and ElementTree trees:
  datatypes.
- Directory listings and modification times: sequences.

Python's `str.strip` is modelled with Python's whitespace set. `str.lower` and
`str.upper` are modelled character by character.

Modules, one file each:

| file | module | models |
|---|---|---|
| `wrappers.dfy` | `Wrappers` | `Option` |
| `strings.dfy` | `Strings` | `strip`, case mapping, `startswith`/`endswith`/`in`, `split`, `join`, `replace`, `os.path.basename`/`join`/`splitext` |
| `extraction.dfy` | `Extraction` | `smart_extract_text`, `extract_text_with_ocr` |
| `classifier.dfy` | `Classifier` | `analyze_with_keywords`, `generate_report`, `analyze_contract` (full OCR analyzer), the keyword scan of `ocr_analyzer.py` |
| `banner.dfy` | `Banner` | the 60-`=` banner strip and the `.txt` listing shared by the loaders |
| `compactor.dfy` | `Compactor` | `extract_key_info`, `create_regulations_summary`, `prepare_regulations_summary` |
| `corpus.dfy` | `Corpus` | `load_regulations` of the OCR and LangChain analyzers, the LangChain report fields |
| `formats.dfy` | `Formats` | the docx, doc, xlsx, XML and pptx renderers |
| `universal.dfy` | `Universal` | `process_file`, `process_all_files`, `create_processing_report` |
| `batch.dfy` | `Batch` | `BatchContractProcessor` |
| `verdict.dfy` | `Verdict` | `parse_analysis_result`, `extract_text_from_pdf` (simple analyzer) |
| `pdftype.dfy` | `PdfType` | `check_pdf_content` |

`smart_extract_text` and `extract_text_with_ocr` appear five times, with the
same behaviour each time:
- full_ocr_analyzer.py:46-98
- ocr_analyzer.py:12-64
- langchain_ollama_analyzer.py:105-147
- enhanced_langchain_analyzer.py:245-282
- universal_processor.py:27-65

`Extraction` models them once. The rows below cite the full OCR analyzer's copy.

## Model

| member | source | states |
|---|---|---|
| Extraction.ExtractTextWithOcr | workspace/llamaindex_pdf/full_ocr_analyzer.py:46-79 | the page loop returns the marker blocks of the non-blank pages joined by a blank line, or None when the OCR engine raised |
| Extraction.SmartExtractText | workspace/llamaindex_pdf/full_ocr_analyzer.py:81-98 | native text when accepted, else the OCR result |
| Extraction.PageBlocksMembers | workspace/llamaindex_pdf/full_ocr_analyzer.py:57-67 | every block is the block of some non-blank page under its 1-based original index; every non-blank page has its block; no more blocks than pages |
| Extraction.BlocksStartWithMarker | workspace/llamaindex_pdf/full_ocr_analyzer.py:67 | every block starts with `=== Страница ` |
| Extraction.AllBlankNoBlocks | workspace/llamaindex_pdf/full_ocr_analyzer.py:66-70 | all-blank pages give no blocks |
| Extraction.OcrEmptyIffAllBlank | workspace/llamaindex_pdf/full_ocr_analyzer.py:55-75 | the OCR text is `""` exactly when every page is blank |
| Extraction.OcrTextStartsWithMarker | workspace/llamaindex_pdf/full_ocr_analyzer.py:67-72 | a non-empty OCR text starts with the page marker |
| Extraction.SmartTextOutcomes | workspace/llamaindex_pdf/full_ocr_analyzer.py:86-98 | None iff native text is rejected and OCR raised; `""` iff it is rejected and all pages are blank; a truthy result is the accepted native text or starts with the page marker |
| Extraction.GateIsStrict | workspace/llamaindex_pdf/full_ocr_analyzer.py:88 | a native text whose stripped length is exactly 100 goes to OCR |
| Extraction.TwoPageExample | workspace/llamaindex_pdf/full_ocr_analyzer.py:55-75 | a text page followed by a blank page gives just the first page's block |
| Classifier.FindKeywords | workspace/llamaindex_pdf/full_ocr_analyzer.py:203-207 | a keyword is found iff it is in the list and occurs in the lowered text; never more than the list |
| Classifier.FindKeywordsAppend | workspace/llamaindex_pdf/full_ocr_analyzer.py:203-207 | the found list keeps list order: the result for a concatenated list is the concatenation of the results |
| Classifier.FoundIffMentions | workspace/llamaindex_pdf/full_ocr_analyzer.py:210-214 | a found list is non-empty iff some keyword of its list occurs |
| Classifier.AnalyzeWithKeywords | workspace/llamaindex_pdf/full_ocr_analyzer.py:176-223 | each flag is true iff some keyword of its list occurs in the lowered text; each found list is `FindKeywords` of its list: exactly the keywords that occur, in list order |
| Classifier.Decide | workspace/llamaindex_pdf/full_ocr_analyzer.py:295-307 | ОТКАЗАТЬ iff sanctions or risk; ТРЕБУЕТ_ДОПОЛНИТЕЛЬНОЙ_ПРОВЕРКИ iff neither and contract with currency; МОЖНО_РАССМОТРЕТЬ iff neither and contract without currency; the default ТРЕБУЕТ_ПРОВЕРКИ otherwise, and only then is no reason set |
| Classifier.GenerateReport | workspace/llamaindex_pdf/full_ocr_analyzer.py:286-307 | the function as written returns nothing |
| Classifier.AnalyzedReport | workspace/llamaindex_pdf/full_ocr_analyzer.py:434-444 | the fallback report: ОШИБКА_АНАЛИЗА with reason `Не удалось создать отчет`, the keyword analysis and text length of the text, and method OCR iff the text contains `Страница` |
| Classifier.AnalyzeContract | workspace/llamaindex_pdf/full_ocr_analyzer.py:364-477 | no report iff the extracted text is falsy; otherwise always the ОШИБКА_АНАЛИЗА fallback, with a 1000-character preview |
| Classifier.IntendedReport | workspace/llamaindex_pdf/full_ocr_analyzer.py:286-307 | the report `generate_report` builds, returned: recommendation and reason by `Decide`, provenance by the page marker |
| Classifier.AnalyzeContractIntended | workspace/llamaindex_pdf/full_ocr_analyzer.py:364-477 | no report iff the text is falsy; otherwise the decided report and the preview |
| Classifier.DecisionByKeywords | workspace/llamaindex_pdf/full_ocr_analyzer.py:299-307 | the decided recommendation by the flags of the text, all four branches |
| Classifier.SanctionsBeatCurrency | workspace/llamaindex_pdf/full_ocr_analyzer.py:299-301 | text with both a sanctions and a currency keyword is rejected although its currency flag is set |
| Classifier.MissingReturnDiscardsDecision | workspace/llamaindex_pdf/full_ocr_analyzer.py:286-308 | for a text mentioning sanctions, the source reports ОШИБКА_АНАЛИЗА where the decided report is ОТКАЗАТЬ |
| Classifier.OcrProvenanceMissedByDraft | workspace/llamaindex_pdf/full_ocr_analyzer.py:292 | an OCR text of one page is labelled `Standard` by the draft report |
| Classifier.SinglePageOcrText | workspace/llamaindex_pdf/full_ocr_analyzer.py:55-75 | OCR of the single page `Договор` gives `=== Страница 1 ===\nДоговор` |
| Classifier.MarkerTextProvenance | workspace/llamaindex_pdf/full_ocr_analyzer.py:292 | that OCR text holds no `OCR` but does hold `Страница` |
| Classifier.MarkerNamesPage | workspace/llamaindex_pdf/full_ocr_analyzer.py:438 | a text starting with the page marker contains `Страница` |
| Classifier.OcrTextReportedAsOcr | workspace/llamaindex_pdf/full_ocr_analyzer.py:438 | a truthy OCR-derived text is reported as OCR by both the fallback and the decided report |
| Classifier.QuickScanOf | workspace/llamaindex_pdf/ocr_analyzer.py:97-115 | each found list holds exactly its keywords occurring in the lowered text; contract-like iff some contract keyword occurs |
| Classifier.AnalyzeContractWithOcr | workspace/llamaindex_pdf/ocr_analyzer.py:66-117 | None iff the extracted text is falsy; otherwise the text and its keyword scan |
| Banner.Rule | workspace/llamaindex_pdf/full_ocr_analyzer.py:119 | sixty `=` characters |
| Banner.StripBanner | workspace/llamaindex_pdf/full_ocr_analyzer.py:119-120 | content without the rule is unchanged; otherwise the result is the stripped rest after the first occurrence of the rule |
| Banner.TxtFiles | workspace/llamaindex_pdf/full_ocr_analyzer.py:107 | exactly the listed files whose name ends in `.txt` |
| Banner.BannerRoundTrip | workspace/llamaindex_pdf/full_ocr_analyzer.py:119-120 | a header without `=` followed by the rule and a text strips back to the stripped text |
| Compactor.ClassifyFirstMatch | workspace/llamaindex_pdf/enhanced_langchain_analyzer.py:95-120 | a line is filed in a category iff its stripped form has at least 10 characters, mentions that category's words and mentions none of an earlier category's |
| Compactor.MentionsAnyExists | workspace/llamaindex_pdf/enhanced_langchain_analyzer.py:103 | a lowered line mentions a word list iff some word of the list occurs in it |
| Compactor.FileLoweredFirstMatch | workspace/llamaindex_pdf/enhanced_langchain_analyzer.py:103-120 | the `if`/`elif` chain files a lowered line in a category iff it mentions that category's words and none of an earlier category's |
| Compactor.ShortLineDropped | workspace/llamaindex_pdf/enhanced_langchain_analyzer.py:96-98 | a line shorter than 10 once stripped is filed nowhere |
| Compactor.KeyInfoCaps | workspace/llamaindex_pdf/enhanced_langchain_analyzer.py:122-125 | each category list has at most 5 entries and is the prefix of that category's matches in line order, all of them when fewer than 5; the filename is the name with `.txt` removed |
| Compactor.ExtractKeyInfo | workspace/llamaindex_pdf/enhanced_langchain_analyzer.py:80-127 | the line loop and the truncation give the per-document key information |
| Compactor.MatchesComplete | workspace/llamaindex_pdf/enhanced_langchain_analyzer.py:103-120 | every line filed in a category contributes its stripped form |
| Compactor.MatchesSound | workspace/llamaindex_pdf/enhanced_langchain_analyzer.py:103-120 | every entry is the stripped form of a line filed in that category |
| Compactor.EntriesAreLong | workspace/llamaindex_pdf/enhanced_langchain_analyzer.py:96-104 | a stored entry has at least 10 characters and is the stripped, case-preserved form of a line filed in its category |
| Compactor.NoMatchesWithoutClass | workspace/llamaindex_pdf/enhanced_langchain_analyzer.py:103-120 | no line filed in a category means an empty list |
| Compactor.SanctionsWinTieBreak | workspace/llamaindex_pdf/enhanced_langchain_analyzer.py:103-108 | a line naming sanctions and currency is filed under sanctions only |
| Compactor.MergedAppend | workspace/llamaindex_pdf/enhanced_langchain_analyzer.py:136-139 | merging keeps document order: merged lists of concatenated data concatenate |
| Compactor.MergedMembership | workspace/llamaindex_pdf/enhanced_langchain_analyzer.py:136-139 | an item is merged iff some document holds it in that category |
| Compactor.CollectCategory | workspace/llamaindex_pdf/enhanced_langchain_analyzer.py:136-139 | the `extend` loop gives the merged list |
| Compactor.AppendBullets | workspace/llamaindex_pdf/enhanced_langchain_analyzer.py:143-144 | one `• ` line per item, appended in order |
| Compactor.AppendSection | workspace/llamaindex_pdf/enhanced_langchain_analyzer.py:136-144 | appends the category's section |
| Compactor.CreateRegulationsSummary | workspace/llamaindex_pdf/enhanced_langchain_analyzer.py:129-184 | the summary text for the documents |
| Compactor.SummaryStartsWithTitle | workspace/llamaindex_pdf/enhanced_langchain_analyzer.py:133 | the summary starts with `=== НОРМАТИВНАЯ БАЗА ===` |
| Compactor.SectionHeaders | workspace/llamaindex_pdf/enhanced_langchain_analyzer.py:141-177 | a section holds a category header iff it is its own category's and that list is non-empty |
| Compactor.HeaderIffNonEmpty | workspace/llamaindex_pdf/enhanced_langchain_analyzer.py:141-174 | a category header appears in the summary iff its merged list is non-empty |
| Compactor.SectionItems | workspace/llamaindex_pdf/enhanced_langchain_analyzer.py:143-177 | a section is its header and then bullets of the first min(n, cap) merged items in order, with caps 10/10/8/8 |
| Compactor.SourcesLast | workspace/llamaindex_pdf/enhanced_langchain_analyzer.py:180-182 | the summary ends with the sources header and one bullet per document filename, in document order |
| Compactor.SummarySize | workspace/llamaindex_pdf/enhanced_langchain_analyzer.py:129-184 | at most 42 lines besides one line per document |
| Compactor.MergedIgnoresKeyPoints | workspace/llamaindex_pdf/enhanced_langchain_analyzer.py:129-177 | the merged rendered lists do not depend on the key points |
| Compactor.SummaryIgnoresKeyPoints | workspace/llamaindex_pdf/enhanced_langchain_analyzer.py:119-184 | documents differing only in key points give the same summary |
| Compactor.DocumentsDataSources | workspace/llamaindex_pdf/enhanced_langchain_analyzer.py:54-70 | every summarised document comes from a readable `.txt` file whose banner-stripped content has stripped length above 100 |
| Compactor.EnhancedContractAnalyzer.constructor | workspace/llamaindex_pdf/enhanced_langchain_analyzer.py:31-44 | a new analyzer holds the summary of the processed regulations |
| Compactor.EnhancedContractAnalyzer.PrepareRegulationsSummary | workspace/llamaindex_pdf/enhanced_langchain_analyzer.py:47-77 | the field becomes the summary of the substantial processed files |
| Corpus.ProcessedTextsSources | workspace/llamaindex_pdf/full_ocr_analyzer.py:112-123 | every new key is the `.txt`-stripped name of a readable processed file |
| Corpus.ProcessedTextsHasKey | workspace/llamaindex_pdf/full_ocr_analyzer.py:112-123 | every readable processed file is loaded under its stripped name |
| Corpus.RegulationFiles | workspace/llamaindex_pdf/full_ocr_analyzer.py:142-143 | exactly the listed files with a regulation extension, in any letter case |
| Corpus.RawTextsAreLong | workspace/llamaindex_pdf/full_ocr_analyzer.py:164-165 | a raw text is kept only when longer than 50 characters, under its file's name |
| Corpus.RawTextsKeepKeys | workspace/llamaindex_pdf/full_ocr_analyzer.py:151-171 | raw loading never drops an existing key |
| Corpus.OcrContractAnalyzer.constructor | workspace/llamaindex_pdf/full_ocr_analyzer.py:41-43 | no regulation texts |
| Corpus.OcrContractAnalyzer.LoadRegulations | workspace/llamaindex_pdf/full_ocr_analyzer.py:100-174 | the table and result are those of the processed path when it loads something, else of the raw path |
| Corpus.LoadProcessed | workspace/llamaindex_pdf/full_ocr_analyzer.py:112-127 | the processed-file loop |
| Corpus.ReadRaw | workspace/llamaindex_pdf/full_ocr_analyzer.py:155-162 | the text of one raw file by its extension |
| Corpus.LoadRaw | workspace/llamaindex_pdf/full_ocr_analyzer.py:151-171 | the raw-file loop |
| Corpus.ProcessedShortCircuits | workspace/llamaindex_pdf/full_ocr_analyzer.py:129-131 | one readable processed file makes the load succeed from the processed path alone |
| Corpus.NothingToLoad | workspace/llamaindex_pdf/full_ocr_analyzer.py:134-137 | with neither folder present the load fails and changes nothing |
| Corpus.RegulationDocumentsShape | workspace/llamaindex_pdf/langchain_ollama_analyzer.py:172-191 | every document is substantial, records its length, and its source is the `.txt`-stripped name of a readable file |
| Corpus.OrUnknown | workspace/llamaindex_pdf/langchain_ollama_analyzer.py:409-410 | the metadata value, or `Unknown` |
| Corpus.Preview | workspace/llamaindex_pdf/langchain_ollama_analyzer.py:411 | the first 200 characters and `...` |
| Corpus.SourceDocuments | workspace/llamaindex_pdf/langchain_ollama_analyzer.py:407-414 | one entry per retrieved document, in order, with source, type and preview |
| Corpus.ExtractionMethodLabel | workspace/llamaindex_pdf/langchain_ollama_analyzer.py:416 | OCR iff the text contains `=== Страница`, else Standard |
| Corpus.ReportOf | workspace/llamaindex_pdf/langchain_ollama_analyzer.py:385-417 | `regulations_used` equals the number of source documents; a raised chain gives no sources and `Ошибка анализа: ` with the message |
| Corpus.OcrTextLabelledOcr | workspace/llamaindex_pdf/langchain_ollama_analyzer.py:416 | a truthy OCR-derived text is labelled OCR |
| Corpus.LangchainAnalyzer.constructor | workspace/llamaindex_pdf/langchain_ollama_analyzer.py:32-43 | no vector store |
| Corpus.StoreAfterLoad | workspace/llamaindex_pdf/langchain_ollama_analyzer.py:149-226 | a store is ready after loading iff the persisted one opens, one was already there, or substantial documents exist and building does not raise; a new store is the persisted one or one built from exactly the substantial documents |
| Corpus.LangchainAnalyzer.LoadRegulations | workspace/llamaindex_pdf/langchain_ollama_analyzer.py:149-226 | an openable persisted store succeeds at once; no substantial document fails without change; otherwise success iff building and persisting succeed; the new store is `StoreAfterLoad` of the old one |
| Corpus.LangchainAnalyzer.AnalyzeContract | workspace/llamaindex_pdf/langchain_ollama_analyzer.py:313-417 | no report and no change for a falsy text; otherwise the store becomes the one `load_regulations` leaves, and a report exists iff that store is ready, built from the text and the chain outcome |
| Formats.NonBlankMembership | workspace/llamaindex_pdf/universal_processor.py:75-77 | a paragraph is kept, unstripped, iff it is not blank |
| Formats.StrippedCellsTrimmed | workspace/llamaindex_pdf/universal_processor.py:83-85 | kept cells are stripped and non-empty |
| Formats.RowLinesNotBlank | workspace/llamaindex_pdf/universal_processor.py:80-87 | no rendered table row is blank |
| Formats.DocxLinesNotBlank | workspace/llamaindex_pdf/universal_processor.py:75-89 | no output line is blank and every non-blank paragraph is output |
| Formats.RowText | workspace/llamaindex_pdf/universal_processor.py:82-85 | the cell loop keeps the stripped non-blank cells |
| Formats.TableText | workspace/llamaindex_pdf/universal_processor.py:81-87 | the row loop of one table |
| Formats.CollectParagraphs | workspace/llamaindex_pdf/universal_processor.py:75-77 | the paragraph loop |
| Formats.ExtractTextFromDocx | workspace/llamaindex_pdf/universal_processor.py:67-95 | None when the document cannot be opened, else paragraphs then rows joined by newlines |
| Formats.DocText | workspace/llamaindex_pdf/universal_processor.py:97-120 | the joined paragraphs when longer than 50, else the needs-work placeholder; the failure placeholder when opening raises; never empty |
| Formats.ExtractTextFromDoc | workspace/llamaindex_pdf/universal_processor.py:97-120 | the doc text |
| Formats.KeptRowsMembership | workspace/llamaindex_pdf/universal_processor.py:144-147 | a line is kept iff it is not blank and renders some row |
| Formats.MissingCellsKeepSeparators | workspace/llamaindex_pdf/universal_processor.py:145-146 | an all-NaN row of one cell is dropped, but one of two cells renders ` \| ` and is kept |
| Formats.MissingRowRenderings | workspace/llamaindex_pdf/universal_processor.py:145 | missing cells render as empty text between ` \| ` separators |
| Formats.KeptSingleRow | workspace/llamaindex_pdf/universal_processor.py:144-147 | a one-row sheet keeps its rendering iff that rendering is not blank |
| Formats.RowsText | workspace/llamaindex_pdf/universal_processor.py:144-147 | the row loop adds each kept row with a newline |
| Formats.ExtractTextFromXlsx | workspace/llamaindex_pdf/universal_processor.py:122-157 | None when the workbook cannot be read, else the sheet texts joined by a blank line |
| Formats.XmlLines | workspace/llamaindex_pdf/universal_processor.py:167-179 | the walk of one element gives at most one line per element of its subtree, and at least one when its tag is non-empty |
| Formats.XmlText | workspace/llamaindex_pdf/universal_processor.py:159-188 | None iff parsing raised; a parsed document with a tagged root gives text starting with the root tag |
| Formats.XmlLinesIndented | workspace/llamaindex_pdf/universal_processor.py:167-179 | every line at depth d starts with 2d spaces |
| Formats.XmlLineCount | workspace/llamaindex_pdf/universal_processor.py:167-179 | at most one line per element, exactly one when every tag is non-empty |
| Formats.RootLineFirst | workspace/llamaindex_pdf/universal_processor.py:171-174 | the walk is preorder: the root's own line, `tag: text` with stripped text or `tag:`, comes first |
| Strings.KeepNumberedSound | workspace/llamaindex_pdf/universal_processor.py:200-208 | every kept item is the rendering of some item under its original 1-based index |
| Formats.KeptSlidesNumbered | workspace/llamaindex_pdf/universal_processor.py:200-208 | every kept slide is a kept slide's text under its original number |
| Formats.HeaderStripped | workspace/llamaindex_pdf/universal_processor.py:207 | the bare slide header strips to its first line |
| Formats.EmptySlideDropped | workspace/llamaindex_pdf/universal_processor.py:203-208 | a slide with no shape text is dropped |
| Formats.SlideWithTextKept | workspace/llamaindex_pdf/universal_processor.py:203-208 | a slide whose first shape has text starting with a non-space is kept |
| Formats.SlideTextOf | workspace/llamaindex_pdf/universal_processor.py:201-205 | the shape loop of one slide |
| Formats.ExtractTextFromPptx | workspace/llamaindex_pdf/universal_processor.py:190-219 | the placeholder without the library, None when unreadable, else the kept slides joined by a blank line |
| Universal.ProcessFile | workspace/llamaindex_pdf/universal_processor.py:221-239 | dispatch on the lowered extension |
| Universal.UnsupportedIsPlaceholder | workspace/llamaindex_pdf/universal_processor.py:237-239 | an extension outside the table gives the non-empty placeholder |
| Universal.XmlGetsPlaceholder | workspace/llamaindex_pdf/universal_processor.py:233-239 | an `.xml` file gets the placeholder, not the XML renderer |
| Universal.UpperCaseDispatch | workspace/llamaindex_pdf/universal_processor.py:223-226 | `.PDF` is dispatched as `.pdf` |
| Universal.OutputReadsBack | workspace/llamaindex_pdf/universal_processor.py:269-273 | the written file, read back through the loaders' banner strip, gives the stripped text when name and timestamp hold no `=` |
| Universal.StatusOf | workspace/llamaindex_pdf/universal_processor.py:263-293 | success iff the extracted text is truthy and writing did not raise |
| Universal.PutKeys | workspace/llamaindex_pdf/universal_processor.py:275-290 | assigning a key adds that key and no other |
| Universal.PutDistinct | workspace/llamaindex_pdf/universal_processor.py:275-290 | assignment keeps one entry per key |
| Universal.ProcessedKeys | workspace/llamaindex_pdf/universal_processor.py:257-293 | every processed file has an entry under its name and no other key is added |
| Universal.ProcessedDistinct | workspace/llamaindex_pdf/universal_processor.py:257-293 | the table stays a dict |
| Universal.RegularFiles | workspace/llamaindex_pdf/universal_processor.py:247-248 | exactly the listed regular files |
| Universal.ReportFor | workspace/llamaindex_pdf/universal_processor.py:305-306 | successful plus failed equals the number of entries |
| Universal.ProcessOne | workspace/llamaindex_pdf/universal_processor.py:258-293 | one file's status |
| Universal.ProcessListing | workspace/llamaindex_pdf/universal_processor.py:257-293 | the file loop |
| Universal.UniversalDocumentProcessor.constructor | workspace/llamaindex_pdf/universal_processor.py:19-25 | an empty status table |
| Universal.UniversalDocumentProcessor.ProcessAllFiles | workspace/llamaindex_pdf/universal_processor.py:241-299 | false and no change without the folder or regular files; otherwise every file processed in order and the report counted |
| Universal.UniversalDocumentProcessor.CreateProcessingReport | workspace/llamaindex_pdf/universal_processor.py:301-306 | counts the success entries; the rest are failures |
| Universal.PlaceholderCountsAsSuccess | workspace/llamaindex_pdf/universal_processor.py:239-279 | a written file of unsupported type is a success |
| Strings.PathJoin | workspace/llamaindex_pdf/batch_contract_processor.py:27 | the joined path ends with the name |
| Strings.BasenameJoin | workspace/llamaindex_pdf/batch_contract_processor.py:27 | the base name of a joined path is the file name |
| Strings.Stem | workspace/llamaindex_pdf/batch_contract_processor.py:70 | stem and extension make up the base name |
| Strings.StemOf | workspace/llamaindex_pdf/batch_contract_processor.py:70 | the stem of `s.ext` is `s` |
| Batch.DirPdfsMembership | workspace/llamaindex_pdf/batch_contract_processor.py:25-27 | a directory yields exactly its joined PDF names, in any letter case |
| Batch.WalkPdfsMembership | workspace/llamaindex_pdf/batch_contract_processor.py:23-29 | a path is discovered iff it joins a walked directory with one of its PDF names |
| Batch.CollectDirPdfs | workspace/llamaindex_pdf/batch_contract_processor.py:25-27 | the inner loop |
| Batch.FindContractFiles | workspace/llamaindex_pdf/batch_contract_processor.py:17-29 | nothing without the folder, else the walk's PDFs in walk order |
| Batch.HasRecentAnalysis | workspace/llamaindex_pdf/batch_contract_processor.py:68-85 | true iff some artifact starts with `analysis_<stem>_`, ends with `.json` and is strictly newer, both times readable |
| Batch.ScanListing | workspace/llamaindex_pdf/batch_contract_processor.py:73-85 | the listing loop |
| Batch.PrefixCollision | workspace/llamaindex_pdf/batch_contract_processor.py:74 | an artifact matching stem `s_t` also matches stem `s` |
| Batch.PrefixCollisionExample | workspace/llamaindex_pdf/batch_contract_processor.py:70-81 | `analysis_a_b_1.json` is a cache hit for `a.pdf` |
| Batch.StemOfA | workspace/llamaindex_pdf/batch_contract_processor.py:70 | the stem of `a.pdf` is `a` |
| Batch.CollidingName | workspace/llamaindex_pdf/batch_contract_processor.py:74 | `analysis_a_b_1.json` has the artifact prefix of stem `a_b` and of stem `a` |
| Batch.UnreadableTimeNoHit | workspace/llamaindex_pdf/batch_contract_processor.py:76-83 | an unreadable contract time gives no hit |
| Batch.StepResults | workspace/llamaindex_pdf/batch_contract_processor.py:45-61 | one contract adds at most one result |
| Batch.RecordedExtends | workspace/llamaindex_pdf/batch_contract_processor.py:15-55 | earlier results stay in front; at most one result per contract |
| Batch.RecordedAppend | workspace/llamaindex_pdf/batch_contract_processor.py:42-61 | the run over a listing is the run over its first part continued over the rest |
| Batch.RecordedSound | workspace/llamaindex_pdf/batch_contract_processor.py:52-55 | every new result is what the analyzer returned for a discovered contract |
| Batch.ForceIgnoresCache | workspace/llamaindex_pdf/batch_contract_processor.py:47 | with force the artifact listing makes no difference |
| Batch.CacheOnlySkips | workspace/llamaindex_pdf/batch_contract_processor.py:47-49 | a forced run records at least as many results |
| Batch.IncrementCount | workspace/llamaindex_pdf/batch_contract_processor.py:105-106 | incrementing raises that key's count by one and no other |
| Batch.IncrementTotal | workspace/llamaindex_pdf/batch_contract_processor.py:105-106 | incrementing raises the total by one |
| Batch.TallyTotal | workspace/llamaindex_pdf/batch_contract_processor.py:101-106 | the counts sum to the number of keys counted |
| Batch.TallyCount | workspace/llamaindex_pdf/batch_contract_processor.py:101-106 | each count is the key's number of occurrences |
| Batch.SummaryTotals | workspace/llamaindex_pdf/batch_contract_processor.py:97-106 | both tables sum to `total_contracts`, which is the number of results |
| Batch.ProblemsMembership | workspace/llamaindex_pdf/batch_contract_processor.py:213-220 | the problem list holds exactly the results with risk score at least 3 |
| Batch.ProblemsAppend | workspace/llamaindex_pdf/batch_contract_processor.py:206-220 | in result order |
| Batch.HighRiskCount | workspace/llamaindex_pdf/batch_contract_processor.py:196 | never more than the results |
| Batch.DecisionCount | workspace/llamaindex_pdf/batch_contract_processor.py:197-198 | never more than the results |
| Batch.HighRiskFromDistribution | workspace/llamaindex_pdf/batch_contract_processor.py:196-210 | `high_risk` equals the КРИТИЧЕСКИЙ plus ВЫСОКИЙ counts of the risk distribution |
| Batch.CountStatistics | workspace/llamaindex_pdf/batch_contract_processor.py:101-106 | the counting loop gives both frequency tables |
| Batch.Distributions | workspace/llamaindex_pdf/batch_contract_processor.py:206-220 | the dashboard loop gives both distributions and the problem list |
| Batch.BatchContractProcessor.constructor | workspace/llamaindex_pdf/batch_contract_processor.py:10-15 | no results |
| Batch.BatchContractProcessor.RecordAll | workspace/llamaindex_pdf/batch_contract_processor.py:42-61 | the results after the contract loop |
| Batch.BatchContractProcessor.ProcessAllContracts | workspace/llamaindex_pdf/batch_contract_processor.py:31-66 | `[]` and no change without contracts; otherwise results appended, returned whole, and summarised |
| Batch.BatchContractProcessor.CreateSummaryReport | workspace/llamaindex_pdf/batch_contract_processor.py:87-118 | nothing without results, else the statistics |
| Batch.BatchContractProcessor.GenerateDashboardData | workspace/llamaindex_pdf/batch_contract_processor.py:188-220 | None without results, else the dashboard figures |
| Batch.TwoRunsAccumulate | workspace/llamaindex_pdf/batch_contract_processor.py:15-66 | a second run appends to the first |
| Verdict.PdfText | workspace/llamaindex_pdf/simple_analyzer.py:62-84 | a text iff the file exists, extraction succeeds and the text is not whitespace-only; the text unstripped |
| Verdict.ParseLineFields | workspace/llamaindex_pdf/simple_analyzer.py:139-146 | a line sets only the field of the first key its stripped, upper-cased form starts with |
| Verdict.ParseAnalysisResult | workspace/llamaindex_pdf/simple_analyzer.py:131-148 | the fields after reading the lines in order |
| Verdict.NoKeysGiveDefaults | workspace/llamaindex_pdf/simple_analyzer.py:133-148 | with no keyed line the defaults come back |
| Verdict.LastDecisionWins | workspace/llamaindex_pdf/simple_analyzer.py:139-142 | the last decision line gives the decision |
| Verdict.LastReasonWins | workspace/llamaindex_pdf/simple_analyzer.py:139-144 | the last reason line gives the reason |
| Verdict.LastRecommendationsWin | workspace/llamaindex_pdf/simple_analyzer.py:139-146 | the last recommendations line gives the recommendations |
| Verdict.ValueAfterKey | workspace/llamaindex_pdf/simple_analyzer.py:142 | on a keyed line the value is the stripped rest after the key |
| PdfType.KindOf | workspace/llamaindex_pdf/check_pdf_type.py:47-55 | scanned iff no text pages and some image pages; text iff some text pages; unknown otherwise |
| PdfType.CheckPdfContent | workspace/llamaindex_pdf/check_pdf_type.py:6-59 | error for an unreadable document, else the kind of its counts |
| PdfType.CountPages | workspace/llamaindex_pdf/check_pdf_type.py:18-35 | the page loop's two counters |
| PdfType.CountsBounded | workspace/llamaindex_pdf/check_pdf_type.py:12-35 | text pages plus image pages stay within the page count |
| PdfType.CountsGrow | workspace/llamaindex_pdf/check_pdf_type.py:18-35 | both counters only grow |
| PdfType.NoTextPages | workspace/llamaindex_pdf/check_pdf_type.py:28-29 | no text page counted iff no page has more than 50 stripped characters |
| PdfType.SomeImagePage | workspace/llamaindex_pdf/check_pdf_type.py:31-32 | some image page counted iff some page lacks text and has an image |
| PdfType.ScannedIff | workspace/llamaindex_pdf/check_pdf_type.py:47-49 | scanned iff no page has meaningful text and some page holds an image |
| PdfType.EmptyDocumentUnknown | workspace/llamaindex_pdf/check_pdf_type.py:53-55 | zero pages is unknown |
| PdfType.FiftyIsNotText | workspace/llamaindex_pdf/check_pdf_type.py:28-55 | a one-page document with exactly 50 stripped characters is scanned if the page has an image and unknown otherwise, never text |

## Left out

- Language-model and retrieval calls are left out: Ollama, LlamaIndex, LangChain `RetrievalQA`, the Chroma store and the embeddings. Their answers enter only as opaque inputs (`llm` strings, `LlmOutcome`, `BuildOutcome`).
- `RecursiveCharacterTextSplitter` chunking before the store is built is not modelled. The store records the whole documents.
- Each text engine enters as an input: `pymupdf4llm`, `convert_from_path` (with its DPI and thread count), `pytesseract`, pandas, python-docx, python-pptx and ElementTree. A raised exception becomes the input's failure variant.
- `Strings.Lower`, `Strings.Upper`: map only ASCII and Cyrillic letters. Python's full Unicode case mapping, which can change string length, is not modelled.
- File contents, directory listings, modification times and timestamps are inputs. Writing the contract-text files, JSON reports, text reports and the processing report is not modelled. Neither are `create_text_report`, `print_analysis_results`, `save_analysis_log` and console output.
- Percentages in the batch reports are floating point. Only the integer counts are modelled.
- `KeywordOnlyAnalyzer` is not part of this model. Its records are abstract `AnalysisResult` values, and an empty (falsy) record dict cannot be represented.
- Batch.BatchContractProcessor.ProcessAllContracts: reads the working directory listing once for the whole run, so analysis files written during the run are not seen by later cache checks.
- Corpus.OcrContractAnalyzer.LoadRegulations: keeps `regulations_texts` as a map. Key insertion order is not kept; only the language-model prompt depends on it.
- The XML renderer (`Formats.XmlText`) is modelled, but dispatch never reaches it: its branch in `process_file` is commented out.
- The LLM prompt building and the `analyze_contract` of the enhanced and simple analyzers are left out, as are `fixed_analyzer.py`, `debug_analyzer.py`, the upload server and the front end. Command-line handling is left out too.
- Corpus.LangchainAnalyzer.AnalyzeContract: returns the report dict, where the source returns the name of the summary file it writes (`summary_file`, built from the clock). An exception raised while building the prompt or `RetrievalQA` chain is not modelled. The one `None` that `create_analysis_chain` returns, for a missing store (langchain_ollama_analyzer.py:230-232), is modelled.
- PdfType.CheckPdfContent: an exception raised while reading a single page is modelled as an unreadable document. Both yield `error`.

## Findings

| source | as written | input that shows it | evidently intended | confidence | as-written member | corrected member |
|---|---|---|---|---|---|---|
| workspace/llamaindex_pdf/full_ocr_analyzer.py:286-307 | `generate_report` builds the report and its decision but has no `return`, so `analyze_contract` always uses the `ОШИБКА_АНАЛИЗА` fallback | any truthy contract text, e.g. one mentioning `санкци` | return the report with the keyword decision (ОТКАЗАТЬ for that text) | not executed; high | Classifier.MissingReturnDiscardsDecision | Classifier.AnalyzeContractIntended |
| workspace/llamaindex_pdf/full_ocr_analyzer.py:292 | the report labels the text `OCR` only if it contains the letters `OCR`, which OCR output does not | one OCR page `Договор`, giving `=== Страница 1 ===\nДоговор` | label by the page marker, as the fallback reports at lines 418-444 do | not executed; medium | Classifier.OcrProvenanceMissedByDraft | Classifier.OcrTextReportedAsOcr |
