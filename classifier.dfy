/**
 * The deterministic keyword classifier of the OCR contract analyzer
 * (`analyze_with_keywords`), its decision policy (`generate_report`), the
 * report `analyze_contract` returns, and the smaller keyword scan of the
 * stand-alone OCR analyzer (`analyze_contract_with_ocr`).
 */
module Classifier {

  import opened Wrappers
  import opened Strings
  import opened Extraction

  const SanctionsKeywords: seq<string> :=
    ["санкци", "запрет", "ограничен", "блокир", "заморож", "черный список", "персона нон грата", "эмбарго"]
  const CurrencyKeywords: seq<string> :=
    ["доллар", "евро", "фунт", "юань", "валют", "девиз", "курс валют", "валютн", "экспорт", "импорт"]
  const ContractKeywords: seq<string> :=
    ["договор", "контракт", "соглашен", "сторон", "покупател", "продавец", "поставщик", "заказчик", "подрядчик"]
  const RiskKeywords: seq<string> :=
    ["оружие", "военн", "двойного назначения", "технологи", "программное обеспечение", "криптограф", "ядерн"]

  /** The keywords of the list, in list order, that occur in the lowered text (`[kw for kw in keywords if kw in text_lower]`). */
  function FindKeywords(keywords: seq<string>, textLower: string): (found: seq<string>)
    ensures forall k :: k in found <==> k in keywords && Contains(textLower, k)
    ensures |found| <= |keywords|
  {
    if keywords == [] then []
    else (if Contains(textLower, keywords[0]) then [keywords[0]] else []) + FindKeywords(keywords[1..], textLower)
  }

  /** The found list keeps the keyword list's order: it splits along any split of the list. */
  lemma {:induction false} FindKeywordsAppend(a: seq<string>, b: seq<string>, textLower: string)
    ensures FindKeywords(a + b, textLower) == FindKeywords(a, textLower) + FindKeywords(b, textLower)
  {
    if a == [] {
      assert a + b == b;
    } else {
      assert (a + b)[0] == a[0] && (a + b)[1..] == a[1..] + b;
      FindKeywordsAppend(a[1..], b, textLower);
    }
  }

  /** The `analysis` dict: four flags and the four found lists. */
  datatype KeywordAnalysis = KeywordAnalysis(
    isContract: bool,
    hasSanctionsMentions: bool,
    hasCurrencyOperations: bool,
    hasRiskItems: bool,
    foundSanctions: seq<string>,
    foundCurrency: seq<string>,
    foundContract: seq<string>,
    foundRisks: seq<string>)

  /** Some keyword of the list occurs in the text once it is lowered. */
  predicate Mentions(text: string, keywords: seq<string>) {
    MentionsLowered(Lower(text), keywords)
  }

  predicate MentionsLowered(textLower: string, keywords: seq<string>) {
    exists k :: k in keywords && Contains(textLower, k)
  }

  /** A found list is non-empty exactly when some keyword occurs. */
  lemma FoundIffMentions(keywords: seq<string>, textLower: string)
    ensures FindKeywords(keywords, textLower) != [] <==> MentionsLowered(textLower, keywords)
  {
    var found := FindKeywords(keywords, textLower);
    if found != [] {
      assert found[0] in found;
    }
  }

  /** `analyze_with_keywords`. */
  function AnalyzeWithKeywords(contractText: string): (a: KeywordAnalysis)
    ensures a.isContract <==> Mentions(contractText, ContractKeywords)
    ensures a.hasSanctionsMentions <==> Mentions(contractText, SanctionsKeywords)
    ensures a.hasCurrencyOperations <==> Mentions(contractText, CurrencyKeywords)
    ensures a.hasRiskItems <==> Mentions(contractText, RiskKeywords)
    ensures forall k :: k in a.foundSanctions <==> k in SanctionsKeywords && Contains(Lower(contractText), k)
    ensures forall k :: k in a.foundCurrency <==> k in CurrencyKeywords && Contains(Lower(contractText), k)
    ensures forall k :: k in a.foundContract <==> k in ContractKeywords && Contains(Lower(contractText), k)
    ensures forall k :: k in a.foundRisks <==> k in RiskKeywords && Contains(Lower(contractText), k)
    ensures a.foundSanctions == FindKeywords(SanctionsKeywords, Lower(contractText))
    ensures a.foundCurrency == FindKeywords(CurrencyKeywords, Lower(contractText))
    ensures a.foundContract == FindKeywords(ContractKeywords, Lower(contractText))
    ensures a.foundRisks == FindKeywords(RiskKeywords, Lower(contractText))
  {
    var textLower := Lower(contractText);
    FoundIffMentions(SanctionsKeywords, textLower);
    FoundIffMentions(CurrencyKeywords, textLower);
    FoundIffMentions(ContractKeywords, textLower);
    FoundIffMentions(RiskKeywords, textLower);
    KeywordAnalysisOf(textLower)
  }

  function KeywordAnalysisOf(textLower: string): KeywordAnalysis {
    var foundSanctions := FindKeywords(SanctionsKeywords, textLower);
    var foundCurrency := FindKeywords(CurrencyKeywords, textLower);
    var foundContract := FindKeywords(ContractKeywords, textLower);
    var foundRisks := FindKeywords(RiskKeywords, textLower);
    KeywordAnalysis(
      |foundContract| > 0, |foundSanctions| > 0, |foundCurrency| > 0, |foundRisks| > 0,
      foundSanctions, foundCurrency, foundContract, foundRisks)
  }

  /** The values the `recommendation` key can take. */
  datatype Recommendation = NeedsReview | Reject | NeedsAdditionalReview | MayConsider | AnalysisError {
    function Label(): string {
      match this
      case NeedsReview => "ТРЕБУЕТ_ПРОВЕРКИ"
      case Reject => "ОТКАЗАТЬ"
      case NeedsAdditionalReview => "ТРЕБУЕТ_ДОПОЛНИТЕЛЬНОЙ_ПРОВЕРКИ"
      case MayConsider => "МОЖНО_РАССМОТРЕТЬ"
      case AnalysisError => "ОШИБКА_АНАЛИЗА"
    }
  }

  /** The report dict; `reason` is absent (None) when no policy branch set it. */
  datatype Report = Report(
    contractFile: string,
    textLength: nat,
    extractionMethod: string,
    keywordAnalysis: KeywordAnalysis,
    llmAnalysis: Option<string>,
    recommendation: Recommendation,
    reason: Option<string>)

  const RejectReason := "Обнаружены упоминания санкций или товаров повышенного риска"
  const CurrencyReason := "Договор содержит валютные операции - требуется детальная проверка"
  const BasicReason := "Базовые проверки пройдены, но требуется экспертная оценка"
  const NoReportReason := "Не удалось создать отчет"

  /** The first-match decision policy of `generate_report`: the recommendation and the reason it sets. */
  function Decide(a: KeywordAnalysis): (d: (Recommendation, Option<string>))
    ensures d.0 == Reject <==> a.hasSanctionsMentions || a.hasRiskItems
    ensures d.0 == NeedsAdditionalReview <==> !a.hasSanctionsMentions && !a.hasRiskItems && a.isContract && a.hasCurrencyOperations
    ensures d.0 == MayConsider <==> !a.hasSanctionsMentions && !a.hasRiskItems && a.isContract && !a.hasCurrencyOperations
    ensures d.0 == NeedsReview <==> !a.hasSanctionsMentions && !a.hasRiskItems && !a.isContract
    ensures d.1.None? <==> d.0 == NeedsReview
  {
    if a.hasSanctionsMentions || a.hasRiskItems then (Reject, Some(RejectReason))
    else if a.isContract && a.hasCurrencyOperations then (NeedsAdditionalReview, Some(CurrencyReason))
    else if a.isContract then (MayConsider, Some(BasicReason))
    else (NeedsReview, None)
  }

  /** The dict `generate_report` builds; its provenance test looks for the letters "OCR" in the text. */
  function ReportDraft(contractPath: string, contractText: string, a: KeywordAnalysis, llm: Option<string>): Report {
    var d := Decide(a);
    Report(Basename(contractPath), |contractText|,
      if Contains(contractText, "OCR") then "OCR" else "Standard",
      a, llm, d.0, d.1)
  }

  /** `generate_report` as written: it builds the dict but has no `return`, so the call yields None. */
  function GenerateReport(contractPath: string, contractText: string, a: KeywordAnalysis, llm: Option<string>): (r: Option<Report>)
    ensures r.None?
  {
    var unused := ReportDraft(contractPath, contractText, a, llm);
    None
  }

  /** The minimal report `analyze_contract` substitutes when `generate_report` gave None. */
  function FallbackReport(contractPath: string, contractText: string, a: KeywordAnalysis, llm: Option<string>): Report {
    Report(Basename(contractPath), |contractText|,
      if Contains(contractText, "Страница") then "OCR" else "Стандартный",
      a, llm, AnalysisError, Some(NoReportReason))
  }

  /** The report `analyze_contract` ends with for a non-empty text. */
  function AnalyzedReport(contractPath: string, contractText: string, llm: Option<string>): (r: Report)
    ensures r.recommendation == AnalysisError && r.reason == Some(NoReportReason)
    ensures r.keywordAnalysis == AnalyzeWithKeywords(contractText)
    ensures r.textLength == |contractText|
    ensures r.extractionMethod == "OCR" <==> Contains(contractText, "Страница")
  {
    var a := AnalyzeWithKeywords(contractText);
    match GenerateReport(contractPath, contractText, a, llm)
    case None => FallbackReport(contractPath, contractText, a, llm)
    case Some(report) => report
  }

  /**
   * `analyze_contract` as written: extract, reject a falsy text with None, classify,
   * and fall back because `generate_report` returns nothing. The language-model
   * opinion is the opaque `llm` input; file writing and timestamps are left out.
   */
  method AnalyzeContract(contractPath: string, native: Option<string>, run: OcrRun, llm: Option<string>)
    returns (report: Option<Report>, preview: string)
    ensures report.None? <==> !Truthy(SmartText(native, run))
    ensures report.Some? ==> report == Some(AnalyzedReport(contractPath, SmartText(native, run).value, llm))
    ensures report.Some? ==> report.value.recommendation == AnalysisError
    ensures report.Some? ==> preview == Take(SmartText(native, run).value, 1000)
  {
    var contractText := SmartExtractText(native, run);
    if contractText.None? || contractText.value == "" {
      return None, "";
    }
    var text := contractText.value;
    preview := Take(text, 1000);
    var keywordAnalysis := AnalyzeWithKeywords(text);
    report := GenerateReport(contractPath, text, keywordAnalysis, llm);
    if report.None? {
      report := Some(FallbackReport(contractPath, text, keywordAnalysis, llm));
    }
  }

  /** The report `generate_report` evidently meant to return: the draft, with provenance read from the page marker. */
  function IntendedReport(contractPath: string, contractText: string, llm: Option<string>): (r: Report)
    ensures r.keywordAnalysis == AnalyzeWithKeywords(contractText)
    ensures (r.recommendation, r.reason) == Decide(r.keywordAnalysis)
    ensures r.extractionMethod == "OCR" <==> Contains(contractText, "Страница")
  {
    var draft := ReportDraft(contractPath, contractText, AnalyzeWithKeywords(contractText), llm);
    draft.(extractionMethod := if Contains(contractText, "Страница") then "OCR" else "Standard")
  }

  /** `analyze_contract` with `generate_report` returning its dict. */
  method AnalyzeContractIntended(contractPath: string, native: Option<string>, run: OcrRun, llm: Option<string>)
    returns (report: Option<Report>, preview: string)
    ensures report.None? <==> !Truthy(SmartText(native, run))
    ensures report.Some? ==> report == Some(IntendedReport(contractPath, SmartText(native, run).value, llm))
    ensures report.Some? ==> preview == Take(SmartText(native, run).value, 1000)
  {
    var contractText := SmartExtractText(native, run);
    if contractText.None? || contractText.value == "" {
      return None, "";
    }
    var text := contractText.value;
    preview := Take(text, 1000);
    report := Some(IntendedReport(contractPath, text, llm));
  }

  /**
   * Decision priority on the text itself: a sanctions or high-risk keyword rejects,
   * whatever the contract and currency keywords say; contract plus currency asks for
   * additional review; contract alone may proceed; otherwise the default stays.
   */
  lemma DecisionByKeywords(contractPath: string, contractText: string, llm: Option<string>)
    ensures var r := IntendedReport(contractPath, contractText, llm);
      && (r.recommendation == Reject <==> Mentions(contractText, SanctionsKeywords) || Mentions(contractText, RiskKeywords))
      && (r.recommendation == NeedsAdditionalReview <==>
            !Mentions(contractText, SanctionsKeywords) && !Mentions(contractText, RiskKeywords)
            && Mentions(contractText, ContractKeywords) && Mentions(contractText, CurrencyKeywords))
      && (r.recommendation == MayConsider <==>
            !Mentions(contractText, SanctionsKeywords) && !Mentions(contractText, RiskKeywords)
            && Mentions(contractText, ContractKeywords) && !Mentions(contractText, CurrencyKeywords))
      && (r.recommendation == NeedsReview <==>
            !Mentions(contractText, SanctionsKeywords) && !Mentions(contractText, RiskKeywords)
            && !Mentions(contractText, ContractKeywords))
      && (r.reason.None? <==> r.recommendation == NeedsReview)
  {
  }

  /** A text that names sanctions and a currency is rejected, never sent to additional review. */
  lemma SanctionsBeatCurrency(contractPath: string, contractText: string, llm: Option<string>)
    requires Contains(Lower(contractText), "санкци") && Contains(Lower(contractText), "доллар")
    ensures IntendedReport(contractPath, contractText, llm).recommendation == Reject
    ensures IntendedReport(contractPath, contractText, llm).keywordAnalysis.hasCurrencyOperations
  {
    assert "санкци" in SanctionsKeywords;
    assert "доллар" in CurrencyKeywords;
  }

  /** The missing `return`: a text with a sanctions keyword ends as ОШИБКА_АНАЛИЗА instead of ОТКАЗАТЬ. */
  lemma MissingReturnDiscardsDecision(contractPath: string, contractText: string, llm: Option<string>)
    requires Contains(Lower(contractText), "санкци")
    ensures AnalyzedReport(contractPath, contractText, llm).recommendation == AnalysisError
    ensures IntendedReport(contractPath, contractText, llm).recommendation == Reject
  {
    assert "санкци" in SanctionsKeywords;
  }

  /** OCR output never contains the letters "OCR" unless some page does: the draft's provenance test misses it. */
  lemma OcrProvenanceMissedByDraft(contractPath: string, a: KeywordAnalysis, llm: Option<string>)
    ensures var text := OcrText(OcrPages(["Договор"])).value;
      && ReportDraft(contractPath, text, a, llm).extractionMethod == "Standard"
      && IntendedReport(contractPath, text, llm).extractionMethod == "OCR"
  {
    SinglePageOcrText();
    MarkerTextProvenance();
  }

  /** The OCR text of a one-page run whose page reads "Договор". */
  lemma SinglePageOcrText()
    ensures OcrText(OcrPages(["Договор"])).value == "=== Страница 1 ===\nДоговор"
  {
    var pages := ["Договор"];
    assert pages[..0] == [];
    assert Strip("Договор") != "" by { assert !IsSpace("Договор"[0]); }
    assert OcrText(OcrPages(pages)).value == PageBlock(1, "Договор");
  }

  /** That text names the page but holds no "OCR". */
  lemma MarkerTextProvenance()
    ensures !Contains("=== Страница 1 ===\nДоговор", "OCR")
    ensures Contains("=== Страница 1 ===\nДоговор", "Страница")
  {
    var text := "=== Страница 1 ===\nДоговор";
    AbsentCharNotContained(text, "OCR", 0);
    StartsWithConcat("=== Страница", " 1 ===\nДоговор");
    assert text == "=== Страница" + " 1 ===\nДоговор";
    StartsWithContains(text, "=== Страница", 4, 8);
    assert "=== Страница"[4..12] == "Страница";
  }

  /** Text that opens with a page marker contains the word the intended provenance test looks for. */
  lemma MarkerNamesPage(text: string)
    requires StartsWith(text, PageMarkerPrefix)
    ensures Contains(text, "Страница")
  {
    StartsWithContains(text, PageMarkerPrefix, 4, 8);
    assert PageMarkerPrefix[4..12] == "Страница";
  }

  /** With the intended provenance test, OCR-derived text is always reported as OCR. */
  lemma OcrTextReportedAsOcr(contractPath: string, native: Option<string>, run: OcrRun, llm: Option<string>)
    requires !NativeAccepted(native) && Truthy(SmartText(native, run))
    ensures IntendedReport(contractPath, SmartText(native, run).value, llm).extractionMethod == "OCR"
    ensures AnalyzedReport(contractPath, SmartText(native, run).value, llm).extractionMethod == "OCR"
  {
    SmartTextOutcomes(native, run);
    MarkerNamesPage(SmartText(native, run).value);
  }

  const ScanSanctionsKeywords: seq<string> := ["санкци", "запрет", "ограничен", "блокир"]
  const ScanCurrencyKeywords: seq<string> := ["валют", "доллар", "евро", "рубл", "курс"]
  const ScanContractKeywords: seq<string> := ["договор", "контракт", "соглашен", "сторон"]

  /** The quick keyword scan `analyze_contract_with_ocr` prints. */
  datatype QuickScan = QuickScan(foundSanctions: seq<string>, foundCurrency: seq<string>, foundContract: seq<string>, looksLikeContract: bool)

  function QuickScanOf(contractText: string): (q: QuickScan)
    ensures forall k :: k in q.foundSanctions <==> k in ScanSanctionsKeywords && Contains(Lower(contractText), k)
    ensures forall k :: k in q.foundCurrency <==> k in ScanCurrencyKeywords && Contains(Lower(contractText), k)
    ensures forall k :: k in q.foundContract <==> k in ScanContractKeywords && Contains(Lower(contractText), k)
    ensures q.looksLikeContract <==> Mentions(contractText, ScanContractKeywords)
  {
    var textLower := Lower(contractText);
    var foundContract := FindKeywords(ScanContractKeywords, textLower);
    assert foundContract != [] ==> foundContract[0] in foundContract;
    QuickScan(FindKeywords(ScanSanctionsKeywords, textLower), FindKeywords(ScanCurrencyKeywords, textLower),
      foundContract, foundContract != [])
  }

  /** `analyze_contract_with_ocr`: None for a falsy text, otherwise the text it returns with the scan it printed. */
  method AnalyzeContractWithOcr(native: Option<string>, run: OcrRun) returns (r: Option<(string, QuickScan)>)
    ensures r.None? <==> !Truthy(SmartText(native, run))
    ensures r.Some? ==> r.value.0 == SmartText(native, run).value && r.value.1 == QuickScanOf(r.value.0)
  {
    var contractText := SmartExtractText(native, run);
    if contractText.None? || contractText.value == "" {
      return None;
    }
    r := Some((contractText.value, QuickScanOf(contractText.value)));
  }
}
