/**
 * The regulation knowledge compactor of the enhanced analyzer: every
 * regulation document is cut into lines, each long-enough line is filed
 * into at most one category by first keyword match, each document keeps
 * at most five lines per category, and the merged categories are rendered
 * into one summary with fixed section headers and a list of sources.
 */
module Compactor {

  import opened Wrappers
  import opened Strings
  import opened Banner

  datatype Category = Sanctions | CurrencyRules | ProhibitedItems | Procedures | KeyPoints

  const SanctionsWords: seq<string> := ["санкци", "запрет", "ограничен", "блокир", "заморож"]
  const CurrencyWords: seq<string> := ["валют", "курс", "экспорт", "импорт", "девиз"]
  const ProhibitedWords: seq<string> := ["двойного назначения", "оружи", "военн", "технологи"]
  const ProcedureWords: seq<string> := ["требуется", "необходимо", "обязан", "должен"]
  const KeyPointWords: seq<string> := ["статья", "пункт", "часть", "подпункт"]

  /** Lines whose stripped form is shorter than this are skipped. */
  const MinLineLength: nat := 10
  /** How many lines one document keeps per category. */
  const PerDocumentCap: nat := 5

  /** `any(word in line_lower for word in words)`, one word after the other. */
  predicate MentionsAny(lineLower: string, words: seq<string>) {
    words != [] && (Contains(lineLower, words[0]) || MentionsAny(lineLower, words[1..]))
  }

  /** The word-by-word scan finds exactly the words the line contains. */
  lemma {:induction false} MentionsAnyExists(lineLower: string, words: seq<string>)
    ensures MentionsAny(lineLower, words) <==> exists w :: w in words && Contains(lineLower, w)
  {
    if words != [] {
      MentionsAnyExists(lineLower, words[1..]);
      assert forall w :: w in words <==> w == words[0] || w in words[1..];
    }
  }

  /** The `if`/`elif` chain on a lowered line: the first word list it mentions decides. */
  function FileLowered(lineLower: string): Option<Category> {
    if MentionsAny(lineLower, SanctionsWords) then Some(Sanctions)
    else if MentionsAny(lineLower, CurrencyWords) then Some(CurrencyRules)
    else if MentionsAny(lineLower, ProhibitedWords) then Some(ProhibitedItems)
    else if MentionsAny(lineLower, ProcedureWords) then Some(Procedures)
    else if MentionsAny(lineLower, KeyPointWords) then Some(KeyPoints)
    else None
  }

  /** The category a line is filed in, by the first matching word list; None for a short or unmatched line. */
  function Classify(line: string): Option<Category> {
    var lineClean := Strip(line);
    if |lineClean| < MinLineLength then None else FileLowered(Lower(lineClean))
  }

  /** The word lists of the categories before `c` in the first-match order. */
  function Earlier(c: Category): seq<seq<string>> {
    match c
    case Sanctions => []
    case CurrencyRules => [SanctionsWords]
    case ProhibitedItems => [SanctionsWords, CurrencyWords]
    case Procedures => [SanctionsWords, CurrencyWords, ProhibitedWords]
    case KeyPoints => [SanctionsWords, CurrencyWords, ProhibitedWords, ProcedureWords]
  }

  function Words(c: Category): seq<string> {
    match c
    case Sanctions => SanctionsWords
    case CurrencyRules => CurrencyWords
    case ProhibitedItems => ProhibitedWords
    case Procedures => ProcedureWords
    case KeyPoints => KeyPointWords
  }

  /**
   * First-match filing: a line lands in `c` iff it is long enough, its lowered
   * stripped form mentions a word of `c`, and no word of an earlier category.
   */
  lemma ClassifyFirstMatch(line: string, c: Category)
    ensures Classify(line) == Some(c) <==>
      && |Strip(line)| >= MinLineLength
      && MentionsAny(Lower(Strip(line)), Words(c))
      && forall ws :: ws in Earlier(c) ==> !MentionsAny(Lower(Strip(line)), ws)
  {
    FileLoweredFirstMatch(Lower(Strip(line)), c);
  }

  /** The chain picks `c` iff the line mentions a word of `c` and none of an earlier list. */
  lemma FileLoweredFirstMatch(lower: string, c: Category)
    ensures FileLowered(lower) == Some(c) <==>
      MentionsAny(lower, Words(c)) && forall ws :: ws in Earlier(c) ==> !MentionsAny(lower, ws)
  {
    var earlier := Earlier(c);
    if forall ws :: ws in earlier ==> !MentionsAny(lower, ws) {
      assert forall i :: 0 <= i < |earlier| ==> !MentionsAny(lower, earlier[i]);
    }
    match c
    case Sanctions =>
    case CurrencyRules =>
      assert earlier[0] == SanctionsWords;
    case ProhibitedItems =>
      assert earlier[0] == SanctionsWords && earlier[1] == CurrencyWords;
    case Procedures =>
      assert earlier[0] == SanctionsWords && earlier[1] == CurrencyWords && earlier[2] == ProhibitedWords;
    case KeyPoints =>
      assert earlier[0] == SanctionsWords && earlier[1] == CurrencyWords;
      assert earlier[2] == ProhibitedWords && earlier[3] == ProcedureWords;
  }

  /** A short line is filed nowhere. */
  lemma ShortLineDropped(line: string)
    requires |Strip(line)| < MinLineLength
    ensures Classify(line).None?
  {
  }

  /** The category each line is filed in, line by line. */
  function Filing(lines: seq<string>): (r: seq<Option<Category>>)
    ensures |r| == |lines|
  {
    seq(|lines|, i requires 0 <= i < |lines| => Classify(lines[i]))
  }

  /** The stripped lines whose tag is `c`, in line order. */
  function Picked(lines: seq<string>, tags: seq<Option<Category>>, c: Category): (r: seq<string>)
    requires |tags| == |lines|
    ensures |r| <= |lines|
  {
    if lines == [] then []
    else
      var n := |lines| - 1;
      Picked(lines[..n], tags[..n], c) + (if tags[n] == Some(c) then [Strip(lines[n])] else [])
  }

  /** The stripped lines filed in category `c`, in line order, before any cap. */
  function Matches(lines: seq<string>, c: Category): (r: seq<string>)
    ensures |r| <= |lines|
  {
    Picked(lines, Filing(lines), c)
  }

  /** Picking over one more line appends that line when its tag is `c`. */
  lemma PickedStep(lines: seq<string>, tags: seq<Option<Category>>, c: Category, i: nat)
    requires |tags| == |lines| && i < |lines|
    ensures Picked(lines[..i + 1], tags[..i + 1], c)
      == Picked(lines[..i], tags[..i], c) + (if tags[i] == Some(c) then [Strip(lines[i])] else [])
  {
    assert lines[..i + 1][..i] == lines[..i];
    assert tags[..i + 1][..i] == tags[..i];
  }

  lemma {:induction false} PickedComplete(lines: seq<string>, tags: seq<Option<Category>>, c: Category, i: nat)
    requires |tags| == |lines| && i < |lines| && tags[i] == Some(c)
    ensures Strip(lines[i]) in Picked(lines, tags, c)
  {
    var n := |lines| - 1;
    if i < n {
      assert lines[..n][i] == lines[i] && tags[..n][i] == tags[i];
      PickedComplete(lines[..n], tags[..n], c, i);
    }
  }

  lemma {:induction false} PickedSource(lines: seq<string>, tags: seq<Option<Category>>, c: Category, x: string)
    returns (i: nat)
    requires |tags| == |lines| && x in Picked(lines, tags, c)
    ensures i < |lines| && tags[i] == Some(c) && x == Strip(lines[i])
  {
    var n := |lines| - 1;
    if x in Picked(lines[..n], tags[..n], c) {
      i := PickedSource(lines[..n], tags[..n], c, x);
      assert lines[..n][i] == lines[i] && tags[..n][i] == tags[i];
    } else {
      i := n;
    }
  }

  lemma {:induction false} PickedNone(lines: seq<string>, tags: seq<Option<Category>>, c: Category)
    requires |tags| == |lines| && forall i :: 0 <= i < |tags| ==> tags[i] != Some(c)
    ensures Picked(lines, tags, c) == []
  {
    if lines != [] {
      var n := |lines| - 1;
      assert forall i :: 0 <= i < n ==> tags[..n][i] == tags[i];
      PickedNone(lines[..n], tags[..n], c);
    }
  }

  /** The `key_info` dict of one document. */
  datatype KeyInfo = KeyInfo(
    filename: string,
    keyPoints: seq<string>,
    sanctions: seq<string>,
    currencyRules: seq<string>,
    prohibitedItems: seq<string>,
    procedures: seq<string>)

  function Field(k: KeyInfo, c: Category): seq<string> {
    match c
    case Sanctions => k.sanctions
    case CurrencyRules => k.currencyRules
    case ProhibitedItems => k.prohibitedItems
    case Procedures => k.procedures
    case KeyPoints => k.keyPoints
  }

  /** The lines of a document, as `content.split('\n')` cuts them. */
  function Lines(content: string): seq<string> {
    Split(content, '\n')
  }

  /** What `extract_key_info` returns: each category is the first five of its matches. */
  function KeyInfoOf(content: string, filename: string): KeyInfo {
    var lines := Lines(content);
    KeyInfo(SourceName(filename),
      Take(Matches(lines, KeyPoints), PerDocumentCap),
      Take(Matches(lines, Sanctions), PerDocumentCap),
      Take(Matches(lines, CurrencyRules), PerDocumentCap),
      Take(Matches(lines, ProhibitedItems), PerDocumentCap),
      Take(Matches(lines, Procedures), PerDocumentCap))
  }

  /** Each category of a document keeps at most five lines: the first ones of its matches, in line order. */
  lemma KeyInfoCaps(content: string, filename: string, c: Category)
    ensures var f := Field(KeyInfoOf(content, filename), c); var m := Matches(Lines(content), c);
      && |f| <= PerDocumentCap
      && f == m[..|f|]
      && (|f| == PerDocumentCap || f == m)
    ensures KeyInfoOf(content, filename).filename == SourceName(filename)
  {
  }

  /** The category lists built so far, as the loop of `extract_key_info` holds them before the cut. */
  function Collected(lines: seq<string>): KeyInfo {
    KeyInfo("", Matches(lines, KeyPoints), Matches(lines, Sanctions), Matches(lines, CurrencyRules),
      Matches(lines, ProhibitedItems), Matches(lines, Procedures))
  }

  /** Filing one more line appends its stripped form to the one category it belongs to. */
  function FileLine(acc: KeyInfo, line: string): KeyInfo {
    match Classify(line)
    case None => acc
    case Some(Sanctions) => acc.(sanctions := acc.sanctions + [Strip(line)])
    case Some(CurrencyRules) => acc.(currencyRules := acc.currencyRules + [Strip(line)])
    case Some(ProhibitedItems) => acc.(prohibitedItems := acc.prohibitedItems + [Strip(line)])
    case Some(Procedures) => acc.(procedures := acc.procedures + [Strip(line)])
    case Some(KeyPoints) => acc.(keyPoints := acc.keyPoints + [Strip(line)])
  }

  lemma CollectedStep(lines: seq<string>, i: nat)
    requires i < |lines|
    ensures Collected(lines[..i + 1]) == FileLine(Collected(lines[..i]), lines[i])
  {
    var tags := Filing(lines[..i + 1]);
    assert lines[..i + 1][..i] == lines[..i];
    assert tags[..i] == Filing(lines[..i]);
    assert tags[i] == Classify(lines[i]);
    forall c ensures Matches(lines[..i + 1], c)
      == Matches(lines[..i], c) + (if Classify(lines[i]) == Some(c) then [Strip(lines[i])] else [])
    {
      PickedStep(lines[..i + 1], tags, c, i);
    }
  }

  /** The body of the line loop: the `if`/`elif` chain on the stripped, lowered line. */
  method FileOneLine(acc: KeyInfo, line: string) returns (r: KeyInfo)
    ensures r == FileLine(acc, line)
  {
    r := acc;
    var lineClean := Strip(line);
    if |lineClean| >= MinLineLength {
      var lineLower := Lower(lineClean);
      if MentionsAny(lineLower, SanctionsWords) {
        r := r.(sanctions := r.sanctions + [lineClean]);
      } else if MentionsAny(lineLower, CurrencyWords) {
        r := r.(currencyRules := r.currencyRules + [lineClean]);
      } else if MentionsAny(lineLower, ProhibitedWords) {
        r := r.(prohibitedItems := r.prohibitedItems + [lineClean]);
      } else if MentionsAny(lineLower, ProcedureWords) {
        r := r.(procedures := r.procedures + [lineClean]);
      } else if MentionsAny(lineLower, KeyPointWords) {
        r := r.(keyPoints := r.keyPoints + [lineClean]);
      }
    }
  }

  /** `extract_key_info`: one pass over the lines appending to the category lists, then each list cut to five. */
  method ExtractKeyInfo(content: string, filename: string) returns (info: KeyInfo)
    ensures info == KeyInfoOf(content, filename)
  {
    var lines := Split(content, '\n');
    var acc := KeyInfo("", [], [], [], [], []);
    var i := 0;
    while i < |lines|
      invariant 0 <= i <= |lines|
      invariant acc == Collected(lines[..i])
    {
      CollectedStep(lines, i);
      acc := FileOneLine(acc, lines[i]);
      i := i + 1;
    }
    assert lines[..i] == lines;
    info := KeyInfo(SourceName(filename),
      Take(acc.keyPoints, PerDocumentCap), Take(acc.sanctions, PerDocumentCap),
      Take(acc.currencyRules, PerDocumentCap), Take(acc.prohibitedItems, PerDocumentCap),
      Take(acc.procedures, PerDocumentCap));
  }

  /** Every line filed in `c` has its stripped original among the entries. */
  lemma MatchesComplete(lines: seq<string>, c: Category, i: nat)
    requires i < |lines| && Classify(lines[i]) == Some(c)
    ensures Strip(lines[i]) in Matches(lines, c)
  {
    PickedComplete(lines, Filing(lines), c, i);
  }

  /** Every entry is the stripped original of a line filed in `c`, case kept. */
  lemma MatchesSound(lines: seq<string>, c: Category, x: string)
    requires x in Matches(lines, c)
    ensures exists i :: 0 <= i < |lines| && Classify(lines[i]) == Some(c) && x == Strip(lines[i])
  {
    var i := PickedSource(lines, Filing(lines), c, x);
    assert Filing(lines)[i] == Classify(lines[i]);
  }

  /** Every stored entry is at least ten characters long, and a short line is stored nowhere. */
  lemma EntriesAreLong(content: string, filename: string, c: Category, x: string)
    requires x in Field(KeyInfoOf(content, filename), c)
    ensures |x| >= MinLineLength
    ensures exists i :: 0 <= i < |Lines(content)| && x == Strip(Lines(content)[i]) && Classify(Lines(content)[i]) == Some(c)
  {
    KeyInfoCaps(content, filename, c);
    assert x in Matches(Lines(content), c);
    MatchesSound(Lines(content), c, x);
  }

  /** Lines none of which is filed in `c` contribute nothing to it. */
  lemma NoMatchesWithoutClass(lines: seq<string>, c: Category)
    requires forall l :: l in lines ==> Classify(l) != Some(c)
    ensures Matches(lines, c) == []
  {
    var tags := Filing(lines);
    forall i | 0 <= i < |tags| ensures tags[i] != Some(c) {
      assert lines[i] in lines;
    }
    PickedNone(lines, tags, c);
  }

  /** A sanctions word wins over a currency word on the same line: it is filed as sanctions only. */
  lemma SanctionsWinTieBreak(line: string, lines: seq<string>)
    requires |Strip(line)| >= MinLineLength
    requires Contains(Lower(Strip(line)), "санкци") && Contains(Lower(Strip(line)), "валют")
    requires line in lines
    ensures Classify(line) == Some(Sanctions)
    ensures Strip(line) in Matches(lines, Sanctions)
    ensures (forall l :: l in lines ==> l == line) ==> Matches(lines, CurrencyRules) == []
  {
    assert "санкци" in SanctionsWords;
    MentionsAnyExists(Lower(Strip(line)), SanctionsWords);
    var i :| 0 <= i < |lines| && lines[i] == line;
    MatchesComplete(lines, Sanctions, i);
    if forall l :: l in lines ==> l == line {
      NoMatchesWithoutClass(lines, CurrencyRules);
    }
  }

  /** The lines of a category over all documents, document then line order (`extend` in a loop). */
  function Merged(data: seq<KeyInfo>, c: Category): seq<string> {
    if data == [] then [] else Merged(data[..|data| - 1], c) + Field(data[|data| - 1], c)
  }

  /** Merging two batches of documents concatenates their merged lines. */
  lemma {:induction false} MergedAppend(a: seq<KeyInfo>, b: seq<KeyInfo>, c: Category)
    ensures Merged(a + b, c) == Merged(a, c) + Merged(b, c)
  {
    if b != [] {
      assert (a + b)[..|a + b| - 1] == a + b[..|b| - 1];
      MergedAppend(a, b[..|b| - 1], c);
    } else {
      assert a + b == a;
    }
  }

  /** A merged line comes from some document's category list, and every such line is merged. */
  lemma {:induction false} MergedMembership(data: seq<KeyInfo>, c: Category, x: string)
    ensures x in Merged(data, c) <==> exists j :: 0 <= j < |data| && x in Field(data[j], c)
  {
    if data != [] {
      var init := data[..|data| - 1];
      MergedMembership(init, c, x);
      if exists j :: 0 <= j < |data| && x in Field(data[j], c) {
        var j :| 0 <= j < |data| && x in Field(data[j], c);
        if j < |init| {
          assert init[j] == data[j];
        }
      }
      if x in Merged(init, c) {
        var j :| 0 <= j < |init| && x in Field(init[j], c);
        assert data[j] == init[j];
      }
    }
  }

  const Title := "=== НОРМАТИВНАЯ БАЗА ==="
  const SanctionsHeader := "\n\U{1F6A8} САНКЦИОННЫЕ ОГРАНИЧЕНИЯ:"
  const CurrencyHeader := "\n\U{1F4B0} ВАЛЮТНОЕ РЕГУЛИРОВАНИЕ:"
  const ProhibitedHeader := "\n\U{2697}\U{FE0F} ТОВАРЫ ДВОЙНОГО НАЗНАЧЕНИЯ:"
  const ProceduresHeader := "\n\U{1F4CB} ОБЯЗАТЕЛЬНЫЕ ПРОЦЕДУРЫ:"
  const SourcesHeader := "\n\U{1F4DA} ИСТОЧНИКИ:"

  /** The four categories the summary renders; key points are not among them. */
  predicate Rendered(c: Category) {
    c != KeyPoints
  }

  function Header(c: Category): string
    requires Rendered(c)
  {
    match c
    case Sanctions => SanctionsHeader
    case CurrencyRules => CurrencyHeader
    case ProhibitedItems => ProhibitedHeader
    case Procedures => ProceduresHeader
  }

  /** How many merged lines of a category the summary shows. */
  function Cap(c: Category): nat
    requires Rendered(c)
  {
    match c
    case Sanctions => 10
    case CurrencyRules => 10
    case ProhibitedItems => 8
    case Procedures => 8
  }

  function Bullet(item: string): (b: string)
    ensures |b| > 0 && b[0] == '\U{2022}'
  {
    "\U{2022} " + item
  }

  /** One bullet per item, in order. */
  function Bullets(items: seq<string>): (r: seq<string>)
    ensures |r| == |items|
    ensures forall i :: 0 <= i < |items| ==> r[i] == Bullet(items[i])
  {
    if items == [] then [] else Bullets(items[..|items| - 1]) + [Bullet(items[|items| - 1])]
  }

  /** A category header with the first capped merged lines, or nothing when the category is empty. */
  function Section(data: seq<KeyInfo>, c: Category): seq<string>
    requires Rendered(c)
  {
    var info := Merged(data, c);
    if info == [] then [] else [Header(c)] + Bullets(Take(info, Cap(c)))
  }

  function Filenames(data: seq<KeyInfo>): (r: seq<string>)
    ensures |r| == |data| && forall i :: 0 <= i < |data| ==> r[i] == data[i].filename
  {
    seq(|data|, i requires 0 <= i < |data| => data[i].filename)
  }

  /** The `summary_parts` list. */
  function SummaryParts(data: seq<KeyInfo>): seq<string> {
    [Title] + Section(data, Sanctions) + Section(data, CurrencyRules) + Section(data, ProhibitedItems)
      + Section(data, Procedures) + [SourcesHeader] + Bullets(Filenames(data))
  }

  /** `create_regulations_summary`'s result. */
  function Summary(data: seq<KeyInfo>): string {
    Join("\n", SummaryParts(data))
  }

  /** The merge loop of one category: `extend` with every document's list, in document order. */
  method CollectCategory(data: seq<KeyInfo>, c: Category) returns (info: seq<string>)
    ensures info == Merged(data, c)
  {
    info := [];
    for k := 0 to |data|
      invariant info == Merged(data[..k], c)
    {
      assert data[..k + 1][..k] == data[..k];
      if Field(data[k], c) != [] {
        info := info + Field(data[k], c);
      }
    }
    assert data[..|data|] == data;
  }

  /** The bullet loop: one `• item` line appended per item. */
  method AppendBullets(parts: seq<string>, items: seq<string>) returns (r: seq<string>)
    ensures r == parts + Bullets(items)
  {
    r := parts;
    for k := 0 to |items|
      invariant r == parts + Bullets(items[..k])
    {
      assert items[..k + 1][..k] == items[..k];
      r := r + [Bullet(items[k])];
    }
    assert items[..|items|] == items;
  }

  /** One category section of `create_regulations_summary`: merge, then the header and the capped bullets. */
  method AppendSection(parts: seq<string>, data: seq<KeyInfo>, c: Category) returns (r: seq<string>)
    requires Rendered(c)
    ensures r == parts + Section(data, c)
  {
    var info := CollectCategory(data, c);
    r := parts;
    if info != [] {
      r := AppendBullets(r + [Header(c)], Take(info, Cap(c)));
    }
  }

  /** `create_regulations_summary`. */
  method CreateRegulationsSummary(data: seq<KeyInfo>) returns (summary: string)
    ensures summary == Summary(data)
  {
    var parts := [Title];
    parts := AppendSection(parts, data, Sanctions);
    parts := AppendSection(parts, data, CurrencyRules);
    parts := AppendSection(parts, data, ProhibitedItems);
    parts := AppendSection(parts, data, Procedures);
    parts := AppendBullets(parts + [SourcesHeader], Filenames(data));
    summary := Join("\n", parts);
  }

  /** The summary always opens with the title line. */
  lemma SummaryStartsWithTitle(data: seq<KeyInfo>)
    ensures StartsWith(Summary(data), Title)
  {
    JoinStartsWithFirst("\n", SummaryParts(data));
  }

  /** Bullet lines never equal a header line. */
  lemma BulletsNoHeader(items: seq<string>, h: string)
    requires h != [] && h[0] != '\U{2022}'
    ensures h !in Bullets(items)
  {
    var b := Bullets(items);
    forall x | x in b ensures x != h {
      var i :| 0 <= i < |b| && b[i] == x;
      assert x[0] == '\U{2022}';
    }
  }

  /** A section holds its header exactly when the category is non-empty, and no other header. */
  lemma SectionHeaders(data: seq<KeyInfo>, c: Category, d: Category)
    requires Rendered(c) && Rendered(d)
    ensures Header(d) in Section(data, c) <==> c == d && Merged(data, c) != []
  {
    if Merged(data, c) != [] {
      BulletsNoHeader(Take(Merged(data, c), Cap(c)), Header(d));
    }
  }

  /** A category header appears in the summary iff the merged category is non-empty. */
  lemma HeaderIffNonEmpty(data: seq<KeyInfo>, c: Category)
    requires Rendered(c)
    ensures Header(c) in SummaryParts(data) <==> Merged(data, c) != []
  {
    SectionHeaders(data, Sanctions, c);
    SectionHeaders(data, CurrencyRules, c);
    SectionHeaders(data, ProhibitedItems, c);
    SectionHeaders(data, Procedures, c);
    BulletsNoHeader(Filenames(data), Header(c));
  }

  /** A non-empty section shows exactly min(cap, n) bullets: the first merged lines, in order. */
  lemma SectionItems(data: seq<KeyInfo>, c: Category)
    requires Rendered(c) && Merged(data, c) != []
    ensures var s := Section(data, c); var n := |Merged(data, c)|;
      && s[0] == Header(c)
      && |s| == 1 + (if n < Cap(c) then n else Cap(c))
      && forall k :: 0 <= k < |s| - 1 ==> s[k + 1] == Bullet(Merged(data, c)[k])
  {
  }

  /** The summary ends with the sources header and one bullet per document, in document order. */
  lemma SourcesLast(data: seq<KeyInfo>)
    ensures var p := SummaryParts(data);
      && |p| >= |data| + 1
      && p[|p| - |data| - 1] == SourcesHeader
      && forall i :: 0 <= i < |data| ==> p[|p| - |data| + i] == Bullet(data[i].filename)
  {
    var p := SummaryParts(data);
    var head := [Title] + Section(data, Sanctions) + Section(data, CurrencyRules) + Section(data, ProhibitedItems)
      + Section(data, Procedures);
    assert p == head + [SourcesHeader] + Bullets(Filenames(data));
  }

  /** The summary has at most 1 + 11 + 11 + 9 + 9 + 1 lines besides the sources. */
  lemma SummarySize(data: seq<KeyInfo>)
    ensures |SummaryParts(data)| <= 42 + |data|
  {
  }

  /** Two documents that differ only in their key points. */
  predicate SameButKeyPoints(a: KeyInfo, b: KeyInfo) {
    a.(keyPoints := []) == b.(keyPoints := [])
  }

  lemma {:induction false} MergedIgnoresKeyPoints(a: seq<KeyInfo>, b: seq<KeyInfo>, c: Category)
    requires Rendered(c)
    requires |a| == |b| && forall i :: 0 <= i < |a| ==> SameButKeyPoints(a[i], b[i])
    ensures Merged(a, c) == Merged(b, c)
  {
    if a != [] {
      var n := |a| - 1;
      MergedIgnoresKeyPoints(a[..n], b[..n], c);
      assert SameButKeyPoints(a[n], b[n]);
      assert Field(a[n], c) == Field(a[n].(keyPoints := []), c);
      assert Field(b[n], c) == Field(b[n].(keyPoints := []), c);
    }
  }

  /** Key points are collected but never rendered: changing them leaves the summary unchanged. */
  lemma SummaryIgnoresKeyPoints(a: seq<KeyInfo>, b: seq<KeyInfo>)
    requires |a| == |b| && forall i :: 0 <= i < |a| ==> SameButKeyPoints(a[i], b[i])
    ensures Summary(a) == Summary(b)
  {
    MergedIgnoresKeyPoints(a, b, Sanctions);
    MergedIgnoresKeyPoints(a, b, CurrencyRules);
    MergedIgnoresKeyPoints(a, b, ProhibitedItems);
    MergedIgnoresKeyPoints(a, b, Procedures);
    assert forall i :: 0 <= i < |a| ==> a[i].filename == a[i].(keyPoints := []).filename;
    assert Filenames(a) == Filenames(b);
  }

  /** The documents `prepare_regulations_summary` keeps, in listing order. */
  function RegulationsData(processedExists: bool, listing: seq<ProcessedFile>): seq<KeyInfo> {
    if processedExists then DocumentsData(TxtFiles(listing)) else []
  }

  /** One key-info record per readable file whose banner-stripped content is substantial. */
  function DocumentsData(files: seq<ProcessedFile>): (r: seq<KeyInfo>)
    ensures |r| <= |files|
  {
    if files == [] then []
    else
      var f := files[|files| - 1];
      DocumentsData(files[..|files| - 1])
        + (if f.content.Some? && Substantial(StripBanner(f.content.value))
           then [KeyInfoOf(StripBanner(f.content.value), f.name)] else [])
  }

  /** A kept document stems from a readable `.txt` file with substantial content, and is named without `.txt`. */
  lemma {:induction false} DocumentsDataSources(files: seq<ProcessedFile>, k: KeyInfo)
    requires k in DocumentsData(files)
    ensures exists f :: f in files && f.content.Some? && Substantial(StripBanner(f.content.value))
                 && k == KeyInfoOf(StripBanner(f.content.value), f.name) && k.filename == SourceName(f.name)
  {
    var init := files[..|files| - 1];
    if k in DocumentsData(init) {
      DocumentsDataSources(init, k);
      var f :| f in init && f.content.Some? && Substantial(StripBanner(f.content.value))
        && k == KeyInfoOf(StripBanner(f.content.value), f.name) && k.filename == SourceName(f.name);
      assert f in files;
    } else {
      assert files[|files| - 1] in files;
    }
  }

  /** The enhanced analyzer's state relevant here: the summary placed in its system prompt. */
  class EnhancedContractAnalyzer {
    var regulationsSummary: string

    /** `__init__` prepares the summary once; embeddings and the language model are left out. */
    constructor(processedExists: bool, listing: seq<ProcessedFile>)
      ensures regulationsSummary == Summary(RegulationsData(processedExists, listing))
    {
      regulationsSummary := "";
      new;
      PrepareRegulationsSummary(processedExists, listing);
    }

    /** `prepare_regulations_summary`: filter the processed files and summarise the kept ones. */
    method PrepareRegulationsSummary(processedExists: bool, listing: seq<ProcessedFile>)
      modifies this
      ensures regulationsSummary == Summary(RegulationsData(processedExists, listing))
    {
      var regulationsData: seq<KeyInfo> := [];
      if processedExists {
        var txtFiles := TxtFiles(listing);
        for i := 0 to |txtFiles|
          invariant regulationsData == DocumentsData(txtFiles[..i])
        {
          assert txtFiles[..i + 1][..i] == txtFiles[..i];
          var file := txtFiles[i];
          if file.content.Some? {
            var content := StripBanner(file.content.value);
            if |Strip(content)| > 100 {
              var keyInfo := ExtractKeyInfo(content, file.name);
              regulationsData := regulationsData + [keyInfo];
            }
          }
        }
        assert txtFiles[..|txtFiles|] == txtFiles;
      }
      regulationsSummary := CreateRegulationsSummary(regulationsData);
    }
  }
}
