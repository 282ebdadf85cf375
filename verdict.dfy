/**
 * The simple analyzer's two deterministic pieces: the rejection of
 * whitespace-only PDF text and the parser of the model's verdict lines.
 */
module Verdict {

  import opened Wrappers
  import opened Strings

  /**
   * `extract_text_from_pdf`: a missing file, a failing extractor (`None`) and
   * a whitespace-only text all give None; otherwise the text, unstripped.
   */
  function PdfText(fileExists: bool, extracted: Option<string>): (r: Option<string>)
    ensures r.Some? <==> fileExists && extracted.Some? && !IsBlank(extracted.value)
    ensures r.Some? ==> r.value == extracted.value
  {
    if !fileExists then None
    else if extracted.None? then None
    else if Strip(extracted.value) == [] then None
    else extracted
  }

  /** The three fields `parse_analysis_result` returns. */
  datatype Verdict = Verdict(decision: string, reason: string, recommendations: string)

  const DefaultDecision := "НЕ ОПРЕДЕЛЕНО"
  const DefaultReason := "Не удалось определить причину"

  function Defaults(): Verdict {
    Verdict(DefaultDecision, DefaultReason, "")
  }

  const DecisionKey := "РЕШЕНИЕ:"
  const ReasonKey := "ПРИЧИНА:"
  const RecommendationsKey := "РЕКОМЕНДАЦИИ:"

  /** The stripped line, upper-cased, starts with `key`. */
  predicate HasKey(line: string, key: string) {
    StartsWith(Upper(Strip(line)), key)
  }

  /** `line.split(':', 1)[1].strip()`: what follows the first colon, stripped. */
  function AfterColon(line: string): string {
    match FindFirst(line, ":")
    case None => ""
    case Some(i) => Strip(line[i + 1..])
  }

  /** The three keyed fields. */
  datatype Field = DecisionField | ReasonField | RecommendationsField

  /** The key a line carries, the keys tried in order on the stripped, upper-cased line. */
  function KeyOf(rawLine: string): Option<Field> {
    var upper := Upper(Strip(rawLine));
    if StartsWith(upper, DecisionKey) then Some(DecisionField)
    else if StartsWith(upper, ReasonKey) then Some(ReasonField)
    else if StartsWith(upper, RecommendationsKey) then Some(RecommendationsField)
    else None
  }

  function Get(v: Verdict, f: Field): string {
    match f
    case DecisionField => v.decision
    case ReasonField => v.reason
    case RecommendationsField => v.recommendations
  }

  /** `v` with field `f` set to `value`. */
  function Set(v: Verdict, f: Field, value: string): (r: Verdict)
    ensures Get(r, f) == value && forall g :: g != f ==> Get(r, g) == Get(v, g)
  {
    match f
    case DecisionField => v.(decision := value)
    case ReasonField => v.(reason := value)
    case RecommendationsField => v.(recommendations := value)
  }

  /** The field a line sets, if any, to what follows its first colon. */
  function ParseLine(v: Verdict, rawLine: string): Verdict {
    match KeyOf(rawLine)
    case None => v
    case Some(f) => Set(v, f, AfterColon(Strip(rawLine)))
  }

  /** A line sets only the field of the first key it carries, and nothing when it carries none. */
  lemma ParseLineFields(v: Verdict, rawLine: string)
    ensures HasKey(rawLine, DecisionKey) ==> ParseLine(v, rawLine) == v.(decision := AfterColon(Strip(rawLine)))
    ensures !HasKey(rawLine, DecisionKey) && HasKey(rawLine, ReasonKey)
      ==> ParseLine(v, rawLine) == v.(reason := AfterColon(Strip(rawLine)))
    ensures !HasKey(rawLine, DecisionKey) && !HasKey(rawLine, ReasonKey) && HasKey(rawLine, RecommendationsKey)
      ==> ParseLine(v, rawLine) == v.(recommendations := AfterColon(Strip(rawLine)))
    ensures !AnyKey(rawLine) ==> ParseLine(v, rawLine) == v
  {
  }

  /** The key of each line. */
  function Keys(lines: seq<string>): (r: seq<Option<Field>>)
    ensures |r| == |lines|
  {
    seq(|lines|, i requires 0 <= i < |lines| => KeyOf(lines[i]))
  }

  /** What follows the first colon of each stripped line. */
  function Values(lines: seq<string>): (r: seq<string>)
    ensures |r| == |lines|
  {
    seq(|lines|, i requires 0 <= i < |lines| => AfterColon(Strip(lines[i])))
  }

  /** The fields after reading the lines in order, line `i` setting the field `keys[i]` names to `values[i]`. */
  function Replay(keys: seq<Option<Field>>, values: seq<string>): Verdict
    requires |keys| == |values|
  {
    if keys == [] then Defaults()
    else
      var n := |keys| - 1;
      var v := Replay(keys[..n], values[..n]);
      match keys[n]
      case None => v
      case Some(f) => Set(v, f, values[n])
  }

  /** The fields after reading `lines` in order. */
  function ParsedLines(lines: seq<string>): Verdict {
    Replay(Keys(lines), Values(lines))
  }

  function ParsedVerdict(text: string): Verdict {
    ParsedLines(Split(text, '\n'))
  }

  /** Reading one more line is parsing it against the fields read so far. */
  lemma ParsedLinesStep(lines: seq<string>, i: nat)
    requires i < |lines|
    ensures ParsedLines(lines[..i + 1]) == ParseLine(ParsedLines(lines[..i]), lines[i])
  {
    var keys := Keys(lines[..i + 1]);
    var values := Values(lines[..i + 1]);
    assert lines[..i + 1][..i] == lines[..i];
    assert keys[..i] == Keys(lines[..i]);
    assert values[..i] == Values(lines[..i]);
    assert keys[i] == KeyOf(lines[i]) && values[i] == AfterColon(Strip(lines[i]));
  }

  /** `parse_analysis_result`. */
  method ParseAnalysisResult(analysisText: string) returns (decision: string, reason: string, recommendations: string)
    ensures Verdict(decision, reason, recommendations) == ParsedVerdict(analysisText)
  {
    decision := DefaultDecision;
    reason := DefaultReason;
    recommendations := "";
    var lines := Split(analysisText, '\n');
    for i := 0 to |lines|
      invariant Verdict(decision, reason, recommendations) == ParsedLines(lines[..i])
    {
      ParsedLinesStep(lines, i);
      var line := Strip(lines[i]);
      var upper := Upper(line);
      if StartsWith(upper, DecisionKey) {
        decision := AfterColon(line);
      } else if StartsWith(upper, ReasonKey) {
        reason := AfterColon(line);
      } else if StartsWith(upper, RecommendationsKey) {
        recommendations := AfterColon(line);
      }
    }
    assert lines[..|lines|] == lines;
  }

  predicate AnyKey(line: string) {
    HasKey(line, DecisionKey) || HasKey(line, ReasonKey) || HasKey(line, RecommendationsKey)
  }

  /** Keyless lines replay to the defaults. */
  lemma {:induction false} ReplayNoKeys(keys: seq<Option<Field>>, values: seq<string>)
    requires |keys| == |values| && forall j :: 0 <= j < |keys| ==> keys[j].None?
    ensures Replay(keys, values) == Defaults()
  {
    if keys != [] {
      var n := |keys| - 1;
      assert forall j :: 0 <= j < n ==> keys[..n][j] == keys[j];
      ReplayNoKeys(keys[..n], values[..n]);
    }
  }

  /** The last line keyed `f` gives field `f` its value. */
  lemma {:induction false} ReplayLastWins(keys: seq<Option<Field>>, values: seq<string>, f: Field, i: nat)
    requires |keys| == |values| && i < |keys| && keys[i] == Some(f)
    requires forall j :: i < j < |keys| ==> keys[j] != Some(f)
    ensures Get(Replay(keys, values), f) == values[i]
  {
    var n := |keys| - 1;
    if i < n {
      assert forall j :: i < j < n ==> keys[..n][j] == keys[j];
      assert values[..n][i] == values[i] && keys[..n][i] == keys[i];
      ReplayLastWins(keys[..n], values[..n], f, i);
    }
  }

  /** With no line carrying a key, the defaults come back. */
  lemma NoKeysGiveDefaults(lines: seq<string>)
    requires forall j :: 0 <= j < |lines| ==> !AnyKey(lines[j])
    ensures ParsedLines(lines) == Defaults()
  {
    var keys := Keys(lines);
    forall j | 0 <= j < |keys| ensures keys[j].None? {
      assert keys[j] == KeyOf(lines[j]);
    }
    ReplayNoKeys(keys, Values(lines));
  }

  /** The last decision line wins: later lines without the key leave it alone. */
  lemma LastDecisionWins(lines: seq<string>, i: nat)
    requires i < |lines| && HasKey(lines[i], DecisionKey)
    requires forall j :: i < j < |lines| ==> !HasKey(lines[j], DecisionKey)
    ensures ParsedLines(lines).decision == AfterColon(Strip(lines[i]))
  {
    var keys := Keys(lines);
    assert keys[i] == KeyOf(lines[i]);
    forall j | i < j < |keys| ensures keys[j] != Some(DecisionField) {
      assert keys[j] == KeyOf(lines[j]);
    }
    assert Values(lines)[i] == AfterColon(Strip(lines[i]));
    ReplayLastWins(keys, Values(lines), DecisionField, i);
  }

  /** The last reason line wins, unless that line is a decision line. */
  lemma LastReasonWins(lines: seq<string>, i: nat)
    requires i < |lines| && HasKey(lines[i], ReasonKey) && !HasKey(lines[i], DecisionKey)
    requires forall j :: i < j < |lines| ==> !HasKey(lines[j], ReasonKey) || HasKey(lines[j], DecisionKey)
    ensures ParsedLines(lines).reason == AfterColon(Strip(lines[i]))
  {
    var keys := Keys(lines);
    assert keys[i] == KeyOf(lines[i]);
    forall j | i < j < |keys| ensures keys[j] != Some(ReasonField) {
      assert keys[j] == KeyOf(lines[j]);
    }
    assert Values(lines)[i] == AfterColon(Strip(lines[i]));
    ReplayLastWins(keys, Values(lines), ReasonField, i);
  }

  /** The last recommendations line wins, unless that line carries an earlier key. */
  lemma LastRecommendationsWin(lines: seq<string>, i: nat)
    requires i < |lines| && HasKey(lines[i], RecommendationsKey)
    requires !HasKey(lines[i], DecisionKey) && !HasKey(lines[i], ReasonKey)
    requires forall j :: i < j < |lines| ==>
      !HasKey(lines[j], RecommendationsKey) || HasKey(lines[j], DecisionKey) || HasKey(lines[j], ReasonKey)
    ensures ParsedLines(lines).recommendations == AfterColon(Strip(lines[i]))
  {
    var keys := Keys(lines);
    assert keys[i] == KeyOf(lines[i]);
    forall j | i < j < |keys| ensures keys[j] != Some(RecommendationsField) {
      assert keys[j] == KeyOf(lines[j]);
    }
    assert Values(lines)[i] == AfterColon(Strip(lines[i]));
    ReplayLastWins(keys, Values(lines), RecommendationsField, i);
  }

  /** Upper-casing keeps colons where they are and makes none. */
  lemma UpperColons(s: string, j: nat)
    requires j < |s|
    ensures Upper(s)[j] == ':' <==> s[j] == ':'
  {
  }

  /**
   * On a keyed line the colon that `split` cuts at is the key's own, so the
   * value is the stripped rest of the line after the key.
   */
  lemma ValueAfterKey(line: string, key: string)
    requires |key| > 0 && key[|key| - 1] == ':' && forall j :: 0 <= j < |key| - 1 ==> key[j] != ':'
    requires StartsWith(Upper(line), key)
    ensures AfterColon(line) == Strip(line[|key|..])
  {
    forall j | 0 <= j < |key| - 1
      ensures line[j] != ':'
    {
      UpperColons(line, j);
      assert Upper(line)[j] == key[j];
    }
    UpperColons(line, |key| - 1);
    assert Upper(line)[|key| - 1] == key[|key| - 1];
    assert OccursAt(line, ":", |key| - 1);
    FirstColonAt(line, |key| - 1);
  }

  lemma FirstColonAt(line: string, k: nat)
    requires k < |line| && line[k] == ':' && forall j :: 0 <= j < k ==> line[j] != ':'
    ensures FindFirst(line, ":") == Some(k)
  {
    FindColonFrom(line, 0, k);
  }

  lemma {:induction false} FindColonFrom(line: string, from: nat, k: nat)
    requires from <= k < |line| && line[k] == ':' && forall j :: from <= j < k ==> line[j] != ':'
    ensures FindFrom(line, ":", from) == Some(k)
    decreases k - from
  {
    assert OccursAt(line, ":", from) <==> line[from] == ':' by {
      assert from + 1 <= |line|;
    }
    if from < k {
      FindColonFrom(line, from + 1, k);
    }
  }
}
