/**
 * The processed-regulation file format shared by the analyzers: a free-form
 * header, a rule of sixty '=' characters, then the extracted text. Readers
 * drop everything up to the first rule and strip what follows.
 */
module Banner {

  import opened Wrappers
  import opened Strings

  const RuleWidth: nat := 60

  /** `"=" * 60`. */
  function Rule(): (r: string)
    ensures |r| == RuleWidth && forall i :: 0 <= i < |r| ==> r[i] == '='
  {
    Repeat('=', RuleWidth)
  }

  /** The rule starts at `i` and nowhere before. */
  predicate FirstRuleAt(content: string, i: nat) {
    OccursAt(content, Rule(), i) && forall j: nat :: j < i ==> !OccursAt(content, Rule(), j)
  }

  /** `content.split("=" * 60, 1)[-1].strip()` when the rule occurs, the content unchanged otherwise. */
  function StripBanner(content: string): (r: string)
    ensures !Contains(content, Rule()) ==> r == content
    ensures Contains(content, Rule()) ==>
      exists i: nat :: i + RuleWidth <= |content| && FirstRuleAt(content, i) && r == Strip(content[i + RuleWidth..])
  {
    match FindFirst(content, Rule())
    case None => content
    case Some(i) =>
      assert |Rule()| == RuleWidth && FirstRuleAt(content, i);
      Strip(content[i + RuleWidth..])
  }

  /** A file read from the processed folder; `content` is None when reading it raised. */
  datatype ProcessedFile = ProcessedFile(name: string, content: Option<string>)

  /** The `.txt` filter on the folder listing. */
  function TxtFiles(listing: seq<ProcessedFile>): (r: seq<ProcessedFile>)
    ensures forall f :: f in r <==> f in listing && EndsWith(f.name, ".txt")
    ensures |r| <= |listing|
  {
    if listing == [] then []
    else
      var last := listing[|listing| - 1];
      TxtFiles(listing[..|listing| - 1]) + (if EndsWith(last.name, ".txt") then [last] else [])
  }

  /** `file.replace('.txt', '')`. */
  function SourceName(fileName: string): string {
    ReplaceAll(fileName, ".txt", "")
  }

  /** A document counts as content when its stripped text is longer than 100 characters. */
  predicate Substantial(content: string) {
    |Strip(content)| > 100
  }

  /** A header with no '=' in it cannot hold the first rule: stripping the banner gives back the stripped text. */
  lemma {:induction false} BannerRoundTrip(header: string, text: string)
    requires forall i :: 0 <= i < |header| ==> header[i] != '='
    ensures StripBanner(header + Rule() + text) == Strip(text)
  {
    var content := header + Rule() + text;
    assert OccursAt(content, Rule(), |header|) by {
      assert content[|header|..|header| + RuleWidth] == Rule();
    }
    forall j: nat | j < |header| ensures !OccursAt(content, Rule(), j) {
      assert content[j] == header[j];
      assert Rule()[0] == '=';
    }
    assert FirstRuleAt(content, |header|);
    var k := FindFirst(content, Rule()).value;
    assert k == |header|;
    assert content[k + RuleWidth..] == text;
  }
}
