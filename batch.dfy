/**
 * The batch orchestrator: contract discovery, the cache-freshness check,
 * the results list that grows across runs, the frequency tables of the
 * summary report and the dashboard figures.
 */
module Batch {

  import opened Wrappers
  import opened Strings

  /** The part of a `KeywordOnlyAnalyzer` result record the batch code reads. */
  datatype Recommendation = Recommendation(
    decision: string,
    riskLevel: string,
    riskScore: int,
    reason: string,
    criticalRisks: seq<string>,
    recommendations: seq<string>)

  datatype AnalysisResult = AnalysisResult(contractFile: string, recommendation: Recommendation)

  /** What `analyze_contract` did for one contract: raised, or returned a record or nothing. */
  datatype AnalyzerOutcome = Raised(message: string) | Returned(result: Option<AnalysisResult>)

  /** One directory visited by `os.walk`: its path and the names of its files. */
  datatype WalkEntry = WalkEntry(root: string, files: seq<string>)

  /** An entry of the working directory listing and its modification time, if it can be read. */
  datatype Artifact = Artifact(name: string, mtime: Option<int>)

  predicate IsPdfName(file: string) {
    EndsWith(Lower(file), ".pdf")
  }

  /** The PDF paths of one directory, in listing order. */
  function DirPdfs(root: string, files: seq<string>): (r: seq<string>)
    ensures |r| <= |files|
  {
    if files == [] then []
    else
      var f := files[|files| - 1];
      DirPdfs(root, files[..|files| - 1]) + (if IsPdfName(f) then [PathJoin(root, f)] else [])
  }

  /** The PDF paths of a walk, in walk order. */
  function WalkPdfs(walk: seq<WalkEntry>): seq<string> {
    if walk == [] then []
    else WalkPdfs(walk[..|walk| - 1]) + DirPdfs(walk[|walk| - 1].root, walk[|walk| - 1].files)
  }

  /** `find_contract_files`: nothing when the folder is missing. */
  function ContractFiles(folderExists: bool, walk: seq<WalkEntry>): seq<string> {
    if folderExists then WalkPdfs(walk) else []
  }

  lemma {:induction false} DirPdfsMembership(root: string, files: seq<string>, p: string)
    ensures p in DirPdfs(root, files) <==> exists f :: f in files && IsPdfName(f) && p == PathJoin(root, f)
  {
    if files != [] {
      DirPdfsMembership(root, files[..|files| - 1], p);
      assert files == files[..|files| - 1] + [files[|files| - 1]];
    }
  }

  /** Every discovered path joins a walked directory with one of its PDF names, and every such pair is discovered. */
  lemma {:induction false} WalkPdfsMembership(walk: seq<WalkEntry>, p: string)
    ensures p in WalkPdfs(walk) <==> exists e, f :: e in walk && f in e.files && IsPdfName(f) && p == PathJoin(e.root, f)
  {
    if walk != [] {
      var e := walk[|walk| - 1];
      WalkPdfsMembership(walk[..|walk| - 1], p);
      DirPdfsMembership(e.root, e.files, p);
      assert walk == walk[..|walk| - 1] + [e];
    }
  }

  /** The inner loop of `find_contract_files`. */
  method CollectDirPdfs(acc: seq<string>, root: string, files: seq<string>) returns (r: seq<string>)
    ensures r == acc + DirPdfs(root, files)
  {
    var found: seq<string> := [];
    for i := 0 to |files|
      invariant found == DirPdfs(root, files[..i])
    {
      assert files[..i + 1][..i] == files[..i];
      if EndsWith(Lower(files[i]), ".pdf") {
        found := found + [PathJoin(root, files[i])];
      }
    }
    assert files[..|files|] == files;
    r := acc + found;
  }

  method FindContractFiles(folderExists: bool, walk: seq<WalkEntry>) returns (pdfFiles: seq<string>)
    ensures pdfFiles == ContractFiles(folderExists, walk)
  {
    if !folderExists {
      return [];
    }
    pdfFiles := [];
    for i := 0 to |walk|
      invariant pdfFiles == WalkPdfs(walk[..i])
    {
      assert walk[..i + 1][..i] == walk[..i];
      pdfFiles := CollectDirPdfs(pdfFiles, walk[i].root, walk[i].files);
    }
    assert walk[..|walk|] == walk;
  }

  /** The name prefix the analysis artifacts of a contract with stem `stem` carry. */
  function ArtifactPrefix(stem: string): string {
    "analysis_" + stem + "_"
  }

  predicate NameMatches(name: string, stem: string) {
    StartsWith(name, ArtifactPrefix(stem)) && EndsWith(name, ".json")
  }

  /** A matching artifact counts only when both times can be read and it is strictly newer. */
  predicate Fresh(a: Artifact, stem: string, contractTime: Option<int>) {
    NameMatches(a.name, stem) && a.mtime.Some? && contractTime.Some? && a.mtime.value > contractTime.value
  }

  predicate HasFresh(stem: string, contractTime: Option<int>, listing: seq<Artifact>) {
    exists i :: 0 <= i < |listing| && Fresh(listing[i], stem, contractTime)
  }

  /** Some artifact in the working directory is a fresh analysis of the contract. */
  predicate IsCacheHit(contractPath: string, contractTime: Option<int>, listing: seq<Artifact>) {
    HasFresh(Stem(contractPath), contractTime, listing)
  }

  /** `has_recent_analysis`: scan the listing, return at the first fresh match. */
  method HasRecentAnalysis(contractPath: string, contractTime: Option<int>, listing: seq<Artifact>) returns (r: bool)
    ensures r <==> IsCacheHit(contractPath, contractTime, listing)
  {
    var contractName := Stem(contractPath);
    r := ScanListing(contractName, contractTime, listing);
  }

  /** The loop of `has_recent_analysis`. */
  method ScanListing(contractName: string, contractTime: Option<int>, listing: seq<Artifact>) returns (r: bool)
    ensures r <==> HasFresh(contractName, contractTime, listing)
  {
    for i := 0 to |listing|
      invariant forall j :: 0 <= j < i ==> !Fresh(listing[j], contractName, contractTime)
    {
      var file := listing[i];
      if StartsWith(file.name, "analysis_" + contractName + "_") && EndsWith(file.name, ".json") {
        if file.mtime.Some? && contractTime.Some? {
          if file.mtime.value > contractTime.value {
            assert Fresh(listing[i], contractName, contractTime);
            return true;
          }
        }
      }
    }
    return false;
  }

  /**
   * Names match by prefix: an artifact of the contract with stem `s_t` is also
   * taken as an analysis of the contract with stem `s`.
   */
  lemma PrefixCollision(name: string, s: string, t: string)
    requires NameMatches(name, s + "_" + t)
    ensures NameMatches(name, s)
  {
    var p := ArtifactPrefix(s);
    assert ArtifactPrefix(s + "_" + t) == p + (t + "_");
    assert name[..|p|] == ArtifactPrefix(s + "_" + t)[..|p|];
  }

  /** A concrete collision: `analysis_a_b_1.json`, written for `a_b.pdf`, is a cache hit for `a.pdf`. */
  lemma PrefixCollisionExample(contractTime: int)
    ensures IsCacheHit("a.pdf", Some(contractTime), [Artifact("analysis_a_b_1.json", Some(contractTime + 1))])
  {
    StemOfA();
    CollidingName();
    var listing := [Artifact("analysis_a_b_1.json", Some(contractTime + 1))];
    assert Fresh(listing[0], "a", Some(contractTime));
  }

  lemma StemOfA()
    ensures Stem("a.pdf") == "a"
  {
    assert "a" + "." + "pdf" == "a.pdf";
    assert "pdf"[0] == 'p' && "pdf"[1] == 'd' && "pdf"[2] == 'f';
    StemOf("a", "pdf");
  }

  /** `analysis_a_b_1.json` matches both the stem `a_b` and the stem `a`. */
  lemma CollidingName()
    ensures NameMatches("analysis_a_b_1.json", "a_b") && NameMatches("analysis_a_b_1.json", "a")
  {
    var name := "analysis_a_b_1.json";
    assert NameMatches(name, "a" + "_" + "b") by {
      assert ArtifactPrefix("a" + "_" + "b") == "analysis_a_b_";
      assert name[..|"analysis_a_b_"|] == "analysis_a_b_";
      assert |name| == 19 && name[14..] == ".json";
    }
    PrefixCollision(name, "a", "b");
  }

  /** An unreadable modification time never produces a hit. */
  lemma UnreadableTimeNoHit(contractPath: string, listing: seq<Artifact>)
    ensures !IsCacheHit(contractPath, None, listing)
  {
  }

  /** What one contract adds to `results`: nothing when skipped, raised or falsy. */
  function StepResults(contractPath: string, force: bool, mtime: string -> Option<int>, listing: seq<Artifact>,
                       analyzer: string -> AnalyzerOutcome): (r: seq<AnalysisResult>)
    ensures |r| <= 1
  {
    StepOutcome(!force && IsCacheHit(contractPath, mtime(contractPath), listing), analyzer(contractPath))
  }

  /** A skipped contract, a raised analyzer and a None result record nothing; a returned result is recorded. */
  function StepOutcome(skip: bool, outcome: AnalyzerOutcome): (r: seq<AnalysisResult>)
    ensures |r| <= 1
    ensures forall x :: x in r ==> outcome == Returned(Some(x))
  {
    if skip then []
    else match outcome
      case Returned(Some(result)) => [result]
      case _ => []
  }

  /** `results` after the loop over `contracts`, starting from `start`. */
  function Recorded(start: seq<AnalysisResult>, contracts: seq<string>, force: bool, mtime: string -> Option<int>,
                    listing: seq<Artifact>, analyzer: string -> AnalyzerOutcome): seq<AnalysisResult>
  {
    if contracts == [] then start
    else
      var last := contracts[|contracts| - 1];
      Recorded(start, contracts[..|contracts| - 1], force, mtime, listing, analyzer) + StepResults(last, force, mtime, listing, analyzer)
  }

  /** `results` is never reset: the earlier results stay in front, and at most one record is added per contract. */
  lemma {:induction false} RecordedExtends(start: seq<AnalysisResult>, contracts: seq<string>, force: bool,
                                           mtime: string -> Option<int>, listing: seq<Artifact>, analyzer: string -> AnalyzerOutcome)
    ensures start <= Recorded(start, contracts, force, mtime, listing, analyzer)
    ensures |Recorded(start, contracts, force, mtime, listing, analyzer)| <= |start| + |contracts|
  {
    if contracts != [] {
      RecordedExtends(start, contracts[..|contracts| - 1], force, mtime, listing, analyzer);
    }
  }

  /**
   * A failure does not stop the batch: the results of a listing are those of
   * its first part followed by those of the rest, whatever happened in between.
   */
  lemma {:induction false} RecordedAppend(start: seq<AnalysisResult>, a: seq<string>, b: seq<string>, force: bool,
                                          mtime: string -> Option<int>, listing: seq<Artifact>, analyzer: string -> AnalyzerOutcome)
    ensures Recorded(start, a + b, force, mtime, listing, analyzer)
         == Recorded(Recorded(start, a, force, mtime, listing, analyzer), b, force, mtime, listing, analyzer)
  {
    if b == [] {
      assert a + b == a;
    } else {
      assert (a + b)[..|a + b| - 1] == a + b[..|b| - 1];
      RecordedAppend(start, a, b[..|b| - 1], force, mtime, listing, analyzer);
    }
  }

  /** A contract adds only what the analyzer returned for it. */
  lemma StepSound(c: string, force: bool, mtime: string -> Option<int>, listing: seq<Artifact>,
                  analyzer: string -> AnalyzerOutcome, r: AnalysisResult)
    requires r in StepResults(c, force, mtime, listing, analyzer)
    ensures analyzer(c) == Returned(Some(r))
  {
  }

  /** Every new record is what the analyzer returned for some discovered contract. */
  lemma {:induction false} RecordedSound(start: seq<AnalysisResult>, contracts: seq<string>, force: bool,
                                         mtime: string -> Option<int>, listing: seq<Artifact>, analyzer: string -> AnalyzerOutcome,
                                         r: AnalysisResult)
    requires r in Recorded(start, contracts, force, mtime, listing, analyzer)
    ensures r in start || exists c :: c in contracts && analyzer(c) == Returned(Some(r))
  {
    if contracts != [] {
      var c := contracts[|contracts| - 1];
      var before := contracts[..|contracts| - 1];
      var rest := Recorded(start, before, force, mtime, listing, analyzer);
      var step := StepResults(c, force, mtime, listing, analyzer);
      assert Recorded(start, contracts, force, mtime, listing, analyzer) == rest + step;
      if r in step {
        StepSound(c, force, mtime, listing, analyzer, r);
        assert c in contracts;
      } else {
        RecordedSound(start, before, force, mtime, listing, analyzer, r);
        assert forall x :: x in before ==> x in contracts;
      }
    }
  }

  /** With `force`, the cache is never consulted: the listing of artifacts makes no difference. */
  lemma {:induction false} ForceIgnoresCache(start: seq<AnalysisResult>, contracts: seq<string>, mtime: string -> Option<int>,
                                             listing1: seq<Artifact>, listing2: seq<Artifact>, analyzer: string -> AnalyzerOutcome)
    ensures Recorded(start, contracts, true, mtime, listing1, analyzer) == Recorded(start, contracts, true, mtime, listing2, analyzer)
  {
    if contracts != [] {
      ForceIgnoresCache(start, contracts[..|contracts| - 1], mtime, listing1, listing2, analyzer);
    }
  }

  /** The cache can only remove results: a forced run records at least as many. */
  lemma {:induction false} CacheOnlySkips(start: seq<AnalysisResult>, contracts: seq<string>, mtime: string -> Option<int>,
                                          listing: seq<Artifact>, analyzer: string -> AnalyzerOutcome)
    ensures |Recorded(start, contracts, false, mtime, listing, analyzer)| <= |Recorded(start, contracts, true, mtime, listing, analyzer)|
  {
    if contracts != [] {
      CacheOnlySkips(start, contracts[..|contracts| - 1], mtime, listing, analyzer);
    }
  }

  /** A frequency table in first-seen order, as the summary's dicts. */
  type Tally = seq<(string, nat)>

  function Count(t: Tally, key: string): nat {
    if t == [] then 0 else if t[0].0 == key then t[0].1 else Count(t[1..], key)
  }

  function Total(t: Tally): nat {
    if t == [] then 0 else t[0].1 + Total(t[1..])
  }

  /** `d[key] = d.get(key, 0) + 1`. */
  function Increment(t: Tally, key: string): (r: Tally)
    ensures |r| == |t| || |r| == |t| + 1
  {
    if t == [] then [(key, 1)]
    else if t[0].0 == key then [(key, t[0].1 + 1)] + t[1..]
    else [t[0]] + Increment(t[1..], key)
  }

  lemma {:induction false} IncrementCount(t: Tally, key: string, k: string)
    ensures Count(Increment(t, key), k) == Count(t, k) + (if k == key then 1 else 0)
  {
    if t != [] && t[0].0 != key {
      IncrementCount(t[1..], key, k);
      assert Increment(t, key)[1..] == Increment(t[1..], key);
    } else if t != [] {
      assert Increment(t, key)[1..] == t[1..];
    }
  }

  lemma {:induction false} IncrementTotal(t: Tally, key: string)
    ensures Total(Increment(t, key)) == Total(t) + 1
  {
    if t != [] && t[0].0 != key {
      IncrementTotal(t[1..], key);
      assert Increment(t, key)[1..] == Increment(t[1..], key);
    } else if t != [] {
      assert Increment(t, key)[1..] == t[1..];
    }
  }

  /** The table of a sequence of keys, counted in order. */
  function TallyOf(keys: seq<string>): Tally {
    if keys == [] then [] else Increment(TallyOf(keys[..|keys| - 1]), keys[|keys| - 1])
  }

  /** The number of occurrences of `k` in `keys`. */
  function Occurrences(keys: seq<string>, k: string): nat {
    if keys == [] then 0 else Occurrences(keys[..|keys| - 1], k) + (if keys[|keys| - 1] == k then 1 else 0)
  }

  /** The counts of a table sum to the number of keys counted. */
  lemma {:induction false} TallyTotal(keys: seq<string>)
    ensures Total(TallyOf(keys)) == |keys|
  {
    if keys != [] {
      TallyTotal(keys[..|keys| - 1]);
      IncrementTotal(TallyOf(keys[..|keys| - 1]), keys[|keys| - 1]);
    }
  }

  /** Each key's count is its number of occurrences. */
  lemma {:induction false} TallyCount(keys: seq<string>, k: string)
    ensures Count(TallyOf(keys), k) == Occurrences(keys, k)
  {
    if keys != [] {
      TallyCount(keys[..|keys| - 1], k);
      IncrementCount(TallyOf(keys[..|keys| - 1]), keys[|keys| - 1], k);
    }
  }

  function Decisions(results: seq<AnalysisResult>): (r: seq<string>)
    ensures |r| == |results|
  {
    if results == [] then [] else Decisions(results[..|results| - 1]) + [results[|results| - 1].recommendation.decision]
  }

  function RiskLevels(results: seq<AnalysisResult>): (r: seq<string>)
    ensures |r| == |results|
  {
    if results == [] then [] else RiskLevels(results[..|results| - 1]) + [results[|results| - 1].recommendation.riskLevel]
  }

  /** The statistics of `create_summary_report`. */
  datatype Summary = Summary(totalContracts: nat, decisions: Tally, riskLevels: Tally, detailedResults: seq<AnalysisResult>)

  function SummaryOf(results: seq<AnalysisResult>): Summary {
    Summary(|results|, TallyOf(Decisions(results)), TallyOf(RiskLevels(results)), results)
  }

  /** Both frequency tables account for every result exactly once. */
  lemma SummaryTotals(results: seq<AnalysisResult>)
    ensures Total(SummaryOf(results).decisions) == SummaryOf(results).totalContracts == |results|
    ensures Total(SummaryOf(results).riskLevels) == |results|
  {
    TallyTotal(Decisions(results));
    TallyTotal(RiskLevels(results));
  }

  /** An entry of the dashboard's problem list. */
  datatype ProblemContract = ProblemContract(file: string, decision: string, riskScore: int, criticalRisks: seq<string>)

  function ProblemOf(r: AnalysisResult): ProblemContract {
    ProblemContract(r.contractFile, r.recommendation.decision, r.recommendation.riskScore, r.recommendation.criticalRisks)
  }

  const ProblemScore := 3

  predicate IsProblem(r: AnalysisResult) {
    r.recommendation.riskScore >= ProblemScore
  }

  function Problems(results: seq<AnalysisResult>): (p: seq<ProblemContract>)
    ensures |p| <= |results|
  {
    if results == [] then []
    else
      var r := results[|results| - 1];
      Problems(results[..|results| - 1]) + (if IsProblem(r) then [ProblemOf(r)] else [])
  }

  /** The problem list is exactly the problem results. */
  lemma {:induction false} ProblemsMembership(results: seq<AnalysisResult>, p: ProblemContract)
    ensures p in Problems(results) <==> exists r :: r in results && IsProblem(r) && p == ProblemOf(r)
  {
    if results != [] {
      ProblemsMembership(results[..|results| - 1], p);
      assert results == results[..|results| - 1] + [results[|results| - 1]];
    }
  }

  /** ... in result order. */
  lemma {:induction false} ProblemsAppend(a: seq<AnalysisResult>, b: seq<AnalysisResult>)
    ensures Problems(a + b) == Problems(a) + Problems(b)
  {
    if b == [] {
      assert a + b == a;
    } else {
      assert (a + b)[..|a + b| - 1] == a + b[..|b| - 1];
      assert (a + b)[|a + b| - 1] == b[|b| - 1];
      ProblemsAppend(a, b[..|b| - 1]);
    }
  }

  const Critical := "КРИТИЧЕСКИЙ"
  const High := "ВЫСОКИЙ"

  predicate IsHighRisk(r: AnalysisResult) {
    r.recommendation.riskLevel == Critical || r.recommendation.riskLevel == High
  }

  function HighRiskCount(results: seq<AnalysisResult>): (n: nat)
    ensures n <= |results|
  {
    if results == [] then 0
    else HighRiskCount(results[..|results| - 1]) + (if IsHighRisk(results[|results| - 1]) then 1 else 0)
  }

  /** Results whose decision contains `word`. */
  function DecisionCount(results: seq<AnalysisResult>, word: string): (n: nat)
    ensures n <= |results|
  {
    if results == [] then 0
    else DecisionCount(results[..|results| - 1], word) + (if Contains(results[|results| - 1].recommendation.decision, word) then 1 else 0)
  }

  /** The high-risk figure agrees with the risk distribution's two top rows. */
  lemma {:induction false} HighRiskFromDistribution(results: seq<AnalysisResult>)
    ensures HighRiskCount(results) == Count(TallyOf(RiskLevels(results)), Critical) + Count(TallyOf(RiskLevels(results)), High)
  {
    TallyCount(RiskLevels(results), Critical);
    TallyCount(RiskLevels(results), High);
    HighRiskOccurrences(results);
  }

  lemma {:induction false} HighRiskOccurrences(results: seq<AnalysisResult>)
    ensures HighRiskCount(results) == Occurrences(RiskLevels(results), Critical) + Occurrences(RiskLevels(results), High)
  {
    if results != [] {
      HighRiskOccurrences(results[..|results| - 1]);
    }
  }

  /** The figures of `generate_dashboard_data`. */
  datatype Dashboard = Dashboard(
    total: nat,
    highRisk: nat,
    rejected: nat,
    approved: nat,
    riskDistribution: Tally,
    decisionDistribution: Tally,
    problemContracts: seq<ProblemContract>)

  function DashboardOf(results: seq<AnalysisResult>): Dashboard {
    Dashboard(|results|, HighRiskCount(results), DecisionCount(results, "ОТКАЗАТЬ"), DecisionCount(results, "МОЖНО_РАССМОТРЕТЬ"),
              TallyOf(RiskLevels(results)), TallyOf(Decisions(results)), Problems(results))
  }

  /** The counting loop of `create_summary_report`. */
  method CountStatistics(results: seq<AnalysisResult>) returns (decisions: Tally, riskLevels: Tally)
    ensures decisions == TallyOf(Decisions(results)) && riskLevels == TallyOf(RiskLevels(results))
  {
    decisions, riskLevels := [], [];
    for i := 0 to |results|
      invariant decisions == TallyOf(Decisions(results[..i])) && riskLevels == TallyOf(RiskLevels(results[..i]))
    {
      assert results[..i + 1][..i] == results[..i];
      decisions := Increment(decisions, results[i].recommendation.decision);
      riskLevels := Increment(riskLevels, results[i].recommendation.riskLevel);
    }
    assert results[..|results|] == results;
  }

  /** The filling loop of `generate_dashboard_data`. */
  method Distributions(results: seq<AnalysisResult>) returns (risk: Tally, decision: Tally, problems: seq<ProblemContract>)
    ensures risk == TallyOf(RiskLevels(results)) && decision == TallyOf(Decisions(results)) && problems == Problems(results)
  {
    risk, decision, problems := [], [], [];
    for i := 0 to |results|
      invariant risk == TallyOf(RiskLevels(results[..i])) && decision == TallyOf(Decisions(results[..i]))
      invariant problems == Problems(results[..i])
    {
      assert results[..i + 1][..i] == results[..i];
      var result := results[i];
      risk := Increment(risk, result.recommendation.riskLevel);
      decision := Increment(decision, result.recommendation.decision);
      if result.recommendation.riskScore >= 3 {
        problems := problems + [ProblemOf(result)];
      }
    }
    assert results[..|results|] == results;
  }

  class BatchContractProcessor {
    var results: seq<AnalysisResult>

    constructor()
      ensures results == []
    {
      results := [];
    }

    /** The loop of `process_all_contracts`: skip, analyze, append on a truthy result, go on after a failure. */
    method RecordAll(contracts: seq<string>, force: bool, mtime: string -> Option<int>, listing: seq<Artifact>,
                     analyzer: string -> AnalyzerOutcome)
      modifies this
      ensures results == Recorded(old(results), contracts, force, mtime, listing, analyzer)
    {
      ghost var start := results;
      for i := 0 to |contracts|
        invariant results == Recorded(start, contracts[..i], force, mtime, listing, analyzer)
      {
        assert contracts[..i + 1][..i] == contracts[..i];
        var contractPath := contracts[i];
        var skip := false;
        if !force {
          skip := HasRecentAnalysis(contractPath, mtime(contractPath), listing);
        }
        if !skip {
          var outcome := analyzer(contractPath);
          if outcome.Returned? && outcome.result.Some? {
            results := results + [outcome.result.value];
          }
        }
      }
      assert contracts[..|contracts|] == contracts;
    }

    /**
     * `process_all_contracts`: with no contract found it returns `[]` and
     * leaves `results` alone; otherwise it appends to `results`, returns all
     * of it and builds the summary.
     */
    method ProcessAllContracts(force: bool, folderExists: bool, walk: seq<WalkEntry>, mtime: string -> Option<int>,
                               listing: seq<Artifact>, analyzer: string -> AnalyzerOutcome)
      returns (returned: seq<AnalysisResult>, summary: Option<Summary>)
      modifies this
      ensures ContractFiles(folderExists, walk) == [] ==> returned == [] && summary == None && results == old(results)
      ensures ContractFiles(folderExists, walk) != [] ==>
        results == Recorded(old(results), ContractFiles(folderExists, walk), force, mtime, listing, analyzer)
        && returned == results
        && summary == (if results == [] then None else Some(SummaryOf(results)))
    {
      var contracts := FindContractFiles(folderExists, walk);
      if contracts == [] {
        return [], None;
      }
      RecordAll(contracts, force, mtime, listing, analyzer);
      summary := CreateSummaryReport();
      returned := results;
    }

    /** `create_summary_report`: nothing when there are no results. */
    method CreateSummaryReport() returns (summary: Option<Summary>)
      ensures summary == (if results == [] then None else Some(SummaryOf(results)))
    {
      if results == [] {
        return None;
      }
      var decisions, riskLevels := CountStatistics(results);
      summary := Some(Summary(|results|, decisions, riskLevels, results));
    }

    /** `generate_dashboard_data`: None when there are no results. */
    method GenerateDashboardData() returns (data: Option<Dashboard>)
      ensures data == (if results == [] then None else Some(DashboardOf(results)))
    {
      if results == [] {
        return None;
      }
      var risk, decision, problems := Distributions(results);
      data := Some(Dashboard(|results|, HighRiskCount(results), DecisionCount(results, "ОТКАЗАТЬ"),
                             DecisionCount(results, "МОЖНО_РАССМОТРЕТЬ"), risk, decision, problems));
    }
  }

  /** A second run appends to the first: the results of both runs, in order. */
  lemma TwoRunsAccumulate(contracts1: seq<string>, contracts2: seq<string>, force: bool, mtime: string -> Option<int>,
                          listing: seq<Artifact>, analyzer: string -> AnalyzerOutcome)
    ensures Recorded(Recorded([], contracts1, force, mtime, listing, analyzer), contracts2, force, mtime, listing, analyzer)
         == Recorded([], contracts1 + contracts2, force, mtime, listing, analyzer)
  {
    RecordedAppend([], contracts1, contracts2, force, mtime, listing, analyzer);
  }
}
