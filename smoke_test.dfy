/**
 * The verdict logic of the Ollama smoke test: five heuristic validators over
 * a model's reply, the wrapper that turns a failed generation into a failed
 * probe, the quick and full probe lists, the pass/summary rule of the report
 * and the exit code of the command line.  Every call to the model runtime is
 * an input: `gen(model, prompt)` is what generating `prompt` with `model`
 * yielded, and `available` is what listing the installed models returned.
 */
module SmokeTest {
  import opened Text

  /** One probe's outcome; the wall-clock duration is not modelled. */
  datatype ProbeResult = ProbeResult(name: string, passed: bool, details: string, response: string) {

    function Icon(): (s: string)
      ensures s == "✓" <==> passed
      ensures s == "✗" <==> !passed
    {
      if passed then "✓" else "✗"
    }

    function Status(): (s: string)
      ensures s == "PASS" <==> passed
      ensures s == "FAIL" <==> !passed
    {
      if passed then "PASS" else "FAIL"
    }
  }

  /** What a validator returns: the verdict and the message explaining it. */
  datatype Verdict = Verdict(passed: bool, details: string)

  /** What one generation request yielded: a reply, or an exception with its text. */
  datatype GenerateOutcome = Generated(response: string) | Raised(message: string)

  datatype Probe = Fibonacci | Palindrome | FizzBuzz | JsonParse | ErrorExplain

  function Name(p: Probe): string {
    match p
    case Fibonacci => "fibonacci"
    case Palindrome => "palindrome"
    case FizzBuzz => "fizzbuzz"
    case JsonParse => "json_parse"
    case ErrorExplain => "error_explain"
  }

  const FibonacciPrompt :=
    "Write a Python function called fibonacci(n) that returns the nth fibonacci number. Just the code, no explanation."
  const PalindromePrompt :=
    "Write a Python function is_palindrome(s) that returns True if string s is a palindrome (ignoring case and spaces). Just the code."
  const FizzBuzzPrompt :=
    "Write a Python function fizzbuzz(n) that prints FizzBuzz from 1 to n. Just the code."
  const JsonParsePrompt :=
    "Write a Python function get_name(json_str) that parses a JSON string and returns the \"name\" field. Just the code."
  const ErrorExplainPrompt :=
    "Explain this Python error in one sentence:\n```\nNameError: name 'x' is not defined\n```"

  /** The fixed prompt each probe sends. */
  function Prompt(p: Probe): string {
    match p
    case Fibonacci => FibonacciPrompt
    case Palindrome => PalindromePrompt
    case FizzBuzz => FizzBuzzPrompt
    case JsonParse => JsonParsePrompt
    case ErrorExplain => ErrorExplainPrompt
  }

  const NoDefinition := "No function definition found"

  // ---------------------------------------------------------------------
  // The five validators
  // ---------------------------------------------------------------------

  /** Checks "def ", then "fibonacci", then "return" in the lower-cased reply. */
  function ValidateFibonacci(response: string): (v: Verdict)
    ensures var l := ToLower(response);
      v.passed <==> Contains(l, "def ") && Contains(l, "fibonacci") && Contains(l, "return")
    ensures var l := ToLower(response);
      !Contains(l, "def ") ==> v.details == NoDefinition
    ensures var l := ToLower(response);
      Contains(l, "def ") && !Contains(l, "fibonacci") ==> v.details == "Function name not found"
    ensures var l := ToLower(response);
      Contains(l, "def ") && Contains(l, "fibonacci") && !Contains(l, "return") ==> v.details == "No return statement"
    ensures v.passed ==> v.details == "Function generated correctly"
  {
    if !Contains(ToLower(response), "def ") then Verdict(false, NoDefinition)
    else if !Contains(ToLower(response), "fibonacci") then Verdict(false, "Function name not found")
    else if !Contains(ToLower(response), "return") then Verdict(false, "No return statement")
    else Verdict(true, "Function generated correctly")
  }

  /** `".lower()" in s or "lower" in s` is just `"lower" in s`. */
  lemma {:induction false} HasLowerIsLower(s: string)
    ensures Contains(s, ".lower()") || Contains(s, "lower") <==> Contains(s, "lower")
  {
    if Contains(s, ".lower()") {
      assert OccursAt(".lower()", "lower", 1);
      ContainsTransitive(s, ".lower()", "lower");
    }
  }

  /**
   * Needs "def " in the lower-cased reply, then a reversal: "[::-1]" in the
   * raw reply or "reversed" in the lower-cased one.  Whether the reply also
   * mentions lower-casing only picks the success message.
   */
  function ValidatePalindrome(response: string): (v: Verdict)
    ensures var l := ToLower(response);
      !Contains(l, "def ") ==> v == Verdict(false, NoDefinition)
    ensures var l := ToLower(response);
      Contains(l, "def ") ==> (v.passed <==> Contains(response, "[::-1]") || Contains(l, "reversed"))
    ensures var l := ToLower(response);
      Contains(l, "def ") && !v.passed ==> v.details == "Missing palindrome logic"
    ensures v.passed ==>
      v.details == if Contains(response, "lower") then "Handles case and reversal" else "Uses string reversal"
  {
    if !Contains(ToLower(response), "def ") then Verdict(false, NoDefinition)
    else
      var hasReverse := Contains(response, "[::-1]") || Contains(ToLower(response), "reversed");
      var hasLower := Contains(response, ".lower()") || Contains(response, "lower");
      HasLowerIsLower(response);
      if hasReverse && hasLower then Verdict(true, "Handles case and reversal")
      else if hasReverse then Verdict(true, "Uses string reversal")
      else Verdict(false, "Missing palindrome logic")
  }

  /** Needs "def ", "fizz" and "buzz" in the lower-cased reply and "%" in the raw one. */
  function ValidateFizzBuzz(response: string): (v: Verdict)
    ensures var l := ToLower(response);
      v.passed <==> Contains(l, "def ") && Contains(l, "fizz") && Contains(l, "buzz") && Contains(response, "%")
    ensures var l := ToLower(response);
      !Contains(l, "def ") ==> v.details == NoDefinition
    ensures var l := ToLower(response);
      Contains(l, "def ") && !v.passed ==> v.details == "Missing FizzBuzz logic"
    ensures v.passed ==> v.details == "Loop with modulo logic"
  {
    var responseLower := ToLower(response);
    if !Contains(responseLower, "def ") then Verdict(false, NoDefinition)
    else
      var hasFizz := Contains(responseLower, "fizz");
      var hasBuzz := Contains(responseLower, "buzz");
      var hasMod := Contains(response, "%");
      if hasFizz && hasBuzz && hasMod then Verdict(true, "Loop with modulo logic")
      else Verdict(false, "Missing FizzBuzz logic")
  }

  /** Needs "json" and then "load" in the lower-cased reply; no function definition is asked for. */
  function ValidateJsonParse(response: string): (v: Verdict)
    ensures var l := ToLower(response);
      v.passed <==> Contains(l, "json") && Contains(l, "load")
    ensures var l := ToLower(response);
      !Contains(l, "json") ==> v.details == "No json module usage"
    ensures var l := ToLower(response);
      Contains(l, "json") && !Contains(l, "load") ==> v.details == "Missing JSON parsing"
    ensures v.passed ==> v.details == "Uses json.loads()"
  {
    if !Contains(ToLower(response), "json") then Verdict(false, "No json module usage")
    else if Contains(ToLower(response), "load") then Verdict(true, "Uses json.loads()")
    else Verdict(false, "Missing JSON parsing")
  }

  /** The phrases that show the reply understood a `NameError`. */
  const NameErrorKeywords: seq<string> :=
    ["not defined", "undefined", "doesn't exist", "not exist", "variable", "declared"]

  /** Python's `any(kw in s for kw in keywords)`, scanned left to right. */
  function AnyContains(s: string, keywords: seq<string>): (r: bool)
    ensures r <==> exists k | 0 <= k < |keywords| :: Contains(s, keywords[k])
  {
    if keywords == [] then false
    else if Contains(s, keywords[0]) then true
    else
      var rest := AnyContains(s, keywords[1..]);
      assert forall k | 1 <= k < |keywords| :: keywords[k] == keywords[1..][k - 1];
      rest
  }

  /** Passes iff some keyword occurs in the lower-cased reply. */
  function ValidateErrorExplain(response: string): (v: Verdict)
    ensures v.passed <==> exists k | 0 <= k < |NameErrorKeywords| :: Contains(ToLower(response), NameErrorKeywords[k])
    ensures v.details == if v.passed then "Identified NameError issue" else "Did not explain error"
  {
    var responseLower := ToLower(response);
    if AnyContains(responseLower, NameErrorKeywords) then Verdict(true, "Identified NameError issue")
    else Verdict(false, "Did not explain error")
  }

  /** The validator each probe applies to the model's reply. */
  function Validate(p: Probe, response: string): Verdict {
    match p
    case Fibonacci => ValidateFibonacci(response)
    case Palindrome => ValidatePalindrome(response)
    case FizzBuzz => ValidateFizzBuzz(response)
    case JsonParse => ValidateJsonParse(response)
    case ErrorExplain => ValidateErrorExplain(response)
  }

  /** An empty reply fails every probe. */
  lemma {:induction false} EmptyResponseFails(p: Probe)
    ensures !Validate(p, "").passed
  {
    assert ToLower("") == "";
    EmptyContainsNothing("def ");
    EmptyContainsNothing("json");
    forall k | 0 <= k < |NameErrorKeywords|
      ensures !Contains("", NameErrorKeywords[k])
    {
      EmptyContainsNothing(NameErrorKeywords[k]);
    }
  }

  /**
   * No verdict depends on letter case: lower-casing the reply first leaves
   * every probe's pass/fail unchanged.  The needles searched in the raw reply
   * ("[::-1]" and "%") hold no letters, and the others are searched in the
   * lower-cased reply.
   */
  lemma {:induction false} VerdictIgnoresCase(p: Probe, response: string)
    ensures Validate(p, ToLower(response)).passed == Validate(p, response).passed
  {
    ToLowerIdempotent(response);
    match p
    case Palindrome =>
      assert NoLetters("[::-1]");
      ContainsIgnoresCase(response, "[::-1]");
    case FizzBuzz =>
      assert NoLetters("%");
      ContainsIgnoresCase(response, "%");
    case _ =>
  }

  /** On a reply already in lower case, the fibonacci verdict is plain containment of the three words. */
  lemma FibonacciOnLowerCaseReply(s: string)
    requires NoUpper(s)
    ensures ValidateFibonacci(s).passed <==> Contains(s, "def ") && Contains(s, "fibonacci") && Contains(s, "return")
  {
    ToLowerOfNoUpper(s);
  }

  /** A canonical fibonacci reply passes. */
  lemma FibonacciAcceptsCanonicalAnswer(s: string)
    requires s == "def " + "fibonacci" + "(n): " + "return" + " n"
    ensures ValidateFibonacci(s).passed
  {
    assert NoUpper(s);
    ContainsInfix(s, "", "def ", "fibonacci" + "(n): " + "return" + " n");
    ContainsInfix(s, "def ", "fibonacci", "(n): " + "return" + " n");
    ContainsInfix(s, "def " + "fibonacci" + "(n): ", "return", " n");
    FibonacciOnLowerCaseReply(s);
  }

  /** The json_parse probe can pass without any function definition. */
  lemma JsonParseNeedsNoDefinition()
    ensures ValidateJsonParse("json.loads").passed
    ensures !ValidateFibonacci("json.loads").passed
  {
    var s := "json.loads";
    assert NoUpper(s);
    ToLowerOfNoUpper(s);
    ContainsInfix(s, "", "json", ".loads");
    ContainsInfix(s, "json.", "load", "s");
    assert "def "[1] == 'e';
    MissingCharNotContained(s, "def ", 1);
  }

  // ---------------------------------------------------------------------
  // One probe
  // ---------------------------------------------------------------------

  /**
   * A generation that raised becomes a failed result with an empty reply and
   * the first 40 characters of the error; otherwise the validator decides.
   */
  function RunProbe(p: Probe, outcome: GenerateOutcome): (r: ProbeResult)
    ensures r.name == Name(p)
    ensures outcome.Raised? ==>
      !r.passed && r.response == "" && r.details == "Error: " + Take(outcome.message, 40)
    ensures outcome.Generated? ==>
      Verdict(r.passed, r.details) == Validate(p, outcome.response) && r.response == outcome.response
  {
    match outcome
    case Generated(response) =>
      var v := Validate(p, response);
      ProbeResult(Name(p), v.passed, v.details, response)
    case Raised(message) =>
      ProbeResult(Name(p), false, "Error: " + Take(message, 40), "")
  }

  // ---------------------------------------------------------------------
  // Probe lists
  // ---------------------------------------------------------------------

  const QuickProbes: seq<Probe> := [Fibonacci, Palindrome]
  const ExtraProbes: seq<Probe> := [FizzBuzz, JsonParse, ErrorExplain]

  /**
   * The probes `run_all_probes(quick)` runs: the quick pair, extended by the
   * other three unless `quick`.
   */
  function ProbeList(quick: bool): (ps: seq<Probe>)
    ensures |ps| == if quick then 2 else 5
    ensures ps[..2] == QuickProbes
  {
    var probes := QuickProbes;
    if !quick then probes + ExtraProbes else probes
  }

  /** The full list runs every probe, each exactly once. */
  lemma FullListRunsEachProbeOnce(p: Probe)
    ensures p in ProbeList(false)
    ensures forall i, j | 0 <= i < j < 5 :: ProbeList(false)[i] != ProbeList(false)[j]
  {
    assert ProbeList(false) == [Fibonacci, Palindrome, FizzBuzz, JsonParse, ErrorExplain];
  }

  /** Running `ps` one after another for `model`; each result is appended in turn. */
  function RunProbes(model: string, ps: seq<Probe>, gen: (string, string) -> GenerateOutcome): (rs: seq<ProbeResult>)
    ensures |rs| == |ps|
  {
    if ps == [] then []
    else
      var last := ps[|ps| - 1];
      RunProbes(model, ps[..|ps| - 1], gen) + [RunProbe(last, gen(model, Prompt(last)))]
  }

  /** The i-th result is the i-th probe run against the model. */
  lemma {:induction false} RunProbesAt(model: string, ps: seq<Probe>, gen: (string, string) -> GenerateOutcome, i: nat)
    requires i < |ps|
    ensures |RunProbes(model, ps, gen)| == |ps|
    ensures RunProbes(model, ps, gen)[i] == RunProbe(ps[i], gen(model, Prompt(ps[i])))
  {
    var init := ps[..|ps| - 1];
    if i < |init| {
      RunProbesAt(model, init, gen, i);
    } else if init != [] {
      RunProbesAt(model, init, gen, 0);
    }
  }

  function Names(rs: seq<ProbeResult>): (ns: seq<string>)
    ensures |ns| == |rs|
  {
    seq(|rs|, i requires 0 <= i < |rs| => rs[i].name)
  }

  /** The results come out named in the fixed probe order. */
  lemma ResultNamesInOrder(model: string, quick: bool, gen: (string, string) -> GenerateOutcome)
    ensures Names(RunProbes(model, ProbeList(quick), gen)) ==
      if quick then ["fibonacci", "palindrome"]
      else ["fibonacci", "palindrome", "fizzbuzz", "json_parse", "error_explain"]
  {
    var ps := ProbeList(quick);
    forall i | 0 <= i < |ps|
      ensures RunProbes(model, ps, gen)[i].name == Name(ps[i])
    {
      RunProbesAt(model, ps, gen, i);
    }
    RunProbesAt(model, ps, gen, 0);
  }

  // ---------------------------------------------------------------------
  // The report
  // ---------------------------------------------------------------------

  /** How many results passed. */
  function CountPassed(rs: seq<ProbeResult>): (n: nat)
    ensures n <= |rs|
  {
    if rs == [] then 0
    else CountPassed(rs[..|rs| - 1]) + (if rs[|rs| - 1].passed then 1 else 0)
  }

  predicate AllPassed(rs: seq<ProbeResult>) {
    forall i | 0 <= i < |rs| :: rs[i].passed
  }

  predicate NonePassed(rs: seq<ProbeResult>) {
    forall i | 0 <= i < |rs| :: !rs[i].passed
  }

  /** Every result passed exactly when the count of passes is the total. */
  lemma {:induction false} CountPassedAll(rs: seq<ProbeResult>)
    ensures CountPassed(rs) == |rs| <==> AllPassed(rs)
  {
    if rs != [] {
      var init := rs[..|rs| - 1];
      CountPassedAll(init);
      assert forall i | 0 <= i < |init| :: init[i] == rs[i];
    }
  }

  /** No result passed exactly when the count of passes is zero. */
  lemma {:induction false} CountPassedNone(rs: seq<ProbeResult>)
    ensures CountPassed(rs) == 0 <==> NonePassed(rs)
  {
    if rs != [] {
      var init := rs[..|rs| - 1];
      CountPassedNone(init);
      assert forall i | 0 <= i < |init| :: init[i] == rs[i];
    }
  }

  /** The three summary lines of the report; the percentage is the pair passed/total. */
  datatype SummaryLine =
    | FullPass(total: nat)
    | PartialPass(passed: nat, total: nat)
    | ZeroPass(total: nat)

  /** The summary branch the report picks from the counts. */
  function Summary(passed: nat, total: nat): SummaryLine {
    if passed == total then FullPass(total)
    else if passed > 0 then PartialPass(passed, total)
    else ZeroPass(total)
  }

  /**
   * The summary of a run says "100%" exactly when every probe passed (so also
   * for no probes), "0%" exactly when there were probes and none passed, and
   * gives the partial count otherwise.
   */
  lemma SummaryOfResults(rs: seq<ProbeResult>)
    ensures Summary(CountPassed(rs), |rs|).FullPass? <==> AllPassed(rs)
    ensures Summary(CountPassed(rs), |rs|).ZeroPass? <==> |rs| > 0 && NonePassed(rs)
    ensures Summary(CountPassed(rs), |rs|).PartialPass? <==> !AllPassed(rs) && !NonePassed(rs)
  {
    CountPassedAll(rs);
    CountPassedNone(rs);
  }

  /** One printed row: name, status and the details cut to 30 characters. */
  datatype ReportRow = ReportRow(name: string, status: string, details: string)

  function RowOf(r: ProbeResult): (row: ReportRow)
    ensures row.name == r.name
    ensures row.status == r.Status()
    ensures row.status == "PASS" <==> r.passed
    ensures row.details == Take(r.details, 30)
  {
    ReportRow(r.name, r.Status(), Take(r.details, 30))
  }

  /** The table rows of a report, one per result in order. */
  method ReportRows(rs: seq<ProbeResult>) returns (rows: seq<ReportRow>)
    ensures |rows| == |rs|
    ensures forall i | 0 <= i < |rs| :: rows[i] == RowOf(rs[i])
  {
    rows := [];
    var i := 0;
    while i < |rs|
      invariant 0 <= i <= |rs|
      invariant |rows| == i
      invariant forall k | 0 <= k < i :: rows[k] == RowOf(rs[k])
    {
      rows := rows + [RowOf(rs[i])];
      i := i + 1;
    }
  }

  /** Whether testing `model` passes every probe of the chosen set. */
  predicate ModelPasses(model: string, quick: bool, gen: (string, string) -> GenerateOutcome) {
    var ps := ProbeList(quick);
    forall i | 0 <= i < |ps| :: RunProbe(ps[i], gen(model, Prompt(ps[i]))).passed
  }

  /** A run's stored results all pass exactly when the model passes every probe. */
  lemma RunPassesIff(model: string, quick: bool, gen: (string, string) -> GenerateOutcome)
    ensures AllPassed(RunProbes(model, ProbeList(quick), gen)) <==> ModelPasses(model, quick, gen)
  {
    var ps := ProbeList(quick);
    forall i | 0 <= i < |ps|
      ensures RunProbes(model, ps, gen)[i] == RunProbe(ps[i], gen(model, Prompt(ps[i])))
    {
      RunProbesAt(model, ps, gen, i);
    }
    RunProbesAt(model, ps, gen, 0);
  }

  const DefaultModel := "deepseek-coder:33b"
  const DefaultHost := "http://localhost:11434"

  /** The configured value if non-empty (Python's `a or b`), else the fallback. */
  function OrElse(value: string, fallback: string): string {
    if value != "" then value else fallback
  }

  /** The tester: a host, the model under test, and the results of its last run. */
  class OllamaSmokeTest {
    var host: string
    var model: string
    var results: seq<ProbeResult>

    /**
     * An empty argument means "not given"; the host then comes from
     * OLLAMA_HOST in `env` or the default, and loses its trailing slashes.
     */
    constructor (hostArg: string, modelArg: string, env: map<string, string>)
      ensures host == StripTrailing(OrElse(hostArg, if "OLLAMA_HOST" in env then env["OLLAMA_HOST"] else DefaultHost), '/')
      ensures model == OrElse(modelArg, DefaultModel)
      ensures results == []
    {
      var h := OrElse(hostArg, if "OLLAMA_HOST" in env then env["OLLAMA_HOST"] else DefaultHost);
      model := OrElse(modelArg, DefaultModel);
      host := StripTrailing(h, '/');
      results := [];
    }

    /**
     * Runs the quick or the full probe list against the current model.  The
     * previous results are discarded, not appended to.
     */
    method RunAllProbes(quick: bool, gen: (string, string) -> GenerateOutcome) returns (rs: seq<ProbeResult>)
      modifies this`results
      ensures results == RunProbes(model, ProbeList(quick), gen)
      ensures rs == results
    {
      var probes := [Fibonacci, Palindrome];
      if !quick {
        probes := probes + [FizzBuzz, JsonParse, ErrorExplain];
      }
      results := [];
      var i := 0;
      while i < |probes|
        invariant 0 <= i <= |probes|
        invariant results == RunProbes(model, probes[..i], gen)
      {
        var result := RunProbe(probes[i], gen(model, Prompt(probes[i])));
        results := results + [result];
        assert probes[..i + 1][..i] == probes[..i];
        i := i + 1;
      }
      assert probes[..i] == ProbeList(quick);
      rs := results;
    }

    /**
     * Counts the passes over the stored results, picks the summary line and
     * returns whether every probe passed (also when there were none).
     */
    method PrintReport() returns (allPassed: bool, summary: SummaryLine, rows: seq<ReportRow>)
      ensures allPassed <==> AllPassed(results)
      ensures summary == Summary(CountPassed(results), |results|)
      ensures summary.FullPass? <==> allPassed
      ensures |rows| == |results|
      ensures forall i | 0 <= i < |results| :: rows[i] == RowOf(results[i])
    {
      rows := ReportRows(results);
      var passed := 0;
      var i := 0;
      while i < |results|
        invariant 0 <= i <= |results|
        invariant passed == CountPassed(results[..i])
      {
        if results[i].passed {
          passed := passed + 1;
        }
        assert results[..i + 1][..i] == results[..i];
        i := i + 1;
      }
      assert results[..i] == results;
      var total := |results|;
      summary := Summary(passed, total);
      allPassed := passed == total;
      CountPassedAll(results);
    }
  }

  /**
   * The command line's exit code.  With `all`, every installed model in
   * `available` is tested in turn, and an empty list exits 1 at once;
   * otherwise only the configured model is tested.  Exit 0 means every tested
   * model passed every probe.
   */
  method SmokeMain(all: bool, quick: bool, hostArg: string, modelArg: string, env: map<string, string>,
                   available: seq<string>, gen: (string, string) -> GenerateOutcome)
    returns (code: int)
    ensures code == 0 || code == 1
    ensures all ==>
      (code == 0 <==> |available| > 0 && forall i | 0 <= i < |available| :: ModelPasses(available[i], quick, gen))
    ensures !all ==> (code == 0 <==> ModelPasses(OrElse(modelArg, DefaultModel), quick, gen))
  {
    var tester := new OllamaSmokeTest(hostArg, modelArg, env);
    if all {
      if |available| == 0 {
        return 1;
      }
      var allPassed := TestEachModel(tester, available, quick, gen);
      code := if allPassed then 0 else 1;
    } else {
      var passed := TestCurrentModel(tester, quick, gen);
      code := if passed then 0 else 1;
    }
  }

  /** `all(p(x) for x in xs)`, checked from the last element back. */
  predicate AllOf<T>(xs: seq<T>, p: T -> bool) {
    xs == [] || (AllOf(xs[..|xs| - 1], p) && p(xs[|xs| - 1]))
  }

  lemma {:induction false} AllOfIff<T>(xs: seq<T>, p: T -> bool)
    ensures AllOf(xs, p) <==> forall i | 0 <= i < |xs| :: p(xs[i])
  {
    if xs != [] {
      var init := xs[..|xs| - 1];
      AllOfIff(init, p);
      assert forall i | 0 <= i < |init| :: init[i] == xs[i];
    }
  }

  /**
   * The `--all` loop, reached only with at least one installed model: each
   * model in turn becomes the current model and is tested; the run passes
   * iff every one of them passed, and the last model's results are kept.
   */
  method TestEachModel(tester: OllamaSmokeTest, available: seq<string>, quick: bool,
                       gen: (string, string) -> GenerateOutcome)
    returns (allPassed: bool)
    requires available != []
    modifies tester`model, tester`results
    ensures allPassed <==> forall i | 0 <= i < |available| :: ModelPasses(available[i], quick, gen)
    ensures tester.model == available[|available| - 1]
    ensures tester.results == RunProbes(available[|available| - 1], ProbeList(quick), gen)
  {
    ghost var passes := (m: string) => ModelPasses(m, quick, gen);
    allPassed := true;
    var i := 0;
    while i < |available|
      invariant 0 <= i <= |available|
      invariant allPassed == AllOf(available[..i], passes)
      invariant i > 0 ==> tester.model == available[i - 1]
      invariant i > 0 ==> tester.results == RunProbes(available[i - 1], ProbeList(quick), gen)
    {
      var ok := TestModel(tester, available[i], quick, gen);
      if !ok {
        allPassed := false;
      }
      assert available[..i + 1][..i] == available[..i];
      i := i + 1;
    }
    assert available[..i] == available;
    AllOfIff(available, passes);
  }

  /** One round of the `--all` loop: make `model` current, then test it. */
  method TestModel(tester: OllamaSmokeTest, model: string, quick: bool, gen: (string, string) -> GenerateOutcome)
    returns (passed: bool)
    modifies tester`model, tester`results
    ensures tester.model == model
    ensures tester.results == RunProbes(model, ProbeList(quick), gen)
    ensures passed <==> ModelPasses(model, quick, gen)
  {
    tester.model := model;
    passed := TestCurrentModel(tester, quick, gen);
  }

  /** One round of the command line: run the probes, then report on them. */
  method TestCurrentModel(tester: OllamaSmokeTest, quick: bool, gen: (string, string) -> GenerateOutcome)
    returns (passed: bool)
    modifies tester`results
    ensures tester.results == RunProbes(tester.model, ProbeList(quick), gen)
    ensures passed <==> ModelPasses(tester.model, quick, gen)
  {
    var _ := tester.RunAllProbes(quick, gen);
    var summary, rows;
    passed, summary, rows := tester.PrintReport();
    RunPassesIff(tester.model, quick, gen);
  }
}
