/** The interview page's test-case panel and editor: resetting the cases,
    merging judge results into them by index, the lists sent to the judge,
    the code shown for a language, and the language menu labels. */
module Interview {
  import opened Wrappers
  import opened JsText
  import Profile

  datatype TestCase = TestCase(input: string, output: string)

  /** A test case as the panel holds it; `None` stands for `undefined`. */
  datatype CaseView = CaseView(
    input: string,
    output: string,
    expected: Option<string>,
    actualOutput: Option<string>,
    passed: Option<bool>,
    status: Option<string>)

  /** One entry of the submission's `TestCaseResult` list. */
  datatype CaseResult = CaseResult(expected: Option<string>, stdout: Option<string>, passed: Option<bool>, status: Option<string>)

  /** A case with its results cleared and the given status. */
  function Cleared(tc: TestCase, status: Option<string>): CaseView {
    CaseView(tc.input, tc.output, Some(tc.output), None, None, status)
  }

  /** The reset mapping: every case with `expected` set to its output and no
      result; no list gives none. */
  function ResetCases(testCases: Option<seq<TestCase>>): (views: seq<CaseView>)
    ensures testCases.None? ==> views == []
    ensures testCases.Some? ==> |views| == |testCases.value|
    ensures testCases.Some? ==> forall i :: 0 <= i < |views| ==>
              views[i].input == testCases.value[i].input && views[i].output == testCases.value[i].output
              && views[i].expected == Some(testCases.value[i].output)
              && views[i].actualOutput == None && views[i].passed == None && views[i].status == None
  {
    match testCases
    case None => []
    case Some(tcs) => seq(|tcs|, i requires 0 <= i < |tcs| => Cleared(tcs[i], None))
  }

  /** The mapping before a run: the same, with the status "Running...". */
  function RunningCases(testCases: seq<TestCase>): (views: seq<CaseView>)
    ensures |views| == |testCases|
    ensures forall i :: 0 <= i < |views| ==>
              views[i] == CaseView(testCases[i].input, testCases[i].output, Some(testCases[i].output), None, None, Some("Running..."))
  {
    seq(|testCases|, i requires 0 <= i < |testCases| => Cleared(testCases[i], Some("Running...")))
  }

  predicate TruthyString(s: Option<string>) {
    s.Some? && s.value != []
  }

  /** Test case `tc` combined with result `r` (`None` past the end of the results). */
  function MergeOne(tc: TestCase, r: Option<CaseResult>): (v: CaseView)
    ensures v.input == tc.input && v.output == tc.output
    ensures v.expected == Some(if r.Some? && TruthyString(r.value.expected) then r.value.expected.value else tc.output)
    ensures v.actualOutput == Some(if r.Some? && TruthyString(r.value.stdout) then r.value.stdout.value else "No output")
    ensures v.passed == Some(r.Some? && r.value.passed == Some(true))
    ensures v.status == Some(if r.Some? && TruthyString(r.value.status) then r.value.status.value else "Unknown")
  {
    match r
    case None => CaseView(tc.input, tc.output, Some(tc.output), Some("No output"), Some(false), Some("Unknown"))
    case Some(res) =>
      CaseView(tc.input, tc.output,
               Some(if TruthyString(res.expected) then res.expected.value else tc.output),
               Some(if TruthyString(res.stdout) then res.stdout.value else "No output"),
               Some(res.passed == Some(true)),
               Some(if TruthyString(res.status) then res.status.value else "Unknown"))
  }

  /** The merge: one entry per test case of the problem, whatever the number
      of results; entry i takes result i when there is one. */
  function MergeResults(testCases: seq<TestCase>, results: seq<CaseResult>): (views: seq<CaseView>)
    ensures |views| == |testCases|
    ensures forall i :: 0 <= i < |views| ==>
              views[i] == MergeOne(testCases[i], if i < |results| then Some(results[i]) else None)
  {
    seq(|testCases|, i requires 0 <= i < |testCases| =>
      MergeOne(testCases[i], if i < |results| then Some(results[i]) else None))
  }

  /** The merge runs only when the submission has results and the problem
      has test cases; otherwise the panel keeps what it shows. */
  function AfterSubmission(current: seq<CaseView>, results: Option<seq<CaseResult>>,
                           testCases: Option<seq<TestCase>>): (views: seq<CaseView>)
    ensures results.None? || testCases.None? ==> views == current
    ensures results.Some? && testCases.Some? ==> views == MergeResults(testCases.value, results.value)
  {
    if results.Some? && testCases.Some? then MergeResults(testCases.value, results.value) else current
  }

  /** A result that says nothing leaves the fallbacks: the expected output,
      "No output", not passed and "Unknown". */
  lemma EmptyResultFallbacks(tc: TestCase)
    ensures MergeOne(tc, Some(CaseResult(None, Some(""), None, None)))
            == CaseView(tc.input, tc.output, Some(tc.output), Some("No output"), Some(false), Some("Unknown"))
  {
  }

  function Inputs(testCases: seq<TestCase>): seq<string> {
    seq(|testCases|, i requires 0 <= i < |testCases| => testCases[i].input)
  }

  function ExpectedOutputs(testCases: seq<TestCase>): seq<string> {
    seq(|testCases|, i requires 0 <= i < |testCases| => testCases[i].output)
  }

  /** The stdin list and the expected-output list sent with a run are index
      aligned: zipping them back gives the test cases. */
  lemma RunListsAligned(testCases: seq<TestCase>)
    ensures |Inputs(testCases)| == |ExpectedOutputs(testCases)| == |testCases|
    ensures seq(|testCases|, i requires 0 <= i < |testCases| =>
              TestCase(Inputs(testCases)[i], ExpectedOutputs(testCases)[i])) == testCases
  {
  }

  /** `displayTestCases`: the panel's cases when there are any, else the
      problem's own cases (with no result fields), else none. */
  function DisplayTestCases(panel: seq<CaseView>, problemCases: Option<seq<TestCase>>): (shown: seq<CaseView>)
    ensures panel != [] ==> shown == panel
    ensures panel == [] && problemCases.None? ==> shown == []
    ensures panel == [] && problemCases.Some? ==> |shown| == |problemCases.value|
    ensures panel == [] && problemCases.Some? ==>
              forall i :: 0 <= i < |shown| ==>
                shown[i] == CaseView(problemCases.value[i].input, problemCases.value[i].output, None, None, None, None)
  {
    if panel != [] then panel
    else match problemCases
      case None => []
      case Some(tcs) => seq(|tcs|, i requires 0 <= i < |tcs| => CaseView(tcs[i].input, tcs[i].output, None, None, None, None))
  }

  /** The code a language change shows: that language's snippet, "" without one. */
  function CodeForLanguage(snippets: Option<map<string, string>>, language: string): (code: string)
    ensures snippets.Some? && language in snippets.value ==> code == snippets.value[language]
    ensures snippets.None? || language !in snippets.value ==> code == []
  {
    if snippets.Some? && language in snippets.value then snippets.value[language] else []
  }

  /** The code set when the problem loads: the snippet for the uppercased
      language, else the last submission's source, else "". */
  function InitialCode(snippets: Option<map<string, string>>, language: string, lastSource: Option<string>): (code: string)
    ensures var key := ToUpper(language);
            (snippets.Some? && key in snippets.value && snippets.value[key] != [] ==> code == snippets.value[key])
            && ((snippets.None? || key !in snippets.value || snippets.value[key] == []) ==>
                  code == if lastSource.Some? && lastSource.value != [] then lastSource.value else [])
  {
    var key := ToUpper(language);
    if snippets.Some? && key in snippets.value && snippets.value[key] != [] then snippets.value[key]
    else if lastSource.Some? && lastSource.value != [] then lastSource.value
    else []
  }

  /** The language menu label: the first character uppercased, the rest lowercased. */
  function MenuLabel(language: string): (name: string)
    ensures |name| == |language|
    ensures language != [] ==> name[0] == UpperChar(language[0]) && name[1..] == ToLower(language[1..])
  {
    if language == [] then [] else [UpperChar(language[0])] + ToLower(language[1..])
  }

  lemma MenuLabelIdempotent(language: string)
    ensures MenuLabel(MenuLabel(language)) == MenuLabel(language)
  {
    if language != [] {
      var once := MenuLabel(language);
      ToLowerIdempotent(language[1..]);
      assert once[1..] == ToLower(language[1..]);
      assert MenuLabel(once) == [UpperChar(once[0])] + ToLower(once[1..]);
    }
  }

  /** On a key that does not start with a lowercase letter (the snippet keys
      are uppercase), the menu label is the label the profile page shows. */
  lemma MenuLabelMatchesProfile(language: string)
    requires language != [] ==> !('a' <= language[0] <= 'z')
    ensures MenuLabel(language) == Profile.LanguageLabel(language)
  {
  }

  /** For an uppercase language with a snippet, loading the problem and
      choosing the language show the same code. */
  lemma InitialCodeMatchesLanguageChange(snippets: map<string, string>, language: string, lastSource: Option<string>)
    requires ToUpper(language) == language
    requires language in snippets && snippets[language] != []
    ensures InitialCode(Some(snippets), language, lastSource) == CodeForLanguage(Some(snippets), language)
  {
  }
}
