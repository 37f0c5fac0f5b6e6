/** The create-problem form: the `problemSchema` validator, the two sample
    problems, the default values and the choice of sample to load. */
module ProblemForm {
  import opened Wrappers

  /** The three languages the schema demands an entry for. */
  const LANGUAGES: seq<string> := ["JAVASCRIPT", "PYTHON", "JAVA"]

  const DIFFICULTIES: seq<string> := ["EASY", "MEDIUM", "HARD"]

  datatype Example = Example(input: Option<string>, output: Option<string>, explanation: Option<string>)

  datatype TestCaseField = TestCaseField(input: Option<string>, output: Option<string>)

  /** The form values; a field the form never filled in is `None`.
      `category` is carried by one sample but is not in the schema. */
  datatype ProblemValues = ProblemValues(
    title: Option<string>,
    category: Option<string>,
    description: Option<string>,
    difficulty: Option<string>,
    tags: Option<seq<string>>,
    constraints: Option<string>,
    hints: Option<string>,
    editorial: Option<string>,
    testCases: Option<seq<TestCaseField>>,
    examples: Option<map<string, Example>>,
    codeSnippets: Option<map<string, string>>,
    referenceSolutions: Option<map<string, string>>)

  /** `z.string().min(n)`: present and at least `n` characters long. */
  predicate MinLength(v: Option<string>, n: nat) {
    v.Some? && |v.value| >= n
  }

  /** One step of an issue path, as the validator reports it: a field or
      map key, or an array index. */
  datatype PathPart = Key(name: string) | Index(i: nat)

  type Path = seq<PathPart>

  // The schema as a list of failing paths, in the order the fields are
  // declared; the form is accepted when the list is empty.

  function Check(ok: bool, path: Path): seq<Path> {
    if ok then [] else [path]
  }

  function TestCaseIssues(cases: seq<TestCaseField>, from: nat): seq<Path>
    decreases |cases|
  {
    if cases == [] then []
    else
      Check(MinLength(cases[0].input, 1), [Key("testCases"), Index(from), Key("input")])
      + Check(MinLength(cases[0].output, 1), [Key("testCases"), Index(from), Key("output")])
      + TestCaseIssues(cases[1..], from + 1)
  }

  /** The example object of one language: it must exist and have an input
      and an output. */
  function ExampleIssues(examples: map<string, Example>, lang: string): seq<Path> {
    if lang !in examples then [[Key("examples"), Key(lang)]]
    else Check(MinLength(examples[lang].input, 1), [Key("examples"), Key(lang), Key("input")])
         + Check(MinLength(examples[lang].output, 1), [Key("examples"), Key(lang), Key("output")])
  }

  /** The program of one language in a code map: present and non-empty. */
  function CodeIssues(field: string, code: map<string, string>, lang: string): seq<Path> {
    Check(lang in code && |code[lang]| >= 1, [Key(field), Key(lang)])
  }

  /** The paths of the five plain fields that fail. */
  function FieldIssues(v: ProblemValues): seq<Path> {
    Check(MinLength(v.title, 3), [Key("title")])
    + Check(MinLength(v.description, 10), [Key("description")])
    + Check(v.difficulty.Some? && v.difficulty.value in DIFFICULTIES, [Key("difficulty")])
    + Check(v.tags.Some? && |v.tags.value| >= 1, [Key("tags")])
    + Check(MinLength(v.constraints, 1), [Key("constraints")])
  }

  function TestCasesIssues(testCases: Option<seq<TestCaseField>>): seq<Path> {
    match testCases
    case None => [[Key("testCases")]]
    case Some(cs) => Check(|cs| >= 1, [Key("testCases")]) + TestCaseIssues(cs, 0)
  }

  function ExamplesIssues(examples: Option<map<string, Example>>): seq<Path> {
    match examples
    case None => [[Key("examples")]]
    case Some(m) => ExampleIssues(m, "JAVASCRIPT") + ExampleIssues(m, "PYTHON") + ExampleIssues(m, "JAVA")
  }

  function CodeMapIssues(field: string, code: Option<map<string, string>>): seq<Path> {
    match code
    case None => [[Key(field)]]
    case Some(m) => CodeIssues(field, m, "JAVASCRIPT") + CodeIssues(field, m, "PYTHON") + CodeIssues(field, m, "JAVA")
  }

  /** Every path at which `problemSchema` reports an issue: none exactly
      when every rule of the schema holds. */
  function Issues(v: ProblemValues): (r: seq<Path>)
    ensures r == [] <==> SchemaRules(v)
  {
    FieldIssuesEmpty(v);
    TestCasesIssuesEmpty(v.testCases);
    ExamplesIssuesEmpty(v.examples);
    CodeMapIssuesEmpty("codeSnippets", v.codeSnippets);
    CodeMapIssuesEmpty("referenceSolutions", v.referenceSolutions);
    FieldIssues(v)
    + TestCasesIssues(v.testCases)
    + ExamplesIssues(v.examples)
    + CodeMapIssues("codeSnippets", v.codeSnippets)
    + CodeMapIssues("referenceSolutions", v.referenceSolutions)
  }

  predicate Accepts(v: ProblemValues) {
    Issues(v) == []
  }

  // The schema stated rule by rule, independently of the issue list.

  ghost predicate FieldRules(v: ProblemValues) {
    && MinLength(v.title, 3)
    && MinLength(v.description, 10)
    && v.difficulty.Some? && v.difficulty.value in DIFFICULTIES
    && v.tags.Some? && |v.tags.value| >= 1
    && MinLength(v.constraints, 1)
  }

  ghost predicate TestCasesRule(testCases: Option<seq<TestCaseField>>) {
    testCases.Some? && |testCases.value| >= 1
    && forall i :: 0 <= i < |testCases.value| ==>
         MinLength(testCases.value[i].input, 1) && MinLength(testCases.value[i].output, 1)
  }

  ghost predicate ExamplesRule(examples: Option<map<string, Example>>) {
    examples.Some?
    && forall lang :: lang in LANGUAGES ==>
         lang in examples.value
         && MinLength(examples.value[lang].input, 1) && MinLength(examples.value[lang].output, 1)
  }

  ghost predicate CodeRule(code: Option<map<string, string>>) {
    code.Some? && forall lang :: lang in LANGUAGES ==> lang in code.value && |code.value[lang]| >= 1
  }

  ghost predicate SchemaRules(v: ProblemValues) {
    && FieldRules(v)
    && TestCasesRule(v.testCases)
    && ExamplesRule(v.examples)
    && CodeRule(v.codeSnippets)
    && CodeRule(v.referenceSolutions)
  }

  lemma {:induction false} TestCaseIssuesEmpty(cases: seq<TestCaseField>, from: nat)
    ensures TestCaseIssues(cases, from) == []
            <==> forall i :: 0 <= i < |cases| ==> MinLength(cases[i].input, 1) && MinLength(cases[i].output, 1)
    decreases |cases|
  {
    if cases != [] {
      TestCaseIssuesEmpty(cases[1..], from + 1);
      assert forall i :: 1 <= i < |cases| ==> cases[i] == cases[1..][i - 1];
    }
  }

  lemma FieldIssuesEmpty(v: ProblemValues)
    ensures FieldIssues(v) == [] <==> FieldRules(v)
  {
  }

  lemma TestCasesIssuesEmpty(testCases: Option<seq<TestCaseField>>)
    ensures TestCasesIssues(testCases) == [] <==> TestCasesRule(testCases)
  {
    if testCases.Some? { TestCaseIssuesEmpty(testCases.value, 0); }
  }

  lemma ExamplesIssuesEmpty(examples: Option<map<string, Example>>)
    ensures ExamplesIssues(examples) == [] <==> ExamplesRule(examples)
  {
    if examples.Some? {
      assert forall lang :: lang in LANGUAGES <==> lang == "JAVASCRIPT" || lang == "PYTHON" || lang == "JAVA";
    }
  }

  lemma CodeMapIssuesEmpty(field: string, code: Option<map<string, string>>)
    ensures CodeMapIssues(field, code) == [] <==> CodeRule(code)
  {
    if code.Some? {
      assert forall lang :: lang in LANGUAGES <==> lang == "JAVASCRIPT" || lang == "PYTHON" || lang == "JAVA";
    }
  }

  /** Only presence counts for a test case: a one-space input is valid, and so
      is a single empty tag. */
  lemma WhitespaceAndEmptyTagAllowed(v: ProblemValues)
    requires v.testCases == Some([TestCaseField(Some(" "), Some("true"))])
    requires v.tags == Some([""])
    ensures TestCasesRule(v.testCases)
    ensures v.tags.Some? && |v.tags.value| >= 1
  {
  }

  // The two sample problems. Each text stands for the original's by its
  // opening words, and each program by its first line: the schema only asks
  // that these be present and non-empty (the description at least 10
  // characters long).

  const DP_DESCRIPTION := "You are climbing a staircase."
  const DP_HINTS := "To reach the nth step,"
  const DP_EDITORIAL := "This is a classic dynamic programming problem."
  const DP_TEST_CASES := [TestCaseField(Some("2"), Some("2")), TestCaseField(Some("3"), Some("3")),
                          TestCaseField(Some("4"), Some("5"))]
  const DP_EXAMPLES := map[
    "JAVASCRIPT" := Example(Some("n = 2"), Some("2"), Some("There are two ways to climb to the top:")),
    "PYTHON" := Example(Some("n = 3"), Some("3"), Some("There are three ways to climb to the top:")),
    "JAVA" := Example(Some("n = 4"), Some("5"), Some("There are five ways to climb to the top:"))]
  const DP_SNIPPETS := map[
    "JAVASCRIPT" := "/**",
    "PYTHON" := "class Solution:",
    "JAVA" := "import java.util.Scanner;"]
  const DP_SOLUTIONS := map[
    "JAVASCRIPT" := "/**",
    "PYTHON" := "class Solution:",
    "JAVA" := "import java.util.Scanner;"]

  function SampleDp(): ProblemValues {
    ProblemValues(
      title := Some("Climbing Stairs"),
      category := Some("dp"),
      description := Some(DP_DESCRIPTION),
      difficulty := Some("EASY"),
      tags := Some(["Dynamic Programming", "Math", "Memoization"]),
      constraints := Some("1 <= n <= 45"),
      hints := Some(DP_HINTS),
      editorial := Some(DP_EDITORIAL),
      testCases := Some(DP_TEST_CASES),
      examples := Some(DP_EXAMPLES),
      codeSnippets := Some(DP_SNIPPETS),
      referenceSolutions := Some(DP_SOLUTIONS))
  }

  const STRING_DESCRIPTION := "A phrase is a palindrome if,"
  const STRING_CONSTRAINTS := "1 <= s.length <= 2 * 10^5"
  const STRING_HINTS := "Consider using two pointers,"
  const STRING_EDITORIAL := "We can use two pointers approach"
  const STRING_TEST_CASES := [TestCaseField(Some("A man, a plan, a canal: Panama"), Some("true")),
                              TestCaseField(Some("race a car"), Some("false")),
                              TestCaseField(Some(" "), Some("true"))]
  const STRING_EXAMPLE := Example(Some("s = \"A man, a plan, a canal: Panama\""), Some("true"),
                                  Some("\"amanaplanacanalpanama\""))
  const STRING_SNIPPETS := map[
    "JAVASCRIPT" := "/**",
    "PYTHON" := "class Solution:",
    "JAVA" := "import java.util.Scanner;"]
  const STRING_SOLUTIONS := map[
    "JAVASCRIPT" := "/**",
    "PYTHON" := "class Solution:",
    "JAVA" := "import java.util.Scanner;"]

  function SampleString(): ProblemValues {
    ProblemValues(
      title := Some("Valid Palindrome"),
      category := None,
      description := Some(STRING_DESCRIPTION),
      difficulty := Some("EASY"),
      tags := Some(["String", "Two Pointers"]),
      constraints := Some(STRING_CONSTRAINTS),
      hints := Some(STRING_HINTS),
      editorial := Some(STRING_EDITORIAL),
      testCases := Some(STRING_TEST_CASES),
      examples := Some(map["JAVASCRIPT" := STRING_EXAMPLE, "PYTHON" := STRING_EXAMPLE, "JAVA" := STRING_EXAMPLE]),
      codeSnippets := Some(STRING_SNIPPETS),
      referenceSolutions := Some(STRING_SOLUTIONS))
  }

  const BLANK_EXAMPLE := Example(Some(""), Some(""), Some(""))
  const DEFAULT_SNIPPETS := map[
    "JAVASCRIPT" := "function solution() {\n  // Write your code here\n}",
    "PYTHON" := "def solution():\n    # Write your code here\n    pass",
    "JAVA" := "public class Solution {\n    public static void main(String[] args) {\n        // Write your code here\n    }\n}"]
  const DEFAULT_SOLUTIONS := map[
    "JAVASCRIPT" := "// Add your reference solution here",
    "PYTHON" := "# Add your reference solution here",
    "JAVA" := "// Add your reference solution here"]

  /** `defaultValues` of the form. */
  function Defaults(): ProblemValues {
    ProblemValues(
      title := None, category := None, description := None,
      difficulty := Some("EASY"),
      tags := Some([""]),
      constraints := None, hints := None, editorial := None,
      testCases := Some([TestCaseField(Some(""), Some(""))]),
      examples := Some(DEFAULT_EXAMPLES),
      codeSnippets := Some(DEFAULT_SNIPPETS),
      referenceSolutions := Some(DEFAULT_SOLUTIONS))
  }

  /** A value whose five parts report nothing is accepted. */
  lemma AcceptedByParts(v: ProblemValues)
    requires FieldIssues(v) == [] && TestCasesIssues(v.testCases) == [] && ExamplesIssues(v.examples) == []
    requires CodeMapIssues("codeSnippets", v.codeSnippets) == []
    requires CodeMapIssues("referenceSolutions", v.referenceSolutions) == []
    ensures Accepts(v)
  {
  }

  lemma DpPartsPass()
    ensures TestCasesIssues(Some(DP_TEST_CASES)) == [] && ExamplesIssues(Some(DP_EXAMPLES)) == []
    ensures CodeMapIssues("codeSnippets", Some(DP_SNIPPETS)) == []
    ensures CodeMapIssues("referenceSolutions", Some(DP_SOLUTIONS)) == []
  {
    TestCasesIssuesEmpty(Some(DP_TEST_CASES));
  }

  lemma StringPartsPass()
    ensures TestCasesIssues(Some(STRING_TEST_CASES)) == []
    ensures ExamplesIssues(Some(map["JAVASCRIPT" := STRING_EXAMPLE, "PYTHON" := STRING_EXAMPLE, "JAVA" := STRING_EXAMPLE])) == []
    ensures CodeMapIssues("codeSnippets", Some(STRING_SNIPPETS)) == []
    ensures CodeMapIssues("referenceSolutions", Some(STRING_SOLUTIONS)) == []
  {
    TestCasesIssuesEmpty(Some(STRING_TEST_CASES));
  }

  /** Both samples pass the schema; the extra `category` of the DP sample is
      not looked at. */
  lemma SampleDpAccepted()
    ensures Accepts(SampleDp())
  {
    DpPartsPass();
    AcceptedByParts(SampleDp());
  }

  lemma SampleStringAccepted()
    ensures Accepts(SampleString())
  {
    StringPartsPass();
    AcceptedByParts(SampleString());
  }

  /** `loadSampleData`: the DP sample exactly when "DP" is selected, the
      string sample for anything else. */
  function LoadSampleData(sampleType: string): (v: ProblemValues)
    ensures v.title == Some("Climbing Stairs") <==> sampleType == "DP"
    ensures sampleType != "DP" ==> v.title == Some("Valid Palindrome")
  {
    if sampleType == "DP" then SampleDp() else SampleString()
  }

  /** Whichever sample is loaded passes the schema. */
  lemma LoadedSampleAccepted(sampleType: string)
    ensures Accepts(LoadSampleData(sampleType))
  {
    if sampleType == "DP" { SampleDpAccepted(); } else { SampleStringAccepted(); }
  }

  const DEFAULT_EXAMPLES := map["JAVASCRIPT" := BLANK_EXAMPLE, "PYTHON" := BLANK_EXAMPLE, "JAVA" := BLANK_EXAMPLE]

  /** The issues of the blank examples: input and output of each language. */
  lemma DefaultExampleIssues()
    ensures ExamplesIssues(Some(DEFAULT_EXAMPLES)) == [
      [Key("examples"), Key("JAVASCRIPT"), Key("input")], [Key("examples"), Key("JAVASCRIPT"), Key("output")],
      [Key("examples"), Key("PYTHON"), Key("input")], [Key("examples"), Key("PYTHON"), Key("output")],
      [Key("examples"), Key("JAVA"), Key("input")], [Key("examples"), Key("JAVA"), Key("output")]]
  {
    var m := DEFAULT_EXAMPLES;
    assert ExampleIssues(m, "JAVASCRIPT") == [[Key("examples"), Key("JAVASCRIPT"), Key("input")], [Key("examples"), Key("JAVASCRIPT"), Key("output")]];
    assert ExampleIssues(m, "PYTHON") == [[Key("examples"), Key("PYTHON"), Key("input")], [Key("examples"), Key("PYTHON"), Key("output")]];
    assert ExampleIssues(m, "JAVA") == [[Key("examples"), Key("JAVA"), Key("input")], [Key("examples"), Key("JAVA"), Key("output")]];
  }

  lemma DefaultCodePasses()
    ensures CodeMapIssues("codeSnippets", Some(DEFAULT_SNIPPETS)) == []
    ensures CodeMapIssues("referenceSolutions", Some(DEFAULT_SOLUTIONS)) == []
  {
  }

  /** The defaults fail: title, description and constraints are missing, and
      the first test case and every example are blank. The code maps and the
      tags pass. */
  lemma DefaultsRejected()
    ensures !Accepts(Defaults())
    ensures Issues(Defaults())
            == [[Key("title")], [Key("description")], [Key("constraints")]]
               + [[Key("testCases"), Index(0), Key("input")], [Key("testCases"), Index(0), Key("output")]]
               + ExamplesIssues(Some(DEFAULT_EXAMPLES))
  {
    var v := Defaults();
    DefaultCodePasses();
    assert FieldIssues(v) == [[Key("title")], [Key("description")], [Key("constraints")]];
    assert TestCasesIssues(v.testCases) == [[Key("testCases"), Index(0), Key("input")], [Key("testCases"), Index(0), Key("output")]];
  }
}
