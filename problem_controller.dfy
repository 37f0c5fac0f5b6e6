/** Reference-solution validation in the problem controller: before a problem
    is created or updated, every reference solution must be accepted by the
    judge on every test case. The judge's language table, its batch-submit
    call and its batch-poll call are inputs of the model. */
module ProblemController {
  import opened Wrappers
  import JsText

  /** Judge status id meaning "Accepted". */
  const ACCEPTED := 3

  datatype TestCase = TestCase(input: string, output: string)

  /** One element of the batch posted to the judge. */
  datatype Submission = Submission(sourceCode: string, languageId: int, stdin: string, expectedOutput: string)

  /** One element of the judge's reply to a batch submit. */
  datatype SubmitReply = SubmitReply(token: string)

  /** One polled result; the controller reads only `status.id`. */
  datatype JudgeResult = JudgeResult(statusId: int)

  /** The judge as the controller reaches it: `getJudge0LanguageId` as a
      partial table, `submitBatch` and `pollBatchResults` as functions. */
  datatype Judge = Judge(
    languageIds: map<string, int>,
    submitBatch: seq<Submission> -> seq<SubmitReply>,
    pollBatchResults: seq<string> -> seq<JudgeResult>)

  /** Outcome of validation: every solution passed, or the status and message
      of the `ApiError` thrown. */
  datatype Outcome = Pass | Fail(status: int, message: string)

  /** A problem as posted; `referenceSolutions` is listed in the order
      `Object.entries` yields it. */
  datatype ProblemBody = ProblemBody(
    title: string,
    description: string,
    difficulty: string,
    tags: seq<string>,
    constraints: string,
    testCases: seq<TestCase>,
    codeSnippets: map<string, string>,
    referenceSolutions: seq<(string, string)>)

  datatype User = User(id: string, role: string)

  /** What the handler ends with: a row written to the database and a 201
      response, or a thrown `ApiError`. */
  datatype HandlerResult = Saved(record: ProblemBody, userId: string, status: int, message: string)
                         | Thrown(status: int, message: string)

  /** `getJudge0LanguageId(language)` read through `!languageId`: a missing
      entry and the falsy id 0 are both "not supported". */
  function LanguageId(judge: Judge, language: string): (r: Option<int>)
    ensures r.Some? <==> language in judge.languageIds && judge.languageIds[language] != 0
    ensures r.Some? ==> r.value == judge.languageIds[language]
  {
    if language in judge.languageIds && judge.languageIds[language] != 0
    then Some(judge.languageIds[language]) else None
  }

  /** `testCases.map(...)`: one submission per test case, in test-case order. */
  function BuildSubmissions(code: string, languageId: int, testCases: seq<TestCase>): (subs: seq<Submission>)
    ensures |subs| == |testCases|
    ensures forall i :: 0 <= i < |subs| ==>
      subs[i] == Submission(code, languageId, testCases[i].input, testCases[i].output)
  {
    if testCases == [] then []
    else [Submission(code, languageId, testCases[0].input, testCases[0].output)]
         + BuildSubmissions(code, languageId, testCases[1..])
  }

  /** The test cases a batch was built from, read back off its submissions. */
  function TestCasesOf(subs: seq<Submission>): seq<TestCase> {
    seq(|subs|, i requires 0 <= i < |subs| => TestCase(subs[i].stdin, subs[i].expectedOutput))
  }

  /** A batch carries its test cases unchanged, and only the one program and
      language id. */
  lemma BatchRoundTrip(code: string, languageId: int, testCases: seq<TestCase>)
    ensures TestCasesOf(BuildSubmissions(code, languageId, testCases)) == testCases
    ensures forall s :: s in BuildSubmissions(code, languageId, testCases) ==>
      s.sourceCode == code && s.languageId == languageId
  {
  }

  /** `submissionResults.map((res) => res.token)`. */
  function Tokens(replies: seq<SubmitReply>): (tokens: seq<string>)
    ensures |tokens| == |replies|
    ensures forall i :: 0 <= i < |replies| ==> tokens[i] == replies[i].token
  {
    if replies == [] then [] else [replies[0].token] + Tokens(replies[1..])
  }

  /** The polled results for one language's batch. */
  function ResultsFor(judge: Judge, code: string, languageId: int, testCases: seq<TestCase>): seq<JudgeResult> {
    judge.pollBatchResults(Tokens(judge.submitBatch(BuildSubmissions(code, languageId, testCases))))
  }

  /** The lowest index whose status id is not Accepted. */
  function FirstFailure(results: seq<JudgeResult>): (r: Option<nat>)
    ensures r.None? <==> forall i :: 0 <= i < |results| ==> results[i].statusId == ACCEPTED
    ensures r.Some? ==> r.value < |results| && results[r.value].statusId != ACCEPTED
                        && forall j :: 0 <= j < r.value ==> results[j].statusId == ACCEPTED
  {
    if results == [] then None
    else if results[0].statusId != ACCEPTED then Some(0)
    else match FirstFailure(results[1..])
         case None => None
         case Some(k) => Some(k + 1)
  }

  function UnsupportedMessage(language: string): string {
    language + " Language is not supported"
  }

  function FailedMessage(index: nat, language: string): string {
    "Testcase " + JsText.DecimalString(index + 1) + " failed for language " + language
  }

  /** The loop body for one `(language, solutionCode)` entry: every rejection
      is a 400. */
  function CheckLanguage(judge: Judge, entry: (string, string), testCases: seq<TestCase>): (o: Outcome)
    ensures o.Fail? ==> o.status == 400
  {
    var (language, code) := entry;
    match LanguageId(judge, language)
    case None => Fail(400, UnsupportedMessage(language))
    case Some(id) =>
      match FirstFailure(ResultsFor(judge, code, id, testCases))
      case Some(i) => Fail(400, FailedMessage(i, language))
      case None => Pass
  }

  /** The whole `for...of` loop: entries in order, the first failure wins;
      every rejection is a 400. */
  function ValidateAll(judge: Judge, entries: seq<(string, string)>, testCases: seq<TestCase>): (o: Outcome)
    ensures o.Fail? ==> o.status == 400
  {
    if entries == [] then Pass
    else match CheckLanguage(judge, entries[0], testCases)
         case Pass => ValidateAll(judge, entries[1..], testCases)
         case Fail(s, m) => Fail(s, m)
  }

  /** A rejection of the whole loop is the rejection of one of its entries,
      every entry before it having passed. */
  lemma {:induction false} ValidateAllFailsAtEntry(judge: Judge, entries: seq<(string, string)>, testCases: seq<TestCase>)
    requires ValidateAll(judge, entries, testCases).Fail?
    ensures exists k :: 0 <= k < |entries| && CheckLanguage(judge, entries[k], testCases) == ValidateAll(judge, entries, testCases)
                        && forall j :: 0 <= j < k ==> CheckLanguage(judge, entries[j], testCases) == Pass
  {
    if CheckLanguage(judge, entries[0], testCases).Pass? {
      ValidateAllFailsAtEntry(judge, entries[1..], testCases);
      var k :| 0 <= k < |entries| - 1 && CheckLanguage(judge, entries[1..][k], testCases) == ValidateAll(judge, entries[1..], testCases)
               && forall j :: 0 <= j < k ==> CheckLanguage(judge, entries[1..][j], testCases) == Pass;
      assert forall j :: 0 <= j < k ==> entries[1..][j] == entries[j + 1];
      assert CheckLanguage(judge, entries[k + 1], testCases) == ValidateAll(judge, entries, testCases);
      assert forall j :: 0 <= j < k + 1 ==> CheckLanguage(judge, entries[j], testCases) == Pass by {
        forall j | 0 <= j < k + 1 ensures CheckLanguage(judge, entries[j], testCases) == Pass {
          if j > 0 { assert entries[j] == entries[1..][j - 1]; }
        }
      }
    }
  }

  /** The batches that reach `submitBatch`, in order. */
  function SubmittedBatches(judge: Judge, entries: seq<(string, string)>, testCases: seq<TestCase>): seq<seq<Submission>> {
    if entries == [] then []
    else BatchOf(judge, entries[0], testCases) + (if CheckLanguage(judge, entries[0], testCases).Pass?
              then SubmittedBatches(judge, entries[1..], testCases) else [])
  }

  /** Every status id of one language's results is Accepted. */
  ghost predicate LanguageAccepted(judge: Judge, entry: (string, string), testCases: seq<TestCase>) {
    LanguageId(judge, entry.0).Some?
    && var results := ResultsFor(judge, entry.1, LanguageId(judge, entry.0).value, testCases);
       forall i :: 0 <= i < |results| ==> results[i].statusId == ACCEPTED
  }

  lemma CheckLanguagePassIff(judge: Judge, entry: (string, string), testCases: seq<TestCase>)
    ensures CheckLanguage(judge, entry, testCases) == Pass <==> LanguageAccepted(judge, entry, testCases)
  {
  }

  /** Validation passes iff every language resolves and every polled result of
      every language is Accepted. */
  lemma {:induction false} ValidateAllPassIff(judge: Judge, entries: seq<(string, string)>, testCases: seq<TestCase>)
    ensures ValidateAll(judge, entries, testCases) == Pass
            <==> forall k :: 0 <= k < |entries| ==> LanguageAccepted(judge, entries[k], testCases)
  {
    if entries != [] {
      CheckLanguagePassIff(judge, entries[0], testCases);
      ValidateAllPassIff(judge, entries[1..], testCases);
      assert forall k :: 1 <= k < |entries| ==> entries[k] == entries[1..][k - 1];
    }
  }

  /** When entry `k` is the first to fail, its failure is the outcome. */
  lemma {:induction false} FirstFailingEntryDecides(judge: Judge, entries: seq<(string, string)>, testCases: seq<TestCase>, k: nat)
    requires k < |entries|
    requires forall j :: 0 <= j < k ==> CheckLanguage(judge, entries[j], testCases) == Pass
    requires CheckLanguage(judge, entries[k], testCases).Fail?
    ensures ValidateAll(judge, entries, testCases) == CheckLanguage(judge, entries[k], testCases)
    ensures SubmittedBatches(judge, entries, testCases) == SubmittedBatches(judge, entries[..k + 1], testCases)
  {
    if k > 0 {
      assert forall j :: 0 <= j < k - 1 ==> entries[1..][j] == entries[j + 1];
      FirstFailingEntryDecides(judge, entries[1..], testCases, k - 1);
      assert entries[..k + 1][1..] == entries[1..][..k];
    }
  }

  /** A language without a judge id rejects with 400 and names the language. */
  lemma UnsupportedLanguageRejects(judge: Judge, entries: seq<(string, string)>, testCases: seq<TestCase>, k: nat)
    requires k < |entries|
    requires forall j :: 0 <= j < k ==> CheckLanguage(judge, entries[j], testCases) == Pass
    requires LanguageId(judge, entries[k].0).None?
    ensures ValidateAll(judge, entries, testCases) == Fail(400, entries[k].0 + " Language is not supported")
  {
    FirstFailingEntryDecides(judge, entries, testCases, k);
  }

  /** The lowest non-Accepted result of a language rejects with 400, its
      1-based index and the language. */
  lemma FailingTestCaseRejects(judge: Judge, entries: seq<(string, string)>, testCases: seq<TestCase>, k: nat, i: nat)
    requires k < |entries|
    requires forall j :: 0 <= j < k ==> CheckLanguage(judge, entries[j], testCases) == Pass
    requires LanguageId(judge, entries[k].0).Some?
    requires var results := ResultsFor(judge, entries[k].1, LanguageId(judge, entries[k].0).value, testCases);
             i < |results| && results[i].statusId != ACCEPTED
             && forall j :: 0 <= j < i ==> results[j].statusId == ACCEPTED
    ensures ValidateAll(judge, entries, testCases)
            == Fail(400, "Testcase " + JsText.DecimalString(i + 1) + " failed for language " + entries[k].0)
  {
    var results := ResultsFor(judge, entries[k].1, LanguageId(judge, entries[k].0).value, testCases);
    var first := FirstFailure(results);
    assert first == Some(i);
    assert CheckLanguage(judge, entries[k], testCases) == Fail(400, FailedMessage(i, entries[k].0));
    FirstFailingEntryDecides(judge, entries, testCases, k);
  }

  /** Every submitted batch belongs to an entry that was examined: at most
      one per language, and none after the first failing one. */
  lemma {:induction false} SubmittedBatchesBound(judge: Judge, entries: seq<(string, string)>, testCases: seq<TestCase>)
    ensures |SubmittedBatches(judge, entries, testCases)| <= |entries|
  {
    if entries != [] { SubmittedBatchesBound(judge, entries[1..], testCases); }
  }

  /** The batch one entry submits, if its language resolves. */
  function BatchOf(judge: Judge, entry: (string, string), testCases: seq<TestCase>): seq<seq<Submission>> {
    match LanguageId(judge, entry.0)
    case None => []
    case Some(id) => [BuildSubmissions(entry.1, id, testCases)]
  }

  /** One step of the loop over entries, read off the recursive definitions. */
  lemma UnfoldEntries(judge: Judge, rest: seq<(string, string)>, testCases: seq<TestCase>)
    requires rest != []
    ensures CheckLanguage(judge, rest[0], testCases).Pass? ==>
      ValidateAll(judge, rest, testCases) == ValidateAll(judge, rest[1..], testCases)
      && SubmittedBatches(judge, rest, testCases)
         == BatchOf(judge, rest[0], testCases) + SubmittedBatches(judge, rest[1..], testCases)
    ensures CheckLanguage(judge, rest[0], testCases).Fail? ==>
      ValidateAll(judge, rest, testCases) == CheckLanguage(judge, rest[0], testCases)
      && SubmittedBatches(judge, rest, testCases) == BatchOf(judge, rest[0], testCases)
  {
  }

  /** `UnfoldEntries` at position `n` of the entries. */
  lemma EntryStep(judge: Judge, entries: seq<(string, string)>, testCases: seq<TestCase>, n: nat)
    requires n < |entries|
    ensures CheckLanguage(judge, entries[n], testCases).Pass? ==>
      ValidateAll(judge, entries[n..], testCases) == ValidateAll(judge, entries[n + 1..], testCases)
      && SubmittedBatches(judge, entries[n..], testCases)
         == BatchOf(judge, entries[n], testCases) + SubmittedBatches(judge, entries[n + 1..], testCases)
    ensures CheckLanguage(judge, entries[n], testCases).Fail? ==>
      ValidateAll(judge, entries[n..], testCases) == CheckLanguage(judge, entries[n], testCases)
      && SubmittedBatches(judge, entries[n..], testCases) == BatchOf(judge, entries[n], testCases)
  {
    UnfoldEntries(judge, entries[n..], testCases);
    assert entries[n..][1..] == entries[n + 1..];
  }

  /** The indexed loop over one language's polled results: the index of the
      first result that is not Accepted, if any. */
  method ScanResults(results: seq<JudgeResult>) returns (failure: Option<nat>)
    ensures failure == FirstFailure(results)
  {
    var i := 0;
    while i < |results|
      invariant 0 <= i <= |results|
      invariant forall j :: 0 <= j < i ==> results[j].statusId == ACCEPTED
    {
      if results[i].statusId != ACCEPTED {
        return Some(i);
      }
      i := i + 1;
    }
    return None;
  }

  /** The body of the loop over entries for one `(language, solutionCode)`:
      resolve the language, submit one batch, poll it and scan the results. */
  method CheckEntry(judge: Judge, entry: (string, string), testCases: seq<TestCase>)
    returns (outcome: Outcome, batch: seq<seq<Submission>>)
    ensures outcome == CheckLanguage(judge, entry, testCases)
    ensures batch == BatchOf(judge, entry, testCases)
  {
    var language, code := entry.0, entry.1;
    var languageId := LanguageId(judge, language);
    if languageId.None? {
      return Fail(400, UnsupportedMessage(language)), [];
    }
    var submissions := BuildSubmissions(code, languageId.value, testCases);
    var submissionResults := judge.submitBatch(submissions);
    var tokens := Tokens(submissionResults);
    var results := judge.pollBatchResults(tokens);
    assert results == ResultsFor(judge, code, languageId.value, testCases);
    var failure := ScanResults(results);
    if failure.Some? {
      outcome := Fail(400, FailedMessage(failure.value, language));
    } else {
      outcome := Pass;
    }
    batch := [submissions];
  }

  /** The loop over entries of `createProblem` and `updateProblemById`: each
      entry in order, and a return at the first failure. */
  method ValidateReferenceSolutions(judge: Judge, entries: seq<(string, string)>, testCases: seq<TestCase>)
    returns (outcome: Outcome, batches: seq<seq<Submission>>)
    ensures outcome == ValidateAll(judge, entries, testCases)
    ensures batches == SubmittedBatches(judge, entries, testCases)
  {
    batches := [];
    var n := 0;
    while n < |entries|
      invariant 0 <= n <= |entries|
      invariant ValidateAll(judge, entries, testCases) == ValidateAll(judge, entries[n..], testCases)
      invariant SubmittedBatches(judge, entries, testCases) == batches + SubmittedBatches(judge, entries[n..], testCases)
    {
      var result, batch := CheckEntry(judge, entries[n], testCases);
      EntryStep(judge, entries, testCases, n);
      batches := batches + batch;
      if result.Fail? {
        return result, batches;
      }
      n := n + 1;
    }
    outcome := Pass;
  }

  /** `createProblem`: only an ADMIN may create; then validation; the row is
      written only when validation passed. */
  method CreateProblem(user: User, body: ProblemBody, judge: Judge)
    returns (result: HandlerResult, batches: seq<seq<Submission>>)
    ensures user.role != "ADMIN" ==>
      result == Thrown(403, "You are not allowed to create a problem") && batches == []
    ensures user.role == "ADMIN" ==>
      batches == SubmittedBatches(judge, body.referenceSolutions, body.testCases)
    ensures result.Saved? <==>
      user.role == "ADMIN" && ValidateAll(judge, body.referenceSolutions, body.testCases) == Pass
    ensures result.Saved? ==> result == Saved(body, user.id, 201, "Problem created successfully")
    ensures result.Thrown? && user.role == "ADMIN" ==>
      ValidateAll(judge, body.referenceSolutions, body.testCases) == Fail(result.status, result.message)
  {
    if user.role != "ADMIN" {
      return Thrown(403, "You are not allowed to create a problem"), [];
    }
    var outcome;
    outcome, batches := ValidateReferenceSolutions(judge, body.referenceSolutions, body.testCases);
    if outcome.Fail? {
      return Thrown(outcome.status, outcome.message), batches;
    }
    result := Saved(body, user.id, 201, "Problem created successfully");
  }

  /** `updateProblemById`: an unknown id is a 404 before any validation; then
      the same validation as creation, and the update only when it passed. */
  method UpdateProblem(existing: bool, user: User, body: ProblemBody, judge: Judge)
    returns (result: HandlerResult, batches: seq<seq<Submission>>)
    ensures !existing ==> result == Thrown(404, "Problem not found") && batches == []
    ensures existing ==> batches == SubmittedBatches(judge, body.referenceSolutions, body.testCases)
    ensures result.Saved? <==>
      existing && ValidateAll(judge, body.referenceSolutions, body.testCases) == Pass
    ensures result.Saved? ==> result == Saved(body, user.id, 201, "Problem created successfully")
    ensures result.Thrown? && existing ==>
      ValidateAll(judge, body.referenceSolutions, body.testCases) == Fail(result.status, result.message)
  {
    if !existing {
      return Thrown(404, "Problem not found"), [];
    }
    var outcome;
    outcome, batches := ValidateReferenceSolutions(judge, body.referenceSolutions, body.testCases);
    if outcome.Fail? {
      return Thrown(outcome.status, outcome.message), batches;
    }
    result := Saved(body, user.id, 201, "Problem created successfully");
  }
}
