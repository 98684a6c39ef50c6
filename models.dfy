/**
 * The stored records the core reads: questions with their test cases, and
 * submissions. Only the columns the core uses are kept; the schema module
 * itself (website/models.py) is not part of this model.
 */
module Models {

  /** One test case: the JSON text of the input and of the expected output. */
  datatype TestCase = TestCase(inputData: string, expectedOutput: string, isSample: bool)

  /** A question; `difficulty` is a text label ordered as text. */
  datatype Question = Question(id: int, difficulty: string, expectedMethod: string, testCases: seq<TestCase>)

  /** A stored submission; `result` is "Passed" or "Failed". */
  datatype Submission = Submission(userId: int, questionId: int, code: string, result: string, language: string)

  /** `[test for test in tests if test.isSample]`. */
  function SampleTests(tests: seq<TestCase>): (samples: seq<TestCase>)
    ensures |samples| <= |tests|
    ensures forall t :: t in samples <==> t in tests && t.isSample
  {
    if tests == [] then []
    else if tests[0].isSample then [tests[0]] + SampleTests(tests[1..])
    else SampleTests(tests[1..])
  }

  /** Filtering keeps the order: the samples of two runs of tests are those of each in turn. */
  lemma {:induction false} SampleTestsAppend(a: seq<TestCase>, b: seq<TestCase>)
    ensures SampleTests(a + b) == SampleTests(a) + SampleTests(b)
  {
    if a != [] {
      assert (a + b)[1..] == a[1..] + b;
      SampleTestsAppend(a[1..], b);
    } else {
      assert a + b == b;
    }
  }

  /** A list of sample cases is its own sample list. */
  lemma {:induction false} SampleTestsAllSamples(tests: seq<TestCase>)
    requires forall k :: 0 <= k < |tests| ==> tests[k].isSample
    ensures SampleTests(tests) == tests
  {
    if tests != [] {
      assert tests[0].isSample;
      SampleTestsAllSamples(tests[1..]);
      assert [tests[0]] + tests[1..] == tests;
    }
  }

  /** A list without sample cases has none to show. */
  lemma {:induction false} SampleTestsNoSamples(tests: seq<TestCase>)
    requires forall k :: 0 <= k < |tests| ==> !tests[k].isSample
    ensures SampleTests(tests) == []
  {
    if tests != [] {
      assert !tests[0].isSample;
      SampleTestsNoSamples(tests[1..]);
    }
  }
}
