# DevReady core, modelled in Dafny

DevReady is a Flask site for interview practice. Users solve coding questions
in Python, JavaScript, TypeScript or Go. A remote runner service executes their
code against each question's test cases. The site picks the next question by
tag and difficulty, lets users change their e-mail address and password, and
asks an AI model for hints and for a complexity analysis of a submission.

This project models the four modules that hold that logic, and proves what they
promise:

- `execution.dfy` and `codegen.dfy` (website/code_execution.py).
  - `execute_code_with_test` turns one exchange with the runner into an
    `{output, stdout, stderr}` record. The exchange is an input value
    (`Exchange`), and the runner is a function from the posted payload to it.
  - `run_tests` is a loop over the test cases. It builds one redacted report per
    case and folds them into `all_passed`.
  - The two routes normalise the language token and store a "Passed"/"Failed"
    verdict.
  - `format_python`, `format_javascript` and `format_go` build the program text.
    The template layout is proved, along with the JavaScript catalog choice and
    the shape rules of the Go declaration. The Go `append` loops are methods.
- `questions.dfy` (website/questions.py).
  - The completed-question set.
  - The per-tag completion count, a loop that updates a map.
  - The minimum and the tags that reach it.
  - The easiest unpassed question of the chosen tag.
  - The order-preserving group-by of `get_all_tags_with_questions`, a loop that
    appends into per-tag lists.
- `settings.dfy` (website/settings.py). The two guard cascades of `new_email`
  and `new_password` are decision functions. Each ends in a method on a `User`
  class that updates one field.
- `ai_helper.dfy` (website/ai_helper.py).
  - The result shape of `generate_response`.
  - The input checks of both routes.
  - The `{`…`}` slice taken with `find`/`rfind`.
  - The "Unknown" defaults and the status of every error path.

Supporting modules:

- `wrappers.dfy`: `Option`.
- `text.dfy`: the Python string operations the core uses: `split`, `join`,
  `strip`, `lower`, `find`, `rfind`, slicing, `str(int)` and text ordering.
- `json.dfy`: JSON values as Python sees them after `json.loads`. It covers
  `dict.get`, truthiness, Python's `==` across `bool`/`int`/`float`, `str()`,
  and the `AttributeError` message. `json.loads`, `json.dumps`, float `repr`,
  string `repr` and the TypeScript type-stripping are fields of a `Runtime`
  value passed in as a parameter.
- `models.dfy`: the stored records (`TestCase`, `Question`, `Submission`) and
  sample filtering.

Nondeterminism stays nondeterministic:

- `random.choice` among the least-practised tags is a `:|` choice.
- SQL's `.first()` among questions tied on difficulty is a `:|` choice.

The postconditions hold for every possible choice.

Behaviour a reader might not expect, which the model follows as the code has it:

- A runner output that decodes to JSON but not to an object does not come back
  as plain stdout, although the comment at website/code_execution.py:73 says
  only that output which is not valid JSON is returned as plain output. It
  fails on `.get` and is reported as
  `Unexpected error: '<type>' object has no attribute 'get'`. The same happens
  for a truthy `stdout`/`stderr` field that is not a string (`.split`). See
  `Execution.NormalizeNonObject`.
- `generate_response` returns `(None, None)` when the model replies with no
  content, and `(content, None)` or `(None, message)` otherwise
  (`AiHelper.GenerateResponse`).
- The docstring of `get_next_question` (website/questions.py:72) promises the
  easiest unpassed question. The fallback (website/questions.py:120) is the
  easiest question of all, and it may be one the user already passed. Only the
  question picked from the chosen tag is guaranteed unpassed
  (`Questions.NextQuestion`).
- The `# Single integer` branch of `format_go` (website/code_execution.py:498-501)
  is nested under the dict branch and can never run. A top-level integer,
  boolean or null reaches the generic `interface{}` fallback
  (`CodeGen.GoScalarFallback`).
- In `run_code_samples`, `get_or_404` (website/code_execution.py:142) runs
  inside the route's own `try`, so a missing question is reported as a 500
  carrying the `NotFound` text, not as a 404. `submit_solution` looks the
  question up outside its `try` (website/code_execution.py:171) and answers a
  plain 404.
- `Question.difficulty` is a text column, so "easiest" means least in text
  order (`Text.LexLeq`).

## Model

| member | source | states |
|---|---|---|
| Execution.Normalize | website/code_execution.py:41-91 | Anything but a 200 answer gives no output, no stdout and exactly one stderr line. A non-null output comes only from a 200 answer whose stripped text decodes to an object |
| Execution.NormalizeFailures | website/code_execution.py:49-91 | A transport failure, any other exception, and a non-200 status each give no output, no stdout, and a one-line stderr with prefix "Request failed: ", "Unexpected error: " or "Code execution service error: " |
| Execution.NormalizeEnvelope | website/code_execution.py:61-71 | For a decoded envelope object, output is its `result` field. stdout/stderr are None exactly when the field is missing or falsy. Otherwise their lines, joined with "\n", give back the field's text, and there is one more line than it has newlines, empty lines kept |
| Execution.NormalizePlainOutput | website/code_execution.py:72-78 | An undecodable output gives no output and no stderr. stdout is None exactly for empty text; otherwise its lines join back to the raw text, one more line than newlines |
| Execution.NormalizeNonObject | website/code_execution.py:63-66 | A decoded non-object output fails with the `AttributeError` text for `.get` |
| Execution.TargetOf | website/code_execution.py:16-25 | Each of the four language tokens selects its own generator, and only that token does |
| Execution.UnsupportedLanguage | website/code_execution.py:25-31 | Any other language gives exactly the one-line "Language '…' is not supported yet" stderr, whatever the runner would have answered |
| Execution.SupportedLanguage | website/code_execution.py:16-47 | A supported language is one exchange with the runner, with a 5-second timeout, normalised. TypeScript is posted as "javascript"; every other language under its own name |
| Execution.ExecutionOf | website/code_execution.py:14-91 | An unsupported language gives no output, no stdout and only the "Language '…' is not supported yet" line. A non-null output needs a supported language |
| Execution.Execute | website/code_execution.py:14-91 | The method, which builds the Go program with its loops, returns exactly `ExecutionOf` for the inputs |
| Execution.Report | website/code_execution.py:100-116 | The report carries the run's output, stdout and stderr unchanged, and passes iff the output equals (Python `==`) the expected value |
| Execution.ReportRedaction | website/code_execution.py:100-116 | A non-sample case reports input and expected as "Hidden"; a sample case reports its own. `passed` holds iff the output equals (Python `==`) the expected text decoded as JSON, or the raw text when it does not decode |
| Execution.FailurePassesOnlyNull | website/code_execution.py:100-107 | A failed run passes a case exactly when the expected value decodes to `null` |
| Execution.AllPassedEach | website/code_execution.py:118-119 | The fold of the per-case verdicts is true iff every report passed |
| Execution.ReportsUpToEach | website/code_execution.py:95-116 | The reports of the first n cases are n reports, report `k` being the report of case `k` |
| Execution.RunCase | website/code_execution.py:99-116 | One loop iteration runs its case and returns exactly that case's report |
| Execution.RunTests | website/code_execution.py:93-121 | One report per test case, in order. Report `i` is the report of case `i` run on its own, so every case runs even after a failure. `all_passed` holds iff every report passed |
| Execution.RouteLanguage | website/code_execution.py:129-136 | "js" becomes "javascript", "ts" becomes "typescript", a missing token is "python", and anything else passes through unchanged |
| Execution.RouteLanguageIdempotent | website/code_execution.py:131-136 | Normalising an already normalised token changes nothing |
| Execution.Verdict | website/code_execution.py:182 | "Passed" iff every case passed, "Failed" otherwise |
| Execution.RunCodeSamples | website/code_execution.py:123-151 | No or empty code gives 400 "No code provided". A missing question gives 500 with the `NotFound` text. Otherwise only the sample cases run, in order, and `passed` holds iff all of them passed |
| Execution.SubmitSolution | website/code_execution.py:153-193 | 400 for no code and 404 for a missing question, with nothing stored. Otherwise every case runs. A failed save gives 500 "Failed to save submission: …" and nothing stored. Otherwise the stored submission carries the code, the normalised language and "Passed" iff every case passed |
| CodeGen.FormatPythonLayout | website/code_execution.py:195-239 | The program starts with the import prelude followed by the user's code verbatim. It holds `input_data = <input>` raw and both `sol.<method>(**input_data)` and `sol.<method>(input_data)`, and it ends with the JSON envelope |
| CodeGen.FormatPython | website/code_execution.py:195-239 | The program starts with the import prelude followed by the user's code verbatim, and ends with the JSON envelope |
| CodeGen.JsTemplateLayout | website/code_execution.py:319-346 | The runner template starts with the header and the code, contains the parse line and the call block, and ends with the envelope |
| CodeGen.FormatJavascript | website/code_execution.py:241-347 | The JavaScript program starts with the `// User submitted code:` comment followed by the user's code verbatim, and ends with the JSON envelope |
| CodeGen.FormatJavascriptLayout | website/code_execution.py:241-347 | The JavaScript program starts with the code and parses the JSON-encoded input text. It holds the selected call block followed by the "Function '<method>' not found" else branch, and it ends with the envelope |
| CodeGen.FirstSelectedFinds | website/code_execution.py:252-301 | In an if/elif chain over problems with distinct lowered names, the problem whose condition holds is the one selected |
| CodeGen.CatalogMatchExact | website/code_execution.py:252-301 | A catalog problem is chosen iff the lowered method name is its name and the dict holds both of its keys |
| CodeGen.JsBlockChoice | website/code_execution.py:249-317 | A catalog call block is emitted iff the input decodes to a dict that selects that problem; otherwise the generic three-way chain is used |
| CodeGen.GoProgramLayout | website/code_execution.py:520-549 | The Go program starts with the header and the user's code. Its `main` holds the declaration followed by the call, and it ends with the envelope |
| CodeGen.QuoteAll | website/code_execution.py:438-440 | The loop quotes every string element, in order |
| CodeGen.IntRows | website/code_execution.py:447-449 | The loop renders every row as `{a, b, …}`, in order |
| CodeGen.GoDeclaration | website/code_execution.py:417-518 | The declaration is empty iff the call is. A non-empty call starts with `result := `, and an input that is neither a list nor a dict always gets the single-argument call `result := <method>(input)` |
| CodeGen.DeclareList | website/code_execution.py:426-459 | The if/elif chain over a list returns exactly the list's classified declaration: int, float, string, int matrix, generic matrix, or none |
| CodeGen.FormatGo | website/code_execution.py:411-549 | The method with its loops returns exactly the program of the classified input's declaration |
| CodeGen.GoIntSlice | website/code_execution.py:428-431 | A list of ints (booleans count as ints, and the empty list qualifies) becomes `input := []int{…}` with elements joined by ", ", and `result := <method>(input)` |
| CodeGen.GoScalarFallback | website/code_execution.py:498-518 | A top-level int, bool or null reaches the generic `interface{}` JSON fallback (null as "null"), with `result := <method>(input)` |
| CodeGen.GoDictOutsideCatalog | website/code_execution.py:460-497 | A dict that selects no catalog problem yields an empty declaration and an empty call |
| CodeGen.GoIntSliceExample | website/code_execution.py:428-431 | `[1,2,3]` for `sumArray` gives `input := []int{1, 2, 3}` and `result := sumArray(input)` |
| Models.SampleTests | website/questions.py:123 | The samples are the cases with `isSample` set, and no more cases than there are |
| Models.SampleTestsAppend | website/code_execution.py:143 | Filtering keeps the order: the samples of `a + b` are those of `a` followed by those of `b` |
| Models.SampleTestsAllSamples | website/code_execution.py:143 | A list of sample cases is returned whole, in order |
| Models.SampleTestsNoSamples | website/code_execution.py:143 | A list without samples gives the empty list |
| Questions.CompletedQuestions | website/questions.py:147-156 | An id is completed iff the user has a "Passed" submission for it |
| Questions.CompletedAfterSubmission | website/questions.py:147-156 | One more submission adds its question exactly when it is the user's and "Passed", and never removes one |
| Questions.PassedRows | website/questions.py:88-92 | The rows kept are exactly the association rows of passed questions |
| Questions.CountTagAppend | website/questions.py:95-97 | Counts over consecutive runs of rows add up, so a count never decreases as rows are read |
| Questions.CountTagBound | website/questions.py:95-97 | A tag gains at most one per row, and stays 0 iff no row carries it |
| Questions.CompletionCounts | website/questions.py:75-76 | The count map has exactly the tags as keys |
| Questions.CountCompletions | website/questions.py:75-97 | The loop starts every tag at 0, adds one per row of that tag, ignores unknown tags, and ends with `CompletionCounts` |
| Questions.MinCount | website/questions.py:100 | None iff there are no tags; otherwise a count that some tag has and that no tag is below |
| Questions.LowestTags | website/questions.py:103 | Exactly the tags whose count equals the minimum |
| Questions.LowestTagsNonEmpty | website/questions.py:103-106 | There is a least-practised tag iff there is a tag |
| Questions.FirstEasiest | website/questions.py:114-115 | Every non-empty list has a question of least difficulty |
| Questions.TagCandidates | website/questions.py:109-113 | The candidates are exactly the questions of the chosen tag that the user has not passed |
| Questions.NextQuestion | website/questions.py:71-124 | The tag is None iff there are no tags; otherwise it is one of the least-practised tags. With candidates, the question is an easiest unpassed question of that tag. Without them, it is an easiest question overall, or None iff there are no questions. The samples are the question's sample cases, or empty |
| Questions.NamesOfRows | website/questions.py:140-143 | A tag name is listed iff some row carries it, and an unlisted name has no questions |
| Questions.TotalSizeGrow | website/questions.py:143 | Appending a question to a listed tag adds one to the summed lengths |
| Questions.GroupStep | website/questions.py:140-143 | Reading one more row keeps the grouping invariant |
| Questions.GroupingGrouped | website/questions.py:140-143 | The dict built from any rows satisfies the grouping invariant |
| Questions.GroupedRows | website/questions.py:140-145 | The invariant gives the keys in first-appearance order without repeats. Each key's list is its rows' questions in row order and non-empty, and the list lengths sum to the number of rows |
| Questions.GroupByTag | website/questions.py:126-145 | The loop ends with names and lists as `Grouping` builds them. The keys are exactly the tag names of the rows, each list holds that tag's questions in row order and is non-empty, and the lengths sum to the number of rows |
| Settings.EmailCascade | website/settings.py:17-31 | The update is announced iff the address differs, is non-empty and is unused. The same address is "No changes" even when blank or taken, blank comes before taken, and each rejection has its own message |
| Settings.EmailFlash | website/settings.py:17-31 | The category is "email_success" iff the change is accepted, "email_warning" iff the address is unchanged, and "email_danger" otherwise |
| Settings.EmailResubmitted | website/settings.py:17-19 | Re-submitting a just-accepted address reports no change |
| Settings.EmailsStayUnique | website/settings.py:25-29 | If all addresses are unique and the lookup checks all of them, an accepted change keeps them unique |
| Settings.PasswordCascade | website/settings.py:42-60 | The update is announced iff all four checks pass. A blank field is reported first, then a wrong current password, then "New passwords do not match.", then "Password must be between 8 and 20 characters." for a length outside 8..20 |
| Settings.PasswordFlash | website/settings.py:42-60 | The category is "password_success" iff all checks pass, and "password_danger" otherwise |
| Settings.NewPasswordChecks | website/settings.py:46-58 | With a hasher that recognises what it hashed, the new password passes the next change's current-password check |
| Settings.User.ChangeEmail | website/settings.py:11-32 | A form without the field gives 400. Otherwise the redirect carries the cascade's flash, the email changes to the new value exactly when accepted, and the password hash is untouched |
| Settings.User.ChangePassword | website/settings.py:34-61 | The flash is the cascade's. The hash becomes the hash of the new password exactly when every check passes, and the email is untouched |
| AiHelper.GenerateResponse | website/ai_helper.py:16-31 | The error is present iff the model raised, in which case the content is None and the error is "An unexpected error occurred."; otherwise the content is the model's |
| AiHelper.HintPromptCarries | website/ai_helper.py:48-51 | The hint prompt contains the quoted description and ends with the code |
| AiHelper.ProvideHint | website/ai_helper.py:33-58 | A failure is either 400 "Missing question description or code" or 500 with the model's error |
| AiHelper.HintOutcomes | website/ai_helper.py:33-58 | 400 iff an input is missing or empty. Otherwise 500 with the model error iff the model raised, and a hint iff it replied, carrying its content |
| AiHelper.InputCheckedFirst | website/ai_helper.py:40-41 | With an input missing, both routes answer 400 "Missing question description or code", whatever the model would do (it is never consulted) |
| AiHelper.ModelFailureIs500 | website/ai_helper.py:55-56 | A model error on valid input is a 500 with that error, on both routes |
| AiHelper.ExtractJson | website/ai_helper.py:96-103 | Nothing iff the reply lacks '{' or '}'. A non-empty slice starts with '{' and ends with '}', and the slice is empty iff the last '}' comes before the first '{' |
| AiHelper.ExtractJsonFraming | website/ai_helper.py:96-103 | Text around a braced object that holds no '{' before it and no '}' after it is cut away exactly |
| AiHelper.AnalyzeSubmission | website/ai_helper.py:60-122 | An analysis comes only from complete input and a model reply; a 400 is always the missing-input error |
| AiHelper.ReadAnalysis | website/ai_helper.py:94-122 | Every failure is a 500. An analysis comes only from a reply with both braces whose slice decodes to a dict |
| AiHelper.AnalysisWithoutBraces | website/ai_helper.py:99-100 | A reply without '{' or without '}' is a 500 "Invalid JSON response format" |
| AiHelper.AnalysisUndecodable | website/ai_helper.py:106-119 | A braced slice that does not decode is a 500 "Failed to parse complexity analysis" |
| AiHelper.AnalysisReversedBraces | website/ai_helper.py:96-119 | A reply whose last '}' comes before its first '{' hands the decoder the empty text; when that fails to decode, as in Python, it is the same 500 |
| AiHelper.AnalysisFromObject | website/ai_helper.py:103-122 | A braced object that decodes to a dict yields time and space complexity with "Unknown" for a missing key, plus the explanation |
| AiHelper.ExplanationMentions | website/ai_helper.py:110-116 | The explanation names the user's time complexity: the dict's value, or "Unknown" when the key is missing |
| AiHelper.AnalysisStatuses | website/ai_helper.py:60-122 | Every failure of the analysis route is a 400 or a 500, and a 400 iff an input is missing |
| Json.Get | website/code_execution.py:66-70 | `dict.get` finds a value iff the key is present, and the value found is stored under that key |
| Json.PyEq | website/code_execution.py:107 | Python `==`: numbers compare only with numbers, every other value only with its own kind; `None` equals only `None` and a string only itself |
| Json.NumbersCompareByValue | website/code_execution.py:107 | Python's `==`: `True == 1 == 1.0`, `False == 0`, `False != None`, `"1" != 1` |
| Text.Split | website/code_execution.py:67-76 | `split` always gives at least one segment |
| Text.JoinSplit | website/code_execution.py:67-76 | Joining the segments of `split` with the separator gives back the text |
| Text.SplitSegments | website/code_execution.py:67-76 | No segment holds the separator, and there is one more segment than separators, empty ones kept |
| Text.SplitJoin | website/code_execution.py:67-76 | Splitting joined separator-free segments gives them back |
| Text.Strip | website/code_execution.py:63 | `strip` removes exactly the leading and trailing whitespace |
| Text.Lower | website/code_execution.py:254 | `lower` maps each character, keeping the length |
| Text.Find | website/ai_helper.py:96 | The first position of the character, or -1 iff it does not occur |
| Text.RFind | website/ai_helper.py:97 | The last position of the character, or -1 iff it does not occur |
| Text.NatToDecimalRoundTrip | website/code_execution.py:430 | `str(n)` is a digit string without a leading zero that reads back as `n` |
| Text.IntToDecimalRoundTrip | website/code_execution.py:430 | `str(i)` is a numeral that reads back as `i` |
| Text.LexTotal | website/questions.py:114 | Any two difficulty labels are ordered one way or the other |
| Text.LexTrans | website/questions.py:114 | Text order is transitive |

## Left out

- The HTTP layer is not modelled. This covers the `requests.post` to the runner, Flask's request parsing, `jsonify`, `flash`, `redirect`, the login decorators, and every SQLAlchemy query and `db.session` commit. Their results are inputs: the runner's `Exchange`, the query rows as sequences in query order, the account lookup, and, for `/submit` only, an optional save error.
- Settings.User.ChangeEmail and Settings.User.ChangePassword: take `db.session.commit()` to succeed. A failing commit, which would raise out of the route, is not modelled.
- The runner's outcome for test case `i` is `service(i)`. That a real service answers equal payloads equally is not assumed.
- `json.loads`, `json.dumps`, float `repr` and string `repr` are fields of the `Runtime` parameter, not implementations. The JSON text format itself is not modelled.
- Json.Get: returns the first entry with the key. A decoded dict holds each key once, so the fields of a `JObject` are taken to have distinct keys (Python keeps the last of repeated keys).
- The TypeScript type-stripping regexes (website/code_execution.py:351-409) are the `stripTypes` field of `Runtime`. Python `re` semantics are not modelled.
- A float is kept as its exact real value, and `Json.PyEq` compares floats exactly. Binary rounding is not modelled, and NaN and the infinities cannot be represented. Go's float-list and float-scalar declarations take their text from the `Runtime`'s float `repr`.
- Text.Lower: only ASCII letters are lowered; Unicode case mapping is not modelled.
- An exception raised while reading the runner's response (an `output` that is not a string, say) is the `Crashed` case of `Exchange`, with its message as an input. A body that is not JSON makes `response.json()` raise requests' `JSONDecodeError`. Since requests 2.27 that is a `RequestException`, so a `RequestFailed` ("Request failed: …"); with older versions it is a `Crashed`. The requests version is not pinned, so the model leaves the choice to the `Exchange` input.
- AiHelper.AnalysisReversedBraces: `Runtime.loads` is a parameter and is not constrained on the empty text in general. The lemma takes `loads("")` failing as a premise.
- Request bodies are JSON objects whose `code`/`language` fields are strings or missing. A non-object body or a non-string field is not modelled.
- The `print` of the analysis response (website/ai_helper.py:117) and the error logging (website/ai_helper.py:30) are output only and are not modelled.
- `get_openai_client` and the chat call (website/ai_helper.py:9-28) are the `Model` parameter. A missing API key is one of the ways it raises.
- AiHelper.ExplanationMentions: states the "Unknown" default for the user's time complexity only. The other three keys take the same `Complexity` default by definition, and `AnalysisFromObject` states it for the space complexity.
- `get_acceptance_rate`, the front-end JavaScript, and the other routes of website/questions.py are not part of this model. website/profile.py, website/abtest.py, website/views.py and website/minify_assets.py are not part of this model either.
- Questions.GroupByTag: takes the rows in the query's order (tag name, then difficulty) as given; the SQL ordering itself is not modelled.
- Questions.NextQuestion: the tags are the distinct ids of the tag table in query order. Two tags with the same id are not modelled.
