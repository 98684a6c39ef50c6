/**
 * The two AI routes of website/ai_helper.py: a hint for code the user is stuck
 * on, and a complexity analysis of a submission. The chat model is a parameter;
 * its reply is either the message content (which the client library may leave
 * absent) or an exception.
 */
module AiHelper {
  import opened Wrappers
  import opened Json
  import Text

  /** What the chat-completion call gave: the first choice's content, or an exception. */
  datatype ModelReply = Reply(content: Option<string>) | Raised

  /** The chat model, asked with a system prompt and a user prompt. */
  type Model = (string, string) -> ModelReply

  const ModelError := "An unexpected error occurred."
  const MissingInputError := "Missing question description or code"

  /** generate_response: the pair `(content, error)`; any exception becomes the fixed message. */
  function GenerateResponse(model: Model, system: string, user: string): (r: (Option<string>, Option<string>))
    ensures r.1.Some? <==> model(system, user).Raised?
    ensures r.1.Some? ==> r.0.None? && r.1.value == ModelError && r.1.value != ""
    ensures r.1.None? ==> r.0 == model(system, user).content
  {
    match model(system, user)
    case Reply(content) => (content, None)
    case Raised => (None, Some(ModelError))
  }

  /** `if error:` — an error that is present and non-empty. */
  predicate Failed(error: Option<string>) {
    error.Some? && error.value != ""
  }

  // ---------------------------------------------------------------------------
  // The request body
  // ---------------------------------------------------------------------------

  function Description(body: seq<(string, Json)>): Json {
    GetOr(body, "question_description", JNull)
  }

  function Code(body: seq<(string, Json)>): Json {
    GetOr(body, "code", JNull)
  }

  /** `not question_description or not code`: either is missing or falsy. */
  predicate MissingInput(body: seq<(string, Json)>) {
    !Truthy(Description(body)) || !Truthy(Code(body))
  }

  // ---------------------------------------------------------------------------
  // /hint
  // ---------------------------------------------------------------------------

  const HintSystemPrompt :=
    "You are a coding interviewer. Your interviewee is stuck on a Leetcode-style problem. "
    + "Evaluate their code, identify mistakes, and guide them toward a solution. "
    + "DO NOT GIVE AWAY THE ANSWER. Only provide a hint. Be very brief, concise and patient."

  /** The user prompt; the f-string formats each value with `str`. */
  function HintPrompt(description: Json, code: Json, rt: Runtime): string {
    "I am solving the Leetcode question " + Quoted(PyStr(description, rt)) + HintPromptTail(code, rt)
  }

  function Quoted(s: string): string {
    "'" + s + "'"
  }

  /** The prompt after the quoted description. */
  function HintPromptTail(code: Json, rt: Runtime): string {
    ", but I'm stuck.\n" + "Here is my code so far:\n" + PyStr(code, rt)
  }

  /** The prompt carries the description, quoted, and ends with the code. */
  lemma HintPromptCarries(description: Json, code: Json, rt: Runtime)
    ensures Text.Contains(HintPrompt(description, code, rt), Quoted(PyStr(description, rt)))
    ensures Text.EndsWith(HintPrompt(description, code, rt), PyStr(code, rt))
  {
    var head := "I am solving the Leetcode question " + Quoted(PyStr(description, rt));
    Text.ContainsMiddle("I am solving the Leetcode question ", Quoted(PyStr(description, rt)), HintPromptTail(code, rt));
    Text.EndsWithAppend(head + ", but I'm stuck.\n" + "Here is my code so far:\n", PyStr(code, rt));
  }

  /** The route's JSON answer: `{"success": true, "hint": …}` or an error with its status. */
  datatype HintResponse = Hint(hint: Option<string>) | HintError(status: nat, error: string)

  /** provide_hint: every error is the 400 for missing input or the 500 for a failed model call. */
  function ProvideHint(body: seq<(string, Json)>, model: Model, rt: Runtime): (r: HintResponse)
    ensures r.HintError? ==>
      (r.status == 400 && r.error == MissingInputError) || (r.status == 500 && r.error == ModelError)
  {
    if MissingInput(body) then HintError(400, MissingInputError)
    else
      var (hint, error) := GenerateResponse(model, HintSystemPrompt, HintPrompt(Description(body), Code(body), rt));
      if Failed(error) then HintError(500, error.value) else Hint(hint)
  }

  /**
   * The three answers of /hint: 400 exactly when an input is missing, 500 with
   * the fixed message exactly when the model raised, and otherwise the model's
   * content, absent or not.
   */
  lemma HintOutcomes(body: seq<(string, Json)>, model: Model, rt: Runtime)
    ensures var r := ProvideHint(body, model, rt);
      && (r == HintError(400, MissingInputError) <==> MissingInput(body))
      && (r == HintError(500, ModelError) <==>
            !MissingInput(body) && model(HintSystemPrompt, HintPrompt(Description(body), Code(body), rt)).Raised?)
      && (r.Hint? <==>
            !MissingInput(body) && model(HintSystemPrompt, HintPrompt(Description(body), Code(body), rt)).Reply?)
      && (r.Hint? ==> r.hint == model(HintSystemPrompt, HintPrompt(Description(body), Code(body), rt)).content)
  {
  }

  // ---------------------------------------------------------------------------
  // /analyze_submission
  // ---------------------------------------------------------------------------

  /** The system prompt; its adjacent literals are joined without spaces, as in the source. */
  const AnalysisSystemPrompt :=
    "You are a CS professor specializing in algorithms."
    + "You perfectly analyze student algorithm submission against their known optimal worst-case time complexity"
    + "These are the complexity classes you can choose from: O(1), O(logn), O(n), O(nlogn), O(n^2), O(n^m), O(2^n), O(n!)"
    + "You always respond in json bodies and only JSON bodies"
    + "Your response starts with { and ends with }"
    + "Your response is a JSON object that looks like the following: "
    + "{user_time_complexity: [time complexity] ,"
    + "optimal_time_complexity: [optimal time complexity] ,"
    + "user_space_complexity: [space complexity] ,"
    + "optimal_space_complexity: [optimal space complexity]}"

  function AnalysisPrompt(description: Json, code: Json, rt: Runtime): string {
    "I solved a Leetcode question with this description: '" + PyStr(description, rt)
    + "'. Can you analyze my solution's "
    + "time/space complexity and compare it to the optimal one? Here is my code:\n" + PyStr(code, rt)
  }

  /**
   * The text from the first `{` through the last `}`, or `None` when either is
   * missing. When the last `}` comes before the first `{` the slice is empty.
   */
  function ExtractJson(analysis: string): (r: Option<string>)
    ensures r.None? <==> '{' !in analysis || '}' !in analysis
    ensures r.Some? && r.value != "" ==> r.value[0] == '{' && r.value[|r.value| - 1] == '}'
    ensures r.Some? ==> (r.value == "" <==> Text.RFind(analysis, '}') < Text.Find(analysis, '{'))
  {
    var start := Text.Find(analysis, '{');
    var end := Text.RFind(analysis, '}') + 1;
    if start == -1 || end == 0 then None
    else Some(Text.Slice(analysis, start, end))
  }

  /**
   * A reply that wraps one object in prose with no `{` before it and no `}`
   * after it yields exactly that object.
   */
  lemma ExtractJsonFraming(before: string, obj: string, after: string)
    requires '{' !in before && '}' !in after
    requires |obj| > 0 && obj[0] == '{' && obj[|obj| - 1] == '}'
    ensures ExtractJson(before + obj + after) == Some(obj)
  {
    var s := before + obj + after;
    var open := |before|;
    var close := |before| + |obj| - 1;
    assert s[open] == '{' && s[close] == '}';
    var start := Text.Find(s, '{');
    var last := Text.RFind(s, '}');
    assert s[..open] == before;
    assert start == open;
    assert s[close + 1..] == after;
    assert last == close;
    assert s[open..close + 1] == obj;
  }

  /** The analysis the frontend receives. */
  datatype Analysis = Analysis(timeComplexity: Json, spaceComplexity: Json, explanation: string)

  datatype AnalysisResponse = Analyzed(analysis: Analysis) | AnalysisError(status: nat, error: string)

  /** `complexity_data.get(key, 'Unknown')`. */
  function Complexity(data: seq<(string, Json)>, key: string): Json {
    GetOr(data, key, JString("Unknown"))
  }

  function Explanation(data: seq<(string, Json)>, rt: Runtime): string {
    "Your solution runs in " + PyStr(Complexity(data, "user_time_complexity"), rt) + ExplanationTail(data, rt)
  }

  /** The explanation after the user's time complexity. */
  function ExplanationTail(data: seq<(string, Json)>, rt: Runtime): string {
    " time and uses " + PyStr(Complexity(data, "user_space_complexity"), rt) + " space. "
    + "The optimal solution runs in " + PyStr(Complexity(data, "optimal_time_complexity"), rt) + " time and uses "
    + PyStr(Complexity(data, "optimal_space_complexity"), rt) + " space."
  }

  /**
   * The part of analyze_submission after the model answered without error:
   * every failure here is a 500, and an analysis comes back only when the
   * brace slice of the reply decodes to a dict.
   */
  function ReadAnalysis(analysis: Option<string>, rt: Runtime): (r: AnalysisResponse)
    ensures r.AnalysisError? ==> r.status == 500
    ensures r.Analyzed? ==>
      && analysis.Some? && ExtractJson(analysis.value).Some?
      && rt.loads(ExtractJson(analysis.value).value).Some?
      && rt.loads(ExtractJson(analysis.value).value).value.JObject?
  {
    if analysis.None? then
      AnalysisError(500, "Error processing analysis: " + AttributeError(JNull, "find"))
    else
      match ExtractJson(analysis.value)
      case None => AnalysisError(500, "Invalid JSON response format")
      case Some(text) =>
        match rt.loads(text)
        case None => AnalysisError(500, "Failed to parse complexity analysis")
        case Some(JObject(data)) =>
          Analyzed(Analysis(Complexity(data, "user_time_complexity"), Complexity(data, "user_space_complexity"),
                            Explanation(data, rt)))
        case Some(v) => AnalysisError(500, "Error processing analysis: " + AttributeError(v, "get"))
  }

  /** analyze_submission: an analysis comes back only for complete input the model replied to. */
  function AnalyzeSubmission(body: seq<(string, Json)>, model: Model, rt: Runtime): (r: AnalysisResponse)
    ensures r.Analyzed? ==>
      !MissingInput(body) && model(AnalysisSystemPrompt, AnalysisPrompt(Description(body), Code(body), rt)).Reply?
    ensures r.AnalysisError? && r.status == 400 ==> r.error == MissingInputError
  {
    if MissingInput(body) then AnalysisError(400, MissingInputError)
    else
      var (analysis, error) :=
        GenerateResponse(model, AnalysisSystemPrompt, AnalysisPrompt(Description(body), Code(body), rt));
      if Failed(error) then AnalysisError(500, error.value) else ReadAnalysis(analysis, rt)
  }

  /**
   * Both routes check their input before asking the model: with an input
   * missing the answer is the 400, whatever the model would have said.
   */
  lemma InputCheckedFirst(body: seq<(string, Json)>, m1: Model, m2: Model, rt: Runtime)
    requires MissingInput(body)
    ensures ProvideHint(body, m1, rt) == ProvideHint(body, m2, rt) == HintError(400, MissingInputError)
    ensures AnalyzeSubmission(body, m1, rt) == AnalyzeSubmission(body, m2, rt) == AnalysisError(400, MissingInputError)
  {
  }

  /** With the inputs present, a model that raised gives the fixed 500 on both routes. */
  lemma ModelFailureIs500(body: seq<(string, Json)>, model: Model, rt: Runtime)
    requires !MissingInput(body)
    requires model(HintSystemPrompt, HintPrompt(Description(body), Code(body), rt)).Raised?
    requires model(AnalysisSystemPrompt, AnalysisPrompt(Description(body), Code(body), rt)).Raised?
    ensures ProvideHint(body, model, rt) == HintError(500, ModelError)
    ensures AnalyzeSubmission(body, model, rt) == AnalysisError(500, ModelError)
  {
  }

  /** Every answer of /analyze_submission other than a success is a 400 or a 500. */
  lemma AnalysisStatuses(body: seq<(string, Json)>, model: Model, rt: Runtime)
    ensures var r := AnalyzeSubmission(body, model, rt);
      r.AnalysisError? ==> (r.status == 400 <==> MissingInput(body)) && (r.status == 400 || r.status == 500)
  {
  }

  /** The explanation names the user's time complexity as the dict gives it, or "Unknown". */
  lemma ExplanationMentions(data: seq<(string, Json)>, rt: Runtime)
    ensures Text.Contains(Explanation(data, rt), PyStr(Complexity(data, "user_time_complexity"), rt))
    ensures !HasKey(data, "user_time_complexity") ==> Complexity(data, "user_time_complexity") == JString("Unknown")
    ensures HasKey(data, "user_time_complexity") ==>
      Complexity(data, "user_time_complexity") == Get(data, "user_time_complexity").value
  {
    Text.ContainsMiddle("Your solution runs in ", PyStr(Complexity(data, "user_time_complexity"), rt),
                        ExplanationTail(data, rt));
  }

  /**
   * A reply whose braces frame an object that decodes to a dict gives the
   * analysis; each complexity the dict lacks reads "Unknown", and one it has is
   * passed on as it is.
   */
  lemma AnalysisFromObject(before: string, obj: string, after: string, data: seq<(string, Json)>, rt: Runtime)
    requires '{' !in before && '}' !in after
    requires |obj| > 0 && obj[0] == '{' && obj[|obj| - 1] == '}'
    requires rt.loads(obj) == Some(JObject(data))
    ensures ReadAnalysis(Some(before + obj + after), rt) ==
      Analyzed(Analysis(Complexity(data, "user_time_complexity"), Complexity(data, "user_space_complexity"),
                        Explanation(data, rt)))
    ensures !HasKey(data, "user_space_complexity") ==> Complexity(data, "user_space_complexity") == JString("Unknown")
  {
    ExtractJsonFraming(before, obj, after);
  }

  /** A brace slice that does not decode is a 500 "Failed to parse complexity analysis". */
  lemma AnalysisUndecodable(analysis: string, rt: Runtime)
    requires '{' in analysis && '}' in analysis && rt.loads(ExtractJson(analysis).value).None?
    ensures ReadAnalysis(Some(analysis), rt) == AnalysisError(500, "Failed to parse complexity analysis")
  {
  }

  /**
   * A reply whose last '}' comes before its first '{' hands the decoder the
   * empty text, which Python's `json.loads` never accepts: the same 500.
   */
  lemma AnalysisReversedBraces(analysis: string, rt: Runtime)
    requires '{' in analysis && '}' in analysis && Text.RFind(analysis, '}') < Text.Find(analysis, '{')
    requires rt.loads("").None?
    ensures ReadAnalysis(Some(analysis), rt) == AnalysisError(500, "Failed to parse complexity analysis")
  {
  }

  /** A reply without a `{` or without a `}` is reported as not JSON. */
  lemma AnalysisWithoutBraces(analysis: string, rt: Runtime)
    requires '{' !in analysis || '}' !in analysis
    ensures ReadAnalysis(Some(analysis), rt) == AnalysisError(500, "Invalid JSON response format")
  {
  }
}
