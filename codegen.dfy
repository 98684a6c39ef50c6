/**
 * The program generators of website/code_execution.py: each wraps the user's
 * source in a runner for one language. Python and JavaScript are string
 * templates; Go classifies the decoded test input by shape and declares it.
 */
module CodeGen {
  import opened Wrappers
  import opened Json
  import Text

  // ---------------------------------------------------------------------------
  // The catalog of multi-argument problems shared by JavaScript and Go
  // ---------------------------------------------------------------------------

  /** The five problems whose dict input is spread over two named arguments. */
  datatype Problem = TwoSum | FindMedianSortedArrays | ZigZagConvert | IsMatch | ThreeSumClosest
  {
    /** The function name the generated JavaScript calls. */
    function Name(): string {
      match this
      case TwoSum => "twoSum"
      case FindMedianSortedArrays => "findMedianSortedArrays"
      case ZigZagConvert => "convert"
      case IsMatch => "isMatch"
      case ThreeSumClosest => "threeSumClosest"
    }

    /** The literal that `expected_method.lower()` is compared with. */
    function Lowered(): string {
      match this
      case TwoSum => "twosum"
      case FindMedianSortedArrays => "findmediansortedarrays"
      case ZigZagConvert => "convert"
      case IsMatch => "ismatch"
      case ThreeSumClosest => "threesumclosest"
    }

    function FirstKey(): string {
      match this
      case TwoSum => "nums"
      case FindMedianSortedArrays => "nums1"
      case ZigZagConvert => "s"
      case IsMatch => "s"
      case ThreeSumClosest => "nums"
    }

    function SecondKey(): string {
      match this
      case TwoSum => "target"
      case FindMedianSortedArrays => "nums2"
      case ZigZagConvert => "numRows"
      case IsMatch => "p"
      case ThreeSumClosest => "target"
    }
  }

  /** The order of the `if`/`elif` chain in the source. */
  const Catalog: seq<Problem> := [TwoSum, FindMedianSortedArrays, ZigZagConvert, IsMatch, ThreeSumClosest]

  /** One `if`/`elif` condition: the lowered method name and both keys of the dict. */
  predicate Selects(p: Problem, lowered: string, fields: seq<(string, Json)>) {
    lowered == p.Lowered() && HasKey(fields, p.FirstKey()) && HasKey(fields, p.SecondKey())
  }

  /** The first problem of `ps` whose condition holds. */
  function FirstSelected(ps: seq<Problem>, lowered: string, fields: seq<(string, Json)>): (r: Option<Problem>)
    ensures r.Some? ==> r.value in ps && Selects(r.value, lowered, fields)
    ensures r.None? ==> forall p :: p in ps ==> !Selects(p, lowered, fields)
  {
    if ps == [] then None
    else if Selects(ps[0], lowered, fields) then Some(ps[0])
    else FirstSelected(ps[1..], lowered, fields)
  }

  /** The catalog problem a dict input and method name select, if any. */
  function CatalogMatch(entry: string, fields: seq<(string, Json)>): Option<Problem> {
    FirstSelected(Catalog, Text.Lower(entry), fields)
  }

  /** With distinct lowered names, the chain picks exactly the problem whose condition holds. */
  lemma {:induction false} FirstSelectedFinds(ps: seq<Problem>, lowered: string, fields: seq<(string, Json)>, p: Problem)
    requires p in ps && Selects(p, lowered, fields)
    requires forall q :: q in ps && q != p ==> q.Lowered() != p.Lowered()
    ensures FirstSelected(ps, lowered, fields) == Some(p)
  {
    if ps[0] != p {
      assert ps[0] in ps;
      assert p in ps[1..];
      FirstSelectedFinds(ps[1..], lowered, fields, p);
    }
  }

  /**
   * The catalog is chosen exactly when the lowered method name is one of the five
   * and the dict holds both of that problem's keys.
   */
  lemma CatalogMatchExact(entry: string, fields: seq<(string, Json)>, p: Problem)
    ensures CatalogMatch(entry, fields) == Some(p) <==> Selects(p, Text.Lower(entry), fields)
  {
    assert p in Catalog by { match p { case _ => } }
    forall q | q in Catalog && q != p ensures q.Lowered() != p.Lowered() {
      match p { case _ => }
    }
    if Selects(p, Text.Lower(entry), fields) {
      FirstSelectedFinds(Catalog, Text.Lower(entry), fields, p);
    }
  }

  // ---------------------------------------------------------------------------
  // Python
  // ---------------------------------------------------------------------------

  const PyPrelude := "\n# Common imports for LeetCode problems\nfrom typing import List, Dict, Tuple, Optional, Set\nimport collections\nfrom collections import defaultdict, Counter, deque\nimport heapq\nimport bisect\nimport math\nimport functools\n\n"
  const PyRunnerTop := "\n\n# Test runner\nimport json\nimport sys\nfrom io import StringIO\nfrom contextlib import redirect_stdout, redirect_stderr\n\n# Parse input"
  const PyRunnerMid := "\n# Run solution\nsol = Solution()\nstdout_buffer = StringIO()\nstderr_buffer = StringIO()\n\nwith redirect_stdout(stdout_buffer), redirect_stderr(stderr_buffer):\n    try:\n        if isinstance(input_data, dict):\n            "
  const PyElse := "        else:\n            "
  /** Exception capture and the single envelope line every Python run prints last. */
  const PyEnvelope := "    except Exception as e:\n        print(f\"{type(e).__name__}: {str(e)}\", file=sys.stderr)\n        result = None\n\n# Format output\nprint(json.dumps({\n    \"result\": result,\n    \"stdout\": stdout_buffer.getvalue(),\n    \"stderr\": stderr_buffer.getvalue()\n}))\n"

  /**
   * format_python: the user's code verbatim after a fixed prelude of imports; the
   * test input pasted as a raw Python expression; the method called on a
   * `Solution` with keyword arguments for a dict and one positional argument
   * otherwise; and the envelope printed last.
   */
  function FormatPython(code: string, input: string, entry: string): (program: string)
    ensures PyPrelude + code <= program
    ensures Text.EndsWith(program, PyEnvelope)
  {
    var parts := PythonParts(code, input, entry);
    Text.ConcatPrefix(parts, 2);
    assert parts[..2] == [PyPrelude, code];
    Text.ConcatPair(PyPrelude, code);
    Text.ConcatLast(parts);
    Text.Concat(parts)
  }

  /** The pieces of format_python's template, slots filled. */
  function PythonParts(code: string, input: string, entry: string): seq<string> {
    [PyPrelude, code, PyRunnerTop, "\ninput_data = " + input + "\n", PyRunnerMid,
     "result = sol." + entry + "(**input_data)\n", PyElse,
     "result = sol." + entry + "(input_data)\n", PyEnvelope]
  }

  /**
   * The program starts with the prelude and the user's code, holds the input
   * line and both calls, and ends with the envelope.
   */
  lemma FormatPythonLayout(code: string, input: string, entry: string)
    ensures PyPrelude + code <= FormatPython(code, input, entry)
    ensures Text.Contains(FormatPython(code, input, entry), "\ninput_data = " + input + "\n")
    ensures Text.Contains(FormatPython(code, input, entry), "result = sol." + entry + "(**input_data)\n")
    ensures Text.Contains(FormatPython(code, input, entry), "result = sol." + entry + "(input_data)\n")
    ensures Text.EndsWith(FormatPython(code, input, entry), PyEnvelope)
  {
    var parts := PythonParts(code, input, entry);
    Text.ConcatPrefix(parts, 2);
    assert parts[..2] == [PyPrelude, code];
    Text.ConcatPair(PyPrelude, code);
    Text.ConcatPiece(parts, 3);
    Text.ConcatPiece(parts, 5);
    Text.ConcatPiece(parts, 7);
    Text.ConcatLast(parts);
  }

  // ---------------------------------------------------------------------------
  // JavaScript (and TypeScript, after its types are stripped)
  // ---------------------------------------------------------------------------

  /** The catalog problem format_javascript special-cases: only for a dict input that decodes. */
  function JsSelection(input: string, entry: string, rt: Runtime): Option<Problem> {
    match rt.loads(input)
    case Some(JObject(fields)) => CatalogMatch(entry, fields)
    case _ => None
  }

  /** The two-argument call block of one catalog problem: a free function, then a Solution method. */
  function CatalogBlock(p: Problem): string {
    var n, a, b := p.Name(), p.FirstKey(), p.SecondKey();
    "\n                if (typeof " + n + " === 'function') {\n                    result = " + n + "(input." + a + ", input." + b + ");\n                } else if (typeof Solution === 'function' && typeof (new Solution())." + n + " === 'function') {\n                    const solution = new Solution();\n                    result = solution." + n + "(input." + a + ", input." + b + ");\n                }"
  }

  /** The generic chain: free function, Solution method, then `<method>Solution`. */
  function GenericBlock(entry: string): string {
    "\n        if (typeof " + entry + " === 'function') {\n            result = " + entry + "(input);\n        }\n        else if (typeof Solution === 'function' && typeof (new Solution())['" + entry + "'] === 'function') {\n            const solution = new Solution();\n            result = solution['" + entry + "'](input);\n        }\n        else if (typeof " + entry + "Solution === 'function') {\n            result = " + entry + "Solution(input);\n        }"
  }

  function JsCallBlock(input: string, entry: string, rt: Runtime): string {
    match JsSelection(input, entry, rt)
    case Some(p) => CatalogBlock(p)
    case None => GenericBlock(entry)
  }

  /** The branch that ends every chain: a runtime error naming the missing entry point. */
  function JsNotFound(entry: string): string {
    "\n        else {\n            throw new Error(`Runtime Error: Function '" + entry + "' not found. Make sure it's defined as a global function, a method on a Solution class, or matches expected naming patterns.`);\n        }"
  }

  const JsHeader := "\n// User submitted code:\n"
  const JsRunnerTop := "\n\n// Test runner for JavaScript\n(function() {\n    "
  const JsRunnerMid := "\n    let result = null;\n    let stdout_capture = \"\";\n    let stderr_capture = \"\"; \n\n    try {\n        "
  /** Error capture and the single envelope line every JavaScript run prints last. */
  const JsEnvelope := "\n    } catch (e) {\n        stderr_capture = e.toString();\n        result = null;\n    }\n    \n    console.log(JSON.stringify({\n        result: result,\n        stdout: stdout_capture,\n        stderr: stderr_capture\n    }));\n})();\n"

  /**
   * format_javascript: the user's code verbatim after a header; the test input
   * handed to `JSON.parse` as the JSON encoding of the input string; the selected
   * call block followed by the not-found error; and the envelope printed last.
   */
  function FormatJavascript(code: string, input: string, entry: string, rt: Runtime): (program: string)
    ensures JsHeader + code <= program
    ensures Text.EndsWith(program, JsEnvelope)
  {
    var parse := "const input = JSON.parse(" + rt.dumps(JString(input)) + ");";
    var block := JsCallBlock(input, entry, rt) + JsNotFound(entry);
    JsTemplateLayout(code, parse, block);
    JsTemplate(code, parse, block)
  }

  /** The JavaScript runner with its slots filled: the code, the input line and the call block. */
  function JsTemplate(code: string, parse: string, block: string): string {
    Text.Concat([JsHeader, code, JsRunnerTop, parse, JsRunnerMid, block, JsEnvelope])
  }

  /** The runner template starts with the header and the code, holds the parse line and the call block, and ends with the envelope. */
  lemma JsTemplateLayout(code: string, parse: string, block: string)
    ensures JsHeader + code <= JsTemplate(code, parse, block)
    ensures Text.Contains(JsTemplate(code, parse, block), parse)
    ensures Text.Contains(JsTemplate(code, parse, block), block)
    ensures Text.EndsWith(JsTemplate(code, parse, block), JsEnvelope)
  {
    var parts := [JsHeader, code, JsRunnerTop, parse, JsRunnerMid, block, JsEnvelope];
    Text.ConcatPrefix(parts, 2);
    assert parts[..2] == [JsHeader, code];
    Text.ConcatPair(JsHeader, code);
    Text.ConcatPiece(parts, 3);
    Text.ConcatPiece(parts, 5);
    Text.ConcatLast(parts);
  }

  /**
   * The program starts with the header and the user's code, parses the JSON
   * encoding of the input text, holds the selected call block followed by the
   * not-found error, and ends with the envelope.
   */
  lemma FormatJavascriptLayout(code: string, input: string, entry: string, rt: Runtime)
    ensures JsHeader + code <= FormatJavascript(code, input, entry, rt)
    ensures Text.Contains(FormatJavascript(code, input, entry, rt),
                          "const input = JSON.parse(" + rt.dumps(JString(input)) + ");")
    ensures Text.Contains(FormatJavascript(code, input, entry, rt), JsCallBlock(input, entry, rt) + JsNotFound(entry))
    ensures Text.EndsWith(FormatJavascript(code, input, entry, rt), JsEnvelope)
  {
    JsTemplateLayout(code, "const input = JSON.parse(" + rt.dumps(JString(input)) + ");",
                     JsCallBlock(input, entry, rt) + JsNotFound(entry));
  }

  /** execute_typescript_as_javascript: the rewritten source handed to format_javascript. */
  function FormatTypescript(code: string, input: string, entry: string, rt: Runtime): string {
    FormatJavascript(rt.stripTypes(code), input, entry, rt)
  }

  /**
   * The special call block is chosen exactly when the input decodes to a dict
   * holding the problem's two keys and the lowered method name is the problem's;
   * otherwise the generic three-way chain is used.
   */
  lemma JsBlockChoice(input: string, entry: string, rt: Runtime, p: Problem)
    ensures JsSelection(input, entry, rt) == Some(p) <==>
      (rt.loads(input).Some? && rt.loads(input).value.JObject? &&
       Selects(p, Text.Lower(entry), rt.loads(input).value.fields))
  {
    if rt.loads(input).Some? && rt.loads(input).value.JObject? {
      CatalogMatchExact(entry, rt.loads(input).value.fields, p);
    }
  }

  // ---------------------------------------------------------------------------
  // Go
  // ---------------------------------------------------------------------------

  /** The input and call lines format_go puts into `main`. */
  datatype GoDecl = GoDecl(declaration: string, call: string)

  const NoDecl := GoDecl("", "")

  /** `json.loads(test_input)`, falling back to the raw text (a Python str). */
  function GoInputValue(input: string, rt: Runtime): Json {
    match rt.loads(input)
    case Some(v) => v
    case None => JString(input)
  }

  predicate AllInt(xs: seq<Json>) {
    forall k :: 0 <= k < |xs| ==> IsInt(xs[k])
  }

  predicate AllFloat(xs: seq<Json>) {
    forall k :: 0 <= k < |xs| ==> xs[k].JFloat?
  }

  predicate AllString(xs: seq<Json>) {
    forall k :: 0 <= k < |xs| ==> xs[k].JString?
  }

  predicate AllList(xs: seq<Json>) {
    forall k :: 0 <= k < |xs| ==> xs[k].JArray?
  }

  predicate AllIntRows(xs: seq<Json>)
    requires AllList(xs)
  {
    forall k :: 0 <= k < |xs| ==> AllInt(xs[k].items)
  }

  /** `', '.join(map(str, xs))`. */
  function StrList(xs: seq<Json>, rt: Runtime): string {
    Text.Join(seq(|xs|, k requires 0 <= k < |xs| => PyStr(xs[k], rt)), ", ")
  }

  /** `'"' + x + '"'`: no escaping. */
  function Quoted(x: string): string {
    "\"" + x + "\""
  }

  /** The `string_elements` list: each string element in double quotes. */
  function QuotedElements(xs: seq<Json>): seq<string>
    requires AllString(xs)
  {
    seq(|xs|, k requires 0 <= k < |xs| => Quoted(xs[k].s))
  }

  /** The `rows` list: each integer row as a brace-enclosed Go literal. */
  function RowLiterals(rows: seq<Json>, rt: Runtime): seq<string>
    requires AllList(rows)
  {
    seq(|rows|, k requires 0 <= k < |rows| => "{" + StrList(rows[k].items, rt) + "}")
  }

  function SingleCall(entry: string): (call: string)
    ensures "result := " <= call
  {
    "result := " + entry + "(input)"
  }

  const GenericListComment := "// Complex input structure, using JSON parsing"
  const GenericComment := "// Complex or unknown input type, using JSON parsing"

  /** The JSON-unmarshal declaration for a list of lists that are not all integers. */
  function GenericMatrixDecl(json: string): string {
    GenericListComment + "\ninputJSON := `" + json + "`\nvar input [][]interface{}\njson.Unmarshal([]byte(inputJSON), &input)"
  }

  /** The JSON-unmarshal declaration of last resort, into an `interface{}`. */
  function GenericDecl(json: string): string {
    GenericComment + "\ninputJSON := `" + json + "`\nvar input interface{}\njson.Unmarshal([]byte(inputJSON), &input)"
  }

  /** A list input, by the shape of its elements; a list that fits no shape gets nothing. */
  function GoListDecl(xs: seq<Json>, entry: string, rt: Runtime): (d: GoDecl)
    ensures d.declaration == "" <==> d.call == ""
    ensures d.call != "" ==> d.call == SingleCall(entry)
  {
    if AllInt(xs) then GoDecl("input := []int{" + StrList(xs, rt) + "}", SingleCall(entry))
    else if AllFloat(xs) then GoDecl("input := []float64{" + StrList(xs, rt) + "}", SingleCall(entry))
    else if AllString(xs) then GoDecl("input := []string{" + Text.Join(QuotedElements(xs), ", ") + "}", SingleCall(entry))
    else if AllList(xs) then
      if AllIntRows(xs) then GoDecl("input := [][]int{" + Text.Join(RowLiterals(xs, rt), ", ") + "}", SingleCall(entry))
      else GoDecl(GenericMatrixDecl(rt.dumps(JArray(xs))), SingleCall(entry))
    else NoDecl
  }

  predicate IsIntList(v: Json) {
    v.JArray? && AllInt(v.items)
  }

  /** A dict input of a catalog problem; values of the wrong type give nothing. */
  function GoCatalogDecl(p: Problem, fields: seq<(string, Json)>, entry: string, rt: Runtime): (d: GoDecl)
    ensures d.declaration == "" <==> d.call == ""
    ensures d.call != "" ==> "result := " <= d.call
  {
    var first := GetOr(fields, p.FirstKey(), JNull);
    var second := GetOr(fields, p.SecondKey(), JNull);
    match p
    case TwoSum =>
      if IsIntList(first) then
        GoDecl("nums := []int{" + StrList(first.items, rt) + "}\ntarget := " + PyStr(second, rt),
               "result := " + entry + "(nums, target)")
      else NoDecl
    case FindMedianSortedArrays =>
      if IsIntList(first) && IsIntList(second) then
        GoDecl("nums1 := []int{" + StrList(first.items, rt) + "}\nnums2 := []int{" + StrList(second.items, rt) + "}",
               "result := " + entry + "(nums1, nums2)")
      else NoDecl
    case ZigZagConvert =>
      if first.JString? && IsInt(second) then
        GoDecl("s := " + Quoted(first.s) + "\nnumRows := " + PyStr(second, rt),
               "result := " + entry + "(s, numRows)")
      else NoDecl
    case IsMatch =>
      if first.JString? && second.JString? then
        GoDecl("s := " + Quoted(first.s) + "\np := " + Quoted(second.s), "result := isMatch(s, p)")
      else NoDecl
    case ThreeSumClosest =>
      if IsIntList(first) then
        GoDecl("nums := []int{" + StrList(first.items, rt) + "}\ntarget := " + PyStr(second, rt),
               "result := threeSumClosest(nums, target)")
      else NoDecl
  }

  /**
   * format_go's classification of the (decoded or raw) test input. The
   * single-integer case the source nests inside the dict branch can never be
   * reached there, so a top-level integer, like a boolean or null, ends in the
   * generic fallback. A declaration always comes with a call, every call
   * assigns `result`, and every input that is neither a list nor a dict is
   * passed to the entry point as the single argument `input`.
   */
  function GoDeclaration(v: Json, entry: string, rt: Runtime): (d: GoDecl)
    ensures d.declaration == "" <==> d.call == ""
    ensures d.call != "" ==> "result := " <= d.call
    ensures !v.JArray? && !v.JObject? ==> d.call == SingleCall(entry)
  {
    match v
    case JArray(xs) => GoListDecl(xs, entry, rt)
    case JObject(fields) =>
      (match CatalogMatch(entry, fields)
       case Some(p) => GoCatalogDecl(p, fields, entry, rt)
       case None => NoDecl)
    case JFloat(r) => GoDecl("input := " + PyStr(v, rt), SingleCall(entry))
    case JString(s) => GoDecl("input := " + Quoted(s), SingleCall(entry))
    case JNull => GoDecl(GenericDecl("null"), SingleCall(entry))
    case _ => GoDecl(GenericDecl(rt.dumps(v)), SingleCall(entry))
  }

  const GoHeader := "\npackage main\n\nimport (\n    \"encoding/json\"\n    \"fmt\"\n)\n\n// User submitted code:\n"
  const GoMainTop := "\n\nfunc main() {\n    // Set up test input\n    "
  const GoMainMid := "\n    \n    // Call user function\n    "
  /** Marshalling of `result` and the single JSON line every Go run prints last. */
  const GoEnvelope := "\n    \n    // Convert result to JSON for output\n    resultJSON, err := json.Marshal(result)\n    if err != nil {\n        fmt.Printf(\"{\\\"stderr\\\": \\\"Error serializing result: %v\\\"}\", err)\n        return\n    }\n    \n    // Output result in JSON format for test runner to parse\n    fmt.Printf(\"{\\\"result\\\": %s}\", resultJSON)\n}\n"

  /** The Go program around the user's code and the chosen declaration. */
  function GoProgram(code: string, d: GoDecl): string {
    Text.Concat(GoParts(code, d))
  }

  function GoParts(code: string, d: GoDecl): seq<string> {
    [GoHeader, code, GoMainTop + d.declaration + GoMainMid + d.call, GoEnvelope]
  }

  /**
   * The program starts with the header and the user's code, declares the input
   * and calls the entry point in `main`, and ends with the envelope.
   */
  lemma GoProgramLayout(code: string, d: GoDecl)
    ensures GoHeader + code <= GoProgram(code, d)
    ensures Text.Contains(GoProgram(code, d), GoMainTop + d.declaration + GoMainMid + d.call)
    ensures Text.EndsWith(GoProgram(code, d), GoEnvelope)
  {
    var parts := GoParts(code, d);
    Text.ConcatPrefix(parts, 2);
    assert parts[..2] == [GoHeader, code];
    Text.ConcatPair(GoHeader, code);
    Text.ConcatPiece(parts, 2);
    Text.ConcatLast(parts);
  }

  /** The `string_elements` loop of format_go. */
  method QuoteAll(xs: seq<Json>) returns (elements: seq<string>)
    requires AllString(xs)
    ensures elements == QuotedElements(xs)
  {
    elements := [];
    for i := 0 to |xs|
      invariant |elements| == i
      invariant forall k :: 0 <= k < i ==> elements[k] == Quoted(xs[k].s)
    {
      elements := elements + [Quoted(xs[i].s)];
    }
  }

  /** The `rows` loop of format_go. */
  method IntRows(rows: seq<Json>, rt: Runtime) returns (literals: seq<string>)
    requires AllList(rows)
    ensures literals == RowLiterals(rows, rt)
  {
    literals := [];
    for i := 0 to |rows|
      invariant |literals| == i
      invariant forall k :: 0 <= k < i ==> literals[k] == "{" + StrList(rows[k].items, rt) + "}"
    {
      literals := literals + ["{" + StrList(rows[i].items, rt) + "}"];
    }
  }

  /** The list branch of format_go; the string-list and integer-matrix declarations come from their loops. */
  method DeclareList(xs: seq<Json>, entry: string, rt: Runtime) returns (d: GoDecl)
    ensures d == GoListDecl(xs, entry, rt)
  {
    if AllInt(xs) {
      d := GoDecl("input := []int{" + StrList(xs, rt) + "}", SingleCall(entry));
    } else if AllFloat(xs) {
      d := GoDecl("input := []float64{" + StrList(xs, rt) + "}", SingleCall(entry));
    } else if AllString(xs) {
      var elements := QuoteAll(xs);
      d := GoDecl("input := []string{" + Text.Join(elements, ", ") + "}", SingleCall(entry));
    } else if AllList(xs) {
      if AllIntRows(xs) {
        var rows := IntRows(xs, rt);
        d := GoDecl("input := [][]int{" + Text.Join(rows, ", ") + "}", SingleCall(entry));
      } else {
        d := GoDecl(GenericMatrixDecl(rt.dumps(JArray(xs))), SingleCall(entry));
      }
    } else {
      d := NoDecl;
    }
  }

  /** format_go: classify the input by shape, declare it, and wrap the declaration in the program. */
  method FormatGo(code: string, input: string, entry: string, rt: Runtime) returns (program: string)
    ensures program == GoProgram(code, GoDeclaration(GoInputValue(input, rt), entry, rt))
  {
    var v := GoInputValue(input, rt);
    var d: GoDecl;
    match v {
      case JArray(xs) =>
        d := DeclareList(xs, entry, rt);
      case JObject(fields) =>
        var problem := CatalogMatch(entry, fields);
        d := if problem.Some? then GoCatalogDecl(problem.value, fields, entry, rt) else NoDecl;
      case JFloat(_) =>
        d := GoDecl("input := " + PyStr(v, rt), SingleCall(entry));
      case JString(s) =>
        d := GoDecl("input := " + Quoted(s), SingleCall(entry));
      case JNull =>
        d := GoDecl(GenericDecl("null"), SingleCall(entry));
      case _ =>
        d := GoDecl(GenericDecl(rt.dumps(v)), SingleCall(entry));
    }
    assert d == GoDeclaration(v, entry, rt);
    program := GoProgram(code, d);
  }

  // ---------------------------------------------------------------------------
  // Shape rules of format_go
  // ---------------------------------------------------------------------------

  /** A list of ints (bools count, and so does the empty list) becomes an `[]int` literal. */
  lemma GoIntSlice(xs: seq<Json>, entry: string, rt: Runtime)
    requires AllInt(xs)
    ensures GoDeclaration(JArray(xs), entry, rt) ==
      GoDecl("input := []int{" + StrList(xs, rt) + "}", "result := " + entry + "(input)")
  {
  }

  /** A top-level int, bool or null reaches the generic `interface{}` fallback. */
  lemma GoScalarFallback(v: Json, entry: string, rt: Runtime)
    requires v.JInt? || v.JBool? || v.JNull?
    ensures GoDeclaration(v, entry, rt).declaration ==
      GenericDecl(if v.JNull? then "null" else rt.dumps(v))
    ensures GoDeclaration(v, entry, rt).call == "result := " + entry + "(input)"
  {
  }

  /** A dict that selects no catalog problem declares nothing and calls nothing. */
  lemma GoDictOutsideCatalog(fields: seq<(string, Json)>, entry: string, rt: Runtime)
    requires forall p: Problem :: !Selects(p, Text.Lower(entry), fields)
    ensures GoDeclaration(JObject(fields), entry, rt) == NoDecl
  {
  }

  /** The integer list of the examples: `[1,2,3]` for `sumArray`. */
  lemma GoIntSliceExample(rt: Runtime)
    requires rt.loads("[1,2,3]") == Some(JArray([JInt(1), JInt(2), JInt(3)]))
    ensures GoDeclaration(GoInputValue("[1,2,3]", rt), "sumArray", rt) ==
      GoDecl("input := []int{1, 2, 3}", "result := sumArray(input)")
  {
    var xs := [JInt(1), JInt(2), JInt(3)];
    assert AllInt(xs);
    GoIntSlice(xs, "sumArray", rt);
    OneTwoThree(rt);
  }

  /** `', '.join(map(str, [1, 2, 3]))` is `"1, 2, 3"`. */
  lemma OneTwoThree(rt: Runtime)
    ensures StrList([JInt(1), JInt(2), JInt(3)], rt) == "1, 2, 3"
  {
    var xs := [JInt(1), JInt(2), JInt(3)];
    assert Text.NatToDecimal(1) == "1" && Text.NatToDecimal(2) == "2" && Text.NatToDecimal(3) == "3";
    assert PyStr(xs[0], rt) == "1" && PyStr(xs[1], rt) == "2" && PyStr(xs[2], rt) == "3";
    var strs := seq(|xs|, k requires 0 <= k < |xs| => PyStr(xs[k], rt));
    assert strs == ["1", "2", "3"];
    assert ["1", "2", "3"][1..] == ["2", "3"] && ["2", "3"][1..] == ["3"];
    assert Text.Join(["1", "2", "3"], ", ") == "1, 2, 3";
  }
}
