/**
 * The first version of the dashboard, the root `app.py`: a single Gemini request
 * whose answer is cut of a leading "```python" and a trailing "```" and run. Its
 * `get_visualization_code` shows an error and returns `None` when configuring or
 * calling the API fails. The API and the running of code are oracles.
 */
module LegacyApp {
  import opened Wrappers
  import opened Strings
  import opened LlmClient
  import opened PlotAgent

  // ---------------------------------------------------------------------------
  // The prefix/suffix sanitizer

  /**
   * The code that is run: the stripped answer between a leading "```python" (cut only
   * when the answer starts with it) and a trailing "```" (cut only when what is left
   * ends with it), stripped again.
   */
  function Unfence(code: string): string {
    var t := Strip(code);
    var p := CodeStart(t);
    Strip(t[p..CodeEnd(t, p)])
  }

  /** Where the code starts: after a leading "```python", if there is one. */
  function CodeStart(t: string): (p: nat)
    ensures p <= |t|
  {
    if StartsWith(t, PythonFence) then |PythonFence| else 0
  }

  /** Where the code ends: before a trailing "```" of what follows `p`, if there is one. */
  function CodeEnd(t: string, p: nat): (q: nat)
    requires p <= |t|
    ensures p <= q <= |t|
  {
    if EndsWith(t[p..], Fence) then |t| - |Fence| else |t|
  }

  /** Stripping a string that ends in non-whitespace only cuts whitespace at its start. */
  lemma StripEndTrimmed(x: string) returns (k: nat)
    requires |x| == 0 || !IsSpace(x[|x| - 1])
    ensures k <= |x| && Strip(x) == x[k..] && AllSpace(x[..k])
  {
    k := StripSlice(x);
  }

  lemma SliceOfSuffix(t: string, p: nat, n: nat)
    requires p <= n <= |t|
    ensures t[p..][..n - p] == t[p..n]
  {
  }

  lemma SuffixAll(t: string, p: nat)
    requires p <= |t|
    ensures t[p..] == t[p..|t|]
  {
  }

  lemma SuffixOfSuffix(x: string, k: nat, n: nat)
    requires k + n <= |x|
    ensures x[k..][|x| - k - n..] == x[|x| - n..]
  {
  }

  lemma SplitBeforeFence(x: string, k: nat, u: string)
    requires k + 3 <= |x| && u == x[k..]
    ensures x[..|x| - 3] == x[..k] + u[..|u| - 3]
  {
  }

  lemma SliceOfSlice(t: string, p: nat, q: nat, k: nat, n: nat)
    requires p <= q <= |t| && k + n <= q - p
    ensures t[p..q][k..k + n] == t[p + k..][..n]
  {
    var a := t[p..q][k..k + n];
    var b := t[p + k..][..n];
    forall i | 0 <= i < n
      ensures a[i] == b[i]
    {
      assert a[i] == t[p + k + i];
    }
    assert a == b;
  }

  /**
   * Stripping a string that ends in non-whitespace keeps a trailing fence, and
   * cutting that fence before or after stripping gives the same text.
   */
  lemma FenceCut(x: string)
    requires |x| == 0 || !IsSpace(x[|x| - 1])
    ensures EndsWith(Strip(x), Fence) <==> EndsWith(x, Fence)
    ensures EndsWith(x, Fence) ==> Strip(Strip(x)[..|Strip(x)| - |Fence|]) == Strip(x[..|x| - |Fence|])
  {
    var k := StripEndTrimmed(x);
    var u := Strip(x);
    assert |u| == |x| - k;
    if EndsWith(x, Fence) {
      FenceNotSpace(x, k);
      SuffixOfSuffix(x, k, 3);
      assert u[|u| - 3..] == x[|x| - 3..];
      assert EndsWith(u, Fence);
      SplitBeforeFence(x, k, u);
      StripSpaces(x[..k], u[..|u| - 3]);
      assert Strip(x[..|x| - 3]) == Strip(u[..|u| - 3]);
    } else if |u| >= 3 {
      SuffixOfSuffix(x, k, 3);
      assert u[|u| - 3..] == x[|x| - 3..];
      assert !EndsWith(u, Fence);
    }
  }

  /** A trailing fence lies after any leading whitespace. */
  lemma FenceNotSpace(x: string, k: nat)
    requires EndsWith(x, Fence) && k <= |x| && AllSpace(x[..k])
    ensures k <= |x| - |Fence|
  {
    SpaceAt(x[..k], |x| - 3);
  }

  lemma SpaceAt(s: string, i: nat)
    requires AllSpace(s)
    ensures i < |s| ==> IsSpace(s[i])
  {
  }

  /** The first cut: a leading "```python" goes, and what is left is stripped. */
  lemma PrefixStep(t: string)
    requires IsTrimmed(t)
    ensures (if StartsWith(t, PythonFence) then Strip(t[|PythonFence|..]) else t) == Strip(t[CodeStart(t)..])
  {
    if !StartsWith(t, PythonFence) {
      StripTrimmed(t);
      assert t[0..] == t;
    }
  }

  /** A suffix of a trimmed string ends in non-whitespace, if it is not empty. */
  lemma TrimmedSuffix(t: string, p: nat)
    requires IsTrimmed(t) && p <= |t|
    ensures |t[p..]| == 0 || !IsSpace(t[p..][|t[p..]| - 1])
  {
    if p < |t| {
      assert t[p..][|t[p..]| - 1] == t[|t| - 1];
    }
  }

  /** The second cut: a trailing "```" goes, and what is left is stripped. */
  lemma SuffixStep(t: string, p: nat)
    requires IsTrimmed(t) && p <= |t|
    ensures var u := Strip(t[p..]);
      (if EndsWith(u, Fence) then Strip(u[..|u| - |Fence|]) else u) == Strip(t[p..CodeEnd(t, p)])
  {
    var x := t[p..];
    TrimmedSuffix(t, p);
    FenceCut(x);
    var u := Strip(x);
    if EndsWith(x, Fence) {
      assert EndsWith(u, Fence);
      SliceOfSuffix(t, p, |t| - |Fence|);
      assert x[..|x| - |Fence|] == t[p..|t| - |Fence|];
      assert Strip(u[..|u| - |Fence|]) == Strip(t[p..|t| - |Fence|]);
    } else {
      assert !EndsWith(u, Fence);
      SuffixAll(t, p);
    }
  }

  /** The sanitizer of `app.py`, reassigning the code step by step. */
  method StripFences(code: string) returns (c: string)
    ensures c == Unfence(code)
    ensures IsTrimmed(c)
  {
    c := Strip(code);
    ghost var t := c;
    PrefixStep(t);
    if StartsWith(c, PythonFence) {
      c := Strip(c[|PythonFence|..]);
    }
    ghost var p := CodeStart(t);
    assert c == Strip(t[p..]);
    SuffixStep(t, p);
    if EndsWith(c, Fence) {
      c := Strip(c[..|c| - |Fence|]);
    }
    assert c == Strip(t[p..CodeEnd(t, p)]);
  }

  /** Code in a fenced block is run exactly as written, fences inside it included. */
  lemma UnfenceWrapped(body: string)
    requires IsTrimmed(body)
    ensures Unfence(PythonFence + "\n" + body + "\n" + Fence) == body
  {
    var w := PythonFence + "\n" + body + "\n" + Fence;
    assert w[0] == '`' && w[|w| - 1] == '`';
    StripTrimmed(w);
    assert w[..|PythonFence|] == PythonFence;
    assert w[|PythonFence|..] == "\n" + body + "\n" + Fence;
    assert w[|PythonFence|..|w| - |Fence|] == "\n" + body + "\n";
    StripPadded("\n", body, "\n");
  }

  /** Code without a leading or trailing fence is run only stripped of whitespace. */
  lemma UnfenceUnfenced(code: string)
    requires !StartsWith(Strip(code), PythonFence) && !EndsWith(Strip(code), Fence)
    ensures Unfence(code) == Strip(code)
  {
    var t := Strip(code);
    assert t[0..] == t && t[0..|t|] == t;
    StripTrimmed(t);
  }

  /** The sanitizer only cuts from the ends: the code run is a piece of the stripped answer. */
  lemma UnfenceInfix(code: string)
    ensures Contains(Strip(code), Unfence(code))
  {
    var t := Strip(code);
    var p := CodeStart(t);
    var q := CodeEnd(t, p);
    var k := StripSlice(t[p..q]);
    var r := Unfence(code);
    SliceOfSlice(t, p, q, k, |r|);
  }

  /** The sanitizers differ: the one of the plot agent also removes fences inside the code. */
  lemma SanitizersDiffer()
    ensures Unfence("a```b") == "a```b"
    ensures Sanitize("a```b") == "ab"
  {
    UnfenceUnfenced("a```b");
    StripTrimmed("a```b");
    assert ReplaceAll("a```b", PythonFence, "") == "a```b";
  }

  // ---------------------------------------------------------------------------
  // Generation and the "Generate Visualization" button

  /** The fixed text of the `app.py` prompt, around the schema, the head and the request. */
  datatype LegacyWording = LegacyWording(opening: string, headLead: string, requestLead: string, requirements: string)

  /** The f-string prompt of `app.py`, with the indentation it carries. */
  const SourceLegacyWording := LegacyWording(
    "\n    You are an expert Python data visualization assistant.\n"
    + "    You are working with a pandas DataFrame in memory named `df`.\n\n"
    + "    Here is the schema of the DataFrame:\n    ```\n    ",
    "\n    ```\n\n    Here is the head of the DataFrame:\n    ```\n    ",
    "\n    ```\n\n    The user has requested the following visualization:\n    ",
    "\n\n    Your task is to generate ONLY the Python code (using Plotly Express) to create the requested visualization.\n"
    + "    Your response must be a raw string of Python code, without any markdown, code fences (```), or explanations.\n"
    + "    - The code should be a single block.\n"
    + "    - The DataFrame is already in memory as `df`. Do not load any data.\n"
    + "    - The final chart object should be named `fig`.\n"
    + "    - `plotly.express` is already imported as `px`. Do not import it again.\n"
    + "    - Do not include `st.plotly_chart(fig)`. The app will handle rendering.\n    ")

  function LegacyPrompt(w: LegacyWording, schema: string, head: string, request: string): string {
    w.opening + (schema + (w.headLead + (head + (w.requestLead + (Quoted(request) + w.requirements)))))
  }

  function Quoted(request: string): string {
    "\"" + request + "\""
  }

  /** The prompt carries the schema, the head, and the request in double quotes. */
  lemma LegacyPromptEmbeds(w: LegacyWording, schema: string, head: string, request: string)
    ensures Contains(LegacyPrompt(w, schema, head, request), schema)
    ensures Contains(LegacyPrompt(w, schema, head, request), head)
    ensures Contains(LegacyPrompt(w, schema, head, request), Quoted(request))
  {
    var tail3 := Quoted(request) + w.requirements;
    var tail2 := head + (w.requestLead + tail3);
    var tail1 := schema + (w.headLead + tail2);
    ContainsSelf(Quoted(request));
    ContainsLeft(Quoted(request), w.requirements, Quoted(request));
    ContainsRight(w.requestLead, tail3, Quoted(request));
    ContainsRight(head, w.requestLead + tail3, Quoted(request));
    ContainsRight(w.headLead, tail2, Quoted(request));
    ContainsRight(schema, w.headLead + tail2, Quoted(request));
    ContainsRight(w.opening, tail1, Quoted(request));
    ContainsSelf(head);
    ContainsLeft(head, w.requestLead + tail3, head);
    ContainsRight(w.headLead, tail2, head);
    ContainsRight(schema, w.headLead + tail2, head);
    ContainsRight(w.opening, tail1, head);
    ContainsSelf(schema);
    ContainsLeft(schema, w.headLead + tail2, schema);
    ContainsRight(w.opening, tail1, schema);
  }

  /** The Gemini client: configuring it may fail, and so may generating. */
  datatype Gemini = Gemini(configure: Option<string> -> Option<string>, generate: string -> Result<string, string>)

  const ConfigFailure := "Error configuring the API. Please check your key. Details: "

  /** `get_visualization_code`: the code, or `None` and the error it showed. */
  function LegacyGetVisualizationCode(w: LegacyWording, request: string, schema: string, head: string, key: Option<string>, api: Gemini)
    : (Option<string>, Option<Notice>)
  {
    match api.configure(key)
    case Some(details) => (None, Some(ErrorMessage(ConfigFailure + details)))
    case None =>
      match api.generate(LegacyPrompt(w, schema, head, request))
      case Ok(text) => (Some(text), None)
      case Err(e) => (None, Some(ErrorMessage(GeminiFailure + e)))
  }

  /** A failure of the client comes back as `None` with an error shown, never as code. */
  lemma LegacyFailureIsNone(w: LegacyWording, request: string, schema: string, head: string, key: Option<string>, api: Gemini)
    ensures var (code, shown) := LegacyGetVisualizationCode(w, request, schema, head, key, api);
      (code.None? <==> shown.Some?) && (shown.Some? ==> shown.value.ErrorMessage?)
    ensures api.configure(key).Some? ==> LegacyGetVisualizationCode(w, request, schema, head, key, api).0.None?
    ensures (api.configure(key).None? && api.generate(LegacyPrompt(w, schema, head, request)).Ok?) ==>
      LegacyGetVisualizationCode(w, request, schema, head, key, api).0
        == Some(api.generate(LegacyPrompt(w, schema, head, request)).value)
  {
  }

  /** What one press of the button shows: its messages, the code it ran, and whether a chart was drawn. */
  datatype Page = Page(notices: seq<Notice>, executed: Option<string>, chart: bool)

  /**
   * The button handler: an empty request only warns; otherwise code is generated and,
   * when there is any, its sanitized form is run and a chart drawn if `fig` is set.
   */
  method OnGenerate(request: string, schema: string, head: string, key: Option<string>, api: Gemini,
                    run: string -> ExecOutcome) returns (page: Page)
    ensures request == "" ==> page == Page([Warning(RequestWarning)], None, false)
    ensures request != "" ==>
      var (code, shown) := LegacyGetVisualizationCode(SourceLegacyWording, request, schema, head, key, api);
      if code.Some? && code.value != "" then
        var out := run(Unfence(code.value));
        page.executed == Some(Unfence(code.value)) && (page.chart <==> out == Ran(true)) &&
        page.notices == (match out
                         case Raised(m) => [ErrorMessage(ExecFailure + m)]
                         case Ran(figure) => if figure then [] else [Warning(NoChartWarning)])
      else
        page.executed.None? && !page.chart && page.notices == (if shown.Some? then [shown.value] else [])
  {
    if request == "" {
      return Page([Warning(RequestWarning)], None, false);
    }
    var (code, shown) := LegacyGetVisualizationCode(SourceLegacyWording, request, schema, head, key, api);
    if !(code.Some? && code.value != "") {
      return Page(if shown.Some? then [shown.value] else [], None, false);
    }
    var toRun := StripFences(code.value);
    var out := run(toRun);
    match out
    case Raised(m) =>
      page := Page([ErrorMessage(ExecFailure + m)], Some(toRun), false);
    case Ran(figure) =>
      page := Page(if figure then [] else [Warning(NoChartWarning)], Some(toRun), figure);
  }
}
