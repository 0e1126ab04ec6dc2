/**
 * `get_visualization_code` of `src/core/llm_client.py`: the prompt built from the
 * table and the request (a first request, or a refinement of earlier code), the
 * credential check, and the dispatch to one of two text-generation backends. The
 * backends are network services; here each is a function from its input to the
 * text it returns or the message of the exception it raises.
 */
module LlmClient {
  import opened Wrappers
  import opened Strings

  /**
   * What the prompt shows of the table: the `df.info()` text, the `head()` and
   * `tail()` renderings (all three opaque here), and the column names.
   */
  datatype TableText = TableText(schema: string, head: string, tail: string, columns: seq<string>)

  /** A Python value that may be `None` or a string; it is truthy when it is a non-empty string. */
  predicate Truthy(s: Option<string>) {
    s.Some? && |s.value| > 0
  }

  /** The column list as an f-string shows a list of simple names: `['a', 'b']`. */
  function ListText(names: seq<string>): string
    decreases |names|
  {
    "[" + QuotedItems(names) + "]"
  }

  function QuotedItems(names: seq<string>): string
    decreases |names|
  {
    if |names| == 0 then ""
    else if |names| == 1 then "'" + names[0] + "'"
    else "'" + names[0] + "', " + QuotedItems(names[1..])
  }

  /** Every column name appears, quoted, in the list text. */
  lemma {:induction false} QuotedItemsContains(names: seq<string>, k: nat)
    requires k < |names|
    ensures Contains(QuotedItems(names), "'" + names[k] + "'")
    decreases |names|
  {
    var q := "'" + names[k] + "'";
    if k == 0 {
      if |names| == 1 {
        ContainsInfix("", q, "");
        assert "" + q + "" == QuotedItems(names);
      } else {
        ContainsInfix("", q, ", " + QuotedItems(names[1..]));
        assert "" + q + (", " + QuotedItems(names[1..])) == QuotedItems(names);
      }
    } else {
      QuotedItemsContains(names[1..], k - 1);
      assert names[1..][k - 1] == names[k];
      var pre := "'" + names[0] + "', ";
      var t := QuotedItems(names[1..]);
      var i :| 0 <= i <= |t| && StartsWith(t[i..], q);
      assert QuotedItems(names) == pre + t;
      assert (pre + t)[|pre| + i..] == t[i..];
    }
  }

  /** What occurs in a string occurs in anything it begins. */
  lemma ContainsLeft(a: string, b: string, x: string)
    requires Contains(a, x)
    ensures Contains(a + b, x)
  {
    var i :| 0 <= i <= |a| && StartsWith(a[i..], x);
    assert (a + b)[i..][..|x|] == a[i..][..|x|];
  }

  /** What occurs in a string occurs in anything it ends. */
  lemma ContainsRight(a: string, b: string, x: string)
    requires Contains(b, x)
    ensures Contains(a + b, x)
  {
    var i :| 0 <= i <= |b| && StartsWith(b[i..], x);
    assert (a + b)[|a| + i..] == b[i..];
  }

  lemma ContainsSelf(s: string)
    ensures Contains(s, s)
  {
    assert s[0..] == s;
  }

  /** What occurs in a part occurs in the whole. */
  lemma ContainsTransitive(a: string, b: string, c: string)
    requires Contains(a, b) && Contains(b, c)
    ensures Contains(a, c)
  {
    var i :| 0 <= i <= |a| && StartsWith(a[i..], b);
    var j :| 0 <= j <= |b| && StartsWith(b[j..], c);
    var x, y := a[i + j..][..|c|], b[j..][..|c|];
    forall k | 0 <= k < |c|
      ensures x[k] == y[k]
    {
      assert x[k] == a[i..][..|b|][j + k];
    }
    assert x == y;
  }

  // ---------------------------------------------------------------------------
  // The two prompts

  const Fence := "```"

  /**
   * The fixed text of the two f-string templates, piece by piece between the inserted
   * values. The lemmas hold for any wording; `SourceWording` is the one the client uses.
   */
  datatype Wording = Wording(
    preamble: string,
    refineLine: string, refineTable: (string, string, string), refineRequest: string,
    codeHeading: string, feedbackHeading: string, refineRequirements: string, refineTrailer: string,
    initialLine: string, initialTable: (string, string, string), initialRequest: string,
    initialRequirements: string, initialTrailer: string,
    columnsLead: string)

  /**
   * The template text: each f-string opens with a line break, and the indentation of its
   * lines is left out.
   */
  const SourceWording := Wording(
    "\nYou are an expert and meticulous Python data analyst specializing in Plotly Express.\n",
    "A user wants to refine a visualization " + "you previously created.\n\n",
    ("The DataFrame `df` has this schema and head:\nSchema:\n", "Head:\n", "Tail:\n"),
    "\nHere is the original user request:\n",
    "\nHere is the Python code you previously generated:\n",
    "\nThe user has provided the following feedback for how to change the chart:\n",
    "\nYour task is to generate ONLY the updated Python code that incorporates the user's feedback.\n"
    + "Your response must be a raw string of Python code, without any markdown, code fences (```), or explanations.\n\n"
    + "CRITICAL REQUIREMENTS TO PREVENT ERRORS:\n"
    + "- The DataFrame is already in memory as `df`. Do not load any data.\n"
    + "- `pandas` is imported as `pd`.\n"
    + "- The final chart object must be assigned to a variable named `fig`.\n"
    + "- `plotly.express` is already imported as `px`. Do not import it again.\n"
    + "- Do not include `st.plotly_chart(fig)`. The app will handle rendering.\n",
    HandleMissing + Aggregate + ValidParameters + DateConversion + ErrorHandling + Fallback,
    "Your goal is to generate clean, " + "readable, and ERROR-FREE Python code for visualizations based on user requests.\n"
    + "You are working with a pandas DataFrame in memory named `df`.\n\n",
    ("Here is the schema of the DataFrame:\n", "\nHere is the head of the DataFrame:\n", "\nHere is the tail of the DataFrame:\n"),
    "\nThe user has requested the following visualization:\n",
    "\nYour task is to generate ONLY the Python code (using Plotly Express) to create the requested visualization.\n"
    + "Your response must be a raw string of Python code, without any markdown, code fences (```), or explanations.\n\n"
    + "CRITICAL REQUIREMENTS TO PREVENT ERRORS:\n"
    + "- The code should be a single block.\n"
    + "- The DataFrame is already in memory as `df`. Do not load any data.\n"
    + "- `pandas` is imported as `pd`.\n"
    + "- The final chart object must be assigned to a variable named `fig`. For example: `fig = px.bar(...)`\n"
    + "- `plotly.express` is already imported as `px`. Do not import it again.\n"
    + "- Do not include `st.plotly_chart(fig)`. The app will handle rendering.\n",
    HandleMissing + Aggregate + ValidParameters
    + "- **If a column has mixed data types, convert appropriately: pd.to_numeric(df['col'], errors='coerce')**\n"
    + DateConversion + ErrorHandling + Fallback
    + "- **Wrap the main plotting logic in a try-except block and provide a fallback chart if errors occur**\n",
    "- **ONLY use columns that exist in the DataFrame schema above. Available columns are: ")

  /** The requirement lines after the column list that both templates share. */
  const HandleMissing := "- **Handle missing data: Use df.dropna() or df.fillna() as appropriate**\n"
  const Aggregate := "- **For aggregations, use pandas groupby/agg methods before plotting**\n"
  const ValidParameters := "- **Only use valid Plotly Express function parameters. "
    + "Common valid parameters include: x, y, color, size, hover_data, title, labels**\n"
  const DateConversion := "- **For date columns, ensure proper datetime conversion: pd.to_datetime(df['col'], errors='coerce')**\n"
  const ErrorHandling := "- **Always include error handling for data operations**\n"
  const Fallback := "- **If the request cannot be fulfilled with available data, create a simple fallback visualization**\n"

  /** A fenced block after its heading: the fence, the text on lines of its own, the closing fence. */
  function Block(heading: string, opening: string, body: string): string {
    (heading + Fence + opening + "\n") + (body + ("\n" + Fence + "\n"))
  }

  /** A value in double quotes on a line of its own, after its heading. */
  function QuotedLine(heading: string, s: string): string {
    (heading + "\"") + (s + "\"\n")
  }

  /** The three table blocks, each after its heading. */
  function TableSection(headings: (string, string, string), table: TableText): string {
    Block(headings.0, "", table.schema) + (Block(headings.1, "", table.head) + Block(headings.2, "", table.tail))
  }

  /** The closing instructions, with the list of the table's columns between the requirement lines. */
  function Closing(w: Wording, requirements: string, trailer: string, columns: seq<string>): string {
    (requirements + w.columnsLead) + (ListText(columns) + ("**\n" + trailer))
  }

  /** The refinement prompt (`previous_code` and `feedback` both given). */
  function RefinePrompt(w: Wording, request: string, table: TableText, previousCode: string, feedback: string): string {
    (w.preamble + w.refineLine) +
    (TableSection(w.refineTable, table) +
    (QuotedLine(w.refineRequest, request) +
    (Block(w.codeHeading, "python", previousCode) +
    (QuotedLine(w.feedbackHeading, feedback) +
     Closing(w, w.refineRequirements, w.refineTrailer, table.columns)))))
  }

  /** The prompt of a first request. */
  function InitialPrompt(w: Wording, request: string, table: TableText): string {
    (w.preamble + w.initialLine) +
    (TableSection(w.initialTable, table) +
    (QuotedLine(w.initialRequest, request) +
     Closing(w, w.initialRequirements, w.initialTrailer, table.columns)))
  }

  /** The refinement prompt is used exactly when both the previous code and the feedback are truthy. */
  function BuildPrompt(w: Wording, request: string, table: TableText, previousCode: Option<string>, feedback: Option<string>): string {
    if Truthy(previousCode) && Truthy(feedback) then RefinePrompt(w, request, table, previousCode.value, feedback.value)
    else InitialPrompt(w, request, table)
  }

  /** The two templates differ right after the shared first line. */
  predicate DistinctOpenings(w: Wording) {
    |w.refineLine| > 0 && |w.initialLine| > 0 && w.refineLine[0] != w.initialLine[0]
  }

  lemma SourceOpeningsDistinct()
    ensures DistinctOpenings(SourceWording)
  {
    var w := SourceWording;
    assert w.refineLine[0] == 'A';
    assert w.initialLine[0] == 'Y';
  }

  /** The prompt opens with the refinement line exactly in refinement mode. */
  lemma PromptMode(w: Wording, request: string, table: TableText, previousCode: Option<string>, feedback: Option<string>)
    requires DistinctOpenings(w)
    ensures StartsWith(BuildPrompt(w, request, table, previousCode, feedback), w.preamble + w.refineLine)
        <==> Truthy(previousCode) && Truthy(feedback)
  {
    var p := BuildPrompt(w, request, table, previousCode, feedback);
    var n := |w.preamble|;
    if Truthy(previousCode) && Truthy(feedback) {
      assert p[..|w.preamble + w.refineLine|] == w.preamble + w.refineLine;
    } else {
      assert p[n] == w.initialLine[0];
      assert (w.preamble + w.refineLine)[n] == w.refineLine[0];
    }
  }

  lemma BlockHolds(heading: string, opening: string, body: string)
    ensures Contains(Block(heading, opening, body), body)
  {
    ContainsSelf(body);
    ContainsLeft(body, "\n" + Fence + "\n", body);
    ContainsRight(heading + Fence + opening + "\n", body + ("\n" + Fence + "\n"), body);
  }

  lemma QuotedLineHolds(heading: string, s: string)
    ensures Contains(QuotedLine(heading, s), s)
  {
    ContainsSelf(s);
    ContainsLeft(s, "\"\n", s);
    ContainsRight(heading + "\"", s + "\"\n", s);
  }

  /** The table section holds the schema, the head and the tail. */
  lemma TableSectionHolds(headings: (string, string, string), table: TableText)
    ensures var t := TableSection(headings, table);
      Contains(t, table.schema) && Contains(t, table.head) && Contains(t, table.tail)
  {
    var b0, b1, b2 := Block(headings.0, "", table.schema), Block(headings.1, "", table.head), Block(headings.2, "", table.tail);
    BlockHolds(headings.0, "", table.schema);
    BlockHolds(headings.1, "", table.head);
    BlockHolds(headings.2, "", table.tail);
    ContainsLeft(b0, b1 + b2, table.schema);
    ContainsLeft(b1, b2, table.head);
    ContainsRight(b0, b1 + b2, table.head);
    ContainsRight(b1, b2, table.tail);
    ContainsRight(b0, b1 + b2, table.tail);
  }

  lemma ListTextHolds(names: seq<string>, k: nat)
    requires k < |names|
    ensures Contains(ListText(names), "'" + names[k] + "'")
  {
    QuotedItemsContains(names, k);
    ContainsInfix("[", QuotedItems(names), "]");
    ContainsTransitive(ListText(names), QuotedItems(names), "'" + names[k] + "'");
  }

  lemma ClosingHolds(w: Wording, requirements: string, trailer: string, columns: seq<string>, k: nat)
    requires k < |columns|
    ensures Contains(Closing(w, requirements, trailer, columns), "'" + columns[k] + "'")
  {
    var name := "'" + columns[k] + "'";
    ListTextHolds(columns, k);
    ContainsLeft(ListText(columns), "**\n" + trailer, name);
    ContainsRight(requirements + w.columnsLead, ListText(columns) + ("**\n" + trailer), name);
  }

  /** The refinement prompt embeds the table's schema, head and tail, the request, the previous code and the feedback. */
  lemma RefineEmbeds(w: Wording, request: string, table: TableText, previousCode: string, feedback: string)
    ensures var p := RefinePrompt(w, request, table, previousCode, feedback);
      Contains(p, table.schema) && Contains(p, table.head) && Contains(p, table.tail) &&
      Contains(p, request) && Contains(p, previousCode) && Contains(p, feedback)
  {
    var open := w.preamble + w.refineLine;
    var t := TableSection(w.refineTable, table);
    var r := QuotedLine(w.refineRequest, request);
    var c := Block(w.codeHeading, "python", previousCode);
    var f := QuotedLine(w.feedbackHeading, feedback);
    var cl := Closing(w, w.refineRequirements, w.refineTrailer, table.columns);
    var s4 := f + cl;
    var s3 := c + s4;
    var s2 := r + s3;
    var s1 := t + s2;
    TableSectionHolds(w.refineTable, table);
    QuotedLineHolds(w.refineRequest, request);
    BlockHolds(w.codeHeading, "python", previousCode);
    QuotedLineHolds(w.feedbackHeading, feedback);
    ContainsLeft(f, cl, feedback);
    ContainsRight(c, s4, feedback);
    ContainsLeft(c, s4, previousCode);
    ContainsRight(r, s3, feedback);
    ContainsRight(r, s3, previousCode);
    ContainsLeft(r, s3, request);
    forall x | x in [table.schema, table.head, table.tail] ensures Contains(s1, x) {
      ContainsLeft(t, s2, x);
    }
    forall x | x in [request, previousCode, feedback] ensures Contains(s1, x) {
      ContainsRight(t, s2, x);
    }
    forall x | x in [table.schema, table.head, table.tail, request, previousCode, feedback] ensures Contains(open + s1, x) {
      ContainsRight(open, s1, x);
    }
  }

  /** The prompt of a first request embeds the table's schema, head and tail and the request. */
  lemma InitialEmbeds(w: Wording, request: string, table: TableText)
    ensures var p := InitialPrompt(w, request, table);
      Contains(p, table.schema) && Contains(p, table.head) && Contains(p, table.tail) && Contains(p, request)
  {
    var open := w.preamble + w.initialLine;
    var t := TableSection(w.initialTable, table);
    var r := QuotedLine(w.initialRequest, request);
    var cl := Closing(w, w.initialRequirements, w.initialTrailer, table.columns);
    var s2 := r + cl;
    var s1 := t + s2;
    TableSectionHolds(w.initialTable, table);
    QuotedLineHolds(w.initialRequest, request);
    ContainsLeft(r, cl, request);
    ContainsRight(t, s2, request);
    forall x | x in [table.schema, table.head, table.tail] ensures Contains(s1, x) {
      ContainsLeft(t, s2, x);
    }
    forall x | x in [table.schema, table.head, table.tail, request] ensures Contains(open + s1, x) {
      ContainsRight(open, s1, x);
    }
  }

  /** Both prompts list every column name, quoted. */
  lemma PromptListsColumns(w: Wording, request: string, table: TableText, previousCode: Option<string>, feedback: Option<string>, k: nat)
    requires k < |table.columns|
    ensures Contains(BuildPrompt(w, request, table, previousCode, feedback), "'" + table.columns[k] + "'")
  {
    var name := "'" + table.columns[k] + "'";
    if Truthy(previousCode) && Truthy(feedback) {
      var cl := Closing(w, w.refineRequirements, w.refineTrailer, table.columns);
      var f := QuotedLine(w.feedbackHeading, feedback.value);
      var c := Block(w.codeHeading, "python", previousCode.value);
      var r := QuotedLine(w.refineRequest, request);
      var t := TableSection(w.refineTable, table);
      ClosingHolds(w, w.refineRequirements, w.refineTrailer, table.columns, k);
      ContainsRight(f, cl, name);
      ContainsRight(c, f + cl, name);
      ContainsRight(r, c + (f + cl), name);
      ContainsRight(t, r + (c + (f + cl)), name);
      ContainsRight(w.preamble + w.refineLine, t + (r + (c + (f + cl))), name);
    } else {
      var cl := Closing(w, w.initialRequirements, w.initialTrailer, table.columns);
      var r := QuotedLine(w.initialRequest, request);
      var t := TableSection(w.initialTable, table);
      ClosingHolds(w, w.initialRequirements, w.initialTrailer, table.columns, k);
      ContainsRight(r, cl, name);
      ContainsRight(t, r + cl, name);
      ContainsRight(w.preamble + w.initialLine, t + (r + cl), name);
    }
  }

  // ---------------------------------------------------------------------------
  // Backend dispatch

  /** The exceptions `get_visualization_code` raises, with their messages. */
  datatype LlmError = ValueError(message: string) | RuntimeError(message: string)

  const GeminiModel := "Gemini 1.5 Flash"
  const ChatGptModel := "ChatGPT 4o"

  const GeminiKeyMissing := "GEMINI_API_KEY not found. Please set it in your .env file."
  const OpenAiKeyMissing := "OPENAI_API_KEY not found. Please set it in your .env file."
  const InvalidProvider := "Invalid model provider specified. Choose 'Gemini' or 'OpenAI'."
  const GeminiFailure := "An error occurred while calling the Gemini API: "
  const OpenAiFailure := "An error occurred while calling the OpenAI API: "

  /** The two keys read from the environment when the module is loaded. */
  datatype ApiKeys = ApiKeys(gemini: Option<string>, openai: Option<string>)

  /**
   * The backends: Gemini is given the key and the prompt; the chat backend the key,
   * the prompt as system message and the request as user message. Each gives the
   * generated text or the message of the exception it raised.
   */
  datatype Backends = Backends(
    gemini: (string, string) -> Result<string, string>,
    chat: (string, string, string) -> Result<string, string>)

  /** `get_visualization_code(user_request, df_for_prompt, model, previous_code, feedback)`. */
  function GetVisualizationCode(request: string, table: TableText, model: string, previousCode: Option<string>,
                                feedback: Option<string>, keys: ApiKeys, api: Backends): Result<string, LlmError>
  {
    var prompt := BuildPrompt(SourceWording, request, table, previousCode, feedback);
    if model == GeminiModel then
      if !Truthy(keys.gemini) then Err(ValueError(GeminiKeyMissing))
      else
        match api.gemini(keys.gemini.value, prompt)
        case Ok(text) => Ok(text)
        case Err(e) => Err(RuntimeError(GeminiFailure + e))
    else if model == ChatGptModel then
      if !Truthy(keys.openai) then Err(ValueError(OpenAiKeyMissing))
      else
        match api.chat(keys.openai.value, prompt, request)
        case Ok(text) => Ok(text)
        case Err(e) => Err(RuntimeError(OpenAiFailure + e))
    else Err(ValueError(InvalidProvider))
  }

  /**
   * The credential check comes before any backend call: without the selected
   * backend's key the outcome is the same `ValueError` whatever the backends would do.
   */
  lemma MissingKeyRejected(request: string, table: TableText, model: string, previousCode: Option<string>,
                           feedback: Option<string>, keys: ApiKeys, api1: Backends, api2: Backends)
    requires (model == GeminiModel && !Truthy(keys.gemini)) || (model == ChatGptModel && !Truthy(keys.openai))
    ensures GetVisualizationCode(request, table, model, previousCode, feedback, keys, api1)
         == GetVisualizationCode(request, table, model, previousCode, feedback, keys, api2)
    ensures GetVisualizationCode(request, table, model, previousCode, feedback, keys, api1).Err?
    ensures GetVisualizationCode(request, table, model, previousCode, feedback, keys, api1).error.ValueError?
  {
  }

  /** Any other model name is a `ValueError`, whatever the keys and the backends. */
  lemma UnknownModelRejected(request: string, table: TableText, model: string, previousCode: Option<string>,
                             feedback: Option<string>, keys: ApiKeys, api: Backends)
    requires model != GeminiModel && model != ChatGptModel
    ensures GetVisualizationCode(request, table, model, previousCode, feedback, keys, api) == Err(ValueError(InvalidProvider))
  {
  }

  /**
   * With the key present, the selected backend is called with the built prompt: its text
   * is returned as is, and its failure becomes a `RuntimeError` whose message ends with
   * the backend's own message.
   */
  lemma BackendOutcome(request: string, table: TableText, model: string, previousCode: Option<string>,
                       feedback: Option<string>, keys: ApiKeys, api: Backends)
    requires (model == GeminiModel && Truthy(keys.gemini)) || (model == ChatGptModel && Truthy(keys.openai))
    ensures var prompt := BuildPrompt(SourceWording, request, table, previousCode, feedback);
      var call := if model == GeminiModel then api.gemini(keys.gemini.value, prompt)
                  else api.chat(keys.openai.value, prompt, request);
      var r := GetVisualizationCode(request, table, model, previousCode, feedback, keys, api);
      (call.Ok? ==> r == Ok(call.value)) &&
      (call.Err? ==> r.Err? && r.error.RuntimeError? && EndsWith(r.error.message, call.error) &&
                     Contains(r.error.message, call.error))
  {
    var prompt := BuildPrompt(SourceWording, request, table, previousCode, feedback);
    var call := if model == GeminiModel then api.gemini(keys.gemini.value, prompt)
                else api.chat(keys.openai.value, prompt, request);
    if call.Err? {
      var lead := if model == GeminiModel then GeminiFailure else OpenAiFailure;
      var m := lead + call.error;
      assert m[|m| - |call.error|..] == call.error;
      ContainsSelf(call.error);
      ContainsRight(lead, call.error, call.error);
    }
  }
}
