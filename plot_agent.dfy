/**
 * The plot agent of `src/ui/plot_agent.py` (and its copy inside `show_main_page` in
 * `src/ui/main_page.py`): the session-state keys it keeps, the request validation,
 * generation, the "Clear" and "Show/Hide" buttons, running the generated code, and
 * regeneration from feedback. Running code is an oracle that raises, leaves no
 * `fig`, or leaves one.
 */
module PlotAgent {
  import opened Wrappers
  import opened Strings
  import opened LlmClient

  // ---------------------------------------------------------------------------
  // The fence sanitizer

  const PythonFence := "```python"

  /** `code.strip().replace("```python", "").replace("```", "")` */
  function Sanitize(code: string): string {
    ReplaceAll(ReplaceAll(Strip(code), PythonFence, ""), Fence, "")
  }

  /** Removing fences from text that does not open with a backtick leaves it so. */
  lemma NoLeadingTick(u: string)
    requires !(|u| > 0 && u[0] == '`')
    ensures !(|ReplaceAll(u, Fence, "")| > 0 && ReplaceAll(u, Fence, "")[0] == '`')
  {
  }

  /** ... and from text that does not open with two backticks, likewise. */
  lemma NoLeadingTicks(u: string)
    requires !(|u| > 1 && u[0] == '`' && u[1] == '`')
    ensures var r := ReplaceAll(u, Fence, ""); !(|r| > 1 && r[0] == '`' && r[1] == '`')
  {
    if |u| >= 3 {
      assert u[..3] != Fence;
      assert ReplaceAll(u, Fence, "") == [u[0]] + ReplaceAll(u[1..], Fence, "");
      if u[0] == '`' {
        NoLeadingTick(u[1..]);
      }
    }
  }

  /**
   * After every fence is removed, scanning from the left, no fence is left: a removal
   * cannot join backticks into a new one, since the scan would have matched earlier.
   */
  lemma {:induction false} NoFenceLeft(s: string)
    ensures !Contains(ReplaceAll(s, Fence, ""), Fence)
    decreases |s|
  {
    var r := ReplaceAll(s, Fence, "");
    if |s| < 3 {
      assert r == s;
    } else if s[..3] == Fence {
      assert r == "" + ReplaceAll(s[3..], Fence, "");
      assert r == ReplaceAll(s[3..], Fence, "");
      NoFenceLeft(s[3..]);
    } else {
      var t := ReplaceAll(s[1..], Fence, "");
      NoFenceLeft(s[1..]);
      assert r == [s[0]] + t;
      if s[0] == '`' {
        NoLeadingTicks(s[1..]);
      }
      forall i | 1 <= i <= |r|
        ensures !StartsWith(r[i..], Fence)
      {
        assert r[i..] == t[i - 1..];
      }
    }
  }

  /** The code that is run contains no fence at all. */
  lemma SanitizeNoFence(code: string)
    ensures !Contains(Sanitize(code), Fence)
  {
    NoFenceLeft(ReplaceAll(Strip(code), PythonFence, ""));
  }

  lemma ContainsPrefixOf(s: string, a: string, b: string)
    requires Contains(s, a + b)
    ensures Contains(s, a)
  {
    var i :| 0 <= i <= |s| && StartsWith(s[i..], a + b);
    assert s[i..][..|a|] == (a + b)[..|a|];
  }

  /** Code without fences is run only stripped of surrounding whitespace. */
  lemma SanitizeUnfenced(code: string)
    requires !Contains(Strip(code), Fence)
    ensures Sanitize(code) == Strip(code)
  {
    var s := Strip(code);
    assert PythonFence == Fence + "python";
    if Contains(s, PythonFence) {
      ContainsPrefixOf(s, Fence, "python");
    }
    ReplaceAbsent(s, PythonFence, "");
    ReplaceAbsent(s, Fence, "");
  }

  // ---------------------------------------------------------------------------
  // Session state

  /** A value kept in `st.session_state`: a string, `None`, or a flag. */
  datatype SessionValue = Str(s: string) | NoneValue | Flag(b: bool)

  /** Python truthiness of a session value. */
  predicate IsTruthy(v: SessionValue) {
    match v
    case Str(s) => |s| > 0
    case NoneValue => false
    case Flag(b) => b
  }

  type State = map<string, SessionValue>

  const GeneratedCode := "generated_code"
  const FeedbackKey := "feedback"
  const UserRequest := "user_request"
  const LastSelectedDf := "last_selected_df"
  const ShowCode := "show_code"

  /** `keys_to_clear`, in the order they are deleted. */
  const ClearedKeys: seq<string> := [GeneratedCode, FeedbackKey, UserRequest, LastSelectedDf, ShowCode]

  /** The messages the agent shows. */
  datatype Notice = Warning(text: string) | ErrorMessage(text: string)

  const RequestWarning := "Please enter a request for the visualization."
  const FeedbackWarning := "Please enter your feedback before regenerating."
  const NoChartWarning := "The AI did not generate a chart. Please try a different request."
  const ExecFailure := "An error occurred while executing the generated code: "

  /** `placeholder_prompts.get(selected_df_name, "")` */
  function PlaceholderFor(name: string): string {
    if name == "Users" then "e.g. 'Top 10 most active users', 'GPTs Messaged Usage', 'Users who have created a project"
    else if name == "Models" then
      "e.g. 'Stacked bar chart of model usage by week', 'Pie chart of most popular models', 'Trend of o3 usage'"
    else if name == "Tools" then
      "e.g. 'Stacked bar chart of tool usage by week', 'Pie chart of most popular tools', 'Trend of Data Analysis usage'"
    else ""
  }

  /** `st.session_state.user_request` (always a string once the text area has run). */
  function RequestOf(s: State): string {
    if UserRequest in s && s[UserRequest].Str? then s[UserRequest].s else ""
  }

  /** The values of all keys but `changed` are as they were. */
  ghost predicate OthersKept(s: State, t: State, changed: set<string>) {
    forall k :: k !in changed ==> (k in t <==> k in s) && (k in t ==> t[k] == s[k])
  }

  /** The environment of one run of the page: selected table, backend, keys, and the backends. */
  datatype Env = Env(selected: string, model: string, keys: ApiKeys, table: TableText, api: Backends)

  /** "Generate Visualization": validate the request and the key, then generate. */
  function GenerateStep(s: State, env: Env): (State, Option<Notice>) {
    var request := RequestOf(s);
    if request == "" || request == PlaceholderFor(env.selected) then (s, Some(Warning(RequestWarning)))
    else if env.model == GeminiModel && !Truthy(env.keys.gemini) then (s, Some(ErrorMessage(GeminiKeyMissing)))
    else if env.model == ChatGptModel && !Truthy(env.keys.openai) then (s, Some(ErrorMessage(OpenAiKeyMissing)))
    else
      match GetVisualizationCode(request, env.table, env.model, None, None, env.keys, env.api)
      case Ok(code) => (s[GeneratedCode := Str(code)][FeedbackKey := Str("")], None)
      case Err(e) => (s[GeneratedCode := NoneValue], Some(ErrorMessage(e.message)))
  }

  /** "Clear": the five keys are deleted where present. */
  function ClearStep(s: State): State {
    s - set k | k in ClearedKeys
  }

  function ShowCodeOn(s: State): bool {
    ShowCode in s && IsTruthy(s[ShowCode])
  }

  /** "Show/Hide Generated Code": `show_code = not get('show_code', False)`. */
  function ToggleStep(s: State): State {
    s[ShowCode := Flag(!ShowCodeOn(s))]
  }

  /** What running the sanitized code does. */
  datatype ExecOutcome = Raised(message: string) | Ran(figure: bool)

  /** The one widget interaction of a run of the page (Streamlit reruns the script per click). */
  datatype Click = NoClick | GenerateClick | ClearClick | ToggleClick | RegenerateClick

  /**
   * The display block, run when `generated_code` is truthy: toggle if asked, run the
   * code; an exception drops the code, a missing `fig` only warns, and with a chart the
   * code may be regenerated from non-empty feedback.
   */
  function DisplayStep(s: State, click: Click, feedback: string, run: string -> ExecOutcome, env: Env): (State, Option<Notice>) {
    if !(GeneratedCode in s && IsTruthy(s[GeneratedCode])) then (s, None)
    else
      var s1 := if click == ToggleClick then ToggleStep(s) else s;
      match s[GeneratedCode]
      case Str(code) =>
        (match run(Sanitize(code))
         case Raised(m) => (s1[GeneratedCode := NoneValue], Some(ErrorMessage(ExecFailure + m)))
         case Ran(figure) =>
           if !figure then (s1, Some(Warning(NoChartWarning)))
           else if click != RegenerateClick then (s1, None)
           else if feedback == "" then (s1, Some(Warning(FeedbackWarning)))
           else
             match GetVisualizationCode(RequestOf(s1), env.table, env.model, Some(code), Some(feedback), env.keys, env.api)
             case Ok(c) => (s1[GeneratedCode := Str(c)], None)
             case Err(e) => (s1, Some(ErrorMessage(e.message))))
      case _ => (s1[GeneratedCode := NoneValue], Some(ErrorMessage(ExecFailure + "object has no attribute 'strip'")))
  }

  // ---------------------------------------------------------------------------
  // Properties of the transitions

  /** An empty or placeholder request only warns: nothing changes and nothing is generated. */
  lemma GenerateRejectsRequest(s: State, env: Env)
    requires RequestOf(s) == "" || RequestOf(s) == PlaceholderFor(env.selected)
    ensures GenerateStep(s, env) == (s, Some(Warning(RequestWarning)))
  {
  }

  /**
   * Without the selected backend's key the agent shows an error, changes nothing, and
   * calls no backend: the outcome is the same whatever the backends would do.
   */
  lemma GenerateNeedsKey(s: State, env: Env, api: Backends)
    requires RequestOf(s) != "" && RequestOf(s) != PlaceholderFor(env.selected)
    requires (env.model == GeminiModel && !Truthy(env.keys.gemini)) || (env.model == ChatGptModel && !Truthy(env.keys.openai))
    ensures GenerateStep(s, env).0 == s && GenerateStep(s, env).1.Some? && GenerateStep(s, env).1.value.ErrorMessage?
    ensures GenerateStep(s, env) == GenerateStep(s, env.(api := api))
  {
  }

  /**
   * A valid request stores the generated code and resets the feedback to "", or, when
   * generation fails, sets the code to `None`; no other key changes.
   */
  lemma GenerateStores(s: State, env: Env)
    requires RequestOf(s) != "" && RequestOf(s) != PlaceholderFor(env.selected)
    requires !(env.model == GeminiModel && !Truthy(env.keys.gemini)) && !(env.model == ChatGptModel && !Truthy(env.keys.openai))
    ensures var r := GetVisualizationCode(RequestOf(s), env.table, env.model, None, None, env.keys, env.api);
      var (t, notice) := GenerateStep(s, env);
      (r.Ok? ==> (t[GeneratedCode] == Str(r.value) && t[FeedbackKey] == Str("") && notice.None? &&
                  OthersKept(s, t, {GeneratedCode, FeedbackKey}))) &&
      (r.Err? ==> (t[GeneratedCode] == NoneValue && notice == Some(ErrorMessage(r.error.message)) &&
                   OthersKept(s, t, {GeneratedCode})))
  {
  }

  /** "Clear" removes exactly the five listed keys, and keeps every other key and its value. */
  lemma ClearExact(s: State)
    ensures forall k :: k in ClearStep(s) <==> k in s && k !in ClearedKeys
    ensures OthersKept(s, ClearStep(s), set k | k in ClearedKeys)
  {
  }

  /** "Show/Hide" flips the flag, starting from hidden, and touches nothing else. */
  lemma ToggleFlips(s: State)
    ensures ShowCodeOn(ToggleStep(s)) == !ShowCodeOn(s)
    ensures ShowCode !in s ==> ToggleStep(s)[ShowCode] == Flag(true)
    ensures OthersKept(s, ToggleStep(s), {ShowCode})
    ensures s[ShowCode := Flag(ShowCodeOn(s))] == ToggleStep(ToggleStep(s))
  {
  }

  /** Without a truthy `generated_code` the display block does nothing. */
  lemma DisplayIdle(s: State, click: Click, feedback: string, run: string -> ExecOutcome, env: Env)
    requires !(GeneratedCode in s && IsTruthy(s[GeneratedCode]))
    ensures DisplayStep(s, click, feedback, run, env) == (s, None)
  {
  }

  /** An exception while running the code sets it to `None` and shows the error. */
  lemma ExecFailureDropsCode(s: State, click: Click, feedback: string, run: string -> ExecOutcome, env: Env)
    requires GeneratedCode in s && s[GeneratedCode].Str? && |s[GeneratedCode].s| > 0
    requires run(Sanitize(s[GeneratedCode].s)).Raised?
    ensures var (t, notice) := DisplayStep(s, click, feedback, run, env);
      t[GeneratedCode] == NoneValue &&
      notice == Some(ErrorMessage(ExecFailure + run(Sanitize(s[GeneratedCode].s)).message))
  {
  }

  /** A run that leaves no `fig` only warns: the code stays, only the toggle may change. */
  lemma NoChartKeepsCode(s: State, click: Click, feedback: string, run: string -> ExecOutcome, env: Env)
    requires GeneratedCode in s && s[GeneratedCode].Str? && |s[GeneratedCode].s| > 0
    requires run(Sanitize(s[GeneratedCode].s)) == Ran(false)
    ensures var (t, notice) := DisplayStep(s, click, feedback, run, env);
      t[GeneratedCode] == s[GeneratedCode] && notice == Some(Warning(NoChartWarning)) &&
      OthersKept(s, t, {ShowCode}) && (click != ToggleClick ==> t == s)
  {
  }

  /**
   * Regeneration needs feedback: with empty feedback it warns and calls no backend;
   * otherwise the previous code and the feedback go to the backend, and only a success
   * replaces the code.
   */
  lemma RegenerateNeedsFeedback(s: State, feedback: string, run: string -> ExecOutcome, env: Env, api: Backends)
    requires GeneratedCode in s && s[GeneratedCode].Str? && |s[GeneratedCode].s| > 0
    requires run(Sanitize(s[GeneratedCode].s)) == Ran(true)
    ensures feedback == "" ==>
      DisplayStep(s, RegenerateClick, feedback, run, env) == (s, Some(Warning(FeedbackWarning))) &&
      DisplayStep(s, RegenerateClick, feedback, run, env) == DisplayStep(s, RegenerateClick, feedback, run, env.(api := api))
    ensures feedback != "" ==>
      var r := GetVisualizationCode(RequestOf(s), env.table, env.model, Some(s[GeneratedCode].s), Some(feedback), env.keys, env.api);
      var (t, notice) := DisplayStep(s, RegenerateClick, feedback, run, env);
      (r.Ok? ==> t == s[GeneratedCode := Str(r.value)]) && (r.Err? ==> t == s && notice == Some(ErrorMessage(r.error.message)))
  {
  }

  // ---------------------------------------------------------------------------
  // The page's session

  class AgentSession {
    /** `st.session_state` */
    var state: State

    constructor(initial: State)
      ensures state == initial
    {
      state := initial;
    }

    /** The request text area: `user_request` takes what the widget returns. */
    method EnterRequest(typed: string)
      modifies this
      ensures state == old(state)[UserRequest := Str(typed)]
    {
      if UserRequest !in state {
        state := state[UserRequest := Str("")];
      }
      state := state[UserRequest := Str(typed)];
    }

    method Generate(env: Env) returns (notice: Option<Notice>)
      modifies this
      ensures (state, notice) == GenerateStep(old(state), env)
    {
      var request := RequestOf(state);
      if request == "" || request == PlaceholderFor(env.selected) {
        return Some(Warning(RequestWarning));
      } else if env.model == GeminiModel && !Truthy(env.keys.gemini) {
        return Some(ErrorMessage(GeminiKeyMissing));
      } else if env.model == ChatGptModel && !Truthy(env.keys.openai) {
        return Some(ErrorMessage(OpenAiKeyMissing));
      }
      var r := GetVisualizationCode(request, env.table, env.model, None, None, env.keys, env.api);
      if r.Ok? {
        state := state[GeneratedCode := Str(r.value)];
        state := state[FeedbackKey := Str("")];
        notice := None;
      } else {
        notice := Some(ErrorMessage(r.error.message));
        state := state[GeneratedCode := NoneValue];
      }
    }

    /** The deletion loop over `keys_to_clear`. */
    method Clear()
      modifies this
      ensures state == ClearStep(old(state))
    {
      var i := 0;
      while i < |ClearedKeys|
        invariant 0 <= i <= |ClearedKeys|
        invariant state == old(state) - set j | 0 <= j < i :: ClearedKeys[j]
      {
        var key := ClearedKeys[i];
        if key in state {
          state := state - {key};
        }
        assert (set j | 0 <= j < i + 1 :: ClearedKeys[j]) == (set j | 0 <= j < i :: ClearedKeys[j]) + {key};
        i := i + 1;
      }
      assert (set j | 0 <= j < |ClearedKeys| :: ClearedKeys[j]) == set k | k in ClearedKeys;
    }

    method Toggle()
      modifies this
      ensures state == ToggleStep(old(state))
    {
      var shown := ShowCode in state && IsTruthy(state[ShowCode]);
      state := state[ShowCode := Flag(!shown)];
    }

    method Display(click: Click, feedback: string, run: string -> ExecOutcome, env: Env) returns (notice: Option<Notice>)
      modifies this
      ensures (state, notice) == DisplayStep(old(state), click, feedback, run, env)
    {
      if !(GeneratedCode in state && IsTruthy(state[GeneratedCode])) {
        return None;
      }
      var value := state[GeneratedCode];
      if click == ToggleClick {
        Toggle();
      }
      if !value.Str? {
        state := state[GeneratedCode := NoneValue];
        return Some(ErrorMessage(ExecFailure + "object has no attribute 'strip'"));
      }
      var code := value.s;
      var out := run(Sanitize(code));
      if out.Raised? {
        state := state[GeneratedCode := NoneValue];
        return Some(ErrorMessage(ExecFailure + out.message));
      }
      if !out.figure {
        return Some(Warning(NoChartWarning));
      }
      if click != RegenerateClick {
        return None;
      }
      if feedback == "" {
        return Some(Warning(FeedbackWarning));
      }
      var r := GetVisualizationCode(RequestOf(state), env.table, env.model, Some(code), Some(feedback), env.keys, env.api);
      if r.Ok? {
        state := state[GeneratedCode := Str(r.value)];
        notice := None;
      } else {
        notice := Some(ErrorMessage(r.error.message));
      }
    }

    /**
     * One run of `show_plot_agent`: the request is read from its text area, then the
     * clicked button acts; "Clear" reruns the page at once, so nothing is displayed after it.
     */
    method ShowPlotAgent(typed: string, click: Click, feedback: string, run: string -> ExecOutcome, env: Env)
      returns (notices: seq<Notice>)
      modifies this
      ensures var s0 := old(state)[UserRequest := Str(typed)];
        var (s1, n1) := if click == GenerateClick then GenerateStep(s0, env) else (s0, None);
        if click == ClearClick then state == ClearStep(s1) && notices == []
        else
          var (s2, n2) := DisplayStep(s1, click, feedback, run, env);
          state == s2 && notices == (if n1.Some? then [n1.value] else []) + (if n2.Some? then [n2.value] else [])
    {
      EnterRequest(typed);
      var n1: Option<Notice> := None;
      if click == GenerateClick {
        n1 := Generate(env);
      }
      if click == ClearClick {
        Clear();
        return [];
      }
      var n2 := Display(click, feedback, run, env);
      notices := (if n1.Some? then [n1.value] else []) + (if n2.Some? then [n2.value] else []);
    }
  }
}
