# ChatGPT Enterprise usage dashboard — a Dafny model

This project models the logic behind a Streamlit dashboard of ChatGPT Enterprise usage. The dashboard:

- reads weekly usage reports (CSV exports with one row per user);
- keeps three master tables in the session: users, model usage and tool usage;
- filters and sorts them into views;
- computes week-over-week KPIs;
- offers a "plot agent" that asks Gemini or ChatGPT for Plotly code, cleans it and runs it.

The model is written in Dafny, one module per concern:

| module | file | what it models |
|---|---|---|
| `Wrappers` | wrappers.dfy | `Option` and `Result` |
| `Strings` | strings.dfy | `str.strip`, `str.replace`, `str.split`, `startswith`/`endswith`, substring search |
| `Dates` | dates.dfy | `strptime`/`strftime` with `'%Y-%m-%d'`; dates as ordered integer keys |
| `MappingLiteral` | literal.dfy | the `{'key': count}` cells read with `ast.literal_eval` |
| `Data` | data.dfy | `src/core/data.py`: column lists, empty tables, cleaning, coercion, flattening, `process_uploaded_file` |
| `MasterStore` | master_store.dfy | `src/ui/sidebar.py` and `src/app.py`: upload, duplicate guard, deletion, processed dates, one-time load, filtered views |
| `KeyMetrics` | key_metrics.dfy | `calculate_weekly_kpis` and `display_kpis` in `src/ui/key_metrics.py` and `src/ui/main_page.py` |
| `LlmClient` | llm_client.dfy | prompt building and backend dispatch of `src/core/llm_client.py` |
| `PlotAgent` | plot_agent.dfy | the session-state machine of `show_plot_agent` (`src/ui/plot_agent.py`; the same logic in `show_main_page`), and its fence sanitizer |
| `LegacyApp` | legacy_app.dfy | the first version, `app.py`: its Gemini-only generator, its prefix/suffix sanitizer and its button handler |

How the model is shaped:

- Tables are sequences of rows, and cells are `Missing | Text | Num | Flag | Day`.
- Dates are integers `year * 10000 + month * 100 + day`, so integer order is calendar order.
- KPI arithmetic uses exact `real`s.
- Where the source mutates state, the model does too:
  - `UploadedFrame` is a class, and `process_uploaded_file` changes it in place;
  - `MasterStore.Session` holds the three session tables, plus a ghost copy of what was last saved to Parquet;
  - `PlotAgent.AgentSession` holds `st.session_state` as a map;
  - the loops of `_flatten_data`, of the key-clearing button and of the column conversions in `process_uploaded_file` are `while` loops with invariants;
  - the legacy sanitizer in `app.py` is a method of straight-line steps, as in the source, which has no loop there.
- Each of these is proved against a specification function, and the lemmas about that function state what the source promises.
- Things the model does not run are parameters:
  - the Gemini and OpenAI clients are function-valued oracles that return code or an error message;
  - the `exec` of generated code is an oracle returning `Raised(message)`, `Ran(false)` (no `fig`) or `Ran(true)`;
  - the API keys, the PM e-mail list and the saved Parquet tables are inputs.

Fence removal and backend failures are handled differently in the two versions of the app:

- The code has two sanitizers for generated code:
  - `src/ui/plot_agent.py` and `src/ui/main_page.py` remove every fence, interior ones included;
  - `app.py` cuts only a leading "```python" and a trailing "```".
  - `SanitizersDiffer` shows an input where they disagree.
- `src/core/llm_client.py` raises `ValueError` for a missing key or an unknown backend, and `RuntimeError` for a failed call. `app.py` instead returns `None` and shows the error.

## Model

| member | source | states |
|---|---|---|
| Data.InitializeMasterDataframes | src/core/data.py:16-37 | the three master tables start empty |
| Data.ToDate | src/core/data.py:121-123 | `to_datetime(errors='coerce')` yields a date or a missing value, never anything else |
| Data.ToNumberDefault | src/core/data.py:125-127 | a missing count, or text that is neither an integer nor a decimal, becomes 0 |
| Data.ToNumberDecimal | src/core/data.py:125-127 | a decimal count is truncated toward zero by `astype(int)`: `12.7` gives 12 and `-3.9` gives -3 |
| Data.ToNumberRender | src/core/data.py:125-127 | a parseable integer keeps its value, negatives included |
| Data.ConversionsIdempotent | src/core/data.py:121-130 | converting an already converted date, count or flag again changes nothing |
| Data.DropIncomplete | src/core/data.py:83 | `dropna(subset)` keeps only rows of the input, and only rows whose subset columns are all present |
| Data.DropIncompleteKeeps | src/core/data.py:83 | every complete input row survives `dropna` |
| Data.Absent | src/core/data.py:83 | the subset columns missing from the table are exactly those listed and absent (`dropna` raises `KeyError` on them) |
| Data.CoerceAllSucceeds | src/core/data.py:121-130 | the conversion loops succeed exactly when every converted column exists |
| Data.CoerceAllOk | src/core/data.py:121-130 | the converted table keeps its columns and row count, and row k is row k converted |
| Data.CoercedDates | src/core/data.py:121-123 | conversion keeps the dates of `week_start` and `last_day_active` |
| Data.CoercedCounts | src/core/data.py:125-127 | conversion keeps the numeric value of the four count columns |
| Data.CoercedOthers | src/core/data.py:129-130 | conversion keeps the truth of `is_active` and leaves status, email and name alone |
| Data.ToUserCoerced | src/core/data.py:121-135 | the users row built from a converted row equals the one built from the raw row |
| Data.ToUserProjection | src/core/data.py:135 | `reindex(columns=USER_COLS)` depends only on the `USER_COLS` cells, so extra columns are dropped |
| Data.Reindex | src/core/data.py:135 | the users table has one row per cleaned input row |
| Data.WithMapping | src/core/data.py:85-86 | only rows whose cell text starts with `{` are kept, in order |
| Data.WithMappingKeeps | src/core/data.py:85-86 | every row whose cell starts with `{` is kept |
| Data.ParseAllEntries | src/core/data.py:92 | when all cells parse, entry list i is the parse of row i's cell |
| Data.ParseAllFails | src/core/data.py:92 | one kept cell that does not parse makes `literal_eval`, and so the whole step, fail |
| Data.Unnest | src/core/data.py:94-100 | the nested loop's records are exactly `AllRecords`: row order, then entry order |
| Data.AllRecords | src/core/data.py:94-100 | the flattened table has exactly one record per entry of each kept row |
| Data.AllRecordsAt | src/core/data.py:94-100 | entry j of kept row i lands at position `Position(i, j)`, with that row's ids and that entry's key and value |
| Data.AllRecordsOrigin | src/core/data.py:94-100 | every record comes from some entry of some kept row |
| Data.FlattenData | src/core/data.py:77-102 | the imperative `_flatten_data` returns exactly the specification `FlattenSpec` |
| Data.FlattenRecords | src/core/data.py:83-100 | a successful flattening has one record per entry, at the position given by row then entry order |
| Data.FlattenOrigin | src/core/data.py:83-100 | every flattened record comes from an input row with all ids, a `{`-cell and a parsed entry of it |
| Data.FlattenSkipsRow | src/core/data.py:83-86 | a row missing an id or the mapped cell, or whose cell does not start with `{`, contributes nothing |
| Data.FlattenMalformed | src/core/data.py:92 | a kept `{`-cell that does not parse makes flattening fail |
| Data.IngestOk | src/core/data.py:105-149 | a successful ingestion gives the reindexed users and the two flattened tables |
| Data.IngestUsers | src/core/data.py:117-135 | the users table has one row per input row with an email, in order, and every email is present |
| Data.IngestReferential | src/core/data.py:117-140 | every model or tool record's (week, email, name) appears on a row of the users table, and its week is set |
| Data.IngestNeedsEmail | src/core/data.py:117 | a report with no `email` column fails with that column missing |
| Data.UploadedFrame.constructor | src/core/data.py:105 | a frame holds the given columns and rows |
| Data.ProcessUploadedFile | src/core/data.py:105-149 | the result is exactly `Ingest` of the original table. The caller's frame is left as it was when the `email` column is missing. Otherwise it keeps the renamed columns, and after a successful cleaning it holds exactly the cleaned table (rows without email dropped, `period_start` renamed, columns converted) |
| MappingLiteral.ParseMappingDistinct | src/core/data.py:92 | a parsed mapping has distinct keys; a later duplicate key overwrites the earlier value, as a Python dict does |
| MappingLiteral.UpsertKeySet | src/core/data.py:92 | inserting into a dict adds exactly the inserted key |
| MappingLiteral.DictOfKeys | src/core/data.py:92 | building a dict from pairs keeps exactly the keys of the pairs, each once |
| MappingLiteral.ParseRender | src/core/data.py:92 | parsing the repr of a `{'key': int}` dict gives back its entries: repr and `literal_eval` round-trip |
| Dates.DateKeyOrder | src/ui/sidebar.py:101-102 | comparing date keys is comparing (year, month, day) lexicographically |
| Dates.ParseIsoDate | src/ui/sidebar.py:44 | a parsed date is a real calendar date |
| Dates.ParseFormatIsoDate | src/ui/sidebar.py:44 | `strptime('%Y-%m-%d')` reads back what `strftime('%Y-%m-%d')` writes |
| MasterStore.ReportDateOfName | src/ui/sidebar.py:43-44 | the report date is the last space-separated token of the file name, without `.csv`, parsed as a date |
| MasterStore.Upload | src/ui/sidebar.py:31-69 | the tables change only on `Appended`. That needs a file whose name has a date, a week not already in the users table, and a successful ingestion; the tables then become old rows followed by new rows |
| MasterStore.UploadAppends | src/ui/sidebar.py:53-65 | a new week that ingests is appended to each table, and every appended user has an email |
| MasterStore.UploadedWeekRefused | src/ui/sidebar.py:47-48 | uploading the same week again is refused and leaves all three tables unchanged |
| MasterStore.IngestReport | src/ui/sidebar.py:52-53 | reading the file into a fresh frame and processing it gives `Ingest` of its content |
| MasterStore.DeleteWeekRemoves | src/ui/sidebar.py:15-17 | after deletion, no row of any table has that week, and every remaining row was there before |
| MasterStore.DeleteAbsentWeek | src/ui/sidebar.py:15-17 | deleting a week that has no rows changes nothing |
| MasterStore.DeleteAfterAppend | src/ui/sidebar.py:15-17 | deleting from appended tables is appending the deleted parts, so relative order is kept |
| MasterStore.FilterMembers | src/app.py:39-53 | an element is in a filtered view iff it is in the table and passes the test |
| MasterStore.FilterAppend | src/ui/sidebar.py:15-17 | filtering distributes over concatenation, which keeps relative order |
| MasterStore.FilterAll | src/app.py:43-46 | a filter that keeps everything is an unchanged copy |
| MasterStore.FilterMultiset | src/app.py:39-53 | a filter keeps every row that passes as often as the table has it, and drops every other row |
| MasterStore.InsertDateCorrect | src/ui/sidebar.py:101-102 | inserting a date into a duplicate-free newest-first list keeps it duplicate-free and newest first, and adds exactly that date |
| MasterStore.ProcessedDates | src/ui/sidebar.py:99-102 | the processed-dates list is strictly newest first and holds exactly the weeks of the users table |
| MasterStore.WeekListed | src/ui/sidebar.py:101-102 | every dated users row has its week listed |
| MasterStore.DateRangeBounds | src/ui/sidebar.py:80-87 | the date-range defaults exist iff some row is dated, and are the least and greatest week of the users table |
| MasterStore.InsertByWeekMultiset | src/app.py:56-58 | inserting into the sorted view adds exactly that row |
| MasterStore.InsertByWeekSorted | src/app.py:56-58 | inserting into a newest-first view keeps it newest first |
| MasterStore.SortByWeekCorrect | src/app.py:56-58 | the sort is newest first (missing weeks last) and a permutation of its input |
| MasterStore.ViewContents | src/app.py:38-58 | a view is sorted newest first. A row that passes the PM test (when `pm_only` is set) and the inclusive date test (when both bounds are set) appears exactly as often as in the table; any other row does not appear |
| MasterStore.ViewUnfiltered | src/app.py:43-46 | with neither filter, a view is a permutation of the whole table |
| MasterStore.Session.constructor | src/app.py:21 | a new session is not yet initialized, and its tables are empty |
| MasterStore.Session.Initialize | src/app.py:21-28 | called with the saved tables, it loads them only on the first run; after that the flag is set and later runs change nothing |
| MasterStore.Session.HandleFileUpload | src/ui/sidebar.py:31-69 | the session tables follow `Upload`, and they are saved exactly when rows were appended |
| MasterStore.Session.AppendReport | src/ui/sidebar.py:53-65 | an ingested report is appended and saved; a failed one leaves the tables and what was saved unchanged |
| MasterStore.Session.HandleDateDeletion | src/ui/sidebar.py:6-24 | the tables lose exactly the rows of that week, and the filtered tables are saved |
| MasterStore.Session.BuildViews | src/app.py:38-58 | the views are the filtered, sorted tables; the session tables are not modified |
| KeyMetrics.PercentageChangeInverse | src/ui/key_metrics.py:53-56 | with a non-zero previous value, applying the percentage change to previous gives current back |
| KeyMetrics.PercentageChangeSign | src/ui/key_metrics.py:53-56 | 100 or 0 when previous is 0. Otherwise the change's sign follows current against previous (reversed for a negative previous), and it is 0 iff they are equal |
| KeyMetrics.UniqueWeeksNonEmpty | src/ui/key_metrics.py:21-26 | a non-empty users table has at least one distinct week |
| KeyMetrics.CurrentAndPreviousWeek | src/ui/key_metrics.py:21-41 | the current week is the latest distinct week, and the previous week is the latest week before it (for a table whose undated rows come last; see Left out) |
| KeyMetrics.MetricsConsistent | src/ui/key_metrics.py:58-88 | active users never exceed total users, and average × total users = total messages |
| KeyMetrics.KpiKeysInOrder | src/ui/key_metrics.py:8-90 | empty input ⇒ no KPIs. Otherwise the four keys come in order; with one distinct week every change is None, with two or more every change is set |
| KeyMetrics.SelectedRows | src/ui/key_metrics.py:44-45 | a week's rows are exactly the rows dated that week |
| KeyMetrics.KpiValues | src/ui/key_metrics.py:58-88 | the values are the current week's row count, `is_active` count, message sum and mean (0 with no rows) |
| KeyMetrics.KpiChanges | src/ui/key_metrics.py:58-88 | each change is the percentage change of that metric from the previous week to the current one |
| KeyMetrics.TitleFrom | src/ui/main_page.py:117 | `str.title` keeps length, keeps which characters are letters, and leaves other characters alone |
| KeyMetrics.TitleFromIdempotent | src/ui/main_page.py:117 | title-casing twice is title-casing once |
| KeyMetrics.TitleFromCases | src/ui/main_page.py:117 | `str.title` changes only letter case: a letter is upper-case exactly when the character before it is not a letter |
| KeyMetrics.ReplaceCharPointwise | src/ui/main_page.py:117 | `str.replace` of one character by another keeps the length and changes exactly the matching positions |
| KeyMetrics.ReplaceAllRemovesChar | src/ui/main_page.py:117 | replacing `_` by a space leaves no `_` |
| KeyMetrics.ConfigFallback | src/ui/main_page.py:101-117 | only `avg_messages_per_user` is shown as a float. An unknown key gets a name of the same length: `_` becomes a space, every other character keeps its letter, and a letter is upper-case exactly when it starts the key or follows a non-letter; the name is already in title case |
| KeyMetrics.FormatValueScale | src/ui/key_metrics.py:119-126 | float KPIs are never suffixed; otherwise ≥ 1,000,000 → `M` of value/10⁶, ≥ 1,000 → `K` of value/10³, else `int(value)`, truncated toward zero |
| KeyMetrics.DisplayMetricCards | src/ui/key_metrics.py:94-141 | no KPIs ⇒ only the notice. Otherwise one metric per KPI, in order, with its configured caption and a delta iff there is a change |
| KeyMetrics.BadgeFollowsChange | src/ui/main_page.py:131-144 | a change > 0 gives ↗ green, < 0 gives ↘ red, 0 gives → gray, None gives n/a; stated in terms of current against previous |
| KeyMetrics.DisplayStyledCards | src/ui/main_page.py:96-186 | no KPIs ⇒ only the notice. Otherwise one card per KPI with its caption, showing n/a exactly when there is no change |
| LlmClient.PromptMode | src/core/llm_client.py:33-125 | the refinement prompt is used iff previous code and feedback are both truthy |
| LlmClient.RefineEmbeds | src/core/llm_client.py:35-80 | the refinement prompt embeds schema, head, tail, request, previous code and feedback |
| LlmClient.InitialEmbeds | src/core/llm_client.py:83-125 | the initial prompt embeds schema, head, tail and request |
| LlmClient.PromptListsColumns | src/core/llm_client.py:31-116 | either prompt lists every column name, quoted as in a Python list |
| LlmClient.SourceOpeningsDistinct | src/core/llm_client.py:35-85 | the two prompts' fixed openings differ, so the mode can be read off the prompt |
| LlmClient.MissingKeyRejected | src/core/llm_client.py:128-141 | without the selected backend's key a `ValueError` is raised, and no backend is called (the result does not depend on the backends) |
| LlmClient.UnknownModelRejected | src/core/llm_client.py:155-156 | any other backend name raises `ValueError` |
| LlmClient.BackendOutcome | src/core/llm_client.py:131-153 | with a key, the backend's code is returned as is; its failure is re-raised as `RuntimeError` whose message ends with the original one |
| PlotAgent.SanitizeNoFence | src/ui/plot_agent.py:111 | the sanitized code contains no three-backtick fence at all |
| PlotAgent.NoFenceLeft | src/ui/plot_agent.py:111 | removing every fence left to right leaves none, even where removals bring backticks together |
| PlotAgent.SanitizeUnfenced | src/ui/main_page.py:311 | code without fences is only stripped |
| PlotAgent.GenerateRejectsRequest | src/ui/plot_agent.py:63-64 | an empty or placeholder request only warns; the state is unchanged |
| PlotAgent.GenerateNeedsKey | src/ui/plot_agent.py:67-70 | a missing key shows an error, changes nothing, and calls no backend |
| PlotAgent.GenerateStores | src/ui/plot_agent.py:73-85 | success stores the code and resets the feedback to ""; failure sets the code to None and shows the error; no other key changes |
| PlotAgent.ClearExact | src/ui/plot_agent.py:89-95 | Clear removes exactly the five listed keys that are present; every other key keeps its value |
| PlotAgent.ToggleFlips | src/ui/plot_agent.py:102-103 | Show/Hide flips `show_code`, from hidden on first use; nothing else changes, and toggling twice restores it |
| PlotAgent.DisplayIdle | src/ui/plot_agent.py:99 | without truthy generated code nothing is displayed or run |
| PlotAgent.ExecFailureDropsCode | src/ui/plot_agent.py:157-160 | an exception while running the code sets it to None and shows the message |
| PlotAgent.NoChartKeepsCode | src/ui/plot_agent.py:120-155 | a run without `fig` only warns and keeps the code |
| PlotAgent.RegenerateNeedsFeedback | src/ui/plot_agent.py:135-151 | empty feedback warns without calling a backend. Otherwise previous code and feedback go to the backend; success replaces the code, and failure only shows the error |
| PlotAgent.AgentSession.constructor | src/ui/plot_agent.py:6 | the session starts from the given state |
| PlotAgent.AgentSession.EnterRequest | src/ui/plot_agent.py:45-54 | the text area's value becomes `user_request` |
| PlotAgent.AgentSession.Generate | src/ui/plot_agent.py:61-85 | the Generate button changes the session as `GenerateStep` |
| PlotAgent.AgentSession.Clear | src/ui/plot_agent.py:89-95 | the deletion loop leaves exactly `ClearStep` |
| PlotAgent.AgentSession.Toggle | src/ui/plot_agent.py:102-103 | the toggle leaves exactly `ToggleStep` |
| PlotAgent.AgentSession.Display | src/ui/plot_agent.py:97-160 | the display block changes the session as `DisplayStep` |
| PlotAgent.AgentSession.ShowPlotAgent | src/ui/main_page.py:243-360 | one page run: request, then the clicked button. Clear reruns at once; otherwise generation then display, with their messages in order |
| LegacyApp.StripFences | app.py:146-151 | the step-by-step sanitizer yields `Unfence(code)`, which is whitespace-trimmed |
| LegacyApp.UnfenceWrapped | app.py:148-151 | a trimmed body wrapped in a python fence and a closing fence comes back exactly |
| LegacyApp.UnfenceUnfenced | app.py:147-151 | code without leading or trailing fences is only stripped |
| LegacyApp.UnfenceInfix | app.py:147-151 | the result is a piece of the stripped code; interior fences survive |
| LegacyApp.SanitizersDiffer | app.py:146-151 | the prefix/suffix sanitizer keeps an interior fence that the global-replace sanitizer removes |
| LegacyApp.LegacyPromptEmbeds | app.py:88-112 | the prompt embeds the schema, the head and the quoted request |
| LegacyApp.LegacyFailureIsNone | app.py:73-119 | a configuration or API failure returns None with an error shown, never code; success returns the text |
| LegacyApp.OnGenerate | app.py:134-167 | empty request ⇒ only a warning. Otherwise truthy code is cleaned and run, and `fig` decides between chart and warning; an exception shows the error; without code nothing runs |
| Strings.Strip | app.py:147 | `str.strip` leaves no leading or trailing whitespace and never lengthens |
| Strings.StripSlice | app.py:147 | the stripped text is a slice of the input with only whitespace cut on either side |
| Strings.StripPadded | app.py:147-151 | stripping whitespace-padded trimmed text gives that text |
| Strings.ReplaceAbsent | src/ui/plot_agent.py:111 | `str.replace` of an absent pattern leaves the text unchanged |
| Strings.JoinSplit | src/ui/sidebar.py:43 | `str.split` loses nothing: joining the parts gives the text back |
| Strings.SplitLast | src/ui/sidebar.py:43 | the last part of a split is the text after the last separator |

## Left out

- Parquet persistence (src/core/data.py:40-74) is file I/O. Saved tables are an input to `Session.Initialize` plus a ghost "last saved" copy.
- `pd.read_csv` and `pm_emails.csv` are file I/O. The uploaded table and the PM list are inputs.
- The `exec` of generated code is modelled as an oracle: `Raised`, `Ran(false)` or `Ran(true)`.
- The Gemini and OpenAI calls are oracles returning code or an error message.
- `df.info()`, `head()` and `tail()` text is pandas formatting. The schema, head and tail strings are opaque inputs.
- `.1f` formatting, HTML cards and the 4-per-row widget grid are float rendering and UI. Only the suffix, arrow, colour and n/a choices are modelled.
- Spinners, `st.code` display, toasts, reruns and widget placeholders are UI.
- `pd.to_datetime` accepts more formats than ISO `YYYY-MM-DD`; the model reads only that one and coerces the rest to missing. Dtype inference over whole columns is left out too: each cell is converted alone.
- Only the `{'key': int}` literals that usage cells hold are read. Any other Python literal `ast.literal_eval` accepts is treated as malformed.
- A raw report holding both `period_start` and `week_start` is left out: pandas would produce duplicate columns. The model's rename lets `period_start` win.
- KeyMetrics.UniqueWeeks: `NaT` is placed after the dated weeks. The source's `sorted` leaves a `NaT` where `unique()` put it, because every comparison with `NaT` is false, so the two agree only when the undated rows come after the dated ones. That is how src/app.py passes its views, sorted with `NaT` last or filtered by date. On other row orders the source can take `NaT` or an older week as the current week.
- `NaT` week values sort last in the views, as pandas places them. The sort is not claimed to be stable, matching `sort_values`.
- `str.title` is modelled for ASCII letters only.
- Data.ToNumber: integer and decimal text are read, and a decimal is truncated toward zero. Other text that `pd.to_numeric` reads, such as exponent notation (`1e3`) or a number with blanks around it (` 12`), becomes 0 in the model. Text that pandas reads as infinity (`inf`, `-inf`, `Infinity`) makes the source's `astype(int)` raise, so the upload fails; the model gives 0 and the upload succeeds. The int64 range of `astype(int)` is not modelled: counts are unbounded integers.
- ToNumberDefault: the text it sends to 0 includes the other forms that `pd.to_numeric` reads, as listed for `Data.ToNumber`.
- DateRangeBounds: rows whose week is `NaT` are skipped. When every week is `NaT`, the source passes `NaT` as the bounds to `date_input` (src/ui/sidebar.py:83-87), while the model gives no bounds.
- MasterStore.ProcessedDates: `NaT` weeks are dropped. The source keeps `NaT` among the unique dates, and its `strftime` call then raises (src/ui/sidebar.py:101-107).
- Dates.ParseIsoDate: only ASCII digits are read. `strptime` also accepts other Unicode decimal digits.
- The prompt templates are modelled without the indentation of the f-strings' lines; the leading line break and every requirement line are kept.
- The escaping that Python's list repr applies to column names inside quotes is left out.
- An OpenAI reply with `content = None` is left out: the backend oracle returns a string.
- Generated code that is neither a string nor None: only those two are ever stored. The display step answers any other truthy value with the `AttributeError` message.
- The models and tools tables, which `calculate_weekly_kpis` filters but never uses for a KPI.
- `get_dummy_data` in app.py is a fixed demo table.
- gemini_client.py, the root data.py and src/ui/explore_dataframes.py are not part of this model: a superseded SDK wrapper, a demo fixture and pure table display.
- `UploadedFrame`: aliasing of the uploaded frame with other references is not modelled; only the frame's own in-place change is.
