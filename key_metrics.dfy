/**
 * The "Most Recent Week KPIs" of the dashboard (`src/ui/key_metrics.py`, repeated in
 * `src/ui/main_page.py`): the two latest distinct weeks of the users table, four
 * metrics of each, their percentage change, and how a metric card shows them.
 * Arithmetic is exact (`real`); the `.1f` rendering of floats is not modelled.
 */
module KeyMetrics {
  import opened Wrappers
  import opened Strings
  import opened Dates
  import opened Data
  import opened MasterStore

  // ---------------------------------------------------------------------------
  // Percentage change

  /** The inner `calculate_percentage_change(current, previous)`. */
  function PercentageChange(current: real, previous: real): real {
    if previous == 0.0 then (if current > 0.0 then 100.0 else 0.0)
    else (current - previous) / previous * 100.0
  }

  /** From a non-zero previous value, applying the change gives back the current one. */
  lemma PercentageChangeInverse(current: real, previous: real)
    requires previous != 0.0
    ensures previous + previous * PercentageChange(current, previous) / 100.0 == current
  {
    var q := (current - previous) / previous;
    assert previous * q == current - previous;
    assert previous * (q * 100.0) / 100.0 == previous * q;
  }

  /**
   * The sign of the change: from zero, 100% for growth and 0% otherwise; from a
   * positive value, the sign of the difference; from a negative value, its opposite.
   */
  lemma PercentageChangeSign(current: real, previous: real)
    ensures previous == 0.0 ==> PercentageChange(current, previous) == (if current > 0.0 then 100.0 else 0.0)
    ensures previous > 0.0 ==>
      (PercentageChange(current, previous) > 0.0 <==> current > previous) &&
      (PercentageChange(current, previous) < 0.0 <==> current < previous)
    ensures previous < 0.0 ==>
      (PercentageChange(current, previous) > 0.0 <==> current < previous) &&
      (PercentageChange(current, previous) < 0.0 <==> current > previous)
    ensures previous != 0.0 ==> (PercentageChange(current, previous) == 0.0 <==> current == previous)
  {
    if previous != 0.0 {
      PercentageChangeInverse(current, previous);
      var q := (current - previous) / previous;
      assert previous * q == current - previous;
      if previous > 0.0 {
        assert q > 0.0 <==> current > previous;
        assert q < 0.0 <==> current < previous;
      } else {
        assert q > 0.0 <==> current < previous;
        assert q < 0.0 <==> current > previous;
      }
    }
  }

  // ---------------------------------------------------------------------------
  // The weeks compared

  predicate HasUndatedRow(users: seq<UserRecord>) {
    exists i :: 0 <= i < |users| && users[i].weekStart.None?
  }

  /**
   * `sorted(users_df['week_start'].unique(), reverse=True)` for a table whose undated rows
   * come after its dated ones: every dated week once, newest first, then NaT (`None`) if
   * some row has no week. Every comparison with NaT is false, so elsewhere in the table a
   * NaT keeps its place among the unique values instead of going last.
   */
  function UniqueWeeks(users: seq<UserRecord>): (ws: seq<Option<Date>>) {
    var ds := WeeksOf(users);
    seq(|ds|, i requires 0 <= i < |ds| => Some(ds[i])) + (if HasUndatedRow(users) then [None] else [])
  }

  /** The rows of week `w`: `users_df[users_df['week_start'] == w]`; NaT equals nothing. */
  function Selected(users: seq<UserRecord>, w: Option<Date>): seq<UserRecord> {
    Filter(users, (u: UserRecord) => w.Some? && u.weekStart == w)
  }

  /** A non-empty table has at least one distinct week. */
  lemma UniqueWeeksNonEmpty(users: seq<UserRecord>)
    requires |users| > 0
    ensures |UniqueWeeks(users)| >= 1
  {
    if users[0].weekStart.Some? {
      WeekListed(users, users[0]);
    } else {
      assert HasUndatedRow(users);
    }
  }

  /**
   * The current week is the latest week of the table (or NaT when no row is dated),
   * and the previous week is the latest one before it (or NaT when only one week is dated).
   */
  lemma {:induction false} CurrentAndPreviousWeek(users: seq<UserRecord>)
    requires |users| > 0
    ensures var ws := UniqueWeeks(users);
      |ws| >= 1 &&
      (ws[0].Some? ==> ((exists u :: u in users && u.weekStart == ws[0]) &&
        forall u :: u in users && u.weekStart.Some? ==> u.weekStart.value <= ws[0].value)) &&
      (ws[0].None? ==> forall u :: u in users ==> u.weekStart.None?)
    ensures var ws := UniqueWeeks(users);
      |ws| >= 2 && ws[1].Some? ==>
        ws[0].Some? && ws[1].value < ws[0].value && (exists u :: u in users && u.weekStart == ws[1]) &&
        forall u :: u in users && u.weekStart.Some? && u.weekStart.value < ws[0].value ==> u.weekStart.value <= ws[1].value
    ensures var ws := UniqueWeeks(users);
      |ws| >= 2 && ws[1].None? ==>
        ws[0].Some? && forall u :: u in users && u.weekStart.Some? ==> u.weekStart == ws[0]
  {
    var ds := WeeksOf(users);
    var ws := UniqueWeeks(users);
    UniqueWeeksNonEmpty(users);
    ProcessedDates(users);
    assert forall i :: 0 <= i < |ds| ==> ws[i] == Some(ds[i]);
    assert |ds| == 0 ==> ws[0].None?;
    forall u | u in users && u.weekStart.Some?
      ensures |ds| > 0 && ds[|ds| - 1] <= u.weekStart.value <= ds[0]
      ensures u.weekStart.value < ds[0] ==> |ds| >= 2 && u.weekStart.value <= ds[1]
    {
      WeekListed(users, u);
      var i :| 0 <= i < |ds| && ds[i] == u.weekStart.value;
    }
    if |ds| > 0 {
      assert ds[0] in ds;
    }
    if |ds| > 1 {
      assert ds[1] in ds;
    }
  }

  // ---------------------------------------------------------------------------
  // The four metrics

  /** The sum of `messages` over some rows. */
  function TotalMessages(rows: seq<UserRecord>): int
    decreases |rows|
  {
    if |rows| == 0 then 0 else rows[0].messages + TotalMessages(rows[1..])
  }

  /** The rows whose `is_active` is true. */
  function ActiveRows(rows: seq<UserRecord>): seq<UserRecord> {
    Filter(rows, (u: UserRecord) => u.isActive)
  }

  /** The metrics of one week, as `len`, `is_active.sum()`, `messages.sum()` and `messages.mean()` compute them. */
  datatype WeekMetrics = WeekMetrics(totalUsers: real, activeUsers: real, totalMessages: real, avgMessages: real)

  function Metrics(rows: seq<UserRecord>): WeekMetrics {
    WeekMetrics(
      |rows| as real,
      |ActiveRows(rows)| as real,
      TotalMessages(rows) as real,
      if |rows| > 0 then TotalMessages(rows) as real / |rows| as real else 0.0)
  }

  /**
   * The metrics agree with each other: there are no more active users than users,
   * and the average times the number of users is the total (an empty week has
   * neither messages nor an average).
   */
  lemma MetricsConsistent(rows: seq<UserRecord>)
    ensures 0.0 <= Metrics(rows).activeUsers <= Metrics(rows).totalUsers
    ensures Metrics(rows).avgMessages * Metrics(rows).totalUsers == Metrics(rows).totalMessages
  {
    if |rows| == 0 {
      assert TotalMessages(rows) == 0;
    }
  }

  /** One KPI: its value, and its change from the previous week when there is one. */
  datatype Kpi = Kpi(key: string, value: real, change: Option<real>)

  const KpiKeys: seq<string> := ["total_users", "active_users", "total_messages", "avg_messages_per_user"]

  function KpiOf(key: string, current: real, previous: Option<real>): Kpi {
    Kpi(key, current, if previous.Some? then Some(PercentageChange(current, previous.value)) else None)
  }

  /** The four dictionary entries, in the order they are inserted. */
  function Report(current: WeekMetrics, previous: Option<WeekMetrics>): seq<Kpi> {
    [ KpiOf(KpiKeys[0], current.totalUsers, if previous.Some? then Some(previous.value.totalUsers) else None),
      KpiOf(KpiKeys[1], current.activeUsers, if previous.Some? then Some(previous.value.activeUsers) else None),
      KpiOf(KpiKeys[2], current.totalMessages, if previous.Some? then Some(previous.value.totalMessages) else None),
      KpiOf(KpiKeys[3], current.avgMessages, if previous.Some? then Some(previous.value.avgMessages) else None) ]
  }

  /**
   * `calculate_weekly_kpis(users_df, models_df, tools_df)`. The models and tools
   * tables are copied and converted but never read, so only the users table is an input.
   */
  function CalculateWeeklyKpis(users: seq<UserRecord>): seq<Kpi> {
    if |users| == 0 then []
    else
      var weeks := UniqueWeeks(users);
      if |weeks| < 2 then
        if |weeks| == 0 then []
        else Report(Metrics(Selected(users, weeks[0])), None)
      else Report(Metrics(Selected(users, weeks[0])), Some(Metrics(Selected(users, weeks[1]))))
  }

  /**
   * An empty table gives no KPIs; otherwise there are exactly the four keys, in order,
   * with a change for each when there are two distinct weeks and none for any when there is one.
   */
  lemma KpiKeysInOrder(users: seq<UserRecord>)
    ensures var kpis := CalculateWeeklyKpis(users);
      (|users| == 0 <==> kpis == []) &&
      (|users| > 0 ==> |kpis| == 4 && forall i :: 0 <= i < 4 ==> kpis[i].key == KpiKeys[i])
    ensures var kpis := CalculateWeeklyKpis(users);
      |users| > 0 ==>
        (|UniqueWeeks(users)| == 1 ==> forall i :: 0 <= i < 4 ==> kpis[i].change.None?) &&
        (|UniqueWeeks(users)| >= 2 ==> forall i :: 0 <= i < 4 ==> kpis[i].change.Some?)
  {
    if |users| > 0 {
      UniqueWeeksNonEmpty(users);
    }
  }

  /** The rows a week selects are exactly the table's rows of that (dated) week. */
  lemma SelectedRows(users: seq<UserRecord>, w: Option<Date>, u: UserRecord)
    ensures u in Selected(users, w) <==> u in users && w.Some? && u.weekStart == w
  {
    FilterMembers(users, (u: UserRecord) => w.Some? && u.weekStart == w, u);
  }

  /** The values are the row count, active count, message total and mean of the current week's rows. */
  lemma KpiValues(users: seq<UserRecord>)
    requires |users| > 0
    ensures var kpis, cur := CalculateWeeklyKpis(users), Selected(users, UniqueWeeks(users)[0]);
      kpis[0].value == |cur| as real && kpis[1].value == |ActiveRows(cur)| as real &&
      kpis[2].value == TotalMessages(cur) as real &&
      kpis[3].value == (if |cur| > 0 then TotalMessages(cur) as real / |cur| as real else 0.0)
  {
    UniqueWeeksNonEmpty(users);
    var ws := UniqueWeeks(users);
    var cur := Selected(users, ws[0]);
    var previous := if |ws| >= 2 then Some(Metrics(Selected(users, ws[1]))) else None;
    var m := Metrics(cur);
    assert CalculateWeeklyKpis(users) == Report(m, previous);
  }

  /** With two distinct weeks, each change compares the current week's rows with the previous week's. */
  lemma KpiChanges(users: seq<UserRecord>)
    requires |UniqueWeeks(users)| >= 2
    ensures var kpis, ws := CalculateWeeklyKpis(users), UniqueWeeks(users);
      var cur, prev := Selected(users, ws[0]), Selected(users, ws[1]);
      kpis[0].change == Some(PercentageChange(|cur| as real, |prev| as real)) &&
      kpis[1].change == Some(PercentageChange(|ActiveRows(cur)| as real, |ActiveRows(prev)| as real)) &&
      kpis[2].change == Some(PercentageChange(TotalMessages(cur) as real, TotalMessages(prev) as real)) &&
      kpis[3].change == Some(PercentageChange(Metrics(cur).avgMessages, Metrics(prev).avgMessages))
  {
  }

  // ---------------------------------------------------------------------------
  // Display

  datatype Format = IntFormat | FloatFormat

  datatype KpiConfig = KpiConfig(name: string, format: Format)

  predicate IsUpper(c: char) { 'A' <= c <= 'Z' }
  predicate IsLower(c: char) { 'a' <= c <= 'z' }

  function ToUpper(c: char): char {
    if IsLower(c) then (c as int - 32) as char else c
  }

  function ToLower(c: char): char {
    if IsUpper(c) then (c as int + 32) as char else c
  }

  /**
   * `str.title()` on ASCII letters: a letter is upper-cased when the character before
   * it is not a letter and lower-cased otherwise; other characters are kept.
   */
  function TitleFrom(s: string, afterLetter: bool): (r: string)
    ensures |r| == |s|
    ensures forall i :: 0 <= i < |s| ==> (IsUpper(r[i]) || IsLower(r[i]) <==> IsUpper(s[i]) || IsLower(s[i]))
    ensures forall i :: 0 <= i < |s| && !IsUpper(s[i]) && !IsLower(s[i]) ==> r[i] == s[i]
    decreases |s|
  {
    if |s| == 0 then ""
    else
      var c := s[0];
      var cased := IsUpper(c) || IsLower(c);
      var rest := TitleFrom(s[1..], cased);
      [if !cased then c else if afterLetter then ToLower(c) else ToUpper(c)] + rest
  }

  function Title(s: string): string {
    TitleFrom(s, false)
  }

  /** Title-casing a title-cased string changes nothing. */
  lemma {:induction false} TitleFromIdempotent(s: string, afterLetter: bool)
    ensures TitleFrom(TitleFrom(s, afterLetter), afterLetter) == TitleFrom(s, afterLetter)
    decreases |s|
  {
    if |s| > 0 {
      var t := TitleFrom(s, afterLetter);
      var cased := IsUpper(s[0]) || IsLower(s[0]);
      assert t[1..] == TitleFrom(s[1..], cased);
      TitleFromIdempotent(s[1..], cased);
    }
  }

  /**
   * Title-casing changes only the case of letters: a letter comes out upper-case exactly
   * when the character before it (or, for the first, `afterLetter`) is not a letter.
   */
  lemma {:induction false} TitleFromCases(s: string, afterLetter: bool)
    ensures forall i :: 0 <= i < |s| ==> ToLower(TitleFrom(s, afterLetter)[i]) == ToLower(s[i])
    ensures forall i :: 0 <= i < |s| && (IsUpper(s[i]) || IsLower(s[i])) ==>
      (IsUpper(TitleFrom(s, afterLetter)[i]) <==>
       !(if i == 0 then afterLetter else IsUpper(s[i - 1]) || IsLower(s[i - 1])))
    decreases |s|
  {
    if |s| > 0 {
      var r := TitleFrom(s, afterLetter);
      var cased := IsUpper(s[0]) || IsLower(s[0]);
      var rest := TitleFrom(s[1..], cased);
      assert r == [r[0]] + rest;
      TitleFromCases(s[1..], cased);
      forall i | 1 <= i < |s|
        ensures ToLower(r[i]) == ToLower(s[i])
        ensures IsUpper(s[i]) || IsLower(s[i]) ==>
          (IsUpper(r[i]) <==> !(IsUpper(s[i - 1]) || IsLower(s[i - 1])))
      {
        assert r[i] == rest[i - 1] && s[i] == s[1..][i - 1];
        if i > 1 {
          assert s[i - 1] == s[1..][i - 2];
        }
      }
    }
  }

  /** Replacing one character by one character works position by position. */
  lemma {:induction false} ReplaceCharPointwise(s: string, c: char, d: char)
    ensures |ReplaceAll(s, [c], [d])| == |s|
    ensures forall i :: 0 <= i < |s| ==> ReplaceAll(s, [c], [d])[i] == if s[i] == c then d else s[i]
    decreases |s|
  {
    if |s| >= 1 {
      ReplaceCharPointwise(s[1..], c, d);
      var r := ReplaceAll(s, [c], [d]);
      var rest := ReplaceAll(s[1..], [c], [d]);
      assert r == [if s[0] == c then d else s[0]] + rest;
      forall i | 1 <= i < |s|
        ensures r[i] == if s[i] == c then d else s[i]
      {
        assert r[i] == rest[i - 1] && s[i] == s[1..][i - 1];
      }
    }
  }

  /** Replacing a one-character pattern by something without it leaves none of it. */
  lemma {:induction false} ReplaceAllRemovesChar(s: string, c: char, rep: string)
    requires c !in rep
    ensures c !in ReplaceAll(s, [c], rep)
    decreases |s|
  {
    if |s| >= 1 {
      ReplaceAllRemovesChar(s[1..], c, rep);
    }
  }

  /**
   * `kpi_config.get(key, ...)`: the four known keys have their names and formats;
   * any other key is named by its title-cased words and shown as an integer.
   */
  function ConfigOf(key: string): KpiConfig {
    if key == "total_users" then KpiConfig("Total Users", IntFormat)
    else if key == "active_users" then KpiConfig("Active Users", IntFormat)
    else if key == "total_messages" then KpiConfig("Total Messages", IntFormat)
    else if key == "avg_messages_per_user" then KpiConfig("Avg Messages/User", FloatFormat)
    else KpiConfig(Title(ReplaceAll(key, "_", " ")), IntFormat)
  }

  /** Only the average is shown as a float; a fallback name is the key with spaces for underscores, in title case. */
  lemma {:induction false} ConfigFallback(key: string)
    ensures ConfigOf(key).format == FloatFormat <==> key == "avg_messages_per_user"
    ensures key !in KpiKeys ==>
      '_' !in ConfigOf(key).name && |ConfigOf(key).name| == |ReplaceAll(key, "_", " ")| &&
      Title(ConfigOf(key).name) == ConfigOf(key).name
    ensures key !in KpiKeys ==>
      |ConfigOf(key).name| == |key| &&
      (forall i :: 0 <= i < |key| && key[i] == '_' ==> ConfigOf(key).name[i] == ' ') &&
      (forall i :: 0 <= i < |key| && key[i] != '_' ==> ToLower(ConfigOf(key).name[i]) == ToLower(key[i])) &&
      (forall i :: 0 <= i < |key| && (IsUpper(key[i]) || IsLower(key[i])) ==>
        (IsUpper(ConfigOf(key).name[i]) <==> i == 0 || !(IsUpper(key[i - 1]) || IsLower(key[i - 1]))))
  {
    if key !in KpiKeys {
      assert ConfigOf(key).name == Title(ReplaceAll(key, "_", " "));
      FallbackName(key);
    }
  }

  /** The name `str.title(key.replace('_', ' '))`, position by position. */
  lemma {:induction false} FallbackName(key: string)
    ensures var name := Title(ReplaceAll(key, "_", " "));
      '_' !in name && |name| == |ReplaceAll(key, "_", " ")| && Title(name) == name &&
      |name| == |key| &&
      (forall i :: 0 <= i < |key| && key[i] == '_' ==> name[i] == ' ') &&
      (forall i :: 0 <= i < |key| && key[i] != '_' ==> ToLower(name[i]) == ToLower(key[i])) &&
      (forall i :: 0 <= i < |key| && (IsUpper(key[i]) || IsLower(key[i])) ==>
        (IsUpper(name[i]) <==> i == 0 || !(IsUpper(key[i - 1]) || IsLower(key[i - 1]))))
  {
    var spaced := ReplaceAll(key, "_", " ");
    var name := TitleFrom(spaced, false);
    ReplaceAllRemovesChar(key, '_', " ");
    assert forall i :: 0 <= i < |spaced| ==> spaced[i] != '_';
    TitleFromIdempotent(spaced, false);
    assert "_" == ['_'] && " " == [' '];
    ReplaceCharPointwise(key, '_', ' ');
    TitleFromCases(spaced, false);
    forall i | 0 <= i < |key| && (IsUpper(key[i]) || IsLower(key[i]))
      ensures IsUpper(name[i]) <==> i == 0 || !(IsUpper(key[i - 1]) || IsLower(key[i - 1]))
    {
      assert spaced[i] == key[i];
      if i > 0 {
        assert IsUpper(spaced[i - 1]) || IsLower(spaced[i - 1]) <==> IsUpper(key[i - 1]) || IsLower(key[i - 1]);
      }
    }
  }

  /** Python's `int(x)`: truncation toward zero. */
  function Truncate(x: real): int {
    if x >= 0.0 then x.Floor else -((-x).Floor)
  }

  /** How a value is written: `.1f`, `.1f` with `M` or `K`, or `int(value)`. */
  datatype ValueText = Decimal(x: real) | Millions(x: real) | Thousands(x: real) | Whole(n: int)

  function FormatValue(f: Format, value: real): ValueText {
    if f == FloatFormat then Decimal(value)
    else if value >= 1000000.0 then Millions(value / 1000000.0)
    else if value >= 1000.0 then Thousands(value / 1000.0)
    else Whole(Truncate(value))
  }

  /**
   * The suffix rule: a float-format value is never suffixed; otherwise a value of a
   * million or more is written in millions, one of a thousand or more in thousands,
   * and a smaller one as the integer part of it, truncated toward zero.
   */
  lemma FormatValueScale(f: Format, value: real)
    ensures FormatValue(f, value).Decimal? <==> f == FloatFormat
    ensures FormatValue(f, value).Millions? ==> value >= 1000000.0 && FormatValue(f, value).x * 1000000.0 == value
    ensures FormatValue(f, value).Thousands? ==>
      1000.0 <= value < 1000000.0 && FormatValue(f, value).x * 1000.0 == value
    ensures FormatValue(f, value).Whole? ==>
      var n := FormatValue(f, value).n;
      value < 1000.0 && (value >= 0.0 ==> n as real <= value < n as real + 1.0) &&
      (value < 0.0 ==> n as real - 1.0 < value <= n as real)
  {
  }

  /** How `key_metrics.py` shows a change: `st.metric`'s delta, `{change:+.1f}%`, or none. */
  datatype MetricCard = MetricCard(caption: string, value: ValueText, delta: Option<real>)

  function MetricCardOf(k: Kpi): MetricCard {
    var config := ConfigOf(k.key);
    MetricCard(config.name, FormatValue(config.format, k.value), k.change)
  }

  /** `display_kpis` of `key_metrics.py`: an info message (`None`) for no KPIs, else one card per KPI in order. */
  function DisplayMetricCards(kpis: seq<Kpi>): (r: Option<seq<MetricCard>>)
    ensures r.None? <==> |kpis| == 0
    ensures r.Some? ==> (|r.value| == |kpis| &&
      forall i :: 0 <= i < |kpis| ==> r.value[i].caption == ConfigOf(kpis[i].key).name && r.value[i].delta == kpis[i].change)
  {
    if |kpis| == 0 then None else Some(seq(|kpis|, i requires 0 <= i < |kpis| => MetricCardOf(kpis[i])))
  }

  /** The change line of a `main_page.py` card: `+x%`, `x%` (the sign printed by the format), or `0.0%`. */
  datatype ChangeText = PlusPercent(x: real) | SignedPercent(x: real) | ZeroPercent

  /** The arrow, colour and text of a change, or `n/a` when there is none. */
  datatype Badge = Trend(arrow: string, color: string, text: ChangeText) | NotAvailable

  function BadgeOf(change: Option<real>): Badge {
    match change
    case None => NotAvailable
    case Some(c) =>
      if c > 0.0 then Trend("\U{2197}", "green", PlusPercent(c))
      else if c < 0.0 then Trend("\U{2198}", "red", SignedPercent(c))
      else Trend("\U{2192}", "gray", ZeroPercent)
  }

  /**
   * A `main_page.py` card shows a rising arrow exactly when the percentage change is
   * positive: growth from a positive or zero value, a fall from a negative value; a
   * flat arrow exactly when it is zero; `n/a` exactly when there is no previous week.
   */
  lemma BadgeFollowsChange(current: real, previous: Option<real>)
    ensures var b := BadgeOf(KpiOf("", current, previous).change);
      (b.NotAvailable? <==> previous.None?) &&
      (previous.Some? ==>
        var p := previous.value;
        (b.arrow == "\U{2197}" <==> (p == 0.0 && current > 0.0) || (p > 0.0 && current > p) || (p < 0.0 && current < p)) &&
        (b.arrow == "\U{2192}" <==> (p == 0.0 && current <= 0.0) || (p != 0.0 && current == p)) &&
        (b.color == "red" <==> (p > 0.0 && current < p) || (p < 0.0 && current > p)))
  {
    if previous.Some? {
      PercentageChangeSign(current, previous.value);
    }
  }

  /** A card of `main_page.py`: the label, the value and the change badge. */
  datatype StyledCard = StyledCard(caption: string, value: ValueText, badge: Badge)

  /** `display_kpis` of `main_page.py`: an info message (`None`) for no KPIs, else one card per KPI in order. */
  function DisplayStyledCards(kpis: seq<Kpi>): (r: Option<seq<StyledCard>>)
    ensures r.None? <==> |kpis| == 0
    ensures r.Some? ==> (|r.value| == |kpis| &&
      forall i :: 0 <= i < |kpis| ==> (r.value[i].caption == ConfigOf(kpis[i].key).name &&
        (r.value[i].badge.NotAvailable? <==> kpis[i].change.None?)))
  {
    if |kpis| == 0 then None
    else
      Some(seq(|kpis|, i requires 0 <= i < |kpis| =>
        var config := ConfigOf(kpis[i].key);
        StyledCard(config.name, FormatValue(config.format, kpis[i].value), BadgeOf(kpis[i].change))))
  }
}
