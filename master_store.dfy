/**
 * The three master tables kept in the dashboard's session (`src/ui/sidebar.py`,
 * `src/app.py`): loaded once, appended to on upload, cut down by week on deletion,
 * and read through filtered, sorted views.
 */
module MasterStore {
  import opened Wrappers
  import opened Strings
  import opened Dates
  import opened Data

  // ---------------------------------------------------------------------------
  // Order-preserving filtering

  /** The elements of `xs` that `keep` accepts, in their original order. */
  function Filter<T>(xs: seq<T>, keep: T -> bool): (r: seq<T>)
    ensures |r| <= |xs|
    decreases |xs|
  {
    if |xs| == 0 then []
    else (if keep(xs[0]) then [xs[0]] else []) + Filter(xs[1..], keep)
  }

  /** An element survives the filter exactly when it was there and is accepted. */
  lemma {:induction false} FilterMembers<T>(xs: seq<T>, keep: T -> bool, x: T)
    ensures x in Filter(xs, keep) <==> x in xs && keep(x)
    decreases |xs|
  {
    if |xs| > 0 {
      FilterMembers(xs[1..], keep, x);
      assert xs == [xs[0]] + xs[1..];
    }
  }

  /** Filtering a concatenation filters each part: the kept rows keep their relative order. */
  lemma {:induction false} FilterAppend<T>(a: seq<T>, b: seq<T>, keep: T -> bool)
    ensures Filter(a + b, keep) == Filter(a, keep) + Filter(b, keep)
    decreases |a|
  {
    if |a| == 0 {
      assert a + b == b;
    } else {
      var ab := a + b;
      assert ab[0] == a[0] && ab[1..] == a[1..] + b;
      FilterAppend(a[1..], b, keep);
      var head: seq<T> := if keep(a[0]) then [a[0]] else [];
      calc {
        Filter(ab, keep);
        head + Filter(a[1..] + b, keep);
        head + (Filter(a[1..], keep) + Filter(b, keep));
        (head + Filter(a[1..], keep)) + Filter(b, keep);
      }
    }
  }

  /** Nothing is removed when every element is accepted. */
  lemma {:induction false} FilterAll<T>(xs: seq<T>, keep: T -> bool)
    requires forall i :: 0 <= i < |xs| ==> keep(xs[i])
    ensures Filter(xs, keep) == xs
    decreases |xs|
  {
    if |xs| > 0 {
      FilterAll(xs[1..], keep);
      assert [xs[0]] + xs[1..] == xs;
    }
  }

  lemma {:induction false} FilterMultiset<T>(xs: seq<T>, keep: T -> bool)
    ensures multiset(Filter(xs, keep)) <= multiset(xs)
    ensures forall y :: multiset(Filter(xs, keep))[y] == if keep(y) then multiset(xs)[y] else 0
    decreases |xs|
  {
    if |xs| > 0 {
      FilterMultiset(xs[1..], keep);
      assert xs == [xs[0]] + xs[1..];
      assert Filter(xs, keep) == (if keep(xs[0]) then [xs[0]] else []) + Filter(xs[1..], keep);
    }
  }

  // ---------------------------------------------------------------------------
  // Sorting by week, newest first

  /**
   * `a` may come before `b` in `sort_values('week_start', ascending=False)`:
   * later weeks first, and NaT (`None`) after every date.
   */
  predicate NewerOrSame(a: Option<Date>, b: Option<Date>) {
    match b
    case None => true
    case Some(y) => a.Some? && a.value >= y
  }

  predicate SortedByWeek<T>(xs: seq<T>, week: T -> Option<Date>) {
    forall i, j :: 0 <= i < j < |xs| ==> NewerOrSame(week(xs[i]), week(xs[j]))
  }

  function InsertByWeek<T>(x: T, xs: seq<T>, week: T -> Option<Date>): (r: seq<T>)
    ensures |r| == |xs| + 1
    decreases |xs|
  {
    if |xs| == 0 || NewerOrSame(week(x), week(xs[0])) then [x] + xs
    else [xs[0]] + InsertByWeek(x, xs[1..], week)
  }

  /** The rows ordered by week, newest first (the order among rows of one week is not modelled). */
  function SortByWeek<T>(xs: seq<T>, week: T -> Option<Date>): (r: seq<T>)
    ensures |r| == |xs|
    decreases |xs|
  {
    if |xs| == 0 then [] else InsertByWeek(xs[0], SortByWeek(xs[1..], week), week)
  }

  lemma {:induction false} InsertByWeekMultiset<T>(x: T, xs: seq<T>, week: T -> Option<Date>)
    ensures multiset(InsertByWeek(x, xs, week)) == multiset(xs) + multiset{x}
    decreases |xs|
  {
    if !(|xs| == 0 || NewerOrSame(week(x), week(xs[0]))) {
      InsertByWeekMultiset(x, xs[1..], week);
      assert xs == [xs[0]] + xs[1..];
    }
  }

  lemma SortedCons<T>(a: T, s: seq<T>, week: T -> Option<Date>)
    requires SortedByWeek(s, week)
    requires forall k :: 0 <= k < |s| ==> NewerOrSame(week(a), week(s[k]))
    ensures SortedByWeek([a] + s, week)
  {
    var r := [a] + s;
    forall i, j | 0 <= i < j < |r| ensures NewerOrSame(week(r[i]), week(r[j])) {
      if i > 0 {
        assert r[i] == s[i - 1] && r[j] == s[j - 1];
      } else {
        assert r[j] == s[j - 1];
      }
    }
  }

  lemma {:induction false} InsertByWeekSorted<T>(x: T, xs: seq<T>, week: T -> Option<Date>)
    requires SortedByWeek(xs, week)
    ensures SortedByWeek(InsertByWeek(x, xs, week), week)
    decreases |xs|
  {
    if |xs| == 0 || NewerOrSame(week(x), week(xs[0])) {
      forall k | 0 <= k < |xs| ensures NewerOrSame(week(x), week(xs[k])) {
        if k > 0 {
          assert NewerOrSame(week(xs[0]), week(xs[k]));
        }
      }
      SortedCons(x, xs, week);
    } else {
      var tail := xs[1..];
      assert SortedByWeek(tail, week) by {
        forall i, j | 0 <= i < j < |tail| ensures NewerOrSame(week(tail[i]), week(tail[j])) {
          assert tail[i] == xs[i + 1] && tail[j] == xs[j + 1];
        }
      }
      InsertByWeekSorted(x, tail, week);
      var ins := InsertByWeek(x, tail, week);
      InsertByWeekMultiset(x, tail, week);
      forall k | 0 <= k < |ins| ensures NewerOrSame(week(xs[0]), week(ins[k])) {
        assert ins[k] in multiset(ins);
        if ins[k] == x {
          assert !NewerOrSame(week(x), week(xs[0]));
        } else {
          assert ins[k] in multiset(tail);
          var n :| 0 <= n < |tail| && tail[n] == ins[k];
          assert xs[n + 1] == ins[k];
        }
      }
      SortedCons(xs[0], ins, week);
    }
  }

  /** Sorting orders the rows newest first and neither adds nor loses a row. */
  lemma {:induction false} SortByWeekCorrect<T>(xs: seq<T>, week: T -> Option<Date>)
    ensures SortedByWeek(SortByWeek(xs, week), week)
    ensures multiset(SortByWeek(xs, week)) == multiset(xs)
    decreases |xs|
  {
    if |xs| > 0 {
      SortByWeekCorrect(xs[1..], week);
      InsertByWeekSorted(xs[0], SortByWeek(xs[1..], week), week);
      InsertByWeekMultiset(xs[0], SortByWeek(xs[1..], week), week);
      assert xs == [xs[0]] + xs[1..];
    }
  }

  // ---------------------------------------------------------------------------
  // The views of `src/app.py`

  /** `df['email'].isin(pm_emails)` of one row. */
  predicate InPm(email: Cell, pm: seq<string>) {
    email.Text? && email.s in pm
  }

  /** `@start_date <= week_start <= @end_date`; NaT compares false and is dropped. */
  predicate InRange(week: Option<Date>, start: Date, end: Date) {
    week.Some? && start <= week.value <= end
  }

  /**
   * One view: the PM filter when `pmOnly`, the inclusive date filter when both
   * bounds are set, then the descending sort by week.
   */
  function View<T>(xs: seq<T>, week: T -> Option<Date>, email: T -> Cell, pmOnly: bool, pm: seq<string>,
                   start: Option<Date>, end: Option<Date>): seq<T>
  {
    var byPm := if pmOnly then PmFilter(xs, email, pm) else xs;
    var byDate := if start.Some? && end.Some? then RangeFilter(byPm, week, start.value, end.value) else byPm;
    SortByWeek(byDate, week)
  }

  function PmFilter<T>(xs: seq<T>, email: T -> Cell, pm: seq<string>): seq<T> {
    Filter(xs, x => InPm(email(x), pm))
  }

  function RangeFilter<T>(xs: seq<T>, week: T -> Option<Date>, start: Date, end: Date): seq<T> {
    Filter(xs, x => InRange(week(x), start, end))
  }

  function UserWeek(u: UserRecord): Option<Date> { u.weekStart }
  function UserEmail(u: UserRecord): Cell { u.email }
  function UsageWeek(m: UsageRecord): Option<Date> { m.weekStart }
  function UsageEmail(m: UsageRecord): Cell { m.email }

  /**
   * A view holds, newest week first, every row of its table that passes the filters
   * in force, as often as the table holds it, and no other row.
   */
  lemma ViewContents<T>(xs: seq<T>, week: T -> Option<Date>, email: T -> Cell, pmOnly: bool, pm: seq<string>,
                        start: Option<Date>, end: Option<Date>, x: T)
    ensures SortedByWeek(View(xs, week, email, pmOnly, pm, start, end), week)
    ensures multiset(View(xs, week, email, pmOnly, pm, start, end)) <= multiset(xs)
    ensures multiset(View(xs, week, email, pmOnly, pm, start, end))[x] ==
      if (pmOnly ==> InPm(email(x), pm)) &&
         (start.Some? && end.Some? ==> InRange(week(x), start.value, end.value))
      then multiset(xs)[x] else 0
    ensures x in View(xs, week, email, pmOnly, pm, start, end) <==>
      x in xs && (pmOnly ==> InPm(email(x), pm)) &&
      (start.Some? && end.Some? ==> InRange(week(x), start.value, end.value))
  {
    var byPm := if pmOnly then PmFilter(xs, email, pm) else xs;
    if pmOnly {
      FilterMembers(xs, y => InPm(email(y), pm), x);
      FilterMultiset(xs, y => InPm(email(y), pm));
    }
    var byDate := byPm;
    if start.Some? && end.Some? {
      byDate := RangeFilter(byPm, week, start.value, end.value);
      FilterMembers(byPm, y => InRange(week(y), start.value, end.value), x);
      FilterMultiset(byPm, y => InRange(week(y), start.value, end.value));
    }
    assert View(xs, week, email, pmOnly, pm, start, end) == SortByWeek(byDate, week);
    SortByWeekCorrect(byDate, week);
    assert x in SortByWeek(byDate, week) <==> x in multiset(SortByWeek(byDate, week));
  }

  /** Without the PM filter and the date filter a view is its table re-sorted, every row kept. */
  lemma ViewUnfiltered<T>(xs: seq<T>, week: T -> Option<Date>, email: T -> Cell, pm: seq<string>, start: Option<Date>)
    ensures multiset(View(xs, week, email, false, pm, start, None)) == multiset(xs)
  {
    SortByWeekCorrect(xs, week);
  }

  // ---------------------------------------------------------------------------
  // Uploads and deletions

  /** The file in the upload widget: its name and the table `read_csv` gives for it. */
  datatype UploadedFile = UploadedFile(name: string, content: Frame)

  datatype UploadOutcome =
    | NoFile                  // nothing selected: the handler returns at once
    | BadFileName             // no `YYYY-MM-DD` date at the end of the name (`strptime` raises)
    | AlreadyUploaded(d: Date) // the users table already has that week
    | Failed(e: IngestError)  // the ingestion raised
    | Appended                // the new rows were appended and saved

  /** `name.split(' ')[-1].replace('.csv', '')` */
  function ReportDateText(name: string): string {
    var parts := Split(name, ' ');
    ReplaceAll(parts[|parts| - 1], ".csv", "")
  }

  /** The report date a file name announces. */
  function ReportDate(name: string): Option<Date> {
    ParseIsoDate(ReportDateText(name))
  }

  /** The token after the last space, without its `.csv` ending. */
  lemma {:induction false} ReportDateTextOf(prefix: string, date: string)
    requires ' ' !in date && '.' !in date
    ensures ReportDateText(prefix + " " + date + ".csv") == date
  {
    assert ' ' !in date + ".csv" by {
      forall i | 0 <= i < |date + ".csv"|
        ensures (date + ".csv")[i] != ' '
      {
        if i < |date| {
          assert (date + ".csv")[i] == date[i];
        }
      }
    }
    assert prefix + " " + date + ".csv" == prefix + [' '] + (date + ".csv");
    SplitLast(prefix, ' ', date + ".csv");
    ReplaceTrailing(date, ".csv");
  }

  /** A formatted date has neither spaces nor dots. */
  lemma FormatIsoDatePlain(y: nat, m: nat, d: nat)
    requires ValidDate(y, m, d)
    ensures ' ' !in FormatIsoDate(y, m, d) && '.' !in FormatIsoDate(y, m, d)
  {
    FormatIsoDateChars(y, m, d);
  }

  /**
   * A name ending in a space, the date as `strftime('%Y-%m-%d')` writes it and
   * `.csv` announces that date, whatever comes before the space.
   */
  lemma ReportDateOfName(prefix: string, y: nat, m: nat, d: nat)
    requires ValidDate(y, m, d)
    ensures ReportDate(prefix + " " + FormatIsoDate(y, m, d) + ".csv") == Some(DateKey(y, m, d))
  {
    FormatIsoDatePlain(y, m, d);
    ReportDateTextOf(prefix, FormatIsoDate(y, m, d));
    ParseFormatIsoDate(y, m, d);
  }

  /** The duplicate guard: the users table is non-empty and has a row of week `d`. */
  predicate HasWeek(users: seq<UserRecord>, d: Date) {
    |users| > 0 && exists u :: u in users && u.weekStart == Some(d)
  }

  /** `pd.concat([old, new], ignore_index=True)` for each table. */
  function Append(t: MasterTables, n: MasterTables): MasterTables {
    MasterTables(t.users + n.users, t.models + n.models, t.tools + n.tools)
  }

  /** What `handle_file_upload` reports and the tables it leaves. */
  function Upload(t: MasterTables, file: Option<UploadedFile>): (r: (UploadOutcome, MasterTables))
    ensures !r.0.Appended? ==> r.1 == t
    ensures r.0.Appended? ==> (file.Some? && ReportDate(file.value.name).Some? &&
      !HasWeek(t.users, ReportDate(file.value.name).value) &&
      Ingest(file.value.content).Ok? && r.1 == Append(t, Ingest(file.value.content).value))
  {
    match file
    case None => (NoFile, t)
    case Some(f) =>
      match ReportDate(f.name)
      case None => (BadFileName, t)
      case Some(d) =>
        if HasWeek(t.users, d) then (AlreadyUploaded(d), t) else Admit(t, Ingest(f.content))
  }

  /** A report of a new week: the tables grow by its rows, or stay as they were if its ingestion failed. */
  function Admit(t: MasterTables, ingested: Result<MasterTables, IngestError>): (UploadOutcome, MasterTables) {
    match ingested
    case Err(e) => (Failed(e), t)
    case Ok(n) => (Appended, Append(t, n))
  }

  /** `process_uploaded_file(pd.read_csv(file), file.name)` on a table of its own. */
  method IngestReport(content: Frame) returns (r: Result<MasterTables, IngestError>)
    ensures r == Ingest(content)
  {
    var df := new UploadedFrame(content.columns, content.rows);
    assert df.Value() == content;
    r := ProcessUploadedFile(df);
  }

  /** The rows of every table whose week is not `d`; rows with NaT are kept. */
  function DeleteWeek(t: MasterTables, d: Date): MasterTables {
    MasterTables(
      Filter(t.users, (u: UserRecord) => u.weekStart != Some(d)),
      Filter(t.models, (m: UsageRecord) => m.weekStart != Some(d)),
      Filter(t.tools, (m: UsageRecord) => m.weekStart != Some(d)))
  }

  /** Distinct weeks, strictly decreasing. */
  predicate StrictlyDescending(ds: seq<Date>) {
    forall i, j :: 0 <= i < j < |ds| ==> ds[i] > ds[j]
  }

  /** `d` put in its place in a strictly decreasing list, unless it is there already. */
  function InsertDate(d: Date, ds: seq<Date>): (r: seq<Date>)
    decreases |ds|
  {
    if |ds| == 0 || d > ds[0] then [d] + ds
    else if d == ds[0] then ds
    else [ds[0]] + InsertDate(d, ds[1..])
  }

  lemma {:induction false} InsertDateCorrect(d: Date, ds: seq<Date>)
    requires StrictlyDescending(ds)
    ensures StrictlyDescending(InsertDate(d, ds))
    ensures forall e :: e in InsertDate(d, ds) <==> e == d || e in ds
    decreases |ds|
  {
    if |ds| > 0 && d < ds[0] {
      var tail := ds[1..];
      assert StrictlyDescending(tail) by {
        forall i, j | 0 <= i < j < |tail| ensures tail[i] > tail[j] {
          assert tail[i] == ds[i + 1] && tail[j] == ds[j + 1];
        }
      }
      InsertDateCorrect(d, tail);
      var ins := InsertDate(d, tail);
      assert ds == [ds[0]] + tail;
      var r := [ds[0]] + ins;
      forall i, j | 0 <= i < j < |r| ensures r[i] > r[j] {
        assert r[j] == ins[j - 1] && ins[j - 1] in ins;
        if i > 0 {
          assert r[i] == ins[i - 1];
        } else if ins[j - 1] != d {
          var n :| 0 <= n < |tail| && tail[n] == ins[j - 1];
          assert ds[n + 1] == ins[j - 1];
        }
      }
    } else if |ds| > 0 && d > ds[0] {
      var r := [d] + ds;
      forall i, j | 0 <= i < j < |r| ensures r[i] > r[j] {
        assert r[j] == ds[j - 1];
        if i > 0 {
          assert r[i] == ds[i - 1];
        } else if j > 1 {
          assert ds[0] > ds[j - 1];
        }
      }
    }
  }

  /** The weeks of the users table, NaT left out. */
  function WeeksOf(users: seq<UserRecord>): (ds: seq<Date>)
    decreases |users|
  {
    if |users| == 0 then []
    else
      var rest := WeeksOf(users[1..]);
      match users[0].weekStart
      case None => rest
      case Some(d) => InsertDate(d, rest)
  }

  /**
   * The "Processed Report Dates" list (`unique()` then `sorted(reverse=True)`): every
   * week of the users table once, newest first.
   */
  lemma {:induction false} ProcessedDates(users: seq<UserRecord>)
    ensures StrictlyDescending(WeeksOf(users))
    ensures forall d :: d in WeeksOf(users) <==> exists u :: u in users && u.weekStart == Some(d)
    decreases |users|
  {
    if |users| > 0 {
      ProcessedDates(users[1..]);
      assert users == [users[0]] + users[1..];
      if users[0].weekStart.Some? {
        InsertDateCorrect(users[0].weekStart.value, WeeksOf(users[1..]));
      }
      forall d | d in WeeksOf(users) ensures exists u :: u in users && u.weekStart == Some(d) {
        if users[0].weekStart != Some(d) {
          var u :| u in users[1..] && u.weekStart == Some(d);
          assert u in users;
        }
      }
      forall d | exists u :: u in users && u.weekStart == Some(d) ensures d in WeeksOf(users) {
        var u :| u in users && u.weekStart == Some(d);
        if u != users[0] {
          assert u in users[1..];
        }
      }
    }
  }

  /** A week some user row has is listed. */
  lemma {:induction false} WeekListed(users: seq<UserRecord>, u: UserRecord)
    requires u in users && u.weekStart.Some?
    ensures u.weekStart.value in WeeksOf(users)
    decreases |users|
  {
    var rest := WeeksOf(users[1..]);
    ProcessedDates(users[1..]);
    if users[0].weekStart.Some? {
      InsertDateCorrect(users[0].weekStart.value, rest);
    }
    if u != users[0] {
      assert u in users[1..];
      WeekListed(users[1..], u);
    }
  }

  /** The date-range defaults: the earliest and the latest week of the users table. */
  function DateRangeDefaults(users: seq<UserRecord>): Option<(Date, Date)> {
    var ds := WeeksOf(users);
    if |ds| == 0 then None else Some((ds[|ds| - 1], ds[0]))
  }

  /** The defaults are weeks of the table, and every week lies between them. */
  lemma DateRangeBounds(users: seq<UserRecord>)
    ensures DateRangeDefaults(users).Some? <==> exists u :: u in users && u.weekStart.Some?
    ensures DateRangeDefaults(users).Some? ==>
      var (lo, hi) := DateRangeDefaults(users).value;
      (exists u :: u in users && u.weekStart == Some(lo)) && (exists u :: u in users && u.weekStart == Some(hi)) &&
      forall u :: u in users && u.weekStart.Some? ==> lo <= u.weekStart.value <= hi
  {
    ProcessedDates(users);
    var ds := WeeksOf(users);
    if exists u :: u in users && u.weekStart.Some? {
      var u :| u in users && u.weekStart.Some?;
      WeekListed(users, u);
    }
    if |ds| > 0 {
      assert ds[0] in ds && ds[|ds| - 1] in ds;
      forall u | u in users && u.weekStart.Some? ensures ds[|ds| - 1] <= u.weekStart.value <= ds[0] {
        WeekListed(users, u);
        var i :| 0 <= i < |ds| && ds[i] == u.weekStart.value;
      }
    }
  }

  // ---------------------------------------------------------------------------
  // Properties of the transitions

  /**
   * A new report week is appended: each table is the old rows followed by the new
   * ones, and every new user has an email.
   */
  lemma UploadAppends(t: MasterTables, file: UploadedFile, n: MasterTables)
    requires ReportDate(file.name).Some? && !HasWeek(t.users, ReportDate(file.name).value)
    requires Ingest(file.content) == Ok(n)
    ensures Upload(t, Some(file)) == (Appended, Append(t, n))
    ensures forall k :: |t.users| <= k < |t.users| + |n.users| ==> Append(t, n).users[k].email != Missing
  {
    IngestUsers(file.content, n);
  }

  /** Once a report has added rows of its week, any later file announcing that week is refused. */
  lemma UploadedWeekRefused(t: MasterTables, n: MasterTables, file: UploadedFile, d: Date)
    requires ReportDate(file.name) == Some(d)
    requires exists u :: u in n.users && u.weekStart == Some(d)
    ensures Upload(Append(t, n), Some(file)) == (AlreadyUploaded(d), Append(t, n))
  {
    var u :| u in n.users && u.weekStart == Some(d);
    assert u in Append(t, n).users;
  }

  /** After deleting week `d` no row of any table has that week. */
  lemma DeleteWeekRemoves(t: MasterTables, d: Date)
    ensures forall u :: u in DeleteWeek(t, d).users ==> u in t.users && u.weekStart != Some(d)
    ensures forall m :: m in DeleteWeek(t, d).models ==> m in t.models && m.weekStart != Some(d)
    ensures forall m :: m in DeleteWeek(t, d).tools ==> m in t.tools && m.weekStart != Some(d)
    ensures !HasWeek(DeleteWeek(t, d).users, d)
  {
    var keepUser := (u: UserRecord) => u.weekStart != Some(d);
    var keepUsage := (m: UsageRecord) => m.weekStart != Some(d);
    forall u ensures u in DeleteWeek(t, d).users ==> u in t.users && u.weekStart != Some(d) {
      FilterMembers(t.users, keepUser, u);
    }
    forall m ensures m in DeleteWeek(t, d).models ==> m in t.models && m.weekStart != Some(d) {
      FilterMembers(t.models, keepUsage, m);
    }
    forall m ensures m in DeleteWeek(t, d).tools ==> m in t.tools && m.weekStart != Some(d) {
      FilterMembers(t.tools, keepUsage, m);
    }
  }

  /** Rows of other weeks are all kept, in their order: deleting a week no table has changes nothing. */
  lemma DeleteAbsentWeek(t: MasterTables, d: Date)
    requires forall u :: u in t.users ==> u.weekStart != Some(d)
    requires forall m :: m in t.models ==> m.weekStart != Some(d)
    requires forall m :: m in t.tools ==> m.weekStart != Some(d)
    ensures DeleteWeek(t, d) == t
  {
    FilterAll(t.users, (u: UserRecord) => u.weekStart != Some(d));
    FilterAll(t.models, (m: UsageRecord) => m.weekStart != Some(d));
    FilterAll(t.tools, (m: UsageRecord) => m.weekStart != Some(d));
  }

  /** Deleting a week after an upload deletes it from the old rows and from the new rows alike. */
  lemma DeleteAfterAppend(t: MasterTables, n: MasterTables, d: Date)
    ensures DeleteWeek(Append(t, n), d) == Append(DeleteWeek(t, d), DeleteWeek(n, d))
  {
    FilterAppend(t.users, n.users, (u: UserRecord) => u.weekStart != Some(d));
    FilterAppend(t.models, n.models, (m: UsageRecord) => m.weekStart != Some(d));
    FilterAppend(t.tools, n.tools, (m: UsageRecord) => m.weekStart != Some(d));
  }

  // ---------------------------------------------------------------------------
  // The session

  /** `load_master_dataframes()`: the saved tables, or empty ones when nothing was saved. */
  function LoadMasterDataframes(persisted: Option<MasterTables>): MasterTables {
    match persisted
    case Some(t) => t
    case None => InitializeMasterDataframes()
  }

  class Session {
    var initialized: bool
    var users: seq<UserRecord>
    var models: seq<UsageRecord>
    var tools: seq<UsageRecord>
    /** The tables as last written to the Parquet files, `None` before the first save. */
    ghost var saved: Option<MasterTables>

    function Tables(): MasterTables
      reads this
    {
      MasterTables(users, models, tools)
    }

    /** A fresh browser session, before `src/app.py` has run. */
    constructor (persisted: Option<MasterTables>)
      ensures !initialized && Tables() == InitializeMasterDataframes() && saved == persisted
    {
      initialized := false;
      users, models, tools := [], [], [];
      saved := persisted;
    }

    /** The tables are loaded on the first run only; later runs keep the session's tables. */
    method Initialize(persisted: Option<MasterTables>)
      requires persisted == saved
      modifies this
      ensures initialized && saved == old(saved)
      ensures old(initialized) ==> Tables() == old(Tables())
      ensures !old(initialized) ==> Tables() == LoadMasterDataframes(persisted)
    {
      if !initialized {
        var t := LoadMasterDataframes(persisted);
        users, models, tools := t.users, t.models, t.tools;
        initialized := true;
      }
    }

    /** `handle_file_upload()`: the duplicate guard, the ingestion, the append and the save. */
    method HandleFileUpload(file: Option<UploadedFile>) returns (outcome: UploadOutcome)
      modifies this
      ensures (outcome, Tables()) == Upload(old(Tables()), file)
      ensures initialized == old(initialized)
      ensures saved == if outcome.Appended? then Some(Tables()) else old(saved)
    {
      if file.None? {
        return NoFile;
      }
      var date := ReportDate(file.value.name);
      if date.None? {
        return BadFileName;
      }
      if HasWeek(users, date.value) {
        return AlreadyUploaded(date.value);
      }
      var processed := IngestReport(file.value.content);
      assert Upload(Tables(), file) == Admit(Tables(), processed);
      outcome := AppendReport(processed);
    }

    /** The part of the handler after the ingestion: append the new rows and save. */
    method AppendReport(processed: Result<MasterTables, IngestError>) returns (outcome: UploadOutcome)
      modifies this
      ensures (outcome, Tables()) == Admit(old(Tables()), processed)
      ensures initialized == old(initialized)
      ensures saved == if outcome.Appended? then Some(Tables()) else old(saved)
    {
      if processed.Err? {
        return Failed(processed.error);
      }
      users := users + processed.value.users;
      models := models + processed.value.models;
      tools := tools + processed.value.tools;
      saved := Some(Tables());
      return Appended;
    }

    /** `handle_date_deletion(d)`: every table loses the rows of week `d`, and the result is saved. */
    method HandleDateDeletion(d: Date)
      modifies this
      ensures Tables() == DeleteWeek(old(Tables()), d)
      ensures saved == Some(Tables()) && initialized == old(initialized)
    {
      users := Filter(users, (u: UserRecord) => u.weekStart != Some(d));
      models := Filter(models, (m: UsageRecord) => m.weekStart != Some(d));
      tools := Filter(tools, (m: UsageRecord) => m.weekStart != Some(d));
      saved := Some(Tables());
    }

    /** The three views `src/app.py` displays; the session's tables are only read. */
    method BuildViews(pmOnly: bool, pm: seq<string>, start: Option<Date>, end: Option<Date>) returns (views: MasterTables)
      ensures views.users == View(users, UserWeek, UserEmail, pmOnly, pm, start, end)
      ensures views.models == View(models, UsageWeek, UsageEmail, pmOnly, pm, start, end)
      ensures views.tools == View(tools, UsageWeek, UsageEmail, pmOnly, pm, start, end)
    {
      var u, m, t := users, models, tools;
      if pmOnly {
        u := PmFilter(u, UserEmail, pm);
        m := PmFilter(m, UsageEmail, pm);
        t := PmFilter(t, UsageEmail, pm);
      }
      if start.Some? && end.Some? {
        u := RangeFilter(u, UserWeek, start.value, end.value);
        m := RangeFilter(m, UsageWeek, start.value, end.value);
        t := RangeFilter(t, UsageWeek, start.value, end.value);
      }
      views := MasterTables(SortByWeek(u, UserWeek), SortByWeek(m, UsageWeek), SortByWeek(t, UsageWeek));
    }
  }
}
