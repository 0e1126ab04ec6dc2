/**
 * Ingestion of one weekly usage report (`src/core/data.py`): the raw table is
 * cleaned in place, projected onto the user schema, and its two mapping columns
 * (`model_to_messages`, `tool_to_messages`) are unnested into long-format usage rows.
 */
module Data {
  import opened Wrappers
  import opened Strings
  import opened Dates
  import opened MappingLiteral

  const UserCols: seq<string> := [
    "week_start", "email", "name", "user_status", "is_active", "messages", "gpts_messaged",
    "tools_messaged", "projects_created", "last_day_active"
  ]
  const ModelCols: seq<string> := ["week_start", "email", "name", "model", "messages"]
  const ToolCols: seq<string> := ["week_start", "email", "name", "tool", "messages"]

  /** The columns every unnested row copies from the row it comes from. */
  const IdVars: seq<string> := ["week_start", "email", "name"]

  /**
   * One cell of a table. A CSV field arrives as `Text` (or `Missing` when empty);
   * the type conversions turn cells into `Num`, `Flag` or `Day`.
   */
  datatype Cell = Missing | Text(s: string) | Num(n: int) | Flag(b: bool) | Day(d: Date)

  /** A row maps column names to cells; a column the row lacks reads as `Missing`. */
  type Row = map<string, Cell>

  function Get(r: Row, col: string): Cell {
    if col in r then r[col] else Missing
  }

  /** A table as pandas holds it: an ordered list of column names and the rows. */
  datatype Frame = Frame(columns: seq<string>, rows: seq<Row>)

  /** One row of the users table, its fields in `UserCols` order. */
  datatype UserRecord = UserRecord(
    weekStart: Option<Date>, email: Cell, name: Cell, userStatus: Cell, isActive: bool,
    messages: int, gptsMessaged: int, toolsMessaged: int, projectsCreated: int,
    lastDayActive: Option<Date>)

  /** One row of the models or tools table: `week_start, email, name, model|tool, messages`. */
  datatype UsageRecord = UsageRecord(weekStart: Option<Date>, email: Cell, name: Cell, key: string, messages: int)

  datatype MasterTables = MasterTables(users: seq<UserRecord>, models: seq<UsageRecord>, tools: seq<UsageRecord>)

  /** Why ingestion raises: a `KeyError` for absent columns, or a mapping `literal_eval` rejects. */
  datatype IngestError = MissingColumns(cols: seq<string>) | MalformedMapping(cell: string)

  /** `initialize_master_dataframes()`: three tables without rows. */
  function InitializeMasterDataframes(): (t: MasterTables)
    ensures |t.users| == 0 && |t.models| == 0 && |t.tools| == 0
  {
    MasterTables([], [], [])
  }

  // ---------------------------------------------------------------------------
  // Cell conversions

  /** An integer as `pd.to_numeric` reads it from text: an optional sign and ASCII digits. */
  function ParseInteger(s: string): Option<int> {
    if |s| > 1 && (s[0] == '-' || s[0] == '+') && AllDigits(s[1..]) then
      Some(if s[0] == '-' then -(DigitsValue(s[1..]) as int) else DigitsValue(s[1..]))
    else if |s| > 0 && AllDigits(s) then Some(DigitsValue(s))
    else None
  }

  /** The index of the first decimal point of `s`, or `|s|` when there is none. */
  function PointIndex(s: string): (k: nat)
    ensures k <= |s| && (k < |s| ==> s[k] == '.')
    ensures forall i :: 0 <= i < k ==> s[i] != '.'
    decreases |s|
  {
    if |s| == 0 || s[0] == '.' then 0 else 1 + PointIndex(s[1..])
  }

  /**
   * A decimal as `pd.to_numeric` reads it, truncated toward zero as `astype(int)` does:
   * an optional sign, then digits, a point and digits, with a digit on at least one side.
   */
  function ParseDecimal(s: string): Option<int> {
    var signed := |s| > 0 && (s[0] == '-' || s[0] == '+');
    var body := if signed then s[1..] else s;
    var k := PointIndex(body);
    if k < |body| && |body| > 1 && AllDigits(body[..k]) && AllDigits(body[k + 1..]) then
      Some(if signed && s[0] == '-' then -(DigitsValue(body[..k]) as int) else DigitsValue(body[..k]))
    else None
  }

  /** `pd.to_numeric` on text: an integer, else a decimal. */
  function ParseNumber(s: string): Option<int> {
    if ParseInteger(s).Some? then ParseInteger(s) else ParseDecimal(s)
  }

  /** `pd.to_numeric(c, errors='coerce').fillna(0).astype(int)` */
  function ToNumber(c: Cell): int {
    match c
    case Num(n) => n
    case Flag(b) => if b then 1 else 0
    case Text(s) => (match ParseNumber(s) case Some(n) => n case None => 0)
    case _ => 0
  }

  /** `astype(bool)` of a CSV field: boolean and integer fields by value, other text when non-empty. */
  function TextTruth(s: string): bool {
    if s == "True" || s == "TRUE" || s == "true" then true
    else if s == "False" || s == "FALSE" || s == "false" then false
    else match ParseInteger(s)
      case Some(n) => n != 0
      case None => |s| > 0
  }

  /** `astype('bool')`: a missing value (NaN) is truthy. */
  function ToBool(c: Cell): bool {
    match c
    case Missing => true
    case Text(s) => TextTruth(s)
    case Num(n) => n != 0
    case Flag(b) => b
    case Day(_) => true
  }

  /** `pd.to_datetime(c, errors='coerce')`: an ISO date, otherwise NaT (`Missing`). */
  function ToDate(c: Cell): (r: Cell)
    ensures r.Missing? || r.Day?
  {
    match c
    case Text(s) => (match ParseIsoDate(s) case Some(d) => Day(d) case None => Missing)
    case Day(_) => c
    case _ => Missing
  }

  /** The date a cell stands for once converted, `None` for NaT. */
  function DateOf(c: Cell): Option<Date> {
    match ToDate(c)
    case Day(d) => Some(d)
    case _ => None
  }

  /** What the `messages` column of an unnested row holds after its numeric conversion. */
  function MessagesOf(v: Literal): int {
    match v
    case IntLit(i) => i
    case StrLit(s) => ToNumber(Text(s))
  }

  /** An unparseable or missing count becomes 0. */
  lemma ToNumberDefault(c: Cell)
    requires c.Missing? || (c.Text? && ParseNumber(c.s).None?)
    ensures ToNumber(c) == 0
  {
  }

  /** A decimal count loses its fraction, toward zero: `12.7` is 12 and `-3.9` is -3. */
  lemma {:induction false} ToNumberDecimal(whole: string, fraction: string)
    requires AllDigits(whole) && AllDigits(fraction) && |whole| + |fraction| > 0
    ensures ToNumber(Text(whole + "." + fraction)) == DigitsValue(whole)
    ensures ToNumber(Text("-" + (whole + "." + fraction))) == -(DigitsValue(whole) as int)
  {
    UnsignedDecimal(whole, fraction);
    NegativeDecimal(whole, fraction);
  }

  lemma {:induction false} UnsignedDecimal(whole: string, fraction: string)
    requires AllDigits(whole) && AllDigits(fraction) && |whole| + |fraction| > 0
    ensures ParseNumber(whole + "." + fraction) == Some(DigitsValue(whole) as int)
  {
    DecimalBody(whole, fraction);
  }

  lemma {:induction false} NegativeDecimal(whole: string, fraction: string)
    requires AllDigits(whole) && AllDigits(fraction) && |whole| + |fraction| > 0
    ensures ParseNumber("-" + (whole + "." + fraction)) == Some(-(DigitsValue(whole) as int))
  {
    var body := whole + "." + fraction;
    var s := "-" + body;
    DecimalBody(whole, fraction);
    assert s[0] == '-' && s[1..] == body && !IsDigit(s[0]);
  }

  /** Where the point of a decimal sits, and that the text is neither signed nor all digits. */
  lemma {:induction false} DecimalBody(whole: string, fraction: string)
    requires AllDigits(whole) && AllDigits(fraction) && |whole| + |fraction| > 0
    ensures var body := whole + "." + fraction;
      |body| > 1 && PointIndex(body) == |whole| && !AllDigits(body) && !IsDigit('.') &&
      body[..|whole|] == whole && body[|whole| + 1..] == fraction &&
      body[0] != '-' && body[0] != '+'
  {
    var body := whole + "." + fraction;
    PointOfDigits(whole, fraction);
    assert body[..|whole|] == whole && body[|whole| + 1..] == fraction;
    assert body[|whole|] == '.';
    if |whole| > 0 {
      assert body[0] == whole[0] && IsDigit(whole[0]);
    }
  }

  lemma {:induction false} PointOfDigits(whole: string, fraction: string)
    requires AllDigits(whole)
    ensures PointIndex(whole + "." + fraction) == |whole|
    decreases |whole|
  {
    if |whole| > 0 {
      assert (whole + "." + fraction)[1..] == whole[1..] + "." + fraction;
      PointOfDigits(whole[1..], fraction);
    }
  }

  /** A count written as Python writes an integer is read back with its value, sign included. */
  lemma ToNumberRender(n: int)
    ensures ParseInteger(RenderInt(n)) == Some(n)
    ensures ToNumber(Text(RenderInt(n))) == n
  {
    var s := RenderInt(n);
    if n < 0 {
      var d := NatDigits(-n);
      assert s == "-" + d && s[1..] == d;
      NatDigitsValue(-n);
      assert ParseInteger(s) == Some(-(DigitsValue(d) as int));
    } else {
      assert s == NatDigits(n) && IsDigit(s[0]);
      NatDigitsValue(n);
      assert ParseInteger(s) == Some(DigitsValue(s));
    }
  }

  /** Converting a second time changes nothing. */
  lemma ConversionsIdempotent(c: Cell)
    ensures ToDate(ToDate(c)) == ToDate(c)
    ensures ToNumber(Num(ToNumber(c))) == ToNumber(c)
    ensures ToBool(Flag(ToBool(c))) == ToBool(c)
  {
  }

  // ---------------------------------------------------------------------------
  // Table operations

  /** No cell of `subset` is missing in `r`. */
  predicate Complete(r: Row, subset: seq<string>) {
    forall c :: c in subset ==> Get(r, c) != Missing
  }

  /** The rows of `dropna(subset=...)`, in order. */
  function DropIncomplete(rows: seq<Row>, subset: seq<string>): (r: seq<Row>)
    ensures |r| <= |rows|
    ensures forall x :: x in r ==> x in rows && Complete(x, subset)
    decreases |rows|
  {
    if |rows| == 0 then []
    else
      var last := rows[|rows| - 1];
      DropIncomplete(rows[..|rows| - 1], subset) + (if Complete(last, subset) then [last] else [])
  }

  /** The names of `subset` that are not columns of the table, in `subset` order. */
  function Absent(subset: seq<string>, columns: seq<string>): (r: seq<string>)
    ensures forall c :: c in r <==> c in subset && c !in columns
    decreases |subset|
  {
    if |subset| == 0 then []
    else
      var last := subset[|subset| - 1];
      Absent(subset[..|subset| - 1], columns) + (if last in columns then [] else [last])
  }

  /** `df.dropna(subset=subset)`: a `KeyError` naming the absent columns, or the complete rows. */
  function DropNa(f: Frame, subset: seq<string>): Result<Frame, IngestError> {
    var absent := Absent(subset, f.columns);
    if |absent| > 0 then Err(MissingColumns(absent))
    else Ok(Frame(f.columns, DropIncomplete(f.rows, subset)))
  }

  function RenameColumn(c: string): string {
    if c == "period_start" then "week_start" else c
  }

  function RenameRow(r: Row): Row {
    if "period_start" in r then (r - {"period_start"})["week_start" := r["period_start"]] else r
  }

  /** `df.rename(columns={'period_start': 'week_start'})` */
  function Rename(f: Frame): Frame {
    Frame(seq(|f.columns|, i requires 0 <= i < |f.columns| => RenameColumn(f.columns[i])),
          seq(|f.rows|, i requires 0 <= i < |f.rows| => RenameRow(f.rows[i])))
  }

  datatype Coercion = AsDate | AsNumber | AsBool | AsCategory

  /**
   * The column conversions, in the order the ingestion applies them: the two date
   * columns, the four count columns, then `is_active` and `user_status`.
   */
  const Plan: seq<(string, Coercion)> := [
    ("week_start", AsDate), ("last_day_active", AsDate),
    ("messages", AsNumber), ("gpts_messaged", AsNumber), ("tools_messaged", AsNumber),
    ("projects_created", AsNumber), ("is_active", AsBool), ("user_status", AsCategory)
  ]

  function Coerce(k: Coercion, c: Cell): Cell {
    match k
    case AsDate => ToDate(c)
    case AsNumber => Num(ToNumber(c))
    case AsBool => Flag(ToBool(c))
    case AsCategory => c
  }

  function CoerceCell(r: Row, col: string, k: Coercion): Row {
    r[col := Coerce(k, Get(r, col))]
  }

  function CoerceRows(rows: seq<Row>, col: string, k: Coercion): (r: seq<Row>)
    ensures |r| == |rows|
  {
    seq(|rows|, i requires 0 <= i < |rows| => CoerceCell(rows[i], col, k))
  }

  /** `df[col] = <conversion>(df[col])`: a `KeyError` when the column is absent. */
  function CoerceColumn(f: Frame, col: string, k: Coercion): Result<Frame, IngestError> {
    if col !in f.columns then Err(MissingColumns([col]))
    else Ok(Frame(f.columns, CoerceRows(f.rows, col, k)))
  }

  /** The conversions of `plan`, one column after the other; the first absent column fails. */
  function CoerceAll(f: Frame, plan: seq<(string, Coercion)>): Result<Frame, IngestError>
    decreases |plan|
  {
    if |plan| == 0 then Ok(f)
    else
      match CoerceColumn(f, plan[0].0, plan[0].1)
      case Err(e) => Err(e)
      case Ok(g) => CoerceAll(g, plan[1..])
  }

  /** What `CoerceAll` does to one row. */
  function CoerceRow(r: Row, plan: seq<(string, Coercion)>): Row
    decreases |plan|
  {
    if |plan| == 0 then r else CoerceRow(CoerceCell(r, plan[0].0, plan[0].1), plan[1..])
  }

  /** The conversions of `plan` succeed exactly when every column they name is present. */
  lemma {:induction false} CoerceAllSucceeds(f: Frame, plan: seq<(string, Coercion)>)
    ensures CoerceAll(f, plan).Ok? <==> forall p :: p in plan ==> p.0 in f.columns
    decreases |plan|
  {
    if |plan| > 0 {
      if plan[0].0 in f.columns {
        var g := Frame(f.columns, CoerceRows(f.rows, plan[0].0, plan[0].1));
        CoerceAllSucceeds(g, plan[1..]);
        assert forall p :: p in plan <==> p == plan[0] || p in plan[1..];
      }
    }
  }

  /** A successful conversion keeps the columns and converts each row on its own. */
  lemma {:induction false} CoerceAllOk(f: Frame, plan: seq<(string, Coercion)>, g: Frame)
    requires CoerceAll(f, plan) == Ok(g)
    ensures g.columns == f.columns && |g.rows| == |f.rows|
    ensures forall k :: 0 <= k < |f.rows| ==> g.rows[k] == CoerceRow(f.rows[k], plan)
    decreases |plan|
  {
    if |plan| > 0 {
      var h := Frame(f.columns, CoerceRows(f.rows, plan[0].0, plan[0].1));
      CoerceAllOk(h, plan[1..], g);
    }
  }

  /** A column the plan does not name is left as it was. */
  lemma {:induction false} CoerceRowOther(r: Row, plan: seq<(string, Coercion)>, c: string)
    requires forall n :: 0 <= n < |plan| ==> plan[n].0 != c
    ensures Get(CoerceRow(r, plan), c) == Get(r, c)
    decreases |plan|
  {
    if |plan| > 0 {
      assert forall n :: 0 <= n < |plan| - 1 ==> plan[1..][n] == plan[n + 1];
      CoerceRowOther(CoerceCell(r, plan[0].0, plan[0].1), plan[1..], c);
    }
  }

  /** A column the plan names once holds that column's converted cell. */
  lemma {:induction false} CoerceRowAt(r: Row, plan: seq<(string, Coercion)>, m: nat)
    requires m < |plan| && forall n :: 0 <= n < |plan| && n != m ==> plan[n].0 != plan[m].0
    ensures Get(CoerceRow(r, plan), plan[m].0) == Coerce(plan[m].1, Get(r, plan[m].0))
    decreases |plan|
  {
    var c := plan[m].0;
    var r1 := CoerceCell(r, plan[0].0, plan[0].1);
    if m == 0 {
      assert forall n :: 0 <= n < |plan| - 1 ==> plan[1..][n] == plan[n + 1];
      CoerceRowOther(r1, plan[1..], c);
    } else {
      assert plan[0].0 != c;
      CoerceRowAt(r1, plan[1..], m - 1);
    }
  }

  /** Each column of the plan is converted once. */
  lemma PlanDistinct()
    ensures forall n, m :: 0 <= n < |Plan| && 0 <= m < |Plan| && n != m ==> Plan[n].0 != Plan[m].0
  {
  }

  /** The cell the conversions leave in column `Plan[m].0`. */
  lemma PlannedCell(r: Row, m: nat)
    requires m < |Plan|
    ensures Get(CoerceRow(r, Plan), Plan[m].0) == Coerce(Plan[m].1, Get(r, Plan[m].0))
  {
    PlanDistinct();
    CoerceRowAt(r, Plan, m);
  }

  lemma CoercedWeek(r: Row)
    ensures Get(CoerceRow(r, Plan), "week_start") == ToDate(Get(r, "week_start"))
  {
    PlannedCell(r, 0);
  }

  lemma CoercedDates(r: Row)
    ensures DateOf(Get(CoerceRow(r, Plan), "week_start")) == DateOf(Get(r, "week_start"))
    ensures DateOf(Get(CoerceRow(r, Plan), "last_day_active")) == DateOf(Get(r, "last_day_active"))
  {
    PlannedCell(r, 0);
    ConversionsIdempotent(Get(r, "week_start"));
    PlannedCell(r, 1);
    ConversionsIdempotent(Get(r, "last_day_active"));
  }

  lemma CoercedCounts(r: Row)
    ensures ToNumber(Get(CoerceRow(r, Plan), "messages")) == ToNumber(Get(r, "messages"))
    ensures ToNumber(Get(CoerceRow(r, Plan), "gpts_messaged")) == ToNumber(Get(r, "gpts_messaged"))
    ensures ToNumber(Get(CoerceRow(r, Plan), "tools_messaged")) == ToNumber(Get(r, "tools_messaged"))
    ensures ToNumber(Get(CoerceRow(r, Plan), "projects_created")) == ToNumber(Get(r, "projects_created"))
  {
    PlannedCell(r, 2);
    PlannedCell(r, 3);
    PlannedCell(r, 4);
    PlannedCell(r, 5);
  }

  lemma CoercedOthers(r: Row)
    ensures ToBool(Get(CoerceRow(r, Plan), "is_active")) == ToBool(Get(r, "is_active"))
    ensures Get(CoerceRow(r, Plan), "user_status") == Get(r, "user_status")
    ensures Get(CoerceRow(r, Plan), "email") == Get(r, "email")
    ensures Get(CoerceRow(r, Plan), "name") == Get(r, "name")
  {
    PlannedCell(r, 6);
    PlannedCell(r, 7);
    OutsidePlan(r, "email");
    OutsidePlan(r, "name");
  }

  lemma OutsidePlan(r: Row, c: string)
    requires c == "email" || c == "name"
    ensures Get(CoerceRow(r, Plan), c) == Get(r, c)
  {
    assert forall n :: 0 <= n < |Plan| ==> |Plan[n].0| > 5;
    CoerceRowOther(r, Plan, c);
  }

  /** Reading a converted row as a user gives what reading the raw row gives. */
  lemma ToUserCoerced(r: Row)
    ensures ToUser(CoerceRow(r, Plan)) == ToUser(r)
  {
    CoercedDates(r);
    CoercedCounts(r);
    CoercedOthers(r);
  }

  /** `df.reindex(columns=USER_COLS)` of one row: each user column read, all others ignored. */
  function ToUser(r: Row): UserRecord {
    UserRecord(
      DateOf(Get(r, "week_start")), Get(r, "email"), Get(r, "name"), Get(r, "user_status"),
      ToBool(Get(r, "is_active")), ToNumber(Get(r, "messages")), ToNumber(Get(r, "gpts_messaged")),
      ToNumber(Get(r, "tools_messaged")), ToNumber(Get(r, "projects_created")),
      DateOf(Get(r, "last_day_active")))
  }

  function Reindex(rows: seq<Row>): (users: seq<UserRecord>)
    ensures |users| == |rows|
  {
    seq(|rows|, i requires 0 <= i < |rows| => ToUser(rows[i]))
  }

  /** The users table keeps only the user columns: two rows that agree on them give the same record. */
  lemma ToUserProjection(r1: Row, r2: Row)
    requires forall c :: c in UserCols ==> Get(r1, c) == Get(r2, c)
    ensures ToUser(r1) == ToUser(r2)
  {
    assert Get(r1, "week_start") == Get(r2, "week_start");
    assert Get(r1, "email") == Get(r2, "email");
    assert Get(r1, "name") == Get(r2, "name");
    assert Get(r1, "user_status") == Get(r2, "user_status");
    assert Get(r1, "is_active") == Get(r2, "is_active");
    assert Get(r1, "messages") == Get(r2, "messages");
    assert Get(r1, "gpts_messaged") == Get(r2, "gpts_messaged");
    assert Get(r1, "tools_messaged") == Get(r2, "tools_messaged");
    assert Get(r1, "projects_created") == Get(r2, "projects_created");
    assert Get(r1, "last_day_active") == Get(r2, "last_day_active");
  }

  // ---------------------------------------------------------------------------
  // Unnesting a mapping column

  /** `astype(str).str.startswith('{')` of a present cell. */
  predicate HoldsMapping(c: Cell) {
    c.Text? && |c.s| > 0 && c.s[0] == '{'
  }

  function CellText(c: Cell): string {
    if c.Text? then c.s else ""
  }

  /** The rows whose `col` cell holds a mapping, in order. */
  function WithMapping(rows: seq<Row>, col: string): (r: seq<Row>)
    ensures |r| <= |rows|
    ensures forall x :: x in r ==> x in rows && HoldsMapping(Get(x, col))
    decreases |rows|
  {
    if |rows| == 0 then []
    else
      var last := rows[|rows| - 1];
      WithMapping(rows[..|rows| - 1], col) + (if HoldsMapping(Get(last, col)) then [last] else [])
  }

  /** The rows that survive both filters of the unnesting. */
  function Kept(f: Frame, col: string): seq<Row> {
    WithMapping(DropIncomplete(f.rows, IdVars + [col]), col)
  }

  /** `apply(ast.literal_eval)` over the column: the first malformed cell fails. */
  function ParseAll(rows: seq<Row>, col: string): (r: Result<seq<seq<Entry>>, IngestError>)
    ensures r.Ok? ==> |r.value| == |rows|
    decreases |rows|
  {
    if |rows| == 0 then Ok([])
    else
      var text := CellText(Get(rows[0], col));
      match ParseMapping(text)
      case None => Err(MalformedMapping(text))
      case Some(es) =>
        match ParseAll(rows[1..], col)
        case Err(e) => Err(e)
        case Ok(ps) => Ok([es] + ps)
  }

  /** The unnested row for entry `e` of row `r`. */
  function Rec(r: Row, e: Entry): UsageRecord {
    UsageRecord(DateOf(Get(r, "week_start")), Get(r, "email"), Get(r, "name"), e.0, MessagesOf(e.1))
  }

  function RowRecords(r: Row, es: seq<Entry>): (recs: seq<UsageRecord>)
    ensures |recs| == |es|
  {
    seq(|es|, j requires 0 <= j < |es| => Rec(r, es[j]))
  }

  function EntryCount(ps: seq<seq<Entry>>): nat
    decreases |ps|
  {
    if |ps| == 0 then 0 else EntryCount(ps[..|ps| - 1]) + |ps[|ps| - 1]|
  }

  /** The records of all rows, in row order and, within a row, in entry order. */
  function AllRecords(rows: seq<Row>, ps: seq<seq<Entry>>): (recs: seq<UsageRecord>)
    requires |rows| == |ps|
    ensures |recs| == EntryCount(ps)
    decreases |rows|
  {
    if |rows| == 0 then []
    else AllRecords(rows[..|rows| - 1], ps[..|ps| - 1]) + RowRecords(rows[|rows| - 1], ps[|ps| - 1])
  }

  /** `_flatten_data(df, IdVars, col, [_, 'messages'])` followed by the conversion of `messages`. */
  function FlattenSpec(f: Frame, col: string): Result<seq<UsageRecord>, IngestError> {
    var absent := Absent(IdVars + [col], f.columns);
    if |absent| > 0 then Err(MissingColumns(absent))
    else
      var kept := Kept(f, col);
      match ParseAll(kept, col)
      case Err(e) => Err(e)
      case Ok(ps) => Ok(AllRecords(kept, ps))
  }

  lemma RowRecordsSnoc(r: Row, es: seq<Entry>, j: nat)
    requires j < |es|
    ensures RowRecords(r, es[..j + 1]) == RowRecords(r, es[..j]) + [Rec(r, es[j])]
  {
  }

  lemma AllRecordsSnoc(rows: seq<Row>, ps: seq<seq<Entry>>, i: nat)
    requires |rows| == |ps| && i < |rows|
    ensures AllRecords(rows[..i + 1], ps[..i + 1]) == AllRecords(rows[..i], ps[..i]) + RowRecords(rows[i], ps[i])
  {
    assert rows[..i + 1][..i] == rows[..i] && ps[..i + 1][..i] == ps[..i];
  }

  /** The nested loop of the unnesting: one record per entry, row by row. */
  method Unnest(rows: seq<Row>, ps: seq<seq<Entry>>) returns (records: seq<UsageRecord>)
    requires |rows| == |ps|
    ensures records == AllRecords(rows, ps)
  {
    records := [];
    var i := 0;
    while i < |rows|
      invariant 0 <= i <= |rows|
      invariant records == AllRecords(rows[..i], ps[..i])
    {
      var row, es := rows[i], ps[i];
      var j := 0;
      while j < |es|
        invariant 0 <= j <= |es|
        invariant records == AllRecords(rows[..i], ps[..i]) + RowRecords(row, es[..j])
      {
        RowRecordsSnoc(row, es, j);
        records := records + [Rec(row, es[j])];
        j := j + 1;
      }
      assert es[..j] == es;
      AllRecordsSnoc(rows, ps, i);
      i := i + 1;
    }
    assert rows[..i] == rows && ps[..i] == ps;
  }

  /** `_flatten_data` followed by the conversion of `messages`. */
  method FlattenData(f: Frame, col: string) returns (r: Result<seq<UsageRecord>, IngestError>)
    ensures r == FlattenSpec(f, col)
  {
    var absent := Absent(IdVars + [col], f.columns);
    if |absent| > 0 {
      return Err(MissingColumns(absent));
    }
    var kept := Kept(f, col);
    var parsed := ParseAll(kept, col);
    if parsed.Err? {
      return Err(parsed.error);
    }
    var records := Unnest(kept, parsed.value);
    return Ok(records);
  }

  /** Where entry `j` of row `i` lands in `AllRecords`: after the entries of all earlier rows. */
  function Position(ps: seq<seq<Entry>>, i: nat, j: nat): nat
    requires i <= |ps|
  {
    EntryCount(ps[..i]) + j
  }

  lemma {:induction false} EntryCountPrefix(ps: seq<seq<Entry>>, i: nat)
    requires i < |ps|
    ensures Position(ps, i, |ps[i]|) <= EntryCount(ps)
    decreases |ps|
  {
    var n := |ps| - 1;
    assert ps[..n + 1] == ps;
    if i < n {
      EntryCountPrefix(ps[..n], i);
      assert ps[..n][..i] == ps[..i];
    }
  }

  /**
   * Entry `j` of row `i` becomes the record at `Position(ps, i, j)`: one record per
   * entry, carrying the row's id values and the entry's key and value.
   */
  lemma {:induction false} AllRecordsAt(rows: seq<Row>, ps: seq<seq<Entry>>, i: nat, j: nat)
    requires |rows| == |ps| && i < |rows| && j < |ps[i]|
    ensures Position(ps, i, j) < |AllRecords(rows, ps)|
    ensures AllRecords(rows, ps)[Position(ps, i, j)] == Rec(rows[i], ps[i][j])
    decreases |rows|
  {
    var n := |rows| - 1;
    EntryCountPrefix(ps, i);
    if i < n {
      AllRecordsAt(rows[..n], ps[..n], i, j);
      assert ps[..n][..i] == ps[..i];
    } else {
      assert ps[..n] == ps[..i];
    }
  }

  /** Every record comes from an entry of one of the rows. */
  lemma {:induction false} AllRecordsOrigin(rows: seq<Row>, ps: seq<seq<Entry>>, k: nat)
    requires |rows| == |ps| && k < |AllRecords(rows, ps)|
    ensures exists i, j :: 0 <= i < |rows| && 0 <= j < |ps[i]| && AllRecords(rows, ps)[k] == Rec(rows[i], ps[i][j])
    decreases |rows|
  {
    var n := |rows| - 1;
    var front := AllRecords(rows[..n], ps[..n]);
    if k < |front| {
      AllRecordsOrigin(rows[..n], ps[..n], k);
      var i, j :| 0 <= i < n && 0 <= j < |ps[..n][i]| && front[k] == Rec(rows[..n][i], ps[..n][i][j]);
      assert AllRecords(rows, ps)[k] == Rec(rows[i], ps[i][j]);
    } else {
      var j := k - |front|;
      assert AllRecords(rows, ps)[k] == Rec(rows[n], ps[n][j]);
    }
  }

  /** A successful parse yields, for every row, exactly the mapping its cell holds. */
  lemma {:induction false} ParseAllEntries(rows: seq<Row>, col: string, i: nat)
    requires ParseAll(rows, col).Ok? && i < |rows|
    ensures ParseMapping(CellText(Get(rows[i], col))) == Some(ParseAll(rows, col).value[i])
    decreases |rows|
  {
    if i > 0 {
      ParseAllEntries(rows[1..], col, i - 1);
    }
  }

  /** One malformed mapping anywhere makes the whole column fail. */
  lemma {:induction false} ParseAllFails(rows: seq<Row>, col: string, x: Row)
    requires x in rows && ParseMapping(CellText(Get(x, col))).None?
    ensures ParseAll(rows, col).Err?
    decreases |rows|
  {
    if rows[0] != x {
      assert x in rows[1..];
      ParseAllFails(rows[1..], col, x);
    }
  }

  lemma {:induction false} DropIncompleteKeeps(rows: seq<Row>, subset: seq<string>, x: Row)
    requires x in rows && Complete(x, subset)
    ensures x in DropIncomplete(rows, subset)
    decreases |rows|
  {
    var n := |rows| - 1;
    if rows[n] != x {
      assert x in rows[..n] by {
        var k :| 0 <= k < |rows| && rows[k] == x;
        assert rows[..n][k] == x;
      }
      DropIncompleteKeeps(rows[..n], subset, x);
    }
  }

  lemma {:induction false} WithMappingKeeps(rows: seq<Row>, col: string, x: Row)
    requires x in rows && HoldsMapping(Get(x, col))
    ensures x in WithMapping(rows, col)
    decreases |rows|
  {
    var n := |rows| - 1;
    if rows[n] != x {
      assert x in rows[..n] by {
        var k :| 0 <= k < |rows| && rows[k] == x;
        assert rows[..n][k] == x;
      }
      WithMappingKeeps(rows[..n], col, x);
    }
  }

  lemma FlattenIsAllRecords(f: Frame, col: string, recs: seq<UsageRecord>, ps: seq<seq<Entry>>)
    requires FlattenSpec(f, col) == Ok(recs) && ParseAll(Kept(f, col), col) == Ok(ps)
    ensures |Kept(f, col)| == |ps| && recs == AllRecords(Kept(f, col), ps)
  {
  }

  lemma AllRecordsLayout(rows: seq<Row>, ps: seq<seq<Entry>>)
    requires |rows| == |ps|
    ensures forall i: nat, j: nat :: 0 <= i < |ps| && 0 <= j < |ps[i]| ==>
      Position(ps, i, j) < |AllRecords(rows, ps)| && AllRecords(rows, ps)[Position(ps, i, j)] == Rec(rows[i], ps[i][j])
  {
    var all := AllRecords(rows, ps);
    forall i: nat, j: nat | 0 <= i < |ps| && 0 <= j < |ps[i]|
      ensures Position(ps, i, j) < |all| && all[Position(ps, i, j)] == Rec(rows[i], ps[i][j])
    {
      AllRecordsAt(rows, ps, i, j);
    }
  }

  /**
   * The unnested table: one record per entry of each kept row's mapping, at the
   * position given by the row order then the entry order, and nothing else.
   */
  lemma FlattenRecords(f: Frame, col: string, recs: seq<UsageRecord>, ps: seq<seq<Entry>>)
    requires FlattenSpec(f, col) == Ok(recs) && ParseAll(Kept(f, col), col) == Ok(ps)
    ensures |recs| == EntryCount(ps)
    ensures forall i, j :: 0 <= i < |ps| && 0 <= j < |ps[i]| ==>
      Position(ps, i, j) < |recs| && recs[Position(ps, i, j)] == Rec(Kept(f, col)[i], ps[i][j])
  {
    FlattenIsAllRecords(f, col, recs, ps);
    AllRecordsLayout(Kept(f, col), ps);
  }

  /**
   * Every unnested record copies the id values of a kept row and carries a key and
   * value of that row's mapping.
   */
  lemma FlattenOrigin(f: Frame, col: string, recs: seq<UsageRecord>, k: nat)
    requires FlattenSpec(f, col) == Ok(recs) && k < |recs|
    ensures exists x, e :: (x in f.rows && Complete(x, IdVars + [col]) && HoldsMapping(Get(x, col)) &&
      ParseMapping(CellText(Get(x, col))).Some? && e in ParseMapping(CellText(Get(x, col))).value &&
      recs[k] == Rec(x, e))
  {
    var kept := Kept(f, col);
    var ps := ParseAll(kept, col).value;
    AllRecordsOrigin(kept, ps, k);
    var i, j :| 0 <= i < |kept| && 0 <= j < |ps[i]| && recs[k] == Rec(kept[i], ps[i][j]);
    ParseAllEntries(kept, col, i);
    assert kept[i] in kept;
  }

  lemma DropIncompleteSnoc(rows: seq<Row>, x: Row, subset: seq<string>)
    ensures DropIncomplete(rows + [x], subset) == DropIncomplete(rows, subset) + (if Complete(x, subset) then [x] else [])
  {
    assert (rows + [x])[..|rows|] == rows;
  }

  lemma WithMappingSnoc(rows: seq<Row>, x: Row, col: string)
    ensures WithMapping(rows + [x], col) == WithMapping(rows, col) + (if HoldsMapping(Get(x, col)) then [x] else [])
  {
    assert (rows + [x])[..|rows|] == rows;
  }

  lemma KeptSkipsRow(columns: seq<string>, rows: seq<Row>, x: Row, col: string)
    requires !Complete(x, IdVars + [col]) || !HoldsMapping(Get(x, col))
    ensures Kept(Frame(columns, rows + [x]), col) == Kept(Frame(columns, rows), col)
  {
    var subset := IdVars + [col];
    var d := DropIncomplete(rows, subset);
    DropIncompleteSnoc(rows, x, subset);
    if Complete(x, subset) {
      WithMappingSnoc(d, x, col);
      assert WithMapping(d + [x], col) == WithMapping(d, col) + [];
    } else {
      assert DropIncomplete(rows + [x], subset) == d + [] == d;
    }
    assert Kept(Frame(columns, rows + [x]), col) == WithMapping(DropIncomplete(rows + [x], subset), col);
  }

  /** A row missing an id value or the mapping, or whose cell is no mapping, adds nothing. */
  lemma FlattenSkipsRow(columns: seq<string>, rows: seq<Row>, x: Row, col: string)
    requires !Complete(x, IdVars + [col]) || !HoldsMapping(Get(x, col))
    ensures FlattenSpec(Frame(columns, rows + [x]), col) == FlattenSpec(Frame(columns, rows), col)
  {
    KeptSkipsRow(columns, rows, x, col);
  }

  /** A present cell that starts with `{` but is not a valid mapping makes the unnesting fail. */
  lemma FlattenMalformed(f: Frame, col: string, x: Row)
    requires |Absent(IdVars + [col], f.columns)| == 0
    requires x in f.rows && Complete(x, IdVars + [col]) && HoldsMapping(Get(x, col))
    requires ParseMapping(CellText(Get(x, col))).None?
    ensures FlattenSpec(f, col).Err?
  {
    DropIncompleteKeeps(f.rows, IdVars + [col], x);
    WithMappingKeeps(DropIncomplete(f.rows, IdVars + [col]), col, x);
    ParseAllFails(Kept(f, col), col, x);
  }

  // ---------------------------------------------------------------------------
  // The whole ingestion

  /** `process_uploaded_file(df, _)` as a value: the three new tables, or why it raises. */
  function Ingest(raw: Frame): Result<MasterTables, IngestError> {
    match Prepared(raw)
    case Err(e) => Err(e)
    case Ok(f3) =>
      match FlattenSpec(f3, "model_to_messages")
      case Err(e) => Err(e)
      case Ok(models) =>
        match FlattenSpec(f3, "tool_to_messages")
        case Err(e) => Err(e)
        case Ok(tools) => Ok(MasterTables(Reindex(f3.rows), models, tools))
  }

  /** The cleaned table: rows without email dropped, `period_start` renamed, the columns converted. */
  function Prepared(raw: Frame): Result<Frame, IngestError> {
    match DropNa(raw, ["email"])
    case Err(e) => Err(e)
    case Ok(f1) => CoerceAll(Rename(f1), Plan)
  }

  /** What a successful ingestion returns, table by table. */
  lemma IngestOk(raw: Frame, t: MasterTables)
    requires Ingest(raw) == Ok(t)
    ensures Prepared(raw).Ok? && t.users == Reindex(Prepared(raw).value.rows)
    ensures FlattenSpec(Prepared(raw).value, "model_to_messages") == Ok(t.models)
    ensures FlattenSpec(Prepared(raw).value, "tool_to_messages") == Ok(t.tools)
  {
  }

  /** The rows of the cleaned table are the raw rows that have an email, renamed and converted. */
  lemma PreparedRows(raw: Frame, f: Frame)
    requires Prepared(raw) == Ok(f)
    ensures |f.rows| == |DropIncomplete(raw.rows, ["email"])|
    ensures forall k :: 0 <= k < |f.rows| ==>
      f.rows[k] == CoerceRow(RenameRow(DropIncomplete(raw.rows, ["email"])[k]), Plan)
  {
    var f1 := Frame(raw.columns, DropIncomplete(raw.rows, ["email"]));
    assert DropNa(raw, ["email"]) == Ok(f1);
    CoerceAllOk(Rename(f1), Plan, f);
  }

  /**
   * The users table holds one record per raw row that has an email, in the upload's
   * order, each the user columns of that row; no user is without an email.
   */
  lemma IngestUsers(raw: Frame, t: MasterTables)
    requires Ingest(raw) == Ok(t)
    ensures |t.users| == |DropIncomplete(raw.rows, ["email"])|
    ensures forall k :: 0 <= k < |t.users| ==>
      t.users[k] == ToUser(RenameRow(DropIncomplete(raw.rows, ["email"])[k])) && t.users[k].email != Missing
  {
    IngestOk(raw, t);
    var f := Prepared(raw).value;
    var e := DropIncomplete(raw.rows, ["email"]);
    PreparedRows(raw, f);
    forall k | 0 <= k < |t.users|
      ensures t.users[k] == ToUser(RenameRow(e[k])) && t.users[k].email != Missing
    {
      assert e[k] in e;
      ToUserCoerced(RenameRow(e[k]));
      UserOfRow(e[k]);
    }
  }

  lemma UserOfRow(r: Row)
    requires Complete(r, ["email"])
    ensures ToUser(RenameRow(r)).email != Missing
  {
    assert "email" in ["email"];
    RenameKeeps(r, "email");
  }

  /** Renaming touches no column but `period_start` and `week_start`. */
  lemma RenameKeeps(r: Row, c: string)
    requires c != "period_start" && c != "week_start"
    ensures Get(RenameRow(r), c) == Get(r, c)
  {
  }

  /** A record unnested from a row of the cleaned table carries that row's user identity. */
  lemma RecOfUser(x: Row, e: Entry, col: string)
    requires Complete(x, IdVars + [col]) && (Get(x, "week_start").Missing? || Get(x, "week_start").Day?)
    ensures Rec(x, e).weekStart.Some? && Rec(x, e).email != Missing && Rec(x, e).name != Missing
    ensures Rec(x, e).weekStart == ToUser(x).weekStart && Rec(x, e).email == ToUser(x).email
    ensures Rec(x, e).name == ToUser(x).name
  {
    assert (IdVars + [col])[0] == "week_start" && (IdVars + [col])[1] == "email" && (IdVars + [col])[2] == "name";
  }

  /** Every cell of `week_start` is a date or NaT. */
  predicate WeeksConverted(f: Frame) {
    forall x :: x in f.rows ==> Get(x, "week_start").Missing? || Get(x, "week_start").Day?
  }

  /** The cleaned table's `week_start` column holds converted dates only. */
  lemma PreparedWeeks(raw: Frame, f: Frame)
    requires Prepared(raw) == Ok(f)
    ensures WeeksConverted(f)
  {
    PreparedRows(raw, f);
    CoercedWeeks(f, DropIncomplete(raw.rows, ["email"]));
  }

  lemma CoercedWeeks(f: Frame, e: seq<Row>)
    requires |f.rows| == |e| && forall k :: 0 <= k < |e| ==> f.rows[k] == CoerceRow(RenameRow(e[k]), Plan)
    ensures WeeksConverted(f)
  {
    forall x | x in f.rows ensures Get(x, "week_start").Missing? || Get(x, "week_start").Day? {
      var k :| 0 <= k < |f.rows| && f.rows[k] == x;
      CoercedWeek(RenameRow(e[k]));
    }
  }

  /**
   * Every record unnested from the cleaned table has a week, an email and a name,
   * and the same week, email and name as some record of the users table.
   */
  lemma UsageReferential(f: Frame, col: string, recs: seq<UsageRecord>, k: nat)
    requires WeeksConverted(f) && FlattenSpec(f, col) == Ok(recs) && k < |recs|
    ensures recs[k].weekStart.Some? && recs[k].email != Missing && recs[k].name != Missing
    ensures exists u :: (u in Reindex(f.rows) &&
      u.weekStart == recs[k].weekStart && u.email == recs[k].email && u.name == recs[k].name)
  {
    FlattenOrigin(f, col, recs, k);
    var x, e :| x in f.rows && Complete(x, IdVars + [col]) && recs[k] == Rec(x, e);
    var n :| 0 <= n < |f.rows| && f.rows[n] == x;
    RecOfUser(x, e, col);
    var u := Reindex(f.rows)[n];
    assert u == ToUser(x) && u in Reindex(f.rows);
  }

  /** Each model and tool usage record belongs to a user of the same upload and week. */
  lemma IngestReferential(raw: Frame, t: MasterTables)
    requires Ingest(raw) == Ok(t)
    ensures forall k :: 0 <= k < |t.models| ==> (t.models[k].weekStart.Some? &&
      exists u :: u in t.users && u.weekStart == t.models[k].weekStart && u.email == t.models[k].email && u.name == t.models[k].name)
    ensures forall k :: 0 <= k < |t.tools| ==> (t.tools[k].weekStart.Some? &&
      exists u :: u in t.users && u.weekStart == t.tools[k].weekStart && u.email == t.tools[k].email && u.name == t.tools[k].name)
  {
    IngestOk(raw, t);
    var f := Prepared(raw).value;
    PreparedWeeks(raw, f);
    forall k | 0 <= k < |t.models|
      ensures t.models[k].weekStart.Some? &&
        exists u :: u in t.users && u.weekStart == t.models[k].weekStart && u.email == t.models[k].email && u.name == t.models[k].name
    {
      UsageReferential(f, "model_to_messages", t.models, k);
    }
    forall k | 0 <= k < |t.tools|
      ensures t.tools[k].weekStart.Some? &&
        exists u :: u in t.users && u.weekStart == t.tools[k].weekStart && u.email == t.tools[k].email && u.name == t.tools[k].name
    {
      UsageReferential(f, "tool_to_messages", t.tools, k);
    }
  }

  /** A report without an `email` column is rejected with a `KeyError` naming it. */
  lemma IngestNeedsEmail(raw: Frame)
    requires "email" !in raw.columns
    ensures Ingest(raw) == Err(MissingColumns(["email"]))
  {
    assert Absent(["email"], raw.columns) == ["email"];
  }

  /** The caller's table, which the ingestion changes in place. */
  class UploadedFrame {
    var columns: seq<string>
    var rows: seq<Row>

    constructor (columns0: seq<string>, rows0: seq<Row>)
      ensures columns == columns0 && rows == rows0
    {
      columns := columns0;
      rows := rows0;
    }

    function Value(): Frame
      reads this
    {
      Frame(columns, rows)
    }
  }

  /**
   * `process_uploaded_file(df, filename)`: drops the rows without email and renames
   * `period_start` in place, converts the columns one by one, then projects and unnests.
   */
  method ProcessUploadedFile(df: UploadedFrame) returns (r: Result<MasterTables, IngestError>)
    modifies df
    ensures r == Ingest(old(df.Value()))
    ensures DropNa(old(df.Value()), ["email"]).Err? ==> df.Value() == old(df.Value())
    ensures DropNa(old(df.Value()), ["email"]).Ok? ==>
      df.columns == Rename(DropNa(old(df.Value()), ["email"]).value).columns
    ensures Prepared(old(df.Value())).Ok? ==> df.Value() == Prepared(old(df.Value())).value
  {
    var absent := Absent(["email"], df.columns);
    if |absent| > 0 {
      return Err(MissingColumns(absent));
    }
    df.rows := DropIncomplete(df.rows, ["email"]);
    var renamed := Rename(df.Value());
    df.columns, df.rows := renamed.columns, renamed.rows;
    ghost var prepared := CoerceAll(renamed, Plan);
    var i := 0;
    while i < |Plan|
      invariant 0 <= i <= |Plan|
      invariant CoerceAll(df.Value(), Plan[i..]) == prepared
      invariant df.columns == renamed.columns
    {
      var (col, kind) := Plan[i];
      if col !in df.columns {
        return Err(MissingColumns([col]));
      }
      assert Plan[i..][0] == (col, kind) && Plan[i..][1..] == Plan[i + 1..];
      df.rows := CoerceRows(df.rows, col, kind);
      i := i + 1;
    }
    assert prepared == Ok(df.Value());
    var users := Reindex(df.rows);
    var models := FlattenData(df.Value(), "model_to_messages");
    if models.Err? {
      return Err(models.error);
    }
    var tools := FlattenData(df.Value(), "tool_to_messages");
    if tools.Err? {
      return Err(tools.error);
    }
    return Ok(MasterTables(users, models.value, tools.value));
  }
}
