/**
 * The part of `ast.literal_eval` the ingestion uses: a dict display such as
 * `{'gpt-4o': 12, 'o3': 3}` read from a usage-report cell.
 *
 * Grammar accepted (anything else is malformed, as a `SyntaxError` or
 * `ValueError` of `literal_eval` would be):
 *   mapping := '{' blanks [ entry (blanks ',' blanks entry)* blanks [','] ] blanks '}' blanks
 *   entry   := quoted blanks ':' blanks value
 *   value   := quoted | ['-' | '+'] blanks decimal
 * where `quoted` is a single- or double-quoted string without escapes or line
 * breaks and `decimal` is a Python 3 decimal literal (no leading zeros).
 */
module MappingLiteral {
  import opened Wrappers
  import opened Strings
  import opened Dates

  datatype Literal = IntLit(i: int) | StrLit(s: string)

  /** One `key: value` pair of a dict display. */
  type Entry = (string, Literal)

  /** Characters the Python tokenizer skips between tokens inside braces. */
  predicate IsBlank(c: char) {
    c == ' ' || c == '\t' || c == '\n' || c == '\r' || c == '\U{000C}'
  }

  function SkipBlanks(s: string): (r: string)
    ensures |r| <= |s|
  {
    if |s| > 0 && IsBlank(s[0]) then SkipBlanks(s[1..]) else s
  }

  predicate IsQuote(c: char) {
    c == '\'' || c == '"'
  }

  /** A character that may stand inside a quoted string of this grammar. */
  predicate IsPlainChar(c: char) {
    !IsQuote(c) && c != '\\' && c != '\n' && c != '\r'
  }

  /** The body of a string opened by quote `q`, up to and without its closing quote. */
  function ScanQuoted(s: string, q: char): (r: Option<(string, string)>)
    ensures r.Some? ==> |r.value.1| < |s|
    decreases |s|
  {
    if |s| == 0 then None
    else if s[0] == q then Some(([], s[1..]))
    else if s[0] == '\\' || s[0] == '\n' || s[0] == '\r' then None
    else
      match ScanQuoted(s[1..], q)
      case None => None
      case Some((body, rest)) => Some(([s[0]] + body, rest))
  }

  function ParseQuoted(s: string): (r: Option<(string, string)>)
    ensures r.Some? ==> |r.value.1| < |s|
  {
    if |s| > 0 && IsQuote(s[0]) then ScanQuoted(s[1..], s[0]) else None
  }

  /** The longest prefix of decimal digits, and what follows it. */
  function SpanDigits(s: string): (r: (string, string))
    ensures |r.0| + |r.1| == |s| && AllDigits(r.0)
    decreases |s|
  {
    if |s| > 0 && IsDigit(s[0]) then
      var (d, rest) := SpanDigits(s[1..]);
      ([s[0]] + d, rest)
    else ([], s)
  }

  /** A Python 3 decimal literal: leading zeros only in zero itself. */
  predicate IsDecimalLiteral(d: string) {
    |d| > 0 && AllDigits(d) && (d[0] != '0' || forall i :: 0 <= i < |d| ==> d[i] == '0')
  }

  function ParseUnsigned(s: string): (r: Option<(nat, string)>)
    ensures r.Some? ==> |r.value.1| < |s|
  {
    var (d, rest) := SpanDigits(s);
    if IsDecimalLiteral(d) then Some((DigitsValue(d), rest)) else None
  }

  function ParseValue(s: string): (r: Option<(Literal, string)>)
    ensures r.Some? ==> |r.value.1| < |s|
  {
    if |s| == 0 then None
    else if IsQuote(s[0]) then
      match ParseQuoted(s)
      case None => None
      case Some((t, rest)) => Some((StrLit(t), rest))
    else if s[0] == '-' || s[0] == '+' then
      match ParseUnsigned(SkipBlanks(s[1..]))
      case None => None
      case Some((n, rest)) => Some((IntLit(if s[0] == '-' then -(n as int) else n), rest))
    else
      match ParseUnsigned(s)
      case None => None
      case Some((n, rest)) => Some((IntLit(n), rest))
  }

  function ParseEntry(s: string): (r: Option<(Entry, string)>)
    ensures r.Some? ==> |r.value.1| < |s|
  {
    match ParseQuoted(s)
    case None => None
    case Some((key, r1)) =>
      var r2 := SkipBlanks(r1);
      if |r2| > 0 && r2[0] == ':' then
        match ParseValue(SkipBlanks(r2[1..]))
        case None => None
        case Some((v, rest)) => Some(((key, v), rest))
      else None
  }

  /** Entries up to and including the closing brace; returns what follows the brace. */
  function ParseEntries(s: string): (r: Option<(seq<Entry>, string)>)
    decreases |s|
  {
    match ParseEntry(s)
    case None => None
    case Some((e, r1)) =>
      var r2 := SkipBlanks(r1);
      if |r2| > 0 && r2[0] == '}' then Some(([e], r2[1..]))
      else if |r2| > 0 && r2[0] == ',' then
        var r3 := SkipBlanks(r2[1..]);
        if |r3| > 0 && r3[0] == '}' then Some(([e], r3[1..]))
        else
          match ParseEntries(r3)
          case None => None
          case Some((es, rest)) => Some(([e] + es, rest))
      else None
  }

  /** `k` is a key of the (partial) dict `es`. */
  predicate HasKey(es: seq<Entry>, k: string) {
    exists i :: 0 <= i < |es| && es[i].0 == k
  }

  predicate DistinctKeys(es: seq<Entry>) {
    forall i, j :: 0 <= i < j < |es| ==> es[i].0 != es[j].0
  }

  /**
   * Adds one entry to a dict, as a dict display does: an existing key keeps its
   * place and takes the new value, a new key goes last.
   */
  function Upsert(es: seq<Entry>, e: Entry): (r: seq<Entry>)
    ensures |r| == |es| || |r| == |es| + 1
    decreases |es|
  {
    if |es| == 0 then [e]
    else if es[0].0 == e.0 then [e] + es[1..]
    else [es[0]] + Upsert(es[1..], e)
  }

  /** The dict a display with these entries (in this order) evaluates to. */
  function DictOf(es: seq<Entry>): seq<Entry>
    decreases |es|
  {
    if |es| == 0 then [] else Upsert(DictOf(es[..|es| - 1]), es[|es| - 1])
  }

  lemma HasKeyCons(x: Entry, tl: seq<Entry>, k: string)
    ensures HasKey([x] + tl, k) <==> x.0 == k || HasKey(tl, k)
  {
    var es := [x] + tl;
    if x.0 == k {
      assert es[0].0 == k;
    }
    if HasKey(tl, k) {
      var j :| 0 <= j < |tl| && tl[j].0 == k;
      assert es[j + 1].0 == k;
    }
    if HasKey(es, k) {
      var i :| 0 <= i < |es| && es[i].0 == k;
      if i > 0 {
        assert tl[i - 1].0 == k;
      }
    }
  }

  /** After an upsert the keys are the old ones plus the new one. */
  lemma {:induction false} UpsertKeySet(es: seq<Entry>, e: Entry, k: string)
    ensures HasKey(Upsert(es, e), k) <==> HasKey(es, k) || k == e.0
    decreases |es|
  {
    if |es| == 0 {
      HasKeyCons(e, [], k);
      assert [e] + [] == [e];
      assert !HasKey(es, k);
    } else {
      assert es == [es[0]] + es[1..];
      HasKeyCons(es[0], es[1..], k);
      if es[0].0 == e.0 {
        HasKeyCons(e, es[1..], k);
      } else {
        UpsertKeySet(es[1..], e, k);
        HasKeyCons(es[0], Upsert(es[1..], e), k);
      }
    }
  }

  /** An upsert never repeats a key. */
  lemma {:induction false} UpsertDistinct(es: seq<Entry>, e: Entry)
    requires DistinctKeys(es)
    ensures DistinctKeys(Upsert(es, e))
    decreases |es|
  {
    if |es| > 0 && es[0].0 != e.0 {
      var tl := es[1..];
      var u := Upsert(tl, e);
      UpsertDistinct(tl, e);
      var r := [es[0]] + u;
      forall j | 0 <= j < |u|
        ensures u[j].0 != es[0].0
      {
        assert HasKey(u, u[j].0);
        UpsertKeySet(tl, e, u[j].0);
        if HasKey(tl, u[j].0) {
          var m :| 0 <= m < |tl| && tl[m].0 == u[j].0;
          assert es[m + 1].0 == u[j].0;
        }
      }
      forall i, j | 0 <= i < j < |r|
        ensures r[i].0 != r[j].0
      {
        if i > 0 {
          assert r[i] == u[i - 1] && r[j] == u[j - 1];
        } else {
          assert r[j] == u[j - 1];
        }
      }
    } else if |es| > 0 {
      forall i, j | 0 <= i < j < |es|
        ensures Upsert(es, e)[i].0 != Upsert(es, e)[j].0
      {
        assert Upsert(es, e)[i].0 == es[i].0 && Upsert(es, e)[j].0 == es[j].0;
      }
    }
  }

  /** A dict has no repeated keys, and its keys are exactly those of the display. */
  lemma {:induction false} DictOfKeys(es: seq<Entry>)
    ensures DistinctKeys(DictOf(es))
    ensures forall k :: HasKey(DictOf(es), k) <==> HasKey(es, k)
    decreases |es|
  {
    if |es| > 0 {
      var init, e := es[..|es| - 1], es[|es| - 1];
      DictOfKeys(init);
      UpsertDistinct(DictOf(init), e);
      forall k ensures HasKey(DictOf(es), k) <==> HasKey(es, k) {
        UpsertKeySet(DictOf(init), e, k);
        if HasKey(es, k) {
          var i :| 0 <= i < |es| && es[i].0 == k;
          if i < |es| - 1 {
            assert init[i].0 == k;
          }
        }
        if HasKey(init, k) {
          var i :| 0 <= i < |init| && init[i].0 == k;
          assert es[i].0 == k;
        }
      }
    }
  }

  /** Repeating a key overwrites the value where the key first stood. */
  lemma {:induction false} UpsertExisting(es: seq<Entry>, e: Entry, i: nat)
    requires DistinctKeys(es)
    requires i < |es| && es[i].0 == e.0
    ensures Upsert(es, e) == es[i := e]
    decreases |es|
  {
    if i > 0 {
      UpsertExisting(es[1..], e, i - 1);
      assert es[i := e] == [es[0]] + es[1..][i - 1 := e];
    }
  }

  lemma {:induction false} UpsertNew(es: seq<Entry>, e: Entry)
    requires !HasKey(es, e.0)
    ensures Upsert(es, e) == es + [e]
    decreases |es|
  {
    if |es| > 0 {
      assert !HasKey(es[1..], e.0) by {
        forall j | 0 <= j < |es| - 1
          ensures es[1..][j].0 != e.0
        {
          assert es[1..][j] == es[j + 1];
        }
      }
      UpsertNew(es[1..], e);
    }
  }

  /** A display without repeated keys evaluates to exactly its entries, in order. */
  lemma {:induction false} DictOfDistinct(es: seq<Entry>)
    requires DistinctKeys(es)
    ensures DictOf(es) == es
    decreases |es|
  {
    if |es| > 0 {
      var init := es[..|es| - 1];
      DictOfDistinct(init);
      assert !HasKey(init, es[|es| - 1].0);
      UpsertNew(init, es[|es| - 1]);
    }
  }

  /**
   * `ast.literal_eval(s)` on a cell that starts with `{`, or `None` where the
   * cell is malformed (a `SyntaxError` or `ValueError` in the original).
   */
  function ParseMapping(s: string): Option<seq<Entry>>
  {
    if |s| == 0 || s[0] != '{' then None
    else
      var t := SkipBlanks(s[1..]);
      var body: Option<(seq<Entry>, string)> := if |t| > 0 && t[0] == '}' then Some(([], t[1..])) else ParseEntries(t);
      match body
      case None => None
      case Some((es, rest)) => if SkipBlanks(rest) == [] then Some(DictOf(es)) else None
  }

  /** What `literal_eval` returns is a dict: no key occurs twice. */
  lemma ParseMappingDistinct(s: string)
    requires ParseMapping(s).Some?
    ensures DistinctKeys(ParseMapping(s).value)
  {
    var t := SkipBlanks(s[1..]);
    if !(|t| > 0 && t[0] == '}') {
      var es := ParseEntries(t).value.0;
      DictOfKeys(es);
    }
  }

  // ---------------------------------------------------------------------------
  // Rendering: Python's repr of a dict with string keys and integer values,
  // the form the usage-report columns carry.

  function NatDigits(n: nat): (r: string)
    ensures |r| > 0 && AllDigits(r)
    decreases n
  {
    if n < 10 then [Digit(n)] else NatDigits(n / 10) + [Digit(n % 10)]
  }

  /** `repr(i)` */
  function RenderInt(i: int): (r: string)
    ensures |r| > 0 && (r[0] == '-' || IsDigit(r[0]))
  {
    if i < 0 then "-" + NatDigits(-i) else NatDigits(i)
  }

  /** `repr(k)` of a string without quotes or backslashes in it. */
  function Quote(k: string): string {
    "'" + k + "'"
  }

  function RenderEntry(key: string, v: int): string {
    Quote(key) + ": " + RenderInt(v)
  }

  function RenderEntries(es: seq<(string, int)>): string
    decreases |es|
  {
    if |es| == 0 then ""
    else if |es| == 1 then RenderEntry(es[0].0, es[0].1)
    else RenderEntry(es[0].0, es[0].1) + ", " + RenderEntries(es[1..])
  }

  /** `repr(d)` of a dict whose keys are strings and whose values are integers. */
  function Render(es: seq<(string, int)>): string {
    "{" + RenderEntries(es) + "}"
  }

  /** The entries of `Render(es)` as the parser reports them. */
  function AsLiterals(es: seq<(string, int)>): (r: seq<Entry>)
    ensures |r| == |es|
    decreases |es|
  {
    if |es| == 0 then [] else [(es[0].0, IntLit(es[0].1))] + AsLiterals(es[1..])
  }

  lemma {:induction false} AsLiteralsKeys(es: seq<(string, int)>)
    requires forall i, j :: 0 <= i < j < |es| ==> es[i].0 != es[j].0
    ensures forall i :: 0 <= i < |es| ==> AsLiterals(es)[i].0 == es[i].0
    ensures DistinctKeys(AsLiterals(es))
    decreases |es|
  {
    if |es| > 0 {
      AsLiteralsKeys(es[1..]);
      assert AsLiterals(es) == [(es[0].0, IntLit(es[0].1))] + AsLiterals(es[1..]);
    }
  }

  predicate PlainKey(k: string) {
    forall i :: 0 <= i < |k| ==> IsPlainChar(k[i])
  }

  lemma {:induction false} NatDigitsValue(n: nat)
    ensures DigitsValue(NatDigits(n)) == n
    decreases n
  {
    if n >= 10 {
      NatDigitsValue(n / 10);
      var s := NatDigits(n);
      assert s[..|s| - 1] == NatDigits(n / 10);
    }
  }

  lemma {:induction false} NatDigitsLeading(n: nat)
    ensures n > 0 ==> NatDigits(n)[0] != '0'
    ensures n == 0 ==> NatDigits(n) == "0"
    decreases n
  {
    if n >= 10 {
      NatDigitsLeading(n / 10);
    }
  }

  lemma {:induction false} SpanDigitsOf(d: string, rest: string)
    requires AllDigits(d)
    requires |rest| > 0 ==> !IsDigit(rest[0])
    ensures SpanDigits(d + rest) == (d, rest)
    decreases |d|
  {
    if |d| == 0 {
      assert d + rest == rest;
    } else {
      assert (d + rest)[1..] == d[1..] + rest;
      SpanDigitsOf(d[1..], rest);
      assert [d[0]] + d[1..] == d;
    }
  }

  lemma ParseUnsignedOf(n: nat, rest: string)
    requires |rest| > 0 ==> !IsDigit(rest[0])
    ensures ParseUnsigned(NatDigits(n) + rest) == Some((n, rest))
  {
    SpanDigitsOf(NatDigits(n), rest);
    NatDigitsValue(n);
    NatDigitsLeading(n);
  }

  lemma ParseSignedFrom(s: string, n: nat, rest: string)
    requires |s| > 0 && s[0] == '-' && ParseUnsigned(SkipBlanks(s[1..])) == Some((n, rest))
    ensures ParseValue(s) == Some((IntLit(-(n as int)), rest))
  {
  }

  lemma ParseUnsignedFrom(s: string, n: nat, rest: string)
    requires |s| > 0 && IsDigit(s[0]) && ParseUnsigned(s) == Some((n, rest))
    ensures ParseValue(s) == Some((IntLit(n), rest))
  {
  }

  lemma ParseNegativeOf(n: nat, rest: string)
    requires |rest| > 0 ==> !IsDigit(rest[0])
    ensures ParseValue("-" + NatDigits(n) + rest) == Some((IntLit(-(n as int)), rest))
  {
    var s := "-" + NatDigits(n) + rest;
    var u := NatDigits(n) + rest;
    assert s[1..] == u;
    SkipBlanksSolid(u);
    ParseUnsignedOf(n, rest);
    ParseSignedFrom(s, n, rest);
  }

  lemma ParseNaturalOf(n: nat, rest: string)
    requires |rest| > 0 ==> !IsDigit(rest[0])
    ensures ParseValue(NatDigits(n) + rest) == Some((IntLit(n), rest))
  {
    ParseUnsignedOf(n, rest);
    ParseUnsignedFrom(NatDigits(n) + rest, n, rest);
  }

  lemma ParseIntOf(v: int, rest: string)
    requires |rest| > 0 ==> !IsDigit(rest[0])
    ensures ParseValue(RenderInt(v) + rest) == Some((IntLit(v), rest))
  {
    if v < 0 {
      var n: nat := -v;
      assert RenderInt(v) == "-" + NatDigits(n);
      ParseNegativeOf(n, rest);
    } else {
      ParseNaturalOf(v, rest);
    }
  }

  lemma {:induction false} ScanQuotedOf(k: string, q: char, rest: string)
    requires PlainKey(k) && IsQuote(q)
    ensures ScanQuoted(k + [q] + rest, q) == Some((k, rest))
    decreases |k|
  {
    if |k| == 0 {
      assert k + [q] + rest == [q] + rest;
    } else {
      assert (k + [q] + rest)[1..] == k[1..] + [q] + rest;
      ScanQuotedOf(k[1..], q, rest);
      assert [k[0]] + k[1..] == k;
    }
  }

  lemma ParseQuotedOf(k: string, rest: string)
    requires PlainKey(k)
    ensures ParseQuoted(Quote(k) + rest) == Some((k, rest))
  {
    var s := Quote(k) + rest;
    assert s[1..] == k + ['\''] + rest;
    ScanQuotedOf(k, '\'', rest);
  }

  lemma SkipBlanksSolid(s: string)
    requires |s| > 0 && !IsBlank(s[0])
    ensures SkipBlanks(s) == s
  {
  }

  lemma SkipOneBlank(c: char, s: string)
    requires IsBlank(c)
    ensures SkipBlanks([c] + s) == SkipBlanks(s)
  {
    assert ([c] + s)[1..] == s;
  }

  lemma ParseEntryFrom(s: string, key: string, tail: string, num: string, v: Literal, rest: string)
    requires ParseQuoted(s) == Some((key, tail))
    requires |tail| > 0 && tail[0] == ':' && SkipBlanks(tail) == tail
    requires SkipBlanks(tail[1..]) == num && ParseValue(num) == Some((v, rest))
    ensures ParseEntry(s) == Some(((key, v), rest))
  {
  }

  lemma {:induction false} ColonThenValue(num: string)
    requires |num| > 0 && !IsBlank(num[0])
    ensures SkipBlanks(": " + num) == ": " + num
    ensures SkipBlanks((": " + num)[1..]) == num
  {
    SkipBlanksSolid(": " + num);
    assert (": " + num)[1..] == [' '] + num;
    SkipOneBlank(' ', num);
    SkipBlanksSolid(num);
  }

  lemma KeyOfEntry(key: string, v: int, rest: string)
    requires PlainKey(key)
    ensures ParseQuoted(RenderEntry(key, v) + rest) == Some((key, ": " + (RenderInt(v) + rest)))
  {
    assert RenderEntry(key, v) + rest == Quote(key) + (": " + (RenderInt(v) + rest));
    ParseQuotedOf(key, ": " + (RenderInt(v) + rest));
  }

  lemma ParseEntryOf(key: string, v: int, rest: string)
    requires PlainKey(key)
    requires |rest| > 0 ==> !IsDigit(rest[0])
    ensures ParseEntry(RenderEntry(key, v) + rest) == Some(((key, IntLit(v)), rest))
  {
    var num := RenderInt(v) + rest;
    KeyOfEntry(key, v, rest);
    ColonThenValue(num);
    ParseIntOf(v, rest);
    ParseEntryFrom(RenderEntry(key, v) + rest, key, ": " + num, num, IntLit(v), rest);
  }

  lemma ParseLastEntryFrom(s: string, e: Entry, r1: string, rest: string)
    requires ParseEntry(s) == Some((e, r1))
    requires SkipBlanks(r1) == r1 && |r1| > 0 && r1[0] == '}' && r1[1..] == rest
    ensures ParseEntries(s) == Some(([e], rest))
  {
  }

  lemma ParseNextEntryFrom(s: string, e: Entry, r1: string, r3: string, es: seq<Entry>, rest: string)
    requires ParseEntry(s) == Some((e, r1))
    requires SkipBlanks(r1) == r1 && |r1| > 0 && r1[0] == ','
    requires SkipBlanks(r1[1..]) == r3 && |r3| > 0 && r3[0] != '}'
    requires ParseEntries(r3) == Some((es, rest))
    ensures ParseEntries(s) == Some(([e] + es, rest))
  {
  }

  lemma {:induction false} CommaThenEntry(more: string)
    requires |more| > 0 && more[0] == '\''
    ensures SkipBlanks(", " + more) == ", " + more
    ensures SkipBlanks((", " + more)[1..]) == more
  {
    SkipBlanksSolid(", " + more);
    assert (", " + more)[1..] == [' '] + more;
    SkipOneBlank(' ', more);
    SkipBlanksSolid(more);
  }

  lemma ParseOnlyEntryOf(key: string, v: int, rest: string)
    requires PlainKey(key)
    ensures ParseEntries(RenderEntry(key, v) + "}" + rest) == Some(([(key, IntLit(v))], rest))
  {
    var closing := "}" + rest;
    assert RenderEntry(key, v) + "}" + rest == RenderEntry(key, v) + closing;
    ParseEntryOf(key, v, closing);
    SkipBlanksSolid(closing);
    assert closing[1..] == rest;
    ParseLastEntryFrom(RenderEntry(key, v) + closing, (key, IntLit(v)), closing, rest);
  }

  lemma ParseEntryThenMore(key: string, v: int, more: string, es: seq<Entry>, rest: string)
    requires PlainKey(key)
    requires |more| > 0 && more[0] == '\'' && ParseEntries(more) == Some((es, rest))
    ensures ParseEntries(RenderEntry(key, v) + ", " + more) == Some(([(key, IntLit(v))] + es, rest))
  {
    var sep := ", " + more;
    assert RenderEntry(key, v) + ", " + more == RenderEntry(key, v) + sep;
    ParseEntryOf(key, v, sep);
    CommaThenEntry(more);
    ParseNextEntryFrom(RenderEntry(key, v) + sep, (key, IntLit(v)), sep, more, es, rest);
  }

  lemma {:induction false} ParseEntriesOf(es: seq<(string, int)>, rest: string)
    requires |es| > 0
    requires forall i :: 0 <= i < |es| ==> PlainKey(es[i].0)
    ensures ParseEntries(RenderEntries(es) + "}" + rest) == Some((AsLiterals(es), rest))
    decreases |es|
  {
    var e := es[0];
    if |es| == 1 {
      ParseOnlyEntryOf(e.0, e.1, rest);
      assert RenderEntries(es) == RenderEntry(e.0, e.1);
      assert AsLiterals(es) == [(e.0, IntLit(e.1))];
    } else {
      var more := RenderEntries(es[1..]) + "}" + rest;
      assert RenderEntries(es) + "}" + rest == RenderEntry(e.0, e.1) + ", " + more;
      assert RenderEntries(es[1..])[0] == '\'';
      ParseEntriesOf(es[1..], rest);
      ParseEntryThenMore(e.0, e.1, more, AsLiterals(es[1..]), rest);
      assert AsLiterals(es) == [(e.0, IntLit(e.1))] + AsLiterals(es[1..]);
    }
  }

  lemma ParseMappingFrom(s: string, t: string, es: seq<Entry>, rest: string)
    requires |s| > 0 && s[0] == '{' && SkipBlanks(s[1..]) == t && |t| > 0 && t[0] != '}'
    requires ParseEntries(t) == Some((es, rest)) && SkipBlanks(rest) == []
    ensures ParseMapping(s) == Some(DictOf(es))
  {
  }

  lemma ParseMappingEmptyFrom(s: string, t: string)
    requires |s| > 0 && s[0] == '{' && SkipBlanks(s[1..]) == t
    requires |t| > 0 && t[0] == '}' && SkipBlanks(t[1..]) == []
    ensures ParseMapping(s) == Some([])
  {
  }

  lemma EmptyDisplay(s: string)
    requires s == "{}"
    ensures |s| > 0 && s[0] == '{' && SkipBlanks(s[1..]) == s[1..]
    ensures |s[1..]| > 0 && s[1..][0] == '}' && SkipBlanks(s[1..][1..]) == []
  {
    assert s[1..][1..] == [];
  }

  lemma RenderEmpty(es: seq<(string, int)>)
    requires |es| == 0
    ensures Render(es) == "{}"
  {
  }

  lemma ParseRenderEmpty(es: seq<(string, int)>)
    requires |es| == 0
    ensures ParseMapping(Render(es)) == Some([])
  {
    RenderEmpty(es);
    EmptyDisplay(Render(es));
    ParseMappingEmptyFrom(Render(es), Render(es)[1..]);
  }

  lemma ParseBraced(inner: string, es: seq<Entry>)
    requires |inner| > 0 && inner[0] == '\'' && ParseEntries(inner) == Some((es, ""))
    ensures ParseMapping("{" + inner) == Some(DictOf(es))
  {
    var s := "{" + inner;
    assert s[1..] == inner;
    SkipBlanksSolid(inner);
    ParseMappingFrom(s, inner, es, "");
  }

  lemma {:induction false} RenderEntriesStart(es: seq<(string, int)>)
    requires |es| > 0
    ensures |RenderEntries(es)| > 0 && RenderEntries(es)[0] == '\''
  {
    var tail := RenderEntriesSplit(es);
    RenderEntryStart(es[0].0, es[0].1);
    HeadOfConcat(RenderEntry(es[0].0, es[0].1), tail);
  }

  lemma RenderEntriesSplit(es: seq<(string, int)>) returns (tail: string)
    requires |es| > 0
    ensures RenderEntries(es) == RenderEntry(es[0].0, es[0].1) + tail
  {
    tail := if |es| == 1 then "" else ", " + RenderEntries(es[1..]);
  }

  lemma RenderEntryStart(key: string, v: int)
    ensures |RenderEntry(key, v)| > 0 && RenderEntry(key, v)[0] == '\''
  {
    assert RenderEntry(key, v) == "'" + (key + "'" + ": " + RenderInt(v));
  }

  lemma HeadOfConcat(a: string, b: string)
    requires |a| > 0
    ensures |a + b| > 0 && (a + b)[0] == a[0]
  {
  }

  lemma RenderShape(es: seq<(string, int)>)
    ensures Render(es) == "{" + (RenderEntries(es) + "}" + "")
  {
    var inner := RenderEntries(es) + "}";
    assert inner + "" == inner;
  }

  lemma ParseRenderEntries(es: seq<(string, int)>)
    requires |es| > 0
    requires forall i :: 0 <= i < |es| ==> PlainKey(es[i].0)
    ensures ParseMapping(Render(es)) == Some(DictOf(AsLiterals(es)))
  {
    RenderShape(es);
    RenderEntriesStart(es);
    ParseEntriesOf(es, "");
    ParseBraced(RenderEntries(es) + "}" + "", AsLiterals(es));
  }

  /**
   * Reading back Python's repr of a dict: the parser yields exactly the entries,
   * in order, whenever the keys are plain and distinct.
   */
  lemma ParseRender(es: seq<(string, int)>)
    requires forall i :: 0 <= i < |es| ==> PlainKey(es[i].0)
    requires forall i, j :: 0 <= i < j < |es| ==> es[i].0 != es[j].0
    ensures ParseMapping(Render(es)) == Some(AsLiterals(es))
  {
    if |es| == 0 {
      ParseRenderEmpty(es);
    } else {
      ParseRenderEntries(es);
      AsLiteralsKeys(es);
      DictOfDistinct(AsLiterals(es));
    }
  }
}
