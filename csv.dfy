/** The text of a CSV export (`exportCsv`): a field holding a comma, a
    double quote or a line feed is put in double quotes with its quotes
    doubled, fields are joined by commas, records by a bare line feed, and
    a byte order mark goes in front. Building the file
    and starting the download is browser work and is not modelled. */
module Csv {
  import opened Text

  /** A cell: a string, or a number written out by `String(val)`. */
  datatype Cell = Str(s: string) | Num(n: int)

  function CellText(c: Cell): string {
    match c
    case Str(s) => s
    case Num(n) => IntToString(n)
  }

  /** A field holding a comma, a double quote or a line feed is quoted. */
  predicate NeedsQuotes(s: string) {
    ',' in s || '"' in s || '\n' in s
  }

  /** `str.replace(/"/g, '""')` */
  function DoubleQuotes(s: string): (r: string)
    ensures |r| >= |s|
    ensures ',' in r <==> ',' in s
  {
    if |s| == 0 then ""
    else (if s[0] == '"' then "\"\"" else [s[0]]) + DoubleQuotes(s[1..])
  }

  /** The field as written to the file. */
  function Escape(s: string): (r: string)
    ensures NeedsQuotes(s) ==> |r| == |DoubleQuotes(s)| + 2 && r[0] == '"' && r[|r| - 1] == '"'
    ensures !NeedsQuotes(s) ==> r == s
  {
    if NeedsQuotes(s) then "\"" + DoubleQuotes(s) + "\"" else s
  }

  /** Reading a quoted field's contents back: each doubled quote stands
      for one quote. */
  function UndoubleQuotes(t: string): string
  {
    if |t| == 0 then ""
    else if |t| >= 2 && t[0] == '"' && t[1] == '"' then "\"" + UndoubleQuotes(t[2..])
    else [t[0]] + UndoubleQuotes(t[1..])
  }

  /** Reading a field back: a quoted field loses its quotes and its
      doubled quotes; any other field is taken as it is. */
  function Unescape(e: string): string
  {
    if |e| >= 2 && e[0] == '"' && e[|e| - 1] == '"' then UndoubleQuotes(e[1..|e| - 1]) else e
  }

  lemma {:induction false} UndoubleDoubled(s: string)
    ensures UndoubleQuotes(DoubleQuotes(s)) == s
  {
    if |s| > 0 {
      UndoubleDoubled(s[1..]);
      if s[0] == '"' {
        assert DoubleQuotes(s) == "\"\"" + DoubleQuotes(s[1..]);
        assert DoubleQuotes(s)[2..] == DoubleQuotes(s[1..]);
      } else {
        assert DoubleQuotes(s) == [s[0]] + DoubleQuotes(s[1..]);
        assert DoubleQuotes(s)[1..] == DoubleQuotes(s[1..]);
        if |DoubleQuotes(s)| >= 2 {
          assert DoubleQuotes(s)[0] == s[0];
        }
      }
      assert s == [s[0]] + s[1..];
    }
  }

  /** Every field reads back as the text it was written from. */
  lemma EscapeRoundTrip(s: string)
    ensures Unescape(Escape(s)) == s
  {
    if NeedsQuotes(s) {
      var d := DoubleQuotes(s);
      assert Escape(s)[1..|Escape(s)| - 1] == d;
      UndoubleDoubled(s);
    }
  }

  /** Inside a quoted field every quote is one of a pair, so no quote ends
      the field early. */
  lemma {:induction false} QuotesArePaired(s: string, i: nat)
    requires i < |DoubleQuotes(s)| && DoubleQuotes(s)[i] == '"'
    ensures (i + 1 < |DoubleQuotes(s)| && DoubleQuotes(s)[i + 1] == '"') || (i > 0 && DoubleQuotes(s)[i - 1] == '"')
  {
    var d := DoubleQuotes(s);
    var head := if s[0] == '"' then "\"\"" else [s[0]];
    assert d == head + DoubleQuotes(s[1..]);
    if i >= |head| {
      QuotesArePaired(s[1..], i - |head|);
    }
  }

  /** A number never needs quotes. */
  lemma NumbersAreBare(n: int)
    ensures Escape(CellText(Num(n))) == IntToString(n)
  {
    var t := IntToString(n);
    if n < 0 {
      assert t == "-" + NatToString(-n);
    }
    assert forall k | 0 <= k < |t| :: t[k] != ',' && t[k] != '"' && t[k] != '\n';
  }

  /** `row.map(escape)` */
  function EscapeAll(cells: seq<Cell>): seq<string> {
    seq(|cells|, k requires 0 <= k < |cells| => Escape(CellText(cells[k])))
  }

  /** `row.map(escape).join(',')` */
  function Record(cells: seq<Cell>): string {
    Join(EscapeAll(cells), ",")
  }

  /** The headers as string cells. */
  function Headers(names: seq<string>): seq<Cell> {
    seq(|names|, k requires 0 <= k < |names| => Str(names[k]))
  }

  /** `rows.map(row => row.map(escape).join(','))` */
  function Records(rows: seq<seq<Cell>>): seq<string> {
    seq(|rows|, k requires 0 <= k < |rows| => Record(rows[k]))
  }

  /** `csvContent`: the header record, then one record per row, joined
      with line feeds. */
  function CsvContent(headers: seq<string>, rows: seq<seq<Cell>>): string {
    Join([Record(Headers(headers))] + Records(rows), "\n")
  }

  /** The text handed to the download: a byte order mark, then the content. */
  function FileText(headers: seq<string>, rows: seq<seq<Cell>>): (r: string)
    ensures |r| > 0 && r[0] == '\U{FEFF}' && r[1..] == CsvContent(headers, rows)
  {
    "\U{FEFF}" + CsvContent(headers, rows)
  }

  /** The content starts with the header record; with no rows it is only
      that record; each further row adds a line feed and its record. */
  lemma CsvContentShape(headers: seq<string>, rows: seq<seq<Cell>>, row: seq<Cell>)
    ensures var h := Record(Headers(headers));
      var c := CsvContent(headers, rows);
      |h| <= |c| && c[..|h|] == h
    ensures CsvContent(headers, []) == Record(Headers(headers))
    ensures CsvContent(headers, rows + [row]) == CsvContent(headers, rows) + "\n" + Record(row)
  {
    var xs := [Record(Headers(headers))] + Records(rows);
    JoinStartsWithFirst(xs, "\n");
    assert [Record(Headers(headers))] + Records([]) == [Record(Headers(headers))];
    assert [Record(Headers(headers))] + Records(rows + [row]) == xs + [Record(row)] by {
      assert (rows + [row])[..|rows|] == rows;
    }
    JoinSnoc(xs, Record(row), "\n");
  }
}
