/**
  The command-line front end of `src/index.js`: the table printer that lists
  resources, the authentication gate every command passes first, and the
  address list of `invoices send`.
*/
module Cli {
  import opened Wrappers
  import opened JsStrings
  import opened JsValues
  import opened Http
  import Api

  /** No column is wider than this many characters. */
  const MaxWidth: nat := 40
  const NoResults := "No results found."
  const NotConfigured := "Billingo API key not configured."
  /** Cells and header labels are separated by two spaces. */
  const Gap := "  "

  /**
    A table column: the row member it shows, its heading, and an optional
    formatter (given the member's value, or None when it is missing, and the
    whole row), whose result has already been passed through `String`.
  */
  datatype Column = Column(key: string, heading: string, format: Option<(Option<Json>, Json) -> string>)

  /** The text of one cell: the formatter's, else the member's `String`, with `null` and missing shown empty. */
  function CellText(col: Column, row: Json): (text: string)
    ensures col.format.Some? ==> text == col.format.value(Get(row, col.key), row)
    ensures col.format.None? && (Get(row, col.key).None? || Get(row, col.key) == Some(JNull)) ==> text == ""
    ensures col.format.None? && Get(row, col.key).Some? && Get(row, col.key) != Some(JNull) ==> text == ToJsString(Get(row, col.key).value)
  {
    match col.format
    case Some(format) => format(Get(row, col.key), row)
    case None =>
      var value := Get(row, col.key);
      if value.None? || value.value == JNull then "" else ToJsString(value.value)
  }

  /** The lengths of a column's cells, row by row. */
  function CellLengths(col: Column, rows: seq<Json>): (ls: seq<nat>)
    ensures |ls| == |rows| && forall i :: 0 <= i < |rows| ==> ls[i] == |CellText(col, rows[i])|
  {
    seq(|rows|, i requires 0 <= i < |rows| => |CellText(col, rows[i])|)
  }

  /** The largest of `base` and the numbers `ns`. */
  function Widest(base: nat, ns: seq<nat>): (w: nat)
    ensures w >= base && forall i :: 0 <= i < |ns| ==> w >= ns[i]
    ensures w == base || exists i :: 0 <= i < |ns| && w == ns[i]
  {
    if ns == [] then base
    else
      var previous := ns[..|ns| - 1];
      var w := Widest(base, previous);
      assert forall i :: 0 <= i < |previous| ==> previous[i] == ns[i];
      if ns[|ns| - 1] > w then ns[|ns| - 1] else w
  }

  /** One more number widens to it when it is larger. */
  lemma WidestSnoc(base: nat, ns: seq<nat>, i: nat)
    requires i < |ns|
    ensures Widest(base, ns[..i + 1]) == if ns[i] > Widest(base, ns[..i]) then ns[i] else Widest(base, ns[..i])
  {
    assert ns[..i + 1][..i] == ns[..i];
  }

  /** The widest of a column's heading and its cells, before the cap. */
  function RawWidth(col: Column, rows: seq<Json>): (w: nat)
    ensures w >= |col.heading|
    ensures forall i :: 0 <= i < |rows| ==> w >= |CellText(col, rows[i])|
    ensures w == |col.heading| || exists i :: 0 <= i < |rows| && w == |CellText(col, rows[i])|
  {
    Widest(|col.heading|, CellLengths(col, rows))
  }

  /** A column's width: the widest of its heading and its cells, but at most 40. */
  function ColumnWidth(col: Column, rows: seq<Json>): (w: nat)
    ensures w <= MaxWidth
    ensures w >= |col.heading| || w == MaxWidth
    ensures forall i :: 0 <= i < |rows| ==> w >= |CellText(col, rows[i])| || w == MaxWidth
    ensures w == MaxWidth || w == |col.heading| || exists i :: 0 <= i < |rows| && w == |CellText(col, rows[i])|
    ensures w == MaxWidth ==> |col.heading| >= MaxWidth || exists i :: 0 <= i < |rows| && |CellText(col, rows[i])| >= MaxWidth
  {
    var w := RawWidth(col, rows);
    if w > MaxWidth then MaxWidth else w
  }

  /** The set of member names the columns show. */
  function KeySet(columns: seq<Column>): set<string> {
    set i | 0 <= i < |columns| :: columns[i].key
  }

  /**
    The widths by member name, filled column after column; a later column
    with the same key overwrites an earlier one's width.
  */
  function Widths(columns: seq<Column>, rows: seq<Json>): (widths: map<string, nat>)
    ensures widths.Keys == KeySet(columns)
    ensures forall k :: k in widths ==> widths[k] <= MaxWidth
  {
    if columns == [] then map[]
    else
      var previous := columns[..|columns| - 1];
      var last := columns[|columns| - 1];
      assert KeySet(columns) == KeySet(previous) + {last.key} by {
        forall k | k in KeySet(columns) ensures k in KeySet(previous) + {last.key} {
          var i :| 0 <= i < |columns| && columns[i].key == k;
          if i < |previous| {
            assert previous[i] == columns[i];
          }
        }
        forall k | k in KeySet(previous) ensures k in KeySet(columns) {
          var i :| 0 <= i < |previous| && previous[i].key == k;
          assert columns[i] == previous[i];
        }
      }
      Widths(previous, rows)[last.key := ColumnWidth(last, rows)]
  }

  /** The width under a column's key is that column's own width when no later column shares the key. */
  lemma {:induction false} WidthOfColumn(columns: seq<Column>, rows: seq<Json>, i: nat)
    requires i < |columns|
    requires forall j :: i < j < |columns| ==> columns[j].key != columns[i].key
    ensures Widths(columns, rows)[columns[i].key] == ColumnWidth(columns[i], rows)
  {
    var previous := columns[..|columns| - 1];
    if i < |columns| - 1 {
      assert previous[i] == columns[i];
      assert forall j :: i < j < |previous| ==> previous[j] == columns[j];
      WidthOfColumn(previous, rows, i);
    }
  }

  /** A width table built from the columns covers every column's key. */
  lemma {:induction false} WidthsCover(columns: seq<Column>, rows: seq<Json>)
    ensures Covers(columns, Widths(columns, rows))
  {
    forall i | 0 <= i < |columns| ensures columns[i].key in Widths(columns, rows) {
      assert columns[i].key in KeySet(columns);
    }
  }

  /**
    The nested `forEach` that fills the width table: per column, start from
    the heading's length, widen to each longer cell, then cap at 40.
  */
  method ComputeWidths(columns: seq<Column>, rows: seq<Json>) returns (widths: map<string, nat>)
    ensures widths == Widths(columns, rows)
  {
    widths := map[];
    var j := 0;
    while j < |columns|
      invariant 0 <= j <= |columns|
      invariant widths == Widths(columns[..j], rows)
    {
      var col := columns[j];
      var w := WidestCell(col, rows);
      if w > MaxWidth {
        w := MaxWidth;
      }
      assert columns[..j + 1][..j] == columns[..j];
      assert Widths(columns[..j + 1], rows) == Widths(columns[..j], rows)[col.key := ColumnWidth(col, rows)];
      widths := widths[col.key := w];
      j := j + 1;
    }
    assert columns[..|columns|] == columns;
  }

  /** The inner `forEach`: the heading's length, widened to each longer cell. */
  method WidestCell(col: Column, rows: seq<Json>) returns (w: nat)
    ensures w == RawWidth(col, rows)
  {
    ghost var lengths := CellLengths(col, rows);
    w := |col.heading|;
    var i := 0;
    while i < |rows|
      invariant 0 <= i <= |rows|
      invariant w == Widest(|col.heading|, lengths[..i])
    {
      var v := CellText(col, rows[i]);
      WidestSnoc(|col.heading|, lengths, i);
      if |v| > w {
        w := |v|;
      }
      i := i + 1;
    }
    assert lengths[..|rows|] == lengths;
  }

  /** A cell cut to its column's width, then padded with spaces to exactly that width. */
  function RenderCell(text: string, width: nat): (cell: string)
    ensures |cell| == width
    ensures |text| >= width ==> cell == text[..width]
    ensures |text| < width ==> cell[..|text|] == text && forall i :: |text| <= i < width ==> cell[i] == ' '
  {
    PadEnd(Prefix(text, width), width)
  }

  /** Every column's key has a width. */
  predicate Covers(columns: seq<Column>, widths: map<string, nat>) {
    forall i :: 0 <= i < |columns| ==> columns[i].key in widths
  }

  /** The column widths in column order. */
  function ColumnWidths(columns: seq<Column>, widths: map<string, nat>): (ws: seq<nat>)
    requires Covers(columns, widths)
    ensures |ws| == |columns| && forall i :: 0 <= i < |columns| ==> ws[i] == widths[columns[i].key]
  {
    seq(|columns|, i requires 0 <= i < |columns| => widths[columns[i].key])
  }

  /**
    The heading line: each label padded (never cut) to its width. When no
    label is wider than its column, it is as long as the widths together plus
    two spaces between each two columns.
  */
  function HeaderLine(columns: seq<Column>, widths: map<string, nat>): (line: string)
    requires Covers(columns, widths)
    ensures columns != [] && (forall i :: 0 <= i < |columns| ==> |columns[i].heading| <= widths[columns[i].key]) ==>
      |line| == Sum(ColumnWidths(columns, widths)) + 2 * (|columns| - 1)
  {
    var labels := seq(|columns|, i requires 0 <= i < |columns| => PadEnd(columns[i].heading, widths[columns[i].key]));
    if columns != [] && forall i :: 0 <= i < |columns| ==> |columns[i].heading| <= widths[columns[i].key] then
      JoinLength(labels, Gap);
      assert Lengths(labels) == ColumnWidths(columns, widths);
      JoinWith(labels, Gap)
    else
      JoinWith(labels, Gap)
  }

  /**
    One data line: each cell rendered to its column's width, so the line is as
    long as the widths together plus two spaces between each two columns.
  */
  function RowLine(columns: seq<Column>, widths: map<string, nat>, row: Json): (line: string)
    requires Covers(columns, widths)
    ensures columns != [] ==> |line| == Sum(ColumnWidths(columns, widths)) + 2 * (|columns| - 1)
  {
    var cells := seq(|columns|, i requires 0 <= i < |columns| => RenderCell(CellText(columns[i], row), widths[columns[i].key]));
    if columns != [] then
      JoinLength(cells, Gap);
      assert Lengths(cells) == ColumnWidths(columns, widths);
      JoinWith(cells, Gap)
    else
      JoinWith(cells, Gap)
  }

  /**
    With distinct keys and labels of at most 40 characters, the heading, the
    rule under it and every data line of a printed table are equally long.
  */
  lemma {:induction false} TableIsRectangular(columns: seq<Column>, rows: seq<Json>, row: Json)
    requires columns != []
    requires forall i, j :: 0 <= i < j < |columns| ==> columns[i].key != columns[j].key
    requires forall i :: 0 <= i < |columns| ==> |columns[i].heading| <= MaxWidth
    ensures Covers(columns, Widths(columns, rows))
    ensures |HeaderLine(columns, Widths(columns, rows))| == |RowLine(columns, Widths(columns, rows), row)|
  {
    var widths := Widths(columns, rows);
    WidthsCover(columns, rows);
    forall i | 0 <= i < |columns| ensures |columns[i].heading| <= widths[columns[i].key] {
      WidthOfColumn(columns, rows, i);
    }
  }

  /**
    What `printTable(data, columns)` prints, line by line: "No results found."
    for missing or empty data; otherwise the heading, a rule as long as the
    heading, one line per row, and the count of rows after a blank line.
  */
  function Table(columns: seq<Column>, data: Option<seq<Json>>): (lines: seq<string>)
    ensures data.None? || data.value == [] ==> lines == [NoResults]
    ensures data.Some? && data.value != [] ==> |lines| == |data.value| + 3
  {
    if data.None? || data.value == [] then [NoResults]
    else
      var rows := data.value;
      var widths := Widths(columns, rows);
      WidthsCover(columns, rows);
      var header := HeaderLine(columns, widths);
      [header, Repeat('\U{2500}', |header|)] + RowsText(columns, widths, rows) + [CountLine(|rows|)]
  }

  /** The data lines, one per row. */
  function RowsText(columns: seq<Column>, widths: map<string, nat>, rows: seq<Json>): (body: seq<string>)
    requires Covers(columns, widths)
    ensures |body| == |rows| && forall k :: 0 <= k < |rows| ==> body[k] == RowLine(columns, widths, rows[k])
  {
    seq(|rows|, k requires 0 <= k < |rows| => RowLine(columns, widths, rows[k]))
  }

  /** The closing line: a blank line, then the number of rows. */
  function CountLine(n: nat): string {
    "\n" + NatToString(n) + " result(s)"
  }

  /**
    The printed table has exactly the lines promised: the heading, its rule,
    the rows in order under the widths computed from all of them, and the count.
  */
  lemma {:induction false} TableShape(columns: seq<Column>, data: Option<seq<Json>>)
    ensures data.None? || data.value == [] ==> Table(columns, data) == [NoResults]
    ensures data.Some? && data.value != [] ==>
      var lines := Table(columns, data);
      var rows := data.value;
      var widths := Widths(columns, rows);
      && Covers(columns, widths)
      && |lines| == |rows| + 3
      && lines[0] == HeaderLine(columns, widths)
      && lines[1] == Repeat('\U{2500}', |lines[0]|)
      && (forall i :: 0 <= i < |rows| ==> lines[i + 2] == RowLine(columns, widths, rows[i]))
      && lines[|rows| + 2] == "\n" + NatToString(|rows|) + " result(s)"
  {
    if data.Some? && data.value != [] {
      var rows := data.value;
      var widths := Widths(columns, rows);
      WidthsCover(columns, rows);
      var header := HeaderLine(columns, widths);
      Framed(header, Repeat('\U{2500}', |header|), RowsText(columns, widths, rows), CountLine(|rows|));
    }
  }

  /** Lines framed by two above and one below: where each of them ends up. */
  lemma Framed(top: string, rule: string, body: seq<string>, bottom: string)
    ensures var lines := [top, rule] + body + [bottom];
      && |lines| == |body| + 3 && lines[0] == top && lines[1] == rule && lines[|body| + 2] == bottom
      && forall i :: 0 <= i < |body| ==> lines[i + 2] == body[i]
  {
  }

  /**
    A row is `null` and some column reads it: the width pass's first
    `row[col.key]` on it throws before anything is printed.
  */
  predicate ReadsNullRow(columns: seq<Column>, rows: seq<Json>) {
    columns != [] && JNull in rows
  }

  /** The TypeError the width pass throws, naming the first column's key. */
  function NullRowError(columns: seq<Column>): (e: Error)
    requires columns != []
    ensures e.kind == Type
  {
    Error(Type, "Cannot read properties of null (reading '" + columns[0].key + "')")
  }

  /**
    `printTable(data, columns)`: the width pass over all rows, then one line
    per row; a `null` row under some column makes it throw instead.
  */
  method PrintTable(data: Option<seq<Json>>, columns: seq<Column>) returns (r: Result<seq<string>, Error>)
    ensures data.Some? && data.value != [] && ReadsNullRow(columns, data.value) ==> r == Failure(NullRowError(columns))
    ensures !(data.Some? && data.value != [] && ReadsNullRow(columns, data.value)) ==> r == Success(Table(columns, data))
  {
    if data.None? || data.value == [] {
      return Success([NoResults]);
    }
    var rows := data.value;
    if ReadsNullRow(columns, rows) {
      return Failure(NullRowError(columns));
    }
    var widths := ComputeWidths(columns, rows);
    WidthsCover(columns, rows);
    var header := HeaderLine(columns, widths);
    var body := RowLines(columns, widths, rows);
    r := Success([header, Repeat('\U{2500}', |header|)] + body + [CountLine(|rows|)]);
  }

  /** The `forEach` over the rows: one rendered line per row, in order. */
  method RowLines(columns: seq<Column>, widths: map<string, nat>, rows: seq<Json>) returns (body: seq<string>)
    requires Covers(columns, widths)
    ensures body == RowsText(columns, widths, rows)
  {
    body := [];
    var i := 0;
    while i < |rows|
      invariant 0 <= i <= |rows|
      invariant body == RowsText(columns, widths, rows[..i])
    {
      RowsTextSnoc(columns, widths, rows, i);
      body := body + [RowLine(columns, widths, rows[i])];
      i := i + 1;
    }
    assert rows[..|rows|] == rows;
  }

  /** One more row adds its line at the end. */
  lemma RowsTextSnoc(columns: seq<Column>, widths: map<string, nat>, rows: seq<Json>, i: nat)
    requires Covers(columns, widths) && i < |rows|
    ensures RowsText(columns, widths, rows[..i + 1]) == RowsText(columns, widths, rows[..i]) + [RowLine(columns, widths, rows[i])]
  {
    assert rows[..i + 1][..i] == rows[..i];
  }

  /** `requireAuth()`: the message printed before exiting, or None when a key is configured. */
  function RequireAuth(configured: bool): (stop: Option<string>)
    ensures stop.Some? <==> !configured
    ensures stop.Some? ==> stop.value == NotConfigured
  {
    if configured then None else Some(NotConfigured)
  }

  /** `--emails` split at each comma, each address trimmed. */
  function SplitEmails(emails: string): (addresses: seq<string>)
    ensures |addresses| == Count(emails, ',') + 1
    ensures forall i :: 0 <= i < |addresses| ==> addresses[i] == Trim(Split(emails, ',')[i])
  {
    var parts := Split(emails, ',');
    seq(|parts|, i requires 0 <= i < |parts| => Trim(parts[i]))
  }

  /**
    `invoices send <id> --emails <list>`: stops at the authentication gate
    when no key is configured, otherwise POSTs the trimmed addresses to the
    invoice's `send` endpoint.
  */
  function InvoicesSend(configured: bool, invoiceId: string, emails: string): (step: Step)
    ensures !configured ==> step == Abort(NotConfigured)
    ensures configured ==> step.Issue? && step.verb == "POST" && step.endpoint == "/documents/" + invoiceId + "/send"
    ensures configured ==> step.payload.JObj? && Keys(step.payload.members) == ["emails"]
    ensures configured ==>
      var sent := Get(step.payload, "emails");
      && sent.Some? && sent.value.JArr?
      && |sent.value.items| == Count(emails, ',') + 1
      && forall i :: 0 <= i < |sent.value.items| ==> sent.value.items[i] == JStr(SplitEmails(emails)[i])
  {
    match RequireAuth(configured)
    case Some(message) => Abort(message)
    case None =>
      var addresses := SplitEmails(emails);
      var body := Api.SendInvoiceBody(JArr(seq(|addresses|, i requires 0 <= i < |addresses| => JStr(addresses[i]))));
      Issue("POST", "/documents/" + invoiceId + "/send", body)
  }

  /** An address list written as `a, b, c` (as the success message prints it) splits back into the same addresses. */
  lemma {:induction false} SplitEmailsOfJoined(addresses: seq<string>)
    requires addresses != []
    requires forall i :: 0 <= i < |addresses| ==> ',' !in addresses[i]
    requires forall i :: 0 <= i < |addresses| ==>
      addresses[i] == [] || (!IsWhitespace(addresses[i][0]) && !IsWhitespace(addresses[i][|addresses[i]| - 1]))
    ensures SplitEmails(JoinWith(addresses, ", ")) == addresses
  {
    var joined := JoinWith(addresses, ", ");
    SplitOfJoined(addresses);
    var result := SplitEmails(joined);
    forall i | 0 <= i < |addresses| ensures result[i] == addresses[i] {
      TrimSpaced(addresses, i);
    }
  }

  lemma {:induction false} SplitOfJoined(addresses: seq<string>)
    requires addresses != []
    requires forall i :: 0 <= i < |addresses| ==> ',' !in addresses[i]
    ensures Split(JoinWith(addresses, ", "), ',') == Spaced(addresses)
  {
    var spaced := Spaced(addresses);
    forall i | 0 <= i < |spaced| ensures ',' !in spaced[i] {
      if i > 0 {
        assert spaced[i] == " " + addresses[i];
      }
    }
    JoinSpaced(addresses);
    SplitJoin(spaced, ',');
  }

  lemma {:induction false} TrimSpaced(addresses: seq<string>, i: nat)
    requires addresses != [] && i < |addresses|
    requires addresses[i] == [] || (!IsWhitespace(addresses[i][0]) && !IsWhitespace(addresses[i][|addresses[i]| - 1]))
    ensures Trim(Spaced(addresses)[i]) == addresses[i]
  {
    if i == 0 {
      TrimUnchanged(addresses[0]);
    } else {
      TrimLeadingSpace(addresses[i]);
    }
  }

  /** The pieces a comma split of `a, b, c` yields: every address after the first keeps its leading space. */
  function Spaced(addresses: seq<string>): (pieces: seq<string>)
    requires addresses != []
    ensures |pieces| == |addresses| && pieces[0] == addresses[0]
    ensures forall i :: 0 < i < |addresses| ==> pieces[i] == " " + addresses[i]
  {
    [addresses[0]] + seq(|addresses| - 1, i requires 0 <= i < |addresses| - 1 => " " + addresses[i + 1])
  }

  lemma {:induction false} JoinSpaced(addresses: seq<string>)
    requires addresses != []
    ensures JoinWith(addresses, ", ") == JoinWith(Spaced(addresses), ",")
  {
    if |addresses| > 1 {
      var rest := addresses[1..];
      JoinSpaced(rest);
      var tail := Spaced(addresses)[1..];
      assert tail == [" " + rest[0]] + Spaced(rest)[1..];
      JoinConsHead(" ", Spaced(rest), ",");
      assert JoinWith(tail, ",") == " " + JoinWith(rest, ", ");
    }
  }

  lemma {:induction false} TrimLeadingSpace(a: string)
    requires a == [] || (!IsWhitespace(a[0]) && !IsWhitespace(a[|a| - 1]))
    ensures Trim(" " + a) == a
  {
    TrimStartSpace(a);
    TrimUnchanged(a);
  }

  lemma {:induction false} TrimStartSpace(a: string)
    ensures TrimStart(" " + a) == TrimStart(a)
  {
    var s := " " + a;
    assert s[0] == ' ' && s[1..] == a;
  }
}
