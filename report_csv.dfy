/**
 * The CSV export of the report screen (handleExportCSV in
 * components/Report.tsx): one header line, then one line per record of the
 * filtered list, fields joined by ',' and lines by '\n'. The merchant and the
 * group name are written between double quotes with every '"' doubled; the
 * other fields are written as they are.
 *
 * The partner of the writer is a reader in the manner of RFC 4180 (a field
 * is either plain text up to the next ',' or line break, or a quoted field
 * in which '""' stands for '"'), and the main lemma reads every exported
 * file back to exactly the values that were written.
 */
module ReportCsv {
  import opened Types
  import opened Seqs

  // ---------------------------------------------------------------------
  // Escaping

  /** `s.replace(/"/g, '""')`. */
  function DoubleQuotes(s: string): string {
    if s == [] then []
    else (if s[0] == '"' then "\"\"" else [s[0]]) + DoubleQuotes(s[1..])
  }

  /** `"${s.replace(/"/g, '""')}"`. */
  function Quote(s: string): string {
    "\"" + DoubleQuotes(s) + "\""
  }

  /** The escaped text has exactly one extra '"' for each '"' of s. */
  lemma {:induction false} DoubleQuotesLength(s: string)
    ensures |DoubleQuotes(s)| == |s| + multiset(s)['"']
  {
    if s != [] {
      DoubleQuotesLength(s[1..]);
      assert s == [s[0]] + s[1..];
      assert multiset(s) == multiset{s[0]} + multiset(s[1..]);
    }
  }

  // ---------------------------------------------------------------------
  // Reading back

  /** Text up to the next ',' or line break, and what follows it. */
  function PlainField(s: string): (r: (string, string))
    ensures |r.1| <= |s|
  {
    if s == [] || s[0] == ',' || s[0] == '\n' then ("", s)
    else
      var p := PlainField(s[1..]);
      ([s[0]] + p.0, p.1)
  }

  /** The inside of a quoted field, read up to its closing quote, with each
      '""' read as '"'; None when the closing quote is missing. */
  function QuotedBody(s: string): (r: Option<(string, string)>)
    ensures r.Some? ==> |r.value.1| < |s|
  {
    if s == [] then None
    else if s[0] == '"' then
      if |s| >= 2 && s[1] == '"' then
        match QuotedBody(s[2..])
        case None => None
        case Some(p) => Some(("\"" + p.0, p.1))
      else Some(("", s[1..]))
    else
      match QuotedBody(s[1..])
      case None => None
      case Some(p) => Some(([s[0]] + p.0, p.1))
  }

  /** One field: quoted when it starts with '"', plain otherwise. */
  function ParseField(s: string): (r: Option<(string, string)>)
    ensures r.Some? ==> |r.value.1| <= |s|
  {
    if s != [] && s[0] == '"' then QuotedBody(s[1..]) else Some(PlainField(s))
  }

  /** One record: fields separated by ',', ended by a line break or the end
      of the text; None when a quoted field is followed by anything else. */
  function ParseRecord(s: string): (r: Option<(seq<string>, string)>)
    ensures r.Some? ==> |r.value.1| <= |s| && (r.value.1 == [] || r.value.1[0] == '\n')
    decreases |s|
  {
    match ParseField(s)
    case None => None
    case Some(p) =>
      var rest := p.1;
      if rest != [] && rest[0] == ',' then
        match ParseRecord(rest[1..])
        case None => None
        case Some(q) => Some(([p.0] + q.0, q.1))
      else if rest == [] || rest[0] == '\n' then Some(([p.0], rest))
      else None
  }

  /** A whole file: records separated by line breaks. */
  function ParseCsv(s: string): (r: Option<seq<seq<string>>>)
    decreases |s|
  {
    match ParseRecord(s)
    case None => None
    case Some(p) =>
      if p.1 == [] then Some([p.0])
      else
        match ParseCsv(p.1[1..])
        case None => None
        case Some(recs) => Some([p.0] + recs)
  }

  /** A quoted field reads back as the text that was quoted. */
  lemma {:induction false} QuotedBodyOfEscaped(x: string, rest: string)
    requires rest == [] || rest[0] != '"'
    ensures QuotedBody(DoubleQuotes(x) + "\"" + rest) == Some((x, rest))
  {
    if x == [] {
      assert DoubleQuotes(x) + "\"" + rest == "\"" + rest;
    } else {
      QuotedBodyOfEscaped(x[1..], rest);
      EscapedSplit(x, rest);
      assert [x[0]] + x[1..] == x;
    }
  }

  /** The escaped text after its first character's escape. */
  lemma EscapedSplit(x: string, rest: string)
    requires x != []
    ensures var head := if x[0] == '"' then "\"\"" else [x[0]];
      DoubleQuotes(x) + "\"" + rest == head + (DoubleQuotes(x[1..]) + "\"" + rest)
  {
  }

  /** Unquoting a quoted text gives the text back, whatever it contains,
      as long as the closing quote is not followed by another quote. */
  lemma QuoteRoundTrip(x: string, rest: string)
    requires rest == [] || rest[0] != '"'
    ensures ParseField(Quote(x) + rest) == Some((x, rest))
  {
    var s := Quote(x) + rest;
    assert s[0] == '"';
    assert s[1..] == DoubleQuotes(x) + "\"" + rest;
    QuotedBodyOfEscaped(x, rest);
  }

  /** A text without separators reads back as itself. */
  lemma {:induction false} PlainFieldOf(x: string, rest: string)
    requires ',' !in x && '\n' !in x
    requires rest == [] || rest[0] == ',' || rest[0] == '\n'
    ensures PlainField(x + rest) == (x, rest)
  {
    if x == [] {
      assert x + rest == rest;
    } else {
      assert (x + rest)[1..] == x[1..] + rest;
      assert x[0] in x;
      assert forall c :: c in x[1..] ==> c in x;
      PlainFieldOf(x[1..], rest);
      assert [x[0]] + x[1..] == x;
    }
  }

  // ---------------------------------------------------------------------
  // Cells and lines

  /** A field as it is written: as it is, or between quotes. */
  datatype Cell = Plain(text: string) | Quoted(text: string)

  function Encode(c: Cell): string {
    match c
    case Plain(x) => x
    case Quoted(x) => Quote(x)
  }

  function CellText(c: Cell): string { c.text }

  /** A plain field must not contain a separator or a quote to be read back
      as itself; a quoted field can hold anything. */
  predicate Writable(c: Cell) {
    c.Plain? ==> ',' !in c.text && '\n' !in c.text && '"' !in c.text
  }

  predicate AllWritable(cells: seq<Cell>) {
    forall i :: 0 <= i < |cells| ==> Writable(cells[i])
  }

  /** `[...].join(',')`. */
  function Line(cells: seq<Cell>): string {
    Join(Map(cells, Encode), ',')
  }

  /** Any writable cell reads back as its text when it is followed by a
      separator or the end of the text. */
  lemma FieldRoundTrip(c: Cell, rest: string)
    requires Writable(c)
    requires rest == [] || rest[0] == ',' || rest[0] == '\n'
    ensures ParseField(Encode(c) + rest) == Some((c.text, rest))
  {
    match c
    case Plain(x) =>
      PlainFieldOf(x, rest);
      if x == [] {
        assert x + rest == rest;
      } else {
        assert (x + rest)[0] == x[0];
      }
    case Quoted(x) =>
      QuoteRoundTrip(x, rest);
  }

  /** A field followed by ',' and the rest of a record. */
  lemma ParseRecordMore(s: string, field: string, after: string, fields: seq<string>, rest: string)
    requires ParseField(s) == Some((field, [','] + after))
    requires ParseRecord(after) == Some((fields, rest))
    ensures ParseRecord(s) == Some(([field] + fields, rest))
  {
    assert ([','] + after)[1..] == after;
  }

  /** A line of writable cells reads back as the cells' texts. */
  lemma {:induction false} LineRoundTrip(cells: seq<Cell>, rest: string)
    requires |cells| > 0 && AllWritable(cells)
    requires rest == [] || rest[0] == '\n'
    ensures ParseRecord(Line(cells) + rest) == Some((Texts(cells), rest))
  {
    if |cells| == 1 {
      JoinMapOne(cells, Encode, ',');
      FieldRoundTrip(cells[0], rest);
      MapTail(cells, CellText);
      assert Texts(cells) == [cells[0].text];
    } else {
      var tail := cells[1..];
      var after := Line(tail) + rest;
      JoinMapMore(cells, Encode, ',', rest);
      FieldRoundTrip(cells[0], [','] + after);
      AllWritableTail(cells);
      LineRoundTrip(tail, rest);
      ParseRecordMore(Line(cells) + rest, cells[0].text, after, Texts(tail), rest);
      MapTail(cells, CellText);
    }
  }

  lemma AllWritableTail(cells: seq<Cell>)
    requires |cells| > 0 && AllWritable(cells)
    ensures AllWritable(cells[1..])
  {
    forall i | 0 <= i < |cells| - 1 ensures Writable(cells[1..][i]) {
      assert cells[1..][i] == cells[i + 1];
    }
  }

  /** A record followed by a line break and the rest of the file. */
  lemma ParseCsvMore(s: string, fields: seq<string>, after: string, records: seq<seq<string>>)
    requires ParseRecord(s) == Some((fields, ['\n'] + after))
    requires ParseCsv(after) == Some(records)
    ensures ParseCsv(s) == Some([fields] + records)
  {
    assert (['\n'] + after)[1..] == after;
  }

  /** Every row has cells and every cell can be read back. */
  predicate Readable(rows: seq<seq<Cell>>) {
    forall i :: 0 <= i < |rows| ==> |rows[i]| > 0 && AllWritable(rows[i])
  }

  lemma ReadableTail(rows: seq<seq<Cell>>)
    requires |rows| > 0 && Readable(rows)
    ensures Readable(rows[1..])
  {
    forall i | 0 <= i < |rows| - 1 ensures |rows[1..][i]| > 0 && AllWritable(rows[1..][i]) {
      assert rows[1..][i] == rows[i + 1];
    }
  }

  /** Lines joined by line breaks read back as the rows of texts. */
  lemma {:induction false} CsvRoundTrip(rows: seq<seq<Cell>>)
    requires |rows| > 0 && Readable(rows)
    ensures ParseCsv(Join(Map(rows, Line), '\n')) == Some(Map(rows, Texts))
  {
    if |rows| == 1 {
      LineRoundTrip(rows[0], "");
      JoinMapOne(rows, Line, '\n');
      assert Line(rows[0]) + "" == Line(rows[0]);
      MapTail(rows, Texts);
      assert Map(rows, Texts) == [Texts(rows[0])];
    } else {
      var tail := rows[1..];
      var after := Join(Map(tail, Line), '\n');
      var s := Join(Map(rows, Line), '\n');
      JoinMapMore(rows, Line, '\n', "");
      assert s + "" == s && after + "" == after;
      ReadableTail(rows);
      CsvRoundTrip(tail);
      LineRoundTrip(rows[0], ['\n'] + after);
      ParseCsvMore(s, Texts(rows[0]), after, Map(tail, Texts));
      MapTail(rows, Texts);
    }
  }

  function Texts(cells: seq<Cell>): seq<string> {
    Map(cells, CellText)
  }

  // ---------------------------------------------------------------------
  // The fields of a record

  function Digit(n: int): char
    requires 0 <= n < 10
  {
    ('0' as int + n) as char
  }

  function DigitValue(c: char): int {
    c as int - '0' as int
  }

  function Pow10(w: nat): nat {
    if w == 0 then 1 else 10 * Pow10(w - 1)
  }

  /** n in decimal, zero-padded to `width` digits. */
  function Decimal(n: nat, width: nat): (r: string)
    ensures |r| == width
    ensures forall i :: 0 <= i < |r| ==> '0' <= r[i] <= '9'
  {
    if width == 0 then [] else Decimal(n / 10, width - 1) + [Digit(n % 10)]
  }

  /** The value of a text of decimal digits. */
  function ReadDecimal(s: string): int {
    if s == [] then 0 else 10 * ReadDecimal(s[..|s| - 1]) + DigitValue(s[|s| - 1])
  }

  /** A number that fits the width reads back from its padded text. */
  lemma {:induction false} DecimalRoundTrip(n: nat, width: nat)
    requires n < Pow10(width)
    ensures ReadDecimal(Decimal(n, width)) == n
  {
    if width > 0 {
      DecimalRoundTrip(n / 10, width - 1);
      var r := Decimal(n, width);
      assert r[..|r| - 1] == Decimal(n / 10, width - 1);
    }
  }

  /** The `YYYY-MM-DD` text of a date, as the date input stores it. */
  function DateText(d: Date): (r: string)
    ensures |r| == 10
  {
    Decimal(d.year, 4) + "-" + Decimal(d.month, 2) + "-" + Decimal(d.day, 2)
  }

  /** Reading a `YYYY-MM-DD` text as its (year, month, day). */
  function ReadDate(s: string): (int, int, int)
    requires |s| == 10
  {
    (ReadDecimal(s[..4]), ReadDecimal(s[5..7]), ReadDecimal(s[8..]))
  }

  /** The date text reads back as the date. */
  lemma DateTextRoundTrip(d: Date)
    ensures ReadDate(DateText(d)) == (d.year, d.month, d.day)
  {
    var s := DateText(d);
    assert s[..4] == Decimal(d.year, 4) && s[5..7] == Decimal(d.month, 2) && s[8..] == Decimal(d.day, 2);
    assert Pow10(2) == 100 && Pow10(4) == 10000;
    DecimalRoundTrip(d.year, 4);
    DecimalRoundTrip(d.month, 2);
    DecimalRoundTrip(d.day, 2);
  }

  lemma DigitsSafe(x: string)
    requires forall i :: 0 <= i < |x| ==> '0' <= x[i] <= '9'
    ensures Safe(x)
  {
  }

  /** The date text holds neither separators nor quotes. */
  lemma DateTextSafe(d: Date)
    ensures Safe(DateText(d))
  {
    DigitsSafe(Decimal(d.year, 4));
    DigitsSafe(Decimal(d.month, 2));
    DigitsSafe(Decimal(d.day, 2));
  }

  /** `t.type`. */
  function TypeText(k: TxType): (r: string)
    ensures r == "income" <==> k == Income
    ensures r == "expense" <==> k == Expense
  {
    match k
    case Income => "income"
    case Expense => "expense"
  }

  /** `t.ownership`. */
  function OwnershipText(o: Ownership): (r: string)
    ensures r == "personal" <==> o == Personal
    ensures r == "group" <==> o == GroupOwned
  {
    match o
    case Personal => "personal"
    case GroupOwned => "group"
  }

  /** `t.category || '-'`. */
  function CategoryField(t: Transaction): (r: string)
    ensures Truthy(t.category) ==> r == t.category.value
    ensures !Truthy(t.category) ==> r == "-"
  {
    OrElse(t.category, "-")
  }

  /** Where `groups.find(g => g.id === id)` stops: the index of the first
      group with that id, or |groups| when there is none. */
  function FirstWithId(groups: seq<Group>, id: string): (k: nat)
    ensures k <= |groups|
    ensures k < |groups| ==> groups[k].id == id
    ensures forall j :: 0 <= j < k ==> groups[j].id != id
  {
    if groups == [] then 0
    else if groups[0].id == id then 0
    else 1 + FirstWithId(groups[1..], id)
  }

  /** `groups.find(g => g.id === id)`. */
  function FindGroup(groups: seq<Group>, id: string): Option<Group> {
    var k := FirstWithId(groups, id);
    if k < |groups| then Some(groups[k]) else None
  }

  /** The group name column. */
  function GroupName(t: Transaction, groups: seq<Group>): string {
    if !Truthy(t.groupId) then "-"
    else
      match FindGroup(groups, t.groupId.value)
      case None => ""
      case Some(g) => g.name
  }

  /** The group name column is '-' for a record with no group id, '' when
      the id matches no group, and otherwise the name of the first group
      with that id. */
  lemma GroupNameIsFirstMatch(t: Transaction, groups: seq<Group>)
    ensures !Truthy(t.groupId) ==> GroupName(t, groups) == "-"
    ensures Truthy(t.groupId) && (forall g :: g in groups ==> g.id != t.groupId.value) ==> GroupName(t, groups) == ""
    ensures Truthy(t.groupId) ==> forall i ::
      (0 <= i < |groups| && groups[i].id == t.groupId.value
       && forall j :: 0 <= j < i ==> groups[j].id != t.groupId.value) ==> GroupName(t, groups) == groups[i].name
  {
    if Truthy(t.groupId) {
      var k := FirstWithId(groups, t.groupId.value);
      if k < |groups| {
        assert groups[k] in groups;
      }
    }
  }

  // ---------------------------------------------------------------------
  // The file

  const Headers: seq<string> := ["Date", "Merchant", "Amount", "Type", "Category", "Ownership", "Group Name"]

  function PlainCell(x: string): Cell { Plain(x) }

  /** `headers.join(',')` is the line of the header names, unquoted. */
  function HeaderCells(): seq<Cell> {
    Map(Headers, PlainCell)
  }

  /** The cells of one record's line. `amountText` is the text JavaScript
      writes for the amount. */
  function RowCells(t: Transaction, groups: seq<Group>, amountText: real -> string): seq<Cell> {
    [Plain(DateText(t.date)), Quoted(t.merchant), Plain(amountText(t.amount)), Plain(TypeText(t.kind)),
     Plain(CategoryField(t)), Plain(OwnershipText(t.ownership)), Quoted(GroupName(t, groups))]
  }

  /** The values a reader finds on one record's line. */
  function RowValues(t: Transaction, groups: seq<Group>, amountText: real -> string): seq<string> {
    [DateText(t.date), t.merchant, amountText(t.amount), TypeText(t.kind),
     CategoryField(t), OwnershipText(t.ownership), GroupName(t, groups)]
  }

  /** The header row and one row per record, in the list's order. */
  function Table(filtered: seq<Transaction>, groups: seq<Group>, amountText: real -> string): (r: seq<seq<Cell>>)
    ensures |r| == |filtered| + 1 && r[0] == HeaderCells()
    ensures forall i :: 0 <= i < |filtered| ==> r[i + 1] == RowCells(filtered[i], groups, amountText)
  {
    [HeaderCells()] + Rows(filtered, groups, amountText)
  }

  /** One row of cells per record. */
  function Rows(filtered: seq<Transaction>, groups: seq<Group>, amountText: real -> string): (r: seq<seq<Cell>>)
    ensures |r| == |filtered|
    ensures forall i :: 0 <= i < |filtered| ==> r[i] == RowCells(filtered[i], groups, amountText)
  {
    if filtered == [] then []
    else Rows(filtered[..|filtered| - 1], groups, amountText) + [RowCells(filtered[|filtered| - 1], groups, amountText)]
  }

  /** handleExportCSV: nothing to export for an empty list, otherwise the
      rows of the table as lines joined by line breaks. */
  function ExportCsv(filtered: seq<Transaction>, groups: seq<Group>, amountText: real -> string): (r: Option<string>)
    ensures r.None? <==> filtered == []
  {
    if filtered == [] then None
    else Some(Join(Map(Table(filtered, groups, amountText), Line), '\n'))
  }

  /** A value that can be written unquoted. */
  predicate Safe(x: string) {
    ',' !in x && '\n' !in x && '"' !in x
  }

  /** The line of a record whose category and amount text are safe can be
      read back. */
  lemma RowWritable(t: Transaction, groups: seq<Group>, amountText: real -> string)
    requires Safe(CategoryField(t)) && Safe(amountText(t.amount))
    ensures AllWritable(RowCells(t, groups, amountText))
  {
    var cells := RowCells(t, groups, amountText);
    forall i | 0 <= i < |cells| ensures Writable(cells[i]) {
      if i == 0 {
        DateTextSafe(t.date);
      } else if i == 3 {
        KindTextSafe(t.kind);
      } else if i == 5 {
        OwnershipTextSafe(t.ownership);
      }
    }
  }

  lemma KindTextSafe(k: TxType)
    ensures Safe(TypeText(k))
  {
  }

  lemma OwnershipTextSafe(o: Ownership)
    ensures Safe(OwnershipText(o))
  {
  }

  lemma RowTexts(t: Transaction, groups: seq<Group>, amountText: real -> string)
    ensures Texts(RowCells(t, groups, amountText)) == RowValues(t, groups, amountText)
  {
  }

  /** A row of safe texts written unquoted reads back as those texts. */
  lemma PlainRow(xs: seq<string>)
    requires forall i :: 0 <= i < |xs| ==> Safe(xs[i])
    ensures AllWritable(Map(xs, PlainCell)) && Texts(Map(xs, PlainCell)) == xs
  {
  }

  lemma HeaderWritable()
    ensures |HeaderCells()| > 0 && AllWritable(HeaderCells())
  {
    HeaderSafe();
    PlainRow(Headers);
  }

  lemma HeaderSafe()
    ensures forall i :: 0 <= i < |Headers| ==> Safe(Headers[i])
  {
  }

  /**
   * Reading the exported file back gives the header and then, line by line
   * in the list's order, the fields of each record: the merchant and the
   * group name exactly as they are, whatever quotes, commas or line breaks
   * they hold. Only the unquoted category and amount text must be free of
   * separators.
   */
  lemma ExportReadsBack(filtered: seq<Transaction>, groups: seq<Group>, amountText: real -> string)
    requires filtered != []
    requires forall t :: t in filtered ==> Safe(CategoryField(t)) && Safe(amountText(t.amount))
    ensures var r := ParseCsv(ExportCsv(filtered, groups, amountText).value);
      r.Some? && |r.value| == |filtered| + 1 && r.value[0] == Headers
      && forall i :: 0 <= i < |filtered| ==> r.value[i + 1] == RowValues(filtered[i], groups, amountText)
  {
    TableWritable(filtered, groups, amountText);
    CsvRoundTrip(Table(filtered, groups, amountText));
    TableTexts(filtered, groups, amountText);
  }

  lemma TableWritable(filtered: seq<Transaction>, groups: seq<Group>, amountText: real -> string)
    requires forall t :: t in filtered ==> Safe(CategoryField(t)) && Safe(amountText(t.amount))
    ensures Readable(Table(filtered, groups, amountText))
  {
    HeaderWritable();
    RowsReadable(filtered, groups, amountText);
    ReadableCons(HeaderCells(), Rows(filtered, groups, amountText));
  }

  lemma {:induction false} RowsReadable(filtered: seq<Transaction>, groups: seq<Group>, amountText: real -> string)
    requires forall t :: t in filtered ==> Safe(CategoryField(t)) && Safe(amountText(t.amount))
    ensures Readable(Rows(filtered, groups, amountText))
  {
    if filtered != [] {
      var front, t := filtered[..|filtered| - 1], filtered[|filtered| - 1];
      assert forall u :: u in front ==> u in filtered;
      RowsReadable(front, groups, amountText);
      RowWritable(t, groups, amountText);
      ReadableSnoc(Rows(front, groups, amountText), RowCells(t, groups, amountText));
    }
  }

  lemma ReadableCons(row: seq<Cell>, rows: seq<seq<Cell>>)
    requires |row| > 0 && AllWritable(row) && Readable(rows)
    ensures Readable([row] + rows)
  {
    assert forall i :: 1 <= i < |rows| + 1 ==> ([row] + rows)[i] == rows[i - 1];
  }

  lemma ReadableSnoc(rows: seq<seq<Cell>>, row: seq<Cell>)
    requires |row| > 0 && AllWritable(row) && Readable(rows)
    ensures Readable(rows + [row])
  {
    assert forall i :: 0 <= i < |rows| ==> (rows + [row])[i] == rows[i];
  }

  lemma TableTexts(filtered: seq<Transaction>, groups: seq<Group>, amountText: real -> string)
    ensures var texts := Map(Table(filtered, groups, amountText), Texts);
      texts[0] == Headers
      && forall i :: 0 <= i < |filtered| ==> texts[i + 1] == RowValues(filtered[i], groups, amountText)
  {
    HeaderSafe();
    PlainRow(Headers);
    forall i | 0 <= i < |filtered| ensures Texts(Table(filtered, groups, amountText)[i + 1]) == RowValues(filtered[i], groups, amountText) {
      RowTexts(filtered[i], groups, amountText);
    }
  }
}
