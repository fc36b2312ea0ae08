/**
 * CSV export (packages/core/src/utils/csv.ts). A row is the list of a record's
 * fields in key order, each with `String(value)`, or `None` for null/undefined.
 * Fields are escaped in the style of section 2 of RFC 4180, but lines are joined
 * with a bare LF.
 */
module Csv {
  import opened Wrappers
  import opened Text

  datatype Field = Field(key: string, value: Option<string>)

  type Row = seq<Field>

  /** A value is quoted when it holds a double quote, a comma or a line feed (a lone CR does not count). */
  predicate NeedsQuoting(s: string) { '"' in s || ',' in s || '\n' in s }

  /** Every double quote of `s` written twice (`DoubleQuotesCounts` states the counts). */
  function DoubleQuotes(s: string): (r: string)
    ensures |r| >= |s|
    ensures '"' !in s ==> r == s
  {
    if s == [] then []
    else (if s[0] == '"' then "\"\"" else [s[0]]) + DoubleQuotes(s[1..])
  }

  /**
   * Doubling holds twice as many quotes as `s`, every other character as often as `s`
   * does, and is longer than `s` by exactly the number of quotes.
   */
  lemma DoubleQuotesCounts(s: string)
    ensures |DoubleQuotes(s)| == |s| + multiset(s)['"']
    ensures multiset(DoubleQuotes(s))['"'] == 2 * multiset(s)['"']
    ensures forall c :: c != '"' ==> multiset(DoubleQuotes(s))[c] == multiset(s)[c]
  {
    DoubleQuotesLength(s);
    DoubleQuotesQuotes(s);
    DoubleQuotesOthers(s);
  }

  /** `DoubleQuotes` unfolded once, as multisets. */
  lemma DoubleQuotesHead(s: string)
    requires s != []
    ensures var h := if s[0] == '"' then "\"\"" else [s[0]];
      && multiset(s) == multiset([s[0]]) + multiset(s[1..])
      && multiset(DoubleQuotes(s)) == multiset(h) + multiset(DoubleQuotes(s[1..]))
  {
    assert s == [s[0]] + s[1..];
  }

  lemma {:induction false} DoubleQuotesLength(s: string)
    ensures |DoubleQuotes(s)| == |s| + multiset(s)['"']
    decreases |s|
  {
    if s != [] {
      DoubleQuotesLength(s[1..]);
      DoubleQuotesHead(s);
    }
  }

  lemma {:induction false} DoubleQuotesQuotes(s: string)
    ensures multiset(DoubleQuotes(s))['"'] == 2 * multiset(s)['"']
    decreases |s|
  {
    if s != [] {
      DoubleQuotesQuotes(s[1..]);
      DoubleQuotesHead(s);
    }
  }

  lemma {:induction false} DoubleQuotesOthers(s: string)
    ensures forall c :: c != '"' ==> multiset(DoubleQuotes(s))[c] == multiset(s)[c]
    decreases |s|
  {
    if s != [] {
      DoubleQuotesOthers(s[1..]);
      DoubleQuotesHead(s);
    }
  }

  /** Doubling quotes works piece by piece: it distributes over concatenation. */
  lemma {:induction false} DoubleQuotesAppend(a: string, b: string)
    ensures DoubleQuotes(a + b) == DoubleQuotes(a) + DoubleQuotes(b)
    decreases |a|
  {
    if a == [] {
      assert a + b == b;
    } else {
      var h := if a[0] == '"' then "\"\"" else [a[0]];
      calc {
        DoubleQuotes(a + b);
        { assert (a + b)[0] == a[0] && (a + b)[1..] == a[1..] + b; }
        h + DoubleQuotes(a[1..] + b);
        { DoubleQuotesAppend(a[1..], b); }
        h + (DoubleQuotes(a[1..]) + DoubleQuotes(b));
        (h + DoubleQuotes(a[1..])) + DoubleQuotes(b);
        DoubleQuotes(a) + DoubleQuotes(b);
      }
    }
  }

  /** Escapes one value: absent is "", a value needing quotes is quoted with inner quotes doubled. */
  function EscapeValue(v: Option<string>): (r: string)
    ensures v.None? ==> r == ""
    ensures v.Some? && NeedsQuoting(v.value) ==> r == "\"" + DoubleQuotes(v.value) + "\""
    ensures v.Some? && !NeedsQuoting(v.value) ==> r == v.value
  {
    if v.None? then ""
    else if NeedsQuoting(v.value) then "\"" + DoubleQuotes(v.value) + "\""
    else v.value
  }

  /** Reads doubled quotes back as single ones. */
  function UndoubleQuotes(s: string): string {
    if |s| >= 2 && s[0] == '"' && s[1] == '"' then "\"" + UndoubleQuotes(s[2..])
    else if s == [] then []
    else [s[0]] + UndoubleQuotes(s[1..])
  }

  /** Reads one escaped field back: strips the enclosing quotes of a quoted field and undoubles. */
  function UnescapeField(f: string): string {
    if |f| >= 2 && f[0] == '"' && f[|f| - 1] == '"' then UndoubleQuotes(f[1..|f| - 1]) else f
  }

  lemma {:induction false} UndoubleDouble(s: string)
    ensures UndoubleQuotes(DoubleQuotes(s)) == s
  {
    if s != [] {
      var rest := DoubleQuotes(s[1..]);
      UndoubleDouble(s[1..]);
      if s[0] == '"' {
        assert DoubleQuotes(s) == "\"\"" + rest;
        assert ("\"\"" + rest)[2..] == rest;
      } else {
        assert DoubleQuotes(s) == [s[0]] + rest;
        assert ([s[0]] + rest)[1..] == rest;
        if |rest| >= 1 && s[0] != '"' {
          assert (([s[0]] + rest)[0]) != '"';
        }
      }
      assert s == [s[0]] + s[1..];
    }
  }

  /** Escaping loses nothing: every present value is read back exactly. */
  lemma EscapeRoundTrip(s: string)
    ensures UnescapeField(EscapeValue(Some(s))) == s
  {
    if NeedsQuoting(s) {
      var q := DoubleQuotes(s);
      assert ("\"" + q + "\"")[1..|q| + 1] == q;
      UndoubleDouble(s);
    } else {
      assert |s| >= 1 ==> s[0] != '"' by {
        if |s| >= 1 { assert s[0] in s; }
      }
    }
  }

  /** Escaping examples: a comma forces quotes, a carriage return alone does not. */
  lemma EscapeExamples()
    ensures EscapeValue(None) == ""
    ensures EscapeValue(Some("a,b")) == "\"a,b\""
    ensures EscapeValue(Some("a\rb")) == "a\rb"
  {
    assert ',' in "a,b";
  }

  /** An inner double quote is written twice inside the quotes. */
  lemma QuoteEscapeExample()
    ensures EscapeValue(Some("x\"y")) == "\"x\"\"y\""
  {
    assert '"' in "x\"y";
    assert DoubleQuotes("y") == "y";
    assert DoubleQuotes("\"y") == "\"\"y";
  }

  /** The keys of a row, in order. */
  function Keys(row: Row): (r: seq<string>)
    ensures |r| == |row| && forall k :: 0 <= k < |row| ==> r[k] == row[k].key
  {
    if row == [] then [] else [row[0].key] + Keys(row[1..])
  }

  /** The keys of all rows, row after row. */
  function AllKeys(rows: seq<Row>): seq<string> {
    if rows == [] then [] else AllKeys(rows[..|rows| - 1]) + Keys(rows[|rows| - 1])
  }

  /** What inserting `xs` one by one into an insertion-ordered set yields. */
  function Dedup(xs: seq<string>): seq<string> {
    if xs == [] then []
    else
      var d := Dedup(xs[..|xs| - 1]);
      if xs[|xs| - 1] in d then d else d + [xs[|xs| - 1]]
  }

  ghost predicate NoDuplicates(s: seq<string>) {
    forall i, j :: 0 <= i < j < |s| ==> s[i] != s[j]
  }

  /** The position of the first occurrence of `x` in `xs`. */
  function FirstIndex(xs: seq<string>, x: string): (k: nat)
    requires x in xs
    ensures k < |xs| && xs[k] == x && forall j :: 0 <= j < k ==> xs[j] != x
  {
    if xs[0] == x then 0 else 1 + FirstIndex(xs[1..], x)
  }

  lemma FirstIndexSnoc(xs: seq<string>, y: string, x: string)
    requires x in xs + [y]
    ensures x in xs ==> FirstIndex(xs + [y], x) == FirstIndex(xs, x)
    ensures x !in xs ==> FirstIndex(xs + [y], x) == |xs|
  {
    var k := FirstIndex(xs + [y], x);
    if x in xs {
      var m := FirstIndex(xs, x);
      assert (xs + [y])[m] == x;
    }
  }

  /**
   * The headers: each key of the input exactly once, ordered by where it first appears.
   */
  lemma {:induction false} DedupProperties(xs: seq<string>)
    ensures NoDuplicates(Dedup(xs))
    ensures forall x :: x in Dedup(xs) <==> x in xs
    ensures forall i, j :: 0 <= i < j < |Dedup(xs)| ==>
      FirstIndex(xs, Dedup(xs)[i]) < FirstIndex(xs, Dedup(xs)[j])
  {
    if xs != [] {
      var init := xs[..|xs| - 1];
      var y := xs[|xs| - 1];
      assert xs == init + [y];
      DedupProperties(init);
      var d := Dedup(init);
      forall x | x in init ensures FirstIndex(xs, x) == FirstIndex(init, x) {
        FirstIndexSnoc(init, y, x);
      }
      if y !in d {
        FirstIndexSnoc(init, y, y);
        forall i | 0 <= i < |d| ensures FirstIndex(xs, d[i]) < FirstIndex(xs, y) {
          assert d[i] in init;
        }
      }
    }
  }

  /** The value stored under `key` in a row; `None` when the key is missing or the value null. */
  function Lookup(row: Row, key: string): (r: Option<string>)
    ensures r.Some? ==> exists k :: 0 <= k < |row| && row[k].key == key && row[k].value == r
  {
    if row == [] then None
    else if row[0].key == key then row[0].value
    else
      var r := Lookup(row[1..], key);
      assert r.Some? ==> exists k :: 1 <= k < |row| && row[k].key == key && row[k].value == r by {
        if r.Some? {
          var k :| 0 <= k < |row[1..]| && row[1..][k].key == key && row[1..][k].value == r;
          assert row[k + 1] == row[1..][k];
        }
      }
      r
  }

  /** One escaped field per header, in header order. */
  function LineFields(headers: seq<string>, row: Row): (r: seq<string>)
    ensures |r| == |headers|
    ensures forall k :: 0 <= k < |headers| ==> r[k] == EscapeValue(Lookup(row, headers[k]))
  {
    seq(|headers|, k requires 0 <= k < |headers| => EscapeValue(Lookup(row, headers[k])))
  }

  /** A key the row has gives the value of its first field with that key. */
  lemma {:induction false} LookupPresent(row: Row, key: string)
    requires key in Keys(row)
    ensures Lookup(row, key) == row[FirstIndex(Keys(row), key)].value
  {
    var ks := Keys(row);
    assert ks[0] == row[0].key;
    if row[0].key != key {
      assert ks[1..] == Keys(row[1..]);
      assert key in Keys(row[1..]);
      LookupPresent(row[1..], key);
      assert FirstIndex(ks, key) == 1 + FirstIndex(Keys(row[1..]), key);
    }
  }

  /** A header the row has gives the escaped value of the row's first field with that key. */
  lemma PresentKeyField(headers: seq<string>, row: Row, k: nat)
    requires k < |headers| && headers[k] in Keys(row)
    ensures LineFields(headers, row)[k] == EscapeValue(row[FirstIndex(Keys(row), headers[k])].value)
  {
    LookupPresent(row, headers[k]);
  }

  /** A key the row lacks gives an empty field. */
  lemma MissingKeyIsEmpty(headers: seq<string>, row: Row, k: nat)
    requires k < |headers| && headers[k] !in Keys(row)
    ensures LineFields(headers, row)[k] == ""
  {
    LookupAbsent(row, headers[k]);
  }

  lemma {:induction false} LookupAbsent(row: Row, key: string)
    requires key !in Keys(row)
    ensures Lookup(row, key) == None
  {
    if row != [] {
      assert Keys(row) == [row[0].key] + Keys(row[1..]);
      LookupAbsent(row[1..], key);
    }
  }

  /** The headers of a table: its keys, deduplicated in order of first appearance. */
  function Headers(rows: seq<Row>): seq<string> { Dedup(AllKeys(rows)) }

  /** The lines of a table's CSV: the header line, then one line per row in row order. */
  function Lines(rows: seq<Row>): (r: seq<string>)
    ensures |r| == |rows| + 1
    ensures r[0] == Join(Headers(rows), ",")
    ensures forall i :: 0 <= i < |rows| ==> r[i + 1] == Join(LineFields(Headers(rows), rows[i]), ",")
  {
    [Join(Headers(rows), ",")]
      + seq(|rows|, i requires 0 <= i < |rows| => Join(LineFields(Headers(rows), rows[i]), ","))
  }

  datatype CsvFile = CsvFile(filename: string, csv: string)

  /** The keys of one more row follow the keys of the rows before it. */
  lemma AllKeysStep(rows: seq<Row>, i: nat)
    requires i < |rows|
    ensures AllKeys(rows[..i + 1]) == AllKeys(rows[..i]) + Keys(rows[i])
  {
    assert rows[..i + 1][..i] == rows[..i];
  }

  /** Inserting one more key into the ordered set. */
  lemma DedupSnoc(xs: seq<string>, x: string)
    ensures Dedup(xs + [x]) == if x in Dedup(xs) then Dedup(xs) else Dedup(xs) + [x]
  {
    assert (xs + [x])[..|xs|] == xs;
  }

  /** The keys of the first `j` fields of a row, and of one more. */
  lemma KeysPrefixStep(row: Row, j: nat)
    requires j < |row|
    ensures Keys(row)[..j + 1] == Keys(row)[..j] + [row[j].key]
  {
    var ks := Keys(row);
    var key := row[j].key;
    assert ks[j] == key;
    var lhs, rhs := ks[..j + 1], ks[..j] + [key];
    assert |lhs| == |rhs| == j + 1;
    forall i | 0 <= i <= j
      ensures lhs[i] == rhs[i]
    {
      if i < j {
        assert lhs[i] == ks[i] == rhs[i];
      }
    }
  }

  /** The header collection of `exportTableToCsv`: every key added to an insertion-ordered set. */
  method CollectHeaders(rows: seq<Row>) returns (headers: seq<string>)
    ensures headers == Headers(rows)
  {
    headers := [];
    var i := 0;
    while i < |rows|
      invariant 0 <= i <= |rows|
      invariant headers == Dedup(AllKeys(rows[..i]))
    {
      headers := AddRowKeys(headers, AllKeys(rows[..i]), rows[i]);
      AllKeysStep(rows, i);
      i := i + 1;
    }
    assert rows[..|rows|] == rows;
  }

  /** The inner loop of the header collection: adds one row's keys in field order. */
  method AddRowKeys(headers0: seq<string>, ghost seen: seq<string>, row: Row) returns (headers: seq<string>)
    requires headers0 == Dedup(seen)
    ensures headers == Dedup(seen + Keys(row))
  {
    headers := headers0;
    var j := 0;
    assert seen + Keys(row)[..0] == seen;
    while j < |row|
      invariant 0 <= j <= |row|
      invariant headers == Dedup(seen + Keys(row)[..j])
    {
      var key := row[j].key;
      DedupKeysStep(seen, row, j);
      if key !in headers {
        headers := headers + [key];
      }
      j := j + 1;
    }
    assert Keys(row)[..|row|] == Keys(row);
  }

  /** The headers after one more key of `row`: that key is appended unless already seen. */
  lemma DedupKeysStep(seen: seq<string>, row: Row, j: nat)
    requires j < |row|
    ensures var before := Dedup(seen + Keys(row)[..j]);
      Dedup(seen + Keys(row)[..j + 1])
        == if row[j].key in before then before else before + [row[j].key]
  {
    KeysPrefixStep(row, j);
    assert seen + Keys(row)[..j + 1] == (seen + Keys(row)[..j]) + [row[j].key];
    DedupSnoc(seen + Keys(row)[..j], row[j].key);
  }

  /** The file `exportTableToCsv` produces for a table: named after it, the lines joined by LF. */
  function TableFile(tableName: string, rows: seq<Row>): (file: CsvFile)
    ensures file.filename == tableName + ".csv"
  {
    CsvFile(tableName + ".csv", Join(Lines(rows), "\n"))
  }

  /** `exportTableToCsv`: the file is named after the table and holds the lines joined by LF. */
  method ExportTableToCsv(tableName: string, rows: seq<Row>) returns (file: CsvFile)
    ensures file.filename == tableName + ".csv"
    ensures file.csv == Join(Lines(rows), "\n")
  {
    var headers := CollectHeaders(rows);
    var lines := [Join(headers, ",")];
    for i := 0 to |rows|
      invariant |lines| == i + 1 && lines[0] == Join(headers, ",")
      invariant forall k :: 0 <= k < i ==> lines[k + 1] == Join(LineFields(headers, rows[k]), ",")
    {
      LinesSnoc(headers, rows, lines, i);
      lines := lines + [Join(LineFields(headers, rows[i]), ",")];
    }
    LinesAre(rows, lines);
    file := CsvFile(tableName + ".csv", Join(lines, "\n"));
  }

  /** Appending the line of row `i` keeps every earlier row's line in place. */
  lemma LinesSnoc(headers: seq<string>, rows: seq<Row>, lines: seq<string>, i: nat)
    requires i < |rows| && |lines| == i + 1
    requires forall k :: 0 <= k < i ==> lines[k + 1] == Join(LineFields(headers, rows[k]), ",")
    ensures forall k :: 0 <= k < i + 1 ==>
      (lines + [Join(LineFields(headers, rows[i]), ",")])[k + 1] == Join(LineFields(headers, rows[k]), ",")
  {
    var next := lines + [Join(LineFields(headers, rows[i]), ",")];
    forall k | 0 <= k < i + 1
      ensures next[k + 1] == Join(LineFields(headers, rows[k]), ",")
    {
      if k < i {
        assert next[k + 1] == lines[k + 1];
      }
    }
  }

  /** A header line and one line per row, as `Lines` describes them, are `Lines`. */
  lemma LinesAre(rows: seq<Row>, lines: seq<string>)
    requires |lines| == |rows| + 1 && lines[0] == Join(Headers(rows), ",")
    requires forall k :: 0 <= k < |rows| ==> lines[k + 1] == Join(LineFields(Headers(rows), rows[k]), ",")
    ensures lines == Lines(rows)
  {
    var r := Lines(rows);
    forall i | 0 <= i < |lines|
      ensures lines[i] == r[i]
    {
      LineAt(rows, lines, i);
    }
  }

  /** One position of `LinesAre`. */
  lemma LineAt(rows: seq<Row>, lines: seq<string>, i: nat)
    requires |lines| == |rows| + 1 && lines[0] == Join(Headers(rows), ",")
    requires forall k :: 0 <= k < |rows| ==> lines[k + 1] == Join(LineFields(Headers(rows), rows[k]), ",")
    requires i < |lines|
    ensures lines[i] == Lines(rows)[i]
  {
    if i > 0 {
      var k := i - 1;
      assert lines[k + 1] == Lines(rows)[k + 1];
    }
  }

  /** The tables exported, in this fixed order. */
  const TABLE_NAMES: seq<string> :=
    ["exercises", "workouts", "workoutEntries", "sets", "templates", "templateEntries", "measurements", "settings"]

  /** `exportAllTables`: one file per table, in the fixed table order. */
  method ExportAllTables(tables: map<string, seq<Row>>) returns (results: seq<CsvFile>)
    requires forall i :: 0 <= i < |TABLE_NAMES| ==> TABLE_NAMES[i] in tables
    ensures |results| == |TABLE_NAMES| == 8
    ensures forall i :: 0 <= i < |results| ==> results[i] == TableFile(TABLE_NAMES[i], tables[TABLE_NAMES[i]])
  {
    results := [];
    for i := 0 to |TABLE_NAMES|
      invariant |results| == i
      invariant forall k :: 0 <= k < i ==> results[k] == TableFile(TABLE_NAMES[k], tables[TABLE_NAMES[k]])
    {
      var name := TABLE_NAMES[i];
      var file := ExportTableToCsv(name, tables[name]);
      results := results + [file];
    }
  }

  /** The first record's keys head the list; a key only a later row has comes after them. */
  lemma HeadersExample()
    ensures Headers([[Field("id", Some("1")), Field("name", Some("a"))], [Field("id", Some("2")), Field("notes", None)]])
         == ["id", "name", "notes"]
  {
    var r0 := [Field("id", Some("1")), Field("name", Some("a"))];
    var r1 := [Field("id", Some("2")), Field("notes", None)];
    assert r0[1..] == [Field("name", Some("a"))];
    assert Keys(r0) == ["id", "name"];
    assert r1[1..] == [Field("notes", None)];
    assert Keys(r1) == ["id", "notes"];
    assert [r0, r1][..1] == [r0];
    var one: seq<Row> := [r0];
    assert one[..0] == [];
    assert AllKeys([r0]) == ["id", "name"];
    assert AllKeys([r0, r1]) == ["id", "name", "id", "notes"];
    var xs := ["id", "name", "id", "notes"];
    assert xs[..3] == ["id", "name", "id"];
    assert ["id", "name", "id"][..2] == ["id", "name"];
    assert ["id", "name"][..1] == ["id"];
    assert |["id"][..0]| == 0;
    assert Dedup(["id"]) == ["id"];
    assert Dedup(["id", "name"]) == ["id", "name"];
    assert Dedup(["id", "name", "id"]) == ["id", "name"];
    assert Dedup(xs) == ["id", "name", "notes"];
  }
}
