/**
 The CSV export of a donor's streams, and an independent reader: the grammar of section 2
 of RFC 4180, with CRLF record ends, quoted fields and doubled quotes.
 */
module Csv {
  import opened Wrappers

  const FORMULA_STARTS: set<char> := {'=', '+', '-', '@', '\t', '\r'}

  predicate IsSpecial(c: char) { c == '"' || c == ',' || c == '\n' || c == '\r' }

  // ---------- the printer ----------

  /** A leading character a spreadsheet would take for a formula is defused with a quote. */
  function Guarded(field: string): string {
    if field != "" && field[0] in FORMULA_STARTS then "'" + field else field
  }

  function DoubleQuotes(s: string): string {
    if s == "" then "" else (if s[0] == '"' then "\"\"" else [s[0]]) + DoubleQuotes(s[1..])
  }

  predicate NeedsQuotes(s: string) {
    '"' in s || ',' in s || '\n' in s || '\r' in s
  }

  function EscapeCsvField(field: string): string {
    var s := Guarded(field);
    if NeedsQuotes(s) then "\"" + DoubleQuotes(s) + "\"" else s
  }

  function Joined(parts: seq<string>, separator: string): string {
    if parts == [] then ""
    else if |parts| == 1 then parts[0]
    else parts[0] + separator + Joined(parts[1..], separator)
  }

  function Mapped(f: string -> string, parts: seq<string>): (r: seq<string>)
    ensures |r| == |parts| && forall i :: 0 <= i < |parts| ==> r[i] == f(parts[i])
  {
    seq(|parts|, i requires 0 <= i < |parts| => f(parts[i]))
  }

  function Line(record: seq<string>): string {
    Joined(Mapped(EscapeCsvField, record), ",")
  }

  function Lines(records: seq<seq<string>>): seq<string> {
    seq(|records|, i requires 0 <= i < |records| => Line(records[i]))
  }

  /** The response body: nothing for an empty content, otherwise the content and a final CRLF. */
  function Print(records: seq<seq<string>>): string {
    var content := Joined(Lines(records), "\r\n");
    if content == "" then "" else content + "\r\n"
  }

  datatype StreamExport = StreamExport(
    id: string, onChainId: string, ngoId: string,
    displayName: Option<string>, name: string, ngoAddress: string,
    tokenAddress: string, rate: string, lastRate: Option<string>,
    balance: string, withdrawn: string, status: string,
    createdTxHash: Option<string>, createdAt: string, updatedAt: string)

  const HEADERS: seq<string> :=
    ["id", "onChainId", "ngoId", "ngoName", "ngoAddress", "tokenAddress", "rate", "lastRate",
     "balance", "withdrawn", "status", "createdTxHash", "createdAt", "updatedAt"]

  function OrEmpty(s: Option<string>): string { if s.Some? then s.value else "" }

  function NgoName(s: StreamExport): string {
    if s.displayName.Some? && s.displayName.value != "" then s.displayName.value else s.name
  }

  function Fields(s: StreamExport): (r: seq<string>)
    ensures |r| == |HEADERS|
  {
    [s.id, s.onChainId, s.ngoId, NgoName(s), s.ngoAddress, s.tokenAddress, s.rate, OrEmpty(s.lastRate),
     s.balance, s.withdrawn, s.status, OrEmpty(s.createdTxHash), s.createdAt, s.updatedAt]
  }

  function Table(streams: seq<StreamExport>): seq<seq<string>> {
    [HEADERS] + seq(|streams|, i requires 0 <= i < |streams| => Fields(streams[i]))
  }

  // ---------- the reader ----------

  /** The inside of a quoted field, up to its closing quote. */
  function ReadQuoted(s: string): (r: Option<(string, string)>)
    ensures r.Some? ==> |r.value.1| < |s|
    decreases |s|
  {
    if s == "" then None
    else if s[0] != '"' then
      match ReadQuoted(s[1..]) case None => None case Some((field, rest)) => Some(([s[0]] + field, rest))
    else if |s| > 1 && s[1] == '"' then
      match ReadQuoted(s[2..]) case None => None case Some((field, rest)) => Some((['"'] + field, rest))
    else Some(("", s[1..]))
  }

  function ReadPlain(s: string): (r: (string, string))
    ensures |r.1| <= |s|
  {
    if s == "" || IsSpecial(s[0]) then ("", s)
    else var (field, rest) := ReadPlain(s[1..]); ([s[0]] + field, rest)
  }

  function ReadField(s: string): (r: Option<(string, string)>)
    ensures r.Some? ==> |r.value.1| <= |s|
  {
    if s != "" && s[0] == '"' then ReadQuoted(s[1..]) else Some(ReadPlain(s))
  }

  function ReadRecord(s: string): (r: Option<(seq<string>, string)>)
    ensures r.Some? ==> |r.value.1| <= |s|
    decreases |s|
  {
    match ReadField(s)
    case None => None
    case Some((field, rest)) =>
      if rest != "" && rest[0] == ',' then
        match ReadRecord(rest[1..]) case None => None case Some((fields, rest')) => Some(([field] + fields, rest'))
      else Some(([field], rest))
  }

  /** Records separated by CRLF, the last one optionally ended by one. */
  function ReadFile(s: string): Option<seq<seq<string>>>
    decreases |s|
  {
    match ReadRecord(s)
    case None => None
    case Some((record, rest)) =>
      if rest == "" then Some([record])
      else if |rest| >= 2 && rest[..2] == "\r\n" then
        if |rest| == 2 then Some([record])
        else match ReadFile(rest[2..]) case None => None case Some(records) => Some([record] + records)
      else None
  }

  // ---------- the reader undoes the printer ----------

  /** What may follow a field: nothing, a comma, or the end of the record. */
  predicate EndsField(rest: string) { rest == "" || rest[0] == ',' || rest[0] == '\r' }

  lemma ReadQuotedStep(c: char, tail: string, field: string, rest: string)
    requires ReadQuoted(tail) == Some((field, rest))
    ensures ReadQuoted((if c == '"' then "\"\"" else [c]) + tail) == Some(([c] + field, rest))
  {
    if c == '"' {
      assert ("\"\"" + tail)[2..] == tail;
    } else {
      assert ([c] + tail)[1..] == tail;
    }
  }

  lemma {:induction false} ReadsQuotedBack(s: string, rest: string)
    requires rest == "" || rest[0] != '"'
    ensures ReadQuoted(DoubleQuotes(s) + "\"" + rest) == Some((s, rest))
  {
    if s == "" {
      assert DoubleQuotes(s) + "\"" + rest == "\"" + rest;
      assert ("\"" + rest)[1..] == rest;
    } else {
      ReadsQuotedBack(s[1..], rest);
      var tail := DoubleQuotes(s[1..]) + "\"" + rest;
      ReadQuotedStep(s[0], tail, s[1..], rest);
      assert s == [s[0]] + s[1..];
      assert DoubleQuotes(s) + "\"" + rest == (if s[0] == '"' then "\"\"" else [s[0]]) + tail;
    }
  }

  lemma {:induction false} ReadsPlainBack(s: string, rest: string)
    requires !NeedsQuotes(s) && EndsField(rest)
    ensures ReadPlain(s + rest) == (s, rest)
  {
    if s == "" {
      assert s + rest == rest;
    } else {
      assert s[0] in s && !IsSpecial(s[0]);
      assert forall c :: c in s[1..] ==> c in s;
      ReadsPlainBack(s[1..], rest);
      assert (s + rest)[1..] == s[1..] + rest;
      assert s == [s[0]] + s[1..];
    }
  }

  lemma ReadsQuotedFieldBack(s: string, rest: string)
    requires EndsField(rest)
    ensures ReadField("\"" + DoubleQuotes(s) + "\"" + rest) == Some((s, rest))
  {
    var inside := DoubleQuotes(s) + "\"" + rest;
    var all := "\"" + inside;
    assert "\"" + DoubleQuotes(s) + "\"" + rest == all;
    assert all[1..] == inside;
    ReadsQuotedBack(s, rest);
  }

  lemma ReadsPlainFieldBack(s: string, rest: string)
    requires !NeedsQuotes(s) && EndsField(rest)
    ensures ReadField(s + rest) == Some((s, rest))
  {
    ReadsPlainBack(s, rest);
    assert s != "" ==> s[0] in s && (s + rest)[0] == s[0];
    assert s == "" ==> s + rest == rest;
  }

  lemma ReadsFieldBack(field: string, rest: string)
    requires EndsField(rest)
    ensures ReadField(EscapeCsvField(field) + rest) == Some((Guarded(field), rest))
  {
    var s := Guarded(field);
    if NeedsQuotes(s) {
      ReadsQuotedFieldBack(s, rest);
    } else {
      ReadsPlainFieldBack(s, rest);
    }
  }

  /** Mapping and joining, one element at a time. */
  lemma MappedUncons(f: string -> string, parts: seq<string>)
    requires parts != []
    ensures Mapped(f, parts) == [f(parts[0])] + Mapped(f, parts[1..])
  {
  }

  lemma JoinedUncons(parts: seq<string>, separator: string)
    requires |parts| >= 2
    ensures Joined(parts, separator) == parts[0] + separator + Joined(parts[1..], separator)
  {
  }

  lemma Regroup(a: string, b: string, c: string, d: string)
    ensures a + b + c + d == a + (b + (c + d))
  {
  }

  lemma LineUncons(record: seq<string>, rest: string)
    requires |record| >= 2
    ensures Line(record) + rest == EscapeCsvField(record[0]) + ("," + (Line(record[1..]) + rest))
  {
    MappedUncons(EscapeCsvField, record);
    assert Mapped(EscapeCsvField, record)[1..] == Mapped(EscapeCsvField, record[1..]);
    JoinedUncons(Mapped(EscapeCsvField, record), ",");
    Regroup(EscapeCsvField(record[0]), ",", Line(record[1..]), rest);
  }

  lemma ReadRecordStep(s: string, field: string, others: string, fields: seq<string>, rest: string)
    requires ReadField(s) == Some((field, "," + others)) && ReadRecord(others) == Some((fields, rest))
    ensures ReadRecord(s) == Some(([field] + fields, rest))
  {
    assert ("," + others)[1..] == others;
  }

  lemma ReadLastField(s: string, field: string, rest: string)
    requires ReadField(s) == Some((field, rest)) && (rest == "" || rest[0] == '\r')
    ensures ReadRecord(s) == Some(([field], rest))
  {
  }

  lemma {:induction false} ReadsRecordBack(record: seq<string>, rest: string)
    requires record != [] && (rest == "" || rest[0] == '\r')
    ensures ReadRecord(Line(record) + rest) == Some((Mapped(Guarded, record), rest))
    decreases |record|
  {
    if |record| == 1 {
      ReadsFieldBack(record[0], rest);
      ReadLastField(EscapeCsvField(record[0]) + rest, Guarded(record[0]), rest);
      assert Mapped(Guarded, record) == [Guarded(record[0])];
      assert Line(record) == EscapeCsvField(record[0]);
    } else {
      var others := Line(record[1..]) + rest;
      LineUncons(record, rest);
      MappedUncons(Guarded, record);
      ReadsFieldBack(record[0], "," + others);
      ReadsRecordBack(record[1..], rest);
      ReadRecordStep(Line(record) + rest, Guarded(record[0]), others, Mapped(Guarded, record[1..]), rest);
    }
  }

  function GuardedRecords(records: seq<seq<string>>): seq<seq<string>> {
    seq(|records|, i requires 0 <= i < |records| => Mapped(Guarded, records[i]))
  }

  function PrintedLines(records: seq<seq<string>>): string {
    Joined(Lines(records), "\r\n") + "\r\n"
  }

  lemma LinesUncons(records: seq<seq<string>>)
    requires records != []
    ensures |Lines(records)| == |records| && Lines(records)[0] == Line(records[0])
      && Lines(records)[1..] == Lines(records[1..])
  {
  }

  lemma GuardedUncons(records: seq<seq<string>>)
    requires records != []
    ensures GuardedRecords(records) == [Mapped(Guarded, records[0])] + GuardedRecords(records[1..])
  {
  }

  lemma PrintedUncons(records: seq<seq<string>>)
    requires |records| >= 2
    ensures PrintedLines(records) == Line(records[0]) + ("\r\n" + PrintedLines(records[1..]))
  {
    LinesUncons(records);
    JoinedUncons(Lines(records), "\r\n");
    Regroup(Line(records[0]), "\r\n", Joined(Lines(records[1..]), "\r\n"), "\r\n");
  }

  lemma PrintedEndsFilled(records: seq<seq<string>>)
    ensures PrintedLines(records) != ""
  {
  }

  lemma ReadFileStep(s: string, record: seq<string>, others: string, records: seq<seq<string>>)
    ensures (&& ReadRecord(s) == Some((record, "\r\n" + others)) && others != ""
             && ReadFile(others) == Some(records) && |others| < |s|) ==>
      ReadFile(s) == Some([record] + records)
  {
    var rest := "\r\n" + others;
    assert rest[2..] == others && rest[..2] == "\r\n";
  }

  lemma {:induction false} ReadsLinesBack(records: seq<seq<string>>)
    requires records != [] && forall i :: 0 <= i < |records| ==> records[i] != []
    ensures ReadFile(PrintedLines(records)) == Some(GuardedRecords(records))
    decreases |records|
  {
    if |records| == 1 {
      ReadsRecordBack(records[0], "\r\n");
      assert GuardedRecords(records) == [Mapped(Guarded, records[0])];
      assert PrintedLines(records) == Line(records[0]) + "\r\n";
    } else {
      var others := PrintedLines(records[1..]);
      PrintedUncons(records);
      GuardedUncons(records);
      PrintedEndsFilled(records[1..]);
      ReadsRecordBack(records[0], "\r\n" + others);
      ReadsLinesBack(records[1..]);
      ReadFileStep(PrintedLines(records), Mapped(Guarded, records[0]), others, GuardedRecords(records[1..]));
    }
  }

  /** Only a single empty field in a single record prints as nothing at all. */
  lemma EmptyContentIsOneEmptyField(records: seq<seq<string>>)
    requires records != [] && (forall i :: 0 <= i < |records| ==> records[i] != [])
    requires Joined(Lines(records), "\r\n") == ""
    ensures records == [[""]]
  {
    var fields := Mapped(EscapeCsvField, records[0]);
    if |records| == 1 {
      assert Lines(records) == [Line(records[0])];
      if |records[0]| == 1 {
        assert fields == [EscapeCsvField(records[0][0])];
        assert records[0] == [records[0][0]];
      } else {
        JoinedUncons(fields, ",");
      }
    } else {
      JoinedUncons(Lines(records), "\r\n");
    }
  }

  /** The reader undoes the printer on any records that have fields. */
  lemma PrintReadsBack(records: seq<seq<string>>)
    requires records != [] && forall i :: 0 <= i < |records| ==> records[i] != []
    ensures ReadFile(Print(records)) == Some(GuardedRecords(records))
  {
    ReadsLinesBack(records);
    if Joined(Lines(records), "\r\n") == "" {
      EmptyContentIsOneEmptyField(records);
      assert ReadRecord("") == Some(([""], ""));
      assert GuardedRecords(records) == [[""]];
    }
  }

  lemma SafeStart(field: string)
    requires field != "" && field[0] !in FORMULA_STARTS
    ensures Guarded(field) == field
  {
  }

  lemma HeadersAreSafe()
    ensures Mapped(Guarded, HEADERS) == HEADERS
  {
    assert forall i :: 0 <= i < |HEADERS| ==> HEADERS[i] != "" && 'a' <= HEADERS[i][0] <= 'z';
    forall i | 0 <= i < |HEADERS| ensures Guarded(HEADERS[i]) == HEADERS[i] {
      SafeStart(HEADERS[i]);
    }
  }

  lemma TableIsWide(streams: seq<StreamExport>)
    ensures |Table(streams)| == |streams| + 1 && Table(streams)[0] == HEADERS
    ensures forall i :: 0 <= i < |Table(streams)| ==> |Table(streams)[i]| == |HEADERS|
    ensures forall i :: 0 <= i < |streams| ==> Table(streams)[i + 1] == Fields(streams[i])
  {
  }

  lemma GuardedTable(streams: seq<StreamExport>)
    ensures var records := GuardedRecords(Table(streams));
            && |records| == |streams| + 1
            && records[0] == HEADERS
            && forall i :: 0 <= i < |streams| ==> records[i + 1] == Mapped(Guarded, Fields(streams[i]))
  {
    TableIsWide(streams);
    HeadersAreSafe();
  }

  /** Exactly one column has this name, and the record has this value in it. */
  ghost predicate Shows(headers: seq<string>, record: seq<string>, name: string, value: string) {
    && |record| == |headers|
    && (exists j :: 0 <= j < |headers| && headers[j] == name)
    && forall j :: 0 <= j < |headers| && headers[j] == name ==> record[j] == value
  }

  /** What a record says of its stream, column by column. An absent value is an empty field. */
  ghost predicate ShowsStream(headers: seq<string>, record: seq<string>, s: StreamExport) {
    && Shows(headers, record, "id", Guarded(s.id))
    && Shows(headers, record, "onChainId", Guarded(s.onChainId))
    && Shows(headers, record, "ngoId", Guarded(s.ngoId))
    && (s.displayName.Some? && s.displayName.value != "" ==>
          Shows(headers, record, "ngoName", Guarded(s.displayName.value)))
    && (s.displayName.None? || s.displayName.value == "" ==> Shows(headers, record, "ngoName", Guarded(s.name)))
    && Shows(headers, record, "ngoAddress", Guarded(s.ngoAddress))
    && Shows(headers, record, "tokenAddress", Guarded(s.tokenAddress))
    && Shows(headers, record, "rate", Guarded(s.rate))
    && (s.lastRate.None? ==> Shows(headers, record, "lastRate", ""))
    && (s.lastRate.Some? ==> Shows(headers, record, "lastRate", Guarded(s.lastRate.value)))
    && Shows(headers, record, "balance", Guarded(s.balance))
    && Shows(headers, record, "withdrawn", Guarded(s.withdrawn))
    && Shows(headers, record, "status", Guarded(s.status))
    && (s.createdTxHash.None? ==> Shows(headers, record, "createdTxHash", ""))
    && (s.createdTxHash.Some? ==> Shows(headers, record, "createdTxHash", Guarded(s.createdTxHash.value)))
    && Shows(headers, record, "createdAt", Guarded(s.createdAt))
    && Shows(headers, record, "updatedAt", Guarded(s.updatedAt))
  }

  lemma HeadersDiffer()
    ensures forall i, j :: 0 <= i < j < |HEADERS| ==> HEADERS[i] != HEADERS[j]
  {
    forall i, j | 0 <= i < j < |HEADERS| ensures HEADERS[i] != HEADERS[j] {
      assert |HEADERS[i]| != |HEADERS[j]| || HEADERS[i][0] != HEADERS[j][0];
    }
  }

  lemma ShowsAt(record: seq<string>, j: nat, value: string)
    requires j < |HEADERS| == |record| && record[j] == value
    ensures Shows(HEADERS, record, HEADERS[j], value)
  {
    HeadersDiffer();
  }

  lemma HeaderNames()
    ensures HEADERS[0] == "id" && HEADERS[1] == "onChainId" && HEADERS[2] == "ngoId" && HEADERS[3] == "ngoName"
    ensures HEADERS[4] == "ngoAddress" && HEADERS[5] == "tokenAddress" && HEADERS[6] == "rate"
    ensures HEADERS[7] == "lastRate" && HEADERS[8] == "balance" && HEADERS[9] == "withdrawn" && HEADERS[10] == "status"
    ensures HEADERS[11] == "createdTxHash" && HEADERS[12] == "createdAt" && HEADERS[13] == "updatedAt"
  {
  }

  lemma FieldsAre(s: StreamExport, record: seq<string>)
    requires record == Mapped(Guarded, Fields(s))
    ensures |record| == |HEADERS| == 14
    ensures record[0] == Guarded(s.id) && record[1] == Guarded(s.onChainId) && record[2] == Guarded(s.ngoId)
    ensures record[3] == Guarded(NgoName(s)) && record[4] == Guarded(s.ngoAddress)
    ensures record[5] == Guarded(s.tokenAddress) && record[6] == Guarded(s.rate)
    ensures record[7] == Guarded(OrEmpty(s.lastRate)) && record[8] == Guarded(s.balance)
    ensures record[9] == Guarded(s.withdrawn) && record[10] == Guarded(s.status)
    ensures record[11] == Guarded(OrEmpty(s.createdTxHash)) && record[12] == Guarded(s.createdAt)
    ensures record[13] == Guarded(s.updatedAt)
  {
  }

  lemma RecordShowsStream(s: StreamExport, record: seq<string>)
    requires record == Mapped(Guarded, Fields(s))
    ensures ShowsStream(HEADERS, record, s)
  {
    HeaderNames();
    FieldsAre(s, record);
    ShowsAt(record, 0, Guarded(s.id));
    ShowsAt(record, 1, Guarded(s.onChainId));
    ShowsAt(record, 2, Guarded(s.ngoId));
    ShowsAt(record, 3, Guarded(NgoName(s)));
    ShowsAt(record, 4, Guarded(s.ngoAddress));
    ShowsAt(record, 5, Guarded(s.tokenAddress));
    ShowsAt(record, 6, Guarded(s.rate));
    ShowsAt(record, 7, Guarded(OrEmpty(s.lastRate)));
    ShowsAt(record, 8, Guarded(s.balance));
    ShowsAt(record, 9, Guarded(s.withdrawn));
    ShowsAt(record, 10, Guarded(s.status));
    ShowsAt(record, 11, Guarded(OrEmpty(s.createdTxHash)));
    ShowsAt(record, 12, Guarded(s.createdAt));
    ShowsAt(record, 13, Guarded(s.updatedAt));
  }

  /**
   Reading the response back yields the header and one record per stream, in order, and under
   each header the stream's own column.
   */
  lemma ExportReadsBack(streams: seq<StreamExport>)
    ensures var records := ReadFile(Print(Table(streams)));
            && records.Some? && |records.value| == |streams| + 1
            && |records.value[0]| == 14
            && forall i :: 0 <= i < |streams| ==> ShowsStream(records.value[0], records.value[i + 1], streams[i])
  {
    TableIsWide(streams);
    PrintReadsBack(Table(streams));
    GuardedTable(streams);
    forall i | 0 <= i < |streams| ensures ShowsStream(HEADERS, GuardedRecords(Table(streams))[i + 1], streams[i]) {
      RecordShowsStream(streams[i], GuardedRecords(Table(streams))[i + 1]);
    }
  }

  /** A field is quoted only where it has to be, and a response with content ends its last line. */
  lemma PlainFieldsStayBare(field: string)
    requires forall c <- field :: c != '"' && c != ',' && c != '\n' && c != '\r'
    ensures EscapeCsvField(field) == Guarded(field)
  {
  }

  lemma EveryLineEnds(streams: seq<StreamExport>)
    ensures var body := Print(Table(streams)); |body| >= 2 && body[|body| - 2..] == "\r\n"
  {
    var content := Joined(Lines(Table(streams)), "\r\n");
    TableIsWide(streams);
    if content == "" {
      EmptyContentIsOneEmptyField(Table(streams));
    }
  }

  /** A field comes back changed iff it starts like a formula, and then only by the added quote. */
  lemma GuardChangesOnlyFormulas(field: string)
    ensures Guarded(field) != field <==> field != "" && field[0] in {'=', '+', '-', '@', '\t', '\r'}
    ensures Guarded(field) == field || Guarded(field) == "'" + field
    ensures Guarded(field) == "" || Guarded(field)[0] !in {'=', '+', '-', '@', '\t', '\r'}
  {
    if field != "" && field[0] in FORMULA_STARTS {
      assert |Guarded(field)| == |field| + 1;
    }
  }
}
