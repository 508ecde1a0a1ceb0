/**
 * The dataset-upload serverless function: metadata extraction from CSV text
 * (column names, row count, typed sample rows) and the request handler that
 * authenticates the caller, validates the form, uploads the file to storage
 * and inserts the metadata row.
 *
 * The CSV helpers deliberately do not follow section 2 of RFC 4180: every
 * comma ends a field and every double quote is deleted, so a quoted field
 * holding a comma becomes two fields.
 */
module UploadDataset {
  import opened Common
  import opened Text

  /** A sample cell: a number when `Number(value)` is one, otherwise the text. */
  datatype Cell = Num(text: string) | Str(text: string)

  /** A sample row object, from header name to cell. */
  type Row = map<string, Cell>

  /** The number of sample rows taken when the caller gives none. */
  const DefaultSampleRows: nat := 2

  function Min(a: int, b: int): int { if a <= b then a else b }

  /** `f.trim().replace(/"/g, '')`: trim first, then delete every double quote. */
  function CleanField(f: string): (r: string)
    ensures '"' !in r
    ensures |r| <= |f|
  {
    RemoveAll(Trim(f), '"')
  }

  /** `line.split(',').map(CleanField)`: one field per comma-separated piece. */
  function Fields(line: string): (r: seq<string>)
    ensures |r| == Count(line, ',') + 1
    ensures forall i :: 0 <= i < |r| ==> '"' !in r[i]
  {
    var pieces := Split(line, ',');
    SplitCount(line, ',');
    seq(|pieces|, i requires 0 <= i < |pieces| => CleanField(pieces[i]))
  }

  /** `extractColumnsFromCSV`: the fields of the text before the first newline. */
  function ExtractColumns(content: string): (columns: seq<string>)
    ensures columns == Fields(content[..IndexOf(content, '\n')])
  {
    Fields(Split(content, '\n')[0])
  }

  /** `lines.filter(line => line.trim().length > 0)`. */
  function NonBlank(lines: seq<string>): (r: seq<string>)
    ensures |r| <= |lines|
    ensures forall i :: 0 <= i < |r| ==> !Blank(r[i])
    ensures r == [] <==> forall i :: 0 <= i < |lines| ==> Blank(lines[i])
  {
    if |lines| == 0 then []
    else
      var rest := NonBlank(lines[1..]);
      assert forall i :: 1 <= i < |lines| ==> lines[i] == lines[1..][i - 1];
      if |Trim(lines[0])| > 0 then
        NonBlankCons(lines[0], rest);
        [lines[0]] + rest
      else rest
  }

  /** A non-blank line in front of non-blank lines. */
  lemma NonBlankCons(line: string, rest: seq<string>)
    requires !Blank(line) && forall i :: 0 <= i < |rest| ==> !Blank(rest[i])
    ensures forall i :: 0 <= i < |[line] + rest| ==> !Blank(([line] + rest)[i])
  {
  }

  /** The lines of `content` that hold something other than whitespace. */
  function ContentLines(content: string): seq<string> {
    NonBlank(Split(content, '\n'))
  }

  /**
   * `countRowsFromCSV`: the number of non-blank lines minus one for the
   * header, so a content with no non-blank line at all counts -1 rows.
   */
  function CountRows(content: string): (rows: int)
    ensures rows >= -1
    ensures rows == -1 <==> Blank(content)
  {
    var lines := Split(content, '\n');
    JoinSplit(content, '\n');
    BlankJoin(lines, "\n");
    |NonBlank(lines)| - 1
  }

  /** `values[index] || ''`: a missing value reads as the empty string. */
  function ValueAt(values: seq<string>, index: nat): string {
    if index < |values| then values[index] else ""
  }

  /**
   * `!isNaN(Number(value)) && value !== '' ? Number(value) : value`;
   * `isNumber` stands for `!isNaN(Number(value))`.
   */
  function Coerce(value: string, isNumber: string -> bool): (c: Cell)
    ensures c.text == value
    ensures c.Num? <==> value != "" && isNumber(value)
  {
    if isNumber(value) && value != "" then Num(value) else Str(value)
  }

  /** The row object after the `forEach` has handled the first `n` headers. */
  function RowPrefix(headers: seq<string>, values: seq<string>, isNumber: string -> bool, n: nat): Row
    requires n <= |headers|
  {
    if n == 0 then map[]
    else RowPrefix(headers, values, isNumber, n - 1)[headers[n - 1] := Coerce(ValueAt(values, n - 1), isNumber)]
  }

  /** The row object built from one sample line's values. */
  function RowObject(headers: seq<string>, values: seq<string>, isNumber: string -> bool): Row {
    RowPrefix(headers, values, isNumber, |headers|)
  }

  /** Position `i` holds the last occurrence of its header among the first `n`. */
  predicate LastOccurrence(headers: seq<string>, i: nat, n: nat)
    requires i < n <= |headers|
  {
    forall j :: i < j < n ==> headers[j] != headers[i]
  }

  lemma {:induction false} RowPrefixKeys(headers: seq<string>, values: seq<string>, isNumber: string -> bool, n: nat)
    requires n <= |headers|
    ensures RowPrefix(headers, values, isNumber, n).Keys == set h | h in headers[..n]
  {
    if n > 0 {
      RowPrefixKeys(headers, values, isNumber, n - 1);
      assert headers[..n] == headers[..n - 1] + [headers[n - 1]];
    }
  }

  lemma {:induction false} RowPrefixValues(headers: seq<string>, values: seq<string>, isNumber: string -> bool, n: nat, i: nat)
    requires i < n <= |headers| && LastOccurrence(headers, i, n)
    ensures headers[i] in RowPrefix(headers, values, isNumber, n)
    ensures RowPrefix(headers, values, isNumber, n)[headers[i]] == Coerce(ValueAt(values, i), isNumber)
  {
    if i < n - 1 {
      assert headers[n - 1] != headers[i];
      RowPrefixValues(headers, values, isNumber, n - 1, i);
    }
  }

  /**
   * A row object has exactly one key per distinct header; the value under a
   * header is taken from that header's last position, a missing value is
   * the empty string, and values beyond the headers are dropped.
   */
  lemma RowObjectSpec(headers: seq<string>, values: seq<string>, isNumber: string -> bool)
    ensures RowObject(headers, values, isNumber).Keys == set h | h in headers
    ensures forall i :: 0 <= i < |headers| && LastOccurrence(headers, i, |headers|) ==>
      RowObject(headers, values, isNumber)[headers[i]] == Coerce(ValueAt(values, i), isNumber)
  {
    RowPrefixKeys(headers, values, isNumber, |headers|);
    assert headers[..|headers|] == headers;
    forall i | 0 <= i < |headers| && LastOccurrence(headers, i, |headers|)
      ensures RowObject(headers, values, isNumber)[headers[i]] == Coerce(ValueAt(values, i), isNumber)
    {
      RowPrefixValues(headers, values, isNumber, |headers|, i);
    }
  }

  /** The `forEach` callback of `extractSampleFromCSV`, filling `rowObj` in place. */
  method BuildRow(headers: seq<string>, values: seq<string>, isNumber: string -> bool) returns (rowObj: Row)
    ensures rowObj == RowObject(headers, values, isNumber)
    ensures rowObj.Keys == set h | h in headers
    ensures forall i :: 0 <= i < |headers| && LastOccurrence(headers, i, |headers|) ==>
      rowObj[headers[i]] == Coerce(ValueAt(values, i), isNumber)
  {
    rowObj := map[];
    for index := 0 to |headers|
      invariant rowObj == RowPrefix(headers, values, isNumber, index)
    {
      var value := ValueAt(values, index);
      rowObj := rowObj[headers[index] := Coerce(value, isNumber)];
    }
    RowObjectSpec(headers, values, isNumber);
  }

  /** The row objects of `rows`, keyed by `headers`. */
  function RowObjects(headers: seq<string>, rows: seq<string>, isNumber: string -> bool): (objects: seq<Row>)
    ensures |objects| == |rows|
    ensures forall i :: 0 <= i < |rows| ==> objects[i] == RowObject(headers, Fields(rows[i]), isNumber)
  {
    seq(|rows|, i requires 0 <= i < |rows| => RowObject(headers, Fields(rows[i]), isNumber))
  }

  /**
   * `extractSampleFromCSV`: nothing when there is at most one non-blank line;
   * otherwise one row object per non-blank line after the header line, at
   * most `numRows` of them, keyed by the header line's fields.
   */
  function ExtractSample(content: string, numRows: nat, isNumber: string -> bool): (sample: seq<Row>)
    ensures var lines := ContentLines(content);
      |sample| == if |lines| <= 1 then 0 else Min(numRows, |lines| - 1)
    ensures var lines := ContentLines(content);
      forall i :: 0 <= i < |sample| ==> 1 + i < |lines| && sample[i] == RowObject(Fields(lines[0]), Fields(lines[1 + i]), isNumber)
  {
    var lines := ContentLines(content);
    if |lines| <= 1 then []
    else
      var sampleRows := lines[1..Min(numRows + 1, |lines|)];
      assert forall i :: 0 <= i < |sampleRows| ==> sampleRows[i] == lines[1 + i];
      RowObjects(Fields(lines[0]), sampleRows, isNumber)
  }

  /** Columns are read from the raw first line, whatever follows the first newline. */
  lemma ColumnsFromFirstLine(header: string, rest: string)
    requires '\n' !in header
    ensures ExtractColumns(header + "\n" + rest) == Fields(header)
  {
    IndexOfPrefix(header, '\n', rest);
    assert (header + "\n" + rest)[..|header|] == header;
  }

  /** A line without a newline is the whole header line. */
  lemma SingleLineColumns(line: string)
    requires '\n' !in line
    ensures ExtractColumns(line) == Fields(line)
  {
    assert line[..|line|] == line;
  }

  /** Two comma-free pieces joined by a comma give exactly two fields. */
  lemma FieldsOfPair(x: string, y: string)
    requires ',' !in x && ',' !in y
    ensures Fields(x + "," + y) == [CleanField(x), CleanField(y)]
  {
    var parts := [x, y];
    assert parts[1..] == [y];
    assert Join(parts, [',']) == x + "," + y;
    SplitJoin(parts, ',');
    var f := Fields(x + "," + y);
    assert f == [f[0], f[1]];
  }

  lemma CleanOpenQuote(a: string)
    requires '"' !in a && (a != [] ==> !IsSpace(a[|a| - 1]))
    ensures CleanField("\"" + a) == a
  {
    var q := "\"" + a;
    assert q[0] == '"' && q[|q| - 1] == (if a == [] then '"' else a[|a| - 1]);
    TrimUnchanged(q);
    RemoveAllConcat("\"", a, '"');
    RemoveAllAbsent(a, '"');
  }

  lemma CleanCloseQuote(b: string)
    requires '"' !in b && (b != [] ==> !IsSpace(b[0]))
    ensures CleanField(b + "\"") == b
  {
    var q := b + "\"";
    assert q[|q| - 1] == '"' && q[0] == (if b == [] then '"' else b[0]);
    TrimUnchanged(q);
    RemoveAllConcat(b, "\"", '"');
    RemoveAllAbsent(b, '"');
  }

  /**
   * A quoted field holding a comma yields two columns: `"a,b"` gives the
   * columns `a` and `b`, the quotes deleted.
   */
  lemma QuotedCommaSplits(a: string, b: string)
    requires ',' !in a && '"' !in a && '\n' !in a && (a != [] ==> !IsSpace(a[|a| - 1]))
    requires ',' !in b && '"' !in b && '\n' !in b && (b != [] ==> !IsSpace(b[0]))
    ensures ExtractColumns("\"" + a + "," + b + "\"") == [a, b]
  {
    var first, second := "\"" + a, b + "\"";
    var line := first + "," + second;
    assert line == "\"" + a + "," + b + "\"";
    assert '\n' !in line by {
      assert multiset(line)['\n'] == multiset(first)['\n'] + multiset(",")['\n'] + multiset(second)['\n'];
    }
    SingleLineColumns(line);
    assert ',' !in first && ',' !in second;
    FieldsOfPair(first, second);
    CleanOpenQuote(a);
    CleanCloseQuote(b);
  }

  lemma {:induction false} NonBlankAll(lines: seq<string>)
    requires forall i :: 0 <= i < |lines| ==> !Blank(lines[i])
    ensures NonBlank(lines) == lines
  {
    if |lines| > 0 {
      NonBlankAll(lines[1..]);
      assert |Trim(lines[0])| > 0;
    }
  }

  /** The filter keeps the order of the lines: a line added at the end is kept exactly when it is not blank. */
  lemma {:induction false} NonBlankAppend(lines: seq<string>, line: string)
    ensures NonBlank(lines + [line]) == NonBlank(lines) + (if Blank(line) then [] else [line])
  {
    if lines == [] {
      assert [] + [line] == [line];
      assert [line][1..] == [];
    } else {
      assert (lines + [line])[1..] == lines[1..] + [line];
      NonBlankAppend(lines[1..], line);
    }
  }

  /** The positions of the lines holding something other than whitespace. */
  function NonBlankIndices(lines: seq<string>): set<int> {
    set i | 0 <= i < |lines| && !Blank(lines[i])
  }

  /** A line added at the end adds its position exactly when it is not blank. */
  lemma NonBlankIndicesAppend(lines: seq<string>, line: string)
    ensures NonBlankIndices(lines + [line]) == NonBlankIndices(lines) + (if Blank(line) then {} else {|lines|})
  {
    var all := lines + [line];
    forall i | 0 <= i < |lines| ensures all[i] == lines[i] {
    }
    assert all[|lines|] == line;
  }

  /** The filter keeps one line per non-blank position. */
  lemma {:induction false} NonBlankCount(lines: seq<string>)
    ensures |NonBlank(lines)| == |NonBlankIndices(lines)|
  {
    if lines != [] {
      var init := lines[..|lines| - 1];
      var last := lines[|lines| - 1];
      assert lines == init + [last];
      NonBlankAppend(init, last);
      NonBlankCount(init);
      NonBlankIndicesAppend(init, last);
      assert |init| !in NonBlankIndices(init);
    }
  }

  /** `countRowsFromCSV` is the number of non-blank lines minus one, whatever the content. */
  lemma CountRowsValue(content: string)
    ensures CountRows(content) == |NonBlankIndices(Split(content, '\n'))| - 1
  {
    NonBlankCount(Split(content, '\n'));
  }

  /**
   * For text made of non-blank lines without empty lines between them, the
   * row count is the number of lines after the header and the sample rows
   * are the lines right after the header, in order.
   */
  lemma CsvOfLines(lines: seq<string>, numRows: nat, isNumber: string -> bool)
    requires |lines| >= 1
    requires forall i :: 0 <= i < |lines| ==> '\n' !in lines[i] && !Blank(lines[i])
    ensures CountRows(Join(lines, "\n")) == |lines| - 1
    ensures ContentLines(Join(lines, "\n")) == lines
    ensures var sample := ExtractSample(Join(lines, "\n"), numRows, isNumber);
      |sample| == Min(numRows, |lines| - 1) &&
      forall i :: 0 <= i < |sample| ==> sample[i] == RowObject(Fields(lines[0]), Fields(lines[1 + i]), isNumber)
  {
    SplitJoin(lines, '\n');
    NonBlankAll(lines);
  }

  /**
   * The header list and the sample's keys can disagree: columns come from the
   * raw first line, here empty, while the sample rows are keyed by the first
   * non-blank line.
   */
  lemma HeaderSourcesDiffer(header: string, row: string, isNumber: string -> bool)
    requires '\n' !in header && !Blank(header)
    requires '\n' !in row && !Blank(row)
    ensures ExtractColumns("\n" + header + "\n" + row) == [""]
    ensures var sample := ExtractSample("\n" + header + "\n" + row, DefaultSampleRows, isNumber);
      |sample| == 1 && sample[0].Keys == set h | h in Fields(header)
  {
    var content := "\n" + header + "\n" + row;
    EmptyFirstLine(header + "\n" + row);
    assert content == "\n" + (header + "\n" + row);
    LeadingEmptyLine(header, row);
    RowObjectSpec(Fields(header), Fields(row), isNumber);
  }

  /** A content starting with a newline has one empty column. */
  lemma EmptyFirstLine(rest: string)
    ensures ExtractColumns("\n" + rest) == [""]
  {
    var content := "\n" + rest;
    assert content[0] == '\n';
    assert IndexOf(content, '\n') == 0 && content[..0] == "";
    assert Split("", ',') == [""];
    TrimUnchanged("");
    assert RemoveAll("", '"') == "";
  }

  /** The empty line before the header is filtered out of the content lines. */
  lemma LeadingEmptyLine(header: string, row: string)
    requires '\n' !in header && !Blank(header)
    requires '\n' !in row && !Blank(row)
    ensures ContentLines("\n" + header + "\n" + row) == [header, row]
  {
    var lines := ["", header, row];
    assert lines[1..] == [header, row] && [header, row][1..] == [row];
    assert Join([header, row], "\n") == header + "\n" + row;
    assert Join(lines, "\n") == "\n" + header + "\n" + row;
    SplitJoin(lines, '\n');
    assert Blank("");
    NonBlankAll([header, row]);
  }

  // ---------------------------------------------------------------------
  // The request handler
  // ---------------------------------------------------------------------

  datatype File = File(name: string, content: string)

  /** The multipart form fields: `file`, `name` and `description` (each may be absent). */
  datatype Form = Form(file: Option<File>, name: Option<string>, description: Option<string>)

  datatype Request = Request(
    preflight: bool,               // the method is OPTIONS
    authorization: Option<string>, // the Authorization header
    form: Result<Form, string>)    // the parsed form, or the message of the exception parsing threw

  /** What `auth.getUser()` answers. */
  datatype AuthOutcome = SignedIn(userId: string) | NoUser | AuthError(message: string)

  /**
   * The environment's answers: the signed-in user, the `Date.now()` text used
   * in the storage path, the storage upload's error, the public URL, and the
   * insert's error.
   */
  datatype Backend = Backend(
    auth: AuthOutcome,
    stamp: string,
    uploadError: Option<string>,
    publicUrl: string,
    insertError: Option<string>)

  /** The metadata row inserted into the `datasets` table. */
  datatype DatasetRecord = DatasetRecord(
    name: string,
    description: Option<string>,
    filePath: string,
    fileType: string,
    columns: seq<string>,
    columnsCount: int,
    rows: int,
    userId: string,
    sample: seq<Row>,
    fullContent: string)

  /** Writes the handler performs, in order. */
  datatype Effect = UploadFile(path: string) | InsertDataset(record: DatasetRecord)

  datatype Body = NoBody | Error(message: string) | Dataset(record: DatasetRecord)

  datatype Response = Response(status: int, body: Body)

  /** `file.name.split('.').pop()?.toLowerCase()`. */
  function FileExtension(fileName: string): (ext: string)
    ensures '.' !in ext && |ext| <= |fileName|
    ensures '.' !in fileName ==> ext == Lower(fileName)
    ensures ext == Lower(fileName[|fileName| - |ext|..]) && '.' !in fileName[|fileName| - |ext|..]
    ensures |ext| == |fileName| || fileName[|fileName| - |ext| - 1] == '.'
  {
    Lower(AfterLast(fileName, '.'))
  }

  const PlaceholderColumns: seq<string> := ["column1", "column2", "column3"]

  const PlaceholderRow: Row := map["column1" := Str("value1"), "column2" := Str("value2"), "column3" := Str("value3")]

  /** `userError?.message || 'User not authenticated'`. */
  function AuthMessage(auth: AuthOutcome): string {
    if auth.AuthError? && auth.message != "" then auth.message else "User not authenticated"
  }

  /** The request gets past every check that comes before the storage upload. */
  predicate Admitted(req: Request, env: Backend) {
    && !req.preflight
    && Truthy(req.authorization)
    && env.auth.SignedIn?
    && req.form.Ok?
    && req.form.value.file.Some?
    && Truthy(req.form.value.name)
  }

  /** The metadata row for an admitted request. */
  function RecordFor(req: Request, env: Backend, isNumber: string -> bool): (record: DatasetRecord)
    requires Admitted(req, env)
    ensures record.columnsCount == |record.columns|
    ensures record.fileType == "csv" ==>
      && record.columns == ExtractColumns(record.fullContent)
      && record.rows == CountRows(record.fullContent)
      && record.sample == ExtractSample(record.fullContent, DefaultSampleRows, isNumber)
    ensures record.fileType != "csv" ==>
      record.columns == PlaceholderColumns && record.rows == 100 && record.sample == [PlaceholderRow]
  {
    var form := req.form.value;
    var file := form.file.value;
    var ext := FileExtension(file.name);
    var columns := if ext == "csv" then ExtractColumns(file.content) else PlaceholderColumns;
    DatasetRecord(
      form.name.value, form.description, env.publicUrl, ext, columns, |columns|,
      if ext == "csv" then CountRows(file.content) else 100,
      env.auth.userId,
      if ext == "csv" then ExtractSample(file.content, DefaultSampleRows, isNumber) else [PlaceholderRow],
      file.content)
  }

  /**
   * The handler. Rejections come in this order, each before any write: no
   * Authorization header (401), no signed-in user (401), no file (400), an
   * empty name (400). Then the file is uploaded and the metadata inserted.
   */
  method HandleUpload(req: Request, env: Backend, isNumber: string -> bool) returns (resp: Response, effects: seq<Effect>)
    ensures req.preflight ==> resp == Response(200, NoBody) && effects == []
    ensures !req.preflight && !Truthy(req.authorization) ==>
      resp == Response(401, Error("Missing Authorization header"))
    ensures !req.preflight && Truthy(req.authorization) && !env.auth.SignedIn? ==>
      resp == Response(401, Error(AuthMessage(env.auth)))
    ensures !req.preflight && Truthy(req.authorization) && env.auth.SignedIn? && req.form.Err? ==>
      resp == Response(500, Error("Server error: " + req.form.error)) && effects == []
    ensures !req.preflight && Truthy(req.authorization) && env.auth.SignedIn? && req.form.Ok? ==>
      (req.form.value.file.None? ==> resp == Response(400, Error("No file provided"))) &&
      (req.form.value.file.Some? && !Truthy(req.form.value.name) ==> resp == Response(400, Error("Dataset name is required")))
    ensures !Admitted(req, env) ==> effects == []
    ensures resp.status == 400 || resp.status == 401 ==> effects == []
    ensures Admitted(req, env) ==>
      |effects| >= 1 &&
      effects[0] == UploadFile(env.auth.userId + "/" + env.stamp + "-" + req.form.value.file.value.name)
    ensures Admitted(req, env) && env.uploadError.Some? ==>
      resp == Response(500, Error("Failed to upload file: " + env.uploadError.value)) && |effects| == 1
    ensures Admitted(req, env) && env.uploadError.None? ==>
      |effects| == 2 && effects[1] == InsertDataset(RecordFor(req, env, isNumber))
    ensures Admitted(req, env) && env.uploadError.None? && env.insertError.Some? ==>
      resp == Response(500, Error("Failed to save dataset metadata: " + env.insertError.value))
    ensures resp.body.Dataset? <==> Admitted(req, env) && env.uploadError.None? && env.insertError.None?
    ensures resp.body.Dataset? ==>
      resp.status == 200 && resp.body.record == RecordFor(req, env, isNumber) &&
      resp.body.record.columnsCount == |resp.body.record.columns|
  {
    effects := [];
    if req.preflight {
      return Response(200, NoBody), [];
    }
    if !Truthy(req.authorization) {
      return Response(401, Error("Missing Authorization header")), [];
    }
    if !env.auth.SignedIn? {
      return Response(401, Error(AuthMessage(env.auth))), [];
    }
    if req.form.Err? {
      return Response(500, Error("Server error: " + req.form.error)), [];
    }
    var form := req.form.value;
    if form.file.None? {
      return Response(400, Error("No file provided")), [];
    }
    if !Truthy(form.name) {
      return Response(400, Error("Dataset name is required")), [];
    }
    var file := form.file.value;
    var fileExt := FileExtension(file.name);
    var filePath := env.auth.userId + "/" + env.stamp + "-" + file.name;

    var columns: seq<string> := [];
    var rows := 0;
    var sample: seq<Row> := [];
    if fileExt == "csv" {
      columns := ExtractColumns(file.content);
      rows := CountRows(file.content);
      sample := ExtractSample(file.content, DefaultSampleRows, isNumber);
    } else {
      columns := PlaceholderColumns;
      rows := 100;
      sample := [PlaceholderRow];
    }

    effects := [UploadFile(filePath)];
    if env.uploadError.Some? {
      return Response(500, Error("Failed to upload file: " + env.uploadError.value)), effects;
    }
    var record := DatasetRecord(form.name.value, form.description, env.publicUrl, fileExt,
                                columns, |columns|, rows, env.auth.userId, sample, file.content);
    effects := effects + [InsertDataset(record)];
    if env.insertError.Some? {
      return Response(500, Error("Failed to save dataset metadata: " + env.insertError.value)), effects;
    }
    resp := Response(200, Dataset(record));
  }
}
