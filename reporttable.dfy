/** `JsonfyReportTable` (scripts/default/jsonfy_report_table.py): the table of
    a Rubrik report, fetched with a POST to `report <id> table`, turned into a
    list of records, one per row of its `dataGrid`, keyed by its `columns`.
    The call itself (`callit`) is a function supplied by the caller. */
module ReportTable {
  import opened Wrappers
  import opened Strings
  import opened Json

  const OutOfRange: string := "list index out of range"
  const MissingArgs: string := "Missing args"

  /** The fields of the request the script sets before calling: its HTTP
      method, its endpoint words and its body. */
  datatype Request = Request(verb: string, apiEndpoint: seq<string>, parameter: string)

  /** A column heading as a dictionary key: strings only; a list or a
      dictionary is unhashable. */
  function KeyOf(heading: Json): (r: Result<string>)
    ensures r.Ok? <==> heading.Str?
    ensures heading.Str? ==> r == Ok(heading.s)
  {
    match heading
    case Str(s) => Ok(s)
    case Arr(_) => Raise(TypeError, "unhashable type: 'list'")
    case Obj(_) => Raise(TypeError, "unhashable type: 'dict'")
    case _ => Raise(TypeError, "unsupported column heading: '" + TypeName(heading) + "'")
  }

  /** `report_json['columns'][i]` as a key. */
  function ColumnName(report: Json, i: nat): Result<string>
  {
    match Subscript(report, "columns")
    case Fail(e) => Fail(e)
    case Ok(columns) =>
      if !columns.Arr? then Raise(TypeError, "list indices must be integers or slices, not int")
      else if i < |columns.items| then KeyOf(columns.items[i])
      else Raise(IndexError, OutOfRange)
  }

  /** The record of one row: its `i`-th cell under the `i`-th column heading,
      a heading met again overwriting the earlier cell in place. */
  function RowRecord(report: Json, row: seq<Json>): Result<seq<(string, Json)>>
  {
    if row == [] then Ok([])
    else
      var n := |row| - 1;
      match RowRecord(report, row[..n])
      case Fail(e) => Fail(e)
      case Ok(fields) =>
        match ColumnName(report, n)
        case Fail(e) => Fail(e)
        case Ok(name) => Ok(Set(fields, name, row[n]))
  }

  /** One record per row of the grid, in order. */
  function Rows(report: Json, grid: seq<Json>): Result<seq<Json>>
  {
    if grid == [] then Ok([])
    else
      var n := |grid| - 1;
      match Rows(report, grid[..n])
      case Fail(e) => Fail(e)
      case Ok(records) =>
        if !grid[n].Arr? then Raise(TypeError, "'" + TypeName(grid[n]) + "' object is not iterable")
        else
          match RowRecord(report, grid[n].items)
          case Fail(e) => Fail(e)
          case Ok(fields) => Ok(records + [Obj(fields)])
  }

  /** The records of a report table. */
  function Table(report: Json): Result<seq<Json>>
  {
    match Subscript(report, "dataGrid")
    case Fail(e) => Fail(e)
    case Ok(grid) =>
      if grid.Arr? then Rows(report, grid.items)
      else Raise(TypeError, "'" + TypeName(grid) + "' object is not iterable")
  }

  /** `json.dumps({'limit': limit})`. */
  function LimitText(limit: int): string
  {
    "{\"limit\": " + IntToString(limit) + "}"
  }

  /** The request the script makes: `report_id` is required; a given `limit`
      is read as an integer and sent as the body; the method is POST and the
      endpoint `report <id> table`. */
  function Prepared(request: Request, parameters: seq<(string, Json)>): Result<Request>
  {
    match Get(parameters, "report_id")
    case None => Raise(BareException, MissingArgs)
    case Some(id) =>
      var limited :=
        match Get(parameters, "limit")
        case None => Ok(request.parameter)
        case Some(l) =>
          match IntOf(l)
          case Fail(e) => Fail(e)
          case Ok(n) => Ok(LimitText(n));
      match limited
      case Fail(e) => Fail(e)
      case Ok(parameter) =>
        if !id.Str? then Raise(TypeError, "sequence item 1: expected str instance, " + TypeName(id) + " found")
        else Ok(Request("post", ["report", id.s, "table"], parameter))
  }

  /** `execute`: the request prepared, the report fetched and its table
      turned into records. */
  function Reported(request: Request, parameters: seq<(string, Json)>, callit: Request -> Result<Json>)
    : Result<seq<Json>>
  {
    match Prepared(request, parameters)
    case Fail(e) => Fail(e)
    case Ok(req) =>
      match callit(req)
      case Fail(e) => Fail(e)
      case Ok(report) => Table(report)
  }

  // ---------------------------------------------------------------------
  // Properties

  /** The column headings of a report whose headings are all strings. */
  predicate NamedColumns(report: Json, names: seq<string>)
  {
    report.Obj? && HasKey(report.fields, "columns")
    && Get(report.fields, "columns").value.Arr?
    && var cs := Get(report.fields, "columns").value.items;
       |cs| == |names| && forall i :: 0 <= i < |cs| ==> cs[i] == Str(names[i])
  }

  /** With string headings, a row becomes a record exactly when it has no
      more cells than there are headings. */
  lemma {:induction false} RowRecordOk(report: Json, names: seq<string>, row: seq<Json>)
    requires NamedColumns(report, names)
    ensures RowRecord(report, row).Ok? <==> |row| <= |names|
  {
    if row != [] {
      var n := |row| - 1;
      RowRecordOk(report, names, row[..n]);
    }
  }

  /** Each field holds the cell under the last heading of its name. */
  lemma {:induction false} RowRecordField(report: Json, names: seq<string>, row: seq<Json>, i: nat)
    requires NamedColumns(report, names) && RowRecord(report, row).Ok? && i < |row|
    requires forall j :: i < j < |row| ==> names[j] != names[i]
    ensures i < |names| && Get(RowRecord(report, row).value, names[i]) == Some(row[i])
  {
    var n := |row| - 1;
    RowRecordOk(report, names, row);
    var fields := RowRecord(report, row[..n]).value;
    assert ColumnName(report, n) == Ok(names[n]);
    GetSet(fields, names[n], row[n], names[i]);
    if i < n {
      RowRecordField(report, names, row[..n], i);
      assert row[..n][i] == row[i];
    }
  }

  /** A record has no field other than the headings of its cells. */
  lemma {:induction false} RowRecordKeys(report: Json, names: seq<string>, row: seq<Json>, k: string)
    requires NamedColumns(report, names) && RowRecord(report, row).Ok?
    requires HasKey(RowRecord(report, row).value, k)
    ensures exists i :: 0 <= i < |row| && names[i] == k
  {
    var n := |row| - 1;
    RowRecordOk(report, names, row);
    var fields := RowRecord(report, row[..n]).value;
    assert ColumnName(report, n) == Ok(names[n]);
    GetSet(fields, names[n], row[n], k);
    if k != names[n] {
      RowRecordKeys(report, names, row[..n], k);
      var i :| 0 <= i < n && names[i] == k;
    }
  }

  /** The table has one record per row of the grid, in order. */
  lemma {:induction false} RowsEach(report: Json, grid: seq<Json>)
    requires Rows(report, grid).Ok?
    ensures |Rows(report, grid).value| == |grid|
    ensures forall i :: 0 <= i < |grid| ==>
              grid[i].Arr? && RowRecord(report, grid[i].items).Ok?
              && Rows(report, grid).value[i] == Obj(RowRecord(report, grid[i].items).value)
  {
    if grid != [] {
      var n := |grid| - 1;
      RowsEach(report, grid[..n]);
      forall i | 0 <= i < |grid|
        ensures grid[i].Arr? && RowRecord(report, grid[i].items).Ok?
        ensures Rows(report, grid).value[i] == Obj(RowRecord(report, grid[i].items).value)
      {
        if i < n {
          assert grid[..n][i] == grid[i];
        }
      }
    }
  }

  /** A report without rows has an empty table, whatever its columns. */
  lemma EmptyGrid(report: Json)
    requires report.Obj? && Get(report.fields, "dataGrid") == Some(Arr([]))
    ensures Table(report) == Ok([])
  {
  }

  /** Without `report_id` nothing is called. */
  lemma MissingReport(request: Request, parameters: seq<(string, Json)>, callit: Request -> Result<Json>)
    requires !HasKey(parameters, "report_id")
    ensures Reported(request, parameters, callit) == Raise(BareException, MissingArgs)
  {
  }

  /** A `limit` given as digits is sent as the JSON body `{"limit": n}`, by
      POST, to `report <id> table`. */
  lemma LimitSent(request: Request, parameters: seq<(string, Json)>, id: string, n: nat)
    requires Get(parameters, "report_id") == Some(Str(id))
    requires Get(parameters, "limit") == Some(Str(IntToString(n)))
    ensures Prepared(request, parameters) == Ok(Request("post", ["report", id, "table"], "{\"limit\": " + IntToString(n) + "}"))
  {
    IntToStringRoundTrip(n);
  }

  // ---------------------------------------------------------------------
  // The script

  class JsonfyReportTable {
    /** `self.rbkcli.callit`: the answer of the API for a request. */
    const callit: Request -> Result<Json>
    var request: Request

    constructor (callit: Request -> Result<Json>, request: Request)
      ensures this.callit == callit && this.request == request
    {
      this.callit := callit;
      this.request := request;
    }

    /** `execute`: sets the request's body, method and endpoint, calls the
        API and builds the records row by row. */
    method Execute(parameters: seq<(string, Json)>) returns (r: Result<seq<Json>>)
      modifies this
      ensures r == Reported(old(request), parameters, callit)
      ensures Prepared(old(request), parameters).Ok? ==> request == Prepared(old(request), parameters).value
    {
      var id := Get(parameters, "report_id");
      if id.None? {
        return Raise(BareException, MissingArgs);
      }
      var limit := Get(parameters, "limit");
      if limit.Some? {
        var n := IntOf(limit.value);
        if n.Fail? {
          return Fail(n.error);
        }
        request := request.(parameter := LimitText(n.value));
      }
      if !id.value.Str? {
        return Raise(TypeError, "sequence item 1: expected str instance, " + TypeName(id.value) + " found");
      }
      request := request.(verb := "post", apiEndpoint := ["report", id.value.s, "table"]);
      var answer := callit(request);
      if answer.Fail? {
        return Fail(answer.error);
      }
      r := TableOf(answer.value);
    }
  }

  /** The loop of `execute` over the rows of the grid, filling one dictionary
      per row and appending it to the result. */
  method TableOf(report: Json) returns (r: Result<seq<Json>>)
    ensures r == Table(report)
  {
    var grid := Subscript(report, "dataGrid");
    if grid.Fail? {
      return Fail(grid.error);
    }
    if !grid.value.Arr? {
      return Raise(TypeError, "'" + TypeName(grid.value) + "' object is not iterable");
    }
    var lines := grid.value.items;
    r := Ok([]);
    for i := 0 to |lines|
      invariant r == Rows(report, lines[..i])
    {
      assert lines[..i + 1][..i] == lines[..i];
      if r.Ok? {
        if !lines[i].Arr? {
          r := Raise(TypeError, "'" + TypeName(lines[i]) + "' object is not iterable");
        } else {
          var line := lines[i].items;
          var lineJson: Result<seq<(string, Json)>> := Ok([]);
          for k := 0 to |line|
            invariant lineJson == RowRecord(report, line[..k])
          {
            assert line[..k + 1][..k] == line[..k];
            if lineJson.Ok? {
              var name := ColumnName(report, k);
              if name.Fail? {
                lineJson := Fail(name.error);
              } else {
                lineJson := Ok(Set(lineJson.value, name.value, line[k]));
              }
            }
          }
          assert line[..|line|] == line;
          if lineJson.Fail? {
            r := Fail(lineJson.error);
          } else {
            r := Ok(r.value + [Obj(lineJson.value)]);
          }
        }
      }
    }
    assert lines[..|lines|] == lines;
  }
}
