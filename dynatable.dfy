/** The dynamically sized text table of rbkcli/base/jsops.py (class DynaTable).
    A table is given as a list of headers and a list of COLUMNS (the source calls
    each column a "row"): column `c` holds the cells under header `c`. Every cell
    is padded to its column's width, the cells of one line are joined with `|`,
    and a line of `=` separates the header line from the data lines. */
module DynaTable {
  import opened Wrappers
  import opened Strings
  import opened Lists

  const RowDivision: string := "|"
  const LineDivision: char := '='
  const InconsistentData: string := "Error: Returned data is inconsistent with table creation."

  /** `len(max(xs, key=len))`: the length of the longest string. */
  function MaxLen(xs: seq<string>): (r: nat)
    requires xs != []
    ensures forall i :: 0 <= i < |xs| ==> |xs[i]| <= r
    ensures exists i :: 0 <= i < |xs| && |xs[i]| == r
  {
    if |xs| == 1 then
      assert |xs[0]| == |xs[0]|;
      |xs[0]|
    else
      var m := MaxLen(xs[1..]);
      assert forall i :: 1 <= i < |xs| ==> xs[i] == xs[1..][i - 1];
      if |xs[0]| >= m then
        |xs[0]|
      else
        var k :| 0 <= k < |xs[1..]| && |xs[1..][k]| == m;
        assert |xs[k + 1]| == m;
        m
  }

  /** The width of a column: its longest cell or its header, whichever is longer. */
  function ColumnWidth(column: seq<string>, header: string): (w: nat)
    ensures |header| <= w && forall i :: 0 <= i < |column| ==> |column[i]| <= w
    ensures w == |header| || exists i :: 0 <= i < |column| && |column[i]| == w
  {
    var xs := column + [header];
    assert xs[|column|] == header;
    assert forall i :: 0 <= i < |column| ==> xs[i] == column[i];
    MaxLen(xs)
  }

  /** The widths of the first `|headers|` columns, or DynaTableError when there
      are fewer columns than headers. */
  function Widths(headers: seq<string>, columns: seq<seq<string>>): (r: Result<seq<nat>>)
    ensures r.Ok? <==> |headers| <= |columns|
    ensures r.Ok? ==> (|r.value| == |headers| &&
      forall i :: 0 <= i < |headers| ==> r.value[i] == ColumnWidth(columns[i], headers[i]))
  {
    if |columns| < |headers| then Fail(Error(DynaTableError, "Incorrect number of rows provided"))
    else Ok(seq(|headers|, i requires 0 <= i < |headers| => ColumnWidth(columns[i], headers[i])))
  }

  /** `' {text:<{size}} '.format(...)`. */
  function Cell(text: string, width: nat): (r: string)
    ensures |text| <= width ==> |r| == width + 2
  {
    " " + LeftAlign(text, width) + " "
  }

  function FormatHeaders(headers: seq<string>, widths: seq<nat>): (r: seq<string>)
    requires |widths| == |headers|
    ensures |r| == |headers|
  {
    seq(|headers|, i requires 0 <= i < |headers| => Cell(headers[i], widths[i]))
  }

  function FormatColumn(column: seq<string>, width: nat): (r: seq<string>)
    ensures |r| == |column|
  {
    seq(|column|, j requires 0 <= j < |column| => Cell(column[j], width))
  }

  /** The columns after formatting: the first `|widths|` columns are padded, any
      further column is left as it was. */
  function FormatColumns(columns: seq<seq<string>>, widths: seq<nat>): (r: seq<seq<string>>)
    requires |widths| <= |columns|
    ensures |r| == |columns|
  {
    seq(|columns|, i requires 0 <= i < |columns| =>
      if i < |widths| then FormatColumn(columns[i], widths[i]) else columns[i])
  }

  /** The cells at line index `i`, one from each column. */
  function LineCells(columns: seq<seq<string>>, i: nat): seq<string>
    requires forall c :: 0 <= c < |columns| ==> i < |columns[c]|
  {
    seq(|columns|, c requires 0 <= c < |columns| => columns[c][i])
  }

  predicate AllAtLeast(columns: seq<seq<string>>, n: nat)
  {
    forall c :: 0 <= c < |columns| ==> n <= |columns[c]|
  }

  function DataLines(columns: seq<seq<string>>, n: nat): (r: seq<string>)
    requires AllAtLeast(columns, n)
    ensures |r| == n
  {
    seq(n, i requires 0 <= i < n => Join(LineCells(columns, i), RowDivision))
  }

  function SummaryLine(summary: string, n: nat): string
  {
    "\n**" + summary + " [" + IntToString(n) + "]"
  }

  /** The table `assemble_table` returns for the given headers and columns. */
  function Assembled(headers: seq<string>, columns: seq<seq<string>>, summary: string): (r: Result<seq<string>>)
  {
    if columns == [] then Fail(Error(IndexError, "list index out of range"))
    else
      var n := |columns[0]|;
      match Widths(headers, columns)
      case Fail(_) => Ok([InconsistentData])
      case Ok(widths) =>
        var fcols := FormatColumns(columns, widths);
        if !AllAtLeast(columns, n) || n == 0 then Fail(Error(IndexError, "list index out of range"))
        else
          Ok(TableText(Join(FormatHeaders(headers, widths), RowDivision), DataLines(fcols, n), summary))
  }

  /** The header line, a `=` line as wide as the first data line, the data lines
      and, when there is a summary, the summary line with the line count. */
  function TableText(head: string, lines: seq<string>, summary: string): (t: seq<string>)
    requires lines != []
    ensures |t| == |lines| + 2 + (if summary != "" then 1 else 0)
    ensures t[0] == head && t[1] == Repeat(LineDivision, |lines[0]|)
    ensures forall i :: 0 <= i < |lines| ==> t[i + 2] == lines[i]
    ensures summary != "" ==> t[|lines| + 2] == SummaryLine(summary, |lines|)
  {
    [head, Repeat(LineDivision, |lines[0]|)] + lines
    + (if summary != "" then [SummaryLine(summary, |lines|)] else [])
  }

  // ---------------------------------------------------------------------
  // Properties of the table

  /** A table whose columns are all at least as long as the first, non-empty one. */
  lemma AssembledOk(headers: seq<string>, columns: seq<seq<string>>, summary: string)
    requires |headers| <= |columns| && columns != [] && AllAtLeast(columns, |columns[0]|) && |columns[0]| > 0
    ensures var widths := Widths(headers, columns).value;
      Assembled(headers, columns, summary)
      == Ok(TableText(Join(FormatHeaders(headers, widths), RowDivision), DataLines(FormatColumns(columns, widths), |columns[0]|), summary))
  {
  }

  lemma {:induction false} JoinSameLengths(a: seq<string>, b: seq<string>, sep: string)
    requires |a| == |b| && forall i :: 0 <= i < |a| ==> |a[i]| == |b[i]|
    ensures |Join(a, sep)| == |Join(b, sep)|
  {
    if |a| > 1 { JoinSameLengths(a[1..], b[1..], sep); }
  }

  /** A well-formed table (as many columns as headers, every column of the same
      non-zero length) has a header line, a `=` line, one line per index and the
      optional summary, and its header and data lines all have the same width. */
  lemma TableShape(headers: seq<string>, columns: seq<seq<string>>, summary: string)
    requires |headers| == |columns| > 0
    requires forall c :: 0 <= c < |columns| ==> |columns[c]| == |columns[0]| > 0
    ensures Assembled(headers, columns, summary).Ok?
    ensures var t := Assembled(headers, columns, summary).value;
      var n := |columns[0]|;
      |t| == n + 2 + (if summary != "" then 1 else 0) &&
      (forall i :: 2 <= i < n + 2 ==> |t[i]| == |t[0]|) &&
      t[1] == Repeat(LineDivision, |t[0]|) &&
      (summary != "" ==> t[n + 2] == SummaryLine(summary, n))
  {
    var n := |columns[0]|;
    var widths := Widths(headers, columns).value;
    var fcols := FormatColumns(columns, widths);
    var hs := FormatHeaders(headers, widths);
    AssembledOk(headers, columns, summary);
    var lines := DataLines(fcols, n);
    forall i | 0 <= i < n ensures |lines[i]| == |Join(hs, RowDivision)| {
      LineWidth(headers, columns, i);
    }
  }

  /** Every data line is as wide as the header line: cell by cell, both are
      padded to the column's width. */
  lemma LineWidth(headers: seq<string>, columns: seq<seq<string>>, i: nat)
    requires |headers| == |columns| && forall c :: 0 <= c < |columns| ==> i < |columns[c]|
    ensures var widths := Widths(headers, columns).value;
      |Join(LineCells(FormatColumns(columns, widths), i), RowDivision)| == |Join(FormatHeaders(headers, widths), RowDivision)|
  {
    var widths := Widths(headers, columns).value;
    var fcols := FormatColumns(columns, widths);
    var hs := FormatHeaders(headers, widths);
    var cells := LineCells(fcols, i);
    forall c | 0 <= c < |cells| ensures |cells[c]| == |hs[c]| {
      assert cells[c] == Cell(columns[c][i], widths[c]);
    }
    JoinSameLengths(cells, hs, RowDivision);
  }

  /** Every data line shows, column by column, the padded cell of that index. */
  lemma TableLine(headers: seq<string>, columns: seq<seq<string>>, summary: string, i: nat, c: nat)
    requires Assembled(headers, columns, summary).Ok? && |headers| <= |columns|
    requires c < |headers| && i < |columns[0]|
    ensures var t := Assembled(headers, columns, summary).value;
      i + 2 < |t| && t[i + 2] == Join(LineCells(FormatColumns(columns, Widths(headers, columns).value), i), RowDivision)
      && LineCells(FormatColumns(columns, Widths(headers, columns).value), i)[c]
         == Cell(columns[c][i], ColumnWidth(columns[c], headers[c]))
  {
    var n := |columns[0]|;
    var widths := Widths(headers, columns).value;
    var fcols := FormatColumns(columns, widths);
    assert AllAtLeast(columns, n) && n > 0;
    AssembledOk(headers, columns, summary);
    var lines := DataLines(fcols, n);
    assert lines[i] == Join(LineCells(fcols, i), RowDivision);
    assert fcols[c] == FormatColumn(columns[c], widths[c]);
  }

  // ---------------------------------------------------------------------
  // `_get_rows_size` as written: it appends each header to its column to take
  // the maximum, then calls `list.remove(header)`, which removes the FIRST equal
  // element. When a cell equals its header, that cell moves to the end of the
  // column and the column no longer lines up with the others.

  /** The columns as the source leaves them after measuring the widths. */
  function SizedColumnsAsWritten(headers: seq<string>, columns: seq<seq<string>>): (r: seq<seq<string>>)
    requires |headers| <= |columns|
    ensures |r| == |columns|
  {
    seq(|columns|, i requires 0 <= i < |columns| =>
      if i < |headers| then RemoveFirst(columns[i] + [headers[i]], headers[i]) else columns[i])
  }

  /** The as-written measuring keeps each column's cells, possibly in another order. */
  lemma SizedColumnsSameCells(headers: seq<string>, columns: seq<seq<string>>, i: nat)
    requires |headers| <= |columns| && i < |columns|
    ensures multiset(SizedColumnsAsWritten(headers, columns)[i]) == multiset(columns[i])
  {
    if i < |headers| {
      RemoveFirstMultiset(columns[i] + [headers[i]], headers[i]);
    }
  }

  /** `assemble_table` on top of the as-written `_get_rows_size`. */
  function AssembledAsWritten(headers: seq<string>, columns: seq<seq<string>>, summary: string): (r: Result<seq<string>>)
  {
    if columns == [] then Fail(Error(IndexError, "list index out of range"))
    else
      var n := |columns[0]|;
      match Widths(headers, columns)
      case Fail(_) => Ok([InconsistentData])
      case Ok(widths) =>
        var moved := SizedColumnsAsWritten(headers, columns);
        if !AllAtLeast(moved, n) || n == 0 then Fail(Error(IndexError, "list index out of range"))
        else
          Ok(TableText(Join(FormatHeaders(headers, widths), RowDivision), DataLines(FormatColumns(moved, widths), n), summary))
  }

  /** When no cell equals its column's header, the as-written measuring leaves the
      columns as they were, and the two tables agree. */
  lemma {:induction false} AsWrittenAgreesWithoutHeaderCells(headers: seq<string>, columns: seq<seq<string>>, summary: string)
    requires |headers| <= |columns|
    requires forall i :: 0 <= i < |headers| ==> headers[i] !in columns[i]
    ensures AssembledAsWritten(headers, columns, summary) == Assembled(headers, columns, summary)
  {
    var moved := SizedColumnsAsWritten(headers, columns);
    forall i | 0 <= i < |headers| ensures moved[i] == columns[i] {
      RemoveFirstAppend(columns[i], headers[i]);
    }
    assert moved == columns;
  }

  /** A joined line starts with the cell of the first column. */
  lemma LeadingCell(columns: seq<seq<string>>, i: nat)
    requires |columns| > 0 && forall c :: 0 <= c < |columns| ==> i < |columns[c]|
    ensures var line := Join(LineCells(columns, i), RowDivision);
      |columns[0][i]| <= |line| && line[..|columns[0][i]|] == columns[0][i]
  {
  }

  /** The first data line of a table starts with the first cell of the first
      column, after the padding space. */
  lemma FirstLineLeads(headers: seq<string>, columns: seq<seq<string>>, summary: string)
    requires 1 <= |headers| <= |columns|
    requires AllAtLeast(columns, |columns[0]|) && |columns[0]| > 0 && columns[0][0] != ""
    ensures Assembled(headers, columns, summary).Ok?
    ensures |Assembled(headers, columns, summary).value| > 2
    ensures |Assembled(headers, columns, summary).value[2]| > 1
    ensures Assembled(headers, columns, summary).value[2][1] == columns[0][0][0]
  {
    var widths := Widths(headers, columns).value;
    var fcols := FormatColumns(columns, widths);
    LeadingCell(fcols, 0);
    assert fcols[0][0] == Cell(columns[0][0], widths[0]);
  }

  lemma FirstLineLeadsAsWritten(headers: seq<string>, columns: seq<seq<string>>, summary: string)
    requires 1 <= |headers| <= |columns|
    requires var moved := SizedColumnsAsWritten(headers, columns);
      AllAtLeast(moved, |columns[0]|) && |columns[0]| > 0 && moved[0][0] != ""
    ensures AssembledAsWritten(headers, columns, summary).Ok?
    ensures |AssembledAsWritten(headers, columns, summary).value| > 2
    ensures |AssembledAsWritten(headers, columns, summary).value[2]| > 1
    ensures AssembledAsWritten(headers, columns, summary).value[2][1]
         == SizedColumnsAsWritten(headers, columns)[0][0][0]
  {
    var widths := Widths(headers, columns).value;
    var moved := SizedColumnsAsWritten(headers, columns);
    var fcols := FormatColumns(moved, widths);
    LeadingCell(fcols, 0);
    assert fcols[0][0] == Cell(moved[0][0], widths[0]);
  }

  /** `simple_dict_table([{"a": "a", "b": "p"}, {"a": "x", "b": "q"}])`: the
      headers are the sorted keys `a` and `b`, the columns `a`, `x` and `p`, `q`.
      Measuring the first column moves its cell `a` to the end, so the data lines
      read `x | p` and `a | q`; `RecordsExampleIntended` gives the intended table. */
  lemma RecordsExampleAsWritten()
    ensures AssembledAsWritten(["a", "b"], [["a", "x"], ["p", "q"]], "")
         == Ok([" a | b ", "=======", " x | p ", " a | q "])
  {
    var columns := [["a", "x"], ["p", "q"]];
    NarrowWidths(["a", "b"], columns);
    RecordsExampleSized();
    NarrowLines("x", "a", "p", "q", " x | p ", " a | q ");
    NarrowText(" x | p ", " a | q ");
    AssembledAsWrittenAB(columns, [["x", "a"], ["p", "q"]]);
  }

  /** Measuring the example's columns moves the first column's `a` to the end. */
  lemma RecordsExampleSized()
    ensures SizedColumnsAsWritten(["a", "b"], [["a", "x"], ["p", "q"]]) == [["x", "a"], ["p", "q"]]
  {
    var headers, columns := ["a", "b"], [["a", "x"], ["p", "q"]];
    var moved := SizedColumnsAsWritten(headers, columns);
    assert columns[0] + [headers[0]] == ["a", "x", "a"];
    assert columns[1] + [headers[1]] == ["p", "q", "b"];
    assert RemoveFirst(["q", "b"], "b") == ["q"];
    assert moved[0] == RemoveFirst(["a", "x", "a"], "a") == ["x", "a"];
    assert moved[1] == RemoveFirst(["p", "q", "b"], "b") == ["p", "q"];
  }

  /** The same records under the intended measuring: the lines keep their order,
      `a | p` and then `x | q`. */
  lemma RecordsExampleIntended()
    ensures Assembled(["a", "b"], [["a", "x"], ["p", "q"]], "")
         == Ok([" a | b ", "=======", " a | p ", " x | q "])
  {
    var columns := [["a", "x"], ["p", "q"]];
    NarrowWidths(["a", "b"], columns);
    NarrowLines("a", "x", "p", "q", " a | p ", " x | q ");
    NarrowText(" a | p ", " x | q ");
    AssembledAB(columns);
  }

  /** The intended table under the headers `a` and `b` of two one-wide columns. */
  lemma AssembledAB(columns: seq<seq<string>>)
    requires |columns| == 2 && |columns[0]| == |columns[1]| == 2
    requires Widths(["a", "b"], columns) == Ok([1, 1])
    ensures AllAtLeast(FormatColumns(columns, [1, 1]), 2)
    ensures Assembled(["a", "b"], columns, "")
         == Ok(TableText(" a | b ", DataLines(FormatColumns(columns, [1, 1]), 2), ""))
  {
    NarrowHead();
    assert AllAtLeast(columns, 2);
  }

  /** The as-written table under the headers `a` and `b`, once measuring has
      left the columns `moved`. */
  lemma AssembledAsWrittenAB(columns: seq<seq<string>>, moved: seq<seq<string>>)
    requires |columns| == |moved| == 2 && |columns[0]| == |moved[0]| == |moved[1]| == 2
    requires Widths(["a", "b"], columns) == Ok([1, 1])
    requires SizedColumnsAsWritten(["a", "b"], columns) == moved
    ensures AllAtLeast(FormatColumns(moved, [1, 1]), 2)
    ensures AssembledAsWritten(["a", "b"], columns, "")
         == Ok(TableText(" a | b ", DataLines(FormatColumns(moved, [1, 1]), 2), ""))
  {
    NarrowHead();
    assert AllAtLeast(moved, 2);
  }

  lemma NarrowHead()
    ensures Join(FormatHeaders(["a", "b"], [1, 1]), RowDivision) == " a | b "
  {
    NarrowCell("a");
    NarrowCell("b");
    var fh := FormatHeaders(["a", "b"], [1, 1]);
    assert fh[0] == Cell("a", 1) && fh[1] == Cell("b", 1);
    assert " " + "a" + " " == " a " && " " + "b" + " " == " b ";
    assert fh == [" a ", " b "];
    JoinPair(" a ", " b ");
  }

  lemma NarrowText(l0: string, l1: string)
    requires |l0| == 7
    ensures TableText(" a | b ", [l0, l1], "") == [" a | b ", "=======", l0, l1]
  {
    assert Repeat(LineDivision, 7) == "=======";
  }

  /** Two columns of one-character cells under one-character headers are one wide. */
  lemma NarrowWidths(headers: seq<string>, columns: seq<seq<string>>)
    requires |headers| == |columns| == 2 && |headers[0]| == |headers[1]| == 1
    requires forall c, i :: 0 <= c < 2 && 0 <= i < |columns[c]| ==> |columns[c][i]| == 1
    ensures Widths(headers, columns) == Ok([1, 1])
  {
    var w := Widths(headers, columns);
    assert w.Ok? && |w.value| == 2 && w.value[0] == 1 && w.value[1] == 1;
    assert w.value == [1, 1];
  }

  lemma NarrowCell(t: string)
    requires |t| == 1
    ensures Cell(t, 1) == " " + t + " "
  {
    assert LeftAlign(t, 1) == t;
  }

  lemma JoinPair(u: string, v: string)
    ensures Join([u, v], RowDivision) == u + RowDivision + v
  {
    assert [u, v][1..] == [v];
  }

  /** The data lines of two two-cell columns of one-character cells. */
  lemma NarrowLines(a0: string, a1: string, b0: string, b1: string, l0: string, l1: string)
    requires |a0| == |a1| == |b0| == |b1| == 1
    requires l0 == " " + a0 + " | " + b0 + " " && l1 == " " + a1 + " | " + b1 + " "
    ensures var fcols := FormatColumns([[a0, a1], [b0, b1]], [1, 1]);
      AllAtLeast(fcols, 2) && DataLines(fcols, 2) == [l0, l1]
  {
    NarrowCell(a0);
    NarrowCell(a1);
    NarrowCell(b0);
    NarrowCell(b1);
    var fcols := FormatColumns([[a0, a1], [b0, b1]], [1, 1]);
    var fa, fb := FormatColumn([a0, a1], 1), FormatColumn([b0, b1], 1);
    assert fa[0] == Cell(a0, 1) && fa[1] == Cell(a1, 1);
    assert fb[0] == Cell(b0, 1) && fb[1] == Cell(b1, 1);
    assert fcols[0] == fa && fcols[1] == fb;
    assert fa == [" " + a0 + " ", " " + a1 + " "];
    assert fb == [" " + b0 + " ", " " + b1 + " "];
    assert LineCells(fcols, 0) == [" " + a0 + " ", " " + b0 + " "];
    assert LineCells(fcols, 1) == [" " + a1 + " ", " " + b1 + " "];
    assert " " + RowDivision + " " == " | ";
    JoinPair(" " + a0 + " ", " " + b0 + " ");
    JoinPair(" " + a1 + " ", " " + b1 + " ");
    assert AllAtLeast(fcols, 2);
    var d := DataLines(fcols, 2);
    assert d[0] == Join(LineCells(fcols, 0), RowDivision);
    assert d[1] == Join(LineCells(fcols, 1), RowDivision);
    assert d[0] == " " + a0 + " " + RowDivision + " " + b0 + " ";
    assert d[0] == " " + a0 + " | " + b0 + " ";
    assert d[1] == " " + a1 + " | " + b1 + " ";
  }

  /** A two-line table whose first column starts with a cell equal to its header
      (say header "name", cells "name" and "b"): the as-written measuring moves
      that cell to the end of its column, so the first line of the table starts
      with "b" where the intended table shows "name". */
  lemma AsWrittenMisalignsRows(headers: seq<string>, columns: seq<seq<string>>)
    requires |headers| == |columns| == 2 && |columns[0]| == |columns[1]| == 2
    requires columns[0][0] == headers[0] != "" && columns[0][1] != ""
    requires columns[0][1][0] != headers[0][0]
    ensures AssembledAsWritten(headers, columns, "") != Assembled(headers, columns, "")
  {
    var moved := SizedColumnsAsWritten(headers, columns);
    var h := headers[0];
    assert columns[0] + [h] == [h, columns[0][1], h];
    assert moved[0] == [columns[0][1], h];
    assert |moved[1]| == 2 by {
      assert headers[1] in columns[1] + [headers[1]];
    }
    FirstLineLeads(headers, columns, "");
    FirstLineLeadsAsWritten(headers, columns, "");
  }

  // ---------------------------------------------------------------------
  // The loops of the table object, over values

  /** The inner loop of `_format_rows`: pads every cell of one column. */
  method PadColumn(column: seq<string>, width: nat) returns (r: seq<string>)
    ensures r == FormatColumn(column, width)
  {
    r := column;
    var j := 0;
    while j < |r|
      invariant 0 <= j <= |r| == |column|
      invariant forall m :: 0 <= m < |column| ==> r[m] == if m < j then Cell(column[m], width) else column[m]
    {
      r := r[j := Cell(r[j], width)];
      j := j + 1;
    }
  }

  /** The outer loop of `_format_rows`: pads the headers and the first
      `|widths|` columns. */
  method PadAll(headers: seq<string>, columns: seq<seq<string>>, widths: seq<nat>)
    returns (hs: seq<string>, cols: seq<seq<string>>)
    requires |widths| == |headers| <= |columns|
    ensures hs == FormatHeaders(headers, widths) && cols == FormatColumns(columns, widths)
  {
    hs, cols := headers, columns;
    var i := 0;
    while i < |widths|
      invariant 0 <= i <= |widths|
      invariant |hs| == |headers| && |cols| == |columns|
      invariant forall k :: 0 <= k < |headers| ==>
        hs[k] == if k < i then Cell(headers[k], widths[k]) else headers[k]
      invariant forall k :: 0 <= k < |columns| ==>
        cols[k] == if k < i then FormatColumn(columns[k], widths[k]) else columns[k]
    {
      hs := hs[i := Cell(hs[i], widths[i])];
      var padded := PadColumn(cols[i], widths[i]);
      cols := cols[i := padded];
      i := i + 1;
    }
  }

  /** The inner loop of `assemble_table`: the cells at index `i` of every column,
      or IndexError at the first column too short to have one. */
  method CollectLine(columns: seq<seq<string>>, i: nat) returns (r: Option<seq<string>>)
    ensures r.Some? <==> forall c :: 0 <= c < |columns| ==> i < |columns[c]|
    ensures r.Some? ==> r.value == LineCells(columns, i)
  {
    var line: seq<string> := [];
    var c := 0;
    while c < |columns|
      invariant 0 <= c <= |columns|
      invariant |line| == c && forall d :: 0 <= d < c ==> i < |columns[d]| && line[d] == columns[d][i]
    {
      if i >= |columns[c]| {
        return None;
      }
      line := line + [columns[c][i]];
      c := c + 1;
    }
    return Some(line);
  }

  /** The outer loop of `assemble_table`: one joined line per index below `n`. */
  method CollectLines(columns: seq<seq<string>>, n: nat) returns (r: Option<seq<string>>)
    ensures r.Some? <==> AllAtLeast(columns, n)
    ensures r.Some? ==> r.value == DataLines(columns, n)
  {
    var lines: seq<string> := [];
    var i := 0;
    while i < n
      invariant 0 <= i <= n
      invariant AllAtLeast(columns, i) && lines == DataLines(columns, i)
    {
      var line := CollectLine(columns, i);
      if line.None? {
        return None;
      }
      assert DataLines(columns, i + 1) == DataLines(columns, i) + [Join(line.value, RowDivision)];
      lines := lines + [Join(line.value, RowDivision)];
      i := i + 1;
    }
    return Some(lines);
  }

  // ---------------------------------------------------------------------
  // The table object

  class DynaTable {
    var headers: seq<string>
    var columns: seq<seq<string>>
    var summary: string
    var table: seq<string>

    /** `DynaTable(headers, rows, summary=...)`. */
    constructor (headers: seq<string>, columns: seq<seq<string>>, summary: string)
      ensures this.headers == headers && this.columns == columns
      ensures this.summary == summary && this.table == []
    {
      this.headers := headers;
      this.columns := columns;
      this.summary := summary;
      this.table := [];
    }

    /** `_get_rows_size`: the width of each column, without disturbing the cells. */
    method GetRowsSize() returns (r: Result<seq<nat>>)
      ensures r == Widths(headers, columns)
    {
      var sizes: seq<nat> := [];
      var i := 0;
      while i < |headers|
        invariant 0 <= i <= |headers| && i <= |columns|
        invariant |sizes| == i
        invariant forall k :: 0 <= k < i ==> sizes[k] == ColumnWidth(columns[k], headers[k])
      {
        if i >= |columns| {
          return Fail(Error(DynaTableError, "Incorrect number of rows provided"));
        }
        sizes := sizes + [ColumnWidth(columns[i], headers[i])];
        i := i + 1;
      }
      assert sizes == Widths(headers, columns).value;
      r := Ok(sizes);
    }

    /** `_format_rows`: pads every header and every cell of the first
        `|headers|` columns to the column width; false when the widths fail. */
    method FormatRows() returns (ok: bool)
      modifies this
      ensures ok == Widths(old(headers), old(columns)).Ok?
      ensures summary == old(summary) && table == old(table)
      ensures ok ==> (headers == FormatHeaders(old(headers), Widths(old(headers), old(columns)).value)
                  && columns == FormatColumns(old(columns), Widths(old(headers), old(columns)).value))
      ensures !ok ==> headers == old(headers) && columns == old(columns)
    {
      var sizes := GetRowsSize();
      if sizes.Fail? {
        return false;
      }
      var hs, cols := PadAll(headers, columns, sizes.value);
      headers, columns := hs, cols;
      return true;
    }

    /** `assemble_table`: formats the cells and builds the lines of the table. */
    method AssembleTable() returns (r: Result<seq<string>>)
      modifies this
      ensures r == Assembled(old(headers), old(columns), old(summary))
      ensures r.Ok? && r.value != [InconsistentData] ==> table == r.value
    {
      if |columns| == 0 {
        return Fail(Error(IndexError, "list index out of range"));
      }
      var n := |columns[0]|;
      var ok := FormatRows();
      if !ok {
        return Ok([InconsistentData]);
      }
      ghost var widths := Widths(old(headers), old(columns)).value;
      assert columns == FormatColumns(old(columns), widths);
      assert headers == FormatHeaders(old(headers), widths);
      assert forall c :: 0 <= c < |columns| ==> |columns[c]| == |old(columns)[c]|;
      assert AllAtLeast(columns, n) <==> AllAtLeast(old(columns), n);
      var lines := CollectLines(columns, n);
      if lines.None? || n == 0 {
        return Fail(Error(IndexError, "list index out of range"));
      }
      var t := TableText(Join(headers, RowDivision), lines.value, summary);
      table := t;
      r := Ok(t);
    }
  }
}
