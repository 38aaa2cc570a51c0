/** `JsonfyCsv` (scripts/default/jsonfy_csv.py): the lines of a CSV file as a
    list of records, the first line naming the fields of every later one.
    Reading the file is a function supplied by the caller. */
module JsonfyCsv {
  import opened Wrappers
  import opened Strings
  import opened Json

  const OutOfRange: string := "list index out of range"
  const MissingArguments: string := "Missing Arguments."

  /** The value of a cell: its newlines removed, then stripped. */
  function Cell(v: string): string
  {
    Strip(Replace(v, "\n", ""))
  }

  /** The record of one line: each key, stripped, paired with the cell at its
      position, a key met again overwriting the earlier value in place; a line
      with fewer cells than keys is an IndexError. */
  function Record(keys: seq<string>, cells: seq<string>): Result<seq<(string, Json)>>
  {
    if keys == [] then Ok([])
    else
      var n := |keys| - 1;
      match Record(keys[..n], cells)
      case Fail(e) => Fail(e)
      case Ok(fields) =>
        if n < |cells| then Ok(Set(fields, Strip(keys[n]), Str(Cell(cells[n]))))
        else Raise(IndexError, OutOfRange)
  }

  /** The records of the lines after the first, one per line that yields a
      non-empty dictionary. */
  function Records(keys: seq<string>, lines: seq<string>): Result<seq<Json>>
  {
    if lines == [] then Ok([])
    else
      var n := |lines| - 1;
      match Records(keys, lines[..n])
      case Fail(e) => Fail(e)
      case Ok(rs) =>
        match Record(keys, Cells(lines[n]))
        case Fail(e) => Fail(e)
        case Ok(fields) => Ok(if fields != [] then rs + [Obj(fields)] else rs)
  }

  /** The records of a file: none for an empty file, otherwise those of the
      lines after the first, whose comma-separated pieces are the keys. */
  function Csv(lines: seq<string>): Result<seq<Json>>
  {
    if lines == [] then Ok([]) else Records(Cells(lines[0]), lines[1..])
  }

  /** `execute`: the `file` parameter is required; a file that cannot be read
      raises ScriptError with the reader's message. */
  function Jsonfied(parameters: seq<(string, Json)>, read: Json -> Result<seq<string>>): Result<seq<Json>>
  {
    match Get(parameters, "file")
    case None => Raise(ScriptError, MissingArguments)
    case Some(file) =>
      match read(file)
      case Fail(e) => Raise(ScriptError, e.msg)
      case Ok(lines) => Csv(lines)
  }

  // ---------------------------------------------------------------------
  // Properties

  /** A line yields a record exactly when it has at least as many cells as
      there are keys. */
  lemma {:induction false} RecordOk(keys: seq<string>, cells: seq<string>)
    ensures Record(keys, cells).Ok? <==> |keys| <= |cells|
  {
    if keys != [] {
      RecordOk(keys[..|keys| - 1], cells);
    }
  }

  /** The keys of a line, stripped. */
  function Stripped(keys: seq<string>): (r: seq<string>)
    ensures |r| == |keys| && forall i :: 0 <= i < |keys| ==> r[i] == Strip(keys[i])
  {
    seq(|keys|, i requires 0 <= i < |keys| => Strip(keys[i]))
  }

  lemma StrippedSnoc(keys: seq<string>)
    requires keys != []
    ensures Stripped(keys) == Stripped(keys[..|keys| - 1]) + [Strip(keys[|keys| - 1])]
  {
    var n := |keys| - 1;
    var a, b := Stripped(keys), Stripped(keys[..n]) + [Strip(keys[n])];
    assert |a| == |b|;
    forall i | 0 <= i < |a| ensures a[i] == b[i] {
      if i < n {
        assert keys[..n][i] == keys[i];
      }
    }
  }

  /** The keys of a record are the stripped keys, each once. */
  lemma {:induction false} RecordKeys(keys: seq<string>, cells: seq<string>)
    requires Record(keys, cells).Ok?
    ensures UniqueKeys(Record(keys, cells).value)
    ensures forall k :: HasKey(Record(keys, cells).value, k) <==> k in Stripped(keys)
  {
    if keys != [] {
      var n := |keys| - 1;
      var fields := Record(keys[..n], cells).value;
      RecordKeys(keys[..n], cells);
      SetUnique(fields, Strip(keys[n]), Str(Cell(cells[n])));
      StrippedSnoc(keys);
      forall k ensures HasKey(Record(keys, cells).value, k) <==> HasKey(fields, k) || k == Strip(keys[n]) {
        GetSet(fields, Strip(keys[n]), Str(Cell(cells[n])), k);
      }
    }
  }

  /** Each field holds the cell under the last key that strips to its name. */
  lemma {:induction false} RecordField(keys: seq<string>, cells: seq<string>, i: nat)
    requires Record(keys, cells).Ok? && i < |keys|
    requires forall j :: i < j < |keys| ==> Strip(keys[j]) != Strip(keys[i])
    ensures i < |cells|
    ensures Get(Record(keys, cells).value, Strip(keys[i])) == Some(Str(Cell(cells[i])))
  {
    var n := |keys| - 1;
    var fields := Record(keys[..n], cells).value;
    GetSet(fields, Strip(keys[n]), Str(Cell(cells[n])), Strip(keys[i]));
    if i < n {
      RecordField(keys[..n], cells, i);
    }
  }

  /** A record has a field for every key, so it is never empty when there are
      keys. */
  lemma RecordNonEmpty(keys: seq<string>, cells: seq<string>)
    requires Record(keys, cells).Ok? && keys != []
    ensures Record(keys, cells).value != []
  {
    RecordKeys(keys, cells);
    assert Stripped(keys)[0] in Stripped(keys);
  }

  /** The cells of a line. */
  function Cells(line: string): seq<string>
  {
    Split(line, ",")
  }

  /** Every line has at least as many cells as there are keys. */
  predicate Fits(keys: seq<string>, lines: seq<string>)
  {
    forall i :: 0 <= i < |lines| ==> |keys| <= |Cells(lines[i])|
  }

  /** The records are built exactly when every line has enough cells. */
  lemma {:induction false} RecordsOk(keys: seq<string>, lines: seq<string>)
    ensures Records(keys, lines).Ok? <==> Fits(keys, lines)
  {
    if lines != [] {
      var n := |lines| - 1;
      RecordsOk(keys, lines[..n]);
      RecordOk(keys, Cells(lines[n]));
      assert Fits(keys, lines) <==> Fits(keys, lines[..n]) && |keys| <= |Cells(lines[n])| by {
        if Fits(keys, lines[..n]) && |keys| <= |Cells(lines[n])| {
          forall i | 0 <= i < |lines| ensures |keys| <= |Cells(lines[i])| {
            if i < n {
              assert lines[..n][i] == lines[i];
              assert |keys| <= |Cells(lines[..n][i])|;
            } else {
              assert i == n;
            }
          }
        }
        if Fits(keys, lines) {
          forall i | 0 <= i < n ensures |keys| <= |Cells(lines[..n][i])| {
            assert lines[..n][i] == lines[i];
          }
        }
      }
    }
  }

  /** With keys, every line gives exactly one record, in order. */
  lemma {:induction false} RecordsEach(keys: seq<string>, lines: seq<string>)
    requires keys != [] && Records(keys, lines).Ok?
    ensures |Records(keys, lines).value| == |lines|
    ensures forall i :: 0 <= i < |lines| ==>
              Record(keys, Cells(lines[i])).Ok?
              && Records(keys, lines).value[i] == Obj(Record(keys, Cells(lines[i])).value)
  {
    if lines != [] {
      var n := |lines| - 1;
      RecordsEach(keys, lines[..n]);
      var rs := Records(keys, lines[..n]).value;
      assert Record(keys, Cells(lines[n])).Ok?;
      var fields := Record(keys, Cells(lines[n])).value;
      RecordNonEmpty(keys, Cells(lines[n]));
      assert Records(keys, lines).value == rs + [Obj(fields)];
      forall i | 0 <= i < |lines|
        ensures Record(keys, Cells(lines[i])).Ok?
        ensures Records(keys, lines).value[i] == Obj(Record(keys, Cells(lines[i])).value)
      {
        if i < n {
          assert lines[..n][i] == lines[i];
          assert Record(keys, Cells(lines[..n][i])).Ok?;
        } else {
          assert i == n;
        }
      }
    }
  }

  /** The records of a file: one per line after the first, its fields named
      by the first line. */
  lemma CsvRecords(lines: seq<string>)
    requires Csv(lines).Ok? && lines != []
    ensures |Csv(lines).value| == |lines| - 1
    ensures forall i :: 1 <= i < |lines| ==>
      Record(Cells(lines[0]), Cells(lines[i])).Ok? &&
      Csv(lines).value[i - 1] == Obj(Record(Cells(lines[0]), Cells(lines[i])).value)
  {
    RecordsEach(Cells(lines[0]), lines[1..]);
    assert forall i :: 1 <= i < |lines| ==> lines[1..][i - 1] == lines[i];
  }

  /** Missing `file` is a ScriptError, whatever the reader would do. */
  lemma MissingFile(parameters: seq<(string, Json)>, read: Json -> Result<seq<string>>)
    requires !HasKey(parameters, "file")
    ensures Jsonfied(parameters, read) == Raise(ScriptError, MissingArguments)
  {
  }

  // ---------------------------------------------------------------------
  // The script

  /** `execute`: the loop over the lines of the file, filling one dictionary
      per line and appending it to the result. */
  method Execute(parameters: seq<(string, Json)>, read: Json -> Result<seq<string>>)
    returns (r: Result<seq<Json>>)
    ensures r == Jsonfied(parameters, read)
  {
    var file := Get(parameters, "file");
    if file.None? {
      return Raise(ScriptError, MissingArguments);
    }
    var content := read(file.value);
    if content.Fail? {
      return Raise(ScriptError, content.error.msg);
    }
    var lines := content.value;
    if lines == [] {
      return Ok([]);
    }
    var keys := Cells(lines[0]);
    var rest := lines[1..];
    r := Ok([]);
    for i := 0 to |rest|
      invariant r == Records(keys, rest[..i])
    {
      assert rest[..i + 1][..i] == rest[..i];
      if r.Ok? {
        var cells := Cells(rest[i]);
        var each: Result<seq<(string, Json)>> := Ok([]);
        for k := 0 to |keys|
          invariant each == Record(keys[..k], cells)
        {
          assert keys[..k + 1][..k] == keys[..k];
          if each.Ok? {
            if k < |cells| {
              each := Ok(Set(each.value, Strip(keys[k]), Str(Cell(cells[k]))));
            } else {
              each := Raise(IndexError, OutOfRange);
            }
          }
        }
        assert keys[..|keys|] == keys;
        if each.Fail? {
          r := Fail(each.error);
        } else if each.value != [] {
          r := Ok(r.value + [Obj(each.value)]);
        }
      }
    }
    assert rest[..|rest|] == rest;
  }
}
