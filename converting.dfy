// The text renderings of a selection in rbkcli's json handler
// (`convert_to_table`, `convert_to_list` and `_dict_list_table`): a table with
// one column per requested field, or a key/value table per record.

module Converting {
  import opened Wrappers
  import opened Lists
  import opened Strings
  import opened Json
  import DynaTable

  /** The summary every table ends with. */
  const Summary: string := "Total amount of objects"

  /** The message of the DynaTableError raised for a table without rows. */
  const NoResults: string := "No results returned, canno't create table...\n"

  // ---------------------------------------------------------------------
  // The field table

  /** `str(objt[head])` for one record of a list, or `N/E` when reading the
      field raises (a record without the key, or one that is not a dictionary). */
  function CellText(line: Json, head: string): string
  {
    if line.Obj? && HasKey(line.fields, head) then PyStr(Get(line.fields, head).value) else "N/E"
  }

  /** The cells under one field: one per record of a list, the single value of
      a dictionary (KeyError when it lacks the field), none for anything else.
      A dictionary holding `data` reaches a name the source never defines
      (NameError). */
  function Row(selected: Json, head: string): (r: Result<seq<string>>)
    ensures selected.Arr? ==> r.Ok? && |r.value| == |selected.items|
    ensures selected.Obj? && r.Ok? ==> |r.value| == 1
    ensures !selected.Obj? && !selected.Arr? ==> r == Ok([])
  {
    match selected
    case Obj(fields) =>
      if HasKey(fields, "data") then Fail(Error(NameError, "name 'data' is not defined"))
      else
        (match Get(fields, head)
         case None => Fail(Error(KeyError, head))
         case Some(v) => Ok([PyStr(v)]))
    case Arr(items) => Ok(seq(|items|, i requires 0 <= i < |items| => CellText(items[i], head)))
    case _ => Ok([])
  }

  /** The columns of the table, one per requested field in order; the first
      field whose cells fail stops it. */
  function Body(selected: Json, order: seq<string>): (r: Result<seq<seq<string>>>)
    ensures r.Ok? ==> |r.value| == |order| && forall c :: 0 <= c < |order| ==> Row(selected, order[c]) == Ok(r.value[c])
  {
    if order == [] then Ok([])
    else
      var n := |order| - 1;
      match Body(selected, order[..n])
      case Fail(e) => Fail(e)
      case Ok(cols) =>
        (match Row(selected, order[n])
         case Fail(e) => Fail(e)
         case Ok(row) =>
           assert forall c :: 0 <= c < n ==> order[..n][c] == order[c];
           Ok(cols + [row]))
  }

  /** The columns stop at the first field that fails: a failure on a prefix of
      the fields is the failure of all of them. */
  lemma {:induction false} BodyStops(selected: Json, order: seq<string>, n: nat)
    requires n <= |order| && Body(selected, order[..n]).Fail?
    ensures Body(selected, order) == Body(selected, order[..n])
    decreases |order| - n
  {
    if n < |order| {
      PrefixStep(order, n);
      BodyFailLast(selected, order[..n + 1]);
      BodyStops(selected, order, n + 1);
    } else {
      assert order[..n] == order;
    }
  }

  lemma BodyFailLast(selected: Json, order: seq<string>)
    requires order != [] && Body(selected, order[..|order| - 1]).Fail?
    ensures Body(selected, order) == Body(selected, order[..|order| - 1])
  {
  }

  /** The lines of a table, each followed by a newline. */
  function Lines(ls: seq<string>): string
  {
    if ls == [] then "" else Lines(ls[..|ls| - 1]) + ls[|ls| - 1] + "\n"
  }

  /** The text of a table is its lines joined by newlines, plus a final newline. */
  lemma {:induction false} LinesJoin(ls: seq<string>)
    requires ls != []
    ensures Lines(ls) == Join(ls, "\n") + "\n"
  {
    var n := |ls| - 1;
    if n > 0 {
      LinesJoin(ls[..n]);
      JoinSnoc(ls[..n], ls[n], "\n");
      assert ls[..n] + [ls[n]] == ls;
    } else {
      assert Lines(ls[..0]) == "";
    }
  }

  /** A table's lines as one text; a table without rows is a DynaTableError. */
  function TableText(headers: seq<string>, columns: seq<seq<string>>): Result<string>
  {
    match DynaTable.Assembled(headers, columns, Summary)
    case Fail(_) => Fail(Error(DynaTableError, NoResults))
    case Ok(t) => Ok(Lines(t))
  }

  /** `convert_to_table`: one column per requested field. */
  function TableString(selected: Json, order: seq<string>): Result<string>
  {
    match Body(selected, order)
    case Fail(e) => Fail(e)
    case Ok(body) => TableText(order, body)
  }

  /** No requested field, or nothing to show under them, is a DynaTableError. */
  lemma TableNoResults(selected: Json, order: seq<string>)
    requires order == [] || (!selected.Obj? && (selected.Arr? ==> selected.items == []))
    ensures TableString(selected, order) == Fail(Error(DynaTableError, NoResults))
  {
    if order != [] {
      BodyOk(selected, order);
      var body := Body(selected, order).value;
      assert Row(selected, order[0]) == Ok(body[0]);
      assert |body[0]| == 0;
    }
  }

  /** Only a dictionary can make the columns fail. */
  lemma {:induction false} BodyOk(selected: Json, order: seq<string>)
    requires !selected.Obj?
    ensures Body(selected, order).Ok?
  {
    if order != [] {
      BodyOk(selected, order[..|order| - 1]);
    }
  }

  /** A list of records with fields requested makes a table of one line per
      record; the cell under field `c` of record `i` is that record's value for
      the field, or `N/E`. */
  lemma ListTable(items: seq<Json>, order: seq<string>)
    requires items != [] && order != []
    ensures Body(Arr(items), order).Ok?
    ensures var cols := Body(Arr(items), order).value;
      (forall c, i :: 0 <= c < |order| && 0 <= i < |items| ==> cols[c][i] == CellText(items[i], order[c]))
      && DynaTable.Assembled(order, cols, Summary).Ok?
      && |DynaTable.Assembled(order, cols, Summary).value| == |items| + 3
      && TableString(Arr(items), order) == Ok(Lines(DynaTable.Assembled(order, cols, Summary).value))
  {
    var cols := Body(Arr(items), order).value;
    forall c | 0 <= c < |order|
      ensures |cols[c]| == |items| && forall i :: 0 <= i < |items| ==> cols[c][i] == CellText(items[i], order[c])
    {
      ListRow(items, order[c]);
    }
    DynaTable.TableShape(order, cols, Summary);
  }

  lemma ListRow(items: seq<Json>, head: string)
    ensures Row(Arr(items), head).Ok?
    ensures var row := Row(Arr(items), head).value;
      |row| == |items| && forall i :: 0 <= i < |items| ==> row[i] == CellText(items[i], head)
  {
  }

  /** A record whose fields are all present makes a one-line table showing
      each requested value. */
  lemma DictTable(fields: seq<(string, Json)>, order: seq<string>)
    requires !HasKey(fields, "data") && order != []
    requires forall c :: 0 <= c < |order| ==> HasKey(fields, order[c])
    ensures Body(Obj(fields), order).Ok?
    ensures var cols := Body(Obj(fields), order).value;
      (forall c :: 0 <= c < |order| ==> cols[c] == [PyStr(Get(fields, order[c]).value)])
      && DynaTable.Assembled(order, cols, Summary).Ok?
      && |DynaTable.Assembled(order, cols, Summary).value| == 4
  {
    DictBodyOk(fields, order);
    var cols := Body(Obj(fields), order).value;
    forall c | 0 <= c < |order| ensures cols[c] == [PyStr(Get(fields, order[c]).value)] {
      DictRow(fields, order[c]);
    }
    DynaTable.TableShape(order, cols, Summary);
  }

  lemma DictRow(fields: seq<(string, Json)>, head: string)
    requires !HasKey(fields, "data") && HasKey(fields, head)
    ensures Row(Obj(fields), head) == Ok([PyStr(Get(fields, head).value)])
  {
  }

  lemma {:induction false} DictBodyOk(fields: seq<(string, Json)>, order: seq<string>)
    requires !HasKey(fields, "data")
    requires forall c :: 0 <= c < |order| ==> HasKey(fields, order[c])
    ensures Body(Obj(fields), order).Ok?
  {
    if order != [] {
      var n := |order| - 1;
      DictBodyOk(fields, order[..n]);
      assert HasKey(fields, order[n]);
    }
  }

  /** A record missing a requested field fails with KeyError. */
  lemma {:induction false} DictMissingField(fields: seq<(string, Json)>, order: seq<string>, c: nat)
    requires !HasKey(fields, "data") && c < |order| && !HasKey(fields, order[c])
    ensures Body(Obj(fields), order).Fail? && Body(Obj(fields), order).error.kind == KeyError
    ensures TableString(Obj(fields), order).Fail? && TableString(Obj(fields), order).error.kind == KeyError
  {
    var n := |order| - 1;
    DictBodyErrors(fields, order[..n]);
    if c < n {
      assert order[..n][c] == order[c];
      DictMissingField(fields, order[..n], c);
    }
  }

  /** The columns of a record without `data` can fail only with KeyError. */
  lemma {:induction false} DictBodyErrors(fields: seq<(string, Json)>, order: seq<string>)
    requires !HasKey(fields, "data")
    ensures Body(Obj(fields), order).Fail? ==> Body(Obj(fields), order).error.kind == KeyError
  {
    if order != [] {
      DictBodyErrors(fields, order[..|order| - 1]);
    }
  }

  /** A record holding `data` fails with NameError as soon as a field is requested. */
  lemma DataRecordFails(fields: seq<(string, Json)>, order: seq<string>)
    requires HasKey(fields, "data") && order != []
    ensures TableString(Obj(fields), order) == Fail(Error(NameError, "name 'data' is not defined"))
  {
    DataBodyFails(fields, order);
  }

  lemma {:induction false} DataBodyFails(fields: seq<(string, Json)>, order: seq<string>)
    requires HasKey(fields, "data") && order != []
    ensures Body(Obj(fields), order) == Fail(Error(NameError, "name 'data' is not defined"))
  {
    var n := |order| - 1;
    if n > 0 {
      DataBodyFails(fields, order[..n]);
    }
  }

  // ---------------------------------------------------------------------
  // The key/value listing

  /** `str(value)` of every value, in order. */
  function Texts(vs: seq<Json>): (r: seq<string>)
    ensures |r| == |vs| && forall i :: 0 <= i < |vs| ==> r[i] == PyStr(vs[i])
  {
    seq(|vs|, i requires 0 <= i < |vs| => PyStr(vs[i]))
  }

  /** `_dict_list_table`: a two-column table of a record's keys and values.
      Anything but a dictionary has no `items` (AttributeError). */
  function DictListTable(d: Json): Result<string>
  {
    if !d.Obj? then Fail(Error(AttributeError, "'" + TypeName(d) + "' object has no attribute 'items'"))
    else TableText(["key", "value"], [Keys(d.fields), Texts(Values(d.fields))])
  }

  /** A record lists as a table of one line per pair, keys on the left and
      values on the right; an empty record is a DynaTableError. */
  lemma DictListShape(fields: seq<(string, Json)>)
    ensures fields == [] ==> DictListTable(Obj(fields)) == Fail(Error(DynaTableError, NoResults))
    ensures fields != [] ==>
      var cols := [Keys(fields), Texts(Values(fields))];
      DynaTable.Assembled(["key", "value"], cols, Summary).Ok?
      && |DynaTable.Assembled(["key", "value"], cols, Summary).value| == |fields| + 3
      && DictListTable(Obj(fields)) == Ok(Lines(DynaTable.Assembled(["key", "value"], cols, Summary).value))
      && forall i :: 0 <= i < |fields| ==> cols[0][i] == fields[i].0 && cols[1][i] == PyStr(fields[i].1)
  {
    var cols := [Keys(fields), Texts(Values(fields))];
    if fields != [] {
      DynaTable.TableShape(["key", "value"], cols, Summary);
    }
  }

  /** The listing of every record of a list, each after a newline. */
  function ListTexts(items: seq<Json>): (r: Result<string>)
  {
    if items == [] then Ok("")
    else
      var n := |items| - 1;
      match ListTexts(items[..n])
      case Fail(e) => Fail(e)
      case Ok(t) =>
        (match DictListTable(items[n])
         case Fail(e) => Fail(e)
         case Ok(x) => Ok(t + "\n" + x))
  }

  lemma ListTextsFailLast(items: seq<Json>)
    requires items != [] && ListTexts(items[..|items| - 1]).Fail?
    ensures ListTexts(items) == ListTexts(items[..|items| - 1])
  {
  }

  /** The listing stops at the first record that fails. */
  lemma {:induction false} ListTextsStops(items: seq<Json>, n: nat)
    requires n <= |items| && ListTexts(items[..n]).Fail?
    ensures ListTexts(items) == ListTexts(items[..n])
    decreases |items| - n
  {
    if n < |items| {
      PrefixStep(items, n);
      ListTextsFailLast(items[..n + 1]);
      ListTextsStops(items, n + 1);
    } else {
      assert items[..n] == items;
    }
  }

  /** `convert_to_list`: the listing of a record, of every record of a list, or
      nothing. */
  function ListText(selected: Json): Result<string>
  {
    match selected
    case Obj(_) => DictListTable(selected)
    case Arr(items) => ListTexts(items)
    case _ => Ok("")
  }

  /** A record `_dict_list_table` can show: a non-empty dictionary. */
  predicate Listable(d: Json)
  {
    d.Obj? && d.fields != []
  }

  /** A record lists exactly when it is a non-empty dictionary. */
  lemma DictListOk(d: Json)
    ensures DictListTable(d).Ok? <==> Listable(d)
  {
    if d.Obj? {
      DictListShape(d.fields);
    }
  }

  /** A list lists exactly when every record in it is a non-empty dictionary. */
  lemma {:induction false} ListTextsOk(items: seq<Json>)
    ensures ListTexts(items).Ok? <==> forall i :: 0 <= i < |items| ==> Listable(items[i])
  {
    if items != [] {
      var n := |items| - 1;
      var prefix := items[..n];
      ListTextsOk(prefix);
      DictListOk(items[n]);
      assert ListTexts(items).Ok? <==> ListTexts(prefix).Ok? && DictListTable(items[n]).Ok?;
      if forall i :: 0 <= i < |items| ==> Listable(items[i]) {
        assert forall i :: 0 <= i < n ==> Listable(prefix[i]) by {
          forall i | 0 <= i < n ensures Listable(prefix[i]) {
            assert prefix[i] == items[i];
          }
        }
      }
      if ListTexts(items).Ok? {
        assert ListTexts(prefix).Ok? && DictListTable(items[n]).Ok?;
        assert Listable(items[n]);
        assert forall i :: 0 <= i < n ==> Listable(prefix[i]);
        forall i | 0 <= i < |items| ensures Listable(items[i]) {
          if i < n {
            assert prefix[i] == items[i];
            assert Listable(prefix[i]);
          } else {
            assert i == n;
          }
        }
      }
    }
  }
}
