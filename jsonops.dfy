/** The dictionary helpers of `RbkcliJsonOps` (rbkcli/base/jsops.py): a flat
    dictionary written as `k=v,k=v` text, that text read back as a JSON object
    string, and a list of flat dictionaries drawn as a DynaTable. */
module JsonOps {
  import opened Wrappers
  import opened Strings
  import opened Json
  import opened Sorting
  import opened DynaTable

  // ---------------------------------------------------------------------
  // `simple_dict_natural`

  /** `'%s=%s' % (str(key), str(value))`. */
  function NaturalPair(k: string, v: Json): string
  {
    k + "=" + PyStr(v)
  }

  function NaturalPairs(fields: seq<(string, Json)>): seq<string>
  {
    seq(|fields|, i requires 0 <= i < |fields| => NaturalPair(fields[i].0, fields[i].1))
  }

  /** The pairs joined with commas. */
  function Natural(fields: seq<(string, Json)>): string
  {
    Join(NaturalPairs(fields), ",")
  }

  /** `simple_dict_natural(simple_dict)`: an empty argument stands for the
      object's own data, which must then be a dictionary. */
  function SimpleDictNatural(jsonData: Json, simpleDict: seq<(string, Json)>): (r: Result<string>)
    ensures simpleDict != [] ==> r == Ok(Natural(simpleDict))
    ensures simpleDict == [] ==> (r.Ok? <==> jsonData.Obj?)
    ensures simpleDict == [] && jsonData.Obj? ==> r == Ok(Natural(jsonData.fields))
  {
    if simpleDict != [] then Ok(Natural(simpleDict))
    else if jsonData.Obj? then Ok(Natural(jsonData.fields))
    else Fail(Error(AttributeError, "object has no attribute 'items'"))
  }

  // ---------------------------------------------------------------------
  // `natural_simple_dictstr`

  /** The text to read: a string, or the first element of a list. */
  function NaturalText(arg: Json): (r: Result<string>)
    ensures arg.Str? ==> r == Ok(arg.s)
    ensures arg.Arr? && arg.items == [] ==> r.Fail? && r.error.kind == IndexError
    ensures r.Ok? ==> arg.Str? || (arg.Arr? && arg.items != [] && arg.items[0] == Str(r.value))
  {
    match arg
    case Str(s) => Ok(s)
    case Arr(items) =>
      if items == [] then Fail(Error(IndexError, "list index out of range"))
      else if items[0].Str? then Ok(items[0].s)
      else Fail(Error(AttributeError, "object has no attribute 'split'"))
    case _ => Fail(Error(AttributeError, "object has no attribute 'split'"))
  }

  /** `'"%s": "%s"' % (key, value)`. */
  function QuotedPair(k: string, v: string): string
  {
    "\"" + k + "\": \"" + v + "\""
  }

  /** Python's message when `key, value = parts` gets `n` parts. */
  function UnpackMessage(n: nat): string
  {
    if n < 2 then "not enough values to unpack (expected 2, got " + IntToString(n) + ")"
    else "too many values to unpack (expected 2)"
  }

  /** The ToolsError text: `'jsops error: ' + str(e) + '\n'`. */
  function ToolsMessage(n: nat): string
  {
    "jsops error: " + UnpackMessage(n) + "\n"
  }

  /** One `k=v` item: exactly one `=` gives the quoted pair, anything else a
      ToolsError carrying the unpacking message. */
  function PairEntry(item: string): (r: Result<string>)
    ensures r.Ok? <==> |Split(item, "=")| == 2
    ensures r.Fail? ==> r.error.kind == ToolsError
  {
    var parts := Split(item, "=");
    if |parts| == 2 then Ok(QuotedPair(parts[0], parts[1]))
    else Fail(Error(ToolsError, ToolsMessage(|parts|)))
  }

  /** The quoted pairs of `items[i..]`, or the error of the first bad item. */
  function PairEntries(items: seq<string>, i: nat): (r: Result<seq<string>>)
    requires i <= |items|
    ensures r.Ok? ==> |r.value| == |items| - i
    decreases |items| - i
  {
    if i == |items| then Ok([])
    else
      match PairEntry(items[i])
      case Fail(e) => Fail(e)
      case Ok(p) =>
        match PairEntries(items, i + 1)
        case Fail(e) => Fail(e)
        case Ok(ps) => Ok([p] + ps)
  }

  /** The entries `ps` put in front of a result. */
  function Prepend(ps: seq<string>, r: Result<seq<string>>): Result<seq<string>>
  {
    if r.Ok? then Ok(ps + r.value) else r
  }

  lemma PairEntriesUnfold(items: seq<string>, i: nat)
    requires i < |items|
    ensures PairEntries(items, i)
      == if PairEntry(items[i]).Fail? then Fail(PairEntry(items[i]).error)
         else Prepend([PairEntry(items[i]).value], PairEntries(items, i + 1))
  {
  }

  lemma PrependNothing(r: Result<seq<string>>)
    ensures Prepend([], r) == r
  {
    if r.Ok? {
      assert [] + r.value == r.value;
    }
  }

  /** `natural_simple_dictstr` on a readable text with good items. */
  lemma NaturalDictTextOk(arg: Json, s: string, ps: seq<string>)
    requires NaturalText(arg) == Ok(s) && PairEntries(Split(s, ","), 0) == Ok(ps)
    ensures NaturalDictText(arg) == Ok("{" + Join(ps, ", ") + "}")
  {
  }

  lemma NaturalDictTextBadItem(arg: Json, s: string, e: Error)
    requires NaturalText(arg) == Ok(s) && PairEntries(Split(s, ","), 0) == Fail(e)
    ensures NaturalDictText(arg) == Fail(e)
  {
  }

  lemma NaturalDictTextNoText(arg: Json, e: Error)
    requires NaturalText(arg) == Fail(e)
    ensures NaturalDictText(arg) == Fail(e)
  {
  }

  lemma PrependTwice(a: seq<string>, b: seq<string>, r: Result<seq<string>>)
    ensures Prepend(a, Prepend(b, r)) == Prepend(a + b, r)
  {
    if r.Ok? {
      assert a + (b + r.value) == (a + b) + r.value;
    }
  }

  /** What `natural_simple_dictstr(natural_str)` returns: `'{' + ', '.join(pairs) + '}'`. */
  function NaturalDictText(arg: Json): Result<string>
  {
    match NaturalText(arg)
    case Fail(e) => Fail(e)
    case Ok(s) =>
      match PairEntries(Split(s, ","), 0)
      case Fail(e) => Fail(e)
      case Ok(ps) => Ok("{" + Join(ps, ", ") + "}")
  }

  /** The JSON object text with every value as a quoted string. */
  function QuotedPairs(fields: seq<(string, Json)>): seq<string>
  {
    seq(|fields|, i requires 0 <= i < |fields| => QuotedPair(fields[i].0, PyStr(fields[i].1)))
  }

  function DictStr(fields: seq<(string, Json)>): string
  {
    "{" + Join(QuotedPairs(fields), ", ") + "}"
  }

  /** Keys and values that survive the `k=v,k=v` text: neither holds `,` or `=`. */
  predicate NaturalSafe(fields: seq<(string, Json)>)
  {
    forall i :: 0 <= i < |fields| ==>
      ',' !in fields[i].0 && '=' !in fields[i].0 && ',' !in PyStr(fields[i].1) && '=' !in PyStr(fields[i].1)
  }

  /** A safe pair splits on `=` into its key and value. */
  lemma PairSplits(k: string, v: string)
    requires '=' !in k && '=' !in v
    ensures PairEntry(k + "=" + v) == Ok(QuotedPair(k, v))
  {
    HeadAbsent(k, "=");
    HeadAbsent(v, "=");
    assert Join([k, v], "=") == k + "=" + v;
    SplitJoin([k, v], "=");
  }

  lemma {:induction false} PairEntriesOfNatural(fields: seq<(string, Json)>, i: nat)
    requires i <= |fields| && NaturalSafe(fields)
    ensures PairEntries(NaturalPairs(fields), i) == Ok(QuotedPairs(fields)[i..])
    decreases |fields| - i
  {
    if i < |fields| {
      PairSplits(fields[i].0, PyStr(fields[i].1));
      assert NaturalPairs(fields)[i] == fields[i].0 + "=" + PyStr(fields[i].1);
      PairEntriesOfNatural(fields, i + 1);
      assert QuotedPairs(fields)[i..] == [QuotedPairs(fields)[i]] + QuotedPairs(fields)[i + 1..];
    }
  }

  /** Reading back the `k=v,k=v` text of a non-empty safe dictionary gives the
      JSON object text of that dictionary, every value quoted as a string. */
  lemma NaturalRoundTrip(fields: seq<(string, Json)>)
    requires fields != [] && NaturalSafe(fields)
    ensures NaturalDictText(Str(Natural(fields))) == Ok(DictStr(fields))
  {
    var pairs := NaturalPairs(fields);
    forall p | p in pairs ensures !Contains(p, ",") {
      var i :| 0 <= i < |pairs| && pairs[i] == p;
      assert ',' !in NaturalPair(fields[i].0, fields[i].1);
      HeadAbsent(p, ",");
    }
    SplitJoin(pairs, ",");
    PairEntriesOfNatural(fields, 0);
    assert QuotedPairs(fields)[0..] == QuotedPairs(fields);
  }

  /** An item without `=` is a ToolsError; the empty text is one such item. */
  lemma MissingEquals(item: string)
    requires '=' !in item
    ensures PairEntry(item) == Fail(Error(ToolsError, ToolsMessage(1)))
    ensures UnpackMessage(1) == "not enough values to unpack (expected 2, got 1)"
  {
    HeadAbsent(item, "=");
    SplitAbsent(item, "=");
    assert DigitChar(1) == '1';
    assert IntToString(1) == "1";
    assert UnpackMessage(1) == "not enough values to unpack (expected 2, got 1)";
  }

  lemma EmptyTextFails()
    ensures NaturalDictText(Str("")).Fail?
    ensures NaturalDictText(Str("")).error.kind == ToolsError
  {
    HeadAbsent("", ",");
    SplitAbsent("", ",");
    MissingEquals("");
  }

  // ---------------------------------------------------------------------
  // `simple_dict_table`

  /** The headers: the given ones, or the sorted keys of the first record. */
  function TableHeaders(records: seq<Json>, headers: seq<string>): (r: Result<seq<string>>)
    ensures headers != [] ==> r == Ok(headers)
    ensures headers == [] && r.Ok? ==>
      records != [] && records[0].Obj? && Sorted(r.value) && multiset(r.value) == multiset(Keys(records[0].fields))
    ensures headers == [] && records == [] ==> r.Fail? && r.error.kind == IndexError
  {
    if headers != [] then Ok(headers)
    else if records == [] then Fail(Error(IndexError, "list index out of range"))
    else if records[0].Obj? then Ok(Sort(Keys(records[0].fields)))
    else Fail(Error(AttributeError, "object has no attribute 'items'"))
  }

  /** `dicio[header]` for one record. */
  function Lookup(record: Json, h: string): (r: Result<Json>)
    ensures r.Ok? <==> record.Obj? && HasKey(record.fields, h)
    ensures r.Ok? ==> Get(record.fields, h) == Some(r.value)
    ensures record.Obj? && !HasKey(record.fields, h) ==> r == Fail(Error(KeyError, h))
  {
    if !record.Obj? then Fail(Error(TypeError, "indices must be integers"))
    else match Get(record.fields, h)
      case None => Fail(Error(KeyError, h))
      case Some(v) => Ok(v)
  }

  /** The column of header `h`: its value in every record, in order. */
  function ColumnValues(records: seq<Json>, h: string): (r: Result<seq<Json>>)
    ensures r.Ok? ==> |r.value| == |records|
    ensures r.Ok? ==> forall i :: 0 <= i < |records| ==> Lookup(records[i], h) == Ok(r.value[i])
    ensures r.Ok? <==> forall i :: 0 <= i < |records| ==> Lookup(records[i], h).Ok?
  {
    if records == [] then Ok([])
    else
      match Lookup(records[0], h)
      case Fail(e) => Fail(e)
      case Ok(v) =>
        match ColumnValues(records[1..], h)
        case Fail(e) => Fail(e)
        case Ok(vs) =>
          assert forall i :: 1 <= i < |records| ==> records[i] == records[1..][i - 1];
          Ok([v] + vs)
  }

  /** The body: one column per header, in header order. */
  function Columns(records: seq<Json>, headers: seq<string>): (r: Result<seq<seq<Json>>>)
    ensures r.Ok? ==> |r.value| == |headers|
    ensures r.Ok? ==> forall c :: 0 <= c < |headers| ==> ColumnValues(records, headers[c]) == Ok(r.value[c])
  {
    if headers == [] then Ok([])
    else
      match ColumnValues(records, headers[0])
      case Fail(e) => Fail(e)
      case Ok(col) =>
        match Columns(records, headers[1..])
        case Fail(e) => Fail(e)
        case Ok(cols) =>
          assert forall c :: 1 <= c < |headers| ==> headers[c] == headers[1..][c - 1];
          Ok([col] + cols)
  }

  /** DynaTable measures and pads every cell as text: anything but a string is
      a TypeError. */
  function CellTexts(col: seq<Json>): (r: Result<seq<string>>)
    ensures r.Ok? <==> forall i :: 0 <= i < |col| ==> col[i].Str?
    ensures r.Ok? ==> |r.value| == |col| && forall i :: 0 <= i < |col| ==> col[i] == Str(r.value[i])
  {
    if col == [] then Ok([])
    else if !col[0].Str? then Fail(Error(TypeError, "object has no len()"))
    else
      match CellTexts(col[1..])
      case Fail(e) =>
        assert !col[1..][FirstNonString(col[1..])].Str?;
        Fail(e)
      case Ok(ts) => Ok([col[0].s] + ts)
  }

  /** The index of a non-string element, when there is one. */
  function FirstNonString(col: seq<Json>): (i: nat)
    requires exists i :: 0 <= i < |col| && !col[i].Str?
    ensures i < |col| && !col[i].Str?
  {
    if !col[0].Str? then 0 else FirstNonString(col[1..]) + 1
  }

  function TextColumns(cols: seq<seq<Json>>): (r: Result<seq<seq<string>>>)
    ensures r.Ok? ==> |r.value| == |cols|
    ensures r.Ok? ==> forall c :: 0 <= c < |cols| ==> CellTexts(cols[c]) == Ok(r.value[c])
  {
    if cols == [] then Ok([])
    else
      match CellTexts(cols[0])
      case Fail(e) => Fail(e)
      case Ok(t) =>
        match TextColumns(cols[1..])
        case Fail(e) => Fail(e)
        case Ok(ts) =>
          assert forall c :: 1 <= c < |cols| ==> cols[c] == cols[1..][c - 1];
          Ok([t] + ts)
  }

  /** The table `simple_dict_table(simple_dict, headers, summary)` returns. */
  function DictTable(records: seq<Json>, headers: seq<string>, summary: string): Result<seq<string>>
  {
    match TableHeaders(records, headers)
    case Fail(e) => Fail(e)
    case Ok(hs) =>
      match Columns(records, hs)
      case Fail(e) => Fail(e)
      case Ok(cols) =>
        match TextColumns(cols)
        case Fail(e) => Fail(e)
        case Ok(texts) => Assembled(hs, texts, summary)
  }

  lemma DictTableOf(records: seq<Json>, headers: seq<string>, summary: string, cols: seq<seq<Json>>, texts: seq<seq<string>>)
    requires headers != [] && Columns(records, headers) == Ok(cols) && TextColumns(cols) == Ok(texts)
    ensures DictTable(records, headers, summary) == Assembled(headers, texts, summary)
  {
  }

  /** Records that all hold every header with a string value. */
  predicate Uniform(records: seq<Json>, headers: seq<string>)
  {
    forall i, c :: 0 <= i < |records| && 0 <= c < |headers| ==>
      Lookup(records[i], headers[c]).Ok? && Lookup(records[i], headers[c]).value.Str?
  }

  lemma UniformColumns(records: seq<Json>, headers: seq<string>)
    requires Uniform(records, headers)
    ensures Columns(records, headers).Ok?
    ensures TextColumns(Columns(records, headers).value).Ok?
    ensures var texts := TextColumns(Columns(records, headers).value).value;
      |texts| == |headers| && forall c :: 0 <= c < |headers| ==> |texts[c]| == |records|
  {
    if headers != [] {
      assert forall c :: 0 <= c < |headers| ==> ColumnValues(records, headers[c]).Ok?;
      UniformColumnsOk(records, headers);
      var cols: seq<seq<Json>> := Columns(records, headers).value;
      forall c | 0 <= c < |cols| ensures forall i :: 0 <= i < |cols[c]| ==> cols[c][i].Str? {
        forall i | 0 <= i < |cols[c]| ensures cols[c][i].Str? {
          assert Lookup(records[i], headers[c]) == Ok(cols[c][i]);
        }
      }
      TextColumnsOk(cols);
    }
  }

  lemma {:induction false} UniformColumnsOk(records: seq<Json>, headers: seq<string>)
    requires forall c :: 0 <= c < |headers| ==> ColumnValues(records, headers[c]).Ok?
    ensures Columns(records, headers).Ok?
  {
    if headers != [] {
      UniformColumnsOk(records, headers[1..]);
    }
  }

  lemma {:induction false} TextColumnsOk(cols: seq<seq<Json>>)
    requires forall c :: 0 <= c < |cols| ==> forall i :: 0 <= i < |cols[c]| ==> cols[c][i].Str?
    ensures TextColumns(cols).Ok?
  {
    if cols != [] {
      TextColumnsOk(cols[1..]);
    }
  }

  /** A non-empty list of records that all hold every header as a string
      draws as a table with the header line, the `=` line, one line per record
      and the summary line when there is a summary; all lines but the summary
      are equally wide. */
  lemma RecordsTable(records: seq<Json>, headers: seq<string>, summary: string)
    requires records != [] && headers != [] && Uniform(records, headers)
    ensures DictTable(records, headers, summary).Ok?
    ensures var t := DictTable(records, headers, summary).value;
      |t| == |records| + 2 + (if summary != "" then 1 else 0) &&
      forall i :: 1 <= i < |records| + 2 ==> |t[i]| == |t[0]|
  {
    UniformColumns(records, headers);
    var cols := Columns(records, headers).value;
    var texts := TextColumns(cols).value;
    DictTableOf(records, headers, summary, cols, texts);
    TableShape(headers, texts, summary);
    var t := Assembled(headers, texts, summary).value;
    assert DictTable(records, headers, summary) == Ok(t);
    assert |texts[0]| == |records|;
    SameWidths(t, |records|);
  }

  lemma SameWidths(t: seq<string>, n: nat)
    requires |t| >= n + 2 && t[1] == Repeat(LineDivision, |t[0]|)
    requires forall i :: 2 <= i < n + 2 ==> |t[i]| == |t[0]|
    ensures forall i :: 1 <= i < n + 2 ==> |t[i]| == |t[0]|
  {
  }

  /** Without headers, the header line lists the first record's keys sorted. */
  lemma DefaultHeaders(records: seq<Json>)
    requires records != [] && records[0].Obj?
    ensures TableHeaders(records, []) == Ok(Sort(Keys(records[0].fields)))
  {
  }

  // ---------------------------------------------------------------------
  // The object

  /** `RbkcliJsonOps` with the data it was built with. */
  class RbkcliJsonOps {
    const jsonData: Json

    constructor (jsonData: Json)
      ensures this.jsonData == jsonData
    {
      this.jsonData := jsonData;
    }

    /** `natural_simple_dictstr` with its loop over the comma-separated items. */
    method NaturalSimpleDictStr(arg: Json) returns (r: Result<string>)
      ensures r == NaturalDictText(arg)
    {
      var text := NaturalText(arg);
      if text.Fail? {
        NaturalDictTextNoText(arg, text.error);
        return Fail(text.error);
      }
      var entries := PairLoop(Split(text.value, ","));
      if entries.Fail? {
        NaturalDictTextBadItem(arg, text.value, entries.error);
        return Fail(entries.error);
      }
      NaturalDictTextOk(arg, text.value, entries.value);
      r := Ok("{" + Join(entries.value, ", ") + "}");
    }

    /** The loop `for item in natural_str`: each item split on `=`. */
    method PairLoop(items: seq<string>) returns (r: Result<seq<string>>)
      ensures r == PairEntries(items, 0)
    {
      var entries: seq<string> := [];
      var i := 0;
      PrependNothing(PairEntries(items, 0));
      while i < |items|
        invariant 0 <= i <= |items|
        invariant PairEntries(items, 0) == Prepend(entries, PairEntries(items, i))
        decreases |items| - i
      {
        PairEntriesUnfold(items, i);
        var entry := PairEntry(items[i]);
        if entry.Fail? {
          return Fail(entry.error);
        }
        PrependTwice(entries, [entry.value], PairEntries(items, i + 1));
        entries := entries + [entry.value];
        i := i + 1;
      }
      assert entries + [] == entries;
      r := Ok(entries);
    }

    /** `simple_dict_table`: the body is built column by column, then drawn by
        a DynaTable. */
    method SimpleDictTable(records: seq<Json>, headers: seq<string>, summary: string) returns (r: Result<seq<string>>)
      ensures r == DictTable(records, headers, summary)
    {
      var hs := TableHeaders(records, headers);
      if hs.Fail? {
        return Fail(hs.error);
      }
      var cols := Columns(records, hs.value);
      if cols.Fail? {
        return Fail(cols.error);
      }
      var texts := TextColumns(cols.value);
      if texts.Fail? {
        return Fail(texts.error);
      }
      var table := new DynaTable(hs.value, texts.value, summary);
      r := table.AssembleTable();
    }
  }
}
