/** `MapResponseDoc` (rbkcli/base/jsops.py): the key map of an API response,
    read from the Swagger schema of its documented `200` response instead of
    from a response body. */
module MapDoc {
  import opened Wrappers
  import opened Json
  import opened MapKeys

  /** Schema keys that are structure rather than response fields. */
  const ExcludedFields: seq<string> := ["properties", "items", "allOf", "data", "hasMore", "total"]
  /** Schema keys that describe a field rather than name one. */
  const ExcludeProperties: seq<string> := ["type", "format", "description", "required", "enum"]

  /** The names `type_dict` gives to the documented types. */
  const DocKinds: set<string> := {"str", "bool", "int", "dict", "number", "list"}

  /** `str.isupper()` of a one-character string (ASCII letters only). */
  predicate IsUpper(c: char)
  {
    'A' <= c <= 'Z'
  }

  /** `values['type']`, or `'empty'` when `values` is not a dictionary with a
      `type` key (the bare `except` in `_appender`). */
  function DeclaredType(values: Json): (t: Json)
    ensures !values.Obj? ==> t == Str("empty")
  {
    if values.Obj? then
      match Get(values.fields, "type")
      case Some(t) => t
      case None => Str("empty")
    else Str("empty")
  }

  /** `self.type_dict[t]`: KeyError for an undocumented type name (including
      `object`), TypeError for an unhashable list or dictionary. */
  function DocTypeName(t: Json): (r: Result<string>)
    ensures r.Ok? ==> r.value in DocKinds
    ensures r.Ok? <==> t in {Str("string"), Str("boolean"), Str("integer"), Str("empty"), Str("number"), Str("array")}
  {
    match t
    case Str(s) =>
      if s == "string" then Ok("str")
      else if s == "boolean" then Ok("bool")
      else if s == "integer" then Ok("int")
      else if s == "empty" then Ok("dict")
      else if s == "number" then Ok("number")
      else if s == "array" then Ok("list")
      else Fail(Error(KeyError, s))
    case Arr(_) => Fail(Error(TypeError, "unhashable type: 'list'"))
    case Obj(_) => Fail(Error(TypeError, "unhashable type: 'dict'"))
    case _ => Fail(Error(KeyError, PyStr(t)))
  }

  /** A segment the doc map may record: a named, lower-case-led field that is not
      schema structure, with a translated type. */
  predicate DocSegment(s: Segment)
  {
    s.key != "" && s.key !in ExcludedFields && s.key !in ExcludeProperties
    && !IsUpper(s.key[0]) && s.kind in DocKinds
  }

  /** The walk's state: the cursor as segments, the level, every cursor recorded so
      far (`map.full` before deduplication, as segment lists) and `data_tag`. */
  datatype DocState = DocState(cursor: seq<Segment>, level: int, paths: seq<seq<Segment>>, dataTag: bool)

  /** `p` extends the cursor `c` with documented segments deeper than `level`. */
  predicate Below(c: seq<Segment>, level: int, p: seq<Segment>)
  {
    |p| > |c| && p[..|c|] == c
    && forall i :: |c| <= i < |p| ==> DocSegment(p[i]) && p[i].level > level
  }

  /** The state `t` follows `s`: same cursor and level, the recorded cursors only
      grow, by cursors below the current one, and `data_tag` is never reset. */
  predicate Follows(s: DocState, t: DocState)
  {
    t.cursor == s.cursor && t.level == s.level
    && |t.paths| >= |s.paths| && t.paths[..|s.paths|] == s.paths
    && (forall i :: |s.paths| <= i < |t.paths| ==> Below(s.cursor, s.level, t.paths[i]))
    && (s.dataTag ==> t.dataTag)
  }

  lemma FollowsTrans(a: DocState, b: DocState, c: DocState)
    requires Follows(a, b) && Follows(b, c)
    ensures Follows(a, c)
  {
    assert c.paths[..|a.paths|] == c.paths[..|b.paths|][..|a.paths|];
    forall i | |a.paths| <= i < |c.paths| ensures Below(a.cursor, a.level, c.paths[i]) {
      if i < |b.paths| {
        assert c.paths[i] == b.paths[i];
      }
    }
  }

  /** `_iterate_json` with MapResponseDoc's actions: dictionaries visit their
      keys in order, list elements are walked as they are, scalars end the walk. */
  function Walk(j: Json, st: DocState): (r: Result<DocState>)
    requires LevelsAtMost(st.cursor, st.level)
    ensures r.Ok? ==> Follows(st, r.value)
    decreases Size(j), 2, 0
  {
    match j
    case Obj(fields) => WalkFields(fields, 0, st)
    case Arr(items) => WalkItems(items, 0, st)
    case _ => Ok(st)
  }

  function WalkFields(fields: seq<(string, Json)>, i: nat, st: DocState): (r: Result<DocState>)
    requires i <= |fields|
    requires LevelsAtMost(st.cursor, st.level)
    ensures r.Ok? ==> Follows(st, r.value)
    decreases 1 + FieldsSize(fields), 1, |fields| - i
  {
    if i == |fields| then Ok(st)
    else
      FieldSmaller(fields, i);
      match Entry(fields[i].0, fields[i].1, st)
      case Fail(e) => Fail(e)
      case Ok(s) =>
        var r := WalkFields(fields, i + 1, s);
        assert r.Ok? ==> Follows(st, r.value) by {
          if r.Ok? { FollowsTrans(st, s, r.value); }
        }
        r
  }

  function WalkItems(items: seq<Json>, i: nat, st: DocState): (r: Result<DocState>)
    requires i <= |items|
    requires LevelsAtMost(st.cursor, st.level)
    ensures r.Ok? ==> Follows(st, r.value)
    decreases 1 + ItemsSize(items), 1, |items| - i
  {
    if i == |items| then Ok(st)
    else
      ItemSmaller(items, i);
      match Walk(items[i], st)
      case Fail(e) => Fail(e)
      case Ok(s) =>
        var r := WalkItems(items, i + 1, s);
        assert r.Ok? ==> Follows(st, r.value) by {
          if r.Ok? { FollowsTrans(st, s, r.value); }
        }
        r
  }

  /** `_action_dict(keys, values)`: a field name gets a segment (`_appender`),
      its value is walked, and the segment is taken off again (`_remover`); a
      descriptive key is walked without a segment; `data`, and `items` before any
      `data`, raise the level only while their value is walked. An empty key
      that is not structure fails on `keys[0]`. */
  function Entry(k: string, v: Json, st: DocState): (r: Result<DocState>)
    requires LevelsAtMost(st.cursor, st.level)
    ensures r.Ok? ==> Follows(st, r.value)
    decreases Size(v), 4, 0
  {
    if k !in ExcludedFields && k == "" then Fail(Error(IndexError, "string index out of range"))
    else if k !in ExcludedFields && !IsUpper(k[0]) then
      if k !in ExcludeProperties then
        match DocTypeName(DeclaredType(v))
        case Fail(e) => Fail(e)
        case Ok(kind) => FieldEntry(Segment(k, st.level + 1, kind), v, st)
      else Walk(v, st)
    else if k == "data" then RaisedEntry(v, st, true)
    else if k == "items" && !st.dataTag then RaisedEntry(v, st, false)
    else Walk(v, st)
  }

  /** A field: `_appender` puts `seg` on the cursor and records the cursor, the
      value is walked, and `_remover` takes the segment off again. */
  function FieldEntry(seg: Segment, v: Json, st: DocState): (r: Result<DocState>)
    requires LevelsAtMost(st.cursor, st.level) && DocSegment(seg) && seg.level == st.level + 1
    ensures r.Ok? ==> Follows(st, r.value)
    decreases Size(v), 3, 0
  {
    var inner := DocState(st.cursor + [seg], seg.level, st.paths + [st.cursor + [seg]], st.dataTag);
    match Walk(v, inner)
    case Fail(e) => Fail(e)
    case Ok(s) =>
      EnterFollows(st, seg, s);
      Ok(s.(cursor := Without(s.cursor, seg), level := s.level - 1))
  }

  /** `data` (which sets `data_tag`) and `items` before any `data`: the value is
      walked one level deeper, and the level comes back. */
  function RaisedEntry(v: Json, st: DocState, tag: bool): (r: Result<DocState>)
    requires LevelsAtMost(st.cursor, st.level) && (st.dataTag ==> tag)
    ensures r.Ok? ==> Follows(st, r.value)
    decreases Size(v), 3, 0
  {
    var inner := st.(dataTag := tag, level := st.level + 1);
    match Walk(v, inner)
    case Fail(e) => Fail(e)
    case Ok(s) =>
      RaiseFollows(st, inner, s);
      Ok(s.(level := s.level - 1))
  }

  /** Leaving a field: what the walk below the new segment recorded lies below
      the cursor as it was, and `_remover` restores cursor and level. */
  lemma EnterFollows(st: DocState, seg: Segment, s: DocState)
    requires LevelsAtMost(st.cursor, st.level)
    requires DocSegment(seg) && seg.level == st.level + 1
    requires Follows(DocState(st.cursor + [seg], st.level + 1, st.paths + [st.cursor + [seg]], st.dataTag), s)
    ensures Follows(st, s.(cursor := Without(s.cursor, seg), level := s.level - 1))
  {
    var inner := DocState(st.cursor + [seg], st.level + 1, st.paths + [st.cursor + [seg]], st.dataTag);
    LeaveSegment(st.cursor, seg);
    var n := |st.paths|;
    assert s.paths[..|inner.paths|] == inner.paths;
    assert s.paths[..n] == inner.paths[..n] == st.paths;
    forall i | n <= i < |s.paths| ensures Below(st.cursor, st.level, s.paths[i]) {
      if i == n {
        assert s.paths[i] == inner.paths[n] == st.cursor + [seg];
        BelowSelf(st.cursor, st.level, seg);
      } else {
        BelowDeeper(st.cursor, st.level, seg, s.paths[i]);
      }
    }
  }

  /** The cursor with one more documented, deeper segment lies below it. */
  lemma BelowSelf(c: seq<Segment>, level: int, seg: Segment)
    requires DocSegment(seg) && seg.level > level
    ensures Below(c, level, c + [seg])
  {
    assert (c + [seg])[..|c|] == c;
  }

  /** What lies below a deeper cursor lies below the cursor it extends. */
  lemma BelowDeeper(c: seq<Segment>, level: int, seg: Segment, p: seq<Segment>)
    requires DocSegment(seg) && seg.level == level + 1
    requires Below(c + [seg], level + 1, p)
    ensures Below(c, level, p)
  {
    assert p[..|c|] == p[..|c| + 1][..|c|];
    assert p[|c|] == (c + [seg])[|c|] == seg;
  }

  /** Walking a value one level deeper (under `data` or `items`) and coming back
      up leaves the state following the original one. */
  lemma RaiseFollows(st: DocState, inner: DocState, s: DocState)
    requires inner == st.(dataTag := inner.dataTag, level := st.level + 1)
    requires st.dataTag ==> inner.dataTag
    requires Follows(inner, s)
    ensures Follows(st, s.(level := s.level - 1))
  {
    forall i | |st.paths| <= i < |s.paths| ensures Below(st.cursor, st.level, s.paths[i]) {
      assert Below(inner.cursor, inner.level, s.paths[i]);
    }
  }

  /** `json_data[key]` on a parsed value: `None` for a missing key of a
      dictionary (KeyError), TypeError for anything that is not a dictionary. */
  function Lookup(j: Json, k: string): Result<Option<Json>>
  {
    match j
    case Obj(fields) => Ok(Get(fields, k))
    case _ => Fail(Error(TypeError, TypeName(j) + " object is not subscriptable"))
  }

  /** `json_data['doc']['responses']['200']['schema']`, or `{}` on KeyError. */
  function Schema(model: Json): Result<Json>
  {
    match Lookup(model, "doc")
    case Fail(e) => Fail(e)
    case Ok(None) => Ok(Obj([]))
    case Ok(Some(doc)) =>
      match Lookup(doc, "responses")
      case Fail(e) => Fail(e)
      case Ok(None) => Ok(Obj([]))
      case Ok(Some(responses)) =>
        match Lookup(responses, "200")
        case Fail(e) => Fail(e)
        case Ok(None) => Ok(Obj([]))
        case Ok(Some(ok)) =>
          match Lookup(ok, "schema")
          case Fail(e) => Fail(e)
          case Ok(None) => Ok(Obj([]))
          case Ok(Some(schema)) => Ok(schema)
  }

  function Paths(ps: seq<seq<Segment>>): (r: seq<string>)
    ensures |r| == |ps| && forall i :: 0 <= i < |ps| ==> r[i] == Path(ps[i])
  {
    if ps == [] then [] else [Path(ps[0])] + Paths(ps[1..])
  }

  const Start: DocState := DocState([], 0, [], false)

  /** `MapResponseDoc(json_data=model).mapit()`. */
  function DocMap(model: Json): Result<Map>
  {
    match Schema(model)
    case Fail(e) => Fail(e)
    case Ok(schema) =>
      match Walk(schema, Start)
      case Fail(e) => Fail(e)
      case Ok(s) => Ok(AllMaps(Paths(s.paths)))
  }

  /** Every recorded cursor is a non-empty run of documented segments: metadata
      keys, structure keys and capitalised keys never name a segment, and every
      type is one of the translated names. */
  lemma DocMapSegments(model: Json)
    requires DocMap(model).Ok?
    ensures var schema := Schema(model).value;
      var s := Walk(schema, Start).value;
      forall i :: 0 <= i < |s.paths| ==>
        s.paths[i] != [] && forall x :: x in s.paths[i] ==> DocSegment(x) && x.level >= 1
  {
    var s := Walk(Schema(model).value, Start).value;
    forall i | 0 <= i < |s.paths|
      ensures s.paths[i] != [] && forall x :: x in s.paths[i] ==> DocSegment(x) && x.level >= 1
    {
      assert Below([], 0, s.paths[i]);
    }
  }

  /** A key that `_action_dict` turns into a segment. */
  predicate FieldName(k: string)
  {
    k != "" && k !in ExcludedFields && k !in ExcludeProperties && !IsUpper(k[0])
  }

  /** `{"type": "string"}`: a documented string field. */
  const StringField: Json := Obj([("type", Str("string"))])

  /** A dictionary with one key is walked as that key's entry. */
  lemma SingleKey(k: string, v: Json, st: DocState)
    requires LevelsAtMost(st.cursor, st.level)
    ensures Walk(Obj([(k, v)]), st) == Entry(k, v, st)
  {
    var e := Entry(k, v, st);
    if e.Ok? {
      assert WalkFields([(k, v)], 1, e.value) == Ok(e.value);
    }
  }

  /** The `type` key of a field description records nothing. */
  lemma StringFieldWalk(st: DocState)
    requires LevelsAtMost(st.cursor, st.level)
    ensures Walk(StringField, st) == Ok(st)
  {
    assert "type" !in ExcludedFields && "type" in ExcludeProperties;
    assert Entry("type", Str("string"), st) == Ok(st);
    SingleKey("type", Str("string"), st);
  }

  /** A string field is recorded one level below the current one. */
  lemma StringFieldEntry(k: string, st: DocState)
    requires FieldName(k) && LevelsAtMost(st.cursor, st.level)
    ensures Entry(k, StringField, st)
      == Ok(st.(paths := st.paths + [st.cursor + [Segment(k, st.level + 1, "str")]]))
  {
    var seg := Segment(k, st.level + 1, "str");
    assert DocTypeName(DeclaredType(StringField)) == Ok("str") by {
      assert Get(StringField.fields, "type") == Some(Str("string"));
    }
    assert Entry(k, StringField, st) == FieldEntry(seg, StringField, st);
    var inner := DocState(st.cursor + [seg], st.level + 1, st.paths + [st.cursor + [seg]], st.dataTag);
    StringFieldWalk(inner);
    LeaveSegment(st.cursor, seg);
  }

  /** `{"properties": {k: {"type": "string"}}}`: one documented string field. */
  function Properties(k: string): Json
  {
    Obj([("properties", Obj([(k, StringField)]))])
  }

  /** The field of a `properties` block is recorded one level below the current one. */
  lemma PropertiesWalk(k: string, st: DocState)
    requires FieldName(k) && LevelsAtMost(st.cursor, st.level)
    ensures Walk(Properties(k), st)
      == Ok(st.(paths := st.paths + [st.cursor + [Segment(k, st.level + 1, "str")]]))
  {
    var props := Obj([(k, StringField)]);
    StringFieldEntry(k, st);
    SingleKey(k, StringField, st);
    assert "properties" in ExcludedFields;
    assert Entry("properties", props, st) == Walk(props, st);
    SingleKey("properties", props, st);
  }

  /** A top-level property is recorded one level down. */
  lemma PropertyLevel(k: string)
    requires FieldName(k)
    ensures Walk(Properties(k), Start) == Ok(Start.(paths := [[Segment(k, 1, "str")]]))
  {
    PropertiesWalk(k, Start);
    assert Start.paths + [Start.cursor + [Segment(k, 1, "str")]] == [[Segment(k, 1, "str")]];
  }

  /** Under `items` with no `data` seen, the property is one level deeper. */
  lemma ItemsLevel(k: string)
    requires FieldName(k)
    ensures Walk(Obj([("items", Properties(k))]), Start)
      == Ok(Start.(paths := [[Segment(k, 2, "str")]]))
  {
    var deeper := Start.(level := 1);
    var seg := Segment(k, 2, "str");
    PropertiesWalk(k, deeper);
    assert deeper.paths + [deeper.cursor + [seg]] == [[seg]];
    assert "items" in ExcludedFields && "items" != "data";
    assert Start.(dataTag := false, level := Start.level + 1) == deeper;
    assert Entry("items", Properties(k), Start) == RaisedEntry(Properties(k), Start, false);
    SingleKey("items", Properties(k), Start);
  }

  /** Once `data` is seen, `items` is walked without a level of its own. */
  lemma ItemsAfterData(k: string, st: DocState)
    requires FieldName(k) && LevelsAtMost(st.cursor, st.level) && st.dataTag
    ensures Walk(Obj([("items", Properties(k))]), st) == Walk(Properties(k), st)
  {
    assert "items" in ExcludedFields && "items" != "data";
    assert Entry("items", Properties(k), st) == Walk(Properties(k), st);
    SingleKey("items", Properties(k), st);
  }

  /** Under `data` the property is one level deeper too, and the `items` inside
      `data` adds no further level: a paged response (`{data: [...]}`) maps its
      records' fields at the same level as a bare list's. */
  lemma DataItemsLevel(k: string)
    requires FieldName(k)
    ensures Walk(Obj([("data", Obj([("items", Properties(k))]))]), Start)
      == Ok(DocState([], 0, [[Segment(k, 2, "str")]], true))
  {
    var deeper := DocState([], 1, [], true);
    var seg := Segment(k, 2, "str");
    var items := Obj([("items", Properties(k))]);
    ItemsAfterData(k, deeper);
    PropertiesWalk(k, deeper);
    assert deeper.paths + [deeper.cursor + [seg]] == [[seg]];
    assert "data" in ExcludedFields;
    assert Start.(dataTag := true, level := Start.level + 1) == deeper;
    assert Entry("data", items, Start) == RaisedEntry(items, Start, true);
    SingleKey("data", items, Start);
  }

  // ---------------------------------------------------------------------
  // The class

  /** The walker with the fields `_iteration_context` sets up. */
  class MapResponseDoc {
    var cursor: seq<Segment>
    var level: int
    var paths: seq<seq<Segment>>
    var dataTag: bool
    var keyMap: Map

    function State(): DocState
      reads this
    {
      DocState(cursor, level, paths, dataTag)
    }

    constructor ()
      ensures State() == Start
    {
      cursor, level, paths, dataTag := [], 0, [], false;
      keyMap := Map([], [], []);
    }

    /** `mapit()` on a fresh walker: reset, walk the schema, build the maps. */
    method MapIt(model: Json) returns (r: Result<Map>)
      modifies this
      ensures r == DocMap(model)
      ensures r.Ok? ==> keyMap == r.value
    {
      cursor, level, paths, dataTag := [], 0, [], false;
      var schema := Schema(model);
      if schema.Fail? {
        return Fail(schema.error);
      }
      var err := IterateJson(schema.value);
      if err.Some? {
        return Fail(err.value);
      }
      keyMap := GenAllMaps(Paths(paths));
      r := Ok(keyMap);
    }

    method IterateJson(j: Json) returns (err: Option<Error>)
      requires LevelsAtMost(cursor, level)
      modifies this
      ensures var r := Walk(j, old(State()));
        if r.Ok? then err.None? && State() == r.value else err == Some(r.error)
      decreases Size(j), 2, 0
    {
      match j
      case Obj(fields) => err := IterateDict(fields);
      case Arr(items) => err := IterateList(items);
      case _ => err := None;
    }

    method IterateDict(fields: seq<(string, Json)>) returns (err: Option<Error>)
      requires LevelsAtMost(cursor, level)
      modifies this
      ensures var r := WalkFields(fields, 0, old(State()));
        if r.Ok? then err.None? && State() == r.value else err == Some(r.error)
      decreases 1 + FieldsSize(fields), 1, |fields|
    {
      var i := 0;
      while i < |fields|
        invariant 0 <= i <= |fields|
        invariant LevelsAtMost(cursor, level)
        invariant WalkFields(fields, 0, old(State())) == WalkFields(fields, i, State())
        decreases |fields| - i
      {
        FieldSmaller(fields, i);
        err := ActionDict(fields[i].0, fields[i].1);
        if err.Some? {
          return;
        }
        i := i + 1;
      }
      err := None;
    }

    method IterateList(items: seq<Json>) returns (err: Option<Error>)
      requires LevelsAtMost(cursor, level)
      modifies this
      ensures var r := WalkItems(items, 0, old(State()));
        if r.Ok? then err.None? && State() == r.value else err == Some(r.error)
      decreases 1 + ItemsSize(items), 1, |items|
    {
      var i := 0;
      while i < |items|
        invariant 0 <= i <= |items|
        invariant LevelsAtMost(cursor, level)
        invariant WalkItems(items, 0, old(State())) == WalkItems(items, i, State())
        decreases |items| - i
      {
        ItemSmaller(items, i);
        err := IterateJson(items[i]);
        if err.Some? {
          return;
        }
        i := i + 1;
      }
      err := None;
    }

    method ActionDict(k: string, v: Json) returns (err: Option<Error>)
      requires LevelsAtMost(cursor, level)
      modifies this
      ensures var r := Entry(k, v, old(State()));
        if r.Ok? then err.None? && State() == r.value else err == Some(r.error)
      decreases Size(v), 4, 0
    {
      if k !in ExcludedFields && k == "" {
        return Some(Error(IndexError, "string index out of range"));
      }
      if k !in ExcludedFields && !IsUpper(k[0]) {
        if k !in ExcludeProperties {
          err := FieldAction(k, v);
        } else {
          err := IterateJson(v);
        }
      } else if k == "data" {
        err := RaisedAction(v, true);
      } else if k == "items" && !dataTag {
        err := RaisedAction(v, false);
      } else {
        err := IterateJson(v);
      }
    }

    /** `_appender`, the walk of the value and `_remover` for a field name. */
    method FieldAction(k: string, v: Json) returns (err: Option<Error>)
      requires LevelsAtMost(cursor, level) && FieldName(k)
      modifies this
      ensures var t := DocTypeName(DeclaredType(v));
        var r := if t.Ok? then FieldEntry(Segment(k, old(level) + 1, t.value), v, old(State())) else Fail(t.error);
        if r.Ok? then err.None? && State() == r.value else err == Some(r.error)
      decreases Size(v), 3, 0
    {
      var seg;
      seg, err := Appender(k, v);
      if err.Some? {
        return;
      }
      err := IterateJson(v);
      if err.Some? {
        return;
      }
      Remover(seg);
    }

    /** The `data` and `items` branches: one level deeper while the value is
        walked (`data` also sets `data_tag`). */
    method RaisedAction(v: Json, tag: bool) returns (err: Option<Error>)
      requires LevelsAtMost(cursor, level) && (dataTag ==> tag)
      modifies this
      ensures var r := RaisedEntry(v, old(State()), tag);
        if r.Ok? then err.None? && State() == r.value else err == Some(r.error)
      decreases Size(v), 3, 0
    {
      if tag {
        dataTag := true;
      }
      level := level + 1;
      err := IterateJson(v);
      if err.Some? {
        return;
      }
      level := level - 1;
    }

    /** `_appender`: one level deeper, the segment goes on the cursor and the
        cursor into the map. */
    method Appender(k: string, v: Json) returns (seg: Segment, err: Option<Error>)
      requires LevelsAtMost(cursor, level)
      modifies this
      ensures var t := DocTypeName(DeclaredType(v));
        if t.Ok? then
          && err.None? && seg == Segment(k, old(level) + 1, t.value)
          && State() == DocState(old(cursor) + [seg], old(level) + 1, old(paths) + [old(cursor) + [seg]], old(dataTag))
          && LevelsAtMost(cursor, level)
        else err == Some(t.error)
    {
      level := level + 1;
      var t := DocTypeName(DeclaredType(v));
      if t.Fail? {
        return Segment(k, level, ""), Some(t.error);
      }
      seg := Segment(k, level, t.value);
      cursor := cursor + [seg];
      paths := paths + [cursor];
      err := None;
    }

    /** `_remover`: the segment comes off the cursor, one level up. */
    method Remover(seg: Segment)
      modifies this
      ensures cursor == Without(old(cursor), seg) && level == old(level) - 1
      ensures paths == old(paths) && dataTag == old(dataTag)
    {
      cursor := Without(cursor, seg);
      level := level - 1;
    }
  }
}
