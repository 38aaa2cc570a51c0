// rbkcli's json editors (`jsometa`): an editor holds a request's json data and
// the key map of its documented model, turns requested fields into selection
// definitions, selects the data with them, and renders the selection as a
// table, a key/value listing or an indented tree. The filter, the loop and the
// context editors differ from the plain editor in how they create the
// definitions or what they make of the selection.

module JsonMeta {
  import opened Wrappers
  import opened Strings
  import opened Lists
  import opened Sorting
  import opened Json
  import opened MapKeys
  import opened MapSelection
  import opened FieldRequests
  import opened Editing
  import opened Looping
  import opened Selecting
  import Converting
  import MapDoc
  import ResolveRefs
  import DynaTable
  import Pretty

  /** Which editor: `JsonEditor`, `JsonFilter`, `JsonLooper` or `JsonContextor`. */
  datatype Kind = Editor | Filter | Looper | Contextor

  /** The attributes of an editor. */
  datatype EditorState = EditorState(
    data: Json,              // json_data
    model: Json,             // fields_model
    keyMap: Map,             // json_map
    tableOrder: Json,        // json_map.table_order
    finalFields: Definitions,
    fieldsOrder: seq<string>, // final_fields_order
    selected: Json,          // selected_data
    loopKey: string,
    loopApi: string)

  /** The editor `__init__` leaves: no definitions, nothing listed or selected. */
  function Initial(l: Loaded): (s: EditorState)
    ensures s.data == l.data && s.keyMap == l.keyMap && s.finalFields == [] && s.fieldsOrder == []
  {
    EditorState(l.data, l.model, l.keyMap, l.tableOrder, [], [], Null, "", "")
  }

  // ---------------------------------------------------------------------
  // Specification of the editor's operations

  /** `new_model`: the new data is taken as it is, without validation and
      without unwrapping its `data` key; the model is validated as data, so a
      model given as text must not parse to `[]`; then the key map is rebuilt.
      An error leaves what was assigned before it. */
  function Remodelled(parse: Parser, s: EditorState, data: Json, model: Json): (r: (EditorState, Option<Error>))
    requires ParseShrinks(parse)
    ensures r.0 == s.(data := data, model := r.0.model, keyMap := r.0.keyMap, tableOrder := r.0.tableOrder)
    ensures r.1.None? <==> Validated(parse, model, false).Ok? && ModelMap(parse, data, Validated(parse, model, false).value).Ok?
  {
    var s1 := s.(data := data);
    match Validated(parse, model, false)
    case Fail(e) => (s1, Some(e))
    case Ok(m) =>
      var s2 := s1.(model := m);
      match ModelMap(parse, data, m)
      case Fail(e) => (s2, Some(e))
      case Ok(mm) => (s2.(keyMap := mm.0, tableOrder := mm.1), None)
  }

  /** `_request_creator` of each editor: the definitions and the listed names. */
  function Requested(kind: Kind, s: EditorState, fields: seq<string>): (r: Result<(Definitions, seq<string>)>)
    requires fields != []
    ensures kind != Filter ==> r.Ok?
  {
    if kind == Filter then FilterCreated(s.keyMap, s.tableOrder, fields)
    else Ok(EditorRequests(s.keyMap.full, fields, s.fieldsOrder))
  }

  /** `_validate_req_fields`: false after answering a `?` query with the
      listing, true after creating the definitions. */
  function Validation(kind: Kind, s: EditorState, req: Request): (r: (Result<bool>, EditorState))
  {
    match Normalized(req)
    case Fail(e) => (Fail(e), s)
    case Ok(fields) =>
      if IsQuery(fields) then (Ok(false), s.(selected := Str(Listing(QueryKeys(s.keyMap, fields[0])))))
      else
        match Requested(kind, s, fields)
        case Fail(e) => (Fail(e), s)
        case Ok(q) => (Ok(true), s.(finalFields := q.0, fieldsOrder := q.1))
  }

  /** A loop's outcome as `_iterate_json` returns it, with the APIs sent. */
  function Finished(o: Outcome): (r: (Result<Json>, seq<string>))
    ensures r.1 == o.sent && (r.0.Fail? <==> o.error.Some?)
  {
    if o.error.Some? then (Fail(o.error.value), o.sent) else (Ok(Arr(o.results)), o.sent)
  }

  /** `_iterate_json` of each editor, with the APIs the loop editor sends. */
  function Selected(kind: Kind, parse: Parser, callback: string -> string, s: EditorState): (r: (Result<Json>, seq<string>))
    requires ParseShrinks(parse)
    ensures r.0.Fail? ==> (!s.data.Obj? && !s.data.Arr?) || kind == Looper
    ensures kind != Looper ==> r.1 == []
  {
    match kind
    case Looper => Finished(LoopSelection(callback, parse, s.loopApi, s.loopKey, s.finalFields, s.data))
    case Contextor => (ContextSelection(s.finalFields, parse, s.data), [])
    case _ => (PlainSelection(s.finalFields, parse, s.data), [])
  }

  /** `iterate`: validate the request, select, and keep the selection; the
      context editor then maps the selection itself and lists its simple keys. */
  function Iteration(kind: Kind, parse: Parser, callback: string -> string, s: EditorState, req: Request)
    : (r: (Result<Json>, EditorState, seq<string>))
    requires ParseShrinks(parse)
  {
    var v := Validation(kind, s, req);
    if v.0.Fail? then (Fail(v.0.error), v.1, [])
    else if !v.0.value then (Ok(v.1.selected), v.1, [])
    else Retained(kind, parse, v.1, Selected(kind, parse, callback, v.1))
  }

  /** What `iterate` keeps of a selection: the selection itself; the context
      editor also maps it and lists its simple keys. */
  function Retained(kind: Kind, parse: Parser, t: EditorState, sel: (Result<Json>, seq<string>))
    : (r: (Result<Json>, EditorState, seq<string>))
    requires ParseShrinks(parse)
    ensures r.0 == sel.0 && r.2 == sel.1
    ensures r.1 == t.(selected := r.1.selected, keyMap := r.1.keyMap, fieldsOrder := r.1.fieldsOrder)
    ensures sel.0.Fail? ==> r.1 == t
    ensures sel.0.Ok? ==> r.1.selected == sel.0.value
    ensures kind != Contextor ==> r.1.keyMap == t.keyMap && r.1.fieldsOrder == t.fieldsOrder
  {
    if sel.0.Fail? then (sel.0, t, sel.1)
    else
      var u := t.(selected := sel.0.value);
      if kind == Contextor then
        var m := SelectMap([], parse, sel.0.value);
        (sel.0, u.(keyMap := m, fieldsOrder := ListedNames(QueryKeys(m, "?"))), sel.1)
      else (sel.0, u, sel.1)
  }

  // ---------------------------------------------------------------------
  // Properties of the operations

  /** `new_model` with its default model maps the new data itself and drops
      the table order, whatever the data. */
  lemma RemodelWithoutModel(parse: Parser, s: EditorState, data: Json)
    requires ParseShrinks(parse)
    ensures Remodelled(parse, s, data, Arr([]))
      == (s.(data := data, model := Arr([]), keyMap := SelectMap([], parse, data), tableOrder := Arr([])), None)
  {
    ModelMapOfData(parse, data, Arr([]), "");
  }

  /** The definitions every editor creates have distinct output names, so the
      selection can run on them. */
  lemma RequestedDistinct(kind: Kind, s: EditorState, fields: seq<string>)
    requires fields != [] && Requested(kind, s, fields).Ok?
    ensures Distinct(Names(Requested(kind, s, fields).value.0))
  {
    if kind == Filter {
      FilterCreatedFacts(s.keyMap, s.tableOrder, fields);
    } else {
      EditorRequestsFacts(s.keyMap.full, fields, s.fieldsOrder);
    }
  }

  lemma EditorNamesDistinct(full: seq<string>, fields: seq<string>, order: seq<string>)
    ensures Distinct(Names(EditorRequests(full, fields, order).0))
  {
    EditorRequestsFacts(full, fields, order);
  }

  /** Validating a request changes only the selection (a query) or the
      definitions and the listed names (a request); a failure changes nothing. */
  lemma ValidationKeeps(kind: Kind, s: EditorState, req: Request)
    ensures var v := Validation(kind, s, req);
      (v.0.Fail? ==> v.1 == s)
      && (v.0 == Ok(false) ==> v.1 == s.(selected := v.1.selected))
      && (v.0 == Ok(true) ==> v.1 == s.(finalFields := v.1.finalFields, fieldsOrder := v.1.fieldsOrder))
  {
  }

  /** Validation keeps the definitions' names distinct. */
  lemma ValidationDistinct(kind: Kind, s: EditorState, req: Request)
    requires Distinct(Names(s.finalFields))
    ensures Distinct(Names(Validation(kind, s, req).1.finalFields))
  {
    ValidationKeeps(kind, s, req);
    var n := Normalized(req);
    if n.Ok? && !IsQuery(n.value) && Requested(kind, s, n.value).Ok? {
      RequestedDistinct(kind, s, n.value);
    }
  }

  /** Every editor's definitions keep their names distinct through `iterate`. */
  lemma IterationDistinct(kind: Kind, parse: Parser, callback: string -> string, s: EditorState, req: Request)
    requires ParseShrinks(parse) && Distinct(Names(s.finalFields))
    ensures Distinct(Names(Iteration(kind, parse, callback, s, req).1.finalFields))
  {
    IterationKeeps(kind, parse, callback, s, req);
    ValidationDistinct(kind, s, req);
  }

  /** `iterate` never changes the data, the model, the table order or the loop
      settings; only the context editor replaces the key map; and a request
      that fails leaves the key map and the selection as they were. */
  lemma IterationKeeps(kind: Kind, parse: Parser, callback: string -> string, s: EditorState, req: Request)
    requires ParseShrinks(parse)
    ensures var r := Iteration(kind, parse, callback, s, req);
      r.1.data == s.data && r.1.model == s.model && r.1.tableOrder == s.tableOrder
      && r.1.loopKey == s.loopKey && r.1.loopApi == s.loopApi
      && ((kind != Contextor || r.0.Fail?) ==> r.1.keyMap == s.keyMap)
      && (r.0.Fail? ==> r.1.selected == s.selected)
      && (kind != Looper ==> r.2 == [])
      && r.1.finalFields == Validation(kind, s, req).1.finalFields
      && (kind != Contextor ==> r.1.fieldsOrder == Validation(kind, s, req).1.fieldsOrder)
  {
    ValidationKeeps(kind, s, req);
    var v := Validation(kind, s, req);
    if v.0.Ok? && v.0.value {
      var sel := Selected(kind, parse, callback, v.1);
      assert Iteration(kind, parse, callback, s, req) == Retained(kind, parse, v.1, sel);
    }
  }


  /** A `?` query lists the simple keys of the map as the selection, creating
      no definitions and sending nothing. */
  lemma QueryLists(kind: Kind, parse: Parser, callback: string -> string, s: EditorState)
    requires ParseShrinks(parse)
    ensures var r := Iteration(kind, parse, callback, s, Text("?"));
      r.0 == Ok(Str(Listing(s.keyMap.simpleKeys))) && r.1 == s.(selected := Str(Listing(s.keyMap.simpleKeys))) && r.2 == []
  {
    var listed := s.(selected := Str(Listing(s.keyMap.simpleKeys)));
    QueryValidation(kind, s);
    assert Iteration(kind, parse, callback, s, Text("?")) == (Ok(listed.selected), listed, []);
  }

  /** The bare `?` query validates by answering with the simple keys. */
  lemma QueryValidation(kind: Kind, s: EditorState)
    ensures Validation(kind, s, Text("?")) == (Ok(false), s.(selected := Str(Listing(s.keyMap.simpleKeys))))
  {
    assert StartsWith("?", "?");
    assert Normalized(Text("?")) == Ok(["?"]);
    assert QueryKeys(s.keyMap, "?") == s.keyMap.simpleKeys;
  }

  /** The plain editor lists every requested field after the names it listed
      for earlier requests, which it never clears, and defines one name per
      field that resolves. */
  lemma EditorListsAll(parse: Parser, callback: string -> string, s: EditorState, fields: seq<string>)
    requires ParseShrinks(parse) && fields != [] && "," !in fields && !IsQuery(fields)
    ensures var t := Iteration(Editor, parse, callback, s, Fields(fields)).1;
      |t.fieldsOrder| == |s.fieldsOrder| + |fields| && t.fieldsOrder[..|s.fieldsOrder|] == s.fieldsOrder
      && |t.finalFields| == ResolvedCount(s.keyMap.full, fields)
  {
    IterationKeeps(Editor, parse, callback, s, Fields(fields));
    EditorValidation(s, fields);
    EditorRequestsFacts(s.keyMap.full, fields, s.fieldsOrder);
  }

  /** A list of plain names (no `,`, no `?` query) validates by creating the
      editor's definitions and listing. */
  lemma EditorValidation(s: EditorState, fields: seq<string>)
    requires fields != [] && "," !in fields && !IsQuery(fields)
    ensures var q := EditorRequests(s.keyMap.full, fields, s.fieldsOrder);
      Validation(Editor, s, Fields(fields)) == (Ok(true), s.(finalFields := q.0, fieldsOrder := q.1))
  { }

  // ---------------------------------------------------------------------
  // model_map

  /** A `MapSelect` walk without definitions: the key map of the data. */
  method MapData(parse: Parser, data: Json) returns (m: Map)
    requires ParseShrinks(parse)
    ensures m == SelectMap([], parse, data)
  {
    assert Distinct(Names([]));
    var walker := new MapSelect([]);
    m := walker.MapIt(parse, data);
  }

  /** A `MapResponseDoc` walk: the key map of the documented model. */
  method MapModel(model: Json) returns (r: Result<Map>)
    ensures r == MapDoc.DocMap(model)
  {
    var doc := new MapDoc.MapResponseDoc();
    r := doc.MapIt(model);
  }

  /** `model_map`, walking the data or the documented model. */
  method MakeModelMap(parse: Parser, data: Json, model: Json) returns (r: Result<(Map, Json)>)
    requires ParseShrinks(parse)
    ensures r == ModelMap(parse, data, model)
  {
    if model == Obj([]) || model == Arr([]) {
      var m := MapData(parse, data);
      return Ok((m, Arr([])));
    }
    var response := ResolveRefs.Follow(model, ["doc", "responses", "200"]);
    if response.Fail? {
      return Fail(response.error);
    }
    var schema := ResolveRefs.Follow(response.value, ["schema"]);
    if schema.Fail? {
      return Fail(schema.error);
    }
    var order := TableOrder(response.value);
    if schema.value == Obj([]) {
      var m := MapData(parse, data);
      return Ok((m, order));
    }
    var m := MapModel(model);
    if m.Fail? {
      return Fail(m.error);
    }
    r := Ok((m.value, order));
  }

  /** The attributes `__init__` loads, before the editor exists. */
  method Load(parse: Parser, data: Json, model: Json) returns (r: Result<Loaded>)
    requires ParseShrinks(parse)
    ensures r == Setup(parse, data, model)
  {
    var d := Validated(parse, data, false);
    if d.Fail? {
      return Fail(d.error);
    }
    var unwrapped := Unwrapped(d.value);
    var m := Validated(parse, model, true);
    if m.Fail? {
      return Fail(m.error);
    }
    var mm := MakeModelMap(parse, unwrapped, m.value);
    if mm.Fail? {
      return Fail(mm.error);
    }
    r := Ok(Loaded(unwrapped, m.value, mm.value.0, mm.value.1));
  }

  // ---------------------------------------------------------------------
  // The editor

  class JsonEditor {
    const kind: Kind
    const parse: Parser
    var jsonData: Json
    var fieldsModel: Json
    var jsonMap: Map
    var tableOrder: Json
    var finalFields: Definitions
    var finalFieldsOrder: seq<string>
    var selectedData: Json
    var loopKey: string
    var loopApi: string

    function State(): EditorState
      reads this
    {
      EditorState(jsonData, fieldsModel, jsonMap, tableOrder, finalFields, finalFieldsOrder, selectedData, loopKey, loopApi)
    }

    /** json.loads shortens the text it parses, and the definitions have
        distinct names. */
    ghost predicate Valid()
      reads this
    {
      ParseShrinks(parse) && Distinct(Names(finalFields))
    }

    constructor (kind: Kind, parse: Parser, loaded: Loaded)
      requires ParseShrinks(parse)
      ensures this.kind == kind && this.parse == parse && Valid()
      ensures State() == Initial(loaded)
    {
      this.kind := kind;
      this.parse := parse;
      jsonData, fieldsModel, jsonMap, tableOrder := loaded.data, loaded.model, loaded.keyMap, loaded.tableOrder;
      finalFields, finalFieldsOrder, selectedData := [], [], Null;
      loopKey, loopApi := "", "";
      new;
      assert Names([]) == [];
    }

    /** `__init__`: validate the data and take its `data` key, validate the
        model, and map it. */
    static method Open(kind: Kind, parse: Parser, data: Json, model: Json) returns (r: Result<JsonEditor>)
      requires ParseShrinks(parse)
      ensures r.Fail? <==> Setup(parse, data, model).Fail?
      ensures r.Fail? ==> r.error == Setup(parse, data, model).error
      ensures r.Ok? ==> fresh(r.value) && r.value.kind == kind && r.value.parse == parse && r.value.Valid()
                        && r.value.State() == Initial(Setup(parse, data, model).value)
    {
      var loaded := Load(parse, data, model);
      if loaded.Fail? {
        return Fail(loaded.error);
      }
      var e := new JsonEditor(kind, parse, loaded.value);
      r := Ok(e);
    }

    /** Sets every attribute at once. */
    method Assign(t: EditorState)
      modifies this
      ensures State() == t
    {
      jsonData, fieldsModel, jsonMap, tableOrder := t.data, t.model, t.keyMap, t.tableOrder;
      finalFields, finalFieldsOrder, selectedData := t.finalFields, t.fieldsOrder, t.selected;
      loopKey, loopApi := t.loopKey, t.loopApi;
    }

    /** `new_model` on the editor's attributes. */
    static method Remodel(parse: Parser, s: EditorState, data: Json, model: Json) returns (t: EditorState, err: Option<Error>)
      requires ParseShrinks(parse)
      ensures (t, err) == Remodelled(parse, s, data, model)
    {
      t := s.(data := data);
      var m := Validated(parse, model, false);
      if m.Fail? {
        return t, Some(m.error);
      }
      t := t.(model := m.value);
      var mm := MakeModelMap(parse, data, m.value);
      if mm.Fail? {
        return t, Some(mm.error);
      }
      t := t.(keyMap := mm.value.0, tableOrder := mm.value.1);
      err := None;
    }

    /** `new_model`. */
    method NewModel(data: Json, model: Json) returns (err: Option<Error>)
      requires Valid()
      modifies this
      ensures Valid()
      ensures (State(), err) == Remodelled(parse, old(State()), data, model)
    {
      var t;
      t, err := Remodel(parse, State(), data, model);
      Assign(t);
    }

    // -------------------------------------------------------------------
    // Requests

    /** The loop of `JsonEditor._request_creator`: the definitions, and the
        names listed after `order`. */
    static method EditorRequestLoop(full: seq<string>, fields: seq<string>, order: seq<string>)
      returns (defs: Definitions, listed: seq<string>)
      ensures (defs, listed) == EditorRequests(full, fields, order)
    {
      defs, listed := [], order;
      var i := 0;
      while i < |fields|
        invariant 0 <= i <= |fields|
        invariant (defs, listed) == EditorRequests(full, fields[..i], order)
      {
        var req := ParseField(fields[i]);
        var name := FreshName(Names(defs), ReformatNestedKs(req.field));
        listed := listed + [name];
        var key := GetFieldKey(full, req.field);
        if key.Some? {
          defs := defs + [(name, Defined(req, key.value))];
        }
        assert fields[..i + 1][..i] == fields[..i];
        i := i + 1;
      }
      assert fields[..i] == fields;
    }

    /** `JsonEditor._request_creator`. */
    method EditorRequestCreator(fields: seq<string>)
      requires Valid()
      modifies this
      ensures Valid()
      ensures var q := EditorRequests(old(jsonMap).full, fields, old(finalFieldsOrder));
        State() == old(State()).(finalFields := q.0, fieldsOrder := q.1)
    {
      EditorNamesDistinct(jsonMap.full, fields, finalFieldsOrder);
      var defs, listed := EditorRequestLoop(jsonMap.full, fields, finalFieldsOrder);
      Assign(State().(finalFields := defs, fieldsOrder := listed));
    }

    /** `JsonFilter._get_order_keys`. */
    method GetOrderKeys() returns (r: Result<seq<string>>)
      ensures r == OrderKeys(jsonMap.full, tableOrder)
    {
      var full := jsonMap.full;
      if tableOrder == Arr([]) {
        return Ok(full);
      }
      var fs := OrderFields(tableOrder);
      if fs.Fail? {
        return Fail(fs.error);
      }
      var fields := fs.value;
      var allKeys: seq<string> := [];
      var rest := full;
      var i := 0;
      while i < |fields|
        invariant 0 <= i <= |fields|
        invariant ClaimAll(full, fields, ([], full)) == ClaimAll(full, fields[i..], (allKeys, rest))
      {
        ghost var start := (allKeys, rest);
        assert fields[i..][0] == fields[i] && fields[i..][1..] == fields[i + 1..];
        var j := 0;
        while j < |full|
          invariant 0 <= j <= |full|
          invariant Claim(full, fields[i], start) == Claim(full[j..], fields[i], (allKeys, rest))
        {
          assert full[j..][0] == full[j] && full[j..][1..] == full[j + 1..];
          if Under(full[j], fields[i]) {
            if full[j] !in rest {
              return Fail(Error(ValueError, "list.remove(x): x not in list"));
            }
            allKeys, rest := allKeys + [full[j]], RemoveFirst(rest, full[j]);
          }
          j := j + 1;
        }
        i := i + 1;
      }
      r := Ok(allKeys + rest);
    }

    /** The `KEY=` loop: the simple keys containing the text. */
    static method KeysWith(keys: seq<string>, text: string) returns (r: seq<string>)
      ensures r == KeysContaining(keys, text)
    {
      r := [];
      var i := 0;
      while i < |keys|
        invariant 0 <= i <= |keys|
        invariant KeysContaining(keys, text) == r + KeysContaining(keys[i..], text)
      {
        assert keys[i..][0] == keys[i] && keys[i..][1..] == keys[i + 1..];
        ghost var rest := KeysContaining(keys[i + 1..], text);
        if Strings.Contains(keys[i], text) {
          assert r + ([keys[i]] + rest) == (r + [keys[i]]) + rest;
          r := r + [keys[i]];
        } else {
          assert [] + rest == rest;
        }
        i := i + 1;
      }
      assert KeysContaining(keys[i..], text) == [];
      assert r + [] == r;
    }

    /** The `VALUE=` loop: `,<key><suffix>` per simple key. */
    static method ValueFields(keys: seq<string>, suffix: string) returns (r: string)
      ensures r == ValueRequests(keys, suffix)
    {
      r := "";
      var i := 0;
      while i < |keys|
        invariant 0 <= i <= |keys|
        invariant r == ValueRequests(keys[..i], suffix)
      {
        assert keys[..i + 1][..i] == keys[..i];
        r := r + "," + keys[i] + suffix;
        i := i + 1;
      }
      assert keys[..i] == keys;
    }

    /** The plan of `JsonFilter._request_creator`: the keys whose first levels
        are defined and the requests to apply. */
    method Plan(fields: seq<string>) returns (r: Result<(seq<string>, seq<string>)>)
      requires fields != []
      ensures OrderKeys(jsonMap.full, tableOrder).Fail? ==> r == Fail(OrderKeys(jsonMap.full, tableOrder).error)
      ensures OrderKeys(jsonMap.full, tableOrder).Ok? ==> r == FilterPlan(jsonMap.simpleKeys, OrderKeys(jsonMap.full, tableOrder).value, fields)
    {
      var allKeys := GetOrderKeys();
      if allKeys.Fail? {
        return Fail(allKeys.error);
      }
      if Strings.StartsWith(fields[0], "KEY=") {
        var text := Strings.Replace(fields[0], "KEY=", "");
        if text == "" {
          return Fail(Error(IndexError, "string index out of range"));
        }
        var keys := KeysWith(jsonMap.simpleKeys, text);
        r := Ok((keys, CharStrings(text)));
      } else if Strings.StartsWith(fields[0], "VALUE=") {
        var joined := ValueFields(jsonMap.simpleKeys, Strings.Replace(fields[0], "VALUE", ""));
        r := Ok((jsonMap.simpleKeys, CharStrings(if joined == "" then "" else joined[1..])));
      } else {
        r := Ok((allKeys.value, fields));
      }
    }

    /** The first-level loop: each first level once, defined without filters. */
    static method LevelDefinitions(full: seq<string>, keys: seq<string>) returns (levels: seq<string>, defs: Definitions)
      ensures levels == FirstLevels(keys, []) && defs == LevelDefs(full, levels)
    {
      levels, defs := [], [];
      var j := 0;
      while j < |keys|
        invariant 0 <= j <= |keys|
        invariant FirstLevels(keys, []) == FirstLevels(keys[j..], levels)
        invariant defs == LevelDefs(full, levels)
      {
        assert keys[j..][0] == keys[j] && keys[j..][1..] == keys[j + 1..];
        var line := FirstLevel(keys[j]);
        if line !in levels {
          var key := GetFieldKey(full, line);
          assert LevelDefs(full, levels + [line])
            == LevelDefs(full, levels) + [(line, Definition(KeyOr(key), "", "", "", ""))];
          levels := levels + [line];
          defs := defs + [(line, Definition(KeyOr(key), "", "", "", ""))];
        }
        j := j + 1;
      }
    }

    /** The request loop of `JsonFilter._request_creator`. */
    static method FilterRequestLoop(full: seq<string>, start: Definitions, requests: seq<string>) returns (defs: Definitions)
      ensures defs == FilterRequests(full, start, requests)
    {
      defs := start;
      var i := 0;
      while i < |requests|
        invariant 0 <= i <= |requests|
        invariant defs == FilterRequests(full, start, requests[..i])
      {
        var req := ParseField(requests[i]);
        var key := GetFieldKey(full, req.field);
        defs := PutDef(defs, req.field, Defined(req, KeyOr(key)));
        if key.None? {
          defs := DropDef(defs, req.field);
        }
        assert requests[..i + 1][..i] == requests[..i];
        i := i + 1;
      }
      assert requests[..i] == requests;
    }

    /** The definitions and the listed names `JsonFilter._request_creator`
        makes. */
    method FilterCreate(fields: seq<string>) returns (r: Result<(Definitions, seq<string>)>)
      requires fields != []
      ensures r == FilterCreated(jsonMap, tableOrder, fields)
    {
      var plan := Plan(fields);
      if plan.Fail? {
        return Fail(plan.error);
      }
      var levels, start := LevelDefinitions(jsonMap.full, plan.value.0);
      var defs := FilterRequestLoop(jsonMap.full, start, plan.value.1);
      r := Ok((defs, levels));
    }

    /** `JsonFilter._request_creator`. */
    method FilterRequestCreator(fields: seq<string>) returns (err: Option<Error>)
      requires Valid() && fields != []
      modifies this
      ensures Valid()
      ensures var c := FilterCreated(old(jsonMap), old(tableOrder), fields);
        (c.Fail? ==> err == Some(c.error) && State() == old(State()))
        && (c.Ok? ==> err.None? && State() == old(State()).(finalFields := c.value.0, fieldsOrder := c.value.1))
    {
      var c := FilterCreate(fields);
      if c.Fail? {
        return Some(c.error);
      }
      FilterCreatedFacts(jsonMap, tableOrder, fields);
      Assign(State().(finalFields := c.value.0, fieldsOrder := c.value.1));
      err := None;
    }

    /** `_validate_req_fields`. */
    method ValidateReqFields(req: Request) returns (r: Result<bool>)
      requires Valid()
      modifies this
      ensures Valid()
      ensures (r, State()) == Validation(kind, old(State()), req)
    {
      var fields := Normalized(req);
      if fields.Fail? {
        return Fail(fields.error);
      }
      if IsQuery(fields.value) {
        var text := AvailableText(jsonMap, fields.value[0]);
        Assign(State().(selected := Str(text)));
        return Ok(false);
      }
      if kind == Filter {
        var err := FilterRequestCreator(fields.value);
        if err.Some? {
          return Fail(err.value);
        }
      } else {
        EditorRequestCreator(fields.value);
      }
      r := Ok(true);
    }

    // -------------------------------------------------------------------
    // Selection

    /** A `MapSelect` walk over one value with the definitions. */
    static method SelectValue(defs: Definitions, parse: Parser, data: Json) returns (s: Json)
      requires ParseShrinks(parse) && Distinct(Names(defs))
      ensures s == Select(defs, parse, data)
    {
      var selection := new MapSelect(defs);
      s := selection.IterIt(parse, data);
    }

    /** One record of a list, selected as a one-record list. */
    static method SelectRecord(defs: Definitions, parse: Parser, item: Json) returns (s: Json)
      requires ParseShrinks(parse) && Distinct(Names(defs))
      ensures s == RecordSelection(defs, parse, item)
    {
      s := SelectValue(defs, parse, Arr([item]));
    }

    /** One pass of the plain editor's `_iterate_list`: keep the selection
        unless it selects nothing. */
    static method KeepStep(ghost prefix: seq<Json>, kept: seq<Json>, s: Json) returns (next: seq<Json>)
      requires kept == Kept(prefix)
      ensures next == Kept(prefix + [s])
    {
      assert (prefix + [s])[..|prefix|] == prefix;
      KeptLast(prefix + [s]);
      next := kept;
      if s != Obj([]) {
        next := kept + [s];
      }
    }

    /** The plain editor's and the filter's `_iterate_list`. */
    static method KeepSelections(defs: Definitions, parse: Parser, items: seq<Json>) returns (kept: seq<Json>)
      requires ParseShrinks(parse) && Distinct(Names(defs))
      ensures kept == Kept(Selections(defs, parse, items))
    {
      ghost var sels := Selections(defs, parse, items);
      kept := [];
      var i := 0;
      while i < |items|
        invariant 0 <= i <= |items|
        invariant kept == Kept(sels[..i])
      {
        var s := SelectRecord(defs, parse, items[i]);
        PrefixStep(sels, i);
        kept := KeepStep(sels[..i], kept, s);
        i := i + 1;
      }
      assert sels[..i] == sels;
    }

    /** The context editor's loop over the selected pairs: the values, lists
        spread out. */
    static method SpreadValues(fields: seq<(string, Json)>) returns (vs: seq<Json>)
      ensures vs == Flat(Values(fields))
    {
      vs := [];
      var j := 0;
      while j < |fields|
        invariant 0 <= j <= |fields|
        invariant vs == Flat(Values(fields[..j]))
      {
        assert Values(fields[..j + 1]) == Values(fields[..j]) + [fields[j].1];
        FlatSnoc(Values(fields[..j]), fields[j].1);
        var value := fields[j].1;
        if value.Arr? {
          vs := vs + value.items;
        } else {
          vs := vs + [value];
        }
        j := j + 1;
      }
      assert fields[..j] == fields;
    }

    /** One pass of the context editor's `_iterate_list`: the values of the
        selection, unless it selects nothing. */
    static method ContextStep(ghost prefix: seq<Json>, vs: seq<Json>, s: Json) returns (next: seq<Json>)
      requires vs == ContextList(prefix)
      ensures next == ContextList(prefix + [s])
    {
      assert (prefix + [s])[..|prefix|] == prefix;
      ContextListLast(prefix + [s]);
      next := vs;
      if s != Obj([]) {
        var values: seq<Json> := [];
        if s.Obj? {
          values := SpreadValues(s.fields);
        }
        next := vs + values;
      }
    }

    /** The context editor's `_iterate_list`. */
    static method ContextSelections(defs: Definitions, parse: Parser, items: seq<Json>) returns (vs: seq<Json>)
      requires ParseShrinks(parse) && Distinct(Names(defs))
      ensures vs == ContextList(Selections(defs, parse, items))
    {
      ghost var sels := Selections(defs, parse, items);
      vs := [];
      var i := 0;
      while i < |items|
        invariant 0 <= i <= |items|
        invariant vs == ContextList(sels[..i])
      {
        var s := SelectRecord(defs, parse, items[i]);
        PrefixStep(sels, i);
        vs := ContextStep(sels[..i], vs, s);
        i := i + 1;
      }
      assert sels[..i] == sels;
    }

    /** The annotation of a list reply: `line['loop_<key>'] = value[0]` on
        every line. */
    static method AnnotateLines(items: seq<Json>, name: string, first: Option<Json>) returns (r: Result<seq<Json>>)
      ensures r == AnnotateItems(items, name, first)
    {
      var done: seq<Json> := [];
      var j := 0;
      assert items[j..] == items;
      if AnnotateItems(items, name, first).Ok? {
        assert done + AnnotateItems(items, name, first).value == AnnotateItems(items, name, first).value;
      }
      while j < |items|
        invariant 0 <= j <= |items|
        invariant AnnotateItems(items[j..], name, first).Fail? ==>
          AnnotateItems(items, name, first) == AnnotateItems(items[j..], name, first)
        invariant AnnotateItems(items[j..], name, first).Ok? ==>
          AnnotateItems(items, name, first) == Ok(done + AnnotateItems(items[j..], name, first).value)
      {
        assert items[j..][0] == items[j] && items[j..][1..] == items[j + 1..];
        if first.None? {
          return Fail(Error(IndexError, "list index out of range"));
        }
        var line := items[j];
        if line.Arr? {
          return Fail(Error(TypeError, "list indices must be integers or slices, not str"));
        }
        if !line.Obj? {
          return Fail(Error(TypeError, "'" + TypeName(line) + "' object does not support item assignment"));
        }
        var annotated := Obj(Set(line.fields, name, first.value));
        ghost var rest := AnnotateItems(items[j + 1..], name, first);
        if rest.Ok? {
          assert done + ([annotated] + rest.value) == (done + [annotated]) + rest.value;
        }
        done := done + [annotated];
        j := j + 1;
      }
      assert AnnotateItems(items[j..], name, first) == Ok([]);
      assert done + [] == done;
      r := Ok(done);
    }

    /** The annotation of a reply with every selected pair. */
    static method AnnotateReply(reply: Json, selected: seq<(string, Json)>) returns (r: Result<Json>)
      ensures r == Annotate(reply, selected)
    {
      var current := reply;
      var j := 0;
      while j < |selected|
        invariant 0 <= j <= |selected|
        invariant Annotate(reply, selected) == Annotate(current, selected[j..])
      {
        assert selected[j..][0] == selected[j] && selected[j..][1..] == selected[j + 1..];
        var name := "loop_" + selected[j].0;
        var first := FirstValue(selected[j].1);
        match current {
          case Obj(fields) =>
            if first.None? {
              return Fail(Error(IndexError, "list index out of range"));
            }
            current := Obj(Set(fields, name, first.value));
          case Arr(items) =>
            var lines := AnnotateLines(items, name, first);
            if lines.Fail? {
              return Fail(lines.error);
            }
            current := Arr(lines.value);
          case _ =>
        }
        j := j + 1;
      }
      r := Ok(current);
    }

    /** One pass of `_call_api`: send the API for one value, parse and
        annotate the reply. */
    static method CallOnce(callback: string -> string, parse: Parser, api: string, key: string,
                           selected: seq<(string, Json)>, value: Json, acc: Outcome) returns (r: Outcome)
      requires acc.error.None?
      ensures r == CallOne(callback, parse, api, key, selected, value, acc)
    {
      var text := Substituted(api, key, value);
      if text.Fail? {
        return acc.(error := Some(text.error));
      }
      var reply := parse(callback(text.value));
      if reply.None? {
        return Outcome(acc.results, acc.sent + [text.value], Some(Error(ValueError, "Expecting value")));
      }
      var annotated := AnnotateReply(reply.value, selected);
      if annotated.Fail? {
        return Outcome(acc.results, acc.sent + [text.value], Some(annotated.error));
      }
      r := Outcome(ListProtection(annotated.value, acc.results), acc.sent + [text.value], None);
    }

    /** `_call_api`: one call per value of the loop key. */
    static method CallApi(callback: string -> string, parse: Parser, api: string, key: string,
                          selected: seq<(string, Json)>) returns (o: Outcome)
      ensures o == Calls(callback, parse, api, key, selected)
    {
      var values := LoopValues(selected, key);
      o := Outcome([], [], None);
      var i := 0;
      while i < |values|
        invariant 0 <= i <= |values| && o.error.None?
        invariant Calls(callback, parse, api, key, selected) == CallsFrom(callback, parse, api, key, selected, values[i..], o)
      {
        assert values[i..][0] == values[i] && values[i..][1..] == values[i + 1..];
        var next := CallOnce(callback, parse, api, key, selected, values[i], o);
        if next.error.Some? {
          return next;
        }
        o := next;
        i := i + 1;
      }
    }

    /** One pass of the loop editor's `_iterate_list`: the calls of one
        selection, if it selected anything. */
    static method LoopStep(callback: string -> string, parse: Parser, api: string, key: string,
                           ghost prefix: seq<Json>, o: Outcome, s: Json) returns (next: Outcome)
      requires o == LoopList(callback, parse, api, key, prefix) && o.error.None?
      ensures next == LoopList(callback, parse, api, key, prefix + [s])
    {
      assert (prefix + [s])[..|prefix|] == prefix;
      LoopListLast(callback, parse, api, key, prefix + [s]);
      if s.Obj? && s.fields != [] {
        var c := CallApi(callback, parse, api, key, s.fields);
        next := Outcome(o.results + c.results, o.sent + c.sent, c.error);
      } else {
        next := o;
      }
    }

    /** The loop editor's `_iterate_list`. */
    static method LoopSelections(callback: string -> string, parse: Parser, api: string, key: string,
                                 defs: Definitions, items: seq<Json>) returns (o: Outcome)
      requires ParseShrinks(parse) && Distinct(Names(defs))
      ensures o == LoopList(callback, parse, api, key, Selections(defs, parse, items))
    {
      ghost var sels := Selections(defs, parse, items);
      o := Outcome([], [], None);
      var i := 0;
      while i < |items|
        invariant 0 <= i <= |items| && o.error.None?
        invariant o == LoopList(callback, parse, api, key, sels[..i])
      {
        var s := SelectRecord(defs, parse, items[i]);
        PrefixStep(sels, i);
        o := LoopStep(callback, parse, api, key, sels[..i], o, s);
        if o.error.Some? {
          LoopListStops(callback, parse, api, key, sels, i + 1);
          return;
        }
        i := i + 1;
      }
      assert sels[..i] == sels;
    }

    /** The context editor's values of one selection. */
    static method ValuesOf(selected: Json) returns (vs: seq<Json>)
      ensures vs == ContextValues(selected)
    {
      vs := [];
      if selected.Obj? {
        vs := SpreadValues(selected.fields);
      }
    }

    /** The loop editor's calls for one selected dictionary. */
    static method CallsOf(callback: string -> string, parse: Parser, api: string, key: string, selected: Json)
      returns (o: Outcome)
      ensures o == SelectionCalls(callback, parse, api, key, selected)
    {
      o := Outcome([], [], None);
      if selected.Obj? {
        o := CallApi(callback, parse, api, key, selected.fields);
      }
    }

    /** The plain editor's and the filter's `_iterate_json`. */
    static method PlainSelect(defs: Definitions, parse: Parser, data: Json) returns (r: Result<Json>)
      requires ParseShrinks(parse) && Distinct(Names(defs))
      ensures r == PlainSelection(defs, parse, data)
    {
      match data {
        case Obj(_) =>
          var selected := SelectValue(defs, parse, data);
          r := Ok(selected);
        case Arr(items) =>
          var kept := KeepSelections(defs, parse, items);
          r := Ok(Arr(kept));
        case _ =>
          r := Fail(Unassigned);
      }
    }

    /** The context editor's `_iterate_json`. */
    static method ContextSelect(defs: Definitions, parse: Parser, data: Json) returns (r: Result<Json>)
      requires ParseShrinks(parse) && Distinct(Names(defs))
      ensures r == ContextSelection(defs, parse, data)
    {
      match data {
        case Obj(_) =>
          var selected := SelectValue(defs, parse, data);
          var values := ValuesOf(selected);
          r := Ok(Arr(values));
        case Arr(items) =>
          var values := ContextSelections(defs, parse, items);
          r := Ok(Arr(values));
        case _ =>
          r := Fail(Unassigned);
      }
    }

    /** The loop editor's `_iterate_json`. */
    static method LoopSelect(callback: string -> string, parse: Parser, api: string, key: string,
                             defs: Definitions, data: Json) returns (o: Outcome)
      requires ParseShrinks(parse) && Distinct(Names(defs))
      ensures o == LoopSelection(callback, parse, api, key, defs, data)
    {
      match data {
        case Obj(_) =>
          var selected := SelectValue(defs, parse, data);
          o := CallsOf(callback, parse, api, key, selected);
        case Arr(items) =>
          o := LoopSelections(callback, parse, api, key, defs, items);
        case _ =>
          o := Outcome([], [], Some(Unassigned));
      }
    }

    /** `_iterate_json` of each editor. */
    static method IterateJson(kind: Kind, parse: Parser, callback: string -> string, s: EditorState)
      returns (r: Result<Json>, sent: seq<string>)
      requires ParseShrinks(parse) && Distinct(Names(s.finalFields))
      ensures (r, sent) == Selected(kind, parse, callback, s)
    {
      sent := [];
      if kind == Looper {
        var o := LoopSelect(callback, parse, s.loopApi, s.loopKey, s.finalFields, s.data);
        r, sent := Finished(o).0, o.sent;
      } else if kind == Contextor {
        r := ContextSelect(s.finalFields, parse, s.data);
      } else {
        r := PlainSelect(s.finalFields, parse, s.data);
      }
    }

    /** `iterate`. */
    method Iterate(req: Request, callback: string -> string) returns (r: Result<Json>, sent: seq<string>)
      requires Valid()
      modifies this
      ensures Valid()
      ensures (r, State(), sent) == Iteration(kind, parse, callback, old(State()), req)
    {
      IterationDistinct(kind, parse, callback, State(), req);
      var v := ValidateReqFields(req);
      if v.Fail? {
        return Fail(v.error), [];
      }
      if !v.value {
        return Ok(selectedData), [];
      }
      r, sent := IterateJson(kind, parse, callback, State());
      if r.Fail? {
        return;
      }
      if kind == Contextor {
        var m := MapData(parse, r.value);
        var names := AvailableNames(m, "?");
        Assign(State().(selected := r.value, keyMap := m, fieldsOrder := names));
      } else {
        Assign(State().(selected := r.value));
      }
    }

    /** `JsonLooper.loopit`: take the loop key from the API and iterate. */
    method LoopIt(req: Request, toApi: string, callback: string -> string) returns (r: Result<Json>, sent: seq<string>)
      requires Valid() && kind == Looper
      modifies this
      ensures Valid()
      ensures (r, State(), sent)
        == Iteration(kind, parse, callback, old(State()).(loopKey := LoopKey(toApi), loopApi := toApi), req)
    {
      Assign(State().(loopKey := LoopKey(toApi), loopApi := toApi));
      r, sent := Iterate(req, callback);
    }

    // -------------------------------------------------------------------
    // Rendering

    /** One column of `convert_to_table`. */
    static method RowOf(selected: Json, head: string) returns (r: Result<seq<string>>)
      ensures r == Converting.Row(selected, head)
    {
      match selected
      case Obj(fields) =>
        if HasKey(fields, "data") {
          return Fail(Error(NameError, "name 'data' is not defined"));
        }
        var line := Get(fields, head);
        if line.None? {
          return Fail(Error(KeyError, head));
        }
        r := Ok([PyStr(line.value)]);
      case Arr(items) =>
        var row: seq<string> := [];
        var j := 0;
        while j < |items|
          invariant 0 <= j <= |items| && |row| == j
          invariant forall k :: 0 <= k < j ==> row[k] == Converting.CellText(items[k], head)
        {
          row := row + [Converting.CellText(items[j], head)];
          j := j + 1;
        }
        assert row == seq(|items|, i requires 0 <= i < |items| => Converting.CellText(items[i], head));
        r := Ok(row);
      case _ =>
        r := Ok([]);
    }

    /** The table's lines, each followed by a newline. */
    static method JoinLines(table: seq<string>) returns (s: string)
      ensures s == Converting.Lines(table)
    {
      s := "";
      var k := 0;
      while k < |table|
        invariant 0 <= k <= |table|
        invariant s == Converting.Lines(table[..k])
      {
        assert table[..k + 1][..k] == table[..k];
        s := s + table[k] + "\n";
        k := k + 1;
      }
      assert table[..k] == table;
    }

    /** A DynaTable of the columns, as text; a table without rows is a
        DynaTableError. */
    static method TableOf(headers: seq<string>, columns: seq<seq<string>>) returns (r: Result<string>)
      ensures r == Converting.TableText(headers, columns)
    {
      var table := new DynaTable.DynaTable(headers, columns, Converting.Summary);
      var lines := table.AssembleTable();
      if lines.Fail? {
        return Fail(Error(DynaTableError, Converting.NoResults));
      }
      var s := JoinLines(lines.value);
      r := Ok(s);
    }

    /** `convert_to_table`. */
    method ConvertToTable() returns (r: Result<string>)
      ensures r == Converting.TableString(selectedData, finalFieldsOrder)
    {
      var order := finalFieldsOrder;
      var body: seq<seq<string>> := [];
      var i := 0;
      while i < |order|
        invariant 0 <= i <= |order|
        invariant Converting.Body(selectedData, order[..i]) == Ok(body)
      {
        var row := RowOf(selectedData, order[i]);
        assert order[..i + 1][..i] == order[..i];
        if row.Fail? {
          Converting.BodyStops(selectedData, order, i + 1);
          return Fail(row.error);
        }
        body := body + [row.value];
        i := i + 1;
      }
      assert order[..i] == order;
      r := TableOf(order, body);
    }

    /** `_dict_list_table`. */
    static method DictListTable(d: Json) returns (r: Result<string>)
      ensures r == Converting.DictListTable(d)
    {
      if !d.Obj? {
        return Fail(Error(AttributeError, "'" + TypeName(d) + "' object has no attribute 'items'"));
      }
      var fields := d.fields;
      var keyRow: seq<string> := [];
      var valueRow: seq<string> := [];
      var j := 0;
      while j < |fields|
        invariant 0 <= j <= |fields| && |keyRow| == j && |valueRow| == j
        invariant forall k :: 0 <= k < j ==> keyRow[k] == fields[k].0 && valueRow[k] == PyStr(fields[k].1)
      {
        keyRow := keyRow + [fields[j].0];
        valueRow := valueRow + [PyStr(fields[j].1)];
        j := j + 1;
      }
      assert keyRow == Keys(fields) && valueRow == Converting.Texts(Values(fields));
      r := TableOf(["key", "value"], [keyRow, valueRow]);
    }

    /** `convert_to_list`. */
    method ConvertToList() returns (r: Result<string>)
      ensures r == Converting.ListText(selectedData)
    {
      match selectedData
      case Obj(_) =>
        r := DictListTable(selectedData);
      case Arr(items) =>
        var text := "";
        var i := 0;
        while i < |items|
          invariant 0 <= i <= |items|
          invariant Converting.ListTexts(items[..i]) == Ok(text)
        {
          var t := DictListTable(items[i]);
          assert items[..i + 1][..i] == items[..i];
          if t.Fail? {
            Converting.ListTextsStops(items, i + 1);
            return Fail(t.error);
          }
          text := text + "\n" + t.value;
          i := i + 1;
        }
        assert items[..i] == items;
        r := Ok(text);
      case _ =>
        r := Ok("");
    }

    /** `convert_to_prettyprint`. */
    method ConvertToPrettyprint() returns (s: string)
      ensures s == Pretty.Render(selectedData)
    {
      var printer := new Pretty.PrettyPrint();
      s := printer.IterIt(selectedData);
    }
  }
}
