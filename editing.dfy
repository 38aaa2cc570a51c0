/** The request side of the JSON editor (`rbkcli/core/handlers/jsometa.py`):
    checking the data and the documentation model it is given, building the key
    map, normalising the requested fields and turning them into the selection
    definitions, for the plain editor and for the filter. */
module Editing {
  import opened Wrappers
  import opened Strings
  import opened Lists
  import opened Sorting
  import opened Json
  import opened MapKeys
  import opened MapSelection
  import opened FieldRequests
  import MapDoc
  import ResolveRefs

  // ---------------------------------------------------------------------
  // Data and model

  const EmptyMessage: string := "Json data can not be empty"

  /** `_validate_json`: a dictionary or a list is taken as it is; anything else
      goes through `json.loads`, text it cannot parse counts as `{}`, and then
      `{}` is refused, and so is `[]` unless the value is the model. */
  function Validated(parse: Parser, data: Json, isModel: bool): (r: Result<Json>)
    ensures data.Obj? || data.Arr? ==> r == Ok(data)
    ensures data.Str? && r.Ok? ==> parse(data.s) == Some(r.value)
    ensures data.Str? && r.Ok? ==> r.value != Obj([]) && (!isModel ==> r.value != Arr([]))
    ensures data.Str? && r.Fail? ==> r.error == Error(BareException, EmptyMessage)
    ensures !data.Str? && !data.Obj? && !data.Arr? ==> r.Fail? && r.error.kind == TypeError
  {
    match data
    case Obj(_) => Ok(data)
    case Arr(_) => Ok(data)
    case Str(s) =>
      var v := if parse(s).Some? then parse(s).value else Obj([]);
      if v == Obj([]) || (v == Arr([]) && !isModel) then Fail(Error(BareException, EmptyMessage))
      else Ok(v)
    case _ => Fail(Error(TypeError, "the JSON object must be str, bytes or bytearray, not " + TypeName(data)))
  }

  /** The content of a `data` key is taken by default. */
  function Unwrapped(d: Json): (r: Json)
    ensures d.Obj? && HasKey(d.fields, "data") ==> Get(d.fields, "data") == Some(r)
    ensures !(d.Obj? && HasKey(d.fields, "data")) ==> r == d
  {
    if d.Obj? && HasKey(d.fields, "data") then Get(d.fields, "data").value else d
  }

  /** The `table_order` of the documented response, `[]` when there is none. */
  function TableOrder(response: Json): Json
  {
    if response.Obj? && HasKey(response.fields, "table_order") then Get(response.fields, "table_order").value
    else Arr([])
  }

  /** `model_map`: the key map the requests are resolved against, and the table
      order. Without a model, or with an empty response schema, the map is the
      data's own; otherwise it is the documented response's. */
  function ModelMap(parse: Parser, data: Json, model: Json): (r: Result<(Map, Json)>)
    requires ParseShrinks(parse)
  {
    if model == Obj([]) || model == Arr([]) then Ok((SelectMap([], parse, data), Arr([])))
    else
      match ResolveRefs.Follow(model, ["doc", "responses", "200"])
      case Fail(e) => Fail(e)
      case Ok(response) =>
        match ResolveRefs.Follow(response, ["schema"])
        case Fail(e) => Fail(e)
        case Ok(schema) =>
          if schema == Obj([]) then Ok((SelectMap([], parse, data), TableOrder(response)))
          else
            match MapDoc.DocMap(model)
            case Fail(e) => Fail(e)
            case Ok(m) => Ok((m, TableOrder(response)))
  }

  /** Without a model the map holds exactly the entries the walk of the data
      visits, and there is no table order. */
  lemma ModelMapOfData(parse: Parser, data: Json, model: Json, key: string)
    requires ParseShrinks(parse) && (model == Obj([]) || model == Arr([]))
    ensures ModelMap(parse, data, model).Ok?
    ensures var r := ModelMap(parse, data, model).value;
      r.1 == Arr([]) && (key in r.0.full <==> Visited(key, Finish([], parse, data).paths))
  {
    InMapIffVisited([], parse, data, key);
  }

  /** What `__init__` leaves in the editor. */
  datatype Loaded = Loaded(data: Json, model: Json, keyMap: Map, tableOrder: Json)

  /** `__init__`: validate the data and take its `data` key, validate the model,
      then build the key map. */
  function Setup(parse: Parser, data: Json, model: Json): (r: Result<Loaded>)
    requires ParseShrinks(parse)
    ensures r.Ok? ==> Validated(parse, data, false).Ok? && Validated(parse, model, true).Ok?
    ensures r.Ok? ==> r.value.data == Unwrapped(Validated(parse, data, false).value)
  {
    match Validated(parse, data, false)
    case Fail(e) => Fail(e)
    case Ok(d) =>
      match Validated(parse, model, true)
      case Fail(e) => Fail(e)
      case Ok(m) =>
        match ModelMap(parse, Unwrapped(d), m)
        case Fail(e) => Fail(e)
        case Ok(mm) => Ok(Loaded(Unwrapped(d), m, mm.0, mm.1))
  }

  // ---------------------------------------------------------------------
  // Requested fields

  /** The requested fields: a comma-separated text or a list of names. */
  datatype Request = Text(text: string) | Fields(names: seq<string>)

  /** `_validate_req_fields`' normalisation: text is split at commas; a list is
      used as it is, but a list holding `','` is split as if it were text, which
      a list cannot do, and an empty list has no first field. */
  function Normalized(req: Request): (r: Result<seq<string>>)
    ensures r.Ok? ==> r.value != []
    ensures req.Text? ==> r.Ok? && Join(r.value, ",") == req.text
    ensures req.Fields? && r.Ok? ==> r.value == req.names
    ensures req.Fields? ==> (r.Fail? <==> req.names == [] || "," in req.names)
  {
    match req
    case Text(t) =>
      JoinSplit(t, ",");
      if Contains(t, ",") then Ok(Split(t, ",")) else Ok([t])
    case Fields(fs) =>
      if "," in fs then Fail(Error(AttributeError, "'list' object has no attribute 'split'"))
      else if fs == [] then Fail(Error(IndexError, "list index out of range"))
      else Ok(fs)
  }

  /** A first field starting with `?` asks for the available names instead. */
  predicate IsQuery(fields: seq<string>)
  {
    fields != [] && StartsWith(fields[0], "?")
  }

  /** The definition of a requested field that resolved to `key`. */
  function Defined(req: FieldRequest, key: string): Definition
  {
    Definition(key, req.filterEq, req.filterAprox, req.filterNot, req.filterNotAprox)
  }

  // ---------------------------------------------------------------------
  // The editor's requests

  /** One pass of `JsonEditor._request_creator`: the field's output name is its
      reformatted name made unique among the names kept so far; the name is
      always listed, and the definition is kept only when the field resolves. */
  function EditorStep(full: seq<string>, acc: (Definitions, seq<string>), field: string): (r: (Definitions, seq<string>))
  {
    var req := ParseField(field);
    var name := Dedup(Elems(Names(acc.0)), ReformatNestedKs(req.field));
    match FieldKey(full, req.field)
    case Some(key) => (acc.0 + [(name, Defined(req, key))], acc.1 + [name])
    case None => (acc.0, acc.1 + [name])
  }

  /** `JsonEditor._request_creator` over all fields: the definitions, and the
      listed names appended to `order`. */
  function EditorRequests(full: seq<string>, fields: seq<string>, order: seq<string>): (r: (Definitions, seq<string>))
    decreases |fields|
  {
    if fields == [] then ([], order)
    else EditorStep(full, EditorRequests(full, fields[..|fields| - 1], order), fields[|fields| - 1])
  }

  /** How many of the fields resolve against the map. */
  function ResolvedCount(full: seq<string>, fields: seq<string>): (n: nat)
    ensures n <= |fields|
    decreases |fields|
  {
    if fields == [] then 0
    else
      var last := if FieldKey(full, ParseField(fields[|fields| - 1]).field).Some? then 1 else 0;
      ResolvedCount(full, fields[..|fields| - 1]) + last
  }

  /** The definitions have distinct output names, each pointing at an entry of
      the map, and each listed after `order`. */
  predicate EditorInv(full: seq<string>, order: seq<string>, acc: (Definitions, seq<string>))
  {
    Distinct(Names(acc.0)) && |order| <= |acc.1| && acc.1[..|order|] == order
    && forall k :: 0 <= k < |acc.0| ==> acc.0[k].1.dictKey in full && acc.0[k].0 in acc.1[|order|..]
  }

  lemma EditorStepKeeps(full: seq<string>, order: seq<string>, acc: (Definitions, seq<string>), field: string)
    requires EditorInv(full, order, acc)
    ensures var r := EditorStep(full, acc, field);
      EditorInv(full, order, r) && |r.1| == |acc.1| + 1
      && |r.0| == |acc.0| + (if FieldKey(full, ParseField(field).field).Some? then 1 else 0)
  {
    var req := ParseField(field);
    var name := Dedup(Elems(Names(acc.0)), ReformatNestedKs(req.field));
    var r := EditorStep(full, acc, field);
    assert r.1 == acc.1 + [name];
    assert r.1[..|order|] == acc.1[..|order|];
    assert r.1[|order|..] == acc.1[|order|..] + [name];
    match FieldKey(full, req.field)
    case None =>
    case Some(key) =>
      var p := (name, Defined(req, key));
      assert r.0 == acc.0 + [p];
      assert Names(r.0) == Names(acc.0) + [name];
      assert name !in Names(acc.0);
  }

  /** The output names of the definitions are distinct, one definition is kept
      per resolved field, every field is listed (unresolved ones too), and every
      definition points at an entry of the map under a listed name. */
  lemma {:induction false} EditorRequestsFacts(full: seq<string>, fields: seq<string>, order: seq<string>)
    ensures var r := EditorRequests(full, fields, order);
      EditorInv(full, order, r) && |r.0| == ResolvedCount(full, fields) && |r.1| == |order| + |fields|
    decreases |fields|
  {
    if fields != [] {
      var init := fields[..|fields| - 1];
      EditorRequestsFacts(full, init, order);
      EditorStepKeeps(full, order, EditorRequests(full, init, order), fields[|fields| - 1]);
    }
  }

  // ---------------------------------------------------------------------
  // The filter's requests

  /** The one-character strings of a text, as iterating a Python string gives. */
  function CharStrings(s: string): (r: seq<string>)
    ensures |r| == |s| && forall i :: 0 <= i < |s| ==> r[i] == [s[i]]
  {
    seq(|s|, i requires 0 <= i < |s| => [s[i]])
  }

  /** The fields of a table order, as `for field in table_order` sees them and
      `'%s' % field` prints them. */
  function OrderFields(t: Json): (r: Result<seq<string>>)
    ensures t.Arr? ==> r.Ok? && |r.value| == |t.items|
    ensures t.Arr? ==> forall i :: 0 <= i < |t.items| ==> r.value[i] == PyStr(t.items[i])
    ensures t.Null? || t.Bool? || t.Num? ==> r.Fail? && r.error.kind == TypeError
  {
    match t
    case Arr(items) => Ok(seq(|items|, i requires 0 <= i < |items| => PyStr(items[i])))
    case Obj(fields) => Ok(Keys(fields))
    case Str(s) => Ok(CharStrings(s))
    case _ => Fail(Error(TypeError, "'" + TypeName(t) + "' object is not iterable"))
  }

  /** The map entry sits under the first-level field. */
  predicate Under(key: string, field: string)
  {
    StartsWith(key, "[" + field + "#")
  }

  /** The map entry sits under one of the fields. */
  predicate UnderSome(key: string, fields: seq<string>)
  {
    exists f :: f in fields && Under(key, f)
  }

  /** The inner loop of `_get_order_keys` for one field of the table order: each
      entry of the map under the field is appended to the ordered keys and
      removed from the remaining ones; removing an entry already taken by an
      earlier field is a ValueError. */
  function Claim(keys: seq<string>, field: string, acc: (seq<string>, seq<string>)): (r: Result<(seq<string>, seq<string>)>)
    decreases |keys|
  {
    if keys == [] then Ok(acc)
    else if Under(keys[0], field) then
      if keys[0] in acc.1 then Claim(keys[1..], field, (acc.0 + [keys[0]], RemoveFirst(acc.1, keys[0])))
      else Fail(Error(ValueError, "list.remove(x): x not in list"))
    else Claim(keys[1..], field, acc)
  }

  /** The outer loop of `_get_order_keys`, over the fields of the table order. */
  function ClaimAll(full: seq<string>, fields: seq<string>, acc: (seq<string>, seq<string>)): (r: Result<(seq<string>, seq<string>)>)
    decreases |fields|
  {
    if fields == [] then Ok(acc)
    else
      match Claim(full, fields[0], acc)
      case Fail(e) => Fail(e)
      case Ok(next) => ClaimAll(full, fields[1..], next)
  }

  /** `_get_order_keys`: with a table order, the entries under its fields in
      that order, then the rest in map order; without one, the map's entries. */
  function OrderKeys(full: seq<string>, order: Json): (r: Result<seq<string>>)
  {
    if order == Arr([]) then Ok(full)
    else
      match OrderFields(order)
      case Fail(e) => Fail(e)
      case Ok(fields) =>
        match ClaimAll(full, fields, ([], full))
        case Fail(e) => Fail(e)
        case Ok(acc) => Ok(acc.0 + acc.1)
  }

  /** A field's pass moves entries from the remaining keys to the ordered ones
      without losing or adding any, and each entry it appends is under it. */
  lemma {:induction false} ClaimKeeps(keys: seq<string>, field: string, acc: (seq<string>, seq<string>))
    requires Claim(keys, field, acc).Ok?
    ensures var r := Claim(keys, field, acc).value;
      multiset(r.0) + multiset(r.1) == multiset(acc.0) + multiset(acc.1)
      && |acc.0| <= |r.0| && r.0[..|acc.0|] == acc.0
      && forall i :: |acc.0| <= i < |r.0| ==> Under(r.0[i], field)
    decreases |keys|
  {
    if keys != [] {
      if Under(keys[0], field) {
        var next := (acc.0 + [keys[0]], RemoveFirst(acc.1, keys[0]));
        RemoveFirstMultiset(acc.1, keys[0]);
        ClaimKeeps(keys[1..], field, next);
        var r := Claim(keys, field, acc).value;
        assert r.0[..|next.0|] == next.0;
        assert r.0[..|acc.0|] == next.0[..|acc.0|];
      } else {
        ClaimKeeps(keys[1..], field, acc);
      }
    }
  }

  lemma {:induction false} ClaimAllKeeps(full: seq<string>, fields: seq<string>, acc: (seq<string>, seq<string>))
    requires ClaimAll(full, fields, acc).Ok?
    ensures var r := ClaimAll(full, fields, acc).value;
      multiset(r.0) + multiset(r.1) == multiset(acc.0) + multiset(acc.1)
      && |acc.0| <= |r.0| && r.0[..|acc.0|] == acc.0
      && forall i :: |acc.0| <= i < |r.0| ==> UnderSome(r.0[i], fields)
    decreases |fields|
  {
    if fields != [] {
      var next := Claim(full, fields[0], acc).value;
      ClaimKeeps(full, fields[0], acc);
      ClaimAllKeeps(full, fields[1..], next);
      assert ClaimAll(full, fields, acc) == ClaimAll(full, fields[1..], next);
      var r := ClaimAll(full, fields, acc).value;
      assert r.0[..|next.0|] == next.0;
      assert r.0[..|acc.0|] == next.0[..|acc.0|];
      forall i | |acc.0| <= i < |r.0| ensures UnderSome(r.0[i], fields) {
        if i < |next.0| {
          assert r.0[i] == next.0[i];
          assert fields[0] in fields;
        } else {
          assert |next.0| <= i < |r.0|;
          assert UnderSome(r.0[i], fields[1..]);
          var f :| f in fields[1..] && Under(r.0[i], f);
          assert f in fields;
        }
      }
      assert multiset(r.0) + multiset(r.1) == multiset(acc.0) + multiset(acc.1);
      assert |acc.0| <= |r.0|;
    } else {
      assert ClaimAll(full, fields, acc) == Ok(acc);
    }
  }

  /** The entries the fields of the table order take, in order. */
  function Claimed(full: seq<string>, order: Json): seq<string>
  {
    if order == Arr([]) || OrderFields(order).Fail? then []
    else
      match ClaimAll(full, OrderFields(order).value, ([], full))
      case Fail(_) => []
      case Ok(acc) => acc.0
  }

  /** The ordered keys are the map's entries rearranged: first those taken by
      the fields of the table order, each under one of them, then the others;
      without a table order they are the map's entries as they are. */
  lemma OrderKeysPermutation(full: seq<string>, order: Json)
    requires OrderKeys(full, order).Ok?
    ensures var r := OrderKeys(full, order).value;
      multiset(r) == multiset(full) && |Claimed(full, order)| <= |r| && r[..|Claimed(full, order)|] == Claimed(full, order)
    ensures order == Arr([]) ==> OrderKeys(full, order).value == full
    ensures forall i :: 0 <= i < |Claimed(full, order)| ==>
      OrderFields(order).Ok? && UnderSome(Claimed(full, order)[i], OrderFields(order).value)
  {
    if order != Arr([]) {
      var fields := OrderFields(order).value;
      ClaimAllKeeps(full, fields, ([], full));
      var acc := ClaimAll(full, fields, ([], full)).value;
      var r := OrderKeys(full, order).value;
      assert r == acc.0 + acc.1;
      assert r[..|acc.0|] == acc.0;
    }
  }

  /** The simple keys containing the text, in map order. */
  function KeysContaining(keys: seq<string>, text: string): (r: seq<string>)
    ensures forall k :: k in r <==> k in keys && Contains(k, text)
    ensures |r| <= |keys|
  {
    if keys == [] then []
    else (if Contains(keys[0], text) then [keys[0]] else []) + KeysContaining(keys[1..], text)
  }

  /** `value_fields` of the `VALUE=` request: `,<key><suffix>` per simple key. */
  function ValueRequests(keys: seq<string>, suffix: string): (r: string)
    ensures r == "" <==> keys == []
    decreases |keys|
  {
    if keys == [] then ""
    else ValueRequests(keys[..|keys| - 1], suffix) + "," + keys[|keys| - 1] + suffix
  }

  /** The keys whose first levels are defined and the requests to apply, after
      the `KEY=` and `VALUE=` forms. Both forms leave the requests as a string,
      which the request loop then reads one character at a time; `KEY=` with
      nothing after it has no first character to test for `VALUE=`. */
  function FilterPlan(simple: seq<string>, allKeys: seq<string>, fields: seq<string>): (r: Result<(seq<string>, seq<string>)>)
    requires fields != []
    ensures !StartsWith(fields[0], "KEY=") && !StartsWith(fields[0], "VALUE=") ==> r == Ok((allKeys, fields))
    ensures StartsWith(fields[0], "KEY=") ==>
      var text := Replace(fields[0], "KEY=", "");
      (r.Ok? <==> text != "")
      && (r.Ok? ==> (forall k :: k in r.value.0 <==> k in simple && Contains(k, text))
                    && |r.value.1| == |text| && forall i :: 0 <= i < |text| ==> r.value.1[i] == [text[i]])
    ensures !StartsWith(fields[0], "KEY=") && StartsWith(fields[0], "VALUE=") ==>
      r.Ok? && r.value.0 == simple && (simple == [] ==> r.value.1 == [])
    ensures r.Ok? ==> forall k :: k in r.value.0 ==> k in simple || k in allKeys
  {
    if StartsWith(fields[0], "KEY=") then
      var text := Replace(fields[0], "KEY=", "");
      if text == "" then Fail(Error(IndexError, "string index out of range"))
      else Ok((KeysContaining(simple, text), CharStrings(text)))
    else if StartsWith(fields[0], "VALUE=") then
      var joined := ValueRequests(simple, Replace(fields[0], "VALUE", ""));
      Ok((simple, CharStrings(if joined == "" then "" else joined[1..])))
    else Ok((allKeys, fields))
  }

  /** A `KEY=` request is applied letter by letter: `KEY=ab` asks for `a` and `b`. */
  lemma KeyRequestByLetters(simple: seq<string>, allKeys: seq<string>)
    ensures FilterPlan(simple, allKeys, ["KEY=ab"]) == Ok((KeysContaining(simple, "ab"), ["a", "b"]))
  {
    var s := "KEY=ab";
    assert StartsWith(s, "KEY=");
    assert CharStrings("ab") == ["a", "b"];
    assert s == "" + "KEY=" + "ab";
    ReplaceFirst("", "KEY=", "ab", "");
    HeadAbsent("ab", "KEY=");
    ReplaceAbsent("ab", "KEY=", "");
    assert Replace(s, "KEY=", "") == "ab";
  }

  /** The first-level name of a map entry: `[a#1#dict][b#2#str]` gives `a`. */
  function FirstLevel(line: string): string
  {
    Replace(Split(Split(line, "]")[0], "#")[0], "[", "")
  }

  /** The first level of a rendered segment is its key. */
  lemma FirstLevelOfOpening(s: Segment)
    requires PlainSegment(s)
    ensures Replace(Split(Opening(s), "#")[0], "[", "") == s.key
  {
    assert Opening(s) == "[" + s.key + "#" + (IntToString(s.level) + "#" + s.kind);
    SplitFirst("[" + s.key, "#", IntToString(s.level) + "#" + s.kind);
    assert "[" + s.key == "" + "[" + s.key;
    ReplaceFirst("", "[", s.key, "");
    HeadAbsent(s.key, "[");
    ReplaceAbsent(s.key, "[", "");
  }

  /** The first level of a rendered path is its first segment's key. */
  lemma FirstLevelOfPath(c: seq<Segment>)
    requires c != [] && PlainSegments(c)
    ensures FirstLevel(Path(c)) == c[0].key
  {
    PathSplits(c);
    assert Split(Path(c), "]")[0] == Opening(c[0]);
    FirstLevelOfOpening(c[0]);
  }

  /** `first_levels`: the first-level names of the keys, each once, in the order
      they first appear, after those already in `acc`. */
  function FirstLevels(keys: seq<string>, acc: seq<string>): (r: seq<string>)
    decreases |keys|
  {
    if keys == [] then acc
    else FirstLevels(keys[1..], if FirstLevel(keys[0]) in acc then acc else acc + [FirstLevel(keys[0])])
  }

  /** The first levels are distinct, every key's first level is among them, and
      each of them is the first level of some key. */
  lemma {:induction false} FirstLevelsFacts(keys: seq<string>, acc: seq<string>)
    requires Distinct(acc)
    ensures var r := FirstLevels(keys, acc);
      Distinct(r) && |acc| <= |r| && r[..|acc|] == acc
      && (forall k :: k in keys ==> FirstLevel(k) in r)
      && (forall n :: n in r ==> n in acc || exists k :: k in keys && FirstLevel(k) == n)
    decreases |keys|
  {
    if keys != [] {
      var x := FirstLevel(keys[0]);
      var next := if x in acc then acc else acc + [x];
      FirstLevelsFacts(keys[1..], next);
      var r := FirstLevels(keys, acc);
      assert r[..|next|] == next;
      assert r[..|acc|] == next[..|acc|];
      assert x in next;
      assert x in r by { assert forall n :: n in next ==> n in r[..|next|]; }
      forall n | n in r ensures n in acc || exists k :: k in keys && FirstLevel(k) == n {
        if n !in acc && n == x {
          assert keys[0] in keys;
        } else if n !in acc {
          var k :| k in keys[1..] && FirstLevel(k) == n;
          assert k in keys;
        }
      }
    }
  }

  /** The unresolved key is recorded as an empty key, which no entry equals. */
  function KeyOr(key: Option<string>): string
  {
    if key.Some? then key.value else ""
  }

  /** The unfiltered definitions of the first levels. */
  function LevelDefs(full: seq<string>, names: seq<string>): (r: Definitions)
    ensures Names(r) == names
  {
    seq(|names|, i requires 0 <= i < |names| => (names[i], Definition(KeyOr(FieldKey(full, names[i])), "", "", "", "")))
  }

  /** `final[k] = d` on the definitions dictionary: in place when `k` is there,
      appended otherwise. */
  function PutDef(defs: Definitions, k: string, d: Definition): (r: Definitions)
    ensures (k, d) in r
  {
    if defs == [] then [(k, d)]
    else if defs[0].0 == k then [(k, d)] + defs[1..]
    else [defs[0]] + PutDef(defs[1..], k, d)
  }

  /** `del final[k]`. */
  function DropDef(defs: Definitions, k: string): (r: Definitions)
    ensures forall p :: p in r <==> p in defs && p.0 != k
  {
    if defs == [] then []
    else if defs[0].0 == k then DropDef(defs[1..], k)
    else [defs[0]] + DropDef(defs[1..], k)
  }

  lemma NamesCons(p: (string, Definition), defs: Definitions)
    ensures Names([p] + defs) == [p.0] + Names(defs)
  {
  }

  lemma DistinctCons(x: string, xs: seq<string>)
    requires x !in xs && Distinct(xs)
    ensures Distinct([x] + xs)
  {
    forall i, j | 0 <= i < j < |[x] + xs| ensures ([x] + xs)[i] != ([x] + xs)[j] {
      if i > 0 {
        assert ([x] + xs)[i] == xs[i - 1];
      }
      assert ([x] + xs)[j] == xs[j - 1];
    }
  }

  lemma DistinctTail(defs: Definitions)
    requires defs != [] && Distinct(Names(defs))
    ensures Distinct(Names(defs[1..])) && defs[0].0 !in Names(defs[1..])
  {
    assert Names(defs[1..]) == Names(defs)[1..];
  }

  /** Setting a name adds it to the names, if it was not there, and keeps them
      distinct. */
  lemma {:induction false} PutDefNames(defs: Definitions, k: string, d: Definition)
    ensures forall n :: n in Names(PutDef(defs, k, d)) <==> n in Names(defs) || n == k
    ensures Distinct(Names(defs)) ==> Distinct(Names(PutDef(defs, k, d)))
  {
    if defs != [] {
      NamesCons(defs[0], defs[1..]);
      assert defs == [defs[0]] + defs[1..];
      if Distinct(Names(defs)) {
        DistinctTail(defs);
      }
      if defs[0].0 == k {
        NamesCons((k, d), defs[1..]);
        if Distinct(Names(defs)) {
          DistinctCons(k, Names(defs[1..]));
        }
      } else {
        PutDefNames(defs[1..], k, d);
        NamesCons(defs[0], PutDef(defs[1..], k, d));
        if Distinct(Names(defs)) {
          DistinctCons(defs[0].0, Names(PutDef(defs[1..], k, d)));
        }
      }
    }
  }

  /** Deleting a name removes it from the names. */
  lemma {:induction false} DropDefNames(defs: Definitions, k: string)
    ensures forall n :: n in Names(DropDef(defs, k)) <==> n in Names(defs) && n != k
  {
    if defs != [] {
      NamesCons(defs[0], defs[1..]);
      assert defs == [defs[0]] + defs[1..];
      DropDefNames(defs[1..], k);
      if defs[0].0 != k {
        NamesCons(defs[0], DropDef(defs[1..], k));
      }
    }
  }

  /** Deleting a name keeps the names distinct. */
  lemma {:induction false} DropDefDistinct(defs: Definitions, k: string)
    requires Distinct(Names(defs))
    ensures Distinct(Names(DropDef(defs, k)))
  {
    if defs != [] {
      DistinctTail(defs);
      DropDefDistinct(defs[1..], k);
      if defs[0].0 != k {
        var rest := DropDef(defs[1..], k);
        DropDefNames(defs[1..], k);
        NamesCons(defs[0], rest);
        DistinctCons(defs[0].0, Names(rest));
      }
    }
  }

  /** One pass of `JsonFilter._request_creator`'s request loop: the field is
      defined under its own name, replacing an earlier definition of that name,
      and removed again when it does not resolve. */
  function FilterStep(full: seq<string>, defs: Definitions, field: string): (r: Definitions)
  {
    var req := ParseField(field);
    var key := FieldKey(full, req.field);
    var put := PutDef(defs, req.field, Defined(req, KeyOr(key)));
    if key.None? then DropDef(put, req.field) else put
  }

  /** After one pass the field's name is defined exactly when it resolves; no
      other name changes. */
  lemma FilterStepNames(full: seq<string>, defs: Definitions, field: string)
    requires Distinct(Names(defs))
    ensures var req := ParseField(field);
      var r := FilterStep(full, defs, field);
      Distinct(Names(r))
      && forall n :: n in Names(r) <==> if n == req.field then FieldKey(full, req.field).Some? else n in Names(defs)
  {
    var req := ParseField(field);
    var key := FieldKey(full, req.field);
    var d := Defined(req, KeyOr(key));
    PutDefNames(defs, req.field, d);
    DropDefNames(PutDef(defs, req.field, d), req.field);
    DropDefDistinct(PutDef(defs, req.field, d), req.field);
  }

  /** `final[k] = d` keeps every entry of another name. */
  lemma {:induction false} PutDefOthers(defs: Definitions, k: string, d: Definition, p: (string, Definition))
    requires p in defs && p.0 != k
    ensures p in PutDef(defs, k, d)
  {
    if defs[0] != p {
      PutDefOthers(defs[1..], k, d, p);
    }
  }

  /** One pass defines a resolving field with its own filters and keeps the
      definition of every other name. */
  lemma FilterStepDefines(full: seq<string>, defs: Definitions, field: string)
    ensures var req := ParseField(field);
      var key := FieldKey(full, req.field);
      key.Some? ==> (req.field, Defined(req, key.value)) in FilterStep(full, defs, field)
    ensures forall p :: p in defs && p.0 != ParseField(field).field ==> p in FilterStep(full, defs, field)
  {
    var req := ParseField(field);
    var d := Defined(req, KeyOr(FieldKey(full, req.field)));
    forall p | p in defs && p.0 != req.field ensures p in FilterStep(full, defs, field) {
      PutDefOthers(defs, req.field, d, p);
    }
  }

  function FilterRequests(full: seq<string>, defs: Definitions, fields: seq<string>): (r: Definitions)
    decreases |fields|
  {
    if fields == [] then defs
    else FilterStep(full, FilterRequests(full, defs, fields[..|fields| - 1]), fields[|fields| - 1])
  }

  /** No later request names the same field as the `i`-th. */
  predicate LastNaming(fields: seq<string>, i: nat)
    requires i < |fields|
  {
    forall j :: i < j < |fields| ==> ParseField(fields[j]).field != ParseField(fields[i]).field
  }

  /** After the request loop the definition names stay distinct, a requested
      field that resolves is defined under its own name, one that does not is
      not defined at all, and every other name was there before; a resolving
      field's definition carries the filters of the last request naming it. */
  lemma {:induction false} FilterRequestsFacts(full: seq<string>, defs: Definitions, fields: seq<string>)
    requires Distinct(Names(defs))
    ensures var r := FilterRequests(full, defs, fields);
      Distinct(Names(r))
      && (forall i :: 0 <= i < |fields| ==>
            (ParseField(fields[i]).field in Names(r) <==> FieldKey(full, ParseField(fields[i]).field).Some?))
      && (forall n :: n in Names(r) ==> n in Names(defs) || exists i :: 0 <= i < |fields| && n == ParseField(fields[i]).field)
      && (forall i :: 0 <= i < |fields| && LastNaming(fields, i) && FieldKey(full, ParseField(fields[i]).field).Some? ==>
            (ParseField(fields[i]).field, Defined(ParseField(fields[i]), FieldKey(full, ParseField(fields[i]).field).value)) in r)
    decreases |fields|
  {
    if fields != [] {
      var init := fields[..|fields| - 1];
      var last := fields[|fields| - 1];
      var acc := FilterRequests(full, defs, init);
      FilterRequestsFacts(full, defs, init);
      var r := FilterRequests(full, defs, fields);
      assert r == FilterStep(full, acc, last);
      FilterStepNames(full, acc, last);
      var req := ParseField(last);
      forall i | 0 <= i < |fields|
        ensures ParseField(fields[i]).field in Names(r) <==> FieldKey(full, ParseField(fields[i]).field).Some?
      {
        if i < |fields| - 1 {
          assert fields[i] == init[i];
        }
      }
      FilterStepDefines(full, acc, last);
      forall i | 0 <= i < |fields| && LastNaming(fields, i) && FieldKey(full, ParseField(fields[i]).field).Some?
        ensures (ParseField(fields[i]).field, Defined(ParseField(fields[i]), FieldKey(full, ParseField(fields[i]).field).value)) in r
      {
        if i < |fields| - 1 {
          assert fields[i] == init[i];
          assert ParseField(last).field != ParseField(fields[i]).field;
          assert LastNaming(init, i) by {
            forall j | i < j < |init| ensures ParseField(init[j]).field != ParseField(init[i]).field {
              assert init[j] == fields[j];
            }
          }
        }
      }
      forall n | n in Names(r) ensures n in Names(defs) || exists i :: 0 <= i < |fields| && n == ParseField(fields[i]).field {
        if n == req.field {
          assert n == ParseField(fields[|fields| - 1]).field;
        } else if n !in Names(defs) {
          var i :| 0 <= i < |init| && n == ParseField(init[i]).field;
          assert fields[i] == init[i];
        }
      }
    }
  }

  /** `JsonFilter._request_creator`: the ordered keys, the first-level
      definitions and then the requests; the listed names are the first levels. */
  function FilterCreated(m: Map, order: Json, fields: seq<string>): (r: Result<(Definitions, seq<string>)>)
    requires fields != []
  {
    match OrderKeys(m.full, order)
    case Fail(e) => Fail(e)
    case Ok(allKeys) =>
      match FilterPlan(m.simpleKeys, allKeys, fields)
      case Fail(e) => Fail(e)
      case Ok(plan) =>
        var levels := FirstLevels(plan.0, []);
        Ok((FilterRequests(m.full, LevelDefs(m.full, levels), plan.1), levels))
  }

  /** The filter lists each first level once, each listed name is the first
      level of an entry of the map, and the definitions have distinct names, so
      the selection can run on them. */
  lemma FilterCreatedFacts(m: Map, order: Json, fields: seq<string>)
    requires fields != [] && FilterCreated(m, order, fields).Ok?
    ensures var r := FilterCreated(m, order, fields).value;
      Distinct(Names(r.0)) && Distinct(r.1)
      && forall n :: n in r.1 ==> exists k :: (k in m.full || k in m.simpleKeys) && FirstLevel(k) == n
  {
    var allKeys := OrderKeys(m.full, order).value;
    OrderKeysPermutation(m.full, order);
    var plan := FilterPlan(m.simpleKeys, allKeys, fields).value;
    var levels := FirstLevels(plan.0, []);
    FirstLevelsFacts(plan.0, []);
    FilterRequestsFacts(m.full, LevelDefs(m.full, levels), plan.1);
    forall n | n in levels ensures exists k :: (k in m.full || k in m.simpleKeys) && FirstLevel(k) == n {
      var k :| k in plan.0 && FirstLevel(k) == n;
      if k !in m.simpleKeys {
        assert k in allKeys;
        assert k in multiset(m.full);
      }
    }
  }
}
