/** `ResolveRef` (rbkcli/base/jsops.py): replaces every `{"$ref": "#/definitions/Name"}`
    entry of a Swagger document by `{"Name": <the definition, itself resolved>}`.
    The walk rebuilds each dictionary the way `JsonIteration._iterate_dict`
    does: every key is deleted and then stored again under the name the action
    returns, so a renamed key moves to the end of the dictionary. */
module ResolveRefs {
  import opened Wrappers
  import opened Strings
  import opened Json

  /** The key that marks a reference. */
  const RefKey: string := "$ref"

  // ---------------------------------------------------------------------
  // `_convert_ref_to_keys`

  /** Drops every `#` and every `/definitions/`; what is left is split on `/`
      after stripping white space when it still holds a `/`. */
  function ConvertRefToKeys(ref: string): (r: seq<string>)
    ensures |r| >= 1
    ensures forall p :: p in r ==> '/' !in p
  {
    var t := Replace(Replace(ref, "#", ""), "/definitions/", "");
    if '/' in t then
      SplitPiecesFree(Strip(t), "/");
      forall p | p in Split(Strip(t), "/") ensures '/' !in p {
        ContainsChar(p, '/');
      }
      Split(Strip(t), "/")
    else [t]
  }

  /** Removing a leading separator that does not occur again leaves the rest. */
  lemma ReplaceLeading(sep: string, s: string)
    requires |sep| > 0 && !Contains(s, sep)
    ensures Replace(sep + s, sep, "") == s
  {
    var t := sep + s;
    assert OccursAt(t, sep, 0);
    assert Find(t, sep) == Some(0);
    assert t[|sep|..] == s;
    SplitAbsent(s, sep);
    assert Split(t, sep) == ["", s];
    assert Join(["", s], "") == "" + "" + Join([s], "");
  }

  /** A name without `/` holds no `/definitions/`. */
  lemma NoDefinitionsIn(name: string)
    requires '/' !in name
    ensures !Contains(name, "/definitions/")
  {
    ContainsIff(name, "/definitions/");
    if exists i :: OccursAt(name, "/definitions/", i) {
      var i :| OccursAt(name, "/definitions/", i);
      OccursHead(name, "/definitions/", i);
      assert false;
    }
  }

  lemma OccursHead(s: string, t: string, i: int)
    requires OccursAt(s, t, i) && |t| > 0
    ensures s[i] == t[0] && t[0] in s
  {
    assert s[i..i + |t|][0] == s[i];
  }

  /** The usual Swagger reference `#/definitions/Name` names one definition. */
  lemma DefinitionRef(name: string)
    requires '/' !in name && '#' !in name
    ensures ConvertRefToKeys("#/definitions/" + name) == [name]
  {
    var rest := "/definitions/" + name;
    assert "#/definitions/" + name == "#" + rest;
    assert '#' !in rest;
    ContainsChar(rest, '#');
    ReplaceLeading("#", rest);
    NoDefinitionsIn(name);
    ReplaceLeading("/definitions/", name);
  }

  // ---------------------------------------------------------------------
  // Resolution

  /** `for nks in ref_keys: definitions = definitions[nks]`: a missing key is a
      KeyError, indexing anything but a dictionary with a string a TypeError. */
  function Follow(d: Json, keys: seq<string>): (r: Result<Json>)
    ensures keys == [] ==> r == Ok(d)
    ensures |keys| == 1 && d.Obj? && Get(d.fields, keys[0]).Some? ==> r == Ok(Get(d.fields, keys[0]).value)
    ensures |keys| >= 1 && !d.Obj? ==> r.Fail? && r.error.kind == TypeError
    ensures |keys| >= 1 && d.Obj? && Get(d.fields, keys[0]).None? ==> r.Fail? && r.error.kind == KeyError
  {
    if keys == [] then Ok(d)
    else match d
      case Obj(fields) =>
        (match Get(fields, keys[0])
         case None => Fail(Error(KeyError, keys[0]))
         case Some(x) => Follow(x, keys[1..]))
      case _ => Fail(Error(TypeError, "string indices must be integers"))
  }

  /** `_iterate_json` with the resolving actions; `fuel` bounds how many
      references may be expanded one inside another, standing for Python's
      recursion limit. */
  function Resolve(defs: Json, j: Json, fuel: nat): Result<Json>
    decreases fuel, Size(j), 2, 0
  {
    match j
    case Obj(fields) => ResolveFields(defs, fields, 0, fields, fuel)
    case Arr(items) => ResolveItems(defs, items, 0, [], fuel)
    case _ => Ok(j)
  }

  /** `_iterate_dict` from the `i`-th pair on, `acc` being `new_dict` so far. */
  function ResolveFields(defs: Json, fields: seq<(string, Json)>, i: nat, acc: seq<(string, Json)>, fuel: nat): Result<Json>
    requires i <= |fields|
    decreases fuel, 1 + FieldsSize(fields), 1, |fields| - i
  {
    if i == |fields| then Ok(Obj(acc))
    else
      FieldSmaller(fields, i);
      var rest := Del(acc, fields[i].0);
      match ResolveField(defs, fields[i].0, fields[i].1, fuel)
      case Fail(e) => Fail(e)
      case Ok(kv) => ResolveFields(defs, fields, i + 1, Set(rest, kv.0, kv.1), fuel)
  }

  /** `_iterate_list` from the `i`-th element on. */
  function ResolveItems(defs: Json, items: seq<Json>, i: nat, acc: seq<Json>, fuel: nat): Result<Json>
    requires i <= |items|
    decreases fuel, 1 + ItemsSize(items), 1, |items| - i
  {
    if i == |items| then Ok(Arr(acc))
    else
      ItemSmaller(items, i);
      match Resolve(defs, items[i], fuel)
      case Fail(e) => Fail(e)
      case Ok(x) => ResolveItems(defs, items, i + 1, acc + [x], fuel)
  }

  /** `_action_dict`: a `$ref` pair is replaced by its definition, any other
      pair keeps its key and has its value resolved. */
  function ResolveField(defs: Json, k: string, v: Json, fuel: nat): (r: Result<(string, Json)>)
    ensures k != RefKey && r.Ok? ==> r.value.0 == k
    ensures k == RefKey && r.Ok? ==> v.Str? && r.value.0 == Last(ConvertRefToKeys(v.s))
    decreases fuel, Size(v), 4, 0
  {
    if k == RefKey then ResolveRefField(defs, v, fuel)
    else ResolveOtherField(defs, k, v, fuel)
  }

  /** The `$ref` branch: the reference names a definition, which is resolved in
      turn and stored under the last key of the reference. A reference that is
      not a string has no `replace`. */
  function ResolveRefField(defs: Json, v: Json, fuel: nat): (r: Result<(string, Json)>)
    ensures r.Ok? ==> v.Str? && r.value.0 == Last(ConvertRefToKeys(v.s)) && '/' !in r.value.0
    ensures v.Str? && Follow(defs, ConvertRefToKeys(v.s)).Fail? ==> r == Fail(Follow(defs, ConvertRefToKeys(v.s)).error)
    ensures !v.Str? ==> r.Fail? && r.error.kind == AttributeError
    decreases fuel, Size(v), 3, 0
  {
    if !v.Str? then Fail(Error(AttributeError, "object has no attribute 'replace'"))
    else
      var keys := ConvertRefToKeys(v.s);
      match Follow(defs, keys)
      case Fail(e) => Fail(e)
      case Ok(d) =>
        if fuel == 0 then Fail(Error(RecursionError, "maximum recursion depth exceeded"))
        else
          match Resolve(defs, d, fuel - 1)
          case Fail(e) => Fail(e)
          case Ok(x) => Ok((Last(keys), x))
  }

  lemma RefFieldResolved(defs: Json, s: string, d: Json, fuel: nat, x: Json)
    requires Follow(defs, ConvertRefToKeys(s)) == Ok(d) && fuel > 0 && Resolve(defs, d, fuel - 1) == Ok(x)
    ensures ResolveRefField(defs, Str(s), fuel) == Ok((Last(ConvertRefToKeys(s)), x))
  {
  }

  lemma RefFieldNotString(defs: Json, v: Json, fuel: nat)
    requires !v.Str?
    ensures ResolveRefField(defs, v, fuel) == Fail(Error(AttributeError, "object has no attribute 'replace'"))
  {
  }

  lemma RefFieldMissing(defs: Json, s: string, fuel: nat, e: Error)
    requires Follow(defs, ConvertRefToKeys(s)) == Fail(e)
    ensures ResolveRefField(defs, Str(s), fuel) == Fail(e)
  {
  }

  lemma RefFieldExhausted(defs: Json, s: string, d: Json)
    requires Follow(defs, ConvertRefToKeys(s)) == Ok(d)
    ensures ResolveRefField(defs, Str(s), 0) == Fail(Error(RecursionError, "maximum recursion depth exceeded"))
  {
  }

  lemma RefFieldFailed(defs: Json, s: string, d: Json, fuel: nat, e: Error)
    requires Follow(defs, ConvertRefToKeys(s)) == Ok(d) && fuel > 0 && Resolve(defs, d, fuel - 1) == Fail(e)
    ensures ResolveRefField(defs, Str(s), fuel) == Fail(e)
  {
  }

  /** Any other pair: the key stays, the value is resolved. */
  function ResolveOtherField(defs: Json, k: string, v: Json, fuel: nat): (r: Result<(string, Json)>)
    ensures r.Ok? ==> r.value.0 == k
    ensures r.Ok? <==> Resolve(defs, v, fuel).Ok?
    decreases fuel, Size(v), 3, 0
  {
    match Resolve(defs, v, fuel)
    case Fail(e) => Fail(e)
    case Ok(x) => Ok((k, x))
  }

  /** `ref_keys[-1]`. */
  function Last(keys: seq<string>): (r: string)
    requires |keys| >= 1
    ensures r in keys
  {
    keys[|keys| - 1]
  }

  // ---------------------------------------------------------------------
  // Documents without references

  /** Every dictionary has unique keys, as Python's do, and none holds `$ref`. */
  predicate Plain(j: Json)
    decreases Size(j), 1, 0
  {
    match j
    case Obj(fields) => UniqueKeys(fields) && PlainFields(fields, 0)
    case Arr(items) => PlainItems(items, 0)
    case _ => true
  }

  predicate PlainFields(fields: seq<(string, Json)>, i: nat)
    requires i <= |fields|
    decreases 1 + FieldsSize(fields), 0, |fields| - i
  {
    i == |fields| ||
      (FieldSmaller(fields, i);
       fields[i].0 != RefKey && Plain(fields[i].1) && PlainFields(fields, i + 1))
  }

  predicate PlainItems(items: seq<Json>, i: nat)
    requires i <= |items|
    decreases 1 + ItemsSize(items), 0, |items| - i
  {
    i == |items| ||
      (ItemSmaller(items, i);
       Plain(items[i]) && PlainItems(items, i + 1))
  }

  lemma {:induction false} DelAbsent(fields: seq<(string, Json)>, k: string)
    requires forall m :: 0 <= m < |fields| ==> fields[m].0 != k
    ensures Del(fields, k) == fields
  {
    if fields != [] {
      DelAbsent(fields[1..], k);
    }
  }

  lemma {:induction false} DelAppend(a: seq<(string, Json)>, b: seq<(string, Json)>, k: string)
    ensures Del(a + b, k) == Del(a, k) + Del(b, k)
  {
    if a != [] {
      assert (a + b)[1..] == a[1..] + b;
      DelAppend(a[1..], b, k);
    } else {
      assert a + b == b;
    }
  }

  /** Deleting the key of the pair in front of a rotated dictionary drops that
      pair and nothing else. */
  lemma DelRotated(fields: seq<(string, Json)>, i: nat)
    requires UniqueKeys(fields) && i < |fields|
    ensures Del(fields[i..] + fields[..i], fields[i].0) == fields[i + 1..] + fields[..i]
  {
    var k := fields[i].0;
    assert fields[i..] == [fields[i]] + fields[i + 1..];
    DelAppend([fields[i]], fields[i + 1..], k);
    DelAppend(fields[i..], fields[..i], k);
    assert Del([fields[i]], k) == [];
    DelAbsent(fields[i + 1..], k);
    DelAbsent(fields[..i], k);
  }

  /** Moving the front pair of a rotated dictionary to the back advances it. */
  lemma SetRotated(fields: seq<(string, Json)>, i: nat)
    requires UniqueKeys(fields) && i < |fields|
    ensures Set(fields[i + 1..] + fields[..i], fields[i].0, fields[i].1) == fields[i + 1..] + fields[..i + 1]
  {
    var rest := fields[i + 1..] + fields[..i];
    assert !HasKey(rest, fields[i].0);
    SetAbsent(rest, fields[i].0, fields[i].1);
    assert fields[..i + 1] == fields[..i] + [fields[i]];
  }

  /** A document without references resolves to itself: every key is deleted
      and stored again in the same order, with the same value. */
  lemma {:induction false} ResolvePlain(defs: Json, j: Json, fuel: nat)
    requires Plain(j)
    ensures Resolve(defs, j, fuel) == Ok(j)
    decreases Size(j), 2, 0
  {
    match j
    case Obj(fields) =>
      assert fields[0..] + fields[..0] == fields;
      FieldsPlain(defs, fields, 0, fuel);
    case Arr(items) =>
      assert items[..0] == [];
      ItemsPlain(defs, items, 0, fuel);
    case _ =>
  }

  lemma {:induction false} FieldsPlain(defs: Json, fields: seq<(string, Json)>, i: nat, fuel: nat)
    requires i <= |fields| && UniqueKeys(fields) && PlainFields(fields, i)
    ensures ResolveFields(defs, fields, i, fields[i..] + fields[..i], fuel) == Ok(Obj(fields))
    decreases 1 + FieldsSize(fields), 1, |fields| - i
  {
    if i == |fields| {
      assert fields[i..] + fields[..i] == fields;
    } else {
      FieldSmaller(fields, i);
      ResolvePlain(defs, fields[i].1, fuel);
      assert ResolveField(defs, fields[i].0, fields[i].1, fuel) == Ok(fields[i]);
      DelRotated(fields, i);
      SetRotated(fields, i);
      FieldsPlain(defs, fields, i + 1, fuel);
    }
  }

  lemma {:induction false} ItemsPlain(defs: Json, items: seq<Json>, i: nat, fuel: nat)
    requires i <= |items| && PlainItems(items, i)
    ensures ResolveItems(defs, items, i, items[..i], fuel) == Ok(Arr(items))
    decreases 1 + ItemsSize(items), 1, |items| - i
  {
    if i == |items| {
      assert items[..i] == items;
    } else {
      ItemSmaller(items, i);
      ResolvePlain(defs, items[i], fuel);
      assert items[..i] + [items[i]] == items[..i + 1];
      ItemsPlain(defs, items, i + 1, fuel);
    }
  }

  // ---------------------------------------------------------------------
  // References

  /** The document `{"$ref": ref}`. */
  function RefTo(ref: string): Json
  {
    Obj([(RefKey, Str(ref))])
  }

  lemma OneField(defs: Json, k: string, v: Json, fuel: nat)
    ensures Resolve(defs, Obj([(k, v)]), fuel)
      == match ResolveField(defs, k, v, fuel)
         case Fail(e) => Fail(e)
         case Ok(kv) => Ok(Obj([kv]))
  {
    var fields := [(k, v)];
    assert Resolve(defs, Obj(fields), fuel) == ResolveFields(defs, fields, 0, fields, fuel);
    assert Del(fields, k) == [];
    if ResolveField(defs, k, v, fuel).Ok? {
      var kv := ResolveField(defs, k, v, fuel).value;
      assert Set([], kv.0, kv.1) == [kv];
      assert ResolveFields(defs, fields, 1, [kv], fuel) == Ok(Obj([kv]));
    }
  }

  /** `{"$ref": "#/definitions/Name"}` resolves to `{"Name": <definition>}`. */
  lemma SingleRef(dfs: seq<(string, Json)>, name: string, d: Json, fuel: nat)
    requires '/' !in name && '#' !in name
    requires Get(dfs, name) == Some(d) && Plain(d) && fuel >= 1
    ensures Resolve(Obj(dfs), RefTo("#/definitions/" + name), fuel) == Ok(Obj([(name, d)]))
  {
    DefinitionRef(name);
    ResolvePlain(Obj(dfs), d, fuel - 1);
    OneField(Obj(dfs), RefKey, Str("#/definitions/" + name), fuel);
  }

  /** A reference to a definition that does not exist is a KeyError. */
  lemma MissingRef(dfs: seq<(string, Json)>, name: string, fuel: nat)
    requires '/' !in name && '#' !in name && !HasKey(dfs, name)
    ensures Resolve(Obj(dfs), RefTo("#/definitions/" + name), fuel).Fail?
    ensures Resolve(Obj(dfs), RefTo("#/definitions/" + name), fuel).error.kind == KeyError
  {
    DefinitionRef(name);
    OneField(Obj(dfs), RefKey, Str("#/definitions/" + name), fuel);
  }

  /** A definition that refers to itself never finishes resolving: whatever the
      recursion limit, the walk ends in a RecursionError. */
  lemma {:induction false} SelfRef(name: string, fuel: nat)
    requires '/' !in name && '#' !in name
    ensures Resolve(Obj([(name, RefTo("#/definitions/" + name))]), RefTo("#/definitions/" + name), fuel).Fail?
    ensures Resolve(Obj([(name, RefTo("#/definitions/" + name))]), RefTo("#/definitions/" + name), fuel).error.kind
      == RecursionError
  {
    var ref := "#/definitions/" + name;
    var defs := Obj([(name, RefTo(ref))]);
    DefinitionRef(name);
    assert Get(defs.fields, name) == Some(RefTo(ref));
    OneField(defs, RefKey, Str(ref), fuel);
    if fuel > 0 {
      SelfRef(name, fuel - 1);
    }
  }

  // ---------------------------------------------------------------------
  // The class

  /** The resolver with the document and the definitions it was given. */
  class ResolveRef {
    const definitions: Json
    const jsonData: Json

    constructor (definitions: Json, jsonData: Json)
      ensures this.definitions == definitions && this.jsonData == jsonData
    {
      this.definitions := definitions;
      this.jsonData := jsonData;
    }

    /** `iterit()`. */
    method IterIt(fuel: nat) returns (r: Result<Json>)
      ensures r == Resolve(definitions, jsonData, fuel)
    {
      r := IterateJson(jsonData, fuel);
    }

    method IterateJson(j: Json, fuel: nat) returns (r: Result<Json>)
      ensures r == Resolve(definitions, j, fuel)
      decreases fuel, Size(j), 2, 0
    {
      match j
      case Obj(fields) => r := IterateDict(fields, fuel);
      case Arr(items) => r := IterateList(items, fuel);
      case _ => r := Ok(j);
    }

    method IterateDict(fields: seq<(string, Json)>, fuel: nat) returns (r: Result<Json>)
      ensures r == ResolveFields(definitions, fields, 0, fields, fuel)
      decreases fuel, 1 + FieldsSize(fields), 1, |fields|
    {
      var newDict := fields;
      var i := 0;
      while i < |fields|
        invariant 0 <= i <= |fields|
        invariant ResolveFields(definitions, fields, 0, fields, fuel) == ResolveFields(definitions, fields, i, newDict, fuel)
        decreases |fields| - i
      {
        FieldSmaller(fields, i);
        newDict := Del(newDict, fields[i].0);
        var kv := ActionDict(fields[i].0, fields[i].1, fuel);
        if kv.Fail? {
          return Fail(kv.error);
        }
        newDict := Set(newDict, kv.value.0, kv.value.1);
        i := i + 1;
      }
      r := Ok(Obj(newDict));
    }

    method IterateList(items: seq<Json>, fuel: nat) returns (r: Result<Json>)
      ensures r == ResolveItems(definitions, items, 0, [], fuel)
      decreases fuel, 1 + ItemsSize(items), 1, |items|
    {
      var newList := [];
      var i := 0;
      while i < |items|
        invariant 0 <= i <= |items|
        invariant ResolveItems(definitions, items, 0, [], fuel) == ResolveItems(definitions, items, i, newList, fuel)
        decreases |items| - i
      {
        ItemSmaller(items, i);
        var x := IterateJson(items[i], fuel);
        if x.Fail? {
          return Fail(x.error);
        }
        newList := newList + [x.value];
        i := i + 1;
      }
      r := Ok(Arr(newList));
    }

    /** `_action_dict`. */
    method ActionDict(k: string, v: Json, fuel: nat) returns (r: Result<(string, Json)>)
      ensures r == ResolveField(definitions, k, v, fuel)
      decreases fuel, Size(v), 4, 0
    {
      if k == RefKey {
        r := ActionRef(v, fuel);
      } else {
        var x := IterateJson(v, fuel);
        if x.Fail? {
          return Fail(x.error);
        }
        r := Ok((k, x.value));
      }
    }

    /** The `$ref` branch of `_action_dict`. */
    method ActionRef(v: Json, fuel: nat) returns (r: Result<(string, Json)>)
      ensures r == ResolveRefField(definitions, v, fuel)
      decreases fuel, Size(v), 3, 0
    {
      if !v.Str? {
        RefFieldNotString(definitions, v, fuel);
        return Fail(Error(AttributeError, "object has no attribute 'replace'"));
      }
      var keys := ConvertRefToKeys(v.s);
      var d := FollowKeys(keys);
      if d.Fail? {
        RefFieldMissing(definitions, v.s, fuel, d.error);
        return Fail(d.error);
      }
      if fuel == 0 {
        RefFieldExhausted(definitions, v.s, d.value);
        return Fail(Error(RecursionError, "maximum recursion depth exceeded"));
      }
      var x := IterateJson(d.value, fuel - 1);
      if x.Fail? {
        RefFieldFailed(definitions, v.s, d.value, fuel, x.error);
        return Fail(x.error);
      }
      RefFieldResolved(definitions, v.s, d.value, fuel, x.value);
      r := Ok((Last(keys), x.value));
    }

    /** The loop `definitions = definitions[nks]`. */
    method FollowKeys(keys: seq<string>) returns (r: Result<Json>)
      ensures r == Follow(definitions, keys)
    {
      var d := definitions;
      var i := 0;
      while i < |keys|
        invariant 0 <= i <= |keys|
        invariant Follow(definitions, keys) == Follow(d, keys[i..])
        decreases |keys| - i
      {
        assert keys[i..][1..] == keys[i + 1..];
        if !d.Obj? {
          return Fail(Error(TypeError, "string indices must be integers"));
        }
        var x := Get(d.fields, keys[i]);
        if x.None? {
          return Fail(Error(KeyError, keys[i]));
        }
        d := x.value;
        i := i + 1;
      }
      r := Ok(d);
    }
  }
}
