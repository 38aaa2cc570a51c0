/** JSON values as the program sees them after `json.loads`: dictionaries keep
    insertion order and unique keys, lists are sequences, and Python's `str()`
    and `type(x).__name__` are functions over them. */
module Json {
  import opened Wrappers
  import opened Strings

  datatype Json =
    | Null
    | Bool(b: bool)
    | Num(n: int)
    | Str(s: string)
    | Arr(items: seq<Json>)
    | Obj(fields: seq<(string, Json)>)

  /** A measure that decreases from a string to any value parsed from it; it is
      what makes recursion through `json.loads` of nested strings terminate. */
  function Size(j: Json): (n: nat)
    ensures n >= 1
  {
    match j
    case Null => 1
    case Bool(_) => 1
    case Num(_) => 1
    case Str(s) => |s| + 1
    case Arr(items) => 1 + ItemsSize(items)
    case Obj(fields) => 1 + FieldsSize(fields)
  }

  function ItemsSize(items: seq<Json>): nat
  {
    if items == [] then 0 else Size(items[0]) + ItemsSize(items[1..])
  }

  function FieldsSize(fields: seq<(string, Json)>): nat
  {
    if fields == [] then 0 else
      var p := fields[0];
      assert p in fields && p.1 < p;
      |fields[0].0| + 1 + Size(fields[0].1) + FieldsSize(fields[1..])
  }

  lemma {:induction false} ItemSmaller(items: seq<Json>, i: nat)
    requires i < |items|
    ensures Size(items[i]) <= ItemsSize(items)
  {
    if i > 0 { ItemSmaller(items[1..], i - 1); }
  }

  lemma {:induction false} FieldSmaller(fields: seq<(string, Json)>, i: nat)
    requires i < |fields|
    ensures Size(fields[i].1) < FieldsSize(fields)
  {
    if i > 0 { FieldSmaller(fields[1..], i - 1); }
  }

  /** `json.loads` as a partial function supplied by the caller. */
  type Parser = string -> Option<Json>

  /** The parser never yields a value bigger than its text, as is the case for
      `json.loads` (a value needs at least one character per node). */
  ghost predicate ParseShrinks(parse: Parser)
  {
    forall s :: parse(s).Some? ==> Size(parse(s).value) <= |s|
  }

  // ---------------------------------------------------------------------
  // Dictionaries

  function Keys(fields: seq<(string, Json)>): (ks: seq<string>)
    ensures |ks| == |fields| && forall i :: 0 <= i < |fields| ==> ks[i] == fields[i].0
  {
    if fields == [] then [] else [fields[0].0] + Keys(fields[1..])
  }

  function Values(fields: seq<(string, Json)>): (vs: seq<Json>)
    ensures |vs| == |fields| && forall i :: 0 <= i < |fields| ==> vs[i] == fields[i].1
  {
    if fields == [] then [] else [fields[0].1] + Values(fields[1..])
  }

  predicate HasKey(fields: seq<(string, Json)>, k: string)
  {
    exists i :: 0 <= i < |fields| && fields[i].0 == k
  }

  predicate UniqueKeys(fields: seq<(string, Json)>)
  {
    forall i, j :: 0 <= i < j < |fields| ==> fields[i].0 != fields[j].0
  }

  /** `d[k]`: the value of key `k`, or KeyError. */
  function Get(fields: seq<(string, Json)>, k: string): (r: Option<Json>)
    ensures r.Some? <==> HasKey(fields, k)
    ensures r.Some? ==> exists i :: 0 <= i < |fields| && fields[i] == (k, r.value)
  {
    if fields == [] then None
    else if fields[0].0 == k then
      assert fields[0] == (k, fields[0].1);
      Some(fields[0].1)
    else
      var r := Get(fields[1..], k);
      assert HasKey(fields, k) ==> HasKey(fields[1..], k) by {
        if HasKey(fields, k) {
          var i :| 0 <= i < |fields| && fields[i].0 == k;
          assert fields[1..][i - 1].0 == k;
        }
      }
      assert r.Some? ==> exists i :: 0 <= i < |fields| && fields[i] == (k, r.value) by {
        if r.Some? {
          var i :| 0 <= i < |fields[1..]| && fields[1..][i] == (k, r.value);
          assert fields[i + 1] == (k, r.value);
        }
      }
      r
  }

  /** `d[k] = v`: replaces the value in place when the key exists, otherwise
      appends the pair at the end, as a Python dict does. */
  function Set(fields: seq<(string, Json)>, k: string, v: Json): (r: seq<(string, Json)>)
    ensures |r| == if HasKey(fields, k) then |fields| else |fields| + 1
  {
    if fields == [] then [(k, v)]
    else if fields[0].0 == k then [(k, v)] + fields[1..]
    else
      assert HasKey(fields, k) <==> HasKey(fields[1..], k) by { HasKeyTail(fields, k); }
      [fields[0]] + Set(fields[1..], k, v)
  }

  lemma HasKeyTail(fields: seq<(string, Json)>, k: string)
    requires fields != [] && fields[0].0 != k
    ensures HasKey(fields, k) <==> HasKey(fields[1..], k)
  {
    if HasKey(fields, k) {
      var i :| 0 <= i < |fields| && fields[i].0 == k;
      assert fields[1..][i - 1].0 == k;
    }
    if HasKey(fields[1..], k) {
      var i :| 0 <= i < |fields[1..]| && fields[1..][i].0 == k;
      assert fields[i + 1].0 == k;
    }
  }

  lemma HasKeySnoc(fields: seq<(string, Json)>, k: string)
    requires fields != []
    ensures HasKey(fields, k) <==> HasKey(fields[..|fields| - 1], k) || fields[|fields| - 1].0 == k
  {
    var n := |fields| - 1;
    if HasKey(fields, k) && fields[n].0 != k {
      var i :| 0 <= i < |fields| && fields[i].0 == k;
      assert fields[..n][i].0 == k;
    }
    if HasKey(fields[..n], k) {
      var i :| 0 <= i < n && fields[..n][i].0 == k;
      assert fields[i].0 == k;
    }
  }

  /** Dictionaries with the same keys in the same order hold the same keys. */
  lemma SameKeys(a: seq<(string, Json)>, b: seq<(string, Json)>, k: string)
    requires Keys(a) == Keys(b)
    ensures HasKey(a, k) <==> HasKey(b, k)
  {
    if HasKey(a, k) {
      var i :| 0 <= i < |a| && a[i].0 == k;
      assert Keys(a)[i] == b[i].0;
    }
    if HasKey(b, k) {
      var i :| 0 <= i < |b| && b[i].0 == k;
      assert Keys(b)[i] == a[i].0;
    }
  }

  /** Storing a new key appends the pair. */
  lemma {:induction false} SetAbsent(fields: seq<(string, Json)>, k: string, v: Json)
    requires !HasKey(fields, k)
    ensures Set(fields, k, v) == fields + [(k, v)]
  {
    if fields != [] {
      HasKeyTail(fields, k);
      SetAbsent(fields[1..], k, v);
      assert fields == [fields[0]] + fields[1..];
    }
  }

  lemma {:induction false} SetKeys(fields: seq<(string, Json)>, k: string, v: Json)
    ensures Keys(Set(fields, k, v)) == if HasKey(fields, k) then Keys(fields) else Keys(fields) + [k]
  {
    if fields != [] && fields[0].0 != k {
      HasKeyTail(fields, k);
      SetKeys(fields[1..], k, v);
      assert Keys(Set(fields, k, v)) == [fields[0].0] + Keys(Set(fields[1..], k, v));
      assert Keys(fields) == [fields[0].0] + Keys(fields[1..]);
    } else if fields != [] {
      assert HasKey(fields, k) by { assert fields[0].0 == k; }
      assert Keys(Set(fields, k, v)) == [k] + Keys(fields[1..]);
      assert Keys(fields) == [fields[0].0] + Keys(fields[1..]);
    }
  }

  /** Setting a key keeps the keys unique. */
  lemma SetUnique(fields: seq<(string, Json)>, k: string, v: Json)
    requires UniqueKeys(fields)
    ensures UniqueKeys(Set(fields, k, v))
  {
    var r := Set(fields, k, v);
    SetKeys(fields, k, v);
    assert forall i :: 0 <= i < |r| ==> r[i].0 == Keys(r)[i];
    if !HasKey(fields, k) {
      assert forall i :: 0 <= i < |fields| ==> fields[i].0 != k;
    }
  }

  /** Reading a key just written gives the written value. */
  lemma {:induction false} GetSet(fields: seq<(string, Json)>, k: string, v: Json, k2: string)
    ensures Get(Set(fields, k, v), k2) == if k2 == k then Some(v) else Get(fields, k2)
  {
    if fields != [] && fields[0].0 != k {
      GetSet(fields[1..], k, v, k2);
    }
  }

  /** Reading a dictionary with one more pair at the end: earlier keys win. */
  lemma {:induction false} GetSnoc(fields: seq<(string, Json)>, k: string, v: Json, k2: string)
    ensures Get(fields + [(k, v)], k2)
            == if HasKey(fields, k2) then Get(fields, k2) else if k2 == k then Some(v) else None
  {
    if fields != [] {
      assert (fields + [(k, v)])[1..] == fields[1..] + [(k, v)];
      if fields[0].0 != k2 {
        HasKeyTail(fields, k2);
      } else {
        assert HasKey(fields, k2) by { assert fields[0].0 == k2; }
      }
      GetSnoc(fields[1..], k, v, k2);
    }
  }

  /** `del d[k]`: removes the pair with key `k` (KeyError when it is missing). */
  function Del(fields: seq<(string, Json)>, k: string): (r: seq<(string, Json)>)
    ensures |r| <= |fields|
    ensures forall p :: p in r <==> p in fields && p.0 != k
  {
    if fields == [] then []
    else if fields[0].0 == k then Del(fields[1..], k)
    else [fields[0]] + Del(fields[1..], k)
  }

  lemma {:induction false} GetDel(fields: seq<(string, Json)>, k: string, k2: string)
    ensures Get(Del(fields, k), k2) == if k2 == k then None else Get(fields, k2)
  {
    if fields != [] {
      GetDel(fields[1..], k, k2);
    }
  }

  // ---------------------------------------------------------------------
  // Python's view of a value

  /** `j[key]` with a string key: the value of a dictionary's key, KeyError
      when it has none, TypeError on any other value. */
  function Subscript(j: Json, key: string): (r: Result<Json>)
    ensures r.Ok? <==> j.Obj? && HasKey(j.fields, key)
    ensures r.Ok? ==> Get(j.fields, key) == Some(r.value)
  {
    match j
    case Obj(fields) =>
      (match Get(fields, key)
       case None => Raise(KeyError, "'" + key + "'")
       case Some(v) => Ok(v))
    case Arr(_) => Raise(TypeError, "list indices must be integers or slices, not str")
    case Str(_) => Raise(TypeError, "string indices must be integers")
    case _ => Raise(TypeError, "'" + TypeName(j) + "' object is not subscriptable")
  }

  /** `type(x).__name__` for a parsed JSON value. */
  function TypeName(j: Json): string
  {
    match j
    case Null => "NoneType"
    case Bool(_) => "bool"
    case Num(_) => "int"
    case Str(_) => "str"
    case Arr(_) => "list"
    case Obj(_) => "dict"
  }

  /** Python `repr()` of a value nested in a container (string escaping is not
      modelled: the text is put between single quotes as is). */
  function Repr(j: Json): string
  {
    match j
    case Null => "None"
    case Bool(b) => if b then "True" else "False"
    case Num(n) => IntToString(n)
    case Str(s) => "'" + s + "'"
    case Arr(items) => "[" + ReprItems(items) + "]"
    case Obj(fields) => "{" + ReprFields(fields) + "}"
  }

  function ReprItems(items: seq<Json>): string
  {
    if items == [] then ""
    else if |items| == 1 then Repr(items[0])
    else Repr(items[0]) + ", " + ReprItems(items[1..])
  }

  function ReprFields(fields: seq<(string, Json)>): string
  {
    if fields == [] then ""
    else
      var p := fields[0];
      assert p in fields && p.1 < p;
      var head := "'" + fields[0].0 + "': " + Repr(fields[0].1);
      if |fields| == 1 then head else head + ", " + ReprFields(fields[1..])
  }

  /** Python `str(x)`: a string is itself, anything else is its repr. */
  function PyStr(j: Json): (r: string)
    ensures j.Str? ==> r == j.s
    ensures j.Num? ==> ParseInt(r) == Ok(j.n)
    ensures j.Obj? || j.Arr? ==> |r| >= 2 && r[0] in "{[" && r[|r| - 1] in "}]"
  {
    match j
    case Str(s) => s
    case Num(n) =>
      IntToStringRoundTrip(n);
      Repr(j)
    case _ => Repr(j)
  }

  /** Python truthiness of a parsed value. */
  predicate Truthy(j: Json)
  {
    match j
    case Null => false
    case Bool(b) => b
    case Num(n) => n != 0
    case Str(s) => s != ""
    case Arr(items) => items != []
    case Obj(fields) => fields != []
  }

  /** Python `int(x)` on a parameter value. */
  function IntOf(j: Json): Result<int>
  {
    match j
    case Str(s) => ParseInt(s)
    case Num(n) => Ok(n)
    case Bool(b) => Ok(if b then 1 else 0)
    case _ => Raise(TypeError, "int() argument must be a string, a bytes-like object or a real number, not '"
                               + TypeName(j) + "'")
  }
}
