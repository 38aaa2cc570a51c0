/** `PrettyPrint` (rbkcli/base/jsops.py): a JSON value written as indented
    text, one line per dictionary key and per scalar list element. A counter
    starts at -2 and goes up by the modifier 2 around every key and element, so
    the top level is not indented and every level below adds two spaces. */
module Pretty {
  import opened Strings
  import opened Json

  /** `self.modifier`: the indentation step. */
  const Modifier: int := 2

  /** `self.counter` when the walk starts. */
  const StartCounter: int := -2

  predicate IsContainer(j: Json)
  {
    j.Obj? || j.Arr?
  }

  /** The lines written for `j` when the walk reaches it with counter `c`. */
  function Lines(j: Json, c: int): seq<string>
    decreases Size(j), 2, 0
  {
    match j
    case Obj(fields) => FieldsLines(fields, 0, c)
    case Arr(items) => ItemsLines(items, 0, c)
    case _ => []
  }

  function FieldsLines(fields: seq<(string, Json)>, i: nat, c: int): seq<string>
    requires i <= |fields|
    decreases 1 + FieldsSize(fields), 1, |fields| - i
  {
    if i == |fields| then []
    else
      FieldSmaller(fields, i);
      FieldLines(fields[i].0, fields[i].1, c + Modifier) + FieldsLines(fields, i + 1, c)
  }

  function ItemsLines(items: seq<Json>, i: nat, c: int): seq<string>
    requires i <= |items|
    decreases 1 + ItemsSize(items), 1, |items| - i
  {
    if i == |items| then []
    else
      ItemSmaller(items, i);
      ItemLines(items[i], c + Modifier) + ItemsLines(items, i + 1, c)
  }

  /** `_action_dict` at counter `d`: a container gets a `key:` line and its own
      lines below it, a scalar the line `key: value`. */
  function FieldLines(k: string, v: Json, d: int): seq<string>
    decreases Size(v), 3, 0
  {
    if IsContainer(v) then [Spaces(d) + k + ":"] + Lines(v, d)
    else [Spaces(d) + k + ": " + PyStr(v)]
  }

  /** `_action_list` at counter `d`: a container is walked, a scalar gets a line. */
  function ItemLines(v: Json, d: int): seq<string>
    decreases Size(v), 3, 0
  {
    if IsContainer(v) then Lines(v, d)
    else [Spaces(d) + PyStr(v)]
  }

  /** `pretty_print(json_data)`: the lines joined with newlines; a value that is
      neither a dictionary nor a list prints nothing. */
  function Render(j: Json): (r: string)
    ensures !IsContainer(j) ==> r == ""
  {
    Join(Lines(j, StartCounter), "\n")
  }

  // ---------------------------------------------------------------------
  // Properties

  lemma SpacesPrefix(a: int, b: int, rest: string)
    requires a <= b
    ensures StartsWith(Spaces(b) + rest, Spaces(a))
  {
    var s := Spaces(b) + rest;
    assert s[..|Spaces(a)|] == Spaces(a);
  }

  /** Every line written for a value reached with counter `c` starts with
      `c + 2` spaces: what is nested is indented at least one step further than
      the key that holds it. */
  lemma {:induction false} Indented(j: Json, c: int)
    ensures forall line :: line in Lines(j, c) ==> StartsWith(line, Spaces(c + Modifier))
    decreases Size(j), 2, 0
  {
    match j
    case Obj(fields) => FieldsIndented(fields, 0, c);
    case Arr(items) => ItemsIndented(items, 0, c);
    case _ =>
  }

  lemma {:induction false} FieldsIndented(fields: seq<(string, Json)>, i: nat, c: int)
    requires i <= |fields|
    ensures forall line :: line in FieldsLines(fields, i, c) ==> StartsWith(line, Spaces(c + Modifier))
    decreases 1 + FieldsSize(fields), 1, |fields| - i
  {
    if i < |fields| {
      FieldSmaller(fields, i);
      FieldIndented(fields[i].0, fields[i].1, c + Modifier);
      FieldsIndented(fields, i + 1, c);
    }
  }

  lemma {:induction false} ItemsIndented(items: seq<Json>, i: nat, c: int)
    requires i <= |items|
    ensures forall line :: line in ItemsLines(items, i, c) ==> StartsWith(line, Spaces(c + Modifier))
    decreases 1 + ItemsSize(items), 1, |items| - i
  {
    if i < |items| {
      ItemSmaller(items, i);
      ItemIndented(items[i], c + Modifier);
      ItemsIndented(items, i + 1, c);
    }
  }

  lemma {:induction false} FieldIndented(k: string, v: Json, d: int)
    ensures forall line :: line in FieldLines(k, v, d) ==> StartsWith(line, Spaces(d))
    decreases Size(v), 3, 0
  {
    SpacesPrefix(d, d, k + ":");
    SpacesPrefix(d, d, k + ": " + PyStr(v));
    assert Spaces(d) + k + ":" == Spaces(d) + (k + ":");
    assert Spaces(d) + k + ": " + PyStr(v) == Spaces(d) + (k + ": " + PyStr(v));
    if IsContainer(v) {
      Indented(v, d);
      forall line | line in Lines(v, d) ensures StartsWith(line, Spaces(d)) {
        SpacesDeeper(line, d);
      }
    }
  }

  lemma {:induction false} ItemIndented(v: Json, d: int)
    ensures forall line :: line in ItemLines(v, d) ==> StartsWith(line, Spaces(d))
    decreases Size(v), 3, 0
  {
    if IsContainer(v) {
      Indented(v, d);
      forall line | line in Lines(v, d) ensures StartsWith(line, Spaces(d)) {
        SpacesDeeper(line, d);
      }
    } else {
      SpacesPrefix(d, d, PyStr(v));
    }
  }

  /** A line indented two steps deeper is indented at least one step. */
  lemma SpacesDeeper(line: string, d: int)
    requires StartsWith(line, Spaces(d + Modifier))
    ensures StartsWith(line, Spaces(d))
  {
    var n := |Spaces(d)|;
    assert line[..n] == Spaces(d + Modifier)[..n];
  }

  /** A dictionary of scalars prints one `key: value` line per key, in order,
      indented by `c + 2`. */
  lemma {:induction false} FlatFields(fields: seq<(string, Json)>, i: nat, c: int)
    requires i <= |fields| && forall m :: i <= m < |fields| ==> !IsContainer(fields[m].1)
    ensures FieldsLines(fields, i, c) == FlatLines(fields, i, c)
    decreases |fields| - i
  {
    if i < |fields| {
      FieldSmaller(fields, i);
      FlatFields(fields, i + 1, c);
      var line := FieldLine(fields[i].0, fields[i].1, c + Modifier);
      assert FieldLines(fields[i].0, fields[i].1, c + Modifier) == [line];
      FlatLinesCons(fields, i, c);
    }
  }

  /** The `key: value` line of a scalar at counter `d`. */
  function FieldLine(k: string, v: Json, d: int): string
  {
    Spaces(d) + k + ": " + PyStr(v)
  }

  /** One `key: value` line per field from `i` on, at counter `c + 2`. */
  function FlatLines(fields: seq<(string, Json)>, i: nat, c: int): seq<string>
    requires i <= |fields|
  {
    seq(|fields| - i, m requires 0 <= m < |fields| - i => FieldLine(fields[i + m].0, fields[i + m].1, c + Modifier))
  }

  lemma FlatLinesCons(fields: seq<(string, Json)>, i: nat, c: int)
    requires i < |fields|
    ensures FlatLines(fields, i, c)
      == [FieldLine(fields[i].0, fields[i].1, c + Modifier)] + FlatLines(fields, i + 1, c)
  {
    var a := FlatLines(fields, i, c);
    var b := [FieldLine(fields[i].0, fields[i].1, c + Modifier)] + FlatLines(fields, i + 1, c);
    assert |a| == |b|;
    forall m | 0 <= m < |a| ensures a[m] == b[m] {
      if m > 0 {
        assert b[m] == FlatLines(fields, i + 1, c)[m - 1];
      }
    }
  }

  lemma TopLine(k: string, v: Json)
    ensures FieldLine(k, v, StartCounter + Modifier) == k + ": " + PyStr(v)
  {
    assert Spaces(0) == "";
  }

  /** A top-level dictionary of scalars prints `key: value` lines, unindented. */
  lemma FlatDict(fields: seq<(string, Json)>)
    requires forall m :: 0 <= m < |fields| ==> !IsContainer(fields[m].1)
    ensures Render(Obj(fields))
      == Join(seq(|fields|, m requires 0 <= m < |fields| => fields[m].0 + ": " + PyStr(fields[m].1)), "\n")
  {
    FlatFields(fields, 0, StartCounter);
    var a := FlatLines(fields, 0, StartCounter);
    var b := seq(|fields|, m requires 0 <= m < |fields| => fields[m].0 + ": " + PyStr(fields[m].1));
    assert Spaces(StartCounter + Modifier) == "";
    forall m | 0 <= m < |fields| ensures a[m] == b[m] {
      TopLine(fields[m].0, fields[m].1);
    }
    assert a == b;
  }

  // ---------------------------------------------------------------------
  // The class

  /** The walker with the fields `_iteration_context` sets up. */
  class PrettyPrint {
    var counter: int
    var modifier: int
    var output: seq<string>
    var outputStr: string

    /** `JsonIteration.__init__`. */
    constructor ()
      ensures counter == StartCounter && modifier == Modifier && output == [] && outputStr == ""
    {
      counter, modifier, output, outputStr := StartCounter, Modifier, [], "";
    }

    /** `iterit()`: reset the counter and the output, walk, join the lines. */
    method IterIt(j: Json) returns (s: string)
      modifies this
      ensures s == Render(j) && outputStr == s && output == Lines(j, StartCounter)
    {
      counter, modifier, output := StartCounter, Modifier, [];
      IterateJson(j);
      assert output == Lines(j, StartCounter);
      outputStr := Join(output, "\n");
      s := outputStr;
    }

    method IterateJson(j: Json)
      requires modifier == Modifier
      modifies this
      ensures output == old(output) + Lines(j, old(counter))
      ensures counter == old(counter) && modifier == old(modifier)
      decreases Size(j), 2, 0
    {
      match j
      case Obj(fields) => IterateDict(fields);
      case Arr(items) => IterateList(items);
      case _ =>
    }

    method IterateDict(fields: seq<(string, Json)>)
      requires modifier == Modifier
      modifies this
      ensures output == old(output) + FieldsLines(fields, 0, old(counter))
      ensures counter == old(counter) && modifier == old(modifier)
      decreases 1 + FieldsSize(fields), 1, |fields|
    {
      var i := 0;
      while i < |fields|
        invariant 0 <= i <= |fields|
        invariant counter == old(counter) && modifier == Modifier
        invariant old(output) + FieldsLines(fields, 0, counter) == output + FieldsLines(fields, i, counter)
        decreases |fields| - i
      {
        FieldSmaller(fields, i);
        ActionDict(fields[i].0, fields[i].1);
        i := i + 1;
      }
    }

    method IterateList(items: seq<Json>)
      requires modifier == Modifier
      modifies this
      ensures output == old(output) + ItemsLines(items, 0, old(counter))
      ensures counter == old(counter) && modifier == old(modifier)
      decreases 1 + ItemsSize(items), 1, |items|
    {
      var i := 0;
      while i < |items|
        invariant 0 <= i <= |items|
        invariant counter == old(counter) && modifier == Modifier
        invariant old(output) + ItemsLines(items, 0, counter) == output + ItemsLines(items, i, counter)
        decreases |items| - i
      {
        ItemSmaller(items, i);
        ActionList(items[i]);
        i := i + 1;
      }
    }

    /** `_action_dict`. */
    method ActionDict(k: string, v: Json)
      requires modifier == Modifier
      modifies this
      ensures output == old(output) + FieldLines(k, v, old(counter) + Modifier)
      ensures counter == old(counter) && modifier == old(modifier)
      decreases Size(v), 3, 0
    {
      counter := counter + modifier;
      if IsContainer(v) {
        output := output + [Spaces(counter) + k + ":"];
        IterateJson(v);
      } else {
        output := output + [Spaces(counter) + k + ": " + PyStr(v)];
      }
      counter := counter - modifier;
    }

    /** `_action_list`. */
    method ActionList(v: Json)
      requires modifier == Modifier
      modifies this
      ensures output == old(output) + ItemLines(v, old(counter) + Modifier)
      ensures counter == old(counter) && modifier == old(modifier)
      decreases Size(v), 3, 0
    {
      counter := counter + modifier;
      if IsContainer(v) {
        IterateJson(v);
      } else {
        output := output + [Spaces(counter) + PyStr(v)];
      }
      counter := counter - modifier;
    }
  }
}
