/** `MapSelect` (rbkcli/base/jsops.py): one walk over a response body that both
    records its key map and selects the requested fields, applying their filters.
    A string value is parsed as JSON where it can be, and the walk goes on into
    the parsed value. */
module MapSelection {
  import opened Wrappers
  import opened Strings
  import opened Lists
  import opened Json
  import opened MapKeys
  import opened Sorting

  /** One requested field: the map entry it resolves to and its filters, of which
      at most the first non-empty one applies. */
  datatype Definition = Definition(
    dictKey: string,
    filterEq: string,
    filterAprox: string,
    filterNot: string,
    filterNotAprox: string)

  /** The `definitions` dictionary, from output name to definition. */
  type Definitions = seq<(string, Definition)>

  /** The output names, in request order. */
  function Names(defs: Definitions): (r: seq<string>)
    ensures |r| == |defs| && forall i :: 0 <= i < |defs| ==> r[i] == defs[i].0
  {
    seq(|defs|, i requires 0 <= i < |defs| => defs[i].0)
  }

  /** The field carries a filter. */
  predicate Filtered(d: Definition)
  {
    d.filterEq != "" || d.filterAprox != "" || d.filterNot != "" || d.filterNotAprox != ""
  }

  /** The filter test of `_select_key`, on `str(found_value)`: equality, then
      containment, then non-containment, then inequality; no filter accepts. */
  predicate Passes(d: Definition, v: Json)
  {
    if d.filterEq != "" then d.filterEq == PyStr(v)
    else if d.filterAprox != "" then Contains(PyStr(v), d.filterAprox)
    else if d.filterNotAprox != "" then !Contains(PyStr(v), d.filterNotAprox)
    else if d.filterNot != "" then d.filterNot != PyStr(v)
    else true
  }

  /** Only the first non-empty filter in that order is ever looked at. */
  lemma PassesFirstFilter(d: Definition, v: Json, other: string)
    ensures d.filterEq != "" ==>
      (Passes(d, v) <==> Passes(d.(filterAprox := other, filterNotAprox := other, filterNot := other), v))
    ensures d.filterEq == "" && d.filterAprox != "" ==>
      (Passes(d, v) <==> Passes(d.(filterNotAprox := other, filterNot := other), v))
    ensures d.filterEq == "" && d.filterAprox == "" && d.filterNotAprox != "" ==>
      (Passes(d, v) <==> Passes(d.(filterNot := other), v))
    ensures !Filtered(d) ==> Passes(d, v)
  {
  }

  /** The walk's state: cursor and level, the cursors recorded so far, the
      `selected` dictionary, the names still in `unselected` and `returning`;
      `twice` is the first field whose value passed a second time, where the
      source's `del unselected[key]` raises. */
  datatype SelState = SelState(
    cursor: seq<Segment>,
    level: int,
    paths: seq<seq<Segment>>,
    selected: seq<(string, Json)>,
    unselected: set<string>,
    returning: bool,
    twice: Option<string>)

  /** Every definition's name is a key of `selected`. */
  predicate Named(defs: Definitions, selected: seq<(string, Json)>)
  {
    forall i :: 0 <= i < |defs| ==> HasKey(selected, defs[i].0)
  }

  /** Every definition taken out of `unselected` holds a value that passes its
      filter. */
  predicate Chosen(defs: Definitions, st: SelState)
  {
    forall i :: 0 <= i < |defs| && defs[i].0 !in st.unselected ==>
      Get(st.selected, defs[i].0).Some? && Passes(defs[i].1, Get(st.selected, defs[i].0).value)
  }

  /** Some recorded cursor renders to `key`. */
  predicate Visited(key: string, ps: seq<seq<Segment>>)
  {
    exists m :: 0 <= m < |ps| && Path(ps[m]) == key
  }

  /** A definition whose entry was not visited between `s` and `t` is left as it
      was, and chosen definitions stay chosen. */
  predicate Keep(defs: Definitions, s: SelState, t: SelState)
    requires |s.paths| <= |t.paths|
  {
    (Chosen(defs, s) ==> Chosen(defs, t))
    && forall i :: 0 <= i < |defs| && !Visited(defs[i].1.dictKey, t.paths[|s.paths|..]) ==>
      (defs[i].0 in s.unselected ==> defs[i].0 in t.unselected)
      && Get(t.selected, defs[i].0) == Get(s.selected, defs[i].0)
  }

  /** What a walk from `s` to `t` guarantees: cursor and level are back, the
      recorded cursors only grow, a failed filter is never undone, `unselected`
      only shrinks, `selected` keeps its keys, and unvisited fields are kept. */
  predicate Step(defs: Definitions, s: SelState, t: SelState)
  {
    t.cursor == s.cursor && t.level == s.level
    && |s.paths| <= |t.paths| && t.paths[..|s.paths|] == s.paths
    && (!s.returning ==> !t.returning)
    && t.unselected <= s.unselected
    && (Named(defs, s.selected) ==> Keys(t.selected) == Keys(s.selected))
    && (Distinct(Names(defs)) ==> Keep(defs, s, t))
  }

  lemma StepRefl(defs: Definitions, s: SelState)
    ensures Step(defs, s, s)
  {
  }

  /** A key visited in part of a list of cursors is visited in the list. */
  lemma VisitedSplit(key: string, ps: seq<seq<Segment>>, k: nat)
    requires k <= |ps|
    ensures Visited(key, ps[..k]) ==> Visited(key, ps)
    ensures Visited(key, ps[k..]) ==> Visited(key, ps)
  {
    if Visited(key, ps[..k]) {
      var m :| 0 <= m < |ps[..k]| && Path(ps[..k][m]) == key;
      assert ps[m] == ps[..k][m];
    }
    if Visited(key, ps[k..]) {
      var m :| 0 <= m < |ps[k..]| && Path(ps[k..][m]) == key;
      assert ps[k + m] == ps[k..][m];
    }
  }

  lemma NamedByKeys(defs: Definitions, a: seq<(string, Json)>, b: seq<(string, Json)>)
    requires Named(defs, a) && Keys(b) == Keys(a)
    ensures Named(defs, b)
  {
    forall i | 0 <= i < |defs| ensures HasKey(b, defs[i].0) {
      var k :| 0 <= k < |a| && a[k].0 == defs[i].0;
      assert Keys(a)[k] == defs[i].0;
      assert b[k].0 == Keys(b)[k];
    }
  }

  lemma KeepTrans(defs: Definitions, a: SelState, b: SelState, c: SelState)
    requires |a.paths| <= |b.paths| <= |c.paths| && c.paths[..|b.paths|] == b.paths
    requires Keep(defs, a, b) && Keep(defs, b, c)
    ensures Keep(defs, a, c)
  {
    var x := c.paths[|a.paths|..];
    var k := |b.paths| - |a.paths|;
    assert x[..k] == b.paths[|a.paths|..];
    assert x[k..] == c.paths[|b.paths|..];
    forall i | 0 <= i < |defs| && !Visited(defs[i].1.dictKey, x)
      ensures (defs[i].0 in a.unselected ==> defs[i].0 in c.unselected)
        && Get(c.selected, defs[i].0) == Get(a.selected, defs[i].0)
    {
      VisitedSplit(defs[i].1.dictKey, x, k);
    }
  }

  lemma StepTrans(defs: Definitions, a: SelState, b: SelState, c: SelState)
    requires Step(defs, a, b) && Step(defs, b, c)
    ensures Step(defs, a, c)
  {
    assert c.paths[..|a.paths|] == c.paths[..|b.paths|][..|a.paths|];
    if Named(defs, a.selected) {
      NamedByKeys(defs, a.selected, b.selected);
    }
    if Distinct(Names(defs)) {
      KeepTrans(defs, a, b, c);
    }
  }

  // ---------------------------------------------------------------------
  // `_select_key`

  /** One definition of `_select_key`: when its entry is the cursor, the value
      is taken if it passes the filter (and the name leaves `unselected`), and
      `returning` is cleared if it does not. */
  function SelectOne(d: (string, Definition), path: string, v: Json, st: SelState): (r: SelState)
    ensures r.cursor == st.cursor && r.level == st.level && r.paths == st.paths
    ensures r.unselected <= st.unselected && (!st.returning ==> !r.returning)
    ensures d.1.dictKey == path && !Passes(d.1, v) ==> !r.returning
    ensures d.1.dictKey != path ==> r == st
    ensures st.twice.Some? ==> r.twice == st.twice
  {
    if d.1.dictKey != path then st
    else if Passes(d.1, v) then
      var twice := if st.twice.None? && d.0 !in st.unselected then Some(d.0) else st.twice;
      st.(selected := Set(st.selected, d.0, v), unselected := st.unselected - {d.0}, twice := twice)
    else st.(returning := false)
  }

  /** `_select_key(cursor, value)` over the definitions from the `i`-th on. */
  function SelectFrom(defs: Definitions, i: nat, path: string, v: Json, st: SelState): (r: SelState)
    requires i <= |defs|
    ensures r.cursor == st.cursor && r.level == st.level && r.paths == st.paths
    ensures !st.returning ==> !r.returning
    ensures r.unselected <= st.unselected
    ensures st.twice.Some? ==> r.twice == st.twice
    decreases |defs| - i
  {
    if i == |defs| then st
    else SelectFrom(defs, i + 1, path, v, SelectOne(defs[i], path, v, st))
  }

  /** Selecting a value never adds or reorders keys of a `selected` that
      already names every field. */
  lemma {:induction false} SelectKeys(defs: Definitions, i: nat, path: string, v: Json, st: SelState)
    requires i <= |defs| && Named(defs, st.selected)
    ensures Keys(SelectFrom(defs, i, path, v, st).selected) == Keys(st.selected)
    decreases |defs| - i
  {
    if i < |defs| {
      var next := SelectOne(defs[i], path, v, st);
      if defs[i].1.dictKey == path && Passes(defs[i].1, v) {
        SetKeys(st.selected, defs[i].0, v);
        NamedByKeys(defs, st.selected, next.selected);
      }
      SelectKeys(defs, i + 1, path, v, next);
    }
  }

  /** Chosen fields stay chosen, and fields whose entry is not `path` are
      untouched. */
  predicate KeepAt(defs: Definitions, path: string, s: SelState, t: SelState)
  {
    (Chosen(defs, s) ==> Chosen(defs, t))
    && forall j :: 0 <= j < |defs| && defs[j].1.dictKey != path ==>
      (defs[j].0 in s.unselected ==> defs[j].0 in t.unselected)
      && Get(t.selected, defs[j].0) == Get(s.selected, defs[j].0)
  }

  lemma NamesDiffer(defs: Definitions, i: nat, j: nat)
    requires Distinct(Names(defs)) && i < |defs| && j < |defs| && i != j
    ensures defs[i].0 != defs[j].0
  {
    var names := Names(defs);
    if i < j {
      assert names[i] != names[j];
    } else {
      assert names[j] != names[i];
    }
  }

  /** One definition of `_select_key`: a passing value at the definition's
      entry is stored under its name and the name leaves `unselected`; a
      failing one clears `returning`; every other definition is kept. */
  lemma SelectOneKeeps(defs: Definitions, i: nat, path: string, v: Json, st: SelState)
    requires i < |defs| && Distinct(Names(defs))
    ensures KeepAt(defs, path, st, SelectOne(defs[i], path, v, st))
    ensures var r := SelectOne(defs[i], path, v, st);
      defs[i].1.dictKey == path ==>
        if Passes(defs[i].1, v) then Get(r.selected, defs[i].0) == Some(v) && defs[i].0 !in r.unselected
        else !r.returning
  {
    var name, d := defs[i].0, defs[i].1;
    var r := SelectOne(defs[i], path, v, st);
    if d.dictKey == path && Passes(d, v) {
      forall j | 0 <= j < |defs| && j != i
        ensures (defs[j].0 in st.unselected <==> defs[j].0 in r.unselected)
          && Get(r.selected, defs[j].0) == Get(st.selected, defs[j].0)
      {
        NamesDiffer(defs, i, j);
        GetSet(st.selected, name, v, defs[j].0);
      }
      GetSet(st.selected, name, v, name);
    }
  }

  /** `_select_key(cursor, value)`: every definition whose entry is the cursor
      holds the value afterwards when it passes, and clears `returning` when it
      does not; every other definition is kept. */
  lemma {:induction false} SelectKeeps(defs: Definitions, i: nat, path: string, v: Json, st: SelState)
    requires i <= |defs| && Distinct(Names(defs))
    ensures KeepAt(defs, path, st, SelectFrom(defs, i, path, v, st))
    ensures var r := SelectFrom(defs, i, path, v, st);
      forall j :: i <= j < |defs| && defs[j].1.dictKey == path ==>
        if Passes(defs[j].1, v) then Get(r.selected, defs[j].0) == Some(v) && defs[j].0 !in r.unselected
        else !r.returning
    decreases |defs| - i
  {
    if i < |defs| {
      var next := SelectOne(defs[i], path, v, st);
      var r := SelectFrom(defs, i + 1, path, v, next);
      assert SelectFrom(defs, i, path, v, st) == r;
      SelectOneKeeps(defs, i, path, v, st);
      SelectKeeps(defs, i + 1, path, v, next);
      if defs[i].1.dictKey == path && Passes(defs[i].1, v) {
        SelectTakes(defs, i + 1, i, path, v, next);
      }
    }
  }

  // ---------------------------------------------------------------------
  // The walk

  /** A string value is replaced by its parse when it parses (`json.loads`
      inside `try`). */
  function Loaded(parse: Parser, v: Json): (r: Json)
    requires ParseShrinks(parse)
    ensures Size(r) <= Size(v)
  {
    if v.Str? && parse(v.s).Some? then parse(v.s).value else v
  }

  /** `_iterate_json` with MapSelect's actions; cursor and level come back as
      they were. */
  function Walk(defs: Definitions, parse: Parser, j: Json, st: SelState): (r: SelState)
    requires ParseShrinks(parse) && LevelsAtMost(st.cursor, st.level)
    ensures r.cursor == st.cursor && r.level == st.level
    decreases Size(j), 2, 0
  {
    match j
    case Obj(fields) => WalkFields(defs, parse, fields, 0, st)
    case Arr(items) => WalkItems(defs, parse, items, 0, st)
    case _ => st
  }

  function WalkFields(defs: Definitions, parse: Parser, fields: seq<(string, Json)>, i: nat, st: SelState): (r: SelState)
    requires ParseShrinks(parse) && LevelsAtMost(st.cursor, st.level) && i <= |fields|
    ensures r.cursor == st.cursor && r.level == st.level
    decreases 1 + FieldsSize(fields), 1, |fields| - i
  {
    if i == |fields| then st
    else
      FieldSmaller(fields, i);
      WalkFields(defs, parse, fields, i + 1, Entry(defs, parse, fields[i].0, fields[i].1, st))
  }

  function WalkItems(defs: Definitions, parse: Parser, items: seq<Json>, i: nat, st: SelState): (r: SelState)
    requires ParseShrinks(parse) && LevelsAtMost(st.cursor, st.level) && i <= |items|
    ensures r.cursor == st.cursor && r.level == st.level
    decreases 1 + ItemsSize(items), 1, |items| - i
  {
    if i == |items| then st
    else
      ItemSmaller(items, i);
      WalkItems(defs, parse, items, i + 1, Item(defs, parse, items[i], st))
  }

  /** `_action_dict(keys, values)`: one level deeper, the segment
      `[key#level#type]` (type of the value as found) goes on the cursor, the
      (parsed) value is offered to `_select_key` and the cursor recorded; the
      value is walked, and cursor and level are put back. */
  function Entry(defs: Definitions, parse: Parser, k: string, v: Json, st: SelState): (r: SelState)
    requires ParseShrinks(parse) && LevelsAtMost(st.cursor, st.level)
    ensures r.cursor == st.cursor && r.level == st.level
    decreases Size(v), 3, 0
  {
    var seg := Segment(k, st.level + 1, TypeName(v));
    var s2 := Enter(defs, parse, seg, v, st);
    var s3 := Walk(defs, parse, Loaded(parse, v), s2);
    LeaveCursor(st, seg, s2, s3);
    Leave(seg, s3)
  }

  /** `_action_list(line)`: one level deeper, the (parsed) element is walked,
      and the level is put back. */
  function Item(defs: Definitions, parse: Parser, v: Json, st: SelState): (r: SelState)
    requires ParseShrinks(parse) && LevelsAtMost(st.cursor, st.level)
    ensures r.cursor == st.cursor && r.level == st.level
    decreases Size(v), 3, 0
  {
    var s := Walk(defs, parse, Loaded(parse, v), st.(level := st.level + 1));
    s.(level := s.level - 1)
  }

  /** Every walk is a `Step`: cursor and level restored, cursors recorded in
      order, failed filters never undone, `unselected` shrinking, the keys of
      `selected` kept, and fields whose entry is not visited untouched; and
      every cursor it records lies below the one it starts from. */
  lemma {:induction false} WalkSteps(defs: Definitions, parse: Parser, j: Json, st: SelState)
    requires ParseShrinks(parse) && LevelsAtMost(st.cursor, st.level)
    ensures Step(defs, st, Walk(defs, parse, j, st))
    ensures Below(st, Walk(defs, parse, j, st))
    decreases Size(j), 2, 0
  {
    WalkBelow(defs, parse, j, st);
    match j
    case Obj(fields) => WalkFieldsSteps(defs, parse, fields, 0, st);
    case Arr(items) => WalkItemsSteps(defs, parse, items, 0, st);
    case _ => StepRefl(defs, st);
  }

  lemma {:induction false} WalkFieldsSteps(defs: Definitions, parse: Parser, fields: seq<(string, Json)>, i: nat, st: SelState)
    requires ParseShrinks(parse) && LevelsAtMost(st.cursor, st.level) && i <= |fields|
    ensures Step(defs, st, WalkFields(defs, parse, fields, i, st))
    decreases 1 + FieldsSize(fields), 1, |fields| - i
  {
    if i == |fields| {
      StepRefl(defs, st);
    } else {
      FieldSmaller(fields, i);
      var s := Entry(defs, parse, fields[i].0, fields[i].1, st);
      EntrySteps(defs, parse, fields[i].0, fields[i].1, st);
      WalkFieldsSteps(defs, parse, fields, i + 1, s);
      StepTrans(defs, st, s, WalkFields(defs, parse, fields, i + 1, s));
    }
  }

  lemma {:induction false} WalkItemsSteps(defs: Definitions, parse: Parser, items: seq<Json>, i: nat, st: SelState)
    requires ParseShrinks(parse) && LevelsAtMost(st.cursor, st.level) && i <= |items|
    ensures Step(defs, st, WalkItems(defs, parse, items, i, st))
    decreases 1 + ItemsSize(items), 1, |items| - i
  {
    if i == |items| {
      StepRefl(defs, st);
    } else {
      ItemSmaller(items, i);
      var s := Item(defs, parse, items[i], st);
      ItemSteps(defs, parse, items[i], st);
      WalkItemsSteps(defs, parse, items, i + 1, s);
      StepTrans(defs, st, s, WalkItems(defs, parse, items, i + 1, s));
    }
  }

  /** `_action_dict` is a `Step`, and it records the key's own cursor before
      anything found while its value is walked. */
  lemma {:induction false} EntrySteps(defs: Definitions, parse: Parser, k: string, v: Json, st: SelState)
    requires ParseShrinks(parse) && LevelsAtMost(st.cursor, st.level)
    ensures Step(defs, st, Entry(defs, parse, k, v, st))
    ensures var r := Entry(defs, parse, k, v, st);
      Below(st, r) && |st.paths| < |r.paths|
      && r.paths[|st.paths|] == st.cursor + [Segment(k, st.level + 1, TypeName(v))]
    decreases Size(v), 3, 0
  {
    EntryBelow(defs, parse, k, v, st);
    var seg := Segment(k, st.level + 1, TypeName(v));
    var s2 := Enter(defs, parse, seg, v, st);
    var s3 := Walk(defs, parse, Loaded(parse, v), s2);
    EntryUnfold(defs, parse, k, v, st);
    WalkSteps(defs, parse, Loaded(parse, v), s2);
    EntryLeaves(defs, parse, seg, v, st, s3);
  }

  lemma EntryUnfold(defs: Definitions, parse: Parser, k: string, v: Json, st: SelState)
    requires ParseShrinks(parse) && LevelsAtMost(st.cursor, st.level)
    ensures var seg := Segment(k, st.level + 1, TypeName(v));
      Entry(defs, parse, k, v, st) == Leave(seg, Walk(defs, parse, Loaded(parse, v), Enter(defs, parse, seg, v, st)))
  {
  }

  lemma {:induction false} ItemSteps(defs: Definitions, parse: Parser, v: Json, st: SelState)
    requires ParseShrinks(parse) && LevelsAtMost(st.cursor, st.level)
    ensures Step(defs, st, Item(defs, parse, v, st))
    decreases Size(v), 3, 0
  {
    var inner := st.(level := st.level + 1);
    WalkSteps(defs, parse, Loaded(parse, v), inner);
    ItemStep(defs, st, Walk(defs, parse, Loaded(parse, v), inner), Item(defs, parse, v, st));
  }

  /** The first half of `_action_dict`: level up, segment `seg` (one level
      deeper than the cursor) on the cursor, the (parsed) value offered to
      `_select_key`, the cursor recorded. */
  function Enter(defs: Definitions, parse: Parser, seg: Segment, v: Json, st: SelState): (r: SelState)
    requires ParseShrinks(parse) && LevelsAtMost(st.cursor, st.level) && seg.level == st.level + 1
    ensures r.cursor == st.cursor + [seg] && r.level == seg.level
    ensures LevelsAtMost(r.cursor, r.level)
  {
    var cursor := st.cursor + [seg];
    var s1 := SelectFrom(defs, 0, Path(cursor), Loaded(parse, v), st.(cursor := cursor, level := seg.level));
    s1.(paths := s1.paths + [cursor])
  }

  /** The last half of `_action_dict`: the segment comes off the cursor, one
      level down. */
  function Leave(seg: Segment, s: SelState): SelState
  {
    s.(cursor := Without(s.cursor, seg), level := s.level - 1)
  }

  lemma LeaveCursor(st: SelState, seg: Segment, s2: SelState, s3: SelState)
    requires LevelsAtMost(st.cursor, seg.level - 1)
    requires s2.cursor == st.cursor + [seg] && s3.cursor == s2.cursor
    ensures Leave(seg, s3).cursor == st.cursor
  {
    LeaveSegment(st.cursor, seg);
  }

  lemma EntryLeaves(defs: Definitions, parse: Parser, seg: Segment, v: Json, st: SelState, s3: SelState)
    requires ParseShrinks(parse) && LevelsAtMost(st.cursor, st.level) && seg.level == st.level + 1
    requires Step(defs, Enter(defs, parse, seg, v, st), s3)
    ensures Step(defs, st, Leave(seg, s3))
  {
    var inner := st.(cursor := st.cursor + [seg], level := seg.level);
    var s1 := SelectFrom(defs, 0, Path(inner.cursor), Loaded(parse, v), inner);
    SelectFacts(defs, Path(inner.cursor), Loaded(parse, v), inner);
    EntryStep(defs, st, seg, s1, Enter(defs, parse, seg, v, st), s3, Leave(seg, s3));
  }

  lemma EnterIs(defs: Definitions, parse: Parser, seg: Segment, v: Json, st: SelState, inner: SelState, s1: SelState)
    requires ParseShrinks(parse) && LevelsAtMost(st.cursor, st.level) && seg.level == st.level + 1
    requires inner == st.(cursor := st.cursor + [seg], level := seg.level)
    requires s1 == SelectFrom(defs, 0, Path(inner.cursor), Loaded(parse, v), inner)
    ensures Enter(defs, parse, seg, v, st) == s1.(paths := s1.paths + [s1.cursor])
  {
  }

  lemma EntryIs(defs: Definitions, parse: Parser, k: string, v: Json, st: SelState, seg: Segment, s2: SelState, s3: SelState, r: SelState)
    requires ParseShrinks(parse) && LevelsAtMost(st.cursor, st.level) && seg == Segment(k, st.level + 1, TypeName(v))
    requires s2 == Enter(defs, parse, seg, v, st) && s3 == Walk(defs, parse, Loaded(parse, v), s2)
    requires r == Leave(seg, s3)
    ensures r == Entry(defs, parse, k, v, st)
  {
  }

  /** What `_select_key` keeps, for both uses in the walk's proof. */
  lemma SelectFacts(defs: Definitions, path: string, v: Json, st: SelState)
    ensures Named(defs, st.selected) ==> Keys(SelectFrom(defs, 0, path, v, st).selected) == Keys(st.selected)
    ensures Distinct(Names(defs)) ==> KeepAt(defs, path, st, SelectFrom(defs, 0, path, v, st))
  {
    if Named(defs, st.selected) {
      SelectKeys(defs, 0, path, v, st);
    }
    if Distinct(Names(defs)) {
      SelectKeeps(defs, 0, path, v, st);
    }
  }

  lemma EntryStep(defs: Definitions, st: SelState, seg: Segment, s1: SelState, s2: SelState, s3: SelState, r: SelState)
    requires LevelsAtMost(st.cursor, st.level) && seg.level == st.level + 1
    requires s1.cursor == st.cursor + [seg] && s1.level == st.level + 1 && s1.paths == st.paths
    requires s1.unselected <= st.unselected && (!st.returning ==> !s1.returning)
    requires Named(defs, st.selected) ==> Keys(s1.selected) == Keys(st.selected)
    requires Distinct(Names(defs)) ==> KeepAt(defs, Path(st.cursor + [seg]), st, s1)
    requires s2 == s1.(paths := s1.paths + [st.cursor + [seg]])
    requires Step(defs, s2, s3)
    requires r == s3.(cursor := Without(s3.cursor, seg), level := s3.level - 1)
    ensures Step(defs, st, r)
  {
    LeaveSegment(st.cursor, seg);
    assert r.paths[..|st.paths|] == r.paths[..|s2.paths|][..|st.paths|];
    if Named(defs, st.selected) {
      NamedByKeys(defs, st.selected, s1.selected);
    }
    if Distinct(Names(defs)) {
      EntryKeep(defs, st, Path(st.cursor + [seg]), st.cursor + [seg], s1, s2, s3, r);
    }
  }

  lemma EntryKeep(defs: Definitions, st: SelState, path: string, c: seq<Segment>, s1: SelState, s2: SelState, s3: SelState, r: SelState)
    requires Path(c) == path && KeepAt(defs, path, st, s1)
    requires s2 == s1.(paths := st.paths + [c])
    requires |s2.paths| <= |s3.paths| && s3.paths[..|s2.paths|] == s2.paths && Keep(defs, s2, s3)
    requires r.paths == s3.paths && r.selected == s3.selected && r.unselected == s3.unselected
    ensures Keep(defs, st, r)
  {
    var x := r.paths[|st.paths|..];
    assert x[0] == s3.paths[..|s2.paths|][|st.paths|] == c;
    assert x[1..] == r.paths[|s2.paths|..];
    forall i | 0 <= i < |defs| && !Visited(defs[i].1.dictKey, x)
      ensures (defs[i].0 in st.unselected ==> defs[i].0 in r.unselected)
        && Get(r.selected, defs[i].0) == Get(st.selected, defs[i].0)
    {
      var key := defs[i].1.dictKey;
      assert Path(x[0]) == path;
      VisitedSplit(key, x, 1);
    }
  }

  lemma ItemStep(defs: Definitions, st: SelState, s: SelState, r: SelState)
    requires Step(defs, st.(level := st.level + 1), s)
    requires r == s.(level := s.level - 1)
    ensures Step(defs, st, r)
  {
  }

  /** The cursors recorded from `s` to `t` extend the recorded list of `s`,
      and each lies strictly below the cursor of `s`. */
  predicate Below(s: SelState, t: SelState)
  {
    |s.paths| <= |t.paths| && t.paths[..|s.paths|] == s.paths
    && forall m :: |s.paths| <= m < |t.paths| ==>
      |s.cursor| < |t.paths[m]| && t.paths[m][..|s.cursor|] == s.cursor
  }

  lemma BelowTrans(a: SelState, b: SelState, c: SelState)
    requires Below(a, b) && Below(b, c) && b.cursor == a.cursor
    ensures Below(a, c)
  {
    assert c.paths[..|a.paths|] == c.paths[..|b.paths|][..|a.paths|];
    forall m | |a.paths| <= m < |c.paths|
      ensures |a.cursor| < |c.paths[m]| && c.paths[m][..|a.cursor|] == a.cursor
    {
      if m < |b.paths| {
        assert c.paths[m] == c.paths[..|b.paths|][m];
      }
    }
  }

  /** Every walk records only cursors below the one it starts from. */
  lemma {:induction false} WalkBelow(defs: Definitions, parse: Parser, j: Json, st: SelState)
    requires ParseShrinks(parse) && LevelsAtMost(st.cursor, st.level)
    ensures Below(st, Walk(defs, parse, j, st))
    decreases Size(j), 2, 0
  {
    match j
    case Obj(fields) => WalkFieldsBelow(defs, parse, fields, 0, st);
    case Arr(items) => WalkItemsBelow(defs, parse, items, 0, st);
    case _ => assert st.paths[..|st.paths|] == st.paths;
  }

  lemma {:induction false} WalkFieldsBelow(defs: Definitions, parse: Parser, fields: seq<(string, Json)>, i: nat, st: SelState)
    requires ParseShrinks(parse) && LevelsAtMost(st.cursor, st.level) && i <= |fields|
    ensures Below(st, WalkFields(defs, parse, fields, i, st))
    decreases 1 + FieldsSize(fields), 1, |fields| - i
  {
    if i == |fields| {
      assert st.paths[..|st.paths|] == st.paths;
    } else {
      FieldSmaller(fields, i);
      var s := Entry(defs, parse, fields[i].0, fields[i].1, st);
      EntryBelow(defs, parse, fields[i].0, fields[i].1, st);
      WalkFieldsBelow(defs, parse, fields, i + 1, s);
      BelowTrans(st, s, WalkFields(defs, parse, fields, i + 1, s));
    }
  }

  lemma {:induction false} WalkItemsBelow(defs: Definitions, parse: Parser, items: seq<Json>, i: nat, st: SelState)
    requires ParseShrinks(parse) && LevelsAtMost(st.cursor, st.level) && i <= |items|
    ensures Below(st, WalkItems(defs, parse, items, i, st))
    decreases 1 + ItemsSize(items), 1, |items| - i
  {
    if i == |items| {
      assert st.paths[..|st.paths|] == st.paths;
    } else {
      ItemSmaller(items, i);
      var s := Item(defs, parse, items[i], st);
      WalkBelow(defs, parse, Loaded(parse, items[i]), st.(level := st.level + 1));
      WalkItemsBelow(defs, parse, items, i + 1, s);
      BelowTrans(st, s, WalkItems(defs, parse, items, i + 1, s));
    }
  }

  /** `_action_dict` records the key's own cursor first, and then only
      cursors below it while its value is walked. */
  lemma {:induction false} EntryBelow(defs: Definitions, parse: Parser, k: string, v: Json, st: SelState)
    requires ParseShrinks(parse) && LevelsAtMost(st.cursor, st.level)
    ensures var r := Entry(defs, parse, k, v, st);
      Below(st, r) && |st.paths| < |r.paths|
      && r.paths[|st.paths|] == st.cursor + [Segment(k, st.level + 1, TypeName(v))]
    decreases Size(v), 3, 0
  {
    var seg := Segment(k, st.level + 1, TypeName(v));
    var s2 := Enter(defs, parse, seg, v, st);
    var s3 := Walk(defs, parse, Loaded(parse, v), s2);
    EntryUnfold(defs, parse, k, v, st);
    WalkBelow(defs, parse, Loaded(parse, v), s2);
    assert s2.paths == st.paths + [st.cursor + [seg]];
    assert s3.paths[|st.paths|] == s3.paths[..|s2.paths|][|st.paths|];
    forall m | |st.paths| <= m < |s3.paths|
      ensures |st.cursor| < |s3.paths[m]| && s3.paths[m][..|st.cursor|] == st.cursor
    {
      if m > |st.paths| {
        assert s3.paths[m][..|st.cursor|] == s3.paths[m][..|s2.cursor|][..|st.cursor|];
      }
    }
    assert s3.paths[..|st.paths|] == s3.paths[..|s2.paths|][..|st.paths|];
  }

  // ---------------------------------------------------------------------
  // The whole selection

  /** `selected[key] = 'N/A'` for every definition, in order. */
  function NotAvailable(defs: Definitions): (r: seq<(string, Json)>)
    ensures Keys(r) == Names(defs) && Named(defs, r)
    ensures forall i :: 0 <= i < |defs| ==> r[i] == (defs[i].0, Str("N/A"))
  {
    var r := seq(|defs|, i requires 0 <= i < |defs| => (defs[i].0, Str("N/A")));
    assert forall i :: 0 <= i < |defs| ==> HasKey(r, defs[i].0) by {
      forall i | 0 <= i < |defs| ensures HasKey(r, defs[i].0) {
        assert r[i].0 == defs[i].0;
      }
    }
    r
  }

  function Begin(defs: Definitions): SelState
  {
    SelState([], 0, [], NotAvailable(defs), set i | 0 <= i < |defs| :: defs[i].0, true, None)
  }

  function Finish(defs: Definitions, parse: Parser, j: Json): SelState
    requires ParseShrinks(parse)
  {
    Walk(defs, parse, j, Begin(defs))
  }

  /** After the walk, a filtered field still unselected was never found: the
      record is dropped. */
  predicate Returning(defs: Definitions, s: SelState)
  {
    s.returning && !exists i :: 0 <= i < |defs| && defs[i].0 in s.unselected && Filtered(defs[i].1)
  }

  /** `MapSelect(definitions, json_data).iterit()`: the selected fields, or `{}`
      when a filter failed or a filtered field was never found. */
  function Select(defs: Definitions, parse: Parser, j: Json): Json
    requires ParseShrinks(parse)
  {
    var s := Finish(defs, parse, j);
    if Returning(defs, s) then Obj(s.selected) else Obj([])
  }

  /** `mapit()`: the key map of the walked value. */
  function SelectMap(defs: Definitions, parse: Parser, j: Json): Map
    requires ParseShrinks(parse)
  {
    AllMaps(PathTexts(Finish(defs, parse, j).paths))
  }

  /** An entry is in the key map exactly when the walk rendered a cursor to it,
      so a field can only be found at an entry of the map. */
  lemma InMapIffVisited(defs: Definitions, parse: Parser, j: Json, key: string)
    requires ParseShrinks(parse)
    ensures key in SelectMap(defs, parse, j).full <==> Visited(key, Finish(defs, parse, j).paths)
  {
    var ps := Finish(defs, parse, j).paths;
    var texts := PathTexts(ps);
    assert key in SelectMap(defs, parse, j).full <==> key in Elems(texts);
    if key in texts {
      var m :| 0 <= m < |texts| && texts[m] == key;
      assert Path(ps[m]) == key;
    }
    if Visited(key, ps) {
      var m :| 0 <= m < |ps| && Path(ps[m]) == key;
      assert texts[m] == key;
    }
  }

  /** A filtered field whose entry is missing from the key map drops the record. */
  lemma FilteredNotInMap(defs: Definitions, parse: Parser, j: Json, i: nat)
    requires ParseShrinks(parse) && Distinct(Names(defs))
    requires i < |defs| && Filtered(defs[i].1)
    requires defs[i].1.dictKey !in SelectMap(defs, parse, j).full
    ensures Select(defs, parse, j) == Obj([])
  {
    InMapIffVisited(defs, parse, j, defs[i].1.dictKey);
    FilteredNotFound(defs, parse, j, i);
  }

  function PathTexts(ps: seq<seq<Segment>>): (r: seq<string>)
    ensures |r| == |ps| && forall i :: 0 <= i < |ps| ==> r[i] == Path(ps[i])
  {
    if ps == [] then [] else [Path(ps[0])] + PathTexts(ps[1..])
  }

  /** A selection is either dropped (`{}`) or holds exactly the requested names,
      in request order, each filtered one with a value that passes its filter. */
  lemma SelectShape(defs: Definitions, parse: Parser, j: Json)
    requires ParseShrinks(parse) && Distinct(Names(defs))
    ensures var r := Select(defs, parse, j);
      r == Obj([]) || (r.Obj? && Keys(r.fields) == Names(defs)
        && forall i :: 0 <= i < |defs| && Filtered(defs[i].1) ==>
          Get(r.fields, defs[i].0).Some? && Passes(defs[i].1, Get(r.fields, defs[i].0).value))
  {
    var b := Begin(defs);
    var s := Finish(defs, parse, j);
    assert Chosen(defs, b);
    WalkSteps(defs, parse, j, b);
  }

  /** A filtered field whose entry the walk never reaches drops the record. */
  lemma FilteredNotFound(defs: Definitions, parse: Parser, j: Json, i: nat)
    requires ParseShrinks(parse) && Distinct(Names(defs))
    requires i < |defs| && Filtered(defs[i].1)
    requires !Visited(defs[i].1.dictKey, Finish(defs, parse, j).paths)
    ensures Select(defs, parse, j) == Obj([])
  {
    var b := Begin(defs);
    var s := Finish(defs, parse, j);
    WalkSteps(defs, parse, j, b);
    assert s.paths[|b.paths|..] == s.paths;
    assert defs[i].0 in b.unselected;
    assert defs[i].0 in s.unselected;
  }

  /** A field without a filter whose entry the walk never reaches stays 'N/A'. */
  lemma PlainNotFound(defs: Definitions, parse: Parser, j: Json, i: nat)
    requires ParseShrinks(parse) && Distinct(Names(defs))
    requires i < |defs| && !Filtered(defs[i].1)
    requires !Visited(defs[i].1.dictKey, Finish(defs, parse, j).paths)
    ensures var r := Select(defs, parse, j);
      r == Obj([]) || Get(r.fields, defs[i].0) == Some(Str("N/A"))
  {
    var b := Begin(defs);
    var s := Finish(defs, parse, j);
    WalkSteps(defs, parse, j, b);
    assert s.paths[|b.paths|..] == s.paths;
    NotAvailableGet(defs, i);
  }

  /** Before the walk every requested field reads 'N/A'. */
  lemma NotAvailableGet(defs: Definitions, i: nat)
    requires Distinct(Names(defs)) && i < |defs|
    ensures Get(NotAvailable(defs), defs[i].0) == Some(Str("N/A"))
  {
    var sel := NotAvailable(defs);
    assert sel[i] == (defs[i].0, Str("N/A"));
    assert forall k :: 0 <= k < |defs| && k != i ==> defs[k].0 != defs[i].0 by {
      assert forall k :: 0 <= k < |defs| ==> Names(defs)[k] == defs[k].0;
    }
    var g := Get(sel, defs[i].0);
    assert g.Some?;
    var k :| 0 <= k < |sel| && sel[k] == (defs[i].0, g.value);
    assert k == i;
  }

  // ---------------------------------------------------------------------
  // `_select_key` as written

  /** `_select_key` as the source writes it: a passing value is stored and the
      name deleted from `unselected` with `del`, which raises KeyError when an
      earlier cursor of the same walk already took it out. */
  function SelectFromAsWritten(defs: Definitions, i: nat, path: string, v: Json, st: SelState): (r: Result<SelState>)
    requires i <= |defs|
    decreases |defs| - i
  {
    if i == |defs| then Ok(st)
    else
      var name, d := defs[i].0, defs[i].1;
      if d.dictKey == path && Passes(d, v) && name !in st.unselected then
        Raise(KeyError, "'" + name + "'")
      else
        SelectFromAsWritten(defs, i + 1, path, v, SelectOne(defs[i], path, v, st))
  }

  /** As long as no field is matched a second time, the source's `_select_key`
      and the model's agree. */
  lemma {:induction false} AsWrittenAgrees(defs: Definitions, i: nat, path: string, v: Json, st: SelState)
    requires i <= |defs| && Distinct(Names(defs))
    requires forall j :: i <= j < |defs| && defs[j].1.dictKey == path && Passes(defs[j].1, v) ==> defs[j].0 in st.unselected
    ensures SelectFromAsWritten(defs, i, path, v, st) == Ok(SelectFrom(defs, i, path, v, st))
    decreases |defs| - i
  {
    if i < |defs| {
      var next := SelectOne(defs[i], path, v, st);
      forall j | i + 1 <= j < |defs| && defs[j].1.dictKey == path && Passes(defs[j].1, v)
        ensures defs[j].0 in next.unselected
      {
        NamesDiffer(defs, i, j);
      }
      AsWrittenAgrees(defs, i + 1, path, v, next);
    }
  }

  /** A field already taken by an earlier cursor raises KeyError when a later
      cursor of the walk renders to the same entry and passes again, as the two
      `b` values of `[{"a": [{"b": 1}, {"b": 2}]}]` do for a field whose entry
      is `[a#2#list][b#4#int]`. */
  lemma SecondMatchFails(defs: Definitions, i: nat, path: string, v: Json, st: SelState)
    requires i < |defs| && Distinct(Names(defs))
    requires defs[i].1.dictKey == path && Passes(defs[i].1, v) && defs[i].0 !in st.unselected
    ensures SelectFromAsWritten(defs, 0, path, v, st).Fail?
    ensures SelectFromAsWritten(defs, 0, path, v, st).error.kind == KeyError
  {
    SecondMatchFrom(defs, 0, i, path, v, st);
  }

  lemma {:induction false} SecondMatchFrom(defs: Definitions, k: nat, i: nat, path: string, v: Json, st: SelState)
    requires k <= i < |defs| && Distinct(Names(defs))
    requires defs[i].1.dictKey == path && Passes(defs[i].1, v) && defs[i].0 !in st.unselected
    ensures SelectFromAsWritten(defs, k, path, v, st).Fail?
    ensures SelectFromAsWritten(defs, k, path, v, st).error.kind == KeyError
    decreases i - k
  {
    if k < i {
      var name, d := defs[k].0, defs[k].1;
      if !(d.dictKey == path && Passes(d, v) && name !in st.unselected) {
        NamesDiffer(defs, k, i);
        SecondMatchFrom(defs, k + 1, i, path, v, SelectOne(defs[k], path, v, st));
      }
    }
  }

  /** The model's `_select_key` on the same input stores the later value and
      goes on. */
  lemma SecondMatchOverwrites(defs: Definitions, i: nat, path: string, v: Json, st: SelState)
    requires i < |defs| && Distinct(Names(defs))
    requires defs[i].1.dictKey == path && Passes(defs[i].1, v) && defs[i].0 !in st.unselected
    ensures Get(SelectFrom(defs, 0, path, v, st).selected, defs[i].0) == Some(v)
  {
    SelectTakes(defs, 0, i, path, v, st);
  }

  lemma {:induction false} SelectTakes(defs: Definitions, k: nat, i: nat, path: string, v: Json, st: SelState)
    requires k <= |defs| && i < |defs| && Distinct(Names(defs))
    requires defs[i].1.dictKey == path && Passes(defs[i].1, v)
    requires k <= i || Get(st.selected, defs[i].0) == Some(v)
    ensures Get(SelectFrom(defs, k, path, v, st).selected, defs[i].0) == Some(v)
    decreases |defs| - k
  {
    if k < |defs| {
      var next := SelectOne(defs[k], path, v, st);
      assert SelectFrom(defs, k, path, v, st) == SelectFrom(defs, k + 1, path, v, next);
      SelectOneTakes(defs, k, i, path, v, st);
      SelectTakes(defs, k + 1, i, path, v, next);
    } else {
      assert SelectFrom(defs, k, path, v, st) == st;
    }
  }

  /** One definition of `_select_key` stores a passing value under its own
      name and leaves the value of every other name. */
  lemma SelectOneTakes(defs: Definitions, k: nat, i: nat, path: string, v: Json, st: SelState)
    requires k < |defs| && i < |defs| && Distinct(Names(defs))
    requires defs[i].1.dictKey == path && Passes(defs[i].1, v)
    requires k <= i || Get(st.selected, defs[i].0) == Some(v)
    ensures k + 1 <= i || Get(SelectOne(defs[k], path, v, st).selected, defs[i].0) == Some(v)
  {
    if k == i {
      GetSet(st.selected, defs[i].0, v, defs[i].0);
    } else if defs[k].1.dictKey == path && Passes(defs[k].1, v) {
      NamesDiffer(defs, i, k);
      GetSet(st.selected, defs[k].0, v, defs[i].0);
    }
  }

  /** The flag of the state is where the source's `_select_key` raises: from
      a state where nothing has raised yet, the source fails exactly when the
      model records a field found a second time, naming that field, and
      otherwise both leave the same state. */
  lemma {:induction false} AsWrittenFlags(defs: Definitions, i: nat, path: string, v: Json, st: SelState)
    requires i <= |defs| && st.twice.None?
    ensures var r := SelectFrom(defs, i, path, v, st);
      SelectFromAsWritten(defs, i, path, v, st)
        == if r.twice.Some? then Raise(KeyError, "'" + r.twice.value + "'") else Ok(r)
    decreases |defs| - i
  {
    if i < |defs| {
      var next := SelectOne(defs[i], path, v, st);
      if !(defs[i].1.dictKey == path && Passes(defs[i].1, v) && defs[i].0 !in st.unselected) {
        AsWrittenFlags(defs, i + 1, path, v, next);
      }
    }
  }

  /** `MapSelect(definitions, json_data).iterit()` as written: the walk
      stops with KeyError at the first field found a second time (the two
      `b` values of `[{"a": [{"b": 1}, {"b": 2}]}]` for a field whose entry
      is `[a#2#list][b#4#int]`); otherwise it gives what `Select` gives. */
  function SelectAsWritten(defs: Definitions, parse: Parser, j: Json): (r: Result<Json>)
    requires ParseShrinks(parse)
    ensures r.Ok? ==> r.value == Select(defs, parse, j)
    ensures r.Fail? <==> Finish(defs, parse, j).twice.Some?
  {
    var s := Finish(defs, parse, j);
    if s.twice.Some? then Raise(KeyError, "'" + s.twice.value + "'") else Ok(Select(defs, parse, j))
  }

  // ---------------------------------------------------------------------
  // The walker object

  /** `MapSelect`: the walk over one value, with its state in fields. */
  class MapSelect {
    const definitions: Definitions
    var cursor: seq<Segment>
    var level: int
    var paths: seq<seq<Segment>>
    var selected: seq<(string, Json)>
    var unselected: set<string>
    var returning: bool
    var twice: Option<string>
    var keyMap: Map

    function State(): SelState
      reads this
    {
      SelState(cursor, level, paths, selected, unselected, returning, twice)
    }

    constructor (defs: Definitions)
      ensures definitions == defs && State() == SelState([], 0, [], [], {}, true, None)
    {
      definitions := defs;
      cursor, level, paths, selected, unselected, returning := [], 0, [], [], {}, true;
      twice := None;
      keyMap := Map([], [], []);
    }

    /** `iterit()` (`_iteration_context`): every field starts as 'N/A' and
        unselected, the value is walked, a filtered field never found drops
        the record, and the key map is built from the recorded cursors. */
    method IterIt(parse: Parser, j: Json) returns (r: Json)
      requires ParseShrinks(parse) && Distinct(Names(definitions))
      modifies this
      ensures r == Select(definitions, parse, j)
      ensures paths == Finish(definitions, parse, j).paths && keyMap == AllMaps(PathTexts(paths))
      ensures SelectAsWritten(definitions, parse, j)
           == if twice.Some? then Raise(KeyError, "'" + twice.value + "'") else Ok(r)
    {
      Initialise();
      IterateJson(parse, j);
      ghost var s := State();
      DropUnfound();
      keyMap := GenAllMaps(PathTexts(paths));
      if returning {
        r := Obj(selected);
      } else {
        r := Obj([]);
      }
    }

    /** The start of `_iteration_context`: empty cursor and map, `returning`
        set, and `selected[key] = 'N/A'`, `unselected[key] = ''` for every
        field. */
    method Initialise()
      requires Distinct(Names(definitions))
      modifies this
      ensures State() == Begin(definitions)
    {
      var sel, unsel := Unavailable(definitions);
      Reset(sel, unsel);
    }

    /** Every field marked `'N/A'` in `selected` and listed in `unselected`. */
    static method Unavailable(defs: Definitions) returns (sel: seq<(string, Json)>, unsel: set<string>)
      requires Distinct(Names(defs))
      ensures sel == NotAvailable(defs) && unsel == set k | 0 <= k < |defs| :: defs[k].0
    {
      sel, unsel := [], {};
      var i := 0;
      while i < |defs|
        invariant 0 <= i <= |defs|
        invariant sel == NotAvailable(defs[..i])
        invariant unsel == set k | 0 <= k < i :: defs[k].0
      {
        assert !HasKey(sel, defs[i].0) by {
          forall k | 0 <= k < i ensures sel[k].0 != defs[i].0 {
            NamesDiffer(defs, k, i);
          }
        }
        SetAbsent(sel, defs[i].0, Str("N/A"));
        assert NotAvailable(defs[..i + 1]) == NotAvailable(defs[..i]) + [(defs[i].0, Str("N/A"))];
        sel := Set(sel, defs[i].0, Str("N/A"));
        unsel := unsel + {defs[i].0};
        i := i + 1;
      }
      assert defs[..|defs|] == defs;
    }

    method Reset(sel: seq<(string, Json)>, unsel: set<string>)
      modifies this
      ensures State() == SelState([], 0, [], sel, unsel, true, None)
    {
      cursor, level, paths := [], 0, [];
      selected, unselected, returning, twice := sel, unsel, true, None;
    }

    /** The closing check over `unselected`: a filtered field never found
        clears `returning`. */
    method DropUnfound()
      modifies this
      ensures State() == old(State()).(returning := Returning(definitions, old(State())))
    {
      var i := 0;
      while i < |definitions|
        invariant 0 <= i <= |definitions|
        invariant State() == old(State()).(returning := returning)
        invariant returning == (old(returning)
          && !exists k :: 0 <= k < i && definitions[k].0 in unselected && Filtered(definitions[k].1))
      {
        if definitions[i].0 in unselected && Filtered(definitions[i].1) {
          returning := false;
        }
        i := i + 1;
      }
    }

    /** `mapit()`: the key map, from a fresh walk. */
    method MapIt(parse: Parser, j: Json) returns (m: Map)
      requires ParseShrinks(parse) && Distinct(Names(definitions))
      modifies this
      ensures m == SelectMap(definitions, parse, j)
    {
      var _ := IterIt(parse, j);
      m := keyMap;
    }

    method IterateJson(parse: Parser, j: Json)
      requires ParseShrinks(parse) && LevelsAtMost(cursor, level)
      modifies this
      ensures State() == Walk(definitions, parse, j, old(State()))
      decreases Size(j), 2, 0
    {
      match j
      case Obj(fields) => IterateDict(parse, fields);
      case Arr(items) => IterateList(parse, items);
      case _ =>
    }

    method IterateDict(parse: Parser, fields: seq<(string, Json)>)
      requires ParseShrinks(parse) && LevelsAtMost(cursor, level)
      modifies this
      ensures State() == WalkFields(definitions, parse, fields, 0, old(State()))
      decreases 1 + FieldsSize(fields), 1, |fields|
    {
      var i := 0;
      while i < |fields|
        invariant 0 <= i <= |fields|
        invariant LevelsAtMost(cursor, level)
        invariant WalkFields(definitions, parse, fields, 0, old(State())) == WalkFields(definitions, parse, fields, i, State())
        decreases |fields| - i
      {
        FieldSmaller(fields, i);
        ActionDict(parse, fields[i].0, fields[i].1);
        i := i + 1;
      }
    }

    method IterateList(parse: Parser, items: seq<Json>)
      requires ParseShrinks(parse) && LevelsAtMost(cursor, level)
      modifies this
      ensures State() == WalkItems(definitions, parse, items, 0, old(State()))
      decreases 1 + ItemsSize(items), 1, |items|
    {
      var i := 0;
      while i < |items|
        invariant 0 <= i <= |items|
        invariant LevelsAtMost(cursor, level)
        invariant WalkItems(definitions, parse, items, 0, old(State())) == WalkItems(definitions, parse, items, i, State())
        decreases |items| - i
      {
        ItemSmaller(items, i);
        ActionList(parse, items[i]);
        i := i + 1;
      }
    }

    /** `_action_dict`. */
    method ActionDict(parse: Parser, k: string, v: Json)
      requires ParseShrinks(parse) && LevelsAtMost(cursor, level)
      modifies this
      ensures State() == Entry(definitions, parse, k, v, old(State()))
      decreases Size(v), 3, 0
    {
      ghost var st := State();
      var seg := Segment(k, level + 1, TypeName(v));
      assert seg == Segment(k, st.level + 1, TypeName(v));
      var value := Descend(parse, seg, v);
      ghost var s2 := State();
      IterateJson(parse, value);
      ghost var s3 := State();
      Ascend(seg);
      assert State() == Leave(seg, s3);
      EntryIs(definitions, parse, k, v, st, seg, s2, s3, State());
    }

    /** The last half of `_action_dict`: the segment comes off the cursor
        (`cursor.replace(metadata, '')`), one level up. */
    method Ascend(seg: Segment)
      modifies this
      ensures State() == old(State()).(cursor := Without(old(cursor), seg), level := old(level) - 1)
    {
      cursor := Without(cursor, seg);
      level := level - 1;
    }

    /** The first half of `_action_dict`: level and cursor go one deeper, the
        value is parsed and offered to `_select_key`, the cursor recorded. */
    method Descend(parse: Parser, seg: Segment, v: Json) returns (value: Json)
      requires ParseShrinks(parse) && LevelsAtMost(cursor, level) && seg.level == level + 1
      modifies this
      ensures value == Loaded(parse, v)
      ensures State() == Enter(definitions, parse, seg, v, old(State()))
    {
      ghost var st := State();
      level := level + 1;
      cursor := cursor + [seg];
      value := Loaded(parse, v);
      ghost var inner := State();
      assert inner == st.(cursor := st.cursor + [seg], level := seg.level);
      SelectKey(Path(cursor), value);
      ghost var s1 := State();
      assert s1 == SelectFrom(definitions, 0, Path(inner.cursor), Loaded(parse, v), inner);
      paths := paths + [cursor];
      EnterIs(definitions, parse, seg, v, st, inner, s1);
    }

    /** `_action_list`. */
    method ActionList(parse: Parser, v: Json)
      requires ParseShrinks(parse) && LevelsAtMost(cursor, level)
      modifies this
      ensures State() == Item(definitions, parse, v, old(State()))
      decreases Size(v), 3, 0
    {
      level := level + 1;
      IterateJson(parse, Loaded(parse, v));
      level := level - 1;
    }

    /** `_select_key(found_metadata, found_value)`, with the name taken out of
        `unselected` without raising when it is already out; the first such
        name is kept in `twice`. */
    method SelectKey(path: string, v: Json)
      modifies this
      ensures State() == SelectFrom(definitions, 0, path, v, old(State()))
    {
      var i := 0;
      while i < |definitions|
        invariant 0 <= i <= |definitions|
        invariant SelectFrom(definitions, 0, path, v, old(State())) == SelectFrom(definitions, i, path, v, State())
      {
        var name, d := definitions[i].0, definitions[i].1;
        if d.dictKey == path {
          if Passes(d, v) {
            if twice.None? && name !in unselected {
              twice := Some(name);
            }
            selected := Set(selected, name, v);
            unselected := unselected - {name};
          } else {
            returning := false;
          }
        }
        i := i + 1;
      }
    }
  }
}
