// What `_iterate_json` yields in each of rbkcli's json editors: the plain
// editor and the filter keep each record's selection, the context editor
// flattens the selected values, and the loop editor calls back once per value
// of the loop key.

module Selecting {
  import opened Wrappers
  import opened Lists
  import opened Json
  import opened MapSelection
  import opened Looping

  /** The error of `_iterate_json` on data that is neither a dictionary nor a
      list: its result variable is never assigned. */
  const Unassigned: Error := Error(UnboundLocalError, "local variable 'selected_data' referenced before assignment")

  // ---------------------------------------------------------------------
  // The plain editor and the filter

  /** The selection of one record of a list, made as a one-record list. */
  function RecordSelection(defs: Definitions, parse: Parser, item: Json): Json
    requires ParseShrinks(parse)
  {
    Select(defs, parse, Arr([item]))
  }

  /** The selection of every record of a list, in order. */
  function Selections(defs: Definitions, parse: Parser, items: seq<Json>): (r: seq<Json>)
    requires ParseShrinks(parse)
    ensures |r| == |items| && forall i :: 0 <= i < |items| ==> r[i] == RecordSelection(defs, parse, items[i])
  {
    seq(|items|, i requires 0 <= i < |items| => RecordSelection(defs, parse, items[i]))
  }

  /** `_iterate_list`: the selections, leaving out those that select nothing (`{}`). */
  function Kept(sels: seq<Json>): (r: seq<Json>)
    ensures |r| <= |sels|
  {
    if sels == [] then []
    else
      var n := |sels| - 1;
      if sels[n] == Obj([]) then Kept(sels[..n]) else Kept(sels[..n]) + [sels[n]]
  }

  /** The last selection is kept unless it selects nothing. */
  lemma KeptLast(sels: seq<Json>)
    requires sels != []
    ensures var n := |sels| - 1;
      Kept(sels) == if sels[n] == Obj([]) then Kept(sels[..n]) else Kept(sels[..n]) + [sels[n]]
  {
  }

  /** Exactly the selections that select something are kept. */
  lemma {:induction false} KeptExactly(sels: seq<Json>, s: Json)
    ensures s in Kept(sels) <==> s in sels && s != Obj([])
  {
    if sels != [] {
      var n := |sels| - 1;
      KeptExactly(sels[..n], s);
      assert sels == sels[..n] + [sels[n]];
    }
  }

  /** Keeping preserves the order of the selections. */
  lemma {:induction false} KeptOrder(a: seq<Json>, b: seq<Json>)
    ensures Kept(a + b) == Kept(a) + Kept(b)
    decreases |b|
  {
    if b != [] {
      var n := |b| - 1;
      assert (a + b)[..|a| + n] == a + b[..n];
      KeptOrder(a, b[..n]);
    } else {
      assert a + b == a;
    }
  }

  /** `_iterate_json` of the plain editor and the filter. */
  function PlainSelection(defs: Definitions, parse: Parser, data: Json): (r: Result<Json>)
    requires ParseShrinks(parse)
    ensures r.Fail? <==> !data.Obj? && !data.Arr?
    ensures data.Arr? ==> r.Ok? && r.value.Arr? && |r.value.items| <= |data.items|
  {
    match data
    case Obj(_) => Ok(Select(defs, parse, data))
    case Arr(items) => Ok(Arr(Kept(Selections(defs, parse, items))))
    case _ => Fail(Unassigned)
  }

  // ---------------------------------------------------------------------
  // The context editor

  /** The values of one selection, lists spread out. */
  function ContextValues(s: Json): seq<Json>
  {
    if s.Obj? then Flat(Values(s.fields)) else []
  }

  /** The context editor's `_iterate_list`: the spread values of every
      selection that selects something. */
  function ContextList(sels: seq<Json>): seq<Json>
  {
    if sels == [] then []
    else
      var n := |sels| - 1;
      if sels[n] == Obj([]) then ContextList(sels[..n]) else ContextList(sels[..n]) + ContextValues(sels[n])
  }

  /** The last selection adds its values unless it selects nothing. */
  lemma ContextListLast(sels: seq<Json>)
    requires sels != []
    ensures var n := |sels| - 1;
      ContextList(sels) == if sels[n] == Obj([]) then ContextList(sels[..n]) else ContextList(sels[..n]) + ContextValues(sels[n])
  {
  }

  /** The spread values of several selections, in order. */
  function AllValues(sels: seq<Json>): seq<Json>
  {
    if sels == [] then [] else AllValues(sels[..|sels| - 1]) + ContextValues(sels[|sels| - 1])
  }

  /** The context editor shows exactly the values of the selections the plain
      editor keeps, flattened. */
  lemma {:induction false} ContextOfKept(sels: seq<Json>)
    ensures ContextList(sels) == AllValues(Kept(sels))
  {
    if sels != [] {
      var n := |sels| - 1;
      ContextOfKept(sels[..n]);
      var prev := Kept(sels[..n]);
      if sels[n] != Obj([]) {
        assert (prev + [sels[n]])[..|prev|] == prev;
      }
    }
  }

  /** `_iterate_json` of the context editor. */
  function ContextSelection(defs: Definitions, parse: Parser, data: Json): (r: Result<Json>)
    requires ParseShrinks(parse)
    ensures r.Fail? <==> !data.Obj? && !data.Arr?
    ensures r.Ok? ==> r.value.Arr?
  {
    match data
    case Obj(_) => Ok(Arr(ContextValues(Select(defs, parse, data))))
    case Arr(items) => Ok(Arr(ContextList(Selections(defs, parse, items))))
    case _ => Fail(Unassigned)
  }

  // ---------------------------------------------------------------------
  // The loop editor

  /** The loop editor's `_iterate_list`: the callbacks of every record that
      selects something, results concatenated, stopping at the first error. */
  function LoopList(callback: string -> string, parse: Parser, api: string, key: string,
                    sels: seq<Json>): (r: Outcome)
  {
    if sels == [] then Outcome([], [], None)
    else
      var n := |sels| - 1;
      var prev := LoopList(callback, parse, api, key, sels[..n]);
      if prev.error.Some? then prev
      else
        match sels[n]
        case Obj(fields) =>
          if fields == [] then prev
          else
            var o := Calls(callback, parse, api, key, fields);
            Outcome(prev.results + o.results, prev.sent + o.sent, o.error)
        case _ => prev
  }

  /** One more selection after a prefix without error: its calls, if it
      selected anything, are added. */
  lemma LoopListLast(callback: string -> string, parse: Parser, api: string, key: string, sels: seq<Json>)
    requires sels != [] && LoopList(callback, parse, api, key, sels[..|sels| - 1]).error.None?
    ensures var prev := LoopList(callback, parse, api, key, sels[..|sels| - 1]);
      var last := sels[|sels| - 1];
      LoopList(callback, parse, api, key, sels)
        == if last.Obj? && last.fields != [] then
             var o := Calls(callback, parse, api, key, last.fields);
             Outcome(prev.results + o.results, prev.sent + o.sent, o.error)
           else prev
  {
  }

  lemma LoopListErrorLast(callback: string -> string, parse: Parser, api: string, key: string, sels: seq<Json>)
    requires sels != [] && LoopList(callback, parse, api, key, sels[..|sels| - 1]).error.Some?
    ensures LoopList(callback, parse, api, key, sels) == LoopList(callback, parse, api, key, sels[..|sels| - 1])
  {
  }

  /** The loop stops at the first error: an error after a prefix of the
      selections is the outcome of all of them. */
  lemma {:induction false} LoopListStops(callback: string -> string, parse: Parser, api: string, key: string,
                                         sels: seq<Json>, n: nat)
    requires n <= |sels| && LoopList(callback, parse, api, key, sels[..n]).error.Some?
    ensures LoopList(callback, parse, api, key, sels) == LoopList(callback, parse, api, key, sels[..n])
    decreases |sels| - n
  {
    if n < |sels| {
      PrefixStep(sels, n);
      LoopListErrorLast(callback, parse, api, key, sels[..n + 1]);
      LoopListStops(callback, parse, api, key, sels, n + 1);
    } else {
      assert sels[..n] == sels;
    }
  }

  /** The number of loop values of the selections: one callback each. */
  function ValueCount(sels: seq<Json>, key: string): nat
  {
    if sels == [] then 0
    else
      var s := sels[|sels| - 1];
      ValueCount(sels[..|sels| - 1], key) + (if s.Obj? then |LoopValues(s.fields, key)| else 0)
  }

  /** A loop over a list calls back once per loop value of every selection
      the plain editor keeps, and never more. */
  lemma {:induction false} LoopListCalls(callback: string -> string, parse: Parser, api: string, key: string,
                                         sels: seq<Json>)
    ensures var r := LoopList(callback, parse, api, key, sels);
      |r.sent| <= ValueCount(Kept(sels), key)
      && (r.error.None? ==> |r.sent| == ValueCount(Kept(sels), key))
  {
    if sels != [] {
      var n := |sels| - 1;
      LoopListCalls(callback, parse, api, key, sels[..n]);
      KeptLast(sels);
      var prev := Kept(sels[..n]);
      if sels[n] != Obj([]) {
        assert (prev + [sels[n]])[..|prev|] == prev;
        assert ValueCount(prev + [sels[n]], key)
          == ValueCount(prev, key) + (if sels[n].Obj? then |LoopValues(sels[n].fields, key)| else 0);
      }
      if LoopList(callback, parse, api, key, sels[..n]).error.Some? {
        LoopListErrorLast(callback, parse, api, key, sels);
      } else {
        LoopListLast(callback, parse, api, key, sels);
      }
    }
  }

  /** The calls for one selected dictionary; anything else calls nothing. */
  function SelectionCalls(callback: string -> string, parse: Parser, api: string, key: string, s: Json): Outcome
  {
    match s
    case Obj(fields) => Calls(callback, parse, api, key, fields)
    case _ => Outcome([], [], None)
  }

  /** `_iterate_json` of the loop editor. */
  function LoopSelection(callback: string -> string, parse: Parser, api: string, key: string,
                         defs: Definitions, data: Json): (r: Outcome)
    requires ParseShrinks(parse)
    ensures !data.Obj? && !data.Arr? ==> r == Outcome([], [], Some(Unassigned))
  {
    match data
    case Obj(_) => SelectionCalls(callback, parse, api, key, Select(defs, parse, data))
    case Arr(items) => LoopList(callback, parse, api, key, Selections(defs, parse, items))
    case _ => Outcome([], [], Some(Unassigned))
  }
}
