// The loop editor of rbkcli's json handler: an API template holding one
// placeholder (`{key}` or `{{key}}`), one callback per value the selected
// record offers for that key, and each response annotated with `loop_<name>`
// entries that carry the selected values along.

module Looping {
  import opened Wrappers
  import opened Strings
  import opened Json

  // ---------------------------------------------------------------------
  // The template

  /** A text without either brace character. */
  predicate NoBraces(s: string)
  {
    '{' !in s && '}' !in s
  }

  /** `_split_api_key`: the name between the first `{{` and the next `}}`;
      failing that, between the first `{` and the next `}`; otherwise empty. */
  function LoopKey(api: string): string
  {
    if Contains(api, "{{") then
      SplitHead(api, "{{");
      Split(Split(api, "{{")[1], "}}")[0]
    else if Contains(api, "{") then
      SplitHead(api, "{");
      Split(Split(api, "{")[1], "}")[0]
    else ""
  }

  /** The marks around the placeholder: doubled braces when the template holds
      `{{`, single ones when it holds `{`, none otherwise. */
  function Marks(api: string): Option<(string, string)>
  {
    if Contains(api, "{{") then Some(("{{", "}}"))
    else if Contains(api, "{") then Some(("{", "}"))
    else None
  }

  /** `a{k}b` with brace-free parts holds no `{{` and does hold `{`. */
  lemma SingleMarks(a: string, k: string, b: string)
    requires NoBraces(a) && NoBraces(k) && NoBraces(b)
    ensures Marks(a + "{" + k + "}" + b) == Some(("{", "}"))
  {
    var api := a + "{" + k + "}" + b;
    assert OccursAt(api, "{", |a|) by { assert api[|a|..|a| + 1] == "{"; }
    OccursContains(api, "{", |a|);
    forall j | 0 <= j && j + 2 <= |api|
      ensures !OccursAt(api, "{{", j)
    {
      assert OccursAt(api, "{{", j) ==> api[j] == '{' && api[j + 1] == '{' by {
        assert api[j..j + 2][0] == api[j] && api[j..j + 2][1] == api[j + 1];
      }
      if j < |a| {
        assert api[j] == a[j];
      } else if j == |a| {
        assert api[j + 1] == (k + "}" + b)[0];
      } else {
        assert api[j] == (k + "}" + b)[j - |a| - 1];
      }
    }
    ContainsIff(api, "{{");
  }

  /** The placeholder `{{k}}` names the loop key. */
  lemma LoopKeyDoubled(a: string, k: string, b: string)
    requires NoBraces(a) && NoBraces(k) && NoBraces(b)
    ensures LoopKey(a + "{{" + k + "}}" + b) == k
  {
    var api := a + "{{" + k + "}}" + b;
    assert api == a + "{{" + (k + "}}" + b);
    assert OccursAt(api, "{{", |a|) by { assert api[|a|..|a| + 2] == "{{"; }
    OccursContains(api, "{{", |a|);
    SplitFirst(a, "{{", k + "}}" + b);
    HeadAbsent(k + "}}" + b, "{{");
    SplitAbsent(k + "}}" + b, "{{");
    SplitFirst(k, "}}", b);
  }

  /** The placeholder `{k}` names the loop key. */
  lemma LoopKeySingle(a: string, k: string, b: string)
    requires NoBraces(a) && NoBraces(k) && NoBraces(b)
    ensures LoopKey(a + "{" + k + "}" + b) == k
  {
    var api := a + "{" + k + "}" + b;
    SingleMarks(a, k, b);
    assert api == a + "{" + (k + "}" + b);
    SplitFirst(a, "{", k + "}" + b);
    HeadAbsent(k + "}" + b, "{");
    SplitAbsent(k + "}" + b, "{");
    SplitFirst(k, "}", b);
  }

  /** The API one loop value produces: the placeholder replaced by the value,
      then every brace widened to the template's marks.  A template without
      braces leaves the marks unbound (UnboundLocalError); a value that is not
      a string cannot stand in a text (TypeError). */
  function Substituted(api: string, key: string, value: Json): (r: Result<string>)
    ensures r.Fail? <==> Marks(api).None? || !value.Str?
  {
    match Marks(api)
    case None => Fail(Error(UnboundLocalError, "local variable 'start_sign' referenced before assignment"))
    case Some(m) =>
      if !value.Str? then Fail(Error(TypeError, "replace() argument 2 must be str, not " + TypeName(value)))
      else Ok(Replace(Replace(Replace(api, m.0 + key + m.1, value.s), "{", m.0), "}", m.1))
  }

  /** Brace-free text is left alone by the widening of the marks. */
  lemma WidenNothing(s: string, m0: string, m1: string)
    requires NoBraces(s)
    ensures Replace(Replace(s, "{", m0), "}", m1) == s
  {
    HeadAbsent(s, "{");
    ReplaceAbsent(s, "{", m0);
    HeadAbsent(s, "}");
    ReplaceAbsent(s, "}", m1);
  }

  /** With `{k}` as the only placeholder, the value takes its place and the
      rest of the template is unchanged. */
  lemma SubstituteSingle(a: string, k: string, b: string, v: string)
    requires NoBraces(a) && NoBraces(k) && NoBraces(b) && NoBraces(v)
    ensures Substituted(a + "{" + k + "}" + b, k, Str(v)) == Ok(a + v + b)
  {
    SingleMarks(a, k, b);
    var sep := "{" + k + "}";
    assert a + "{" + k + "}" + b == a + sep + b;
    ReplaceFirst(a, sep, b, v);
    HeadAbsent(b, sep);
    ReplaceAbsent(b, sep, v);
    WidenNothing(a + v + b, "{", "}");
  }

  /** With `{{k}}` as the only placeholder, the value takes its place and the
      rest of the template is unchanged. */
  lemma SubstituteDoubled(a: string, k: string, b: string, v: string)
    requires NoBraces(a) && NoBraces(k) && NoBraces(b) && NoBraces(v)
    ensures Substituted(a + "{{" + k + "}}" + b, k, Str(v)) == Ok(a + v + b)
  {
    var api := a + "{{" + k + "}}" + b;
    assert OccursAt(api, "{{", |a|) by { assert api[|a|..|a| + 2] == "{{"; }
    OccursContains(api, "{{", |a|);
    var sep := "{{" + k + "}}";
    assert api == a + sep + b;
    ReplaceFirst(a, sep, b, v);
    HeadAbsent(b, sep);
    ReplaceAbsent(b, sep, v);
    WidenNothing(a + v + b, "{{", "}}");
  }

  // ---------------------------------------------------------------------
  // Annotating a response

  /** `value[0]` after a non-list value is wrapped in a list: the first item
      of a list, the value itself otherwise, nothing for an empty list. */
  function FirstValue(value: Json): (r: Option<Json>)
    ensures r.None? <==> value == Arr([])
    ensures !value.Arr? ==> r == Some(value)
  {
    if value.Arr? then (if value.items == [] then None else Some(value.items[0]))
    else Some(value)
  }

  /** `line[name] = first` on every line of a list response.  The value is
      read before the line is written, so an empty selected list fails before
      a line that is not a dictionary does; an empty response fails neither. */
  function AnnotateItems(items: seq<Json>, name: string, first: Option<Json>): (r: Result<seq<Json>>)
    ensures r.Ok? ==> |r.value| == |items|
  {
    if items == [] then Ok([])
    else if first.None? then Fail(Error(IndexError, "list index out of range"))
    else if items[0].Arr? then Fail(Error(TypeError, "list indices must be integers or slices, not str"))
    else if !items[0].Obj? then Fail(Error(TypeError, "'" + TypeName(items[0]) + "' object does not support item assignment"))
    else
      match AnnotateItems(items[1..], name, first)
      case Fail(e) => Fail(e)
      case Ok(rest) => Ok([Obj(Set(items[0].fields, name, first.value))] + rest)
  }

  /** One selected pair `(key, value)` written into the response as
      `loop_<key>`: into a dictionary, into every line of a list, and into
      nothing else. */
  function AnnotateOne(result: Json, key: string, value: Json): (r: Result<Json>)
  {
    var name := "loop_" + key;
    var first := FirstValue(value);
    match result
    case Obj(fields) =>
      if first.None? then Fail(Error(IndexError, "list index out of range"))
      else Ok(Obj(Set(fields, name, first.value)))
    case Arr(items) =>
      (match AnnotateItems(items, name, first)
       case Fail(e) => Fail(e)
       case Ok(xs) => Ok(Arr(xs)))
    case _ => Ok(result)
  }

  /** Every selected pair written into the response, in the selection's order. */
  function Annotate(result: Json, selected: seq<(string, Json)>): (r: Result<Json>)
    decreases |selected|
  {
    if selected == [] then Ok(result)
    else
      match AnnotateOne(result, selected[0].0, selected[0].1)
      case Fail(e) => Fail(e)
      case Ok(next) => Annotate(next, selected[1..])
  }

  /** Annotation keeps a response's shape: a dictionary stays a dictionary, a
      list keeps its length, anything else is returned as it was. */
  lemma {:induction false} AnnotateShape(result: Json, selected: seq<(string, Json)>)
    ensures Annotate(result, selected).Ok? ==>
      match result
      case Obj(_) => Annotate(result, selected).value.Obj?
      case Arr(items) => Annotate(result, selected).value.Arr? && |Annotate(result, selected).value.items| == |items|
      case _ => Annotate(result, selected).value == result
    decreases |selected|
  {
    if selected != [] {
      match AnnotateOne(result, selected[0].0, selected[0].1)
      case Fail(_) =>
      case Ok(next) => AnnotateShape(next, selected[1..]);
    }
  }

  /** A key that no selected pair writes keeps its value in a dictionary response. */
  lemma {:induction false} AnnotateKeeps(fields: seq<(string, Json)>, selected: seq<(string, Json)>, other: string)
    requires forall i :: 0 <= i < |selected| ==> "loop_" + selected[i].0 != other
    ensures Annotate(Obj(fields), selected).Ok? ==>
      Annotate(Obj(fields), selected).value.Obj? &&
      Get(Annotate(Obj(fields), selected).value.fields, other) == Get(fields, other)
    decreases |selected|
  {
    if selected != [] {
      match AnnotateOne(Obj(fields), selected[0].0, selected[0].1)
      case Fail(_) =>
      case Ok(next) =>
        GetSet(fields, "loop_" + selected[0].0, FirstValue(selected[0].1).value, other);
        AnnotateKeeps(next.fields, selected[1..], other);
    }
  }

  /** A dictionary response gains `loop_<key>` holding the first value of every
      selected pair, and fails exactly when some selected value is an empty list. */
  lemma {:induction false} AnnotateSetsLoopKeys(fields: seq<(string, Json)>, selected: seq<(string, Json)>)
    requires UniqueKeys(selected)
    ensures Annotate(Obj(fields), selected).Ok? <==> forall i :: 0 <= i < |selected| ==> selected[i].1 != Arr([])
    ensures Annotate(Obj(fields), selected).Ok? ==>
      Annotate(Obj(fields), selected).value.Obj? &&
      forall i :: 0 <= i < |selected| ==>
        Get(Annotate(Obj(fields), selected).value.fields, "loop_" + selected[i].0) == FirstValue(selected[i].1)
    decreases |selected|
  {
    if selected != [] {
      var name := "loop_" + selected[0].0;
      var first := FirstValue(selected[0].1);
      if first.Some? {
        var next := Set(fields, name, first.value);
        assert UniqueKeys(selected[1..]) by {
          forall i, j | 0 <= i < j < |selected[1..]| ensures selected[1..][i].0 != selected[1..][j].0 {
            assert selected[1..][i] == selected[i + 1] && selected[1..][j] == selected[j + 1];
          }
        }
        AnnotateSetsLoopKeys(next, selected[1..]);
        forall i | 0 <= i < |selected[1..]| ensures "loop_" + selected[1..][i].0 != name {
          assert selected[1..][i] == selected[i + 1];
          assert selected[i + 1].0 != selected[0].0;
          assert ("loop_" + selected[i + 1].0)[5..] == selected[i + 1].0;
          assert name[5..] == selected[0].0;
        }
        AnnotateKeeps(next, selected[1..], name);
        GetSet(fields, name, first.value, name);
        forall i | 1 <= i < |selected| ensures selected[i] == selected[1..][i - 1] {}
      }
    }
  }

  // ---------------------------------------------------------------------
  // Collecting the responses

  /** The values a selected record offers for the loop key: every item of a
      list, any other value itself, none when the key is missing. */
  function LoopValues(selected: seq<(string, Json)>, key: string): (r: seq<Json>)
    ensures !HasKey(selected, key) ==> r == []
    ensures HasKey(selected, key) && !Get(selected, key).value.Arr? ==> r == [Get(selected, key).value]
  {
    match Get(selected, key)
    case None => []
    case Some(v) => if v.Arr? then v.items else [v]
  }

  /** `list_protection`: a list response adds its items, anything else adds itself. */
  function ListProtection(toAppend: Json, final: seq<Json>): seq<Json>
  {
    if toAppend.Arr? then final + toAppend.items else final + [toAppend]
  }

  /** The items one response contributes to the collected results. */
  function Spread(j: Json): (r: seq<Json>)
    ensures !j.Arr? ==> r == [j]
  {
    if j.Arr? then j.items else [j]
  }

  /** Every response spread out, first to last. */
  function Flat(rs: seq<Json>): seq<Json>
  {
    if rs == [] then [] else Spread(rs[0]) + Flat(rs[1..])
  }

  lemma {:induction false} FlatSnoc(rs: seq<Json>, x: Json)
    ensures Flat(rs + [x]) == Flat(rs) + Spread(x)
  {
    if rs != [] {
      assert (rs + [x])[1..] == rs[1..] + [x];
      FlatSnoc(rs[1..], x);
    }
  }

  /** Responses collected one by one with `list_protection`. */
  function Protected(rs: seq<Json>): seq<Json>
  {
    if rs == [] then [] else ListProtection(rs[|rs| - 1], Protected(rs[..|rs| - 1]))
  }

  /** Collecting with `list_protection` flattens exactly one level: list
      responses contribute their items, others themselves, in order. */
  lemma {:induction false} ProtectedFlat(rs: seq<Json>)
    ensures Protected(rs) == Flat(rs)
  {
    if rs != [] {
      var n := |rs| - 1;
      ProtectedFlat(rs[..n]);
      FlatSnoc(rs[..n], rs[n]);
      assert rs[..n] + [rs[n]] == rs;
    }
  }

  /** What a run of callbacks leaves: the collected results, the APIs sent,
      and the error that stopped it, if any. */
  datatype Outcome = Outcome(results: seq<Json>, sent: seq<string>, error: Option<Error>)

  /** The reply to one API sent: parsed (ValueError when it is not json) and
      annotated with the selected pairs. */
  function Reply(callback: string -> string, parse: Parser, text: string, selected: seq<(string, Json)>): (r: Result<Json>)
  {
    match parse(callback(text))
    case None => Fail(Error(ValueError, "Expecting value"))
    case Some(reply) => Annotate(reply, selected)
  }

  /** One turn of `_call_api`'s loop: substitute the value, call back, and
      collect the annotated reply. */
  function CallOne(callback: string -> string, parse: Parser, api: string, key: string,
                   selected: seq<(string, Json)>, value: Json, acc: Outcome): (r: Outcome)
    requires acc.error.None?
    ensures Substituted(api, key, value).Fail? ==> r.sent == acc.sent && r.error.Some?
    ensures Substituted(api, key, value).Ok? ==> r.sent == acc.sent + [Substituted(api, key, value).value]
  {
    match Substituted(api, key, value)
    case Fail(e) => acc.(error := Some(e))
    case Ok(text) =>
      match Reply(callback, parse, text, selected)
      case Fail(e) => Outcome(acc.results, acc.sent + [text], Some(e))
      case Ok(annotated) => Outcome(ListProtection(annotated, acc.results), acc.sent + [text], None)
  }

  /** `_call_api` from the given value on, stopping at the first error. */
  function CallsFrom(callback: string -> string, parse: Parser, api: string, key: string,
                     selected: seq<(string, Json)>, values: seq<Json>, acc: Outcome): (r: Outcome)
    requires acc.error.None?
    ensures |acc.sent| <= |r.sent| <= |acc.sent| + |values| && r.sent[..|acc.sent|] == acc.sent
    ensures r.error.None? ==> |r.sent| == |acc.sent| + |values|
    decreases |values|
  {
    if values == [] then acc
    else
      var next := CallOne(callback, parse, api, key, selected, values[0], acc);
      if next.error.Some? then next
      else
        var r := CallsFrom(callback, parse, api, key, selected, values[1..], next);
        assert r.sent[..|acc.sent|] == next.sent[..|acc.sent|];
        r
  }

  /** `_call_api` on one selected record. */
  function Calls(callback: string -> string, parse: Parser, api: string, key: string,
                 selected: seq<(string, Json)>): (r: Outcome)
    ensures r.error.None? ==> |r.sent| == |LoopValues(selected, key)|
    ensures |r.sent| <= |LoopValues(selected, key)|
  {
    CallsFrom(callback, parse, api, key, selected, LoopValues(selected, key), Outcome([], [], None))
  }

  /** A record without the loop key makes no call and yields nothing, even
      when the template has no placeholder. */
  lemma MissingKeyNoCalls(callback: string -> string, parse: Parser, api: string, key: string,
                          selected: seq<(string, Json)>)
    requires !HasKey(selected, key)
    ensures Calls(callback, parse, api, key, selected) == Outcome([], [], None)
  {
  }

  /** The i-th API sent is the template filled with the i-th loop value. */
  lemma {:induction false} CallsFromSent(callback: string -> string, parse: Parser, api: string, key: string,
                                         selected: seq<(string, Json)>, values: seq<Json>, acc: Outcome, i: nat)
    requires acc.error.None?
    requires i < |CallsFrom(callback, parse, api, key, selected, values, acc).sent| - |acc.sent|
    ensures Substituted(api, key, values[i]) == Ok(CallsFrom(callback, parse, api, key, selected, values, acc).sent[|acc.sent| + i])
    decreases |values|
  {
    var r := CallsFrom(callback, parse, api, key, selected, values, acc);
    var next := CallOne(callback, parse, api, key, selected, values[0], acc);
    if next.error.None? {
      assert r == CallsFrom(callback, parse, api, key, selected, values[1..], next);
      if i > 0 {
        CallsFromSent(callback, parse, api, key, selected, values[1..], next, i - 1);
      }
    }
  }

  /** A run that stops on no error calls back once per loop value, in order,
      each time with the template filled with that value. */
  lemma CallsOnePerValue(callback: string -> string, parse: Parser, api: string, key: string,
                         selected: seq<(string, Json)>, i: nat)
    requires Calls(callback, parse, api, key, selected).error.None?
    requires i < |LoopValues(selected, key)|
    ensures Substituted(api, key, LoopValues(selected, key)[i]) == Ok(Calls(callback, parse, api, key, selected).sent[i])
  {
    var values := LoopValues(selected, key);
    var acc := Outcome([], [], None);
    var r := CallsFrom(callback, parse, api, key, selected, values, acc);
    assert r == Calls(callback, parse, api, key, selected);
    CallsFromSent(callback, parse, api, key, selected, values, acc, i);
  }

  /** The annotated replies of a run, up to the first failure. */
  ghost function Replies(callback: string -> string, parse: Parser, api: string, key: string,
                         selected: seq<(string, Json)>, values: seq<Json>): seq<Json>
    decreases |values|
  {
    if values == [] then []
    else
      match Substituted(api, key, values[0])
      case Fail(_) => []
      case Ok(text) =>
        match Reply(callback, parse, text, selected)
        case Fail(_) => []
        case Ok(annotated) => [annotated] + Replies(callback, parse, api, key, selected, values[1..])
  }

  /** One turn either stops the run with no reply, or adds one reply to the
      results and to the replies. */
  lemma CallOneReplies(callback: string -> string, parse: Parser, api: string, key: string,
                       selected: seq<(string, Json)>, values: seq<Json>, acc: Outcome)
    requires acc.error.None? && values != []
    ensures CallOne(callback, parse, api, key, selected, values[0], acc).error.Some? ==>
      Replies(callback, parse, api, key, selected, values) == []
      && CallOne(callback, parse, api, key, selected, values[0], acc).results == acc.results
    ensures CallOne(callback, parse, api, key, selected, values[0], acc).error.None? ==>
      var replies := Replies(callback, parse, api, key, selected, values);
      replies != [] && replies[1..] == Replies(callback, parse, api, key, selected, values[1..])
      && CallOne(callback, parse, api, key, selected, values[0], acc).results == acc.results + Spread(replies[0])
  {
  }

  /** The results a run collects are its annotated replies flattened one level. */
  lemma {:induction false} CallsFromResults(callback: string -> string, parse: Parser, api: string, key: string,
                                            selected: seq<(string, Json)>, values: seq<Json>, acc: Outcome)
    requires acc.error.None?
    ensures CallsFrom(callback, parse, api, key, selected, values, acc).results
         == acc.results + Flat(Replies(callback, parse, api, key, selected, values))
    decreases |values|
  {
    var replies := Replies(callback, parse, api, key, selected, values);
    if values == [] {
      assert acc.results + Flat([]) == acc.results;
    } else {
      var next := CallOne(callback, parse, api, key, selected, values[0], acc);
      CallOneReplies(callback, parse, api, key, selected, values, acc);
      if next.error.Some? {
        assert CallsFrom(callback, parse, api, key, selected, values, acc) == next;
        assert acc.results + Flat([]) == acc.results;
      } else {
        assert CallsFrom(callback, parse, api, key, selected, values, acc)
            == CallsFrom(callback, parse, api, key, selected, values[1..], next);
        CallsFromResults(callback, parse, api, key, selected, values[1..], next);
        var head, rest := Spread(replies[0]), Flat(replies[1..]);
        assert Flat(replies) == head + rest;
        assert next.results == acc.results + head;
        assert (acc.results + head) + rest == acc.results + (head + rest);
      }
    }
  }

  /** A run that ends without error has one reply per value, the i-th being
      the annotated answer to the template filled with the i-th value; with
      CallsFromResults, its results are these replies flattened in call order. */
  lemma {:induction false} CallsFromReplies(callback: string -> string, parse: Parser, api: string, key: string,
                                            selected: seq<(string, Json)>, values: seq<Json>, acc: Outcome)
    requires acc.error.None?
    requires CallsFrom(callback, parse, api, key, selected, values, acc).error.None?
    ensures var replies := Replies(callback, parse, api, key, selected, values);
      |replies| == |values|
      && forall i :: 0 <= i < |values| ==>
        Substituted(api, key, values[i]).Ok?
        && Reply(callback, parse, Substituted(api, key, values[i]).value, selected) == Ok(replies[i])
    ensures CallsFrom(callback, parse, api, key, selected, values, acc).results
         == acc.results + Flat(Replies(callback, parse, api, key, selected, values))
    decreases |values|
  {
    CallsFromResults(callback, parse, api, key, selected, values, acc);
    if values != [] {
      var next := CallOne(callback, parse, api, key, selected, values[0], acc);
      CallOneReplies(callback, parse, api, key, selected, values, acc);
      assert CallsFrom(callback, parse, api, key, selected, values, acc)
          == CallsFrom(callback, parse, api, key, selected, values[1..], next);
      CallsFromReplies(callback, parse, api, key, selected, values[1..], next);
      var replies := Replies(callback, parse, api, key, selected, values);
      forall i | 0 <= i < |values|
        ensures Substituted(api, key, values[i]).Ok?
          && Reply(callback, parse, Substituted(api, key, values[i]).value, selected) == Ok(replies[i])
      {
        if i > 0 {
          assert values[i] == values[1..][i - 1];
          assert replies[i] == replies[1..][i - 1];
        }
      }
    }
  }
}
