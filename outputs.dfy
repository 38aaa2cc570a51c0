/** `OutputHandler` (rbkcli/core/handlers/outputs.py): the listing of the
    fields a response offers, and the workflow of selections, filters, contexts
    and loops run over a response before it is shown as a table, a list or
    indented text. The JSON editor itself, the conversions and `json.dumps` are
    supplied as functions. */
module Outputs {
  import opened Wrappers
  import opened Strings
  import opened Json
  import opened MapKeys
  import opened FieldRequests
  import Editing
  import MapDoc
  import Cli
  import JsonMeta

  // ---------------------------------------------------------------------
  // `available_fields`

  /** `_gen_string_result`: the names of the keys the query asks for, one
      `[n1][n2]` line per key. A query that is not `?`, `?NK` or `?MAP`, or a
      list of words, is an exception the method prints, after which the keys
      were never bound. */
  const KeysUnbound: string := "local variable 'return_keys' referenced before assignment"

  function StringResult(m: Map, query: Cli.StepValue): (r: Result<string>)
    ensures r.Ok? <==> query.One? && query.text in ["?", "?NK", "?MAP"]
  {
    if query.One? && query.text in ["?", "?NK", "?MAP"] then Ok(Listing(QueryKeys(m, query.text)))
    else Raise(UnboundLocalError, KeysUnbound)
  }

  method GenStringResult(m: Map, query: Cli.StepValue) returns (r: Result<string>)
    ensures r == StringResult(m, query)
  {
    if !(query.One? && query.text in ["?", "?NK", "?MAP"]) {
      return Raise(UnboundLocalError, KeysUnbound);
    }
    var text := AvailableText(m, query.text);
    r := Ok(text);
  }

  /** Keys written as paths of plainly named segments are listed as their
      names in brackets, one line per key, the last without a newline. */
  lemma StringResultOfPaths(m: Map, query: string, cs: seq<seq<Segment>>)
    requires query in ["?", "?NK", "?MAP"]
    requires |cs| == |QueryKeys(m, query)|
    requires forall i :: 0 <= i < |cs| ==> PlainSegments(cs[i]) && QueryKeys(m, query)[i] == Path(cs[i])
    ensures StringResult(m, Cli.One(query)) == Ok(Join(BracketedKeys(cs), "\n"))
  {
    var keys := QueryKeys(m, query);
    forall i | 0 <= i < |cs| ensures PrintLines(keys)[i] == BracketedKeys(cs)[i] {
      ListedPath(cs[i]);
    }
    assert PrintLines(keys) == BracketedKeys(cs);
  }

  function BracketedKeys(cs: seq<seq<Segment>>): (r: seq<string>)
    ensures |r| == |cs| && forall i :: 0 <= i < |cs| ==> r[i] == Bracketed(SegmentKeys(cs[i]))
  {
    seq(|cs|, i requires 0 <= i < |cs| => Bracketed(SegmentKeys(cs[i])))
  }

  /** `_is_response_documented`: the key map of the documentation, and whether
      it holds any key. Documentation that is not JSON raises. */
  function Documented(parse: Parser, doc: string): (r: Result<(bool, Map)>)
    ensures r.Ok? ==> parse(doc).Some? && MapDoc.DocMap(parse(doc).value) == Ok(r.value.1)
    ensures r.Ok? ==> (r.value.0 <==> r.value.1.full != [])
  {
    match parse(doc)
    case None => Raise(ValueError, "Expecting value")
    case Some(d) =>
      match MapDoc.DocMap(d)
      case Fail(e) => Fail(e)
      case Ok(m) => Ok((m.full != [], m))
  }

  const OutOfRange: string := "list index out of range"

  const NotJson: string := "The output of this  API is not a json"

  /** `_is_api_mappable` after the request has run: the key map of its
      response, or nothing when the response is not JSON. */
  function Mappable(parse: Parser, response: string): (r: Option<Result<Map>>)
    requires ParseShrinks(parse)
    ensures r.None? <==> parse(response).None?
  {
    match parse(response)
    case None => None
    case Some(j) =>
      match Editing.Setup(parse, j, Arr([]))
      case Fail(e) => Some(Fail(e))
      case Ok(l) => Some(Ok(l.keyMap))
  }

  /** `_is_api_mappable` once the request has run, as the editor does it. */
  method ApiMappable(parse: Parser, response: string) returns (r: Option<Result<Map>>)
    requires ParseShrinks(parse)
    ensures r == Mappable(parse, response)
  {
    var j := parse(response);
    if j.None? {
      return None;
    }
    var l := JsonMeta.Load(parse, j.value, Arr([]));
    if l.Fail? {
      return Some(Fail(l.error));
    }
    r := Some(Ok(l.value.keyMap));
  }

  /** The keys `available_fields` lists: the documentation's when it has
      any, otherwise those of the answer to the request, which must be JSON;
      `answer` is `Mappable` of that answer. */
  function KeyMapOf(parse: Parser, doc: string, answer: Option<Result<Map>>): (r: Result<Map>)
  {
    match Documented(parse, doc)
    case Fail(e) => Fail(e)
    case Ok(d) =>
      if d.0 then Ok(d.1)
      else
        match answer
        case None => Raise(BareException, NotJson)
        case Some(m) => m
  }

  /** `available_fields`: the listing the first workflow step asks for. */
  function AvailableFields(parse: Parser, doc: string, answer: Option<Result<Map>>, workflow: seq<Cli.Step>): (r: Result<string>)
  {
    match KeyMapOf(parse, doc, answer)
    case Fail(e) => Fail(e)
    case Ok(keys) =>
      if workflow == [] then Raise(IndexError, OutOfRange)
      else StringResult(keys, workflow[0].value)
  }

  /** Documentation with keys decides the listing on its own, whatever the
      request would answer; without it, an answer that is not JSON raises, and
      one that is gives its own keys. */
  lemma KeyMapSources(parse: Parser, doc: string, a1: Option<Result<Map>>, a2: Option<Result<Map>>)
    ensures Documented(parse, doc).Ok? && Documented(parse, doc).value.0 ==>
      KeyMapOf(parse, doc, a1) == KeyMapOf(parse, doc, a2) == Ok(Documented(parse, doc).value.1)
    ensures Documented(parse, doc).Ok? && !Documented(parse, doc).value.0 ==>
      KeyMapOf(parse, doc, a1) == if a1.None? then Raise(BareException, NotJson) else a1.value
  {
  }

  /** `available_fields`' steps. */
  method AvailableFieldsFor(parse: Parser, doc: string, answer: Option<Result<Map>>, workflow: seq<Cli.Step>)
    returns (r: Result<string>)
    ensures r == AvailableFields(parse, doc, answer, workflow)
  {
    var d := Documented(parse, doc);
    if d.Fail? {
      return Fail(d.error);
    }
    var keys := d.value.1;
    if !d.value.0 {
      if answer.None? {
        return Raise(BareException, NotJson);
      }
      if answer.value.Fail? {
        return Fail(answer.value.error);
      }
      keys := answer.value.value;
    }
    if workflow == [] {
      return Raise(IndexError, OutOfRange);
    }
    r := GenStringResult(keys, workflow[0].value);
  }

  // ---------------------------------------------------------------------
  // `outputfy` and `treat_field`

  /** What the editor answers: text is kept, anything else is dumped. */
  datatype Reply = Text(text: string) | Value(value: Json)

  /** The three renderings a request can ask for. */
  datatype Format = Table | List | Pretty

  /** One call of the editor: which editor, on what data, with which
      documentation model, for which value. */
  datatype Sel = Sel(kind: JsonMeta.Kind, data: Json, model: Json, value: Cli.StepValue)

  /** `select`, `filter`, `context` and `loop` pick the editor. */
  function KindOf(action: string): (r: Option<JsonMeta.Kind>)
    ensures r.Some? <==> action in ["select", "filter", "context", "loop"]
  {
    if action == "select" then Some(JsonMeta.Editor)
    else if action == "filter" then Some(JsonMeta.Filter)
    else if action == "context" then Some(JsonMeta.Contextor)
    else if action == "loop" then Some(JsonMeta.Looper)
    else None
  }

  /** The documentation goes to the step at index 0 only; the others get `[]`. */
  function ModelFor(ix: nat, doc: string): Json
  {
    if ix == 0 then Str(doc) else Arr([])
  }

  const Unbound: string := "local variable 'output' referenced before assignment"

  /** `treat_field`: the current text is parsed, must be a dictionary or a
      list, and goes to the editor the action names; the answer becomes the new
      text, and the call the current selection. */
  function TreatField(parse: Parser, edit: Sel -> Result<Reply>, dumps: Json -> string, doc: string,
                      text: string, ix: nat, action: string, value: Cli.StepValue): (r: Result<(string, Sel)>)
    ensures r.Ok? ==> Some(r.value.1.kind) == KindOf(action) && r.value.1.value == value
    ensures r.Ok? ==> r.value.1.model == ModelFor(ix, doc) && Some(r.value.1.data) == parse(text)
  {
    match parse(text)
    case None => Raise(ValueError, "Expecting value")
    case Some(j) =>
      if !(j.Obj? || j.Arr?) then Raise(UnboundLocalError, Unbound)
      else
        match KindOf(action)
        case None => Raise(UnboundLocalError, Unbound)
        case Some(k) =>
          var sel := Sel(k, j, ModelFor(ix, doc), value);
          match edit(sel)
          case Fail(e) => Fail(e)
          case Ok(Text(s)) => Ok((s, sel))
          case Ok(Value(v)) => Ok((dumps(v), sel))
  }

  /** The handler's state between calls: the text, the current selection, and
      the editor calls made so far. */
  datatype Run = Run(text: string, selection: Option<Sel>, calls: seq<Sel>)

  /** The workflow steps in order, step `i` as `treat_field(i, ...)`. */
  function Steps(parse: Parser, edit: Sel -> Result<Reply>, dumps: Json -> string, doc: string,
                 start: string, steps: seq<Cli.Step>): (r: Result<Run>)
    ensures r.Ok? ==> |r.value.calls| == |steps| && (steps == [] <==> r.value.selection.None?)
  {
    if steps == [] then Ok(Run(start, None, []))
    else
      var n := |steps| - 1;
      match Steps(parse, edit, dumps, doc, start, steps[..n])
      case Fail(e) => Fail(e)
      case Ok(run) =>
        match TreatField(parse, edit, dumps, doc, run.text, n, steps[n].arg, steps[n].value)
        case Fail(e) => Fail(e)
        case Ok(t) => Ok(Run(t.0, Some(t.1), run.calls + [t.1]))
  }

  /** One rendering: without a selection so far, filter `a` runs first. */
  function Rendered(parse: Parser, edit: Sel -> Result<Reply>, dumps: Json -> string,
                    convert: (Sel, Format) -> Result<string>, doc: string, run: Run, f: Format): (r: Result<Run>)
    ensures r.Ok? ==> r.value.selection.Some?
    ensures r.Ok? && run.selection.Some? ==> r.value.selection == run.selection && r.value.calls == run.calls
  {
    var ready :=
      if run.selection.Some? then Ok(run)
      else match TreatField(parse, edit, dumps, doc, run.text, 0, "filter", Cli.One("a"))
        case Fail(e) => Fail(e)
        case Ok(t) => Ok(Run(t.0, Some(t.1), run.calls + [t.1]));
    match ready
    case Fail(e) => Fail(e)
    case Ok(s) =>
      match convert(s.selection.value, f)
      case Fail(e) => Fail(e)
      case Ok(text) => Ok(s.(text := text))
  }

  function RenderedIf(parse: Parser, edit: Sel -> Result<Reply>, dumps: Json -> string,
                      convert: (Sel, Format) -> Result<string>, doc: string, r: Result<Run>, f: Format, wanted: bool)
    : Result<Run>
  {
    if r.Fail? || !wanted then r else Rendered(parse, edit, dumps, convert, doc, r.value, f)
  }

  /** `outputfy`: the workflow, then a table, a list and indented text as
      requested, each rendering overwriting the text. */
  function Outputfy(parse: Parser, edit: Sel -> Result<Reply>, dumps: Json -> string,
                    convert: (Sel, Format) -> Result<string>, doc: string, start: string,
                    steps: seq<Cli.Step>, table: bool, list: bool, pretty: bool): Result<Run>
  {
    var w := Steps(parse, edit, dumps, doc, start, steps);
    var t := RenderedIf(parse, edit, dumps, convert, doc, w, Table, table);
    var l := RenderedIf(parse, edit, dumps, convert, doc, t, List, list);
    RenderedIf(parse, edit, dumps, convert, doc, l, Pretty, pretty)
  }

  /** Step `k` of the workflow is the `k`-th editor call, with its action's
      editor and its value, and only the first gets the documentation. */
  lemma {:induction false} StepsCalls(parse: Parser, edit: Sel -> Result<Reply>, dumps: Json -> string, doc: string,
                                      start: string, steps: seq<Cli.Step>)
    requires Steps(parse, edit, dumps, doc, start, steps).Ok?
    ensures var calls := Steps(parse, edit, dumps, doc, start, steps).value.calls;
      forall k :: 0 <= k < |steps| ==>
        Some(calls[k].kind) == KindOf(steps[k].arg) && calls[k].value == steps[k].value &&
        calls[k].model == ModelFor(k, doc)
  {
    if steps != [] {
      var n := |steps| - 1;
      StepsCalls(parse, edit, dumps, doc, start, steps[..n]);
    }
  }

  /** With a workflow, the renderings make no further editor call; without
      one, a requested rendering first filters with `a`, once, with the
      documentation. */
  lemma OutputfyCalls(parse: Parser, edit: Sel -> Result<Reply>, dumps: Json -> string,
                      convert: (Sel, Format) -> Result<string>, doc: string, start: string,
                      steps: seq<Cli.Step>, table: bool, list: bool, pretty: bool)
    requires Outputfy(parse, edit, dumps, convert, doc, start, steps, table, list, pretty).Ok?
    ensures var run := Outputfy(parse, edit, dumps, convert, doc, start, steps, table, list, pretty).value;
      steps != [] ==> run.calls == Steps(parse, edit, dumps, doc, start, steps).value.calls
    ensures var run := Outputfy(parse, edit, dumps, convert, doc, start, steps, table, list, pretty).value;
      steps == [] && (table || list || pretty) ==>
        |run.calls| == 1 && run.calls[0].kind == JsonMeta.Filter && run.calls[0].value == Cli.One("a") &&
        run.calls[0].model == Str(doc)
    ensures var run := Outputfy(parse, edit, dumps, convert, doc, start, steps, table, list, pretty).value;
      steps == [] && !(table || list || pretty) ==> run == Run(start, None, [])
  {
    var w := Steps(parse, edit, dumps, doc, start, steps);
    var t := RenderedIf(parse, edit, dumps, convert, doc, w, Table, table);
    var l := RenderedIf(parse, edit, dumps, convert, doc, t, List, list);
    if steps == [] && (table || list || pretty) {
      if !table && !list {
        assert l == w;
      } else if !table {
        assert t == w && l.value.selection.Some?;
      } else {
        assert t.value.selection.Some? && l.value.calls == t.value.calls;
      }
    }
  }

  /** A single step whose editor answers text, with no rendering, shows that
      text as it is; a value is dumped. */
  lemma OutputKept(parse: Parser, edit: Sel -> Result<Reply>, dumps: Json -> string,
                   convert: (Sel, Format) -> Result<string>, doc: string, start: string, step: Cli.Step)
    requires parse(start).Some? && (parse(start).value.Obj? || parse(start).value.Arr?)
    requires KindOf(step.arg).Some?
    ensures var sel := Sel(KindOf(step.arg).value, parse(start).value, Str(doc), step.value);
      var r := Outputfy(parse, edit, dumps, convert, doc, start, [step], false, false, false);
      (edit(sel).Ok? && edit(sel).value.Text? ==> r.Ok? && r.value.text == edit(sel).value.text) &&
      (edit(sel).Ok? && edit(sel).value.Value? ==> r.Ok? && r.value.text == dumps(edit(sel).value.value))
  {
    assert [step][..0] == [] && [step][0] == step;
    assert Steps(parse, edit, dumps, doc, start, []) == Ok(Run(start, None, []));
    var sel := Sel(KindOf(step.arg).value, parse(start).value, Str(doc), step.value);
    var t := TreatField(parse, edit, dumps, doc, start, 0, step.arg, step.value);
    if edit(sel).Ok? {
      assert t.Ok? && t.value.1 == sel;
      var run := Run(start, None, []);
      assert Steps(parse, edit, dumps, doc, start, [step][..0]) == Ok(run);
      assert TreatField(parse, edit, dumps, doc, run.text, 0, [step][0].arg, [step][0].value) == t;
      assert run.calls + [sel] == [sel];
      assert Steps(parse, edit, dumps, doc, start, [step]) == Ok(Run(t.value.0, Some(sel), [sel]));
    }
  }

  // ---------------------------------------------------------------------
  // The class

  class OutputHandler {
    const parse: Parser
    const edit: Sel -> Result<Reply>
    const dumps: Json -> string
    const convert: (Sel, Format) -> Result<string>
    var text: string
    var selection: Option<Sel>

    constructor (parse: Parser, edit: Sel -> Result<Reply>, dumps: Json -> string, convert: (Sel, Format) -> Result<string>)
      ensures this.parse == parse && this.edit == edit && this.dumps == dumps && this.convert == convert
      ensures text == "" && selection.None?
    {
      this.parse, this.edit, this.dumps, this.convert := parse, edit, dumps, convert;
      text, selection := "", None;
    }

    /** `available_fields`, with the mapped answer of the request supplied. */
    method AvailableFieldsOf(doc: string, answer: Option<Result<Map>>, workflow: seq<Cli.Step>) returns (r: Result<string>)
      modifies this
      ensures r == AvailableFields(parse, doc, answer, workflow)
      ensures r.Ok? ==> text == r.value
      ensures r.Fail? ==> text == old(text)
      ensures selection == old(selection)
    {
      r := AvailableFieldsFor(parse, doc, answer, workflow);
      if r.Ok? {
        text := r.value;
      }
    }

    /** `treat_field`. */
    method Treat(doc: string, ix: nat, action: string, value: Cli.StepValue) returns (err: Option<Error>)
      modifies this
      ensures var r := TreatField(parse, edit, dumps, doc, old(text), ix, action, value);
        if r.Ok? then err.None? && text == r.value.0 && selection == Some(r.value.1)
        else err == Some(r.error)
    {
      var r := TreatField(parse, edit, dumps, doc, text, ix, action, value);
      if r.Fail? {
        return Some(r.error);
      }
      text, selection := r.value.0, Some(r.value.1);
      err := None;
    }

    /** One rendering of `outputfy`. */
    method Render(doc: string, f: Format, ghost calls: seq<Sel>) returns (err: Option<Error>, ghost after: seq<Sel>)
      modifies this
      ensures var r := Rendered(parse, edit, dumps, convert, doc, Run(old(text), old(selection), calls), f);
        if r.Ok? then err.None? && Run(text, selection, after) == r.value else err == Some(r.error)
    {
      after := calls;
      if selection.None? {
        err := Treat(doc, 0, "filter", Cli.One("a"));
        if err.Some? {
          return;
        }
        after := calls + [selection.value];
      }
      var c := convert(selection.value, f);
      if c.Fail? {
        err := Some(c.error);
        return;
      }
      text := c.value;
      err := None;
    }

    /** `outputfy`: the result text, or the first error. */
    method OutputfyOf(doc: string, start: string, steps: seq<Cli.Step>, table: bool, list: bool, pretty: bool)
      returns (r: Result<string>)
      modifies this
      ensures var o := Outputfy(parse, edit, dumps, convert, doc, start, steps, table, list, pretty);
        if o.Ok? then r == Ok(o.value.text) && text == o.value.text && selection == o.value.selection
        else r == Fail(o.error)
    {
      text, selection := start, None;
      ghost var calls: seq<Sel> := [];
      for i := 0 to |steps|
        invariant Steps(parse, edit, dumps, doc, start, steps[..i]) == Ok(Run(text, selection, calls))
      {
        assert steps[..i + 1][..i] == steps[..i];
        var err := Treat(doc, i, steps[i].arg, steps[i].value);
        if err.Some? {
          StepsFailed(doc, start, steps, i + 1, |steps|);
          assert steps[..|steps|] == steps;
          return Fail(err.value);
        }
        calls := calls + [selection.value];
      }
      assert steps[..|steps|] == steps;
      var err: Option<Error>;
      if table {
        err, calls := Render(doc, Table, calls);
        if err.Some? {
          return Fail(err.value);
        }
      }
      if list {
        err, calls := Render(doc, List, calls);
        if err.Some? {
          return Fail(err.value);
        }
      }
      if pretty {
        err, calls := Render(doc, Pretty, calls);
        if err.Some? {
          return Fail(err.value);
        }
      }
      r := Ok(text);
    }

    /** Once a step has failed, the workflow has failed. */
    lemma {:induction false} StepsFailed(doc: string, start: string, steps: seq<Cli.Step>, i: nat, n: nat)
      requires i <= n <= |steps| && Steps(parse, edit, dumps, doc, start, steps[..i]).Fail?
      ensures Steps(parse, edit, dumps, doc, start, steps[..n]) == Steps(parse, edit, dumps, doc, start, steps[..i])
      decreases n - i
    {
      if i < n {
        assert steps[..i + 1][..i] == steps[..i];
        StepsFailed(doc, start, steps, i + 1, n);
      }
    }
  }
}
