/** The internal API callback of rbkcli (`rbkcli/core/handlers/callback.py`):
    a command given as one line of text is split into arguments the way a
    shell would keep quoted text together, the parsed request is brought to
    the structured form the validator reads, and the API's answer is turned
    into a JSON value. */
module Callback {
  import opened Wrappers
  import opened Strings
  import opened Json
  import Cli
  import Inputs
  import Outputs

  // ---------------------------------------------------------------------
  // `parseit`: splitting a command line

  /** The arguments of a callback: already a list, or one command line. */
  datatype Args = ArgList(words: seq<string>) | ArgLine(line: string)

  /** The program name a command line may start with; it is removed. */
  const Prefix: string := "rbkcli "

  const Quote: string := "\""

  /** The arguments the pieces of a split on `"` stand for: pieces at even
      positions lie outside quotes and are whitespace-split, pieces at odd
      positions were quoted and are kept whole. */
  function Unquoted(pieces: seq<string>): seq<string>
  {
    if pieces == [] then []
    else
      var n := |pieces| - 1;
      Unquoted(pieces[..n]) + Piece(n, pieces[n])
  }

  /** Every quoted piece is one argument, and an argument holding whitespace
      is a quoted piece: words outside quotes never do. */
  lemma {:induction false} UnquotedKeeps(pieces: seq<string>)
    ensures forall i :: 0 <= i < |pieces| && i % 2 == 1 ==> pieces[i] in Unquoted(pieces)
    ensures forall x :: x in Unquoted(pieces) && !NoSpace(x) ==> x in pieces
  {
    if pieces != [] {
      var n := |pieces| - 1;
      UnquotedKeeps(pieces[..n]);
      assert forall i :: 0 <= i < n ==> pieces[..n][i] == pieces[i];
    }
  }

  /** What one piece contributes, by its position. */
  function Piece(i: nat, p: string): seq<string>
  {
    if i % 2 == 0 then Words(p) else [p]
  }

  /** The command line once the program name is removed. */
  function Stripped(line: string): string
  {
    Replace(line, Prefix, "")
  }

  /** The arguments of a command line: none at all when its quotes do not
      pair up (the split on `"` then has an even number of pieces). */
  function CommandWords(line: string): seq<string>
  {
    Arguments(Stripped(line))
  }

  /** The arguments of a text without the program name. */
  function Arguments(text: string): seq<string>
  {
    var pieces := Split(text, Quote);
    if |pieces| % 2 != 0 then Unquoted(pieces) else []
  }

  /** The argument list `parseit` hands to the argument parser. */
  function ArgsOf(args: Args): seq<string>
  {
    match args
    case ArgList(ws) => ws
    case ArgLine(line) => CommandWords(line)
  }

  /** The pieces of a split on one character are one more than the
      occurrences of that character. */
  lemma {:induction false} SplitCount(s: string, c: char)
    ensures |Split(s, [c])| == multiset(s)[c] + 1
    decreases |s|
  {
    match Find(s, [c])
    case None =>
      ContainsChar(s, c);
      assert c !in multiset(s);
    case Some(i) =>
      assert s[i..i + 1] == [c];
      assert s[i] == c;
      assert c !in s[..i] by {
        forall j | 0 <= j < i ensures s[..i][j] != c {
          assert !OccursAt(s, [c], j);
          assert s[j..j + 1] == [s[j]];
        }
      }
      SplitCount(s[i + 1..], c);
      assert s == s[..i] + [c] + s[i + 1..];
      assert multiset(s) == multiset(s[..i]) + multiset([c]) + multiset(s[i + 1..]) by {
        calc {
          multiset(s);
          multiset(s[..i] + [c] + s[i + 1..]);
        }
      }
  }

  /** An odd number of quote characters leaves no arguments at all. */
  lemma UnbalancedQuotes(text: string)
    requires multiset(text)['"'] % 2 == 1
    ensures Arguments(text) == []
  {
    SplitCount(text, '"');
    assert |Split(text, Quote)| % 2 == 0;
  }

  /** An even number of quote characters keeps the quote-aware split. */
  lemma BalancedQuotes(text: string)
    requires multiset(text)['"'] % 2 == 0
    ensures Arguments(text) == Unquoted(Split(text, Quote))
  {
    SplitCount(text, '"');
    assert |Split(text, Quote)| % 2 != 0;
  }

  /** A line that does not hold the program name is taken as it is. */
  lemma Unprefixed(line: string)
    requires !Contains(line, Prefix)
    ensures CommandWords(line) == Arguments(line)
  {
    ReplaceAbsent(line, Prefix, "");
  }

  /** A line without the program name and without quotes is whitespace-split. */
  lemma PlainLine(line: string)
    requires !Contains(line, Prefix) && '"' !in line
    ensures CommandWords(line) == Words(line)
  {
    Unprefixed(line);
    QuoteFree(line);
  }

  /** A text without quotes is one piece, whitespace-split. */
  lemma QuoteFree(line: string)
    requires '"' !in line
    ensures Arguments(line) == Words(line)
  {
    var p := Split(line, Quote);
    assert p == [line] by {
      ContainsChar(line, '"');
      SplitAbsent(line, Quote);
    }
    assert Arguments(line) == Unquoted(p);
    assert Unquoted([line]) == Words(line) by { assert [line][..0] == []; }
  }

  lemma {:induction false} TokenSpaceTail(s: string)
    ensures Token(s + " ") == Token(s)
  {
    if s != [] && !IsSpace(s[0]) {
      assert (s + " ")[1..] == s[1..] + " ";
      TokenSpaceTail(s[1..]);
    }
  }

  /** A trailing space adds no word. */
  lemma {:induction false} WordsSpaceTail(s: string)
    ensures Words(s + " ") == Words(s)
    decreases |s|
  {
    if s == [] {
      assert Words(" ") == Words(" "[1..]);
    } else if IsSpace(s[0]) {
      assert (s + " ")[1..] == s[1..] + " ";
      WordsSpaceTail(s[1..]);
    } else {
      var w := Token(s);
      TokenSpaceTail(s);
      assert (s + " ")[|w|..] == s[|w|..] + " ";
      WordsSpaceTail(s[|w|..]);
    }
  }

  /** A quoted argument between two runs of words stays one argument, spaces
      and all, and the words around it come out as they were written. */
  lemma QuotedArgument(before: seq<string>, q: string, after: seq<string>)
    requires forall w :: w in before ==> |w| > 0 && NoSpace(w) && '"' !in w
    requires forall w :: w in after ==> |w| > 0 && NoSpace(w) && '"' !in w
    requires '"' !in q
    requires !Contains((Join(before, " ") + " ") + Quote + q + Quote + (" " + Join(after, " ")), Prefix)
    ensures CommandWords((Join(before, " ") + " ") + Quote + q + Quote + (" " + Join(after, " ")))
            == before + [q] + after
  {
    var a := Join(before, " ") + " ";
    var b := " " + Join(after, " ");
    assert '"' !in a && '"' !in b by {
      JoinWithout(before, " ", '"');
      JoinWithout(after, " ", '"');
    }
    Unprefixed(a + Quote + q + Quote + b);
    ArgumentsThree(a, q, b);
    WordsAround(before, after);
  }

  /** Text, a quoted part and text: the words of the first, the quoted part
      whole, and the words of the last. */
  lemma ArgumentsThree(a: string, q: string, b: string)
    requires '"' !in a && '"' !in q && '"' !in b
    ensures Arguments(a + Quote + q + Quote + b) == Words(a) + [q] + Words(b)
  {
    SplitThree(a, q, b);
    OddPieces(a + Quote + q + Quote + b, [a, q, b]);
    UnquotedThree(a, q, b);
  }

  lemma OddPieces(text: string, pieces: seq<string>)
    requires Split(text, Quote) == pieces && |pieces| % 2 == 1
    ensures Arguments(text) == Unquoted(pieces)
  {
  }

  lemma SplitThree(a: string, q: string, b: string)
    requires '"' !in a && '"' !in q && '"' !in b
    ensures Split(a + Quote + q + Quote + b, Quote) == [a, q, b]
  {
    assert a + Quote + q + Quote + b == a + Quote + (q + Quote + b);
    SplitFirst(a, Quote, q + Quote + b);
    SplitFirst(q, Quote, b);
    ContainsChar(b, '"');
    SplitAbsent(b, Quote);
  }

  /** Words joined by spaces, with a space after or before them, split back. */
  lemma WordsAround(before: seq<string>, after: seq<string>)
    requires forall w :: w in before ==> |w| > 0 && NoSpace(w)
    requires forall w :: w in after ==> |w| > 0 && NoSpace(w)
    ensures Words(Join(before, " ") + " ") == before
    ensures Words(" " + Join(after, " ")) == after
  {
    WordsSpaceTail(Join(before, " "));
    WordsJoin(before);
    assert (" " + Join(after, " "))[1..] == Join(after, " ");
    WordsJoin(after);
  }

  lemma UnquotedThree(a: string, q: string, b: string)
    ensures Unquoted([a, q, b]) == Words(a) + [q] + Words(b)
  {
    assert [a, q, b][..2] == [a, q] && [a, q][..1] == [a] && [a][..0] == [];
    assert Unquoted([a]) == Words(a);
  }

  /** `parseit`'s loop over the pieces of a command line. */
  method SplitCommand(line: string) returns (newArgs: seq<string>)
    ensures newArgs == CommandWords(line)
  {
    var text := Replace(line, Prefix, "");
    var pieces := Split(text, Quote);
    newArgs := [];
    if |pieces| % 2 != 0 {
      var i := 0;
      while i < |pieces|
        invariant 0 <= i <= |pieces|
        invariant newArgs == Unquoted(pieces[..i])
      {
        assert pieces[..i + 1][..i] == pieces[..i];
        if i % 2 == 0 {
          newArgs := newArgs + Words(pieces[i]);
        } else {
          newArgs := newArgs + [pieces[i]];
        }
        i := i + 1;
      }
      assert pieces[..|pieces|] == pieces;
    }
  }

  // ---------------------------------------------------------------------
  // `structreit`: the structured request

  /** The output flags of a command: `--table`, `--list` and `--pretty_print`. */
  datatype Output = Output(table: bool, list: bool, pretty: bool)

  /** The fields of a parsed command the callback relies on. */
  datatype Parsed = Parsed(apiEndpoint: seq<string>, version: string, verb: string,
                           query: string, parameter: Json, options: Cli.Kwargs, output: Output)

  /** The request in the form the validator reads, with the workflow built
      from the arguments. */
  datatype Structured = Structured(endpoint: string, version: string, verb: string,
                                   param: string, data: Json, formatt: string,
                                   structured: bool, built: Cli.Built, output: Output)

  /** `structreit`: the endpoint words joined by spaces, the query as the
      parameter, the parameter as the data, the raw format and the workflow;
      an invalid workflow argument is the workflow's error. */
  function Restructured(args: seq<string>, p: Parsed): (r: Result<Structured>)
    ensures r.Fail? <==> Cli.Workflow(p.options, args).Fail?
    ensures r.Ok? ==>
      r.value.structured && r.value.formatt == "raw" && r.value.param == p.query
      && r.value.data == p.parameter && r.value.built == Cli.Workflow(p.options, args).value
      && r.value.output == p.output
  {
    match Cli.Workflow(p.options, args)
    case Fail(e) => Fail(e)
    case Ok(b) => Ok(Structured(Join(p.apiEndpoint, " "), p.version, p.verb, p.query, p.parameter, "raw", true, b, p.output))
  }

  /** What the validator is given for a structured request. */
  function AsRequest(s: Structured): Inputs.Request
  {
    Inputs.Request(Inputs.EndpointText(s.endpoint), s.version, s.verb,
                   Inputs.QueryText(s.param), s.data, s.formatt)
  }

  /** The space-joined endpoint of a structured request gives the validator
      back the endpoint words, whatever the workflow. */
  lemma EndpointRoundTrip(args: seq<string>, p: Parsed)
    requires |p.apiEndpoint| >= 1 && forall w :: w in p.apiEndpoint ==> Inputs.Plain(w)
    requires Restructured(args, p).Ok?
    ensures Inputs.NormalizedEndpoint(AsRequest(Restructured(args, p).value).endpoint)
            == Ok((p.apiEndpoint, ""))
  {
    var ws := p.apiEndpoint;
    var t := Join(ws, " ");
    Inputs.JoinedPlain(ws, ' ');
    Inputs.PiecesOfPlain(ws, ' ');
    assert Inputs.PathAndQuery(t) == (t, "");
    Inputs.NormalizedOk(t);
  }

  // ---------------------------------------------------------------------
  // `callit`: the answer as JSON

  /** The answer of an API call as a value: a text holding `{` or `[` is read
      as JSON when it parses; any other text is wrapped under `result_text`. */
  function CallResult(parse: Parser, text: string): (r: Json)
    ensures ('{' in text || '[' in text) && parse(text).Some? ==> r == parse(text).value
    ensures !('{' in text || '[' in text) || parse(text).None? ==> ResultText(r) == Some(text)
  {
    if ('{' in text || '[' in text) && parse(text).Some? then parse(text).value
    else Obj([("result_text", Str(text))])
  }

  /** The text a wrapped answer holds. */
  function ResultText(j: Json): Option<string>
  {
    match j
    case Obj(fields) =>
      if |fields| == 1 && fields[0].0 == "result_text" && fields[0].1.Str? then Some(fields[0].1.s)
      else None
    case _ => None
  }

  /** A text without braces or brackets is wrapped even when it would parse
      (a bare number or string, say). */
  lemma ScalarWrapped(parse: Parser, text: string)
    requires '{' !in text && '[' !in text
    ensures CallResult(parse, text) == Obj([("result_text", Str(text))])
  {
  }

  /** A request given to `callit`: still as parsed, or already structured. */
  datatype Incoming = Unstructured(parsed: Parsed) | Ready(request: Structured)

  /** The request in structured form: restructured when it is not. */
  function Structuring(incoming: Incoming, args: seq<string>): Result<Structured>
  {
    match incoming
    case Unstructured(p) => Restructured(args, p)
    case Ready(s) => Ok(s)
  }

  /** The first half of `callit`: the request brought to structured form
      when it is not, then validated. */
  function Checked(ops: seq<string>, apis: seq<string>, incoming: Incoming,
                   args: seq<string>): (r: Result<(Structured, Inputs.ReqState)>)
    requires Inputs.WellFormed(ops)
    ensures incoming.Ready? && r.Ok? ==> r.value.0 == incoming.request
    ensures r.Ok? ==> Inputs.Validation(ops, apis, AsRequest(r.value.0)) == Ok(r.value.1)
  {
    match Structuring(incoming, args)
    case Fail(e) => Fail(e)
    case Ok(st) =>
      match Inputs.Validation(ops, apis, AsRequest(st))
      case Fail(e) => Fail(e)
      case Ok(req) => Ok((st, req))
  }

  /** Once the structured form is known, `Checked` is its validation. */
  lemma CheckedFrom(ops: seq<string>, apis: seq<string>, incoming: Incoming,
                    args: seq<string>, s: Structured)
    requires Inputs.WellFormed(ops)
    requires Structuring(incoming, args) == Ok(s)
    ensures var v := Inputs.Validation(ops, apis, AsRequest(s));
      Checked(ops, apis, incoming, args) == if v.Ok? then Ok((s, v.value)) else Fail(v.error)
  {
  }

  /** `callit`: the request structured and validated, then executed; the
      answer as a value. */
  function Called(ops: seq<string>, apis: seq<string>, execute: Inputs.ReqState -> string,
                  parse: Parser, incoming: Incoming, args: seq<string>): (r: Result<Json>)
    requires Inputs.WellFormed(ops)
  {
    match Checked(ops, apis, incoming, args)
    case Fail(e) => Fail(e)
    case Ok((_, req)) => Ok(CallResult(parse, execute(req)))
  }

  /** A request the validator refuses is never executed: its error is the
      answer; a valid one is executed once, on the validated request. */
  lemma CalledValidates(ops: seq<string>, apis: seq<string>, execute: Inputs.ReqState -> string,
                        parse: Parser, s: Structured)
    requires Inputs.WellFormed(ops)
    ensures var v := Inputs.Validation(ops, apis, AsRequest(s));
      v.Fail? ==> Called(ops, apis, execute, parse, Ready(s), []) == Fail(v.error)
    ensures var v := Inputs.Validation(ops, apis, AsRequest(s));
      v.Ok? ==> Called(ops, apis, execute, parse, Ready(s), []) == Ok(CallResult(parse, execute(v.value)))
  {
  }

  /** An unstructured request answers as its structured form does. */
  lemma CalledRestructures(ops: seq<string>, apis: seq<string>, execute: Inputs.ReqState -> string,
                           parse: Parser, p: Parsed, args: seq<string>)
    requires Inputs.WellFormed(ops) && Restructured(args, p).Ok?
    ensures Called(ops, apis, execute, parse, Unstructured(p), args)
            == Called(ops, apis, execute, parse, Ready(Restructured(args, p).value), [])
  {
  }

  // ---------------------------------------------------------------------
  // `call_back`: a command run from inside the program

  /** The output handler's rendering of an answer: its indented JSON text run
      through the request's workflow and output flags, the documentation of
      the validated request standing for the fields model. */
  function Formatted(f: Outputs.OutputHandler, doc: string, answer: Json, s: Structured): Result<string>
  {
    var o := Outputs.Outputfy(f.parse, f.edit, f.dumps, f.convert, doc, f.dumps(answer),
                              s.built.workflow, s.output.table, s.output.list, s.output.pretty);
    if o.Ok? then Ok(o.value.text) else Fail(o.error)
  }

  /** `call_back`: the arguments read as a command line is, structured,
      validated and executed, and the answer rendered as the command asks. */
  function CalledBack(ops: seq<string>, apis: seq<string>, execute: Inputs.ReqState -> string,
                      parse: Parser, parseArgs: seq<string> -> Parsed, f: Outputs.OutputHandler,
                      documentation: Inputs.ReqState -> string, a: Args): Result<string>
    requires Inputs.WellFormed(ops)
  {
    var list := ArgsOf(a);
    match Restructured(list, parseArgs(list))
    case Fail(e) => Fail(e)
    case Ok(s) =>
      match Checked(ops, apis, Ready(s), [])
      case Fail(e) => Fail(e)
      case Ok((_, req)) => Formatted(f, documentation(req), CallResult(parse, execute(req)), s)
  }

  /** The callback answers what `callit` answers for the parsed arguments:
      its error when it fails, otherwise its value rendered. */
  lemma CalledBackCalls(ops: seq<string>, apis: seq<string>, execute: Inputs.ReqState -> string,
                        parse: Parser, parseArgs: seq<string> -> Parsed, f: Outputs.OutputHandler,
                        documentation: Inputs.ReqState -> string, a: Args)
    requires Inputs.WellFormed(ops)
    ensures var list := ArgsOf(a);
      var c := Called(ops, apis, execute, parse, Unstructured(parseArgs(list)), list);
      c.Fail? ==> CalledBack(ops, apis, execute, parse, parseArgs, f, documentation, a) == Fail(c.error)
    ensures var list := ArgsOf(a);
      var k := Checked(ops, apis, Unstructured(parseArgs(list)), list);
      k.Ok? ==> CalledBack(ops, apis, execute, parse, parseArgs, f, documentation, a)
                == Formatted(f, documentation(k.value.1),
                             Called(ops, apis, execute, parse, Unstructured(parseArgs(list)), list).value,
                             k.value.0)
  {
    var list := ArgsOf(a);
    var p := parseArgs(list);
    var rs := Restructured(list, p);
    if rs.Ok? {
      assert Checked(ops, apis, Unstructured(p), list) == Checked(ops, apis, Ready(rs.value), []);
    }
  }

  /** Without a workflow or an output flag the callback answers the indented
      JSON text of the answer. */
  lemma PlainCallBack(ops: seq<string>, apis: seq<string>, execute: Inputs.ReqState -> string,
                      parse: Parser, parseArgs: seq<string> -> Parsed, f: Outputs.OutputHandler,
                      documentation: Inputs.ReqState -> string, a: Args)
    requires Inputs.WellFormed(ops)
    requires var list := ArgsOf(a);
      var k := Checked(ops, apis, Unstructured(parseArgs(list)), list);
      k.Ok? && k.value.0.built.workflow == [] && k.value.0.output == Output(false, false, false)
    ensures var list := ArgsOf(a);
      CalledBack(ops, apis, execute, parse, parseArgs, f, documentation, a)
      == Ok(f.dumps(Called(ops, apis, execute, parse, Unstructured(parseArgs(list)), list).value))
  {
    CalledBackCalls(ops, apis, execute, parse, parseArgs, f, documentation, a);
  }

  // ---------------------------------------------------------------------
  // The handler

  class CallBack {
    const validator: Inputs.InputHandler
    /** The argument parser of the program (`parse_args` and `un_list`). */
    const parseArgs: seq<string> -> Parsed
    /** The API call behind `operations.execute`: the text of the answer. */
    const execute: Inputs.ReqState -> string
    /** `json.loads`. */
    const parse: Parser
    const formatter: Outputs.OutputHandler
    /** The documentation of a validated request (`operations.documentation`). */
    const documentation: Inputs.ReqState -> string
    var req: Inputs.ReqState
    var args: seq<string>
    var request: Parsed
    var stctRequest: Structured
    var callResult: Json

    constructor (validator: Inputs.InputHandler, parseArgs: seq<string> -> Parsed,
                 execute: Inputs.ReqState -> string, parse: Parser,
                 formatter: Outputs.OutputHandler, documentation: Inputs.ReqState -> string,
                 blank: Parsed, blankStct: Structured)
      ensures this.validator == validator && this.parseArgs == parseArgs
      ensures this.execute == execute && this.parse == parse
      ensures this.formatter == formatter && this.documentation == documentation
      ensures args == [] && request == blank && stctRequest == blankStct
      ensures callResult == Null && req == validator.req
    {
      this.validator := validator;
      this.parseArgs := parseArgs;
      this.execute := execute;
      this.parse := parse;
      this.formatter := formatter;
      this.documentation := documentation;
      req := validator.req;
      args := [];
      request := blank;
      stctRequest := blankStct;
      callResult := Null;
    }

    /** `parseit`: the argument list (split from a command line when given
        as one) and the request the argument parser makes of it. */
    method ParseIt(a: Args) returns (parsed: Parsed, list: seq<string>)
      modifies this
      ensures list == ArgsOf(a) && parsed == parseArgs(list)
      ensures args == list && request == parsed
      ensures stctRequest == old(stctRequest) && callResult == old(callResult) && req == old(req)
    {
      match a {
        case ArgList(ws) => args := ws;
        case ArgLine(line) => args := SplitCommand(line);
      }
      request := parseArgs(args);
      return request, args;
    }

    /** `structreit`: the structured request, kept in `stctRequest`. */
    method StructReIt(list: seq<string>, p: Parsed) returns (r: Result<Structured>)
      modifies this
      ensures r == Restructured(list, p)
      ensures args == list && request == p
      ensures r.Ok? ==> stctRequest == r.value
      ensures r.Fail? ==> stctRequest == old(stctRequest)
      ensures callResult == old(callResult) && req == old(req)
    {
      args := list;
      request := p;
      var built := Cli.CreateRequestStructure(p.options, list);
      if built.Fail? {
        return Fail(built.error);
      }
      stctRequest := Structured(Join(p.apiEndpoint, " "), p.version, p.verb, p.query, p.parameter,
                                "raw", true, built.value, p.output);
      return Ok(stctRequest);
    }

    /** The first step of `callit`: the request in structured form. */
    method StructuredOf(incoming: Incoming, list: seq<string>) returns (r: Result<Structured>)
      modifies this
      ensures r == Structuring(incoming, list)
      ensures callResult == old(callResult) && req == old(req)
    {
      match incoming {
        case Unstructured(p) =>
          r := StructReIt(list, p);
        case Ready(st) =>
          r := Ok(st);
      }
    }

    /** The second step of `callit`: the structured request kept and
        validated. */
    method ValidatedOf(s: Structured) returns (v: Result<Inputs.ReqState>)
      requires Inputs.WellFormed(validator.ops)
      modifies this, validator
      ensures v == Inputs.Validation(validator.ops, validator.apis, AsRequest(s))
      ensures stctRequest == s && callResult == old(callResult)
      ensures v.Ok? ==> req == v.value
      ensures v.Fail? ==> req == old(req)
    {
      stctRequest := s;
      v := validator.Validate(AsRequest(s));
      if v.Ok? {
        req := v.value;
      }
    }

    /** The last step of `callit`: the answer kept as a value, parsed when it
        looks like JSON and parses, wrapped as `result_text` otherwise. */
    method KeepResult(text: string)
      modifies this
      ensures callResult == CallResult(parse, text)
      ensures req == old(req) && stctRequest == old(stctRequest)
    {
      if ('{' in text || '[' in text) && parse(text).Some? {
        callResult := parse(text).value;
      } else {
        callResult := Obj([("result_text", Str(text))]);
      }
    }

    /** `callit`: validates the request (structuring it first when it is
        not), runs it and keeps the answer as a value. */
    method CallIt(incoming: Incoming, list: seq<string>) returns (r: Result<Json>)
      requires Inputs.WellFormed(validator.ops)
      modifies this, validator
      ensures r == Called(validator.ops, validator.apis, execute, parse, incoming, list)
      ensures r.Ok? ==> callResult == r.value
      ensures r.Ok? ==> req == Checked(validator.ops, validator.apis, incoming, list).value.1
      ensures r.Ok? ==> stctRequest == Checked(validator.ops, validator.apis, incoming, list).value.0
      ensures r.Fail? ==> callResult == old(callResult) && req == old(req)
    {
      var st := StructuredOf(incoming, list);
      if st.Fail? {
        return Fail(st.error);
      }
      var s := st.value;
      var v := ValidatedOf(s);
      CheckedFrom(validator.ops, validator.apis, incoming, list, s);
      if v.Fail? {
        return Fail(v.error);
      }
      var text := execute(req);
      KeepResult(text);
      return Ok(callResult);
    }

    /** `call_back`: the arguments parsed and structured, the request run
        through `callit`, and its answer, as indented JSON text, given to the
        output handler with the validated request. */
    method CallBackOf(a: Args) returns (r: Result<string>)
      requires Inputs.WellFormed(validator.ops)
      modifies this, validator, formatter
      ensures r == CalledBack(validator.ops, validator.apis, execute, parse, parseArgs,
                              formatter, documentation, a)
    {
      var p, list := ParseIt(a);
      var s := StructReIt(list, p);
      if s.Fail? {
        return Fail(s.error);
      }
      var c := CallIt(Ready(s.value), []);
      if c.Fail? {
        return Fail(c.error);
      }
      var text := formatter.dumps(c.value);
      r := formatter.OutputfyOf(documentation(req), text, s.value.built.workflow,
                                s.value.output.table, s.value.output.list, s.value.output.pretty);
    }
  }
}
