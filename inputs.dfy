/** The validation of a command line request by `InputHandler`
    (rbkcli/core/handlers/inputs.py). The endpoint is cut into tokens. An
    inline API version and an inline query are taken out. The longest prefix
    of the tokens that matches a documented endpoint is kept. The version,
    method, data, query and output format are then checked. */
module Inputs {
  import opened Wrappers
  import opened Strings
  import opened Lists
  import opened Json
  import JsonOps

  const SupportedVersions: seq<string> := ["v1", "v2", "internal", "adminCli", "rbkcli", "cmdlets", "scripts"]
  const SupportedMethods: seq<string> := ["head", "get", "post", "put", "patch", "delete"]
  const SupportedFormats: seq<string> := ["raw", "json", "table", "list", "values"]

  /** The endpoint as given: one text, or the words of the command line. */
  datatype Endpoint = EndpointText(text: string) | EndpointWords(words: seq<string>)

  /** The query as given: one text, or the words of the command line. */
  datatype Query = QueryText(text: string) | QueryWords(words: seq<string>)

  /** The fields of a request before validation. */
  datatype Request = Request(endpoint: Endpoint, version: string, verb: string, param: Query,
                             data: Json, formatt: string)

  /** The fields of a request after a successful validation. */
  datatype ReqState = ReqState(
    endpoint: string,          // the matched tokens joined by `/`
    inlineQuery: string,
    version: string,
    inlineVersion: string,
    keyVersion: string,
    verb: string,              // the HTTP method
    param: string,
    data: Json,
    formatt: string,
    endpointMatched: string,   // the documented path that matched
    endpointSearch: string,    // `version:path:method`
    endpointKey: seq<string>)  // the lines of the operations list holding the search text

  // ---------------------------------------------------------------------
  // `_normalize_endpoint`

  /** A list of words is joined by spaces first. */
  function EndpointString(e: Endpoint): string
  {
    match e
    case EndpointText(t) => t
    case EndpointWords(ws) => Join(ws, " ")
  }

  /** The endpoint and the inline query of a text holding `?`: the stripped text
      is split on `?`; the part before the first `?` is the endpoint and the
      part after it, behind a `?`, the query. */
  function PathAndQuery(t: string): (r: (string, string))
    ensures '?' !in r.0 && forall c :: c in r.0 ==> c in t
    ensures '?' !in t ==> r == (t, "")
    ensures '?' in t ==> |r.1| > 0 && r.1[0] == '?'
  {
    if '?' in t then
      var st := Strip(t);
      StripSetChars(t, Whitespace, '?');
      ContainsChar(st, '?');
      SplitHead(st, "?");
      var parts := Split(st, "?");
      ContainsChar(parts[0], '?');
      forall c | c in parts[0] ensures c in t {
        assert parts[0] == st[..|parts[0]|];
        var k :| 0 <= k < |parts[0]| && parts[0][k] == c;
        assert st[k] == c;
        StripSetChars(t, Whitespace, c);
      }
      (parts[0], "?" + parts[1])
    else (t, "")
  }

  /** The pieces of the endpoint: split on spaces, else on `/`, else whole. */
  function Pieces(path: string): (r: seq<string>)
    requires !(' ' in path && '/' in path)
    ensures forall p, c :: p in r && c in p ==> c in path
    ensures forall p :: p in r ==> ' ' !in p && '/' !in p
  {
    if ' ' in path then
      var ps := Split(Strip(path), " ");
      SplitPiecesFree(Strip(path), " ");
      forall p, c | p in ps && c in p ensures c in path {
        SplitChars(Strip(path), " ", p, c);
        StripSetChars(path, Whitespace, c);
      }
      forall p | p in ps ensures ' ' !in p && '/' !in p {
        ContainsChar(p, ' ');
        if '/' in p { SplitChars(Strip(path), " ", p, '/'); StripSetChars(path, Whitespace, '/'); }
      }
      ps
    else if '/' in path then
      var ps := Split(Strip(path), "/");
      SplitPiecesFree(Strip(path), "/");
      forall p, c | p in ps && c in p ensures c in path {
        SplitChars(Strip(path), "/", p, c);
        StripSetChars(path, Whitespace, c);
      }
      forall p | p in ps ensures ' ' !in p && '/' !in p {
        ContainsChar(p, '/');
        if ' ' in p { SplitChars(Strip(path), "/", p, ' '); StripSetChars(path, Whitespace, ' '); }
      }
      ps
    else [path]
  }

  /** `_normalize_endpoint`: the endpoint tokens, empty ones removed, and the
      inline query. A `?` together with a space, or (outside a query) a space
      together with a `/`, is an RbkcliError. */
  function NormalizedEndpoint(e: Endpoint): (r: Result<(seq<string>, string)>)
    ensures var t := EndpointString(e);
      r.Fail? <==> ('?' in t && ' ' in t) || ('?' !in t && ' ' in t && '/' in t)
    ensures r.Fail? ==> r.error.kind == RbkcliError
    ensures r.Ok? ==> ('?' in EndpointString(e) <==> r.value.1 != "")
    ensures r.Ok? ==> forall w :: w in r.value.0 ==> w != "" && ' ' !in w && '/' !in w && '?' !in w
  {
    var t := EndpointString(e);
    if '?' in t && ' ' in t then
      Raise(RbkcliError, "Unsupported syntax, \"?\" can only be used for queries, with endpoints entered as URL")
    else
      var pq := PathAndQuery(t);
      if ' ' in pq.0 && '/' in pq.0 then
        Raise(RbkcliError, "Unsupported syntax, when entering endpoints as URLs no (\" \") is supported")
      else
        var ps := Pieces(pq.0);
        forall w | w in ps ensures '?' !in w {
          assert '?' in w ==> '?' in pq.0;
        }
        Ok((NonEmpty(ps), pq.1))
  }

  /** A token as the splitting produces it, without whitespace at all. */
  predicate Plain(w: string)
  {
    w != "" && NoSpace(w) && '/' !in w && '?' !in w
  }

  lemma NonEmptyKeeps(ws: seq<string>)
    requires forall w :: w in ws ==> w != ""
    ensures NonEmpty(ws) == ws
  {
    if ws != [] {
      assert ws[0] in ws && forall w :: w in ws[1..] ==> w in ws;
      NonEmptyKeeps(ws[1..]);
    }
  }

  /** The separator-joined plain tokens: no whitespace at either end, no `?`,
      and the separator inside as soon as there are two tokens. */
  lemma JoinedPlain(ws: seq<string>, sep: char)
    requires |ws| >= 1 && forall w :: w in ws ==> Plain(w)
    requires sep == ' ' || sep == '/'
    ensures var t := Join(ws, [sep]);
      t != [] && !IsSpace(t[0]) && !IsSpace(t[|t| - 1]) && '?' !in t
      && (sep in t <==> |ws| >= 2)
      && (forall c :: c in t && c != sep ==> c != ' ' && c != '/')
  {
    var t := Join(ws, [sep]);
    forall w | w in ws ensures '?' !in w { }
    JoinWithout(ws, [sep], '?');
    var n := |ws| - 1;
    assert ws[0] in ws && ws[n] in ws;
    assert Plain(ws[0]) && Plain(ws[n]);
    if |ws| == 1 {
      assert t == ws[0];
    } else {
      assert t == ws[0] + [sep] + Join(ws[1..], [sep]);
      assert t[0] == ws[0][0];
      assert ws == ws[..n] + [ws[n]];
      JoinSnoc(ws[..n], ws[n], [sep]);
      assert t[|t| - 1] == ws[n][|ws[n]| - 1];
      assert t[|ws[0]|] == sep;
    }
    forall c | c in t && c != sep ensures c != ' ' && c != '/' {
      var other := if sep == ' ' then '/' else ' ';
      forall w | w in ws ensures ' ' !in w && '/' !in w { }
      JoinWithout(ws, [sep], other);
    }
  }

  /** Plain tokens joined by `sep` split back into themselves. */
  lemma PiecesOfPlain(ws: seq<string>, sep: char)
    requires |ws| >= 1 && forall w :: w in ws ==> Plain(w)
    requires sep == ' ' || sep == '/'
    ensures var t := Join(ws, [sep]); !(' ' in t && '/' in t) && NonEmpty(Pieces(t)) == ws
  {
    var t := Join(ws, [sep]);
    JoinedPlain(ws, sep);
    NonEmptyKeeps(ws);
    if |ws| >= 2 {
      StripNothing(t, Whitespace);
      forall w | w in ws ensures !Contains(w, [sep]) {
        ContainsChar(w, sep);
      }
      SplitJoin(ws, [sep]);
    }
  }

  /** `_normalize_endpoint` on a text it accepts. */
  lemma NormalizedOk(t: string)
    requires !('?' in t && ' ' in t)
    requires !(' ' in PathAndQuery(t).0 && '/' in PathAndQuery(t).0)
    ensures NormalizedEndpoint(EndpointText(t)) == Ok((NonEmpty(Pieces(PathAndQuery(t).0)), PathAndQuery(t).1))
  {
  }

  /** A path and a query without `?` or whitespace at the ends separate again. */
  lemma QuerySplits(path: string, q: string)
    requires path != [] && !IsSpace(path[0]) && '?' !in path && ' ' !in path
    requires NoSpace(q) && '?' !in q
    ensures '?' in path + "?" + q && ' ' !in path + "?" + q
    ensures PathAndQuery(path + "?" + q) == (path, "?" + q)
  {
    var t := path + "?" + q;
    assert t[|path|] == '?';
    assert ' ' !in q;
    assert t[0] == path[0];
    assert !IsSpace(t[|t| - 1]) by {
      if q != [] { assert t[|t| - 1] == q[|q| - 1]; }
    }
    StripNothing(t, Whitespace);
    SplitFirst(path, "?", q);
    ContainsChar(q, '?');
    SplitAbsent(q, "?");
  }

  /** A URL path of plain tokens normalises back to its tokens. */
  lemma UrlRoundTrip(ws: seq<string>)
    requires |ws| >= 1 && forall w :: w in ws ==> Plain(w)
    ensures NormalizedEndpoint(EndpointText(Join(ws, "/"))) == Ok((ws, ""))
  {
    var path := Join(ws, "/");
    JoinedPlain(ws, '/');
    PiecesOfPlain(ws, '/');
    assert PathAndQuery(path) == (path, "");
    NormalizedOk(path);
  }

  /** A URL path of plain tokens followed by `?` and a query normalises back
      to its tokens and the query. */
  lemma UrlQueryRoundTrip(ws: seq<string>, q: string)
    requires |ws| >= 1 && forall w :: w in ws ==> Plain(w)
    requires NoSpace(q) && '?' !in q
    ensures NormalizedEndpoint(EndpointText(Join(ws, "/") + "?" + q)) == Ok((ws, "?" + q))
  {
    var path := Join(ws, "/");
    JoinedPlain(ws, '/');
    PiecesOfPlain(ws, '/');
    QuerySplits(path, q);
    NormalizedOk(path + "?" + q);
  }

  /** The words of a command line, plain tokens, normalise back to themselves. */
  lemma WordsRoundTrip(ws: seq<string>)
    requires |ws| >= 1 && forall w :: w in ws ==> Plain(w)
    ensures NormalizedEndpoint(EndpointWords(ws)) == Ok((ws, ""))
  {
    JoinedPlain(ws, ' ');
    PiecesOfPlain(ws, ' ');
  }

  // ---------------------------------------------------------------------
  // `_extract_version_inline`

  /** A leading supported version is taken out of the tokens as the inline
      version; otherwise the inline version is the requested one. No tokens at
      all is an IndexError. */
  function InlineVersion(tokens: seq<string>, version: string): (r: Result<(seq<string>, string)>)
    ensures r.Fail? <==> tokens == []
    ensures r.Ok? ==>
      (r.value.1 in SupportedVersions && [r.value.1] + r.value.0 == tokens)
      || (tokens[0] !in SupportedVersions && r.value == (tokens, version))
  {
    if tokens == [] then Raise(IndexError, "list index out of range")
    else if tokens[0] in SupportedVersions then Ok((tokens[1..], tokens[0]))
    else Ok((tokens, version))
  }

  // ---------------------------------------------------------------------
  // `_match_endpoint`

  /** `re.search('{*id}', block)`: the pattern is a run of `{`, possibly empty,
      then `id}`; a segment is a placeholder when it contains `id}`. */
  predicate Placeholder(segment: string)
  {
    Contains(segment, "id}")
  }

  /** Every line of the operations list has a path field after the first `:`,
      as `version:path:method:...`. */
  predicate WellFormed(ops: seq<string>)
  {
    forall op :: op in ops ==> |Split(op, ":")| >= 2
  }

  /** The non-empty `/`-separated segments of the path field of a line. */
  function OpSegments(op: string): seq<string>
    requires |Split(op, ":")| >= 2
  {
    NonEmpty(Split(Split(op, ":")[1], "/"))
  }

  /** The documented segments match the tokens: as many of them, each equal
      or a placeholder. */
  predicate Agrees(segs: seq<string>, tokens: seq<string>)
  {
    |segs| == |tokens| > 0 && forall i :: 0 <= i < |segs| ==> segs[i] == tokens[i] || Placeholder(segs[i])
  }

  /** The segments of the first line that matches the tokens, if any. */
  function Matched(ops: seq<string>, tokens: seq<string>): (r: Option<seq<string>>)
    requires WellFormed(ops)
    ensures r.Some? ==> Agrees(r.value, tokens) && exists k :: 0 <= k < |ops| && r.value == OpSegments(ops[k])
    ensures r.None? <==> forall k :: 0 <= k < |ops| ==> !Agrees(OpSegments(ops[k]), tokens)
  {
    if ops == [] then None
    else if Agrees(OpSegments(ops[0]), tokens) then Some(OpSegments(ops[0]))
    else
      var r := Matched(ops[1..], tokens);
      assert forall k :: 1 <= k < |ops| ==> ops[1..][k - 1] == ops[k];
      r
  }

  /** The inner loop of `_match_endpoint` over one line's segments: true when
      it reaches the last token with every block so far equal or a
      placeholder and as many segments as tokens. */
  method SegmentsAgree(segs: seq<string>, tokens: seq<string>) returns (b: bool)
    ensures b == Agrees(segs, tokens)
  {
    var j := 0;
    while j < |segs|
      invariant 0 <= j <= |segs|
      invariant forall i :: 0 <= i < j && i < |tokens| ==> segs[i] == tokens[i] || Placeholder(segs[i])
      invariant Agrees(segs, tokens) ==> j < |tokens|
    {
      if j <= |tokens| - 1 {
        if segs[j] == tokens[j] || Placeholder(segs[j]) {
          if j == |tokens| - 1 && |segs| == |tokens| {
            return true;
          }
        } else {
          return false;
        }
      }
      j := j + 1;
    }
    return false;
  }

  /** `_match_endpoint`: the lines are tried in order, and the first whose
      segments agree with the tokens is the match. */
  method MatchEndpoint(ops: seq<string>, tokens: seq<string>) returns (m: Option<seq<string>>)
    requires WellFormed(ops)
    ensures m == Matched(ops, tokens)
  {
    var k := 0;
    while k < |ops|
      invariant 0 <= k <= |ops|
      invariant Matched(ops, tokens) == Matched(ops[k..], tokens)
    {
      var segs := OpSegments(ops[k]);
      var agree := SegmentsAgree(segs, tokens);
      assert ops[k..][0] == ops[k] && ops[k..][1..] == ops[k + 1..];
      if agree {
        return Some(segs);
      }
      k := k + 1;
    }
    return None;
  }

  // ---------------------------------------------------------------------
  // `_split_endpoint_arguments`

  /** The length of the longest prefix of `tokens[..n]` that matches a line,
      or 0. */
  function Longest(ops: seq<string>, tokens: seq<string>, n: nat): (r: nat)
    requires WellFormed(ops) && n <= |tokens|
    ensures r <= n
    ensures r > 0 ==> Matched(ops, tokens[..r]).Some?
    ensures forall m :: r < m <= n ==> Matched(ops, tokens[..m]).None?
  {
    if n == 0 then 0
    else if Matched(ops, tokens[..n]).Some? then n
    else Longest(ops, tokens, n - 1)
  }

  /** `_split_endpoint_arguments`' loop: trailing tokens are moved to the
      unparsed list until the rest matches or nothing is left; the unparsed
      list is reversed back into the order given. */
  method SplitArguments(ops: seq<string>, tokens: seq<string>)
    returns (parsed: seq<string>, notVerified: seq<string>, matched: Option<seq<string>>)
    requires WellFormed(ops)
    ensures parsed == tokens[..Longest(ops, tokens, |tokens|)] && parsed + notVerified == tokens
    ensures matched == Matched(ops, parsed)
  {
    parsed := tokens;
    var dropped: seq<string> := [];
    matched := MatchEndpoint(ops, parsed);
    while matched.None? && parsed != []
      invariant parsed + Reversed(dropped) == tokens && parsed == tokens[..|parsed|]
      invariant matched == Matched(ops, parsed)
      invariant Longest(ops, tokens, |tokens|) == Longest(ops, tokens, |parsed|)
      decreases |parsed|
    {
      var last := parsed[|parsed| - 1];
      ReversedSnoc(dropped, last);
      assert parsed == parsed[..|parsed| - 1] + [last];
      dropped := dropped + [last];
      parsed := parsed[..|parsed| - 1];
      matched := MatchEndpoint(ops, parsed);
    }
    notVerified := Reversed(dropped);
  }

  // ---------------------------------------------------------------------
  // `_gen_endpoint_key`

  /** The documented path that matched, as `'/' + '/'.join(segments)`; no match
      leaves `'/'`. */
  function MatchedPath(m: Option<seq<string>>): string
  {
    "/" + if m.Some? then Join(m.value, "/") else ""
  }

  /** The lines of the operations list that contain the search text, in order. */
  function KeysFor(ops: seq<string>, search: string): (r: seq<string>)
    ensures forall x :: x in r <==> x in ops && Contains(x, search)
    ensures |r| <= |ops|
  {
    if ops == [] then []
    else
      var n := |ops| - 1;
      assert ops == ops[..n] + [ops[n]];
      KeysFor(ops[..n], search) + if Contains(ops[n], search) then [ops[n]] else []
  }

  /** `_gen_endpoint_key`'s loop over the operations list. */
  method GenEndpointKey(ops: seq<string>, search: string) returns (keys: seq<string>)
    ensures keys == KeysFor(ops, search)
  {
    keys := [];
    var k := 0;
    while k < |ops|
      invariant 0 <= k <= |ops| && keys == KeysFor(ops[..k], search)
    {
      PrefixStep(ops, k);
      if Contains(ops[k], search) {
        keys := keys + [ops[k]];
      }
      k := k + 1;
    }
    assert ops[..|ops|] == ops;
  }

  // ---------------------------------------------------------------------
  // `_is_valid_version`, `_is_valid_data`, `_is_valid_query`

  /** The version of the first matching line: its first `:`-field. */
  function KeyVersion(key: string): string
  {
    Split(Strip(key), ":")[0]
  }

  /** `_is_valid_version`: the version the request runs with, or None when it
      is invalid. An empty version takes the found one, which must equal a
      given inline version; a version given without an inline one must equal
      the found one; the result must be an instantiated API. */
  function CheckedVersion(version: string, inlineVersion: string, keyVersion: string, apis: seq<string>)
    : (r: Option<string>)
    ensures r.Some? <==>
      (version == "" && inlineVersion != "" ==> keyVersion == inlineVersion)
      && (version != "" && inlineVersion == "" ==> keyVersion == version)
      && (if version == "" then keyVersion else version) in apis
    ensures r.Some? ==> r.value == if version == "" then keyVersion else version
  {
    var v :=
      if version == "" && inlineVersion == "" then Some(keyVersion)
      else if version == "" then (if keyVersion != inlineVersion then None else Some(keyVersion))
      else if inlineVersion == "" then (if keyVersion != version then None else Some(version))
      else Some(version);
    if v.Some? && v.value in apis then v else None
  }

  /** `_is_valid_data`: data that is neither an object nor a text with `{` is
      read as `k=v,k=v` pairs and turned into object text. */
  function CheckedData(data: Json): (r: Result<Json>)
    ensures data.Obj? || (data.Str? && '{' in data.s) ==> r == Ok(data)
    ensures r.Ok? && r.value != data ==> r.value.Str? && |r.value.s| >= 2 && r.value.s[0] == '{'
  {
    match data
    case Obj(_) => Ok(data)
    case Str(t) =>
      if '{' in t then Ok(data)
      else Converted(data)
    case Arr(items) =>
      if Str("{") in items then Ok(data)
      else Converted(data)
    case _ => Raise(TypeError, "argument of type '" + TypeName(data) + "' is not iterable")
  }

  function Converted(data: Json): (r: Result<Json>)
    ensures r.Ok? ==> r.value.Str? && |r.value.s| >= 2 && r.value.s[0] == '{'
  {
    match JsonOps.NaturalDictText(data)
    case Fail(e) => Fail(e)
    case Ok(text) => Ok(Str(text))
  }

  /** The query as one text: a list of words is joined by spaces. */
  function QueryString(q: Query): string
  {
    match q
    case QueryText(t) => t
    case QueryWords(ws) => Join(ws, " ")
  }

  /** `_is_valid_query`: commas become `&`; a non-empty query is prefixed `?`
      when there is no inline query (unless it has one already), and `&`
      after an inline query. */
  function QueryParam(param: Query, inlineQuery: string): (r: string)
    ensures ',' !in r
    ensures r == "" <==> QueryString(param) == ""
    ensures r != "" && inlineQuery == "" ==> r[0] == '?'
    ensures r != "" && inlineQuery != "" ==> r[0] == '&'
  {
    var p := Replace(QueryString(param), ",", "&");
    ReplaceRemoves(QueryString(param), ',', "&");
    ReplaceEmpty(QueryString(param), ",", "&");
    if inlineQuery == "" then
      if p != "" && !StartsWith(p, "?") then "?" + p else p
    else if p != "" then "&" + p
    else p
  }

  lemma ReplaceEmpty(s: string, a: string, b: string)
    requires |a| > 0 && |b| > 0
    ensures Replace(s, a, b) == "" <==> s == ""
  {
    var parts := Split(s, a);
    JoinSplit(s, a);
    if |parts| >= 2 {
      assert Join(parts, b) == parts[0] + b + Join(parts[1..], b);
      assert Join(parts, a) == parts[0] + a + Join(parts[1..], a);
    } else {
      assert Join(parts, b) == parts[0] == Join(parts, a);
    }
  }

  /** Comma-separated `k=v` pairs become an `&`-separated query. */
  lemma QueryOfPairs(ps: seq<string>)
    requires |ps| >= 1 && forall p :: p in ps ==> ',' !in p
    requires ps[0] != "" && ps[0][0] != '?'
    ensures QueryParam(QueryText(Join(ps, ",")), "") == "?" + Join(ps, "&")
  {
    forall p | p in ps ensures !Contains(p, ",") {
      ContainsChar(p, ',');
    }
    SplitJoin(ps, ",");
    var j := Join(ps, "&");
    if |ps| >= 2 {
      assert j == ps[0] + "&" + Join(ps[1..], "&");
    }
    assert j[0] == ps[0][0];
  }

  // ---------------------------------------------------------------------
  // `validate`

  /** `validate`: every step in the order the source takes them, with the
      first failure as an RbkcliError (or the error of the step that
      raised). */
  function Validation(ops: seq<string>, apis: seq<string>, req: Request): (r: Result<ReqState>)
    requires WellFormed(ops)
  {
    match NormalizedEndpoint(req.endpoint)
    case Fail(e) => Fail(e)
    case Ok(tq) =>
      match InlineVersion(tq.0, req.version)
      case Fail(e) => Fail(e)
      case Ok(tv) => Resolved(ops, apis, req, tq.1, tv.0, tv.1)
  }

  /** The steps of `validate` after the tokens are known: the longest match,
      the endpoint key, the version, method, data, query and format. */
  function Resolved(ops: seq<string>, apis: seq<string>, req: Request, inlineQuery: string,
                    tokens: seq<string>, inlineVersion: string): (r: Result<ReqState>)
    requires WellFormed(ops)
  {
    var n := Longest(ops, tokens, |tokens|);
    var parsed := tokens[..n];
    var path := MatchedPath(Matched(ops, parsed));
    var search := req.version + ":" + path + ":" + req.verb;
    if n < |tokens| then
      Raise(RbkcliError, "The provided endpoint is invalid. There are arguments that could not be parsed ["
                         + Join(tokens[n..], " ") + "].")
    else
      var keys := KeysFor(ops, search);
      if keys == [] then
        Raise(RbkcliError, "The provided endpoint is invalid. Unable to find any endpoint and method "
                           + "combination that matches the provided [" + search + "].")
      else
        var kv := KeyVersion(keys[0]);
        match CheckedVersion(req.version, inlineVersion, kv, apis)
        case None => Raise(RbkcliError, "The provided version is invalid.")
        case Some(version) =>
          if req.verb !in SupportedMethods then Raise(RbkcliError, "The provided method is invalid.")
          else
            match CheckedData(req.data)
            case Fail(e) => Fail(e)
            case Ok(data) =>
              if req.formatt !in SupportedFormats then Raise(RbkcliError, "The requested formatt is invalid.")
              else
                Ok(ReqState(Join(parsed, "/"), inlineQuery, version, inlineVersion, kv, req.verb,
                            QueryParam(req.param, inlineQuery), data, req.formatt, path, search, keys))
  }

  /** What a validated request guarantees: every token was matched, the key
      lines all hold the search text, and the version, method and format are
      ones the program supports. */
  lemma ResolvedFacts(ops: seq<string>, apis: seq<string>, req: Request, inlineQuery: string,
                      tokens: seq<string>, inlineVersion: string)
    requires WellFormed(ops) && Resolved(ops, apis, req, inlineQuery, tokens, inlineVersion).Ok?
    ensures var v := Resolved(ops, apis, req, inlineQuery, tokens, inlineVersion).value;
      v.endpoint == Join(tokens, "/") && (tokens != [] ==> Matched(ops, tokens).Some?)
      && v.endpointMatched == MatchedPath(Matched(ops, tokens))
      && v.endpointKey != [] && (forall x :: x in v.endpointKey ==> x in ops && Contains(x, v.endpointSearch))
      && v.version in apis && v.verb in SupportedMethods && v.formatt in SupportedFormats
      && ',' !in v.param
  {
    var n := Longest(ops, tokens, |tokens|);
    assert n == |tokens|;
    assert tokens[..n] == tokens;
  }

  lemma ValidatedFacts(ops: seq<string>, apis: seq<string>, req: Request)
    requires WellFormed(ops) && Validation(ops, apis, req).Ok?
    ensures var v := Validation(ops, apis, req).value;
      var tq := NormalizedEndpoint(req.endpoint).value;
      var tv := InlineVersion(tq.0, req.version).value;
      v.endpoint == Join(tv.0, "/") && (tv.0 != [] ==> Matched(ops, tv.0).Some?)
      && v.endpointMatched == MatchedPath(Matched(ops, tv.0))
      && v.endpointKey != [] && (forall x :: x in v.endpointKey ==> x in ops && Contains(x, v.endpointSearch))
      && v.version in apis && v.verb in SupportedMethods && v.formatt in SupportedFormats
      && ',' !in v.param
  {
    var tq := NormalizedEndpoint(req.endpoint).value;
    var tv := InlineVersion(tq.0, req.version).value;
    ResolvedFacts(ops, apis, req, tq.1, tv.0, tv.1);
  }

  /** Tokens left over after the longest match make the request invalid. */
  lemma UnparsedRejected(ops: seq<string>, apis: seq<string>, req: Request)
    requires WellFormed(ops)
    requires NormalizedEndpoint(req.endpoint).Ok?
    requires var tq := NormalizedEndpoint(req.endpoint).value;
      InlineVersion(tq.0, req.version).Ok?
      && Matched(ops, InlineVersion(tq.0, req.version).value.0).None?
      && InlineVersion(tq.0, req.version).value.0 != []
    ensures Validation(ops, apis, req).Fail?
    ensures Validation(ops, apis, req).error.kind == RbkcliError
  {
    var tq := NormalizedEndpoint(req.endpoint).value;
    var tokens := InlineVersion(tq.0, req.version).value.0;
    assert tokens[..|tokens|] == tokens;
  }

  // ---------------------------------------------------------------------
  // The handler

  class InputHandler {
    const ops: seq<string>
    const apis: seq<string>
    var req: ReqState

    constructor (ops: seq<string>, apis: seq<string>, blank: ReqState)
      ensures this.ops == ops && this.apis == apis && req == blank
    {
      this.ops := ops;
      this.apis := apis;
      req := blank;
    }

    /** `validate`: the request as checked, kept in `req`. */
    method Validate(r: Request) returns (res: Result<ReqState>)
      requires WellFormed(ops)
      modifies this
      ensures res == Validation(ops, apis, r)
      ensures res.Ok? ==> req == res.value
      ensures res.Fail? ==> req == old(req)
    {
      var tq := NormalizedEndpoint(r.endpoint);
      if tq.Fail? {
        return Fail(tq.error);
      }
      var tv := InlineVersion(tq.value.0, r.version);
      if tv.Fail? {
        return Fail(tv.error);
      }
      var parsed, notVerified, matched := SplitArguments(ops, tv.value.0);
      var path := MatchedPath(matched);
      var search := r.version + ":" + path + ":" + r.verb;
      if notVerified != [] {
        return Raise(RbkcliError, "The provided endpoint is invalid. There are arguments that could not be parsed ["
                                  + Join(notVerified, " ") + "].");
      }
      var keys := GenEndpointKey(ops, search);
      if keys == [] {
        return Raise(RbkcliError, "The provided endpoint is invalid. Unable to find any endpoint and method "
                                  + "combination that matches the provided [" + search + "].");
      }
      var kv := KeyVersion(keys[0]);
      var version := CheckedVersion(r.version, tv.value.1, kv, apis);
      if version.None? {
        return Raise(RbkcliError, "The provided version is invalid.");
      }
      if r.verb !in SupportedMethods {
        return Raise(RbkcliError, "The provided method is invalid.");
      }
      var data := CheckedData(r.data);
      if data.Fail? {
        return Fail(data.error);
      }
      var param := QueryParam(r.param, tq.value.1);
      if r.formatt !in SupportedFormats {
        return Raise(RbkcliError, "The requested formatt is invalid.");
      }
      req := ReqState(Join(parsed, "/"), tq.value.1, version.value, tv.value.1, kv, r.verb,
                      param, data.value, r.formatt, path, search, keys);
      res := Ok(req);
    }
  }
}
