/** How `JsonEditor` (rbkcli/core/handlers/jsometa.py) reads the fields a user
    asks for: the operator and filter value of each request, the output name it
    is given, the key-map entry it resolves to, and the `?` listings that show
    which names can be asked for. */
module FieldRequests {
  import opened Wrappers
  import opened Strings
  import opened Sorting
  import opened MapKeys

  // ---------------------------------------------------------------------
  // Operators

  /** A requested field split from its filter: the field text and the values of
      `filter_eq` (`=`), `filter_aprox` (`~`), `filter_not` (`!=`) and
      `filter_not_aprox` (`!~`). */
  datatype FieldRequest = FieldRequest(
    field: string,
    filterEq: string,
    filterAprox: string,
    filterNot: string,
    filterNotAprox: string)

  /** At most one of the four filters is set. */
  predicate OneFilter(r: FieldRequest)
  {
    (r.filterEq != "" ==> r.filterAprox == "" && r.filterNot == "" && r.filterNotAprox == "")
    && (r.filterAprox != "" ==> r.filterNot == "" && r.filterNotAprox == "")
    && (r.filterNot != "" ==> r.filterNotAprox == "")
  }

  /** Text without any character an operator is made of. */
  predicate Plain(s: string)
  {
    '!' !in s && '~' !in s && '=' !in s
  }

  lemma PlainHasNoOperator(s: string)
    requires Plain(s)
    ensures !Contains(s, "!=") && !Contains(s, "!~") && !Contains(s, "~") && !Contains(s, "=")
  {
    HeadAbsent(s, "!=");
    HeadAbsent(s, "!~");
    HeadAbsent(s, "~");
    HeadAbsent(s, "=");
  }

  /** The first two pieces of a split on a separator that occurs: the text
      before its first occurrence, and the text after it up to the next one. */
  lemma SplitSecond(text: string, op: string)
    requires |op| > 0 && Contains(text, op)
    ensures |Split(text, op)| >= 2
    ensures var p := Split(text, op);
      StartsWith(text, p[0] + op) && !Contains(p[0], op)
      && StartsWith(text[|p[0]| + |op|..], p[1]) && !Contains(p[1], op)
  {
    var i := Find(text, op).value;
    var rest := text[i + |op|..];
    SplitHead(rest, op);
    SplitHead(text, op);
    assert Split(text, op) == [text[..i]] + Split(rest, op);
    assert text[..i + |op|] == text[..i] + op;
  }

  /** `text.split(op)[0]` and `text.split(op)[1]`. */
  function Around(text: string, op: string): (r: (string, string))
    requires |op| > 0 && Contains(text, op)
    ensures StartsWith(text, r.0 + op) && !Contains(r.0, op)
    ensures StartsWith(text[|r.0| + |op|..], r.1) && !Contains(r.1, op)
  {
    SplitSecond(text, op);
    var pieces := Split(text, op);
    (pieces[0], pieces[1])
  }

  /** The operator test of `_request_creator`: `!=`, then `!~`, then `~`, then
      `=`; the first that occurs splits the text into field and filter value. */
  function ParseField(text: string): (r: FieldRequest)
    ensures OneFilter(r) && StartsWith(text, r.field)
    ensures Plain(text) ==> r == FieldRequest(text, "", "", "", "")
  {
    if Plain(text) then
      PlainHasNoOperator(text);
      FieldRequest(text, "", "", "", "")
    else if Contains(text, "!=") then
      var (f, v) := Around(text, "!=");
      FieldRequest(f, "", "", v, "")
    else if Contains(text, "!~") then
      var (f, v) := Around(text, "!~");
      FieldRequest(f, "", "", "", v)
    else if Contains(text, "~") then
      var (f, v) := Around(text, "~");
      FieldRequest(f, "", v, "", "")
    else if Contains(text, "=") then
      var (f, v) := Around(text, "=");
      FieldRequest(f, v, "", "", "")
    else
      FieldRequest(text, "", "", "", "")
  }

  /** The request `name`, operator `op`, `value` stands for. */
  function Requested(name: string, op: string, value: string): FieldRequest
  {
    FieldRequest(name,
      if op == "=" then value else "",
      if op == "~" then value else "",
      if op == "!=" then value else "",
      if op == "!~" then value else "")
  }

  /** In `name!~value` the only `!` is followed by `~`, so `!=` does not occur. */
  lemma NotEqualAbsent(name: string, value: string)
    requires '!' !in name && '!' !in value
    ensures !Contains(name + "!~" + value, "!=")
  {
    var t := name + "!~" + value;
    ContainsIff(t, "!=");
    forall j | 0 <= j && j + 2 <= |t| ensures !OccursAt(t, "!=", j) {
      assert t[j..j + 2][0] == t[j] && t[j..j + 2][1] == t[j + 1];
      if j < |name| {
        assert t[j] == name[j];
      } else if j == |name| {
        assert t[j + 1] == '~';
      } else if j == |name| + 1 {
        assert t[j] == '~';
      } else {
        assert t[j] == value[j - |name| - 2];
      }
    }
  }

  /** A request written as field, operator, value is read back as written. */
  lemma ParseComposed(name: string, op: string, value: string)
    requires op in ["!=", "!~", "~", "="] && Plain(name) && Plain(value)
    ensures ParseField(name + op + value) == Requested(name, op, value)
  {
    var t := name + op + value;
    PlainHasNoOperator(value);
    SplitFirst(name, op, value);
    SplitAbsent(value, op);
    assert OccursAt(t, op, |name|) by { assert t[|name|..|name| + |op|] == op; }
    OccursContains(t, op, |name|);
    assert !Plain(t) by { assert t[|name|] == op[0]; }
    if op == "!~" {
      NotEqualAbsent(name, value);
    } else if op == "~" {
      HeadAbsent(t, "!=");
      HeadAbsent(t, "!~");
    } else if op == "=" {
      HeadAbsent(t, "!=");
      HeadAbsent(t, "!~");
      HeadAbsent(t, "~");
    }
  }

  // ---------------------------------------------------------------------
  // Output names

  /** `_reformat_nested_ks`: `][` becomes `_`, then every `]` and `[` goes. */
  function ReformatNestedKs(name: string): (r: string)
    ensures '[' !in r && ']' !in r
  {
    var a := Replace(name, "][", "_");
    var b := Replace(a, "]", "");
    ReplaceRemoves(a, ']', "");
    ReplaceRemoves(b, '[', "");
    DeleteCharKeepsOthers(b, '[', ']');
    Replace(b, "[", "")
  }

  /** `[n1][n2]...`: a nested field written with brackets. */
  function Bracketed(names: seq<string>): (r: string)
    ensures |names| > 0 ==> '[' in r
  {
    if names == [] then "" else "[" + names[0] + "]" + Bracketed(names[1..])
  }

  predicate Unbracketed(names: seq<string>)
  {
    forall n :: n in names ==> '[' !in n && ']' !in n
  }

  lemma {:induction false} BracketedJoin(names: seq<string>)
    requires |names| >= 1
    ensures Bracketed(names) == "[" + Join(names, "][") + "]"
  {
    if |names| > 1 {
      BracketedJoin(names[1..]);
    }
  }

  /** With no `]` before the end, `][` does not occur. */
  lemma CloseOnlyAtEnd(x: string)
    requires ']' !in x
    ensures !Contains(x + "]", "][")
  {
    var t := x + "]";
    ContainsIff(t, "][");
    forall j | 0 <= j && j + 2 <= |t| ensures !OccursAt(t, "][", j) {
      assert t[j..j + 2][0] == t[j] == x[j];
    }
  }

  lemma ReplaceMarksOne(p: string, n: string)
    requires ']' !in p && ']' !in n
    ensures Replace(p + Join([n], "][") + "]", "][", "_") == p + Join([n], "_") + "]"
  {
    CloseOnlyAtEnd(p + n);
    ReplaceAbsent(p + n + "]", "][", "_");
  }

  lemma {:induction false} ReplaceMarks(p: string, names: seq<string>)
    requires |names| >= 1 && ']' !in p && Unbracketed(names)
    ensures Replace(p + Join(names, "][") + "]", "][", "_") == p + Join(names, "_") + "]"
    decreases |names|
  {
    if |names| == 1 {
      ReplaceMarksOne(p, names[0]);
    } else {
      var n0, tail := names[0], names[1..];
      var rest := Join(tail, "][") + "]";
      assert Join(names, "][") == n0 + "][" + Join(tail, "][");
      assert Join(names, "_") == n0 + "_" + Join(tail, "_");
      calc {
        Replace(p + Join(names, "][") + "]", "][", "_");
        { assert p + Join(names, "][") + "]" == (p + n0) + "][" + rest; }
        Replace((p + n0) + "][" + rest, "][", "_");
        { ReplaceFirst(p + n0, "][", rest, "_"); }
        (p + n0) + "_" + Replace(rest, "][", "_");
        { ReplaceMarks("", tail); assert "" + Join(tail, "][") + "]" == rest; }
        (p + n0) + "_" + ("" + Join(tail, "_") + "]");
        p + Join(names, "_") + "]";
      }
    }
  }

  /** A bracketed field is named by its parts joined with `_`: `[a][b]` is `a_b`. */
  lemma ReformatBracketed(names: seq<string>)
    requires |names| >= 1 && Unbracketed(names)
    ensures ReformatNestedKs(Bracketed(names)) == Join(names, "_")
  {
    var j := Join(names, "_");
    JoinWithout(names, "_", '[');
    JoinWithout(names, "_", ']');
    BracketedJoin(names);
    ReplaceMarks("[", names);
    DropOuterBrackets(j);
  }

  /** `[j]` loses its closing and then its opening bracket. */
  lemma DropOuterBrackets(j: string)
    requires '[' !in j && ']' !in j
    ensures Replace(Replace("[" + j + "]", "]", ""), "[", "") == j
  {
    HeadAbsent("", "]");
    HeadAbsent(j, "[");
    calc {
      Replace("[" + j + "]", "]", "");
      { assert "[" + j + "]" == ("[" + j) + "]" + ""; }
      Replace(("[" + j) + "]" + "", "]", "");
      { ReplaceFirst("[" + j, "]", "", ""); }
      ("[" + j) + "" + Replace("", "]", "");
      { ReplaceAbsent("", "]", ""); }
      "" + "[" + j;
    }
    calc {
      Replace("" + "[" + j, "[", "");
      { ReplaceFirst("", "[", j, ""); }
      "" + "" + Replace(j, "[", "");
      { ReplaceAbsent(j, "[", ""); }
      j;
    }
  }

  /** A name without brackets is its own output name. */
  lemma ReformatPlain(name: string)
    requires '[' !in name && ']' !in name
    ensures ReformatNestedKs(name) == name
  {
    HeadAbsent(name, "][");
    HeadAbsent(name, "]");
    HeadAbsent(name, "[");
  }

  // ---------------------------------------------------------------------
  // Renaming a repeated output name

  /** The text before the first `_` (`name.split('_')[0]`). */
  function Prefix(name: string): (r: string)
    ensures '_' !in r && StartsWith(name, r)
  {
    SplitHead(name, "_");
    ContainsChar(Split(name, "_")[0], '_');
    Split(name, "_")[0]
  }

  /** `prefix + '_' + str(counter)`. */
  function Candidate(prefix: string, counter: nat): string
  {
    prefix + "_" + NatToString(counter)
  }

  /** The candidates numbered from 2 up to, not including, `counter`. */
  function Tried(prefix: string, counter: nat): set<string>
  {
    set k | 2 <= k < counter :: Candidate(prefix, k)
  }

  lemma CandidateInjective(prefix: string, a: nat, b: nat)
    requires Candidate(prefix, a) == Candidate(prefix, b)
    ensures a == b
  {
    var n := |prefix| + 1;
    assert NatToString(a) == Candidate(prefix, a)[n..];
    assert NatToString(b) == Candidate(prefix, b)[n..];
    IntToStringInjective(a, b);
  }

  lemma TriedNext(prefix: string, counter: nat)
    requires counter >= 2
    ensures Candidate(prefix, counter) !in Tried(prefix, counter)
    ensures Tried(prefix, counter + 1) == Tried(prefix, counter) + {Candidate(prefix, counter)}
  {
    var c := Candidate(prefix, counter);
    if c in Tried(prefix, counter) {
      var k :| 2 <= k < counter && Candidate(prefix, k) == c;
      CandidateInjective(prefix, k, counter);
    }
    forall x ensures x in Tried(prefix, counter + 1) <==> x in Tried(prefix, counter) || x == c {
      if x in Tried(prefix, counter + 1) {
        var k :| 2 <= k < counter + 1 && Candidate(prefix, k) == x;
        if k < counter {
          assert x in Tried(prefix, counter);
        }
      }
      if x in Tried(prefix, counter) {
        var k :| 2 <= k < counter && Candidate(prefix, k) == x;
        assert x in Tried(prefix, counter + 1);
      }
    }
  }

  /** The first candidate from `counter` on that is not taken. */
  function Renumbered(taken: set<string>, prefix: string, counter: nat): (r: string)
    requires counter >= 2
    ensures r !in taken
    ensures exists k :: (k >= counter && r == Candidate(prefix, k)
      && forall j :: counter <= j < k ==> Candidate(prefix, j) in taken)
    decreases taken - Tried(prefix, counter)
  {
    if Candidate(prefix, counter) !in taken then
      Candidate(prefix, counter)
    else
      TriedNext(prefix, counter);
      Renumbered(taken, prefix, counter + 1)
  }

  /** The duplicate loop of `_request_creator`: a name already taken becomes
      `<prefix>_<n>` with the smallest n from 2 whose name is free. */
  function Dedup(taken: set<string>, name: string): (r: string)
    ensures r !in taken
    ensures name !in taken ==> r == name
    ensures name in taken ==> exists k :: (k >= 2 && r == Candidate(Prefix(name), k)
      && forall j :: 2 <= j < k ==> Candidate(Prefix(name), j) in taken)
  {
    if name !in taken then name else Renumbered(taken, Prefix(name), 2)
  }

  /** A candidate starts with its prefix, so its own prefix is the same. */
  lemma PrefixOfCandidate(prefix: string, counter: nat)
    requires '_' !in prefix
    ensures Prefix(Candidate(prefix, counter)) == prefix
  {
    SplitFirst(prefix, "_", NatToString(counter));
  }

  /** One round of the duplicate loop: the name it checked is taken, so the
      next candidate is the one `Dedup` goes on to, and fewer taken names are
      left untried. */
  lemma RenameStep(names: set<string>, name: string, r: string, counter: nat)
    requires r in names && counter >= 1
    requires counter == 1 ==> r == name
    requires counter >= 2 ==> (r == Candidate(Prefix(name), counter) && name in names
      && Dedup(names, name) == Renumbered(names, Prefix(name), counter))
    ensures |Split(r, "_")| > 0 && Split(r, "_")[0] == Prefix(name)
    ensures name in names && Dedup(names, name) == Renumbered(names, Prefix(name), counter + 1)
    ensures counter >= 2 ==> names - Tried(Prefix(name), counter + 1) < names - Tried(Prefix(name), counter)
    ensures counter == 1 ==> Tried(Prefix(name), counter + 1) == Tried(Prefix(name), counter)
  {
    var prefix := Prefix(name);
    SplitHead(r, "_");
    if counter >= 2 {
      PrefixOfCandidate(prefix, counter);
      TriedNext(prefix, counter);
    } else {
      assert Tried(prefix, 1) == {} == Tried(prefix, 2);
    }
  }

  /** `while final_field in final.keys()`: count up and rename. */
  method FreshName(taken: seq<string>, name: string) returns (r: string)
    ensures r == Dedup(Elems(taken), name)
  {
    var counter := 1;
    r := name;
    ghost var prefix := Prefix(name);
    ghost var names := Elems(taken);
    while r in taken
      invariant counter >= 1
      invariant counter == 1 ==> r == name
      invariant counter >= 2 ==> (r == Candidate(prefix, counter) && name in names
        && Dedup(names, name) == Renumbered(names, prefix, counter))
      decreases names - Tried(prefix, counter), if counter == 1 then 1 else 0
    {
      RenameStep(names, name, r, counter);
      counter := counter + 1;
      var pieces := Split(r, "_");
      r := pieces[0] + "_" + IntToString(counter);
    }
  }

  // ---------------------------------------------------------------------
  // Resolving a field against the key map

  /** The first entry that starts with `p`. */
  function FirstStarting(full: seq<string>, p: string): (r: Option<string>)
    ensures r.None? <==> forall i :: 0 <= i < |full| ==> !StartsWith(full[i], p)
    ensures r.Some? ==> exists i :: (0 <= i < |full| && full[i] == r.value
      && StartsWith(full[i], p) && forall j :: 0 <= j < i ==> !StartsWith(full[j], p))
  {
    if full == [] then None
    else if StartsWith(full[0], p) then Some(full[0])
    else
      var r := FirstStarting(full[1..], p);
      assert forall i :: 1 <= i < |full| ==> full[i] == full[1..][i - 1];
      r
  }

  /** `s.split(']')` without its last piece: the opening parts of a bracketed
      path, one per segment. */
  function Pieces(s: string): (r: seq<string>)
  {
    var p := Split(s, "]");
    p[..|p| - 1]
  }

  /** Every requested part opens the entry's part at the same place: `a` matches
      `[a#1#dict`. */
  predicate Matches(req: seq<string>, val: seq<string>)
  {
    |req| == |val| && |req| > 0 && forall k :: 0 <= k < |req| ==> StartsWith(val[k], req[k] + "#")
  }

  /** The last entry whose parts the request matches. */
  function LastMatching(full: seq<string>, req: seq<string>): (r: Option<string>)
    ensures r.None? <==> forall i :: 0 <= i < |full| ==> !Matches(req, Pieces(full[i]))
    ensures r.Some? ==> exists i :: (0 <= i < |full| && full[i] == r.value
      && Matches(req, Pieces(full[i])) && forall j :: i < j < |full| ==> !Matches(req, Pieces(full[j])))
    decreases |full|
  {
    if full == [] then None
    else if Matches(req, Pieces(full[|full| - 1])) then Some(full[|full| - 1])
    else
      var r := LastMatching(full[..|full| - 1], req);
      assert forall i :: 0 <= i < |full| - 1 ==> full[i] == full[..|full| - 1][i];
      r
  }

  /** `_get_field_key`: a name without `[` resolves to the first entry starting
      with `[name#`; a bracketed path resolves to the last entry with as many
      parts, each opening with the requested part and `#`; no match is `None`. */
  function FieldKey(full: seq<string>, field: string): (r: Option<string>)
    ensures r.Some? ==> r.value in full
  {
    if '[' !in field then FirstStarting(full, "[" + field + "#")
    else LastMatching(full, Pieces(field))
  }

  /** The inner loop of `_get_field_key`: stop at the first part that does not
      open the entry's part; reaching the last part is a match. */
  method PiecesMatch(req: seq<string>, val: seq<string>) returns (ok: bool)
    requires |req| == |val|
    ensures ok == Matches(req, val)
  {
    ok := false;
    var i := 0;
    while i < |req|
      invariant 0 <= i <= |req|
      invariant forall k :: 0 <= k < i ==> StartsWith(val[k], req[k] + "#")
      invariant ok <==> i == |req| && i > 0
    {
      if !StartsWith(val[i], req[i] + "#") {
        break;
      }
      if i + 1 == |req| {
        ok := true;
      }
      i := i + 1;
    }
  }

  method GetFieldKey(full: seq<string>, field: string) returns (r: Option<string>)
    ensures r == FieldKey(full, field)
  {
    if '[' !in field {
      var p := "[" + field + "#";
      for i := 0 to |full|
        invariant FirstStarting(full, p) == FirstStarting(full[i..], p)
      {
        assert full[i..][1..] == full[i + 1..];
        if StartsWith(full[i], p) {
          return Some(full[i]);
        }
      }
      return None;
    }
    var req := Split(field, "]");
    req := req[..|req| - 1];
    r := None;
    for i := 0 to |full|
      invariant r == LastMatching(full[..i], req)
    {
      var val := Split(full[i], "]");
      val := val[..|val| - 1];
      if |req| == |val| {
        var ok := PiecesMatch(req, val);
        if ok {
          r := Some(full[i]);
        }
      }
      assert full[..i + 1][..i] == full[..i];
    }
    assert full[..|full|] == full;
  }

  // ---------------------------------------------------------------------
  // The `?` listings

  /** `key.replace('[', '').split('#')[0]`: the name in one part. */
  function ListedName(piece: string): string
  {
    Split(Replace(piece, "[", ""), "#")[0]
  }

  /** The names of the non-empty parts, in order. */
  function EntryNames(pieces: seq<string>): (r: seq<string>)
    ensures |r| <= |pieces|
  {
    if pieces == [] then []
    else if pieces[0] == "" then EntryNames(pieces[1..])
    else [ListedName(pieces[0])] + EntryNames(pieces[1..])
  }

  /** One line of the printed listing: `[n1][n2]...`. */
  function PrintLine(entry: string): string
  {
    Bracketed(EntryNames(Split(entry, "]")))
  }

  /** One name of the unprinted listing: the names run together. */
  function ListLine(entry: string): string
  {
    Join(EntryNames(Split(entry, "]")), "")
  }

  /** `key_query`: the keys `?`, `?NK` and `?MAP` ask for. */
  function QueryKeys(m: Map, query: string): (r: seq<string>)
    ensures query !in ["?", "?NK", "?MAP"] ==> r == []
  {
    if query == "?" then m.simpleKeys
    else if query == "?NK" then m.nestedKeys
    else if query == "?MAP" then m.full
    else []
  }

  function PrintLines(keys: seq<string>): (r: seq<string>)
    ensures |r| == |keys| && forall i :: 0 <= i < |keys| ==> r[i] == PrintLine(keys[i])
  {
    seq(|keys|, i requires 0 <= i < |keys| => PrintLine(keys[i]))
  }

  /** `_get_available_fields(fields)`: the lines joined with newlines, the last
      without one. */
  function Listing(keys: seq<string>): string
  {
    Join(PrintLines(keys), "\n")
  }

  /** `_get_available_fields(fields, mode='')`: one name per key. */
  function ListedNames(keys: seq<string>): (r: seq<string>)
    ensures |r| == |keys| && forall i :: 0 <= i < |keys| ==> r[i] == ListLine(keys[i])
  {
    seq(|keys|, i requires 0 <= i < |keys| => ListLine(keys[i]))
  }

  /** The inner loop of `_get_available_fields` over the parts of one entry. */
  method EntryLine(entry: string, printed: bool) returns (line: string)
    ensures line == if printed then PrintLine(entry) else ListLine(entry)
  {
    var pieces := Split(entry, "]");
    line := "";
    ghost var names: seq<string> := [];
    for i := 0 to |pieces|
      invariant EntryNames(pieces) == names + EntryNames(pieces[i..])
      invariant line == if printed then Bracketed(names) else Join(names, "")
    {
      EntryNamesAt(pieces, i);
      var key := pieces[i];
      if key != "" {
        key := Replace(key, "[", "");
        key := Split(key, "#")[0];
        BracketedSnoc(names, key);
        ConcatSnoc(names, key);
        if printed {
          line := line + "[" + key + "]";
        } else {
          line := line + key;
        }
        assert key == ListedName(pieces[i]);
        assert names + ([key] + EntryNames(pieces[i + 1..])) == (names + [key]) + EntryNames(pieces[i + 1..]);
        names := names + [key];
      }
    }
    assert pieces[|pieces|..] == [];
    assert names + [] == names;
  }

  lemma EntryNamesAt(pieces: seq<string>, i: nat)
    requires i < |pieces|
    ensures EntryNames(pieces[i..])
      == (if pieces[i] == "" then [] else [ListedName(pieces[i])]) + EntryNames(pieces[i + 1..])
  {
    assert pieces[i..][1..] == pieces[i + 1..] && pieces[i..][0] == pieces[i];
  }

  lemma {:induction false} BracketedSnoc(names: seq<string>, x: string)
    ensures Bracketed(names + [x]) == Bracketed(names) + "[" + x + "]"
  {
    if names != [] {
      assert (names + [x])[1..] == names[1..] + [x];
      BracketedSnoc(names[1..], x);
    }
  }

  lemma ConcatSnoc(names: seq<string>, x: string)
    ensures Join(names + [x], "") == Join(names, "") + x
  {
    if names != [] {
      JoinSnoc(names, x, "");
    }
  }

  /** `_get_available_fields`, printed: the query's keys, one line each. */
  method AvailableText(m: Map, query: string) returns (text: string)
    ensures text == Listing(QueryKeys(m, query))
  {
    var keys := QueryKeys(m, query);
    ghost var lines := PrintLines(keys);
    text := "";
    var end := "\n";
    for i := 0 to |keys|
      invariant text == Partial(lines, i)
      invariant i < |keys| ==> end == "\n"
    {
      if i == |keys| - 1 {
        end := "";
      }
      var line := EntryLine(keys[i], true);
      PartialStep(lines, i);
      text := text + line + end;
    }
    PartialAll(lines);
  }

  /** The listing after `i` lines: each line so far followed by a newline, but
      the last line of all without one. */
  function Partial(lines: seq<string>, i: nat): string
    requires i <= |lines|
  {
    if i == 0 then ""
    else if i < |lines| then Join(lines[..i], "\n") + "\n"
    else Join(lines, "\n")
  }

  lemma PartialStep(lines: seq<string>, i: nat)
    requires i < |lines|
    ensures Partial(lines, i + 1) == Partial(lines, i) + lines[i] + (if i == |lines| - 1 then "" else "\n")
  {
    if i > 0 {
      JoinSnoc(lines[..i], lines[i], "\n");
      assert lines[..i] + [lines[i]] == lines[..i + 1];
    } else {
      assert lines[..1] == [lines[0]];
    }
    assert lines[..|lines|] == lines;
  }

  lemma PartialAll(lines: seq<string>)
    ensures Partial(lines, |lines|) == Join(lines, "\n")
  {
  }

  /** `_get_available_fields(fields, mode='')`: the query's keys as run-together
      names. */
  method AvailableNames(m: Map, query: string) returns (names: seq<string>)
    ensures names == ListedNames(QueryKeys(m, query))
  {
    var keys := QueryKeys(m, query);
    names := [];
    for i := 0 to |keys|
      invariant names == ListedNames(keys)[..i]
    {
      var line := EntryLine(keys[i], false);
      names := names + [line];
    }
  }

  // ---------------------------------------------------------------------
  // The listing read back as a request

  /** A segment whose key and type hold no bracket and whose key holds no `#`. */
  predicate PlainSegment(s: Segment)
  {
    '[' !in s.key && ']' !in s.key && '#' !in s.key && '[' !in s.kind && ']' !in s.kind
  }

  predicate PlainSegments(c: seq<Segment>)
  {
    forall i :: 0 <= i < |c| ==> PlainSegment(c[i])
  }

  function SegmentKeys(c: seq<Segment>): (r: seq<string>)
    ensures |r| == |c| && forall i :: 0 <= i < |c| ==> r[i] == c[i].key
  {
    seq(|c|, i requires 0 <= i < |c| => c[i].key)
  }

  /** A rendered segment without its closing `]`. */
  function Opening(s: Segment): (r: string)
    ensures Render(s) == r + "]"
  {
    "[" + s.key + "#" + IntToString(s.level) + "#" + s.kind
  }

  function Openings(c: seq<Segment>): (r: seq<string>)
    ensures |r| == |c| && forall i :: 0 <= i < |c| ==> r[i] == Opening(c[i])
  {
    seq(|c|, i requires 0 <= i < |c| => Opening(c[i]))
  }

  lemma OpeningChars(s: Segment)
    requires PlainSegment(s)
    ensures ']' !in Opening(s) && '[' !in Opening(s)[1..]
  {
    IntToStringChars(s.level, ']');
    IntToStringChars(s.level, '[');
    assert Opening(s)[1..] == s.key + "#" + IntToString(s.level) + "#" + s.kind;
  }

  /** Parts each followed by `]`. */
  function Closed(parts: seq<string>): string
  {
    if parts == [] then "" else parts[0] + "]" + Closed(parts[1..])
  }

  lemma {:induction false} ClosedSplits(parts: seq<string>)
    requires forall i :: 0 <= i < |parts| ==> ']' !in parts[i]
    ensures Split(Closed(parts), "]") == parts + [""]
  {
    if parts == [] {
      HeadAbsent("", "]");
      SplitAbsent("", "]");
    } else {
      SplitFirst(parts[0], "]", Closed(parts[1..]));
      ClosedSplits(parts[1..]);
      assert parts + [""] == [parts[0]] + (parts[1..] + [""]);
    }
  }

  lemma {:induction false} PathClosed(c: seq<Segment>)
    ensures Path(c) == Closed(Openings(c))
  {
    if c != [] {
      PathClosed(c[1..]);
      assert Openings(c)[1..] == Openings(c[1..]);
    }
  }

  lemma PathSplits(c: seq<Segment>)
    requires PlainSegments(c)
    ensures Split(Path(c), "]") == Openings(c) + [""]
  {
    forall i | 0 <= i < |c| ensures ']' !in Openings(c)[i] {
      OpeningChars(c[i]);
    }
    PathClosed(c);
    ClosedSplits(Openings(c));
  }

  lemma OpeningName(s: Segment)
    requires PlainSegment(s)
    ensures ListedName(Opening(s)) == s.key
  {
    OpeningChars(s);
    var tail := IntToString(s.level) + "#" + s.kind;
    var rest := s.key + "#" + tail;
    assert Opening(s)[1..] == rest;
    assert Opening(s) == "" + "[" + rest;
    ReplaceFirst("", "[", rest, "");
    HeadAbsent(rest, "[");
    ReplaceAbsent(rest, "[", "");
    assert Replace(Opening(s), "[", "") == rest;
    SplitFirst(s.key, "#", tail);
  }

  lemma {:induction false} NamedParts(parts: seq<string>, names: seq<string>)
    requires |parts| == |names|
    requires forall i :: 0 <= i < |parts| ==> parts[i] != "" && ListedName(parts[i]) == names[i]
    ensures EntryNames(parts + [""]) == names
  {
    if parts == [] {
      assert EntryNames([""]) == [];
    } else {
      assert (parts + [""])[1..] == parts[1..] + [""];
      NamedParts(parts[1..], names[1..]);
      assert names == [names[0]] + names[1..];
    }
  }

  lemma OpeningsNames(c: seq<Segment>)
    requires PlainSegments(c)
    ensures EntryNames(Openings(c) + [""]) == SegmentKeys(c)
  {
    forall i | 0 <= i < |c| ensures Openings(c)[i] != "" && ListedName(Openings(c)[i]) == SegmentKeys(c)[i] {
      OpeningName(c[i]);
    }
    NamedParts(Openings(c), SegmentKeys(c));
  }

  /** A plainly named entry is listed as its keys in brackets. */
  lemma ListedPath(c: seq<Segment>)
    requires PlainSegments(c)
    ensures PrintLine(Path(c)) == Bracketed(SegmentKeys(c))
    ensures ListLine(Path(c)) == Join(SegmentKeys(c), "")
  {
    PathSplits(c);
    OpeningsNames(c);
  }

  function Opened(names: seq<string>): (r: seq<string>)
    ensures |r| == |names| && forall i :: 0 <= i < |names| ==> r[i] == "[" + names[i]
  {
    seq(|names|, i requires 0 <= i < |names| => "[" + names[i])
  }

  lemma {:induction false} BracketedClosed(names: seq<string>)
    ensures Bracketed(names) == Closed(Opened(names))
  {
    if names != [] {
      BracketedClosed(names[1..]);
      assert Opened(names)[1..] == Opened(names[1..]);
    }
  }

  lemma BracketedSplits(names: seq<string>)
    requires Unbracketed(names)
    ensures Split(Bracketed(names), "]") == Opened(names) + [""]
  {
    forall i | 0 <= i < |names| ensures ']' !in Opened(names)[i] {
      assert names[i] in names;
    }
    BracketedClosed(names);
    ClosedSplits(Opened(names));
  }

  /** A line of the `?MAP` listing, asked for as a field, resolves to an entry
      whose parts it matches, and is output under its names joined with `_`. */
  lemma ListedResolves(full: seq<string>, c: seq<Segment>)
    requires c != [] && PlainSegments(c) && Path(c) in full
    ensures var field := PrintLine(Path(c));
      var r := FieldKey(full, field);
      field == Bracketed(SegmentKeys(c))
      && r.Some? && Matches(Pieces(field), Pieces(r.value))
      && ReformatNestedKs(field) == Join(SegmentKeys(c), "_")
  {
    var keys := SegmentKeys(c);
    ListedPath(c);
    PathMatches(c);
    var field := Bracketed(keys);
    var i :| 0 <= i < |full| && full[i] == Path(c);
    assert Matches(Pieces(field), Pieces(full[i]));
    assert FieldKey(full, field) == LastMatching(full, Pieces(field));
    ReformatBracketed(keys);
  }

  /** The bracketed keys of a path match the path's own parts. */
  lemma PathMatches(c: seq<Segment>)
    requires c != [] && PlainSegments(c)
    ensures Matches(Pieces(Bracketed(SegmentKeys(c))), Pieces(Path(c)))
  {
    var keys := SegmentKeys(c);
    PathSplits(c);
    OpenedSplits(keys, c);
    forall k | 0 <= k < |c| ensures StartsWith(Openings(c)[k], Opened(keys)[k] + "#") {
      OpeningStarts(c[k]);
    }
  }

  lemma OpenedSplits(keys: seq<string>, c: seq<Segment>)
    requires keys == SegmentKeys(c) && PlainSegments(c)
    ensures Pieces(Bracketed(keys)) == Opened(keys)
  {
    forall n | n in keys ensures '[' !in n && ']' !in n {
      var i :| 0 <= i < |keys| && keys[i] == n;
      assert PlainSegment(c[i]);
    }
    BracketedSplits(keys);
  }

  lemma OpeningStarts(s: Segment)
    ensures StartsWith(Opening(s), "[" + s.key + "#")
  {
    assert Opening(s) == ("[" + s.key + "#") + (IntToString(s.level) + "#" + s.kind);
  }

  /** A key asked for plainly resolves to the first entry under it, and an entry
      rendered from that key is there to be found. */
  lemma PlainResolves(full: seq<string>, c: seq<Segment>)
    requires c != [] && PlainSegment(c[0]) && Path(c) in full
    ensures var r := FieldKey(full, c[0].key);
      r.Some? && StartsWith(r.value, "[" + c[0].key + "#")
  {
    PathOpens(c);
    var i :| 0 <= i < |full| && full[i] == Path(c);
    assert StartsWith(full[i], "[" + c[0].key + "#");
  }

  /** A path starts with the opening of its first segment's key. */
  lemma PathOpens(c: seq<Segment>)
    requires c != []
    ensures StartsWith(Path(c), "[" + c[0].key + "#")
  {
    var p, rest := "[" + c[0].key + "#", IntToString(c[0].level) + "#" + c[0].kind + "]";
    assert Render(c[0]) == p + rest;
    StartsWithAppend(p, rest, Path(c[1..]));
  }

  lemma StartsWithAppend(p: string, a: string, b: string)
    ensures StartsWith(p + a + b, p)
  {
    assert (p + a + b)[..|p|] == p;
  }
}
