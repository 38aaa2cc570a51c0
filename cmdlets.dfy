/** The cmdlets of rbkcli (rbkcli/core/handlers/cmdlets.py): user-defined
    commands loaded from profile files, deduplicated by name, documented as
    `get` paths, run with their `<param>` placeholders substituted, and added
    from the fields a user provides. Reading and writing the profile files is
    not part of this model: the loaded cmdlets and the file listing are
    parameters. */
module Cmdlets {
  import opened Wrappers
  import opened Strings
  import opened Lists
  import opened Json

  /** A loaded cmdlet: the fields `_gen_docs` reads, and the `status` the
      controls set (absent in a profile file). */
  datatype Cmdlet = Cmdlet(name: string, summary: string, description: string,
                           command: seq<string>, multipleOutput: string, param: string,
                           responseDescription: string, status: Option<string>)

  function Names(cs: seq<Cmdlet>): (ns: seq<string>)
    ensures |ns| == |cs| && forall i :: 0 <= i < |cs| ==> ns[i] == cs[i].name
  {
    seq(|cs|, i requires 0 <= i < |cs| => cs[i].name)
  }

  /** Whether a cmdlet before position `i` has the name. */
  predicate NamedBefore(cs: seq<Cmdlet>, i: int, name: string)
  {
    exists j :: 0 <= j < i && j < |cs| && cs[j].name == name
  }

  lemma NamesSnoc(cs: seq<Cmdlet>, c: Cmdlet)
    ensures Names(cs + [c]) == Names(cs) + [c.name]
  {
  }

  // ---------------------------------------------------------------------
  // `Cmdlets._get_usable_cmdlets`: the first cmdlet of each name

  /** The cmdlets kept by `Cmdlets._get_usable_cmdlets`: a cmdlet whose name
      was already kept is passed over. */
  function FirstOfEach(cs: seq<Cmdlet>): (r: seq<Cmdlet>)
  {
    if cs == [] then []
    else
      var n := |cs| - 1;
      var r := FirstOfEach(cs[..n]);
      if cs[n].name in Names(r) then r else r + [cs[n]]
  }

  /** The kept names are distinct and are exactly the loaded names. */
  lemma {:induction false} FirstOfEachNames(cs: seq<Cmdlet>)
    ensures Distinct(Names(FirstOfEach(cs)))
    ensures forall i :: 0 <= i < |cs| ==> cs[i].name in Names(FirstOfEach(cs))
    ensures forall x :: x in Names(FirstOfEach(cs)) ==> x in Names(cs)
  {
    if cs != [] {
      var n := |cs| - 1;
      var init := cs[..n];
      FirstOfEachNames(init);
      var r := FirstOfEach(init);
      NamesSnoc(r, cs[n]);
      forall i | 0 <= i < n ensures cs[i].name in Names(r) {
        assert init[i] == cs[i];
      }
      forall x | x in Names(r) ensures x in Names(cs) {
        var j :| 0 <= j < n && Names(init)[j] == x;
        assert Names(cs)[j] == x;
      }
      assert cs[n].name == Names(cs)[n];
    }
  }

  /** An independent reading: the cmdlets, among the first `n`, that no
      earlier cmdlet shares a name with, in their order. */
  function Firsts(cs: seq<Cmdlet>, n: nat): seq<Cmdlet>
    requires n <= |cs|
  {
    if n == 0 then []
    else if NamedBefore(cs, n - 1, cs[n - 1].name) then Firsts(cs, n - 1)
    else Firsts(cs, n - 1) + [cs[n - 1]]
  }

  lemma {:induction false} FirstOfEachPrefix(cs: seq<Cmdlet>, n: nat)
    requires n <= |cs|
    ensures FirstOfEach(cs[..n]) == Firsts(cs, n)
  {
    if n > 0 {
      FirstOfEachPrefix(cs, n - 1);
      assert cs[..n][..n - 1] == cs[..n - 1];
      var name := cs[n - 1].name;
      var r := FirstOfEach(cs[..n - 1]);
      assert name in Names(r) <==> NamedBefore(cs, n - 1, name) by {
        FirstOfEachNames(cs[..n - 1]);
        if NamedBefore(cs, n - 1, name) {
          var j :| 0 <= j < n - 1 && j < |cs| && cs[j].name == name;
          assert cs[..n - 1][j].name == name;
        }
        if name in Names(r) {
          assert name in Names(cs[..n - 1]);
          var j :| 0 <= j < n - 1 && Names(cs[..n - 1])[j] == name;
          assert cs[j].name == name;
        }
      }
    }
  }

  /** `Cmdlets._get_usable_cmdlets` keeps exactly the cmdlets no earlier
      cmdlet shares a name with, in order. */
  lemma UsableAreFirsts(cs: seq<Cmdlet>)
    ensures FirstOfEach(cs) == Firsts(cs, |cs|)
  {
    FirstOfEachPrefix(cs, |cs|);
    assert cs[..|cs|] == cs;
  }

  /** `Cmdlets._get_usable_cmdlets`, on a deep copy of the loaded list. */
  method GetUsableCmdlets(loaded: seq<Cmdlet>) returns (usable: seq<Cmdlet>)
    ensures usable == FirstOfEach(loaded)
  {
    usable := [];
    var names: seq<string> := [];
    var i := 0;
    while i < |loaded|
      invariant 0 <= i <= |loaded|
      invariant usable == FirstOfEach(loaded[..i]) && names == Names(usable)
    {
      PrefixStep(loaded, i);
      if loaded[i].name !in names {
        NamesSnoc(usable, loaded[i]);
        names := names + [loaded[i].name];
        usable := usable + [loaded[i]];
      }
      i := i + 1;
    }
    assert loaded[..i] == loaded;
  }

  // ---------------------------------------------------------------------
  // `CmdletsControls._get_usable_cmdlets`: every cmdlet, marked

  /** The cmdlet at position `i` with the status the controls give it:
      `duplicated` when an earlier cmdlet has its name, `usable` otherwise. */
  function Mark(cs: seq<Cmdlet>, i: nat): Cmdlet
    requires i < |cs|
  {
    cs[i].(status := Some(if NamedBefore(cs, i, cs[i].name) then "duplicated" else "usable"))
  }

  function Marked(cs: seq<Cmdlet>): (r: seq<Cmdlet>)
    ensures |r| == |cs|
  {
    seq(|cs|, i requires 0 <= i < |cs| => Mark(cs, i))
  }

  /** `CmdletsControls._get_usable_cmdlets`: sets the status of every loaded
      cmdlet in place and returns them all, in order. */
  method MarkUsable(a: array<Cmdlet>) returns (usable: seq<Cmdlet>)
    modifies a
    ensures a[..] == Marked(old(a[..])) && usable == a[..]
  {
    ghost var cs := a[..];
    usable := [];
    var names: seq<string> := [];
    var i := 0;
    while i < a.Length
      invariant 0 <= i <= a.Length
      invariant forall k :: 0 <= k < i ==> a[k] == Mark(cs, k)
      invariant forall k :: i <= k < a.Length ==> a[k] == cs[k]
      invariant usable == a[..i]
      invariant forall x :: x in names <==> NamedBefore(cs, i, x)
    {
      forall x ensures NamedBefore(cs, i + 1, x) <==> NamedBefore(cs, i, x) || cs[i].name == x {
        if NamedBefore(cs, i + 1, x) && !NamedBefore(cs, i, x) {
          var j :| 0 <= j < i + 1 && j < |cs| && cs[j].name == x;
          assert j == i;
        }
      }
      if a[i].name in names {
        a[i] := a[i].(status := Some("duplicated"));
      } else {
        a[i] := a[i].(status := Some("usable"));
        names := names + [a[i].name];
      }
      usable := usable + [a[i]];
      i := i + 1;
    }
  }

  /** The cmdlets marked `usable`, in order. */
  function UsableOnes(ms: seq<Cmdlet>): seq<Cmdlet>
  {
    if ms == [] then []
    else
      var n := |ms| - 1;
      UsableOnes(ms[..n]) + if ms[n].status == Some("usable") then [ms[n]] else []
  }

  lemma {:induction false} UsableOnesPrefix(cs: seq<Cmdlet>, n: nat)
    requires n <= |cs|
    ensures Names(UsableOnes(Marked(cs)[..n])) == Names(Firsts(cs, n))
  {
    if n > 0 {
      UsableOnesPrefix(cs, n - 1);
      UsableOnesStep(cs, n);
      if !NamedBefore(cs, n - 1, cs[n - 1].name) {
        NamesSnoc(UsableOnes(Marked(cs)[..n - 1]), Mark(cs, n - 1));
        NamesSnoc(Firsts(cs, n - 1), cs[n - 1]);
      }
    }
  }

  lemma UsableOnesStep(cs: seq<Cmdlet>, n: nat)
    requires 0 < n <= |cs|
    ensures UsableOnes(Marked(cs)[..n])
         == UsableOnes(Marked(cs)[..n - 1])
            + if NamedBefore(cs, n - 1, cs[n - 1].name) then [] else [Mark(cs, n - 1)]
  {
    var ms := Marked(cs)[..n];
    assert ms[..n - 1] == Marked(cs)[..n - 1];
    assert ms[n - 1] == Mark(cs, n - 1);
  }

  /** The two handlers agree on which names are usable: the cmdlets the
      controls mark `usable` are, name by name, the ones the cmdlets handler
      keeps. */
  lemma MarkedUsableAreKept(cs: seq<Cmdlet>)
    ensures Names(UsableOnes(Marked(cs))) == Names(FirstOfEach(cs))
  {
    UsableOnesPrefix(cs, |cs|);
    assert Marked(cs)[..|cs|] == Marked(cs);
    UsableAreFirsts(cs);
  }

  // ---------------------------------------------------------------------
  // `_gen_docs`: a `get` path per named cmdlet

  /** The documented path of a cmdlet name: spaces become `/`, behind a `/`. */
  function DocPath(name: string): (p: string)
    ensures |p| >= 1 && p[0] == '/' && ' ' !in p
  {
    ReplaceRemoves(name, ' ', "/");
    "/" + Replace(name, " ", "/")
  }

  /** A name without `/` is read back from its path by turning `/` into spaces. */
  lemma DocPathRoundTrip(name: string)
    requires '/' !in name
    ensures Replace(DocPath(name)[1..], "/", " ") == name
  {
    var parts := Split(name, " ");
    forall p | p in parts ensures !Contains(p, "/") {
      if '/' in p {
        SplitChars(name, " ", p, '/');
      }
      ContainsChar(p, '/');
    }
    assert DocPath(name)[1..] == Join(parts, "/");
    SplitJoin(parts, "/");
    JoinSplit(name, " ");
  }

  /** Two names that differ only by a space and a slash share a path. */
  lemma DocPathsCollide()
    ensures DocPath("a b") == DocPath("a/b")
  {
    assert "a b" == "a" + " " + "b";
    ReplaceFirst("a", " ", "b", "/");
    HeadAbsent("b", " ");
    HeadAbsent("a/b", " ");
  }

  /** The documented operation of a cmdlet: every comma-separated parameter
      adds a body parameter, each named by the whole `param` text. */
  datatype DocEntry = DocEntry(description: string, operation: seq<string>, parameters: seq<string>,
                               responseDescription: string, multipleOutput: string, summary: string)

  function Entry(c: Cmdlet): DocEntry
  {
    DocEntry(c.description, c.command, seq(|Split(c.param, ",")|, _ => c.param),
             c.responseDescription, c.multipleOutput, c.summary)
  }

  /** Whether the cmdlet is documented under the path. */
  predicate Documents(c: Cmdlet, p: string)
  {
    c.name != "" && DocPath(c.name) == p
  }

  /** The `paths` of `_gen_docs`, by path: a later cmdlet with the same path
      replaces an earlier one; an unnamed cmdlet is skipped. */
  function Docs(cs: seq<Cmdlet>): map<string, DocEntry>
  {
    if cs == [] then map[]
    else
      var n := |cs| - 1;
      if cs[n].name == "" then Docs(cs[..n]) else Docs(cs[..n])[DocPath(cs[n].name) := Entry(cs[n])]
  }

  lemma DocsSnoc(init: seq<Cmdlet>, c: Cmdlet, p: string)
    ensures p in Docs(init + [c]) <==> p in Docs(init) || Documents(c, p)
    ensures Documents(c, p) ==> Docs(init + [c])[p] == Entry(c)
    ensures !Documents(c, p) && p in Docs(init) ==> Docs(init + [c])[p] == Docs(init)[p]
  {
    assert (init + [c])[..|init|] == init;
  }

  /** A path is documented iff a named cmdlet maps to it. */
  lemma {:induction false} DocsHas(cs: seq<Cmdlet>, p: string)
    ensures p in Docs(cs) <==> exists i :: 0 <= i < |cs| && Documents(cs[i], p)
  {
    if cs != [] {
      var n := |cs| - 1;
      var init := cs[..n];
      assert cs == init + [cs[n]];
      DocsHas(init, p);
      DocsSnoc(init, cs[n], p);
      if exists i :: 0 <= i < |cs| && Documents(cs[i], p) {
        var i :| 0 <= i < |cs| && Documents(cs[i], p);
        if i < n {
          assert Documents(init[i], p);
        }
      }
      if exists i :: 0 <= i < n && Documents(init[i], p) {
        var i :| 0 <= i < n && Documents(init[i], p);
        assert Documents(cs[i], p);
      }
    }
  }

  /** A documented path holds the entry of the last named cmdlet that maps to it. */
  lemma {:induction false} DocsLastWins(cs: seq<Cmdlet>, p: string)
    requires p in Docs(cs)
    ensures exists i :: 0 <= i < |cs| && Documents(cs[i], p) && Docs(cs)[p] == Entry(cs[i])
                        && forall j :: i < j < |cs| ==> !Documents(cs[j], p)
  {
    var n := |cs| - 1;
    var init := cs[..n];
    assert cs == init + [cs[n]];
    DocsSnoc(init, cs[n], p);
    if !Documents(cs[n], p) {
      DocsLastWins(init, p);
      var i :| 0 <= i < n && Documents(init[i], p) && Docs(init)[p] == Entry(init[i])
               && forall j :: i < j < n ==> !Documents(init[j], p);
      assert Documents(cs[i], p) && Docs(cs)[p] == Entry(cs[i]);
      forall j | i < j < |cs| ensures !Documents(cs[j], p) {
        if j < n {
          assert cs[j] == init[j];
        }
      }
    }
  }

  /** The documentation depends only on the name and fields, not on the
      status the controls set. */
  lemma {:induction false} DocsIgnoreStatus(cs: seq<Cmdlet>)
    ensures Docs(Marked(cs)) == Docs(cs)
  {
    if cs != [] {
      var n := |cs| - 1;
      assert Marked(cs)[..n] == Marked(cs[..n]) by {
        forall i | 0 <= i < n ensures Mark(cs, i) == Mark(cs[..n], i) {
          assert NamedBefore(cs, i, cs[i].name) <==> NamedBefore(cs[..n], i, cs[i].name) by {
            if NamedBefore(cs, i, cs[i].name) {
              var j :| 0 <= j < i && j < |cs| && cs[j].name == cs[i].name;
              assert cs[..n][j].name == cs[i].name;
            }
          }
        }
      }
      DocsIgnoreStatus(cs[..n]);
      assert Entry(Marked(cs)[n]) == Entry(cs[n]);
    }
  }

  /** The two handlers document a repeated name differently: the cmdlets
      handler from its first cmdlet, the controls (which keep every cmdlet)
      from its last. */
  lemma HandlersDocumentDuplicates(a: Cmdlet, b: Cmdlet)
    requires a.name == b.name != ""
    ensures Docs(FirstOfEach([a, b])) == map[DocPath(a.name) := Entry(a)]
    ensures Docs(Marked([a, b])) == map[DocPath(a.name) := Entry(b)]
  {
    FirstDocumented(a, b);
    LastDocumented(a, b);
  }

  lemma FirstDocumented(a: Cmdlet, b: Cmdlet)
    requires a.name == b.name != ""
    ensures Docs(FirstOfEach([a, b])) == map[DocPath(a.name) := Entry(a)]
  {
    FirstOfEachSnoc([], a);
    assert [] + [a] == [a];
    FirstOfEachSnoc([a], b);
    assert [a] + [b] == [a, b];
    assert Names([a]) == [a.name];
    DocsSingle(a);
  }

  lemma FirstOfEachSnoc(cs: seq<Cmdlet>, c: Cmdlet)
    ensures FirstOfEach(cs + [c])
         == if c.name in Names(FirstOfEach(cs)) then FirstOfEach(cs) else FirstOfEach(cs) + [c]
  {
    assert (cs + [c])[..|cs|] == cs;
  }

  lemma DocsSingle(c: Cmdlet)
    requires c.name != ""
    ensures Docs([c]) == map[DocPath(c.name) := Entry(c)]
  {
    assert [c][..0] == [];
  }

  lemma LastDocumented(a: Cmdlet, b: Cmdlet)
    requires a.name == b.name != ""
    ensures Docs(Marked([a, b])) == map[DocPath(a.name) := Entry(b)]
  {
    assert [a, b][..1] == [a];
    assert [a][..0] == [];
    assert Docs([a]) == map[DocPath(a.name) := Entry(a)];
    DocsIgnoreStatus([a, b]);
    assert Docs([a, b]) == Docs([a])[DocPath(b.name) := Entry(b)];
  }

  /** `_gen_docs`: the paths of the usable cmdlets. */
  method GenDocs(usable: seq<Cmdlet>) returns (paths: map<string, DocEntry>)
    ensures paths == Docs(usable)
  {
    paths := map[];
    var i := 0;
    while i < |usable|
      invariant 0 <= i <= |usable|
      invariant paths == Docs(usable[..i])
    {
      PrefixStep(usable, i);
      var line := usable[i];
      if line.name != "" {
        paths := paths[DocPath(line.name) := Entry(line)];
      }
      i := i + 1;
    }
    assert usable[..i] == usable;
  }

  // ---------------------------------------------------------------------
  // `_assign_parameters`: `<key>` placeholders in a command

  /** `oper.replace('<' + key + '>', value)`; a value that is not a string
      raises TypeError. */
  function Substitute(oper: string, key: string, value: Json): (r: Result<string>)
    ensures r.Ok? <==> value.Str?
  {
    if value.Str? then Ok(Replace(oper, "<" + key + ">", value.s))
    else Raise(TypeError, "replace() argument 2 must be str, not " + TypeName(value))
  }

  /** The substitution made `n` times over. */
  function Repeated(oper: string, key: string, value: Json, n: nat): (r: Result<string>)
  {
    if n == 0 then Ok(oper)
    else match Repeated(oper, key, value, n - 1)
      case Fail(e) => Fail(e)
      case Ok(o) => Substitute(o, key, value)
  }

  /** How often the key is one of the comma-separated names of the expected
      parameters. */
  function Matches(key: string, names: seq<string>): nat
  {
    if names == [] then 0
    else Matches(key, names[..|names| - 1]) + multiset(Split(names[|names| - 1], ","))[key]
  }

  /** The replacements one entered key makes: one per piece equal to the key,
      over the pieces of a name. */
  function ForPieces(oper: string, key: string, value: Json, pieces: seq<string>): Result<string>
  {
    if pieces == [] then Ok(oper)
    else match ForPieces(oper, key, value, pieces[..|pieces| - 1])
      case Fail(e) => Fail(e)
      case Ok(o) => if pieces[|pieces| - 1] == key then Substitute(o, key, value) else Ok(o)
  }

  /** ... over the expected parameters' names. */
  function ForNames(oper: string, key: string, value: Json, names: seq<string>): Result<string>
  {
    if names == [] then Ok(oper)
    else match ForNames(oper, key, value, names[..|names| - 1])
      case Fail(e) => Fail(e)
      case Ok(o) => ForPieces(o, key, value, Split(names[|names| - 1], ","))
  }

  /** `_assign_parameters` on the entered fields, in order. */
  function Assigned(oper: string, entered: seq<(string, Json)>, names: seq<string>): Result<string>
  {
    if entered == [] then Ok(oper)
    else match Assigned(oper, entered[..|entered| - 1], names)
      case Fail(e) => Fail(e)
      case Ok(o) => ForNames(o, entered[|entered| - 1].0, entered[|entered| - 1].1, names)
  }

  lemma {:induction false} RepeatedAdd(oper: string, key: string, value: Json, m: nat, n: nat)
    ensures Repeated(oper, key, value, m + n)
            == match Repeated(oper, key, value, m)
               case Fail(e) => Fail(e)
               case Ok(o) => Repeated(o, key, value, n)
  {
    if n > 0 {
      RepeatedAdd(oper, key, value, m, n - 1);
    }
  }

  lemma {:induction false} ForPiecesRepeats(oper: string, key: string, value: Json, pieces: seq<string>)
    ensures ForPieces(oper, key, value, pieces) == Repeated(oper, key, value, multiset(pieces)[key])
  {
    if pieces != [] {
      var n := |pieces| - 1;
      ForPiecesRepeats(oper, key, value, pieces[..n]);
      assert pieces == pieces[..n] + [pieces[n]];
      var m := multiset(pieces[..n])[key];
      if pieces[n] == key {
        RepeatedAdd(oper, key, value, m, 1);
      } else {
        RepeatedAdd(oper, key, value, m, 0);
      }
    }
  }

  /** For one entered key, the nested loops amount to the substitution made
      once per expected name equal to the key. */
  lemma {:induction false} ForNamesRepeats(oper: string, key: string, value: Json, names: seq<string>)
    ensures ForNames(oper, key, value, names) == Repeated(oper, key, value, Matches(key, names))
  {
    if names != [] {
      var n := |names| - 1;
      ForNamesRepeats(oper, key, value, names[..n]);
      var m := Matches(key, names[..n]);
      var pieces := Split(names[n], ",");
      assert Matches(key, names) == m + multiset(pieces)[key];
      RepeatedAdd(oper, key, value, m, multiset(pieces)[key]);
      match Repeated(oper, key, value, m)
      case Fail(e) =>
        assert ForNames(oper, key, value, names) == Fail(e);
      case Ok(o) =>
        assert ForNames(oper, key, value, names) == ForPieces(o, key, value, pieces);
        ForPiecesRepeats(o, key, value, pieces);
    }
  }

  /** A key no expected parameter names changes nothing, whatever its value. */
  lemma {:induction false} AssignedUnnamed(oper: string, entered: seq<(string, Json)>, names: seq<string>)
    requires forall i :: 0 <= i < |entered| ==> Matches(entered[i].0, names) == 0
    ensures Assigned(oper, entered, names) == Ok(oper)
  {
    if entered != [] {
      var n := |entered| - 1;
      AssignedUnnamed(oper, entered[..n], names);
      ForNamesRepeats(oper, entered[n].0, entered[n].1, names);
    }
  }

  lemma {:induction false} RepeatedOk(oper: string, key: string, value: Json, n: nat)
    ensures Repeated(oper, key, value, n).Ok? <==> n == 0 || value.Str?
  {
    if n > 0 {
      RepeatedOk(oper, key, value, n - 1);
    }
  }

  /** The substitution fails exactly when a named key has a value that is not
      a string. */
  lemma {:induction false} AssignedFails(oper: string, entered: seq<(string, Json)>, names: seq<string>)
    ensures Assigned(oper, entered, names).Ok?
            <==> forall i :: 0 <= i < |entered| && Matches(entered[i].0, names) > 0 ==> entered[i].1.Str?
  {
    if entered != [] {
      var n := |entered| - 1;
      AssignedFails(oper, entered[..n], names);
      match Assigned(oper, entered[..n], names)
      case Fail(_) =>
        var i :| 0 <= i < n && Matches(entered[..n][i].0, names) > 0 && !entered[..n][i].1.Str?;
        assert entered[i] == entered[..n][i];
      case Ok(o) =>
        ForNamesRepeats(o, entered[n].0, entered[n].1, names);
        RepeatedOk(o, entered[n].0, entered[n].1, Matches(entered[n].0, names));
        forall i | 0 <= i < n ensures entered[i] == entered[..n][i] { }
    }
  }

  /** A single key named once is substituted once. */
  lemma AssignedOnce(oper: string, key: string, value: string, names: seq<string>)
    requires Matches(key, names) == 1
    ensures Assigned(oper, [(key, Str(value))], names) == Ok(Replace(oper, "<" + key + ">", value))
  {
    assert [(key, Str(value))][..0] == [];
    ForNamesRepeats(oper, key, Str(value), names);
  }

  lemma {:induction false} MatchesUniform(key: string, names: seq<string>, q: string)
    requires forall i :: 0 <= i < |names| ==> names[i] == q
    ensures Matches(key, names) == |names| * multiset(Split(q, ","))[key]
  {
    if names != [] {
      var n := |names| - 1;
      var m := multiset(Split(q, ","))[key];
      MatchesUniform(key, names[..n], q);
      assert names[n] == q;
      assert Matches(key, names) == n * m + m;
      MulSucc(n, m);
    }
  }

  lemma MulSucc(n: nat, m: nat)
    ensures n * m + m == (n + 1) * m
  {
  }

  /** The parameters `_gen_docs` writes repeat the whole `param` text once per
      comma-separated name, so a key named once in it is substituted as many
      times as the text has names. */
  lemma DocParametersRepeat(c: Cmdlet, key: string)
    ensures Matches(key, Entry(c).parameters) == |Split(c.param, ",")| * multiset(Split(c.param, ","))[key]
  {
    MatchesUniform(key, Entry(c).parameters, c.param);
  }

  /** `_assign_parameters` for a command: `{}` data stands for no fields; data
      that is not a dictionary has no `items`. A failed replacement raises, so
      no later replacement is made. */
  method AssignParameters(oper: string, entered: Json, names: seq<string>) returns (r: Result<string>)
    ensures entered.Obj? ==> r == Assigned(oper, entered.fields, names)
    ensures !entered.Obj? ==> r.Fail? && r.error.kind == AttributeError
  {
    if !entered.Obj? {
      return Raise(AttributeError, "'" + TypeName(entered) + "' object has no attribute 'items'");
    }
    var fields := entered.fields;
    r := Ok(oper);
    var i := 0;
    while i < |fields|
      invariant 0 <= i <= |fields|
      invariant r == Assigned(oper, fields[..i], names)
    {
      PrefixStep(fields, i);
      if r.Ok? {
        r := AssignKey(r.value, fields[i].0, fields[i].1, names);
      }
      i := i + 1;
    }
    assert fields[..i] == fields;
  }

  /** The replacements of one entered key, over the expected names and the
      comma-separated pieces of each. */
  method AssignKey(oper: string, key: string, value: Json, names: seq<string>) returns (r: Result<string>)
    ensures r == ForNames(oper, key, value, names)
  {
    r := Ok(oper);
    var j := 0;
    while j < |names|
      invariant 0 <= j <= |names|
      invariant r == ForNames(oper, key, value, names[..j])
    {
      PrefixStep(names, j);
      if r.Ok? {
        var start := r.value;
        var pieces := Split(names[j], ",");
        var k := 0;
        while k < |pieces|
          invariant 0 <= k <= |pieces|
          invariant r == ForPieces(start, key, value, pieces[..k])
        {
          PrefixStep(pieces, k);
          if r.Ok? && pieces[k] == key {
            r := Substitute(r.value, key, value);
          }
          k := k + 1;
        }
        assert pieces[..k] == pieces;
      }
      j := j + 1;
    }
    assert names[..j] == names;
  }

  // ---------------------------------------------------------------------
  // `_compare_provided_expected` and `add_cmdlet`: provided fields

  function Warning(key: string): string
  {
    "Warning: Ignoring unexpected key: " + key
  }

  /** Whether a provided key is taken into the expected dictionary. */
  predicate Taken(expected: seq<(string, Json)>, key: string)
  {
    HasKey(expected, key) && key != "id"
  }

  /** `_compare_provided_expected`: each provided key the expected dictionary
      has, other than `id`, takes the provided value; any other key adds a
      warning. */
  function Compared(provided: seq<(string, Json)>, expected: seq<(string, Json)>)
    : (r: (seq<(string, Json)>, seq<string>))
  {
    if provided == [] then (expected, [])
    else
      var n := |provided| - 1;
      var (e, m) := Compared(provided[..n], expected);
      var (k, v) := provided[n];
      if HasKey(e, k) && k != "id" then (Set(e, k, v), m) else (e, m + [Warning(k)])
  }

  /** The warnings for the keys not taken, in order. */
  function Warnings(keys: seq<string>, expected: seq<(string, Json)>): seq<string>
  {
    if keys == [] then []
    else
      var n := |keys| - 1;
      Warnings(keys[..n], expected) + if Taken(expected, keys[n]) then [] else [Warning(keys[n])]
  }

  /** The expected dictionary keeps its keys, in order; every provided key
      that is not taken gives one warning, in order. */
  lemma {:induction false} ComparedKeys(provided: seq<(string, Json)>, expected: seq<(string, Json)>)
    ensures Keys(Compared(provided, expected).0) == Keys(expected)
    ensures Compared(provided, expected).1 == Warnings(Keys(provided), expected)
  {
    if provided != [] {
      var n := |provided| - 1;
      ComparedKeys(provided[..n], expected);
      var e := Compared(provided[..n], expected).0;
      var k := provided[n].0;
      assert Keys(provided)[..n] == Keys(provided[..n]);
      SameKeys(e, expected, k);
      SetKeys(e, k, provided[n].1);
    }
  }

  /** A taken key holds the provided value, any other key keeps the expected
      one; the dictionary of `json.loads` has each key once. */
  lemma {:induction false} ComparedValues(provided: seq<(string, Json)>, expected: seq<(string, Json)>, k: string)
    requires UniqueKeys(provided)
    ensures Get(Compared(provided, expected).0, k)
            == if Taken(expected, k) && HasKey(provided, k) then Get(provided, k) else Get(expected, k)
  {
    if provided != [] {
      var n := |provided| - 1;
      var init := provided[..n];
      assert provided == init + [provided[n]];
      assert UniqueKeys(init);
      ComparedValues(init, expected, k);
      ComparedKeys(init, expected);
      var e := Compared(init, expected).0;
      var (k2, v) := provided[n];
      SameKeys(e, expected, k2);
      GetSnoc(init, k2, v, k);
      if k2 == k {
        assert !HasKey(init, k) by {
          forall i | 0 <= i < n ensures init[i].0 != k {
            assert provided[i].0 != provided[n].0;
          }
        }
      }
      HasKeySnoc(provided, k);
      if Taken(expected, k2) {
        GetSet(e, k2, v, k);
      }
    }
  }

  /** `_compare_provided_expected`, updating the expected dictionary in turn. */
  method CompareProvidedExpected(provided: seq<(string, Json)>, expected: seq<(string, Json)>)
    returns (e: seq<(string, Json)>, message: seq<string>)
    ensures (e, message) == Compared(provided, expected)
  {
    e := expected;
    message := [];
    var i := 0;
    while i < |provided|
      invariant 0 <= i <= |provided|
      invariant (e, message) == Compared(provided[..i], expected)
    {
      PrefixStep(provided, i);
      var (key, value) := provided[i];
      if HasKey(e, key) && key != "id" {
        e := Set(e, key, value);
      } else {
        message := message + [Warning(key)];
      }
      i := i + 1;
    }
    assert provided[..i] == provided;
  }

  /** `_gen_cmdlet`, with the generated identifier given. */
  function NewCmdlet(id: string): seq<(string, Json)>
  {
    [("id", Str(id)), ("profile", Str("cmdlets.json")), ("name", Str("")),
     ("cmdlet_summary", Str("")), ("cmdlet_description", Str("")), ("command", Arr([])),
     ("multiple_output", Str("segmented")), ("param", Str("")), ("response_description", Str(""))]
  }

  /** The new cmdlet keeps every field of `_gen_cmdlet`. */
  lemma NewCmdletKeys(provided: seq<(string, Json)>, id: string)
    ensures var c := Compared(provided, NewCmdlet(id)).0;
      HasKey(c, "id") && HasKey(c, "profile") && HasKey(c, "name") && HasKey(c, "command")
  {
    var n := NewCmdlet(id);
    var c := Compared(provided, n).0;
    ComparedKeys(provided, n);
    assert n[0].0 == "id" && n[1].0 == "profile" && n[2].0 == "name" && n[5].0 == "command";
    SameKeys(c, n, "id");
    SameKeys(c, n, "profile");
    SameKeys(c, n, "name");
    SameKeys(c, n, "command");
  }

  /** The outcome of `add_cmdlet` before any file is written: whether it
      succeeds, its messages and the cmdlet to add. */
  datatype Addition = Addition(succeeded: bool, message: seq<string>, cmdlet: seq<(string, Json)>)

  /** The profile check of `add_cmdlet` against the profile files listed: a
      listed file, with or without the `-cmdlets.json` suffix, or the default
      profile. */
  function ProfileKnown(profile: string, files: seq<string>): bool
  {
    profile in files || profile + "-cmdlets.json" in files || profile == "cmdlets.json"
  }

  /** `add_cmdlet` up to writing the profile: the provided fields are copied
      into a new cmdlet, its profile is checked against the files listed and
      its name and command must be non-empty; a command that is not a list is
      put in one. */
  function CmdletToAdd(provided: seq<(string, Json)>, id: string, files: seq<string>): (r: Result<Addition>)
  {
    var (c, m) := Compared(provided, NewCmdlet(id));
    NewCmdletKeys(provided, id);
    var profile := Get(c, "profile").value;
    if !profile.Str? then
      Raise(TypeError, "unsupported operand type(s) for +: '" + TypeName(profile) + "' and 'str'")
    else
      var known := ProfileKnown(profile.s, files);
      var m1 := if known then m else m + ["Error: Unable to add cmdlet, unrecognized profile... (" + profile.s + ")"];
      var name := Get(c, "name").value;
      var command := Get(c, "command").value;
      if name == Str("") || command == Arr([]) then
        Ok(Addition(false, m1 + ["Error: Unable to add cmdlet without essential information.. (name, command)"], c))
      else
        var c1 := if command.Arr? then c else Set(c, "command", Arr([command]));
        Ok(Addition(known, m1, c1))
  }

  lemma NewCmdletGets(id: string)
    ensures Get(NewCmdlet(id), "id") == Some(Str(id))
    ensures Get(NewCmdlet(id), "name") == Some(Str(""))
    ensures Get(NewCmdlet(id), "command") == Some(Arr([]))
  {
    NewCmdletName(id);
    NewCmdletCommand(id);
  }

  lemma NewCmdletName(id: string)
    ensures Get(NewCmdlet(id), "name") == Some(Str(""))
  {
    var b := NewCmdlet(id);
    assert b[1..][1..][0].0 == "name";
  }

  lemma NewCmdletCommand(id: string)
    ensures Get(NewCmdlet(id), "command") == Some(Arr([]))
  {
    var b := NewCmdlet(id);
    assert b[1..][1..][1..][1..][1..][0].0 == "command";
  }

  /** The identifier of the new cmdlet is never replaced; its name and
      command are the provided ones when given. */
  lemma NewCmdletFields(provided: seq<(string, Json)>, id: string)
    requires UniqueKeys(provided)
    ensures var c := Compared(provided, NewCmdlet(id)).0;
      Get(c, "id") == Some(Str(id))
      && Get(c, "name") == (if HasKey(provided, "name") then Get(provided, "name") else Some(Str("")))
      && Get(c, "command") == (if HasKey(provided, "command") then Get(provided, "command") else Some(Arr([])))
  {
    var b := NewCmdlet(id);
    NewCmdletGets(id);
    assert b[2].0 == "name" && b[5].0 == "command";
    ComparedValues(provided, b, "id");
    ComparedValues(provided, b, "name");
    ComparedValues(provided, b, "command");
  }

  /** A cmdlet added keeps its generated identifier, and is added only with
      the name and the command the user provided, neither empty; its command
      is then a list. */
  lemma AddedCmdlet(provided: seq<(string, Json)>, id: string, files: seq<string>)
    requires UniqueKeys(provided)
    requires CmdletToAdd(provided, id, files).Ok?
    ensures var a := CmdletToAdd(provided, id, files).value;
      Get(a.cmdlet, "id") == Some(Str(id))
    ensures var a := CmdletToAdd(provided, id, files).value;
      a.succeeded ==> Get(provided, "name").Some? && Get(provided, "name") != Some(Str(""))
                      && Get(a.cmdlet, "name") == Get(provided, "name")
    ensures var a := CmdletToAdd(provided, id, files).value;
      a.succeeded ==> Get(provided, "command").Some? && Get(provided, "command") != Some(Arr([]))
                      && Get(a.cmdlet, "command").Some? && Get(a.cmdlet, "command").value.Arr?
  {
    var c := Compared(provided, NewCmdlet(id)).0;
    NewCmdletFields(provided, id);
    var command := Get(c, "command").value;
    if !command.Arr? {
      GetSet(c, "command", Arr([command]), "id");
      GetSet(c, "command", Arr([command]), "name");
      GetSet(c, "command", Arr([command]), "command");
    }
  }
}
