/** The command line front end `Rbkcli` (rbkcli/interface/cli.py): shell
    completion over the documented endpoints, and the workflow of `-s`, `-f`,
    `-c` and `-l` options in the order they were typed. */
module Cli {
  import opened Wrappers
  import opened Strings
  import opened Lists
  import opened Sorting
  import opened Json
  import Inputs

  // ---------------------------------------------------------------------
  // `_normalize_ops`

  /** The segments of a `version:path:method:...` line, without and with the
      version in front. */
  function OpPaths(op: string): (r: (seq<string>, seq<string>))
    requires |Split(op, ":")| >= 2
  {
    var f := Split(op, ":");
    (NonEmpty(Split(f[1], "/")), NonEmpty(Split(f[0] + "/" + f[1], "/")))
  }

  /** A line with a version free of `/` lists that version first, then the
      segments of its path. */
  lemma VersionFirst(op: string)
    requires |Split(op, ":")| >= 2
    requires var v := Split(op, ":")[0]; v != "" && '/' !in v
    ensures OpPaths(op).1 == [Split(op, ":")[0]] + OpPaths(op).0
  {
    var f := Split(op, ":");
    SplitFirst(f[0], "/", f[1]);
    assert ([f[0]] + Split(f[1], "/"))[1..] == Split(f[1], "/");
  }

  /** `_normalize_ops`' loop: both segment lists of every line, in order. */
  method NormalizedOps(raw: seq<string>) returns (plain: seq<seq<string>>, versioned: seq<seq<string>>)
    requires Inputs.WellFormed(raw)
    ensures |plain| == |versioned| == |raw|
    ensures forall k :: 0 <= k < |raw| ==> (plain[k], versioned[k]) == OpPaths(raw[k])
  {
    plain, versioned := [], [];
    var k := 0;
    while k < |raw|
      invariant 0 <= k <= |raw| && |plain| == |versioned| == k
      invariant forall m :: 0 <= m < k ==> (plain[m], versioned[m]) == OpPaths(raw[m])
    {
      var p := OpPaths(raw[k]);
      plain := plain + [p.0];
      versioned := versioned + [p.1];
      k := k + 1;
    }
  }

  // ---------------------------------------------------------------------
  // `_get_returnable_ops`

  /** One operation seen in round `i`: kept when its `i`-th segment is the
      argument, which in the last round makes the matching strict, or when it
      is a placeholder while the matching is not strict. */
  function Visit(opr: seq<string>, arg: string, i: nat, last: bool, st: (seq<seq<string>>, bool))
    : (r: (seq<seq<string>>, bool))
  {
    if i < |opr| then
      if arg == opr[i] then (st.0 + [opr], st.1 || last)
      else if Inputs.Placeholder(opr[i]) then (if st.1 then st.0 else st.0 + [opr], st.1)
      else st
    else st
  }

  /** One round of `_get_returnable_ops` over `ops`, in order. */
  function Round(ops: seq<seq<string>>, arg: string, i: nat, last: bool, st: (seq<seq<string>>, bool))
    : (r: (seq<seq<string>>, bool))
  {
    if ops == [] then st
    else Visit(ops[|ops| - 1], arg, i, last, Round(ops[..|ops| - 1], arg, i, last, st))
  }

  /** The operations left after the first `n` rounds, and whether the
      matching has turned strict. */
  function Rounds(ops: seq<seq<string>>, args: seq<string>, n: nat): (r: (seq<seq<string>>, bool))
    requires n <= |args|
  {
    if n == 0 then (ops, false)
    else
      var p := Rounds(ops, args, n - 1);
      Round(p.0, args[n - 1], n - 1, n - 1 == |args| - 1, ([], p.1))
  }

  /** `_get_returnable_ops`: the operations whose segments follow the typed
      arguments. */
  function Returnable(ops: seq<seq<string>>, args: seq<string>): seq<seq<string>>
  {
    Rounds(ops, args, |args|).0
  }

  /** The segments of `o` agree with the first `n` arguments: each is equal
      or a placeholder. */
  predicate Follows(o: seq<string>, args: seq<string>, n: nat)
    requires n <= |args|
  {
    forall j :: 0 <= j < n ==> j < |o| && (o[j] == args[j] || Inputs.Placeholder(o[j]))
  }

  /** What a round keeps was kept before it, or is an operation of the round
      whose `i`-th segment is the argument or a placeholder. */
  lemma {:induction false} RoundKeeps(ops: seq<seq<string>>, arg: string, i: nat, last: bool,
                                      st: (seq<seq<string>>, bool), o: seq<string>)
    requires o in Round(ops, arg, i, last, st).0
    ensures o in st.0 || (o in ops && i < |o| && (o[i] == arg || Inputs.Placeholder(o[i])))
  {
    if ops != [] {
      var n := |ops| - 1;
      var p := Round(ops[..n], arg, i, last, st);
      if o in p.0 {
        RoundKeeps(ops[..n], arg, i, last, st, o);
        if o !in st.0 {
          assert o in ops;
        }
      } else {
        assert o == ops[n];
      }
    }
  }

  /** A round keeps everything kept before it, and every operation whose
      `i`-th segment is the argument. */
  lemma {:induction false} RoundExact(ops: seq<seq<string>>, arg: string, i: nat, last: bool,
                                      st: (seq<seq<string>>, bool), o: seq<string>)
    requires (o in ops && i < |o| && o[i] == arg) || o in st.0
    ensures o in Round(ops, arg, i, last, st).0
  {
    if ops != [] {
      var n := |ops| - 1;
      if o in ops[..n] || o in st.0 {
        RoundExact(ops[..n], arg, i, last, st, o);
      } else {
        assert ops == ops[..n] + [ops[n]];
      }
    }
  }

  /** A round that never turns strict keeps every operation whose `i`-th
      segment is the argument or a placeholder. */
  lemma {:induction false} RoundFlexible(ops: seq<seq<string>>, arg: string, i: nat, last: bool,
                                         st: (seq<seq<string>>, bool), o: seq<string>)
    requires !st.1 && (forall p :: p in ops ==> !last || i >= |p| || p[i] != arg)
    ensures !Round(ops, arg, i, last, st).1
    ensures (o in ops && i < |o| && (o[i] == arg || Inputs.Placeholder(o[i]))) || o in st.0 ==>
      o in Round(ops, arg, i, last, st).0
  {
    if ops != [] {
      var n := |ops| - 1;
      assert forall p :: p in ops[..n] ==> p in ops;
      RoundFlexible(ops[..n], arg, i, last, st, o);
      assert ops == ops[..n] + [ops[n]];
    }
  }

  lemma {:induction false} RoundsSound(ops: seq<seq<string>>, args: seq<string>, n: nat, o: seq<string>)
    requires n <= |args| && o in Rounds(ops, args, n).0
    ensures o in ops && Follows(o, args, n)
  {
    if n > 0 {
      var p := Rounds(ops, args, n - 1);
      RoundKeeps(p.0, args[n - 1], n - 1, n - 1 == |args| - 1, ([], p.1), o);
      RoundsSound(ops, args, n - 1, o);
    }
  }

  lemma {:induction false} RoundsExact(ops: seq<seq<string>>, args: seq<string>, n: nat, o: seq<string>)
    requires n <= |args| && o in ops
    requires forall j :: 0 <= j < n ==> j < |o| && o[j] == args[j]
    ensures o in Rounds(ops, args, n).0
  {
    if n > 0 {
      var p := Rounds(ops, args, n - 1);
      RoundsExact(ops, args, n - 1, o);
      RoundExact(p.0, args[n - 1], n - 1, n - 1 == |args| - 1, ([], p.1), o);
    }
  }

  lemma {:induction false} RoundsFlexible(ops: seq<seq<string>>, args: seq<string>, n: nat, o: seq<string>)
    requires n <= |args| && o in ops && Follows(o, args, n) && args != []
    requires forall p :: p in ops ==> |p| < |args| || p[|args| - 1] != args[|args| - 1]
    ensures o in Rounds(ops, args, n).0 && !Rounds(ops, args, n).1
  {
    if n > 0 {
      var p := Rounds(ops, args, n - 1);
      assert Follows(o, args, n - 1);
      RoundsFlexible(ops, args, n - 1, o);
      var last := n - 1 == |args| - 1;
      forall q | q in p.0 ensures !last || n - 1 >= |q| || q[n - 1] != args[n - 1] {
        if last {
          RoundsSound(ops, args, n - 1, q);
        }
      }
      assert n - 1 < |o| && (o[n - 1] == args[n - 1] || Inputs.Placeholder(o[n - 1]));
      RoundFlexible(p.0, args[n - 1], n - 1, last, ([], p.1), o);
      assert Rounds(ops, args, n) == Round(p.0, args[n - 1], n - 1, last, ([], p.1));
    }
  }

  /** Every returned operation follows the arguments; every operation equal
      to them segment by segment is returned; and when no operation has the
      last argument itself at its place, every operation that follows the
      arguments, through placeholders, is returned. */
  lemma ReturnableIs(ops: seq<seq<string>>, args: seq<string>)
    ensures forall o :: o in Returnable(ops, args) ==> o in ops && Follows(o, args, |args|)
    ensures forall o :: o in ops && |args| <= |o| && o[..|args|] == args ==> o in Returnable(ops, args)
    ensures args != [] && (forall p :: p in ops ==> |p| < |args| || p[|args| - 1] != args[|args| - 1]) ==>
      forall o :: o in ops && Follows(o, args, |args|) ==> o in Returnable(ops, args)
  {
    forall o | o in Returnable(ops, args) ensures o in ops && Follows(o, args, |args|) {
      RoundsSound(ops, args, |args|, o);
    }
    forall o | o in ops && |args| <= |o| && o[..|args|] == args ensures o in Returnable(ops, args) {
      assert forall j :: 0 <= j < |args| ==> o[j] == o[..|args|][j];
      RoundsExact(ops, args, |args|, o);
    }
    if args != [] && (forall p :: p in ops ==> |p| < |args| || p[|args| - 1] != args[|args| - 1]) {
      forall o | o in ops && Follows(o, args, |args|) ensures o in Returnable(ops, args) {
        RoundsFlexible(ops, args, |args|, o);
      }
    }
  }

  /** One round of the loop over the operations, with the strict flag. */
  method RoundLoop(ops: seq<seq<string>>, arg: string, i: nat, last: bool, strict: bool)
    returns (kept: seq<seq<string>>, flag: bool)
    ensures (kept, flag) == Round(ops, arg, i, last, ([], strict))
  {
    kept, flag := [], strict;
    var k := 0;
    while k < |ops|
      invariant 0 <= k <= |ops| && (kept, flag) == Round(ops[..k], arg, i, last, ([], strict))
    {
      PrefixStep(ops, k);
      var opr := ops[k];
      if i < |opr| {
        if arg == opr[i] {
          kept := kept + [opr];
          if last {
            flag := true;
          }
        } else if Inputs.Placeholder(opr[i]) {
          if !flag {
            kept := kept + [opr];
          }
        }
      }
      k := k + 1;
    }
    assert ops[..|ops|] == ops;
  }

  /** `_get_returnable_ops`: one round per typed argument. */
  method GetReturnableOps(ops: seq<seq<string>>, args: seq<string>) returns (r: seq<seq<string>>)
    ensures r == Returnable(ops, args)
  {
    r := ops;
    var flag := false;
    var i := 0;
    while i < |args|
      invariant 0 <= i <= |args| && (r, flag) == Rounds(ops, args, i)
    {
      r, flag := RoundLoop(r, args[i], i, i == |args| - 1, flag);
      i := i + 1;
    }
  }

  // ---------------------------------------------------------------------
  // `_filter_returnable`, `_match_incomplete`, `_full_autocomplete_without_version`

  /** The segment at index `n` of every operation longer than `n`, in order. */
  function NextTokens(ops: seq<seq<string>>, n: nat): (r: seq<string>)
    ensures forall x :: x in r <==> exists o :: o in ops && n < |o| && o[n] == x
  {
    if ops == [] then []
    else
      var m := |ops| - 1;
      var r := NextTokens(ops[..m], n) + if n < |ops[m]| then [ops[m][n]] else [];
      assert ops == ops[..m] + [ops[m]];
      r
  }

  /** `_filter_returnable`: the next segments after the arguments, sorted and
      without duplicates. */
  function FilterReturnable(ops: seq<seq<string>>, n: nat): (r: seq<string>)
    ensures StrictlySorted(r)
    ensures forall x :: x in r <==> exists o :: o in ops && n < |o| && o[n] == x
  {
    var t := NextTokens(ops, n);
    var r := SortUnique(t);
    assert forall x :: x in r <==> x in Elems(r);
    assert forall x :: x in t <==> x in Elems(t);
    r
  }

  method FilterReturnableLoop(ops: seq<seq<string>>, n: nat) returns (r: seq<string>)
    ensures r == FilterReturnable(ops, n)
  {
    var tokens: seq<string> := [];
    var k := 0;
    while k < |ops|
      invariant 0 <= k <= |ops| && tokens == NextTokens(ops[..k], n)
    {
      PrefixStep(ops, k);
      if |ops[k]| - 1 >= n {
        tokens := tokens + [ops[k][n]];
      }
      k := k + 1;
    }
    assert ops[..|ops|] == ops;
    r := SortUnique(tokens);
  }

  /** The lines that start with the prefix, in order. */
  function PrefixMatches(lines: seq<string>, prefix: string): (r: seq<string>)
    ensures forall x :: x in r <==> x in lines && StartsWith(x, prefix)
    ensures |r| <= |lines|
  {
    if lines == [] then []
    else
      var m := |lines| - 1;
      assert lines == lines[..m] + [lines[m]];
      PrefixMatches(lines[..m], prefix) + if StartsWith(lines[m], prefix) then [lines[m]] else []
  }

  /** `_match_incomplete`: no prefix keeps the list as it is. */
  function MatchIncomplete(lines: seq<string>, incomplete: string): (r: seq<string>)
  {
    if incomplete != "" then PrefixMatches(lines, incomplete) else lines
  }

  /** With no prefix typed the list is returned unchanged; otherwise exactly
      the lines starting with it are, in their order. */
  lemma MatchIncompleteIs(lines: seq<string>, incomplete: string)
    ensures incomplete == "" ==> MatchIncomplete(lines, incomplete) == lines
    ensures forall x :: x in MatchIncomplete(lines, incomplete) <==> x in lines && StartsWith(x, incomplete)
  {
  }

  method MatchIncompleteLoop(lines: seq<string>, incomplete: string) returns (r: seq<string>)
    ensures r == MatchIncomplete(lines, incomplete)
  {
    if incomplete == "" {
      return lines;
    }
    r := [];
    var k := 0;
    while k < |lines|
      invariant 0 <= k <= |lines| && r == PrefixMatches(lines[..k], incomplete)
    {
      PrefixStep(lines, k);
      if StartsWith(lines[k], incomplete) {
        r := r + [lines[k]];
      }
      k := k + 1;
    }
    assert lines[..|lines|] == lines;
  }

  /** `_selective_autocomplete_without_version`. */
  function Selective(ops: seq<seq<string>>, args: seq<string>, incomplete: string): (r: seq<string>)
  {
    var ret := Returnable(ops, args);
    if ret != [] then MatchIncomplete(FilterReturnable(ret, |args|), incomplete) else []
  }

  /** The completions offered after typed arguments: sorted, without
      duplicates, each the next segment of an operation that follows the
      arguments, and starting with the typed prefix. */
  lemma SelectiveIs(ops: seq<seq<string>>, args: seq<string>, incomplete: string)
    ensures StrictlySorted(Selective(ops, args, incomplete))
    ensures forall x :: x in Selective(ops, args, incomplete) ==>
      StartsWith(x, incomplete) && exists o :: o in ops && Follows(o, args, |args|) && |args| < |o| && o[|args|] == x
  {
    var ret := Returnable(ops, args);
    ReturnableIs(ops, args);
    var f := FilterReturnable(ret, |args|);
    if incomplete != "" && ret != [] {
      PrefixSorted(f, incomplete);
    }
  }

  lemma {:induction false} PrefixSorted(lines: seq<string>, prefix: string)
    requires StrictlySorted(lines)
    ensures StrictlySorted(PrefixMatches(lines, prefix))
  {
    if lines != [] {
      var m := |lines| - 1;
      PrefixSorted(lines[..m], prefix);
      var r := PrefixMatches(lines[..m], prefix);
      forall x | x in r ensures Lt(x, lines[m]) {
        var i :| 0 <= i < m && lines[i] == x;
      }
    }
  }

  /** `_full_autocomplete_without_version`: the first segments, sorted and
      without duplicates, that start with the prefix. An operation without
      segments is an IndexError. */
  function FullAutocomplete(ops: seq<seq<string>>, incomplete: string): (r: Result<seq<string>>)
    ensures r.Fail? <==> exists o :: o in ops && o == []
    ensures r.Ok? ==> StrictlySorted(r.value)
    ensures r.Ok? ==> forall x :: x in r.value <==> StartsWith(x, incomplete) && exists o :: o in ops && o != [] && o[0] == x
  {
    if exists o :: o in ops && o == [] then Raise(IndexError, "list index out of range")
    else
      var f := FilterReturnable(ops, 0);
      if incomplete != "" then PrefixSorted(f, incomplete); Ok(MatchIncomplete(f, incomplete))
      else Ok(f)
  }

  method FullAutocompleteLoop(ops: seq<seq<string>>, incomplete: string) returns (r: Result<seq<string>>)
    ensures r == FullAutocomplete(ops, incomplete)
  {
    var firsts: seq<string> := [];
    var k := 0;
    while k < |ops|
      invariant 0 <= k <= |ops| && firsts == NextTokens(ops[..k], 0)
      invariant forall m :: 0 <= m < k ==> ops[m] != []
    {
      PrefixStep(ops, k);
      if ops[k] == [] {
        assert ops[k] in ops;
        return Raise(IndexError, "list index out of range");
      }
      firsts := firsts + [ops[k][0]];
      k := k + 1;
    }
    assert ops[..|ops|] == ops;
    assert forall o :: o in ops ==> o != [];
    var sorted := SortUnique(firsts);
    var completions := MatchIncompleteLoop(sorted, incomplete);
    r := Ok(completions);
  }

  // ---------------------------------------------------------------------
  // `_create_request_structure`

  const Workflowable: seq<string> := ["-s", "--select", "-f", "--filter", "-c", "--context", "-l", "--loop"]

  /** The keyword argument an option fills. */
  function WorkKey(flag: string): string
  {
    if flag == "-s" || flag == "--select" then "select"
    else if flag == "-f" || flag == "--filter" then "filter"
    else if flag == "-c" || flag == "--context" then "context"
    else "loop"
  }

  /** A step's value: a single word is unwrapped, several stay a list. */
  datatype StepValue = One(text: string) | Many(texts: seq<string>)

  datatype Step = Step(arg: string, value: StepValue)

  /** The keyword arguments: each option's values, one list of words per use. */
  type Kwargs = map<string, seq<seq<string>>>

  datatype Built = Built(kwargs: Kwargs, workflow: seq<Step>)

  function Unwrapped(v: seq<string>): StepValue
    requires v != []
  {
    if |v| > 1 then Many(v) else One(v[0])
  }

  /** The next value of an option is taken out of the keyword arguments and
      becomes a step; the option goes when its values run out. */
  function Consume(b: Built, key: string): (r: Result<Built>)
  {
    if key !in b.kwargs then Raise(KeyError, "'" + key + "'")
    else if b.kwargs[key] == [] || b.kwargs[key][0] == [] then Raise(IndexError, "list index out of range")
    else
      var vals := b.kwargs[key];
      var step := Step(key, Unwrapped(vals[0]));
      Ok(Built(if vals[1..] == [] then b.kwargs - {key} else b.kwargs[key := vals[1..]], b.workflow + [step]))
  }

  /** The inner loop over the options for one typed argument, from option `j`:
      an argument that starts with an option must be that option. */
  function ArgFlags(arg: string, b: Built, j: nat): (r: Result<Built>)
    requires j <= |Workflowable|
    decreases |Workflowable| - j
  {
    if j == |Workflowable| then Ok(b)
    else
      var f := Workflowable[j];
      if !StartsWith(arg, f) then ArgFlags(arg, b, j + 1)
      else if arg != f then Raise(RbkcliError, "The provided argument is invalid [" + arg + "]...")
      else
        match Consume(b, WorkKey(f))
        case Fail(e) => Fail(e)
        case Ok(b2) => ArgFlags(arg, b2, j + 1)
  }

  /** `_create_request_structure`'s loop over the typed arguments. */
  function Workflow(kwargs: Kwargs, raw: seq<string>): (r: Result<Built>)
  {
    if raw == [] then Ok(Built(kwargs, []))
    else
      match Workflow(kwargs, raw[..|raw| - 1])
      case Fail(e) => Fail(e)
      case Ok(b) => ArgFlags(raw[|raw| - 1], b, 0)
  }

  /** No option is a prefix of another. */
  lemma FlagsApart(j: nat, k: nat)
    requires j < |Workflowable| && k < |Workflowable| && j != k
    ensures !StartsWith(Workflowable[j], Workflowable[k])
  {
    var a, b := Workflowable[j], Workflowable[k];
    assert a[1] == b[1] ==> a[2] != b[2] || |a| == 2 || |b| == 2;
  }

  /** Options the argument does not start with are passed over. */
  lemma {:induction false} ArgFlagsSkip(arg: string, b: Built, j: nat, k: nat)
    requires j <= k <= |Workflowable|
    requires forall m :: j <= m < k ==> !StartsWith(arg, Workflowable[m])
    ensures ArgFlags(arg, b, j) == ArgFlags(arg, b, k)
    decreases k - j
  {
    if j < k {
      ArgFlagsSkip(arg, b, j + 1, k);
    }
  }

  /** An argument that only starts with an option is rejected. */
  lemma {:induction false} ArgFlagsReject(arg: string, b: Built, j: nat)
    requires j <= |Workflowable| && arg !in Workflowable
    requires exists m :: j <= m < |Workflowable| && StartsWith(arg, Workflowable[m])
    ensures ArgFlags(arg, b, j) == Raise(RbkcliError, "The provided argument is invalid [" + arg + "]...")
    decreases |Workflowable| - j
  {
    if !StartsWith(arg, Workflowable[j]) {
      ArgFlagsReject(arg, b, j + 1);
    }
  }

  /** An option consumes its next value; an argument that starts with an
      option without being one is rejected; any other argument changes
      nothing. */
  lemma ArgFlagsShape(arg: string, b: Built)
    ensures arg in Workflowable ==> ArgFlags(arg, b, 0) == Consume(b, WorkKey(arg))
    ensures arg !in Workflowable && (exists j :: 0 <= j < |Workflowable| && StartsWith(arg, Workflowable[j])) ==>
      ArgFlags(arg, b, 0) == Raise(RbkcliError, "The provided argument is invalid [" + arg + "]...")
    ensures (forall j :: 0 <= j < |Workflowable| ==> !StartsWith(arg, Workflowable[j])) ==> ArgFlags(arg, b, 0) == Ok(b)
  {
    if arg in Workflowable {
      var k :| 0 <= k < |Workflowable| && Workflowable[k] == arg;
      forall m | 0 <= m < k ensures !StartsWith(arg, Workflowable[m]) {
        FlagsApart(k, m);
      }
      ArgFlagsSkip(arg, b, 0, k);
      var c := Consume(b, WorkKey(arg));
      if c.Ok? {
        forall m | k < m < |Workflowable| ensures !StartsWith(arg, Workflowable[m]) {
          FlagsApart(k, m);
        }
        ArgFlagsSkip(arg, c.value, k + 1, |Workflowable|);
      }
    } else if exists j :: 0 <= j < |Workflowable| && StartsWith(arg, Workflowable[j]) {
      ArgFlagsReject(arg, b, 0);
    } else {
      ArgFlagsSkip(arg, b, 0, |Workflowable|);
    }
  }

  /** The inner loop for one typed argument. */
  method ArgFlagsLoop(arg: string, b: Built) returns (r: Result<Built>)
    ensures r == ArgFlags(arg, b, 0)
  {
    var cur := b;
    var j := 0;
    while j < |Workflowable|
      invariant 0 <= j <= |Workflowable| && ArgFlags(arg, b, 0) == ArgFlags(arg, cur, j)
    {
      var f := Workflowable[j];
      if StartsWith(arg, f) {
        if arg != f {
          return Raise(RbkcliError, "The provided argument is invalid [" + arg + "]...");
        }
        var c := Consume(cur, WorkKey(f));
        if c.Fail? {
          return Fail(c.error);
        }
        cur := c.value;
      }
      j := j + 1;
    }
    r := Ok(cur);
  }

  /** `_create_request_structure`: the steps of the workflow in the order the
      options were typed, and the keyword arguments they leave. */
  method CreateRequestStructure(kwargs: Kwargs, raw: seq<string>) returns (r: Result<Built>)
    ensures r == Workflow(kwargs, raw)
  {
    var b := Built(kwargs, []);
    var i := 0;
    while i < |raw|
      invariant 0 <= i <= |raw| && Workflow(kwargs, raw[..i]) == Ok(b)
    {
      PrefixStep(raw, i);
      r := ArgFlagsLoop(raw[i], b);
      if r.Fail? {
        WorkflowFailed(kwargs, raw, i + 1, |raw|);
        assert raw[..|raw|] == raw;
        return r;
      }
      b := r.value;
      i := i + 1;
    }
    assert raw[..|raw|] == raw;
    r := Ok(b);
  }

  // The workflow against the keyword arguments.

  /** The options among the typed arguments, as the keywords they fill. */
  function KeyList(raw: seq<string>): (r: seq<string>)
    ensures |r| <= |raw|
  {
    if raw == [] then []
    else
      var a := raw[|raw| - 1];
      KeyList(raw[..|raw| - 1]) + if a in Workflowable then [WorkKey(a)] else []
  }

  function Count(ks: seq<string>, key: string): nat
  {
    if ks == [] then 0 else Count(ks[..|ks| - 1], key) + if ks[|ks| - 1] == key then 1 else 0
  }

  function Args(w: seq<Step>): seq<string>
  {
    if w == [] then [] else Args(w[..|w| - 1]) + [w[|w| - 1].arg]
  }

  /** The values of the steps of one option, in order. */
  function StepsOf(w: seq<Step>, key: string): seq<StepValue>
  {
    if w == [] then []
    else StepsOf(w[..|w| - 1], key) + if w[|w| - 1].arg == key then [w[|w| - 1].value] else []
  }

  function Unwraps(vs: seq<seq<string>>): seq<StepValue>
    requires forall i :: 0 <= i < |vs| ==> vs[i] != []
  {
    if vs == [] then [] else Unwraps(vs[..|vs| - 1]) + [Unwrapped(vs[|vs| - 1])]
  }

  /** The option has at least `c` values, none of them empty. */
  predicate Fits(kwargs: Kwargs, key: string, c: nat)
  {
    c == 0 || (key in kwargs && c <= |kwargs[key]| && forall i :: 0 <= i < c ==> kwargs[key][i] != [])
  }

  /** The first `c` values of the option, as steps hold them. */
  function Taken(kwargs: Kwargs, key: string, c: nat): seq<StepValue>
    requires Fits(kwargs, key, c)
  {
    if c == 0 then [] else Unwraps(kwargs[key][..c])
  }

  /** After the options `ks`, each option has given its first values to the
      steps, in order, and keeps the rest; an option whose values ran out is
      gone. */
  ghost predicate Tracks(kwargs: Kwargs, ks: seq<string>, b: Built)
  {
    Args(b.workflow) == ks &&
    forall key ::
      Fits(kwargs, key, Count(ks, key)) &&
      (key in b.kwargs <==> key in kwargs && (Count(ks, key) == 0 || Count(ks, key) < |kwargs[key]|)) &&
      (key in b.kwargs ==> key in kwargs && b.kwargs[key] == kwargs[key][Count(ks, key)..]) &&
      StepsOf(b.workflow, key) == Taken(kwargs, key, Count(ks, key))
  }

  /** No typed argument only starts with an option. */
  ghost predicate Clean(raw: seq<string>)
  {
    forall a :: a in raw && a !in Workflowable ==> forall j :: 0 <= j < |Workflowable| ==> !StartsWith(a, Workflowable[j])
  }

  lemma FitsDown(kwargs: Kwargs, key: string, c: nat, d: nat)
    requires d <= c && Fits(kwargs, key, c)
    ensures Fits(kwargs, key, d)
  {
  }

  lemma TakenStep(kwargs: Kwargs, key: string, c: nat)
    requires Fits(kwargs, key, c + 1)
    ensures Taken(kwargs, key, c + 1) == Taken(kwargs, key, c) + [Unwrapped(kwargs[key][c])]
  {
    var vs := kwargs[key][..c + 1];
    assert vs[..c] == kwargs[key][..c] && vs[c] == kwargs[key][c];
    assert Unwraps(vs) == Unwraps(vs[..c]) + [Unwrapped(vs[c])];
  }

  lemma CountSnoc(ks: seq<string>, x: string, key: string)
    ensures Count(ks + [x], key) == Count(ks, key) + if x == key then 1 else 0
  {
    assert (ks + [x])[..|ks|] == ks;
  }

  lemma StepsSnoc(w: seq<Step>, st: Step, key: string)
    ensures StepsOf(w + [st], key) == StepsOf(w, key) + if st.arg == key then [st.value] else []
    ensures Args(w + [st]) == Args(w) + [st.arg]
  {
    assert (w + [st])[..|w|] == w;
  }

  /** Consuming option `k` succeeds exactly when it has one more value, not
      empty. */
  lemma ConsumeOk(kwargs: Kwargs, ks: seq<string>, b: Built, k: string)
    requires Tracks(kwargs, ks, b)
    ensures Consume(b, k).Ok? <==> Fits(kwargs, k, Count(ks, k) + 1)
  {
    var c := Count(ks, k);
    assert Fits(kwargs, k, c);
    assert k in b.kwargs <==> k in kwargs && (c == 0 || c < |kwargs[k]|);
    if k in b.kwargs {
      assert b.kwargs[k] == kwargs[k][c..];
      if c < |kwargs[k]| {
        assert b.kwargs[k][0] == kwargs[k][c];
      }
    }
  }

  /** What consuming option `k` leaves for one option `key`. */
  lemma ConsumeKey(kwargs: Kwargs, ks: seq<string>, b: Built, k: string, key: string)
    requires Tracks(kwargs, ks, b) && Fits(kwargs, k, Count(ks, k) + 1)
    requires Consume(b, k).Ok?
    ensures var b2 := Consume(b, k).value; var n := Count(ks + [k], key);
      Fits(kwargs, key, n) &&
      (key in b2.kwargs <==> key in kwargs && (n == 0 || n < |kwargs[key]|)) &&
      (key in b2.kwargs ==> key in kwargs && b2.kwargs[key] == kwargs[key][n..]) &&
      StepsOf(b2.workflow, key) == Taken(kwargs, key, n)
  {
    var c := Count(ks, k);
    var vals := kwargs[k];
    var b2 := Consume(b, k).value;
    var st := Step(k, Unwrapped(vals[c]));
    assert b.kwargs[k] == vals[c..];
    assert b.kwargs[k][0] == vals[c] && b.kwargs[k][1..] == vals[c + 1..];
    assert b2.workflow == b.workflow + [st];
    CountSnoc(ks, k, key);
    StepsSnoc(b.workflow, st, key);
    assert Fits(kwargs, key, Count(ks, key));
    if key == k {
      TakenStep(kwargs, k, c);
    }
  }

  lemma {:induction false} ConsumeTracks(kwargs: Kwargs, ks: seq<string>, b: Built, k: string)
    requires Tracks(kwargs, ks, b) && Fits(kwargs, k, Count(ks, k) + 1)
    ensures Consume(b, k).Ok? && Tracks(kwargs, ks + [k], Consume(b, k).value)
  {
    ConsumeOk(kwargs, ks, b, k);
    var b2 := Consume(b, k).value;
    var vals := kwargs[k];
    var c := Count(ks, k);
    assert b.kwargs[k] == vals[c..] && b.kwargs[k][0] == vals[c];
    StepsSnoc(b.workflow, Step(k, Unwrapped(vals[c])), k);
    forall key
      ensures Fits(kwargs, key, Count(ks + [k], key))
      ensures key in b2.kwargs <==> key in kwargs && (Count(ks + [k], key) == 0 || Count(ks + [k], key) < |kwargs[key]|)
      ensures key in b2.kwargs ==> key in kwargs && b2.kwargs[key] == kwargs[key][Count(ks + [k], key)..]
      ensures StepsOf(b2.workflow, key) == Taken(kwargs, key, Count(ks + [k], key))
    {
      ConsumeKey(kwargs, ks, b, k, key);
    }
  }

  /** Once the loop has failed, later arguments change nothing. */
  lemma {:induction false} WorkflowFailed(kwargs: Kwargs, raw: seq<string>, i: nat, n: nat)
    requires i <= n <= |raw| && Workflow(kwargs, raw[..i]).Fail?
    ensures Workflow(kwargs, raw[..n]) == Workflow(kwargs, raw[..i])
    decreases n - i
  {
    if i < n {
      PrefixStep(raw, i);
      WorkflowFailed(kwargs, raw, i + 1, n);
    }
  }

  lemma KeyListSnoc(pre: seq<string>, a: string, key: string)
    ensures KeyList(pre + [a]) == KeyList(pre) + if a in Workflowable then [WorkKey(a)] else []
    ensures Count(KeyList(pre + [a]), key) == Count(KeyList(pre), key) + if a in Workflowable && WorkKey(a) == key then 1 else 0
  {
    assert (pre + [a])[..|pre|] == pre;
    if a in Workflowable {
      CountSnoc(KeyList(pre), WorkKey(a), key);
    } else {
      assert KeyList(pre + [a]) == KeyList(pre);
    }
  }

  lemma CleanSnoc(pre: seq<string>, a: string)
    ensures Clean(pre + [a]) <==>
      Clean(pre) && (a in Workflowable || forall j :: 0 <= j < |Workflowable| ==> !StartsWith(a, Workflowable[j]))
  {
    assert forall x :: x in pre + [a] <==> x in pre || x == a;
  }

  /** A failed loop stays failed, and the arguments then break the
      condition. */
  lemma WorkflowStepFail(kwargs: Kwargs, pre: seq<string>, a: string)
    requires Workflow(kwargs, pre).Fail?
    requires Clean(pre) ==> exists key :: !Fits(kwargs, key, Count(KeyList(pre), key))
    ensures Workflow(kwargs, pre + [a]).Fail?
    ensures Clean(pre + [a]) ==> exists key :: !Fits(kwargs, key, Count(KeyList(pre + [a]), key))
  {
    assert (pre + [a])[..|pre|] == pre;
    CleanSnoc(pre, a);
    if Clean(pre) {
      var key :| !Fits(kwargs, key, Count(KeyList(pre), key));
      KeyListSnoc(pre, a, key);
      if Fits(kwargs, key, Count(KeyList(pre + [a]), key)) {
        FitsDown(kwargs, key, Count(KeyList(pre + [a]), key), Count(KeyList(pre), key));
      }
    }
  }

  /** One more argument after a successful prefix. */
  lemma WorkflowStepOk(kwargs: Kwargs, pre: seq<string>, a: string)
    requires Workflow(kwargs, pre).Ok? && Clean(pre)
    requires forall key :: Fits(kwargs, key, Count(KeyList(pre), key))
    requires Tracks(kwargs, KeyList(pre), Workflow(kwargs, pre).value)
    ensures Workflow(kwargs, pre + [a]).Ok? <==>
      Clean(pre + [a]) && forall key :: Fits(kwargs, key, Count(KeyList(pre + [a]), key))
    ensures Workflow(kwargs, pre + [a]).Ok? ==> Tracks(kwargs, KeyList(pre + [a]), Workflow(kwargs, pre + [a]).value)
  {
    var raw := pre + [a];
    assert raw[..|pre|] == pre;
    var b := Workflow(kwargs, pre).value;
    var ks := KeyList(pre);
    assert Workflow(kwargs, raw) == ArgFlags(a, b, 0);
    ArgFlagsShape(a, b);
    CleanSnoc(pre, a);
    if a in Workflowable {
      var k := WorkKey(a);
      ConsumeOk(kwargs, ks, b, k);
      KeyListSnoc(pre, a, k);
      if Fits(kwargs, k, Count(ks, k) + 1) {
        ConsumeTracks(kwargs, ks, b, k);
        forall key ensures Fits(kwargs, key, Count(KeyList(raw), key)) {
          KeyListSnoc(pre, a, key);
        }
      }
    } else {
      KeyListSnoc(pre, a, "");
      assert KeyList(raw) == ks;
    }
  }

  /** `_create_request_structure` succeeds exactly when no argument only
      starts with an option and every option has as many values as it was
      typed, none empty; the steps then follow the options in order, each
      taking the next value of its option, and the options keep their
      remaining values. */
  lemma {:induction false} WorkflowIs(kwargs: Kwargs, raw: seq<string>)
    ensures Workflow(kwargs, raw).Ok? <==> Clean(raw) && forall key :: Fits(kwargs, key, Count(KeyList(raw), key))
    ensures Workflow(kwargs, raw).Ok? ==> Tracks(kwargs, KeyList(raw), Workflow(kwargs, raw).value)
  {
    if raw == [] {
      forall key ensures key in kwargs ==> kwargs[key][0..] == kwargs[key] {
      }
    } else {
      var m := |raw| - 1;
      WorkflowIs(kwargs, raw[..m]);
      assert raw == raw[..m] + [raw[m]];
      if Workflow(kwargs, raw[..m]).Fail? {
        WorkflowStepFail(kwargs, raw[..m], raw[m]);
      } else {
        WorkflowStepOk(kwargs, raw[..m], raw[m]);
      }
    }
  }

  // ---------------------------------------------------------------------
  // `provide_autocomplete` and `format_response`

  /** The completions for typed arguments: with a first argument that is an
      API version, the operations with their version; with no argument, the
      first segments. */
  function Completion(ops: seq<seq<string>>, opsV: seq<seq<string>>, apis: seq<string>,
                      args: seq<string>, incomplete: string): Result<seq<string>>
  {
    if args != [] then Ok(Selective(if args[0] in apis then opsV else ops, args, incomplete))
    else FullAutocomplete(ops, incomplete)
  }

  /** The completions are sorted, without duplicates, start with the typed
      prefix, and after typed arguments each continues an operation of the
      list chosen by the first argument. */
  lemma CompletionIs(ops: seq<seq<string>>, opsV: seq<seq<string>>, apis: seq<string>,
                     args: seq<string>, incomplete: string)
    ensures var r := Completion(ops, opsV, apis, args, incomplete);
      r.Ok? ==> StrictlySorted(r.value) && forall x :: x in r.value ==> StartsWith(x, incomplete)
    ensures var r := Completion(ops, opsV, apis, args, incomplete);
      args != [] ==> r.Ok? && forall x :: x in r.value ==>
        exists o :: o in (if args[0] in apis then opsV else ops) && Follows(o, args, |args|) && |args| < |o| && o[|args|] == x
    ensures args == [] ==> (Completion(ops, opsV, apis, args, incomplete).Fail? <==> [] in ops)
  {
    if args != [] {
      SelectiveIs(if args[0] in apis then opsV else ops, args, incomplete);
    }
  }

  /** `format_response`: the answer as indented JSON when it parses, else its
      text, else its status code. */
  function FormatResponse(text: string, parse: Parser, dumps: Json -> string, status: Option<int>): (r: string)
  {
    match parse(text)
    case Some(v) => dumps(v)
    case None =>
      if text != "" then text
      else "Response code: " + (if status.Some? then IntToString(status.value) else "EMPTY") + "\nResponse text: " + text
  }

  /** A text that is not JSON is shown as it is, and an empty one still shows
      the status code. */
  lemma FormatResponseShows(text: string, parse: Parser, dumps: Json -> string, status: Option<int>)
    requires parse(text).None?
    ensures text != "" ==> FormatResponse(text, parse, dumps, status) == text
    ensures text == "" ==> StartsWith(FormatResponse(text, parse, dumps, status), "Response code: ")
    ensures text == "" && status.Some? ==> Contains(FormatResponse(text, parse, dumps, status), IntToString(status.value))
  {
    if text == "" {
      var c := if status.Some? then IntToString(status.value) else "EMPTY";
      var r := FormatResponse(text, parse, dumps, status);
      assert r == "Response code: " + c + "\nResponse text: ";
      assert r[..|"Response code: "|] == "Response code: ";
      if status.Some? {
        assert r[|"Response code: "|..|"Response code: "| + |c|] == c;
        OccursContains(r, c, |"Response code: "|);
      }
    }
  }

  /** `Rbkcli`: the segments of the operations, the typed arguments and the
      prefix being completed. */
  class Rbkcli {
    var ops: seq<seq<string>>
    var opsV: seq<seq<string>>
    var args: seq<string>
    var incomplete: string

    constructor()
      ensures ops == [] && opsV == [] && args == [] && incomplete == ""
    {
      ops, opsV, args, incomplete := [], [], [], "";
    }

    /** `_normalize_ops`: the segments of every line are appended, so a second
        call lists the operations twice. */
    method NormalizeOps(raw: seq<string>)
      requires Inputs.WellFormed(raw)
      modifies this
      ensures |ops| == |old(ops)| + |raw| && |opsV| == |old(opsV)| + |raw|
      ensures ops[..|old(ops)|] == old(ops) && opsV[..|old(opsV)|] == old(opsV)
      ensures forall k :: 0 <= k < |raw| ==> ops[|old(ops)| + k] == OpPaths(raw[k]).0 && opsV[|old(opsV)| + k] == OpPaths(raw[k]).1
      ensures args == old(args) && incomplete == old(incomplete)
    {
      var plain, versioned := NormalizedOps(raw);
      ops, opsV := ops + plain, opsV + versioned;
    }

    /** `provide_autocomplete`: no operations, no completions; otherwise the
        operations are normalised and completed against the arguments. */
    method ProvideAutocomplete(operations: seq<string>, apis: seq<string>, typed: seq<string>, prefix: string)
      returns (comp: Result<seq<string>>)
      requires Inputs.WellFormed(operations)
      modifies this
      ensures operations == [] ==> comp == Ok([]) && ops == old(ops) && opsV == old(opsV) && args == old(args) && incomplete == old(incomplete)
      ensures operations != [] ==> |ops| == |old(ops)| + |operations| && |opsV| == |old(opsV)| + |operations|
      ensures operations != [] ==> ops[..|old(ops)|] == old(ops) && opsV[..|old(opsV)|] == old(opsV)
      ensures operations != [] ==> forall k :: 0 <= k < |operations| ==>
        ops[|old(ops)| + k] == OpPaths(operations[k]).0 && opsV[|old(opsV)| + k] == OpPaths(operations[k]).1
      ensures operations != [] ==> args == typed && incomplete == prefix && comp == Completion(ops, opsV, apis, typed, prefix)
    {
      if operations == [] {
        return Ok([]);
      }
      NormalizeOps(operations);
      args, incomplete := typed, prefix;
      var o, v := ops, opsV;
      if typed != [] {
        var ret := GetReturnableOps(if typed[0] in apis then v else o, typed);
        if ret != [] {
          var f := FilterReturnableLoop(ret, |typed|);
          var m := MatchIncompleteLoop(f, prefix);
          comp := Ok(m);
        } else {
          comp := Ok([]);
        }
      } else {
        comp := FullAutocompleteLoop(o, prefix);
      }
    }
  }
}
