/** `MissedBackups` (scripts/default/missed_backups_report.py): the parameters
    of the report checked and given their defaults, the SLA compliance report
    narrowed to the objects, SLAs and object types asked for, and the missed
    backups found summarized by object type and object id. Fetching events
    and dates is not part of this model; the missed backups, the report and
    the current time are given. */
module MissedBackupsReport {
  import opened Wrappers
  import opened Strings
  import opened Lists
  import opened Json

  // ---------------------------------------------------------------------
  // `verify_params`

  /** A parameter of the script: its name, whether it is required and its
      default. */
  datatype ParamDef = ParamDef(name: string, required: bool, default: Option<Json>)

  /** The parameters the script declares, in order. */
  const Parameters: seq<ParamDef> := [
    ParamDef("sla", false, Some(Str(""))),
    ParamDef("object_type", false, Some(Str(""))),
    ParamDef("object_id", false, Some(Str(""))),
    ParamDef("after_date", true, None),
    ParamDef("before_date", false, Some(Str(""))),
    ParamDef("output_file", false, Some(Str("missed_backups_report.json")))
  ]

  function MissingParameter(name: string): string
  {
    "Missing parameter: " + name + " \n"
  }

  /** One parameter checked: a required one must be there; a missing
      optional one gets its default. */
  function Checked(params: seq<(string, Json)>, d: ParamDef): (seq<(string, Json)>, Option<Error>)
  {
    if d.required then
      (params, if HasKey(params, d.name) then None else Some(Error(RbkcliError, MissingParameter(d.name))))
    else if !HasKey(params, d.name) && d.default.Some? then (Set(params, d.name, d.default.value), None)
    else (params, None)
  }

  /** The parameters checked in order from the `i`-th: the passed
      parameters afterwards, and the error of the first required one
      missing; the defaults set before it stay set. */
  function Verified(params: seq<(string, Json)>, defs: seq<ParamDef>, i: nat): (seq<(string, Json)>, Option<Error>)
    decreases |defs| - i
  {
    if i >= |defs| then (params, None)
    else
      var c := Checked(params, defs[i]);
      if c.1.Some? then c else Verified(c.0, defs, i + 1)
  }

  /** The value a parameter has after checking: the one passed, else the
      default. */
  function Filled(params: seq<(string, Json)>, k: string, default: Json): Option<Json>
  {
    if HasKey(params, k) then Get(params, k) else Some(default)
  }

  /** What `verify_params` leaves under `k`: `sla`, `object_type` and
      `object_id` get their empty defaults in any case, `before_date` and
      `output_file` theirs only when `after_date` is there; everything else
      is as passed. */
  function Expected(params: seq<(string, Json)>, k: string): Option<Json>
  {
    if k == "sla" || k == "object_type" || k == "object_id" then Filled(params, k, Str(""))
    else if HasKey(params, "after_date") && k == "before_date" then Filled(params, k, Str(""))
    else if HasKey(params, "after_date") && k == "output_file" then Filled(params, k, Str("missed_backups_report.json"))
    else Get(params, k)
  }

  /** The parameters once the three optional ones before `after_date`
      have been checked. */
  function FirstChecked(params: seq<(string, Json)>): seq<(string, Json)>
  {
    Checked(Checked(Checked(params, Parameters[0]).0, Parameters[1]).0, Parameters[2]).0
  }

  /** The three parameters before `after_date` get their empty defaults and
      cannot fail. */
  lemma FirstDefaults(params: seq<(string, Json)>, k: string)
    ensures Verified(params, Parameters, 0) == Verified(FirstChecked(params), Parameters, 3)
    ensures HasKey(FirstChecked(params), "after_date") <==> HasKey(params, "after_date")
    ensures Get(FirstChecked(params), k)
            == if k == "sla" || k == "object_type" || k == "object_id" then Filled(params, k, Str(""))
               else Get(params, k)
  {
    var p1 := Checked(params, Parameters[0]).0;
    var p2 := Checked(p1, Parameters[1]).0;
    CheckedGet(params, Parameters[0], k);
    CheckedGet(p1, Parameters[1], k);
    CheckedGet(p2, Parameters[2], k);
    CheckedGet(params, Parameters[0], "after_date");
    CheckedGet(p1, Parameters[1], "after_date");
    CheckedGet(p2, Parameters[2], "after_date");
  }

  /** `verify_params` fails exactly when `after_date` is missing, and leaves
      every parameter as `Expected` says. */
  lemma VerifiedParameters(params: seq<(string, Json)>, k: string)
    ensures var (q, err) := Verified(params, Parameters, 0);
      (err.None? <==> HasKey(params, "after_date"))
      && (err.Some? ==> err == Some(Error(RbkcliError, MissingParameter("after_date"))))
      && Get(q, k) == Expected(params, k)
  {
    var p3 := FirstChecked(params);
    FirstDefaults(params, k);
    FirstDefaults(params, "after_date");
    if HasKey(params, "after_date") {
      var p5 := Checked(p3, Parameters[4]).0;
      var p6 := Checked(p5, Parameters[5]).0;
      CheckedGet(p3, Parameters[4], k);
      CheckedGet(p5, Parameters[5], k);
      assert Verified(p3, Parameters, 3) == (p6, None);
    } else {
      assert Verified(p3, Parameters, 3) == (p3, Some(Error(RbkcliError, MissingParameter("after_date"))));
    }
  }

  /** Checking one parameter sets at most its own default. */
  lemma CheckedGet(params: seq<(string, Json)>, d: ParamDef, k: string)
    ensures Get(Checked(params, d).0, k)
            == if k == d.name && !d.required && d.default.Some? then Filled(params, k, d.default.value)
               else Get(params, k)
  {
    if !d.required && !HasKey(params, d.name) && d.default.Some? {
      GetSet(params, d.name, d.default.value, k);
    }
  }

  // ---------------------------------------------------------------------
  // `filter_object_report`

  /** The copies of a report row kept for the wanted values: one per value
      equal to the row's `key`, which is read once per value. */
  function Matches(snappable: Json, key: string, values: seq<Json>): Result<seq<Json>>
  {
    if values == [] then Ok([])
    else
      var n := |values| - 1;
      match Matches(snappable, key, values[..n])
      case Fail(e) => Fail(e)
      case Ok(kept) =>
        match Subscript(snappable, key)
        case Fail(e) => Fail(e)
        case Ok(v) => Ok(if values[n] == v then kept + [snappable] else kept)
  }

  /** `filter_object_report`: the rows of the report, in order, each as many
      times as it matches a wanted value. */
  function Filtered(report: seq<Json>, key: string, values: seq<Json>): Result<seq<Json>>
  {
    if report == [] then Ok([])
    else
      var n := |report| - 1;
      match Filtered(report[..n], key, values)
      case Fail(e) => Fail(e)
      case Ok(kept) =>
        match Matches(report[n], key, values)
        case Fail(e) => Fail(e)
        case Ok(m) => Ok(kept + m)
  }

  /** The rows whose `key` is one of the values, in order, each once. */
  function Select(report: seq<Json>, key: string, values: seq<Json>): seq<Json>
  {
    if report == [] then []
    else
      var n := |report| - 1;
      var r := report[n];
      Select(report[..n], key, values)
      + (if Subscript(r, key).Ok? && Subscript(r, key).value in values then [r] else [])
  }

  /** Against distinct values, a row is kept once when its `key` is one of
      them and dropped otherwise. */
  lemma {:induction false} MatchesDistinct(snappable: Json, key: string, values: seq<Json>)
    requires Distinct(values) && Matches(snappable, key, values).Ok?
    ensures values != [] ==> Subscript(snappable, key).Ok?
    ensures Matches(snappable, key, values).value
            == if values != [] && Subscript(snappable, key).value in values then [snappable] else []
  {
    if values != [] {
      var n := |values| - 1;
      assert Distinct(values[..n]);
      MatchesDistinct(snappable, key, values[..n]);
      assert values == values[..n] + [values[n]];
      if values[n] == Subscript(snappable, key).value {
        assert values[n] !in values[..n];
      }
    }
  }

  /** Filtering on distinct values keeps exactly the rows whose `key` is one
      of them, in order, each once. */
  lemma {:induction false} FilteredSelects(report: seq<Json>, key: string, values: seq<Json>)
    requires Distinct(values) && values != [] && Filtered(report, key, values).Ok?
    ensures Filtered(report, key, values).value == Select(report, key, values)
  {
    if report != [] {
      var n := |report| - 1;
      FilteredSelects(report[..n], key, values);
      MatchesDistinct(report[n], key, values);
    }
  }

  /** Every row of the report has `key`. */
  predicate Readable(report: seq<Json>, key: string)
  {
    forall i :: 0 <= i < |report| ==> Subscript(report[i], key).Ok?
  }

  lemma ReadableSnoc(report: seq<Json>, key: string)
    requires report != []
    ensures var n := |report| - 1;
      Readable(report, key) <==> Readable(report[..n], key) && Subscript(report[n], key).Ok?
  {
    var n := |report| - 1;
    if Readable(report[..n], key) {
      forall i | 0 <= i < n ensures Subscript(report[i], key).Ok? {
        assert report[..n][i] == report[i];
      }
    }
    if Readable(report, key) {
      forall i | 0 <= i < n ensures Subscript(report[..n][i], key).Ok? {
        assert report[..n][i] == report[i];
      }
    }
  }

  /** With values to look for, filtering fails exactly when some row has no
      `key`; without values, every row is dropped. */
  lemma {:induction false} FilteredOk(report: seq<Json>, key: string, values: seq<Json>)
    ensures values == [] ==> Filtered(report, key, values) == Ok([])
    ensures values != [] ==> (Filtered(report, key, values).Ok? <==> Readable(report, key))
  {
    if report != [] {
      var n := |report| - 1;
      FilteredOk(report[..n], key, values);
      MatchesOk(report[n], key, values);
      if values == [] {
        var kept: seq<Json> := [];
        assert kept + kept == kept;
        assert Filtered(report, key, values) == Ok(kept + kept);
      } else {
        ReadableSnoc(report, key);
      }
    }
  }

  lemma {:induction false} MatchesOk(snappable: Json, key: string, values: seq<Json>)
    ensures values == [] ==> Matches(snappable, key, values) == Ok([])
    ensures values != [] ==> (Matches(snappable, key, values).Ok? <==> Subscript(snappable, key).Ok?)
  {
    if values != [] {
      MatchesOk(snappable, key, values[..|values| - 1]);
    }
  }

  /** A row without `key` fails the matching against any values. */
  lemma {:induction false} MatchesFail(snappable: Json, key: string, values: seq<Json>)
    requires values != [] && Subscript(snappable, key).Fail?
    ensures Matches(snappable, key, values) == Fail(Subscript(snappable, key).error)
  {
    if |values| > 1 {
      MatchesFail(snappable, key, values[..|values| - 1]);
    }
  }

  /** Once a prefix of the report fails, the whole report fails the same
      way. */
  lemma {:induction false} FilteredPrefixFail(report: seq<Json>, key: string, values: seq<Json>, j: nat)
    requires j <= |report| && Filtered(report[..j], key, values).Fail?
    ensures Filtered(report, key, values) == Filtered(report[..j], key, values)
  {
    if j < |report| {
      var n := |report| - 1;
      assert report[..n][..j] == report[..j];
      FilteredPrefixFail(report[..n], key, values, j);
    } else {
      assert report[..j] == report;
    }
  }

  /** The first row without `key` is the error of the whole filter. */
  lemma FilteredStops(report: seq<Json>, key: string, values: seq<Json>, i: nat, k: nat)
    requires i < |report| && k < |values|
    requires Filtered(report[..i], key, values).Ok? && Subscript(report[i], key).Fail?
    ensures Filtered(report, key, values) == Fail(Subscript(report[i], key).error)
  {
    MatchesFail(report[i], key, values);
    assert report[..i + 1][..i] == report[..i];
    FilteredPrefixFail(report, key, values, i + 1);
  }

  // ---------------------------------------------------------------------
  // `sort_params`

  /** A non-empty string parameter becomes a one-element list. */
  function Wrap(params: seq<(string, Json)>, name: string): Result<seq<(string, Json)>>
  {
    match Get(params, name)
    case None => Raise(KeyError, "'" + name + "'")
    case Some(v) => Ok(if v.Str? && v.s != "" then Set(params, name, Arr([v])) else params)
  }

  /** `for id_ in values`: the items of a list, the keys of a dictionary, the
      characters of a string. */
  function Iterated(v: Json): Result<seq<Json>>
  {
    match v
    case Arr(items) => Ok(items)
    case Obj(fields) => Ok(seq(|fields|, i requires 0 <= i < |fields| => Str(fields[i].0)))
    case Str(s) => Ok(seq(|s|, i requires 0 <= i < |s| => Str([s[i]])))
    case _ => Raise(TypeError, "'" + TypeName(v) + "' object is not iterable")
  }

  /** The report narrowed by one parameter when it is set. */
  function Narrowed(report: seq<Json>, params: seq<(string, Json)>, name: string, key: string): Result<seq<Json>>
  {
    match Get(params, name)
    case None => Raise(KeyError, "'" + name + "'")
    case Some(v) =>
      if !Truthy(v) then Ok(report)
      else
        match Iterated(v)
        case Fail(e) => Fail(e)
        case Ok(values) => Filtered(report, key, values)
  }

  /** The string parameters that `sort_params` wraps, in its order. */
  const WrappedNames: seq<string> := ["sla", "object_id", "object_type"]

  /** The parameters after wrapping each of `names` in turn. */
  function Wrapped(params: seq<(string, Json)>, names: seq<string>): Result<seq<(string, Json)>>
  {
    if names == [] then Ok(params)
    else
      var n := |names| - 1;
      match Wrapped(params, names[..n])
      case Fail(e) => Fail(e)
      case Ok(p) => Wrap(p, names[n])
  }

  /** `sort_params`: `sla`, `object_id` and `object_type` wrapped, the report
      narrowed by object id, then SLA, then object type, an empty
      `before_date` set to `now`, and an empty report refused (the progress
      weight divides by its length). */
  function Sorted(params: seq<(string, Json)>, report: seq<Json>, now: string)
    : Result<(seq<(string, Json)>, seq<Json>)>
  {
    match Wrapped(params, WrappedNames)
    case Fail(e) => Fail(e)
    case Ok(p) =>
    match Narrowed(report, p, "object_id", "ObjectId")
    case Fail(e) => Fail(e)
    case Ok(r1) =>
    match Narrowed(r1, p, "sla", "SlaDomain")
    case Fail(e) => Fail(e)
    case Ok(r2) =>
    match Narrowed(r2, p, "object_type", "ObjectType")
    case Fail(e) => Fail(e)
    case Ok(r3) =>
    match Get(p, "before_date")
    case None => Raise(KeyError, "'before_date'")
    case Some(b) =>
      var q := if Truthy(b) then p else Set(p, "before_date", Str(now));
      if r3 == [] then Raise(ZeroDivisionError, "division by zero") else Ok((q, r3))
  }

  /** A non-empty string is wrapped; any other value stays as it is. */
  lemma WrapValue(params: seq<(string, Json)>, name: string, k: string)
    requires Wrap(params, name).Ok?
    ensures var v := Get(params, name).value;
      Get(Wrap(params, name).value, k)
      == if k == name && v.Str? && v.s != "" then Some(Arr([v])) else Get(params, k)
  {
    var v := Get(params, name).value;
    if v.Str? && v.s != "" {
      GetSet(params, name, Arr([v]), k);
    }
  }

  /** A wrapped string is looked for as one value: the report keeps the rows
      whose `key` is that string, each once. */
  lemma NarrowedByString(report: seq<Json>, params: seq<(string, Json)>, name: string, key: string, s: string)
    requires Get(params, name) == Some(Arr([Str(s)]))
    requires Narrowed(report, params, name, key).Ok?
    ensures Narrowed(report, params, name, key).value == Select(report, key, [Str(s)])
  {
    FilteredSelects(report, key, [Str(s)]);
  }

  /** An unset parameter leaves the report as it is. */
  lemma NarrowedUnset(report: seq<Json>, params: seq<(string, Json)>, name: string, key: string)
    requires Get(params, name) == Some(Str(""))
    ensures Narrowed(report, params, name, key) == Ok(report)
  {
  }

  // ---------------------------------------------------------------------
  // `summarize`

  /** A counter: each value with the number of times it was seen, in the
      order of first sight. */
  type Counter = seq<(Json, nat)>

  /** `counter[k] = 1` when `k` is new, `counter[k] += 1` otherwise. */
  function Bump(c: Counter, k: Json): (r: Counter)
    ensures |r| == |c| || |r| == |c| + 1
  {
    if c == [] then [(k, 1)]
    else if c[0].0 == k then [(k, c[0].1 + 1)] + c[1..]
    else [c[0]] + Bump(c[1..], k)
  }

  /** The count a counter holds for `k`, 0 when it has none. */
  function CountOf(c: Counter, k: Json): nat
  {
    if c == [] then 0 else if c[0].0 == k then c[0].1 else CountOf(c[1..], k)
  }

  function Total(c: Counter): nat
  {
    if c == [] then 0 else c[0].1 + Total(c[1..])
  }

  function CounterKeys(c: Counter): seq<Json>
  {
    if c == [] then [] else [c[0].0] + CounterKeys(c[1..])
  }

  /** The counter of a sequence of values. */
  function Tally(xs: seq<Json>): Counter
  {
    if xs == [] then [] else Bump(Tally(xs[..|xs| - 1]), xs[|xs| - 1])
  }

  lemma {:induction false} BumpCount(c: Counter, k: Json, x: Json)
    ensures CountOf(Bump(c, k), x) == CountOf(c, x) + (if x == k then 1 else 0)
    ensures Total(Bump(c, k)) == Total(c) + 1
    ensures CounterKeys(Bump(c, k)) == if k in CounterKeys(c) then CounterKeys(c) else CounterKeys(c) + [k]
  {
    if c != [] && c[0].0 != k {
      BumpCount(c[1..], k, x);
      assert CounterKeys(Bump(c, k)) == [c[0].0] + CounterKeys(Bump(c[1..], k));
    }
  }

  /** Each value is counted as many times as it occurs; the counts add up to
      the number of values; each value seen is a key once. */
  lemma {:induction false} TallyCounts(xs: seq<Json>, x: Json)
    ensures CountOf(Tally(xs), x) == multiset(xs)[x]
    ensures Total(Tally(xs)) == |xs|
    ensures Distinct(CounterKeys(Tally(xs)))
    ensures x in CounterKeys(Tally(xs)) <==> x in xs
  {
    if xs != [] {
      var n := |xs| - 1;
      TallyCounts(xs[..n], x);
      TallyCounts(xs[..n], xs[n]);
      BumpCount(Tally(xs[..n]), xs[n], x);
      assert xs == xs[..n] + [xs[n]];
      assert multiset(xs) == multiset(xs[..n]) + multiset{xs[n]};
    }
  }

  /** The result of `summarize`, before it is written out as JSON. */
  datatype Summary = Summary(typeSummary: string, typeCount: Counter,
                             objectSummary: string, objectCount: Counter,
                             timeTaken: string, data: seq<Json>)

  function TypeSummary(n: nat): string
  {
    "There is(are) " + IntToString(n) + " affected object types, following is the distribution among types:"
  }

  function ObjectSummary(n: nat): string
  {
    "There is(are) " + IntToString(n) + " affected objects,  following is the distribution of occurrences:"
  }

  /** A value used as a dictionary key: lists and dictionaries are
      unhashable. */
  function Hashed(v: Json): Result<Json>
  {
    match v
    case Arr(_) => Raise(TypeError, "unhashable type: 'list'")
    case Obj(_) => Raise(TypeError, "unhashable type: 'dict'")
    case _ => Ok(v)
  }

  /** The object type and object id of each missed backup, in order. */
  function Classified(missed: seq<Json>): Result<seq<(Json, Json)>>
  {
    if missed == [] then Ok([])
    else
      var n := |missed| - 1;
      match Classified(missed[..n])
      case Fail(e) => Fail(e)
      case Ok(pairs) =>
        match Kinds(missed[n])
        case Fail(e) => Fail(e)
        case Ok(p) => Ok(pairs + [p])
  }

  /** The object type and object id of one missed backup, the type read
      first; both must be hashable. */
  function Kinds(missed: Json): Result<(Json, Json)>
  {
    match Subscript(missed, "ObjectType")
    case Fail(e) => Fail(e)
    case Ok(t) =>
    match Hashed(t)
    case Fail(e) => Fail(e)
    case Ok(_) =>
    match Subscript(missed, "ObjectId")
    case Fail(e) => Fail(e)
    case Ok(id) =>
    match Hashed(id)
    case Fail(e) => Fail(e)
    case Ok(_) => Ok((t, id))
  }

  /** The `i`-th missed backup either extends the pairs or is the error of
      the whole summary. */
  lemma ClassifiedAt(missed: seq<Json>, i: nat)
    requires i < |missed| && Classified(missed[..i]).Ok?
    ensures Kinds(missed[i]).Fail? ==> Classified(missed) == Fail(Kinds(missed[i]).error)
    ensures Kinds(missed[i]).Ok? ==>
      Classified(missed[..i + 1]) == Ok(Classified(missed[..i]).value + [Kinds(missed[i]).value])
  {
    assert missed[..i + 1][..i] == missed[..i];
    if Kinds(missed[i]).Fail? {
      ClassifiedStops(missed, i + 1);
    }
  }

  function Firsts(pairs: seq<(Json, Json)>): (r: seq<Json>)
    ensures |r| == |pairs| && forall i :: 0 <= i < |pairs| ==> r[i] == pairs[i].0
  {
    seq(|pairs|, i requires 0 <= i < |pairs| => pairs[i].0)
  }

  function Seconds(pairs: seq<(Json, Json)>): (r: seq<Json>)
    ensures |r| == |pairs| && forall i :: 0 <= i < |pairs| ==> r[i] == pairs[i].1
  {
    seq(|pairs|, i requires 0 <= i < |pairs| => pairs[i].1)
  }

  /** `summarize`: the missed backups counted by object type and by object
      id, the number of distinct types and ids, and the minutes taken. */
  function Summarized(missed: seq<Json>, elapsed: nat): Result<Summary>
  {
    match Classified(missed)
    case Fail(e) => Fail(e)
    case Ok(pairs) =>
      var types := Tally(Firsts(pairs));
      var ids := Tally(Seconds(pairs));
      Ok(Summary(TypeSummary(|types|), types, ObjectSummary(|ids|), ids,
                 IntToString(elapsed / 60) + " mins", missed))
  }

  /** Once a prefix of the missed backups fails, all of them fail the same
      way. */
  lemma {:induction false} ClassifiedStops(missed: seq<Json>, j: nat)
    requires j <= |missed| && Classified(missed[..j]).Fail?
    ensures Classified(missed) == Classified(missed[..j])
  {
    if j < |missed| {
      var n := |missed| - 1;
      assert missed[..n][..j] == missed[..j];
      ClassifiedStops(missed[..n], j);
    } else {
      assert missed[..j] == missed;
    }
  }

  /** One more pair bumps each counter once. */
  lemma PairsSnoc(pairs: seq<(Json, Json)>, p: (Json, Json))
    ensures Tally(Firsts(pairs + [p])) == Bump(Tally(Firsts(pairs)), p.0)
    ensures Tally(Seconds(pairs + [p])) == Bump(Tally(Seconds(pairs)), p.1)
  {
    assert Firsts(pairs + [p]) == Firsts(pairs) + [p.0];
    assert Seconds(pairs + [p]) == Seconds(pairs) + [p.1];
    assert (Firsts(pairs) + [p.0])[..|pairs|] == Firsts(pairs);
    assert (Seconds(pairs) + [p.1])[..|pairs|] == Seconds(pairs);
  }

  /** One object type and one id per missed backup. */
  lemma {:induction false} ClassifiedEach(missed: seq<Json>)
    requires Classified(missed).Ok?
    ensures |Classified(missed).value| == |missed|
    ensures forall i :: 0 <= i < |missed| ==>
      Subscript(missed[i], "ObjectType") == Ok(Classified(missed).value[i].0)
      && Subscript(missed[i], "ObjectId") == Ok(Classified(missed).value[i].1)
  {
    if missed != [] {
      var n := |missed| - 1;
      ClassifiedEach(missed[..n]);
      var pairs := Classified(missed[..n]).value;
      var all := Classified(missed).value;
      assert all == pairs + [Kinds(missed[n]).value];
      forall i | 0 <= i < |missed|
        ensures Subscript(missed[i], "ObjectType") == Ok(all[i].0)
        ensures Subscript(missed[i], "ObjectId") == Ok(all[i].1)
      {
        if i < n {
          assert missed[..n][i] == missed[i];
          assert all[i] == pairs[i];
        } else {
          assert all[i] == Kinds(missed[n]).value;
        }
      }
    }
  }

  /** The type counts and the id counts each add up to the number of missed
      backups; each type is counted as often as missed backups have it. */
  lemma SummaryCounts(missed: seq<Json>, elapsed: nat, t: Json)
    requires Summarized(missed, elapsed).Ok?
    ensures var s := Summarized(missed, elapsed).value;
      Total(s.typeCount) == |missed| && Total(s.objectCount) == |missed|
      && CountOf(s.typeCount, t) == multiset(Firsts(Classified(missed).value))[t]
      && Distinct(CounterKeys(s.typeCount)) && Distinct(CounterKeys(s.objectCount))
      && s.data == missed
  {
    var pairs := Classified(missed).value;
    ClassifiedEach(missed);
    TallyCounts(Firsts(pairs), t);
    TallyCounts(Seconds(pairs), t);
  }

  // ---------------------------------------------------------------------
  // The script's state

  class MissedBackups {
    var passedParams: seq<(string, Json)>
    var report: seq<Json>
    var missedBackups: seq<Json>

    constructor (passedParams: seq<(string, Json)>, report: seq<Json>, missedBackups: seq<Json>)
      ensures this.passedParams == passedParams && this.report == report
      ensures this.missedBackups == missedBackups
    {
      this.passedParams := passedParams;
      this.report := report;
      this.missedBackups := missedBackups;
    }

    /** `verify_params`: the loop over the declared parameters. */
    method VerifyParams() returns (err: Option<Error>)
      modifies this
      ensures (passedParams, err) == Verified(old(passedParams), Parameters, 0)
      ensures report == old(report) && missedBackups == old(missedBackups)
    {
      var i := 0;
      while i < |Parameters|
        invariant 0 <= i <= |Parameters|
        invariant Verified(old(passedParams), Parameters, 0) == Verified(passedParams, Parameters, i)
        invariant report == old(report) && missedBackups == old(missedBackups)
      {
        var param := Parameters[i];
        if param.required {
          if !HasKey(passedParams, param.name) {
            return Some(Error(RbkcliError, MissingParameter(param.name)));
          }
        } else {
          if !HasKey(passedParams, param.name) {
            if param.default.Some? {
              passedParams := Set(passedParams, param.name, param.default.value);
            }
          }
        }
        i := i + 1;
      }
      return None;
    }

    /** `filter_object_report`: the rows kept, once per matching value; the
        report is replaced only when every row could be read. */
    method FilterObjectReport(key: string, values: seq<Json>) returns (err: Option<Error>)
      modifies this
      ensures var f := Filtered(old(report), key, values);
        if f.Ok? then err.None? && report == f.value else err == Some(f.error) && report == old(report)
      ensures passedParams == old(passedParams) && missedBackups == old(missedBackups)
    {
      var newReport: seq<Json> := [];
      for i := 0 to |report|
        invariant Filtered(report[..i], key, values) == Ok(newReport)
      {
        assert report[..i + 1][..i] == report[..i];
        var snappable := report[i];
        var m: seq<Json> := [];
        for k := 0 to |values|
          invariant Matches(snappable, key, values[..k]) == Ok(m)
        {
          assert values[..k + 1][..k] == values[..k];
          var v := Subscript(snappable, key);
          if v.Fail? {
            FilteredStops(report, key, values, i, k);
            return Some(v.error);
          }
          if values[k] == v.value {
            m := m + [snappable];
          }
        }
        assert values[..|values|] == values;
        newReport := newReport + m;
      }
      assert report[..|report|] == report;
      report := newReport;
      return None;
    }

    /** One `if self.passed_params[name]: self.filter_object_report(...)`
        step of `sort_params`. */
    method Narrow(name: string, key: string) returns (err: Option<Error>)
      modifies this
      ensures var n := Narrowed(old(report), passedParams, name, key);
        (n.Ok? ==> err.None? && report == n.value) && (n.Fail? ==> err == Some(n.error))
      ensures passedParams == old(passedParams) && missedBackups == old(missedBackups)
    {
      var v := Get(passedParams, name);
      if v.None? {
        return Some(Error(KeyError, "'" + name + "'"));
      }
      if Truthy(v.value) {
        var values := Iterated(v.value);
        if values.Fail? {
          return Some(values.error);
        }
        err := FilterObjectReport(key, values.value);
      } else {
        err := None;
      }
    }

    /** `sort_params`: the wrapped parameters and the narrowed report. */
    method SortParams(now: string) returns (err: Option<Error>)
      modifies this
      ensures var s := Sorted(old(passedParams), old(report), now);
        (s.Ok? ==> err.None? && passedParams == s.value.0 && report == s.value.1)
        && (s.Fail? ==> err == Some(s.error))
      ensures missedBackups == old(missedBackups)
    {
      var w: Result<seq<(string, Json)>> := Ok(passedParams);
      for i := 0 to |WrappedNames|
        invariant w == Wrapped(old(passedParams), WrappedNames[..i])
      {
        assert WrappedNames[..i + 1][..i] == WrappedNames[..i];
        if w.Ok? {
          var v := Get(w.value, WrappedNames[i]);
          if v.None? {
            w := Raise(KeyError, "'" + WrappedNames[i] + "'");
          } else if v.value.Str? && v.value.s != "" {
            w := Ok(Set(w.value, WrappedNames[i], Arr([v.value])));
          }
        }
      }
      assert WrappedNames[..|WrappedNames|] == WrappedNames;
      if w.Fail? {
        return Some(w.error);
      }
      passedParams := w.value;
      err := Narrow("object_id", "ObjectId");
      if err.Some? {
        return;
      }
      err := Narrow("sla", "SlaDomain");
      if err.Some? {
        return;
      }
      err := Narrow("object_type", "ObjectType");
      if err.Some? {
        return;
      }
      var b := Get(passedParams, "before_date");
      if b.None? {
        return Some(Error(KeyError, "'before_date'"));
      }
      if !Truthy(b.value) {
        passedParams := Set(passedParams, "before_date", Str(now));
      }
      if report == [] {
        return Some(Error(ZeroDivisionError, "division by zero"));
      }
      return None;
    }

    /** `summarize`: the loop counting the missed backups by type and by
        id. */
    method Summarize(elapsed: nat) returns (r: Result<Summary>)
      ensures r == Summarized(missedBackups, elapsed)
    {
      var types: Counter := [];
      var ids: Counter := [];
      ghost var pairs: seq<(Json, Json)> := [];
      for i := 0 to |missedBackups|
        invariant Classified(missedBackups[..i]) == Ok(pairs)
        invariant types == Tally(Firsts(pairs)) && ids == Tally(Seconds(pairs))
      {
        ClassifiedAt(missedBackups, i);
        var missed := missedBackups[i];
        var t := Subscript(missed, "ObjectType");
        if t.Fail? {
          return Fail(t.error);
        }
        var ht := Hashed(t.value);
        if ht.Fail? {
          return Fail(ht.error);
        }
        types := Bump(types, t.value);
        var id := Subscript(missed, "ObjectId");
        if id.Fail? {
          return Fail(id.error);
        }
        var hid := Hashed(id.value);
        if hid.Fail? {
          return Fail(hid.error);
        }
        ids := Bump(ids, id.value);
        PairsSnoc(pairs, (t.value, id.value));
        pairs := pairs + [(t.value, id.value)];
      }
      assert missedBackups[..|missedBackups|] == missedBackups;
      return Ok(Summary(TypeSummary(|types|), types, ObjectSummary(|ids|), ids,
                        IntToString(elapsed / 60) + " mins", missedBackups));
    }
  }
}
