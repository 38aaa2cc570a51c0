/** The SLA frequency helpers the report scripts share: `max_retention`
    (scripts/default/all_snapshots.py) and `get_ingest_frequency`
    (scripts/default/missed_backups_report.py). Each entry of an SLA's
    `frequencies` dictionary names a unit and holds a count; the unit's length
    in seconds times the count is the entry's span. */
module Frequencies {
  import opened Wrappers
  import opened Json

  /** The length of each unit in seconds; a month is 30 days, a quarter 90
      and a year 365. */
  function UnitSeconds(unit: string): (r: Option<nat>)
    ensures r.Some? <==> unit in ["minute", "hourly", "daily", "weekly", "monthly", "quarterly", "yearly"]
  {
    if unit == "minute" then Some(60)
    else if unit == "hourly" then Some(3600)
    else if unit == "daily" then Some(86400)
    else if unit == "weekly" then Some(604800)
    else if unit == "monthly" then Some(2592000)
    else if unit == "quarterly" then Some(7776000)
    else if unit == "yearly" then Some(31536000)
    else None
  }

  /** Python `n * x` for an int `n` and a count. */
  function Times(n: int, x: Json): Result<int>
  {
    match x
    case Num(k) => Ok(n * k)
    case Bool(b) => Ok(if b then n else 0)
    case _ => Raise(TypeError, "unsupported operand type(s) for *: 'int' and '" + TypeName(x) + "'")
  }

  /** The span of each entry, in the dictionary's order: an unknown unit is
      a KeyError, and so is an entry without `field`. */
  function Spans(entries: seq<(string, Json)>, field: string): Result<seq<int>>
  {
    if entries == [] then Ok([])
    else
      var n := |entries| - 1;
      match Spans(entries[..n], field)
      case Fail(e) => Fail(e)
      case Ok(secs) =>
        match UnitSeconds(entries[n].0)
        case None => Raise(KeyError, "'" + entries[n].0 + "'")
        case Some(u) =>
          match Subscript(entries[n].1, field)
          case Fail(e) => Fail(e)
          case Ok(x) =>
            match Times(u, x)
            case Fail(e) => Fail(e)
            case Ok(s) => Ok(secs + [s])
  }

  /** `frequencies.items()`: only a dictionary has them. */
  function SpansOf(frequencies: Json, field: string): Result<seq<int>>
  {
    if frequencies.Obj? then Spans(frequencies.fields, field)
    else Raise(AttributeError, "'" + TypeName(frequencies) + "' object has no attribute 'items'")
  }

  function Largest(xs: seq<int>): (m: int)
    requires xs != []
    ensures m in xs && forall x :: x in xs ==> x <= m
  {
    if |xs| == 1 then xs[0]
    else
      var m := Largest(xs[1..]);
      assert forall x :: x in xs ==> x == xs[0] || x in xs[1..];
      if xs[0] >= m then xs[0] else m
  }

  function Smallest(xs: seq<int>): (m: int)
    requires xs != []
    ensures m in xs && forall x :: x in xs ==> m <= x
  {
    if |xs| == 1 then xs[0]
    else
      var m := Smallest(xs[1..]);
      assert forall x :: x in xs ==> x == xs[0] || x in xs[1..];
      if xs[0] <= m then xs[0] else m
  }

  /** `max_retention`: the longest retention span, or 0 without entries. */
  function MaxRetention(frequencies: Json): Result<int>
  {
    match SpansOf(frequencies, "retention")
    case Fail(e) => Fail(e)
    case Ok(secs) => Ok(if secs == [] then 0 else Largest(secs))
  }

  /** `get_ingest_frequency`: the shortest frequency span, or 0 without
      entries. */
  function IngestFrequency(frequencies: Json): Result<int>
  {
    match SpansOf(frequencies, "frequency")
    case Fail(e) => Fail(e)
    case Ok(secs) => Ok(if secs == [] then 0 else Smallest(secs))
  }

  // ---------------------------------------------------------------------
  // Properties

  /** One span per entry, each the unit's seconds times the entry's count. */
  lemma {:induction false} SpansEach(entries: seq<(string, Json)>, field: string)
    requires Spans(entries, field).Ok?
    ensures |Spans(entries, field).value| == |entries|
    ensures forall i :: 0 <= i < |entries| ==>
              UnitSeconds(entries[i].0).Some? && Subscript(entries[i].1, field).Ok?
              && Times(UnitSeconds(entries[i].0).value, Subscript(entries[i].1, field).value)
                 == Ok(Spans(entries, field).value[i])
  {
    if entries != [] {
      var n := |entries| - 1;
      SpansEach(entries[..n], field);
      forall i | 0 <= i < |entries|
        ensures UnitSeconds(entries[i].0).Some? && Subscript(entries[i].1, field).Ok?
        ensures Times(UnitSeconds(entries[i].0).value, Subscript(entries[i].1, field).value)
                == Ok(Spans(entries, field).value[i])
      {
        if i < n {
          assert entries[..n][i] == entries[i];
        }
      }
    }
  }

  /** An entry whose unit is not one of the seven fails the whole dictionary. */
  lemma {:induction false} UnknownUnit(entries: seq<(string, Json)>, field: string, i: nat)
    requires i < |entries| && UnitSeconds(entries[i].0).None?
    ensures Spans(entries, field).Fail?
  {
    var n := |entries| - 1;
    if i < n {
      assert entries[..n][i] == entries[i];
      UnknownUnit(entries[..n], field, i);
    }
  }

  /** The retention is at least every entry's span and is one of them, or 0
      when there are none. */
  lemma MaxRetentionBounds(frequencies: Json)
    requires MaxRetention(frequencies).Ok?
    ensures var m := MaxRetention(frequencies).value;
      var secs := SpansOf(frequencies, "retention").value;
      (secs == [] ==> m == 0) && (secs != [] ==> m in secs)
      && forall s :: s in secs ==> s <= m
  {
  }

  /** The ingest frequency is at most every entry's span and is one of them,
      or 0 when there are none. */
  lemma IngestFrequencyBounds(frequencies: Json)
    requires IngestFrequency(frequencies).Ok?
    ensures var m := IngestFrequency(frequencies).value;
      var secs := SpansOf(frequencies, "frequency").value;
      (secs == [] ==> m == 0) && (secs != [] ==> m in secs)
      && forall s :: s in secs ==> m <= s
  {
  }

  /** A daily retention of 7 and a weekly one of 4: four weeks. */
  lemma FourWeeks()
    ensures MaxRetention(Obj([("daily", Obj([("retention", Num(7))])),
                              ("weekly", Obj([("retention", Num(4))]))])) == Ok(2419200)
  {
    var f := Obj([("daily", Obj([("retention", Num(7))])), ("weekly", Obj([("retention", Num(4))]))]);
    var e := f.fields;
    assert e[..1][..0] == [];
    assert Subscript(e[0].1, "retention") == Ok(Num(7));
    assert Subscript(e[1].1, "retention") == Ok(Num(4));
    assert Spans(e[..1], "retention").Ok?;
    assert Spans(e[..1], "retention").value == [] + [604800];
    assert Spans(e, "retention").Ok?;
    assert Spans(e, "retention").value == [604800] + [2419200];
  }
}
