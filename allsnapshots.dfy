/** `AllSnaps` (scripts/default/all_snapshots.py): the table of SLA domains by
    id, each with its longest retention in seconds as text, which the script
    looks up to estimate when a snapshot expires. The SLA list the API answers
    is given as a parameter. */
module AllSnapshots {
  import opened Wrappers
  import opened Strings
  import opened Json
  import opened Frequencies

  const FreqMax: string := "frequency_max_retention"
  const Forever: string := "FOREVER"
  const DeletedSla: string := "FOREVER-DELETED_SLAs"
  const UnboundFreqMax: string := "local variable 'freq_max' referenced before assignment"

  /** The entry kept for unprotected objects. */
  const Unprotected: Json := Obj([(FreqMax, Str(Forever))])

  /** The text of an SLA's longest retention: the longest retention span of
      its frequencies, or its `maxLocalRetentionLimit` when that span is 0. */
  function RetentionText(sla: Json): Result<string>
  {
    match Subscript(sla, "frequencies")
    case Fail(e) => Fail(e)
    case Ok(f) =>
      match MaxRetention(f)
      case Fail(e) => Fail(e)
      case Ok(m) =>
        if m != 0 then Ok(IntToString(m))
        else
          match Subscript(sla, "maxLocalRetentionLimit")
          case Fail(e) => Fail(e)
          case Ok(limit) => Ok(PyStr(limit))
  }

  /** An SLA with `frequency_max_retention` set to the text of its longest
      retention. */
  function Normalized(sla: Json): Result<seq<(string, Json)>>
  {
    match RetentionText(sla)
    case Fail(e) => Fail(e)
    case Ok(t) => Ok(Set(sla.fields, FreqMax, Str(t)))
  }

  /** An SLA, normalized, with the id it is filed under. */
  function Filed(sla: Json): Result<(string, seq<(string, Json)>)>
  {
    match Normalized(sla)
    case Fail(e) => Fail(e)
    case Ok(fields) =>
      match Subscript(Obj(fields), "id")
      case Fail(e) => Fail(e)
      case Ok(id) =>
        if id.Str? then Ok((id.s, fields))
        else Raise(TypeError, "unsupported SLA id: '" + TypeName(id) + "'")
  }

  /** The SLAs by id, each as `file` files it, a later SLA with the same id
      replacing the earlier. */
  function Index(slas: seq<Json>, file: Json -> Result<(string, seq<(string, Json)>)>)
    : Result<seq<(string, Json)>>
  {
    if slas == [] then Ok([])
    else
      var n := |slas| - 1;
      match Index(slas[..n], file)
      case Fail(e) => Fail(e)
      case Ok(table) =>
        match file(slas[n])
        case Fail(e) => Fail(e)
        case Ok((id, fields)) => Ok(Set(table, id, Obj(fields)))
  }

  function ById(slas: seq<Json>): Result<seq<(string, Json)>>
  {
    Index(slas, Filed)
  }

  /** `get_snap_max_life_per_sla`, as intended: the SLAs by id, then the
      entry for unprotected objects, which never expire. */
  function MaxLifePerSla(slas: seq<Json>): Result<seq<(string, Json)>>
  {
    match ById(slas)
    case Fail(e) => Fail(e)
    case Ok(table) => Ok(Set(table, "UNPROTECTED", Unprotected))
  }

  /** `get_snap_max_life_per_sla` as written: the name of the retention key
      is bound inside the loop, so an empty SLA list reaches the last
      assignment with the name unbound. */
  function MaxLifePerSlaAsWritten(slas: seq<Json>): Result<seq<(string, Json)>>
  {
    if slas == [] then Raise(UnboundLocalError, UnboundFreqMax) else MaxLifePerSla(slas)
  }

  /** The retention `add_relevant_fields` reads for a snapshot: its SLA's
      entry in the table; a KeyError anywhere on the way (no `slaId`, an id
      the table lacks, an entry without the retention) means the SLA was
      deleted. */
  function RetentionFor(table: seq<(string, Json)>, snap: Json): Result<Json>
  {
    match Subscript(snap, "slaId")
    case Fail(e) => if e.kind == KeyError then Ok(Str(DeletedSla)) else Fail(e)
    case Ok(id) =>
      match id
      case Arr(_) => Raise(TypeError, "unhashable type: 'list'")
      case Obj(_) => Raise(TypeError, "unhashable type: 'dict'")
      case Str(s) =>
        (match Get(table, s)
         case None => Ok(Str(DeletedSla))
         case Some(entry) =>
           match Subscript(entry, FreqMax)
           case Fail(e) => if e.kind == KeyError then Ok(Str(DeletedSla)) else Fail(e)
           case Ok(m) => Ok(m))
      case _ => Ok(Str(DeletedSla))
  }

  /** `gen_expiry_estimate`: a retention naming FOREVER is the estimate
      itself; any other is added to the snapshot's date by `estimate` (date
      arithmetic, supplied by the caller). */
  function ExpiryEstimate(maxRetention: Json, date: Json, estimate: (Json, string) -> Result<string>)
    : Result<string>
  {
    match maxRetention
    case Str(s) => if Contains(s, Forever) then Ok(s) else estimate(date, s)
    case _ => Raise(TypeError, "argument of type '" + TypeName(maxRetention) + "' is not iterable")
  }

  // ---------------------------------------------------------------------
  // Properties

  /** The retention is stored as text under `frequency_max_retention`; every
      other field of the SLA is kept. */
  lemma NormalizedFields(sla: Json, k: string)
    requires Normalized(sla).Ok?
    ensures sla.Obj?
    ensures Get(Normalized(sla).value, FreqMax) == Some(Str(RetentionText(sla).value))
    ensures k != FreqMax ==> Get(Normalized(sla).value, k) == Get(sla.fields, k)
  {
    GetSet(sla.fields, FreqMax, Str(RetentionText(sla).value), FreqMax);
    GetSet(sla.fields, FreqMax, Str(RetentionText(sla).value), k);
  }

  /** A non-zero longest retention is its number of seconds; a zero one is
      the local retention limit. */
  lemma RetentionTextIs(sla: Json)
    requires RetentionText(sla).Ok?
    ensures var m := MaxRetention(Subscript(sla, "frequencies").value).value;
      RetentionText(sla).value
      == if m != 0 then IntToString(m) else PyStr(Subscript(sla, "maxLocalRetentionLimit").value)
  {
  }

  /** A table is built exactly when every SLA is filed. */
  lemma {:induction false} IndexFiled(slas: seq<Json>, file: Json -> Result<(string, seq<(string, Json)>)>, i: nat)
    requires Index(slas, file).Ok? && i < |slas|
    ensures file(slas[i]).Ok?
  {
    var n := |slas| - 1;
    if i < n {
      assert slas[..n][i] == slas[i];
      IndexFiled(slas[..n], file, i);
    }
  }

  /** The id an SLA is filed under is the string under its `id`. */
  lemma FiledId(sla: Json)
    requires Filed(sla).Ok?
    ensures Normalized(sla).Ok? && Filed(sla).value.1 == Normalized(sla).value
    ensures Get(Normalized(sla).value, "id") == Some(Str(Filed(sla).value.0))
  {
  }

  /** Each SLA is found under its id unless a later SLA has the same id. */
  lemma {:induction false} IndexFinds(slas: seq<Json>, file: Json -> Result<(string, seq<(string, Json)>)>, i: nat)
    requires Index(slas, file).Ok? && i < |slas|
    requires forall j :: i < j < |slas| ==> file(slas[j]).Ok? && file(slas[i]).Ok? ==> file(slas[j]).value.0 != file(slas[i]).value.0
    ensures file(slas[i]).Ok?
    ensures Get(Index(slas, file).value, file(slas[i]).value.0) == Some(Obj(file(slas[i]).value.1))
  {
    IndexFiled(slas, file, i);
    var n := |slas| - 1;
    IndexFiled(slas, file, n);
    var table := Index(slas[..n], file).value;
    var (id, fields) := file(slas[n]).value;
    GetSet(table, id, Obj(fields), file(slas[i]).value.0);
    if i < n {
      assert slas[..n][i] == slas[i];
      forall j | i < j < n
        ensures file(slas[..n][j]).Ok? && file(slas[..n][i]).Ok? ==> file(slas[..n][j]).value.0 != file(slas[..n][i]).value.0
      {
        assert slas[..n][j] == slas[j];
      }
      IndexFinds(slas[..n], file, i);
    }
  }

  /** Every key of the table is the id of some SLA. */
  lemma {:induction false} IndexKeys(slas: seq<Json>, file: Json -> Result<(string, seq<(string, Json)>)>, k: string)
    requires Index(slas, file).Ok? && HasKey(Index(slas, file).value, k)
    ensures exists i :: 0 <= i < |slas| && file(slas[i]).Ok? && file(slas[i]).value.0 == k
  {
    var n := |slas| - 1;
    IndexFiled(slas, file, n);
    var table := Index(slas[..n], file).value;
    var (id, fields) := file(slas[n]).value;
    GetSet(table, id, Obj(fields), k);
    if k != id {
      IndexKeys(slas[..n], file, k);
      var i :| 0 <= i < n && file(slas[..n][i]).Ok? && file(slas[..n][i]).value.0 == k;
      assert slas[..n][i] == slas[i];
    }
  }

  /** The table of SLAs: each SLA, normalized, under its id (unless a later
      one has the same id), and nothing but their ids. */
  lemma ByIdTable(slas: seq<Json>, i: nat, k: string)
    requires ById(slas).Ok? && i < |slas|
    requires forall j :: i < j < |slas| ==> Filed(slas[j]).Ok? && Filed(slas[i]).Ok? ==> Filed(slas[j]).value.0 != Filed(slas[i]).value.0
    ensures Filed(slas[i]).Ok?
    ensures Get(ById(slas).value, Filed(slas[i]).value.0) == Some(Obj(Normalized(slas[i]).value))
    ensures HasKey(ById(slas).value, k) ==> exists j :: 0 <= j < |slas| && Filed(slas[j]).Ok? && Filed(slas[j]).value.0 == k
  {
    IndexFinds(slas, Filed, i);
    FiledId(slas[i]);
    if HasKey(ById(slas).value, k) {
      IndexKeys(slas, Filed, k);
    }
  }

  /** Unprotected snapshots never expire: their retention reads FOREVER. */
  lemma UnprotectedNeverExpires(slas: seq<Json>, snap: Json)
    requires MaxLifePerSla(slas).Ok?
    requires snap.Obj? && Get(snap.fields, "slaId") == Some(Str("UNPROTECTED"))
    ensures RetentionFor(MaxLifePerSla(slas).value, snap) == Ok(Str(Forever))
  {
    var table := ById(slas).value;
    GetSet(table, "UNPROTECTED", Unprotected, "UNPROTECTED");
    assert Get(Unprotected.fields, FreqMax) == Some(Str(Forever));
  }

  /** A snapshot of an SLA the table does not know has the deleted-SLA
      retention, which never expires either. */
  lemma UnknownSla(table: seq<(string, Json)>, snap: Json, id: string)
    requires snap.Obj? && Get(snap.fields, "slaId") == Some(Str(id)) && !HasKey(table, id)
    ensures RetentionFor(table, snap) == Ok(Str(DeletedSla))
    ensures Contains(DeletedSla, Forever)
  {
    assert OccursAt(DeletedSla, Forever, 0);
    OccursContains(DeletedSla, Forever, 0);
  }

  /** A retention naming FOREVER is never turned into a date. */
  lemma ForeverIsKept(s: string, date: Json, estimate: (Json, string) -> Result<string>)
    requires Contains(s, Forever)
    ensures ExpiryEstimate(Str(s), date, estimate) == Ok(s)
  {
  }

  /** As written, an empty SLA list fails where the intended table holds the
      unprotected entry alone; on any other list the two agree. */
  lemma AsWrittenUnbound(slas: seq<Json>)
    ensures MaxLifePerSlaAsWritten([]) == Raise(UnboundLocalError, UnboundFreqMax)
    ensures MaxLifePerSla([]) == Ok([("UNPROTECTED", Unprotected)])
    ensures slas != [] ==> MaxLifePerSlaAsWritten(slas) == MaxLifePerSla(slas)
  {
  }

  // ---------------------------------------------------------------------
  // The script

  /** `get_snap_max_life_per_sla`: the loop that sets each SLA's retention
      and files it under its id. */
  method GetSnapMaxLifePerSla(slas: seq<Json>) returns (r: Result<seq<(string, Json)>>)
    ensures r == MaxLifePerSla(slas)
  {
    var slasDict: Result<seq<(string, Json)>> := Ok([]);
    for i := 0 to |slas|
      invariant slasDict == ById(slas[..i])
    {
      assert slas[..i + 1][..i] == slas[..i];
      if slasDict.Ok? {
        var sla := slas[i];
        var t := RetentionText(sla);
        if t.Fail? {
          slasDict := Fail(t.error);
        } else {
          var fields := Set(sla.fields, FreqMax, Str(t.value));
          var id := Subscript(Obj(fields), "id");
          if id.Fail? {
            slasDict := Fail(id.error);
          } else if !id.value.Str? {
            slasDict := Raise(TypeError, "unsupported SLA id: '" + TypeName(id.value) + "'");
          } else {
            assert Filed(sla) == Ok((id.value.s, fields));
            slasDict := Ok(Set(slasDict.value, id.value.s, Obj(fields)));
          }
        }
      }
    }
    assert slas[..|slas|] == slas;
    if slasDict.Fail? {
      return Fail(slasDict.error);
    }
    return Ok(Set(slasDict.value, "UNPROTECTED", Unprotected));
  }
}
