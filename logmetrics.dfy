/** `LogApiMetric` (scripts/default/log_api_metrics.py): the pieces of the
    spray-server log analysis that decide what a log line says — splitting a
    line into its fields, the thread before a thread, whether an API metric
    matches the search, which files of which folders are read, which user
    line is used and which threads are reported. Reading files, walking
    folders and calling the cluster are not part of this model. */
module LogApiMetrics {
  import opened Wrappers
  import opened Strings
  import opened Sorting
  import opened Json

  const OutOfRange: string := "list index out of range"

  // ---------------------------------------------------------------------
  // `parse_log_line`

  /** A log line as a record: its first four words, the rest of it joined by
      single spaces, and the line itself as the first of the logs kept. */
  datatype LogEvent = LogEvent(date: string, verbosity: string, thread: string,
                               logModule: string, message: string, logs: seq<string>)

  function ParseLogLine(line: string): Result<LogEvent>
  {
    var words := Words(line);
    if |words| < 4 then Raise(IndexError, OutOfRange)
    else Ok(LogEvent(words[0], words[1], words[2], words[3], Join(words[4..], " "), [line]))
  }

  /** A line written as words joined by spaces gives back its first four
      words, and its message splits back into the rest. */
  lemma ParseJoined(ws: seq<string>)
    requires |ws| >= 4 && forall w :: w in ws ==> |w| > 0 && NoSpace(w)
    ensures ParseLogLine(Join(ws, " ")).Ok?
    ensures var e := ParseLogLine(Join(ws, " ")).value;
      e.date == ws[0] && e.verbosity == ws[1] && e.thread == ws[2] && e.logModule == ws[3]
      && Words(e.message) == ws[4..] && e.logs == [Join(ws, " ")]
  {
    WordsJoin(ws);
    WordsJoin(ws[4..]);
  }

  /** A line of fewer than four words is refused. */
  lemma ParseShort(line: string)
    requires |Words(line)| < 4
    ensures ParseLogLine(line) == Raise(IndexError, OutOfRange)
  {
  }

  // ---------------------------------------------------------------------
  // The thread before a thread (`get_relevant_lines`)

  /** The `-`-separated pieces of a thread name without its angle brackets. */
  function ThreadParts(thread: string): (r: seq<string>)
    ensures |r| >= 1
  {
    Split(StripSet(StripSet(thread, {'<'}), {'>'}), "-")
  }

  /** The number at the end of a thread name; a last piece that is not a
      number is a ValueError. */
  function ThreadNumber(thread: string): Result<int>
  {
    var parts := ThreadParts(thread);
    ParseInt(parts[|parts| - 1])
  }

  /** The previous thread: the same pieces with the last one, a number,
      decremented, between angle brackets. */
  function PrevThread(thread: string): Result<string>
  {
    var parts := ThreadParts(thread);
    match ThreadNumber(thread)
    case Fail(e) => Fail(e)
    case Ok(v) => Ok("<" + Join(parts[..|parts| - 1] + [IntToString(v - 1)], "-") + ">")
  }

  lemma NonNegativeHasNoMinus(n: int)
    requires n >= 0
    ensures !Contains(IntToString(n), "-")
  {
    NatToStringDigits(n);
    ContainsChar(IntToString(n), '-');
  }

  lemma BracketInner(x: string)
    ensures var p := "<" + x + ">"; |p| >= 2 && p[0] == '<' && p[|p| - 1] == '>' && p[1..|p| - 1] == x
  {
  }

  /** For a thread numbered 1 or more, the previous thread keeps every piece
      of the name but the last, whose number is one less. */
  lemma PrevThreadDecrements(thread: string)
    requires ThreadNumber(thread).Ok? && ThreadNumber(thread).value >= 1
    ensures PrevThread(thread).Ok?
    ensures var parts := ThreadParts(thread);
      var n := |parts| - 1;
      var p := PrevThread(thread).value;
      |p| >= 2 && p[0] == '<' && p[|p| - 1] == '>'
      && |Split(p[1..|p| - 1], "-")| == |parts|
      && Split(p[1..|p| - 1], "-")[..n] == parts[..n]
      && ParseInt(Split(p[1..|p| - 1], "-")[n]) == Ok(ThreadNumber(thread).value - 1)
  {
    var parts := ThreadParts(thread);
    var n := |parts| - 1;
    var v := ThreadNumber(thread).value;
    var pieces := parts[..n] + [IntToString(v - 1)];
    assert PrevThread(thread).value == "<" + Join(pieces, "-") + ">";
    BracketInner(Join(pieces, "-"));
    SplitPiecesFree(StripSet(StripSet(thread, {'<'}), {'>'}), "-");
    DecrementedPieces(parts, v);
  }

  /** Joining the pieces with the last one replaced by a smaller natural
      number, then splitting, gives those pieces back. */
  lemma DecrementedPieces(parts: seq<string>, v: int)
    requires |parts| >= 1 && v >= 1 && forall q :: q in parts ==> !Contains(q, "-")
    ensures var pieces := parts[..|parts| - 1] + [IntToString(v - 1)];
      Split(Join(pieces, "-"), "-") == pieces && ParseInt(pieces[|parts| - 1]) == Ok(v - 1)
  {
    var pieces := parts[..|parts| - 1] + [IntToString(v - 1)];
    NonNegativeHasNoMinus(v - 1);
    forall q | q in pieces ensures !Contains(q, "-") {
      if q != IntToString(v - 1) {
        assert q in parts;
      }
    }
    SplitJoin(pieces, "-");
    IntToStringRoundTrip(v - 1);
  }

  // ---------------------------------------------------------------------
  // `is_desired_result`

  /** The substring test for a metric field the search names: the searched
      text must occur in the field's `str()`. */
  function Searched(search: seq<(string, Json)>, key: string, value: Json): Result<bool>
  {
    if !HasKey(search, key) then Ok(true)
    else
      match Get(search, key).value
      case Str(s) => Ok(Contains(PyStr(value), s))
      case x => Raise(TypeError, "'in <string>' requires string as left operand, not " + TypeName(x))
  }

  /** The duration bound `bound` of the search, if given, on the `duration`
      field: strictly above `min_dur`, strictly below `max_dur`. */
  function Bounded(search: seq<(string, Json)>, bound: string, key: string, value: Json): Result<bool>
  {
    if !(HasKey(search, bound) && key == "duration") then Ok(true)
    else
      match IntOf(value)
      case Fail(e) => Fail(e)
      case Ok(v) =>
        match IntOf(Get(search, bound).value)
        case Fail(e) => Fail(e)
        case Ok(b) => Ok(if bound == "min_dur" then v > b else v < b)
  }

  /** The three tests of one metric field, in order: the first that fails
      rejects the metric. */
  function Verdict(search: seq<(string, Json)>, key: string, value: Json): Result<bool>
  {
    match Searched(search, key, value)
    case Fail(e) => Fail(e)
    case Ok(false) => Ok(false)
    case Ok(true) =>
      match Bounded(search, "min_dur", key, value)
      case Fail(e) => Fail(e)
      case Ok(false) => Ok(false)
      case Ok(true) => Bounded(search, "max_dur", key, value)
  }

  /** The fields of a metric tested in order; an empty search accepts at the
      first field. */
  function DesiredIn(search: seq<(string, Json)>, fields: seq<(string, Json)>): Result<bool>
  {
    if fields == [] then Ok(true)
    else
      match Verdict(search, fields[0].0, fields[0].1)
      case Fail(e) => Fail(e)
      case Ok(false) => Ok(false)
      case Ok(true) => if search == [] then Ok(true) else DesiredIn(search, fields[1..])
  }

  /** `is_desired_result`: only a dictionary has items to test. */
  function Desired(search: seq<(string, Json)>, metric: Json): Result<bool>
  {
    if metric.Obj? then DesiredIn(search, metric.fields)
    else Raise(AttributeError, "'" + TypeName(metric) + "' object has no attribute 'items'")
  }

  /** A searched field passes exactly when the searched text occurs in its
      `str()`; a field not searched always passes. */
  lemma SearchedMeans(search: seq<(string, Json)>, key: string, value: Json)
    ensures Searched(search, key, value) == Ok(true) <==>
      (HasKey(search, key) ==> Get(search, key).value.Str? && Contains(PyStr(value), Get(search, key).value.s))
  {
  }

  /** A duration passes a bound given in the search exactly when it lies
      strictly beyond it: above `min_dur`, below `max_dur`. */
  lemma BoundedMeans(search: seq<(string, Json)>, bound: string, key: string, value: Json)
    ensures Bounded(search, bound, key, value) == Ok(true) <==>
      (HasKey(search, bound) && key == "duration" ==>
         IntOf(value).Ok? && IntOf(Get(search, bound).value).Ok?
         && if bound == "min_dur" then IntOf(value).value > IntOf(Get(search, bound).value).value
            else IntOf(value).value < IntOf(Get(search, bound).value).value)
  {
  }

  /** A field passes exactly when it passes the search test and both
      duration bounds. */
  lemma VerdictMeans(search: seq<(string, Json)>, key: string, value: Json)
    ensures Verdict(search, key, value) == Ok(true) <==>
      Searched(search, key, value) == Ok(true)
      && Bounded(search, "min_dur", key, value) == Ok(true)
      && Bounded(search, "max_dur", key, value) == Ok(true)
  {
  }

  /** An empty search has nothing to test. */
  lemma {:induction false} EmptySearch(key: string, value: Json)
    ensures Verdict([], key, value) == Ok(true)
  {
    assert !HasKey([], key) && !HasKey([], "min_dur") && !HasKey([], "max_dur");
  }

  /** A metric is accepted exactly when every one of its fields passes. */
  lemma {:induction false} DesiredAll(search: seq<(string, Json)>, fields: seq<(string, Json)>)
    ensures DesiredIn(search, fields) == Ok(true) <==>
      forall i :: 0 <= i < |fields| ==> Verdict(search, fields[i].0, fields[i].1) == Ok(true)
  {
    if fields != [] {
      if search == [] {
        forall i | 0 <= i < |fields| ensures Verdict(search, fields[i].0, fields[i].1) == Ok(true) {
          EmptySearch(fields[i].0, fields[i].1);
        }
      } else {
        DesiredAll(search, fields[1..]);
        if Verdict(search, fields[0].0, fields[0].1) == Ok(true) {
          assert forall i :: 1 <= i < |fields| ==> fields[1..][i - 1] == fields[i];
        }
      }
    }
  }

  // ---------------------------------------------------------------------
  // `get_log_files`

  /** The paths of a folder's files, leaving out `state`. */
  function Paths(folder: string, files: seq<string>): seq<string>
  {
    if files == [] then []
    else
      var n := |files| - 1;
      Paths(folder, files[..n]) + (if files[n] != "state" then [folder + "/" + files[n]] else [])
  }

  /** The log files of a node: those of every folder whose path contains the
      node id, in order. */
  function LogFiles(node: string, folders: seq<(string, seq<string>)>): seq<string>
  {
    if folders == [] then []
    else
      var n := |folders| - 1;
      LogFiles(node, folders[..n])
      + (if Contains(folders[n].0, node) then Paths(folders[n].0, folders[n].1) else [])
  }

  lemma {:induction false} PathsMembers(folder: string, files: seq<string>, p: string)
    ensures p in Paths(folder, files) <==>
      exists j :: 0 <= j < |files| && files[j] != "state" && p == folder + "/" + files[j]
  {
    if files != [] {
      var n := |files| - 1;
      PathsMembers(folder, files[..n], p);
      if exists j :: 0 <= j < n && files[..n][j] != "state" && p == folder + "/" + files[..n][j] {
        var j :| 0 <= j < n && files[..n][j] != "state" && p == folder + "/" + files[..n][j];
        assert files[j] != "state" && p == folder + "/" + files[j];
      }
      if exists j :: 0 <= j < |files| && files[j] != "state" && p == folder + "/" + files[j] {
        var j :| 0 <= j < |files| && files[j] != "state" && p == folder + "/" + files[j];
        if j < n {
          assert files[..n][j] == files[j];
        }
      }
    }
  }

  /** `p` is one of the files read from `folder` for the node. */
  predicate ReadFrom(node: string, folder: (string, seq<string>), p: string)
  {
    Contains(folder.0, node) && p in Paths(folder.0, folder.1)
  }

  /** A path is read for a node exactly when it is a non-`state` file of a
      folder whose path contains the node id. */
  lemma {:induction false} LogFilesMembers(node: string, folders: seq<(string, seq<string>)>, p: string)
    ensures p in LogFiles(node, folders) <==> exists i :: 0 <= i < |folders| && ReadFrom(node, folders[i], p)
  {
    if folders != [] {
      var n := |folders| - 1;
      LogFilesMembers(node, folders[..n], p);
      LogFilesSnoc(node, folders, p);
      SomeFolderSnoc(node, folders, p);
    }
  }

  lemma LogFilesSnoc(node: string, folders: seq<(string, seq<string>)>, p: string)
    requires folders != []
    ensures var n := |folders| - 1;
      p in LogFiles(node, folders) <==> p in LogFiles(node, folders[..n]) || ReadFrom(node, folders[n], p)
  {
  }

  lemma SomeFolderSnoc(node: string, folders: seq<(string, seq<string>)>, p: string)
    requires folders != []
    ensures var n := |folders| - 1;
      (exists i :: 0 <= i < |folders| && ReadFrom(node, folders[i], p))
      <==> (exists i :: 0 <= i < n && ReadFrom(node, folders[..n][i], p)) || ReadFrom(node, folders[n], p)
  {
    var n := |folders| - 1;
    if exists i :: 0 <= i < n && ReadFrom(node, folders[..n][i], p) {
      var i :| 0 <= i < n && ReadFrom(node, folders[..n][i], p);
      assert folders[..n][i] == folders[i];
    }
    if exists i :: 0 <= i < |folders| && ReadFrom(node, folders[i], p) {
      var i :| 0 <= i < |folders| && ReadFrom(node, folders[i], p);
      if i < n {
        assert folders[..n][i] == folders[i];
      }
    }
  }

  /** `get_log_files`: the loops over the folders and their files. */
  method GetLogFiles(node: string, folders: seq<(string, seq<string>)>) returns (logFiles: seq<string>)
    ensures logFiles == LogFiles(node, folders)
  {
    logFiles := [];
    for i := 0 to |folders|
      invariant logFiles == LogFiles(node, folders[..i])
    {
      assert folders[..i + 1][..i] == folders[..i];
      var (folder, files) := folders[i];
      if Contains(folder, node) {
        ghost var before := logFiles;
        for k := 0 to |files|
          invariant logFiles == before + Paths(folder, files[..k])
        {
          assert files[..k + 1][..k] == files[..k];
          if files[k] != "state" {
            logFiles := logFiles + [folder + "/" + files[k]];
          }
        }
        assert files[..|files|] == files;
      }
    }
    assert folders[..|folders|] == folders;
  }

  // ---------------------------------------------------------------------
  // `resolve_user` and `sort_threads`

  /** The user line `resolve_user` hands on: the last of several, the only
      one, or none. */
  function UserLine(lines: seq<string>): string
  {
    if |lines| > 1 then lines[|lines| - 1]
    else if |lines| == 0 then ""
    else lines[0]
  }

  /** Whatever the number of user lines, the last one is used. */
  lemma LastUserLine(lines: seq<string>)
    ensures UserLine(lines) == if lines == [] then "" else lines[|lines| - 1]
  {
  }

  /** The thread occurs in one of the first `k` logs. */
  predicate InLogs(thread: string, logs: seq<string>, k: nat)
    requires k <= |logs|
  {
    exists j :: 0 <= j < k && Contains(logs[j], thread)
  }

  /** The threads that occur in some log. */
  function Found(threads: seq<string>, logs: seq<string>): set<string>
  {
    set t | t in threads && InLogs(t, logs, |logs|)
  }

  /** `sort_threads`: the threads met in some log, sorted, each once. */
  method SortThreads(threads: seq<string>, logs: seq<string>) returns (r: seq<string>)
    ensures StrictlySorted(r) && Elems(r) == Found(threads, logs)
  {
    var finalThreads: seq<string> := [];
    for i := 0 to |threads|
      invariant Elems(finalThreads) == Found(threads[..i], logs)
    {
      var thread := threads[i];
      ghost var before := finalThreads;
      for k := 0 to |logs|
        invariant Elems(finalThreads) == Elems(before) + (if InLogs(thread, logs, k) then {thread} else {})
      {
        if Contains(logs[k], thread) {
          finalThreads := finalThreads + [thread];
        }
        assert InLogs(thread, logs, k + 1) <==> InLogs(thread, logs, k) || Contains(logs[k], thread);
      }
      assert threads[..i + 1] == threads[..i] + [thread];
      assert Found(threads[..i + 1], logs)
             == Found(threads[..i], logs) + (if InLogs(thread, logs, |logs|) then {thread} else {});
    }
    assert threads[..|threads|] == threads;
    r := SortUnique(finalThreads);
  }

  // ---------------------------------------------------------------------
  // `parse_principal`

  const CheckingPrincipal: string := "Checking principal:"
  const ContextForPrincipal: string := "ContextForPrincipal"
  const NoUser: string := "NO_USER_FOUND_IN_LOGS"

  /** The user id of a principal line and the threads afterwards: a checking
      line names `User:::` and its last word, a context line its third word
      from the end, each remembered for the thread in its third word; any
      other line takes the id remembered for the last of `thread` that has
      one. */
  function Principal(threads: map<string, string>, line: string, thread: seq<string>)
    : Result<(string, map<string, string>)>
  {
    var user := Words(line);
    if Contains(line, CheckingPrincipal) then
      if |user| < 3 then Raise(IndexError, OutOfRange)
      else
        var id := "User:::" + user[|user| - 1];
        Ok((id, threads[user[2] := id]))
    else if Contains(line, ContextForPrincipal) then
      if |user| < 3 then Raise(IndexError, OutOfRange)
      else
        var id := user[|user| - 3];
        Ok((id, threads[user[2] := id]))
    else Ok((Remembered(threads, thread), threads))
  }

  /** The id remembered for the last thread of `thread` that has one. */
  function Remembered(threads: map<string, string>, thread: seq<string>): string
  {
    if thread == [] then NoUser
    else
      var n := |thread| - 1;
      if thread[n] in threads then threads[thread[n]] else Remembered(threads, thread[..n])
  }

  /** The id found is the one remembered for the last thread that has
      one. */
  lemma {:induction false} RememberedLast(threads: map<string, string>, thread: seq<string>, i: nat)
    requires i < |thread| && thread[i] in threads
    requires forall j :: i < j < |thread| ==> thread[j] !in threads
    ensures Remembered(threads, thread) == threads[thread[i]]
  {
    var n := |thread| - 1;
    if i < n {
      assert forall j :: i < j < n ==> thread[..n][j] == thread[j];
      RememberedLast(threads, thread[..n], i);
    }
  }

  /** Without a remembered thread no user is found. */
  lemma {:induction false} RememberedNone(threads: map<string, string>, thread: seq<string>)
    requires forall j :: 0 <= j < |thread| ==> thread[j] !in threads
    ensures Remembered(threads, thread) == NoUser
  {
    if thread != [] {
      var n := |thread| - 1;
      assert forall j :: 0 <= j < n ==> thread[..n][j] == thread[j];
      RememberedNone(threads, thread[..n]);
    }
  }

  /** The first part of `parse_principal` on the thread map as a value: the
      user id of the line and the map with the line's thread remembered. */
  method PrincipalIn(threads: map<string, string>, line: string, thread: seq<string>)
    returns (r: Result<(string, map<string, string>)>)
    ensures r == Principal(threads, line, thread)
  {
    var user := Words(line);
    if Contains(line, CheckingPrincipal) {
      if |user| < 3 {
        return Raise(IndexError, OutOfRange);
      }
      var id := "User:::" + user[|user| - 1];
      return Ok((id, threads[user[2] := id]));
    } else if Contains(line, ContextForPrincipal) {
      if |user| < 3 {
        return Raise(IndexError, OutOfRange);
      }
      var id := user[|user| - 3];
      return Ok((id, threads[user[2] := id]));
    }
    var id := RememberedOf(threads, thread);
    return Ok((id, threads));
  }

  /** The loop of `parse_principal` over the line's threads: the last one
      with a remembered id gives it. */
  method RememberedOf(threads: map<string, string>, thread: seq<string>) returns (id: string)
    ensures id == Remembered(threads, thread)
  {
    id := NoUser;
    for i := 0 to |thread|
      invariant id == Remembered(threads, thread[..i])
    {
      assert thread[..i + 1][..i] == thread[..i];
      if thread[i] in threads {
        id := threads[thread[i]];
      }
    }
    assert thread[..|thread|] == thread;
  }

  /** The user name for an id: that of the first user whose `id` is it, or
      the id itself. */
  function UserName(users: seq<Json>, id: string): Result<Json>
  {
    if users == [] then Ok(Str(id))
    else
      match Subscript(users[0], "id")
      case Fail(e) => Fail(e)
      case Ok(uid) =>
        if uid == Str(id) then Subscript(users[0], "username") else UserName(users[1..], id)
  }

  /** A principal line is remembered for its thread: a later line without a
      principal, on that thread, finds the same id. */
  lemma PrincipalRemembered(threads: map<string, string>, line: string, thread: seq<string>, later: string)
    requires Contains(line, CheckingPrincipal) || Contains(line, ContextForPrincipal)
    requires Principal(threads, line, thread).Ok?
    requires !Contains(later, CheckingPrincipal) && !Contains(later, ContextForPrincipal)
    ensures var (id, after) := Principal(threads, line, thread).value;
      Principal(after, later, [Words(line)[2]]) == Ok((id, after))
  {
    var after := Principal(threads, line, thread).value.1;
    assert [Words(line)[2]][..0] == [];
  }

  /** A user whose `id` is the one found gives its name, when no user before
      it has that id. */
  lemma {:induction false} UserNameFirst(users: seq<Json>, id: string, i: nat)
    requires i < |users| && Subscript(users[i], "id") == Ok(Str(id))
    requires forall j :: 0 <= j < i ==> Subscript(users[j], "id").Ok? && Subscript(users[j], "id") != Ok(Str(id))
    ensures UserName(users, id) == Subscript(users[i], "username")
  {
    if i > 0 {
      assert forall j :: 0 <= j < i - 1 ==> users[1..][j] == users[j + 1];
      UserNameFirst(users[1..], id, i - 1);
    }
  }

  /** The state of the analysis the model keeps: the search parameters, the
      user id remembered for each thread, and the cluster's users. */
  class ApiMetric {
    var search: seq<(string, Json)>
    var threads: map<string, string>
    var users: seq<Json>

    constructor (search: seq<(string, Json)>, users: seq<Json>)
      ensures this.search == search && this.users == users && threads == map[]
    {
      this.search := search;
      this.users := users;
      threads := map[];
    }

    /** `is_desired_result`: the loop over the metric's fields. */
    method IsDesiredResult(metric: Json) returns (r: Result<bool>)
      ensures r == Desired(search, metric)
    {
      if !metric.Obj? {
        return Raise(AttributeError, "'" + TypeName(metric) + "' object has no attribute 'items'");
      }
      var fields := metric.fields;
      for i := 0 to |fields|
        invariant DesiredIn(search, fields) == DesiredIn(search, fields[i..])
      {
        assert fields[i..][0] == fields[i] && fields[i..][1..] == fields[i + 1..];
        var (key, value) := fields[i];
        var searched := Searched(search, key, value);
        if searched.Fail? {
          return Fail(searched.error);
        }
        if !searched.value {
          return Ok(false);
        }
        var above := Bounded(search, "min_dur", key, value);
        if above.Fail? {
          return Fail(above.error);
        }
        if !above.value {
          return Ok(false);
        }
        var below := Bounded(search, "max_dur", key, value);
        if below.Fail? {
          return Fail(below.error);
        }
        if !below.value {
          return Ok(false);
        }
        if search == [] {
          return Ok(true);
        }
      }
      return Ok(true);
    }

    /** `parse_principal`: the user name and id for a line, remembering the
        id for the line's thread. */
    method ParsePrincipal(line: string, thread: seq<string>) returns (r: Result<(Json, string)>)
      modifies this
      ensures var p := Principal(old(threads), line, thread);
        if p.Fail? then r == Fail(p.error) && threads == old(threads)
        else threads == p.value.1
             && match UserName(users, p.value.0)
                case Fail(e) => r == Fail(e)
                case Ok(name) => r == Ok((name, p.value.0))
      ensures search == old(search) && users == old(users)
    {
      var id := PrincipalOf(line, thread);
      if id.Fail? {
        return Fail(id.error);
      }
      var name := UserNameOf(id.value);
      if name.Fail? {
        return Fail(name.error);
      }
      return Ok((name.value, id.value));
    }

    /** The first part of `parse_principal`: the user id of the line, and the
        id remembered for the line's thread. */
    method PrincipalOf(line: string, thread: seq<string>) returns (r: Result<string>)
      modifies this
      ensures var p := Principal(old(threads), line, thread);
        (p.Fail? ==> r == Fail(p.error) && threads == old(threads))
        && (p.Ok? ==> r == Ok(p.value.0) && threads == p.value.1)
      ensures search == old(search) && users == old(users)
    {
      var p := PrincipalIn(threads, line, thread);
      if p.Fail? {
        return Fail(p.error);
      }
      threads := p.value.1;
      return Ok(p.value.0);
    }

    /** The loop of `parse_principal` over the cluster's users. */
    method UserNameOf(id: string) returns (r: Result<Json>)
      ensures r == UserName(users, id)
    {
      for i := 0 to |users|
        invariant UserName(users, id) == UserName(users[i..], id)
      {
        assert users[i..][0] == users[i] && users[i..][1..] == users[i + 1..];
        var uid := Subscript(users[i], "id");
        if uid.Fail? {
          return Fail(uid.error);
        }
        if uid.value == Str(id) {
          return Subscript(users[i], "username");
        }
      }
      return Ok(Str(id));
    }
  }
}
