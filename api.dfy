/** The API layer (`rbkcli/base/api.py`): the list of every path and method
    of an API document, the authorization lists of the user profiles built
    from it, the check of a request against the authorized list, and the URL
    and headers of a request with its fallback from a token to a username. */
module Api {
  import opened Wrappers
  import opened Strings
  import opened Json
  import opened Lists
  import opened Sorting
  import Base64
  import Inputs

  // ---------------------------------------------------------------------
  // The list of all methods

  /** The tag of a line whose method documentation does not hold the phrase. */
  const NoTag: string := "NA"

  /** The phrase `gen_authorization_lists` looks for in the summaries. */
  const SupportPhrase: string := "REQUIRES SUPPORT TOKEN"

  /** What `_create_all_methods_list` is asked for: the API version of the
      handler, the documentation field to look in and the phrase to find. */
  datatype Listing = Listing(version: string, field: string, phrase: string)

  /** `'%s:%s:%s:%s' % (version, endpoint, method, tag)`. */
  function Line(version: string, path: string, verb: string, tag: string): string
  {
    version + ":" + path + ":" + verb + ":" + tag
  }

  /** The tag of a line whose documentation holds the phrase: the phrase with
      underscores for spaces. */
  function TagOf(phrase: string): string
  {
    Replace(phrase, " ", "_")
  }

  /** Python `text in value` for a documentation value: a substring of a
      string, an element of a list, a key of a dictionary; any other value
      is not iterable. */
  function Holds(value: Json, text: string): (r: Result<bool>)
    ensures r.Fail? <==> !(value.Str? || value.Arr? || value.Obj?)
    ensures value.Str? ==> r == Ok(Contains(value.s, text))
  {
    match value
    case Str(s) => Ok(Contains(s, text))
    case Arr(items) => Ok(Str(text) in items)
    case Obj(fields) => Ok(HasKey(fields, text))
    case _ => Raise(TypeError, "argument of type '" + TypeName(value) + "' is not iterable")
  }

  /** The error of `.items()` on a value that is not a dictionary. */
  function NoItems<T>(value: Json): Result<T>
  {
    Raise(AttributeError, "'" + TypeName(value) + "' object has no attribute 'items'")
  }

  /** One documentation field of a method: when it is the field looked for
      and holds the phrase, the method's `NA` line is removed and the tagged
      line appended. */
  function DocStep(acc: seq<string>, na: string, tagged: string, l: Listing, doc: (string, Json))
    : Result<seq<string>>
  {
    if doc.0 != l.field then Ok(acc)
    else
      match Holds(doc.1, l.phrase)
      case Fail(e) => Fail(e)
      case Ok(found) =>
        if !found then Ok(acc)
        else if na in acc then Ok(RemoveFirst(acc, na) + [tagged])
        else Raise(ValueError, "list.remove(x): x not in list")
  }

  /** The loop over the documentation fields of one method. */
  function DocsFold(acc: seq<string>, na: string, tagged: string, l: Listing, docs: seq<(string, Json)>)
    : Result<seq<string>>
  {
    if docs == [] then Ok(acc)
    else
      match DocsFold(acc, na, tagged, l, docs[..|docs| - 1])
      case Fail(e) => Fail(e)
      case Ok(a) => DocStep(a, na, tagged, l, docs[|docs| - 1])
  }

  /** One method of a path: its `NA` line, then its documentation fields. */
  function MethodStep(acc: seq<string>, l: Listing, path: string, m: (string, Json)): Result<seq<string>>
  {
    var na := Line(l.version, path, m.0, NoTag);
    if !m.1.Obj? then NoItems(m.1)
    else DocsFold(acc + [na], na, Line(l.version, path, m.0, TagOf(l.phrase)), l, m.1.fields)
  }

  /** The loop over the methods of one path. */
  function MethodsFold(acc: seq<string>, l: Listing, path: string, methods: seq<(string, Json)>)
    : Result<seq<string>>
  {
    if methods == [] then Ok(acc)
    else
      match MethodsFold(acc, l, path, methods[..|methods| - 1])
      case Fail(e) => Fail(e)
      case Ok(a) => MethodStep(a, l, path, methods[|methods| - 1])
  }

  /** One path of the document: the loop over its methods. */
  function PathStep(acc: seq<string>, l: Listing, p: (string, Json)): Result<seq<string>>
  {
    if !p.1.Obj? then NoItems(p.1) else MethodsFold(acc, l, p.0, p.1.fields)
  }

  /** The loop over the paths of the document. */
  function PathsFold(acc: seq<string>, l: Listing, paths: seq<(string, Json)>): Result<seq<string>>
  {
    if paths == [] then Ok(acc)
    else
      match PathsFold(acc, l, paths[..|paths| - 1])
      case Fail(e) => Fail(e)
      case Ok(a) => PathStep(a, l, paths[|paths| - 1])
  }

  /** `_create_all_methods_list` over the document kept by the handler. */
  function AllMethods(l: Listing, endpoints: seq<(string, Json)>): Result<seq<string>>
  {
    match Get(endpoints, "paths")
    case None => Raise(KeyError, "'paths'")
    case Some(paths) => if !paths.Obj? then NoItems(paths) else PathsFold([], l, paths.fields)
  }

  // What the list holds for a well-formed document.

  /** Some documentation field of a method is the field looked for and holds
      the phrase. */
  predicate Tagged(l: Listing, docs: seq<(string, Json)>)
  {
    exists i :: 0 <= i < |docs| && docs[i].0 == l.field && Holds(docs[i].1, l.phrase) == Ok(true)
  }

  /** The line of one method. */
  function MethodLine(l: Listing, path: string, m: (string, Json)): string
  {
    Line(l.version, path, m.0, if m.1.Obj? && Tagged(l, m.1.fields) then TagOf(l.phrase) else NoTag)
  }

  /** The lines of the methods of one path, in document order. */
  function PathLines(l: Listing, path: string, methods: seq<(string, Json)>): seq<string>
  {
    if methods == [] then []
    else PathLines(l, path, methods[..|methods| - 1]) + [MethodLine(l, path, methods[|methods| - 1])]
  }

  /** The lines of every path, in document order. */
  function DocumentLines(l: Listing, paths: seq<(string, Json)>): seq<string>
  {
    if paths == [] then []
    else
      var p := paths[|paths| - 1];
      DocumentLines(l, paths[..|paths| - 1]) + (if p.1.Obj? then PathLines(l, p.0, p.1.fields) else [])
  }

  /** The documentation of a method: a dictionary whose field looked for, if
      present, can be searched. */
  predicate MethodDoc(l: Listing, doc: Json)
  {
    doc.Obj? && UniqueKeys(doc.fields)
    && forall i :: 0 <= i < |doc.fields| && doc.fields[i].0 == l.field ==>
         (doc.fields[i].1.Str? || doc.fields[i].1.Arr? || doc.fields[i].1.Obj?)
  }

  /** The methods of a path: a dictionary of method documentations whose
      names have no colon. */
  predicate PathDoc(l: Listing, doc: Json)
  {
    doc.Obj? && UniqueKeys(doc.fields)
    && forall i :: 0 <= i < |doc.fields| ==> ':' !in doc.fields[i].0 && MethodDoc(l, doc.fields[i].1)
  }

  /** The paths of a document as the API publishes them: unique paths without
      colons, each with its methods. */
  predicate PathsDoc(l: Listing, paths: seq<(string, Json)>)
  {
    ':' !in l.version && UniqueKeys(paths)
    && forall i :: 0 <= i < |paths| ==> ':' !in paths[i].0 && PathDoc(l, paths[i].1)
  }

  /** The first three parts of a line come back from splitting it on colons. */
  lemma LineSplit(v: string, p: string, m: string, t: string)
    requires ':' !in v && ':' !in p && ':' !in m
    ensures Split(Line(v, p, m, t), ":") == [v, p, m] + Split(t, ":")
  {
    var tail := m + ":" + t;
    var rest := p + ":" + tail;
    assert Line(v, p, m, t) == v + ":" + rest;
    SplitFirst(m, ":", t);
    SplitFirst(p, ":", tail);
    SplitFirst(v, ":", rest);
    Prepend3(v, p, m, Split(t, ":"));
  }

  lemma Prepend3<T>(a: T, b: T, c: T, xs: seq<T>)
    ensures [a] + ([b] + ([c] + xs)) == [a, b, c] + xs
  {
  }

  /** Lines of one version are equal only for the same path and method. */
  lemma LineDistinct(v: string, p: string, m: string, t: string, p2: string, m2: string, t2: string)
    requires ':' !in v && ':' !in p && ':' !in m && ':' !in p2 && ':' !in m2
    requires Line(v, p, m, t) == Line(v, p2, m2, t2)
    ensures p == p2 && m == m2
  {
    LineSplit(v, p, m, t);
    LineSplit(v, p2, m2, t2);
    assert ([v, p, m] + Split(t, ":"))[1] == p && ([v, p, m] + Split(t, ":"))[2] == m;
    assert ([v, p2, m2] + Split(t2, ":"))[1] == p2 && ([v, p2, m2] + Split(t2, ":"))[2] == m2;
  }

  /** The `NA` line of a method is none of the lines of another path, nor of
      the other methods of its path. */
  lemma {:induction false} NotInPath(l: Listing, p: string, m: string, path: string, methods: seq<(string, Json)>)
    requires ':' !in l.version && ':' !in p && ':' !in m && ':' !in path
    requires forall i :: 0 <= i < |methods| ==> ':' !in methods[i].0
    requires p != path || forall i :: 0 <= i < |methods| ==> methods[i].0 != m
    ensures Line(l.version, p, m, NoTag) !in PathLines(l, path, methods)
  {
    if methods != [] {
      var last := methods[|methods| - 1];
      NotInPath(l, p, m, path, methods[..|methods| - 1]);
      if Line(l.version, p, m, NoTag) == MethodLine(l, path, last) {
        LineDistinct(l.version, p, m, NoTag, path, last.0,
          if last.1.Obj? && Tagged(l, last.1.fields) then TagOf(l.phrase) else NoTag);
      }
    }
  }

  /** The `NA` line of a method of a path is none of the lines of the other paths. */
  lemma {:induction false} NotInDocument(l: Listing, p: string, m: string, paths: seq<(string, Json)>)
    requires ':' !in l.version && ':' !in p && ':' !in m
    requires forall i :: 0 <= i < |paths| ==> ':' !in paths[i].0 && PathDoc(l, paths[i].1) && paths[i].0 != p
    ensures Line(l.version, p, m, NoTag) !in DocumentLines(l, paths)
  {
    if paths != [] {
      var last := paths[|paths| - 1];
      NotInDocument(l, p, m, paths[..|paths| - 1]);
      NotInPath(l, p, m, last.0, last.1.fields);
    }
  }

  /** The fields of one method turn its freshly appended `NA` line into the
      tagged line exactly when the phrase is found. */
  lemma {:induction false} DocsLine(acc: seq<string>, na: string, tagged: string, l: Listing,
                                    docs: seq<(string, Json)>)
    requires na !in acc && UniqueKeys(docs)
    requires forall i :: 0 <= i < |docs| && docs[i].0 == l.field ==>
               (docs[i].1.Str? || docs[i].1.Arr? || docs[i].1.Obj?)
    ensures DocsFold(acc + [na], na, tagged, l, docs) == Ok(acc + [if Tagged(l, docs) then tagged else na])
  {
    if docs != [] {
      var n := |docs| - 1;
      var init, last := docs[..n], docs[n];
      DocsLine(acc, na, tagged, l, init);
      if last.0 == l.field && Holds(last.1, l.phrase) == Ok(true) {
        assert !Tagged(l, init) by {
          forall i | 0 <= i < n ensures init[i].0 != l.field {
            assert init[i] == docs[i];
          }
        }
        RemoveFirstAppend(acc, na);
        assert Tagged(l, docs) by { assert docs[n].0 == l.field; }
      } else {
        assert Tagged(l, docs) <==> Tagged(l, init) by {
          if Tagged(l, docs) {
            var i :| 0 <= i < |docs| && docs[i].0 == l.field && Holds(docs[i].1, l.phrase) == Ok(true);
            assert i < n && init[i] == docs[i];
          }
          if Tagged(l, init) {
            var i :| 0 <= i < |init| && init[i].0 == l.field && Holds(init[i].1, l.phrase) == Ok(true);
            assert docs[i] == init[i];
          }
        }
      }
    }
  }

  /** The methods of one path add their lines in order. */
  lemma {:induction false} MethodsLines(acc: seq<string>, l: Listing, path: string, methods: seq<(string, Json)>)
    requires ':' !in l.version && ':' !in path && PathDoc(l, Obj(methods))
    requires forall i :: 0 <= i < |methods| ==> Line(l.version, path, methods[i].0, NoTag) !in acc
    ensures MethodsFold(acc, l, path, methods) == Ok(acc + PathLines(l, path, methods))
  {
    if methods != [] {
      var n := |methods| - 1;
      var init, last := methods[..n], methods[n];
      assert PathDoc(l, Obj(init)) by {
        forall i | 0 <= i < |init| ensures init[i] == methods[i] { }
      }
      MethodsLines(acc, l, path, init);
      var na := Line(l.version, path, last.0, NoTag);
      assert na !in PathLines(l, path, init) by {
        forall i | 0 <= i < |init| ensures init[i].0 != last.0 && ':' !in init[i].0 {
          assert init[i] == methods[i];
        }
        NotInPath(l, path, last.0, path, init);
      }
      assert MethodDoc(l, last.1) by { assert last == methods[n]; }
      assert na !in acc by { assert methods[n] == last; }
      var tagged := Line(l.version, path, last.0, TagOf(l.phrase));
      DocsLine(acc + PathLines(l, path, init), na, tagged, l, last.1.fields);
      assert (if Tagged(l, last.1.fields) then tagged else na) == MethodLine(l, path, last);
      assert acc + PathLines(l, path, init) + [MethodLine(l, path, last)]
          == acc + PathLines(l, path, methods);
    } else {
      assert acc + [] == acc;
    }
  }

  /** For a well-formed document the list holds one line per path and method,
      in document order: `version:path:method:NA`, or the tag of the phrase
      when the method's field looked for holds it. */
  lemma {:induction false} DocumentList(l: Listing, paths: seq<(string, Json)>)
    requires PathsDoc(l, paths)
    ensures PathsFold([], l, paths) == Ok(DocumentLines(l, paths))
  {
    if paths != [] {
      var n := |paths| - 1;
      var init, last := paths[..n], paths[n];
      assert PathsDoc(l, init) by {
        forall i | 0 <= i < |init| ensures init[i] == paths[i] { }
      }
      DocumentList(l, init);
      forall i | 0 <= i < |last.1.fields|
        ensures Line(l.version, last.0, last.1.fields[i].0, NoTag) !in DocumentLines(l, init)
      {
        forall k | 0 <= k < |init| ensures init[k].0 != last.0 {
          assert init[k] == paths[k];
        }
        NotInDocument(l, last.0, last.1.fields[i].0, init);
      }
      MethodsLines(DocumentLines(l, init), l, last.0, last.1.fields);
    }
  }

  /** Once a prefix of the documentation fields fails, the whole loop fails
      with the same error. */
  lemma {:induction false} DocsFoldFails(acc: seq<string>, na: string, tagged: string, l: Listing,
                                         docs: seq<(string, Json)>, i: nat)
    requires i <= |docs| && DocsFold(acc, na, tagged, l, docs[..i]).Fail?
    ensures DocsFold(acc, na, tagged, l, docs) == DocsFold(acc, na, tagged, l, docs[..i])
    decreases |docs| - i
  {
    if i < |docs| {
      assert docs[..i + 1][..i] == docs[..i];
      DocsFoldFails(acc, na, tagged, l, docs, i + 1);
    } else {
      assert docs[..i] == docs;
    }
  }

  lemma {:induction false} MethodsFoldFails(acc: seq<string>, l: Listing, path: string,
                                            methods: seq<(string, Json)>, i: nat)
    requires i <= |methods| && MethodsFold(acc, l, path, methods[..i]).Fail?
    ensures MethodsFold(acc, l, path, methods) == MethodsFold(acc, l, path, methods[..i])
    decreases |methods| - i
  {
    if i < |methods| {
      assert methods[..i + 1][..i] == methods[..i];
      MethodsFoldFails(acc, l, path, methods, i + 1);
    } else {
      assert methods[..i] == methods;
    }
  }

  lemma {:induction false} PathsFoldFails(acc: seq<string>, l: Listing, paths: seq<(string, Json)>, i: nat)
    requires i <= |paths| && PathsFold(acc, l, paths[..i]).Fail?
    ensures PathsFold(acc, l, paths) == PathsFold(acc, l, paths[..i])
    decreases |paths| - i
  {
    if i < |paths| {
      assert paths[..i + 1][..i] == paths[..i];
      PathsFoldFails(acc, l, paths, i + 1);
    } else {
      assert paths[..i] == paths;
    }
  }

  /** The innermost loop of `_create_all_methods_list`: the documentation
      fields of one method. */
  method AddDocs(acc: seq<string>, na: string, tagged: string, l: Listing, docs: seq<(string, Json)>)
    returns (r: Result<seq<string>>)
    ensures r == DocsFold(acc, na, tagged, l, docs)
  {
    var list := acc;
    var i := 0;
    while i < |docs|
      invariant 0 <= i <= |docs|
      invariant DocsFold(acc, na, tagged, l, docs[..i]) == Ok(list)
    {
      assert docs[..i + 1][..i] == docs[..i];
      var doc := docs[i];
      if doc.0 == l.field {
        var found := Holds(doc.1, l.phrase);
        if found.Fail? {
          DocsFoldFails(acc, na, tagged, l, docs, i + 1);
          return Fail(found.error);
        }
        if found.value {
          if na !in list {
            DocsFoldFails(acc, na, tagged, l, docs, i + 1);
            return Raise(ValueError, "list.remove(x): x not in list");
          }
          list := RemoveFirst(list, na) + [tagged];
        }
      }
      i := i + 1;
    }
    assert docs[..i] == docs;
    return Ok(list);
  }

  /** The middle loop: the methods of one path. */
  method AddMethods(acc: seq<string>, l: Listing, path: string, methods: seq<(string, Json)>)
    returns (r: Result<seq<string>>)
    ensures r == MethodsFold(acc, l, path, methods)
  {
    var list := acc;
    var i := 0;
    while i < |methods|
      invariant 0 <= i <= |methods|
      invariant MethodsFold(acc, l, path, methods[..i]) == Ok(list)
    {
      assert methods[..i + 1][..i] == methods[..i];
      var m := methods[i];
      var na := Line(l.version, path, m.0, NoTag);
      list := list + [na];
      if !m.1.Obj? {
        MethodsFoldFails(acc, l, path, methods, i + 1);
        return NoItems(m.1);
      }
      var d := AddDocs(list, na, Line(l.version, path, m.0, TagOf(l.phrase)), l, m.1.fields);
      if d.Fail? {
        MethodsFoldFails(acc, l, path, methods, i + 1);
        return d;
      }
      list := d.value;
      i := i + 1;
    }
    assert methods[..i] == methods;
    return Ok(list);
  }

  /** The outer loop: the paths of the document. */
  method AddPaths(l: Listing, paths: seq<(string, Json)>) returns (r: Result<seq<string>>)
    ensures r == PathsFold([], l, paths)
  {
    var list := [];
    var i := 0;
    while i < |paths|
      invariant 0 <= i <= |paths|
      invariant PathsFold([], l, paths[..i]) == Ok(list)
    {
      assert paths[..i + 1][..i] == paths[..i];
      var p := paths[i];
      if !p.1.Obj? {
        PathsFoldFails([], l, paths, i + 1);
        return NoItems(p.1);
      }
      var m := AddMethods(list, l, p.0, p.1.fields);
      if m.Fail? {
        PathsFoldFails([], l, paths, i + 1);
        return m;
      }
      list := m.value;
      i := i + 1;
    }
    assert paths[..i] == paths;
    return Ok(list);
  }

  // ---------------------------------------------------------------------
  // Authorization lists

  /** The user profiles, in the order the lists are built. */
  const UsersProfile: seq<string> := ["dev", "admin", "support"]

  /** The methods each profile may use: `get` for `admin`, every supported
      method for `dev` and `support`. */
  function UserMethods(user: string): seq<string>
  {
    if user == "admin" then ["get"] else Inputs.SupportedMethods
  }

  /** The tag a line of the profile must carry: `NA` for `admin`, none for the others. */
  function Requirement(user: string): string
  {
    if user == "admin" then NoTag else ""
  }

  /** The lines that contain a pattern, in order. */
  function Matching(lines: seq<string>, pattern: string): (r: seq<string>)
    ensures forall x :: x in r <==> x in lines && Contains(x, pattern)
  {
    if lines == [] then []
    else
      var last := lines[|lines| - 1];
      Matching(lines[..|lines| - 1], pattern) + (if Contains(last, pattern) then [last] else [])
  }

  /** For each method in turn, the lines that contain `:<method>:<requirement>`. */
  function Gathered(lines: seq<string>, methods: seq<string>, req: string): seq<string>
  {
    if methods == [] then []
    else Gathered(lines, methods[..|methods| - 1], req) + Matching(lines, ":" + methods[|methods| - 1] + ":" + req)
  }

  /** The list of one profile: the gathered lines, sorted. */
  function Authorized(lines: seq<string>, user: string): (r: seq<string>)
    ensures Sorted(r)
    ensures multiset(r) == multiset(Gathered(lines, UserMethods(user), Requirement(user)))
  {
    Sort(Gathered(lines, UserMethods(user), Requirement(user)))
  }

  /** A line is gathered when it is listed and contains the pattern of one of
      the methods. */
  lemma {:induction false} GatheredHas(lines: seq<string>, methods: seq<string>, req: string, x: string)
    ensures x in Gathered(lines, methods, req)
        <==> x in lines && exists i :: 0 <= i < |methods| && Contains(x, ":" + methods[i] + ":" + req)
  {
    if methods != [] {
      var n := |methods| - 1;
      GatheredHas(lines, methods[..n], req, x);
      assert x in Gathered(lines, methods, req)
        <==> x in Gathered(lines, methods[..n], req) || x in Matching(lines, ":" + methods[n] + ":" + req);
      PatternOfSome(methods, req, x);
    }
  }

  /** `x` holds the pattern of one of the methods when it holds that of one
      before the last or that of the last. */
  lemma PatternOfSome(methods: seq<string>, req: string, x: string)
    requires methods != []
    ensures var n := |methods| - 1;
      (exists i :: 0 <= i < |methods| && Contains(x, ":" + methods[i] + ":" + req))
      <==> (exists i :: 0 <= i < n && Contains(x, ":" + methods[..n][i] + ":" + req))
           || Contains(x, ":" + methods[n] + ":" + req)
  {
    var n := |methods| - 1;
    if exists i :: 0 <= i < |methods| && Contains(x, ":" + methods[i] + ":" + req) {
      var i :| 0 <= i < |methods| && Contains(x, ":" + methods[i] + ":" + req);
      if i < n {
        assert methods[..n][i] == methods[i];
      }
    }
  }

  /** The `admin` list holds exactly the listed lines that contain `:get:NA`. */
  lemma AdminList(lines: seq<string>, x: string)
    ensures x in Authorized(lines, "admin") <==> x in lines && Contains(x, ":get:NA")
  {
    assert x in Authorized(lines, "admin") <==> x in multiset(Authorized(lines, "admin"));
    assert UserMethods("admin") == ["get"] && Requirement("admin") == NoTag;
    GatheredHas(lines, ["get"], NoTag, x);
    PatternOfOnly("get", NoTag, x);
    assert ":" + "get" + ":" + NoTag == ":get:NA";
  }

  /** With one method, holding the pattern of a method at some index is
      holding that method's pattern. */
  lemma PatternOfOnly(m: string, req: string, x: string)
    ensures (exists i :: 0 <= i < |[m]| && Contains(x, ":" + [m][i] + ":" + req)) <==> Contains(x, ":" + m + ":" + req)
  {
    assert [m][0] == m;
  }

  /** The other lists hold exactly the listed lines that contain
      `:<method>:` for a supported method. */
  lemma ProfileList(lines: seq<string>, user: string, x: string)
    requires user != "admin"
    ensures x in Authorized(lines, user)
        <==> x in lines && exists m :: m in Inputs.SupportedMethods && Contains(x, ":" + m + ":")
  {
    assert x in Authorized(lines, user) <==> x in multiset(Authorized(lines, user));
    assert UserMethods(user) == Inputs.SupportedMethods && Requirement(user) == "";
    GatheredHas(lines, Inputs.SupportedMethods, "", x);
    PatternOfMember(Inputs.SupportedMethods, x);
  }

  /** With no requirement, holding the pattern of the method at some index
      is holding `:<method>:` for some member of the list. */
  lemma PatternOfMember(ms: seq<string>, x: string)
    ensures (exists i :: 0 <= i < |ms| && Contains(x, ":" + ms[i] + ":" + ""))
        <==> exists m :: m in ms && Contains(x, ":" + m + ":")
  {
    if exists i :: 0 <= i < |ms| && Contains(x, ":" + ms[i] + ":" + "") {
      var i :| 0 <= i < |ms| && Contains(x, ":" + ms[i] + ":" + "");
      assert ":" + ms[i] + ":" + "" == ":" + ms[i] + ":";
      assert ms[i] in ms;
    }
    if exists m :: m in ms && Contains(x, ":" + m + ":") {
      var m :| m in ms && Contains(x, ":" + m + ":");
      var i :| 0 <= i < |ms| && ms[i] == m;
      assert ":" + m + ":" + "" == ":" + m + ":";
    }
  }

  /** The inner loop of `gen_authorization_lists`: the lines holding one pattern. */
  method MatchLines(acc: seq<string>, lines: seq<string>, pattern: string) returns (r: seq<string>)
    ensures r == acc + Matching(lines, pattern)
  {
    r := acc;
    var i := 0;
    while i < |lines|
      invariant 0 <= i <= |lines|
      invariant r == acc + Matching(lines[..i], pattern)
    {
      assert lines[..i + 1][..i] == lines[..i];
      if Contains(lines[i], pattern) {
        r := r + [lines[i]];
      }
      i := i + 1;
    }
    assert lines[..i] == lines;
  }

  /** The loop over the methods of one profile. */
  method GatherLines(lines: seq<string>, methods: seq<string>, req: string) returns (r: seq<string>)
    ensures r == Gathered(lines, methods, req)
  {
    r := [];
    var i := 0;
    while i < |methods|
      invariant 0 <= i <= |methods|
      invariant r == Gathered(lines, methods[..i], req)
    {
      assert methods[..i + 1][..i] == methods[..i];
      r := MatchLines(r, lines, ":" + methods[i] + ":" + req);
      i := i + 1;
    }
    assert methods[..i] == methods;
  }

  /** The lines a profile gathers before sorting. */
  function ProfileLines(lines: seq<string>, user: string): seq<string>
  {
    Gathered(lines, UserMethods(user), Requirement(user))
  }

  /** The first loop over the profiles: each profile's list filled, in a
      dictionary that keeps any other entry. */
  method GatherLists(start: map<string, seq<string>>, lines: seq<string>) returns (lists: map<string, seq<string>>)
    ensures forall u :: u in lists <==> u in start || u in UsersProfile
    ensures forall u :: u in lists ==> lists[u] == if u in UsersProfile then ProfileLines(lines, u) else start[u]
  {
    lists := start;
    var i := 0;
    while i < |UsersProfile|
      invariant 0 <= i <= |UsersProfile|
      invariant forall u :: u in lists <==> u in start || u in UsersProfile[..i]
      invariant forall u :: u in lists ==> lists[u] == if u in UsersProfile[..i] then ProfileLines(lines, u) else start[u]
    {
      var user := UsersProfile[i];
      var g := GatherLines(lines, UserMethods(user), Requirement(user));
      assert UsersProfile[..i + 1] == UsersProfile[..i] + [user];
      lists := lists[user := g];
      i := i + 1;
    }
    assert UsersProfile[..i] == UsersProfile;
  }

  /** The second loop: `list.sort()` on the lists of the given profiles. */
  method SortLists(filled: map<string, seq<string>>, users: seq<string>) returns (lists: map<string, seq<string>>)
    requires forall u :: u in users ==> u in filled
    requires forall i, j :: 0 <= i < j < |users| ==> users[i] != users[j]
    ensures forall u :: u in lists <==> u in filled
    ensures forall u :: u in lists ==> lists[u] == if u in users then Sort(filled[u]) else filled[u]
  {
    lists := filled;
    var i := 0;
    while i < |users|
      invariant 0 <= i <= |users|
      invariant forall u :: u in lists <==> u in filled
      invariant forall u :: u in lists ==> lists[u] == if u in users[..i] then Sort(filled[u]) else filled[u]
    {
      var user := users[i];
      assert users[..i + 1] == users[..i] + [user];
      assert user !in users[..i];
      lists := lists[user := Sort(lists[user])];
      i := i + 1;
    }
    assert users[..i] == users;
  }

  /** Both loops: every profile's list filled and sorted, any other entry kept. */
  method FillLists(start: map<string, seq<string>>, lines: seq<string>) returns (lists: map<string, seq<string>>)
    ensures forall u :: u in lists <==> u in start || u in UsersProfile
    ensures forall u :: u in lists ==> lists[u] == if u in UsersProfile then Authorized(lines, u) else start[u]
  {
    var filled := GatherLists(start, lines);
    lists := SortLists(filled, UsersProfile);
  }

  // ---------------------------------------------------------------------
  // Versions

  /** `_verify_api_version` as intended: an unsupported version is an
      `ApiHandlerError` naming it. */
  function VersionCheck(version: string): (r: Result<()>)
    ensures r.Ok? <==> version in Inputs.SupportedVersions
    ensures r.Fail? ==> r.error.kind == ApiHandlerError
  {
    if version in Inputs.SupportedVersions then Ok(())
    else Raise(ApiHandlerError, "ApiHandlerError # " + "API version [" + version + "] does not match any accepted version.")
  }

  /** `_verify_api_version` as written: it logs through `self.local_tools`,
      which the constructor only sets after the check, so an unsupported
      version ends in an `AttributeError` before the `ApiHandlerError` is
      raised. */
  function VersionCheckAsWritten(version: string): (r: Result<()>)
    ensures r.Ok? <==> version in Inputs.SupportedVersions
  {
    if version in Inputs.SupportedVersions then Ok(())
    else Raise(AttributeError, "'RubrikApiHandler' object has no attribute 'local_tools'")
  }

  /** For an unsupported version the handler as written fails with the wrong
      exception. */
  lemma VersionCheckDiffers(version: string)
    requires version !in Inputs.SupportedVersions
    ensures VersionCheckAsWritten(version).error.kind == AttributeError
    ensures VersionCheck(version).error.kind == ApiHandlerError
  {
  }

  // ---------------------------------------------------------------------
  // URL and headers

  /** The credentials of a target, a dictionary accessed by attribute:
      `server`, and `token` or `username` and `password`. */
  type Auth = map<string, string>

  type Header = seq<(string, string)>

  /** `_create_url`: protocol, server, the empty port and `/api` before the endpoint. */
  function Url(auth: Auth, endpoint: string): (r: Result<string>)
    ensures r.Ok? <==> "server" in auth
    ensures r.Ok? ==> StartsWith(r.value, "https://" + auth["server"] + "/api")
                      && r.value[|"https://" + auth["server"] + "/api"|..] == endpoint
  {
    if "server" !in auth then Raise(KeyError, "'server'")
    else Ok("https://" + auth["server"] + "" + "/api" + endpoint)
  }

  const RbkcliVersion: string := "1.0.0b3"

  /** `sys.version.split("(")[0].strip()`. */
  function PythonVersion(sysVersion: string): string
  {
    Strip(Split(sysVersion, "(")[0])
  }

  /** The `User-Agent` of every request. */
  function UserAgent(pythonVersion: string): string
  {
    "rbkcli--" + RbkcliVersion + "--" + pythonVersion
  }

  /** The kind of authorization a header carries (`auth_prpt.type_`) and its value. */
  datatype Credential = Credential(kind: string, authorization: string)

  /** `Basic` credentials: the base64 of the UTF-8 of `user:password`, with the
      newlines of `base64.encodebytes` taken out. */
  function Basic(username: string, password: string): string
  {
    "Basic " + Replace(Base64.EncodeBytes(Base64.Utf8(username + ":" + password)), "\n", "")
  }

  /** The Basic credentials are one line of plain base64 that decodes to the
      UTF-8 of `user:password`, as section 2 of RFC 7617 describes. */
  lemma BasicDecodes(username: string, password: string)
    ensures Basic(username, password) == "Basic " + Base64.Encode(Base64.Utf8(username + ":" + password))
    ensures '\n' !in Basic(username, password)
    ensures Base64.Decode(Basic(username, password)[6..]) == Some(Base64.Utf8(username + ":" + password))
  {
    var bs := Base64.Utf8(username + ":" + password);
    Base64.EncodeBytesFlat(bs);
    Base64.EncodeNoNewline(bs);
    assert Basic(username, password)[6..] == Base64.Encode(bs);
  }

  /** `_create_username_header`: Basic credentials, or an `ApiRequesterError`
      naming the missing key after the reason the token was not used. */
  function UsernameCredential(auth: Auth, primary: string): (r: Result<Credential>)
    ensures r.Ok? <==> "username" in auth && "password" in auth
    ensures r.Ok? ==> r.value == Credential("username", Basic(auth["username"], auth["password"]))
    ensures r.Fail? ==> r.error.kind == ApiRequesterError
  {
    if "username" !in auth || "password" !in auth then
      var key := if "username" !in auth then "'username'" else "'password'";
      Raise(ApiRequesterError, StripSet(primary + " Expected authorization key not found " + key + ".", {' '}))
    else Ok(Credential("username", Basic(auth["username"], auth["password"])))
  }

  /** `_create_auth_header` as intended: the token while no earlier attempt
      with it failed, otherwise the username and password. */
  function Authorization(auth: Auth, primary: string): (r: Result<Credential>)
    ensures r.Ok? ==> r.value.kind == "token" || r.value.kind == "username"
    ensures r.Ok? && r.value.kind == "token" ==>
              (primary == "" && "token" in auth && r.value.authorization == "Bearer " + auth["token"])
    ensures "token" in auth && primary == "" ==> r == Ok(Credential("token", "Bearer " + auth["token"]))
    ensures !("token" in auth && primary == "") ==> r == UsernameCredential(auth, primary)
  {
    if "token" in auth && primary == "" then Ok(Credential("token", "Bearer " + auth["token"]))
    else UsernameCredential(auth, primary)
  }

  /** `_create_auth_header` as written: after a failed token the caught
      `ToolsError` itself, not its text, is passed on as the message, and
      `'ApiRequester # ' + msg` raises a `TypeError`. */
  function AuthorizationAsWritten(auth: Auth, primary: string): (r: Result<Credential>)
    ensures "token" in auth && primary != "" ==> r.Fail? && r.error.kind == TypeError
    ensures !("token" in auth && primary != "") ==> r == Authorization(auth, primary)
  {
    if "token" in auth && primary != "" then
      Raise(TypeError, "can only concatenate str (not \"ToolsError\") to str")
    else Authorization(auth, primary)
  }

  /** The headers of a request. */
  function Headers(cred: Credential, pythonVersion: string): Header
  {
    [("Content-Type", "application/json"), ("Accept", "application/json"),
     ("User-Agent", UserAgent(pythonVersion)), ("Authorization", cred.authorization)]
  }

  // ---------------------------------------------------------------------
  // Requests

  /** The answer the HTTP library gives: a response text, or the exception
      of a server that cannot be reached or of a malformed URL. */
  datatype Response = Answer(text: string) | Unreachable(reason: string) | BadUrl(reason: string)

  /** A request sent: method, URL and headers. */
  datatype Call = Call(verb: string, url: string, headers: Header)

  /** The fields of an `ApiRequester`: the URL, `auth_prpt.type_`,
      `auth_prpt.header`, `auth_prpt.primary_exception` and the text of
      `api_result`. */
  datatype Requester = Requester(url: string, kind: string, header: Header, primary: string, text: string)

  /** What a `demand` returns, the requests it sent and the requester after it. */
  datatype Outcome = Outcome(result: Result<string>, sent: seq<Call>, after: Requester)

  /** The text of a token the server refused. */
  const InvalidAuth: string := "The supplied authentication is invalid"
  /** What is kept of a refused token before the retry. */
  const TokenRefused: string := "The supplied TOKEN" + " authentication is invalid."
  /** The part of an answer that refuses a username and password. */
  const WrongCredentials: string := "\"message\":\"Incorrect username/password\""

  /** `demand`: URL, headers, the request, then `_validate_token_auth`. */
  function Demanded(s: Requester, auth: Auth, pythonVersion: string, verb: string, endpoint: string,
                  send: Call -> Response): (o: Outcome)
    decreases if s.primary == "" then 1 else 0, 1
  {
    match Url(auth, endpoint)
    case Fail(e) => Outcome(Fail(e), [], s)
    case Ok(url) =>
      var s1 := s.(url := url);
      match Authorization(auth, s.primary)
      case Fail(e) => Outcome(Fail(e), [], if "token" in auth then s1.(kind := "token") else s1)
      case Ok(cred) =>
        var s2 := s1.(kind := cred.kind, header := Headers(cred, pythonVersion));
        var call := Call(verb, url, s2.header);
        match send(call)
        case Unreachable(reason) => Outcome(Raise(ApiRequesterError, reason), [call], s2)
        case BadUrl(reason) => Outcome(Raise(ApiRequesterError, reason), [call], s2)
        case Answer(text) =>
          var o := Validated(s2.(text := text), auth, pythonVersion, verb, endpoint, send);
          Outcome(o.result, [call] + o.sent, o.after)
  }

  /** `_validate_token_auth`: a refused token is retried once with the
      username; refused credentials are an `ApiRequesterError`; any other
      answer is the result. */
  function Validated(s: Requester, auth: Auth, pythonVersion: string, verb: string, endpoint: string,
                     send: Call -> Response): (o: Outcome)
    requires s.kind == "token" ==> s.primary == ""
    decreases if s.primary == "" then 1 else 0, 0
  {
    if s.text == InvalidAuth && s.kind == "token" then
      Demanded(s.(primary := TokenRefused), auth, pythonVersion, verb, endpoint, send)
    else if Contains(s.text, WrongCredentials) && s.kind == "username" then
      Outcome(Raise(ApiRequesterError, "The supplied authentication is invalid.\n"), [], s)
    else Outcome(Ok(s.text), [], s)
  }

  /** After a refused token no request is retried: at most one is sent. */
  lemma DemandAfterRefusal(s: Requester, auth: Auth, pythonVersion: string, verb: string, endpoint: string,
                           send: Call -> Response)
    requires s.primary != ""
    ensures |Demanded(s, auth, pythonVersion, verb, endpoint, send).sent| <= 1
  {
  }

  /** A `demand` sends at most two requests, and a second one only when the
      first carried the token and the server refused it; the second carries
      the username and password. */
  lemma AtMostOneRetry(s: Requester, auth: Auth, pythonVersion: string, verb: string, endpoint: string,
                       send: Call -> Response)
    requires s.primary == ""
    ensures var o := Demanded(s, auth, pythonVersion, verb, endpoint, send);
      |o.sent| <= 2
      && (|o.sent| == 2 ==>
            "token" in auth && "username" in auth && "password" in auth
            && o.sent[0].headers == Headers(Credential("token", "Bearer " + auth["token"]), pythonVersion)
            && send(o.sent[0]) == Answer(InvalidAuth)
            && o.sent[1].headers == Headers(Credential("username", Basic(auth["username"], auth["password"])), pythonVersion))
  {
    var o := Demanded(s, auth, pythonVersion, verb, endpoint, send);
    if Url(auth, endpoint).Ok? && Authorization(auth, s.primary).Ok? {
      var url := Url(auth, endpoint).value;
      var cred := Authorization(auth, s.primary).value;
      var s2 := s.(url := url, kind := cred.kind, header := Headers(cred, pythonVersion));
      var call := Call(verb, url, s2.header);
      if send(call).Answer? {
        var text := send(call).text;
        if text == InvalidAuth && cred.kind == "token" {
          var retry := s2.(text := text, primary := TokenRefused);
          DemandAfterRefusal(retry, auth, pythonVersion, verb, endpoint, send);
          var o2 := Demanded(retry, auth, pythonVersion, verb, endpoint, send);
          assert o.sent == [call] + o2.sent;
          if |o2.sent| == 1 {
            var cred2 := Authorization(auth, TokenRefused).value;
            assert o2.sent[0].headers == Headers(cred2, pythonVersion);
          }
        }
      }
    }
  }

  /** A refused token with no username to fall back on ends in an
      `ApiRequesterError` that names the refused token and the missing key. */
  lemma RefusedTokenWithoutUsername(s: Requester, auth: Auth, pythonVersion: string, verb: string,
                                    endpoint: string, send: Call -> Response)
    requires s.primary == "" && "server" in auth && "token" in auth && "username" !in auth
    requires send(Call(verb, "https://" + auth["server"] + "/api" + endpoint,
                       Headers(Credential("token", "Bearer " + auth["token"]), pythonVersion)))
             == Answer(InvalidAuth)
    ensures Demanded(s, auth, pythonVersion, verb, endpoint, send).result
         == Raise(ApiRequesterError, TokenRefused + " Expected authorization key not found 'username'.")
  {
    var msg := TokenRefused + " Expected authorization key not found 'username'.";
    assert msg[0] == TokenRefused[0] == 'T';
    assert msg[|msg| - 1] == "'username'."[10] == '.';
    StripNothing(msg, {' '});
    assert TokenRefused + " Expected authorization key not found " + "'username'" + "." == msg;
    assert UsernameCredential(auth, TokenRefused) == Raise(ApiRequesterError, msg);
    var url := "https://" + auth["server"] + "/api" + endpoint;
    assert Url(auth, endpoint) == Ok(url);
    var cred := Credential("token", "Bearer " + auth["token"]);
    var s2 := s.(url := url, kind := "token", header := Headers(cred, pythonVersion), text := InvalidAuth);
    assert Demanded(s, auth, pythonVersion, verb, endpoint, send).result
        == Demanded(s2.(primary := TokenRefused), auth, pythonVersion, verb, endpoint, send).result;
  }

  /** As written, the retry after a refused token never reaches the username
      and password: the second attempt fails with a `TypeError` where the
      intended header carries Basic credentials. */
  lemma RetryAsWrittenFails(auth: Auth)
    requires "token" in auth && "username" in auth && "password" in auth
    ensures AuthorizationAsWritten(auth, TokenRefused).Fail?
    ensures AuthorizationAsWritten(auth, TokenRefused).error.kind == TypeError
    ensures Authorization(auth, TokenRefused) == Ok(Credential("username", Basic(auth["username"], auth["password"])))
  {
  }

  /** `api_requester`: the endpoint key is checked against the authorized
      list before the versioned endpoint is requested. */
  function Requested(focus: seq<string>, version: string, auth: Auth, pythonVersion: string, verb: string,
                     endpoint: string, key: string, send: Call -> Response): Outcome
  {
    if focus != [] && key !in focus then
      Outcome(Raise(ApiHandlerError, "Requested endpoint [" + key + "] not found on authorized endpoints list."),
              [], Requester("", "", [], "", ""))
    else Demanded(Requester("", "", [], "", ""), auth, pythonVersion, verb, "/" + version + "/" + endpoint, send)
  }

  /** A key outside a non-empty authorized list is refused before any
      request is sent, whatever the server would answer. */
  lemma RefusedBeforeRequest(focus: seq<string>, version: string, auth: Auth, pythonVersion: string,
                             verb: string, endpoint: string, key: string, send: Call -> Response)
    requires focus != [] && key !in focus
    ensures var o := Requested(focus, version, auth, pythonVersion, verb, endpoint, key, send);
      o.sent == [] && o.result.Fail? && o.result.error.kind == ApiHandlerError
  {
  }

  /** Every request of a `demand` goes to the URL of its endpoint. */
  lemma DemandUrls(s: Requester, auth: Auth, pythonVersion: string, verb: string, endpoint: string,
                   send: Call -> Response)
    ensures forall c :: c in Demanded(s, auth, pythonVersion, verb, endpoint, send).sent ==>
      Url(auth, endpoint) == Ok(c.url)
    decreases if s.primary == "" then 1 else 0
  {
    if Url(auth, endpoint).Ok? && Authorization(auth, s.primary).Ok? {
      var url := Url(auth, endpoint).value;
      var cred := Authorization(auth, s.primary).value;
      var s2 := s.(url := url, kind := cred.kind, header := Headers(cred, pythonVersion));
      var call := Call(verb, url, s2.header);
      if send(call).Answer? && send(call).text == InvalidAuth && cred.kind == "token" {
        DemandUrls(s2.(text := InvalidAuth, primary := TokenRefused), auth, pythonVersion, verb, endpoint, send);
      }
    }
  }

  /** Every request of an authorized key goes to
      `https://<server>/api/<version>/<endpoint>`. */
  lemma RequestUrl(focus: seq<string>, version: string, auth: Auth, pythonVersion: string,
                   verb: string, endpoint: string, key: string, send: Call -> Response)
    requires focus == [] || key in focus
    ensures var o := Requested(focus, version, auth, pythonVersion, verb, endpoint, key, send);
      forall c :: c in o.sent ==> "server" in auth && c.url == "https://" + auth["server"] + "/api/" + version + "/" + endpoint
  {
    var e := "/" + version + "/" + endpoint;
    DemandUrls(Requester("", "", [], "", ""), auth, pythonVersion, verb, e, send);
    if "server" in auth {
      assert "https://" + auth["server"] + "" + "/api" + e == "https://" + auth["server"] + "/api/" + version + "/" + endpoint;
    }
  }

  // ---------------------------------------------------------------------
  // The requester object

  /** `ApiRequester`: one requester per request, whose URL, authorization
      properties and last answer change as `demand` proceeds. */
  class ApiRequester {
    const auth: Auth
    const pythonVersion: string
    var url: string
    var authType: string
    var header: Header
    var primaryException: string
    var apiResult: string

    /** The fields as a value. */
    function State(): Requester
      reads this
    {
      Requester(url, authType, header, primaryException, apiResult)
    }

    constructor (auth: Auth, sysVersion: string)
      ensures this.auth == auth && pythonVersion == PythonVersion(sysVersion)
      ensures State() == Requester("", "", [], "", "")
    {
      this.auth := auth;
      pythonVersion := PythonVersion(sysVersion);
      url := "";
      authType := "";
      header := [];
      primaryException := "";
      apiResult := "";
    }

    /** `_create_url`. */
    method CreateUrl(endpoint: string) returns (r: Result<string>)
      modifies this
      ensures r == Url(auth, endpoint)
      ensures State() == if r.Ok? then old(State()).(url := r.value) else old(State())
    {
      if "server" !in auth {
        return Raise(KeyError, "'server'");
      }
      url := "https://" + auth["server"] + "" + "/api" + endpoint;
      return Ok(url);
    }

    /** `_create_username_header`. */
    method CreateUsernameHeader() returns (r: Result<string>)
      modifies this
      ensures var c := UsernameCredential(auth, primaryException);
        (r.Ok? <==> c.Ok?) && (r.Ok? ==> r.value == c.value.authorization) && (r.Fail? ==> r.error == c.error)
      ensures State() == if r.Ok? then old(State()).(kind := "username") else old(State())
    {
      if "username" !in auth || "password" !in auth {
        var key := if "username" !in auth then "'username'" else "'password'";
        return Raise(ApiRequesterError, StripSet(primaryException + " Expected authorization key not found " + key + ".", {' '}));
      }
      var credentials := auth["username"] + ":" + auth["password"];
      var encoded := Base64.EncodeBytes(Base64.Utf8(credentials));
      authType := "username";
      return Ok("Basic " + Replace(encoded, "\n", ""));
    }

    /** `_create_auth_header`: the token while no attempt with it failed,
        else the username and password; the header is only replaced once
        an authorization is found. */
    method CreateAuthHeader() returns (r: Result<Credential>)
      modifies this
      ensures r == Authorization(auth, old(primaryException))
      ensures State() == if r.Ok? then old(State()).(kind := r.value.kind, header := Headers(r.value, pythonVersion))
                         else if "token" in auth then old(State()).(kind := "token")
                         else old(State())
    {
      var authorization: string;
      if "token" in auth {
        authorization := "Bearer " + auth["token"];
        authType := "token";
        if primaryException != "" {
          var u := CreateUsernameHeader();
          if u.Fail? {
            return Fail(u.error);
          }
          authorization := u.value;
        }
      } else {
        var u := CreateUsernameHeader();
        if u.Fail? {
          return Fail(u.error);
        }
        authorization := u.value;
      }
      r := Ok(Credential(authType, authorization));
      header := Headers(r.value, pythonVersion);
    }

    /** `demand`: the requester ends in the state the specification gives
        and returns its result. */
    method Demand(verb: string, endpoint: string, send: Call -> Response) returns (r: Result<string>)
      modifies this
      ensures var o := Demanded(old(State()), auth, pythonVersion, verb, endpoint, send);
        r == o.result && State() == o.after
      decreases if primaryException == "" then 1 else 0, 1
    {
      var u := CreateUrl(endpoint);
      if u.Fail? {
        return Fail(u.error);
      }
      var h := CreateAuthHeader();
      if h.Fail? {
        return Fail(h.error);
      }
      match send(Call(verb, url, header)) {
        case Unreachable(reason) =>
          return Raise(ApiRequesterError, reason);
        case BadUrl(reason) =>
          return Raise(ApiRequesterError, reason);
        case Answer(text) =>
          apiResult := text;
      }
      r := ValidateTokenAuth(verb, endpoint, send);
    }

    /** `_validate_token_auth`. */
    method ValidateTokenAuth(verb: string, endpoint: string, send: Call -> Response) returns (r: Result<string>)
      requires authType == "token" ==> primaryException == ""
      modifies this
      ensures var o := Validated(old(State()), auth, pythonVersion, verb, endpoint, send);
        r == o.result && State() == o.after
      decreases if primaryException == "" then 1 else 0, 0
    {
      if apiResult == InvalidAuth && authType == "token" {
        primaryException := TokenRefused;
        r := Demand(verb, endpoint, send);
      } else if Contains(apiResult, WrongCredentials) && authType == "username" {
        r := Raise(ApiRequesterError, "The supplied authentication is invalid.\n");
      } else {
        r := Ok(apiResult);
      }
    }
  }

  // ---------------------------------------------------------------------
  // The handler object

  /** `RubrikApiHandler`: the API document of one version and the lists of
      endpoints each user profile may call. */
  class RubrikApiHandler {
    const auth: Auth
    const version: string
    const userProfile: string
    const sysVersion: string
    /** The document `import_api` keeps: its `paths` and `definitions`. */
    const endpoints: seq<(string, Json)>
    var filterLists: map<string, seq<string>>
    var focusList: seq<string>

    constructor (auth: Auth, version: string, userProfile: string, sysVersion: string,
                 endpoints: seq<(string, Json)>)
      requires VersionCheck(version).Ok?
      ensures this.auth == auth && this.version == version && this.userProfile == userProfile
      ensures this.sysVersion == sysVersion && this.endpoints == endpoints
      ensures filterLists == map[] && focusList == []
    {
      this.auth := auth;
      this.version := version;
      this.userProfile := userProfile;
      this.sysVersion := sysVersion;
      this.endpoints := endpoints;
      filterLists := map[];
      focusList := [];
    }

    /** `_create_all_methods_list`. */
    method CreateAllMethodsList(field: string, phrase: string) returns (r: Result<seq<string>>)
      ensures r == AllMethods(Listing(version, field, phrase), endpoints)
    {
      var paths := Get(endpoints, "paths");
      if paths.None? {
        return Raise(KeyError, "'paths'");
      }
      if !paths.value.Obj? {
        return NoItems(paths.value);
      }
      r := AddPaths(Listing(version, field, phrase), paths.value.fields);
    }

    /** `gen_authorization_lists`: the sorted list of each profile, then the
        list of the handler's own profile as the focus list. */
    method GenAuthorizationLists() returns (r: Result<()>)
      modifies this
      ensures var all := AllMethods(Listing(version, "summary", SupportPhrase), endpoints);
        all.Fail? ==> r == Fail(all.error) && filterLists == old(filterLists) && focusList == old(focusList)
      ensures var all := AllMethods(Listing(version, "summary", SupportPhrase), endpoints);
        all.Ok? ==>
          (forall u :: u in filterLists <==> u in old(filterLists) || u in UsersProfile)
          && (forall u :: u in filterLists ==>
                filterLists[u] == if u in UsersProfile then Authorized(all.value, u) else old(filterLists)[u])
          && (r.Ok? <==> userProfile in filterLists)
          && (r.Ok? ==> focusList == filterLists[userProfile])
          && (r.Fail? ==> r == Raise(KeyError, "'" + userProfile + "'") && focusList == old(focusList))
    {
      var all := CreateAllMethodsList("summary", SupportPhrase);
      if all.Fail? {
        return Fail(all.error);
      }
      filterLists := FillLists(filterLists, all.value);
      if userProfile !in filterLists {
        return Raise(KeyError, "'" + userProfile + "'");
      }
      focusList := filterLists[userProfile];
      return Ok(());
    }

    /** `api_requester`: the key is checked against the focus list, then a
        fresh requester asks for the versioned endpoint. */
    method ApiRequest(verb: string, endpoint: string, key: string, send: Call -> Response) returns (r: Result<string>)
      ensures r == Requested(focusList, version, auth, PythonVersion(sysVersion), verb, endpoint, key, send).result
    {
      if focusList != [] && key !in focusList {
        return Raise(ApiHandlerError, "Requested endpoint [" + key + "] not found on authorized endpoints list.");
      }
      var requester := new ApiRequester(auth, sysVersion);
      r := requester.Demand(verb, "/" + version + "/" + endpoint, send);
    }
  }
}
