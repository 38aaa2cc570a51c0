/** The operations list of a target (`OperationsHandler` in
    rbkcli/core/handlers/operations.py): every authorized line of the API
    handlers gathered into one list, the configured whitelist and blacklist
    applied to it and to the handlers' focus lists, requests passed on to the
    handler of their version, and the `info` text of an operation. */
module Operations {
  import opened Wrappers
  import opened Strings
  import opened Lists
  import opened Sorting
  import opened Json
  import Api
  import Inputs

  /** The lists `generate_ops` works on: the operations of the user profile
      (`ops`), every operation of the target (`raw_ops`, the `dev` lists) and
      the focus list of each API handler, by version. */
  datatype OpsLists = OpsLists(ops: seq<string>, raw: seq<string>, focus: map<string, seq<string>>)

  /** The lists after a change and whether it completed; an exception leaves
      the lists as the loop had them when it was raised. */
  datatype Applied = Applied(lists: OpsLists, result: Result<()>)

  /** The version a line belongs to: the text before its first colon. */
  function VersionOf(line: string): string
  {
    Split(Strip(line), ":")[0]
  }

  /** `n` copies of a line. */
  function Copies(x: string, n: nat): (r: seq<string>)
    ensures |r| == n && forall i :: 0 <= i < |r| ==> r[i] == x
  {
    if n == 0 then [] else Copies(x, n - 1) + [x]
  }

  lemma {:induction false} CopiesCount(x: string, n: nat, y: string)
    ensures multiset(Copies(x, n))[y] == if y == x then n else 0
  {
    if n > 0 {
      CopiesCount(x, n - 1, y);
    }
  }

  /** The lines other than `c`, in order. */
  function Without(xs: seq<string>, c: string): (r: seq<string>)
    ensures forall x :: multiset(r)[x] == if x == c then 0 else multiset(xs)[x]
  {
    if xs == [] then []
    else
      var n := |xs| - 1;
      assert xs == xs[..n] + [xs[n]];
      Without(xs[..n], c) + (if xs[n] == c then [] else [xs[n]])
  }

  // ---------------------------------------------------------------------
  // Gathering the lists of the handlers

  /** The concatenation of the lists of the given versions, in order. */
  function Flatten(versions: seq<string>, lists: map<string, seq<string>>): seq<string>
    requires forall v :: v in versions ==> v in lists
  {
    if versions == [] then []
    else Flatten(versions[..|versions| - 1], lists) + lists[versions[|versions| - 1]]
  }

  /** A line is in the concatenation iff it is in the list of one of the versions. */
  lemma {:induction false} FlattenHas(versions: seq<string>, lists: map<string, seq<string>>, x: string)
    requires forall v :: v in versions ==> v in lists
    ensures x in Flatten(versions, lists) <==> exists i :: 0 <= i < |versions| && x in lists[versions[i]]
  {
    if versions != [] {
      var n := |versions| - 1;
      FlattenHas(versions[..n], lists, x);
      if exists i :: 0 <= i < |versions| && x in lists[versions[i]] {
        var i :| 0 <= i < |versions| && x in lists[versions[i]];
        if i < n {
          assert versions[..n][i] == versions[i];
        }
      }
      if exists i :: 0 <= i < n && x in lists[versions[..n][i]] {
        var i :| 0 <= i < n && x in lists[versions[..n][i]];
        assert versions[i] == versions[..n][i];
      }
    }
  }

  /** The first loop of `generate_ops`: the `dev` list of each instantiated
      version is added to the raw operations and its focus list to the
      operations. */
  function Gathered(l: OpsLists, versions: seq<string>, dev: map<string, seq<string>>): OpsLists
    requires forall v :: v in versions ==> v in dev && v in l.focus
  {
    l.(raw := l.raw + Flatten(versions, dev), ops := l.ops + Flatten(versions, l.focus))
  }

  // ---------------------------------------------------------------------
  // The whitelist

  /** One raw operation against one whitelisted line: a match is appended to
      the operations and to the focus list of its version, whose handler must
      exist. */
  function WhiteStep(l: OpsLists, c: string, op: string): Applied
  {
    if c != op then Applied(l, Ok(()))
    else
      var v := VersionOf(c);
      if v !in l.focus then Applied(l, Raise(KeyError, "'" + v + "'"))
      else Applied(l.(ops := l.ops + [op], focus := l.focus[v := l.focus[v] + [op]]), Ok(()))
  }

  /** The inner loop of `_apply_whitelist`: one whitelisted line against every raw operation. */
  function WhiteRaw(l: OpsLists, c: string, raw: seq<string>): Applied
  {
    if raw == [] then Applied(l, Ok(()))
    else
      var a := WhiteRaw(l, c, raw[..|raw| - 1]);
      if a.result.Fail? then a else WhiteStep(a.lists, c, raw[|raw| - 1])
  }

  /** `_apply_whitelist`. */
  function WhiteAll(l: OpsLists, raw: seq<string>, changes: seq<string>): Applied
  {
    if changes == [] then Applied(l, Ok(()))
    else
      var a := WhiteAll(l, raw, changes[..|changes| - 1]);
      if a.result.Fail? then a else WhiteRaw(a.lists, changes[|changes| - 1], raw)
  }

  /** The lists with `n` copies of `c` appended to the operations and to the
      focus list of its version. */
  function Appended(l: OpsLists, c: string, n: nat): OpsLists
    requires n == 0 || VersionOf(c) in l.focus
  {
    if n == 0 then l
    else l.(ops := l.ops + Copies(c, n), focus := l.focus[VersionOf(c) := l.focus[VersionOf(c)] + Copies(c, n)])
  }

  /** A whitelisted line is appended once per occurrence among the raw operations. */
  lemma {:induction false} WhiteChange(l: OpsLists, c: string, raw: seq<string>)
    requires multiset(raw)[c] == 0 || VersionOf(c) in l.focus
    ensures WhiteRaw(l, c, raw) == Applied(Appended(l, c, multiset(raw)[c]), Ok(()))
  {
    if raw != [] {
      var n := |raw| - 1;
      CountSnoc(raw, c);
      var k := multiset(raw[..n])[c];
      WhiteChange(l, c, raw[..n]);
      if raw[n] == c {
        AppendedStep(l, c, k);
      }
    }
  }

  /** The count of a line in a list, from the count in all but the last element. */
  lemma CountSnoc(raw: seq<string>, c: string)
    requires raw != []
    ensures multiset(raw)[c] == multiset(raw[..|raw| - 1])[c] + if raw[|raw| - 1] == c then 1 else 0
  {
    assert raw == raw[..|raw| - 1] + [raw[|raw| - 1]];
  }

  /** One more match appends one more copy. */
  lemma AppendedStep(l: OpsLists, c: string, k: nat)
    requires VersionOf(c) in l.focus
    ensures WhiteStep(Appended(l, c, k), c, c) == Applied(Appended(l, c, k + 1), Ok(()))
  {
    var v := VersionOf(c);
    var a := Appended(l, c, k);
    assert a.ops + [c] == l.ops + Copies(c, k + 1);
    assert a.focus[v] + [c] == l.focus[v] + Copies(c, k + 1);
    assert a.focus[v := a.focus[v] + [c]] == l.focus[v := l.focus[v] + Copies(c, k + 1)];
  }

  /** A whitelisted line found among the raw operations whose version has no
      handler raises a `KeyError` before anything is appended for it. */
  lemma {:induction false} WhiteChangeFails(l: OpsLists, c: string, raw: seq<string>)
    requires c in raw && VersionOf(c) !in l.focus
    ensures WhiteRaw(l, c, raw) == Applied(l, Raise(KeyError, "'" + VersionOf(c) + "'"))
  {
    var n := |raw| - 1;
    assert raw == raw[..n] + [raw[n]];
    if c in raw[..n] {
      WhiteChangeFails(l, c, raw[..n]);
    } else {
      WhiteChange(l, c, raw[..n]);
    }
  }

  /** The whitelist keeps the raw operations and the versions of the focus lists. */
  lemma {:induction false} WhiteRawKeeps(l: OpsLists, c: string, raw: seq<string>)
    ensures WhiteRaw(l, c, raw).lists.focus.Keys == l.focus.Keys && WhiteRaw(l, c, raw).lists.raw == l.raw
  {
    if raw != [] {
      WhiteRawKeeps(l, c, raw[..|raw| - 1]);
    }
  }

  lemma {:induction false} WhiteAllKeeps(l: OpsLists, raw: seq<string>, wl: seq<string>)
    ensures WhiteAll(l, raw, wl).lists.focus.Keys == l.focus.Keys && WhiteAll(l, raw, wl).lists.raw == l.raw
  {
    if wl != [] {
      var a := WhiteAll(l, raw, wl[..|wl| - 1]);
      WhiteAllKeeps(l, raw, wl[..|wl| - 1]);
      WhiteRawKeeps(a.lists, wl[|wl| - 1], raw);
    }
  }

  /** The whitelist succeeds iff every listed line found among the raw
      operations belongs to a version with a handler. */
  lemma {:induction false} WhitelistSucceeds(l: OpsLists, raw: seq<string>, wl: seq<string>)
    ensures WhiteAll(l, raw, wl).result.Ok? <==> forall c :: c in wl && c in raw ==> VersionOf(c) in l.focus
  {
    if wl != [] {
      var n := |wl| - 1;
      var c := wl[n];
      assert wl == wl[..n] + [c];
      WhitelistSucceeds(l, raw, wl[..n]);
      var a := WhiteAll(l, raw, wl[..n]);
      if a.result.Ok? {
        WhiteAllKeeps(l, raw, wl[..n]);
        if c in raw && VersionOf(c) !in l.focus {
          WhiteChangeFails(a.lists, c, raw);
        } else {
          WhiteChange(a.lists, c, raw);
        }
      } else {
        var b :| b in wl[..n] && b in raw && VersionOf(b) !in l.focus;
        assert b in wl;
      }
    }
  }

  /** A successful whitelist adds each listed line once per listing and per
      occurrence among the raw operations, and nothing else. */
  lemma {:induction false} WhitelistAdds(l: OpsLists, raw: seq<string>, wl: seq<string>)
    requires WhiteAll(l, raw, wl).result.Ok?
    ensures forall x :: multiset(WhiteAll(l, raw, wl).lists.ops)[x]
                        == multiset(l.ops)[x] + (multiset(wl)[x] as int) * multiset(raw)[x]
  {
    if wl != [] {
      var n := |wl| - 1;
      var c := wl[n];
      var a := WhiteAll(l, raw, wl[..n]);
      assert a.result.Ok?;
      WhitelistAdds(l, raw, wl[..n]);
      if c in raw && VersionOf(c) !in a.lists.focus {
        WhiteChangeFails(a.lists, c, raw);
      }
      WhiteRawCounts(a.lists, c, raw);
      var counts := multiset(WhiteAll(l, raw, wl).lists.ops);
      var listed := multiset(wl);
      assert listed == multiset(wl[..n]) + multiset{c} by {
        assert wl == wl[..n] + [c];
      }
      forall x ensures counts[x] == multiset(l.ops)[x] + (listed[x] as int) * multiset(raw)[x] {
        CountStep(counts[x], multiset(a.lists.ops)[x], multiset(l.ops)[x], multiset(wl[..n])[x], listed[x],
                  multiset(raw)[x], if x == c then multiset(raw)[c] else 0, x == c);
      }
    }
  }

  /** A whitelisted line adds its raw count to its own count in the operations. */
  lemma WhiteRawCounts(l: OpsLists, c: string, raw: seq<string>)
    requires multiset(raw)[c] == 0 || VersionOf(c) in l.focus
    ensures forall x :: multiset(WhiteRaw(l, c, raw).lists.ops)[x]
                        == multiset(l.ops)[x] + if x == c then multiset(raw)[c] else 0
  {
    var k := multiset(raw)[c];
    WhiteChange(l, c, raw);
    if k == 0 {
      assert l.ops + Copies(c, 0) == l.ops;
    }
    assert multiset(l.ops + Copies(c, k)) == multiset(l.ops) + multiset(Copies(c, k));
    forall x ensures multiset(Copies(c, k))[x] == if x == c then k else 0 {
      CopiesCount(c, k, x);
    }
  }

  lemma CountStep(total: int, prev: int, base: int, m: int, m2: int, r: int, cp: int, hit: bool)
    requires prev == base + m * r && total == prev + cp
    requires cp == (if hit then r else 0) && m2 == m + (if hit then 1 else 0)
    ensures total == base + m2 * r
  {
    if hit {
      assert m2 * r == m * r + r;
    }
  }

  // ---------------------------------------------------------------------
  // The blacklist

  /** The blacklist as intended: a listed line found among the raw
      operations is taken out of the operations and out of the focus list of
      its version, every copy of it. */
  function BlackChange(l: OpsLists, c: string, raw: seq<string>): Applied
  {
    if c !in raw then Applied(l, Ok(()))
    else
      var v := VersionOf(c);
      if v !in l.focus then Applied(l, Raise(KeyError, "'" + v + "'"))
      else Applied(l.(ops := Without(l.ops, c), focus := l.focus[v := Without(l.focus[v], c)]), Ok(()))
  }

  /** `_apply_blacklist` as intended. */
  function BlackAll(l: OpsLists, raw: seq<string>, changes: seq<string>): Applied
  {
    if changes == [] then Applied(l, Ok(()))
    else
      var a := BlackAll(l, raw, changes[..|changes| - 1]);
      if a.result.Fail? then a else BlackChange(a.lists, changes[|changes| - 1], raw)
  }

  /** The blacklist succeeds iff every listed line found among the raw
      operations belongs to a version with a handler; it then leaves no copy
      of those lines and every other line as often as before. */
  lemma {:induction false} BlacklistRemoves(l: OpsLists, raw: seq<string>, bl: seq<string>)
    ensures var a := BlackAll(l, raw, bl);
      a.lists.focus.Keys == l.focus.Keys && a.lists.raw == l.raw
      && (a.result.Ok? <==> forall c :: c in bl && c in raw ==> VersionOf(c) in l.focus)
      && (a.result.Ok? ==> forall x :: multiset(a.lists.ops)[x] == if x in bl && x in raw then 0 else multiset(l.ops)[x])
  {
    if bl != [] {
      var n := |bl| - 1;
      var c := bl[n];
      assert bl == bl[..n] + [c];
      BlacklistRemoves(l, raw, bl[..n]);
      var a := BlackAll(l, raw, bl[..n]);
      if a.result.Fail? {
        var b :| b in bl[..n] && b in raw && VersionOf(b) !in l.focus;
        assert b in bl;
      }
    }
  }

  /** The blacklist keeps the raw operations and the versions of the focus lists. */
  lemma {:induction false} BlackAllKeeps(l: OpsLists, raw: seq<string>, bl: seq<string>)
    ensures BlackAll(l, raw, bl).lists.focus.Keys == l.focus.Keys && BlackAll(l, raw, bl).lists.raw == l.raw
  {
    if bl != [] {
      BlackAllKeeps(l, raw, bl[..|bl| - 1]);
    }
  }

  /** One raw operation against one blacklisted line, as written: a match is
      removed once from the focus list of its version, then once from the
      operations; a missing copy raises a `ValueError`. */
  function BlackStepAsWritten(l: OpsLists, c: string, op: string): Applied
  {
    if c != op then Applied(l, Ok(()))
    else
      var v := VersionOf(c);
      if v !in l.focus then Applied(l, Raise(KeyError, "'" + v + "'"))
      else if op !in l.focus[v] then Applied(l, Raise(ValueError, "list.remove(x): x not in list"))
      else
        var focus := l.focus[v := RemoveFirst(l.focus[v], op)];
        if op !in l.ops then Applied(l.(focus := focus), Raise(ValueError, "list.remove(x): x not in list"))
        else Applied(l.(ops := RemoveFirst(l.ops, op), focus := focus), Ok(()))
  }

  /** The inner loop of `_apply_blacklist` as written. */
  function BlackRawAsWritten(l: OpsLists, c: string, raw: seq<string>): Applied
  {
    if raw == [] then Applied(l, Ok(()))
    else
      var a := BlackRawAsWritten(l, c, raw[..|raw| - 1]);
      if a.result.Fail? then a else BlackStepAsWritten(a.lists, c, raw[|raw| - 1])
  }

  /** `_apply_blacklist` as written. */
  function BlackAllAsWritten(l: OpsLists, raw: seq<string>, changes: seq<string>): Applied
  {
    if changes == [] then Applied(l, Ok(()))
    else
      var a := BlackAllAsWritten(l, raw, changes[..|changes| - 1]);
      if a.result.Fail? then a else BlackRawAsWritten(a.lists, changes[|changes| - 1], raw)
  }

  // ---------------------------------------------------------------------
  // `generate_ops`

  /** The end of `generate_ops`: the operations are sorted, and a target with
      no operations at all is an error. */
  function Finish(b: Applied): Applied
  {
    if b.result.Fail? then b
    else
      var s := b.lists.(ops := Sort(b.lists.ops));
      if s.ops == [] && s.raw == [] then Applied(s, Raise(BareException, "Empty Operations list"))
      else Applied(s, Ok(()))
  }

  /** `generate_ops`, with the blacklist as intended. */
  function Generated(l: OpsLists, versions: seq<string>, dev: map<string, seq<string>>,
                     wl: seq<string>, bl: seq<string>): Applied
    requires forall v :: v in versions ==> v in dev && v in l.focus
  {
    var g := Gathered(l, versions, dev);
    var w := WhiteAll(g, g.raw, wl);
    if w.result.Fail? then w else Finish(BlackAll(w.lists, g.raw, bl))
  }

  /** The steps of `generate_ops`: none of them changes the raw operations
      or the versions of the focus lists before the next one runs. */
  lemma GeneratedSteps(l: OpsLists, versions: seq<string>, dev: map<string, seq<string>>,
                       wl: seq<string>, bl: seq<string>)
    requires forall v :: v in versions ==> v in dev && v in l.focus
    ensures var g := Gathered(l, versions, dev);
      var w := WhiteAll(g, g.raw, wl);
      var b := BlackAll(w.lists, g.raw, bl);
      w.lists.raw == g.raw && w.lists.focus.Keys == g.focus.Keys == l.focus.Keys
      && b.lists.raw == g.raw && b.lists.focus.Keys == l.focus.Keys
      && Generated(l, versions, dev, wl, bl) == if w.result.Fail? then w else Finish(b)
  {
    var g := Gathered(l, versions, dev);
    var w := WhiteAll(g, g.raw, wl);
    WhiteAllKeeps(g, g.raw, wl);
    BlackAllKeeps(w.lists, g.raw, bl);
  }

  /** `generate_ops` as written. */
  function GeneratedAsWritten(l: OpsLists, versions: seq<string>, dev: map<string, seq<string>>,
                              wl: seq<string>, bl: seq<string>): Applied
    requires forall v :: v in versions ==> v in dev && v in l.focus
  {
    var g := Gathered(l, versions, dev);
    var w := WhiteAll(g, g.raw, wl);
    if w.result.Fail? then w else Finish(BlackAllAsWritten(w.lists, g.raw, bl))
  }

  /** What `generate_ops` promises: it fails only for a listed line whose
      version has no handler or for a target without operations; otherwise
      the operations are sorted and hold exactly the gathered and the
      whitelisted lines, less the blacklisted ones, which take priority. */
  lemma BlacklistPriority(l: OpsLists, versions: seq<string>, dev: map<string, seq<string>>,
                          wl: seq<string>, bl: seq<string>)
    requires forall v :: v in versions ==> v in dev && v in l.focus
    ensures var a := Generated(l, versions, dev, wl, bl);
      var g := Gathered(l, versions, dev);
      (a.result.Ok? <==>
         (forall c :: c in wl && c in g.raw ==> VersionOf(c) in l.focus)
         && (forall c :: c in bl && c in g.raw ==> VersionOf(c) in l.focus)
         && (g.ops != [] || g.raw != []))
      && (a.result.Ok? ==>
            Sorted(a.lists.ops)
            && forall x :: x in a.lists.ops <==> (x in g.ops || (x in wl && x in g.raw)) && !(x in bl && x in g.raw))
  {
    BlacklistSucceeds(l, versions, dev, wl, bl);
    BlacklistContents(l, versions, dev, wl, bl);
  }

  lemma BlacklistSucceeds(l: OpsLists, versions: seq<string>, dev: map<string, seq<string>>,
                          wl: seq<string>, bl: seq<string>)
    requires forall v :: v in versions ==> v in dev && v in l.focus
    ensures var g := Gathered(l, versions, dev);
      Generated(l, versions, dev, wl, bl).result.Ok? <==>
         (forall c :: c in wl && c in g.raw ==> VersionOf(c) in l.focus)
         && (forall c :: c in bl && c in g.raw ==> VersionOf(c) in l.focus)
         && (g.ops != [] || g.raw != [])
  {
    var g := Gathered(l, versions, dev);
    var w := WhiteAll(g, g.raw, wl);
    WhitelistSucceeds(g, g.raw, wl);
    WhiteAllKeeps(g, g.raw, wl);
    if w.result.Ok? {
      WhitelistAdds(g, g.raw, wl);
      var b := BlackAll(w.lists, g.raw, bl);
      BlacklistRemoves(w.lists, g.raw, bl);
      if b.result.Ok? {
        OpsMembers(g.ops, w.lists.ops, b.lists.ops, g.raw, wl, bl);
      }
    }
  }

  lemma BlacklistContents(l: OpsLists, versions: seq<string>, dev: map<string, seq<string>>,
                          wl: seq<string>, bl: seq<string>)
    requires forall v :: v in versions ==> v in dev && v in l.focus
    ensures var a := Generated(l, versions, dev, wl, bl);
      var g := Gathered(l, versions, dev);
      a.result.Ok? ==>
        Sorted(a.lists.ops)
        && forall x :: x in a.lists.ops <==> (x in g.ops || (x in wl && x in g.raw)) && !(x in bl && x in g.raw)
  {
    var g := Gathered(l, versions, dev);
    var w := WhiteAll(g, g.raw, wl);
    WhiteAllKeeps(g, g.raw, wl);
    if w.result.Ok? {
      WhitelistAdds(g, g.raw, wl);
      var b := BlackAll(w.lists, g.raw, bl);
      BlacklistRemoves(w.lists, g.raw, bl);
      if b.result.Ok? {
        OpsMembers(g.ops, w.lists.ops, b.lists.ops, g.raw, wl, bl);
      }
    }
  }

  /** The operations left by the whitelist and the blacklist, from the counts of their lines. */
  lemma OpsMembers(gops: seq<string>, wops: seq<string>, bops: seq<string>, raw: seq<string>,
                   wl: seq<string>, bl: seq<string>)
    requires forall x :: multiset(wops)[x] == multiset(gops)[x] + (multiset(wl)[x] as int) * multiset(raw)[x]
    requires forall x :: multiset(bops)[x] == if x in bl && x in raw then 0 else multiset(wops)[x]
    ensures forall x :: x in Sort(bops) <==> (x in gops || (x in wl && x in raw)) && !(x in bl && x in raw)
    ensures raw == [] ==> (Sort(bops) == [] <==> gops == [])
  {
    assert multiset(Sort(bops)) == multiset(bops);
    forall x ensures x in Sort(bops) <==> (x in gops || (x in wl && x in raw)) && !(x in bl && x in raw) {
      CountIff(multiset(bops)[x], multiset(wops)[x], multiset(gops)[x], multiset(wl)[x], multiset(raw)[x],
               x in bl && x in raw);
    }
    if raw == [] {
      OpsWithoutRaw(gops, wops, bops, raw, wl, bl);
    }
  }

  lemma OpsWithoutRaw(gops: seq<string>, wops: seq<string>, bops: seq<string>, raw: seq<string>,
                      wl: seq<string>, bl: seq<string>)
    requires raw == []
    requires forall x :: multiset(wops)[x] == multiset(gops)[x] + (multiset(wl)[x] as int) * multiset(raw)[x]
    requires forall x :: multiset(bops)[x] == if x in bl && x in raw then 0 else multiset(wops)[x]
    ensures Sort(bops) == [] <==> gops == []
  {
    forall x ensures multiset(bops)[x] == multiset(gops)[x] {
      assert x !in raw && multiset(raw)[x] == 0;
    }
    assert multiset(bops) == multiset(gops);
    assert multiset(Sort(bops)) == multiset(bops);
    assert |Sort(bops)| == |gops| by {
      assert |multiset(Sort(bops))| == |multiset(gops)|;
    }
  }

  /** The count arithmetic of `OpsMembers`. */
  lemma CountIff(b: int, w: int, g: int, m: int, r: int, dropped: bool)
    requires g >= 0 && m >= 0 && r >= 0
    requires w == g + m * r && b == if dropped then 0 else w
    ensures b > 0 <==> (g > 0 || (m > 0 && r > 0)) && !dropped
  {
    Positive(m, r);
  }

  lemma Positive(a: int, b: int)
    requires a >= 0 && b >= 0
    ensures a * b > 0 <==> a > 0 && b > 0
  {
    if a > 0 && b > 0 {
      assert a * b >= b;
    }
  }

  /** The inner loop of `_apply_blacklist` as written, for a line `c` of a
      version with a handler found `k` times among the raw operations: it
      completes iff the focus list and the operations each hold `c` at least
      `k` times, and it then takes exactly `k` copies out of each. */
  lemma {:induction false} BlackRawAsWrittenCounts(l: OpsLists, c: string, raw: seq<string>)
    requires VersionOf(c) in l.focus
    ensures var a := BlackRawAsWritten(l, c, raw);
      var v := VersionOf(c);
      var k := multiset(raw)[c];
      a.lists.raw == l.raw && v in a.lists.focus
      && (a.result.Ok? <==> k <= multiset(l.focus[v])[c] && k <= multiset(l.ops)[c])
      && (a.result.Ok? ==>
            multiset(a.lists.ops)[c] == multiset(l.ops)[c] - k
            && multiset(a.lists.focus[v])[c] == multiset(l.focus[v])[c] - k)
  {
    if raw != [] {
      var n := |raw| - 1;
      assert raw == raw[..n] + [raw[n]];
      BlackRawAsWrittenCounts(l, c, raw[..n]);
      var a := BlackRawAsWritten(l, c, raw[..n]);
      var v := VersionOf(c);
      if a.result.Ok? && raw[n] == c {
        if c in a.lists.focus[v] {
          RemoveFirstMultiset(a.lists.focus[v], c);
          if c in a.lists.ops {
            RemoveFirstMultiset(a.lists.ops, c);
          }
        }
      }
    }
  }

  /** Where the blacklist as written parts from the intended one: for a
      listed line found among the raw operations, the intended change always
      completes and leaves no copy in the operations, while the loop as
      written does so only when the operations hold the line exactly as
      often as the raw operations and the focus list at least as often. A
      line that the whitelist added to a profile that already had it, or a
      line outside the profile, breaks this. */
  lemma BlacklistAsWrittenDiffers(l: OpsLists, c: string, raw: seq<string>)
    requires c in raw && VersionOf(c) in l.focus
    ensures var b := BlackChange(l, c, raw);
      b.result.Ok? && c !in b.lists.ops
    ensures var a := BlackRawAsWritten(l, c, raw);
      var k := multiset(raw)[c];
      (a.result.Ok? && c !in a.lists.ops)
        <==> multiset(l.ops)[c] == k && k <= multiset(l.focus[VersionOf(c)])[c]
  {
    BlackRawAsWrittenCounts(l, c, raw);
    var b := BlackChange(l, c, raw);
    assert multiset(b.lists.ops)[c] == 0;
    var a := BlackRawAsWritten(l, c, raw);
    assert c !in a.lists.ops <==> multiset(a.lists.ops)[c] == 0;
  }

  /** The version of a line of the method list is the version it was made with. */
  lemma VersionOfLine(v: string, p: string, m: string, t: string)
    requires ':' !in v && ':' !in p && ':' !in m
    requires v != [] && v[0] !in Whitespace && t != [] && t[|t| - 1] !in Whitespace
    ensures VersionOf(Api.Line(v, p, m, t)) == v
  {
    var line := Api.Line(v, p, m, t);
    assert line[0] == v[0] && line[|line| - 1] == t[|t| - 1];
    StripNothing(line, Whitespace);
    Api.LineSplit(v, p, m, t);
  }

  /** The first loop of `WhiteRaw` that fails decides the result. */
  lemma {:induction false} WhiteRawStop(l: OpsLists, c: string, raw: seq<string>, j: nat)
    requires j <= |raw| && WhiteRaw(l, c, raw[..j]).result.Fail?
    ensures WhiteRaw(l, c, raw) == WhiteRaw(l, c, raw[..j])
    decreases |raw| - j
  {
    if j < |raw| {
      assert raw[..j + 1][..j] == raw[..j];
      WhiteRawStop(l, c, raw, j + 1);
    } else {
      assert raw[..j] == raw;
    }
  }

  lemma {:induction false} WhiteAllStop(l: OpsLists, raw: seq<string>, wl: seq<string>, i: nat)
    requires i <= |wl| && WhiteAll(l, raw, wl[..i]).result.Fail?
    ensures WhiteAll(l, raw, wl) == WhiteAll(l, raw, wl[..i])
    decreases |wl| - i
  {
    if i < |wl| {
      assert wl[..i + 1][..i] == wl[..i];
      WhiteAllStop(l, raw, wl, i + 1);
    } else {
      assert wl[..i] == wl;
    }
  }

  lemma {:induction false} BlackAllStop(l: OpsLists, raw: seq<string>, bl: seq<string>, i: nat)
    requires i <= |bl| && BlackAll(l, raw, bl[..i]).result.Fail?
    ensures BlackAll(l, raw, bl) == BlackAll(l, raw, bl[..i])
    decreases |bl| - i
  {
    if i < |bl| {
      assert bl[..i + 1][..i] == bl[..i];
      BlackAllStop(l, raw, bl, i + 1);
    } else {
      assert bl[..i] == bl;
    }
  }

  // ---------------------------------------------------------------------
  // Requests

  /** `execute`: the first endpoint key and the handler of the request's
      version are looked up, then the handler's `api_requester` runs on the
      endpoint, the inline query and the parameters put together. */
  function Dispatch(focus: map<string, seq<string>>, auth: Api.Auth, pythonVersion: string,
                    req: Inputs.ReqState, send: Api.Call -> Api.Response): (r: Result<Api.Outcome>)
    ensures r.Fail? <==> req.endpointKey == [] || req.version !in focus
    ensures req.endpointKey == [] ==> r.Fail? && r.error.kind == IndexError
    ensures req.endpointKey != [] && req.version !in focus ==> r.Fail? && r.error.kind == KeyError
  {
    if req.endpointKey == [] then Raise(IndexError, "list index out of range")
    else if req.version !in focus then Raise(KeyError, "'" + req.version + "'")
    else Ok(Api.Requested(focus[req.version], req.version, auth, pythonVersion, req.verb,
                          req.endpoint + req.inlineQuery + req.param, req.endpointKey[0], send))
  }

  /** A request whose first key is outside its handler's non-empty focus list
      sends nothing; any other request goes to
      `https://<server>/api/<version>/<endpoint><inline query><parameters>`. */
  lemma DispatchUrl(focus: map<string, seq<string>>, auth: Api.Auth, pythonVersion: string,
                    req: Inputs.ReqState, send: Api.Call -> Api.Response)
    requires req.endpointKey != [] && req.version in focus
    ensures var o := Dispatch(focus, auth, pythonVersion, req, send).value;
      var f := focus[req.version];
      (f != [] && req.endpointKey[0] !in f ==> o.sent == [] && o.result.Fail? && o.result.error.kind == ApiHandlerError)
      && (f == [] || req.endpointKey[0] in f ==>
            forall c :: c in o.sent ==>
              ("server" in auth
               && c.url == "https://" + auth["server"] + "/api/" + req.version + "/" + (req.endpoint + req.inlineQuery + req.param)))
  {
    var f := focus[req.version];
    var e := req.endpoint + req.inlineQuery + req.param;
    if f != [] && req.endpointKey[0] !in f {
      Api.RefusedBeforeRequest(f, req.version, auth, pythonVersion, req.verb, e, req.endpointKey[0], send);
    } else {
      Api.RequestUrl(f, req.version, auth, pythonVersion, req.verb, e, req.endpointKey[0], send);
    }
  }

  // ---------------------------------------------------------------------
  // The `info` text of an operation

  /** The keys a parameter's documentation must have. */
  const InfoKeys: seq<string> := ["name", "description", "required", "in", "type"]

  /** `_secure_keys`: each listed key the dictionary lacks is added with the
      value `'N/A'`, in the order of the list. */
  function Secured(d: seq<(string, Json)>, keys: seq<string>): seq<(string, Json)>
  {
    if keys == [] then d
    else
      var p := Secured(d, keys[..|keys| - 1]);
      var k := keys[|keys| - 1];
      if HasKey(p, k) then p else Set(p, k, Str("N/A"))
  }

  /** A key of the dictionary keeps its value; a listed key it lacks reads
      `'N/A'`; any other key is still missing. */
  lemma {:induction false} SecuredGet(d: seq<(string, Json)>, keys: seq<string>, k: string)
    ensures Get(Secured(d, keys), k)
         == if HasKey(d, k) then Get(d, k) else if k in keys then Some(Str("N/A")) else None
  {
    if keys != [] {
      var n := |keys| - 1;
      assert keys == keys[..n] + [keys[n]];
      SecuredGet(d, keys[..n], k);
      var p := Secured(d, keys[..n]);
      if !HasKey(p, keys[n]) {
        GetSet(p, keys[n], Str("N/A"), k);
      }
    }
  }

  /** The pairs already there stay first and in their order. */
  lemma {:induction false} SecuredPrefix(d: seq<(string, Json)>, keys: seq<string>)
    ensures d <= Secured(d, keys)
  {
    if keys != [] {
      var n := |keys| - 1;
      SecuredPrefix(d, keys[..n]);
      var p := Secured(d, keys[..n]);
      if !HasKey(p, keys[n]) {
        SetAbsent(p, keys[n], Str("N/A"));
      }
    }
  }

  /** `len(x)`: the number of items, pairs or characters; other values have no length. */
  function Length(j: Json): (r: Result<nat>)
    ensures r.Ok? <==> j.Arr? || j.Obj? || j.Str?
  {
    match j
    case Arr(items) => Ok(|items|)
    case Obj(fields) => Ok(|fields|)
    case Str(s) => Ok(|s|)
    case _ => Raise(TypeError, "object of type '" + TypeName(j) + "' has no len()")
  }

  /** What `for x in j` visits in a value that has a length: the items of a
      list, the keys of a dictionary, the characters of a string. */
  function Elements(j: Json): (r: seq<Json>)
    requires Length(j).Ok?
    ensures |r| == Length(j).value
  {
    match j
    case Arr(items) => items
    case Obj(fields) => seq(|fields|, i requires 0 <= i < |fields| => Str(fields[i].0))
    case Str(s) => seq(|s|, i requires 0 <= i < |s| => Str([s[i]]))
  }

  /** `'%12s' % ' '` and `'%14s' % ' '`, the indents of a parameter's lines. */
  const Pad12: string := "            "
  const Pad14: string := "              "

  lemma PadWidths()
    ensures Pad12 == RightAlign(" ", 12) && Pad14 == RightAlign(" ", 14)
  {
  }

  /** A parameter that has every key the `info` text reads. */
  predicate Complete(p: seq<(string, Json)>)
  {
    forall k :: k in InfoKeys ==> HasKey(p, k)
  }

  /** Securing the keys makes a parameter complete. */
  lemma SecuredComplete(d: seq<(string, Json)>)
    ensures Complete(Secured(d, InfoKeys))
  {
    forall k | k in InfoKeys
      ensures HasKey(Secured(d, InfoKeys), k)
    {
      SecuredGet(d, InfoKeys, k);
    }
  }

  /** `p[k]` for a key that is there. */
  function Field(p: seq<(string, Json)>, k: string): Json
    requires HasKey(p, k)
  {
    Get(p, k).value
  }

  /** The three lines of one secured parameter: its name, its description,
      and whether it is required, where and as what type it is passed. */
  function Block(p: seq<(string, Json)>): (r: seq<string>)
    requires Complete(p)
    ensures |r| == 3
  {
    [Pad12 + " -" + PyStr(Field(p, "name")),
     Pad14 + " Description: " + PyStr(Field(p, "description")) + ".",
     Pad14 + " Additional info: This parameter is "
       + Requirement(Field(p, "required"))
       + "REQUIRED to run and should be provided in the " + PyStr(Field(p, "in"))
       + " as a " + PyStr(Field(p, "type")) + ".\n"]
  }

  /** The block of a parameter once its keys are secured. */
  function ParamBlock(p: seq<(string, Json)>): (r: seq<string>)
    ensures |r| == 3
  {
    SecuredComplete(p);
    Block(Secured(p, InfoKeys))
  }

  /** The word put before `REQUIRED`. */
  function Requirement(required: Json): string
  {
    if Truthy(required) then "" else "NOT "
  }

  /** A value other than a dictionary has no `keys()`. */
  function NoKeys(p: Json): Result<seq<string>>
  {
    Raise(AttributeError, "'" + TypeName(p) + "' object has no attribute 'keys'")
  }

  /** `_gen_parameter_output`: the blocks of the parameters, in order; a
      parameter that is not a dictionary has no `keys()`. */
  function ParameterLines(params: seq<Json>): (r: Result<seq<string>>)
  {
    if params == [] then Ok([])
    else
      var r := ParameterLines(params[..|params| - 1]);
      var p := params[|params| - 1];
      if r.Fail? then r
      else if !p.Obj? then NoKeys(p)
      else Ok(r.value + ParamBlock(p.fields))
  }

  /** The four heading lines of the `info` text. */
  function InfoHead(description: Json, req: Inputs.ReqState, count: nat): seq<string>
  {
    [RightAlign("Description:", 12) + " [" + PyStr(description) + "]",
     RightAlign("Endpoint:", 12) + " [/" + req.version + req.endpointMatched + "]",
     RightAlign("Method:", 12) + " [" + req.verb + "]",
     RightAlign("Parameters:", 12) + " [" + IntToString(count) + "]"]
  }

  /** The lines of `_gen_info_output` for the documentation of an operation. */
  function InfoLines(doc: seq<(string, Json)>, req: Inputs.ReqState): (r: Result<seq<string>>)
  {
    match Get(doc, "description")
    case None => Raise(KeyError, "'description'")
    case Some(description) =>
      match Get(doc, "parameters")
      case None => Raise(KeyError, "'parameters'")
      case Some(params) =>
        match Length(params)
        case Fail(e) => Fail(e)
        case Ok(count) =>
          var head := InfoHead(description, req, count);
          if params == Arr([Str("")]) then Ok(head)
          else
            match ParameterLines(Elements(params))
            case Fail(e) => Fail(e)
            case Ok(blocks) => Ok(head + blocks)
  }

  /** `_gen_info_output`: the lines joined by newlines. */
  function InfoOutput(doc: seq<(string, Json)>, req: Inputs.ReqState): Result<string>
  {
    var r := InfoLines(doc, req);
    if r.Fail? then Fail(r.error) else Ok(Join(r.value, "\n"))
  }

  /** The parameter blocks fail only on a parameter that is not a
      dictionary, and otherwise give three lines per parameter. */
  lemma {:induction false} ParameterLinesCount(params: seq<Json>)
    ensures var r := ParameterLines(params);
      (r.Ok? <==> forall i :: 0 <= i < |params| ==> params[i].Obj?)
      && (r.Ok? ==> |r.value| == 3 * |params|)
  {
    if params != [] {
      var n := |params| - 1;
      ParameterLinesCount(params[..n]);
      ParameterLinesSnoc(params);
      AllDictsSnoc(params);
    }
  }

  /** Every parameter is a dictionary iff all but the last are and the last is. */
  lemma AllDictsSnoc(params: seq<Json>)
    requires params != []
    ensures var n := |params| - 1;
      (forall i :: 0 <= i < |params| ==> params[i].Obj?)
        <==> (forall i :: 0 <= i < n ==> params[..n][i].Obj?) && params[n].Obj?
  {
    var n := |params| - 1;
    assert forall i :: 0 <= i < n ==> params[..n][i] == params[i];
  }

  /** One more parameter: the result so far, then the last one's block. */
  lemma ParameterLinesSnoc(params: seq<Json>)
    requires params != []
    ensures var n := |params| - 1;
      var r := ParameterLines(params[..n]);
      var p := params[n];
      ParameterLines(params).Ok? == (r.Ok? && p.Obj?)
      && (r.Ok? && p.Obj? ==> |ParameterLines(params).value| == |r.value| + 3)
  {
  }

  /** The blocks of the first `i + 1` parameters from those of the first `i`. */
  lemma ParameterLinesNext(params: seq<Json>, i: nat, block: seq<string>)
    requires i < |params| && ParameterLines(params[..i]).Ok?
    requires params[i].Obj? && block == ParamBlock(params[i].fields)
    ensures ParameterLines(params[..i + 1]) == Ok(ParameterLines(params[..i]).value + block)
  {
    PrefixStep(params, i);
  }

  /** A parameter that is not a dictionary ends the blocks with an error. */
  lemma ParameterLinesNoKeys(params: seq<Json>, i: nat)
    requires i < |params| && ParameterLines(params[..i]).Ok? && !params[i].Obj?
    ensures ParameterLines(params[..i + 1]) == NoKeys(params[i])
  {
    PrefixStep(params, i);
  }

  /** The first parameter that is not a dictionary decides the result. */
  lemma {:induction false} ParameterLinesStop(params: seq<Json>, j: nat)
    requires j <= |params| && ParameterLines(params[..j]).Fail?
    ensures ParameterLines(params) == ParameterLines(params[..j])
    decreases |params| - j
  {
    if j < |params| {
      PrefixStep(params, j);
      ParameterLinesStop(params, j + 1);
    } else {
      assert params[..j] == params;
    }
  }

  /** The `info` text fails exactly when the documentation lacks a
      description or parameters, when the parameters have no length, or when
      they are not `['']` and one of them is not a dictionary. */
  lemma InfoLinesOk(doc: seq<(string, Json)>, req: Inputs.ReqState)
    ensures var params := Get(doc, "parameters");
      InfoLines(doc, req).Ok? <==>
        HasKey(doc, "description") && params.Some? && Length(params.value).Ok?
        && (params.value == Arr([Str("")])
            || forall i :: 0 <= i < |Elements(params.value)| ==> Elements(params.value)[i].Obj?)
  {
    var params := Get(doc, "parameters");
    if params.Some? && Length(params.value).Ok? {
      ParameterLinesCount(Elements(params.value));
    }
  }

  /** The `Parameters:` line shows how many parameters there are, and after
      the four heading lines there are three lines per parameter, or none
      for `['']`. */
  lemma InfoLinesCount(doc: seq<(string, Json)>, req: Inputs.ReqState)
    requires InfoLines(doc, req).Ok?
    ensures var r := InfoLines(doc, req).value;
      var params := Get(doc, "parameters");
      params.Some? && Length(params.value).Ok?
      && r[3] == RightAlign("Parameters:", 12) + " [" + IntToString(Length(params.value).value) + "]"
      && |r| == 4 + if params.value == Arr([Str("")]) then 0 else 3 * Length(params.value).value
  {
    var params := Get(doc, "parameters").value;
    if params != Arr([Str("")]) {
      ParameterLinesCount(Elements(params));
    }
  }

  /** A parameter block says NOT REQUIRED exactly when the parameter has a
      `required` key with a false value: a missing key is secured as `'N/A'`,
      which is true. Every missing key shows as `N/A`. */
  lemma BlockRequired(p: seq<(string, Json)>)
    ensures var s := Secured(p, InfoKeys);
      var req := Get(p, "required");
      HasKey(s, "required") && (Requirement(Field(s, "required")) == "NOT " <==> req.Some? && !Truthy(req.value))
    ensures var s := Secured(p, InfoKeys);
      forall k :: k in InfoKeys ==> Get(s, k) == if HasKey(p, k) then Get(p, k) else Some(Str("N/A"))
  {
    forall k | k in InfoKeys
      ensures Get(Secured(p, InfoKeys), k) == if HasKey(p, k) then Get(p, k) else Some(Str("N/A"))
    {
      SecuredGet(p, InfoKeys, k);
    }
    assert "required" in InfoKeys;
  }

  // ---------------------------------------------------------------------
  // The handler object

  /** `OperationsHandler`: the instantiated API versions with each handler's
      `dev` list, the configured whitelist and blacklist, and the lists the
      methods change. The focus lists of the API handlers are held here, by
      version. */
  class OperationsHandler {
    const versions: seq<string>
    const dev: map<string, seq<string>>
    const whitelist: seq<string>
    const blacklist: seq<string>
    const auth: Api.Auth
    const sysVersion: string
    var ops: seq<string>
    var rawOps: seq<string>
    var focus: map<string, seq<string>>

    /** The lists as a value. */
    function Lists(): OpsLists
      reads this
    {
      OpsLists(ops, rawOps, focus)
    }

    /** Every instantiated version has a handler with its lists. */
    predicate Valid()
      reads this
    {
      forall v :: v in versions ==> v in dev && v in focus
    }

    constructor (versions: seq<string>, dev: map<string, seq<string>>, focus: map<string, seq<string>>,
                 whitelist: seq<string>, blacklist: seq<string>, auth: Api.Auth, sysVersion: string)
      requires forall v :: v in versions ==> v in dev && v in focus
      ensures Valid()
      ensures this.versions == versions && this.dev == dev && this.whitelist == whitelist
      ensures this.blacklist == blacklist && this.auth == auth && this.sysVersion == sysVersion
      ensures Lists() == OpsLists([], [], focus)
    {
      this.versions := versions;
      this.dev := dev;
      this.whitelist := whitelist;
      this.blacklist := blacklist;
      this.auth := auth;
      this.sysVersion := sysVersion;
      ops := [];
      rawOps := [];
      this.focus := focus;
    }

    /** The first loop of `generate_ops`. */
    method Gather()
      requires Valid()
      modifies this
      ensures Lists() == Gathered(old(Lists()), versions, dev)
    {
      var i := 0;
      while i < |versions|
        invariant 0 <= i <= |versions|
        invariant focus == old(focus)
        invariant rawOps == old(rawOps) + Flatten(versions[..i], dev)
        invariant ops == old(ops) + Flatten(versions[..i], focus)
      {
        assert versions[..i + 1][..i] == versions[..i];
        rawOps := rawOps + dev[versions[i]];
        ops := ops + focus[versions[i]];
        i := i + 1;
      }
      assert versions[..i] == versions;
    }

    /** `_apply_whitelist`. */
    method ApplyWhitelist() returns (r: Result<()>)
      modifies this
      ensures var a := WhiteAll(old(Lists()), old(rawOps), whitelist);
        Lists() == a.lists && r == a.result
    {
      ghost var start := Lists();
      var raw := rawOps;
      var i := 0;
      while i < |whitelist|
        invariant 0 <= i <= |whitelist|
        invariant rawOps == raw
        invariant WhiteAll(start, raw, whitelist[..i]) == Applied(Lists(), Ok(()))
      {
        assert whitelist[..i + 1][..i] == whitelist[..i];
        r := WhitelistLine(whitelist[i]);
        if r.Fail? {
          WhiteAllStop(start, raw, whitelist, i + 1);
          return;
        }
        i := i + 1;
      }
      assert whitelist[..i] == whitelist;
      r := Ok(());
    }

    /** The inner loop of `_apply_whitelist`: one whitelisted line against
        every raw operation. */
    method WhitelistLine(c: string) returns (r: Result<()>)
      modifies this
      ensures var a := WhiteRaw(old(Lists()), c, old(rawOps));
        Lists() == a.lists && r == a.result
      ensures rawOps == old(rawOps)
    {
      ghost var before := Lists();
      var raw := rawOps;
      var j := 0;
      while j < |raw|
        invariant 0 <= j <= |raw|
        invariant rawOps == raw
        invariant WhiteRaw(before, c, raw[..j]) == Applied(Lists(), Ok(()))
      {
        assert raw[..j + 1][..j] == raw[..j];
        if c == raw[j] {
          var v := VersionOf(c);
          if v !in focus {
            r := Raise(KeyError, "'" + v + "'");
            WhiteRawStop(before, c, raw, j + 1);
            return;
          }
          focus := focus[v := focus[v] + [raw[j]]];
          ops := ops + [raw[j]];
        }
        j := j + 1;
      }
      assert raw[..j] == raw;
      r := Ok(());
    }

    /** `_apply_blacklist` as intended: every copy of a listed line found
        among the raw operations is removed. */
    method ApplyBlacklist() returns (r: Result<()>)
      modifies this
      ensures var a := BlackAll(old(Lists()), old(rawOps), blacklist);
        Lists() == a.lists && r == a.result
    {
      ghost var start := Lists();
      var i := 0;
      while i < |blacklist|
        invariant 0 <= i <= |blacklist|
        invariant rawOps == old(rawOps)
        invariant BlackAll(start, rawOps, blacklist[..i]) == Applied(Lists(), Ok(()))
      {
        assert blacklist[..i + 1][..i] == blacklist[..i];
        var c := blacklist[i];
        if c in rawOps {
          var v := VersionOf(c);
          if v !in focus {
            r := Raise(KeyError, "'" + v + "'");
            BlackAllStop(start, rawOps, blacklist, i + 1);
            return;
          }
          focus := focus[v := Without(focus[v], c)];
          ops := Without(ops, c);
        }
        i := i + 1;
      }
      assert blacklist[..i] == blacklist;
      r := Ok(());
    }

    /** `generate_ops`. */
    method GenerateOps() returns (r: Result<()>)
      requires Valid()
      modifies this
      ensures var a := Generated(old(Lists()), versions, dev, whitelist, blacklist);
        Lists() == a.lists && r == a.result
      ensures Valid()
    {
      ghost var g := Gathered(Lists(), versions, dev);
      GeneratedSteps(Lists(), versions, dev, whitelist, blacklist);
      Gather();
      r := ApplyWhitelist();
      if r.Fail? {
        return;
      }
      r := ApplyBlacklist();
      if r.Fail? {
        return;
      }
      r := SortOps();
    }

    /** The end of `generate_ops`. */
    method SortOps() returns (r: Result<()>)
      modifies this
      ensures Applied(Lists(), r) == Finish(Applied(old(Lists()), Ok(())))
    {
      ops := Sort(ops);
      if ops == [] && rawOps == [] {
        r := Raise(BareException, "Empty Operations list");
      } else {
        r := Ok(());
      }
    }

    /** `_information`'s text for the documentation of the matched operation. */
    method GenInfoOutput(doc: seq<(string, Json)>, req: Inputs.ReqState) returns (r: Result<string>)
      ensures r == InfoOutput(doc, req)
    {
      var description := Get(doc, "description");
      if description.None? {
        return Raise(KeyError, "'description'");
      }
      var params := Get(doc, "parameters");
      if params.None? {
        return Raise(KeyError, "'parameters'");
      }
      var count := Length(params.value);
      if count.Fail? {
        return Fail(count.error);
      }
      var output := InfoHead(description.value, req, count.value);
      if params.value != Arr([Str("")]) {
        var blocks := GenParameterOutput(Elements(params.value), output);
        if blocks.Fail? {
          return Fail(blocks.error);
        }
        output := blocks.value;
      }
      r := Ok(Join(output, "\n"));
    }

    /** `_gen_parameter_output`: the block of each parameter appended to the output. */
    method GenParameterOutput(params: seq<Json>, output: seq<string>) returns (r: Result<seq<string>>)
      ensures var p := ParameterLines(params);
        r == if p.Fail? then Fail(p.error) else Ok(output + p.value)
    {
      var blocks: seq<string> := [];
      var i := 0;
      while i < |params|
        invariant 0 <= i <= |params|
        invariant ParameterLines(params[..i]) == Ok(blocks)
      {
        if !params[i].Obj? {
          ParameterLinesNoKeys(params, i);
          ParameterLinesStop(params, i + 1);
          return NoKeys(params[i]);
        }
        var block := ParameterOutput(params[i].fields);
        ParameterLinesNext(params, i, block);
        blocks := blocks + block;
        i := i + 1;
      }
      assert params[..i] == params;
      r := Ok(output + blocks);
    }

    /** The lines of one parameter, once its keys are secured. */
    method ParameterOutput(p: seq<(string, Json)>) returns (block: seq<string>)
      ensures block == ParamBlock(p)
    {
      var secured := SecureKeys(p, InfoKeys);
      SecuredComplete(p);
      block := Block(secured);
    }

    /** `_secure_keys`. */
    method SecureKeys(d: seq<(string, Json)>, keys: seq<string>) returns (r: seq<(string, Json)>)
      ensures r == Secured(d, keys)
    {
      r := d;
      var i := 0;
      while i < |keys|
        invariant 0 <= i <= |keys|
        invariant r == Secured(d, keys[..i])
      {
        assert keys[..i + 1][..i] == keys[..i];
        if !HasKey(r, keys[i]) {
          r := Set(r, keys[i], Str("N/A"));
        }
        i := i + 1;
      }
      assert keys[..i] == keys;
    }

    /** `execute` for the API versions: the handler of the request's version
        checks the key against its focus list and a fresh requester sends the
        request. */
    method Execute(req: Inputs.ReqState, send: Api.Call -> Api.Response) returns (r: Result<string>)
      ensures var d := Dispatch(focus, auth, Api.PythonVersion(sysVersion), req, send);
        r == if d.Fail? then Fail(d.error) else d.value.result
    {
      if req.endpointKey == [] {
        return Raise(IndexError, "list index out of range");
      }
      if req.version !in focus {
        return Raise(KeyError, "'" + req.version + "'");
      }
      var key := req.endpointKey[0];
      var f := focus[req.version];
      if f != [] && key !in f {
        return Raise(ApiHandlerError, "Requested endpoint [" + key + "] not found on authorized endpoints list.");
      }
      var requester := new Api.ApiRequester(auth, sysVersion);
      r := requester.Demand(req.verb, "/" + req.version + "/" + (req.endpoint + req.inlineQuery + req.param), send);
    }
  }
}
