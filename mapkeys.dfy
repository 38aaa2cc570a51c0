/** The key map shared by `MapResponseDoc` and `MapSelect` (rbkcli/base/jsops.py):
    the path strings `[name#level#type][name#level#type]...` recorded while
    walking a JSON value, and their split into simple and nested keys. */
module MapKeys {
  import opened Strings
  import opened Lists
  import opened Sorting

  /** One step of a path: a dictionary key, its nesting level and a type name. */
  datatype Segment = Segment(key: string, level: int, kind: string)

  /** `'[%s#%s#%s]' % (key, level, type)`. */
  function Render(s: Segment): (r: string)
    ensures |r| >= 2 && r[0] == '[' && r[|r| - 1] == ']'
  {
    "[" + s.key + "#" + IntToString(s.level) + "#" + s.kind + "]"
  }

  /** The cursor string: the rendered segments one after the other. */
  function Path(c: seq<Segment>): (r: string)
    ensures c == [] <==> r == ""
  {
    if c == [] then "" else Render(c[0]) + Path(c[1..])
  }

  /** A path of two or more segments contains `][`, the mark of a nested key. */
  lemma PathNested(c: seq<Segment>)
    requires |c| >= 2
    ensures Contains(Path(c), "][")
  {
    var i := |Render(c[0])| - 1;
    PathMark(c);
    OccursContains(Path(c), "][", i);
  }

  /** The first segment's `]` meets the second segment's `[`. */
  lemma PathMark(c: seq<Segment>)
    requires |c| >= 2
    ensures OccursAt(Path(c), "][", |Render(c[0])| - 1)
  {
    var rest := Path(c[1..]);
    var next := Render(c[1]);
    assert rest == next + Path(c[2..]) by { assert c[1..][0] == c[1] && c[1..][1..] == c[2..]; }
    assert rest[0] == next[0];
    JoinMark(Render(c[0]), rest);
  }

  lemma JoinMark(a: string, b: string)
    requires |a| >= 1 && |b| >= 1 && a[|a| - 1] == ']' && b[0] == '['
    ensures OccursAt(a + b, "][", |a| - 1)
  {
    var s, i := a + b, |a| - 1;
    assert s[i] == ']' && s[i + 1] == '[';
    assert s[i..i + 2] == "][";
  }

  /** `cursor.replace(segment, '')` on the cursor's segments: every segment equal
      to the one being left is dropped. */
  function Without(c: seq<Segment>, s: Segment): (r: seq<Segment>)
    ensures forall x :: x in r <==> x in c && x != s
  {
    if c == [] then []
    else if c[0] == s then Without(c[1..], s)
    else [c[0]] + Without(c[1..], s)
  }

  /** Every segment of the cursor sits at a level no deeper than `level`. */
  predicate LevelsAtMost(c: seq<Segment>, level: int)
  {
    forall x :: x in c ==> x.level <= level
  }

  /** Leaving a segment one level deeper than the whole cursor gives the cursor
      back: the `replace` undoes the `+`. */
  lemma {:induction false} LeaveSegment(c: seq<Segment>, s: Segment)
    requires LevelsAtMost(c, s.level - 1)
    ensures Without(c + [s], s) == c
  {
    if c != [] {
      assert c[0] != s;
      assert (c + [s])[1..] == c[1..] + [s];
      LeaveSegment(c[1..], s);
    } else {
      assert [s][1..] == [];
    }
  }

  // ---------------------------------------------------------------------
  // Simple and nested keys (`gen_simple_keys` / `_gen_simple_keys`)

  /** The entries that contain `][`: paths of more than one segment. */
  function NestedKeys(full: seq<string>): seq<string>
  {
    if full == [] then []
    else
      var last := full[|full| - 1];
      NestedKeys(full[..|full| - 1]) + (if Contains(last, "][") then [last] else [])
  }

  /** The entries without `][`: single-segment paths. */
  function TopKeys(full: seq<string>): seq<string>
  {
    if full == [] then []
    else
      var last := full[|full| - 1];
      TopKeys(full[..|full| - 1]) + (if Contains(last, "][") then [] else [last])
  }

  /** Some entry among the first `m` nested ones starts with `k`. */
  predicate PrefixOfSomeBelow(k: string, nested: seq<string>, m: int)
  {
    exists i :: 0 <= i < m && i < |nested| && StartsWith(nested[i], k)
  }

  /** Some nested entry starts with `k`, so `k` is a dictionary with children. */
  predicate PrefixOfSome(k: string, nested: seq<string>)
  {
    PrefixOfSomeBelow(k, nested, |nested|)
  }

  /** The keys that no nested entry starts with. */
  function Unprefixed(keys: seq<string>, nested: seq<string>): seq<string>
  {
    if keys == [] then []
    else
      var last := keys[|keys| - 1];
      Unprefixed(keys[..|keys| - 1], nested) + (if PrefixOfSome(last, nested) then [] else [last])
  }

  function SimpleKeys(full: seq<string>): seq<string>
  {
    Unprefixed(TopKeys(full), NestedKeys(full))
  }

  lemma {:induction false} NestedKeysMembers(full: seq<string>)
    ensures forall k :: k in NestedKeys(full) <==> k in full && Contains(k, "][")
    ensures Distinct(full) ==> Distinct(NestedKeys(full))
  {
    if full != [] {
      var init := full[..|full| - 1];
      assert full == init + [full[|full| - 1]];
      NestedKeysMembers(init);
    }
  }

  lemma {:induction false} TopKeysMembers(full: seq<string>)
    ensures forall k :: k in TopKeys(full) <==> k in full && !Contains(k, "][")
    ensures Distinct(full) ==> Distinct(TopKeys(full))
  {
    if full != [] {
      var init := full[..|full| - 1];
      assert full == init + [full[|full| - 1]];
      TopKeysMembers(init);
    }
  }

  lemma {:induction false} UnprefixedMembers(keys: seq<string>, nested: seq<string>)
    ensures forall k :: k in Unprefixed(keys, nested) <==> k in keys && !PrefixOfSome(k, nested)
  {
    if keys != [] {
      var init := keys[..|keys| - 1];
      assert keys == init + [keys[|keys| - 1]];
      UnprefixedMembers(init, nested);
    }
  }

  /** The first loop of `_gen_simple_keys`: single-segment entries move from the
      copy `nested` to `allSimple`. */
  method SplitTop(full: seq<string>) returns (allSimple: seq<string>, nested: seq<string>)
    ensures allSimple == TopKeys(full) && nested == NestedKeys(full)
  {
    nested := full;
    allSimple := [];
    var i := 0;
    while i < |full|
      invariant 0 <= i <= |full|
      invariant nested == NestedKeys(full[..i]) + full[i..]
      invariant allSimple == TopKeys(full[..i])
    {
      var key := full[i];
      SplitTopStep(full, i);
      if !Contains(key, "][") && key in nested {
        nested := RemoveFirst(nested, key);
        allSimple := allSimple + [key];
      }
      i := i + 1;
    }
    assert full[..i] == full;
  }

  lemma SplitTopStep(full: seq<string>, i: nat)
    requires i < |full|
    ensures var key, nested := full[i], NestedKeys(full[..i]) + full[i..];
      && key in nested
      && NestedKeys(full[..i + 1]) + full[i + 1..] == (if Contains(key, "][") then nested else RemoveFirst(nested, key))
      && TopKeys(full[..i + 1]) == TopKeys(full[..i]) + (if Contains(key, "][") then [] else [key])
  {
    var key, done := full[i], full[..i];
    KeysSnoc(full, i);
    assert full[i..] == [key] + full[i + 1..];
    assert NestedKeys(done) + full[i..] == NestedKeys(done) + [key] + full[i + 1..];
    if !Contains(key, "][") {
      NestedKeysMembers(done);
      RemoveFirstSkip(NestedKeys(done), key, full[i + 1..]);
    }
  }

  lemma KeysSnoc(full: seq<string>, i: nat)
    requires i < |full|
    ensures NestedKeys(full[..i + 1]) == NestedKeys(full[..i]) + (if Contains(full[i], "][") then [full[i]] else [])
    ensures TopKeys(full[..i + 1]) == TopKeys(full[..i]) + (if Contains(full[i], "][") then [] else [full[i]])
  {
    assert full[..i + 1][..i] == full[..i] && full[..i + 1][i] == full[i];
  }

  /** The second loop: a simple entry is removed once some nested entry starts
      with it. */
  method DropPrefixed(allSimple: seq<string>, nested: seq<string>) returns (simple: seq<string>)
    requires Distinct(allSimple)
    ensures simple == Unprefixed(allSimple, nested)
  {
    simple := allSimple;
    var j := 0;
    while j < |allSimple|
      invariant 0 <= j <= |allSimple|
      invariant simple == Unprefixed(allSimple[..j], nested) + allSimple[j..]
    {
      var key := allSimple[j];
      var before := Unprefixed(allSimple[..j], nested);
      DropStep(allSimple, nested, j);
      simple := RemovePrefixed(simple, key, nested, before, allSimple[j + 1..]);
      j := j + 1;
    }
    assert allSimple[..j] == allSimple;
  }

  lemma DropStep(allSimple: seq<string>, nested: seq<string>, j: nat)
    requires Distinct(allSimple) && j < |allSimple|
    ensures var key, before := allSimple[j], Unprefixed(allSimple[..j], nested);
      && key !in before && key !in allSimple[j + 1..]
      && Unprefixed(allSimple[..j], nested) + allSimple[j..] == before + [key] + allSimple[j + 1..]
      && Unprefixed(allSimple[..j + 1], nested) == before + (if PrefixOfSome(key, nested) then [] else [key])
  {
    var key, before := allSimple[j], Unprefixed(allSimple[..j], nested);
    UnprefixedMembers(allSimple[..j], nested);
    assert key !in allSimple[..j] by {
      assert forall k :: 0 <= k < j ==> allSimple[..j][k] != key;
    }
    var after := allSimple[j + 1..];
    assert key !in after by {
      assert forall k :: 0 <= k < |after| ==> after[k] == allSimple[j + 1 + k];
    }
    assert allSimple[j..] == [key] + allSimple[j + 1..];
    assert allSimple[..j + 1][..j] == allSimple[..j] && allSimple[..j + 1][j] == key;
  }

  /** The inner loop over the nested entries for one simple `key`. */
  method RemovePrefixed(simple0: seq<string>, key: string, nested: seq<string>, before: seq<string>, after: seq<string>)
    returns (simple: seq<string>)
    requires simple0 == before + [key] + after && key !in before && key !in after
    ensures simple == before + (if PrefixOfSome(key, nested) then [] else [key]) + after
  {
    simple := simple0;
    var m := 0;
    while m < |nested|
      invariant 0 <= m <= |nested|
      invariant simple == before + (if PrefixOfSomeBelow(key, nested, m) then [] else [key]) + after
    {
      if StartsWith(nested[m], key) && key in simple {
        RemoveFirstSkip(before, key, after);
        simple := RemoveFirst(simple, key);
      }
      m := m + 1;
    }
  }

  /** The split made by `_gen_simple_keys`: `nested` copies the map and loses each
      single-segment entry, which goes to the simple list; then every simple entry
      that a nested entry starts with is removed. Applied to the distinct entries
      left by `list(set(...))`. */
  method GenSimpleKeys(full: seq<string>) returns (simple: seq<string>, nested: seq<string>)
    requires Distinct(full)
    ensures nested == NestedKeys(full) && simple == SimpleKeys(full)
    ensures forall k :: k in nested <==> k in full && Contains(k, "][")
    ensures forall k :: k in simple <==> k in full && !Contains(k, "][") && !PrefixOfSome(k, nested)
    ensures forall k :: k in simple ==> k !in nested
  {
    var allSimple;
    allSimple, nested := SplitTop(full);
    TopKeysMembers(full);
    NestedKeysMembers(full);
    UnprefixedMembers(allSimple, nested);
    simple := DropPrefixed(allSimple, nested);
  }

  /** What `mapit()` returns: the sorted distinct entries and their split. */
  datatype Map = Map(full: seq<string>, simpleKeys: seq<string>, nestedKeys: seq<string>)

  /** `_gen_all_maps`: `full = sorted(set(full))`, then the simple/nested split. */
  function AllMaps(entries: seq<string>): (m: Map)
    ensures StrictlySorted(m.full) && Elems(m.full) == Elems(entries)
  {
    var full := SortUnique(entries);
    Map(full, SimpleKeys(full), NestedKeys(full))
  }

  method GenAllMaps(entries: seq<string>) returns (m: Map)
    ensures m == AllMaps(entries)
    ensures StrictlySorted(m.full) && Elems(m.full) == Elems(entries)
    ensures forall k :: k in m.simpleKeys ==> k in m.full && k !in m.nestedKeys
    ensures forall k :: k in m.nestedKeys <==> k in entries && Contains(k, "][")
  {
    var full := SortUnique(entries);
    assert Distinct(full) by {
      forall a, b | 0 <= a < b < |full| ensures full[a] != full[b] {
        assert Lt(full[a], full[b]);
      }
    }
    var simple, nested := GenSimpleKeys(full);
    m := Map(full, simple, nested);
    assert forall k :: k in entries <==> k in Elems(entries);
    assert forall k :: k in full <==> k in Elems(full);
  }
}
