/** Python string operations the program relies on, written out over `seq<char>`:
    `in`, `startswith`, `split(sep)`, `split()`, `join`, `replace`, `strip`,
    `str(int)`, `int(str)` and the padding of `%Ns` and `{:<N}` formats. */
module Strings {
  import opened Wrappers

  /** `p` is a prefix of `s` (Python `s.startswith(p)`). */
  predicate StartsWith(s: string, p: string)
  {
    |p| <= |s| && s[..|p|] == p
  }

  /** `t` occurs in `s` at position `i`. */
  predicate OccursAt(s: string, t: string, i: int)
  {
    0 <= i && i + |t| <= |s| && s[i..i + |t|] == t
  }

  /** The leftmost occurrence of a non-empty `t` in `s` (Python `s.find(t)`). */
  function Find(s: string, t: string): (r: Option<nat>)
    requires |t| > 0
    ensures r.Some? ==> OccursAt(s, t, r.value) && forall j :: 0 <= j < r.value ==> !OccursAt(s, t, j)
    ensures r.None? ==> forall j :: !OccursAt(s, t, j)
    decreases |s|
  {
    if |s| < |t| then
      assert forall j :: !OccursAt(s, t, j);
      None
    else if s[..|t|] == t then
      assert OccursAt(s, t, 0);
      Some(0)
    else
      match Find(s[1..], t)
      case None =>
        assert forall j :: OccursAt(s, t, j) ==> j == 0 || OccursAt(s[1..], t, j - 1);
        None
      case Some(k) =>
        assert OccursAt(s, t, k + 1) by {
          assert s[k + 1..k + 1 + |t|] == s[1..][k..k + |t|];
        }
        assert forall j :: 0 < j < k + 1 && OccursAt(s, t, j) ==> OccursAt(s[1..], t, j - 1) by {
          forall j | 0 < j < k + 1 && OccursAt(s, t, j) ensures OccursAt(s[1..], t, j - 1) {
            assert s[1..][j - 1..j - 1 + |t|] == s[j..j + |t|];
          }
        }
        Some(k + 1)
  }

  /** Python `t in s`. */
  predicate Contains(s: string, t: string)
  {
    |t| == 0 || Find(s, t).Some?
  }

  lemma ContainsIff(s: string, t: string)
    ensures Contains(s, t) <==> exists i :: OccursAt(s, t, i)
  {
    if |t| == 0 { assert OccursAt(s, t, 0); }
  }

  lemma PrefixContains(s: string, t: string)
    requires StartsWith(s, t)
    ensures Contains(s, t)
  {
    assert OccursAt(s, t, 0);
    ContainsIff(s, t);
  }

  /** A string that contains `s` at a position also contains it. */
  lemma OccursContains(s: string, t: string, i: int)
    requires OccursAt(s, t, i)
    ensures Contains(s, t)
  {
    ContainsIff(s, t);
  }

  lemma ContainsChar(s: string, c: char)
    ensures Contains(s, [c]) <==> c in s
  {
    ContainsIff(s, [c]);
    if c in s {
      var i :| 0 <= i < |s| && s[i] == c;
      assert OccursAt(s, [c], i);
    }
    if exists i :: OccursAt(s, [c], i) {
      var i :| OccursAt(s, [c], i);
      assert s[i] == s[i..i + 1][0];
    }
  }

  /** Python `sep.join(parts)`. */
  function Join(parts: seq<string>, sep: string): string
  {
    if |parts| == 0 then ""
    else if |parts| == 1 then parts[0]
    else parts[0] + sep + Join(parts[1..], sep)
  }

  /** Joining one more part adds the separator and the part at the end. */
  lemma {:induction false} JoinSnoc(parts: seq<string>, x: string, sep: string)
    requires |parts| >= 1
    ensures Join(parts + [x], sep) == Join(parts, sep) + sep + x
  {
    if |parts| > 1 {
      assert (parts + [x])[1..] == parts[1..] + [x];
      JoinSnoc(parts[1..], x, sep);
    }
  }

  /** Python `s.split(sep)` for a non-empty separator: the pieces between the
      leftmost non-overlapping occurrences of `sep`. */
  function Split(s: string, sep: string): (r: seq<string>)
    requires |sep| > 0
    ensures |r| >= 1
    decreases |s|
  {
    match Find(s, sep)
    case None => [s]
    case Some(i) => [s[..i]] + Split(s[i + |sep|..], sep)
  }

  /** Joining the pieces of a split with the same separator gives back the string. */
  lemma {:induction false} JoinSplit(s: string, sep: string)
    requires |sep| > 0
    ensures Join(Split(s, sep), sep) == s
    decreases |s|
  {
    match Find(s, sep)
    case None =>
    case Some(i) =>
      var rest := s[i + |sep|..];
      var parts := [s[..i]] + Split(rest, sep);
      assert parts[0] == s[..i] && parts[1..] == Split(rest, sep);
      assert Join(parts, sep) == s[..i] + sep + Join(Split(rest, sep), sep);
      JoinSplit(rest, sep);
      assert s == s[..i] + sep + rest by {
        assert s[i..i + |sep|] == sep;
      }
  }

  /** No piece of a split contains the separator. */
  lemma {:induction false} SplitPiecesFree(s: string, sep: string)
    requires |sep| > 0
    ensures forall p :: p in Split(s, sep) ==> !Contains(p, sep)
    decreases |s|
  {
    match Find(s, sep)
    case None =>
      ContainsIff(s, sep);
    case Some(i) =>
      SplitPiecesFree(s[i + |sep|..], sep);
      ContainsIff(s[..i], sep);
      forall j ensures OccursAt(s[..i], sep, j) ==> OccursAt(s, sep, j) {
        OccursInPrefix(s, sep, i, j);
      }
  }

  lemma OccursInPrefix(s: string, t: string, n: int, j: int)
    requires 0 <= n <= |s|
    ensures OccursAt(s[..n], t, j) ==> OccursAt(s, t, j)
  {
    if OccursAt(s[..n], t, j) {
      assert s[..n][j..j + |t|] == s[j..j + |t|];
    }
  }

  /** Every character of a piece of a split occurs in the string. */
  lemma {:induction false} SplitChars(s: string, sep: string, p: string, c: char)
    requires |sep| > 0 && p in Split(s, sep) && c in p
    ensures c in s
    decreases |s|
  {
    match Find(s, sep)
    case None =>
    case Some(i) =>
      if p == s[..i] {
        var k :| 0 <= k < |p| && p[k] == c;
        assert s[k] == c;
      } else {
        SplitChars(s[i + |sep|..], sep, p, c);
        var k :| 0 <= k < |s[i + |sep|..]| && s[i + |sep|..][k] == c;
        assert s[i + |sep| + k] == c;
      }
  }

  /** A string without the separator splits into itself. */
  lemma SplitAbsent(s: string, sep: string)
    requires |sep| > 0 && !Contains(s, sep)
    ensures Split(s, sep) == [s]
  {
  }

  /** Splitting a join of separator-free pieces on a one-character separator
      gives back the pieces.  (With a longer separator an occurrence may straddle
      a piece boundary: `"a" + "aa" + "b"` splits on `"aa"` as `["", "ab"]`.) */
  lemma {:induction false} SplitJoin(parts: seq<string>, sep: string)
    requires |sep| == 1 && |parts| >= 1
    requires forall p :: p in parts ==> !Contains(p, sep)
    ensures Split(Join(parts, sep), sep) == parts
  {
    var s := Join(parts, sep);
    if |parts| == 1 {
      SplitAbsent(parts[0], sep);
    } else {
      var rest := Join(parts[1..], sep);
      assert s == parts[0] + sep + rest;
      var p := parts[0];
      assert OccursAt(s, sep, |p|) by { assert s[|p|..|p| + |sep|] == sep; }
      forall j | 0 <= j < |p| && OccursAt(s, sep, j) ensures false {
        assert p[j..j + 1] == s[j..j + 1];
        OccursContains(p, sep, j);
      }
      var f := Find(s, sep);
      assert f == Some(|p|);
      assert s[..|p|] == p;
      assert s[|p| + |sep|..] == rest;
      SplitJoin(parts[1..], sep);
    }
  }

  /** A text whose first character is absent from `s` does not occur in `s`. */
  lemma HeadAbsent(s: string, t: string)
    requires |t| > 0 && t[0] !in s
    ensures !Contains(s, t)
  {
    ContainsIff(s, t);
  }

  /** The separator right after a piece that lacks its first character is the
      first occurrence: the piece is the first part of the split. */
  lemma SplitFirst(a: string, sep: string, rest: string)
    requires |sep| > 0 && sep[0] !in a
    ensures Split(a + sep + rest, sep) == [a] + Split(rest, sep)
  {
    var s := a + sep + rest;
    assert OccursAt(s, sep, |a|) by { assert s[|a|..|a| + |sep|] == sep; }
    assert Find(s, sep) == Some(|a|);
    assert s[..|a|] == a;
    assert s[|a| + |sep|..] == rest;
  }

  /** The first piece of a split is a separator-free prefix of the text, and a
      separator that occurs makes two pieces or more. */
  lemma SplitHead(s: string, sep: string)
    requires |sep| > 0
    ensures StartsWith(s, Split(s, sep)[0]) && !Contains(Split(s, sep)[0], sep)
    ensures Contains(s, sep) ==> |Split(s, sep)| >= 2
  {
    SplitPiecesFree(s, sep);
  }

  /** `replace` on a text whose first occurrence of the pattern follows `a`. */
  lemma ReplaceFirst(a: string, sep: string, rest: string, b: string)
    requires |sep| > 0 && sep[0] !in a
    ensures Replace(a + sep + rest, sep, b) == a + b + Replace(rest, sep, b)
  {
    SplitFirst(a, sep, rest);
    var parts := Split(rest, sep);
    assert ([a] + parts)[1..] == parts;
  }

  /** Python `s.replace(a, b)` for a non-empty `a`: every leftmost non-overlapping
      occurrence of `a` is replaced by `b`. */
  function Replace(s: string, a: string, b: string): string
    requires |a| > 0
  {
    Join(Split(s, a), b)
  }

  /** Replacing a pattern that does not occur changes nothing. */
  lemma ReplaceAbsent(s: string, a: string, b: string)
    requires |a| > 0 && !Contains(s, a)
    ensures Replace(s, a, b) == s
  {
  }

  lemma {:induction false} JoinWithout(parts: seq<string>, sep: string, c: char)
    requires c !in sep && forall p :: p in parts ==> c !in p
    ensures c !in Join(parts, sep)
  {
    if |parts| > 1 {
      JoinWithout(parts[1..], sep, c);
    }
  }

  /** After replacing a one-character pattern by text that does not contain it,
      the pattern no longer occurs. */
  lemma ReplaceRemoves(s: string, c: char, b: string)
    requires c !in b
    ensures c !in Replace(s, [c], b)
  {
    SplitPiecesFree(s, [c]);
    forall p | p in Split(s, [c]) ensures c !in p {
      ContainsChar(p, c);
    }
    JoinWithout(Split(s, [c]), b, c);
  }

  /** Deleting a one-character pattern keeps every other character, in order. */
  lemma {:induction false} DeleteCharKeepsOthers(s: string, c: char, d: char)
    requires d != c
    ensures d in Replace(s, [c], "") <==> d in s
    decreases |s|
  {
    match Find(s, [c])
    case None =>
    case Some(i) =>
      var rest := s[i + 1..];
      DeleteCharKeepsOthers(rest, c, d);
      assert s == s[..i] + [c] + rest by { assert s[i..i + 1] == [c]; }
      JoinEmptySep(Split(s, [c]));
      JoinEmptySep(Split(rest, [c]));
  }

  lemma JoinEmptySep(parts: seq<string>)
    ensures |parts| > 0 ==> Join(parts, "") == parts[0] + Join(parts[1..], "")
  {
  }

  /** Python's whitespace characters for `str.split()` and `str.strip()`. */
  predicate IsSpace(c: char)
  {
    c in Whitespace
  }

  predicate NoSpace(s: string)
  {
    forall i :: 0 <= i < |s| ==> !IsSpace(s[i])
  }

  /** The longest prefix of `s` without whitespace. */
  function Token(s: string): (r: string)
    ensures |r| <= |s| && r == s[..|r|] && NoSpace(r)
    ensures |r| < |s| ==> IsSpace(s[|r|])
  {
    if s == [] || IsSpace(s[0]) then "" else [s[0]] + Token(s[1..])
  }

  /** Python `s.split()`: the maximal runs of non-whitespace characters. */
  function Words(s: string): (r: seq<string>)
    ensures forall w :: w in r ==> |w| > 0 && NoSpace(w)
    decreases |s|
  {
    if s == [] then []
    else if IsSpace(s[0]) then Words(s[1..])
    else
      var w := Token(s);
      [w] + Words(s[|w|..])
  }

  lemma {:induction false} TokenOfJoin(w: string, rest: string)
    requires NoSpace(w)
    ensures Token(w + " " + rest) == w
  {
    if w != [] {
      assert (w + " " + rest)[1..] == w[1..] + " " + rest;
      TokenOfJoin(w[1..], rest);
    }
  }

  /** Whitespace-splitting the space-join of non-empty words without whitespace
      gives back the words. */
  lemma {:induction false} WordsJoin(ws: seq<string>)
    requires forall w :: w in ws ==> |w| > 0 && NoSpace(w)
    ensures Words(Join(ws, " ")) == ws
  {
    if |ws| == 1 {
      WordsOfWord(ws[0]);
    } else if |ws| > 1 {
      var rest := Join(ws[1..], " ");
      var s := ws[0] + " " + rest;
      TokenOfJoin(ws[0], rest);
      assert s[|ws[0]|..] == " " + rest;
      assert Words(s[|ws[0]|..]) == Words(rest) by {
        assert (" " + rest)[1..] == rest;
      }
      WordsJoin(ws[1..]);
    }
  }

  lemma WordsOfWord(w: string)
    requires |w| > 0 && NoSpace(w)
    ensures Words(w) == [w]
  {
    assert Token(w) == w by { TokenAll(w); }
    assert w[|w|..] == [];
  }

  lemma {:induction false} TokenAll(w: string)
    requires NoSpace(w)
    ensures Token(w) == w
  {
    if w != [] { TokenAll(w[1..]); }
  }

  /** Python `s.strip(chars)`: drops leading and trailing characters of `cs`. */
  function StripSet(s: string, cs: set<char>): (r: string)
    ensures |r| <= |s|
    ensures r == [] || (r[0] !in cs && r[|r| - 1] !in cs)
    ensures exists i :: OccursAt(s, r, i)
    decreases |s|
  {
    if s == [] then
      assert OccursAt(s, s, 0);
      s
    else if s[0] in cs then
      var r := StripSet(s[1..], cs);
      var i :| OccursAt(s[1..], r, i);
      assert s[1..][i..i + |r|] == s[i + 1..i + 1 + |r|];
      assert OccursAt(s, r, i + 1);
      r
    else if s[|s| - 1] in cs then
      var r := StripSet(s[..|s| - 1], cs);
      var i :| OccursAt(s[..|s| - 1], r, i);
      OccursInPrefix(s, r, |s| - 1, i);
      r
    else
      assert OccursAt(s, s, 0);
      s
  }

  /** Stripping adds no character and keeps every character it does not strip. */
  lemma {:induction false} StripSetChars(s: string, cs: set<char>, c: char)
    ensures c in StripSet(s, cs) ==> c in s
    ensures c in s && c !in cs ==> c in StripSet(s, cs)
    decreases |s|
  {
    var r := StripSet(s, cs);
    var i :| OccursAt(s, r, i);
    if c in r {
      var k :| 0 <= k < |r| && r[k] == c;
      assert s[i + k] == c;
    }
    if s != [] && c in s && c !in cs {
      if s[0] in cs {
        StripSetChars(s[1..], cs, c);
      } else if s[|s| - 1] in cs {
        var k :| 0 <= k < |s| && s[k] == c;
        assert s[..|s| - 1][k] == c;
        StripSetChars(s[..|s| - 1], cs, c);
      }
    }
  }

  /** The ASCII characters Python's `str.strip()` and `str.split()` treat as
      whitespace: space, tab, newline, carriage return, vertical tab, form feed and
      the four separators `\x1c` to `\x1f`. */
  const Whitespace: set<char> := {' ', '\t', '\n', '\r', '\U{B}', '\U{C}', '\U{1C}', '\U{1D}', '\U{1E}', '\U{1F}'}

  /** Python `s.strip()`. */
  function Strip(s: string): string
  {
    StripSet(s, Whitespace)
  }

  lemma {:induction false} StripSetIdem(s: string, cs: set<char>)
    ensures StripSet(StripSet(s, cs), cs) == StripSet(s, cs)
  {
    var r := StripSet(s, cs);
    if r != [] {
      assert r[0] !in cs && r[|r| - 1] !in cs;
    }
  }

  /** Python `[x for x in xs if x != '']`. */
  function NonEmpty(xs: seq<string>): (r: seq<string>)
    ensures forall x :: x in r <==> x in xs && x != ""
    ensures |r| <= |xs|
  {
    if xs == [] then []
    else if xs[0] == "" then NonEmpty(xs[1..])
    else [xs[0]] + NonEmpty(xs[1..])
  }

  // ---------------------------------------------------------------------
  // Integers as text

  function DigitChar(d: nat): (c: char)
    requires d < 10
  {
    "0123456789"[d]
  }

  predicate IsDigit(c: char)
  {
    '0' <= c <= '9'
  }

  function DigitValue(c: char): (d: nat)
    requires IsDigit(c)
    ensures d < 10
  {
    (c as int) - ('0' as int)
  }

  lemma DigitRoundTrip(d: nat)
    requires d < 10
    ensures IsDigit(DigitChar(d)) && DigitValue(DigitChar(d)) == d
  {
  }

  /** Python `str(n)` for `n >= 0`. */
  function NatToString(n: nat): (r: string)
    ensures |r| > 0
    decreases n
  {
    if n < 10 then [DigitChar(n)] else NatToString(n / 10) + [DigitChar(n % 10)]
  }

  /** Python `str(n)`. */
  function IntToString(n: int): string
  {
    if n < 0 then "-" + NatToString(-n) else NatToString(n)
  }

  /** The value of a non-empty run of decimal digits. */
  function DigitsValue(s: string): nat
    requires forall i :: 0 <= i < |s| ==> IsDigit(s[i])
  {
    if s == [] then 0 else 10 * DigitsValue(s[..|s| - 1]) + DigitValue(s[|s| - 1])
  }

  predicate AllDigits(s: string)
  {
    |s| > 0 && forall i :: 0 <= i < |s| ==> IsDigit(s[i])
  }

  /** Python `int(s)` for a base-10 literal: optional surrounding whitespace and an
      optional sign before the digits; anything else raises ValueError. */
  function ParseInt(s: string): (r: Result<int>)
  {
    var t := Strip(s);
    if |t| > 0 && (t[0] == '-' || t[0] == '+') && AllDigits(t[1..]) then
      var v: int := DigitsValue(t[1..]);
      Ok(if t[0] == '-' then -v else v)
    else if AllDigits(t) then Ok(DigitsValue(t))
    else Fail(Error(ValueError, "invalid literal for int() with base 10"))
  }

  lemma {:induction false} NatToStringDigits(n: nat)
    ensures AllDigits(NatToString(n)) && DigitsValue(NatToString(n)) == n
    decreases n
  {
    var r := NatToString(n);
    if n < 10 {
      DigitRoundTrip(n);
    } else {
      NatToStringDigits(n / 10);
      DigitRoundTrip(n % 10);
      assert r[..|r| - 1] == NatToString(n / 10);
    }
  }

  /** `str(n)` holds digits and at most a leading minus sign. */
  lemma IntToStringChars(n: int, c: char)
    requires !IsDigit(c) && c != '-'
    ensures c !in IntToString(n)
  {
    var m := if n < 0 then -n else n;
    NatToStringDigits(m);
    if n < 0 {
      assert IntToString(n) == "-" + NatToString(m);
    }
  }

  /** `int(str(n)) == n`. */
  lemma IntToStringRoundTrip(n: int)
    ensures ParseInt(IntToString(n)) == Ok(n)
  {
    var s := IntToString(n);
    var m := if n < 0 then -n else n;
    NatToStringDigits(m);
    assert Strip(s) == s by {
      assert s[0] !in Whitespace;
      assert s[|s| - 1] !in Whitespace;
      StripNothing(s, Whitespace);
    }
    if n < 0 {
      assert s[1..] == NatToString(m);
    }
  }

  lemma StripNothing(s: string, cs: set<char>)
    requires s == [] || (s[0] !in cs && s[|s| - 1] !in cs)
    ensures StripSet(s, cs) == s
  {
  }

  /** Distinct integers have distinct decimal texts. */
  lemma IntToStringInjective(a: int, b: int)
    requires IntToString(a) == IntToString(b)
    ensures a == b
  {
    IntToStringRoundTrip(a);
    IntToStringRoundTrip(b);
  }

  // ---------------------------------------------------------------------
  // Padding

  function Spaces(n: int): (r: string)
    ensures |r| == if n < 0 then 0 else n
    ensures forall i :: 0 <= i < |r| ==> r[i] == ' '
  {
    if n <= 0 then "" else " " + Spaces(n - 1)
  }

  /** `'{:<w}'.format(s)`: `s` followed by spaces up to width `w`. */
  function LeftAlign(s: string, w: int): (r: string)
    ensures |r| == if |s| < w then w else |s|
    ensures r[..|s|] == s && forall i :: |s| <= i < |r| ==> r[i] == ' '
  {
    s + Spaces(w - |s|)
  }

  /** `'%Ns' % s`: spaces up to width `w` followed by `s`. */
  function RightAlign(s: string, w: int): (r: string)
    ensures |r| == if |s| < w then w else |s|
    ensures r[|r| - |s|..] == s && forall i :: 0 <= i < |r| - |s| ==> r[i] == ' '
  {
    Spaces(w - |s|) + s
  }

  /** Python `c * n`. */
  function Repeat(c: char, n: int): (r: string)
    ensures |r| == if n < 0 then 0 else n
    ensures forall i :: 0 <= i < |r| ==> r[i] == c
  {
    if n <= 0 then "" else [c] + Repeat(c, n - 1)
  }
}
