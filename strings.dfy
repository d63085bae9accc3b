/** String operations with the semantics of Python's and JavaScript's built-in
    string methods, shared by the modules that model the backend services and
    the frontend pages.  Strings are sequences of Unicode scalar values, which
    is also what Python's `len` and slicing count. */
module Strings {

  /** `s.startswith(p)` */
  predicate StartsWith(s: string, p: string) {
    |p| <= |s| && s[..|p|] == p
  }

  /** `s.endswith(p)` */
  predicate EndsWith(s: string, p: string) {
    |p| <= |s| && s[|s| - |p|..] == p
  }

  /** `w in s` for strings: `w` occurs as a contiguous piece of `s`. */
  predicate Contains(s: string, w: string)
    decreases |s|
  {
    StartsWith(s, w) || (|s| > |w| && Contains(s[1..], w))
  }

  /** `w` occurs in `s` starting at index `i`. */
  ghost predicate OccursAt(s: string, w: string, i: int) {
    0 <= i && i + |w| <= |s| && s[i..i + |w|] == w
  }

  lemma {:induction false} ContainsIff(s: string, w: string)
    ensures Contains(s, w) <==> exists i :: OccursAt(s, w, i)
    decreases |s|
  {
    if StartsWith(s, w) {
      assert OccursAt(s, w, 0);
    } else if |s| > |w| {
      ContainsIff(s[1..], w);
      if Contains(s[1..], w) {
        var i :| OccursAt(s[1..], w, i);
        assert s[1..][i..i + |w|] == s[i + 1..i + 1 + |w|];
        assert OccursAt(s, w, i + 1);
      } else {
        forall i | OccursAt(s, w, i) ensures false {
          assert i != 0;
          assert s[1..][i - 1..i - 1 + |w|] == s[i..i + |w|];
          assert OccursAt(s[1..], w, i - 1);
        }
      }
    } else {
      forall i | OccursAt(s, w, i) ensures false {
      }
    }
  }

  /** `s.find(w)`: the first index where `w` occurs, or -1. */
  function IndexOf(s: string, w: string): (i: int)
    ensures i == -1 <==> !Contains(s, w)
    ensures i >= 0 ==> i + |w| <= |s| && s[i..i + |w|] == w
    ensures i >= 0 ==> forall j :: 0 <= j < i ==> !OccursAt(s, w, j)
    decreases |s|
  {
    if |s| < |w| then -1
    else if s[..|w|] == w then 0
    else
      var k := IndexOf(s[1..], w);
      if k < 0 then -1
      else
        assert s[k + 1..k + 1 + |w|] == s[1..][k..k + |w|];
        assert forall j :: 1 <= j < k + 1 ==> !OccursAt(s, w, j) by {
          forall j | 1 <= j < k + 1 ensures !OccursAt(s, w, j) {
            assert !OccursAt(s[1..], w, j - 1);
            if j + |w| <= |s| {
              assert s[j..j + |w|] == s[1..][j - 1..j - 1 + |w|];
            }
          }
        }
        k + 1
  }

  /** A piece of the second half is a piece of the concatenation. */
  lemma {:induction false} ContainsAppend(s: string, t: string, w: string)
    requires Contains(t, w)
    ensures Contains(s + t, w) && Contains(t + s, w)
  {
    ContainsIff(t, w);
    var i :| OccursAt(t, w, i);
    assert (s + t)[|s| + i..|s| + i + |w|] == t[i..i + |w|];
    assert OccursAt(s + t, w, |s| + i);
    assert (t + s)[i..i + |w|] == t[i..i + |w|];
    assert OccursAt(t + s, w, i);
    ContainsIff(s + t, w);
    ContainsIff(t + s, w);
  }

  /** A word whose first character is missing from `s` does not occur in it. */
  lemma {:induction false} ContainsFirstChar(s: string, w: string)
    requires |w| > 0 && w[0] !in s
    ensures !Contains(s, w)
  {
    ContainsIff(s, w);
    forall i | 0 <= i ensures !OccursAt(s, w, i) {
      if i + |w| <= |s| {
        assert s[i..i + |w|][0] == s[i];
      }
    }
  }

  /** `s.replace(w, r, 1)` replaces the first occurrence and nothing else. */
  lemma {:induction false} ReplaceFirstAt(s: string, w: string, r: string)
    requires |w| > 0
    ensures !Contains(s, w) ==> ReplaceFirst(s, w, r) == s
    ensures Contains(s, w) ==> ReplaceFirst(s, w, r) == s[..IndexOf(s, w)] + r + s[IndexOf(s, w) + |w|..]
    decreases |s|
  {
    if |s| >= |w| && s[..|w|] != w {
      ReplaceFirstAt(s[1..], w, r);
      if Contains(s[1..], w) {
        ReplaceFirstLater(s, w, r);
      }
    }
  }

  /** Slices of `s[1..]` as slices of `s`. */
  lemma TailSlices(s: string, k: nat, n: nat)
    requires 0 < |s| && k + n < |s|
    ensures [s[0]] + s[1..][..k] == s[..k + 1] && s[1..][k + n..] == s[k + 1 + n..]
  {
  }

  lemma Regroup4(a: string, b: string, c: string, d: string)
    ensures a + (b + c + d) == (a + b) + c + d
  {
  }

  /** Without an occurrence at the front, the first one is one place later
      than in the tail. */
  lemma IndexOfLater(s: string, w: string)
    requires |w| > 0 && |s| >= |w| && s[..|w|] != w && Contains(s[1..], w)
    ensures IndexOf(s, w) == IndexOf(s[1..], w) + 1
  {
  }

  /** The step of `ReplaceFirstAt` when the occurrence is not at the front. */
  lemma {:induction false} ReplaceFirstLater(s: string, w: string, r: string)
    requires |w| > 0 && |s| >= |w| && s[..|w|] != w && Contains(s[1..], w)
    requires ReplaceFirst(s[1..], w, r) == s[1..][..IndexOf(s[1..], w)] + r + s[1..][IndexOf(s[1..], w) + |w|..]
    ensures ReplaceFirst(s, w, r) == s[..IndexOf(s, w)] + r + s[IndexOf(s, w) + |w|..]
  {
    var t := s[1..];
    var k := IndexOf(t, w);
    IndexOfLater(s, w);
    calc {
      ReplaceFirst(s, w, r);
      [s[0]] + ReplaceFirst(t, w, r);
      [s[0]] + (t[..k] + r + t[k + |w|..]);
      { Regroup4([s[0]], t[..k], r, t[k + |w|..]); }
      ([s[0]] + t[..k]) + r + t[k + |w|..];
      { TailSlices(s, k, |w|); }
      s[..k + 1] + r + s[k + 1 + |w|..];
    }
  }

  /** Python `s[:n]`, including the meaning of a negative `n`. */
  function SliceTo<T>(s: seq<T>, n: int): (r: seq<T>)
    ensures |r| <= |s| && r == s[..|r|]
    ensures 0 <= n <= |s| ==> |r| == n
    ensures n >= |s| ==> r == s
  {
    if n >= |s| then s
    else if n >= 0 then s[..n]
    else if |s| + n >= 0 then s[..|s| + n]
    else []
  }

  /** `'*' * n` */
  function Stars(n: nat): (r: string)
    ensures |r| == n && forall i :: 0 <= i < n ==> r[i] == '*'
  {
    seq(n, _ => '*')
  }

  /** Python `s.replace(w, r)` (and JavaScript's `replaceAll`) for a non-empty
      pattern: occurrences are replaced from left to right and never overlap. */
  function Replace(s: string, w: string, r: string): string
    requires |w| > 0
    decreases |s|
  {
    if |s| < |w| then s
    else if s[..|w|] == w then r + Replace(s[|w|..], w, r)
    else [s[0]] + Replace(s[1..], w, r)
  }

  /** Python `s.replace(w, r, 1)`: only the leftmost occurrence is replaced. */
  function ReplaceFirst(s: string, w: string, r: string): string
    requires |w| > 0
    decreases |s|
  {
    if |s| < |w| then s
    else if s[..|w|] == w then r + s[|w|..]
    else [s[0]] + ReplaceFirst(s[1..], w, r)
  }

  /** Python `s.split(sep)` and JavaScript `s.split(sep)` for a non-empty
      separator string. */
  function Split(s: string, sep: string): (r: seq<string>)
    requires |sep| > 0
    ensures |r| >= 1
    decreases |s|
  {
    if |s| < |sep| then [s]
    else if s[..|sep|] == sep then [""] + Split(s[|sep|..], sep)
    else
      var t := Split(s[1..], sep);
      [[s[0]] + t[0]] + t[1..]
  }

  /** `sep.join(parts)` */
  function Join(parts: seq<string>, sep: string): string {
    if |parts| == 0 then ""
    else if |parts| == 1 then parts[0]
    else parts[0] + sep + Join(parts[1..], sep)
  }

  lemma {:induction false} JoinCons(p: string, ps: seq<string>, sep: string)
    requires |ps| > 0
    ensures Join([p] + ps, sep) == p + sep + Join(ps, sep)
  {
    assert ([p] + ps)[1..] == ps;
  }

  /** Splitting and joining again with the same separator gives back the input. */
  lemma {:induction false} JoinSplit(s: string, sep: string)
    requires |sep| > 0
    ensures Join(Split(s, sep), sep) == s
    decreases |s|
  {
    if |s| < |sep| {
    } else if s[..|sep|] == sep {
      JoinSplit(s[|sep|..], sep);
      JoinSplitAtSep(s, sep);
    } else {
      JoinSplit(s[1..], sep);
      JoinSplitAtChar(s, sep);
    }
  }

  lemma {:induction false} JoinSplitAtSep(s: string, sep: string)
    requires |sep| > 0 && |s| >= |sep| && s[..|sep|] == sep
    requires Join(Split(s[|sep|..], sep), sep) == s[|sep|..]
    ensures Join(Split(s, sep), sep) == s
  {
    var t := Split(s[|sep|..], sep);
    assert Split(s, sep) == [""] + t;
    JoinCons("", t, sep);
    assert s == s[..|sep|] + s[|sep|..];
  }

  lemma {:induction false} JoinSplitAtChar(s: string, sep: string)
    requires |sep| > 0 && |s| >= |sep| && s[..|sep|] != sep
    requires Join(Split(s[1..], sep), sep) == s[1..]
    ensures Join(Split(s, sep), sep) == s
  {
    var t := Split(s[1..], sep);
    assert Split(s, sep) == [[s[0]] + t[0]] + t[1..];
    JoinPrependChar(s[0], t, sep);
    assert s == [s[0]] + s[1..];
  }

  /** Putting a character in front of the first piece puts it in front of the join. */
  lemma {:induction false} JoinPrependChar(c: char, t: seq<string>, sep: string)
    requires |t| >= 1
    ensures Join([[c] + t[0]] + t[1..], sep) == [c] + Join(t, sep)
  {
    if |t| == 1 {
      assert [[c] + t[0]] + t[1..] == [[c] + t[0]];
    } else {
      JoinCons(t[0], t[1..], sep);
      assert t == [t[0]] + t[1..];
      JoinCons([c] + t[0], t[1..], sep);
    }
  }

  /** A string without the character `c` splits on `[c]` into itself. */
  lemma {:induction false} SplitNoSep(s: string, c: char)
    requires c !in s
    ensures Split(s, [c]) == [s]
    decreases |s|
  {
    if |s| >= 1 {
      assert s[..1] == [s[0]];
      SplitNoSep(s[1..], c);
      assert s == [s[0]] + s[1..];
    }
  }

  /** `Split(p + [c] + rest, [c])` when `p` has no `c`. */
  lemma {:induction false} SplitAfterPiece(p: string, c: char, rest: string)
    requires c !in p
    ensures Split(p + [c] + rest, [c]) == [p] + Split(rest, [c])
    decreases |p|
  {
    var s := p + [c] + rest;
    if |p| == 0 {
      assert s[..1] == [c];
      assert s[1..] == rest;
    } else {
      assert s[..1] == [p[0]];
      assert s[1..] == p[1..] + [c] + rest;
      SplitAfterPiece(p[1..], c, rest);
      assert [p[0]] + p[1..] == p;
    }
  }

  /** Joining pieces that do not contain a one-character separator and
      splitting again on it gives back the pieces. */
  lemma {:induction false} SplitJoinChar(parts: seq<string>, c: char)
    requires |parts| >= 1
    requires forall i :: 0 <= i < |parts| ==> c !in parts[i]
    ensures Split(Join(parts, [c]), [c]) == parts
    decreases |parts|
  {
    if |parts| == 1 {
      SplitNoSep(parts[0], c);
    } else {
      SplitJoinChar(parts[1..], c);
      SplitAfterPiece(parts[0], c, Join(parts[1..], [c]));
      assert parts == [parts[0]] + parts[1..];
    }
  }

  /** No character of `s` satisfies `p`. */
  predicate NoneOf(s: string, p: char -> bool) {
    forall i :: 0 <= i < |s| ==> !p(s[i])
  }

  /** `s` cut at every character satisfying `sep`, the separators dropped:
      `re.split` with a one-character class, and `str.splitlines` up to empty
      pieces. */
  function SplitWhere(s: string, sep: char -> bool): (r: seq<string>)
    ensures |r| >= 1
    decreases |s|
  {
    if |s| == 0 then [""]
    else if sep(s[0]) then [""] + SplitWhere(s[1..], sep)
    else
      var t := SplitWhere(s[1..], sep);
      [[s[0]] + t[0]] + t[1..]
  }

  lemma {:induction false} SplitWherePieces(s: string, sep: char -> bool)
    ensures forall i :: 0 <= i < |SplitWhere(s, sep)| ==> NoneOf(SplitWhere(s, sep)[i], sep)
    decreases |s|
  {
    if |s| > 0 {
      SplitWherePieces(s[1..], sep);
    }
  }

  lemma {:induction false} SplitWhereNone(s: string, sep: char -> bool)
    requires NoneOf(s, sep)
    ensures SplitWhere(s, sep) == [s]
    decreases |s|
  {
    if |s| > 0 {
      SplitWhereNone(s[1..], sep);
      assert s == [s[0]] + s[1..];
    }
  }

  lemma {:induction false} SplitWhereAfter(p: string, c: char, rest: string, sep: char -> bool)
    requires NoneOf(p, sep) && sep(c)
    ensures SplitWhere(p + [c] + rest, sep) == [p] + SplitWhere(rest, sep)
    decreases |p|
  {
    var s := p + [c] + rest;
    if |p| == 0 {
      assert s[1..] == rest;
    } else {
      assert s[1..] == p[1..] + [c] + rest;
      SplitWhereAfter(p[1..], c, rest, sep);
      assert [p[0]] + p[1..] == p;
    }
  }

  /** Joining pieces free of separators with a separator character and
      splitting again gives back the pieces. */
  lemma {:induction false} SplitWhereJoin(parts: seq<string>, c: char, sep: char -> bool)
    requires |parts| >= 1 && sep(c)
    requires forall i :: 0 <= i < |parts| ==> NoneOf(parts[i], sep)
    ensures SplitWhere(Join(parts, [c]), sep) == parts
    decreases |parts|
  {
    if |parts| == 1 {
      SplitWhereNone(parts[0], sep);
    } else {
      SplitWhereJoin(parts[1..], c, sep);
      SplitWhereAfter(parts[0], c, Join(parts[1..], [c]), sep);
      assert parts == [parts[0]] + parts[1..];
    }
  }

  /** Whitespace as Python's `str.isspace` defines it. */
  predicate IsPySpace(c: char) {
    c == ' ' || ('\t' <= c <= '\r') || ('\U{1C}' <= c <= '\U{1F}') || c == '\U{85}' || c == '\U{A0}'
    || c == '\U{1680}' || ('\U{2000}' <= c <= '\U{200A}') || c == '\U{2028}' || c == '\U{2029}'
    || c == '\U{202F}' || c == '\U{205F}' || c == '\U{3000}'
  }

  /** Whitespace and line terminators as JavaScript's `String.prototype.trim` defines them. */
  predicate IsJsSpace(c: char) {
    c == ' ' || ('\t' <= c <= '\r') || c == '\U{A0}' || c == '\U{1680}'
    || ('\U{2000}' <= c <= '\U{200A}') || c == '\U{2028}' || c == '\U{2029}'
    || c == '\U{202F}' || c == '\U{205F}' || c == '\U{3000}' || c == '\U{FEFF}'
  }

  /** Removes every leading character satisfying `ws`. */
  function TrimLeft(s: string, ws: char -> bool): (r: string)
    ensures |r| <= |s| && r == s[|s| - |r|..]
    ensures |r| > 0 ==> !ws(r[0])
    ensures forall i :: 0 <= i < |s| - |r| ==> ws(s[i])
    decreases |s|
  {
    if |s| > 0 && ws(s[0]) then TrimLeft(s[1..], ws) else s
  }

  /** Removes every trailing character satisfying `ws`. */
  function TrimRight(s: string, ws: char -> bool): (r: string)
    ensures |r| <= |s| && r == s[..|r|]
    ensures |r| > 0 ==> !ws(r[|r| - 1])
    ensures forall i :: |r| <= i < |s| ==> ws(s[i])
    decreases |s|
  {
    if |s| > 0 && ws(s[|s| - 1]) then TrimRight(s[..|s| - 1], ws) else s
  }

  /** Python `s.strip()` (with `IsPySpace`) and JavaScript `s.trim()` (with `IsJsSpace`). */
  function Trim(s: string, ws: char -> bool): (r: string)
    ensures |r| > 0 ==> !ws(r[0]) && !ws(r[|r| - 1])
  {
    TrimRight(TrimLeft(s, ws), ws)
  }

  /** Python `s.strip()` */
  function PyStrip(s: string): string {
    Trim(s, IsPySpace)
  }

  /** Decimal digits of a natural number, as `str(n)` writes them. */
  function NatToString(n: nat): (r: string)
    ensures |r| >= 1
    ensures forall i :: 0 <= i < |r| ==> '0' <= r[i] <= '9'
  {
    var d := [('0' as int + n % 10) as char];
    if n < 10 then d else NatToString(n / 10) + d
  }

  /** `str(i)` for an integer: a minus sign before the digits of a negative number. */
  function IntToString(i: int): (r: string)
    ensures |r| >= 1
    ensures (i < 0) <==> r[0] == '-'
  {
    if i < 0 then "-" + NatToString(-i) else NatToString(i)
  }

  /** Deletes every character satisfying `ws`. */
  function Erase(s: string, ws: char -> bool): (r: string)
    ensures forall i :: 0 <= i < |r| ==> !ws(r[i])
    decreases |s|
  {
    if |s| == 0 then "" else (if ws(s[0]) then "" else [s[0]]) + Erase(s[1..], ws)
  }

  lemma {:induction false} EraseAppend(a: string, b: string, ws: char -> bool)
    ensures Erase(a + b, ws) == Erase(a, ws) + Erase(b, ws)
    decreases |a|
  {
    if |a| > 0 {
      assert (a + b)[1..] == a[1..] + b;
      EraseAppend(a[1..], b, ws);
    } else {
      assert a + b == b;
    }
  }
}
