/** The JavaScript built-ins the widget's core leans on, stated over Dafny
    sequences: optional values, string truthiness, `Array.prototype.indexOf`,
    `Array.prototype.find`, `String.prototype.indexOf` / `includes`,
    `String.prototype.replace` with a string pattern, and
    `String.prototype.split` on a one-character separator. */
module Prelude {

  /** A value that may be `undefined` (or `null`, where the caller says so). */
  datatype Option<+T> = None | Some(value: T)

  /** JavaScript truthiness of an optional string: `undefined` and `""` are falsy. */
  predicate Truthy(s: Option<string>) {
    s.Some? && s.value != ""
  }

  // ---------------------------------------------------------------------------
  // Array.prototype.indexOf

  /** The position of the first `x` in `s`, or -1 when `s` holds no `x`. */
  function IndexOf<T(==)>(s: seq<T>, x: T): (r: int)
    ensures -1 <= r < |s|
    ensures r == -1 <==> x !in s
    ensures 0 <= r ==> s[r] == x && x !in s[..r]
  {
    if |s| == 0 then -1
    else if s[0] == x then 0
    else
      var k := IndexOf(s[1..], x);
      assert s[1..][..if k < 0 then 0 else k] == s[1..if k < 0 then 1 else k + 1];
      if k < 0 then -1 else k + 1
  }

  // ---------------------------------------------------------------------------
  // Array.prototype.find

  /** The position of the first element that satisfies `p`, or -1. */
  function FindIndex<T>(s: seq<T>, p: T -> bool): (r: int)
    ensures -1 <= r < |s|
    ensures 0 <= r ==> p(s[r])
    ensures forall i :: 0 <= i < |s| && (r < 0 || i < r) ==> !p(s[i])
  {
    if |s| == 0 then -1
    else if p(s[0]) then 0
    else
      var k := FindIndex(s[1..], p);
      assert forall i :: 1 <= i < |s| ==> s[i] == s[1..][i - 1];
      if k < 0 then -1 else k + 1
  }

  /** `s.find(p)`: the first element satisfying `p`, or `undefined`. */
  function Find<T>(s: seq<T>, p: T -> bool): (r: Option<T>)
    ensures r.Some? <==> exists i :: 0 <= i < |s| && p(s[i])
    ensures r.Some? ==> p(r.value) && r.value in s
    ensures r.Some? ==>
              exists i :: 0 <= i < |s| && s[i] == r.value && p(s[i]) && forall j :: 0 <= j < i ==> !p(s[j])
  {
    var k := FindIndex(s, p);
    if k < 0 then None else Some(s[k])
  }

  // ---------------------------------------------------------------------------
  // String.prototype.indexOf, includes and replace (string pattern)

  /** `pat` occurs in `s` starting at position `i`. */
  predicate OccursAt(s: string, pat: string, i: int) {
    0 <= i && i + |pat| <= |s| && s[i..i + |pat|] == pat
  }

  /** `s.indexOf(pat)`: the first position where `pat` occurs, or -1. */
  function FirstIndexOf(s: string, pat: string): (r: int)
    ensures -1 <= r <= |s|
    ensures r == -1 <==> forall i :: !OccursAt(s, pat, i)
    ensures 0 <= r ==> OccursAt(s, pat, r) && forall i :: 0 <= i < r ==> !OccursAt(s, pat, i)
    decreases |s|
  {
    if |s| < |pat| then -1
    else if s[..|pat|] == pat then
      assert OccursAt(s, pat, 0);
      0
    else
      var k := FirstIndexOf(s[1..], pat);
      ShiftOccurrence(s, pat);
      if k < 0 then -1 else k + 1
  }

  /** An occurrence in `s[1..]` at `i` is an occurrence in `s` at `i + 1`, and
      every occurrence in `s` after position 0 arises this way. */
  lemma ShiftOccurrence(s: string, pat: string)
    requires |s| > 0
    ensures forall i :: 0 <= i ==> (OccursAt(s[1..], pat, i) <==> OccursAt(s, pat, i + 1))
    ensures forall i :: 0 < i ==> (OccursAt(s, pat, i) <==> OccursAt(s[1..], pat, i - 1))
  {
    forall i | 0 <= i ensures OccursAt(s[1..], pat, i) <==> OccursAt(s, pat, i + 1) {
      if 0 <= i && i + |pat| <= |s| - 1 {
        assert s[1..][i..i + |pat|] == s[i + 1..i + 1 + |pat|];
      }
    }
  }

  /** `s.includes(pat)`: the pattern occurs somewhere in `s`. */
  predicate Includes(s: string, pat: string)
    ensures Includes(s, pat) <==> exists i :: OccursAt(s, pat, i)
  {
    FirstIndexOf(s, pat) >= 0
  }

  /** `s.replace(pat, rep)` with a string pattern: only the first occurrence is
      replaced, and `s` is returned unchanged when `pat` does not occur. */
  function ReplaceFirst(s: string, pat: string, rep: string): (r: string)
    ensures !Includes(s, pat) ==> r == s
    ensures Includes(s, pat) ==>
              var i := FirstIndexOf(s, pat);
              |r| == |s| - |pat| + |rep| &&
              r[..i] == s[..i] && r[i..i + |rep|] == rep && r[i + |rep|..] == s[i + |pat|..] &&
              forall j :: 0 <= j < i ==> !OccursAt(s, pat, j)
  {
    var i := FirstIndexOf(s, pat);
    if i < 0 then s
    else
      var r := s[..i] + rep + s[i + |pat|..];
      assert r[..i] == s[..i];
      assert r[i..i + |rep|] == rep;
      assert r[i + |rep|..] == s[i + |pat|..];
      r
  }

  /** Removing the first occurrence of `pat` loses exactly that occurrence:
      putting `pat` back at the same position gives the original string. */
  lemma {:induction false} ReplaceFirstRemovesOneOccurrence(s: string, pat: string)
    requires Includes(s, pat)
    ensures var i := FirstIndexOf(s, pat);
            var r := ReplaceFirst(s, pat, "");
            |r| == |s| - |pat| && r[..i] + pat + r[i..] == s
  {
    var i := FirstIndexOf(s, pat);
    var r := ReplaceFirst(s, pat, "");
    assert r == s[..i] + s[i + |pat|..];
    assert r[..i] == s[..i];
    assert r[i..] == s[i + |pat|..];
    assert s[i..i + |pat|] == pat;
    assert s == s[..i] + s[i..i + |pat|] + s[i + |pat|..];
  }

  // ---------------------------------------------------------------------------
  // String.prototype.split on a one-character separator

  /** The pieces joined back with the separator between them. */
  function Join(pieces: seq<string>, sep: char): string
    requires |pieces| > 0
  {
    if |pieces| == 1 then pieces[0] else pieces[0] + [sep] + Join(pieces[1..], sep)
  }

  /** `s.split(sep)`: always at least one piece; the pieces contain no
      separator and joining them back with the separator restores `s`. */
  function Split(s: string, sep: char): (pieces: seq<string>)
    ensures |pieces| > 0
    ensures Join(pieces, sep) == s
    ensures forall k :: 0 <= k < |pieces| ==> sep !in pieces[k]
  {
    if |s| == 0 then [""]
    else
      var rest := Split(s[1..], sep);
      if s[0] == sep then
        assert s == [sep] + s[1..];
        [""] + rest
      else
        var head := [s[0]] + rest[0];
        var pieces := [head] + rest[1..];
        assert pieces[1..] == rest[1..];
        assert |rest| > 1 ==> rest == [rest[0]] + rest[1..];
        assert s == [s[0]] + s[1..];
        pieces
  }

  /** A string without the separator splits into itself alone. */
  lemma {:induction false} SplitWithoutSeparator(s: string, sep: char)
    requires sep !in s
    ensures Split(s, sep) == [s]
  {
    if |s| > 0 {
      assert sep !in s[1..] by {
        forall k | 0 <= k < |s| - 1 ensures s[1..][k] != sep { assert s[1..][k] == s[k + 1]; }
      }
      SplitWithoutSeparator(s[1..], sep);
    }
  }

  /** Splitting `a + [sep] + b`, where `a` holds no separator, yields `a`
      followed by the pieces of `b`. */
  lemma {:induction false} SplitAtFirstSeparator(a: string, b: string, sep: char)
    requires sep !in a
    ensures Split(a + [sep] + b, sep) == [a] + Split(b, sep)
  {
    if |a| == 0 {
      assert a + [sep] + b == [sep] + b;
      assert ([sep] + b)[1..] == b;
    } else {
      var s := a + [sep] + b;
      assert s[1..] == a[1..] + [sep] + b;
      assert sep !in a[1..] by {
        forall k | 0 <= k < |a| - 1 ensures a[1..][k] != sep { assert a[1..][k] == a[k + 1]; }
      }
      SplitAtFirstSeparator(a[1..], b, sep);
      assert [a[0]] + a[1..] == a;
    }
  }
}
