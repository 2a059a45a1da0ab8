/**
 * The ECMAScript string built-ins the pages call: `String.prototype.trim`
 * (through `trimStart` and `trimEnd`), `startsWith` and `includes`. `trim`
 * and `includes` are proved equal to independent characterisations;
 * `startsWith` is the prefix slice, proved equal to a character-by-character
 * comparison.
 */
module JsString {

  /**
   * ECMAScript's WhiteSpace and LineTerminator code points, the set that
   * `trim` strips: TAB, VT, FF, ZWNBSP, the Zs category, LF, CR, LS and PS.
   */
  predicate IsWhiteSpace(c: char) {
    var n := c as int;
    n == 0x09 || n == 0x0A || n == 0x0B || n == 0x0C || n == 0x0D ||
    n == 0x20 || n == 0xA0 || n == 0x1680 || (0x2000 <= n <= 0x200A) ||
    n == 0x2028 || n == 0x2029 || n == 0x202F || n == 0x205F ||
    n == 0x3000 || n == 0xFEFF
  }

  /** `s.startsWith(p)`. */
  predicate StartsWith(s: string, p: string)
    ensures StartsWith(s, p) <==> |p| <= |s| && forall i :: 0 <= i < |p| ==> s[i] == p[i]
  {
    |p| <= |s| && s[..|p|] == p
  }

  /** `s.trimStart()`: drops the leading white space. */
  function TrimStart(s: string): (r: string)
    ensures |r| <= |s|
    ensures r != [] ==> !IsWhiteSpace(r[0])
  {
    if s != [] && IsWhiteSpace(s[0]) then TrimStart(s[1..]) else s
  }

  /** `s.trimEnd()`: drops the trailing white space. */
  function TrimEnd(s: string): (r: string)
    ensures |r| <= |s|
    ensures r != [] ==> r[0] == s[0] && !IsWhiteSpace(r[|r| - 1])
  {
    if s != [] && IsWhiteSpace(s[|s| - 1]) then TrimEnd(s[..|s| - 1]) else s
  }

  /** `s.trim()`. */
  function Trim(s: string): (r: string)
    ensures |r| <= |s|
    ensures r != [] ==> !IsWhiteSpace(r[0]) && !IsWhiteSpace(r[|r| - 1])
  {
    TrimEnd(TrimStart(s))
  }

  /** `s.includes(sub)`: some position of `s` starts with `sub`. */
  predicate Includes(s: string, sub: string)
    ensures Includes(s, sub) ==> |sub| <= |s|
    ensures sub == [] ==> Includes(s, sub)
    decreases |s|
  {
    StartsWith(s, sub) || (s != [] && Includes(s[1..], sub))
  }

  // ---------------------------------------------------------------------
  // Reference definitions

  /** Every character of `s` before index `i` is white space. */
  ghost predicate WhiteBefore(s: string, i: int) {
    0 <= i <= |s| && forall j :: 0 <= j < i ==> IsWhiteSpace(s[j])
  }

  /** Every character of `s` from index `i` on is white space. */
  ghost predicate WhiteFrom(s: string, i: int) {
    0 <= i <= |s| && forall j :: i <= j < |s| ==> IsWhiteSpace(s[j])
  }

  /**
   * `s[a..b]` is what is left after stripping white space at both ends:
   * everything outside it is white space and, when it is non-empty, it
   * neither starts nor ends with white space.
   */
  ghost predicate TrimmedAt(s: string, a: int, b: int) {
    0 <= a <= b <= |s| && WhiteBefore(s, a) && WhiteFrom(s, b) &&
    (a < b ==> !IsWhiteSpace(s[a]) && !IsWhiteSpace(s[b - 1]))
  }

  /** `r` is `s` with white space stripped at both ends. */
  ghost predicate IsTrimOf(s: string, r: string) {
    exists a, b :: TrimmedAt(s, a, b) && r == s[a..b]
  }

  /** `sub` occurs in `s` at index `i`. */
  ghost predicate OccursAt(s: string, sub: string, i: int) {
    0 <= i && i + |sub| <= |s| && s[i..i + |sub|] == sub
  }

  // ---------------------------------------------------------------------
  // Lemmas

  /** `TrimStart` removes exactly the maximal white-space prefix. */
  lemma {:induction false} TrimStartIndex(s: string) returns (a: nat)
    ensures WhiteBefore(s, a) && TrimStart(s) == s[a..]
    ensures a < |s| ==> !IsWhiteSpace(s[a])
  {
    if s != [] && IsWhiteSpace(s[0]) {
      var a' := TrimStartIndex(s[1..]);
      a := a' + 1;
      assert s[1..][a'..] == s[a..];
      forall j | 0 <= j < a
        ensures IsWhiteSpace(s[j])
      {
        if j > 0 { assert s[j] == s[1..][j - 1]; }
      }
    } else {
      a := 0;
    }
  }

  /** `TrimEnd` removes exactly the maximal white-space suffix. */
  lemma {:induction false} TrimEndIndex(s: string) returns (b: nat)
    ensures WhiteFrom(s, b) && TrimEnd(s) == s[..b]
    ensures 0 < b ==> !IsWhiteSpace(s[b - 1])
  {
    if s != [] && IsWhiteSpace(s[|s| - 1]) {
      var t := s[..|s| - 1];
      b := TrimEndIndex(t);
      assert t[..b] == s[..b];
      forall j | b <= j < |s|
        ensures IsWhiteSpace(s[j])
      {
        if j < |s| - 1 { assert s[j] == t[j]; }
      }
    } else {
      b := |s|;
      assert s[..b] == s;
    }
  }

  /** The bounds of `Trim(s)` inside `s`. */
  lemma TrimIndices(s: string) returns (a: nat, b: nat)
    ensures TrimmedAt(s, a, b) && Trim(s) == s[a..b]
  {
    a := TrimStartIndex(s);
    var t := s[a..];
    var b' := TrimEndIndex(t);
    b := a + b';
    assert t[..b'] == s[a..b];
    forall j | b <= j < |s|
      ensures IsWhiteSpace(s[j])
    {
      assert s[j] == t[j - a];
    }
    if a < b {
      assert s[b - 1] == t[b' - 1];
    }
  }

  /** At most one slice of `s` is its trimmed form. */
  lemma TrimmedAtUnique(s: string, a: int, b: int, a': int, b': int)
    requires TrimmedAt(s, a, b) && TrimmedAt(s, a', b')
    ensures s[a..b] == s[a'..b']
  {
    // Each bound is pinned down by a character just inside or outside it.
    if a < b {
      assert !IsWhiteSpace(s[a]) && !IsWhiteSpace(s[b - 1]);
    }
    if a' < b' {
      assert !IsWhiteSpace(s[a']) && !IsWhiteSpace(s[b' - 1]);
    }
  }

  /** `Trim(s)` is exactly `s` stripped of white space at both ends. */
  lemma TrimCharacterized(s: string, r: string)
    ensures Trim(s) == r <==> IsTrimOf(s, r)
  {
    var a, b := TrimIndices(s);
    if IsTrimOf(s, r) {
      var a', b' :| TrimmedAt(s, a', b') && r == s[a'..b'];
      TrimmedAtUnique(s, a, b, a', b');
    }
  }

  /** Trimming twice is trimming once. */
  lemma TrimIdempotent(s: string)
    ensures Trim(Trim(s)) == Trim(s)
  {
    var a, b := TrimIndices(s);
    var t := Trim(s);
    var c, d := TrimIndices(t);
    assert TrimmedAt(t, 0, |t|) by {
      if 0 < |t| {
        assert t[0] == s[a];
        assert t[|t| - 1] == s[b - 1];
      }
    }
    TrimmedAtUnique(t, c, d, 0, |t|);
    assert t[0..|t|] == t;
  }

  /** `startsWith` is an occurrence at index 0. */
  lemma StartsWithIffOccursAtZero(s: string, p: string)
    ensures StartsWith(s, p) <==> OccursAt(s, p, 0)
  {
  }

  /** `Includes` agrees with "occurs at some index". */
  lemma {:induction false} IncludesIffOccurs(s: string, sub: string)
    ensures Includes(s, sub) <==> exists i :: OccursAt(s, sub, i)
    decreases |s|
  {
    if StartsWith(s, sub) {
      assert OccursAt(s, sub, 0);
    } else if s != [] {
      var t := s[1..];
      IncludesIffOccurs(t, sub);
      if Includes(t, sub) {
        var i :| OccursAt(t, sub, i);
        assert t[i..i + |sub|] == s[i + 1..i + 1 + |sub|];
        assert OccursAt(s, sub, i + 1);
      }
      forall i | OccursAt(s, sub, i)
        ensures OccursAt(t, sub, i - 1)
      {
        assert i != 0;
        assert t[i - 1..i - 1 + |sub|] == s[i..i + |sub|];
      }
    }
  }
}
