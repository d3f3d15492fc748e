/**
 * The three string operations the dashboard's filter uses: `trim`,
 * `toLowerCase` and `includes`. Whitespace and case are taken over ASCII:
 * trimming removes space and the control characters U+0009 to U+000D,
 * lower-casing maps 'A'..'Z' to 'a'..'z' and leaves every other character.
 */
module Strings {

  predicate IsSpace(c: char)
  {
    c == ' ' || '\t' <= c <= '\r'
  }

  predicate IsUpper(c: char)
  {
    'A' <= c <= 'Z'
  }

  /** True when every character of `s` is whitespace (the empty string included). */
  predicate AllSpace(s: string)
  {
    forall k :: 0 <= k < |s| ==> IsSpace(s[k])
  }

  // ---------------------------------------------------------------- lower case

  function LowerChar(c: char): (d: char)
    ensures !IsUpper(d)
    ensures IsSpace(d) == IsSpace(c)
    ensures IsUpper(c) || d == c
  {
    if IsUpper(c) then (c as int + 32) as char else c
  }

  /**
   * `s.toLowerCase()`: no upper-case letter is left, whitespace stays where
   * it was, and every character that is not an upper-case letter is kept.
   */
  function ToLower(s: string): (r: string)
    ensures |r| == |s|
    ensures forall i :: 0 <= i < |s| ==> !IsUpper(r[i]) && IsSpace(r[i]) == IsSpace(s[i])
    ensures forall i :: 0 <= i < |s| ==> IsUpper(s[i]) || r[i] == s[i]
  {
    seq(|s|, i requires 0 <= i < |s| => LowerChar(s[i]))
  }

  lemma LowerIdempotent(s: string)
    ensures ToLower(ToLower(s)) == ToLower(s)
  {
  }

  // ---------------------------------------------------------------------- trim

  function TrimStart(s: string): (r: string)
    ensures |r| <= |s| && r == s[|s| - |r|..]
    ensures forall k :: 0 <= k < |s| - |r| ==> IsSpace(s[k])
    ensures r == [] || !IsSpace(r[0])
  {
    if s != [] && IsSpace(s[0]) then TrimStart(s[1..]) else s
  }

  function TrimEnd(s: string): (r: string)
    ensures |r| <= |s| && r == s[..|r|]
    ensures forall k :: |r| <= k < |s| ==> IsSpace(s[k])
    ensures r == [] || !IsSpace(r[|r| - 1])
  {
    if s != [] && IsSpace(s[|s| - 1]) then TrimEnd(s[..|s| - 1]) else s
  }

  /**
   * `r` is `s` with a run of `i` characters cut from its front and the rest
   * after `r` cut from its back, and everything cut is whitespace.
   */
  ghost predicate Strips(s: string, r: string, i: int)
  {
    0 <= i && i + |r| <= |s| && r == s[i..i + |r|] &&
    (forall k :: 0 <= k < i ==> IsSpace(s[k])) &&
    (forall k :: i + |r| <= k < |s| ==> IsSpace(s[k]))
  }

  /** `s.trim()`: the middle of `s`, with whitespace removed from both ends. */
  function Trim(s: string): (r: string)
    ensures exists i :: Strips(s, r, i)
    ensures r == [] || (!IsSpace(r[0]) && !IsSpace(r[|r| - 1]))
  {
    var t := TrimStart(s);
    var r := TrimEnd(t);
    assert Strips(s, r, |s| - |t|);
    r
  }

  lemma TrimBlank(s: string)
    ensures Trim(s) == [] <==> AllSpace(s)
  {
    var r := Trim(s);
    var i :| Strips(s, r, i);
  }

  lemma TrimIdempotent(s: string)
    ensures Trim(Trim(s)) == Trim(s)
  {
  }

  lemma {:induction false} TrimStartLower(s: string)
    ensures TrimStart(ToLower(s)) == ToLower(TrimStart(s))
    decreases |s|
  {
    if s != [] && IsSpace(s[0]) {
      assert ToLower(s)[1..] == ToLower(s[1..]);
      TrimStartLower(s[1..]);
    }
  }

  lemma {:induction false} TrimEndLower(s: string)
    ensures TrimEnd(ToLower(s)) == ToLower(TrimEnd(s))
    decreases |s|
  {
    if s != [] && IsSpace(s[|s| - 1]) {
      assert ToLower(s)[..|s| - 1] == ToLower(s[..|s| - 1]);
      TrimEndLower(s[..|s| - 1]);
    }
  }

  /** Trimming and lower-casing can be done in either order. */
  lemma TrimLowerCommute(s: string)
    ensures Trim(ToLower(s)) == ToLower(Trim(s))
  {
    TrimStartLower(s);
    TrimEndLower(TrimStart(s));
  }

  // ------------------------------------------------------------- normalisation

  /**
   * `value.trim().toLowerCase()`: the form in which a filter is stored and
   * compared. It holds no upper-case letter, neither starts nor ends with
   * whitespace, and is empty exactly when `s` is all whitespace.
   */
  function Normalize(s: string): (r: string)
    ensures |r| <= |s|
    ensures forall i :: 0 <= i < |r| ==> !IsUpper(r[i])
    ensures r == [] || (!IsSpace(r[0]) && !IsSpace(r[|r| - 1]))
    ensures r == [] <==> AllSpace(s)
  {
    TrimBlank(s);
    ToLower(Trim(s))
  }

  lemma NormalizeIdempotent(s: string)
    ensures Normalize(Normalize(s)) == Normalize(s)
  {
    TrimLowerCommute(Trim(s));
    TrimIdempotent(s);
    LowerIdempotent(Trim(s));
  }

  /** Lower-casing a filter before normalising it changes nothing. */
  lemma NormalizeIgnoresCase(s: string)
    ensures Normalize(ToLower(s)) == Normalize(s)
  {
    TrimLowerCommute(s);
    LowerIdempotent(Trim(s));
  }

  // ------------------------------------------------------------------ includes

  /** `v` occurs in `s` starting at position `i`. */
  ghost predicate OccursAt(s: string, v: string, i: int)
  {
    0 <= i && i + |v| <= |s| && s[i..i + |v|] == v
  }

  /**
   * `s.includes(v)`, searching from the front. The empty string is always
   * found, and nothing longer than `s` ever is.
   */
  function Includes(s: string, v: string): (b: bool)
    ensures v == [] ==> b
    ensures b ==> |v| <= |s|
    decreases |s|
  {
    if |s| < |v| then false
    else s[..|v|] == v || Includes(s[1..], v)
  }

  lemma {:induction false} IncludesIff(s: string, v: string)
    ensures Includes(s, v) <==> exists i :: OccursAt(s, v, i)
    decreases |s|
  {
    if |s| >= |v| {
      if s[..|v|] == v {
        assert OccursAt(s, v, 0);
      } else if Includes(s[1..], v) {
        IncludesIff(s[1..], v);
        var j :| OccursAt(s[1..], v, j);
        assert s[1..][j..j + |v|] == s[j + 1..j + 1 + |v|];
        assert OccursAt(s, v, j + 1);
      } else if i :| OccursAt(s, v, i) {
        IncludesIff(s[1..], v);
        assert i != 0;
        assert s[1..][i - 1..i - 1 + |v|] == s[i..i + |v|];
        assert OccursAt(s[1..], v, i - 1);
        assert false;
      }
    }
  }

  /** Each character of an included string occurs in the string that includes it. */
  lemma IncludesChars(s: string, v: string, k: int)
    requires Includes(s, v) && 0 <= k < |v|
    ensures v[k] in s
  {
    IncludesIff(s, v);
    var i :| OccursAt(s, v, i);
    assert s[i + k] == s[i..i + |v|][k];
  }
}
