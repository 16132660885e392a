/** Character and string primitives shared by the components: JavaScript's
    `toLowerCase` (ASCII letters only), `trim` and `includes`. */
module Text {

  /** `toLowerCase` for one character: ASCII upper-case letters are folded,
      every other character is left as it is. */
  function LowerChar(c: char): (r: char)
    ensures 'A' <= c <= 'Z' ==> r as int == c as int + 32
    ensures !('A' <= c <= 'Z') ==> r == c
  {
    if 'A' <= c <= 'Z' then (c as int + 32) as char else c
  }

  /** `toLowerCase` for a string, character by character. */
  function Lower(s: string): (r: string)
    ensures |r| == |s|
    ensures forall i :: 0 <= i < |s| ==> r[i] == LowerChar(s[i])
  {
    if s == [] then [] else [LowerChar(s[0])] + Lower(s[1..])
  }

  /** A string is lower-case when lowering it changes nothing. */
  predicate IsLower(s: string) {
    forall i :: 0 <= i < |s| ==> !('A' <= s[i] <= 'Z')
  }

  lemma LowerIsLower(s: string)
    ensures IsLower(Lower(s))
    ensures IsLower(s) ==> Lower(s) == s
  {
  }

  /** Case folding works character by character, so it distributes over
      concatenation. */
  lemma LowerAppend(a: string, b: string)
    ensures Lower(a + b) == Lower(a) + Lower(b)
  {
    var l, r := Lower(a + b), Lower(a) + Lower(b);
    assert |l| == |r|;
    forall i | 0 <= i < |l| ensures l[i] == r[i] {
      if i < |a| { assert (a + b)[i] == a[i]; } else { assert (a + b)[i] == b[i - |a|]; }
    }
  }

  /** Folding case twice is folding it once. */
  lemma LowerIdempotent(s: string)
    ensures Lower(Lower(s)) == Lower(s)
  {
    LowerIsLower(s);
    LowerIsLower(Lower(s));
  }

  /** The characters JavaScript's `trim` removes: the WhiteSpace and
      LineTerminator code points of ECMA-262 (section 12.2 and 12.3), that is
      TAB, VT, FF, SP, NBSP, ZWNBSP, the Zs category, LF, CR, LS and PS. */
  predicate IsJsWhitespace(c: char) {
    || c == '\t' || c == '\n' || c == '\U{000B}' || c == '\U{000C}' || c == '\r'
    || c == ' ' || c == '\U{00A0}' || c == '\U{1680}'
    || ('\U{2000}' <= c <= '\U{200A}')
    || c == '\U{2028}' || c == '\U{2029}' || c == '\U{202F}' || c == '\U{205F}'
    || c == '\U{3000}' || c == '\U{FEFF}'
  }

  /** Every character of `s` is whitespace (the empty string included). */
  predicate IsBlank(s: string) {
    forall i :: 0 <= i < |s| ==> IsJsWhitespace(s[i])
  }

  /** `s.trimStart()`: drops leading whitespace. */
  function TrimStart(s: string): (r: string)
    ensures |r| <= |s| && r == s[|s| - |r|..]
    ensures r != [] ==> !IsJsWhitespace(r[0])
    ensures IsBlank(s[..|s| - |r|])
  {
    if s != [] && IsJsWhitespace(s[0]) then
      var t := s[1..];
      var r := TrimStart(t);
      var dropped, rest := s[..|s| - |r|], t[..|t| - |r|];
      assert dropped == [s[0]] + rest;
      assert IsBlank(dropped) by {
        forall i | 0 <= i < |dropped| ensures IsJsWhitespace(dropped[i]) {
          if i > 0 {
            assert dropped[i] == rest[i - 1];
          }
        }
      }
      assert r == t[|t| - |r|..] == s[|s| - |r|..];
      r
    else s
  }

  /** `s.trimEnd()`: drops trailing whitespace. */
  function TrimEnd(s: string): (r: string)
    ensures |r| <= |s| && r == s[..|r|]
    ensures r != [] ==> !IsJsWhitespace(r[|r| - 1])
    ensures IsBlank(s[|r|..])
  {
    if s != [] && IsJsWhitespace(s[|s| - 1]) then
      var t := s[..|s| - 1];
      var r := TrimEnd(t);
      var dropped, rest := s[|r|..], t[|r|..];
      assert dropped == rest + [s[|s| - 1]];
      assert IsBlank(dropped) by {
        forall i | 0 <= i < |dropped| ensures IsJsWhitespace(dropped[i]) {
          if i < |rest| {
            assert dropped[i] == rest[i];
          }
        }
      }
      assert r == t[..|r|] == s[..|r|];
      r
    else s
  }

  /** `s.trim()`. */
  function Trim(s: string): (r: string)
  {
    TrimEnd(TrimStart(s))
  }

  /** `s.trim() === ''` (equivalently `!s.trim()`) holds exactly for the blank
      strings; this is the guard every "ignore empty input" handler uses. */
  lemma TrimEmptyIffBlank(s: string)
    ensures Trim(s) == [] <==> IsBlank(s)
  {
    var t := TrimStart(s);
    if Trim(s) == [] {
      assert IsBlank(t[0..]);
      assert t == [];
      assert s[..|s|] == s;
    }
  }

  /** Specification of a substring occurrence: `w` starts at `i` in `s`. */
  ghost predicate OccursAt(s: string, w: string, i: int) {
    0 <= i && i + |w| <= |s| && s[i..i + |w|] == w
  }

  /** Characters `k..` of `w` agree with `s` from position `i + k` on. */
  predicate MatchFrom(s: string, w: string, i: nat, k: nat)
    requires i + |w| <= |s| && k <= |w|
    decreases |w| - k
  {
    k == |w| || (s[i + k] == w[k] && MatchFrom(s, w, i, k + 1))
  }

  /** `w` occurs in `s` at some position `i..`. */
  predicate ContainsFrom(s: string, w: string, i: nat)
    decreases |s| - i
  {
    if i + |w| > |s| then false
    else MatchFrom(s, w, i, 0) || ContainsFrom(s, w, i + 1)
  }

  /** `s.includes(w)`. */
  predicate Contains(s: string, w: string) {
    ContainsFrom(s, w, 0)
  }

  lemma {:induction false} MatchFromIff(s: string, w: string, i: nat, k: nat)
    requires i + |w| <= |s| && k <= |w|
    ensures MatchFrom(s, w, i, k) <==> s[i + k..i + |w|] == w[k..]
    decreases |w| - k
  {
    if k < |w| {
      MatchFromIff(s, w, i, k + 1);
      assert s[i + k..i + |w|] == [s[i + k]] + s[i + k + 1..i + |w|];
      assert w[k..] == [w[k]] + w[k + 1..];
    }
  }

  lemma {:induction false} ContainsFromIff(s: string, w: string, i: nat)
    ensures ContainsFrom(s, w, i) <==> exists j :: i <= j && OccursAt(s, w, j)
    decreases |s| - i
  {
    if i + |w| <= |s| {
      MatchFromIff(s, w, i, 0);
      ContainsFromIff(s, w, i + 1);
      if ContainsFrom(s, w, i) {
        if MatchFrom(s, w, i, 0) { assert OccursAt(s, w, i); }
      } else {
        forall j | i <= j ensures !OccursAt(s, w, j) {
          if j == i { assert !OccursAt(s, w, i); }
        }
      }
    }
  }

  /** `includes` is exactly "occurs at some position". */
  lemma ContainsIff(s: string, w: string)
    ensures Contains(s, w) <==> exists i :: OccursAt(s, w, i)
  {
    ContainsFromIff(s, w, 0);
  }

  /** A substring of a piece of `s` is a substring of `s`: `"sadness"` contains
      `"sad"`, so any text containing `"sadness"` contains `"sad"` too. */
  lemma ContainsTransitive(s: string, m: string, w: string)
    requires Contains(s, m) && Contains(m, w)
    ensures Contains(s, w)
  {
    ContainsIff(s, m);
    ContainsIff(m, w);
    var i :| OccursAt(s, m, i);
    var j :| OccursAt(m, w, j);
    forall k | 0 <= k < |w| ensures s[i + j + k] == w[k] {
      assert s[i + j + k] == s[i..i + |m|][j + k];
      assert w[k] == m[j..j + |w|][k];
    }
    assert s[i + j..i + j + |w|] == w;
    assert OccursAt(s, w, i + j);
    ContainsIff(s, w);
  }

  /** `w` cannot occur in `s` when one of its characters never does. */
  lemma AbsentChar(s: string, w: string, k: nat)
    requires k < |w| && w[k] !in s
    ensures !Contains(s, w)
  {
    forall i ensures !OccursAt(s, w, i) {
      if 0 <= i && i + |w| <= |s| { assert s[i..i + |w|][k] == s[i + k]; }
    }
    ContainsIff(s, w);
  }

  /** A word placed between any two strings occurs in the result. */
  lemma FoundBetween(a: string, w: string, b: string)
    ensures Contains(a + w + b, w)
  {
    assert (a + w + b)[|a|..|a| + |w|] == w;
    FoundAt(a + w + b, w, |a|);
  }

  /** `w` cannot occur in `s` when two adjacent characters of `w` are never
      adjacent in `s`. */
  lemma AbsentPair(s: string, w: string, k: nat)
    requires k + 1 < |w|
    requires forall i :: 0 <= i < |s| - 1 ==> !(s[i] == w[k] && s[i + 1] == w[k + 1])
    ensures !Contains(s, w)
  {
    forall i ensures !OccursAt(s, w, i) {
      if 0 <= i && i + |w| <= |s| {
        assert s[i..i + |w|][k] == s[i + k] && s[i..i + |w|][k + 1] == s[i + k + 1];
      }
    }
    ContainsIff(s, w);
  }

  /** `w` occurs in `s` when it occurs at a known position. */
  lemma FoundAt(s: string, w: string, i: nat)
    requires i + |w| <= |s| && s[i..i + |w|] == w
    ensures Contains(s, w)
  {
    assert OccursAt(s, w, i);
    ContainsIff(s, w);
  }
}
