/** String primitives used by the assistant: `String.prototype.includes`,
    `toLowerCase` (ASCII letters only), `trim` and `Array.prototype.join`.
    Strings are sequences of Unicode scalar values. */
module Text {

  /** `s.includes(t)`: does `t` occur in `s` starting at some position?
      Searched position by position from the left. */
  predicate Contains(s: string, t: string)
  {
    |t| <= |s| && (s[..|t|] == t || Contains(s[1..], t))
  }

  /** `t` occurs in `s` at index `i`. */
  predicate OccursAt(s: string, t: string, i: int)
  {
    0 <= i && i + |t| <= |s| && s[i..i + |t|] == t
  }

  /** The left-to-right search agrees with the index-based reading of `includes`. */
  lemma {:induction false} ContainsIff(s: string, t: string)
    ensures Contains(s, t) <==> exists i :: OccursAt(s, t, i)
  {
    if |t| <= |s| {
      forall i | OccursAt(s, t, i) && i > 0 ensures OccursAt(s[1..], t, i - 1) {
        assert s[1..][i - 1..i - 1 + |t|] == s[i..i + |t|];
      }
      if s[..|t|] == t {
        assert OccursAt(s, t, 0);
      } else if Contains(s[1..], t) {
        ContainsIff(s[1..], t);
        var i :| OccursAt(s[1..], t, i);
        assert s[i + 1..i + 1 + |t|] == s[1..][i..i + |t|];
        assert OccursAt(s, t, i + 1);
      } else {
        ContainsIff(s[1..], t);
      }
    } else {
      forall i | OccursAt(s, t, i) ensures false { }
    }
  }

  /** Whatever occurs in `s` still occurs once text is put around `s`. */
  lemma ContainsWithin(a: string, s: string, b: string, t: string)
    requires Contains(s, t)
    ensures Contains(a + s + b, t)
  {
    ContainsIff(s, t);
    var i :| OccursAt(s, t, i);
    assert (a + s + b)[|a| + i..|a| + i + |t|] == s[i..i + |t|];
    assert OccursAt(a + s + b, t, |a| + i);
    ContainsIff(a + s + b, t);
  }

  /** Every string occurs in itself. */
  lemma ContainsSelf(t: string)
    ensures Contains(t, t)
  {
    if |t| > 0 {
      assert t[..|t|] == t;
    }
  }

  /** Text put in front does not hide an occurrence. */
  lemma ContainsPrepend(a: string, s: string, t: string)
    requires Contains(s, t)
    ensures Contains(a + s, t)
  {
    ContainsWithin(a, s, "", t);
    assert a + s + "" == a + s;
  }

  /** Text put behind does not hide an occurrence. */
  lemma ContainsAppend(s: string, b: string, t: string)
    requires Contains(s, t)
    ensures Contains(s + b, t)
  {
    ContainsWithin("", s, b, t);
    assert "" + s + b == s + b;
  }

  /** A string occurs in any text that has it as a piece. */
  lemma ContainsPiece(a: string, t: string, b: string)
    ensures Contains(a + t + b, t)
  {
    assert OccursAt(t, t, 0);
    ContainsIff(t, t);
    ContainsWithin(a, t, b, t);
  }

  /** Occurrence is transitive: a piece of a piece of `s` is a piece of `s`. */
  lemma ContainsTrans(s: string, u: string, t: string)
    requires Contains(s, u) && Contains(u, t)
    ensures Contains(s, t)
  {
    ContainsIff(s, u);
    ContainsIff(u, t);
    var i :| OccursAt(s, u, i);
    var j :| OccursAt(u, t, j);
    forall k | 0 <= k < |t| ensures s[i + j..i + j + |t|][k] == t[k] {
      assert t[k] == u[j + k] == s[i + j + k];
    }
    assert OccursAt(s, t, i + j);
    ContainsIff(s, t);
  }

  /** A search term is absent when its first character does not appear at any
      position where an occurrence could start. */
  lemma {:induction false} NotContainsFirstChar(s: string, t: string)
    requires |t| > 0 && (|t| > |s| || t[0] !in s[..|s| - |t| + 1])
    ensures !Contains(s, t)
  {
    if |t| <= |s| {
      assert s[..|s| - |t| + 1][0] == s[0];
      assert s[..|t|][0] == s[0] != t[0];
      if |t| <= |s| - 1 {
        assert s[1..][..|s| - 1 - |t| + 1] == s[..|s| - |t| + 1][1..];
      }
      NotContainsFirstChar(s[1..], t);
    }
  }

  /** A search term with a character that `s` lacks is not in `s`. */
  lemma MissingChar(s: string, t: string, j: int)
    requires 0 <= j < |t| && t[j] !in s
    ensures !Contains(s, t)
  {
    ContainsIff(s, t);
  }

  /** `Character.toLowerCase` on the ASCII letters; every other character is kept. */
  function LowerChar(c: char): (r: char)
    ensures !('A' <= r <= 'Z')
    ensures 'A' <= c <= 'Z' ==> r as int == c as int + 32
    ensures !('A' <= c <= 'Z') ==> r == c
  {
    if 'A' <= c <= 'Z' then (c as int + 32) as char else c
  }

  /** `s.toLowerCase()`, character by character. */
  function Lower(s: string): (r: string)
    ensures |r| == |s|
    ensures forall i :: 0 <= i < |s| ==> r[i] == LowerChar(s[i])
  {
    if s == [] then [] else [LowerChar(s[0])] + Lower(s[1..])
  }

  /** A string without ASCII capitals is its own lower-case form. */
  lemma LowerNoCapitals(s: string)
    requires forall i :: 0 <= i < |s| ==> !('A' <= s[i] <= 'Z')
    ensures Lower(s) == s
  {
    assert forall i :: 0 <= i < |s| ==> Lower(s)[i] == s[i];
  }

  /** Lowering a lowered string changes nothing. */
  lemma LowerIdempotent(s: string)
    ensures Lower(Lower(s)) == Lower(s)
  {
    var l := Lower(s);
    assert forall i :: 0 <= i < |l| ==> Lower(l)[i] == l[i];
  }

  /** The characters `String.prototype.trim` removes: the ECMAScript
      WhiteSpace and LineTerminator code points. */
  predicate IsWhitespace(c: char)
  {
    c == '\t' || c == '\n' || c == '\U{000B}' || c == '\U{000C}' || c == '\r' || c == ' '
    || c == '\U{00A0}' || c == '\U{1680}' || ('\U{2000}' <= c <= '\U{200A}')
    || c == '\U{2028}' || c == '\U{2029}' || c == '\U{202F}' || c == '\U{205F}'
    || c == '\U{3000}' || c == '\U{FEFF}'
  }

  /** Drops the leading whitespace of `s`. */
  function TrimStart(s: string): (r: string)
    ensures |r| <= |s| && r == s[|s| - |r|..]
    ensures forall i :: 0 <= i < |s| - |r| ==> IsWhitespace(s[i])
    ensures r == [] || !IsWhitespace(r[0])
  {
    if |s| > 0 && IsWhitespace(s[0]) then TrimStart(s[1..]) else s
  }

  /** Drops the trailing whitespace of `s`. */
  function TrimEnd(s: string): (r: string)
    ensures |r| <= |s| && r == s[..|r|]
    ensures forall i :: |r| <= i < |s| ==> IsWhitespace(s[i])
    ensures r == [] || !IsWhitespace(r[|r| - 1])
  {
    if |s| > 0 && IsWhitespace(s[|s| - 1]) then TrimEnd(s[..|s| - 1]) else s
  }

  /** `s.trim()`. */
  function Trim(s: string): (r: string)
  {
    TrimEnd(TrimStart(s))
  }

  /** `!s.trim()` holds exactly when every character of `s` is whitespace. */
  lemma TrimEmptyIff(s: string)
    ensures Trim(s) == "" <==> forall i :: 0 <= i < |s| ==> IsWhitespace(s[i])
  {
    var m := TrimStart(s);
    if Trim(s) == "" {
      // A non-empty `m` starts with a character that `TrimEnd` keeps.
      assert m == [];
    } else if m != [] {
      assert !IsWhitespace(s[|s| - |m|]);
    }
  }

  /** `xs.join(sep)`. */
  function Join(xs: seq<string>, sep: string): (r: string)
  {
    if |xs| == 0 then ""
    else if |xs| == 1 then xs[0]
    else xs[0] + sep + Join(xs[1..], sep)
  }

  /** Every element appears in the joined text. */
  lemma {:induction false} JoinContainsEach(xs: seq<string>, sep: string, k: int)
    requires 0 <= k < |xs|
    ensures Contains(Join(xs, sep), xs[k])
  {
    if |xs| == 1 {
      ContainsPiece("", xs[0], "");
      assert "" + xs[0] + "" == xs[0];
    } else if k == 0 {
      ContainsPiece("", xs[0], sep + Join(xs[1..], sep));
      assert "" + xs[0] + (sep + Join(xs[1..], sep)) == Join(xs, sep);
    } else {
      JoinContainsEach(xs[1..], sep, k - 1);
      ContainsWithin(xs[0] + sep, Join(xs[1..], sep), "", xs[k]);
      assert xs[0] + sep + Join(xs[1..], sep) + "" == Join(xs, sep);
    }
  }
}
