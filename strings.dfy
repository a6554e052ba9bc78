/** The few Python string operations the scripts rely on, on ASCII text. */
module Strings {

  /** Python's `sub in s`: `sub` occurs as a contiguous block of `s`. */
  predicate Contains(s: string, sub: string)
    decreases |s|
  {
    |sub| <= |s| && (s[..|sub|] == sub || Contains(s[1..], sub))
  }

  /** `sub` occurs in `s` starting at position `i`. */
  ghost predicate OccursAt(s: string, sub: string, i: int)
  {
    0 <= i && i + |sub| <= |s| && s[i..i + |sub|] == sub
  }

  /** `Contains` agrees with the positional reading of Python's substring test. */
  lemma {:induction false} ContainsIffOccurs(s: string, sub: string)
    ensures Contains(s, sub) <==> exists i :: OccursAt(s, sub, i)
    decreases |s|
  {
    if |sub| <= |s| {
      if s[..|sub|] == sub {
        assert OccursAt(s, sub, 0);
      } else {
        ContainsIffOccurs(s[1..], sub);
        if Contains(s[1..], sub) {
          var i :| OccursAt(s[1..], sub, i);
          assert s[i + 1..i + 1 + |sub|] == s[1..][i..i + |sub|];
          assert OccursAt(s, sub, i + 1);
        } else {
          forall i | 0 <= i && i + |sub| <= |s| ensures !OccursAt(s, sub, i) {
            if i > 0 {
              assert s[1..][i - 1..i - 1 + |sub|] == s[i..i + |sub|];
              assert !OccursAt(s[1..], sub, i - 1);
            }
          }
        }
      }
    }
  }

  /** A block of two or more characters occurs only where its first two characters stand side by side. */
  lemma NoAdjacentPair(s: string, sub: string)
    requires |sub| >= 2
    requires forall i :: 0 <= i < |s| - 1 ==> !(s[i] == sub[0] && s[i + 1] == sub[1])
    ensures !Contains(s, sub)
  {
    ContainsIffOccurs(s, sub);
  }

  /** A block whose first character does not occur in `s` is not contained in it. */
  lemma NoFirstChar(s: string, sub: string)
    requires |sub| > 0 && sub[0] !in s
    ensures !Contains(s, sub)
  {
    ContainsIffOccurs(s, sub);
  }

  /** A block found at a given position is contained. */
  lemma ContainsAt(s: string, sub: string, i: nat)
    requires i + |sub| <= |s| && forall k :: 0 <= k < |sub| ==> s[i + k] == sub[k]
    ensures Contains(s, sub)
  {
    assert s[i..i + |sub|] == sub;
    assert OccursAt(s, sub, i);
    ContainsIffOccurs(s, sub);
  }

  /** A one-character block is contained just when that character occurs. */
  lemma ContainsChar(s: string, c: char)
    ensures Contains(s, [c]) <==> c in s
  {
    ContainsIffOccurs(s, [c]);
    if c in s {
      var i :| 0 <= i < |s| && s[i] == c;
      assert s[i..i + 1] == [c];
      assert OccursAt(s, [c], i);
    }
    if Contains(s, [c]) {
      var i :| OccursAt(s, [c], i);
      assert s[i] == s[i..i + 1][0];
    }
  }

  /** Python's `str.lower()` on one ASCII character. */
  function LowerChar(c: char): char
  {
    if 'A' <= c <= 'Z' then (c as int + 32) as char else c
  }

  /** Python's `str.lower()` on ASCII text. */
  function Lower(s: string): (r: string)
    ensures |r| == |s|
  {
    seq(|s|, i requires 0 <= i < |s| => LowerChar(s[i]))
  }

  /** Python's `s[:-n]` for a positive `n`: all but the last `n` characters, or "" when `s` is shorter. */
  function DropLast(s: string, n: nat): (r: string)
    requires n > 0
    ensures |s| >= n ==> |r| == |s| - n && s == r + s[|s| - n..]
    ensures |s| < n ==> r == ""
  {
    if |s| >= n then s[..|s| - n] else ""
  }
}
