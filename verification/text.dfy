/**
 The two string operations the keyword classifiers rely on: lower-casing
 and substring containment.
 */
module Text {

  /**
   Lower-case mapping of one character: the ASCII capitals and the Latin-1
   capitals (U+00C0 to U+00DE, except the multiplication sign U+00D7) map
   to the letter 32 code points above; every other character is unchanged.
   */
  function LowerChar(c: char): char
  {
    if 'A' <= c <= 'Z' || ('À' <= c <= 'Þ' && c != '×') then
      (c as int + 32) as char
    else
      c
  }

  /**
   Lower-casing keeps the length, leaves no capital behind, and changes
   nothing in a text that has no capital to begin with.
   */
  function Lower(s: string): (r: string)
    ensures |r| == |s|
    ensures forall i :: 0 <= i < |r| ==>
              && LowerChar(r[i]) == r[i]
              && !('A' <= r[i] <= 'Z')
              && !('À' <= r[i] <= 'Þ' && r[i] != '×')
    ensures (forall i :: 0 <= i < |s| ==> LowerChar(s[i]) == s[i]) ==> r == s
  {
    seq(|s|, i requires 0 <= i < |s| => LowerChar(s[i]))
  }

  /** Lower-casing twice is lower-casing once. */
  lemma LowerIsIdempotent(s: string)
    ensures Lower(Lower(s)) == Lower(s)
  {
  }

  /** `k` occurs in `s` starting at position `i`. */
  ghost predicate OccursAt(s: string, k: string, i: int)
  {
    0 <= i && i + |k| <= |s| && s[i..i + |k|] == k
  }

  /** `k` is a substring of `s`. */
  ghost predicate IsSubstring(k: string, s: string)
  {
    exists i :: OccursAt(s, k, i)
  }

  /** Containment test `k in s`, scanning `s` from the left for a position where `k` starts. */
  function Contains(s: string, k: string): (b: bool)
    ensures b <==> IsSubstring(k, s)
    decreases |s|
  {
    if k <= s then
      assert OccursAt(s, k, 0);
      true
    else if |s| == 0 then
      false
    else
      var b := Contains(s[1..], k);
      assert IsSubstring(k, s[1..]) ==> IsSubstring(k, s) by {
        if IsSubstring(k, s[1..]) {
          var i :| OccursAt(s[1..], k, i);
          assert s[1..][i..i + |k|] == s[i + 1..i + 1 + |k|];
          assert OccursAt(s, k, i + 1);
        }
      }
      assert IsSubstring(k, s) ==> IsSubstring(k, s[1..]) by {
        if IsSubstring(k, s) {
          var i :| OccursAt(s, k, i);
          assert i > 0;
          assert s[1..][i - 1..i - 1 + |k|] == s[i..i + |k|];
          assert OccursAt(s[1..], k, i - 1);
        }
      }
      b
  }

  /** A substring of a substring of `s` is a substring of `s`. */
  lemma SubstringIsTransitive(a: string, b: string, s: string)
    requires IsSubstring(a, b) && IsSubstring(b, s)
    ensures IsSubstring(a, s)
  {
    var i :| OccursAt(b, a, i);
    var j :| OccursAt(s, b, j);
    assert a == s[j + i..j + i + |a|] by {
      forall n | 0 <= n < |a|
        ensures a[n] == s[j + i + n]
      {
        assert a[n] == b[i + n];
        assert b[i + n] == s[j + i + n];
      }
    }
    assert OccursAt(s, a, j + i);
  }

  /** A string with a known occurrence of `part` inside `whole` contains `part` wherever it contains `whole`. */
  lemma ContainsPart(part: string, whole: string, offset: nat, s: string)
    requires offset + |part| <= |whole| && whole[offset..offset + |part|] == part
    requires IsSubstring(whole, s)
    ensures IsSubstring(part, s)
  {
    assert OccursAt(whole, part, offset);
    SubstringIsTransitive(part, whole, s);
  }
}
