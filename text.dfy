/** The string operations behind the name filter of the cleanup sweep:
    Python's `str.lower()` and the substring test `needle in haystack`. */
module Text {

  /** Lower-casing of one character. Only the ASCII capitals are mapped: no
      other character lower-cases to `s`, `r` or `a`, so this is all the
      `'sra' in name.lower()` test can observe. */
  function LowerChar(c: char): (d: char)
    ensures 'A' <= c <= 'Z' ==> 'a' <= d <= 'z' && d as int == c as int + 32
    ensures !('A' <= c <= 'Z') ==> d == c
    ensures !('A' <= d <= 'Z')
  {
    if 'A' <= c <= 'Z' then (c as int - 'A' as int + 'a' as int) as char else c
  }

  /** `s.lower()`: lower-cases character by character, keeping the length. */
  function Lower(s: string): (r: string)
    ensures |r| == |s|
    ensures forall i :: 0 <= i < |s| ==> r[i] == LowerChar(s[i])
  {
    seq(|s|, i requires 0 <= i < |s| => LowerChar(s[i]))
  }

  /** Lower-casing twice is lower-casing once. */
  lemma LowerIdempotent(s: string)
    ensures Lower(Lower(s)) == Lower(s)
  {
    forall i | 0 <= i < |s| ensures Lower(Lower(s))[i] == Lower(s)[i] {
      assert Lower(s)[i] == LowerChar(s[i]);
    }
  }

  /** `needle` occurs in `haystack` starting at position `i`. */
  ghost predicate OccursAt(haystack: string, needle: string, i: int)
  {
    0 <= i && i + |needle| <= |haystack| && haystack[i..i + |needle|] == needle
  }

  /** Python's `needle in haystack` for strings: true exactly when the
      needle occurs at some position of the haystack. */
  function Contains(haystack: string, needle: string): (b: bool)
    ensures b <==> exists i :: OccursAt(haystack, needle, i)
    decreases |haystack|
  {
    if |haystack| < |needle| then
      false
    else if haystack[..|needle|] == needle then
      assert OccursAt(haystack, needle, 0);
      true
    else
      OccursAfterHead(haystack, needle);
      Contains(haystack[1..], needle)
  }

  /** When the needle is not a prefix, its occurrences are those of the
      haystack's tail, shifted by one. */
  lemma OccursAfterHead(haystack: string, needle: string)
    requires |needle| <= |haystack| && haystack[..|needle|] != needle
    ensures (exists i :: OccursAt(haystack, needle, i)) <==> (exists j :: OccursAt(haystack[1..], needle, j))
  {
    if i :| OccursAt(haystack, needle, i) {
      assert i != 0;
      assert haystack[1..][i - 1..i - 1 + |needle|] == haystack[i..i + |needle|];
      assert OccursAt(haystack[1..], needle, i - 1);
    }
    if j :| OccursAt(haystack[1..], needle, j) {
      assert haystack[1..][j..j + |needle|] == haystack[j + 1..j + 1 + |needle|];
      assert OccursAt(haystack, needle, j + 1);
    }
  }

  /** A needle found in part of a string is found in the whole string. */
  lemma ContainsInConcat(a: string, b: string, needle: string)
    requires Contains(a, needle) || Contains(b, needle)
    ensures Contains(a + b, needle)
  {
    if Contains(a, needle) {
      var i :| OccursAt(a, needle, i);
      assert (a + b)[i..i + |needle|] == a[i..i + |needle|];
      assert OccursAt(a + b, needle, i);
    } else {
      var i :| OccursAt(b, needle, i);
      assert (a + b)[|a| + i..|a| + i + |needle|] == b[i..i + |needle|];
      assert OccursAt(a + b, needle, |a| + i);
    }
  }
}
