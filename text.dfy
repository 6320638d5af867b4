/** The two string operations the search filter relies on: lowercasing
    (`str.lower()`, restricted to ASCII) and the substring test `q in s`. */
module Text {

  /** ASCII lowercase of one character; every other character is left alone. */
  function LowerChar(c: char): char
  {
    if 'A' <= c <= 'Z' then (c as int + ('a' as int - 'A' as int)) as char else c
  }

  predicate IsUpper(c: char)
  {
    'A' <= c <= 'Z'
  }

  /** `s.lower()`: lowercases character by character and keeps the length. */
  function Lower(s: string): (r: string)
    ensures |r| == |s|
    ensures forall i :: 0 <= i < |s| ==> r[i] == LowerChar(s[i])
    ensures forall i :: 0 <= i < |r| ==> !IsUpper(r[i])
  {
    if s == [] then [] else [LowerChar(s[0])] + Lower(s[1..])
  }

  /** Lowercasing an already lowercased string changes nothing. */
  lemma LowerIdempotent(s: string)
    ensures Lower(Lower(s)) == Lower(s)
  {
    var l := Lower(s);
    assert forall i :: 0 <= i < |l| ==> Lower(l)[i] == l[i];
  }

  /** `pattern` occurs in `text` starting at index `i`. */
  ghost predicate OccursAt(text: string, pattern: string, i: nat)
  {
    i + |pattern| <= |text| && text[i..i + |pattern|] == pattern
  }

  /** Python's `pattern in text`: tries each start position from left to right. */
  predicate Contains(text: string, pattern: string)
    decreases |text|
  {
    if pattern <= text then true
    else if text == [] then false
    else Contains(text[1..], pattern)
  }

  /** The executable test agrees with the positional definition, in both directions. */
  lemma {:induction false} ContainsIff(text: string, pattern: string)
    ensures Contains(text, pattern) <==> exists i: nat :: OccursAt(text, pattern, i)
  {
    if pattern <= text {
      assert OccursAt(text, pattern, 0);
    } else if text == [] {
      assert pattern != [];
    } else {
      ContainsIff(text[1..], pattern);
      forall i: nat | 0 < i ensures OccursAt(text, pattern, i) <==> OccursAt(text[1..], pattern, i - 1) {
        if i + |pattern| <= |text| {
          assert text[i..i + |pattern|] == text[1..][i - 1..i - 1 + |pattern|];
        }
      }
      if exists i: nat :: OccursAt(text, pattern, i) {
        var i: nat :| OccursAt(text, pattern, i);
        assert i != 0;
        assert OccursAt(text[1..], pattern, i - 1);
      }
      if Contains(text[1..], pattern) {
        var j: nat :| OccursAt(text[1..], pattern, j);
        assert OccursAt(text, pattern, j + 1);
      }
    }
  }
}
