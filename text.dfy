/**
 * Character classes, ASCII case mapping and substring search, the pieces of
 * Python's `re` `\d`, `str.upper()`, `str.lower()` and `in` on strings that the
 * identifier and the router rely on. Only ASCII is modelled: `\d` is '0'..'9'
 * and case mapping touches 'a'..'z' / 'A'..'Z' and nothing else.
 */
module Text {

  predicate IsDigit(c: char) {
    '0' <= c <= '9'
  }

  predicate AllDigits(s: string) {
    forall k :: 0 <= k < |s| ==> IsDigit(s[k])
  }

  /** The digits of `s`, in their order: `re.sub(r'[^\d]', '', s)`. */
  function Digits(s: string): (r: string)
    ensures AllDigits(r)
    ensures |r| <= |s|
  {
    if s == [] then []
    else (if IsDigit(s[0]) then [s[0]] else []) + Digits(s[1..])
  }

  /** Keeping the digits distributes over concatenation. */
  lemma {:induction false} DigitsAppend(a: string, b: string)
    ensures Digits(a + b) == Digits(a) + Digits(b)
  {
    if a == [] {
      assert a + b == b;
    } else {
      assert (a + b)[1..] == a[1..] + b;
      DigitsAppend(a[1..], b);
    }
  }

  /** `s` is left unchanged exactly when it holds only digits. */
  lemma {:induction false} DigitsFixpoint(s: string)
    ensures Digits(s) == s <==> AllDigits(s)
  {
    if s != [] {
      DigitsFixpoint(s[1..]);
      if !IsDigit(s[0]) {
        assert |Digits(s)| < |s|;
      }
    }
  }

  /** Keeping the digits twice is keeping them once. */
  lemma DigitsIdempotent(s: string)
    ensures Digits(Digits(s)) == Digits(s)
  {
    DigitsFixpoint(Digits(s));
  }

  /** A string with no digit at all has nothing left. */
  lemma {:induction false} DigitsOfNonDigits(s: string)
    requires forall k :: 0 <= k < |s| ==> !IsDigit(s[k])
    ensures Digits(s) == []
  {
    if s != [] {
      DigitsOfNonDigits(s[1..]);
    }
  }

  function UpperChar(c: char): char {
    if 'a' <= c <= 'z' then (c as int - 'a' as int + 'A' as int) as char else c
  }

  function LowerChar(c: char): char {
    if 'A' <= c <= 'Z' then (c as int - 'A' as int + 'a' as int) as char else c
  }

  /** ASCII `str.upper()`. */
  function Upper(s: string): (r: string)
    ensures |r| == |s|
    ensures forall k :: 0 <= k < |s| ==> r[k] == UpperChar(s[k])
  {
    seq(|s|, k requires 0 <= k < |s| => UpperChar(s[k]))
  }

  /** ASCII `str.lower()`. */
  function Lower(s: string): (r: string)
    ensures |r| == |s|
    ensures forall k :: 0 <= k < |s| ==> r[k] == LowerChar(s[k])
  {
    seq(|s|, k requires 0 <= k < |s| => LowerChar(s[k]))
  }

  /** Lower-casing forgets every case distinction Upper could make. */
  lemma LowerOfUpper(s: string)
    ensures Lower(Upper(s)) == Lower(s)
  {
    assert forall k :: 0 <= k < |s| ==> LowerChar(UpperChar(s[k])) == LowerChar(s[k]);
  }

  lemma LowerIdempotent(s: string)
    ensures Lower(Lower(s)) == Lower(s)
  {
    assert forall k :: 0 <= k < |s| ==> LowerChar(LowerChar(s[k])) == LowerChar(s[k]);
  }

  /** Lower-casing commutes with taking a slice. */
  lemma LowerSlice(s: string, i: nat, j: nat)
    requires i <= j <= |s|
    ensures Lower(s)[i..j] == Lower(s[i..j])
  {
    forall k | 0 <= k < j - i
      ensures Lower(s)[i..j][k] == Lower(s[i..j])[k]
    {
      LowerSliceAt(s, i, j, k);
    }
  }

  lemma LowerSliceAt(s: string, i: nat, j: nat, k: nat)
    requires i <= j <= |s| && k < j - i
    ensures Lower(s)[i..j][k] == Lower(s[i..j])[k]
  {
    assert s[i..j][k] == s[i + k];
  }

  /** `w` occurs in `s` starting at index `i`. */
  predicate OccursAt(w: string, s: string, i: int) {
    0 <= i <= |s| - |w| && s[i..i + |w|] == w
  }

  /** Python's `w in s` for two strings. */
  predicate IsSubstring(w: string, s: string) {
    exists i | 0 <= i <= |s| - |w| :: OccursAt(w, s, i)
  }

  /** Containment of strings is transitive. */
  lemma SubstringTransitive(a: string, b: string, c: string)
    requires IsSubstring(a, b) && IsSubstring(b, c)
    ensures IsSubstring(a, c)
  {
    var i: int :| OccursAt(a, b, i);
    var j: int :| OccursAt(b, c, j);
    assert OccursAt(a, b, i) && OccursAt(b, c, j);
    assert 0 <= i <= |b| - |a| && 0 <= j <= |c| - |b|;
    forall k | 0 <= k < |a|
      ensures c[j + i..j + i + |a|][k] == a[k]
    {
      assert a[k] == b[i + k] == c[j + i + k];
    }
    assert OccursAt(a, c, j + i);
  }

  /** A string occurs in any text that has it in the middle. */
  lemma SubstringOfConcat(pre: string, w: string, post: string)
    ensures IsSubstring(w, pre + w + post)
  {
    assert (pre + w + post)[|pre|..|pre| + |w|] == w;
    assert OccursAt(w, pre + w + post, |pre|);
  }
}
