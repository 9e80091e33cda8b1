/** The two string operations the search filter relies on: JavaScript's
    `toLowerCase`, restricted to ASCII letters, and `includes`. */
module Text {

  predicate IsUpper(c: char) {
    'A' <= c <= 'Z'
  }

  function LowerChar(c: char): char {
    if IsUpper(c) then (c as int - 'A' as int + 'a' as int) as char else c
  }

  /** `s.toLowerCase()` on ASCII text: every capital letter replaced by its
      lower-case form, every other character kept. */
  function ToLower(s: string): (r: string)
    ensures |r| == |s|
    ensures forall i :: 0 <= i < |r| ==> !IsUpper(r[i])
  {
    seq(|s|, i requires 0 <= i < |s| => LowerChar(s[i]))
  }

  /** Lower-casing twice changes nothing more. */
  lemma ToLowerIdempotent(s: string)
    ensures ToLower(ToLower(s)) == ToLower(s)
  {
  }

  /** Lower-casing changes exactly the capital letters, so the empty string is
      the only string whose lower-case form is empty. */
  lemma ToLowerEmpty(s: string)
    ensures ToLower(s) == "" <==> s == ""
  {
  }

  /** `needle` occurs in `hay` starting at index `i`. */
  predicate OccursAt(hay: string, needle: string, i: int) {
    0 <= i && i + |needle| <= |hay| && hay[i..i + |needle|] == needle
  }

  /** An occurrence fixes every character of the window it covers. */
  lemma OccursAtChar(hay: string, needle: string, i: int, k: int)
    requires OccursAt(hay, needle, i) && 0 <= k < |needle|
    ensures hay[i + k] == needle[k]
  {
    assert hay[i..i + |needle|][k] == hay[i + k];
  }

  /** `hay.includes(needle)`: scan the start positions left to right. */
  function Includes(hay: string, needle: string): (b: bool)
    ensures needle == [] ==> b
    ensures b ==> |needle| <= |hay|
    decreases |hay|
  {
    if needle <= hay then true
    else if hay == [] then false
    else Includes(hay[1..], needle)
  }

  /** `Includes` finds an occurrence exactly when one exists. */
  lemma {:induction false} IncludesIff(hay: string, needle: string)
    ensures Includes(hay, needle) <==> exists i :: OccursAt(hay, needle, i)
    decreases |hay|
  {
    if needle <= hay {
      assert OccursAt(hay, needle, 0);
    } else if hay == [] {
      assert forall i :: !OccursAt(hay, needle, i);
    } else {
      IncludesIff(hay[1..], needle);
      if Includes(hay, needle) {
        var j :| OccursAt(hay[1..], needle, j);
        OccursAtShift(hay, needle, j);
      } else {
        forall i | OccursAt(hay, needle, i)
          ensures false
        {
          if i > 0 {
            OccursAtShift(hay, needle, i - 1);
          }
        }
      }
    }
  }

  /** Dropping the first character of the text moves every occurrence one
      place to the left. */
  lemma OccursAtShift(hay: string, needle: string, j: int)
    requires hay != [] && 0 <= j
    ensures OccursAt(hay[1..], needle, j) <==> OccursAt(hay, needle, j + 1)
  {
    if j + |needle| <= |hay| - 1 {
      assert hay[1..][j..j + |needle|] == hay[j + 1..j + 1 + |needle|];
    }
  }
}
