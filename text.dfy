/** The string operations the console relies on: `toLowerCase`,
    `toUpperCase` (both over ASCII letters), `includes`, and the
    capitalisation of a section name. */
module Text {

  /** ASCII lower-casing of one character; any other character is kept. */
  function LowerChar(c: char): (r: char)
    ensures 'A' <= c <= 'Z' ==> 'a' <= r <= 'z' && r as int - c as int == 32
    ensures !('A' <= c <= 'Z') ==> r == c
  {
    if 'A' <= c <= 'Z' then (c as int + 32) as char else c
  }

  /** ASCII upper-casing of one character; any other character is kept. */
  function UpperChar(c: char): (r: char)
    ensures 'a' <= c <= 'z' ==> 'A' <= r <= 'Z' && c as int - r as int == 32
    ensures !('a' <= c <= 'z') ==> r == c
  {
    if 'a' <= c <= 'z' then (c as int - 32) as char else c
  }

  /** `s.toLowerCase()`, character by character. */
  function ToLower(s: string): (r: string)
    ensures |r| == |s|
    ensures forall i :: 0 <= i < |s| ==> r[i] == LowerChar(s[i])
  {
    seq(|s|, i requires 0 <= i < |s| => LowerChar(s[i]))
  }

  /** Lower-casing is idempotent: a lower-cased string has no upper-case letter left. */
  lemma ToLowerIdempotent(s: string)
    ensures ToLower(ToLower(s)) == ToLower(s)
  {
  }

  /** `needle` occurs in `hay` starting at position `i`. */
  ghost predicate OccursAt(hay: string, needle: string, i: int)
  {
    0 <= i && i + |needle| <= |hay| && hay[i..i + |needle|] == needle
  }

  /** Some position at which `needle` occurs in `hay`, when there is one. */
  ghost function OccurrenceIn(hay: string, needle: string): (i: int)
    requires exists i :: OccursAt(hay, needle, i)
    ensures OccursAt(hay, needle, i)
  {
    var i :| OccursAt(hay, needle, i); i
  }

  /** An occurrence at position 0 is exactly a prefix. */
  lemma OccursAtStart(hay: string, needle: string)
    ensures OccursAt(hay, needle, 0) <==> needle <= hay
  {
  }

  /** Occurrences in the tail of `hay` are the occurrences in `hay` shifted by one. */
  lemma OccursShift(hay: string, needle: string, i: nat)
    requires hay != []
    ensures OccursAt(hay, needle, i + 1) <==> OccursAt(hay[1..], needle, i)
  {
  }

  /** `hay.includes(needle)`: scans `hay` for an occurrence of `needle`. */
  function Contains(hay: string, needle: string): (r: bool)
    ensures r <==> exists i :: OccursAt(hay, needle, i)
    decreases |hay|
  {
    if needle <= hay then
      OccursAtStart(hay, needle);
      true
    else if hay == [] then
      false
    else
      var found := Contains(hay[1..], needle);
      if found then
        assert OccursAt(hay, needle, OccurrenceIn(hay[1..], needle) + 1) by {
          OccursShift(hay, needle, OccurrenceIn(hay[1..], needle));
        }
        true
      else
        assert forall i :: !OccursAt(hay, needle, i) by {
          forall i: int
            ensures !OccursAt(hay, needle, i)
          {
            if i == 0 {
              OccursAtStart(hay, needle);
            } else if i > 0 {
              OccursShift(hay, needle, i - 1);
            }
          }
        }
        false
  }

  /** The empty string is contained in every string. */
  lemma ContainsEmpty(hay: string)
    ensures Contains(hay, "")
  {
  }

  /** `s.charAt(0).toUpperCase() + s.slice(1)`. */
  function Capitalize(s: string): (r: string)
    ensures |r| == |s|
    ensures |s| > 0 ==> r[0] == UpperChar(s[0]) && r[1..] == s[1..]
  {
    if s == "" then "" else [UpperChar(s[0])] + s[1..]
  }

  /** Capitalising changes at most the case of the first letter. */
  lemma CapitalizeIgnoringCase(s: string)
    ensures ToLower(Capitalize(s)) == ToLower(s)
  {
  }
}
