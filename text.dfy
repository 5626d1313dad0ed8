/**
 * The string tests the sign-in form applies to thrown error messages:
 * `toLowerCase().includes(...)`, a case-insensitive regular expression for a
 * literal phrase, and the pattern `User .* does not exist|UserNotFoundException`
 * with the case-insensitive flag. Case folding is ASCII only.
 */
module Text {

  /** ASCII lower-casing of one character; every other character is kept. */
  function LowerChar(c: char): char {
    if 'A' <= c <= 'Z' then (c as int + 32) as char else c
  }

  /** `toLowerCase()`, restricted to ASCII letters. */
  function Lower(s: string): (r: string)
    ensures |r| == |s|
    ensures forall i :: 0 <= i < |s| ==> r[i] == LowerChar(s[i])
  {
    if s == [] then [] else [LowerChar(s[0])] + Lower(s[1..])
  }

  /** `a` and `b` are equal up to ASCII letter case. */
  predicate EqualIgnoringCase(a: string, b: string) {
    |a| == |b| && forall k :: 0 <= k < |a| ==> LowerChar(a[k]) == LowerChar(b[k])
  }

  /** `needle` occurs in `hay` at position `i`. */
  predicate OccursAt(hay: string, needle: string, i: int) {
    0 <= i && i + |needle| <= |hay| && hay[i..i + |needle|] == needle
  }

  /** `needle` occurs in `hay` at position `i`, up to ASCII letter case. */
  predicate OccursIgnoringCaseAt(hay: string, needle: string, i: int) {
    0 <= i && i + |needle| <= |hay| && EqualIgnoringCase(hay[i..i + |needle|], needle)
  }

  lemma OccurrenceShift(hay: string, needle: string)
    requires |hay| > 0
    ensures (exists i :: OccursAt(hay, needle, i))
        <==> OccursAt(hay, needle, 0) || exists i :: OccursAt(hay[1..], needle, i)
  {
    var n := |needle|;
    if i :| OccursAt(hay, needle, i) && i > 0 {
      assert hay[1..][i - 1..i - 1 + n] == hay[i..i + n];
      assert OccursAt(hay[1..], needle, i - 1);
    }
    if j :| OccursAt(hay[1..], needle, j) {
      assert hay[1..][j..j + n] == hay[j + 1..j + 1 + n];
      assert OccursAt(hay, needle, j + 1);
    }
  }

  /** `hay.includes(needle)`. */
  function Includes(hay: string, needle: string): (b: bool)
    ensures b <==> exists i :: OccursAt(hay, needle, i)
    decreases |hay|
  {
    if |hay| < |needle| then false
    else if OccursAt(hay, needle, 0) then true
    else
      OccurrenceShift(hay, needle);
      Includes(hay[1..], needle)
  }

  /** A case-insensitive regular expression that is the literal `needle`:
      whether `needle` occurs somewhere in `hay` up to ASCII letter case. */
  function IncludesIgnoringCase(hay: string, needle: string): (b: bool)
    ensures b <==> exists i :: OccursIgnoringCaseAt(hay, needle, i)
  {
    IncludesIgnoringCaseFrom(hay, needle, 0)
  }

  function IncludesIgnoringCaseFrom(hay: string, needle: string, i: nat): (b: bool)
    requires i <= |hay|
    ensures b <==> exists p :: i <= p && OccursIgnoringCaseAt(hay, needle, p)
    decreases |hay| - i
  {
    if i + |needle| > |hay| then false
    else if OccursIgnoringCaseAt(hay, needle, i) then true
    else IncludesIgnoringCaseFrom(hay, needle, i + 1)
  }

  /** `s` has no ASCII upper-case letter, so `Lower` leaves it as it is. */
  predicate NoUpperCase(s: string) {
    forall k :: 0 <= k < |s| ==> !('A' <= s[k] <= 'Z')
  }

  lemma LowerOccurrence(hay: string, needle: string, i: int)
    requires NoUpperCase(needle)
    ensures OccursAt(Lower(hay), needle, i) <==> OccursIgnoringCaseAt(hay, needle, i)
  {
  }

  /** For a needle already in lower case, `hay.toLowerCase().includes(needle)`
      is the case-insensitive test. */
  lemma {:induction false} LowerThenIncludes(hay: string, needle: string)
    requires NoUpperCase(needle)
    ensures Includes(Lower(hay), needle) == IncludesIgnoringCase(hay, needle)
  {
    forall i ensures OccursAt(Lower(hay), needle, i) <==> OccursIgnoringCaseAt(hay, needle, i) {
      LowerOccurrence(hay, needle, i);
    }
  }

  const UserPrefix := "User "
  const DoesNotExistSuffix := " does not exist"
  const UserNotFoundName := "UserNotFoundException"

  /** The characters `.` does not match in a JavaScript regular expression. */
  predicate IsLineTerminator(c: char) {
    c == '\n' || c == '\r' || c == '\U{2028}' || c == '\U{2029}'
  }

  /** The alternative `User .* does not exist` matches with "User " at `i`
      and " does not exist" at `j`, the gap between them free of line breaks. */
  ghost predicate UserGapMatchAt(m: string, i: int, j: int) {
    && OccursIgnoringCaseAt(m, UserPrefix, i)
    && i + |UserPrefix| <= j
    && OccursIgnoringCaseAt(m, DoesNotExistSuffix, j)
    && forall t :: i + |UserPrefix| <= t < j ==> !IsLineTerminator(m[t])
  }

  /** The whole pattern `User .* does not exist|UserNotFoundException`, flag `i`. */
  ghost predicate IsUserNotFoundMessage(m: string) {
    || (exists i, j :: UserGapMatchAt(m, i, j))
    || (exists i :: OccursIgnoringCaseAt(m, UserNotFoundName, i))
  }

  /** Whether " does not exist" starts at some `k >= j` with no line break in `m[j..k]`. */
  function SuffixAfterGap(m: string, j: nat): (b: bool)
    requires j <= |m|
    ensures b <==> exists k :: j <= k && OccursIgnoringCaseAt(m, DoesNotExistSuffix, k)
                               && forall t :: j <= t < k ==> !IsLineTerminator(m[t])
    decreases |m| - j
  {
    if OccursIgnoringCaseAt(m, DoesNotExistSuffix, j) then true
    else if j < |m| && !IsLineTerminator(m[j]) then SuffixAfterGap(m, j + 1)
    else false
  }

  lemma UserGapWitness(m: string, i: nat)
    requires i + |UserPrefix| <= |m|
    requires OccursIgnoringCaseAt(m, UserPrefix, i) && SuffixAfterGap(m, i + |UserPrefix|)
    ensures exists k :: UserGapMatchAt(m, i, k)
  {
    var k :| i + |UserPrefix| <= k && OccursIgnoringCaseAt(m, DoesNotExistSuffix, k)
             && forall t :: i + |UserPrefix| <= t < k ==> !IsLineTerminator(m[t]);
    assert UserGapMatchAt(m, i, k);
  }

  /** Whether the first alternative matches with its "User " at some `p >= i`. */
  function UserGapFrom(m: string, i: nat): (b: bool)
    requires i <= |m|
    ensures b <==> exists p, k :: i <= p && UserGapMatchAt(m, p, k)
    decreases |m| - i
  {
    if i + |UserPrefix| > |m| then false
    else if OccursIgnoringCaseAt(m, UserPrefix, i) && SuffixAfterGap(m, i + |UserPrefix|) then
      UserGapWitness(m, i);
      true
    else UserGapFrom(m, i + 1)
  }

  /** `/User .* does not exist|UserNotFoundException/i.test(m)`. */
  function MatchesUserNotFound(m: string): (b: bool)
    ensures b <==> IsUserNotFoundMessage(m)
  {
    UserGapFrom(m, 0) || IncludesIgnoringCase(m, UserNotFoundName)
  }

  /** A message naming the user between the two phrases is recognised. */
  lemma NamedUserRecognised()
    ensures IsUserNotFoundMessage("User alice@example.com does not exist")
  {
    var m := "User alice@example.com does not exist";
    assert m[0..5] == UserPrefix;
    assert m[22..37] == DoesNotExistSuffix;
    assert UserGapMatchAt(m, 0, 22);
  }

  /** The gap of the pattern sits between two spaces, so a message with a
      single space after "User" is not recognised. */
  lemma SingleSpaceMessageNotRecognised()
    ensures !IsUserNotFoundMessage("User does not exist.")
  {
    var m := "User does not exist.";
    forall i, j ensures !UserGapMatchAt(m, i, j) {
      if 0 <= i && i + |UserPrefix| <= j && j + |DoesNotExistSuffix| <= |m| {
        assert j == 5;
        assert m[j..j + |DoesNotExistSuffix|][0] == 'd' != DoesNotExistSuffix[0];
      }
    }
  }
}
