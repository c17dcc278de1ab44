/**
 * The validation rules both parameter builders apply: the IMDb-id pattern
 * `(tt[0-9]*)`, the category-id check, and the limit range.
 */
module Validation {
  import opened Runtime

  // ---------------------------------------------------------------------------
  // The IMDb pattern (tt[0-9]*), searched anywhere in the input

  /**
   * The regex has a match spanning s[i..j]: two letters 't' followed by
   * digits only, as many as j allows (zero included).
   */
  ghost predicate PatternMatchesSpan(s: string, i: int, j: int)
  {
    0 <= i && i + 2 <= j <= |s| && s[i] == 't' && s[i + 1] == 't' && AllDigits(s[i + 2..j])
  }

  /** "tt" occurs at position i of s. */
  predicate TTAt(s: string, i: int)
  {
    0 <= i && i + 1 < |s| && s[i] == 't' && s[i + 1] == 't'
  }

  /**
   * `ImdbRegex().IsMatch(s)`: the unanchored search for (tt[0-9]*), tried at
   * each position from the left. A success always has a "tt" to show for it.
   */
  predicate ImdbRegexIsMatch(s: string)
    ensures ImdbRegexIsMatch(s) ==> exists i :: TTAt(s, i)
    decreases |s|
  {
    if |s| < 2 then false
    else if s[0] == 't' && s[1] == 't' then assert TTAt(s, 0); true
    else
      assert forall i :: TTAt(s[1..], i) ==> TTAt(s, i + 1);
      ImdbRegexIsMatch(s[1..])
  }

  lemma {:induction false} TTMakesMatch(s: string, i: int)
    requires TTAt(s, i)
    ensures ImdbRegexIsMatch(s)
    decreases i
  {
    if i > 0 {
      TTMakesMatch(s[1..], i - 1);
    }
  }

  /**
   * The search succeeds exactly when the regex matches some span of s, and
   * that is exactly when "tt" occurs in s: the trailing [0-9]* can always
   * match the empty string, so it never decides anything.
   */
  lemma ImdbRegexIsMatchIff(s: string)
    ensures ImdbRegexIsMatch(s) <==> exists i :: TTAt(s, i)
    ensures ImdbRegexIsMatch(s) <==> exists i, j :: PatternMatchesSpan(s, i, j)
  {
    if ImdbRegexIsMatch(s) {
      var i :| TTAt(s, i);
      assert PatternMatchesSpan(s, i, i + 2);
    }
    if exists i, j :: PatternMatchesSpan(s, i, j) {
      var i, j :| PatternMatchesSpan(s, i, j);
      TTMakesMatch(s, i);
    }
    if exists i :: TTAt(s, i) {
      var i :| TTAt(s, i);
      TTMakesMatch(s, i);
    }
  }

  /** An id written as "tt" and digits, as the error message asks for, is accepted. */
  lemma TTDigitsAccepted(digits: string)
    requires AllDigits(digits)
    ensures ImdbRegexIsMatch("tt" + digits)
  {
    TTMakesMatch("tt" + digits, 0);
  }

  /**
   * A bare run of digits ("0000000", which the error message also offers as
   * a valid form) is rejected: it contains no 't' at all.
   */
  lemma BareDigitsRejected(digits: string)
    requires AllDigits(digits)
    ensures !ImdbRegexIsMatch(digits)
  {
    ImdbRegexIsMatchIff(digits);
  }

  /** Any text around a "tt" is accepted, so the check does not pin down an id. */
  lemma SurroundedTTAccepted(before: string, after: string)
    ensures ImdbRegexIsMatch(before + "tt" + after)
  {
    TTMakesMatch(before + "tt" + after, |before|);
  }

  // ---------------------------------------------------------------------------
  // Category ids

  const MinCategory: int := 1
  const MaxCategory: int := 27

  /** The message both builders throw when every category id is out of range. */
  const CategoryMessage := "Invalid category number provided. Valid categories are 1-27"

  /** An id outside the valid range 1..27. */
  predicate InvalidCategory(v: int) { v < MinCategory || v > MaxCategory }

  /**
   * Every id of the list is outside 1..27: the condition under which a
   * category list is refused. It holds exactly when no id is valid, so the
   * empty list is refused too.
   */
  predicate AllInvalid(categories: seq<Int32>)
    ensures AllInvalid(categories) <==> !exists k :: 0 <= k < |categories| && MinCategory <= categories[k] <= MaxCategory
    ensures categories == [] ==> AllInvalid(categories)
  {
    forall k :: 0 <= k < |categories| ==> InvalidCategory(categories[k])
  }

  // ---------------------------------------------------------------------------
  // Limit

  const MinLimit: int := 1
  const MaxLimit: int := 100

  /** A limit in 1..100; any other limit is refused. A valid limit is sent as one to three digits, without a sign. */
  predicate ValidLimit(limit: int)
    ensures ValidLimit(limit) ==> 1 <= |FormatInt(limit)| <= 3 && AllDigits(FormatInt(limit))
  {
    if MinLimit <= limit <= MaxLimit then ShortFormat(limit); true else false
  }

  /** A number up to 100 has at most three digits. */
  lemma ShortFormat(n: nat)
    requires n <= 100
    ensures |FormatNat(n)| <= 3
  {
    if n >= 10 {
      assert |FormatNat(n / 10)| <= 2;
    }
  }
}
