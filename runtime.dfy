/**
 * The pieces of the .NET runtime that the library's code relies on and whose
 * behaviour shows in its output: 32- and 64-bit integers, the exception types
 * it throws, `string.ToLower`, formatting an `int` inside an interpolated
 * string and `string.Join(',', int[])`. It also holds the string helpers the
 * reference reader of QueryString is built from (splitting at a character,
 * reading digits back), which the library itself never calls.
 */
module Runtime {
  import opened Wrappers

  /** System.Int32 */
  type Int32 = x: int | -0x8000_0000 <= x < 0x8000_0000
  /** System.Int64 */
  type Int64 = x: int | -0x8000_0000_0000_0000 <= x < 0x8000_0000_0000_0000

  /** The exceptions the library throws or lets escape. */
  datatype Exception =
    | ArgumentException(message: string)
    | ArgumentNullException(paramName: string, message: string)
    | KeyNotFoundException(key: string)
    | GeneralException(message: string)

  // ---------------------------------------------------------------------------
  // string.ToLower, on the ASCII letters

  predicate IsUpper(c: char) { 'A' <= c <= 'Z' }

  function LowerChar(c: char): (l: char)
    ensures !IsUpper(l)
    ensures IsUpper(c) ==> l as int == c as int + 32
    ensures !IsUpper(c) ==> l == c
  {
    if IsUpper(c) then (c as int + 32) as char else c
  }

  /** `s.ToLower()`: every ASCII capital becomes its small letter, all else is kept. */
  function ToLower(s: string): (r: string)
    ensures |r| == |s|
    ensures forall i :: 0 <= i < |s| ==> r[i] == LowerChar(s[i])
  {
    if s == [] then [] else [LowerChar(s[0])] + ToLower(s[1..])
  }

  /** Lower-casing twice is lower-casing once. */
  lemma ToLowerIdempotent(s: string)
    ensures ToLower(ToLower(s)) == ToLower(s)
  {
  }

  /** A string comes out of ToLower unchanged exactly when it has no capital letter. */
  lemma ToLowerFixedIff(s: string)
    ensures ToLower(s) == s <==> forall i :: 0 <= i < |s| ==> !IsUpper(s[i])
  {
    if ToLower(s) == s {
      forall i | 0 <= i < |s| ensures !IsUpper(s[i]) {
        assert ToLower(s)[i] == s[i];
      }
    }
  }

  // ---------------------------------------------------------------------------
  // Formatting an int in an interpolated string, with '-' as the negative sign

  predicate IsDigit(c: char) { '0' <= c <= '9' }

  predicate AllDigits(s: string) { forall i :: 0 <= i < |s| ==> IsDigit(s[i]) }

  function DigitChar(d: int): (c: char)
    requires 0 <= d < 10
    ensures IsDigit(c)
  {
    ('0' as int + d) as char
  }

  function DigitValue(c: char): (d: nat)
    requires IsDigit(c)
    ensures d < 10 && DigitChar(d) == c
  {
    c as int - '0' as int
  }

  /** The decimal digits of n, most significant first, without leading zeros. */
  function FormatNat(n: nat): (r: string)
    ensures r != [] && AllDigits(r)
    ensures r[0] == '0' ==> n == 0
  {
    if n < 10 then [DigitChar(n)] else FormatNat(n / 10) + [DigitChar(n % 10)]
  }

  /** How `$"{n}"` renders an int: a minus sign for negatives, then the digits. */
  function FormatInt(n: int): (r: string)
    ensures r != []
    ensures r[0] == '-' <==> n < 0
    ensures n >= 0 ==> AllDigits(r)
    ensures n < 0 ==> AllDigits(r[1..])
  {
    if n < 0 then "-" + FormatNat(-n) else FormatNat(n)
  }

  /** Reads a string of decimal digits back as a number (the inverse of FormatNat). */
  function ParseNat(s: string): nat
    requires AllDigits(s)
  {
    if s == [] then 0 else ParseNat(s[..|s| - 1]) * 10 + DigitValue(s[|s| - 1])
  }

  /** Reads an optionally signed decimal numeral; None for anything else. */
  function ParseInt(s: string): Option<int>
  {
    if s != [] && s[0] == '-' && |s| > 1 && AllDigits(s[1..]) then Some(0 - ParseNat(s[1..]))
    else if s != [] && AllDigits(s) then Some(ParseNat(s))
    else None
  }

  lemma {:induction false} ParseFormatNat(n: nat)
    ensures ParseNat(FormatNat(n)) == n
  {
    if n >= 10 {
      var r := FormatNat(n);
      assert r[..|r| - 1] == FormatNat(n / 10);
      ParseFormatNat(n / 10);
    }
  }

  /** Formatting an int and reading it back gives the same int. */
  lemma ParseFormatInt(n: int)
    ensures ParseInt(FormatInt(n)) == Some(n)
  {
    var s := FormatInt(n);
    if n < 0 {
      var digits := FormatNat(-n);
      assert s == "-" + digits;
      assert s[1..] == digits;
      ParseFormatNat(-n);
      assert ParseInt(s) == Some(0 - ParseNat(digits));
    } else {
      assert s == FormatNat(n) && s[0] != '-';
      ParseFormatNat(n);
      assert ParseInt(s) == Some(ParseNat(s));
    }
  }

  /** Two ints format alike only if they are equal. */
  lemma FormatIntInjective(m: int, n: int)
    requires FormatInt(m) == FormatInt(n)
    ensures m == n
  {
    ParseFormatInt(m);
    ParseFormatInt(n);
  }

  // ---------------------------------------------------------------------------
  // Splitting at a character, as the reference reader of QueryString does

  /** The position of the first c in s. */
  function IndexOf(s: string, c: char): (i: nat)
    requires c in s
    ensures i < |s| && s[i] == c && c !in s[..i]
  {
    if s[0] == c then 0
    else
      var j := IndexOf(s[1..], c);
      assert s[..j + 1] == [s[0]] + s[1..][..j];
      j + 1
  }

  /** The pieces between separators, empty pieces included. */
  function Split(s: string, sep: char): (r: seq<string>)
    ensures |r| >= 1
    decreases |s|
  {
    if sep in s then
      var i := IndexOf(s, sep);
      [s[..i]] + Split(s[i + 1..], sep)
    else [s]
  }

  lemma SplitNoSeparator(s: string, sep: char)
    requires sep !in s
    ensures Split(s, sep) == [s]
  {
  }

  /** Splitting at the first separator: the piece before it, then the split of the rest. */
  lemma SplitAtFirst(a: string, sep: char, b: string)
    requires sep !in a
    ensures Split(a + [sep] + b, sep) == [a] + Split(b, sep)
  {
    var s := a + [sep] + b;
    var i := IndexOf(s, sep);
    assert s[|a|] == sep;
    assert i == |a|;
    assert s[..i] == a;
    assert s[i + 1..] == b;
  }

  // ---------------------------------------------------------------------------
  // string.Join(',', int[])

  /** `string.Join(',', xs)`: the formatted ints separated by commas; "" for no ints. */
  function JoinInts(xs: seq<int>): string
  {
    if xs == [] then ""
    else if |xs| == 1 then FormatInt(xs[0])
    else FormatInt(xs[0]) + "," + JoinInts(xs[1..])
  }

  /** An int? rendered with `$"{v}"` when it is not null. */
  function FormatOpt(v: Option<Int32>): (r: Option<string>)
    ensures r.Some? <==> v.Some?
    ensures r.Some? ==> ParseInt(r.value) == Some(v.value as int)
  {
    if v.Some? then
      ParseFormatInt(v.value);
      Some(FormatInt(v.value))
    else None
  }

  /** A formatted int holds only digits and a leading minus sign. */
  lemma FormatIntChars(n: int, c: char)
    requires c != '-' && !IsDigit(c)
    ensures c !in FormatInt(n)
  {
    var r := FormatInt(n);
    if n < 0 {
      assert r == ['-'] + r[1..];
    }
  }

  lemma FormatIntHasNoComma(n: int)
    ensures ',' !in FormatInt(n)
  {
    FormatIntChars(n, ',');
  }

  /** Joined ints hold only digits, minus signs and commas. */
  lemma {:induction false} JoinIntsChars(xs: seq<int>, c: char)
    requires c != '-' && c != ',' && !IsDigit(c)
    ensures c !in JoinInts(xs)
  {
    if xs != [] {
      FormatIntChars(xs[0], c);
      if |xs| > 1 {
        JoinIntsChars(xs[1..], c);
      }
    }
  }

  /** Reads a comma-separated list of ints (the inverse of JoinInts). */
  function ParseIntList(s: string): Option<seq<int>>
  {
    if s == "" then Some([]) else ParseAll(Split(s, ','))
  }

  function ParseAll(pieces: seq<string>): Option<seq<int>>
  {
    if pieces == [] then Some([])
    else
      var head, tail := ParseInt(pieces[0]), ParseAll(pieces[1..]);
      if head.Some? && tail.Some? then Some([head.value] + tail.value) else None
  }

  lemma {:induction false} ParseAllJoin(xs: seq<int>)
    requires xs != []
    ensures ParseAll(Split(JoinInts(xs), ',')) == Some(xs)
  {
    FormatIntHasNoComma(xs[0]);
    ParseFormatInt(xs[0]);
    if |xs| == 1 {
      SplitNoSeparator(FormatInt(xs[0]), ',');
      var p := [FormatInt(xs[0])];
      assert p[1..] == [];
      assert ParseInt(p[0]) == Some(xs[0]);
      assert ParseAll(p[1..]) == Some([]);
      assert p != [];
      assert [xs[0]] + [] == [xs[0]];
      assert ParseAll(p) == Some([xs[0]]);
      assert [xs[0]] == xs;
    } else {
      SplitAtFirst(FormatInt(xs[0]), ',', JoinInts(xs[1..]));
      assert FormatInt(xs[0]) + "," + JoinInts(xs[1..]) == FormatInt(xs[0]) + [','] + JoinInts(xs[1..]);
      ParseAllJoin(xs[1..]);
      assert [xs[0]] + xs[1..] == xs;
    }
  }

  /** The joined list reads back as the list it came from, so no id is lost or altered. */
  lemma JoinIntsRoundTrip(xs: seq<int>)
    ensures ParseIntList(JoinInts(xs)) == Some(xs)
  {
    if xs != [] {
      assert JoinInts(xs) != "" by {
        if |xs| > 1 { assert JoinInts(xs)[0] == FormatInt(xs[0])[0]; }
      }
      ParseAllJoin(xs);
    }
  }
}
