/** The parts of System.String and System.Int32 the Acme core relies on:
    string concatenation with null, `Char.IsWhiteSpace`, `String.Trim`,
    `String.IsNullOrWhiteSpace`, `StartsWith` and the decimal text of an
    `int`. */
module Strings {
  import opened Common

  /** `a + b` in C# treats a null string operand as the empty string. */
  function Str(s: Option<string>): string
  {
    match s
    case None => ""
    case Some(text) => text
  }

  /** Prefix test. The comparison is ordinal (character by character). */
  predicate StartsWith(s: string, prefix: string)
  {
    prefix <= s
  }

  /** Suffix test, ordinal like `StartsWith`. */
  predicate EndsWith(s: string, suffix: string)
  {
    |suffix| <= |s| && s[|s| - |suffix|..] == suffix
  }

  /** `Char.IsWhiteSpace`: the Unicode space, line and paragraph separators
      and the control characters U+0009..U+000D and U+0085. */
  predicate IsWhiteSpace(c: char)
  {
    var n := c as int;
    || (0x09 <= n <= 0x0D) || n == 0x20 || n == 0x85 || n == 0xA0
    || n == 0x1680 || (0x2000 <= n <= 0x200A) || n == 0x2028 || n == 0x2029
    || n == 0x202F || n == 0x205F || n == 0x3000
  }

  predicate AllWhiteSpace(s: string)
  {
    forall i :: 0 <= i < |s| ==> IsWhiteSpace(s[i])
  }

  /** `String.IsNullOrWhiteSpace`. */
  predicate IsNullOrWhiteSpace(s: Option<string>)
  {
    s.None? || AllWhiteSpace(s.value)
  }

  /** `String.TrimStart()`: drops the leading white space and nothing else. */
  function TrimStart(s: string): (r: string)
    ensures |r| <= |s| && r == s[|s| - |r|..]
    ensures forall i :: 0 <= i < |s| - |r| ==> IsWhiteSpace(s[i])
    ensures r != [] ==> !IsWhiteSpace(r[0])
  {
    if |s| > 0 && IsWhiteSpace(s[0]) then TrimStart(s[1..]) else s
  }

  /** `String.TrimEnd()`: drops the trailing white space and nothing else. */
  function TrimEnd(s: string): (r: string)
    ensures |r| <= |s| && r == s[..|r|]
    ensures forall i :: |r| <= i < |s| ==> IsWhiteSpace(s[i])
    ensures r != [] ==> !IsWhiteSpace(r[|r| - 1])
  {
    if |s| > 0 && IsWhiteSpace(s[|s| - 1]) then TrimEnd(s[..|s| - 1]) else s
  }

  /** Everything in `s` before index `i` and from index `j` on is white
      space. */
  predicate WhiteSpaceOutside(s: string, i: nat, j: nat)
    requires i <= j <= |s|
  {
    && (forall k :: 0 <= k < i ==> IsWhiteSpace(s[k]))
    && (forall k :: j <= k < |s| ==> IsWhiteSpace(s[k]))
  }

  /** `String.Trim()`: the input with its leading and trailing white space
      cut off and nothing else; empty exactly when the input is all white
      space, otherwise it starts and ends with a character that is not. */
  function Trim(s: string): (r: string)
    ensures exists i: nat, j: nat :: i <= j <= |s| && r == s[i..j] && WhiteSpaceOutside(s, i, j)
    ensures r == [] <==> AllWhiteSpace(s)
    ensures r != [] ==> !IsWhiteSpace(r[0]) && !IsWhiteSpace(r[|r| - 1])
  {
    TrimIsSlice(s, TrimStart(s), TrimEnd(TrimStart(s)));
    TrimEnd(TrimStart(s))
  }

  /** Cutting white space off the front of `s` to get `t`, then off the
      back of `t` to get `r`, leaves a slice of `s` whose outside is all
      white space. */
  lemma TrimIsSlice(s: string, t: string, r: string)
    requires |t| <= |s| && t == s[|s| - |t|..]
    requires forall k :: 0 <= k < |s| - |t| ==> IsWhiteSpace(s[k])
    requires |r| <= |t| && r == t[..|r|]
    requires forall k :: |r| <= k < |t| ==> IsWhiteSpace(t[k])
    ensures exists i: nat, j: nat :: i <= j <= |s| && r == s[i..j] && WhiteSpaceOutside(s, i, j)
  {
    var i := |s| - |t|;
    var j := i + |r|;
    assert r == s[i..j];
    forall k | j <= k < |s| ensures IsWhiteSpace(s[k]) {
      assert s[k] == t[k - i];
    }
    assert WhiteSpaceOutside(s, i, j);
  }

  /** Appending text that holds a non-white-space character protects the
      left part from `TrimEnd`; appending only white space is trimmed away. */
  lemma {:induction false} TrimEndAppend(a: string, b: string)
    ensures !AllWhiteSpace(b) ==> TrimEnd(a + b) == a + TrimEnd(b)
    ensures AllWhiteSpace(b) ==> TrimEnd(a + b) == TrimEnd(a)
    decreases |b|
  {
    if |b| == 0 {
      assert a + b == a;
    } else {
      var b' := b[..|b| - 1];
      assert (a + b)[..|a + b| - 1] == a + b';
      assert (a + b)[|a + b| - 1] == b[|b| - 1];
      if IsWhiteSpace(b[|b| - 1]) {
        TrimEndAppend(a, b');
        assert AllWhiteSpace(b) <==> AllWhiteSpace(b') by {
          if AllWhiteSpace(b') {
            forall i | 0 <= i < |b| ensures IsWhiteSpace(b[i]) {
              if i < |b'| { assert b[i] == b'[i]; }
            }
          }
          if AllWhiteSpace(b) {
            forall i | 0 <= i < |b'| ensures IsWhiteSpace(b'[i]) {
              assert b'[i] == b[i];
            }
          }
        }
      } else {
        assert !AllWhiteSpace(b) by { assert !IsWhiteSpace(b[|b| - 1]); }
      }
    }
  }

  /** `IsNullOrWhiteSpace` on a non-null string says that `Trim` leaves nothing. */
  lemma NullOrWhiteSpaceIsEmptyTrim(s: string)
    ensures IsNullOrWhiteSpace(Some(s)) <==> Trim(s) == ""
  {
  }

  // ---- decimal text of an integer ----

  predicate IsDigit(c: char)
  {
    '0' <= c <= '9'
  }

  predicate AllDigits(s: string)
  {
    forall i :: 0 <= i < |s| ==> IsDigit(s[i])
  }

  function DigitChar(d: nat): (c: char)
    requires d < 10
    ensures IsDigit(c) && c as int - '0' as int == d
  {
    ('0' as int + d) as char
  }

  /** The shortest decimal digits of `n`, most significant first. */
  function NatText(n: nat): (r: string)
    ensures |r| >= 1 && AllDigits(r)
    ensures r[0] == '0' ==> n == 0
  {
    if n < 10 then [DigitChar(n)] else NatText(n / 10) + [DigitChar(n % 10)]
  }

  /** `int.ToString()`: a leading minus sign for negative values. */
  function IntText(i: int): (r: string)
    ensures |r| >= 1
    ensures r[0] == '-' <==> i < 0
  {
    if i < 0 then "-" + NatText(-i) else NatText(i)
  }

  /** The value of a string of decimal digits. */
  function DigitsValue(s: string): nat
    requires AllDigits(s)
  {
    if |s| == 0 then 0
    else DigitsValue(s[..|s| - 1]) * 10 + (s[|s| - 1] as int - '0' as int)
  }

  /** Reads back an optionally signed decimal integer; None when the text
      is not one. */
  function ParseInt(s: string): Option<int>
  {
    if |s| > 1 && s[0] == '-' && AllDigits(s[1..]) then Some(0 - DigitsValue(s[1..]) as int)
    else if |s| > 0 && AllDigits(s) then Some(DigitsValue(s))
    else None
  }

  lemma {:induction false} NatTextValue(n: nat)
    ensures DigitsValue(NatText(n)) == n
  {
    if n >= 10 {
      var s := NatText(n);
      assert s[..|s| - 1] == NatText(n / 10);
      NatTextValue(n / 10);
    }
  }

  /** The decimal text of an integer reads back as that integer. */
  lemma IntTextRoundTrip(i: int)
    ensures ParseInt(IntText(i)) == Some(i)
  {
    if i < 0 {
      assert IntText(i)[1..] == NatText(-i);
      NatTextValue(-i);
    } else {
      NatTextValue(i);
    }
  }

  /** Distinct integers have distinct decimal texts. */
  lemma IntTextInjective(i: int, j: int)
    requires IntText(i) == IntText(j)
    ensures i == j
  {
    IntTextRoundTrip(i);
    IntTextRoundTrip(j);
  }
}
