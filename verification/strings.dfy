/** The string operations the identifier normaliser relies on: Python's
    `str.strip()`, `str.upper()`, `str.startswith()`, `str.zfill()` and the
    negative slice `x[-n:]`, over the ASCII range. */
module Strings {

  /** Python's `str.isspace()` on an ASCII character: tab, line feed,
      vertical tab, form feed, carriage return, the four information
      separators 0x1C-0x1F and space. */
  predicate IsSpace(c: char)
  {
    (9 <= c as int <= 13) || (28 <= c as int <= 32)
  }

  predicate IsLower(c: char)
  {
    'a' <= c <= 'z'
  }

  predicate IsDigit(c: char)
  {
    '0' <= c <= '9'
  }

  predicate IsDigits(s: string)
  {
    forall i :: 0 <= i < |s| ==> IsDigit(s[i])
  }

  /** `s.lstrip()`. */
  function TrimStart(s: string): string
  {
    if s == [] || !IsSpace(s[0]) then s else TrimStart(s[1..])
  }

  /** Left-trimming drops the leading whitespace and nothing else: what is
      left is a suffix of `s` that does not start with whitespace, and every
      character cut off is whitespace. */
  lemma {:induction false} TrimStartSpec(s: string)
    ensures var r := TrimStart(s);
      |r| <= |s| && r == s[|s| - |r|..]
      && (r == [] || !IsSpace(r[0]))
      && forall i :: 0 <= i < |s| - |r| ==> IsSpace(s[i])
  {
    if s != [] && IsSpace(s[0]) {
      TrimStartSpec(s[1..]);
      var r := TrimStart(s);
      assert forall i :: 1 <= i < |s| - |r| ==> s[i] == s[1..][i - 1];
    }
  }

  /** `s.rstrip()`. */
  function TrimEnd(s: string): string
  {
    if s == [] || !IsSpace(s[|s| - 1]) then s else TrimEnd(s[..|s| - 1])
  }

  /** Right-trimming drops the trailing whitespace and nothing else: what is
      left is a prefix of `s` that does not end with whitespace, and every
      character cut off is whitespace. */
  lemma {:induction false} TrimEndSpec(s: string)
    ensures var r := TrimEnd(s);
      |r| <= |s| && r == s[..|r|]
      && (r == [] || !IsSpace(r[|r| - 1]))
      && forall i :: |r| <= i < |s| ==> IsSpace(s[i])
  {
    if s != [] && IsSpace(s[|s| - 1]) {
      TrimEndSpec(s[..|s| - 1]);
    }
  }

  /** `s.strip()`: the slice of `s` left once the whitespace at both ends is
      cut off; it neither starts nor ends with whitespace. */
  function Strip(s: string): (r: string)
    ensures var k := |s| - |TrimStart(s)|;
      0 <= k && k + |r| <= |s| && r == s[k..k + |r|]
      && (forall i :: 0 <= i < k ==> IsSpace(s[i]))
      && (forall i :: k + |r| <= i < |s| ==> IsSpace(s[i]))
    ensures r == [] || (!IsSpace(r[0]) && !IsSpace(r[|r| - 1]))
  {
    TrimStartSpec(s);
    TrimEndSpec(TrimStart(s));
    TrimEnd(TrimStart(s))
  }

  function UpperChar(c: char): char
  {
    if IsLower(c) then (c as int - 32) as char else c
  }

  /** `s.upper()` on ASCII letters; every other character is kept. */
  function Upper(s: string): (r: string)
    ensures |r| == |s|
    ensures forall i :: 0 <= i < |s| ==> !IsLower(r[i])
    ensures forall i :: 0 <= i < |s| && !IsLower(s[i]) ==> r[i] == s[i]
    ensures forall i :: 0 <= i < |s| && IsLower(s[i]) ==> r[i] as int == s[i] as int - 32
  {
    seq(|s|, i requires 0 <= i < |s| => UpperChar(s[i]))
  }

  /** Two characters that are equal or are the lower- and upper-case forms
      of one ASCII letter. */
  predicate SameLetter(a: char, b: char)
  {
    a == b || (IsLower(a) && b as int == a as int - 32) || (IsLower(b) && a as int == b as int - 32)
  }

  /** Upper-cased strings are equal exactly when the strings have the same
      length and agree character by character up to ASCII case. */
  lemma UpperEqual(s: string, t: string)
    ensures Upper(s) == Upper(t) <==> |s| == |t| && forall i :: 0 <= i < |s| ==> SameLetter(s[i], t[i])
  {
    if |s| == |t| {
      if Upper(s) == Upper(t) {
        forall i | 0 <= i < |s| ensures SameLetter(s[i], t[i]) {
          assert Upper(s)[i] == Upper(t)[i];
        }
      }
      if forall i :: 0 <= i < |s| ==> SameLetter(s[i], t[i]) {
        forall i | 0 <= i < |s| ensures Upper(s)[i] == Upper(t)[i] {
          assert SameLetter(s[i], t[i]);
        }
      }
    }
  }

  /** `s.startswith(p)`. */
  predicate StartsWith(s: string, p: string)
  {
    |p| <= |s| && s[..|p|] == p
  }

  /** Python's `x[-n:]`: the last `n` characters, or all of `x` when it is
      shorter. */
  function Last(x: string, n: nat): (r: string)
    ensures |r| == if |x| < n then |x| else n
    ensures r == x[|x| - |r|..]
  {
    if |x| < n then x else x[|x| - n..]
  }

  function Zeros(n: nat): (r: string)
    ensures |r| == n && forall i :: 0 <= i < n ==> r[i] == '0'
  {
    if n == 0 then "" else "0" + Zeros(n - 1)
  }

  predicate IsSign(c: char)
  {
    c == '+' || c == '-'
  }

  /** `s.zfill(width)`: pads on the left with '0' up to `width` characters; a
      leading sign stays in front of the padding; a string already `width`
      long or longer is returned as it is. */
  function ZFill(s: string, width: nat): (r: string)
    ensures |r| == if |s| < width then width else |s|
    ensures |s| >= width ==> r == s
    ensures |s| < width && !(|s| > 0 && IsSign(s[0])) ==>
      r[width - |s|..] == s && forall i :: 0 <= i < width - |s| ==> r[i] == '0'
    ensures |s| < width && |s| > 0 && IsSign(s[0]) ==>
      r[0] == s[0] && r[width - |s| + 1..] == s[1..]
      && forall i :: 1 <= i <= width - |s| ==> r[i] == '0'
  {
    if |s| >= width then s
    else if |s| > 0 && IsSign(s[0]) then [s[0]] + Zeros(width - |s|) + s[1..]
    else Zeros(width - |s|) + s
  }

  /** Padding a digit string keeps it a digit string and keeps it as the
      tail of the result. */
  lemma ZFillDigits(s: string, width: nat)
    requires IsDigits(s)
    ensures IsDigits(ZFill(s, width))
    ensures var r := ZFill(s, width); r[|r| - |s|..] == s
  {
    var r := ZFill(s, width);
    if |s| < width {
      assert !(|s| > 0 && IsSign(s[0]));
      forall i | 0 <= i < |r| ensures IsDigit(r[i]) {
        if i >= width - |s| {
          assert r[i] == r[width - |s|..][i - (width - |s|)];
        }
      }
    }
  }
}
