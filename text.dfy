/**
 * The handful of Python `str` operations the converter relies on, written over
 * `seq<char>`: prefix and suffix tests, substring search, `replace`, `split`,
 * `join`, `str(n)` for naturals, and the character classes that `str.split()`,
 * `str.lower()` and the regular-expression class `\w` consult.
 */
module Text {

  predicate StartsWith(s: string, prefix: string) {
    |prefix| <= |s| && s[..|prefix|] == prefix
  }

  predicate EndsWith(s: string, suffix: string) {
    |suffix| <= |s| && s[|s| - |suffix|..] == suffix
  }

  /** Python's `sub in s`. */
  predicate Contains(s: string, sub: string)
    decreases |s|
  {
    StartsWith(s, sub) || (|s| > 0 && Contains(s[1..], sub))
  }

  lemma {:induction false} ContainsAt(s: string, sub: string, i: nat)
    requires i + |sub| <= |s| && s[i..i + |sub|] == sub
    ensures Contains(s, sub)
  {
    if i > 0 {
      assert s[1..][i - 1..i - 1 + |sub|] == sub;
      ContainsAt(s[1..], sub, i - 1);
    }
  }

  /**
   * Python's `s.replace(pat, rep)`: every occurrence of `pat`, scanning from the
   * left and without overlaps, becomes `rep`.
   */
  function Replace(s: string, pat: string, rep: string): string
    requires |pat| > 0
    decreases |s|
  {
    if |s| == 0 then ""
    else if StartsWith(s, pat) then rep + Replace(s[|pat|..], pat, rep)
    else [s[0]] + Replace(s[1..], pat, rep)
  }

  /** A string that is exactly the pattern becomes the replacement. */
  lemma ReplaceWhole(pat: string, rep: string)
    requires |pat| > 0
    ensures Replace(pat, pat, rep) == rep
  {
    assert StartsWith(pat, pat);
    assert pat[|pat|..] == "";
    assert rep + "" == rep;
  }

  /** A string that does not contain `pat` is left as it is. */
  lemma {:induction false} ReplaceAbsent(s: string, pat: string, rep: string)
    requires |pat| > 0 && !Contains(s, pat)
    ensures Replace(s, pat, rep) == s
  {
    if |s| > 0 {
      ReplaceAbsent(s[1..], pat, rep);
    }
  }

  /** Deleting a single character removes every occurrence of it. */
  lemma {:induction false} ReplaceCharByNothing(s: string, c: char)
    ensures c !in Replace(s, [c], "")
    ensures |Replace(s, [c], "")| <= |s|
  {
    if |s| > 0 {
      ReplaceCharByNothing(s[1..], c);
    }
  }

  /** Python's `s.split(sep)` for a one-character separator. */
  function Split(s: string, sep: char): (parts: seq<string>)
    ensures |parts| >= 1
    decreases |s|
  {
    if |s| == 0 then [""]
    else
      var rest := Split(s[1..], sep);
      if s[0] == sep then [""] + rest
      else [[s[0]] + rest[0]] + rest[1..]
  }

  /** Python's `sep.join(parts)`. */
  function Join(parts: seq<string>, sep: string): string
    decreases |parts|
  {
    if |parts| == 0 then ""
    else if |parts| == 1 then parts[0]
    else parts[0] + sep + Join(parts[1..], sep)
  }

  /** No piece of a split contains the separator. */
  lemma {:induction false} SplitPiecesFree(s: string, sep: char)
    ensures forall i :: 0 <= i < |Split(s, sep)| ==> sep !in Split(s, sep)[i]
  {
    if |s| > 0 {
      SplitPiecesFree(s[1..], sep);
    }
  }

  /** Joining the pieces of a split with the same separator gives the string back. */
  lemma {:induction false} JoinSplit(s: string, sep: char)
    ensures Join(Split(s, sep), [sep]) == s
  {
    if |s| > 0 {
      var rest := Split(s[1..], sep);
      JoinSplit(s[1..], sep);
      if s[0] == sep {
        assert Split(s, sep) == [""] + rest;
        assert Join([""] + rest, [sep]) == "" + [sep] + Join(rest, [sep]);
      } else {
        var parts := Split(s, sep);
        assert parts == [[s[0]] + rest[0]] + rest[1..];
        if |rest| == 1 {
          assert Join(parts, [sep]) == [s[0]] + rest[0];
        } else {
          assert Join(rest, [sep]) == rest[0] + [sep] + Join(rest[1..], [sep]);
          assert Join(parts, [sep]) == [s[0]] + rest[0] + [sep] + Join(rest[1..], [sep]);
        }
      }
    }
  }

  function DigitChar(d: nat): char
    requires d < 10
  {
    "0123456789"[d]
  }

  predicate IsDigit(c: char) {
    '0' <= c <= '9'
  }

  /** Python's `str(n)` for a natural number: its decimal digits, most significant first. */
  function NatToString(n: nat): (r: string)
    ensures |r| >= 1
    ensures forall i :: 0 <= i < |r| ==> IsDigit(r[i])
    ensures n < 10 <==> |r| == 1
    decreases n
  {
    if n < 10 then [DigitChar(n)] else NatToString(n / 10) + [DigitChar(n % 10)]
  }

  /** The value of a decimal digit. */
  function DigitValue(c: char): nat
    requires IsDigit(c)
  {
    c as int - '0' as int
  }

  /** Reads a string of decimal digits, most significant first, as `int(s)` does. */
  function DigitsValue(s: string): nat
    requires forall i :: 0 <= i < |s| ==> IsDigit(s[i])
    decreases |s|
  {
    if |s| == 0 then 0 else DigitsValue(s[..|s| - 1]) * 10 + DigitValue(s[|s| - 1])
  }

  lemma DigitCharValue(d: nat)
    requires d < 10
    ensures IsDigit(DigitChar(d)) && DigitValue(DigitChar(d)) == d
  {
    var digits := "0123456789";
    assert digits[0] == '0' && digits[1] == '1' && digits[2] == '2' && digits[3] == '3' && digits[4] == '4';
    assert digits[5] == '5' && digits[6] == '6' && digits[7] == '7' && digits[8] == '8' && digits[9] == '9';
  }

  /** `str(n)` reads back as `n`: the digits are its decimal numeral. */
  lemma {:induction false} NatToStringReadsBack(n: nat)
    ensures DigitsValue(NatToString(n)) == n
    decreases n
  {
    var r := NatToString(n);
    DigitCharValue(n % 10);
    if n < 10 {
      assert r[..0] == [];
    } else {
      NatToStringReadsBack(n / 10);
      assert r[..|r| - 1] == NatToString(n / 10);
    }
  }

  /** Distinct numbers have distinct numerals. */
  lemma NatToStringInjective(m: nat, n: nat)
    ensures NatToString(m) == NatToString(n) ==> m == n
  {
    NatToStringReadsBack(m);
    NatToStringReadsBack(n);
  }

  /**
   * Python's `str.isspace()` classification, which `str.split()` with no
   * argument uses to find the runs it splits on.
   */
  predicate IsSpace(c: char) {
    ('\t' <= c <= '\r') || ('\U{1C}' <= c <= ' ') || c == '\U{85}' || c == '\U{A0}'
    || c == '\U{1680}' || ('\U{2000}' <= c <= '\U{200A}') || c == '\U{2028}' || c == '\U{2029}'
    || c == '\U{202F}' || c == '\U{205F}' || c == '\U{3000}'
  }

  /** `''.join(s.split())`: every whitespace character removed. */
  function RemoveSpaces(s: string): (r: string)
    ensures forall i :: 0 <= i < |r| ==> !IsSpace(r[i])
    ensures |r| <= |s|
    decreases |s|
  {
    if |s| == 0 then ""
    else if IsSpace(s[0]) then RemoveSpaces(s[1..])
    else [s[0]] + RemoveSpaces(s[1..])
  }

  /**
   * Python's `str.lower()` on one character, over Basic Latin, Latin-1,
   * Latin Extended-A and the caron vowels U+01CD..U+01DC. U+0130 lowers to
   * two characters, as in Python.
   */
  function LowerChar(c: char): (r: string)
    ensures !IsSpace(c) ==> forall i :: 0 <= i < |r| ==> !IsSpace(r[i])
  {
    if 'A' <= c <= 'Z' || ('À' <= c <= 'Þ' && c != '×') then
      [(c as int + 32) as char]
    else if c == 'İ' then
      "i\U{307}"
    else if ('Ā' <= c <= 'ķ' && c as int % 2 == 0)
         || ('Ĺ' <= c <= 'ň' && c as int % 2 == 1)
         || ('Ŋ' <= c <= 'ŷ' && c as int % 2 == 0)
         || ('Ź' <= c <= 'ž' && c as int % 2 == 1)
         || ('Ǎ' <= c <= 'ǜ' && c as int % 2 == 1) then
      [(c as int + 1) as char]
    else if c == 'Ÿ' then
      "ÿ"
    else
      [c]
  }

  /** Python's `s.lower()`. */
  function Lower(s: string): (r: string)
    ensures (forall i :: 0 <= i < |s| ==> !IsSpace(s[i])) ==> forall i :: 0 <= i < |r| ==> !IsSpace(r[i])
    decreases |s|
  {
    if |s| == 0 then "" else LowerChar(s[0]) + Lower(s[1..])
  }

  /**
   * The regular-expression class `\w` on one character: ASCII letters, digits
   * and `_`, and the letters and digits of Latin-1 and Latin Extended-A/B.
   */
  predicate IsWordChar(c: char) {
    ('a' <= c <= 'z') || ('A' <= c <= 'Z') || ('0' <= c <= '9') || c == '_'
    || c == 'ª' || c == '²' || c == '³' || c == 'µ' || c == '¹'
    || c == 'º' || ('¼' <= c <= '¾')
    || ('À' <= c <= 'Ö') || ('Ø' <= c <= 'ö') || ('ø' <= c <= 'ɏ')
  }
}
