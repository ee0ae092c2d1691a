/**
 * String helpers the diff engine relies on: Python's `str()` of an integer,
 * `sep.join(parts)`, and the 60-character rule of the report.
 */
module Text {

  /** The decimal digit of `d`. */
  function DigitChar(d: nat): (c: char)
    requires d < 10
    ensures '0' <= c <= '9' && c as int - '0' as int == d
  {
    ('0' as int + d) as char
  }

  /** The value of a decimal digit character. */
  function DigitValue(c: char): (d: nat)
    requires '0' <= c <= '9'
    ensures d < 10 && DigitChar(d) == c
  {
    (c as int - '0' as int) as nat
  }

  predicate IsDigits(s: string) {
    forall i :: 0 <= i < |s| ==> '0' <= s[i] <= '9'
  }

  /** Python's `str(n)` for a non-negative integer: decimal, no leading zeros. */
  function NatToString(n: nat): (s: string)
    ensures |s| >= 1 && IsDigits(s)
    ensures n < 10 <==> |s| == 1
    ensures s[0] != '0' || n == 0
  {
    if n < 10 then [DigitChar(n)] else NatToString(n / 10) + [DigitChar(n % 10)]
  }

  /** Reads a string of decimal digits back as a number (the empty string reads as 0). */
  function ParseNat(s: string): nat
    requires IsDigits(s)
  {
    if s == [] then 0 else 10 * ParseNat(s[..|s| - 1]) + DigitValue(s[|s| - 1])
  }

  /** `str(n)` loses nothing: reading the rendering back gives `n`. */
  lemma {:induction false} ParseNatToString(n: nat)
    ensures ParseNat(NatToString(n)) == n
  {
    var s := NatToString(n);
    if n < 10 {
      assert s[..0] == [];
    } else {
      ParseNatToString(n / 10);
      assert s[..|s| - 1] == NatToString(n / 10);
      assert DigitValue(s[|s| - 1]) == n % 10;
      assert n == 10 * (n / 10) + n % 10;
    }
  }

  /** Distinct numbers are rendered differently. */
  lemma NatToStringInjective(m: nat, n: nat)
    requires NatToString(m) == NatToString(n)
    ensures m == n
  {
    ParseNatToString(m);
    ParseNatToString(n);
  }

  /** Python's `str(i)` for any integer: a leading `-` for negative values. */
  function IntToString(i: int): (s: string)
    ensures |s| >= 1
    ensures s[0] == '-' <==> i < 0
    ensures i < 0 ==> s[1..] == NatToString(-i)
    ensures i >= 0 ==> s == NatToString(i)
  {
    if i < 0 then "-" + NatToString(-i) else NatToString(i)
  }

  /** Python's `f"{b}"` for a boolean. */
  function BoolToString(b: bool): string {
    if b then "True" else "False"
  }

  /** Python's `sep.join(parts)`. */
  function Join(parts: seq<string>, sep: string): string
  {
    if parts == [] then ""
    else if |parts| == 1 then parts[0]
    else parts[0] + sep + Join(parts[1..], sep)
  }

  /** A non-empty join begins with its first part. */
  lemma JoinStartsWithFirst(parts: seq<string>, sep: string)
    requires |parts| >= 1
    ensures parts[0] <= Join(parts, sep)
  {
  }

  /** A non-empty join ends with its last part. */
  lemma {:induction false} JoinEndsWithLast(parts: seq<string>, sep: string)
    requires |parts| >= 1
    ensures var j := Join(parts, sep);
            |parts[|parts| - 1]| <= |j| && j[|j| - |parts[|parts| - 1]|..] == parts[|parts| - 1]
  {
    if |parts| > 1 {
      JoinEndsWithLast(parts[1..], sep);
      var last := parts[|parts| - 1];
      var rest := Join(parts[1..], sep);
      var j := parts[0] + sep + rest;
      assert j == Join(parts, sep);
      assert j[|j| - |last|..] == rest[|rest| - |last|..];
    }
  }

  /** The first character of a join whose first part is non-empty. */
  lemma JoinFirstChar(parts: seq<string>, sep: string)
    requires |parts| >= 1 && |parts[0]| >= 1
    ensures |Join(parts, sep)| >= 1 && Join(parts, sep)[0] == parts[0][0]
  {
    JoinStartsWithFirst(parts, sep);
  }

  /** Python's `"=" * 60`, the rule that opens and closes the diff report. */
  function Rule(): (r: string)
    ensures |r| == 60
    ensures forall i :: 0 <= i < |r| ==> r[i] == '='
  {
    seq(60, _ => '=')
  }

  /** Lines that open and close with the rule join into a text that opens and closes with it. */
  lemma JoinFramedByRule(lines: seq<string>, sep: string)
    requires |lines| >= 1 && lines[0] == Rule() && lines[|lines| - 1] == Rule()
    ensures var j := Join(lines, sep);
            |j| >= 60 && j[..60] == Rule() && j[|j| - 60..] == Rule()
  {
    JoinStartsWithFirst(lines, sep);
    JoinEndsWithLast(lines, sep);
  }
}
