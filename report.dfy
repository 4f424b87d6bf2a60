/**
 * The report loop at the end of `main`: one line `<letter> Count: <n>` per
 * letter, in alphabetical order, with n printed in decimal as `%d` does.
 */
module Report {
  import opened Wrappers
  import opened CountVector

  /** The text between the letter and the count. */
  const Separator: string := " Count: "

  predicate IsDigit(ch: char)
  {
    '0' <= ch <= '9'
  }

  function DigitChar(d: nat): char
    requires d < 10
  {
    ('0' as int + d) as char
  }

  /** `%d` of a non-negative count: a non-empty string of digits without leading zeros. */
  function Decimal(n: nat): (s: string)
    ensures |s| >= 1
    ensures forall k :: 0 <= k < |s| ==> IsDigit(s[k])
    ensures s[0] == '0' ==> n == 0
  {
    if n < 10 then [DigitChar(n)] else Decimal(n / 10) + [DigitChar(n % 10)]
  }

  function DigitValue(ch: char): nat
    requires IsDigit(ch)
  {
    ch as int - '0' as int
  }

  /** The value of a string of decimal digits. */
  function ParseDecimal(s: string): nat
    requires forall k :: 0 <= k < |s| ==> IsDigit(s[k])
  {
    if s == [] then 0 else 10 * ParseDecimal(s[..|s| - 1]) + DigitValue(s[|s| - 1])
  }

  /** A printed count reads back as the count itself. */
  lemma {:induction false} DecimalRoundTrip(n: nat)
    ensures ParseDecimal(Decimal(n)) == n
  {
    if n >= 10 {
      var s := Decimal(n);
      assert s[..|s| - 1] == Decimal(n / 10);
      DecimalRoundTrip(n / 10);
    }
  }

  /** The line `printf("%c Count: %d\n", 'a' + i, n)` prints, without its newline. */
  function Line(i: nat, n: nat): string
    requires i < AlphabetLen
  {
    [('a' as int + i) as char] + Separator + Decimal(n)
  }

  /** Reads a report line back into its letter index and count. */
  function ParseLine(s: string): Option<(nat, nat)>
  {
    if 1 + |Separator| < |s| && 'a' <= s[0] <= 'z' && s[1..1 + |Separator|] == Separator
       && forall k :: 1 + |Separator| <= k < |s| ==> IsDigit(s[k])
    then Some((s[0] as int - 'a' as int, ParseDecimal(s[1 + |Separator|..])))
    else None
  }

  /** Every report line names its own letter and count, unambiguously. */
  lemma LineRoundTrip(i: nat, n: nat)
    requires i < AlphabetLen
    ensures ParseLine(Line(i, n)) == Some((i, n))
  {
    var s := Line(i, n);
    assert s[1..1 + |Separator|] == Separator;
    assert s[1 + |Separator|..] == Decimal(n);
    DecimalRoundTrip(n);
  }

  /** The `for (i = 0; i < ALPHABET_LEN; i++) printf(...)` loop. */
  method ReportTotals(total: Vector) returns (lines: seq<string>)
    ensures |lines| == AlphabetLen
    ensures forall i :: 0 <= i < AlphabetLen ==> lines[i] == Line(i, total[i])
    ensures forall i :: 0 <= i < AlphabetLen ==> ParseLine(lines[i]) == Some((i, total[i]))
  {
    lines := [];
    for i := 0 to AlphabetLen
      invariant |lines| == i
      invariant forall k :: 0 <= k < i ==> lines[k] == Line(k, total[k])
      invariant forall k :: 0 <= k < i ==> ParseLine(lines[k]) == Some((k, total[k]))
    {
      LineRoundTrip(i, total[i]);
      lines := lines + [Line(i, total[i])];
    }
  }
}
