/** Operation and receipt keys as the dashboard spells them. Distinct sequence
    numbers give distinct operation ids, whatever the clock says. */
module OperationIds {

  predicate IsDigit(c: char) {
    '0' <= c <= '9' || 'a' <= c <= 'z'
  }

  function DigitValue(c: char): int {
    if c <= '9' then c as int - '0' as int else c as int - 'a' as int + 10
  }

  function Digit(d: nat): (c: char)
    requires d < 36
    ensures IsDigit(c) && d == DigitValue(c)
  {
    if d < 10 then ('0' as int + d) as char else ('a' as int + d - 10) as char
  }

  lemma Shrinks(n: nat, radix: nat)
    requires 2 <= radix <= n
    ensures 0 < n / radix < n && n % radix < radix
  {
    var q := n / radix;
    assert n == q * radix + n % radix;
    assert q * radix >= q * 2;
  }

  /** `n` in positional notation, as Number.prototype.toString prints it. */
  function Numeral(n: nat, radix: nat): (s: string)
    requires 2 <= radix <= 36
    ensures s != "" && (|s| == 1 <==> n < radix)
    ensures forall c :: c in s ==> IsDigit(c)
  {
    if n < radix then [Digit(n)]
    else
      Shrinks(n, radix);
      var high := Numeral(n / radix, radix);
      high + [Digit(n % radix)]
  }

  function OperationId(time: nat, sequence: nat): string {
    "op_tui_" + Numeral(time, 36) + "_" + Numeral(sequence, 10)
  }

  lemma {:induction false} NumeralInjective(m: nat, n: nat)
    requires Numeral(m, 10) == Numeral(n, 10)
    ensures m == n
  {
    var s, t := Numeral(m, 10), Numeral(n, 10);
    if m < 10 {
      assert s[0] == Digit(m) && t[0] == Digit(n);
    } else {
      var p, q := Numeral(m / 10, 10), Numeral(n / 10, 10);
      assert s == p + [Digit(m % 10)] && t == q + [Digit(n % 10)];
      assert s[..|s| - 1] == p && t[..|t| - 1] == q;
      assert s[|s| - 1] == Digit(m % 10) && t[|t| - 1] == Digit(n % 10);
      NumeralInjective(m / 10, n / 10);
    }
  }

  /** A separator that occurs in neither suffix splits two equal strings alike. */
  lemma LastSeparator(a: string, x: string, b: string, y: string, sep: char)
    requires a + [sep] + x == b + [sep] + y
    requires sep !in x && sep !in y
    ensures a == b && x == y
  {
    var s, t := a + [sep] + x, b + [sep] + y;
    assert s[|a|] == sep && t[|b|] == sep;
    assert forall i :: |a| < i < |s| ==> s[i] == x[i - |a| - 1];
    assert forall i :: |b| < i < |t| ==> t[i] == y[i - |b| - 1];
    assert |a| == |b|;
    assert s[..|a|] == a && t[..|b|] == b;
    assert s[|a| + 1..] == x && t[|b| + 1..] == y;
  }

  lemma OperationIdInjective(time: nat, m: nat, time': nat, n: nat)
    requires OperationId(time, m) == OperationId(time', n)
    ensures m == n
  {
    assert !IsDigit('_');
    LastSeparator("op_tui_" + Numeral(time, 36), Numeral(m, 10), "op_tui_" + Numeral(time', 36), Numeral(n, 10), '_');
    NumeralInjective(m, n);
  }
}
