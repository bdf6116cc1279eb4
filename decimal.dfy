/** Decimal text: the digit runs that `String.prototype.match(/\d+/g)`
    finds, `parseInt` of such a run, and the decimal rendering of a
    natural number that `Number.prototype.toString()` produces. */
module Decimal {

  /** `\d` without the `u` flag: the ASCII digits only. */
  predicate IsDigit(ch: char) {
    '0' <= ch <= '9'
  }

  predicate AllDigits(s: string) {
    forall i :: 0 <= i < |s| ==> IsDigit(s[i])
  }

  function DigitChar(d: nat): (ch: char)
    requires d < 10
    ensures IsDigit(ch)
  {
    ('0' as int + d) as char
  }

  function DigitValue(ch: char): (d: nat)
    requires IsDigit(ch)
    ensures d < 10 && DigitChar(d) == ch
  {
    ch as int - '0' as int
  }

  /** `parseInt` of a run of decimal digits (leading zeros are ignored). */
  function ParseDecimal(s: string): nat
    requires AllDigits(s)
    decreases |s|
  {
    if s == [] then 0
    else 10 * ParseDecimal(s[..|s| - 1]) + DigitValue(s[|s| - 1])
  }

  /** The decimal rendering of a natural number, without leading zeros. */
  function NatToString(n: nat): (s: string)
    ensures |s| >= 1 && AllDigits(s)
    decreases n
  {
    if n < 10 then [DigitChar(n)] else NatToString(n / 10) + [DigitChar(n % 10)]
  }

  /** Reading back a rendered number gives the number. */
  lemma {:induction false} ParseNatToString(n: nat)
    ensures ParseDecimal(NatToString(n)) == n
    decreases n
  {
    var s := NatToString(n);
    if n >= 10 {
      ParseNatToString(n / 10);
      assert s[..|s| - 1] == NatToString(n / 10);
      assert DigitValue(s[|s| - 1]) == n % 10;
    } else {
      assert s[..|s| - 1] == [];
    }
  }

  /** A number has a three-digit rendering exactly when it lies in 100..999. */
  lemma {:induction false} NatToStringThreeDigits(n: nat)
    ensures |NatToString(n)| == 3 <==> 100 <= n <= 999
  {
    if n >= 10 {
      assert |NatToString(n)| == |NatToString(n / 10)| + 1;
      if n >= 100 {
        assert |NatToString(n / 10)| == |NatToString(n / 100)| + 1;
        if n >= 1000 {
          assert |NatToString(n / 100)| == |NatToString(n / 1000)| + 1;
        }
      }
    }
  }

  /** The length of the longest prefix of `s` made of digits. */
  function DigitPrefix(s: string): (k: nat)
    ensures k <= |s| && AllDigits(s[..k])
    ensures k < |s| ==> !IsDigit(s[k])
  {
    if s == [] || !IsDigit(s[0]) then 0
    else
      var k := DigitPrefix(s[1..]);
      assert s[..k + 1] == [s[0]] + s[1..][..k];
      k + 1
  }

  /** Every maximal run of digits in `s`, left to right
      (the result of `s.match(/\d+/g)`, with no match giving no runs). */
  function DigitRuns(s: string): (runs: seq<string>)
    ensures forall i :: 0 <= i < |runs| ==> |runs[i]| > 0 && AllDigits(runs[i])
    decreases |s|
  {
    if s == [] then []
    else if !IsDigit(s[0]) then DigitRuns(s[1..])
    else
      var k := DigitPrefix(s);
      [s[..k]] + DigitRuns(s[k..])
  }

  lemma {:induction false} DigitPrefixOfRun(d: string, rest: string)
    requires AllDigits(d)
    requires rest == [] || !IsDigit(rest[0])
    ensures DigitPrefix(d + rest) == |d|
  {
    if d == [] {
      assert d + rest == rest;
    } else {
      assert (d + rest)[1..] == d[1..] + rest;
      DigitPrefixOfRun(d[1..], rest);
    }
  }

  /** The format `"r,c"` that the move advisor is asked for splits into
      the two renderings. */
  lemma DigitRunsOfPair(a: nat, b: nat, sep: char)
    requires !IsDigit(sep)
    ensures DigitRuns(NatToString(a) + [sep] + NatToString(b)) == [NatToString(a), NatToString(b)]
  {
    var da, db := NatToString(a), NatToString(b);
    var s := da + [sep] + db;
    DigitPrefixOfRun(da, [sep] + db);
    assert s == da + ([sep] + db);
    assert s[..|da|] == da;
    assert s[|da|..] == [sep] + db;
    assert ([sep] + db)[1..] == db;
    DigitPrefixOfRun(db, []);
    assert db + [] == db;
    assert db[|db|..] == [];
    assert DigitRuns(db) == [db] + DigitRuns([]);
  }
}
