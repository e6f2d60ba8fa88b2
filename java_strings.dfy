/**
 * The few java.lang.String and java.lang.Integer operations the backport tool
 * relies on, over Dafny strings (sequences of characters).
 */
module JavaStrings {
  import opened Wrappers

  /** The values of a Java `int`. */
  type Int32 = x: int | -0x8000_0000 <= x < 0x8000_0000

  /** `s.startsWith(prefix)` */
  predicate StartsWith(s: string, prefix: string) {
    |prefix| <= |s| && s[..|prefix|] == prefix
  }

  /** `s.endsWith(suffix)` */
  predicate EndsWith(s: string, suffix: string) {
    |suffix| <= |s| && s[|s| - |suffix|..] == suffix
  }

  /** `s` holds `t` starting at index `k`. */
  predicate ContainsAt(s: string, t: string, k: int) {
    0 <= k && k + |t| <= |s| && s[k..k + |t|] == t
  }

  predicate IsDigit(c: char) {
    '0' <= c <= '9'
  }

  predicate AllDigits(s: string) {
    forall i :: 0 <= i < |s| ==> IsDigit(s[i])
  }

  function DigitChar(d: nat): (c: char)
    requires d < 10
    ensures IsDigit(c)
  {
    "0123456789"[d]
  }

  function DigitValue(c: char): (d: nat)
    requires IsDigit(c)
    ensures d < 10
  {
    c as int - '0' as int
  }

  /** Decimal digits of a non-negative number, most significant first, no leading zero. */
  function NatToString(n: nat): (s: string)
    ensures |s| > 0 && AllDigits(s)
    decreases n
  {
    if n < 10 then [DigitChar(n)] else NatToString(n / 10) + [DigitChar(n % 10)]
  }

  /** `Integer.toString(n)`, which is also what `"..." + n` produces. */
  function IntToString(n: int): string {
    if n < 0 then "-" + NatToString(-n) else NatToString(n)
  }

  /** Value of a string of decimal digits. */
  function DigitsValue(s: string): nat
    requires AllDigits(s)
  {
    if s == [] then 0 else DigitsValue(s[..|s| - 1]) * 10 + DigitValue(s[|s| - 1])
  }

  /**
   * `Integer.valueOf(s)` restricted to the text `Integer.toString` produces:
   * an optional minus sign, then decimal digits, within the range of `int`;
   * anything else is refused (Java throws NumberFormatException).
   */
  function ParseInt(s: string): (r: Option<Int32>)
    ensures r.Some? ==> |s| > 0
  {
    if |s| > 1 && s[0] == '-' && AllDigits(s[1..]) then
      var v := 0 - DigitsValue(s[1..]) as int;
      if -0x8000_0000 <= v then Some(v) else None
    else if |s| > 0 && AllDigits(s) then
      var v := DigitsValue(s);
      if v < 0x8000_0000 then Some(v) else None
    else
      None
  }

  lemma {:induction false} DigitsValueOfNatToString(n: nat)
    ensures DigitsValue(NatToString(n)) == n
    decreases n
  {
    var s := NatToString(n);
    if n >= 10 {
      DigitsValueOfNatToString(n / 10);
      assert s[..|s| - 1] == NatToString(n / 10);
    }
  }

  /** Parsing gives back every `int` that `Integer.toString` printed. */
  lemma ParseIntToString(n: Int32)
    ensures ParseInt(IntToString(n)) == Some(n)
  {
    var s := IntToString(n);
    if n < 0 {
      var m: nat := -(n as int);
      var t := NatToString(m);
      assert s == "-" + t;
      assert s[1..] == t;
      DigitsValueOfNatToString(m);
      assert |s| > 1 && s[0] == '-' && AllDigits(s[1..]);
    } else {
      DigitsValueOfNatToString(n);
      assert s == NatToString(n);
      assert s[0] != '-' by { assert IsDigit(s[0]); }
    }
  }

  /** Concatenation of lines, left to right, as successive `StringBuilder.append` calls build it. */
  function Concat(lines: seq<string>): string {
    if lines == [] then "" else Concat(lines[..|lines| - 1]) + lines[|lines| - 1]
  }

  lemma {:induction false} ConcatAppend(a: seq<string>, b: seq<string>)
    ensures Concat(a + b) == Concat(a) + Concat(b)
    decreases |b|
  {
    if b != [] {
      var b' := b[..|b| - 1];
      assert (a + b)[..|a + b| - 1] == a + b';
      ConcatAppend(a, b');
    } else {
      assert a + b == a;
    }
  }

  /** Line `i` of `lines` sits in `Concat(lines)` right after the lines before it. */
  lemma ConcatContains(lines: seq<string>, i: nat)
    requires i < |lines|
    ensures ContainsAt(Concat(lines), lines[i], |Concat(lines[..i])|)
  {
    assert lines == lines[..i] + [lines[i]] + lines[i + 1..];
    ConcatAppend(lines[..i] + [lines[i]], lines[i + 1..]);
    ConcatAppend(lines[..i], [lines[i]]);
    assert Concat([lines[i]]) == lines[i] by {
      assert [lines[i]][..0] == [];
    }
  }

  /** Lines appear in `Concat(lines)` in their order: line `i` ends before line `j` starts. */
  lemma ConcatOrder(lines: seq<string>, i: nat, j: nat)
    requires i < j <= |lines|
    ensures |Concat(lines[..i])| + |lines[i]| <= |Concat(lines[..j])|
  {
    var p := lines[..j];
    assert p[..i] == lines[..i] && p[i] == lines[i];
    ConcatContains(p, i);
  }

  /** What `s` holds at `k` sits at `|a| + k` in `a + s`. */
  lemma ContainsAtAfter(a: string, s: string, t: string, k: int)
    requires ContainsAt(s, t, k)
    ensures ContainsAt(a + s, t, |a| + k)
  {
    var w := a + s;
    assert w[|a|..] == s;
    assert w[|a| + k..|a| + k + |t|] == w[|a|..][k..k + |t|];
  }
}
