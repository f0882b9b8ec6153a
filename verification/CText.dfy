/** C string helpers of the agent: str_trim, atoi and printing with %d. */
module CText {
  import Text

  /** isspace in the C locale. */
  predicate IsSpace(c: char) { c == ' ' || 9 <= c as int <= 13 }

  function LTrim(s: string): string { if s != [] && IsSpace(s[0]) then LTrim(s[1..]) else s }

  function RTrim(s: string): string { if s != [] && IsSpace(s[|s| - 1]) then RTrim(s[..|s| - 1]) else s }

  /** str_trim. */
  function Trim(s: string): string { LTrim(RTrim(s)) }

  predicate Clean(s: string) { s != [] ==> !IsSpace(s[0]) && !IsSpace(s[|s| - 1]) }

  lemma {:induction false} TrimOfClean(s: string)
    requires Clean(s)
    ensures Trim(s) == s && LTrim(s) == s && RTrim(s) == s
  {
  }

  lemma {:induction false} LTrimOfSpaces(n: nat, s: string)
    requires s != [] ==> !IsSpace(s[0])
    ensures LTrim(Text.Spaces(n) + s) == s
    decreases n
  {
    if n == 0 {
      assert Text.Spaces(n) + s == s;
    } else {
      assert (Text.Spaces(n) + s)[1..] == Text.Spaces(n - 1) + s;
      LTrimOfSpaces(n - 1, s);
    }
  }

  lemma {:induction false} RTrimOfSpaces(n: nat)
    ensures RTrim(Text.Spaces(n)) == ""
    decreases n
  {
    if n == 0 {
    } else {
      assert Text.Spaces(n)[..n - 1] == Text.Spaces(n - 1);
      RTrimOfSpaces(n - 1);
    }
  }

  lemma {:induction false} TrimOfIndented(n: nat, s: string)
    requires Clean(s)
    ensures Trim(Text.Spaces(n) + s) == s
  {
    if s == [] {
      assert Text.Spaces(n) + s == Text.Spaces(n);
      RTrimOfSpaces(n);
    } else {
      assert (Text.Spaces(n) + s)[|Text.Spaces(n) + s| - 1] == s[|s| - 1];
      LTrimOfSpaces(n, s);
    }
  }

  lemma {:induction false} TrailingSpace(s: string)
    ensures RTrim(s + " ") == RTrim(s) && Trim(s + " ") == Trim(s)
  {
    assert (s + " ")[..|s|] == s;
  }

  lemma {:induction false} RTrimIsPrefix(s: string)
    ensures |RTrim(s)| <= |s| && RTrim(s) == s[..|RTrim(s)|]
    decreases |s|
  {
    if s != [] && IsSpace(s[|s| - 1]) { RTrimIsPrefix(s[..|s| - 1]); }
  }

  lemma {:induction false} LTrimIsSuffix(s: string)
    ensures |LTrim(s)| <= |s| && LTrim(s) == s[|s| - |LTrim(s)|..]
    decreases |s|
  {
    if s != [] && IsSpace(s[0]) { LTrimIsSuffix(s[1..]); }
  }

  /** Trimming takes characters away from the ends only. */
  lemma {:induction false} TrimIsPart(s: string)
    ensures |Trim(s)| <= |s| && forall c :: c in Trim(s) ==> c in s
  {
    RTrimIsPrefix(s);
    LTrimIsSuffix(RTrim(s));
  }

  // ── Numbers ──

  predicate IsDigit(c: char) { '0' <= c <= '9' }

  function Digit(d: nat): char
    requires d < 10
  {
    ('0' as int + d) as char
  }

  function Decimal(n: nat): (s: string)
    ensures s != "" && forall i :: 0 <= i < |s| ==> IsDigit(s[i])
  {
    if n < 10 then [Digit(n)] else Decimal(n / 10) + [Digit(n % 10)]
  }

  /** %d. */
  function Shown(n: int): string { if n < 0 then "-" + Decimal(-n) else Decimal(n) }

  function DigitsValue(s: string, acc: int): int {
    if s == [] || !IsDigit(s[0]) then acc else DigitsValue(s[1..], acc * 10 + (s[0] as int - '0' as int))
  }

  const LONG_MAX := 0x7fff_ffff_ffff_ffff

  function Clamp(n: int): int { if n > LONG_MAX then LONG_MAX else if n < -LONG_MAX - 1 then -LONG_MAX - 1 else n }

  predicate IsInt32(n: int) { -0x8000_0000 <= n < 0x8000_0000 }

  function ToInt32(n: int): (r: int)
    ensures IsInt32(r)
  {
    var m := n % 0x1_0000_0000;
    if m >= 0x8000_0000 then m - 0x1_0000_0000 else m
  }

  /** atoi as the C library has it: strtol, clamped to a long, cut to an int. */
  function Atoi(s: string): (n: int)
    ensures IsInt32(n)
  {
    var t := LTrim(s);
    ToInt32(Clamp(
      if t != [] && t[0] == '-' then -DigitsValue(t[1..], 0)
      else if t != [] && t[0] == '+' then DigitsValue(t[1..], 0)
      else DigitsValue(t, 0)))
  }

  lemma {:induction false} DigitsAppend(s: string, d: char, acc: int)
    requires IsDigit(d) && forall i :: 0 <= i < |s| ==> IsDigit(s[i])
    ensures DigitsValue(s + [d], acc) == DigitsValue(s, acc) * 10 + (d as int - '0' as int)
    decreases |s|
  {
    if s == [] {
      assert (s + [d])[1..] == [];
    } else {
      assert (s + [d])[1..] == s[1..] + [d];
      DigitsAppend(s[1..], d, acc * 10 + (s[0] as int - '0' as int));
    }
  }

  lemma {:induction false} DecimalIsRead(n: nat)
    ensures DigitsValue(Decimal(n), 0) == n
  {
    if n >= 10 {
      DecimalIsRead(n / 10);
      DigitsAppend(Decimal(n / 10), Digit(n % 10), 0);
    } else {
      assert [Digit(n)][1..] == [];
      assert DigitsValue([], n) == n;
    }
  }

  /** atoi undoes %d on every int. */
  lemma {:induction false} AtoiUndoesShown(n: int)
    requires IsInt32(n)
    ensures Atoi(Shown(n)) == n && Clean(Shown(n)) && Shown(n) != "" && '\n' !in Shown(n)
  {
    hide DigitsValue, Decimal;
    var d := Decimal(if n < 0 then -n else n);
    DecimalIsRead(if n < 0 then -n else n);
    assert IsDigit(d[0]) && IsDigit(d[|d| - 1]);
    assert ("-" + d)[1..] == d;
  }

  lemma {:induction false} DecimalIsShort(n: nat, k: nat)
    requires k > 0 && n < Pow10(k)
    ensures |Decimal(n)| <= k
    decreases k
  {
    if n >= 10 { DecimalIsShort(n / 10, k - 1); }
  }

  function Pow10(k: nat): nat { if k == 0 then 1 else 10 * Pow10(k - 1) }

  lemma {:induction false} ShownIsShort(n: int)
    requires IsInt32(n)
    ensures |Shown(n)| <= 11
  {
    assert Pow10(5) == 100_000;
    assert Pow10(10) == 100_000 * Pow10(5);
    DecimalIsShort(if n < 0 then -n else n, 10);
  }
}
