/** Python string operations the agent's YAML readers are built from: strip, splitlines and joining lines. */
module Text {

  /** str.isspace for a single character. */
  predicate IsSpace(c: char) {
    var n := c as int;
    || 9 <= n <= 13 || 28 <= n <= 32 || n == 0x85 || n == 0xA0 || n == 0x1680 || 0x2000 <= n <= 0x200A
    || n == 0x2028 || n == 0x2029 || n == 0x202F || n == 0x205F || n == 0x3000
  }

  /** The characters str.splitlines breaks at. */
  predicate IsBreak(c: char) {
    var n := c as int;
    10 <= n <= 13 || 28 <= n <= 30 || n == 0x85 || n == 0x2028 || n == 0x2029
  }

  ghost predicate OneLine(s: string) {
    forall i :: 0 <= i < |s| ==> !IsBreak(s[i])
  }

  // ── Stripping ──

  function LStrip(s: string): string {
    if s != [] && IsSpace(s[0]) then LStrip(s[1..]) else s
  }

  function RStrip(s: string): string {
    if s != [] && IsSpace(s[|s| - 1]) then RStrip(s[..|s| - 1]) else s
  }

  function Strip(s: string): string { LStrip(RStrip(s)) }

  /** Nothing to strip. */
  predicate Trimmed(s: string) {
    s != [] ==> !IsSpace(s[0]) && !IsSpace(s[|s| - 1])
  }

  function Spaces(n: nat): (s: string)
    ensures |s| == n && forall i :: 0 <= i < n ==> s[i] == ' '
  {
    seq(n, _ => ' ')
  }

  /** len(s) - len(s.lstrip(" ")). */
  function Indent(s: string): (n: nat)
    ensures n <= |s|
  {
    if s != [] && s[0] == ' ' then 1 + Indent(s[1..]) else 0
  }

  lemma {:induction false} StripOfTrimmed(s: string)
    requires Trimmed(s)
    ensures RStrip(s) == s && LStrip(s) == s && Strip(s) == s
  {
  }

  lemma {:induction false} LStripOfSpaces(n: nat, s: string)
    requires s != [] && !IsSpace(s[0])
    ensures LStrip(Spaces(n) + s) == s
  {
    if n == 0 {
      assert Spaces(0) + s == s;
    } else {
      assert (Spaces(n) + s)[1..] == Spaces(n - 1) + s;
      LStripOfSpaces(n - 1, s);
    }
  }

  lemma {:induction false} StripOfIndented(n: nat, s: string)
    requires s != [] && Trimmed(s)
    ensures Strip(Spaces(n) + s) == s && RStrip(Spaces(n) + s) == Spaces(n) + s
  {
    var t := Spaces(n) + s;
    assert t[|t| - 1] == s[|s| - 1];
    LStripOfSpaces(n, s);
  }

  lemma {:induction false} IndentOfIndented(n: nat, s: string)
    requires s != [] && s[0] != ' '
    ensures Indent(Spaces(n) + s) == n
  {
    if n == 0 {
      assert Spaces(0) + s == s;
    } else {
      assert (Spaces(n) + s)[1..] == Spaces(n - 1) + s;
      IndentOfIndented(n - 1, s);
    }
  }

  lemma {:induction false} RStripIsPrefix(s: string)
    ensures |RStrip(s)| <= |s| && RStrip(s) == s[..|RStrip(s)|]
    ensures RStrip(s) != [] ==> !IsSpace(RStrip(s)[|RStrip(s)| - 1])
  {
    if s != [] && IsSpace(s[|s| - 1]) {
      RStripIsPrefix(s[..|s| - 1]);
      assert s[..|s| - 1][..|RStrip(s)|] == s[..|RStrip(s)|];
    }
  }

  lemma {:induction false} LStripIsSuffix(s: string)
    ensures |LStrip(s)| <= |s| && LStrip(s) == s[|s| - |LStrip(s)|..]
    ensures LStrip(s) != [] ==> !IsSpace(LStrip(s)[0])
  {
    if s != [] && IsSpace(s[0]) {
      LStripIsSuffix(s[1..]);
      var k := |LStrip(s)|;
      assert s[1..][|s| - 1 - k..] == s[|s| - k..];
    }
  }

  lemma {:induction false} StripIsTrimmed(s: string)
    ensures Trimmed(Strip(s))
    ensures forall c :: c in Strip(s) ==> c in s
  {
    RStripIsPrefix(s);
    LStripIsSuffix(RStrip(s));
    var r := RStrip(s);
    if Strip(s) != [] {
      assert Strip(s)[|Strip(s)| - 1] == r[|r| - 1];
    }
  }

  /** Wrapped in a pair of equal quotes. */
  predicate Enclosed(v: string) {
    |v| >= 2 && (v[0] == '\'' || v[0] == '"') && v[|v| - 1] == v[0]
  }

  /** Everything before the first occurrence of `c`. */
  function Before(s: string, c: char): string {
    if s == [] || s[0] == c then [] else [s[0]] + Before(s[1..], c)
  }

  /** Everything after the first occurrence of `c`. */
  function After(s: string, c: char): (r: string)
    ensures |r| <= |s| && (s != [] ==> |r| < |s|)
  {
    if s == [] then [] else if s[0] == c then s[1..] else After(s[1..], c)
  }

  lemma {:induction false} BeforeAbsent(s: string, c: char)
    requires c !in s
    ensures Before(s, c) == s
  {
    if s == [] {
    } else {
      BeforeAbsent(s[1..], c);
    }
  }

  lemma {:induction false} SplitAt(k: string, c: char, v: string)
    requires c !in k
    ensures Before(k + [c] + v, c) == k && After(k + [c] + v, c) == v
  {
    if k == [] {
      assert (k + [c] + v)[1..] == v;
    } else {
      assert (k + [c] + v)[1..] == k[1..] + [c] + v;
      SplitAt(k[1..], c, v);
    }
  }

  // ── Lines ──

  /** Length of the first line. */
  function LineLength(s: string): (n: nat)
    ensures n <= |s| && OneLine(s[..n])
    ensures n < |s| ==> IsBreak(s[n])
  {
    if s == [] || IsBreak(s[0]) then 0
    else
      var n := LineLength(s[1..]);
      assert s[..n + 1] == [s[0]] + s[1..][..n];
      n + 1
  }

  function AfterBreak(s: string, n: nat): nat
    requires n < |s|
  {
    if s[n] == '\r' && n + 1 < |s| && s[n + 1] == '\n' then n + 2 else n + 1
  }

  /** str.splitlines. */
  function SplitLines(s: string): seq<string>
    decreases |s|
  {
    if s == [] then []
    else
      var n := LineLength(s);
      if n == |s| then [s] else [s[..n]] + SplitLines(s[AfterBreak(s, n)..])
  }

  function Unlines(ls: seq<string>): string {
    if ls == [] then [] else ls[0] + ['\n'] + Unlines(ls[1..])
  }

  /** "\n".join(ls) + "\n". */
  function JoinLines(ls: seq<string>): string {
    if ls == [] then ['\n'] else Unlines(ls)
  }

  ghost predicate AllOneLine(ls: seq<string>) {
    forall i :: 0 <= i < |ls| ==> OneLine(ls[i])
  }

  lemma {:induction false} SplitGivesLines(s: string)
    ensures AllOneLine(SplitLines(s))
    decreases |s|
  {
    if s == [] {
    } else {
      var n := LineLength(s);
      if n == |s| {
        assert s[..n] == s;
      } else {
        SplitGivesLines(s[AfterBreak(s, n)..]);
      }
    }
  }

  lemma {:induction false} LineLengthAt(l: string, t: string)
    requires OneLine(l)
    ensures LineLength(l + ['\n'] + t) == |l|
  {
    var s := l + ['\n'] + t;
    if l == [] {
    } else {
      assert s[0] == l[0] && s[1..] == l[1..] + ['\n'] + t;
      assert OneLine(l[1..]) by {
        forall i | 0 <= i < |l| - 1 ensures !IsBreak(l[1..][i]) { assert !IsBreak(l[i + 1]); }
      }
      LineLengthAt(l[1..], t);
    }
  }

  /** Lines written one per line are read back. */
  lemma {:induction false} SplitOfUnlines(ls: seq<string>)
    requires AllOneLine(ls)
    ensures SplitLines(Unlines(ls)) == ls
  {
    if ls == [] {
    } else {
      var s, n := Unlines(ls), |ls[0]|;
      LineLengthAt(ls[0], Unlines(ls[1..]));
      assert s[..n] == ls[0];
      assert s[n] == '\n' && AfterBreak(s, n) == n + 1;
      assert s[n + 1..] == Unlines(ls[1..]);
      SplitOfUnlines(ls[1..]);
    }
  }
}
