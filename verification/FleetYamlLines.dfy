/**
 Single lines of config.yml as its two readers see them: parse_min_yaml cuts comments off,
 merge_config_yaml does not.
 */
module FleetYamlLines {
  import opened Common
  import opened Text
  import opened FleetYaml

  // ── Keys and comments ──

  lemma {:induction false} BeforeIsPrefix(s: string, c: char)
    ensures Before(s, c) <= s && c !in Before(s, c)
  {
    if s == [] {
    } else {
      BeforeIsPrefix(s[1..], c);
    }
  }

  lemma {:induction false} BeforeOfLonger(s: string, t: string, c: char)
    requires c in s && s <= t
    ensures Before(t, c) == Before(s, c)
  {
    if s[0] == c {
    } else {
      BeforeOfLonger(s[1..], t[1..], c);
    }
  }

  lemma {:induction false} RStripKeeps(s: string, c: char)
    requires c in s && !IsSpace(c)
    ensures c in RStrip(s)
  {
    if !IsSpace(s[|s| - 1]) {
    } else {
      assert s == s[..|s| - 1] + [s[|s| - 1]];
      RStripKeeps(s[..|s| - 1], c);
    }
  }

  lemma {:induction false} LStripKeeps(s: string, c: char)
    requires c in s && !IsSpace(c)
    ensures c in LStrip(s)
  {
    if !IsSpace(s[0]) {
    } else {
      assert s == [s[0]] + s[1..];
      LStripKeeps(s[1..], c);
    }
  }

  lemma {:induction false} BeforeOfLStrip(s: string, c: char)
    requires c in s && !IsSpace(c)
    ensures Before(LStrip(s), c) == LStrip(Before(s, c))
  {
    if !IsSpace(s[0]) {
    } else {
      assert s == [s[0]] + s[1..];
      BeforeOfLStrip(s[1..], c);
      assert Before(s, c)[1..] == Before(s[1..], c);
    }
  }

  /** The part of a line before its first colon, found in the stripped line. */
  lemma {:induction false} KeyPart(s: string)
    requires ':' in s
    ensures ':' in Strip(s) && Before(Strip(s), ':') == LStrip(Before(s, ':'))
  {
    RStripKeeps(s, ':');
    LStripKeeps(RStrip(s), ':');
    BeforeOfLStrip(RStrip(s), ':');
    RStripIsPrefix(s);
    BeforeOfLonger(RStrip(s), s, ':');
  }

  lemma {:induction false} ColonBeforeHash(s: string)
    requires ':' in s && '#' !in Before(s, ':')
    ensures ':' in Before(s, '#')
  {
    if s[0] == ':' {
    } else {
      assert s == [s[0]] + s[1..];
      ColonBeforeHash(s[1..]);
    }
  }

  // ── Indentation ──

  /** Cutting a line behind a character that is not white space keeps its indentation. */
  lemma {:induction false} IndentOfPrefix(s: string, n: nat)
    requires 0 < n <= |s| && !IsSpace(s[n - 1])
    ensures Indent(s[..n]) == Indent(s)
  {
    if n > 1 && s[0] == ' ' {
      IndentOfPrefix(s[1..], n - 1);
      assert s[..n][1..] == s[1..][..n - 1];
    }
  }

  lemma {:induction false} RStripStable(raw: string)
    ensures Strip(RStrip(raw)) == Strip(raw)
    ensures Strip(raw) != "" ==> Indent(RStrip(raw)) == Indent(raw)
  {
    RStripIsPrefix(raw);
    var r := RStrip(raw);
    assert RStrip(r) == r;
    if Strip(raw) != "" {
      LStripIsSuffix(r);
      IndentOfPrefix(raw, |r|);
    }
  }

  lemma {:induction false} UncommentedShape(raw: string)
    ensures Uncommented(raw) <= raw && '#' !in Uncommented(raw)
    ensures Strip(Uncommented(raw)) == Strip(Before(raw, '#'))
    ensures Strip(Uncommented(raw)) != "" ==> Indent(Uncommented(raw)) == Indent(raw)
  {
    var u := Before(raw, '#');
    BeforeIsPrefix(raw, '#');
    RStripIsPrefix(u);
    RStripStable(u);
    var line := Uncommented(raw);
    if Strip(line) != "" {
      assert line != [] && raw[..|line|] == line;
      IndentOfPrefix(raw, |line|);
    }
  }

  // ── What a line sets ──

  /**
   What a line sets for the reader it sets for the merge; and what it sets for the merge it sets for
   the reader, if the key has no `#` in it.
   */
  lemma {:induction false} UncommentedEntry(section: Option<string>, raw: string)
    ensures var p, q := EntryPair(section, raw), EntryPair(section, Uncommented(raw));
            (q.Some? ==> p == q) && (p.Some? && '#' !in p.value.1 ==> q == p)
  {
    hide Strip, Indent, Uncommented;
    var line := Uncommented(raw);
    UncommentedShape(raw);
    StripIsTrimmed(raw);
    StripIsTrimmed(line);
    if ':' in Strip(line) {
      SameKey(raw);
    } else if ':' in Strip(raw) && '#' !in KeyOf(Strip(raw)) {
      PlainKey(raw);
      assert false;
    }
  }

  lemma {:induction false} SameKey(raw: string)
    requires ':' in Uncommented(raw)
    ensures ':' in Strip(raw) && KeyOf(Strip(raw)) == KeyOf(Strip(Uncommented(raw))) && Strip(Uncommented(raw)) != ""
  {
    hide Strip, Uncommented;
    var line := Uncommented(raw);
    UncommentedShape(raw);
    BeforeOfLonger(line, raw, ':');
    KeyPart(line);
    KeyPart(raw);
  }

  lemma {:induction false} PlainKey(raw: string)
    requires ':' in Strip(raw) && '#' !in KeyOf(Strip(raw))
    ensures ':' in Strip(Uncommented(raw))
  {
    StripIsTrimmed(raw);
    KeyPart(raw);
    var k := Before(raw, ':');
    if '#' in k {
      LStripKeeps(k, '#');
      RStripKeeps(LStrip(k), '#');
      LStripKeeps(RStrip(LStrip(k)), '#');
    }
    ColonBeforeHash(raw);
    RStripKeeps(Before(raw, '#'), ':');
    KeyPart(Uncommented(raw));
  }

  // ── Headers ──

  /**
   Reader and merge agree on whether the line is a header and on its name, and whatever the reader
   finds at column 0 is one.
   */
  ghost predicate Plain(raw: string) {
    var line := Uncommented(raw);
    && (IsHeader(raw) <==> IsHeader(line))
    && (IsHeader(raw) ==> HeaderName(raw) == HeaderName(line))
    && (Strip(line) != "" && Indent(line) == 0 ==> IsHeader(line))
  }

  lemma {:induction false} PlainWithoutComment(raw: string)
    requires '#' !in raw && (Strip(raw) != "" && Indent(raw) == 0 ==> IsHeader(raw))
    ensures Plain(raw)
  {
    BeforeAbsent(raw, '#');
    RStripStable(raw);
  }

  lemma {:induction false} HashInName(raw: string)
    requires '#' in raw && IsHeader(raw)
    ensures '#' in HeaderName(raw)
  {
    RStripKeeps(raw, '#');
    LStripKeeps(RStrip(raw), '#');
    var s := Strip(raw);
    assert s == s[..|s| - 1] + [s[|s| - 1]];
    RStripKeeps(s[..|s| - 1], '#');
    LStripKeeps(RStrip(s[..|s| - 1]), '#');
  }

  lemma {:induction false} NameIsPart(raw: string)
    requires IsHeader(raw)
    ensures forall c :: c in HeaderName(raw) ==> c in raw
  {
    var s := Strip(raw);
    StripIsTrimmed(raw);
    StripIsTrimmed(s[..|s| - 1]);
  }

  /**
   At column 0 only section headers without a comment, and comments that do not end in a colon, are
   plain; indented lines always are.
   */
  lemma {:induction false} PlainExactly(raw: string)
    ensures Plain(raw) <==>
            || Indent(raw) > 0
            || (if '#' !in raw then Strip(raw) == "" || IsHeader(raw)
                else Strip(Before(raw, '#')) == "" && !EndsInColon(Strip(raw)))
  {
    hide Strip, Indent, HeaderName;
    var line := Uncommented(raw);
    UncommentedShape(raw);
    if '#' !in raw {
      BeforeAbsent(raw, '#');
      RStripStable(raw);
      if Indent(raw) > 0 || Strip(raw) == "" || IsHeader(raw) { PlainWithoutComment(raw); }
    } else if IsHeader(raw) && IsHeader(line) {
      HashInName(raw);
      NameIsPart(line);
    }
  }
}
