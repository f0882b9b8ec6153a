/**
 Why the lens laws ask what they ask of a text: for each of their conditions, small texts on which the
 merge misses its key exactly when the condition fails.
 */
module FleetYamlOutside {
  import opened Common
  import opened Text
  import opened FleetYaml
  import opened FleetYamlLines
  import opened FleetYamlLens
  import opened FleetYamlLaws

  // ── One more line ──

  lemma {:induction false} OneMoreLine(lines: seq<string>, raw: string, items: seq<Item>)
    ensures Read(lines + [raw]) == ReadLine(Read(lines), raw)
    ensures SetTwice(lines + [raw]) == SetTwice(lines) + SetAgain(Read(lines), raw)
    ensures Write(lines + [raw], items) == WriteLine(Write(lines, items), raw, items)
  {
    assert (lines + [raw])[..|lines|] == lines;
  }

  lemma {:induction false} FirstLine(section: string, items: seq<Item>)
    requires SectionOk(section)
    ensures var header := section + ":";
            && Read([header]) == EnterSection(START, section)
            && SetTwice([header]) == {}
            && Write([header], items) == Writer(Some(section), {}, [header])
  {
    hide ReadLine;
    HeaderLine(section);
    PlainLineIsRead(START, section + ":");
    assert [] + [section + ":"] == [section + ":"];
    OneMoreLine([], section + ":", items);
  }

  lemma {:induction false} OneItem(it: Item)
    ensures [it][1..] == [] && Missing([it], {}) == [it]
    ensures OfSection([it], it.section) == [it] && LinesOf([it]) == [it.Line()]
  {
    hide Item.Line;
    assert LinesOf([]) == [];
  }

  // ── A comment that ends in a colon ──

  /** Nothing but a comment, at column 0. */
  predicate IsComment(raw: string) { Indent(raw) == 0 && '#' in raw && Strip(Before(raw, '#')) == "" }

  /** A section with a comment above the line that sets a key. */
  function Commented(comment: string, was: Item): seq<string> { [was.section + ":"] + [comment] + [was.Line()] }

  lemma {:induction false} CommentIsSkipped(r: Reader, raw: string)
    requires IsComment(raw)
    ensures ReadLine(r, raw) == r && SetAgain(r, raw) == {}
  {
    hide Strip;
    UncommentedShape(raw);
    StripIsTrimmed(Uncommented(raw));
  }

  lemma {:induction false} CommentedIsRead(comment: string, was: Item)
    requires ItemOk(was) && IsComment(comment)
    ensures var start := EnterSection(START, was.section);
            && Read([was.section + ":"] + [comment]) == start
            && Read(Commented(comment, was)) == SetEntry(start, was.key, Unquote(was.text))
            && SetTwice(Commented(comment, was)) == {}
  {
    hide Read, SetTwice, ReadLine, ItemOk, Item.Line, Unquote, IsComment, EntryPair, Uncommented, IsHeader;
    SectionOfItem(was);
    var header := was.section + ":";
    FirstLine(was.section, []);
    OneMoreLine([header], comment, []);
    CommentIsSkipped(Read([header]), comment);
    OneMoreLine([header] + [comment], was.Line(), []);
    ItemLineIsRead(Read([header]), was);
    assert Read([header]).doc.values == map[];
  }

  /** If the comment does not end in a colon the laws apply. */
  lemma {:induction false} CommentedIsLawful(comment: string, was: Item, it: Item)
    requires ItemOk(was) && ItemOk(it) && it.Pair() == was.Pair()
    requires IsComment(comment) && !EndsInColon(Strip(comment))
    ensures Lawful(Commented(comment, was), [it])
  {
    hide Plain, ItemOk, Item.Line, Strip, Indent, EndsInColon;
    SectionOfItem(was);
    HeaderLineAgain(was.section);
    HeaderLine(was.section);
    PlainExactly(comment);
    ItemLine(was);
    ColonAtEnd(was.section);
  }

  lemma {:induction false} PlainCommentIsHarmless(comment: string, was: Item, it: Item)
    requires ItemOk(was) && ItemOk(it) && it.Pair() == was.Pair()
    requires IsComment(comment) && !EndsInColon(Strip(comment))
    ensures var after := Read(Merge(Commented(comment, was), [it])).doc.values;
            it.Pair() in after && after[it.Pair()] == Unquote(it.text)
  {
    hide Read, Merge, Lawful, SetTwice, Commented, ItemOk, Unquote, IsComment;
    CommentedIsLawful(comment, was, it);
    CommentedIsRead(comment, was);
    ValueAfterMerge(Commented(comment, was), [it], it.Pair());
  }

  /** Otherwise the merge takes it for a header, finds the key nowhere and adds it above the old line. */
  lemma {:induction false} CommentEndsSection(comment: string, was: Item, it: Item)
    requires ItemOk(was) && ItemOk(it) && it.Pair() == was.Pair()
    requires IsComment(comment) && EndsInColon(Strip(comment))
    ensures Write(Commented(comment, was), [it]) == Writer(Some(HeaderName(comment)), {}, Commented(comment, was))
  {
    hide Read, Write, ItemOk, Item.Line, Strip, Indent, HeaderName;
    SectionOfItem(was);
    var header := was.section + ":";
    FirstLine(was.section, [it]);
    OneMoreLine([header], comment, [it]);
    OneMoreLine([header] + [comment], was.Line(), [it]);
    ItemLine(was);
    HashInName(comment);
    NoHashInSection(it);
    PairOfUpdate(Some(HeaderName(comment)), was.Line(), it);
  }

  lemma {:induction false} NoHashInSection(it: Item)
    requires ItemOk(it)
    ensures '#' !in it.section
  {
  }

  lemma {:induction false} PairOfUpdate(section: Option<string>, raw: string, it: Item)
    requires section != Some(it.section)
    ensures EntryPair(section, raw).Some? ==> Find([it], EntryPair(section, raw).value).None?
  {
    assert [it][1..] == [];
  }

  lemma {:induction false} AddedAboveComment(comment: string, was: Item, it: Item)
    requires ItemOk(was) && ItemOk(it) && it.Pair() == was.Pair()
    requires IsComment(comment)
    ensures AddMissing(Commented(comment, was), [it]) ==
            [was.section + ":"] + [it.Line()] + [comment] + [was.Line()]
  {
    hide ItemOk, Item.Line, Strip, Indent, EndsInColon;
    SectionOfItem(was);
    NoHashInSection(it);
    HeaderLineAgain(was.section);
    ItemLine(was);
    ColonAtEnd(was.section);
    CommentIsNoName(comment, was.section);
    var header, lines := was.section + ":", Commented(comment, was);
    assert lines[0] == header;
    OneItem(it);
    assert lines[..2] == [header] + [comment] && lines[..2][..1] == [header] && [header][..0] == [];
    assert InsertUnder([], was.section, [it]) == [];
    assert InsertUnder([header], was.section, [it]) == [header] + [it.Line()];
    assert InsertUnder([header] + [comment], was.section, [it]) == [header] + [it.Line()] + [comment];
  }

  lemma {:induction false} CommentIsNoName(comment: string, section: string)
    requires IsComment(comment) && '#' !in section
    ensures Strip(comment) != section + ":"
  {
    RStripKeeps(comment, '#');
    LStripKeeps(RStrip(comment), '#');
  }

  lemma {:induction false} OldLineIsReadLast(comment: string, was: Item, it: Item)
    requires ItemOk(was) && ItemOk(it) && it.Pair() == was.Pair() && IsComment(comment)
    ensures var after := Read([was.section + ":"] + [it.Line()] + [comment] + [was.Line()]).doc.values;
            it.Pair() in after && after[it.Pair()] == Unquote(was.text)
  {
    hide Read, SetTwice, ReadLine, ItemOk, Item.Line, Unquote, IsComment, EntryPair, Write;
    SectionOfItem(was);
    var header := was.section + ":";
    FirstLine(was.section, []);
    OneMoreLine([header], it.Line(), []);
    ItemLineIsRead(Read([header]), it);
    var r := Read([header] + [it.Line()]);
    OneMoreLine([header] + [it.Line()], comment, []);
    CommentIsSkipped(r, comment);
    OneMoreLine([header] + [it.Line()] + [comment], was.Line(), []);
    ItemLineIsRead(r, was);
  }

  /** A comment above a key keeps its update from being read exactly when it ends in a colon. */
  lemma {:induction false} CommentHidesKeyExactly(comment: string, was: Item, it: Item)
    requires ItemOk(was) && ItemOk(it) && it.Pair() == was.Pair() && IsComment(comment)
    ensures var after := Read(Merge(Commented(comment, was), [it])).doc.values;
            && it.Pair() in after
            && (after[it.Pair()] == Unquote(it.text) <==>
                  !EndsInColon(Strip(comment)) || Unquote(was.text) == Unquote(it.text))
  {
    hide Read, Write, AddMissing, ItemOk, Item.Line, Strip, Unquote, EndsInColon, Commented, IsComment;
    if EndsInColon(Strip(comment)) {
      CommentEndsSection(comment, was, it);
      OneItem(it);
      AddedAboveComment(comment, was, it);
      OldLineIsReadLast(comment, was, it);
    } else {
      PlainCommentIsHarmless(comment, was, it);
    }
  }

  // ── A comment behind a header ──

  /** A header the reader sees and the merge does not. */
  predicate IsHiddenHeader(raw: string) { Indent(raw) == 0 && IsHeader(Uncommented(raw)) && !IsHeader(raw) }

  /**
   The merge overlooks a header with a comment behind it, so an update for the section above it
   rewrites the line of the section below: the one key stays unset and the other takes its value.
   */
  lemma {:induction false} CommentedHeaderMisdirects(raw: string, was: Item, it: Item)
    requires ItemOk(was) && ItemOk(it) && it.key == was.key && it.section != was.section
    requires IsHiddenHeader(raw) && HeaderName(Uncommented(raw)) == was.section
    ensures var lines := [it.section + ":"] + [raw] + [was.Line()];
            var after := Read(Merge(lines, [it])).doc.values;
            && Read(lines).doc.values == map[was.Pair() := Unquote(was.text)]
            && after == map[was.Pair() := Unquote(it.text)]
  {
    hide Read, Merge, ItemOk, Item.Line, Unquote, HeaderName, IsHiddenHeader;
    SectionOfItem(it);
    InOtherSection(it, was);
    ReadBelow(it.section, raw, was);
    ReadBelow(it.section, raw, Item(was.section, it.key, it.text));
    WrittenBelow(raw, was, it);
  }

  lemma {:induction false} ReadBelow(section: string, raw: string, x: Item)
    requires SectionOk(section) && IsHiddenHeader(raw) && HeaderName(Uncommented(raw)) == x.section && ItemOk(x)
    ensures Read([section + ":"] + [raw] + [x.Line()]).doc.values == map[x.Pair() := Unquote(x.text)]
  {
    hide Read, SetTwice, ReadLine, ItemOk, Item.Line, Unquote, Write, HeaderName, IsHiddenHeader, EntryPair, SectionOk;
    var header := section + ":";
    FirstLine(section, []);
    OneMoreLine([header], raw, []);
    HiddenHeaderIsRead(Read([header]), raw);
    OneMoreLine([header] + [raw], x.Line(), []);
    ItemLineIsRead(Read([header] + [raw]), x);
  }

  lemma {:induction false} WrittenBelow(raw: string, was: Item, it: Item)
    requires ItemOk(was) && ItemOk(it) && it.key == was.key && IsHiddenHeader(raw)
    ensures Merge([it.section + ":"] + [raw] + [was.Line()], [it]) == [it.section + ":"] + [raw] + [it.Line()]
  {
    hide Read, ReadLine, SetTwice, ItemOk, Item.Line, Write, IsHeader, EntryPair, AddMissing;
    SectionOfItem(it);
    var header := it.section + ":";
    FirstLine(it.section, [it]);
    OneMoreLine([header], raw, [it]);
    NoEntryAtColumnZero(Some(it.section), raw);
    OneMoreLine([header] + [raw], was.Line(), [it]);
    ItemLine(was);
    InOtherSection(was, it);
    ItemLineIsRead(EnterSection(START, it.section), Item(it.section, was.key, was.text));
    assert [it][1..] == [];
    assert Write([header] + [raw] + [was.Line()], [it]).out == [header] + [raw] + [it.Line()];
    assert Write([header] + [raw] + [was.Line()], [it]).applied == {it.Pair()};
    assert Missing([it], {it.Pair()}) == [];
    NothingToAdd([header] + [raw] + [it.Line()]);
  }

  lemma {:induction false} NoEntryAtColumnZero(section: Option<string>, raw: string)
    requires Indent(raw) == 0
    ensures EntryPair(section, raw).None?
  {
  }

  lemma {:induction false} NothingToAdd(out: seq<string>)
    ensures AddMissing(out, []) == out
  {
  }

  lemma {:induction false} InOtherSection(it: Item, was: Item)
    requires ItemOk(it) && ItemOk(was)
    ensures ItemOk(Item(was.section, it.key, it.text)) && Item(was.section, it.key, it.text).Line() == it.Line()
  {
  }

  lemma {:induction false} HiddenHeaderIsRead(r: Reader, raw: string)
    requires IsHiddenHeader(raw)
    ensures ReadLine(r, raw) == EnterSection(r, HeaderName(Uncommented(raw)))
  {
    hide Uncommented, Indent, HeaderName;
  }

  // ── A key at column 0 ──

  /** The line of an item at any indentation. */
  function LineAt(n: nat, it: Item): string { Spaces(n) + Content(it) }

  lemma {:induction false} LineAtShape(n: nat, it: Item)
    requires ItemOk(it)
    ensures var raw := LineAt(n, it);
            && Uncommented(raw) == raw && Indent(raw) == n && Strip(raw) == Content(it) && !EndsInColon(Content(it))
            && ':' in Content(it) && KeyOf(Content(it)) == it.key && ValueOf(Content(it)) == Unquote(it.text)
  {
    hide Strip, Indent, Trimmed, EndsInColon, Unquote, KeyOf, ValueOf, ItemOk, Content;
    ContentShape(it);
    ContentParts(it);
    ContentCharacters(it);
    ContentIsPart(it);
    StripOfIndented(n, Content(it));
    IndentOfIndented(n, Content(it));
    BeforeAbsent(LineAt(n, it), '#');
  }

  lemma {:induction false} ContentIsPart(it: Item)
    requires '#' !in it.Line()
    ensures '#' !in Content(it)
  {
    assert it.Line() == "  " + Content(it);
  }

  lemma {:induction false} LineAtIsRead(r: Reader, n: nat, it: Item)
    requires ItemOk(it) && r.section == Some(it.section)
    ensures ReadLine(r, LineAt(n, it)) == SetEntry(r, it.key, Unquote(it.text))
  {
    hide Strip, Indent, Unquote, KeyOf, ValueOf, Content, LineAt, Uncommented;
    LineAtShape(n, it);
  }

  lemma {:induction false} SectionWithKey(n: nat, was: Item)
    requires ItemOk(was)
    ensures var lines := [was.section + ":"] + [LineAt(n, was)];
            && Read(lines) == SetEntry(EnterSection(START, was.section), was.key, Unquote(was.text))
            && SetTwice(lines) == {}
  {
    hide Read, SetTwice, Write, ReadLine, ItemOk, Unquote, LineAt, EntryPair, Uncommented, IsHeader;
    SectionOfItem(was);
    FirstLine(was.section, []);
    OneMoreLine([was.section + ":"], LineAt(n, was), []);
    LineAtIsRead(Read([was.section + ":"]), n, was);
    assert Read([was.section + ":"]).doc.values == map[];
  }

  lemma {:induction false} IndentedKeyIsUpdated(n: nat, was: Item, it: Item)
    requires ItemOk(was) && ItemOk(it) && it.Pair() == was.Pair() && n > 0
    ensures var after := Read(Merge([was.section + ":"] + [LineAt(n, was)], [it])).doc.values;
            it.Pair() in after && after[it.Pair()] == Unquote(it.text)
  {
    hide Read, Merge, SetTwice, Plain, ItemOk, Item.Line, Strip, Indent, EndsInColon, Unquote, LineAt;
    SectionOfItem(was);
    HeaderLineAgain(was.section);
    HeaderLine(was.section);
    LineAtShape(n, was);
    PlainExactly(LineAt(n, was));
    ColonAtEnd(was.section);
    SectionWithKey(n, was);
    ValueAfterMerge([was.section + ":"] + [LineAt(n, was)], [it], it.Pair());
  }

  /** At column 0 the reader takes the line for a key and the merge does not: it adds the new line above the old. */
  lemma {:induction false} AddedAboveKey(was: Item, it: Item)
    requires ItemOk(was) && ItemOk(it) && it.Pair() == was.Pair()
    ensures Merge([was.section + ":"] + [LineAt(0, was)], [it]) ==
            [was.section + ":"] + [it.Line()] + [LineAt(0, was)]
  {
    hide Read, SetTwice, Write, ReadLine, ItemOk, Item.Line, Strip, Indent, EndsInColon, LineAt;
    SectionOfItem(was);
    var header, raw := was.section + ":", LineAt(0, was);
    FirstLine(was.section, [it]);
    OneMoreLine([header], raw, [it]);
    LineAtShape(0, was);
    assert Write([header] + [raw], [it]) == Writer(Some(was.section), {}, [header] + [raw]);
    HeaderLineAgain(was.section);
    ColonAtEnd(was.section);
    AddedUnderFirst(header, raw, was.section, it);
  }

  /** The key of a section whose header is the first of two lines is added between them. */
  lemma {:induction false} AddedUnderFirst(header: string, raw: string, section: string, it: Item)
    requires Strip(header) == section + ":" && Strip(raw) != section + ":" && it.section == section
    ensures AddMissing([header] + [raw], Missing([it], {})) == [header] + [it.Line()] + [raw]
  {
    hide Item.Line, Strip;
    var lines := [header] + [raw];
    assert lines[0] == header;
    OneItem(it);
    assert lines[..1] == [header] && [header][..0] == [];
    assert InsertUnder([], section, [it]) == [];
    assert InsertUnder([header], section, [it]) == [header] + [it.Line()];
  }

  /** A section's key is updated exactly when it is indented, or has the new value already. */
  lemma {:induction false} KeyIsUpdatedExactly(n: nat, was: Item, it: Item)
    requires ItemOk(was) && ItemOk(it) && it.Pair() == was.Pair()
    ensures var after := Read(Merge([was.section + ":"] + [LineAt(n, was)], [it])).doc.values;
            && it.Pair() in after
            && (after[it.Pair()] == Unquote(it.text) <==> n > 0 || Unquote(was.text) == Unquote(it.text))
  {
    hide Read, Write, ReadLine, Merge, SetTwice, ItemOk, Item.Line, Unquote, LineAt, EntryPair;
    if n > 0 {
      IndentedKeyIsUpdated(n, was, it);
    } else {
      SectionOfItem(was);
      var header := was.section + ":";
      AddedAboveKey(was, it);
      FirstLine(was.section, []);
      OneMoreLine([header], it.Line(), []);
      ItemLineIsRead(Read([header]), it);
      OneMoreLine([header] + [it.Line()], LineAt(0, was), []);
      LineAtIsRead(Read([header] + [it.Line()]), 0, was);
    }
  }

  // ── An indented line that looks like a header ──

  function HeaderAt(n: nat, section: string): string { Spaces(n) + (section + ":") }

  lemma {:induction false} HeaderAtShape(n: nat, section: string)
    requires SectionOk(section)
    ensures var raw := HeaderAt(n, section);
            && Strip(raw) == section + ":" && Indent(raw) == n && (IsHeader(raw) <==> n == 0) && Plain(raw)
  {
    hide Strip, Indent, Plain;
    var line, raw := section + ":", HeaderAt(n, section);
    HeaderLine(section);
    assert line[0] == section[0];
    StripOfIndented(n, line);
    IndentOfIndented(n, line);
    ColonAtEnd(section);
    assert '#' !in raw;
    PlainWithoutComment(raw);
  }

  /** Two sections, the header of the second at any indentation. */
  function TwoSections(above: string, n: nat, section: string): seq<string> { [above + ":"] + [HeaderAt(n, section)] }

  lemma {:induction false} SecondSectionIsUpdated(above: string, it: Item)
    requires SectionOk(above) && ItemOk(it)
    ensures it.Pair() in Read(Merge(TwoSections(above, 0, it.section), [it])).doc.values
  {
    hide Read, Merge, Plain, ItemOk, Strip, Indent, HeaderAt, Trimmed, OneLine;
    SectionOfItem(it);
    HeaderLineAgain(above);
    HeaderLine(above);
    HeaderAtShape(0, it.section);
    var lines := TwoSections(above, 0, it.section);
    assert [it][0] == it;
    ValueAfterMerge(lines, [it], it.Pair());
  }

  /** Indented, it attracts the new key and the reader finds that in the section above. */
  lemma {:induction false} AddedUnderLookalike(above: string, n: nat, it: Item)
    requires SectionOk(above) && ItemOk(it) && it.section != above && n > 0
    ensures Merge(TwoSections(above, n, it.section), [it]) ==
            [above + ":"] + [HeaderAt(n, it.section)] + [it.Line()]
  {
    hide Read, SetTwice, Write, ReadLine, ItemOk, Item.Line, Strip, Indent, EndsInColon, SectionOk, EntryPair, IsHeader,
         HeaderAt;
    SectionOfItem(it);
    var header, raw := above + ":", HeaderAt(n, it.section);
    FirstLine(above, [it]);
    OneMoreLine([header], raw, [it]);
    HeaderAtShape(n, it.section);
    PairOfUpdate(Some(above), raw, it);
    assert Write([header] + [raw], [it]) == Writer(Some(above), {}, [header] + [raw]);
    HeaderLineAgain(above);
    assert above + ":" != it.section + ":" by { assert (above + ":")[..|above + ":"| - 1] == above; }
    AddedUnderSecond(header, raw, it);
  }

  lemma {:induction false} AddedUnderSecond(header: string, raw: string, it: Item)
    requires Strip(raw) == it.section + ":" && Strip(header) != it.section + ":"
    ensures AddMissing([header] + [raw], Missing([it], {})) == [header] + [raw] + [it.Line()]
  {
    hide Item.Line, Strip;
    var lines := [header] + [raw];
    assert lines[1] == raw;
    OneItem(it);
    assert lines[..1] == [header] && [header][..0] == [];
    assert InsertUnder([], it.section, [it]) == [];
    assert InsertUnder([header], it.section, [it]) == [header];
  }

  lemma {:induction false} StaysInSection(r: Reader, raw: string, section: string)
    requires r.section == Some(section) && (forall p :: p in r.doc.values ==> p.0 == section)
    requires Plain(raw) && !IsHeader(raw)
    ensures var t := ReadLine(r, raw);
            t.section == Some(section) && forall p :: p in t.doc.values ==> p.0 == section
  {
    hide ReadLine, ReadPlain, IsHeader, Plain, EntryPair, Uncommented;
    PlainLineIsRead(r, raw);
    ReadAdds(r, raw);
    if SetBy(r, raw).Some? { PairOfEntry(r.section, Uncommented(raw)); }
  }

  /** A key is added to a section that has only its header exactly when that header is at column 0. */
  lemma {:induction false} KeyIsAddedExactly(above: string, n: nat, it: Item)
    requires SectionOk(above) && ItemOk(it) && it.section != above
    ensures it.Pair() in Read(Merge(TwoSections(above, n, it.section), [it])).doc.values <==> n == 0
  {
    hide Read, Write, ReadLine, Merge, SetTwice, ItemOk, Item.Line, HeaderAt, IsHeader, Plain, SectionOk, TwoSections,
         Strip;
    if n == 0 {
      SecondSectionIsUpdated(above, it);
    } else {
      SectionOfItem(it);
      var header, raw := above + ":", HeaderAt(n, it.section);
      AddedUnderLookalike(above, n, it);
      FirstLine(above, []);
      OneMoreLine([header], raw, []);
      HeaderAtShape(n, it.section);
      StaysInSection(Read([header]), raw, above);
      OneMoreLine([header] + [raw], it.Line(), []);
      ItemLine(it);
      StaysInSection(Read([header] + [raw]), it.Line(), above);
    }
  }
}
