/**
 The lens laws of the config merge on whole texts: put-get, put-put, and the
 survival of every other line. Also what happens outside the laws' conditions.
 */
module FleetYamlLaws {
  import opened Common
  import opened Text
  import opened FleetYaml
  import opened FleetYamlLines
  import opened FleetYamlLens

  // ── Merging twice ──

  /** A line that sets an updated key for the first time is the line the merge would write. */
  ghost predicate Canonical(r: Reader, raw: string, items: seq<Item>) {
    !IsHeader(raw) ==>
      var p := EntryPair(r.section, raw);
      p.Some? && Find(items, p.value).Some? && p.value !in r.doc.values ==> raw == Find(items, p.value).value.Line()
  }

  ghost predicate CanonicalFrom(r: Reader, lines: seq<string>, items: seq<Item>)
    decreases |lines|
  {
    lines != [] ==> Canonical(r, lines[0], items) && CanonicalFrom(ReadLine(r, lines[0]), lines[1..], items)
  }

  lemma {:induction false} CanonicalAppend(r: Reader, a: seq<string>, b: seq<string>, items: seq<Item>)
    ensures CanonicalFrom(r, a + b, items) <==> CanonicalFrom(r, a, items) && CanonicalFrom(ReadFrom(r, a), b, items)
    decreases |a|
  {
    hide Canonical, ReadLine;
    if a == [] {
      assert a + b == b;
    } else {
      assert (a + b)[0] == a[0] && (a + b)[1..] == a[1..] + b;
      CanonicalAppend(ReadLine(r, a[0]), a[1..], b, items);
    }
  }

  lemma {:induction false} ReadIsReadFrom(lines: seq<string>)
    ensures Read(lines) == ReadFrom(START, lines)
  {
    hide ReadLine;
    assert [] + lines == lines;
    ReadAppend([], lines);
  }

  /** All lines of a text are canonical. */
  ghost predicate CanonicalText(lines: seq<string>, items: seq<Item>) { CanonicalFrom(START, lines, items) }

  lemma {:induction false} CanonicalSnoc(lines: seq<string>, raw: string, items: seq<Item>)
    ensures CanonicalText(lines + [raw], items) <==> CanonicalText(lines, items) && Canonical(Read(lines), raw, items)
  {
    hide Canonical, ReadLine;
    CanonicalAppend(START, lines, [raw], items);
    ReadIsReadFrom(lines);
    assert [raw][1..] == [];
  }

  /** Rewriting leaves canonical lines. */
  lemma {:induction false} RewriteIsCanonical(lines: seq<string>, items: seq<Item>)
    requires PlainText(lines) && ItemsOk(items)
    ensures CanonicalText(Write(lines, items).out, items)
    decreases |lines|
  {
    hide ReadLine, Find, Canonical, IsHeader, EntryPair, Plain, ItemsOk, HeaderName, Item.Line, Wanted;
    if lines == [] {
    } else {
      var before, raw := lines[..|lines| - 1], lines[|lines| - 1];
      RewriteIsCanonical(before, items);
      RewriteInStep(before, items);
      var w := Write(before, items);
      CanonicalStep(w, Read(before), Read(w.out), raw, items, SetTwice(before));
      var out := Write(lines, items).out;
      CanonicalSnoc(w.out, out[|w.out|], items);
      assert out == w.out + [out[|w.out|]];
    }
  }

  lemma {:induction false} CanonicalStep(w: Writer, r: Reader, r1: Reader, raw: string, items: seq<Item>,
                                         twice: set<Pair>)
    requires InStep(w, r, r1, items, twice) && ItemsOk(items)
    ensures var out := WriteLine(w, raw, items).out;
            |out| == |w.out| + 1 && out == w.out + [out[|w.out|]] && Canonical(r1, out[|w.out|], items)
  {
    hide Find, Strip, IsHeader, EntryPair, HeaderName, ItemsOk, Item.Line, Wanted;
    var p := EntryPair(w.section, raw);
    if !IsHeader(raw) && p.Some? && p.value !in w.applied && Find(items, p.value).Some? {
      FoundIsOk(items, p.value);
      var it := Find(items, p.value).value;
      PairOfEntry(w.section, raw);
      ItemLineIsRead(r1, it);
      assert EntryPair(r1.section, it.Line()) == Some(it.Pair());
    }
  }

  /** What is found first in the part is found first in all updates, for pairs not known yet. */
  ghost predicate FirstIn(part: seq<Item>, items: seq<Item>, known: set<Pair>) {
    forall p :: p !in known && Find(part, p).Some? ==> Find(part, p) == Find(items, p)
  }

  lemma {:induction false} ItemsAreCanonical(r: Reader, part: seq<Item>, section: string, items: seq<Item>)
    requires ItemsOf(part, section) && r.section == Some(section) && FirstIn(part, items, r.doc.values.Keys)
    ensures CanonicalFrom(r, LinesOf(part), items)
    decreases |part|
  {
    hide ReadLine, IsHeader, ItemOk, Item.Line, EntryPair, SectionOk;
    if part == [] {
    } else {
      ItemAt(part, 0);
      ItemLineIsRead(r, part[0]);
      assert LinesOf(part)[0] == part[0].Line() && LinesOf(part)[1..] == LinesOf(part[1..]);
      assert Find(part, part[0].Pair()) == Some(part[0]);
      forall p | p !in r.doc.values && p != part[0].Pair() && Find(part[1..], p).Some?
        ensures Find(part[1..], p) == Find(items, p)
      {
        assert Find(part, p) == Find(part[1..], p);
      }
      ItemsAreCanonical(ReadLine(r, part[0].Line()), part[1..], section, items);
    }
  }

  /** The items of one section, all of them among the updates and none of them set yet. */
  ghost predicate NewPart(out: seq<string>, section: string, part: seq<Item>, items: seq<Item>) {
    && PlainText(out) && ItemsOf(part, section) && HeaderAtColumnZero(out, section)
    && FirstIn(part, items, {})
    && (forall p :: p in Latest(part) ==> p !in Read(out).doc.values)
  }

  lemma {:induction false} InsertIsCanonical(out: seq<string>, section: string, part: seq<Item>, items: seq<Item>)
    requires NewPart(out, section, part, items) && CanonicalText(out, items)
    ensures CanonicalText(InsertUnder(out, section, part), items)
    decreases |out|
  {
    hide ReadLine, Find, IsHeader, Canonical, CanonicalText, Plain, ItemsOf, Strip, Indent, EntryPair, LinesOf, Latest,
         FirstIn, Uncommented;
    if out == [] {
    } else {
      var before, raw := out[..|out| - 1], out[|out| - 1];
      assert out == before + [raw];
      CanonicalSnoc(before, raw, items);
      PlainLineIsRead(Read(before), raw);
      ReadAdds(Read(before), raw);
      InsertIsCanonical(before, section, part, items);
      InsertIsRead(before, section, part);
      var ins := InsertUnder(before, section, part);
      StillCanonical(Read(before), Read(ins), raw, items);
      CanonicalSnoc(ins, raw, items);
      if Strip(raw) == section + ":" {
        EnterAtHeader(Read(ins), raw, section, part);
        assert (ins + [raw])[..|ins|] == ins;
        AppendItems(ins + [raw], section, part, items);
      } else {
        assert InsertUnder(out, section, part) == ins + [raw];
      }
    }
  }

  lemma {:induction false} EnterAtHeader(r: Reader, raw: string, section: string, part: seq<Item>)
    requires ItemsOf(part, section) && Plain(raw) && Strip(raw) == section + ":" && Indent(raw) == 0
    ensures ReadLine(r, raw).section == Some(section)
  {
    hide ReadLine, ItemsOk;
    FoundHeader(raw, section);
    PlainLineIsRead(r, raw);
  }

  lemma {:induction false} AppendItems(lines: seq<string>, section: string, part: seq<Item>, items: seq<Item>)
    requires CanonicalText(lines, items) && ItemsOf(part, section) && Read(lines).section == Some(section)
    requires FirstIn(part, items, {})
    ensures CanonicalText(lines + LinesOf(part), items)
  {
    hide ReadLine, Find, Canonical, ItemsOf, LinesOf;
    ItemsAreCanonical(Read(lines), part, section, items);
    CanonicalAppend(START, lines, LinesOf(part), items);
    ReadIsReadFrom(lines);
  }

  /** A canonical line stays canonical when more keys are set before it. */
  lemma {:induction false} StillCanonical(r: Reader, r2: Reader, raw: string, items: seq<Item>)
    requires Canonical(r, raw, items) && r.section == r2.section
    requires forall p :: p in r.doc.values ==> p in r2.doc.values
    ensures Canonical(r2, raw, items)
  {
    hide IsHeader, EntryPair, Find, Item.Line;
  }

  lemma {:induction false} SectionIsCanonical(out: seq<string>, section: string, part: seq<Item>, items: seq<Item>)
    requires NewPart(out, section, part, items) && CanonicalText(out, items)
    ensures CanonicalText(AddSection(out, section, part), items)
  {
    hide ReadLine, Find, IsHeader, Canonical, CanonicalText, PlainText, ItemsOk, Strip, EntryPair, LinesOf, Latest,
         HasHeader, InsertUnder, FirstIn;
    if HasHeader(out, section) {
      InsertIsCanonical(out, section, part, items);
    } else {
      var header := section + ":";
      HeaderLine(section);
      PlainLineIsRead(Read(out), header);
      HeaderIsCanonical(Read(out), header, items);
      CanonicalSnoc(out, header, items);
      assert (out + [header])[..|out|] == out;
      AppendItems(out + [header], section, part, items);
    }
  }

  lemma {:induction false} HeaderIsCanonical(r: Reader, raw: string, items: seq<Item>)
    requires IsHeader(raw)
    ensures Canonical(r, raw, items)
  {
  }

  lemma {:induction false} MissingIsCanonical(out: seq<string>, missing: seq<Item>, items: seq<Item>)
    requires PlainText(out) && ItemsOk(items) && ItemsOk(missing) && HeadersAtColumnZero(out, missing)
    requires FirstIn(missing, items, {})
    requires (forall p :: p in Latest(missing) ==> p !in Read(out).doc.values) && CanonicalText(out, items)
    ensures CanonicalText(AddMissing(out, missing), items) && PlainText(AddMissing(out, missing))
    decreases |missing|
  {
    hide ReadLine, Read, PlainText, ItemsOk, Latest, AddSection, OfSection, NotOfSection, Sections, Grown, ItemsOf,
         CanonicalText, Find;
    if missing == [] {
    } else {
      var section := missing[0].section;
      var part, rest := OfSection(missing, section), NotOfSection(missing[1..], section);
      BySection(missing, section);
      HeadersOfPart(out, missing, rest, section);
      FirstOfSection(missing, items, section);
      SectionIsCanonical(out, section, part, items);
      SectionIsAdded(out, section, part);
      AddedTextStaysLawful(out, section, part, rest);
      GrownKeys(Read(out).doc, {section}, Latest(part));
      MissingIsCanonical(AddSection(out, section, part), rest, items);
    }
  }

  lemma {:induction false} FirstOfSection(missing: seq<Item>, items: seq<Item>, section: string)
    requires FirstIn(missing, items, {}) && missing != [] && section == missing[0].section
    ensures FirstIn(OfSection(missing, section), items, {}) && FirstIn(NotOfSection(missing[1..], section), items, {})
  {
    hide Find;
    assert NotOfSection(missing, section) == NotOfSection(missing[1..], section);
    forall p
      ensures Find(OfSection(missing, section), p) == if p.0 == section then Find(missing, p) else None
      ensures Find(NotOfSection(missing, section), p) == if p.0 == section then None else Find(missing, p)
    {
      FindOfSection(missing, section, p);
    }
  }

  /** A canonical text is rewritten to itself. */
  lemma {:induction false} CanonicalIsKept(lines: seq<string>, items: seq<Item>)
    requires PlainText(lines) && ItemsOk(items) && CanonicalText(lines, items)
    ensures var w, r := Write(lines, items), Read(lines);
            && w.out == lines && w.section == r.section
            && forall p :: p in w.applied <==> p in r.doc.values && Find(items, p).Some?
    decreases |lines|
  {
    hide ReadLine, ReadPlain, Find, IsHeader, EntryPair, Plain, ItemsOk, HeaderName, Item.Line, CanonicalText, SetBy;
    if lines == [] {
    } else {
      var before, raw := lines[..|lines| - 1], lines[|lines| - 1];
      assert lines == before + [raw];
      CanonicalSnoc(before, raw, items);
      CanonicalIsKept(before, items);
      PlainLineIsRead(Read(before), raw);
      ReadAdds(Read(before), raw);
      if IsHeader(raw) { HeaderSetsNothing(Read(before), raw); } else { SameEntry(Read(before), raw, items); }
    }
  }

  lemma {:induction false} HeaderSetsNothing(r: Reader, raw: string)
    requires IsHeader(raw)
    ensures SetBy(r, raw).None?
  {
  }

  /** Put, then put the same again: nothing changes, keys set twice included. */
  lemma {:induction false} MergeTwiceIsMergeOnce(lines: seq<string>, items: seq<Item>)
    requires Lawful(lines, items)
    ensures Merge(Merge(lines, items), items) == Merge(lines, items)
  {
    hide Read, Write, AddMissing, ItemsOk, PlainText, HeadersAtColumnZero, Find, Wanted, Latest, Overlaid, Missing,
         CanonicalText, SetTwice;
    var w := Write(lines, items);
    var missing, merged := Missing(items, w.applied), Merge(lines, items);
    RewriteInStep(lines, items);
    RewriteIsCanonical(lines, items);
    MissingOk(items, w.applied);
    MissingMembers(items, w.applied);
    RewriteKeepsHeaders(lines, items, missing);
    MissingIsNew(w, Read(lines), items, Wanted(items) - SetTwice(lines));
    forall p ensures Find(missing, p) == if p in w.applied then None else Find(items, p) {
      FindMissing(items, w.applied, p);
    }
    MissingIsCanonical(w.out, missing, items);
    CanonicalIsKept(merged, items);
    MergedLinesAreRead(lines, items);
    AllAreSet(Read(lines).doc, Sections(items), Changes(lines, items), SetTwice(lines), merged, items);
  }

  lemma {:induction false} AllAreSet(doc: Doc, sections: set<string>, changes: map<Pair, string>, twice: set<Pair>,
                                     merged: seq<string>, items: seq<Item>)
    requires Read(merged).doc == Grown(doc, sections, changes) && twice <= doc.values.Keys
    requires forall p :: Find(items, p).Some? ==> p in changes || p in twice
    requires forall p :: p in Write(merged, items).applied <==> p in Read(merged).doc.values && Find(items, p).Some?
    requires Write(merged, items).out == merged
    ensures Merge(merged, items) == merged
  {
    hide Read, Write, Find;
    var applied := Write(merged, items).applied;
    forall it | it in items
      ensures it.Pair() in applied
    {
      FindMember(items, it.Pair());
    }
    NoneMissing(items, applied);
  }

  lemma {:induction false} NoneMissing(items: seq<Item>, applied: set<Pair>)
    requires forall it :: it in items ==> it.Pair() in applied
    ensures Missing(items, applied) == []
  {
    if items == [] {
    } else {
      NoneMissing(items[1..], applied);
    }
  }

  // ── All other lines survive in order ──

  /** `a` can be had from `b` by leaving lines out. */
  ghost predicate Survives(a: seq<string>, b: seq<string>)
    decreases |b|
  {
    if a == [] then true
    else
      && b != []
      && ((a[|a| - 1] == b[|b| - 1] && Survives(a[..|a| - 1], b[..|b| - 1])) || Survives(a, b[..|b| - 1]))
  }

  lemma {:induction false} SurvivesMore(a: seq<string>, b: seq<string>, c: seq<string>)
    requires Survives(a, b)
    ensures Survives(a, b + c)
    decreases |c|
  {
    if c == [] {
      assert b + c == b;
    } else {
      SurvivesMore(a, b, c[..|c| - 1]);
      assert (b + c)[..|b + c| - 1] == b + c[..|c| - 1];
    }
  }

  lemma {:induction false} SurvivesTwice(a: seq<string>, b: seq<string>, c: seq<string>)
    requires Survives(a, b) && Survives(b, c)
    ensures Survives(a, c)
    decreases |c|
  {
    if a == [] {
    } else {
      var b', c' := b[..|b| - 1], c[..|c| - 1];
      if Survives(b, c') {
        SurvivesTwice(a, b, c');
      } else if a[|a| - 1] == b[|b| - 1] && Survives(a[..|a| - 1], b') {
        SurvivesTwice(a[..|a| - 1], b', c');
      } else {
        SurvivesTwice(a, b', c');
      }
    }
  }

  lemma {:induction false} SurvivesItself(a: seq<string>)
    ensures Survives(a, a)
  {
    if a == [] {
    } else {
      SurvivesItself(a[..|a| - 1]);
    }
  }

  lemma {:induction false} SurvivesInsert(out: seq<string>, section: string, items: seq<Item>)
    ensures Survives(out, InsertUnder(out, section, items))
    decreases |out|
  {
    hide Strip, LinesOf;
    if out == [] {
    } else {
      var before, raw := out[..|out| - 1], out[|out| - 1];
      SurvivesInsert(before, section, items);
      var ins := InsertUnder(before, section, items);
      assert (ins + [raw])[..|ins|] == ins;
      SurvivesMore(out, ins + [raw], if Strip(raw) == section + ":" then LinesOf(items) else []);
    }
  }

  lemma {:induction false} SurvivesAdding(out: seq<string>, missing: seq<Item>)
    ensures Survives(out, AddMissing(out, missing))
    decreases |missing|
  {
    hide OfSection, NotOfSection, HasHeader, InsertUnder, LinesOf, Survives;
    SurvivesItself(out);
    if missing == [] {
    } else {
      var section := missing[0].section;
      var items, rest := OfSection(missing, section), NotOfSection(missing[1..], section);
      var next := AddSection(out, section, items);
      SurvivesInsert(out, section, items);
      SurvivesMore(out, out, [section + ":"] + LinesOf(items));
      assert out + ([section + ":"] + LinesOf(items)) == out + [section + ":"] + LinesOf(items);
      SurvivesAdding(next, rest);
      SurvivesTwice(out, next, AddMissing(next, rest));
    }
  }

  /** The section a line is in: the name of the last header above it. */
  function SectionAt(lines: seq<string>): Option<string> {
    if lines == [] then None
    else
      var raw := lines[|lines| - 1];
      if IsHeader(raw) then Some(HeaderName(raw)) else SectionAt(lines[..|lines| - 1])
  }

  /** Line i is a header or sets no updated key. */
  ghost predicate Untouched(lines: seq<string>, items: seq<Item>, i: nat)
    requires i < |lines|
  {
    IsHeader(lines[i]) ||
    var p := EntryPair(SectionAt(lines[..i]), lines[i]);
    p.None? || Find(items, p.value).None?
  }

  /**
   On every text and with every updates: each line that sets no updated key
   stays, in its place among the others. The merge rewrites lines one for one
   and then only adds lines.
   */
  lemma {:induction false} OtherLinesSurvive(lines: seq<string>, items: seq<Item>)
    ensures var out := Write(lines, items).out;
            && |out| == |lines| && Survives(out, Merge(lines, items))
            && forall i :: 0 <= i < |lines| && Untouched(lines, items, i) ==> out[i] == lines[i]
  {
    hide Write, Untouched, Survives, AddMissing;
    RewrittenLines(lines, items);
    forall i | 0 <= i < |lines| && Untouched(lines, items, i)
      ensures Write(lines, items).out[i] == lines[i]
    {
      UntouchedStays(lines, items, i);
    }
    SurvivesAdding(Write(lines, items).out, Missing(items, Write(lines, items).applied));
  }

  lemma {:induction false} WriterSection(lines: seq<string>, items: seq<Item>)
    ensures Write(lines, items).section == SectionAt(lines)
    decreases |lines|
  {
    hide IsHeader, HeaderName, EntryPair, Find;
    if lines == [] {
    } else {
      WriterSection(lines[..|lines| - 1], items);
    }
  }

  lemma {:induction false} UntouchedStays(lines: seq<string>, items: seq<Item>, i: nat)
    requires i < |lines| && Untouched(lines, items, i)
    ensures |Write(lines, items).out| == |lines| && Write(lines, items).out[i] == lines[i]
    decreases |lines|
  {
    hide Find, IsHeader, EntryPair, WriteLine, SectionAt;
    var before, raw := lines[..|lines| - 1], lines[|lines| - 1];
    RewrittenLines(before, items);
    WriterSection(before, items);
    WriteLineShape(Write(before, items), raw, items);
    if i < |before| {
      assert before[..i] == lines[..i];
      UntouchedStays(before, items, i);
    } else {
      assert lines[..i] == before;
    }
  }

  lemma {:induction false} WriteLineShape(w: Writer, raw: string, items: seq<Item>)
    ensures var out := WriteLine(w, raw, items).out;
            && |out| == |w.out| + 1 && out[..|w.out|] == w.out
            && (|| IsHeader(raw)
                || EntryPair(w.section, raw).None?
                || Find(items, EntryPair(w.section, raw).value).None?
                ==> out[|w.out|] == raw)
  {
    hide IsHeader, HeaderName, EntryPair, Find, Item.Line;
  }

  // ── Whole texts ──

  function MergeText(text: string, items: seq<Item>): string { JoinLines(Merge(SplitLines(text), items)) }

  function ReadText(text: string): Doc { Read(SplitLines(text)).doc }

  lemma {:induction false} AddedOneLine(out: seq<string>, missing: seq<Item>)
    requires AllOneLine(out) && PlainText(out) && ItemsOk(missing) && HeadersAtColumnZero(out, missing)
    ensures AllOneLine(AddMissing(out, missing))
    decreases |missing|
  {
    hide PlainText, ItemsOk, OneLine, AddSection, OfSection, NotOfSection, Wanted, Sections;
    if missing == [] {
    } else {
      var section := missing[0].section;
      var items, rest := OfSection(missing, section), NotOfSection(missing[1..], section);
      BySection(missing, section);
      HeadersOfPart(out, missing, rest, section);
      AddedTextStaysLawful(out, section, items, rest);
      AddedLines(out, section, items);
      var next := AddSection(out, section, items);
      forall i | 0 <= i < |next|
        ensures OneLine(next[i])
      {
        assert next[i] in next;
        NewLineIsPlain(next[i], out, section, items);
        if next[i] in out {
          var k :| 0 <= k < |out| && out[k] == next[i];
        }
      }
      AddedOneLine(next, rest);
    }
  }

  lemma {:induction false} MergedOneLine(lines: seq<string>, items: seq<Item>)
    requires Lawful(lines, items) && AllOneLine(lines)
    ensures AllOneLine(Merge(lines, items))
  {
    hide PlainText, OneLine, Write, AddMissing, Missing, ItemOk, Item.Line;
    RewriteInStep(lines, items);
    RewrittenLines(lines, items);
    var w := Write(lines, items);
    forall i | 0 <= i < |w.out|
      ensures OneLine(w.out[i])
    {
      if w.out[i] != lines[i] {
        var k :| 0 <= k < |items| && w.out[i] == items[k].Line();
        ItemLine(items[k]);
      }
    }
    MissingOk(items, w.applied);
    MissingMembers(items, w.applied);
    RewriteKeepsHeaders(lines, items, Missing(items, w.applied));
    AddedOneLine(w.out, Missing(items, w.applied));
  }

  lemma {:induction false} JoinedIsSplit(lines: seq<string>)
    requires AllOneLine(lines)
    ensures SplitLines(JoinLines(lines)) == if lines == [] then [""] else lines
  {
    if lines == [] {
      assert AllOneLine([""]);
      SplitOfUnlines([""]);
      assert Unlines([""]) == "\n" by { assert [""][1..] == []; }
    } else {
      SplitOfUnlines(lines);
    }
  }

  lemma {:induction false} BlankTextIsEmpty(items: seq<Item>)
    ensures Read([""]) == START && Write([""], items) == Writer(None, {}, [""])
  {
    assert [""][..0] == [];
    assert Before("", '#') == "" && RStrip("") == "" && Strip("") == "";
  }

  /** What is read for an updated pair after the merge. */
  function ReadAfter(lines: seq<string>, items: seq<Item>, p: Pair): string
    requires Find(items, p).Some?
  {
    var values := Read(lines).doc.values;
    if p !in values then Latest(items)[p]
    else if p in SetTwice(lines) then values[p]
    else Wanted(items)[p]
  }

  /** Every updated key the text sets is left with its last update's value. */
  ghost predicate Agrees(lines: seq<string>, items: seq<Item>) {
    forall p :: p in Read(lines).doc.values && Find(items, p).Some? ==> ReadAfter(lines, items, p) == Latest(items)[p]
  }

  /** The value of each updated pair after the merge, and of every other. */
  lemma {:induction false} ValueAfterMerge(lines: seq<string>, items: seq<Item>, p: Pair)
    requires Lawful(lines, items)
    ensures var before, after := Read(lines).doc.values, Read(Merge(lines, items)).doc.values;
            && (p in after <==> p in before || Find(items, p).Some?)
            && (p in after ==> after[p] == if Find(items, p).Some? then ReadAfter(lines, items, p) else before[p])
  {
    hide Read, Merge, Lawful, Wanted, Latest, SetTwice, Sections, Find;
    MergedLinesAreRead(lines, items);
  }

  /** Put-get holds exactly when every updated key the text sets is left with its last update's value. */
  lemma {:induction false} MergeIsPutExactly(lines: seq<string>, items: seq<Item>)
    requires Lawful(lines, items)
    ensures Read(Merge(lines, items)).doc == Put(Read(lines).doc, items) <==> Agrees(lines, items)
  {
    hide Read, Merge, Lawful, Latest, SetTwice, ReadAfter, Sections, Find, Changes;
    var before, merged := Read(lines).doc, Read(Merge(lines, items)).doc;
    MergedLinesAreRead(lines, items);
    forall p
      ensures p in merged.values <==> p in before.values || Find(items, p).Some?
      ensures p in merged.values ==>
        merged.values[p] == if Find(items, p).Some? then ReadAfter(lines, items, p) else before.values[p]
    {
      ValueAfterMerge(lines, items, p);
    }
    forall p | Find(items, p).Some? && p !in before.values ensures ReadAfter(lines, items, p) == Latest(items)[p] {
      NewPairIsLatest(lines, items, p);
    }
    if Agrees(lines, items) {
      assert merged.values == before.values + Latest(items);
    }
  }

  lemma {:induction false} NewPairIsLatest(lines: seq<string>, items: seq<Item>, p: Pair)
    requires Find(items, p).Some? && p !in Read(lines).doc.values
    ensures ReadAfter(lines, items, p) == Latest(items)[p]
  {
  }

  /**
   What a repeated key does: the merge rewrites its first line and the reader still finds the old
   value of its last.
   */
  lemma {:induction false} RepeatedKeyKeepsOldValue(lines: seq<string>, items: seq<Item>, p: Pair)
    requires Lawful(lines, items) && p in SetTwice(lines)
    ensures var before, after := Read(lines).doc.values, Read(Merge(lines, items)).doc.values;
            p in before && p in after && after[p] == before[p]
  {
    hide Read, Merge, Lawful, Wanted, Latest, SetTwice, Sections;
    MergedLinesAreRead(lines, items);
  }

  lemma {:induction false} MergedTextIsRead(text: string, items: seq<Item>)
    requires Lawful(SplitLines(text), items)
    ensures ReadText(MergeText(text, items)) == Read(Merge(SplitLines(text), items)).doc
  {
    hide Read, Merge, SplitLines, JoinLines, Lawful;
    var lines := SplitLines(text);
    SplitGivesLines(text);
    MergedOneLine(lines, items);
    JoinedIsSplit(Merge(lines, items));
    if Merge(lines, items) == [] {
      BlankTextIsEmpty(items);
      ReadNothing();
    }
  }

  /**
   Put-get on texts: the merged file reads as the old document with exactly the updated keys changed,
   if and only if every updated key the old file sets is left with its last update's value.
   */
  lemma {:induction false} PutGet(text: string, items: seq<Item>)
    requires Lawful(SplitLines(text), items)
    ensures ReadText(MergeText(text, items)) == Put(ReadText(text), items) <==> Agrees(SplitLines(text), items)
  {
    hide Read, Merge, SplitLines, Put, Lawful, Agrees, MergeText;
    MergedTextIsRead(text, items);
    MergeIsPutExactly(SplitLines(text), items);
  }

  lemma {:induction false} ReadNothing()
    ensures Read([]) == START
  {
  }

  /** Put-put on texts: merging the same updates again leaves the file as it is. */
  lemma {:induction false} PutPut(text: string, items: seq<Item>)
    requires Lawful(SplitLines(text), items)
    ensures MergeText(MergeText(text, items), items) == MergeText(text, items)
  {
    hide Read, Write, Merge, SplitLines, Lawful, AllOneLine;
    var lines := SplitLines(text);
    SplitGivesLines(text);
    MergedOneLine(lines, items);
    MergeTwiceIsMergeOnce(lines, items);
    JoinedIsSplit(Merge(lines, items));
    if Merge(lines, items) == [] {
      MergeOfBlank(items);
    }
  }

  lemma {:induction false} MergeOfBlank(items: seq<Item>)
    requires Merge([], items) == []
    ensures JoinLines(Merge([""], items)) == JoinLines([])
  {
    BlankTextIsEmpty(items);
    if items == [] {
      assert JoinLines([""]) == "\n" by { assert [""][1..] == []; }
    } else {
      MissingMembers(items, {});
      assert items[0] in Missing(items, {});
      AddsSomething([], Missing(items, {}));
    }
  }

  lemma {:induction false} AddsSomething(out: seq<string>, missing: seq<Item>)
    requires missing != []
    ensures AddMissing(out, missing) != []
  {
    hide OfSection, NotOfSection, LinesOf, Survives;
    var section := missing[0].section;
    var items, rest := OfSection(missing, section), NotOfSection(missing[1..], section);
    var next := AddSection(out, section, items);
    if HasHeader(out, section) {
      assert out != [] && |InsertUnder(out, section, items)| > 0;
    }
    SurvivesAdding(next, rest);
    SurvivorsAreFewer(next, AddMissing(next, rest));
  }

  lemma {:induction false} SurvivorsAreFewer(a: seq<string>, b: seq<string>)
    requires Survives(a, b)
    ensures |a| <= |b|
    decreases |b|
  {
    if a == [] {
    } else {
      if a[|a| - 1] == b[|b| - 1] && Survives(a[..|a| - 1], b[..|b| - 1]) {
        SurvivorsAreFewer(a[..|a| - 1], b[..|b| - 1]);
      } else {
        SurvivorsAreFewer(a, b[..|b| - 1]);
      }
    }
  }

  // ── Values, and what lies outside the laws ──

  /** A text value free of `#` and line breaks is written as an admissible scalar. */
  lemma {:induction false} ScalarIsAdmissible(s: string)
    requires '#' !in s && OneLine(s)
    ensures var t := Scalar(Str(s));
            t != "" && Trimmed(t) && '#' !in t && OneLine(t) && !EndsInColon(t)
  {
    var t := Scalar(Str(s));
    if NeedsQuotes(s) {
      assert t[0] == '\'' && t[|t| - 1] == '\'';
      forall i | 0 <= i < |t|
        ensures t[i] != '#' && !IsBreak(t[i])
      {
        if 0 < i < |t| - 1 {
          assert t[i] == s[i - 1] && s[i - 1] in s;
        }
      }
    } else {
      StripIsTrimmed(s);
      assert s[|s| - 1] in s;
    }
  }

  /** It reads back as itself, except exactly when it needs no quotes and brings its own. */
  lemma {:induction false} ScalarRoundTrip(s: string)
    ensures Unquote(Scalar(Str(s))) == s <==> NeedsQuotes(s) || !Enclosed(s)
  {
    var t := Scalar(Str(s));
    if NeedsQuotes(s) {
      assert t[0] == '\'' && t[|t| - 1] == '\'' && t[1..|t| - 1] == s;
    } else if Enclosed(s) {
      assert |Unquote(s)| == |s| - 2;
    }
  }
}
