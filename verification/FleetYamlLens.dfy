/**
 Merging updates into config.yml is a lens: reading the merged text gives the
 old document with exactly the updated keys changed, all other lines survive in
 order, and merging the same updates again changes nothing.
 */
module FleetYamlLens {
  import opened Common
  import opened Text
  import opened FleetYaml
  import opened FleetYamlLines

  // ── The texts and updates the law is about ──

  ghost predicate PlainText(lines: seq<string>) {
    forall i :: 0 <= i < |lines| ==> Plain(lines[i])
  }

  ghost predicate ItemOk(it: Item) {
    && it.section != "" && Trimmed(it.section) && '#' !in it.section && OneLine(it.section) && it.section != "cameras"
    && Trimmed(it.key) && ':' !in it.key && '#' !in it.key && OneLine(it.key)
    && it.text != "" && Trimmed(it.text) && '#' !in it.text && OneLine(it.text) && !EndsInColon(it.text)
  }

  ghost predicate ItemsOk(items: seq<Item>) { forall i :: 0 <= i < |items| ==> ItemOk(items[i]) }

  /** A line that looks like the header of an updated section is one. */
  ghost predicate HeadersAtColumnZero(lines: seq<string>, items: seq<Item>) {
    forall i, j :: 0 <= i < |lines| && 0 <= j < |items| && Strip(lines[i]) == items[j].section + ":" ==>
      Indent(lines[i]) == 0
  }

  /** The pair a line sets for the reader, if it sets one. */
  function SetBy(r: Reader, raw: string): Option<Pair> {
    if IsHeader(raw) || r.section == Some("cameras") then None else EntryPair(r.section, Uncommented(raw))
  }

  /** The pair a line sets again. */
  function SetAgain(r: Reader, raw: string): set<Pair> {
    var p := SetBy(r, raw);
    if p.Some? && p.value in r.doc.values then {p.value} else {}
  }

  /** The pairs a text sets more than once. */
  function SetTwice(lines: seq<string>): set<Pair> {
    if lines == [] then {}
    else SetTwice(lines[..|lines| - 1]) + SetAgain(Read(lines[..|lines| - 1]), lines[|lines| - 1])
  }

  // ── Single lines ──

  /** How the reader takes a line on whose headers the merge agrees. */
  function ReadPlain(r: Reader, raw: string): Reader {
    var stripped := Strip(Uncommented(raw));
    if IsHeader(raw) then EnterSection(r, HeaderName(raw))
    else if r.section == Some("cameras") && stripped != "" then ReadCamera(r, stripped)
    else if SetBy(r, raw).Some? then SetEntry(r, KeyOf(stripped), ValueOf(stripped))
    else r
  }

  lemma {:induction false} PlainLineIsRead(r: Reader, raw: string)
    requires Plain(raw)
    ensures ReadLine(r, raw) == ReadPlain(r, raw)
  {
    hide ReadCamera, Uncommented, HeaderName, KeyOf, ValueOf;
    if Strip(Uncommented(raw)) == "" {
      assert ':' !in Strip(Uncommented(raw)) && !IsHeader(Uncommented(raw));
    }
  }

  /** What follows the indentation of an item's line. */
  function Content(it: Item): string { it.key + ": " + it.text }

  lemma {:induction false} ContentShape(it: Item)
    requires ItemOk(it)
    ensures it.Line() == Spaces(2) + Content(it)
    ensures Content(it) != "" && Trimmed(Content(it)) && !EndsInColon(Content(it))
    ensures Content(it)[0] != ' ' && ':' in Content(it)
  {
    var content := Content(it);
    assert Spaces(2) == "  ";
    assert content[|content| - 1] == it.text[|it.text| - 1];
    assert content[|it.key|] == ':';
  }

  lemma {:induction false} ContentParts(it: Item)
    requires ItemOk(it)
    ensures KeyOf(Content(it)) == it.key && ValueOf(Content(it)) == Unquote(it.text)
  {
    hide Unquote;
    assert Content(it) == it.key + [':'] + (" " + it.text);
    SplitAt(it.key, ':', " " + it.text);
    StripOfTrimmed(it.key);
    StripOfIndented(1, it.text);
    assert Spaces(1) == " ";
  }

  lemma {:induction false} ContentCharacters(it: Item)
    requires ItemOk(it)
    ensures '#' !in it.Line() && OneLine(it.Line())
  {
    var line := it.Line();
    forall i | 0 <= i < |line|
      ensures line[i] != '#' && !IsBreak(line[i])
    {
      if 2 <= i < 2 + |it.key| {
        assert line[i] == it.key[i - 2] && it.key[i - 2] in it.key;
      } else if i >= 4 + |it.key| {
        assert line[i] == it.text[i - 4 - |it.key|] && it.text[i - 4 - |it.key|] in it.text;
      }
    }
  }

  lemma {:induction false} ItemLine(it: Item)
    requires ItemOk(it)
    ensures var line := it.Line();
            && Plain(line) && Uncommented(line) == line && OneLine(line) && !IsHeader(line) && Indent(line) == 2
            && Strip(line) == Content(it) && ':' in Content(it) && !EndsInColon(Content(it))
            && KeyOf(Content(it)) == it.key && ValueOf(Content(it)) == Unquote(it.text)
  {
    hide Strip, Indent, KeyOf, ValueOf, Unquote, Trimmed, EndsInColon, OneLine;
    ContentShape(it);
    ContentParts(it);
    ContentCharacters(it);
    StripOfIndented(2, Content(it));
    IndentOfIndented(2, Content(it));
    BeforeAbsent(it.Line(), '#');
    PlainWithoutComment(it.Line());
  }

  lemma {:induction false} HeaderLine(section: string)
    requires section != "" && Trimmed(section) && '#' !in section && OneLine(section)
    ensures var line := section + ":";
            Plain(line) && IsHeader(line) && HeaderName(line) == section && OneLine(line) && Strip(line) == line
  {
    var line := section + ":";
    assert line[0] == section[0];
    StripOfTrimmed(line);
    assert line[..|line| - 1] == section;
    StripOfTrimmed(section);
    PlainWithoutComment(line);
  }

  lemma {:induction false} ItemLineIsRead(r: Reader, it: Item)
    requires ItemOk(it) && r.section == Some(it.section)
    ensures ReadLine(r, it.Line()) == SetEntry(r, it.key, Unquote(it.text))
    ensures EntryPair(r.section, it.Line()) == Some(it.Pair())
  {
    ItemLine(it);
    PlainLineIsRead(r, it.Line());
  }

  // ── Updates as a map ──

  function Pairs(items: seq<Item>): set<Pair> { set it | it in items :: it.Pair() }

  lemma {:induction false} FindMember(items: seq<Item>, p: Pair)
    ensures p in Pairs(items) <==> Find(items, p).Some?
    ensures Find(items, p).Some? ==> Find(items, p).value in items && Find(items, p).value.Pair() == p
  {
    if items == [] {
    } else {
      FindMember(items[1..], p);
      assert items == [items[0]] + items[1..];
    }
  }

  /** The values the updates ask for. */
  function Wanted(items: seq<Item>): (m: map<Pair, string>)
    ensures forall p :: p in m <==> Find(items, p).Some?
    ensures forall p :: p in m ==> m[p] == Unquote(Find(items, p).value.text)
  {
    assert forall p :: p in Pairs(items) <==> Find(items, p).Some? by {
      forall p ensures p in Pairs(items) <==> Find(items, p).Some? { FindMember(items, p); }
    }
    map p | p in Pairs(items) :: Unquote(Find(items, p).value.text)
  }

  /** The values the updates ask for, the last one for each pair. */
  function Latest(items: seq<Item>): (m: map<Pair, string>)
    ensures forall p :: p in m <==> Find(items, p).Some?
  {
    if items == [] then map[] else map[items[0].Pair() := Unquote(items[0].text)] + Latest(items[1..])
  }

  function Overlaid(values: map<Pair, string>, m: map<Pair, string>): map<Pair, string> {
    map p | p in values :: if p in m then m[p] else values[p]
  }

  // ── Rewriting in place ──

  /**
   The writer, the reader of the old lines and the reader of the new lines keep
   step: the new value of an updated pair is read, unless the pair is set twice.
   */
  ghost predicate InStep(w: Writer, r: Reader, r1: Reader, items: seq<Item>, twice: set<Pair>) {
    && w.section == r.section == r1.section
    && (forall p :: p in w.applied <==> p in r.doc.values && Find(items, p).Some?)
    && twice <= r.doc.values.Keys
    && r1.doc == r.doc.(values := Overlaid(r.doc.values, Wanted(items) - twice))
  }

  /** Reading the same line on both sides: the pair it sets is overlaid no longer. */
  lemma {:induction false} ReadBoth(r: Reader, r1: Reader, raw: string, m: map<Pair, string>, m': map<Pair, string>)
    requires r.section == r1.section && r1.doc == r.doc.(values := Overlaid(r.doc.values, m))
    requires m' == if SetBy(r, raw).Some? then m - {SetBy(r, raw).value} else m
    ensures var s, s1 := ReadPlain(r, raw), ReadPlain(r1, raw);
            s.section == s1.section && s1.doc == s.doc.(values := Overlaid(s.doc.values, m'))
  {
    hide ValueOf, Strip, HeaderName, IsHeader, Uncommented;
    var p := SetBy(r, raw);
    if p.Some? {
      var v := ValueOf(Strip(Uncommented(raw)));
      assert Overlaid(r.doc.values[p.value := v], m') == Overlaid(r.doc.values, m)[p.value := v];
    }
  }

  /** Which pairs a line adds. */
  lemma {:induction false} ReadAdds(r: Reader, raw: string)
    ensures ReadPlain(r, raw).doc.values.Keys ==
            r.doc.values.Keys + if SetBy(r, raw).Some? then {SetBy(r, raw).value} else {}
    ensures ReadPlain(r, raw).section == if IsHeader(raw) then Some(HeaderName(raw)) else r.section
  {
    hide ValueOf, Strip, HeaderName, IsHeader, Uncommented;
  }

  lemma {:induction false} FoundIsOk(items: seq<Item>, p: Pair)
    requires ItemsOk(items) && Find(items, p).Some?
    ensures ItemOk(Find(items, p).value) && Find(items, p).value.Pair() == p
  {
    hide ItemOk;
    FindMember(items, p);
    var it := Find(items, p).value;
    var i :| 0 <= i < |items| && items[i] == it;
  }

  lemma {:induction false} PairOfEntry(section: Option<string>, raw: string)
    requires EntryPair(section, raw).Some?
    ensures section == Some(EntryPair(section, raw).value.0)
  {
  }

  /** An updated pair is set for the reader exactly by the lines that set it for the merge. */
  lemma {:induction false} SameEntry(r: Reader, raw: string, items: seq<Item>)
    requires ItemsOk(items) && !IsHeader(raw)
    ensures var p, q := EntryPair(r.section, raw), SetBy(r, raw);
            (q.Some? ==> p == q) && (p.Some? && Find(items, p.value).Some? ==> q == p)
  {
    hide EntryPair, Find, IsHeader, Uncommented, ItemsOk;
    UncommentedEntry(r.section, raw);
    var p := EntryPair(r.section, raw);
    if p.Some? && Find(items, p.value).Some? {
      FoundIsOk(items, p.value);
      PairOfEntry(r.section, raw);
    }
  }

  lemma {:induction false} RewriteStep(w: Writer, r: Reader, r1: Reader, raw: string, items: seq<Item>,
                                       twice: set<Pair>)
    requires InStep(w, r, r1, items, twice) && Plain(raw) && ItemsOk(items)
    ensures var w' := WriteLine(w, raw, items);
            && |w'.out| == |w.out| + 1 && w'.out[..|w.out|] == w.out && Plain(w'.out[|w.out|])
            && InStep(w', ReadLine(r, raw), ReadLine(r1, w'.out[|w.out|]), items, twice + SetAgain(r, raw))
  {
    hide ReadLine, ReadPlain, Find, KeyOf, ValueOf, Strip, IsHeader, HeaderName, Plain, Unquote, Overlaid, ItemsOk,
         Wanted, EntryPair, Uncommented;
    PlainLineIsRead(r, raw);
    ReadAdds(r, raw);
    var p := EntryPair(r.section, raw);
    if !IsHeader(raw) && p.Some? && Find(items, p.value).Some? && p.value !in r.doc.values {
      ReplaceStep(w, r, r1, raw, items, twice);
    } else {
      if !IsHeader(raw) { SameEntry(r, raw, items); }
      PlainLineIsRead(r1, raw);
      KeptLine(r, raw, items, twice);
      ReadBoth(r, r1, raw, Wanted(items) - twice, Wanted(items) - (twice + SetAgain(r, raw)));
    }
  }

  /** A line that is kept sets a pair that is not updated, or sets it again. */
  lemma {:induction false} KeptLine(r: Reader, raw: string, items: seq<Item>, twice: set<Pair>)
    requires SetBy(r, raw).Some? ==> SetBy(r, raw).value in r.doc.values || Find(items, SetBy(r, raw).value).None?
    ensures Wanted(items) - (twice + SetAgain(r, raw)) ==
            if SetBy(r, raw).Some? then (Wanted(items) - twice) - {SetBy(r, raw).value} else Wanted(items) - twice
  {
    hide SetBy, Find;
  }

  lemma {:induction false} ReplaceStep(w: Writer, r: Reader, r1: Reader, raw: string, items: seq<Item>,
                                       twice: set<Pair>)
    requires InStep(w, r, r1, items, twice) && Plain(raw) && ItemsOk(items) && !IsHeader(raw)
    requires var p := EntryPair(r.section, raw);
             p.Some? && Find(items, p.value).Some? && p.value !in r.doc.values
    ensures var w' := WriteLine(w, raw, items);
            && |w'.out| == |w.out| + 1 && w'.out[..|w.out|] == w.out && Plain(w'.out[|w.out|])
            && InStep(w', ReadLine(r, raw), ReadLine(r1, w'.out[|w.out|]), items, twice + SetAgain(r, raw))
  {
    hide ReadLine, Find, ValueOf, Strip, IsHeader, HeaderName, Plain, Unquote, ItemsOk, ReadCamera, Uncommented;
    var p, values, wanted := EntryPair(r.section, raw).value, r.doc.values, Wanted(items) - twice;
    FoundIsOk(items, p);
    SameEntry(r, raw, items);
    var it := Find(items, p).value;
    ItemLine(it);
    ItemLineIsRead(r1, it);
    PlainLineIsRead(r, raw);
    assert twice + SetAgain(r, raw) == twice;
    var v := ValueOf(Strip(Uncommented(raw)));
    assert ReadLine(r, raw) == SetEntry(r, p.1, v);
    assert Overlaid(values[p := v], wanted) == Overlaid(values, wanted)[p := wanted[p]];
  }

  lemma {:induction false} RewriteInStep(lines: seq<string>, items: seq<Item>)
    requires PlainText(lines) && ItemsOk(items)
    ensures InStep(Write(lines, items), Read(lines), Read(Write(lines, items).out), items, SetTwice(lines))
    ensures PlainText(Write(lines, items).out) && |Write(lines, items).out| == |lines|
    decreases |lines|
  {
    hide ReadLine, WriteLine, Wanted, Plain, IsHeader, EntryPair, Find, SetAgain;
    if lines == [] {
      assert Overlaid(map[], Wanted(items) - {}) == map[];
    } else {
      var before, raw := lines[..|lines| - 1], lines[|lines| - 1];
      RewriteInStep(before, items);
      var w := Write(before, items);
      RewriteStep(w, Read(before), Read(w.out), raw, items, SetTwice(before));
      var out := Write(lines, items).out;
      assert out[..|out| - 1] == w.out;
    }
  }

  // ── Adding what was missing ──

  function ReadFrom(r: Reader, lines: seq<string>): Reader
    decreases |lines|
  {
    if lines == [] then r else ReadFrom(ReadLine(r, lines[0]), lines[1..])
  }

  lemma {:induction false} ReadAppend(a: seq<string>, b: seq<string>)
    ensures Read(a + b) == ReadFrom(Read(a), b)
    decreases |b|
  {
    hide ReadLine;
    if b == [] {
      assert a + b == a;
    } else {
      assert a + b == (a + [b[0]]) + b[1..];
      ReadAppend(a + [b[0]], b[1..]);
      assert (a + [b[0]])[..|a|] == a;
    }
  }

  /** The lines of a section's items, read inside that section, set exactly the wanted values. */
  lemma {:induction false} ItemsAreRead(r: Reader, items: seq<Item>, section: string)
    requires ItemsOk(items) && r.section == Some(section)
    requires forall i :: 0 <= i < |items| ==> items[i].section == section
    ensures ReadFrom(r, LinesOf(items)) == r.(doc := r.doc.(values := r.doc.values + Latest(items)))
    decreases |items|
  {
    hide ReadLine, ItemOk, Unquote, Latest, EntryPair, Item.Line;
    if items == [] {
      assert r.doc.values + Latest(items) == r.doc.values;
    } else {
      var it, rest := items[0], items[1..];
      ItemAt(items, 0);
      ItemLineIsRead(r, it);
      var r' := ReadLine(r, it.Line());
      ItemsAreRead(r', rest, section);
      assert LinesOf(items)[0] == it.Line() && LinesOf(items)[1..] == LinesOf(rest);
      LatestCons(r.doc.values, items);
    }
  }

  lemma {:induction false} ItemAt(items: seq<Item>, i: nat)
    requires ItemsOk(items) && i < |items|
    ensures ItemOk(items[i])
  {
  }

  lemma {:induction false} LatestCons(values: map<Pair, string>, items: seq<Item>)
    requires items != []
    ensures values[items[0].Pair() := Unquote(items[0].text)] + Latest(items[1..]) == values + Latest(items)
  {
    hide Unquote;
  }

  lemma {:induction false} ReadBothPlus(r: Reader, r1: Reader, raw: string, m: map<Pair, string>)
    requires r.section == r1.section && r1.doc == r.doc.(values := r.doc.values + m)
    requires SetBy(r, raw).Some? ==> SetBy(r, raw).value !in m
    ensures var s, s1 := ReadPlain(r, raw), ReadPlain(r1, raw);
            s.section == s1.section && s1.doc == s.doc.(values := s.doc.values + m)
  {
    hide ValueOf, Strip, HeaderName, IsHeader, Uncommented;
    var p := SetBy(r, raw);
    if p.Some? {
      var v := ValueOf(Strip(Uncommented(raw)));
      assert p.value !in m ==> r.doc.values[p.value := v] + m == (r.doc.values + m)[p.value := v];
    }
  }

  /** The sections that may be updated. */
  ghost predicate SectionOk(section: string) {
    section != "" && Trimmed(section) && '#' !in section && OneLine(section) && section != "cameras"
  }

  /** The items all belong to one section. */
  ghost predicate ItemsOf(items: seq<Item>, section: string) {
    ItemsOk(items) && SectionOk(section) && forall i :: 0 <= i < |items| ==> items[i].section == section
  }

  ghost predicate HeaderAtColumnZero(lines: seq<string>, section: string) {
    forall i :: 0 <= i < |lines| && Strip(lines[i]) == section + ":" ==> Indent(lines[i]) == 0
  }

  lemma {:induction false} FoundHeader(raw: string, section: string)
    requires Plain(raw) && SectionOk(section) && Strip(raw) == section + ":" && Indent(raw) == 0
    ensures IsHeader(raw) && HeaderName(raw) == section
  {
    assert Strip(raw)[..|section|] == section;
    StripOfTrimmed(section);
  }

  lemma {:induction false} LinesAt(items: seq<Item>)
    ensures |LinesOf(items)| == |items|
    ensures forall i :: 0 <= i < |items| ==> LinesOf(items)[i] == items[i].Line()
  {
    hide Item.Line;
    if items == [] {
    } else {
      LinesAt(items[1..]);
    }
  }

  function Added(out: seq<string>, section: string, items: seq<Item>): map<Pair, string> {
    if HasHeader(out, section) then Latest(items) else map[]
  }

  /** Inserting items under every header of their section adds exactly the wanted values. */
  lemma {:induction false} InsertIsRead(out: seq<string>, section: string, items: seq<Item>)
    requires PlainText(out) && ItemsOf(items, section) && HeaderAtColumnZero(out, section)
    requires forall p :: p in Latest(items) ==> p !in Read(out).doc.values
    ensures var r, r2 := Read(out), Read(InsertUnder(out, section, items));
            && r2.section == r.section
            && r2.doc == r.doc.(values := r.doc.values + Added(out, section, items))
            && (HasHeader(out, section) ==> section in r.doc.sections)
    decreases |out|
  {
    hide ReadLine, ReadPlain, Plain, Strip, Indent, IsHeader, HeaderName, EntryPair, SectionOk, ItemsOk, Latest, Added,
         HasHeader;
    if out == [] {
      NoHeaderInNothing(section, items);
      assert Read(out).doc.values + Added(out, section, items) == Read(out).doc.values;
    } else {
      var before, raw := out[..|out| - 1], out[|out| - 1];
      var r := Read(before);
      PlainLineIsRead(r, raw);
      ReadAdds(r, raw);
      InsertIsRead(before, section, items);
      var ins := InsertUnder(before, section, items);
      var r2, m := Read(ins), Added(before, section, items);
      PlainLineIsRead(r2, raw);
      AddedIsLatest(before, section, items);
      ReadBothPlus(r, r2, raw, m);
      assert (ins + [raw])[..|ins|] == ins;
      assert before + [raw] == out;
      AddedSnoc(before, raw, section, items);
      SectionsGrow(r, raw);
      if Strip(raw) == section + ":" {
        InsertAtHeader(before, raw, section, items, Read(ins + [raw]));
        ReadAppend(ins + [raw], LinesOf(items));
      } else {
        assert InsertUnder(out, section, items) == ins + [raw];
      }
    }
  }

  lemma {:induction false} SectionsGrow(r: Reader, raw: string)
    ensures r.doc.sections <= ReadPlain(r, raw).doc.sections
    ensures IsHeader(raw) && HeaderName(raw) != "cameras" ==> HeaderName(raw) in ReadPlain(r, raw).doc.sections
  {
    hide Strip, Indent, IsHeader, HeaderName, KeyOf, ValueOf;
  }

  lemma {:induction false} NoHeaderInNothing(section: string, items: seq<Item>)
    ensures Added([], section, items) == map[] && !HasHeader([], section)
  {
  }

  lemma {:induction false} AddedIsLatest(out: seq<string>, section: string, items: seq<Item>)
    ensures forall p :: p in Added(out, section, items) ==> p in Latest(items)
  {
  }

  lemma {:induction false} AddedSnoc(before: seq<string>, raw: string, section: string, items: seq<Item>)
    ensures Added(before + [raw], section, items) ==
            if Strip(raw) == section + ":" then Latest(items) else Added(before, section, items)
    ensures HasHeader(before + [raw], section) <==> HasHeader(before, section) || Strip(raw) == section + ":"
  {
    hide HasHeader;
    HasHeaderSnoc(before, raw, section);
  }

  lemma {:induction false} HasHeaderSnoc(before: seq<string>, raw: string, section: string)
    ensures HasHeader(before + [raw], section) <==> HasHeader(before, section) || Strip(raw) == section + ":"
  {
    hide Strip;
    var out := before + [raw];
    if HasHeader(before, section) {
      var i :| 0 <= i < |before| && Strip(before[i]) == section + ":";
      assert out[i] == before[i];
    }
    if Strip(raw) == section + ":" {
      assert out[|before|] == raw;
    }
  }

  lemma {:induction false} InsertAtHeader(before: seq<string>, raw: string, section: string, items: seq<Item>,
                                          r2: Reader)
    requires Plain(raw) && ItemsOf(items, section) && Strip(raw) == section + ":" && Indent(raw) == 0
    requires var r := ReadPlain(Read(before), raw);
             r2.section == r.section && r2.doc == r.doc.(values := r.doc.values + Added(before, section, items))
    ensures var r, r3 := ReadPlain(Read(before), raw), ReadFrom(r2, LinesOf(items));
            && r3.section == r.section && r3.doc == r.doc.(values := r.doc.values + Latest(items))
            && r.section == Some(section) && section in r.doc.sections
  {
    hide ReadLine, Read, Plain, Strip, Indent, IsHeader, HeaderName, EntryPair, ItemsOk, Latest;
    FoundHeader(raw, section);
    ItemsAreRead(r2, items, section);
    var r, wanted := ReadPlain(Read(before), raw), Latest(items);
    assert r.doc.values + Added(before, section, items) + wanted == r.doc.values + wanted;
  }

  /** The lines of a text with a section added: old ones, items of the section, or its header. */
  ghost predicate FromSection(line: string, out: seq<string>, section: string, items: seq<Item>) {
    line in out || line == section + ":" || exists i :: 0 <= i < |items| && line == items[i].Line()
  }

  lemma {:induction false} InsertedLines(out: seq<string>, section: string, items: seq<Item>)
    ensures forall l :: l in InsertUnder(out, section, items) ==> FromSection(l, out, section, items)
    decreases |out|
  {
    hide Strip, Item.Line, LinesOf;
    if out == [] {
    } else {
      var before, raw := out[..|out| - 1], out[|out| - 1];
      InsertedLines(before, section, items);
      LinesAt(items);
      forall l | l in InsertUnder(out, section, items)
        ensures FromSection(l, out, section, items)
      {
        if l in InsertUnder(before, section, items) {
          assert FromSection(l, before, section, items);
        } else if l != raw {
          assert l in LinesOf(items);
        }
      }
    }
  }

  lemma {:induction false} AddedLines(out: seq<string>, section: string, items: seq<Item>)
    ensures forall l :: l in AddSection(out, section, items) ==> FromSection(l, out, section, items)
  {
    hide Strip, Item.Line, LinesOf, HasHeader;
    InsertedLines(out, section, items);
    LinesAt(items);
  }

  lemma {:induction false} NewLineIsPlain(line: string, out: seq<string>, section: string, items: seq<Item>)
    requires PlainText(out) && ItemsOf(items, section) && FromSection(line, out, section, items)
    ensures Plain(line)
    ensures OneLine(line) || line in out
    ensures line in out || line == section + ":" || !EndsInColon(Strip(line))
  {
    hide ItemOk, Strip, Item.Line, Plain, OneLine, EndsInColon;
    if line !in out {
      if line == section + ":" {
        HeaderLine(section);
      } else {
        var i :| 0 <= i < |items| && line == items[i].Line();
        ItemLine(items[i]);
      }
    }
  }

  /** Adding the missing items of one section. */
  lemma {:induction false} SectionIsAdded(out: seq<string>, section: string, items: seq<Item>)
    requires PlainText(out) && ItemsOf(items, section) && HeaderAtColumnZero(out, section)
    requires forall p :: p in Latest(items) ==> p !in Read(out).doc.values
    ensures Read(AddSection(out, section, items)).doc == Grown(Read(out).doc, {section}, Latest(items))
  {
    hide ReadLine, Read, Plain, Strip, Indent, ItemsOk, Latest, HasHeader, LinesOf, InsertUnder;
    var doc := Read(out).doc;
    if HasHeader(out, section) {
      InsertIsRead(out, section, items);
      assert doc.sections + {section} == doc.sections;
    } else {
      SectionIsAppended(out, section, items);
    }
  }

  lemma {:induction false} SectionIsAppended(out: seq<string>, section: string, items: seq<Item>)
    requires ItemsOf(items, section)
    ensures Read(out + [section + ":"] + LinesOf(items)).doc == Grown(Read(out).doc, {section}, Latest(items))
  {
    hide ReadLine, Plain, Strip, Indent, ItemsOk, Latest, LinesOf, IsHeader, HeaderName;
    var header := section + ":";
    HeaderLine(section);
    PlainLineIsRead(Read(out), header);
    assert (out + [header])[..|out|] == out;
    ReadAppend(out + [header], LinesOf(items));
    ItemsAreRead(Read(out + [header]), items, section);
  }

  // ── Splitting the missing items by section ──

  lemma {:induction false} FindOfSection(items: seq<Item>, section: string, p: Pair)
    ensures Find(OfSection(items, section), p) == if p.0 == section then Find(items, p) else None
    ensures Find(NotOfSection(items, section), p) == if p.0 == section then None else Find(items, p)
  {
    if items == [] {
    } else {
      FindOfSection(items[1..], section, p);
      var of, notOf := OfSection(items[1..], section), NotOfSection(items[1..], section);
      assert ([items[0]] + of)[1..] == of && ([items[0]] + notOf)[1..] == notOf;
      assert [] + of == of && [] + notOf == notOf;
    }
  }

  lemma {:induction false} OfSectionMembers(items: seq<Item>, section: string)
    ensures forall it :: it in OfSection(items, section) ==> it in items && it.section == section
    ensures forall it :: it in NotOfSection(items, section) ==> it in items && it.section != section
  {
    if items == [] {
    } else {
      OfSectionMembers(items[1..], section);
      assert items == [items[0]] + items[1..];
    }
  }

  lemma {:induction false} OfSectionOk(items: seq<Item>, section: string)
    requires ItemsOk(items)
    ensures ItemsOk(OfSection(items, section)) && ItemsOk(NotOfSection(items, section))
  {
    hide ItemOk;
    OfSectionMembers(items, section);
    forall i | 0 <= i < |OfSection(items, section)| ensures ItemOk(OfSection(items, section)[i]) {
      assert OfSection(items, section)[i] in items;
    }
    forall i | 0 <= i < |NotOfSection(items, section)| ensures ItemOk(NotOfSection(items, section)[i]) {
      assert NotOfSection(items, section)[i] in items;
    }
  }

  function Sections(items: seq<Item>): set<string> { set it | it in items :: it.section }

  lemma {:induction false} LatestOfCons(it: Item, rest: seq<Item>)
    ensures Latest([it] + rest) == map[it.Pair() := Unquote(it.text)] + Latest(rest)
  {
    assert ([it] + rest)[1..] == rest;
  }

  lemma {:induction false} NoneLatest()
    ensures Latest([]) == map[]
  {
  }

  lemma {:induction false} PutBefore(p: Pair, v: string, of: map<Pair, string>, notOf: map<Pair, string>)
    ensures map[p := v] + (of + notOf) == map[p := v] + of + notOf
    ensures p !in of ==> map[p := v] + (of + notOf) == of + (map[p := v] + notOf)
  {
  }

  lemma {:induction false} LatestBySection(items: seq<Item>, section: string)
    ensures Latest(items) == Latest(OfSection(items, section)) + Latest(NotOfSection(items, section))
  {
    hide Latest, Find, Unquote;
    if items == [] {
      NoneLatest();
    } else {
      var it, of, notOf := items[0], OfSection(items[1..], section), NotOfSection(items[1..], section);
      assert items == [it] + items[1..] && [] + of == of && [] + notOf == notOf;
      LatestBySection(items[1..], section);
      LatestOfCons(it, items[1..]);
      LatestOfCons(it, of);
      LatestOfCons(it, notOf);
      FindOfSection(items[1..], section, it.Pair());
      PutBefore(it.Pair(), Unquote(it.text), Latest(of), Latest(notOf));
    }
  }

  lemma {:induction false} SectionsBySection(items: seq<Item>, section: string)
    requires exists it :: it in items && it.section == section
    ensures Sections(items) == {section} + Sections(NotOfSection(items, section))
  {
    OfSectionMembers(items, section);
    forall it | it in items && it.section != section
      ensures it in NotOfSection(items, section)
    {
      NotOfSectionKeeps(items, section, it);
    }
  }

  lemma {:induction false} NotOfSectionKeeps(items: seq<Item>, section: string, it: Item)
    requires it in items && it.section != section
    ensures it in NotOfSection(items, section)
  {
    assert items == [items[0]] + items[1..];
    if it != items[0] {
      NotOfSectionKeeps(items[1..], section, it);
    }
  }

  lemma {:induction false} AddedTextStaysLawful(out: seq<string>, section: string, items: seq<Item>, rest: seq<Item>)
    requires PlainText(out) && ItemsOf(items, section) && HeadersAtColumnZero(out, rest)
    requires forall i :: 0 <= i < |rest| ==> rest[i].section != section
    ensures PlainText(AddSection(out, section, items)) && HeadersAtColumnZero(AddSection(out, section, items), rest)
  {
    hide Plain, Strip, Indent, ItemsOk, AddSection, FromSection, SectionOk;
    AddedLines(out, section, items);
    var out' := AddSection(out, section, items);
    forall i | 0 <= i < |out'|
      ensures Plain(out'[i])
      ensures forall j :: 0 <= j < |rest| && Strip(out'[i]) == rest[j].section + ":" ==> Indent(out'[i]) == 0
    {
      var l := out'[i];
      assert l in out';
      NewLineIsPlain(l, out, section, items);
      if l in out {
        var k :| 0 <= k < |out| && out[k] == l;
      } else if l == section + ":" {
        HeaderLineAgain(section);
      }
    }
  }

  lemma {:induction false} HeaderLineAgain(section: string)
    requires SectionOk(section)
    ensures Indent(section + ":") == 0 && Strip(section + ":") == section + ":"
  {
    HeaderLine(section);
  }

  /** Adding all missing items, section by section. */
  lemma {:induction false} MissingIsAdded(out: seq<string>, missing: seq<Item>)
    requires PlainText(out) && ItemsOk(missing) && HeadersAtColumnZero(out, missing)
    requires forall p :: p in Latest(missing) ==> p !in Read(out).doc.values
    ensures Read(AddMissing(out, missing)).doc == Grown(Read(out).doc, Sections(missing), Latest(missing))
    decreases |missing|
  {
    hide ReadLine, Read, PlainText, ItemsOk, Latest, AddSection, OfSection, NotOfSection, Sections, Grown, ItemsOf;
    var doc := Read(out).doc;
    if missing == [] {
      NothingGrown(doc, missing);
    } else {
      var section := missing[0].section;
      var items, rest := OfSection(missing, section), NotOfSection(missing[1..], section);
      BySection(missing, section);
      HeadersOfPart(out, missing, rest, section);
      SectionIsAdded(out, section, items);
      AddedTextStaysLawful(out, section, items, rest);
      GrownTwice(doc, {section}, Latest(items), Sections(rest), Latest(rest));
      GrownKeys(doc, {section}, Latest(items));
      MissingIsAdded(AddSection(out, section, items), rest);
    }
  }

  function Grown(doc: Doc, sections: set<string>, values: map<Pair, string>): Doc {
    doc.(sections := doc.sections + sections, values := doc.values + values)
  }

  lemma {:induction false} NothingGrown(doc: Doc, items: seq<Item>)
    requires items == []
    ensures Grown(doc, Sections(items), Latest(items)) == doc
  {
    assert doc.values + Latest(items) == doc.values && doc.sections + Sections(items) == doc.sections;
  }

  lemma {:induction false} GrownTwice(doc: Doc, s: set<string>, m: map<Pair, string>,
                                      t: set<string>, n: map<Pair, string>)
    ensures Grown(Grown(doc, s, m), t, n) == Grown(doc, s + t, m + n)
  {
    assert doc.values + m + n == doc.values + (m + n);
  }

  lemma {:induction false} GrownKeys(doc: Doc, s: set<string>, m: map<Pair, string>)
    ensures forall p :: p in Grown(doc, s, m).values <==> p in doc.values || p in m
  {
  }

  lemma {:induction false} HeadersOfPart(out: seq<string>, missing: seq<Item>, rest: seq<Item>, section: string)
    requires missing != [] && section == missing[0].section && HeadersAtColumnZero(out, missing)
    requires forall i :: 0 <= i < |rest| ==> rest[i] in missing
    ensures HeaderAtColumnZero(out, section) && HeadersAtColumnZero(out, rest)
  {
    hide Strip, Indent;
    forall i, j | 0 <= i < |out| && 0 <= j < |rest| && Strip(out[i]) == rest[j].section + ":"
      ensures Indent(out[i]) == 0
    {
      var k :| 0 <= k < |missing| && missing[k] == rest[j];
    }
  }

  /** The first section of the missing items, and the others. */
  lemma {:induction false} BySection(missing: seq<Item>, section: string)
    requires ItemsOk(missing) && missing != [] && section == missing[0].section
    ensures var items, rest := OfSection(missing, section), NotOfSection(missing[1..], section);
            && ItemsOf(items, section) && ItemsOk(rest) && |rest| < |missing|
            && (forall i :: 0 <= i < |items| ==> items[i] in missing)
            && (forall i :: 0 <= i < |rest| ==> rest[i] in missing && rest[i].section != section)
            && Latest(missing) == Latest(items) + Latest(rest)
            && (forall p :: p in Latest(rest) ==> p !in Latest(items))
            && Sections(missing) == {section} + Sections(rest)
  {
    hide ItemOk, Latest, Sections, Find;
    var items, rest := OfSection(missing, section), NotOfSection(missing[1..], section);
    assert NotOfSection(missing, section) == rest;
    OfSectionOk(missing, section);
    OfSectionMembers(missing, section);
    LatestBySection(missing, section);
    assert missing[0] in missing;
    SectionsBySection(missing, section);
    ItemAt(missing, 0);
    assert SectionOk(section) by { SectionOfItem(missing[0]); }
    forall i | 0 <= i < |items| ensures items[i] in missing && items[i].section == section { assert items[i] in items; }
    forall i | 0 <= i < |rest| ensures rest[i] in missing && rest[i].section != section { assert rest[i] in rest; }
    forall p | p in Latest(rest)
      ensures p !in Latest(items)
    {
      FindOfSection(missing, section, p);
      LatestMeansFound(rest, p);
      LatestMeansFound(items, p);
    }
  }

  lemma {:induction false} SectionOfItem(it: Item)
    requires ItemOk(it)
    ensures SectionOk(it.section)
  {
  }

  lemma {:induction false} LatestMeansFound(items: seq<Item>, p: Pair)
    ensures p in Latest(items) <==> Find(items, p).Some?
  {
  }

  // ── The whole merge ──

  /** The texts and updates the lens law holds for. */
  ghost predicate Lawful(lines: seq<string>, items: seq<Item>) {
    PlainText(lines) && ItemsOk(items) && HeadersAtColumnZero(lines, items)
  }

  /** The document with the updates put into it, later ones over earlier ones. */
  function Put(doc: Doc, items: seq<Item>): Doc { Grown(doc, Sections(items), Latest(items)) }

  lemma {:induction false} FindMissing(items: seq<Item>, applied: set<Pair>, p: Pair)
    ensures Find(Missing(items, applied), p) == if p in applied then None else Find(items, p)
  {
    if items == [] {
    } else {
      FindMissing(items[1..], applied, p);
      var rest := Missing(items[1..], applied);
      assert ([items[0]] + rest)[1..] == rest && [] + rest == rest;
    }
  }

  lemma {:induction false} MissingMembers(items: seq<Item>, applied: set<Pair>)
    ensures forall it :: it in Missing(items, applied) <==> it in items && it.Pair() !in applied
  {
    if items == [] {
    } else {
      MissingMembers(items[1..], applied);
      assert items == [items[0]] + items[1..];
    }
  }

  lemma {:induction false} MissingOk(items: seq<Item>, applied: set<Pair>)
    requires ItemsOk(items)
    ensures ItemsOk(Missing(items, applied))
  {
    hide ItemOk;
    MissingMembers(items, applied);
    forall i | 0 <= i < |Missing(items, applied)| ensures ItemOk(Missing(items, applied)[i]) {
      assert Missing(items, applied)[i] in items;
    }
  }

  lemma {:induction false} LatestMissing(items: seq<Item>, applied: set<Pair>)
    ensures Latest(Missing(items, applied)) == Latest(items) - applied
  {
    hide Latest, Find, Unquote;
    if items == [] {
      NoneLatest();
    } else {
      var it, rest := items[0], Missing(items[1..], applied);
      LatestMissing(items[1..], applied);
      assert items == [it] + items[1..] && [] + rest == rest;
      LatestOfCons(it, items[1..]);
      LatestOfCons(it, rest);
      CutBefore(it.Pair(), Unquote(it.text), Latest(items[1..]), applied);
    }
  }

  lemma {:induction false} CutBefore(p: Pair, v: string, m: map<Pair, string>, applied: set<Pair>)
    ensures (map[p := v] + m) - applied == (if p in applied then map[] else map[p := v]) + (m - applied)
  {
  }

  /**
   The value the merge gives each updated pair: the first one asked for where the text sets the pair,
   the last one where it does not.
   */
  function Effective(known: set<Pair>, items: seq<Item>): (m: map<Pair, string>)
    ensures forall p :: p in m <==> Find(items, p).Some?
  {
    map p | p in Latest(items) :: if p in known then Wanted(items)[p] else Latest(items)[p]
  }

  /** Rewriting changes a line only into the line of an update for the key it sets. */
  lemma {:induction false} RewrittenLines(lines: seq<string>, items: seq<Item>)
    ensures var out := Write(lines, items).out;
            && |out| == |lines|
            && forall i :: 0 <= i < |lines| ==>
              out[i] == lines[i] || exists k :: 0 <= k < |items| && out[i] == items[k].Line()
    decreases |lines|
  {
    hide Find, Item.Line, IsHeader, HeaderName, EntryPair;
    if lines == [] {
    } else {
      var before, raw := lines[..|lines| - 1], lines[|lines| - 1];
      RewrittenLines(before, items);
      var w := Write(before, items);
      var p := EntryPair(w.section, raw);
      if p.Some? {
        FindMember(items, p.value);
      }
    }
  }

  lemma {:induction false} RewriteKeepsHeaders(lines: seq<string>, items: seq<Item>, missing: seq<Item>)
    requires ItemsOk(items) && HeadersAtColumnZero(lines, items) && (forall it :: it in missing ==> it in items)
    ensures HeadersAtColumnZero(Write(lines, items).out, missing)
  {
    hide ItemOk, Item.Line, Strip, Indent, Write, EndsInColon;
    RewrittenLines(lines, items);
    var out := Write(lines, items).out;
    forall i, j | 0 <= i < |out| && 0 <= j < |missing| && Strip(out[i]) == missing[j].section + ":"
      ensures Indent(out[i]) == 0
    {
      assert missing[j] in missing;
      var k :| 0 <= k < |items| && items[k] == missing[j];
      ColonAtEnd(missing[j].section);
      if out[i] != lines[i] {
        var n :| 0 <= n < |items| && out[i] == items[n].Line();
        ItemLine(items[n]);
      }
    }
  }

  lemma {:induction false} ColonAtEnd(s: string)
    ensures EndsInColon(s + ":")
  {
  }

  /** Every value belongs to a known section. */
  lemma {:induction false} SectionsAreKnown(lines: seq<string>)
    ensures var r := Read(lines);
            && (r.section.Some? && r.section.value != "cameras" ==> r.section.value in r.doc.sections)
            && forall p :: p in r.doc.values ==> p.0 in r.doc.sections
    decreases |lines|
  {
    hide Uncommented, Strip, IsHeader, HeaderName, KeyOf, ValueOf;
    if lines == [] {
    } else {
      SectionsAreKnown(lines[..|lines| - 1]);
    }
  }

  /** What the merge sets to a new value: every updated pair the text does not set twice. */
  function Changes(lines: seq<string>, items: seq<Item>): map<Pair, string> {
    Effective(Read(lines).doc.values.Keys, items) - SetTwice(lines)
  }

  /**
   Put, then get: reading the merged lines gives the old document with exactly
   the updated keys changed or added, except those the old text sets twice.
   */
  lemma {:induction false} MergedLinesAreRead(lines: seq<string>, items: seq<Item>)
    requires Lawful(lines, items)
    ensures Read(Merge(lines, items)).doc == Grown(Read(lines).doc, Sections(items), Changes(lines, items))
    ensures SetTwice(lines) <= Read(lines).doc.values.Keys
  {
    hide Read, Write, AddMissing, ItemsOk, PlainText, HeadersAtColumnZero, Find, Grown, Wanted, Latest, Overlaid,
         Missing, SetTwice;
    var w, r := Write(lines, items), Read(lines);
    var missing := Missing(items, w.applied);
    RewriteInStep(lines, items);
    MissingOk(items, w.applied);
    MissingMembers(items, w.applied);
    RewriteKeepsHeaders(lines, items, missing);
    MissingIsNew(w, r, items, Wanted(items) - SetTwice(lines));
    MissingIsAdded(w.out, missing);
    SectionsAreKnown(lines);
    PutInTwo(w, r, items, SetTwice(lines));
  }

  lemma {:induction false} MissingIsNew(w: Writer, r: Reader, items: seq<Item>, m: map<Pair, string>)
    requires forall p :: p in w.applied <==> p in r.doc.values && Find(items, p).Some?
    ensures var missing := Missing(items, w.applied);
            forall p :: p in Latest(missing) ==> p !in Overlaid(r.doc.values, m)
  {
    hide Find, Missing;
    var missing := Missing(items, w.applied);
    forall p | p in Latest(missing)
      ensures p !in r.doc.values
    {
      FindMissing(items, w.applied, p);
    }
  }

  /** Rewriting what is there and adding what is missing is putting everything that is not set twice. */
  lemma {:induction false} PutInTwo(w: Writer, r: Reader, items: seq<Item>, twice: set<Pair>)
    requires forall p :: p in w.applied <==> p in r.doc.values && Find(items, p).Some?
    requires forall p :: p in r.doc.values ==> p.0 in r.doc.sections
    requires twice <= r.doc.values.Keys
    ensures var missing, m := Missing(items, w.applied), Wanted(items) - twice;
            Grown(r.doc.(values := Overlaid(r.doc.values, m)), Sections(missing), Latest(missing)) ==
            Grown(r.doc, Sections(items), Effective(r.doc.values.Keys, items) - twice)
  {
    hide Find, Missing, Wanted, Latest, Effective, Overlaid, Sections;
    PutSections(w, r, items);
    PutValues(w, r, items, twice);
  }

  lemma {:induction false} PutSections(w: Writer, r: Reader, items: seq<Item>)
    requires forall p :: p in w.applied <==> p in r.doc.values && Find(items, p).Some?
    requires forall p :: p in r.doc.values ==> p.0 in r.doc.sections
    ensures r.doc.sections + Sections(Missing(items, w.applied)) == r.doc.sections + Sections(items)
  {
    hide Find, Missing;
    var sections, missing := r.doc.sections, Missing(items, w.applied);
    MissingMembers(items, w.applied);
    forall it | it in items
      ensures it.section in sections + Sections(missing)
    {
      if it.Pair() in w.applied {
        assert it.Pair().0 in sections;
      } else {
        assert it in missing;
      }
    }
  }

  lemma {:induction false} PutValues(w: Writer, r: Reader, items: seq<Item>, twice: set<Pair>)
    requires forall p :: p in w.applied <==> p in r.doc.values && Find(items, p).Some?
    requires twice <= r.doc.values.Keys
    ensures Overlaid(r.doc.values, Wanted(items) - twice) + Latest(Missing(items, w.applied)) ==
            r.doc.values + (Effective(r.doc.values.Keys, items) - twice)
  {
    hide Find, Missing, Latest, Wanted, Overlaid;
    LatestMissing(items, w.applied);
    var values, wanted, latest := r.doc.values, Wanted(items) - twice, Latest(items) - w.applied;
    OverlaidKeys(values, wanted);
    var a, b := Overlaid(values, wanted) + latest, values + (Effective(values.Keys, items) - twice);
    assert forall p :: p in Latest(items) <==> Find(items, p).Some?;
    assert a.Keys == b.Keys;
    forall p | p in a ensures a[p] == b[p] {}
  }

  lemma {:induction false} OverlaidKeys(values: map<Pair, string>, m: map<Pair, string>)
    ensures Overlaid(values, m).Keys == values.Keys
    ensures forall p :: p in values ==> Overlaid(values, m)[p] == if p in m then m[p] else values[p]
  {
  }
}
