/**
 The fleet agent's view of config.yml: a small reader for sections of
 `key: value` lines, and the merge that rewrites single keys in place.

 The parsed document out[section][key] is kept flat here: the set of section
 names, and one map from (section, key) to value.
 */
module FleetYaml {
  import opened Common
  import opened Text

  type Pair = (string, string)

  // ── Scalars ──

  /** _unquote. */
  function Unquote(v: string): string {
    if Enclosed(v) then v[1..|v| - 1] else v
  }

  datatype Value = Bool(b: bool) | Number(text: string) | Str(s: string)

  predicate NeedsQuotes(s: string) {
    s == "" || ':' in s || '#' in s || s != Strip(s)
  }

  /** _yaml_scalar. */
  function Scalar(v: Value): string {
    match v
    case Bool(b) => if b then "true" else "false"
    case Number(text) => text
    case Str(s) => if NeedsQuotes(s) then "'" + s + "'" else s
  }

  // ── Lines ──

  function Uncommented(raw: string): string { RStrip(Before(raw, '#')) }

  predicate EndsInColon(s: string) { s != [] && s[|s| - 1] == ':' }

  /** A section header: at column 0 and ending in a colon. */
  predicate IsHeader(raw: string) { Indent(raw) == 0 && EndsInColon(Strip(raw)) }

  function HeaderName(raw: string): string
    requires EndsInColon(Strip(raw))
  {
    var s := Strip(raw);
    Strip(s[..|s| - 1])
  }

  function KeyOf(stripped: string): string { Strip(Before(stripped, ':')) }

  function ValueOf(stripped: string): string { Unquote(Strip(After(stripped, ':'))) }

  // ── Reading ──

  datatype Doc =
    Doc(sections: set<string>, values: map<Pair, string>, hasCameras: bool, cameras: seq<map<string, string>>)

  /** The reader between two lines: the section it is in and what it has collected. */
  datatype Reader = Reader(section: Option<string>, doc: Doc)

  const START: Reader := Reader(None, Doc({}, map[], false, []))

  function EnterSection(r: Reader, name: string): Reader {
    Reader(Some(name),
           if name == "cameras" then r.doc.(hasCameras := true) else r.doc.(sections := r.doc.sections + {name}))
  }

  function SetEntry(r: Reader, key: string, value: string): Reader
    requires r.section.Some?
  {
    r.(doc := r.doc.(values := r.doc.values[(r.section.value, key) := value]))
  }

  function ReadCamera(r: Reader, stripped: string): Reader {
    var starts := |stripped| >= 2 && stripped[..2] == "- ";
    var cameras := if starts then r.doc.cameras + [map[]] else r.doc.cameras;
    var content := if starts then Strip(stripped[2..]) else stripped;
    r.(doc := r.doc.(cameras :=
      if cameras != [] && ':' in content then
        cameras[|cameras| - 1 := cameras[|cameras| - 1][KeyOf(content) := ValueOf(content)]]
      else cameras))
  }

  function ReadLine(r: Reader, raw: string): Reader {
    var line := Uncommented(raw);
    var stripped := Strip(line);
    if stripped == "" then r
    else if IsHeader(line) then EnterSection(r, HeaderName(line))
    else if r.section == Some("cameras") then ReadCamera(r, stripped)
    else if r.section.Some? && r.section.value != "" && ':' in stripped then
      SetEntry(r, KeyOf(stripped), ValueOf(stripped))
    else r
  }

  function Read(lines: seq<string>): Reader {
    if lines == [] then START else ReadLine(Read(lines[..|lines| - 1]), lines[|lines| - 1])
  }

  /** parse_min_yaml. */
  method ParseMinYaml(text: string) returns (doc: Doc)
    ensures doc == Read(SplitLines(text)).doc
  {
    hide ReadLine;
    var lines := SplitLines(text);
    var r := START;
    for i := 0 to |lines|
      invariant r == Read(lines[..i])
    {
      r := ReadLine(r, lines[i]);
      assert lines[..i + 1][..i] == lines[..i];
    }
    assert lines[..|lines|] == lines;
    doc := r.doc;
  }

  // ── Merging ──

  /** One update after normalization. */
  datatype Item = Item(section: string, key: string, text: string) {
    function Pair(): Pair { (section, key) }

    /** The line written for it. */
    function Line(): string { "  " + key + ": " + text }
  }

  /** A dotted key names section and key; a bare key belongs to `agent`. */
  function Normalize(updates: seq<(string, Value)>): seq<Item> {
    seq(|updates|, i requires 0 <= i < |updates| =>
      var (k, v) := updates[i];
      if '.' in k then Item(Before(k, '.'), After(k, '.'), Scalar(v)) else Item("agent", k, Scalar(v)))
  }

  /** The first update for a pair. */
  function Find(items: seq<Item>, p: Pair): Option<Item> {
    if items == [] then None
    else if items[0].Pair() == p then Some(items[0])
    else Find(items[1..], p)
  }

  /** The rewriting loop between two lines. */
  datatype Writer = Writer(section: Option<string>, applied: set<Pair>, out: seq<string>)

  /** The pair a line of a section sets, if it sets one. */
  function EntryPair(section: Option<string>, raw: string): Option<Pair> {
    if section.Some? && section.value != "" && Indent(raw) > 0 && ':' in Strip(raw) then
      Some((section.value, KeyOf(Strip(raw))))
    else None
  }

  function WriteLine(w: Writer, raw: string, items: seq<Item>): Writer {
    if IsHeader(raw) then w.(section := Some(HeaderName(raw)), out := w.out + [raw])
    else
      var p := EntryPair(w.section, raw);
      var found := if p.Some? && p.value !in w.applied then Find(items, p.value) else None;
      match found
      case None => w.(out := w.out + [raw])
      case Some(item) => w.(applied := w.applied + {p.value}, out := w.out + [item.Line()])
  }

  function Write(lines: seq<string>, items: seq<Item>): Writer {
    if lines == [] then Writer(None, {}, [])
    else WriteLine(Write(lines[..|lines| - 1], items), lines[|lines| - 1], items)
  }

  function Missing(items: seq<Item>, applied: set<Pair>): seq<Item> {
    if items == [] then []
    else (if items[0].Pair() in applied then [] else [items[0]]) + Missing(items[1..], applied)
  }

  function LinesOf(items: seq<Item>): seq<string> {
    if items == [] then [] else [items[0].Line()] + LinesOf(items[1..])
  }

  /** by_section: the items of one section, in order. */
  function OfSection(items: seq<Item>, section: string): seq<Item> {
    if items == [] then []
    else (if items[0].section == section then [items[0]] else []) + OfSection(items[1..], section)
  }

  function NotOfSection(items: seq<Item>, section: string): (r: seq<Item>)
    ensures |r| <= |items|
  {
    if items == [] then []
    else (if items[0].section == section then [] else [items[0]]) + NotOfSection(items[1..], section)
  }

  /** _insert_under_section. */
  function InsertUnder(out: seq<string>, section: string, items: seq<Item>): seq<string> {
    if out == [] then []
    else
      var line := out[|out| - 1];
      InsertUnder(out[..|out| - 1], section, items) + [line]
      + if Strip(line) == section + ":" then LinesOf(items) else []
  }

  predicate HasHeader(out: seq<string>, section: string) {
    exists i :: 0 <= i < |out| && Strip(out[i]) == section + ":"
  }

  function AddSection(out: seq<string>, section: string, items: seq<Item>): seq<string> {
    if HasHeader(out, section) then InsertUnder(out, section, items)
    else out + [section + ":"] + LinesOf(items)
  }

  /** The sections of the missing items, in order of first appearance, one after the other. */
  function AddMissing(out: seq<string>, missing: seq<Item>): seq<string>
    decreases |missing|
  {
    if missing == [] then out
    else
      var section := missing[0].section;
      AddMissing(AddSection(out, section, OfSection(missing, section)), NotOfSection(missing[1..], section))
  }

  function Merge(lines: seq<string>, items: seq<Item>): seq<string> {
    var w := Write(lines, items);
    AddMissing(w.out, Missing(items, w.applied))
  }

  /** merge_config_yaml. */
  method MergeConfigYaml(text: string, updates: seq<(string, Value)>) returns (merged: string)
    ensures merged == JoinLines(Merge(SplitLines(text), Normalize(updates)))
  {
    hide WriteLine, AddSection;
    var lines, items := SplitLines(text), Normalize(updates);
    var w := Writer(None, {}, []);
    for i := 0 to |lines|
      invariant w == Write(lines[..i], items)
    {
      w := WriteLine(w, lines[i], items);
      assert lines[..i + 1][..i] == lines[..i];
    }
    assert lines[..|lines|] == lines;
    var out, missing := w.out, Missing(items, w.applied);
    while missing != []
      invariant AddMissing(out, missing) == Merge(lines, items)
      decreases |missing|
    {
      var section := missing[0].section;
      out := AddSection(out, section, OfSection(missing, section));
      missing := NotOfSection(missing[1..], section);
    }
    merged := JoinLines(out);
  }
}
