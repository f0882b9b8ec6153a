/**
 The indentation-driven reader of scripts/onvif.py: nested maps, lists of
 scalars and lists of flat maps, told apart by indentation and dashes alone.
 */
module OnvifYaml {
  import opened Text

  /** A nonblank, non-comment line. */
  datatype Line = Line(indent: nat, content: string)

  datatype Node = Str(s: string) | Dict(m: map<string, Node>) | Items(items: seq<Node>)

  // ── Scalars ──

  /** Cuts an unquoted scalar at " #". */
  function CutComment(s: string): string {
    if |s| < 2 then s
    else if s[0] == ' ' && s[1] == '#' then []
    else [s[0]] + CutComment(s[1..])
  }

  /** _strip_quotes. */
  function StripQuotes(v: string): string {
    var s := Strip(v);
    if Enclosed(s) then s[1..|s| - 1] else RStrip(CutComment(s))
  }

  /** _split_key_value. */
  function KeyPart(content: string): string { Strip(Before(content, ':')) }

  function ValuePart(content: string): string { StripQuotes(After(content, ':')) }

  predicate StartsDash(content: string) { |content| >= 2 && content[..2] == "- " }

  predicate IsItem(content: string) { StartsDash(content) || content == "-" }

  function ItemText(content: string): string {
    if StartsDash(content) then Strip(content[2..]) else ""
  }

  // ── Reading, on the lines still ahead ──

  function ParseBlock(ls: seq<Line>, indent: nat): (r: (Node, seq<Line>))
    ensures |r.1| <= |ls|
    decreases |ls|, 1
  {
    if ls == [] then (Dict(map[]), [])
    else if IsItem(ls[0].content) then ParseList(ls, indent, [])
    else ParseMap(ls, indent, map[])
  }

  /** The loop over the lines of a map. */
  function ParseMap(ls: seq<Line>, indent: nat, acc: map<string, Node>): (r: (Node, seq<Line>))
    ensures |r.1| <= |ls|
    decreases |ls|, 0
  {
    if ls == [] || ls[0].indent < indent then (Dict(acc), ls)
    else
      var l, rest := ls[0], ls[1..];
      if l.indent > indent || StartsDash(l.content) then ParseMap(rest, indent, acc)
      else
        var key, val := KeyPart(l.content), ValuePart(l.content);
        if val == "" && rest != [] && rest[0].indent > l.indent then
          var (node, after) := ParseBlock(rest, rest[0].indent);
          ParseMap(after, indent, acc[key := node])
        else ParseMap(rest, indent, acc[key := Str(val)])
  }

  /** The loop over the items of a list. */
  function ParseList(ls: seq<Line>, indent: nat, acc: seq<Node>): (r: (Node, seq<Line>))
    ensures |r.1| <= |ls|
    decreases |ls|, 0
  {
    if ls == [] || ls[0].indent < indent || !IsItem(ls[0].content) then (Items(acc), ls)
    else
      var inner := ItemText(ls[0].content);
      if inner != "" && ':' in inner then
        var (m, after) := ParseFields(ls[1..], ls[0].indent, map[KeyPart(inner) := Str(ValuePart(inner))]);
        ParseList(after, indent, acc + [Dict(m)])
      else ParseList(ls[1..], indent, acc + [Str(StripQuotes(inner))])
  }

  /** The further fields of a list item: every deeper line is one. */
  function ParseFields(ls: seq<Line>, indent: nat, acc: map<string, Node>): (r: (map<string, Node>, seq<Line>))
    ensures |r.1| <= |ls|
  {
    if ls == [] || ls[0].indent <= indent then (acc, ls)
    else ParseFields(ls[1..], indent, acc[KeyPart(ls[0].content) := Str(ValuePart(ls[0].content))])
  }

  /** The lines parse_yaml keeps. */
  function LinesOf(raws: seq<string>): seq<Line> {
    if raws == [] then []
    else
      var s := Strip(raws[|raws| - 1]);
      var before := LinesOf(raws[..|raws| - 1]);
      if s == "" || s[0] == '#' then before else before + [Line(Indent(raws[|raws| - 1]), s)]
  }

  function ParseYaml(text: string): Node { ParseBlock(LinesOf(SplitLines(text)), 0).0 }

  // ── The reader itself: a position moving over the list of lines ──

  /** parse_yaml. */
  method ReadYaml(text: string) returns (value: Node)
    ensures value == ParseYaml(text)
  {
    hide ParseBlock, Strip, Indent;
    var raws := SplitLines(text);
    var lines: seq<Line> := [];
    for i := 0 to |raws|
      invariant lines == LinesOf(raws[..i])
    {
      var stripped := Strip(raws[i]);
      assert raws[..i + 1][..i] == raws[..i];
      if stripped == "" || stripped[0] == '#' { continue; }
      lines := lines + [Line(Indent(raws[i]), stripped)];
    }
    assert raws[..|raws|] == raws && lines[0..] == lines;
    var pos: nat;
    value, pos := ReadBlock(lines, 0, 0);
  }

  /** _parse_block. It terminates on every list of lines. */
  method ReadBlock(lines: seq<Line>, start: nat, indent: nat) returns (value: Node, pos: nat)
    requires start <= |lines|
    ensures start <= pos <= |lines|
    ensures ParseBlock(lines[start..], indent) == (value, lines[pos..])
    decreases |lines| - start, 1
  {
    hide ParseMap, ParseList, KeyPart, ValuePart;
    pos := start;
    if pos >= |lines| {
      assert lines[start..] == [];
      return Dict(map[]), pos;
    }
    assert lines[start..][0] == lines[start];
    if IsItem(lines[pos].content) {
      value, pos := ReadList(lines, pos, indent);
      return;
    }
    value, pos := ReadMap(lines, start, indent);
  }

  method ReadMap(lines: seq<Line>, start: nat, indent: nat) returns (value: Node, pos: nat)
    requires start <= |lines|
    ensures start <= pos <= |lines|
    ensures ParseMap(lines[start..], indent, map[]) == (value, lines[pos..])
    decreases |lines| - start, 0
  {
    hide ParseBlock, KeyPart, ValuePart, StartsDash;
    pos := start;
    var result: map<string, Node> := map[];
    while pos < |lines|
      invariant start <= pos <= |lines|
      invariant ParseMap(lines[start..], indent, map[]) == ParseMap(lines[pos..], indent, result)
      decreases |lines| - pos
    {
      var l := lines[pos];
      assert lines[pos..][0] == l && lines[pos..][1..] == lines[pos + 1..];
      if l.indent < indent { break; }
      if l.indent > indent || StartsDash(l.content) {
        pos := pos + 1;
        continue;
      }
      var key, val := KeyPart(l.content), ValuePart(l.content);
      pos := pos + 1;
      if val == "" && pos < |lines| && lines[pos].indent > l.indent {
        assert lines[pos..][0] == lines[pos];
        var node: Node;
        ghost var at := pos;
        node, pos := ReadBlock(lines, pos, lines[pos].indent);
        assert ParseBlock(lines[at..], lines[at].indent) == (node, lines[pos..]);
        result := result[key := node];
      } else {
        result := result[key := Str(val)];
      }
    }
    value := Dict(result);
    assert pos == |lines| ==> lines[pos..] == [];
  }

  /** _parse_list. */
  method ReadList(lines: seq<Line>, start: nat, indent: nat) returns (value: Node, pos: nat)
    requires start <= |lines|
    ensures start <= pos <= |lines|
    ensures ParseList(lines[start..], indent, []) == (value, lines[pos..])
  {
    hide KeyPart, ValuePart, IsItem, ItemText, StripQuotes;
    pos := start;
    var items: seq<Node> := [];
    while pos < |lines|
      invariant start <= pos <= |lines|
      invariant ParseList(lines[start..], indent, []) == ParseList(lines[pos..], indent, items)
      decreases |lines| - pos
    {
      var l := lines[pos];
      assert lines[pos..][0] == l && lines[pos..][1..] == lines[pos + 1..];
      if l.indent < indent || !IsItem(l.content) { break; }
      var inner := ItemText(l.content);
      if inner != "" && ':' in inner {
        var item: map<string, Node>;
        item, pos := ReadFields(lines, pos + 1, l.indent, map[KeyPart(inner) := Str(ValuePart(inner))]);
        items := items + [Dict(item)];
      } else {
        items := items + [Str(StripQuotes(inner))];
        pos := pos + 1;
      }
    }
    value := Items(items);
    assert pos == |lines| ==> lines[pos..] == [];
  }

  method ReadFields(lines: seq<Line>, start: nat, indent: nat, first: map<string, Node>)
    returns (item: map<string, Node>, pos: nat)
    requires start <= |lines|
    ensures start <= pos <= |lines|
    ensures ParseFields(lines[start..], indent, first) == (item, lines[pos..])
  {
    hide KeyPart, ValuePart;
    item, pos := first, start;
    while pos < |lines| && lines[pos].indent > indent
      invariant start <= pos <= |lines|
      invariant ParseFields(lines[start..], indent, first) == ParseFields(lines[pos..], indent, item)
    {
      var content := lines[pos].content;
      assert lines[pos..][0] == lines[pos] && lines[pos..][1..] == lines[pos + 1..];
      item := item[KeyPart(content) := Str(ValuePart(content))];
      pos := pos + 1;
    }
    assert pos < |lines| ==> lines[pos..][0] == lines[pos];
  }

  // ── Trees and their printings ──

  /** A scalar as it is written: bare or in quotes. */
  datatype Scalar = Scalar(text: string, quoted: bool) {
    function Printed(): string { if quoted then "'" + text + "'" else text }

    ghost predicate Valid() {
      OneLine(text) && (!quoted ==> Trimmed(text) && !Enclosed(text) && CutComment(text) == text)
    }
  }

  datatype Field = Field(key: string, value: Scalar)

  /** A list item: a scalar, or a flat map whose further fields stand `step` deeper. */
  datatype Item = Word(value: Scalar) | Record(step: nat, fields: seq<Field>)

  datatype Kid = Kid(key: string, tree: Tree)

  /** Children stand `step` columns deeper than their key; each node may choose its own step. */
  datatype Tree = Leaf(value: Scalar) | Branch(step: nat, kids: seq<Kid>) | Listing(step: nat, items: seq<Item>)

  ghost predicate KeyOk(k: string) {
    k != "" && Trimmed(k) && ':' !in k && OneLine(k) && !StartsDash(k) && k[0] != '#'
  }

  ghost predicate FieldsOk(fields: seq<Field>) {
    forall i :: 0 <= i < |fields| ==> KeyOk(fields[i].key) && fields[i].value.Valid()
  }

  ghost predicate ItemOk(it: Item) {
    match it
    case Word(v) => v.Valid() && ':' !in v.text
    case Record(step, fields) => step > 0 && fields != [] && FieldsOk(fields)
  }

  ghost predicate TreeOk(t: Tree)
    decreases t
  {
    match t
    case Leaf(v) => v.Valid()
    case Branch(step, kids) => step > 0 && kids != [] && KidsOk(kids)
    case Listing(step, items) => step > 0 && items != [] && forall i :: 0 <= i < |items| ==> ItemOk(items[i])
  }

  ghost predicate KidsOk(kids: seq<Kid>)
    decreases kids
  {
    kids != [] ==> KeyOk(kids[0].key) && TreeOk(kids[0].tree) && KidsOk(kids[1..])
  }

  function Spaced(prefix: string, s: string): string { if s == "" then prefix else prefix + " " + s }

  function PrintField(f: Field): string { Spaced(f.key + ":", f.value.Printed()) }

  function PrintFields(fields: seq<Field>, indent: nat): seq<Line> {
    if fields == [] then [] else [Line(indent, PrintField(fields[0]))] + PrintFields(fields[1..], indent)
  }

  function PrintItem(it: Item, indent: nat): seq<Line>
    requires it.Record? ==> it.fields != []
  {
    match it
    case Word(v) => [Line(indent, Spaced("-", v.Printed()))]
    case Record(step, fields) => [Line(indent, "- " + PrintField(fields[0]))] + PrintFields(fields[1..], indent + step)
  }

  function PrintItems(items: seq<Item>, indent: nat): seq<Line>
    requires forall i :: 0 <= i < |items| ==> ItemOk(items[i])
  {
    if items == [] then []
    else
      assert ItemOk(items[0]);
      PrintItem(items[0], indent) + PrintItems(items[1..], indent)
  }

  function PrintTree(t: Tree, indent: nat): seq<Line>
    requires TreeOk(t)
    decreases t
  {
    match t
    case Leaf(_) => []
    case Branch(step, kids) => PrintKids(kids, indent + step)
    case Listing(step, items) => PrintItems(items, indent + step)
  }

  function PrintKids(kids: seq<Kid>, indent: nat): seq<Line>
    requires KidsOk(kids)
    decreases kids
  {
    if kids == [] then []
    else
      var k := kids[0];
      [Line(indent, Spaced(k.key + ":", if k.tree.Leaf? then k.tree.value.Printed() else ""))]
      + PrintTree(k.tree, indent) + PrintKids(kids[1..], indent)
  }

  // ── What they mean ──

  function MeanFields(fields: seq<Field>, acc: map<string, Node>): map<string, Node> {
    if fields == [] then acc else MeanFields(fields[1..], acc[fields[0].key := Str(fields[0].value.text)])
  }

  function MeanItem(it: Item): Node {
    match it
    case Word(v) => Str(v.text)
    case Record(_, fields) => Dict(MeanFields(fields, map[]))
  }

  function MeanItems(items: seq<Item>): seq<Node> {
    if items == [] then [] else [MeanItem(items[0])] + MeanItems(items[1..])
  }

  function Mean(t: Tree): Node
    decreases t
  {
    match t
    case Leaf(v) => Str(v.text)
    case Branch(_, kids) => Dict(MeanKids(kids, map[]))
    case Listing(_, items) => Items(MeanItems(items))
  }

  function MeanKids(kids: seq<Kid>, acc: map<string, Node>): map<string, Node>
    decreases kids
  {
    if kids == [] then acc else MeanKids(kids[1..], acc[kids[0].key := Mean(kids[0].tree)])
  }
}
