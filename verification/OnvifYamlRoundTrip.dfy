/** Every printed tree is read back, whatever steps of indentation its nodes choose. */
module OnvifYamlRoundTrip {
  import opened Text
  import opened OnvifYaml

  // ── One line ──

  lemma {:induction false} PrintedIsTrimmed(s: Scalar)
    requires s.Valid()
    ensures Trimmed(s.Printed()) && OneLine(s.Printed())
  {
    var p := s.Printed();
    if s.quoted {
      forall i | 0 <= i < |p| ensures !IsBreak(p[i]) {
        if 0 < i < |p| - 1 { assert p[i] == s.text[i - 1]; }
      }
    }
  }

  /** What stands after the colon is read as the scalar's text. */
  lemma {:induction false} ScalarIsRead(s: Scalar)
    requires s.Valid()
    ensures StripQuotes(Spaced("", s.Printed())) == s.text && StripQuotes(s.Printed()) == s.text
  {
    var p := s.Printed();
    PrintedIsTrimmed(s);
    StripOfTrimmed(p);
    if p != "" {
      StripOfIndented(1, p);
      assert Spaced("", p) == Spaces(1) + p;
    }
    if s.quoted {
      assert p[1..|p| - 1] == s.text;
    }
  }

  lemma {:induction false} SpacedShape(prefix: string, p: string)
    ensures Spaced(prefix, p) == prefix + Spaced("", p)
  {
  }

  /** A printed field splits into its key and its text, and is never taken for a list item. */
  lemma {:induction false} FieldIsRead(f: Field)
    requires KeyOk(f.key) && f.value.Valid()
    ensures KeyPart(PrintField(f)) == f.key && ValuePart(PrintField(f)) == f.value.text
    ensures !IsItem(PrintField(f)) && ':' in PrintField(f)
  {
    hide StripQuotes, Enclosed, CutComment, Strip;
    var c, v := PrintField(f), Spaced("", f.value.Printed());
    SpacedShape(f.key + ":", f.value.Printed());
    assert c == f.key + [':'] + v;
    SplitAt(f.key, ':', v);
    StripOfTrimmed(f.key);
    ScalarIsRead(f.value);
    assert c[|f.key|] == ':';
    if |f.key| >= 2 { assert c[..2] == f.key[..2]; }
  }

  predicate LineOk(l: Line) {
    l.content != "" && Trimmed(l.content) && l.content[0] != '#' && forall i :: 0 <= i < |l.content| ==>
      !IsBreak(l.content[i])
  }

  lemma {:induction false} SpacedIsTrimmed(prefix: string, p: string)
    requires prefix != "" && !IsSpace(prefix[0]) && !IsSpace(prefix[|prefix| - 1]) && prefix[0] != '#'
    requires OneLine(prefix) && Trimmed(p) && OneLine(p)
    ensures LineOk(Line(0, Spaced(prefix, p)))
  {
    var c := Spaced(prefix, p);
    forall i | 0 <= i < |c| ensures !IsBreak(c[i]) {
      if i < |prefix| { assert c[i] == prefix[i]; }
      else if i > |prefix| { assert c[i] == p[i - |prefix| - 1]; }
    }
  }

  lemma {:induction false} FieldIsTrimmed(f: Field)
    requires KeyOk(f.key) && f.value.Valid()
    ensures LineOk(Line(0, PrintField(f)))
  {
    hide Trimmed;
    PrintedIsTrimmed(f.value);
    var k := f.key + ":";
    assert OneLine(k) by {
      forall i | 0 <= i < |k| ensures !IsBreak(k[i]) { if i < |f.key| { assert k[i] == f.key[i]; } }
    }
    assert !IsSpace(k[0]) by { KeyStart(f.key); }
    SpacedIsTrimmed(k, f.value.Printed());
  }

  lemma {:induction false} KeyStart(k: string)
    requires KeyOk(k)
    ensures !IsSpace(k[0])
  {
  }

  // ── List items ──

  ghost predicate Shallow(rest: seq<Line>, n: int) { rest == [] || rest[0].indent <= n }

  lemma {:induction false} FieldsOkSplit(fields: seq<Field>)
    requires FieldsOk(fields) && fields != []
    ensures KeyOk(fields[0].key) && fields[0].value.Valid() && FieldsOk(fields[1..])
  {
    hide KeyOk, Scalar.Valid;
  }

  lemma {:induction false} FieldsStep(ls: seq<Line>, indent: nat, acc: map<string, Node>)
    requires ls != [] && ls[0].indent > indent
    ensures ParseFields(ls, indent, acc) ==
      ParseFields(ls[1..], indent, acc[KeyPart(ls[0].content) := Str(ValuePart(ls[0].content))])
  {
    hide KeyPart, ValuePart;
  }

  lemma {:induction false} NoFields(n: nat, indent: nat, acc: map<string, Node>, rest: seq<Line>)
    requires Shallow(rest, indent)
    ensures ParseFields(PrintFields([], n) + rest, indent, acc) == (MeanFields([], acc), rest)
  {
    assert PrintFields([], n) + rest == rest;
  }

  lemma {:induction false} FieldsShape(fields: seq<Field>, n: nat, rest: seq<Line>)
    requires fields != []
    ensures PrintFields(fields, n) + rest == [Line(n, PrintField(fields[0]))] + (PrintFields(fields[1..], n) + rest)
  {
    hide PrintField;
  }

  lemma {:induction false} MeanStep(fields: seq<Field>, acc: map<string, Node>)
    requires fields != []
    ensures MeanFields(fields, acc) == MeanFields(fields[1..], acc[fields[0].key := Str(fields[0].value.text)])
  {
  }

  lemma {:induction false} FieldsAreRead(fields: seq<Field>, n: nat, indent: nat, acc: map<string, Node>,
                                         rest: seq<Line>)
    requires FieldsOk(fields) && n > indent && Shallow(rest, indent)
    ensures ParseFields(PrintFields(fields, n) + rest, indent, acc) == (MeanFields(fields, acc), rest)
    decreases |fields|
  {
    hide FieldsOk, KeyOk, Scalar.Valid, PrintField, KeyPart, ValuePart, ParseFields, MeanFields, PrintFields, Shallow;
    if fields == [] {
      NoFields(n, indent, acc, rest);
    } else {
      var f, tail := fields[0], PrintFields(fields[1..], n) + rest;
      var ls := [Line(n, PrintField(f))] + tail;
      FieldsOkSplit(fields);
      FieldIsRead(f);
      FieldsShape(fields, n, rest);
      assert ls[0] == Line(n, PrintField(f)) && ls[1..] == tail;
      FieldsStep(ls, indent, acc);
      FieldsAreRead(fields[1..], n, indent, acc[f.key := Str(f.value.text)], rest);
      MeanStep(fields, acc);
    }
  }

  lemma {:induction false} WordText(v: Scalar)
    requires v.Valid() && ':' !in v.text
    ensures IsItem(Spaced("-", v.Printed())) && ItemText(Spaced("-", v.Printed())) == v.Printed()
    ensures ':' !in v.Printed()
  {
    var p := v.Printed();
    PrintedIsTrimmed(v);
    StripOfTrimmed(p);
    if p != "" { assert ("-" + " " + p)[2..] == p && ("-" + " " + p)[..2] == "- "; }
  }

  lemma {:induction false} RecordText(f: Field)
    requires KeyOk(f.key) && f.value.Valid()
    ensures IsItem("- " + PrintField(f)) && ItemText("- " + PrintField(f)) == PrintField(f)
  {
    hide PrintField;
    FieldIsTrimmed(f);
    StripOfTrimmed(PrintField(f));
    assert ("- " + PrintField(f))[2..] == PrintField(f) && ("- " + PrintField(f))[..2] == "- ";
  }

  lemma {:induction false} ItemIsRead(it: Item, n: nat, acc: seq<Node>, rest: seq<Line>)
    requires ItemOk(it) && Shallow(rest, n)
    ensures ParseList(PrintItem(it, n) + rest, n, acc) == ParseList(rest, n, acc + [MeanItem(it)])
  {
    hide IsItem, ItemText, KeyPart, ValuePart, StripQuotes, PrintField, Scalar.Printed, PrintFields, KeyOk,
         Scalar.Valid, ParseFields;
    var ls := PrintItem(it, n) + rest;
    match it {
      case Word(v) =>
        WordText(v);
        ScalarIsRead(v);
        assert ls[0] == Line(n, Spaced("-", v.Printed())) && ls[1..] == rest;
      case Record(step, fields) =>
        var f := fields[0];
        FieldsOkSplit(fields);
        RecordText(f);
        FieldIsRead(f);
        assert ls[0] == Line(n, "- " + PrintField(f)) && ls[1..] == PrintFields(fields[1..], n + step) + rest;
        FieldsAreRead(fields[1..], n + step, n, map[f.key := Str(f.value.text)], rest);
    }
  }

  lemma {:induction false} ItemsStart(items: seq<Item>, n: nat)
    requires forall i :: 0 <= i < |items| ==> ItemOk(items[i])
    ensures items != [] ==> PrintItems(items, n) != [] && PrintItems(items, n)[0].indent == n
    ensures items != [] ==> IsItem(PrintItems(items, n)[0].content)
  {
    hide IsItem, PrintFields, PrintField, Scalar.Printed;
    if items != [] {
      assert ItemOk(items[0]);
      match items[0] {
        case Word(v) => WordText(v);
        case Record(_, fields) => RecordText(fields[0]);
      }
    }
  }

  lemma {:induction false} ItemsAreRead(items: seq<Item>, n: nat, acc: seq<Node>, rest: seq<Line>)
    requires forall i :: 0 <= i < |items| ==> ItemOk(items[i])
    requires Shallow(rest, n - 1)
    ensures ParseList(PrintItems(items, n) + rest, n, acc) == (Items(acc + MeanItems(items)), rest)
    decreases |items|
  {
    hide PrintItem, MeanItem;
    if items == [] {
      assert PrintItems(items, n) + rest == rest && acc + MeanItems(items) == acc;
    } else {
      var tail := PrintItems(items[1..], n) + rest;
      assert ItemOk(items[0]);
      assert PrintItems(items, n) + rest == PrintItem(items[0], n) + tail;
      ItemsStart(items[1..], n);
      ItemIsRead(items[0], n, acc, tail);
      ItemsAreRead(items[1..], n, acc + [MeanItem(items[0])], rest);
      assert acc + MeanItems(items) == acc + [MeanItem(items[0])] + MeanItems(items[1..]);
    }
  }

  // ── Maps ──

  function Head(k: Kid): Field { Field(k.key, if k.tree.Leaf? then k.tree.value else Scalar("", false)) }

  lemma {:induction false} KidsShape(kids: seq<Kid>, n: nat)
    requires KidsOk(kids) && kids != []
    ensures PrintKids(kids, n) ==
      [Line(n, PrintField(Head(kids[0])))] + PrintTree(kids[0].tree, n) + PrintKids(kids[1..], n)
    ensures KeyOk(Head(kids[0]).key) && Head(kids[0]).value.Valid()
  {
    hide PrintTree, KeyOk;
  }

  lemma {:induction false} KidsStart(kids: seq<Kid>, n: nat, rest: seq<Line>)
    requires KidsOk(kids) && Shallow(rest, n)
    ensures Shallow(PrintKids(kids, n) + rest, n)
    ensures kids != [] ==>
              && PrintKids(kids, n) != []
              && PrintKids(kids, n)[0].indent == n
              && !IsItem(PrintKids(kids, n)[0].content)
  {
    hide PrintField, PrintTree, IsItem, KidsOk, PrintKids, KeyOk, Scalar.Valid;
    if kids == [] {
      NoKids(n);
      assert PrintKids(kids, n) + rest == rest;
    } else {
      KidsShape(kids, n);
      FieldIsRead(Head(kids[0]));
    }
  }

  lemma {:induction false} NoKids(n: nat)
    ensures PrintKids([], n) == []
  {
  }

  /** One step of the map loop on a printed key, given how what hangs below it is read. */
  lemma {:induction false} KidStep(k: Kid, n: nat, below: seq<Line>, tail: seq<Line>, acc: map<string, Node>)
    requires KeyOk(k.key) && Head(k).value.Valid() && Shallow(tail, n)
    requires k.tree.Leaf? ==> below == []
    requires !k.tree.Leaf? ==> below != [] && below[0].indent > n
    requires !k.tree.Leaf? ==> ParseBlock(below + tail, below[0].indent) == (Mean(k.tree), tail)
    ensures ParseMap([Line(n, PrintField(Head(k)))] + below + tail, n, acc) ==
      ParseMap(tail, n, acc[k.key := Mean(k.tree)])
  {
    hide PrintField, KeyPart, ValuePart, IsItem, ParseBlock, Scalar.Valid, KeyOk;
    var ls := [Line(n, PrintField(Head(k)))] + below + tail;
    FieldIsRead(Head(k));
    NotDash(PrintField(Head(k)));
    assert ls[0] == Line(n, PrintField(Head(k))) && ls[1..] == below + tail;
    if k.tree.Leaf? {
      assert below + tail == tail;
    } else {
      assert (below + tail)[0] == below[0];
    }
  }

  lemma {:induction false} NotDash(c: string)
    requires !IsItem(c)
    ensures !StartsDash(c)
  {
  }

  /** The lines printed for a map at column `n`, whatever no deeper line follows, enter the map being built. */
  lemma {:induction false} KidsAreRead(kids: seq<Kid>, n: nat, acc: map<string, Node>, rest: seq<Line>)
    requires KidsOk(kids) && Shallow(rest, n)
    ensures ParseMap(PrintKids(kids, n) + rest, n, acc) == ParseMap(rest, n, MeanKids(kids, acc))
    decreases kids
  {
    hide PrintKids, PrintTree, ParseMap, ParseBlock, PrintField, KeyOk, Scalar.Valid;
    if kids == [] {
      NoKids(n);
      assert PrintKids(kids, n) + rest == rest;
    } else {
      var k, below, tail := kids[0], PrintTree(kids[0].tree, n), PrintKids(kids[1..], n) + rest;
      KidsShape(kids, n);
      KidsStart(kids[1..], n, rest);
      assert PrintKids(kids, n) + rest == [Line(n, PrintField(Head(k)))] + below + tail;
      TreeIsRead(k.tree, n, tail);
      KidStep(k, n, below, tail, acc);
      KidsAreRead(kids[1..], n, acc[k.key := Mean(k.tree)], rest);
    }
  }

  /** A block hanging below a key at column `n` is read back as the tree's meaning, up to the next key. */
  lemma {:induction false} TreeIsRead(t: Tree, n: nat, rest: seq<Line>)
    requires TreeOk(t) && Shallow(rest, n)
    ensures t.Leaf? ==> PrintTree(t, n) == []
    ensures !t.Leaf? ==> PrintTree(t, n) != [] && PrintTree(t, n)[0].indent > n
    ensures !t.Leaf? ==> ParseBlock(PrintTree(t, n) + rest, PrintTree(t, n)[0].indent) == (Mean(t), rest)
    decreases t
  {
    hide PrintKids, PrintItems, IsItem, ItemOk, KidsOk, MeanKids, MeanItems, ParseList, ParseMap, Shallow;
    ShallowDeeper(rest, n);
    match t {
      case Leaf(_) =>
      case Branch(step, kids) =>
        var ls := PrintKids(kids, n + step);
        KidsStart(kids, n + step, rest);
        KidsAreRead(kids, n + step, map[], rest);
        assert (ls + rest)[0] == ls[0];
        MapStops(rest, n + step, MeanKids(kids, map[]));
      case Listing(step, items) =>
        var ls := PrintItems(items, n + step);
        ItemsStart(items, n + step);
        ItemsAreRead(items, n + step, [], rest);
        assert (ls + rest)[0] == ls[0];
        assert [] + MeanItems(items) == MeanItems(items);
    }
  }

  lemma {:induction false} ShallowDeeper(rest: seq<Line>, n: nat)
    requires Shallow(rest, n)
    ensures forall m :: m >= n ==> Shallow(rest, m)
  {
  }

  lemma {:induction false} MapStops(rest: seq<Line>, n: nat, acc: map<string, Node>)
    requires Shallow(rest, n - 1)
    ensures ParseMap(rest, n, acc) == (Dict(acc), rest)
  {
  }

  // ── From lines to text ──

  function Render(l: Line): string { Spaces(l.indent) + l.content }

  function RenderAll(ls: seq<Line>): seq<string> {
    if ls == [] then [] else RenderAll(ls[..|ls| - 1]) + [Render(ls[|ls| - 1])]
  }

  ghost predicate AllLinesOk(ls: seq<Line>) { forall i :: 0 <= i < |ls| ==> LineOk(ls[i]) }

  lemma {:induction false} LineSurvives(l: Line)
    requires LineOk(l)
    ensures Strip(Render(l)) == l.content && Indent(Render(l)) == l.indent && OneLine(Render(l))
  {
    StripOfIndented(l.indent, l.content);
    IndentOfIndented(l.indent, l.content);
    var r := Render(l);
    forall i | 0 <= i < |r| ensures !IsBreak(r[i]) {
      if i >= l.indent { assert r[i] == l.content[i - l.indent]; }
    }
  }

  lemma {:induction false} LinesSurvive(ls: seq<Line>)
    requires AllLinesOk(ls)
    ensures LinesOf(RenderAll(ls)) == ls && AllOneLine(RenderAll(ls))
    decreases |ls|
  {
    hide Render, LineOk, Strip, Indent;
    if ls == [] {
    } else {
      var init, last := ls[..|ls| - 1], ls[|ls| - 1];
      assert LineOk(last);
      LinesSurvive(init);
      LineSurvives(last);
      var raws := RenderAll(ls);
      assert raws[..|raws| - 1] == RenderAll(init) && raws[|raws| - 1] == Render(last);
      ContentIsKept(last);
      assert ls == init + [last];
    }
  }

  lemma {:induction false} ContentIsKept(l: Line)
    requires LineOk(l)
    ensures l.content != "" && l.content[0] != '#'
  {
  }

  lemma {:induction false} FieldLinesOk(fields: seq<Field>, n: nat)
    requires FieldsOk(fields)
    ensures AllLinesOk(PrintFields(fields, n))
    decreases |fields|
  {
    hide PrintField, Trimmed;
    if fields == [] {
    } else {
      FieldIsTrimmed(fields[0]);
      FieldLinesOk(fields[1..], n);
    }
  }

  lemma {:induction false} ItemLinesOk(it: Item, n: nat)
    requires ItemOk(it)
    ensures AllLinesOk(PrintItem(it, n))
  {
    hide PrintField, PrintFields, Scalar.Printed;
    match it {
      case Word(v) =>
        PrintedIsTrimmed(v);
        SpacedIsTrimmed("-", v.Printed());
      case Record(step, fields) =>
        FieldIsTrimmed(fields[0]);
        DashedIsTrimmed(PrintField(fields[0]));
        FieldLinesOk(fields[1..], n + step);
    }
  }

  lemma {:induction false} DashedIsTrimmed(c: string)
    requires LineOk(Line(0, c))
    ensures LineOk(Line(0, "- " + c))
  {
    var d := "- " + c;
    forall i | 0 <= i < |d| ensures !IsBreak(d[i]) {
      if i >= 2 { assert d[i] == c[i - 2]; }
    }
  }

  lemma {:induction false} ItemsLinesOk(items: seq<Item>, n: nat)
    requires forall i :: 0 <= i < |items| ==> ItemOk(items[i])
    ensures AllLinesOk(PrintItems(items, n))
    decreases |items|
  {
    hide PrintItem, LineOk;
    if items == [] {
    } else {
      assert ItemOk(items[0]);
      ItemLinesOk(items[0], n);
      ItemsLinesOk(items[1..], n);
      LinesOkAppend(PrintItem(items[0], n), PrintItems(items[1..], n));
    }
  }

  lemma {:induction false} AllLinesOkEmpty()
    ensures AllLinesOk([])
  {
  }

  lemma {:induction false} LinesOkAppend(a: seq<Line>, b: seq<Line>)
    requires AllLinesOk(a) && AllLinesOk(b)
    ensures AllLinesOk(a + b)
  {
    hide LineOk;
  }

  lemma {:induction false} KidsLinesOk(kids: seq<Kid>, n: nat)
    requires KidsOk(kids)
    ensures AllLinesOk(PrintKids(kids, n))
    decreases kids
  {
    hide PrintKids, PrintTree, PrintField, KeyOk, Scalar.Valid, LineOk;
    if kids == [] {
      NoKids(n);
    } else {
      var first := [Line(n, PrintField(Head(kids[0])))];
      KidsShape(kids, n);
      FieldIsTrimmed(Head(kids[0]));
      IndentIsFree(PrintField(Head(kids[0])), n);
      TreeLinesOk(kids[0].tree, n);
      KidsLinesOk(kids[1..], n);
      LinesOkAppend(first, PrintTree(kids[0].tree, n));
      LinesOkAppend(first + PrintTree(kids[0].tree, n), PrintKids(kids[1..], n));
    }
  }

  lemma {:induction false} IndentIsFree(c: string, n: nat)
    requires LineOk(Line(0, c))
    ensures LineOk(Line(n, c))
  {
  }

  lemma {:induction false} TreeLinesOk(t: Tree, n: nat)
    requires TreeOk(t)
    ensures AllLinesOk(PrintTree(t, n))
    decreases t
  {
    hide LineOk, ItemOk, AllLinesOk, KidsOk, PrintKids, PrintItems;
    AllLinesOkEmpty();
    match t {
      case Leaf(_) =>
      case Branch(step, kids) => KidsLinesOk(kids, n + step);
      case Listing(step, items) => ItemsLinesOk(items, n + step);
    }
  }

  /** Parsing undoes printing: every tree of maps, lists of scalars and lists of flat maps comes back. */
  lemma {:induction false} ParseInvertsPrinting(kids: seq<Kid>)
    requires KidsOk(kids)
    ensures ParseYaml(Unlines(RenderAll(PrintKids(kids, 0)))) == Dict(MeanKids(kids, map[]))
  {
    hide PrintKids, KidsOk, IsItem;
    var ls := PrintKids(kids, 0);
    KidsLinesOk(kids, 0);
    LinesSurvive(ls);
    SplitOfUnlines(RenderAll(ls));
    KidsStart(kids, 0, []);
    KidsAreRead(kids, 0, map[], []);
    assert ls + [] == ls;
    MapStops([], 0, MeanKids(kids, map[]));
    if kids == [] { NoKids(0); }
  }

  // ── Distinct keys lose nothing ──

  ghost predicate DistinctKeys(kids: seq<Kid>) {
    forall i, j :: 0 <= i < j < |kids| ==> kids[i].key != kids[j].key
  }

  lemma {:induction false} OtherKeysAreKept(kids: seq<Kid>, acc: map<string, Node>, key: string)
    requires forall i :: 0 <= i < |kids| ==> kids[i].key != key
    ensures key in MeanKids(kids, acc) <==> key in acc
    ensures key in acc ==> MeanKids(kids, acc)[key] == acc[key]
    decreases |kids|
  {
    if kids == [] {
    } else {
      OtherKeysAreKept(kids[1..], acc[kids[0].key := Mean(kids[0].tree)], key);
    }
  }

  /** Under distinct keys the map that comes back holds exactly the children, each with its own meaning. */
  lemma {:induction false} EveryChildIsRecovered(kids: seq<Kid>, acc: map<string, Node>)
    requires DistinctKeys(kids)
    ensures forall i :: 0 <= i < |kids| ==>
      kids[i].key in MeanKids(kids, acc) && MeanKids(kids, acc)[kids[i].key] == Mean(kids[i].tree)
    ensures MeanKids(kids, acc).Keys == acc.Keys + set i | 0 <= i < |kids| :: kids[i].key
    decreases |kids|
  {
    hide Mean;
    if kids == [] {
    } else {
      var acc' := acc[kids[0].key := Mean(kids[0].tree)];
      EveryChildIsRecovered(kids[1..], acc');
      OtherKeysAreKept(kids[1..], acc', kids[0].key);
      forall i | 0 <= i < |kids|
        ensures kids[i].key in MeanKids(kids, acc) && MeanKids(kids, acc)[kids[i].key] == Mean(kids[i].tree)
      {
        if i > 0 { assert kids[i] == kids[1..][i - 1]; }
      }
      var a, b := set i | 0 <= i < |kids| :: kids[i].key, set i | 0 <= i < |kids| - 1 :: kids[1..][i].key;
      assert a == {kids[0].key} + b by {
        forall x | x in a ensures x in {kids[0].key} + b {
          var i :| 0 <= i < |kids| && kids[i].key == x;
          if i > 0 { assert kids[1..][i - 1].key == x; }
        }
        forall x | x in b ensures x in a {
          var i :| 0 <= i < |kids| - 1 && kids[1..][i].key == x;
          assert kids[i + 1].key == x;
        }
        assert kids[0].key in a;
      }
    }
  }

  ghost predicate DistinctFields(fields: seq<Field>) {
    forall i, j :: 0 <= i < j < |fields| ==> fields[i].key != fields[j].key
  }

  lemma {:induction false} OtherFieldsAreKept(fields: seq<Field>, acc: map<string, Node>, key: string)
    requires forall i :: 0 <= i < |fields| ==> fields[i].key != key
    ensures key in MeanFields(fields, acc) <==> key in acc
    ensures key in acc ==> MeanFields(fields, acc)[key] == acc[key]
    decreases |fields|
  {
    if fields == [] {
    } else {
      OtherFieldsAreKept(fields[1..], acc[fields[0].key := Str(fields[0].value.text)], key);
    }
  }

  lemma {:induction false} FieldIsRecovered(fields: seq<Field>, acc: map<string, Node>, i: nat)
    requires DistinctFields(fields) && i < |fields|
    ensures fields[i].key in MeanFields(fields, acc)
    ensures MeanFields(fields, acc)[fields[i].key] == Str(fields[i].value.text)
    decreases |fields|
  {
    var acc' := acc[fields[0].key := Str(fields[0].value.text)];
    if i == 0 {
      OtherFieldsAreKept(fields[1..], acc', fields[0].key);
    } else {
      FieldIsRecovered(fields[1..], acc', i - 1);
    }
  }

  /** Under distinct keys the record that comes back holds exactly the fields, each with its own text. */
  lemma {:induction false} EveryFieldIsRecovered(fields: seq<Field>, acc: map<string, Node>, key: string)
    requires DistinctFields(fields)
    ensures forall i :: 0 <= i < |fields| ==>
              && fields[i].key in MeanFields(fields, acc)
              && MeanFields(fields, acc)[fields[i].key] == Str(fields[i].value.text)
    ensures key in MeanFields(fields, acc) <==> key in acc || exists i :: 0 <= i < |fields| && fields[i].key == key
  {
    hide MeanFields;
    forall i | 0 <= i < |fields|
      ensures fields[i].key in MeanFields(fields, acc)
      ensures MeanFields(fields, acc)[fields[i].key] == Str(fields[i].value.text)
    {
      FieldIsRecovered(fields, acc, i);
    }
    if forall i :: 0 <= i < |fields| ==> fields[i].key != key { OtherFieldsAreKept(fields, acc, key); }
  }
}
