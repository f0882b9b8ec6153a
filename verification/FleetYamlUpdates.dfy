/**
 The merge as its caller sees it: updates are dotted or bare keys with values, and what is read back
 afterwards is compared with those values themselves.
 */
module FleetYamlUpdates {
  import opened Common
  import opened Text
  import opened FleetYaml
  import opened FleetYamlLens
  import opened FleetYamlLaws

  type Update = (string, Value)

  /** The section and key an update is for. */
  function Target(k: string): Pair { if '.' in k then (Before(k, '.'), After(k, '.')) else ("agent", k) }

  /** What the reader should find afterwards. */
  function Meaning(v: Value): string {
    match v
    case Bool(b) => if b then "true" else "false"
    case Number(text) => text
    case Str(s) => s
  }

  /** A value written without quotes that brings its own loses them. */
  predicate ReadsBack(v: Value) { v.Str? ==> NeedsQuotes(v.s) || !Enclosed(v.s) }

  ghost predicate ValueOk(v: Value) {
    match v
    case Bool(_) => true
    case Number(text) =>
      text != "" && Trimmed(text) && '#' !in text && OneLine(text) && !EndsInColon(text) && !Enclosed(text)
    case Str(s) => '#' !in s && OneLine(s)
  }

  /** What the reader does find for a value that was written. */
  function ReadAs(v: Value): string { Unquote(Scalar(v)) }

  ghost predicate UpdateOk(u: Update) {
    var (section, key) := Target(u.0);
    SectionOk(section) && Trimmed(key) && ':' !in key && '#' !in key && OneLine(key) && ValueOk(u.1)
  }

  ghost predicate UpdatesOk(us: seq<Update>) { forall i :: 0 <= i < |us| ==> UpdateOk(us[i]) }

  /** The first value given for a pair. */
  function FirstFor(us: seq<Update>, p: Pair): Option<Value> {
    if us == [] then None else if Target(us[0].0) == p then Some(us[0].1) else FirstFor(us[1..], p)
  }

  /** The last value given for a pair: the one its sender means. */
  function LastFor(us: seq<Update>, p: Pair): (v: Option<Value>)
    ensures v.Some? <==> FirstFor(us, p).Some?
  {
    if us == [] then None
    else
      var later := LastFor(us[1..], p);
      if later.Some? then later else if Target(us[0].0) == p then Some(us[0].1) else None
  }

  // ── From updates to items ──

  lemma {:induction false} ScalarOk(v: Value)
    requires ValueOk(v)
    ensures var t := Scalar(v);
            t != "" && Trimmed(t) && '#' !in t && OneLine(t) && !EndsInColon(t)
    ensures ReadAs(v) == Meaning(v) <==> ReadsBack(v)
  {
    match v {
      case Bool(_) =>
      case Number(_) =>
      case Str(s) =>
        ScalarIsAdmissible(s);
        ScalarRoundTrip(s);
    }
  }

  lemma {:induction false} ItemOfUpdate(us: seq<Update>, i: nat)
    requires i < |us|
    ensures |Normalize(us)| == |us|
    ensures Normalize(us)[i].Pair() == Target(us[i].0) && Normalize(us)[i].text == Scalar(us[i].1)
  {
    hide Scalar;
  }

  lemma {:induction false} NormalizedTail(us: seq<Update>)
    requires us != []
    ensures |Normalize(us)| == |us| && Normalize(us)[1..] == Normalize(us[1..])
  {
    hide Scalar;
  }

  lemma {:induction false} ItemsOfUpdates(us: seq<Update>)
    requires UpdatesOk(us)
    ensures ItemsOk(Normalize(us))
  {
    hide Scalar, Normalize, ValueOk, Trimmed, OneLine, EndsInColon, Target;
    forall i | 0 <= i < |Normalize(us)|
      ensures ItemOk(Normalize(us)[i])
    {
      NormalizedLength(us);
      assert UpdateOk(us[i]);
      ItemOfUpdate(us, i);
      ScalarOk(us[i].1);
    }
  }

  lemma {:induction false} NormalizedLength(us: seq<Update>)
    ensures |Normalize(us)| == |us|
  {
  }

  /** The first and the last value the merge has for a pair are those of the first and the last update for it. */
  lemma {:induction false} ValuesOfUpdates(us: seq<Update>, p: Pair)
    ensures Find(Normalize(us), p).Some? <==> FirstFor(us, p).Some?
    ensures FirstFor(us, p).Some? ==>
              && Wanted(Normalize(us))[p] == ReadAs(FirstFor(us, p).value)
              && Latest(Normalize(us))[p] == ReadAs(LastFor(us, p).value)
  {
    hide Normalize, Scalar, Unquote, Target;
    NormalizedLength(us);
    if us == [] {
    } else {
      ItemOfUpdate(us, 0);
      NormalizedTail(us);
      ValuesOfUpdates(us[1..], p);
    }
  }

  function SectionsOf(us: seq<Update>): set<string> { set i | 0 <= i < |us| :: Target(us[i].0).0 }

  lemma {:induction false} SectionsOfUpdates(us: seq<Update>)
    ensures Sections(Normalize(us)) == SectionsOf(us)
  {
    hide Scalar, Normalize, Target;
    var items := Normalize(us);
    NormalizedLength(us);
    forall i | 0 <= i < |us| ensures items[i].section == Target(us[i].0).0 && items[i] in items { ItemOfUpdate(us, i); }
    forall x | x in Sections(items) ensures x in SectionsOf(us) {
      var it :| it in items && it.section == x;
      var i :| 0 <= i < |items| && items[i] == it;
      assert Target(us[i].0).0 == x;
    }
  }

  // ── Put-get on updates ──

  /** The document in which every updated key has the value it was last given. */
  ghost predicate IsUpdated(after: Doc, before: Doc, us: seq<Update>) {
    && after.sections == before.sections + SectionsOf(us)
    && after.hasCameras == before.hasCameras && after.cameras == before.cameras
    && (forall p :: p in after.values <==> p in before.values || LastFor(us, p).Some?)
    && (forall p :: p in after.values ==>
          after.values[p] == if LastFor(us, p).Some? then Meaning(LastFor(us, p).value) else before.values[p])
  }

  /**
   A key the text does not set takes any value that reads back. A key set once takes the first value
   given, a key set twice none.
   */
  ghost predicate Takes(lines: seq<string>, us: seq<Update>, p: Pair)
    requires LastFor(us, p).Some?
  {
    var values, want := Read(lines).doc.values, LastFor(us, p).value;
    if p !in values then ReadsBack(want)
    else if p in SetTwice(lines) then values[p] == Meaning(want)
    else ReadAs(FirstFor(us, p).value) == Meaning(want)
  }

  ghost predicate AllTake(lines: seq<string>, us: seq<Update>) {
    forall p :: LastFor(us, p).Some? ==> Takes(lines, us, p)
  }

  lemma {:induction false} LastIsOk(us: seq<Update>, p: Pair)
    requires UpdatesOk(us) && LastFor(us, p).Some?
    ensures ValueOk(LastFor(us, p).value)
  {
    hide ValueOk, Target;
    if LastFor(us[1..], p).Some? {
      LastIsOk(us[1..], p);
    } else {
      assert UpdateOk(us[0]);
    }
  }

  /** The value read for an updated key after the merge is the one last given exactly when the key takes it. */
  lemma {:induction false} TakenExactly(lines: seq<string>, us: seq<Update>, p: Pair)
    requires UpdatesOk(us) && LastFor(us, p).Some? && Find(Normalize(us), p).Some?
    ensures ReadAfter(lines, Normalize(us), p) == Meaning(LastFor(us, p).value) <==> Takes(lines, us, p)
  {
    hide Read, Normalize, Wanted, Latest, SetTwice, ReadAs, Meaning, ReadsBack, ValueOk, UpdatesOk, LastFor, FirstFor,
         Find;
    ValuesOfUpdates(us, p);
    LastIsOk(us, p);
    ScalarOk(LastFor(us, p).value);
  }

  /** The texts the law is about, for given updates. */
  ghost predicate TextOk(text: string, us: seq<Update>) {
    PlainText(SplitLines(text)) && HeadersAtColumnZero(SplitLines(text), Normalize(us))
  }

  lemma {:induction false} LinesAreUpdatedExactly(lines: seq<string>, us: seq<Update>)
    requires UpdatesOk(us) && Lawful(lines, Normalize(us))
    ensures IsUpdated(Read(Merge(lines, Normalize(us))).doc, Read(lines).doc, us) <==> AllTake(lines, us)
  {
    hide Read, Merge, Normalize, UpdatesOk, Lawful, SetTwice, Wanted, Latest, Sections, SectionsOf, Find, ReadAfter,
         Takes, Meaning, LastFor, FirstFor, Changes;
    var items := Normalize(us);
    var before, after := Read(lines).doc, Read(Merge(lines, items)).doc;
    MergedLinesAreRead(lines, items);
    SectionsOfUpdates(us);
    forall p
      ensures p in after.values <==> p in before.values || LastFor(us, p).Some?
      ensures p in after.values && LastFor(us, p).None? ==> after.values[p] == before.values[p]
      ensures LastFor(us, p).Some? ==> (after.values[p] == Meaning(LastFor(us, p).value) <==> Takes(lines, us, p))
    {
      ValueAfterMerge(lines, items, p);
      ValuesOfUpdates(us, p);
      if LastFor(us, p).Some? { TakenExactly(lines, us, p); }
    }
  }

  /**
   merge_config_yaml followed by parse_min_yaml, for any updates, two for one key included: every key
   has exactly the value it was last given and nothing else has changed, if and only if every key
   takes its value.
   */
  lemma {:induction false} UpdatesAreReadExactly(text: string, us: seq<Update>)
    requires UpdatesOk(us) && TextOk(text, us)
    ensures IsUpdated(ReadText(MergeText(text, Normalize(us))), ReadText(text), us) <==> AllTake(SplitLines(text), us)
  {
    hide Read, Merge, SplitLines, Normalize, UpdatesOk, PlainText, HeadersAtColumnZero, IsUpdated, AllTake, ItemsOk,
         MergeText;
    ItemsOfUpdates(us);
    MergedTextIsRead(text, Normalize(us));
    LinesAreUpdatedExactly(SplitLines(text), us);
  }

  // ── Two names for one key ──

  /** A bare key and the same key under `agent` are two updates for one pair. */
  lemma {:induction false} BareAndDottedCollide(key: string, v: Value, w: Value)
    requires '.' !in key
    ensures var items := Normalize([("agent." + key, v), (key, w)]);
            |items| == 2 && items[0].Pair() == items[1].Pair()
  {
    hide Scalar;
    assert "agent." + key == "agent" + ['.'] + key;
    SplitAt("agent", '.', key);
    assert ("agent." + key)[5] == '.';
  }

  lemma {:induction false} FindWithout(a: seq<Item>, it: Item, b: seq<Item>, p: Pair)
    requires Find(a, it.Pair()).Some?
    ensures Find(a + [it] + b, p) == Find(a + b, p)
    decreases |a|
  {
    assert (a + [it] + b)[0] == a[0] && (a + b)[0] == a[0];
    assert (a + [it] + b)[1..] == a[1..] + [it] + b && (a + b)[1..] == a[1..] + b;
    if a[0].Pair() == it.Pair() {
      FindAfterFirst(a[0], a[1..], it, b, p);
    } else {
      FindWithout(a[1..], it, b, p);
    }
  }

  lemma {:induction false} FindAfterFirst(first: Item, a: seq<Item>, it: Item, b: seq<Item>, p: Pair)
    requires first.Pair() == it.Pair()
    ensures p != first.Pair() ==> Find(a + [it] + b, p) == Find(a + b, p)
    decreases |a|
  {
    if a == [] {
      assert a + [it] + b == [it] + b && ([it] + b)[1..] == b && a + b == b;
    } else {
      assert (a + [it] + b)[0] == a[0] && (a + b)[0] == a[0];
      assert (a + [it] + b)[1..] == a[1..] + [it] + b && (a + b)[1..] == a[1..] + b;
      FindAfterFirst(first, a[1..], it, b, p);
    }
  }

  lemma {:induction false} WriteDependsOnFind(lines: seq<string>, x: seq<Item>, y: seq<Item>)
    requires forall p :: Find(x, p) == Find(y, p)
    ensures Write(lines, x) == Write(lines, y)
    decreases |lines|
  {
    hide IsHeader, HeaderName, EntryPair, Find, Item.Line;
    if lines == [] {
    } else {
      WriteDependsOnFind(lines[..|lines| - 1], x, y);
    }
  }

  lemma {:induction false} MissingWithout(a: seq<Item>, it: Item, b: seq<Item>, applied: set<Pair>)
    requires it.Pair() in applied
    ensures Missing(a + [it] + b, applied) == Missing(a + b, applied)
    decreases |a|
  {
    if a == [] {
      assert a + [it] + b == [it] + b && ([it] + b)[1..] == b && a + b == b;
    } else {
      assert (a + [it] + b)[0] == a[0] && (a + b)[0] == a[0];
      assert (a + [it] + b)[1..] == a[1..] + [it] + b && (a + b)[1..] == a[1..] + b;
      MissingWithout(a[1..], it, b, applied);
    }
  }

  lemma {:induction false} LatestAppend(a: seq<Item>, b: seq<Item>)
    ensures Latest(a + b) == Latest(a) + Latest(b)
  {
    hide Latest, Find, Unquote;
    if a == [] {
      NoneLatest();
      assert a + b == b;
    } else {
      assert a + b == [a[0]] + (a[1..] + b) && a == [a[0]] + a[1..];
      LatestAppend(a[1..], b);
      LatestOfCons(a[0], a[1..] + b);
      LatestOfCons(a[0], a[1..]);
      PutBefore(a[0].Pair(), Unquote(a[0].text), Latest(a[1..]), Latest(b));
    }
  }

  /**
   The last update for a pair takes effect exactly when the text does not set the pair, or when what
   is left of it has that value anyway: the old value if the text sets it twice, the first update's if once.
   */
  lemma {:induction false} LastUpdateWinsExactly(lines: seq<string>, items: seq<Item>, p: Pair)
    requires Lawful(lines, items) && Find(items, p).Some?
    ensures var before, after := Read(lines).doc.values, Read(Merge(lines, items)).doc.values;
            && p in after
            && (after[p] == Latest(items)[p] <==>
                  || p !in before
                  || (if p in SetTwice(lines) then before[p] else Wanted(items)[p]) == Latest(items)[p])
  {
    hide Read, Merge, Lawful, Latest, Wanted, SetTwice, Find;
    ValueAfterMerge(lines, items, p);
  }

  /** Of two updates for a pair the text sets, the second is lost: the merge is that without it. */
  lemma {:induction false} SecondUpdateIsLost(lines: seq<string>, a: seq<Item>, it: Item, b: seq<Item>)
    requires PlainText(lines) && ItemsOk(a + b)
    requires Find(a, it.Pair()).Some? && it.Pair() in Read(lines).doc.values
    ensures Merge(lines, a + [it] + b) == Merge(lines, a + b)
  {
    hide Read, Write, Find, AddMissing, Missing, ItemsOk, PlainText, SetTwice, Overlaid, Wanted;
    forall p ensures Find(a + [it] + b, p) == Find(a + b, p) { FindWithout(a, it, b, p); }
    FindInFirst(a, b, it.Pair());
    RewriteInStep(lines, a + b);
    WriteDependsOnFind(lines, a + [it] + b, a + b);
    MissingWithout(a, it, b, Write(lines, a + b).applied);
  }

  lemma {:induction false} FindInFirst(a: seq<Item>, b: seq<Item>, p: Pair)
    requires Find(a, p).Some?
    ensures Find(a + b, p) == Find(a, p)
  {
    assert (a + b)[0] == a[0] && (a + b)[1..] == a[1..] + b;
    if a[0].Pair() != p { FindInFirst(a[1..], b, p); }
  }

  /** Of the updates for a pair the text does not set, all but the last are lost: its value is read. */
  lemma {:induction false} FirstUpdateIsLost(lines: seq<string>, a: seq<Item>, it: Item, b: seq<Item>)
    requires Lawful(lines, a + [it] + b)
    requires Find(b, it.Pair()).None? && it.Pair() !in Read(lines).doc.values
    ensures var after := Read(Merge(lines, a + [it] + b)).doc.values;
            it.Pair() in after && after[it.Pair()] == Unquote(it.text)
  {
    hide Read, Merge, Lawful, Latest, Find, SetTwice, Unquote;
    LatestAppend(a + [it], b);
    LatestAppend(a, [it]);
    OneLatest(it);
    ValueAfterMerge(lines, a + [it] + b, it.Pair());
  }

  lemma {:induction false} OneLatest(it: Item)
    ensures Latest([it]) == map[it.Pair() := Unquote(it.text)]
  {
    LatestOfCons(it, []);
    assert [it] + [] == [it];
  }
}
