/** Loading undoes saving: every written field other than a floating-point number comes back. */
module ConfigRoundTrip {
  import opened Common
  import opened CText
  import opened ConfigFile
  import opened ConfigValues
  import Text

  // ── One line ──

  lemma {:induction false} IndentationOfIndented(n: nat, s: string)
    requires s != "" && s[0] != ' ' && s[0] != '\t'
    ensures Indentation(Text.Spaces(n) + s) == n
    decreases n
  {
    if n == 0 {
      assert Text.Spaces(n) + s == s;
    } else {
      assert (Text.Spaces(n) + s)[1..] == Text.Spaces(n - 1) + s;
      IndentationOfIndented(n - 1, s);
    }
  }

  /** What a field line says once trimmed. */
  function Content(key: string, shown: string): string { if shown == "" then key + ":" else key + ": " + shown }

  lemma {:induction false} ContentIsClean(key: string, shown: string)
    requires KeyLike(key) && Clean(shown)
    ensures Clean(Content(key, shown)) && Content(key, shown) != "" && Content(key, shown)[0] == key[0]
  {
    KeyLikeIsPlain(key);
  }

  lemma {:induction false} RawIsTrimmed(n: nat, key: string, shown: string)
    requires KeyLike(key) && Clean(shown)
    ensures var raw := Text.Spaces(n) + key + ": " + shown;
            Trim(raw) == Content(key, shown) && Indentation(raw) == n
  {
    hide Trim, KeyLike;
    var raw, c := Text.Spaces(n) + key + ": " + shown, Content(key, shown);
    ContentIsClean(key, shown);
    KeyLikeIsPlain(key);
    TrimOfIndented(n, c);
    if shown == "" {
      assert raw == Text.Spaces(n) + c + " ";
      TrailingSpace(Text.Spaces(n) + c);
    } else {
      assert raw == Text.Spaces(n) + c;
    }
    assert raw == Text.Spaces(n) + (key + ": " + shown);
    IndentationOfIndented(n, key + ": " + shown);
  }

  lemma {:induction false} ContentSplits(key: string, shown: string)
    requires KeyLike(key) && Clean(shown)
    ensures ':' in Content(key, shown)
    ensures Trim(Text.Before(Content(key, shown), ':')) == key && Trim(Text.After(Content(key, shown), ':')) == shown
  {
    hide Trim, KeyLike;
    KeyLikeIsPlain(key);
    TrimOfClean(key);
    var v := if shown == "" then "" else " " + shown;
    var c := Content(key, shown);
    assert c == key + [':'] + v && c[|key|] == ':';
    Text.SplitAt(key, ':', v);
    if shown == "" {
      TrimOfClean(v);
    } else {
      assert v == Text.Spaces(1) + shown;
      TrimOfIndented(1, shown);
    }
  }

  lemma {:induction false} DetectIsNoField()
    ensures SlotFor(CameraItem, "detect") == None
  {
  }

  /** The state after a field has been read: unchanged if nothing was printed for it. */
  function Updated(st: Loader, s: Slot, shown: string, fl: Floats): Loader
    requires HasTarget(st)
  {
    if shown == "" then st else WithTarget(st, Target(st)[s := ReadValue(KindOf(s), shown, fl)])
  }

  lemma {:induction false} FieldIsAssigned(st: Loader, n: nat, s: Slot, shown: string, fl: Floats)
    requires HasTarget(st) && st.sec == Home(s) && (st.sec == CameraDetect ==> n > 4)
    ensures ReadField(st, n, KeyOf(s), shown, fl) == Updated(st, s, shown, fl)
  {
    hide SlotFor, KeyOf, KindOf, ReadValue, KeyLike, Home;
    KeyIsDispatched(s);
    DetectIsNoField();
  }

  lemma {:induction false} FieldLineIsRead(st: Loader, n: nat, s: Slot, v: Value, fl: Floats)
    requires HasTarget(st) && st.sec == Home(s) && (st.sec == CameraDetect ==> n > 4) && n > 0
    requires Good(KindOf(s), v) && SaneFloats(fl)
    ensures ReadLine(st, FieldLine(n, s, v, fl), fl) == Updated(st, s, ShowValue(KindOf(s), v, fl), fl)
  {
    hide Trim, KeyOf, KindOf, ReadField, Updated, ShowValue, Good, Indentation, KeyLike, Content, Home, SlotFor;
    var key, shown := KeyOf(s), ShowValue(KindOf(s), v, fl);
    KeyIsDispatched(s);
    KeyLikeIsPlain(key);
    ShownIsClean(KindOf(s), v, fl);
    RawIsTrimmed(n, key, shown);
    ContentIsClean(key, shown);
    ContentSplits(key, shown);
    FieldIsAssigned(st, n, s, shown, fl);
  }

  // ── The fields of a section ──

  ghost predicate Agrees(t: Fields, m: Fields, slots: seq<Slot>) {
    forall s :: s in slots && !KindOf(s).FracKind? ==> Get(t, s) == Get(m, s)
  }

  ghost predicate AllRestorable(m: Fields, slots: seq<Slot>) {
    forall i :: 0 <= i < |slots| ==> Restorable(m, slots[i])
  }

  /** Only these fields changed. */
  ghost predicate OnlyOn(t: Fields, u: Fields, slots: seq<Slot>) {
    forall s :: s !in slots ==> (s in t <==> s in u) && Get(t, s) == Get(u, s)
  }

  lemma {:induction false} FieldIsRestored(st: Loader, m: Fields, s: Slot, fl: Floats)
    requires HasTarget(st) && Restorable(m, s) && SaneFloats(fl) && s !in Target(st) && !KindOf(s).FracKind?
    ensures Get(Target(Updated(st, s, ShowValue(KindOf(s), Get(m, s), fl), fl)), s) == Get(m, s)
    ensures !Writes(m, s) ==> Initial(s) == Get(m, s)
  {
    hide ShowValue, ReadValue, Good;
    ValueIsRead(KindOf(s), Get(m, s), fl);
    InitialNames();
  }

  lemma {:induction false} InitialNames()
    ensures forall s :: KindOf(s).NamesKind? ==> Initial(s) == Names([])
    ensures Initial(EncryptionKey) == Initial(StoreId) == Initial(Alias) == Initial(Room) == Initial(StreamKey) ==
      Str("")
  {
  }

  lemma {:induction false} UpdatedFrame(st: Loader, s: Slot, shown: string, fl: Floats)
    requires HasTarget(st)
    ensures var u := Updated(st, s, shown, fl);
            HasTarget(u) && u.sec == st.sec && u == WithTarget(st, Target(u)) && OnlyOn(Target(u), Target(st), [s])
  {
    hide ReadValue, KindOf, Initial;
  }

  lemma {:induction false} ReadLinesAppend(st: Loader, a: seq<string>, b: seq<string>, fl: Floats)
    ensures ReadLines(st, a + b, fl) == ReadLines(ReadLines(st, a, fl), b, fl)
    decreases |a|
  {
    hide ReadLine;
    if a == [] {
      assert a + b == b;
    } else {
      assert (a + b)[0] == a[0] && (a + b)[1..] == a[1..] + b;
      ReadLinesAppend(ReadLine(st, a[0], fl), a[1..], b, fl);
    }
  }

  lemma {:induction false} ReadOne(st: Loader, raw: string, fl: Floats)
    ensures ReadLines(st, [raw], fl) == ReadLine(st, raw, fl)
  {
    hide ReadLine;
    assert [raw][1..] == [];
    assert ReadLines(ReadLine(st, raw, fl), [], fl) == ReadLine(st, raw, fl);
  }

  /** The state after one field: written and read, or not written. */
  function AfterField(st: Loader, m: Fields, s: Slot, fl: Floats): Loader
    requires HasTarget(st)
  {
    if Writes(m, s) then Updated(st, s, ShowValue(KindOf(s), Get(m, s), fl), fl) else st
  }

  lemma {:induction false} FieldsStep(st: Loader, m: Fields, slots: seq<Slot>, n: nat, fl: Floats)
    requires slots != [] && HasTarget(st) && st.sec == Home(slots[0]) && (st.sec == CameraDetect ==> n > 4) && n > 0
    requires Good(KindOf(slots[0]), Get(m, slots[0])) && SaneFloats(fl)
    ensures ReadLines(st, FieldLines(m, slots, n, fl), fl)
         == ReadLines(AfterField(st, m, slots[0], fl), FieldLines(m, slots[1..], n, fl), fl)
  {
    hide ReadLine, ReadLines, Updated, ShowValue, KindOf, Good, Writes, FieldLine, Home, Get, HasTarget;
    var s, rest := slots[0], FieldLines(m, slots[1..], n, fl);
    if Writes(m, s) {
      var l := FieldLine(n, s, Get(m, s), fl);
      assert FieldLines(m, slots, n, fl) == [l] + rest;
      FieldLineIsRead(st, n, s, Get(m, s), fl);
      ReadOne(st, l, fl);
      ReadLinesAppend(st, [l], rest, fl);
    } else {
      assert FieldLines(m, slots, n, fl) == rest;
    }
  }

  lemma {:induction false} AfterFieldFrame(st: Loader, m: Fields, s: Slot, fl: Floats)
    requires HasTarget(st) && Restorable(m, s) && SaneFloats(fl) && s !in Target(st)
    ensures var u := AfterField(st, m, s, fl);
            && HasTarget(u) && u.sec == st.sec && u == WithTarget(st, Target(u)) && OnlyOn(Target(u), Target(st), [s])
            && (!KindOf(s).FracKind? ==> Get(Target(u), s) == Get(m, s))
  {
    hide Updated, Restorable, ShowValue, KindOf, Writes;
    UpdatedFrame(st, s, ShowValue(KindOf(s), Get(m, s), fl), fl);
    if !KindOf(s).FracKind? { FieldIsRestored(st, m, s, fl); }
  }

  lemma {:induction false} WithTargetTwice(st: Loader, a: Fields, b: Fields)
    requires HasTarget(st)
    ensures HasTarget(WithTarget(st, a)) && WithTarget(WithTarget(st, a), b) == WithTarget(st, b)
    ensures Target(WithTarget(st, a)) == a && WithTarget(st, Target(st)) == st
  {
  }

  ghost predicate Unset(t: Fields, slots: seq<Slot>) { forall s :: s in slots ==> s !in t }

  lemma {:induction false} TailIsUnset(t0: Fields, t1: Fields, slots: seq<Slot>)
    requires slots != [] && slots[0] !in slots[1..] && Unset(t0, slots) && OnlyOn(t1, t0, [slots[0]])
    ensures Unset(t1, slots[1..])
  {
    hide Get;
  }

  lemma {:induction false} StepThenTail(t0: Fields, t1: Fields, t2: Fields, m: Fields, slots: seq<Slot>)
    requires slots != [] && slots[0] !in slots[1..]
    requires OnlyOn(t1, t0, [slots[0]]) && (!KindOf(slots[0]).FracKind? ==> Get(t1, slots[0]) == Get(m, slots[0]))
    requires OnlyOn(t2, t1, slots[1..]) && Agrees(t2, m, slots[1..])
    ensures OnlyOn(t2, t0, slots) && Agrees(t2, m, slots)
  {
    hide Get, KindOf;
    assert slots == [slots[0]] + slots[1..];
  }

  /** Reading what a section writes restores its fields and changes nothing else. */
  lemma {:induction false} FieldsAreRead(st: Loader, m: Fields, slots: seq<Slot>, n: nat, from: nat, fl: Floats)
    requires HasTarget(st) && Proper(slots, st.sec, from) && (st.sec == CameraDetect ==> n > 4) && n > 0
    requires AllRestorable(m, slots) && SaneFloats(fl) && Unset(Target(st), slots)
    ensures var u := ReadLines(st, FieldLines(m, slots, n, fl), fl);
            && HasTarget(u) && u.sec == st.sec && u == WithTarget(st, Target(u))
            && OnlyOn(Target(u), Target(st), slots) && Agrees(Target(u), m, slots)
    decreases |slots|
  {
    hide HasTarget, Target, WithTarget, Restorable, KindOf, AfterField, Initial, Home, Place, Get, OnlyOn, Agrees,
         Unset, FieldLines, ReadLines, SaneFloats;
    if slots == [] {
      NoFields(st, m, n, fl);
    } else {
      var s, tail := slots[0], slots[1..];
      var u := AfterField(st, m, s, fl);
      assert Restorable(m, s) && Home(s) == st.sec;
      assert s !in Target(st) by { HeadIsUnset(Target(st), slots); }
      RestorableIsGood(m, s);
      FieldsStep(st, m, slots, n, fl);
      AfterFieldFrame(st, m, s, fl);
      TailIsProper(slots, st.sec, from);
      TailIsUnset(Target(st), Target(u), slots);
      FieldsAreRead(u, m, tail, n, from + 1, fl);
      var w := ReadLines(u, FieldLines(m, tail, n, fl), fl);
      StepThenTail(Target(st), Target(u), Target(w), m, slots);
      WithTargetTwice(st, Target(u), Target(w));
    }
  }

  lemma {:induction false} HeadIsUnset(t: Fields, slots: seq<Slot>)
    requires slots != [] && Unset(t, slots)
    ensures slots[0] !in t
  {
  }

  lemma {:induction false} NoFields(st: Loader, m: Fields, n: nat, fl: Floats)
    requires HasTarget(st)
    ensures var u := ReadLines(st, FieldLines(m, [], n, fl), fl);
            u == st && u == WithTarget(st, Target(u)) && OnlyOn(Target(u), Target(st), []) && Agrees(Target(u), m, [])
  {
    WithTargetTwice(st, Target(st), Target(st));
    assert FieldLines(m, [], n, fl) == [];
    assert ReadLines(st, [], fl) == st;
  }

  lemma {:induction false} RestorableIsGood(m: Fields, s: Slot)
    requires Restorable(m, s)
    ensures Good(KindOf(s), Get(m, s))
  {
  }

  lemma {:induction false} TailIsProper(slots: seq<Slot>, sec: Section, from: nat)
    requires slots != [] && Proper(slots, sec, from)
    ensures Proper(slots[1..], sec, from + 1) && slots[0] !in slots[1..]
  {
    hide Home, Place;
    forall i | 0 <= i < |slots| - 1 ensures slots[1..][i] != slots[0] { assert Place(slots[i + 1]) == from + i + 1; }
  }

  // ── Cameras ──

  lemma {:induction false} ItemIsTrimmed(key: string, shown: string)
    requires KeyLike(key) && Clean(shown)
    ensures var raw := "  - " + key + ": " + shown;
            Trim(raw) == "- " + Content(key, shown) && Indentation(raw) == 2
    ensures LTrim(("- " + Content(key, shown))[1..]) == Content(key, shown)
  {
    hide Trim, KeyLike, LTrim, RTrim, Content, Indentation;
    var raw, c := "  - " + key + ": " + shown, Content(key, shown);
    ContentIsClean(key, shown);
    ContentShape(key, shown);
    TrimOfIndented(2, "- " + c);
    var kv := key + ": " + shown;
    assert raw == Text.Spaces(2) + ("- " + kv);
    if shown == "" {
      assert kv == c + " ";
      assert raw == Text.Spaces(2) + ("- " + c) + " ";
      TrailingSpace(Text.Spaces(2) + ("- " + c));
    } else {
      assert kv == c;
    }
    assert "- " + kv == "- " + key + ": " + shown;
    IndentationOfIndented(2, "- " + key + ": " + shown);
    assert ("- " + c)[1..] == Text.Spaces(1) + c;
    LTrimOfSpaces(1, c);
  }

  lemma {:induction false} ContentShape(key: string, shown: string)
    ensures Content(key, shown) + (if shown == "" then " " else "") == key + ": " + shown
  {
  }

  /** A camera's first line opens it and gives it its id. */
  lemma {:induction false} ItemLineIsRead(st: Loader, cam: Fields, fl: Floats)
    requires OfCamera(st.sec) && |st.cfg.cams| < MAX_CAMERAS
    requires Good(KindOf(CamId), Get(cam, CamId)) && SaneFloats(fl)
    ensures HasTarget(NewCamera(st)) && Target(NewCamera(st)) == map[]
    ensures var shown := ShowValue(KindOf(CamId), Get(cam, CamId), fl);
            ReadLine(st, "  - " + KeyOf(CamId) + ": " + shown, fl) == Updated(NewCamera(st), CamId, shown, fl)
  {
    hide Trim, LTrim, KeyOf, KindOf, ReadField, Updated, ShowValue, Good, Indentation, KeyLike, Content, SlotFor;
    var key, shown := KeyOf(CamId), ShowValue(KindOf(CamId), Get(cam, CamId), fl);
    KeyIsDispatched(CamId);
    ShownIsClean(KindOf(CamId), Get(cam, CamId), fl);
    ItemIsTrimmed(key, shown);
    ContentSplits(key, shown);
    FieldIsAssigned(NewCamera(st), 2, CamId, shown, fl);
  }

  lemma {:induction false} DetectLineIsTrimmed()
    ensures Trim("    detect:") == "detect:" && Indentation("    detect:") == 4
  {
    hide LTrim, RTrim;
    assert "    detect:" == Text.Spaces(4) + "detect:";
    TrimOfIndented(4, "detect:");
    IndentationOfIndented(4, "detect:");
  }

  lemma {:induction false} DetectLineSplits()
    ensures Trim(Text.Before("detect:", ':')) == "detect" && Trim(Text.After("detect:", ':')) == ""
  {
    hide LTrim, RTrim;
    assert "detect:" == "detect" + [':'] + "";
    Text.SplitAt("detect", ':', "");
    TrimOfClean("detect");
    TrimOfClean("");
  }

  lemma {:induction false} DetectLineIsRead(st: Loader, fl: Floats)
    requires st.sec == CameraItem && HasTarget(st)
    ensures ReadLine(st, "    detect:", fl) == st.(sec := CameraDetect)
  {
    hide Trim, LTrim, Indentation, Assign;
    DetectLineIsTrimmed();
    DetectLineSplits();
    assert "detect:"[0] == 'd' && "detect:"[6] == ':';
  }

  const ALL_CAMERA_SLOTS := [CamId] + CAMERA_SLOTS + DETECT_SLOTS

  ghost predicate CameraOk(cam: Fields) {
    Restorable(cam, CamId) && AllRestorable(cam, CAMERA_SLOTS) && AllRestorable(cam, DETECT_SLOTS)
  }

  lemma {:induction false} DetectIsWritten(cam: Fields)
    requires AllRestorable(cam, DETECT_SLOTS)
    ensures WritesDetect(cam)
  {
    assert DETECT_SLOTS[4] == Model;
    assert Restorable(cam, Model);
  }

  /** Fields only the later lists set are still unset, and fields the earlier ones set stay as they are. */
  lemma {:induction false} CameraParts(t1: Fields, t2: Fields, t3: Fields, cam: Fields)
    requires OnlyOn(t1, map[], [CamId]) && Get(t1, CamId) == Get(cam, CamId)
    requires OnlyOn(t2, t1, CAMERA_SLOTS) && Agrees(t2, cam, CAMERA_SLOTS)
    requires OnlyOn(t3, t2, DETECT_SLOTS) && Agrees(t3, cam, DETECT_SLOTS)
    ensures Agrees(t3, cam, ALL_CAMERA_SLOTS)
  {
    hide Get, KindOf;
    HomesDiffer();
    forall s | s in ALL_CAMERA_SLOTS && !KindOf(s).FracKind? ensures Get(t3, s) == Get(cam, s) {
      if s in DETECT_SLOTS {
      } else if s in CAMERA_SLOTS {
      } else {
        assert s == CamId;
      }
    }
  }

  lemma {:induction false} HomesDiffer()
    ensures CamId !in CAMERA_SLOTS && CamId !in DETECT_SLOTS
    ensures forall s :: s in CAMERA_SLOTS ==> s !in DETECT_SLOTS
  {
    hide Home, Place;
    CameraSlotsAreProper();
    DetectSlotsAreProper();
    assert Home(CamId) == CameraItem && Place(CamId) == 15 by { CamIdPlace(); }
  }

  lemma {:induction false} CamIdPlace()
    ensures Home(CamId) == CameraItem && Place(CamId) == 15
  {
  }

  lemma {:induction false} UnsetAfter(t: Fields, u: Fields, done: seq<Slot>, slots: seq<Slot>)
    requires OnlyOn(u, t, done) && Unset(t, slots) && forall s :: s in slots ==> s !in done
    ensures Unset(u, slots)
  {
    hide Get;
  }

  ghost predicate CameraRead(st: Loader, u: Loader, cam: Fields) {
    && u.sec == CameraDetect && |u.cfg.cams| == |st.cfg.cams| + 1
    && u.cfg == st.cfg.(cams := st.cfg.cams + [u.cfg.cams[|st.cfg.cams|]])
    && Agrees(u.cfg.cams[|st.cfg.cams|], cam, ALL_CAMERA_SLOTS)
  }

  lemma {:induction false} CameraIsRead(st: Loader, cam: Fields, fl: Floats)
    requires OfCamera(st.sec) && |st.cfg.cams| < MAX_CAMERAS && CameraOk(cam) && SaneFloats(fl)
    ensures CameraRead(st, ReadLines(st, CameraLines(cam, fl), fl), cam)
  {
    hide ReadLines, ReadLine, FieldLines, KeyOf, KindOf, ShowValue, Restorable, AllRestorable, Get, SaneFloats, Agrees,
         OnlyOn, Proper, Unset, WritesDetect, Updated, Home, Place;
    var n, s0 := |st.cfg.cams|, NewCamera(st);
    var shown := ShowValue(KindOf(CamId), Get(cam, CamId), fl);
    var item := "  - " + KeyOf(CamId) + ": " + shown;
    var a, b := FieldLines(cam, CAMERA_SLOTS, 4, fl), FieldLines(cam, DETECT_SLOTS, 6, fl);
    DetectIsWritten(cam);
    assert CameraLines(cam, fl) == [item] + (a + (["    detect:"] + b));
    RestorableIsGood(cam, CamId);
    ItemLineIsRead(st, cam, fl);
    ReadOne(st, item, fl);
    ReadLinesAppend(st, [item], a + (["    detect:"] + b), fl);
    var s1 := Updated(s0, CamId, shown, fl);
    CamIdIsRestored(s0, cam, fl);
    FreshIsUnset(Target(s1));
    CameraSlotsAreProper();
    DetectSlotsAreProper();
    FieldsAreRead(s1, cam, CAMERA_SLOTS, 4, 0, fl);
    var s2 := ReadLines(s1, a, fl);
    ReadLinesAppend(s1, a, ["    detect:"] + b, fl);
    DetectLineIsRead(s2, fl);
    ReadOne(s2, "    detect:", fl);
    ReadLinesAppend(s2, ["    detect:"], b, fl);
    var s3 := s2.(sec := CameraDetect);
    HomesDiffer();
    DetectStillUnset(Target(s1), Target(s2));
    FieldsAreRead(s3, cam, DETECT_SLOTS, 6, 0, fl);
    CameraParts(Target(s1), Target(s2), Target(ReadLines(s3, b, fl)), cam);
  }

  lemma {:induction false} CamIdIsRestored(st: Loader, cam: Fields, fl: Floats)
    requires HasTarget(st) && st.sec == CameraItem && Target(st) == map[] && Restorable(cam, CamId) && SaneFloats(fl)
    ensures var u := Updated(st, CamId, ShowValue(KindOf(CamId), Get(cam, CamId), fl), fl);
            && HasTarget(u) && u.sec == CameraItem && u == WithTarget(st, Target(u))
            && OnlyOn(Target(u), map[], [CamId]) && Get(Target(u), CamId) == Get(cam, CamId)
  {
    hide ShowValue, ReadValue, Restorable, OnlyOn, Updated;
    UpdatedFrame(st, CamId, ShowValue(KindOf(CamId), Get(cam, CamId), fl), fl);
    FieldIsRestored(st, cam, CamId, fl);
  }

  lemma {:induction false} FreshIsUnset(t: Fields)
    requires OnlyOn(t, map[], [CamId])
    ensures Unset(t, CAMERA_SLOTS) && Unset(t, DETECT_SLOTS)
  {
    hide Get;
    HomesDiffer();
  }

  lemma {:induction false} DetectStillUnset(t: Fields, u: Fields)
    requires OnlyOn(u, t, CAMERA_SLOTS) && Unset(t, DETECT_SLOTS)
    ensures Unset(u, DETECT_SLOTS)
  {
    hide Get;
    HomesDiffer();
    UnsetAfter(t, u, CAMERA_SLOTS, DETECT_SLOTS);
  }
}
