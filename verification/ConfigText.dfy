/** config.yml as a stream of characters, read in pieces of at most 1023 by fgets. */
module ConfigText {
  import opened CText
  import opened ConfigFile
  import opened ConfigValues
  import opened ConfigRaw
  import opened ConfigSaveLoad
  import Text

  const LINE_MAX := 1023

  function LineEnd(text: string): (e: nat)
    ensures e <= |text| && (forall i :: 0 <= i < e ==> text[i] != '\n') && (e < |text| ==> text[e] == '\n')
  {
    if text == "" || text[0] == '\n' then 0
    else
      var e := LineEnd(text[1..]);
      assert forall i :: 0 < i < e + 1 ==> text[i] == text[1..][i - 1];
      e + 1
  }

  /** The lines successive calls of fgets deliver, newline removed: a longer line comes in pieces. */
  function ReadText(text: string): seq<string>
    decreases |text|
  {
    if text == "" then []
    else
      var e := LineEnd(text);
      if e < |text| && e < LINE_MAX then [text[..e]] + ReadText(text[e + 1..])
      else if e < LINE_MAX then [text]
      else [text[..LINE_MAX]] + ReadText(text[LINE_MAX..])
  }

  /** A line one call of fgets can hold. */
  ghost predicate LineFits(l: string) { '\n' !in l && |l| <= LINE_MAX }

  ghost predicate AllFit(ls: seq<string>) { forall i :: 0 <= i < |ls| ==> LineFits(ls[i]) }

  lemma {:induction false} LineEndAt(l: string, rest: string)
    requires '\n' !in l
    ensures LineEnd(l + "\n" + rest) == |l|
  {
    hide LineEnd;
    var t := l + "\n" + rest;
    assert t[|l|] == '\n';
    forall i | 0 <= i < |l| ensures t[i] != '\n' {
      assert t[i] == l[i] && l[i] in l;
    }
  }

  /** A line of exactly 1023 characters leaves its newline to the next call, as an empty line. */
  lemma {:induction false} LineIsRead(l: string, rest: string)
    requires LineFits(l)
    ensures ReadText(l + "\n" + rest) == (if |l| < LINE_MAX then [l] else [l, ""]) + ReadText(rest)
  {
    hide LineEnd;
    var t := l + "\n" + rest;
    LineEndAt(l, rest);
    if |l| < LINE_MAX {
      assert t[..|l|] == l && t[|l| + 1..] == rest;
    } else {
      assert t[..LINE_MAX] == l && t[LINE_MAX..] == "" + "\n" + rest;
      LineEndAt("", rest);
      assert ("" + "\n" + rest)[..0] == "" && ("" + "\n" + rest)[1..] == rest;
    }
  }

  lemma {:induction false} EmptyLineIsSkipped(st: Loader, fl: Floats)
    ensures ReadLine(st, "", fl) == st
  {
    hide OpenSection, ReadItem;
  }

  /** Reading the text of fitting lines is reading the lines. */
  lemma {:induction false} TextIsRead(st: Loader, ls: seq<string>, fl: Floats)
    requires AllFit(ls)
    ensures ReadLines(st, ReadText(Text.Unlines(ls)), fl) == ReadLines(st, ls, fl)
    decreases |ls|
  {
    hide ReadLine, ReadText, LineFits;
    if ls == [] {
      assert ReadText("") == [] by { NoText(); }
    } else {
      var l, rest := ls[0], Text.Unlines(ls[1..]);
      var u := ReadLine(st, l, fl);
      LineIsRead(l, rest);
      TextIsRead(u, ls[1..], fl);
      PieceIsRead(st, l, ReadText(rest), fl);
    }
  }

  lemma {:induction false} NoText()
    ensures ReadText("") == []
  {
  }

  lemma {:induction false} PieceIsRead(st: Loader, l: string, more: seq<string>, fl: Floats)
    ensures ReadLines(st, [l] + more, fl) == ReadLines(ReadLine(st, l, fl), more, fl)
    ensures ReadLines(st, [l, ""] + more, fl) == ReadLines(ReadLine(st, l, fl), more, fl)
  {
    hide ReadLine;
    assert ([l] + more)[1..] == more;
    assert ([l, ""] + more)[1..] == [""] + more && ([""] + more)[1..] == more;
    EmptyLineIsSkipped(ReadLine(st, l, fl), fl);
  }

  // ── What any load leaves in the fields ──

  /** One line, within its buffer. */
  ghost predicate Fits(k: Kind, v: Value) {
    match (k, v)
    case (TextKind(size), Str(t)) => '\n' !in t && |t| < size <= 512
    case (QuotedKind(size), Str(t)) => '\n' !in t && |t| < size <= 512
    case (FilledKind(size, fallback), Str(t)) =>
      '\n' !in t && |t| < size <= 512 && '\n' !in fallback && |fallback| < 512
    case (FlagKind, Flag(_)) => true
    case (NumKind, Num(n)) => IsInt32(n)
    case (CountKind, Num(n)) => IsInt32(n)
    case (FracKind(_), Frac(_)) => true
    case (ModeKind, Where(_)) => true
    case (NamesKind, Names(ns)) => NamesFit(ns)
    case _ => false
  }

  ghost predicate NamesFit(ns: seq<string>) {
    |ns| <= MAX_TARGETS && forall i :: 0 <= i < |ns| ==> '\n' !in ns[i] && |ns[i]| < MAX_TARGET_LEN
  }

  ghost predicate FieldsFit(m: Fields) { forall s :: Fits(KindOf(s), Get(m, s)) }

  predicate HasDefault(s: Slot) {
    match s
    case RecordsEnabled | RecordsTtl | MqttPort | WebPort | WebUser | WebPass | Status => true
    case PollInterval | Fps | TrackBuffer | Confidence | TrackHigh | TrackLow | NewTrack | MatchThresh => true
    case _ => false
  }

  lemma {:induction false} DefaultFits(s: Slot)
    requires HasDefault(s)
    ensures Fits(KindOf(s), Initial(s))
  {
  }

  lemma {:induction false} ZeroFits(k: Kind)
    requires match k
      case TextKind(size) => 0 < size <= 512
      case QuotedKind(size) => 0 < size <= 512
      case FilledKind(size, fallback) => |fallback| < size <= 512 && '\n' !in fallback
      case _ => true
    ensures Fits(k, Zero(k))
  {
  }

  lemma {:induction false} InitialFits(s: Slot)
    ensures Fits(KindOf(s), Initial(s))
  {
    hide KindOf, Zero, Fits;
    if HasDefault(s) {
      DefaultFits(s);
    } else {
      KindsAreSized(s);
      ZeroFits(KindOf(s));
    }
  }

  lemma {:induction false} NothingSetFits()
    ensures FieldsFit(map[])
  {
    hide Fits, KindOf, Initial;
    forall s ensures Fits(KindOf(s), Get(map[], s)) { InitialFits(s); }
  }

  lemma {:induction false} SetValueFits(val: string, size: nat)
    requires '\n' !in val && size > 0
    ensures '\n' !in SetValue(val, size) && |SetValue(val, size)| < size
  {
  }

  lemma {:induction false} BeforeIsPart(s: string, c: char)
    ensures forall x :: x in Text.Before(s, c) ==> x in s
    ensures forall x :: x in Text.After(s, c) ==> x in s
    decreases |s|
  {
    if s == [] {
    } else {
      BeforeIsPart(s[1..], c);
    }
  }

  lemma {:induction false} ReadNamesFit(s: string, acc: seq<string>)
    requires '\n' !in s && NamesFit(acc)
    ensures NamesFit(ReadNames(s, acc))
    decreases |s|
  {
    hide Trim, SetValue;
    if s != "" && |acc| < MAX_TARGETS {
      var b := Text.Before(s, ',');
      BeforeIsPart(s, ',');
      TrimIsPart(b);
      SetValueFits(Trim(b), MAX_TARGET_LEN);
      ReadNamesFit(Text.After(s, ','), if Trim(b) == "" then acc else acc + [SetValue(Trim(b), MAX_TARGET_LEN)]);
    }
  }

  lemma {:induction false} KindsAreSized(s: Slot)
    ensures match KindOf(s)
      case TextKind(size) => 0 < size <= 512
      case QuotedKind(size) => 0 < size <= 512
      case FilledKind(size, fallback) => |fallback| < size <= 512 && '\n' !in fallback
      case _ => true
  {
  }

  lemma {:induction false} ReadValueFits(s: Slot, val: string, fl: Floats)
    requires '\n' !in val
    ensures Fits(KindOf(s), ReadValue(KindOf(s), val, fl))
  {
    hide KindOf, SetValue, ReadNames, Atoi, ParseMode, NamesFit;
    KindsAreSized(s);
    match KindOf(s) {
      case TextKind(size) => SetValueFits(val, size);
      case QuotedKind(size) => SetValueFits(val, size);
      case FilledKind(size, _) => SetValueFits(val, size);
      case NamesKind =>
        NoNamesFit();
        ReadNamesFit(if |val| < TARGETS_BUFFER then val else val[..TARGETS_BUFFER - 1], []);
      case _ =>
    }
  }

  lemma {:induction false} NoNamesFit()
    ensures NamesFit([])
  {
  }

  lemma {:induction false} SetFits(m: Fields, s: Slot, v: Value)
    requires FieldsFit(m) && Fits(KindOf(s), v)
    ensures FieldsFit(m[s := v])
  {
    hide Fits, KindOf, Initial;
    forall x ensures Fits(KindOf(x), Get(m[s := v], x)) {
      assert Fits(KindOf(x), Get(m, x));
    }
  }

  ghost predicate AllFieldsFit(cfg: Config) {
    FieldsFit(cfg.top) && forall i :: 0 <= i < |cfg.cams| ==> FieldsFit(cfg.cams[i])
  }

  lemma {:induction false} SetAllFits(cams: seq<Fields>, s: Slot, v: Value)
    requires Fits(KindOf(s), v) && forall i :: 0 <= i < |cams| ==> FieldsFit(cams[i])
    ensures |SetAll(cams, s, v)| == |cams| && forall i :: 0 <= i < |cams| ==> FieldsFit(SetAll(cams, s, v)[i])
    decreases |cams|
  {
    hide FieldsFit, Fits, KindOf;
    if cams == [] {
    } else {
      SetAllFits(cams[..|cams| - 1], s, v);
      SetFits(cams[|cams| - 1], s, v);
    }
  }

  lemma {:induction false} AssignFits(st: Loader, key: string, val: string, fl: Floats)
    requires AllFieldsFit(st.cfg) && '\n' !in val
    ensures AllFieldsFit(Assign(st, key, val, fl).cfg)
  {
    hide FieldsFit, Fits, KindOf, SlotFor, ReadValue, Atoi;
    var slot := SlotFor(st.sec, key);
    if slot.Some? {
      var s := slot.value;
      ReadValueFits(s, val, fl);
      var v := ReadValue(KindOf(s), val, fl);
      SetAllFits(st.cfg.cams, s, v);
      if HasTarget(st) { SetFits(Target(st), s, v); }
    }
  }

  lemma {:induction false} ItemFits(st: Loader, n: nat, line: string, fl: Floats)
    requires AllFieldsFit(st.cfg) && '\n' !in line
    ensures AllFieldsFit(ReadItem(st, n, line, fl).cfg)
  {
    hide FieldsFit, Assign, Trim, LTrim;
    NothingSetFits();
    var dash := OfCamera(st.sec) && line != "" && line[0] == '-';
    var t := if dash then NewCamera(st) else st;
    var body := if dash then LTrim(line[1..]) else line;
    if dash { LTrimIsPart(line[1..]); }
    BeforeIsPart(body, ':');
    TrimIsPart(Text.After(body, ':'));
    var key, val := Trim(Text.Before(body, ':')), Trim(Text.After(body, ':'));
    AssignFits(t, key, val, fl);
    AssignFits(t.(sec := CameraItem), key, val, fl);
  }

  lemma {:induction false} LTrimIsPart(s: string)
    ensures forall c :: c in LTrim(s) ==> c in s
  {
    LTrimIsSuffix(s);
  }

  /** Lines kept in the raw blocks fit one call of fgets. */
  ghost predicate BlocksFit(cfg: Config) { AllFit(cfg.onvif) && AllFit(cfg.fleet) }

  lemma {:induction false} KeepRawFits(st: Loader, raw: string)
    requires BlocksFit(st.cfg) && LineFits(raw)
    ensures BlocksFit(KeepRaw(st, raw).cfg) && KeepRaw(st, raw).cfg.top == st.cfg.top &&
      KeepRaw(st, raw).cfg.cams == st.cfg.cams
  {
    hide LineFits;
  }

  lemma {:induction false} LineKeepsFit(st: Loader, raw: string, fl: Floats)
    requires AllFieldsFit(st.cfg) && BlocksFit(st.cfg) && LineFits(raw)
    ensures AllFieldsFit(ReadLine(st, raw, fl).cfg) && BlocksFit(ReadLine(st, raw, fl).cfg)
  {
    hide FieldsFit, Trim, Indentation, KeepRaw, ReadItem, SectionOf, AllFit;
    var line, n := Trim(raw), Indentation(raw);
    TrimIsPart(raw);
    KeepRawFits(st, raw);
    ItemFits(KeepRaw(st, raw), n, line, fl);
    ItemLeavesBlocks(KeepRaw(st, raw), n, line, fl);
    HeadersFit();
  }

  lemma {:induction false} HeadersFit()
    ensures AllFit(["onvif:"]) && AllFit(["fleet:"])
  {
  }

  lemma {:induction false} LinesKeepFit(st: Loader, raws: seq<string>, fl: Floats)
    requires AllFieldsFit(st.cfg) && BlocksFit(st.cfg) && AllFit(raws)
    ensures AllFieldsFit(ReadLines(st, raws, fl).cfg) && BlocksFit(ReadLines(st, raws, fl).cfg)
    decreases |raws|
  {
    hide ReadLine, AllFieldsFit, BlocksFit, LineFits;
    if raws == [] {
    } else {
      LineKeepsFit(st, raws[0], fl);
      LinesKeepFit(ReadLine(st, raws[0], fl), raws[1..], fl);
    }
  }

  lemma {:induction false} PiecesFit(text: string)
    ensures AllFit(ReadText(text))
    decreases |text|
  {
    if text == "" {
    } else {
      var e := LineEnd(text);
      if e < |text| && e < LINE_MAX { PiecesFit(text[e + 1..]); }
      else if e >= LINE_MAX { PiecesFit(text[LINE_MAX..]); }
    }
  }

  function LoadText(text: string, fl: Floats): Config { Load(ReadText(text), fl) }

  function SaveText(cfg: Config, fl: Floats): string { Text.Unlines(Save(cfg, fl)) }

  lemma {:induction false} LoadFits(text: string, fl: Floats)
    ensures AllFieldsFit(LoadText(text, fl)) && BlocksFit(LoadText(text, fl))
  {
    hide ReadText, ReadLines, AllFit;
    PiecesFit(text);
    NothingSetFits();
    assert AllFit([]) by { NoLinesFit(); }
    LinesKeepFit(START, ReadText(text), fl);
    FinishFits(ReadLines(START, ReadText(text), fl).cfg);
  }

  lemma {:induction false} NoLinesFit()
    ensures AllFit([])
  {
  }

  lemma {:induction false} FinishFits(cfg: Config)
    requires AllFieldsFit(cfg)
    ensures AllFieldsFit(Finish(cfg)) && Finish(cfg).onvif == cfg.onvif && Finish(cfg).fleet == cfg.fleet
  {
    hide FieldsFit;
    var host := Get(cfg.top, MqttHost);
    assert Fits(KindOf(MqttHost), host) by { assert FieldsFit(cfg.top); FieldFits(cfg.top, MqttHost); }
    if StartsWith(host.text, "mqtt://") { SetFits(cfg.top, MqttHost, Str(host.text[7..])); }
  }

  lemma {:induction false} FieldFits(m: Fields, s: Slot)
    requires FieldsFit(m)
    ensures Fits(KindOf(s), Get(m, s))
  {
  }

  // ── Every saved line fits ──

  lemma {:induction false} JoinFits(ns: seq<string>)
    requires NamesFit(ns)
    ensures '\n' !in JoinNames(ns) && |JoinNames(ns)| <= |ns| * MAX_TARGET_LEN
    decreases |ns|
  {
    if |ns| > 1 { JoinFits(ns[1..]); }
  }

  lemma {:induction false} ShownFits(k: Kind, v: Value, fl: Floats)
    requires Fits(k, v) && SaneFloats(fl)
    ensures '\n' !in ShowValue(k, v, fl) && |ShowValue(k, v, fl)| <= 520
  {
    hide Shown, JoinNames, NamesFit;
    match (k, v) {
      case (NumKind, Num(n)) => NumberFits(n);
      case (CountKind, Num(n)) => NumberFits(if n > 0 then n else 2);
      case (NamesKind, Names(ns)) =>
        JoinFits(ns);
        NamesAreFew(ns);
      case _ =>
    }
  }

  lemma {:induction false} NumberFits(n: int)
    requires IsInt32(n)
    ensures '\n' !in Shown(n) && |Shown(n)| <= 11
  {
    hide Shown;
    AtoiUndoesShown(n);
    ShownIsShort(n);
  }

  lemma {:induction false} NamesAreFew(ns: seq<string>)
    requires NamesFit(ns)
    ensures |ns| * MAX_TARGET_LEN <= 512
  {
  }

  /** A key in front of a value, behind a short indentation. */
  lemma {:induction false} LabelledFits(prefix: string, s: Slot, v: Value, fl: Floats)
    requires '\n' !in prefix && |prefix| <= 6 && Fits(KindOf(s), v) && SaneFloats(fl)
    ensures LineFits(prefix + KeyOf(s) + ": " + ShowValue(KindOf(s), v, fl))
  {
    hide KeyOf, KindOf, ShowValue, KeyLike, Fits, SlotFor, Home;
    KeyIsDispatched(s);
    KeyIsShort(KeyOf(s));
    KeyLikeIsPlain(KeyOf(s));
    ShownFits(KindOf(s), v, fl);
  }

  lemma {:induction false} KeyIsShort(key: string)
    requires KeyLike(key)
    ensures |key| <= 20
  {
  }

  lemma {:induction false} FieldLinesFit(m: Fields, slots: seq<Slot>, n: nat, fl: Floats)
    requires FieldsFit(m) && SaneFloats(fl) && n <= 6
    ensures AllFit(FieldLines(m, slots, n, fl))
    decreases |slots|
  {
    hide LineFits, KeyOf, KindOf, ShowValue, FieldsFit, Writes, Get;
    if slots == [] {
    } else {
      var s := slots[0];
      FieldLinesFit(m, slots[1..], n, fl);
      FieldFits(m, s);
      LabelledFits(Text.Spaces(n), s, Get(m, s), fl);
    }
  }

  lemma {:induction false} FitAppend(a: seq<string>, b: seq<string>)
    requires AllFit(a) && AllFit(b)
    ensures AllFit(a + b)
  {
    hide LineFits;
  }

  lemma {:induction false} CameraLinesFit(cam: Fields, fl: Floats)
    requires FieldsFit(cam) && SaneFloats(fl)
    ensures AllFit(CameraLines(cam, fl))
  {
    hide LineFits, KeyOf, KindOf, ShowValue, FieldsFit, FieldLines, WritesDetect, Get;
    FieldFits(cam, CamId);
    LabelledFits("  - ", CamId, Get(cam, CamId), fl);
    FieldLinesFit(cam, CAMERA_SLOTS, 4, fl);
    FieldLinesFit(cam, DETECT_SLOTS, 6, fl);
    HeaderLinesFit();
  }

  lemma {:induction false} HeaderLinesFit()
    ensures LineFits("agent:") && LineFits("mqtt:") && LineFits("storage:") && LineFits("cameras:") &&
      LineFits("webui:")
    ensures LineFits("    detect:")
  {
  }

  lemma {:induction false} CamerasLinesFit(cams: seq<Fields>, fl: Floats)
    requires (forall i :: 0 <= i < |cams| ==> FieldsFit(cams[i])) && SaneFloats(fl)
    ensures AllFit(CamerasLines(cams, fl))
    decreases |cams|
  {
    hide LineFits, CameraLines, FieldsFit;
    if cams == [] {
    } else {
      CamerasLinesFit(cams[..|cams| - 1], fl);
      CameraLinesFit(cams[|cams| - 1], fl);
    }
  }

  lemma {:induction false} SaveFits(cfg: Config, fl: Floats)
    requires AllFieldsFit(cfg) && BlocksFit(cfg) && SaneFloats(fl)
    ensures AllFit(Save(cfg, fl))
  {
    hide LineFits, FieldLines, CamerasLines, FieldsFit, Get;
    HeaderLinesFit();
    FieldLinesFit(cfg.top, AGENT_SLOTS, 2, fl);
    FieldLinesFit(cfg.top, MQTT_SLOTS, 2, fl);
    FieldLinesFit(cfg.top, STORAGE_SLOTS, 2, fl);
    FieldLinesFit(cfg.top, WEBUI_SLOTS, 2, fl);
    CamerasLinesFit(cfg.cams, fl);
    assert AllFit(TopLines(cfg, fl));
    assert AllFit(WebuiLines(cfg, fl));
    FitAppend(TopLines(cfg, fl), CamerasLines(cfg.cams, fl));
    FitAppend(TopLines(cfg, fl) + CamerasLines(cfg.cams, fl), WebuiLines(cfg, fl));
  }

  lemma {:induction false} LoadSavedText(cfg: Config, fl: Floats)
    requires AllFieldsFit(cfg) && BlocksFit(cfg) && SaneFloats(fl)
    ensures LoadText(SaveText(cfg, fl), fl) == Load(Save(cfg, fl), fl)
  {
    hide ReadText, ReadLines, Save, AllFieldsFit, BlocksFit;
    SaveFits(cfg, fl);
    TextIsRead(START, Save(cfg, fl), fl);
  }

  // ── The two promises, on files ──

  /** config_load undoes config_save on every written field but floating-point numbers, and on the raw blocks. */
  lemma {:induction false} LoadTextUndoesSaveText(cfg: Config, fl: Floats)
    requires Savable(cfg) && AllFieldsFit(cfg) && BlocksFit(cfg) && SaneFloats(fl)
    ensures Restored(LoadText(SaveText(cfg, fl), fl), cfg)
  {
    hide LoadText, SaveText, Savable, Restored, AllFieldsFit, BlocksFit;
    LoadSavedText(cfg, fl);
    LoadUndoesSave(cfg, fl);
  }

  function CycleText(cfg: Config, times: nat, fl: Floats): Config {
    if times == 0 then cfg else LoadText(SaveText(CycleText(cfg, times - 1, fl), fl), fl)
  }

  /**
   Whatever file was loaded, long lines and oversized blocks included, its raw blocks survive
   every later save and load verbatim.
   */
  lemma {:induction false} LoadedBlocksSurvive(text: string, times: nat, fl: Floats)
    requires SaneFloats(fl)
    ensures var cfg := LoadText(text, fl);
            var again := CycleText(cfg, times, fl);
            && again.onvif == cfg.onvif && again.fleet == cfg.fleet
            && RawsOk(again) && AllFieldsFit(again) && BlocksFit(again)
    decreases times
  {
    hide Load, Save, RawsOk, AllFieldsFit, BlocksFit, SaveText;
    LoadFits(text, fl);
    LoadGivesRawsOk(ReadText(text), fl);
    if times == 0 {
    } else {
      LoadedBlocksSurvive(text, times - 1, fl);
      var before := CycleText(LoadText(text, fl), times - 1, fl);
      LoadSavedText(before, fl);
      BlocksSurvive(before, fl);
      LoadFits(SaveText(before, fl), fl);
      LoadGivesRawsOk(ReadText(SaveText(before, fl)), fl);
    }
  }
}
