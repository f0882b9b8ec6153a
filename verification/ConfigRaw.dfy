/** The raw `onvif:` and `fleet:` blocks: what any load produces, any later save and load reproduces verbatim. */
module ConfigRaw {
  import opened CText
  import opened ConfigFile
  import R = ConfigRoundTrip
  import Text

  /** A block as the loader builds it: its header, then indented lines, each fitting behind those before it. */
  ghost predicate RawOk(block: seq<string>, header: string, size: nat) {
    block == [] ||
    (block[0] == header
     && forall i :: 1 <= i < |block| ==> Indentation(block[i]) > 0 && Used(block[..i + 1]) + 1 <= size)
  }

  ghost predicate RawsOk(cfg: Config) {
    RawOk(cfg.onvif, "onvif:", ONVIF_SIZE) && RawOk(cfg.fleet, "fleet:", FLEET_SIZE)
  }

  // ── Every load builds such blocks ──

  lemma {:induction false} UsedSnoc(block: seq<string>, raw: string)
    ensures Used(block + [raw]) == Used(block) + |raw| + 1
  {
    assert (block + [raw])[..|block|] == block;
  }

  lemma {:induction false} AppendKeepsOk(block: seq<string>, raw: string, header: string, size: nat)
    requires RawOk(block, header, size) && block != [] && Indentation(raw) > 0
    ensures RawOk(AppendRaw(block, raw, size), header, size) && AppendRaw(block, raw, size) != []
  {
    hide Indentation, Used;
    UsedSnoc(block, raw);
    var b := block + [raw];
    if AppendRaw(block, raw, size) == b {
      forall i | 1 <= i < |b| ensures Indentation(b[i]) > 0 && Used(b[..i + 1]) + 1 <= size {
        if i < |block| { assert b[..i + 1] == block[..i + 1] && b[i] == block[i]; } else { assert b[..i + 1] == b; }
      }
    }
  }

  /** A block under construction has its header. */
  ghost predicate Building(st: Loader) {
    RawsOk(st.cfg) && (st.sec == Onvif ==> st.cfg.onvif != []) && (st.sec == Fleet ==> st.cfg.fleet != [])
  }

  lemma {:induction false} KeepRawBuilds(st: Loader, raw: string)
    requires Building(st) && Indentation(raw) > 0
    ensures Building(KeepRaw(st, raw)) && KeepRaw(st, raw).sec == st.sec
  {
    hide Indentation, RawOk, AppendRaw;
    if st.sec == Onvif { AppendKeepsOk(st.cfg.onvif, raw, "onvif:", ONVIF_SIZE); }
    if st.sec == Fleet { AppendKeepsOk(st.cfg.fleet, raw, "fleet:", FLEET_SIZE); }
  }

  lemma {:induction false} HeaderIsOk()
    ensures RawOk(["onvif:"], "onvif:", ONVIF_SIZE) && RawOk(["fleet:"], "fleet:", FLEET_SIZE)
  {
  }

  lemma {:induction false} OpenBuilds(st: Loader, line: string)
    requires Building(st)
    ensures Building(OpenSection(st, line))
  {
    hide SectionOf, RawOk;
    HeaderIsOk();
  }

  /** Reading a line's key and value leaves the blocks and, in their sections, the section alone. */
  lemma {:induction false} ItemLeavesBlocks(st: Loader, n: nat, line: string, fl: Floats)
    ensures var t := ReadItem(st, n, line, fl);
            && t.cfg.onvif == st.cfg.onvif && t.cfg.fleet == st.cfg.fleet
            && (t.sec == Onvif <==> st.sec == Onvif) && (t.sec == Fleet <==> st.sec == Fleet)
            && (st.sec == Onvif || st.sec == Fleet ==> t.sec == st.sec)
  {
    hide SlotFor, KindOf, ReadValue, Atoi, Trim, LTrim, SetAll;
  }

  lemma {:induction false} LineBuilds(st: Loader, raw: string, fl: Floats)
    requires Building(st)
    ensures Building(ReadLine(st, raw, fl))
  {
    hide Trim, Indentation, KeepRaw, OpenSection, ReadItem, RawsOk;
    var line, n := Trim(raw), Indentation(raw);
    if n > 0 { KeepRawBuilds(st, raw); }
    OpenBuilds(st, line);
    ItemLeavesBlocks(KeepRaw(st, raw), n, line, fl);
    SameBlocks(KeepRaw(st, raw).cfg, ReadItem(KeepRaw(st, raw), n, line, fl).cfg);
  }

  lemma {:induction false} SameBlocks(a: Config, b: Config)
    requires a.onvif == b.onvif && a.fleet == b.fleet
    ensures RawsOk(a) <==> RawsOk(b)
  {
    hide RawOk;
  }

  lemma {:induction false} LinesBuild(st: Loader, raws: seq<string>, fl: Floats)
    requires Building(st)
    ensures Building(ReadLines(st, raws, fl))
    decreases |raws|
  {
    hide ReadLine, Building;
    if raws == [] {
    } else {
      LineBuilds(st, raws[0], fl);
      LinesBuild(ReadLine(st, raws[0], fl), raws[1..], fl);
    }
  }

  lemma {:induction false} LoadGivesRawsOk(raws: seq<string>, fl: Floats)
    ensures RawsOk(Load(raws, fl))
  {
    hide ReadLines, RawOk;
    assert RawOk([], "onvif:", ONVIF_SIZE) && RawOk([], "fleet:", FLEET_SIZE) by { NothingIsOk(); }
    LinesBuild(START, raws, fl);
    SameBlocks(ReadLines(START, raws, fl).cfg, Load(raws, fl));
  }

  lemma {:induction false} NothingIsOk()
    ensures RawOk([], "onvif:", ONVIF_SIZE) && RawOk([], "fleet:", FLEET_SIZE)
  {
  }

  // ── And every such block is read back ──

  /** Neither a raw block nor its header. */
  ghost predicate Ordinary(raw: string) { Indentation(raw) > 0 || SectionOf(Trim(raw)) !in {Onvif, Fleet} }

  ghost predicate Outside(st: Loader) { st.sec != Onvif && st.sec != Fleet }

  lemma {:induction false} OrdinaryLineLeavesBlocks(st: Loader, raw: string, fl: Floats)
    requires Outside(st) && Ordinary(raw)
    ensures var t := ReadLine(st, raw, fl);
            Outside(t) && t.cfg.onvif == st.cfg.onvif && t.cfg.fleet == st.cfg.fleet
  {
    hide Trim, Indentation, SectionOf, ReadItem;
    ItemLeavesBlocks(st, Indentation(raw), Trim(raw), fl);
  }

  lemma {:induction false} OrdinaryLinesLeaveBlocks(st: Loader, raws: seq<string>, fl: Floats)
    requires Outside(st) && forall i :: 0 <= i < |raws| ==> Ordinary(raws[i])
    ensures var t := ReadLines(st, raws, fl);
            Outside(t) && t.cfg.onvif == st.cfg.onvif && t.cfg.fleet == st.cfg.fleet
    decreases |raws|
  {
    hide ReadLine, Ordinary, Outside;
    if raws == [] {
    } else {
      OrdinaryLineLeavesBlocks(st, raws[0], fl);
      OrdinaryLinesLeaveBlocks(ReadLine(st, raws[0], fl), raws[1..], fl);
    }
  }

  lemma {:induction false} IndentedIsKept(st: Loader, raw: string, fl: Floats)
    requires !Outside(st) && Indentation(raw) > 0
    ensures var t := ReadLine(st, raw, fl);
            t.sec == st.sec && t.cfg.onvif == KeepRaw(st, raw).cfg.onvif && t.cfg.fleet == KeepRaw(st, raw).cfg.fleet
  {
    hide Trim, Indentation, AppendRaw, ReadItem;
    ItemLeavesBlocks(KeepRaw(st, raw), Indentation(raw), Trim(raw), fl);
  }

  /** The lines of an onvif block, from the k-th on, are appended one by one to the first k. */
  lemma {:induction false} OnvifGrows(st: Loader, block: seq<string>, k: nat, fl: Floats)
    requires st.sec == Onvif && RawOk(block, "onvif:", ONVIF_SIZE) && 1 <= k <= |block| && st.cfg.onvif == block[..k]
    ensures var t := ReadLines(st, block[k..], fl);
            t.sec == Onvif && t.cfg.onvif == block && t.cfg.fleet == st.cfg.fleet
    decreases |block| - k
  {
    hide ReadLine, Indentation, Used;
    if k == |block| {
      assert block[..k] == block && block[k..] == [];
    } else {
      IndentedIsKept(st, block[k], fl);
      assert block[k..][0] == block[k] && block[k..][1..] == block[k + 1..];
      assert block[..k] + [block[k]] == block[..k + 1];
      UsedSnoc(block[..k], block[k]);
      OnvifGrows(ReadLine(st, block[k], fl), block, k + 1, fl);
    }
  }

  lemma {:induction false} FleetGrows(st: Loader, block: seq<string>, k: nat, fl: Floats)
    requires st.sec == Fleet && RawOk(block, "fleet:", FLEET_SIZE) && 1 <= k <= |block| && st.cfg.fleet == block[..k]
    ensures var t := ReadLines(st, block[k..], fl);
            t.sec == Fleet && t.cfg.fleet == block && t.cfg.onvif == st.cfg.onvif
    decreases |block| - k
  {
    hide ReadLine, Indentation, Used;
    if k == |block| {
      assert block[..k] == block && block[k..] == [];
    } else {
      IndentedIsKept(st, block[k], fl);
      assert block[k..][0] == block[k] && block[k..][1..] == block[k + 1..];
      assert block[..k] + [block[k]] == block[..k + 1];
      UsedSnoc(block[..k], block[k]);
      FleetGrows(ReadLine(st, block[k], fl), block, k + 1, fl);
    }
  }

  lemma {:induction false} HeadersOpen(st: Loader, fl: Floats)
    ensures ReadLine(st, "onvif:", fl) == Loader(Onvif, st.cur, st.cfg.(onvif := ["onvif:"]))
    ensures ReadLine(st, "fleet:", fl) == Loader(Fleet, st.cur, st.cfg.(fleet := ["fleet:"]))
  {
    hide LTrim, RTrim;
    TrimOfClean("onvif:");
    TrimOfClean("fleet:");
  }

  /** Both blocks, one after the other, as the writer puts them at the end of the file. */
  lemma {:induction false} BlocksAreRead(st: Loader, onvif: seq<string>, fleet: seq<string>, fl: Floats)
    requires RawOk(onvif, "onvif:", ONVIF_SIZE) && RawOk(fleet, "fleet:", FLEET_SIZE)
    requires st.cfg.onvif == [] && st.cfg.fleet == []
    ensures var t := ReadLines(st, onvif + fleet, fl);
            t.cfg.onvif == onvif && t.cfg.fleet == fleet
  {
    hide ReadLine, ReadLines, RawOk;
    R.ReadLinesAppend(st, onvif, fleet, fl);
    var u := ReadLines(st, onvif, fl);
    OnvifIsRead(st, onvif, fl);
    FleetIsRead(u, fleet, fl);
  }

  lemma {:induction false} OnvifIsRead(st: Loader, block: seq<string>, fl: Floats)
    requires RawOk(block, "onvif:", ONVIF_SIZE) && st.cfg.onvif == []
    ensures var t := ReadLines(st, block, fl);
            t.cfg.onvif == block && t.cfg.fleet == st.cfg.fleet
  {
    hide ReadLine;
    if block != [] {
      HeadersOpen(st, fl);
      OnvifGrows(ReadLine(st, block[0], fl), block, 1, fl);
    }
  }

  lemma {:induction false} FleetIsRead(st: Loader, block: seq<string>, fl: Floats)
    requires RawOk(block, "fleet:", FLEET_SIZE) && st.cfg.fleet == []
    ensures var t := ReadLines(st, block, fl);
            t.cfg.fleet == block && t.cfg.onvif == st.cfg.onvif
  {
    hide ReadLine;
    if block != [] {
      HeadersOpen(st, fl);
      FleetGrows(ReadLine(st, block[0], fl), block, 1, fl);
    }
  }

  // ── The rest of the file is ordinary ──

  ghost predicate AllOrdinary(ls: seq<string>) { forall i :: 0 <= i < |ls| ==> Ordinary(ls[i]) }

  lemma {:induction false} IndentedIsOrdinary(n: nat, s: string)
    requires n > 0
    ensures Ordinary(Text.Spaces(n) + s)
  {
    hide SectionOf, Trim;
    assert (Text.Spaces(n) + s)[0] == ' ';
  }

  lemma {:induction false} FieldLinesAreOrdinary(m: Fields, slots: seq<Slot>, n: nat, fl: Floats)
    requires n > 0
    ensures AllOrdinary(FieldLines(m, slots, n, fl))
    decreases |slots|
  {
    hide Ordinary, KeyOf, ShowValue, KindOf, Writes;
    if slots == [] {
    } else {
      FieldLinesAreOrdinary(m, slots[1..], n, fl);
      var l := FieldLine(n, slots[0], Get(m, slots[0]), fl);
      var rest := KeyOf(slots[0]) + ": " + ShowValue(KindOf(slots[0]), Get(m, slots[0]), fl);
      assert l == Text.Spaces(n) + rest;
      IndentedIsOrdinary(n, rest);
    }
  }

  lemma {:induction false} CameraLinesAreOrdinary(cam: Fields, fl: Floats)
    ensures AllOrdinary(CameraLines(cam, fl))
  {
    hide Ordinary, FieldLines, WritesDetect, KeyOf, ShowValue, KindOf, Get;
    var id := "- " + KeyOf(CamId) + ": " + ShowValue(KindOf(CamId), Get(cam, CamId), fl);
    assert "  - " + KeyOf(CamId) + ": " + ShowValue(KindOf(CamId), Get(cam, CamId), fl) == Text.Spaces(2) + id;
    IndentedIsOrdinary(2, id);
    assert "    detect:" == Text.Spaces(4) + "detect:";
    IndentedIsOrdinary(4, "detect:");
    FieldLinesAreOrdinary(cam, CAMERA_SLOTS, 4, fl);
    FieldLinesAreOrdinary(cam, DETECT_SLOTS, 6, fl);
  }

  lemma {:induction false} CamerasLinesAreOrdinary(cams: seq<Fields>, fl: Floats)
    ensures AllOrdinary(CamerasLines(cams, fl))
    decreases |cams|
  {
    hide Ordinary, CameraLines;
    if cams == [] {
    } else {
      CamerasLinesAreOrdinary(cams[..|cams| - 1], fl);
      CameraLinesAreOrdinary(cams[|cams| - 1], fl);
    }
  }

  lemma {:induction false} HeaderLinesAreOrdinary()
    ensures Ordinary("agent:") && Ordinary("mqtt:") && Ordinary("storage:") && Ordinary("cameras:") &&
      Ordinary("webui:")
  {
    hide LTrim, RTrim, Indentation;
    TrimOfClean("agent:");
    TrimOfClean("mqtt:");
    TrimOfClean("storage:");
    TrimOfClean("cameras:");
    TrimOfClean("webui:");
  }

  /** What config_save writes before the raw blocks. */
  function Body(cfg: Config, fl: Floats): seq<string> {
    TopLines(cfg, fl) + CamerasLines(cfg.cams, fl) + WebuiLines(cfg, fl)
  }

  lemma {:induction false} BodyIsOrdinary(cfg: Config, fl: Floats)
    ensures AllOrdinary(Body(cfg, fl))
  {
    hide Ordinary, FieldLines, CamerasLines;
    HeaderLinesAreOrdinary();
    FieldLinesAreOrdinary(cfg.top, AGENT_SLOTS, 2, fl);
    FieldLinesAreOrdinary(cfg.top, MQTT_SLOTS, 2, fl);
    FieldLinesAreOrdinary(cfg.top, STORAGE_SLOTS, 2, fl);
    FieldLinesAreOrdinary(cfg.top, WEBUI_SLOTS, 2, fl);
    CamerasLinesAreOrdinary(cfg.cams, fl);
    assert AllOrdinary(TopLines(cfg, fl));
    assert AllOrdinary(WebuiLines(cfg, fl));
  }

  /** Saving and loading reproduces the raw blocks of every configuration whose blocks are well formed. */
  lemma {:induction false} BlocksSurvive(cfg: Config, fl: Floats)
    requires RawsOk(cfg)
    ensures Load(Save(cfg, fl), fl).onvif == cfg.onvif && Load(Save(cfg, fl), fl).fleet == cfg.fleet
  {
    hide ReadLines, Body, RawOk, Ordinary;
    var body := Body(cfg, fl);
    assert Save(cfg, fl) == body + (cfg.onvif + cfg.fleet) by { SaveShape(cfg, fl); }
    BodyIsOrdinary(cfg, fl);
    OrdinaryLinesLeaveBlocks(START, body, fl);
    R.ReadLinesAppend(START, body, cfg.onvif + cfg.fleet, fl);
    BlocksAreRead(ReadLines(START, body, fl), cfg.onvif, cfg.fleet, fl);
  }

  lemma {:induction false} SaveShape(cfg: Config, fl: Floats)
    ensures Save(cfg, fl) == Body(cfg, fl) + (cfg.onvif + cfg.fleet)
  {
    hide TopLines, CamerasLines, WebuiLines;
  }
}
