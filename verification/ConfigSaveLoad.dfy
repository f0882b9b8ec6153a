/** config_load undoes config_save, section by section and then for the whole file. */
module ConfigSaveLoad {
  import opened CText
  import opened ConfigFile
  import opened ConfigValues
  import opened ConfigRoundTrip
  import opened ConfigRaw

  // ── Cameras ──

  ghost predicate CamerasOk(cams: seq<Fields>) { forall i :: 0 <= i < |cams| ==> CameraOk(cams[i]) }

  ghost predicate CamerasAgree(got: seq<Fields>, cams: seq<Fields>) {
    |got| == |cams| && forall i :: 0 <= i < |cams| ==> Agrees(got[i], cams[i], ALL_CAMERA_SLOTS)
  }

  lemma {:induction false} CamerasAreRead(st: Loader, cams: seq<Fields>, fl: Floats)
    requires st.sec == Cameras && st.cfg.cams == [] && |cams| <= MAX_CAMERAS && CamerasOk(cams) && SaneFloats(fl)
    ensures var u := ReadLines(st, CamerasLines(cams, fl), fl);
            && OfCamera(u.sec) && CamerasAgree(u.cfg.cams, cams) && u.cfg == st.cfg.(cams := u.cfg.cams)
    decreases |cams|
  {
    hide ReadLines, CameraLines, CameraOk, SaneFloats, Agrees;
    if cams == [] {
      NoCameras(st, fl);
    } else {
      var init, cam := cams[..|cams| - 1], cams[|cams| - 1];
      CamerasAreRead(st, init, fl);
      var u := ReadLines(st, CamerasLines(init, fl), fl);
      CameraIsRead(u, cam, fl);
      ReadLinesAppend(st, CamerasLines(init, fl), CameraLines(cam, fl), fl);
    }
  }

  lemma {:induction false} NoCameras(st: Loader, fl: Floats)
    ensures ReadLines(st, CamerasLines([], fl), fl) == st
  {
  }

  // ── Sections ──

  lemma {:induction false} HeaderIsRead(st: Loader, header: string, sec: Section, fl: Floats)
    requires (header, sec) in {("agent:", Agent), ("mqtt:", Mqtt), ("storage:", Storage), ("cameras:", Cameras),
      ("webui:", Webui)}
    ensures ReadLine(st, header, fl) == st.(sec := sec)
  {
    hide LTrim, RTrim, ReadItem, KeepRaw;
    TrimOfClean(header);
  }

  ghost predicate SectionRead(st: Loader, u: Loader, m: Fields, slots: seq<Slot>, sec: Section) {
    && u.sec == sec && u.cur == st.cur && u.cfg == st.cfg.(top := u.cfg.top)
    && OnlyOn(u.cfg.top, st.cfg.top, slots) && Agrees(u.cfg.top, m, slots)
  }

  lemma {:induction false} SectionIsRead(st: Loader, header: string, m: Fields, slots: seq<Slot>, sec: Section,
                                         fl: Floats)
    requires (header, sec) in {("agent:", Agent), ("mqtt:", Mqtt), ("storage:", Storage), ("webui:", Webui)}
    requires Proper(slots, sec, 0) && AllRestorable(m, slots) && SaneFloats(fl) && Unset(st.cfg.top, slots)
    ensures SectionRead(st, ReadLines(st, [header] + FieldLines(m, slots, 2, fl), fl), m, slots, sec)
  {
    hide ReadLine, ReadLines, FieldLines, Proper, AllRestorable, SaneFloats, Unset, OnlyOn, Agrees;
    HeaderIsRead(st, header, sec, fl);
    ReadOne(st, header, fl);
    ReadLinesAppend(st, [header], FieldLines(m, slots, 2, fl), fl);
    FieldsAreRead(st.(sec := sec), m, slots, 2, 0, fl);
  }

  const TOP_SLOTS := AGENT_SLOTS + MQTT_SLOTS + STORAGE_SLOTS + WEBUI_SLOTS

  /** Every field config_save writes is one it can restore, and the file says what the loader reads. */
  ghost predicate Savable(cfg: Config) {
    && AllRestorable(cfg.top, AGENT_SLOTS) && AllRestorable(cfg.top, MQTT_SLOTS)
    && AllRestorable(cfg.top, STORAGE_SLOTS) && AllRestorable(cfg.top, WEBUI_SLOTS)
    && |cfg.cams| <= MAX_CAMERAS && CamerasOk(cfg.cams)
    && Get(cfg.top, WebPort) != Num(0)
    && !(Get(cfg.top, MqttHost).Str? && StartsWith(Get(cfg.top, MqttHost).text, "mqtt://"))
    && RawsOk(cfg)
  }

  ghost predicate Restored(got: Config, cfg: Config) {
    && Agrees(got.top, cfg.top, TOP_SLOTS) && CamerasAgree(got.cams, cfg.cams)
    && got.onvif == cfg.onvif && got.fleet == cfg.fleet
  }

  lemma {:induction false} HomesAreApart(a: seq<Slot>, x: Section, b: seq<Slot>, y: Section)
    requires Proper(a, x, 0) && Proper(b, y, 0) && x != y
    ensures forall s :: s in a ==> s !in b
  {
    hide Home, Place;
  }

  lemma {:induction false} StillUnset(st: Loader, u: Loader, m: Fields, done: seq<Slot>, x: Section, slots: seq<Slot>,
                                      y: Section)
    requires SectionRead(st, u, m, done, x) && Proper(done, x, 0) && Proper(slots, y, 0) && x != y
    requires Unset(st.cfg.top, slots)
    ensures Unset(u.cfg.top, slots)
  {
    hide Home, Place, Agrees, OnlyOn, Unset, Proper;
    HomesAreApart(slots, y, done, x);
    UnsetAfter(st.cfg.top, u.cfg.top, done, slots);
  }

  lemma {:induction false} StillAgrees(st: Loader, u: Loader, m: Fields, slots: seq<Slot>, x: Section,
                                       before: seq<Slot>, y: Section)
    requires SectionRead(st, u, m, slots, x) && Proper(slots, x, 0) && Proper(before, y, 0) && x != y
    requires Agrees(st.cfg.top, m, before)
    ensures Agrees(u.cfg.top, m, before)
  {
    hide Home, Place, Get, KindOf, Proper;
    HomesAreApart(before, y, slots, x);
  }

  lemma {:induction false} AllProper()
    ensures Proper(AGENT_SLOTS, Agent, 0) && Proper(MQTT_SLOTS, Mqtt, 0) && Proper(STORAGE_SLOTS, Storage, 0)
    ensures Proper(WEBUI_SLOTS, Webui, 0)
  {
    hide Proper;
    AgentSlotsAreProper();
    OtherSlotsAreProper();
  }

  lemma {:induction false} NothingIsSet(slots: seq<Slot>)
    ensures Unset(map[], slots)
  {
  }

  ghost predicate TopRead(u: Loader, cfg: Config) {
    && u.sec == Cameras && u.cfg == BLANK.(top := u.cfg.top)
    && Agrees(u.cfg.top, cfg.top, AGENT_SLOTS) && Agrees(u.cfg.top, cfg.top, MQTT_SLOTS)
    && Agrees(u.cfg.top, cfg.top, STORAGE_SLOTS) && Unset(u.cfg.top, WEBUI_SLOTS)
  }

  lemma {:induction false} TopIsRead(cfg: Config, fl: Floats)
    requires Savable(cfg) && SaneFloats(fl)
    ensures TopRead(ReadLines(START, TopLines(cfg, fl), fl), cfg)
  {
    hide ReadLine, ReadLines, FieldLines, Proper, AllRestorable, SaneFloats, Unset, OnlyOn, Agrees, CamerasOk, RawsOk,
         Get;
    var m := cfg.top;
    var a := ["agent:"] + FieldLines(m, AGENT_SLOTS, 2, fl);
    var b := ["mqtt:"] + FieldLines(m, MQTT_SLOTS, 2, fl);
    var c := ["storage:"] + FieldLines(m, STORAGE_SLOTS, 2, fl);
    assert TopLines(cfg, fl) == a + (b + (c + ["cameras:"]));
    AllProper();
    NothingIsSet(AGENT_SLOTS);
    NothingIsSet(MQTT_SLOTS);
    NothingIsSet(STORAGE_SLOTS);
    NothingIsSet(WEBUI_SLOTS);

    SectionIsRead(START, "agent:", m, AGENT_SLOTS, Agent, fl);
    ReadLinesAppend(START, a, b + (c + ["cameras:"]), fl);
    var s1 := ReadLines(START, a, fl);
    StillUnset(START, s1, m, AGENT_SLOTS, Agent, MQTT_SLOTS, Mqtt);
    StillUnset(START, s1, m, AGENT_SLOTS, Agent, STORAGE_SLOTS, Storage);
    StillUnset(START, s1, m, AGENT_SLOTS, Agent, WEBUI_SLOTS, Webui);

    SectionIsRead(s1, "mqtt:", m, MQTT_SLOTS, Mqtt, fl);
    ReadLinesAppend(s1, b, c + ["cameras:"], fl);
    var s2 := ReadLines(s1, b, fl);
    StillAgrees(s1, s2, m, MQTT_SLOTS, Mqtt, AGENT_SLOTS, Agent);
    StillUnset(s1, s2, m, MQTT_SLOTS, Mqtt, STORAGE_SLOTS, Storage);
    StillUnset(s1, s2, m, MQTT_SLOTS, Mqtt, WEBUI_SLOTS, Webui);

    SectionIsRead(s2, "storage:", m, STORAGE_SLOTS, Storage, fl);
    ReadLinesAppend(s2, c, ["cameras:"], fl);
    var s3 := ReadLines(s2, c, fl);
    StillAgrees(s2, s3, m, STORAGE_SLOTS, Storage, AGENT_SLOTS, Agent);
    StillAgrees(s2, s3, m, STORAGE_SLOTS, Storage, MQTT_SLOTS, Mqtt);
    StillUnset(s2, s3, m, STORAGE_SLOTS, Storage, WEBUI_SLOTS, Webui);

    HeaderIsRead(s3, "cameras:", Cameras, fl);
    ReadOne(s3, "cameras:", fl);
  }

  ghost predicate BodyRead(u: Loader, cfg: Config) {
    && u.cfg == BLANK.(top := u.cfg.top, cams := u.cfg.cams)
    && Agrees(u.cfg.top, cfg.top, AGENT_SLOTS) && Agrees(u.cfg.top, cfg.top, MQTT_SLOTS)
    && Agrees(u.cfg.top, cfg.top, STORAGE_SLOTS) && Agrees(u.cfg.top, cfg.top, WEBUI_SLOTS)
    && CamerasAgree(u.cfg.cams, cfg.cams)
  }

  lemma {:induction false} BodyIsRead(cfg: Config, fl: Floats)
    requires Savable(cfg) && SaneFloats(fl)
    ensures BodyRead(ReadLines(START, Body(cfg, fl), fl), cfg)
  {
    hide ReadLine, ReadLines, FieldLines, Proper, AllRestorable, SaneFloats, Unset, OnlyOn, Agrees, CamerasOk, RawsOk,
         Get, TopLines, CamerasLines, CamerasAgree;
    var top, cams, web := TopLines(cfg, fl), CamerasLines(cfg.cams, fl), WebuiLines(cfg, fl);
    assert Body(cfg, fl) == top + (cams + web);
    AllProper();
    TopIsRead(cfg, fl);
    ReadLinesAppend(START, top, cams + web, fl);
    var s1 := ReadLines(START, top, fl);
    CamerasAreRead(s1, cfg.cams, fl);
    ReadLinesAppend(s1, cams, web, fl);
    var s2 := ReadLines(s1, cams, fl);
    SectionIsRead(s2, "webui:", cfg.top, WEBUI_SLOTS, Webui, fl);
    var s3 := ReadLines(s2, web, fl);
    StillAgrees(s2, s3, cfg.top, WEBUI_SLOTS, Webui, AGENT_SLOTS, Agent);
    StillAgrees(s2, s3, cfg.top, WEBUI_SLOTS, Webui, MQTT_SLOTS, Mqtt);
    StillAgrees(s2, s3, cfg.top, WEBUI_SLOTS, Webui, STORAGE_SLOTS, Storage);
  }

  // ── The raw blocks touch no field ──

  lemma {:induction false} BlockLineLeavesFields(st: Loader, raw: string, fl: Floats)
    requires !Outside(st) && Indentation(raw) > 0
    ensures var t := ReadLine(st, raw, fl);
            t.cfg.top == st.cfg.top && t.cfg.cams == st.cfg.cams && t.sec == st.sec
  {
    hide Trim, Indentation, AppendRaw, Atoi;
  }

  lemma {:induction false} BlockLeavesFields(st: Loader, raws: seq<string>, fl: Floats)
    requires !Outside(st) && forall i :: 0 <= i < |raws| ==> Indentation(raws[i]) > 0
    ensures var t := ReadLines(st, raws, fl);
            t.cfg.top == st.cfg.top && t.cfg.cams == st.cfg.cams
    decreases |raws|
  {
    hide ReadLine, Indentation;
    if raws == [] {
    } else {
      BlockLineLeavesFields(st, raws[0], fl);
      BlockLeavesFields(ReadLine(st, raws[0], fl), raws[1..], fl);
    }
  }

  lemma {:induction false} WholeBlockLeavesFields(st: Loader, block: seq<string>, header: string, size: nat, fl: Floats)
    requires RawOk(block, header, size) && header in {"onvif:", "fleet:"}
    ensures var t := ReadLines(st, block, fl);
            t.cfg.top == st.cfg.top && t.cfg.cams == st.cfg.cams
  {
    hide ReadLine, Indentation, Used;
    if block != [] {
      HeadersOpen(st, fl);
      BlockLeavesFields(ReadLine(st, block[0], fl), block[1..], fl);
    }
  }

  lemma {:induction false} BlocksLeaveFields(st: Loader, cfg: Config, fl: Floats)
    requires RawsOk(cfg)
    ensures var t := ReadLines(st, cfg.onvif + cfg.fleet, fl);
            t.cfg.top == st.cfg.top && t.cfg.cams == st.cfg.cams
  {
    hide ReadLines, RawOk;
    ReadLinesAppend(st, cfg.onvif, cfg.fleet, fl);
    WholeBlockLeavesFields(st, cfg.onvif, "onvif:", ONVIF_SIZE, fl);
    WholeBlockLeavesFields(ReadLines(st, cfg.onvif, fl), cfg.fleet, "fleet:", FLEET_SIZE, fl);
  }

  /** The host has no scheme to strip. */
  lemma {:induction false} FinishChangesNothing(got: Config, cfg: Config)
    requires Agrees(got.top, cfg.top, MQTT_SLOTS)
    requires !(Get(cfg.top, MqttHost).Str? && StartsWith(Get(cfg.top, MqttHost).text, "mqtt://"))
    ensures Finish(got) == got
  {
    hide StartsWith;
    assert MQTT_SLOTS[0] == MqttHost;
  }

  lemma {:induction false} AgreesOnAll(t: Fields, m: Fields)
    requires Agrees(t, m, AGENT_SLOTS) && Agrees(t, m, MQTT_SLOTS) && Agrees(t, m, STORAGE_SLOTS) &&
      Agrees(t, m, WEBUI_SLOTS)
    ensures Agrees(t, m, TOP_SLOTS)
  {
    hide Get, KindOf;
  }

  /**
   Loading what was saved gives every written field back, floating-point numbers apart, every
   camera in its place, and both raw blocks.
   */
  lemma {:induction false} LoadUndoesSave(cfg: Config, fl: Floats)
    requires Savable(cfg) && SaneFloats(fl)
    ensures Restored(Load(Save(cfg, fl), fl), cfg)
  {
    hide ReadLines, Body, RawsOk, Agrees, CamerasAgree, Get, AllRestorable, CamerasOk, SaneFloats, Finish, StartsWith,
         Save;
    SaveShape(cfg, fl);
    BodyIsRead(cfg, fl);
    ReadLinesAppend(START, Body(cfg, fl), cfg.onvif + cfg.fleet, fl);
    var s1 := ReadLines(START, Body(cfg, fl), fl);
    var s2 := ReadLines(s1, cfg.onvif + cfg.fleet, fl);
    BlocksLeaveFields(s1, cfg, fl);
    FinishChangesNothing(s2.cfg, cfg);
    AgreesOnAll(s2.cfg.top, cfg.top);
    BlocksSurvive(cfg, fl);
  }
}
