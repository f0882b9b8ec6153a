/** Loading and saving config.yml (src/config.c): a line reader with a section state, and its writer. */
module ConfigFile {
  import opened Common
  import opened CText
  import Text

  datatype Mode = Remote | Edge | Off

  /** A field of agent_config_t or of one of its cameras. */
  datatype Slot =
    | Id | Timezone | RecordsEnabled | RecordsTtl | RecordsTranscode | Rtmps | StreamServer | Snapshots
    | CallbackUrl | Tenant | EncryptionKey | StoreId | Alias | Latitude | Longitude
    | MqttHost | MqttPort
    | Endpoint | Bucket | Region
    | WebPort | WebUser | WebPass
    | CamId | Ip | Status | RecordPath | Rtsp | Resolution | Room | StreamKey
    | DetectEnabled | DetectMode | Plugin | PollInterval | Model | Confidence | NotifyMqtt | Tracker | Fps | Targets
    | TrackHigh | TrackLow | NewTrack | TrackBuffer | MatchThresh

  datatype Value =
    | Str(text: string) | Flag(on: bool) | Num(n: int) | Frac(r: real) | Where(mode: Mode) | Names(names: seq<string>)

  /**
   How a field is stored, printed and read. A `Filled` text and a `Count` are printed as their
   fallback when empty or not positive; a `Quoted` text is printed in quotes.
   */
  datatype Kind =
    | TextKind(size: nat) | QuotedKind(size: nat) | FilledKind(size: nat, fallback: string)
    | FlagKind | NumKind | CountKind | FracKind(digits: nat) | ModeKind | NamesKind

  const MAX_CAMERAS := 8
  const MAX_TARGETS := 16
  const MAX_TARGET_LEN := 32
  const TARGETS_BUFFER := 512
  const ONVIF_SIZE := 4096
  const FLEET_SIZE := 2048

  function KindOf(s: Slot): Kind {
    match s
    case Id | Tenant | StoreId | CamId => TextKind(32)
    case Timezone | Alias | Bucket | WebUser | Ip | Room | StreamKey => TextKind(64)
    case EncryptionKey | WebPass => TextKind(128)
    case StreamServer | Snapshots | CallbackUrl | MqttHost | Endpoint | Rtsp => TextKind(512)
    case Region => TextKind(32)
    case RecordPath => TextKind(256)
    case Resolution => QuotedKind(16)
    case Plugin => FilledKind(24, "yolo")
    case Model => FilledKind(32, "yolo11n")
    case Tracker => FilledKind(16, "bytetrack")
    case RecordsEnabled | RecordsTranscode | Rtmps | Status | DetectEnabled | NotifyMqtt => FlagKind
    case RecordsTtl | MqttPort | WebPort | TrackBuffer => NumKind
    case PollInterval | Fps => CountKind
    case Latitude | Longitude => FracKind(6)
    case Confidence | TrackHigh | TrackLow | NewTrack | MatchThresh => FracKind(2)
    case DetectMode => ModeKind
    case Targets => NamesKind
  }

  function Zero(k: Kind): Value {
    match k
    case TextKind(_) | QuotedKind(_) => Str("")
    case FilledKind(_, fallback) => Str(fallback)
    case FlagKind => Flag(false)
    case NumKind | CountKind => Num(0)
    case FracKind(_) => Frac(0.0)
    case ModeKind => Where(Remote)
    case NamesKind => Names([])
  }

  /** What a field holds before any line is read; for a camera's field, when its list item opens. */
  function Initial(s: Slot): Value {
    match s
    case RecordsEnabled => Flag(true)
    case RecordsTtl => Num(30)
    case MqttPort => Num(1883)
    case WebPort => Num(80)
    case WebUser | WebPass => Str("admin")
    case Status => Flag(true)
    case PollInterval | Fps => Num(2)
    case TrackBuffer => Num(30)
    case Confidence | TrackHigh => Frac(0.5)
    case TrackLow => Frac(0.1)
    case NewTrack => Frac(0.6)
    case MatchThresh => Frac(0.8)
    case _ => Zero(KindOf(s))
  }

  /** Fields that have been assigned; every other one still holds its initial value. */
  type Fields = map<Slot, Value>

  function Get(m: Fields, s: Slot): Value { if s in m then m[s] else Initial(s) }

  /** A configuration; the raw blocks are the lines kept for the Python tools. */
  datatype Config = Config(
    top: Fields,
    cams: seq<Fields>,
    onvif: seq<string>,
    fleet: seq<string>,
    rescanInterval: int,
    fleetInterval: int)

  const BLANK := Config(map[], [], [], [], 0, 0)

  datatype Section = Root | Agent | Mqtt | Storage | Cameras | CameraItem | CameraDetect | Yolo | Webui | Onvif | Fleet

  /** The state of the reading loop: section, current camera, and the configuration so far. */
  datatype Loader = Loader(sec: Section, cur: Option<nat>, cfg: Config)

  /** Number formatting and reading of the C library. */
  datatype Floats = Floats(parse: string -> real, show: (nat, real) -> string)

  // ── Values ──

  predicate IsQuote(c: char) { c == '\'' || c == '"' }

  /** set_value: the first and last characters go when the first is a quote; the buffer cuts the rest. */
  function SetValue(val: string, size: nat): string {
    var v := if |val| >= 2 && IsQuote(val[0]) then val[1..|val| - 1] else val;
    if |v| < size then v else if size == 0 then "" else v[..size - 1]
  }

  function ParseMode(s: string): Mode {
    if s == "edge" then Edge else if s == "off" || s == "none" || s == "false" then Off else Remote
  }

  function ShowMode(m: Mode): string {
    match m
    case Edge => "edge"
    case Off => "off"
    case Remote => "remote"
  }

  /** The comma-separated targets, blanks dropped, at most sixteen. */
  function ReadNames(s: string, acc: seq<string>): seq<string>
    decreases |s|
  {
    if s == "" || |acc| >= MAX_TARGETS then acc
    else
      var t := Trim(Text.Before(s, ','));
      ReadNames(Text.After(s, ','), if t == "" then acc else acc + [SetValue(t, MAX_TARGET_LEN)])
  }

  function ReadValue(k: Kind, val: string, fl: Floats): Value {
    match k
    case TextKind(size) => Str(SetValue(val, size))
    case QuotedKind(size) => Str(SetValue(val, size))
    case FilledKind(size, _) => Str(SetValue(val, size))
    case FlagKind => Flag(val == "true")
    case NumKind | CountKind => Num(Atoi(val))
    case FracKind(_) => Frac(fl.parse(val))
    case ModeKind => Where(ParseMode(val))
    case NamesKind => Names(ReadNames(if |val| < TARGETS_BUFFER then val else val[..TARGETS_BUFFER - 1], []))
  }

  function JoinNames(ns: seq<string>): string {
    if ns == [] then "" else if |ns| == 1 then ns[0] else ns[0] + "," + JoinNames(ns[1..])
  }

  function ShowValue(k: Kind, v: Value, fl: Floats): string {
    match (k, v)
    case (TextKind(_), Str(t)) => t
    case (QuotedKind(_), Str(t)) => "'" + t + "'"
    case (FilledKind(_, fallback), Str(t)) => if t == "" then fallback else t
    case (FlagKind, Flag(b)) => if b then "true" else "false"
    case (NumKind, Num(n)) => Shown(n)
    case (CountKind, Num(n)) => Shown(if n > 0 then n else 2)
    case (FracKind(digits), Frac(r)) => fl.show(digits, r)
    case (ModeKind, Where(m)) => ShowMode(m)
    case (NamesKind, Names(ns)) => JoinNames(ns)
    case _ => ""
  }

  // ── Loading ──

  predicate StartsWith(s: string, p: string) { |s| >= |p| && s[..|p|] == p }

  function Indentation(raw: string): nat {
    if raw != "" && (raw[0] == ' ' || raw[0] == '\t') then 1 + Indentation(raw[1..]) else 0
  }

  /** Bytes a raw block takes in its buffer, newlines included. */
  function Used(ls: seq<string>): nat { if ls == [] then 0 else Used(ls[..|ls| - 1]) + |ls[|ls| - 1]| + 1 }

  /** append_onvif_raw and append_fleet_raw: a line that does not fit is left out. */
  function AppendRaw(block: seq<string>, raw: string, size: nat): seq<string> {
    if Used(block) + |raw| + 2 > size then block else block + [raw]
  }

  function KeepRaw(st: Loader, raw: string): Loader {
    if st.sec == Onvif then st.(cfg := st.cfg.(onvif := AppendRaw(st.cfg.onvif, raw, ONVIF_SIZE)))
    else if st.sec == Fleet then st.(cfg := st.cfg.(fleet := AppendRaw(st.cfg.fleet, raw, FLEET_SIZE)))
    else st
  }

  function SectionOf(line: string): Section {
    if StartsWith(line, "agent:") then Agent
    else if StartsWith(line, "mqtt:") then Mqtt
    else if StartsWith(line, "storage:") then Storage
    else if StartsWith(line, "cameras:") then Cameras
    else if StartsWith(line, "yolo:") then Yolo
    else if StartsWith(line, "webui:") then Webui
    else if StartsWith(line, "onvif:") then Onvif
    else if StartsWith(line, "fleet:") then Fleet
    else Root
  }

  function OpenSection(st: Loader, line: string): Loader {
    var t := st.(sec := SectionOf(line));
    if t.sec == Onvif then t.(cfg := st.cfg.(onvif := ["onvif:"]))
    else if t.sec == Fleet then t.(cfg := st.cfg.(fleet := ["fleet:"]))
    else t
  }

  /** The field a key names in a section. */
  function SlotFor(sec: Section, key: string): Option<Slot> {
    match sec
    case Agent =>
      if key == "id" then Some(Id)
      else if key == "timezone" then Some(Timezone)
      else if key == "records_enabled" then Some(RecordsEnabled)
      else if key == "records_ttl" then Some(RecordsTtl)
      else if key == "records_transcode" then Some(RecordsTranscode)
      else if key == "rtmps" then Some(Rtmps)
      else if key == "stream_server" then Some(StreamServer)
      else if key == "snapshots" then Some(Snapshots)
      else if key == "callback_url" || key == "server" then Some(CallbackUrl)
      else if key == "tenant" || key == "app" then Some(Tenant)
      else if key == "encryption_key" then Some(EncryptionKey)
      else if key == "store_id" then Some(StoreId)
      else if key == "alias" then Some(Alias)
      else if key == "latitude" then Some(Latitude)
      else if key == "longitude" then Some(Longitude)
      else None
    case Mqtt => if key == "host" then Some(MqttHost) else if key == "port" then Some(MqttPort) else None
    case Storage =>
      if key == "endpoint" then Some(Endpoint)
      else if key == "bucket" then Some(Bucket)
      else if key == "region" then Some(Region)
      else None
    case Webui =>
      if key == "port" then Some(WebPort)
      else if key == "user" then Some(WebUser)
      else if key == "pass" then Some(WebPass)
      else None
    case CameraItem =>
      if key == "id" then Some(CamId)
      else if key == "ip" then Some(Ip)
      else if key == "status" then Some(Status)
      else if key == "record_path" then Some(RecordPath)
      else if key == "rtsp" then Some(Rtsp)
      else if key == "resolution" then Some(Resolution)
      else if key == "room" then Some(Room)
      else if key == "stream_key" then Some(StreamKey)
      else None
    case CameraDetect =>
      if key == "enabled" then Some(DetectEnabled)
      else if key == "mode" then Some(DetectMode)
      else if key == "plugin" then Some(Plugin)
      else if key == "poll_interval" then Some(PollInterval)
      else if key == "model" then Some(Model)
      else if key == "confidence" then Some(Confidence)
      else if key == "notify_mqtt" then Some(NotifyMqtt)
      else if key == "tracker" then Some(Tracker)
      else if key == "fps" then Some(Fps)
      else if key == "track_high_thresh" then Some(TrackHigh)
      else if key == "track_low_thresh" then Some(TrackLow)
      else if key == "new_track_thresh" then Some(NewTrack)
      else if key == "track_buffer" then Some(TrackBuffer)
      else if key == "match_thresh" then Some(MatchThresh)
      else if key == "targets" then Some(Targets)
      else None
    case Yolo =>
      if key == "enabled" then Some(DetectEnabled)
      else if key == "model" then Some(Model)
      else if key == "confidence" then Some(Confidence)
      else if key == "notify_mqtt" then Some(NotifyMqtt)
      else if key == "targets" then Some(Targets)
      else None
    case _ => None
  }

  predicate OfCamera(sec: Section) { sec == Cameras || sec == CameraItem || sec == CameraDetect }

  /** The fields a line of this section assigns to, if there are any. */
  predicate HasTarget(st: Loader) {
    if st.sec == CameraItem || st.sec == CameraDetect
    then st.cur.Some? && st.cur.value < |st.cfg.cams|
    else st.sec in {Agent, Mqtt, Storage, Webui}
  }

  function Target(st: Loader): Fields
    requires HasTarget(st)
  {
    if st.sec == CameraItem || st.sec == CameraDetect then st.cfg.cams[st.cur.value] else st.cfg.top
  }

  function WithTarget(st: Loader, m: Fields): Loader
    requires HasTarget(st)
  {
    if st.sec == CameraItem || st.sec == CameraDetect
    then st.(cfg := st.cfg.(cams := st.cfg.cams[st.cur.value := m]))
    else st.(cfg := st.cfg.(top := m))
  }

  function SetAll(cams: seq<Fields>, s: Slot, v: Value): seq<Fields> {
    if cams == [] then [] else SetAll(cams[..|cams| - 1], s, v) + [cams[|cams| - 1][s := v]]
  }

  /** The switch over the section. */
  function Assign(st: Loader, key: string, val: string, fl: Floats): Loader {
    if st.sec == Onvif then
      if key == "rescan_interval" then st.(cfg := st.cfg.(rescanInterval := Atoi(val))) else st
    else if st.sec == Fleet then
      if key == "interval" then st.(cfg := st.cfg.(fleetInterval := Atoi(val))) else st
    else match SlotFor(st.sec, key)
      case None => st
      case Some(s) =>
        var v := ReadValue(KindOf(s), val, fl);
        if st.sec == Yolo then st.(cfg := st.cfg.(cams := SetAll(st.cfg.cams, s, v)))
        else if HasTarget(st) then WithTarget(st, Target(st)[s := v])
        else st
  }

  /** A key and a value: an empty value may open a camera's detect block; a shallow line leaves it. */
  function ReadField(st: Loader, n: nat, key: string, val: string, fl: Floats): Loader {
    if val == "" then
      if st.sec == CameraItem && st.cur.Some? && key == "detect" then st.(sec := CameraDetect) else st
    else Assign(if st.sec == CameraDetect && n <= 4 then st.(sec := CameraItem) else st, key, val, fl)
  }

  /** A list item opens the next camera, while there is room. */
  function NewCamera(st: Loader): Loader {
    var t := st.(sec := CameraItem);
    if |st.cfg.cams| < MAX_CAMERAS
    then t.(cur := Some(|st.cfg.cams|), cfg := st.cfg.(cams := st.cfg.cams + [map[]]))
    else t
  }

  function ReadItem(st: Loader, n: nat, line: string, fl: Floats): Loader {
    var dash := OfCamera(st.sec) && line != "" && line[0] == '-';
    var t := if dash then NewCamera(st) else st;
    var body := if dash then LTrim(line[1..]) else line;
    if ':' !in body then t else ReadField(t, n, Trim(Text.Before(body, ':')), Trim(Text.After(body, ':')), fl)
  }

  function ReadLine(st: Loader, raw: string, fl: Floats): Loader {
    var line, n := Trim(raw), Indentation(raw);
    if line == "" || line[0] == '#' then (if n > 0 then KeepRaw(st, raw) else st)
    else if n == 0 then OpenSection(st, line)
    else ReadItem(KeepRaw(st, raw), n, line, fl)
  }

  function ReadLines(st: Loader, raws: seq<string>, fl: Floats): Loader
    decreases |raws|
  {
    if raws == [] then st else ReadLines(ReadLine(st, raws[0], fl), raws[1..], fl)
  }

  const START := Loader(Root, None, BLANK)

  /** The scheme in front of the broker's host goes at the end. */
  function Finish(cfg: Config): Config {
    match Get(cfg.top, MqttHost)
    case Str(host) => if StartsWith(host, "mqtt://") then cfg.(top := cfg.top[MqttHost := Str(host[7..])]) else cfg
    case _ => cfg
  }

  function Load(raws: seq<string>, fl: Floats): Config { Finish(ReadLines(START, raws, fl).cfg) }

  // ── Saving ──

  const AGENT_SLOTS := [
    Id, Timezone, RecordsEnabled, RecordsTtl, RecordsTranscode, Rtmps, StreamServer, Snapshots, CallbackUrl, Tenant,
    EncryptionKey, StoreId, Alias, Latitude, Longitude]
  const MQTT_SLOTS := [MqttHost, MqttPort]
  const STORAGE_SLOTS := [Endpoint, Bucket, Region]
  const WEBUI_SLOTS := [WebPort, WebUser, WebPass]
  const CAMERA_SLOTS := [Ip, Status, RecordPath, Rtsp, Resolution, Room, StreamKey]
  const DETECT_SLOTS := [DetectEnabled, DetectMode, Plugin, PollInterval, Model, Confidence, NotifyMqtt, Tracker, Fps,
    Targets]

  function KeyOf(s: Slot): string {
    match s
    case Id | CamId => "id"
    case Timezone => "timezone"
    case RecordsEnabled => "records_enabled"
    case RecordsTtl => "records_ttl"
    case RecordsTranscode => "records_transcode"
    case Rtmps => "rtmps"
    case StreamServer => "stream_server"
    case Snapshots => "snapshots"
    case CallbackUrl => "callback_url"
    case Tenant => "tenant"
    case EncryptionKey => "encryption_key"
    case StoreId => "store_id"
    case Alias => "alias"
    case Latitude => "latitude"
    case Longitude => "longitude"
    case MqttHost => "host"
    case MqttPort | WebPort => "port"
    case Endpoint => "endpoint"
    case Bucket => "bucket"
    case Region => "region"
    case WebUser => "user"
    case WebPass => "pass"
    case Ip => "ip"
    case Status => "status"
    case RecordPath => "record_path"
    case Rtsp => "rtsp"
    case Resolution => "resolution"
    case Room => "room"
    case StreamKey => "stream_key"
    case DetectEnabled => "enabled"
    case DetectMode => "mode"
    case Plugin => "plugin"
    case PollInterval => "poll_interval"
    case Model => "model"
    case Confidence => "confidence"
    case NotifyMqtt => "notify_mqtt"
    case Tracker => "tracker"
    case Fps => "fps"
    case Targets => "targets"
    case TrackHigh => "track_high_thresh"
    case TrackLow => "track_low_thresh"
    case NewTrack => "new_track_thresh"
    case TrackBuffer => "track_buffer"
    case MatchThresh => "match_thresh"
  }

  /** Some fields are written only when there is something to write. */
  predicate Writes(m: Fields, s: Slot) {
    match s
    case EncryptionKey | StoreId | Alias | Room | StreamKey => Get(m, s) != Str("")
    case Latitude | Longitude => Get(m, Latitude) != Frac(0.0) || Get(m, Longitude) != Frac(0.0)
    case Targets => Get(m, Targets) != Names([])
    case _ => true
  }

  function FieldLine(n: nat, s: Slot, v: Value, fl: Floats): string {
    Text.Spaces(n) + KeyOf(s) + ": " + ShowValue(KindOf(s), v, fl)
  }

  function FieldLines(m: Fields, slots: seq<Slot>, n: nat, fl: Floats): seq<string> {
    if slots == [] then []
    else
      (if Writes(m, slots[0]) then [FieldLine(n, slots[0], Get(m, slots[0]), fl)] else []) +
      FieldLines(m, slots[1..], n, fl)
  }

  predicate WritesDetect(cam: Fields) { Get(cam, DetectEnabled) == Flag(true) || Get(cam, Model) != Str("") }

  function CameraLines(cam: Fields, fl: Floats): seq<string> {
    ["  - " + KeyOf(CamId) + ": " + ShowValue(KindOf(CamId), Get(cam, CamId), fl)]
    + FieldLines(cam, CAMERA_SLOTS, 4, fl)
    + (if WritesDetect(cam) then ["    detect:"] + FieldLines(cam, DETECT_SLOTS, 6, fl) else [])
  }

  function CamerasLines(cams: seq<Fields>, fl: Floats): seq<string> {
    if cams == [] then [] else CamerasLines(cams[..|cams| - 1], fl) + CameraLines(cams[|cams| - 1], fl)
  }

  function WebuiLines(cfg: Config, fl: Floats): seq<string> {
    if Get(cfg.top, WebPort) == Num(0) then [] else ["webui:"] + FieldLines(cfg.top, WEBUI_SLOTS, 2, fl)
  }

  function TopLines(cfg: Config, fl: Floats): seq<string> {
    ["agent:"] + FieldLines(cfg.top, AGENT_SLOTS, 2, fl)
    + ["mqtt:"] + FieldLines(cfg.top, MQTT_SLOTS, 2, fl)
    + ["storage:"] + FieldLines(cfg.top, STORAGE_SLOTS, 2, fl)
    + ["cameras:"]
  }

  function Save(cfg: Config, fl: Floats): seq<string> {
    TopLines(cfg, fl) + CamerasLines(cfg.cams, fl) + WebuiLines(cfg, fl) + cfg.onvif + cfg.fleet
  }

  // ── In place ──

  class ConfigReader {
    var sec: Section
    var cur: Option<nat>
    var cfg: Config

    function State(): Loader
      reads this
    {
      Loader(sec, cur, cfg)
    }

    constructor ()
      ensures State() == START
    {
      sec, cur, cfg := Root, None, BLANK;
    }

    method KeepRawLine(raw: string)
      modifies this
      ensures State() == KeepRaw(old(State()), raw)
    {
      hide AppendRaw;
      if sec == Onvif {
        cfg := cfg.(onvif := AppendRaw(cfg.onvif, raw, ONVIF_SIZE));
      } else if sec == Fleet {
        cfg := cfg.(fleet := AppendRaw(cfg.fleet, raw, FLEET_SIZE));
      }
    }

    method Open(line: string)
      modifies this
      ensures State() == OpenSection(old(State()), line)
    {
      hide SectionOf;
      sec := SectionOf(line);
      if sec == Onvif { cfg := cfg.(onvif := ["onvif:"]); }
      if sec == Fleet { cfg := cfg.(fleet := ["fleet:"]); }
    }

    method AssignField(key: string, val: string, fl: Floats)
      modifies this
      ensures State() == Assign(old(State()), key, val, fl)
    {
      hide SlotFor, KindOf, ReadValue, Atoi;
      if sec == Onvif {
        if key == "rescan_interval" { cfg := cfg.(rescanInterval := Atoi(val)); }
        return;
      }
      if sec == Fleet {
        if key == "interval" { cfg := cfg.(fleetInterval := Atoi(val)); }
        return;
      }
      var slot := SlotFor(sec, key);
      if slot.None? { return; }
      var v := ReadValue(KindOf(slot.value), val, fl);
      if sec == Yolo {
        ApplyToAll(slot.value, v);
      } else if sec == CameraItem || sec == CameraDetect {
        if cur.Some? && cur.value < |cfg.cams| {
          cfg := cfg.(cams := cfg.cams[cur.value := cfg.cams[cur.value][slot.value := v]]);
        }
      } else if sec in {Agent, Mqtt, Storage, Webui} {
        cfg := cfg.(top := cfg.top[slot.value := v]);
      }
    }

    /** The legacy section that applies to all cameras. */
    method ApplyToAll(s: Slot, v: Value)
      modifies this
      ensures State() == Loader(old(sec), old(cur), old(cfg).(cams := SetAll(old(cfg).cams, s, v)))
    {
      var cams := cfg.cams;
      var done: seq<Fields> := [];
      for i := 0 to |cams|
        invariant done == SetAll(cams[..i], s, v)
        invariant State() == old(State())
      {
        assert cams[..i + 1][..i] == cams[..i];
        done := done + [cams[i][s := v]];
      }
      assert cams[..|cams|] == cams;
      cfg := cfg.(cams := done);
    }

    method Line(raw: string, fl: Floats)
      modifies this
      ensures State() == ReadLine(old(State()), raw, fl)
    {
      hide KeepRaw, OpenSection, Assign, Trim, LTrim, Indentation;
      var line, n := Trim(raw), Indentation(raw);
      if line == "" || line[0] == '#' {
        if n > 0 { KeepRawLine(raw); }
        return;
      }
      if n == 0 {
        Open(line);
        return;
      }
      KeepRawLine(raw);
      Item(n, line, fl);
    }

    method Item(n: nat, line: string, fl: Floats)
      modifies this
      ensures State() == ReadItem(old(State()), n, line, fl)
    {
      hide Assign, Trim, LTrim;
      var body := line;
      if OfCamera(sec) && line != "" && line[0] == '-' {
        if |cfg.cams| < MAX_CAMERAS {
          cur := Some(|cfg.cams|);
          cfg := cfg.(cams := cfg.cams + [map[]]);
        }
        body := LTrim(line[1..]);
        sec := CameraItem;
      }
      if ':' !in body { return; }
      var key, val := Trim(Text.Before(body, ':')), Trim(Text.After(body, ':'));
      if val == "" {
        if sec == CameraItem && cur.Some? && key == "detect" { sec := CameraDetect; }
        return;
      }
      if sec == CameraDetect && n <= 4 { sec := CameraItem; }
      AssignField(key, val, fl);
    }

    /** config_load, over the lines of the file. */
    method LoadAll(raws: seq<string>, fl: Floats) returns (loaded: Config)
      requires State() == START
      modifies this
      ensures loaded == Load(raws, fl)
    {
      hide ReadLine, Finish;
      for i := 0 to |raws|
        invariant ReadLines(START, raws, fl) == ReadLines(State(), raws[i..], fl)
      {
        assert raws[i..][0] == raws[i] && raws[i..][1..] == raws[i + 1..];
        Line(raws[i], fl);
      }
      loaded := Finish(cfg);
    }
  }

  /** config_save: the lines it writes. */
  method SaveAll(cfg: Config, fl: Floats) returns (lines: seq<string>)
    ensures lines == Save(cfg, fl)
  {
    hide TopLines, CameraLines, FieldLines;
    lines := TopLines(cfg, fl);
    for i := 0 to |cfg.cams|
      invariant lines == TopLines(cfg, fl) + CamerasLines(cfg.cams[..i], fl)
    {
      assert cfg.cams[..i + 1][..i] == cfg.cams[..i];
      lines := lines + CameraLines(cfg.cams[i], fl);
    }
    assert cfg.cams[..|cfg.cams|] == cfg.cams;
    if Get(cfg.top, WebPort) != Num(0) {
      lines := lines + (["webui:"] + FieldLines(cfg.top, WEBUI_SLOTS, 2, fl));
    }
    lines := lines + cfg.onvif + cfg.fleet;
  }
}
