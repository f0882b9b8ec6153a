/** One field of config.yml: which values survive printing and reading, and which key leads where. */
module ConfigValues {
  import opened Common
  import opened CText
  import opened ConfigFile
  import Text

  // ── Values that survive ──

  /** A text its reader gives back: nothing to trim, one line, no quote to strip, and room for it. */
  ghost predicate PlainText(t: string, size: nat) {
    Clean(t) && '\n' !in t && |t| < size && !(|t| >= 2 && IsQuote(t[0]))
  }

  ghost predicate PlainName(t: string) { t != "" && PlainText(t, MAX_TARGET_LEN) && ',' !in t }

  ghost predicate Good(k: Kind, v: Value) {
    match (k, v)
    case (TextKind(size), Str(t)) => PlainText(t, size)
    case (QuotedKind(size), Str(t)) => '\n' !in t && |t| < size
    case (FilledKind(size, _), Str(t)) => t != "" && PlainText(t, size)
    case (FlagKind, Flag(_)) => true
    case (NumKind, Num(n)) => IsInt32(n)
    case (CountKind, Num(n)) => IsInt32(n) && n > 0
    case (FracKind(_), Frac(_)) => true
    case (ModeKind, Where(_)) => true
    case (NamesKind, Names(ns)) => |ns| <= MAX_TARGETS && forall i :: 0 <= i < |ns| ==> PlainName(ns[i])
    case _ => false
  }

  /** The field's value can be saved and loaded; an empty one only if it is what the loader starts from. */
  ghost predicate Restorable(m: Fields, s: Slot) {
    && Good(KindOf(s), Get(m, s))
    && (Get(m, s) == Str("") && !KindOf(s).QuotedKind? ==> Initial(s) == Str(""))
  }

  /** Printed numbers are one short line. */
  ghost predicate SaneFloats(fl: Floats) {
    forall k, r :: Clean(fl.show(k, r)) && '\n' !in fl.show(k, r) && |fl.show(k, r)| <= 400
  }

  // ── Target names ──

  lemma {:induction false} JoinIsClean(ns: seq<string>)
    requires forall i :: 0 <= i < |ns| ==> PlainName(ns[i])
    ensures Clean(JoinNames(ns)) && '\n' !in JoinNames(ns)
    ensures ns != [] ==> JoinNames(ns) != "" && ns[0] != "" && JoinNames(ns)[0] == ns[0][0]
    ensures |JoinNames(ns)| <= |ns| * MAX_TARGET_LEN
    ensures ns != [] ==> |JoinNames(ns)| < |ns| * MAX_TARGET_LEN
    decreases |ns|
  {
    if |ns| == 1 {
      assert PlainName(ns[0]);
    } else if |ns| > 1 {
      assert PlainName(ns[0]);
      JoinIsClean(ns[1..]);
      var j, t := JoinNames(ns), JoinNames(ns[1..]);
      assert j == ns[0] + "," + t && j[|j| - 1] == t[|t| - 1];
    }
  }

  lemma {:induction false} NameIsRead(t: string)
    requires PlainName(t)
    ensures Trim(t) == t && SetValue(t, MAX_TARGET_LEN) == t
  {
    TrimOfClean(t);
  }

  lemma {:induction false} NamesAreRead(ns: seq<string>, acc: seq<string>)
    requires |acc| + |ns| <= MAX_TARGETS && forall i :: 0 <= i < |ns| ==> PlainName(ns[i])
    ensures ReadNames(JoinNames(ns), acc) == acc + ns
    decreases |ns|
  {
    hide Trim, SetValue;
    if ns == [] {
      assert acc + ns == acc;
    } else {
      var t := ns[0];
      assert PlainName(t);
      NameIsRead(t);
      if |ns| == 1 {
        Text.BeforeAbsent(t, ',');
        AfterAbsent(t, ',');
        assert ReadNames("", acc + [t]) == acc + [t];
        assert ns == [t];
      } else {
        Text.SplitAt(t, ',', JoinNames(ns[1..]));
        assert JoinNames(ns) == t + [','] + JoinNames(ns[1..]);
        NamesAreRead(ns[1..], acc + [t]);
        assert acc + ns == acc + [t] + ns[1..];
      }
    }
  }

  lemma {:induction false} AfterAbsent(s: string, c: char)
    requires c !in s
    ensures Text.After(s, c) == ""
    decreases |s|
  {
    if s == [] {
    } else {
      AfterAbsent(s[1..], c);
    }
  }

  // ── One value ──

  lemma {:induction false} ShownIsClean(k: Kind, v: Value, fl: Floats)
    requires Good(k, v) && SaneFloats(fl)
    ensures Clean(ShowValue(k, v, fl)) && '\n' !in ShowValue(k, v, fl)
  {
    hide Shown, JoinNames;
    match (k, v) {
      case (NumKind, Num(n)) => AtoiUndoesShown(n);
      case (CountKind, Num(n)) => AtoiUndoesShown(n);
      case (NamesKind, Names(ns)) => JoinIsClean(ns);
      case (QuotedKind(_), Str(t)) =>
      case _ =>
    }
  }

  /**
   What is printed for a good value is read as that value, unless it is a number with a fraction
   or nothing at all.
   */
  lemma {:induction false} ValueIsRead(k: Kind, v: Value, fl: Floats)
    requires Good(k, v) && SaneFloats(fl) && !k.FracKind?
    ensures ShowValue(k, v, fl) != "" ==> ReadValue(k, ShowValue(k, v, fl), fl) == v
    ensures ShowValue(k, v, fl) == "" ==> (k.TextKind? && v == Str("")) || (k.NamesKind? && v == Names([]))
  {
    hide Shown, Atoi, JoinNames, ReadNames, PlainName;
    match (k, v) {
      case (NumKind, Num(n)) => AtoiUndoesShown(n);
      case (CountKind, Num(n)) => AtoiUndoesShown(n);
      case (NamesKind, Names(ns)) =>
        JoinIsClean(ns);
        NamesAreRead(ns, []);
        assert [] + ns == ns;
      case (QuotedKind(_), Str(t)) => assert ("'" + t + "'")[1..|t| + 1] == t;
      case _ =>
    }
  }

  // ── One line ──

  /** A key as the writer prints it: lower-case letters, digits and underscores. */
  ghost predicate KeyLike(key: string) {
    key != "" && |key| <= 20 && forall i :: 0 <= i < |key| ==> 'a' <= key[i] <= 'z' || key[i] == '_'
  }

  lemma {:induction false} KeyLikeIsPlain(key: string)
    requires KeyLike(key)
    ensures Clean(key) && ':' !in key && '\n' !in key && key[0] != '-' && key[0] != '#'
  {
  }

  /** The section a field is written in. */
  function Home(s: Slot): Section {
    match s
    case Id | Timezone | RecordsEnabled | RecordsTtl | RecordsTranscode | Rtmps | StreamServer | Snapshots
       | CallbackUrl | Tenant | EncryptionKey | StoreId | Alias | Latitude | Longitude => Agent
    case MqttHost | MqttPort => Mqtt
    case Endpoint | Bucket | Region => Storage
    case WebPort | WebUser | WebPass => Webui
    case CamId | Ip | Status | RecordPath | Rtsp | Resolution | Room | StreamKey => CameraItem
    case _ => CameraDetect
  }

  lemma {:induction false} AgentKey(s: Slot)
    requires Home(s) == Agent
    ensures SlotFor(Agent, KeyOf(s)) == Some(s)
  {
  }

  lemma {:induction false} DetectKey(s: Slot)
    requires Home(s) == CameraDetect
    ensures SlotFor(CameraDetect, KeyOf(s)) == Some(s)
  {
  }

  lemma {:induction false} OtherKey(s: Slot)
    requires Home(s) != Agent && Home(s) != CameraDetect
    ensures SlotFor(Home(s), KeyOf(s)) == Some(s)
  {
  }

  lemma {:induction false} LongAgentKeyLike(s: Slot)
    requires s in {RecordsEnabled, RecordsTranscode, StreamServer, CallbackUrl, EncryptionKey}
    ensures KeyLike(KeyOf(s))
  {
  }

  lemma {:induction false} ShortAgentKeyLike(s: Slot)
    requires s in {Id, Timezone, RecordsTtl, Rtmps, Snapshots, Tenant, StoreId, Alias, Latitude, Longitude}
    ensures KeyLike(KeyOf(s))
  {
  }

  lemma {:induction false} DetectKeyLike(s: Slot)
    requires s in {DetectEnabled, DetectMode, Plugin, PollInterval, Model, Confidence, NotifyMqtt, Tracker, Fps,
      Targets}
    ensures KeyLike(KeyOf(s))
  {
  }

  lemma {:induction false} TrackKeyLike(s: Slot)
    requires s in {TrackHigh, TrackLow, NewTrack, TrackBuffer, MatchThresh}
    ensures KeyLike(KeyOf(s))
  {
  }

  lemma {:induction false} CameraKeyLike(s: Slot)
    requires Home(s) == CameraItem
    ensures KeyLike(KeyOf(s))
  {
  }

  lemma {:induction false} OtherKeyLike(s: Slot)
    requires Home(s) in {Mqtt, Storage, Webui}
    ensures KeyLike(KeyOf(s))
  {
  }

  /** The key a section's writer uses is the key its reader knows. */
  lemma {:induction false} KeyIsDispatched(s: Slot)
    ensures SlotFor(Home(s), KeyOf(s)) == Some(s) && KeyLike(KeyOf(s))
  {
    hide SlotFor, KeyOf, KeyLike;
    match Home(s) {
      case Agent =>
        AgentKey(s);
        if s in {RecordsEnabled, RecordsTranscode, StreamServer, CallbackUrl, EncryptionKey} {
          LongAgentKeyLike(s);
        } else {
          ShortAgentKeyLike(s);
        }
      case CameraDetect =>
        DetectKey(s);
        if s in {TrackHigh, TrackLow, NewTrack, TrackBuffer, MatchThresh} {
          TrackKeyLike(s);
        } else {
          DetectKeyLike(s);
        }
      case CameraItem =>
        OtherKey(s);
        CameraKeyLike(s);
      case _ =>
        OtherKey(s);
        OtherKeyLike(s);
    }
  }

  /** A field's place among the fields its section writes. */
  function Place(s: Slot): nat {
    match s
    case Id | MqttHost | Endpoint | WebPort | Ip | DetectEnabled => 0
    case Timezone | MqttPort | Bucket | WebUser | Status | DetectMode => 1
    case RecordsEnabled | Region | WebPass | RecordPath | Plugin => 2
    case RecordsTtl | Rtsp | PollInterval => 3
    case RecordsTranscode | Resolution | Model => 4
    case Rtmps | Room | Confidence => 5
    case StreamServer | StreamKey | NotifyMqtt => 6
    case Snapshots | Tracker => 7
    case CallbackUrl | Fps => 8
    case Tenant | Targets => 9
    case EncryptionKey => 10
    case StoreId => 11
    case Alias => 12
    case Latitude => 13
    case Longitude => 14
    case _ => 15
  }

  /** Consecutive fields of one section; so no field stands twice. */
  ghost predicate Proper(slots: seq<Slot>, sec: Section, from: nat) {
    forall i :: 0 <= i < |slots| ==> Home(slots[i]) == sec && Place(slots[i]) == from + i
  }

  lemma {:induction false} AgentSlotsAreProper()
    ensures Proper(AGENT_SLOTS, Agent, 0)
  {
  }

  lemma {:induction false} DetectSlotsAreProper()
    ensures Proper(DETECT_SLOTS, CameraDetect, 0)
  {
  }

  lemma {:induction false} CameraSlotsAreProper()
    ensures Proper(CAMERA_SLOTS, CameraItem, 0)
  {
  }

  lemma {:induction false} OtherSlotsAreProper()
    ensures Proper(MQTT_SLOTS, Mqtt, 0) && Proper(STORAGE_SLOTS, Storage, 0) && Proper(WEBUI_SLOTS, Webui, 0)
  {
  }
}
