/**
 What every run of one camera's relay keeps: over MQTT commands, heartbeats, ticks, upload reaps
 and dying children.
 */
module CameraRelayProperties {
  import R = Recorder
  import S = Relay
  import P = RecorderProperties
  import opened CameraRelay

  datatype Event =
    | Command(url: string, payload: int, c: R.Call, a: S.Attempt)
    | StopCommand(c: R.Call)
    | Heartbeat(c: R.Call)
    | Check(recording: bool, c: R.Call, a: S.Attempt)
    | Reap(ok: nat, fail: nat, c: R.Call)
    | RecorderExit(pid: nat)
    | RelayExit(pid: nat)

  function Apply(s: Camera, e: Event): Camera {
    match e
    case Command(url, payload, c, a) => OnStart(s, url, payload, c, a)
    case StopCommand(c) => EndStream(s, c)
    case Heartbeat(c) => OnHeartbeat(s, c)
    case Check(recording, c, a) => OnCheck(s, recording, c, a)
    case Reap(ok, fail, c) => OnReap(s, ok, fail, c)
    case RecorderExit(pid) => s.(rec := P.Apply(s.rec, P.Exit(pid)))
    case RelayExit(pid) => s.(relay := S.Apply(s.relay, S.Exit(pid)))
  }

  function Run(s: Camera, es: seq<Event>): Camera
    decreases |es|
  {
    if es == [] then s else Run(Apply(s, es[0]), es[1..])
  }

  // ── Tee or standalone, never both; streaming means a running timer ──

  ghost predicate Exclusive(s: Camera) {
    && !(s.rec.streaming && s.relay.running)
    && (Streaming(s) ==> s.timeout > 0)
  }

  lemma {:induction false} RecorderFlags(s: R.Recorder, c: R.Call)
    ensures R.Tick(s, c).streaming ==> s.streaming
    ensures !R.ClearStream(s, c).streaming
  {
  }

  lemma {:induction false} RelayFlags(s: S.Relay, a: S.Attempt)
    ensures S.Tick(s, a).running ==> s.running
    ensures !S.Stop(s).running
  {
  }

  lemma {:induction false} EndStreamLeavesNeither(s: Camera, c: R.Call)
    requires Exclusive(s)
    ensures Exclusive(EndStream(s, c)) && !Streaming(EndStream(s, c)) && EndStream(s, c).timeout == 0
  {
    hide R.ClearStream, S.Stop;
    RecorderFlags(s.rec, c);
    RelayFlags(s.relay, S.Attempt(0, false, false));
  }

  lemma {:induction false} EventKeepsExclusive(s: Camera, e: Event)
    requires Exclusive(s)
    ensures Exclusive(Apply(s, e))
    ensures Streaming(Apply(s, e)) && !Streaming(s) ==> e.Command?
  {
    hide R.SetStream, R.ClearStream, R.Tick, S.Start, S.Stop, S.Tick, EndStream;
    match e {
      case Command(url, payload, c, a) =>
      case StopCommand(c) => EndStreamLeavesNeither(s, c);
      case Heartbeat(c) =>
        if s.timeout > 0 && Streaming(s) && s.timeout <= INTERVAL_HEARTBEAT { ExpiryLeavesNeither(s, c); }
      case Check(recording, c, a) =>
        RecorderFlags(s.rec, c);
        RelayFlags(s.relay, a);
      case Reap(ok, fail, c) => ReapKeepsExclusive(s, ok, fail, c);
      case RecorderExit(pid) =>
      case RelayExit(pid) =>
    }
  }

  /** An expired timer leaves the camera on neither relay. */
  lemma {:induction false} ExpiryLeavesNeither(s: Camera, c: R.Call)
    requires Exclusive(s) && Streaming(s) && s.timeout <= INTERVAL_HEARTBEAT
    ensures Exclusive(OnHeartbeat(s, c)) && !Streaming(OnHeartbeat(s, c)) && OnHeartbeat(s, c).timeout == 0
  {
    hide R.ClearStream, S.Stop;
    RecorderFlags(s.rec, c);
    RelayFlags(s.relay, S.Attempt(0, false, false));
  }

  /** The upload result that takes the agent offline leaves the camera on neither relay. */
  lemma {:induction false} ReapKeepsExclusive(s: Camera, ok: nat, fail: nat, c: R.Call)
    requires Exclusive(s)
    ensures Exclusive(OnReap(s, ok, fail, c))
    ensures Streaming(OnReap(s, ok, fail, c)) ==> Streaming(s)
    ensures s.online && !OnReap(s, ok, fail, c).online ==> !Streaming(OnReap(s, ok, fail, c))
  {
    hide EndStream;
    var t := s.(failures := s.failures + fail, online := false);
    EndStreamLeavesNeither(t, c);
    EndStreamFrame(t, c);
  }

  lemma {:induction false} EndStreamFrame(s: Camera, c: R.Call)
    ensures EndStream(s, c).online == s.online
  {
  }

  /**
   In every run a camera is never on the tee and the standalone relay at once, and streaming
   implies a positive timer.
   */
  lemma {:induction false} NeverBothRelays(s: Camera, es: seq<Event>)
    requires Exclusive(s)
    ensures Exclusive(Run(s, es))
    decreases |es|
  {
    hide Apply, Exclusive;
    if es == [] {
    } else {
      EventKeepsExclusive(s, es[0]);
      NeverBothRelays(Apply(s, es[0]), es[1..]);
    }
  }

  // ── The timer ends every stream ──

  function Heartbeats(es: seq<Event>): nat
    decreases |es|
  {
    if es == [] then 0 else (if es[0].Heartbeat? then 1 else 0) + Heartbeats(es[1..])
  }

  ghost predicate NoStart(es: seq<Event>) { forall i :: 0 <= i < |es| ==> !es[i].Command? }

  lemma {:induction false} TimerStep(s: Camera, e: Event)
    requires Exclusive(s) && !e.Command? && Streaming(Apply(s, e))
    ensures Streaming(s)
    ensures Apply(s, e).timeout == s.timeout - (if e.Heartbeat? then INTERVAL_HEARTBEAT else 0)
  {
    hide R.SetStream, R.ClearStream, R.Tick, S.Start, S.Stop, S.Tick, Exclusive;
    EventKeepsExclusive(s, e);
    match e {
      case StopCommand(c) => EndStreamLeavesNeither(s, c);
      case Heartbeat(c) => HeartbeatDrains(s, c);
      case Check(recording, c, a) =>
      case Reap(ok, fail, c) => ReapKeepsTimer(s, ok, fail, c);
      case RecorderExit(pid) =>
      case RelayExit(pid) =>
    }
  }

  lemma {:induction false} HeartbeatDrains(s: Camera, c: R.Call)
    requires Exclusive(s) && Streaming(OnHeartbeat(s, c))
    ensures OnHeartbeat(s, c).timeout == s.timeout - INTERVAL_HEARTBEAT
  {
    if s.timeout <= INTERVAL_HEARTBEAT && Streaming(s) { ExpiryLeavesNeither(s, c); }
  }

  lemma {:induction false} ReapKeepsTimer(s: Camera, ok: nat, fail: nat, c: R.Call)
    requires Exclusive(s) && Streaming(OnReap(s, ok, fail, c))
    ensures OnReap(s, ok, fail, c).timeout == s.timeout
  {
    hide EndStream;
    EndStreamLeavesNeither(s.(failures := s.failures + fail, online := false), c);
  }

  lemma {:induction false} TimerBounds(s: Camera, es: seq<Event>)
    requires Exclusive(s) && NoStart(es) && Streaming(Run(s, es))
    ensures Streaming(s) && s.timeout > INTERVAL_HEARTBEAT * Heartbeats(es)
    decreases |es|
  {
    hide Apply;
    if es == [] {
    } else {
      EventKeepsExclusive(s, es[0]);
      TimerBounds(Apply(s, es[0]), es[1..]);
      TimerStep(s, es[0]);
    }
  }

  /** Without a new start, a stream ends within ceil(timeout / 60) heartbeats. */
  lemma {:induction false} StreamEndsInTime(s: Camera, es: seq<Event>)
    requires Exclusive(s) && NoStart(es)
    requires Heartbeats(es) >= (s.timeout + INTERVAL_HEARTBEAT - 1) / INTERVAL_HEARTBEAT
    ensures !Streaming(Run(s, es))
  {
    hide Exclusive, Run, NoStart, Streaming;
    if Streaming(Run(s, es)) {
      TimerBounds(s, es);
    }
  }

  // ── The processes behind the flags ──

  /** The flags are exclusive and no ffmpeg pushes to RTMP behind their back. */
  ghost predicate Sound(s: Camera) { Exclusive(s) && P.Inv(s.rec) && S.Inv(s.relay) }

  /** The start command reaches the recorder inside a pending deferred start and starts a child all the same. */
  predicate Overlaps(s: Camera, e: Event) {
    e.Command? && !Streaming(s) && s.rec.running && P.Overlaps(s.rec, P.DoSetStream(e.url, e.c))
  }

  lemma {:induction false} EndStreamKeepsSound(s: Camera, c: R.Call)
    requires P.Inv(s.rec) && S.Inv(s.relay)
    ensures P.Inv(EndStream(s, c).rec) && S.Inv(EndStream(s, c).relay)
  {
    hide P.Inv, S.Inv, R.ClearStream, S.Stop;
    P.ClearStreamKeeps(s.rec, c);
    S.StepKeeps(s.relay, S.DoStop);
  }

  lemma {:induction false} EventKeepsSound(s: Camera, e: Event)
    requires Sound(s) && !Overlaps(s, e)
    ensures Sound(Apply(s, e))
  {
    hide P.Inv, S.Inv, R.SetStream, R.ClearStream, R.Tick, S.Start, S.Stop, S.Tick, Exclusive, EndStream, P.StartsNow;
    EventKeepsExclusive(s, e);
    match e {
      case Command(url, payload, c, a) =>
        P.SetStreamKeepsExactly(s.rec, url, c);
        S.StepKeeps(s.relay, S.DoStart(a));
      case StopCommand(c) => EndStreamKeepsSound(s, c);
      case Heartbeat(c) => EndStreamKeepsSound(s.(timeout := s.timeout - INTERVAL_HEARTBEAT), c);
      case Check(recording, c, a) =>
        P.TickKeeps(s.rec, c);
        S.TickKeeps(s.relay, a);
      case Reap(ok, fail, c) => EndStreamKeepsSound(s.(failures := s.failures + fail, online := false), c);
      case RecorderExit(pid) => P.StepKeeps(s.rec, P.Exit(pid));
      case RelayExit(pid) => S.StepKeeps(s.relay, S.Exit(pid));
    }
  }

  predicate NeverOverlaps(s: Camera, es: seq<Event>)
    decreases |es|
  {
    es == [] || (!Overlaps(s, es[0]) && NeverOverlaps(Apply(s, es[0]), es[1..]))
  }

  lemma {:induction false} RunKeepsSound(s: Camera, es: seq<Event>)
    requires Sound(s) && NeverOverlaps(s, es)
    ensures Sound(Run(s, es))
    decreases |es|
  {
    hide Apply, Sound, Overlaps;
    if es == [] {
    } else {
      EventKeepsSound(s, es[0]);
      RunKeepsSound(Apply(s, es[0]), es[1..]);
    }
  }

  lemma {:induction false} SoundMeansAtMostOnePush(s: Camera)
    requires Sound(s)
    ensures !Streaming(s) ==> s.rec.os.pushing == {} && s.relay.os.live == {}
    ensures s.rec.os.pushing == {} || s.relay.os.live == {}
    ensures |s.rec.os.live| <= 1
  {
    P.AtMostOne(s.rec);
  }

  /** At boot a camera that is recorded gets its recorder started; any other keeps a zeroed one. */
  function Boot(recorded: bool, c: R.Call): Camera {
    Camera(if recorded then R.Start(R.ZEROED, c) else R.ZEROED, S.ZEROED, 0, true, 0)
  }

  lemma {:induction false} BootIsSound(recorded: bool, c: R.Call)
    ensures Sound(Boot(recorded, c))
  {
    P.BootKeeps(c);
  }

  /**
   From boot, recorded or not, as long as no start command lands inside a pending deferred start: a
   camera that is not streaming has no process pushing to RTMP, and the tee and the standalone relay
   never push together.
   */
  lemma {:induction false} ProcessesFollowFlags(recorded: bool, boot: R.Call, es: seq<Event>)
    requires NeverOverlaps(Boot(recorded, boot), es)
    ensures var t := Run(Boot(recorded, boot), es);
            && (!Streaming(t) ==> t.rec.os.pushing == {} && t.relay.os.live == {})
            && (t.rec.os.pushing == {} || t.relay.os.live == {})
            && |t.rec.os.live| <= 1
  {
    hide Run, Streaming, NeverOverlaps, Sound;
    BootIsSound(recorded, boot);
    RunKeepsSound(Boot(recorded, boot), es);
    SoundMeansAtMostOnePush(Run(Boot(recorded, boot), es));
  }

  // ── Which relay a camera uses ──

  /** A recorded camera has a running recorder and no standalone relay; any other has a relay at most. */
  ghost predicate OnOneRelay(s: Camera, recorded: bool) {
    if recorded then s.rec.running && !s.relay.running && s.relay.os.live == {}
    else !s.rec.running && s.rec.nextStart <= 0 && !s.rec.streaming && s.rec.os.live == {} && s.rec.os.pushing == {}
  }

  lemma {:induction false} RecorderKeepsRunning(s: R.Recorder, url: string, c: R.Call)
    requires s.running
    ensures R.Tick(s, c).running && R.SetStream(s, url, c).running && R.ClearStream(s, c).running
  {
  }

  lemma {:induction false} EventKeepsRelay(s: Camera, e: Event, recorded: bool)
    requires OnOneRelay(s, recorded)
    ensures OnOneRelay(Apply(s, e), recorded)
  {
    if recorded {
      hide R.SetStream, R.ClearStream, R.Tick, S.Start, S.Stop, S.Tick;
      match e {
        case Command(url, _, c, _) => RecorderKeepsRunning(s.rec, url, c);
        case StopCommand(c) => RecorderKeepsRunning(s.rec, "", c);
        case Heartbeat(c) => RecorderKeepsRunning(s.rec, "", c);
        case Check(_, c, _) => RecorderKeepsRunning(s.rec, "", c);
        case Reap(_, _, c) => RecorderKeepsRunning(s.rec, "", c);
        case RecorderExit(_) =>
        case RelayExit(_) =>
      }
    } else {
      hide S.Start, S.Stop, S.Tick;
    }
  }

  lemma {:induction false} RunKeepsRelay(s: Camera, es: seq<Event>, recorded: bool)
    requires OnOneRelay(s, recorded)
    ensures OnOneRelay(Run(s, es), recorded)
    decreases |es|
  {
    hide Apply, OnOneRelay;
    if es == [] {
    } else {
      EventKeepsRelay(s, es[0], recorded);
      RunKeepsRelay(Apply(s, es[0]), es[1..], recorded);
    }
  }

  /**
   Without the web UI the choice is made at boot: recorded cameras are only ever relayed by the
   tee, others only standalone.
   */
  lemma {:induction false} RelayIsChosenAtBoot(recorded: bool, boot: R.Call, es: seq<Event>)
    ensures var t := Run(Boot(recorded, boot), es);
            if recorded then !t.relay.running && t.relay.os.live == {} else !t.rec.streaming && t.rec.os.live == {}
  {
    hide Run;
    RunKeepsRelay(Boot(recorded, boot), es, recorded);
  }

  /** And the other relay is used: a start on an unrecorded camera that can be started runs the standalone relay. */
  lemma {:induction false} UnrecordedCameraIsRelayed(s: Camera, url: string, payload: int, c: R.Call, a: S.Attempt)
    requires OnOneRelay(s, false) && a.ready && a.spawned
    ensures OnStart(s, url, payload, c, a).relay.running
  {
  }

  // ── The web UI's start ──

  /** It keeps the exclusion exactly when the tee is idle or no child is started. */
  lemma {:induction false} WebStartExcludesExactly(s: Camera, a: S.Attempt)
    requires !(s.rec.streaming && s.relay.running)
    ensures !(OnWebStart(s, a).rec.streaming && OnWebStart(s, a).relay.running) <==>
      !(s.rec.streaming && a.ready && a.spawned)
  {
  }

  /** A stop leaves the camera on neither relay exactly when it was not on both. */
  lemma {:induction false} StopEndsBothExactly(s: Camera, c: R.Call)
    ensures !Streaming(EndStream(s, c)) <==> !(s.rec.streaming && s.relay.running)
  {
    hide R.ClearStream, S.Stop;
    RecorderFlags(s.rec, c);
    RelayFlags(s.relay, S.Attempt(0, false, false));
  }

  function Beats(s: Camera, cs: seq<R.Call>): Camera
    decreases |cs|
  {
    if cs == [] then s else Beats(OnHeartbeat(s, cs[0]), cs[1..])
  }

  lemma {:induction false} IdleTimerNeverStops(s: Camera, cs: seq<R.Call>)
    requires s.timeout <= 0
    ensures Beats(s, cs) == s
    decreases |cs|
  {
    if cs == [] {
    } else {
      IdleTimerNeverStops(s, cs[1..]);
    }
  }

  /**
   A relay started from the web UI beside a tee survives the stop command, and then no number of
   heartbeats ends it.
   */
  lemma {:induction false} WebStartOutlivesStop(s: Camera, a: S.Attempt, c: R.Call, cs: seq<R.Call>)
    requires s.rec.streaming && a.ready && a.spawned
    ensures Beats(EndStream(OnWebStart(s, a), c), cs).relay.running
  {
    hide R.ClearStream;
    IdleTimerNeverStops(EndStream(OnWebStart(s, a), c), cs);
  }
}
