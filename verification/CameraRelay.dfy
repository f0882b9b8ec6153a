/**
 How src/main.c relays one camera: through the recorder's tee when a recording runs, through a
 standalone relay otherwise, with a timer that keepalives refill and heartbeats drain.
 */
module CameraRelay {
  import R = Recorder
  import S = Relay

  const INTERVAL_HEARTBEAT := 60
  const DEFAULT_TIMEOUT := 1800

  /** What the event loop holds for one camera; `online` and `failures` are shared by all of them. */
  datatype Camera = Camera(rec: R.Recorder, relay: S.Relay, timeout: int, online: bool, failures: nat)

  predicate Streaming(s: Camera) { s.relay.running || s.rec.streaming }

  // ── The events, on values ──

  /** MQTT "start": begins relaying unless something already does, and refills the timer. */
  function OnStart(s: Camera, url: string, payload: int, c: R.Call, a: S.Attempt): Camera {
    var t := if Streaming(s) then s
             else if s.rec.running then s.(rec := R.SetStream(s.rec, url, c))
             else s.(relay := S.Start(s.relay, a));
    t.(timeout := if payload > 0 then payload else DEFAULT_TIMEOUT)
  }

  /** What "stop", an expired timer and going offline all do. */
  function EndStream(s: Camera, c: R.Call): Camera {
    var t := if s.rec.streaming then s.(rec := R.ClearStream(s.rec, c))
             else if s.relay.running then s.(relay := S.Stop(s.relay))
             else s;
    t.(timeout := 0)
  }

  function OnHeartbeat(s: Camera, c: R.Call): Camera {
    if s.timeout <= 0 || !Streaming(s) then s
    else
      var t := s.(timeout := s.timeout - INTERVAL_HEARTBEAT);
      if t.timeout <= 0 then EndStream(t, c) else t
  }

  /** The five-second check; `recording` says whether this camera is recorded at all. */
  function OnCheck(s: Camera, recording: bool, c: R.Call, a: S.Attempt): Camera {
    var t := if recording then s.(rec := R.Tick(s.rec, c)) else s;
    if t.relay.running && !t.rec.streaming then t.(relay := S.Tick(t.relay, a)) else t
  }

  /** The upload worker is reaped with its counts of good and failed uploads. */
  function OnReap(s: Camera, ok: nat, fail: nat, c: R.Call): Camera {
    if ok > 0 then s.(failures := 0, online := true)
    else if fail > 0 then
      var t := s.(failures := s.failures + fail);
      if t.failures >= 3 && t.online then EndStream(t.(online := false), c) else t
    else s
  }

  /** The web UI's start looks at the standalone relay only and leaves the timer alone. */
  function OnWebStart(s: Camera, a: S.Attempt): Camera {
    if s.relay.running then s else s.(relay := S.Start(s.relay, a))
  }

  // ── The events, in place ──

  class CameraContext {
    const rec: R.Context
    const relay: S.Context
    var timeout: int
    var online: bool
    var failures: nat

    function State(): Camera
      reads this, rec, relay
    {
      Camera(rec.State(), relay.State(), timeout, online, failures)
    }

    constructor (rec: R.Context, relay: S.Context)
      ensures this.rec == rec && this.relay == relay
      ensures State() == Camera(rec.State(), relay.State(), 0, true, 0)
    {
      this.rec, this.relay := rec, relay;
      timeout, online, failures := 0, true, 0;
    }

    method Start(url: string, payload: int, c: R.Call, a: S.Attempt)
      modifies this, rec, relay
      ensures State() == OnStart(old(State()), url, payload, c, a)
    {
      hide R.SetStream, S.Start;
      if !relay.running && !rec.streaming {
        if rec.running {
          rec.OnSetStream(url, c);
        } else {
          var _ := relay.Begin(a);
        }
      }
      timeout := DEFAULT_TIMEOUT;
      if payload > 0 { timeout := payload; }
    }

    method Stop(c: R.Call)
      modifies this, rec, relay
      ensures State() == EndStream(old(State()), c)
    {
      hide R.ClearStream, S.Stop;
      if rec.streaming {
        rec.OnClearStream(c);
      } else if relay.running {
        relay.OnStop();
      }
      timeout := 0;
    }

    method Heartbeat(c: R.Call)
      modifies this, rec, relay
      ensures State() == OnHeartbeat(old(State()), c)
    {
      hide EndStream;
      if timeout <= 0 { return; }
      if !(relay.running || rec.streaming) { return; }
      timeout := timeout - INTERVAL_HEARTBEAT;
      if timeout <= 0 { Stop(c); }
    }

    method Check(recording: bool, c: R.Call, a: S.Attempt)
      modifies this, rec, relay
      ensures State() == OnCheck(old(State()), recording, c, a)
    {
      hide R.Tick, S.Tick;
      if recording { var _ := rec.OnTick(c); }
      if relay.running && !rec.streaming { relay.OnTick(a); }
    }

    method ReapUpload(ok: nat, fail: nat, c: R.Call)
      modifies this, rec, relay
      ensures State() == OnReap(old(State()), ok, fail, c)
    {
      hide EndStream;
      if ok > 0 {
        failures, online := 0, true;
      } else if fail > 0 {
        failures := failures + fail;
        if failures >= 3 && online {
          online := false;
          Stop(c);
        }
      }
    }
  }
}
