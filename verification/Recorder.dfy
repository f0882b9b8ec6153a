/** The per-camera recorder of src/recorder.c: one ffmpeg child at a time, restarted for every segment. */
module Recorder {
  import opened Processes

  const SEGMENT_DURATION_SEC := 1800
  const MAX_RECONNECT_DELAY := 30
  const MIN_FILE_SIZE := 100 * 1024

  /** recorder_ctx_t, with the operating system's view of its children. */
  datatype Recorder = Recorder(
    proc: Handle,
    segmentStart: int,
    nextStart: int,
    attempts: nat,
    running: bool,
    url: string,
    streaming: bool,
    teeActive: bool,
    teeFailUntil: int,
    os: Os)

  const ZEROED := Recorder(NO_CHILD, 0, 0, 0, false, "", false, false, 0, BOOT)

  /** What one call meets: the clock, whether ffmpeg is installed and can be spawned, the segment's size. */
  datatype Call = Call(now: int, found: bool, spawned: bool, size: int)

  // ── The calls, on values ──

  /** start_ffmpeg: a missing ffmpeg changes nothing; a failed spawn has already cleared the handle. */
  function StartFfmpeg(s: Recorder, c: Call): Recorder {
    if !c.found then s
    else if !c.spawned then s.(proc := NO_CHILD)
    else
      var tee := s.streaming && s.url != "";
      s.(proc := Handle(s.os.next, false), segmentStart := c.now, running := true, teeActive := tee,
        os := s.os.Spawn(tee))
  }

  /** recorder_start. */
  function Start(s: Recorder, c: Call): Recorder {
    var t := StartFfmpeg(ZEROED.(url := s.url, streaming := s.streaming, os := s.os), c);
    if c.found && c.spawned then t else t.(running := true)
  }

  function Delay(attempts: nat): int {
    if attempts * 3 > MAX_RECONNECT_DELAY then MAX_RECONNECT_DELAY else attempts * 3
  }

  /** The child is gone: judge the segment it left and schedule the next start. */
  function ChildExited(s: Recorder, c: Call): Recorder {
    if c.size < MIN_FILE_SIZE then
      var u := if s.teeActive
               then s.(url := "", streaming := false, teeActive := false, teeFailUntil := c.now + SEGMENT_DURATION_SEC)
               else s;
      u.(attempts := s.attempts + 1, nextStart := c.now + Delay(s.attempts + 1))
    else s.(attempts := 0, nextStart := c.now + 2)
  }

  /** recorder_tick. */
  function Tick(s: Recorder, c: Call): Recorder {
    if !s.running then
      if s.nextStart > 0 && c.now >= s.nextStart
      then StartFfmpeg(s.(nextStart := 0, running := true, attempts := 0), c)
      else s
    else if s.nextStart > 0 then
      if c.now < s.nextStart then s else StartFfmpeg(s.(nextStart := 0), c)
    else
      var t := s.(proc := Polled(s.proc, s.os));
      if !Alive(s.proc, s.os) && !t.proc.exited && s.segmentStart == 0 then t
      else if Alive(s.proc, s.os) then
        if c.now - s.segmentStart > SEGMENT_DURATION_SEC + 120
        then t.(proc := Handle(s.proc.pid, true), os := s.os.Gone(s.proc.pid), nextStart := c.now + 5)
        else t
      else ChildExited(t, c)
  }

  /** The tick finds its child gone and a segment worth uploading. */
  predicate Completes(s: Recorder, c: Call) {
    && s.running && s.nextStart <= 0
    && !Alive(s.proc, s.os)
    && (Polled(s.proc, s.os).exited || s.segmentStart != 0)
    && c.size >= MIN_FILE_SIZE
  }

  /** recorder_stop: the pending start is left as it is. */
  function Stop(s: Recorder): Recorder {
    var t := if Alive(s.proc, s.os)
             then s.(proc := Handle(s.proc.pid, true), os := s.os.Gone(s.proc.pid))
             else s.(proc := Polled(s.proc, s.os));
    t.(running := false, streaming := false, teeActive := false, url := "")
  }

  /** recorder_set_stream. */
  function SetStream(s: Recorder, url: string, c: Call): Recorder {
    if s.streaming && s.url == url then s
    else if s.teeFailUntil > 0 && c.now < s.teeFailUntil then s
    else
      var t := s.(url := url, streaming := true);
      if !s.running then t
      else if Alive(s.proc, s.os) then t
      else StartFfmpeg(t.(proc := Polled(s.proc, s.os)), c)
  }

  /** recorder_clear_stream. */
  function ClearStream(s: Recorder, c: Call): Recorder {
    if !s.streaming then s
    else
      var t := s.(url := "", streaming := false);
      if !s.running || !s.teeActive then t
      else if !Alive(s.proc, s.os) then t.(proc := Polled(s.proc, s.os))
      else StartFfmpeg(t.(proc := Handle(s.proc.pid, true), os := s.os.Gone(s.proc.pid), teeActive := false), c)
  }

  // ── The calls, in place ──

  class Context {
    var proc: Handle
    var segmentStart: int
    var nextStart: int
    var attempts: nat
    var running: bool
    var url: string
    var streaming: bool
    var teeActive: bool
    var teeFailUntil: int
    var os: Os

    function State(): Recorder
      reads this
    {
      Recorder(proc, segmentStart, nextStart, attempts, running, url, streaming, teeActive, teeFailUntil, os)
    }

    constructor ()
      ensures State() == ZEROED
    {
      proc, segmentStart, nextStart, attempts, running := NO_CHILD, 0, 0, 0, false;
      url, streaming, teeActive, teeFailUntil, os := "", false, false, 0, BOOT;
    }

    /** plat_proc_alive. */
    method ProcAlive() returns (alive: bool)
      modifies this`proc
      ensures alive == Alive(old(proc), os) && proc == Polled(old(proc), os)
    {
      if proc.exited || proc.pid == 0 { return false; }
      if proc.pid in os.live { return true; }
      proc := Handle(proc.pid, true);
      return false;
    }

    /** Terminate, wait, and kill when the wait runs out: either way the child is gone afterwards. */
    method EndChild()
      modifies this`proc, this`os
      ensures proc == Handle(old(proc).pid, true) && os == old(os).Gone(old(proc).pid)
    {
      os := os.Gone(proc.pid);
      proc := Handle(proc.pid, true);
    }

    method StartChild(c: Call) returns (ok: bool)
      modifies this
      ensures State() == StartFfmpeg(old(State()), c)
      ensures ok <==> c.found && c.spawned
    {
      if !c.found { return false; }
      var tee := streaming && url != "";
      proc := NO_CHILD;
      if !c.spawned { return false; }
      proc := Handle(os.next, false);
      os := os.Spawn(tee);
      segmentStart := c.now;
      running := true;
      teeActive := tee;
      return true;
    }

    method Begin(c: Call)
      modifies this
      ensures State() == Start(old(State()), c)
    {
      proc, segmentStart, nextStart, attempts, running := NO_CHILD, 0, 0, 0, false;
      teeActive, teeFailUntil := false, 0;
      var ok := StartChild(c);
      if ok { return; }
      running := true;
    }

    /** Answers whether a segment is ready for upload. */
    method OnTick(c: Call) returns (segmentReady: bool)
      modifies this
      ensures State() == Tick(old(State()), c)
      ensures segmentReady == Completes(old(State()), c)
    {
      segmentReady := false;
      if !running {
        if nextStart > 0 && c.now >= nextStart {
          nextStart, running, attempts := 0, true, 0;
          var _ := StartChild(c);
        }
        return;
      }
      if nextStart > 0 {
        if c.now < nextStart { return; }
        nextStart := 0;
        var _ := StartChild(c);
        return;
      }
      var alive := ProcAlive();
      if !alive && !proc.exited && segmentStart == 0 { return; }
      if alive {
        if c.now - segmentStart > SEGMENT_DURATION_SEC + 120 {
          EndChild();
          nextStart := c.now + 5;
        }
        return;
      }
      segmentReady := JudgeSegment(c);
    }

    method JudgeSegment(c: Call) returns (valid: bool)
      modifies this
      ensures State() == ChildExited(old(State()), c)
      ensures valid <==> c.size >= MIN_FILE_SIZE
    {
      if c.size < MIN_FILE_SIZE {
        if teeActive {
          url, streaming, teeActive := "", false, false;
          teeFailUntil := c.now + SEGMENT_DURATION_SEC;
        }
        attempts := attempts + 1;
        var delay := attempts * 3;
        if delay > MAX_RECONNECT_DELAY { delay := MAX_RECONNECT_DELAY; }
        nextStart := c.now + delay;
        return false;
      }
      attempts := 0;
      nextStart := c.now + 2;
      return true;
    }

    method OnStop()
      modifies this
      ensures State() == Stop(old(State()))
    {
      var alive := ProcAlive();
      if alive { EndChild(); }
      running, streaming, teeActive, url := false, false, false, "";
    }

    method OnSetStream(rtmpUrl: string, c: Call)
      modifies this
      ensures State() == SetStream(old(State()), rtmpUrl, c)
    {
      if streaming && url == rtmpUrl { return; }
      if teeFailUntil > 0 && c.now < teeFailUntil { return; }
      url, streaming := rtmpUrl, true;
      if !running { return; }
      var alive := ProcAlive();
      if alive { return; }
      var _ := StartChild(c);
    }

    method OnClearStream(c: Call)
      modifies this
      ensures State() == ClearStream(old(State()), c)
    {
      if !streaming { return; }
      url, streaming := "", false;
      if !running { return; }
      if !teeActive { return; }
      var alive := ProcAlive();
      if alive {
        EndChild();
        teeActive := false;
        var _ := StartChild(c);
      }
    }
  }
}
