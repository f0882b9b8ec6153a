/** What every run of the recorder keeps, and the one step that breaks it. */
module RecorderProperties {
  import opened Processes
  import opened Recorder

  /** A call on the recorder, or a child ending by itself. */
  datatype Step = DoTick(c: Call) | DoSetStream(url: string, c: Call) | DoClearStream(c: Call) | DoStop | Exit(pid: nat)

  function Apply(s: Recorder, e: Step): Recorder {
    match e
    case DoTick(c) => Tick(s, c)
    case DoSetStream(url, c) => SetStream(s, url, c)
    case DoClearStream(c) => ClearStream(s, c)
    case DoStop => Stop(s)
    case Exit(pid) => s.(os := s.os.Gone(pid))
  }

  function Run(s: Recorder, es: seq<Step>): Recorder
    decreases |es|
  {
    if es == [] then s else Run(Apply(s, es[0]), es[1..])
  }

  /**
   At most one child, the one the handle names; none while a start is pending or the recorder is
   stopped; and only a tee recording that is still wanted pushes to RTMP.
   */
  ghost predicate Inv(s: Recorder) {
    && s.os.Valid()
    && Tracked(s.proc, s.os)
    && (s.nextStart > 0 ==> s.os.live == {})
    && (!s.running ==> s.os.live == {})
    && (s.os.pushing != {} ==> s.teeActive && s.streaming)
  }

  /** set_stream finds no child and starts one at once. */
  predicate StartsNow(s: Recorder, url: string, c: Call) {
    && !(s.streaming && s.url == url)
    && !(s.teeFailUntil > 0 && c.now < s.teeFailUntil)
    && s.running
    && !Alive(s.proc, s.os)
    && c.found && c.spawned
  }

  /** set_stream lands while a deferred start is pending and starts a child all the same. */
  predicate Overlaps(s: Recorder, e: Step) {
    e.DoSetStream? && s.nextStart > 0 && StartsNow(s, e.url, e.c)
  }

  // ── One step ──

  /** A start with no child alive leaves at most the new one. */
  lemma {:induction false} StartFfmpegKeeps(s: Recorder, c: Call)
    requires s.os.Valid() && s.os.live == {} && s.nextStart <= 0 && s.running
    ensures Inv(StartFfmpeg(s, c))
  {
  }

  lemma {:induction false} NoneAlive(s: Recorder)
    requires Inv(s) && !Alive(s.proc, s.os)
    ensures s.os.live == {} && s.os.pushing == {}
  {
    assert s.os.live == {};
  }

  lemma {:induction false} TickKeeps(s: Recorder, c: Call)
    requires Inv(s)
    ensures Inv(Tick(s, c))
  {
    hide StartFfmpeg;
    if s.nextStart > 0 && c.now >= s.nextStart {
      StartFfmpegKeeps(if s.running then s.(nextStart := 0) else s.(nextStart := 0, running := true, attempts := 0), c);
    } else if !Alive(s.proc, s.os) {
      NoneAlive(s);
    }
  }

  lemma {:induction false} ClearStreamKeeps(s: Recorder, c: Call)
    requires Inv(s)
    ensures Inv(ClearStream(s, c))
    ensures ClearStream(s, c).os.pushing == {}
  {
    if s.os.pushing != {} {
      var p :| p in s.os.pushing;
      assert p in s.os.live;
    }
  }

  lemma {:induction false} StopKeeps(s: Recorder)
    requires Inv(s)
    ensures Inv(Stop(s)) && Stop(s).os.live == {} && !Stop(s).running
  {
    if !Alive(s.proc, s.os) { NoneAlive(s); }
  }

  /** set_stream keeps the invariant exactly when it does not start a child under a pending deferred start. */
  lemma {:induction false} SetStreamKeepsExactly(s: Recorder, url: string, c: Call)
    requires Inv(s)
    ensures Inv(SetStream(s, url, c)) <==> !Overlaps(s, DoSetStream(url, c))
  {
    if !Alive(s.proc, s.os) { NoneAlive(s); }
    if Overlaps(s, DoSetStream(url, c)) {
      assert s.os.next in SetStream(s, url, c).os.live;
    }
  }

  lemma {:induction false} StepKeeps(s: Recorder, e: Step)
    requires Inv(s) && !Overlaps(s, e)
    ensures Inv(Apply(s, e))
  {
    hide Tick, SetStream, ClearStream, Stop, Overlaps;
    match e {
      case DoTick(c) => TickKeeps(s, c);
      case DoSetStream(url, c) => SetStreamKeepsExactly(s, url, c);
      case DoClearStream(c) => ClearStreamKeeps(s, c);
      case DoStop => StopKeeps(s);
      case Exit(pid) =>
    }
  }

  // ── Whole runs ──

  /** No step of the run is a set_stream that starts a child under a pending start. */
  predicate NeverOverlaps(s: Recorder, es: seq<Step>)
    decreases |es|
  {
    es == [] || (!Overlaps(s, es[0]) && NeverOverlaps(Apply(s, es[0]), es[1..]))
  }

  lemma {:induction false} BootKeeps(c: Call)
    ensures Inv(Start(ZEROED, c))
  {
  }

  lemma {:induction false} RunKeeps(s: Recorder, es: seq<Step>)
    requires Inv(s) && NeverOverlaps(s, es)
    ensures Inv(Run(s, es))
    decreases |es|
  {
    hide Inv, Apply, Overlaps;
    if es == [] {
    } else {
      StepKeeps(s, es[0]);
      RunKeeps(Apply(s, es[0]), es[1..]);
    }
  }

  /** From boot, every such run has at most one live ffmpeg, and none while a start is pending. */
  lemma {:induction false} OneChildAtATime(c: Call, es: seq<Step>)
    requires NeverOverlaps(Start(ZEROED, c), es)
    ensures |Run(Start(ZEROED, c), es).os.live| <= 1
    ensures Run(Start(ZEROED, c), es).nextStart > 0 ==> Run(Start(ZEROED, c), es).os.live == {}
  {
    hide Start, Run;
    BootKeeps(c);
    RunKeeps(Start(ZEROED, c), es);
    AtMostOne(Run(Start(ZEROED, c), es));
  }

  lemma {:induction false} AtMostOne(s: Recorder)
    requires Inv(s)
    ensures |s.os.live| <= 1
  {
    if s.os.live != {} {
      var p :| p in s.os.live;
      assert s.os.live == {p};
    }
  }

  /** A second recorder_start keeps the invariant exactly when no child is alive: it forgets the handle. */
  lemma {:induction false} RestartKeepsExactly(s: Recorder, c: Call)
    requires Inv(s)
    ensures Inv(Start(s, c)) <==> s.os.live == {}
  {
    if s.os.live != {} {
      var p :| p in s.os.live;
      assert p in Start(s, c).os.live;
      if c.found && c.spawned { assert s.os.next in Start(s, c).os.live; }
    }
  }

  // ── The overlapping set_stream ──

  /** A child the handle has let go of: nothing the recorder does can reach it any more. */
  ghost predicate Orphan(s: Recorder, p: nat) {
    s.os.Valid() && p in s.os.live && p != s.proc.pid
  }

  ghost predicate StaysOrphan(s: Recorder, t: Recorder, p: nat) {
    Orphan(t, p) && (p in s.os.pushing ==> p in t.os.pushing)
  }

  lemma {:induction false} StartLeavesOrphan(s: Recorder, c: Call, p: nat)
    requires Orphan(s, p)
    ensures StaysOrphan(s, StartFfmpeg(s, c), p)
  {
  }

  lemma {:induction false} TickLeavesOrphan(s: Recorder, c: Call, p: nat)
    requires Orphan(s, p)
    ensures StaysOrphan(s, Tick(s, c), p)
  {
    hide StartFfmpeg, ChildExited;
    StartLeavesOrphan(s.(nextStart := 0, running := true, attempts := 0), c, p);
    StartLeavesOrphan(s.(nextStart := 0), c, p);
    ExitLeavesOrphan(s.(proc := Polled(s.proc, s.os)), c, p);
  }

  lemma {:induction false} ExitLeavesOrphan(s: Recorder, c: Call, p: nat)
    requires Orphan(s, p)
    ensures StaysOrphan(s, ChildExited(s, c), p)
  {
  }

  lemma {:induction false} StreamLeavesOrphan(s: Recorder, url: string, c: Call, p: nat)
    requires Orphan(s, p)
    ensures StaysOrphan(s, SetStream(s, url, c), p) && StaysOrphan(s, ClearStream(s, c), p)
  {
    hide StartFfmpeg;
    StartLeavesOrphan(s.(url := url, streaming := true, proc := Polled(s.proc, s.os)), c, p);
    var t := s.(url := "", streaming := false, proc := Handle(s.proc.pid, true), os := s.os.Gone(s.proc.pid),
      teeActive := false);
    StartLeavesOrphan(t, c, p);
  }

  lemma {:induction false} OrphanStep(s: Recorder, e: Step, p: nat)
    requires Orphan(s, p) && e != Exit(p)
    ensures StaysOrphan(s, Apply(s, e), p)
  {
    hide Tick, SetStream, ClearStream;
    match e {
      case DoTick(c) => TickLeavesOrphan(s, c, p);
      case DoSetStream(url, c) => StreamLeavesOrphan(s, url, c, p);
      case DoClearStream(c) => StreamLeavesOrphan(s, "", c, p);
      case DoStop =>
      case Exit(_) =>
    }
  }

  /** No run of calls ever ends an orphan or stops it pushing; only its own exit does. */
  lemma {:induction false} OrphanSurvives(s: Recorder, es: seq<Step>, p: nat)
    requires Orphan(s, p) && Exit(p) !in es
    ensures Orphan(Run(s, es), p)
    ensures p in s.os.pushing ==> p in Run(s, es).os.pushing
    decreases |es|
  {
    hide Apply, Orphan;
    if es == [] {
    } else {
      OrphanStep(s, es[0], p);
      OrphanSurvives(Apply(s, es[0]), es[1..], p);
    }
  }

  /**
   The child set_stream started is let go of by a later tick exactly when the deferred start is due
   and ffmpeg is there, even if it cannot be spawned; if it can, a second child runs beside the first.
   */
  lemma {:induction false} DeferredTickOrphansExactly(s: Recorder, url: string, c: Call, later: Call)
    requires Inv(s) && Overlaps(s, DoSetStream(url, c))
    ensures var t, first := Tick(SetStream(s, url, c), later), s.os.next;
            && (Orphan(t, first) <==> later.found && later.now >= s.nextStart)
            && (Orphan(t, first) && later.spawned ==> t.os.live == {first, first + 1})
            && (url != "" ==> first in t.os.pushing)
  {
    NoneAlive(s);
  }

  /**
   The run such a step leads to: whatever commands follow, stop and clear included, the first child
   keeps running, and keeps pushing to its RTMP server, until it ends by itself.
   */
  lemma {:induction false} OverlapLeavesOrphan(s: Recorder, url: string, c: Call, later: Call, es: seq<Step>)
    requires Inv(s) && Overlaps(s, DoSetStream(url, c)) && url != ""
    requires later.found && later.now >= s.nextStart
    requires Exit(s.os.next) !in es
    ensures s.os.next in Run(Tick(SetStream(s, url, c), later), es).os.pushing
  {
    hide Tick, SetStream, Run;
    DeferredTickOrphansExactly(s, url, c, later);
    OrphanSurvives(Tick(SetStream(s, url, c), later), es, s.os.next);
  }

  // ── Stopping ──

  ghost predicate Silent(s: Recorder) { !s.running && s.nextStart <= 0 && s.os.live == {} }

  lemma {:induction false} SilentStep(s: Recorder, e: Step)
    requires Silent(s)
    ensures Silent(Apply(s, e))
  {
  }

  lemma {:induction false} SilentRun(s: Recorder, es: seq<Step>)
    requires Silent(s)
    ensures Silent(Run(s, es))
    decreases |es|
  {
    hide Apply, Silent;
    if es == [] {
    } else {
      SilentStep(s, es[0]);
      SilentRun(Apply(s, es[0]), es[1..]);
    }
  }

  /** The tick that reaches a start left pending brings a stopped recorder back. */
  lemma {:induction false} PendingStartWakes(s: Recorder) returns (es: seq<Step>)
    requires Inv(s) && s.nextStart > 0
    ensures Run(Stop(s), es).os.live != {}
  {
    es := [DoTick(Call(s.nextStart, true, true, 0))];
    assert Run(Stop(s), es) == Run(Apply(Stop(s), es[0]), []);
    assert s.os.next in Run(Stop(s), es).os.live;
  }

  ghost predicate NeverStarts(s: Recorder) { forall es :: Run(s, es).os.live == {} }

  /** recorder_stop is final, no later step starting a child, exactly when no start was pending. */
  lemma {:induction false} StopIsFinalExactly(s: Recorder)
    requires Inv(s)
    ensures NeverStarts(Stop(s)) <==> s.nextStart <= 0
  {
    hide Run;
    StopKeeps(s);
    if s.nextStart <= 0 {
      forall es ensures Run(Stop(s), es).os.live == {} { SilentRun(Stop(s), es); }
    } else {
      var es := PendingStartWakes(s);
    }
  }

  // ── A failing tee, a hanging child ──

  /** The relay has been given up until `until`: nothing streams, nothing pushes. */
  ghost predicate Cooling(s: Recorder, until: int) {
    s.teeFailUntil == until > 0 && !s.streaming && !s.teeActive && s.os.pushing == {}
  }

  lemma {:induction false} FailedTeeCools(s: Recorder, c: Call)
    requires Inv(s) && s.running && s.nextStart <= 0 && s.teeActive && s.segmentStart != 0 && !Alive(s.proc, s.os)
    requires c.size < MIN_FILE_SIZE && c.now >= 0
    ensures Cooling(Tick(s, c), c.now + SEGMENT_DURATION_SEC)
  {
    NoneAlive(s);
  }

  /** The clock a step sees; what makes no call leaves it at `clock`. */
  function ClockOf(e: Step, clock: int): int {
    match e
    case DoTick(c) => c.now
    case DoSetStream(_, c) => c.now
    case DoClearStream(c) => c.now
    case _ => clock
  }

  lemma {:induction false} CoolingStep(s: Recorder, e: Step, until: int)
    requires Cooling(s, until) && ClockOf(e, 0) < until
    ensures Cooling(Apply(s, e), until)
  {
  }

  lemma {:induction false} CoolingRun(s: Recorder, es: seq<Step>, until: int)
    requires Cooling(s, until) && forall i :: 0 <= i < |es| ==> ClockOf(es[i], 0) < until
    ensures Cooling(Run(s, es), until)
    decreases |es|
  {
    hide Apply, Cooling, ClockOf;
    if es == [] {
    } else {
      CoolingStep(s, es[0], until);
      CoolingRun(Apply(s, es[0]), es[1..], until);
    }
  }

  /**
   A tee whose segment came out too small is switched off, and whatever start commands follow, nothing
   streams or pushes again for the length of a segment: thirty minutes.
   */
  lemma {:induction false} FailedTeeStaysOff(s: Recorder, c: Call, es: seq<Step>)
    requires Inv(s) && s.running && s.nextStart <= 0 && s.teeActive && s.segmentStart != 0 && !Alive(s.proc, s.os)
    requires c.size < MIN_FILE_SIZE && c.now >= 0
    requires forall i :: 0 <= i < |es| ==> ClockOf(es[i], 0) < c.now + 1800
    ensures !Run(Tick(s, c), es).streaming && Run(Tick(s, c), es).os.pushing == {}
  {
    hide Tick, Run, Inv, ClockOf;
    FailedTeeCools(s, c);
    CoolingRun(Tick(s, c), es, c.now + 1800);
  }

  /** While it cools, a start is taken up exactly from the end of those thirty minutes on. */
  lemma {:induction false} CoolingEndsExactly(s: Recorder, until: int, url: string, c: Call)
    requires Cooling(s, until)
    ensures SetStream(s, url, c).streaming <==> c.now >= until
  {
  }

  /** After any tick, a live child is within its segment's time and two minutes. */
  lemma {:induction false} HungChildIsEnded(s: Recorder, c: Call)
    requires Inv(s) && s.running
    ensures Tick(s, c).os.live != {} ==> c.now - Tick(s, c).segmentStart <= SEGMENT_DURATION_SEC + 120
  {
    if !Alive(s.proc, s.os) { NoneAlive(s); } else { assert s.os.live == {s.proc.pid}; }
  }

  // ── Never giving up ──

  predicate Forward(es: seq<Step>, clock: int)
    decreases |es|
  {
    es == [] || (clock <= ClockOf(es[0], clock) && Forward(es[1..], ClockOf(es[0], clock)))
  }

  function ClockAfter(es: seq<Step>, clock: int): int
    decreases |es|
  {
    if es == [] then clock else ClockAfter(es[1..], ClockOf(es[0], clock))
  }

  /** However often the camera has failed, the next attempt is never more than thirty seconds away. */
  lemma {:induction false} NextStartIsNear(s: Recorder, es: seq<Step>, clock: int)
    requires s.nextStart <= clock + MAX_RECONNECT_DELAY && Forward(es, clock) && clock >= 0
    ensures Run(s, es).nextStart <= ClockAfter(es, clock) + MAX_RECONNECT_DELAY
    decreases |es|
  {
    if es == [] {
    } else {
      NextStartIsNear(Apply(s, es[0]), es[1..], ClockOf(es[0], clock));
    }
  }

  /**
   A lost child is replaced by the second tick, thirty seconds or more after the first: whatever
   number of attempts failed before, the recorder has not given up. (An ffmpeg has run before, so
   the recorder is not left to the camera's built-in recording.)
   */
  lemma {:induction false} LostChildIsReplaced(s: Recorder, first: Call, second: Call)
    requires Inv(s) && s.running && s.segmentStart > 0 && s.os.live == {}
    requires first.now > 0 && s.nextStart <= first.now + MAX_RECONNECT_DELAY
    requires first.now + MAX_RECONNECT_DELAY <= second.now <= first.now + SEGMENT_DURATION_SEC
    requires first.found && first.spawned && second.found && second.spawned
    ensures Tick(Tick(s, first), second).os.live != {}
  {
    var t := Tick(s, first);
    if s.nextStart > 0 && first.now >= s.nextStart {
      assert s.os.next in t.os.live && t.proc == Handle(s.os.next, false);
      assert s.os.next in Tick(t, second).os.live;
    } else {
      assert t.os.live == {} && 0 < t.nextStart <= second.now && t.running;
      assert t.os.next in Tick(t, second).os.live;
    }
  }
}
