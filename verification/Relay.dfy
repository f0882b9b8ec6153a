/** The standalone RTMP relay of src/stream.c: one ffmpeg child restarted with a growing delay. */
module Relay {
  import opened Processes

  const MAX_STREAM_RESTART := 10
  const STREAM_STABLE_SEC := 60

  /** stream_ctx_t, with the operating system's view of its children. */
  datatype Relay = Relay(proc: Handle, running: bool, startedAt: int, restartAt: int, count: nat, delay: int, os: Os)

  const ZEROED := Relay(NO_CHILD, false, 0, 0, 0, 0, BOOT)

  /**
   What one call meets: the clock, whether ffmpeg, camera address and server are all there,
   whether the spawn works.
   */
  datatype Attempt = Attempt(now: nat, ready: bool, spawned: bool)

  // ── The calls, on values ──

  /** stream_start: only the failure count and the delay survive from before. */
  function Start(s: Relay, c: Attempt): Relay {
    var t := Relay(NO_CHILD, false, 0, 0, s.count, if s.delay > 0 then s.delay else 3, s.os);
    if !c.ready || !c.spawned then t
    else t.(proc := Handle(s.os.next, false), running := true, startedAt := c.now, os := s.os.Spawn(true))
  }

  /** stream_stop. */
  function Stop(s: Relay): Relay {
    if Alive(s.proc, s.os)
    then s.(proc := Handle(s.proc.pid, true), os := s.os.Gone(s.proc.pid), running := false)
    else s.(proc := Polled(s.proc, s.os), running := false)
  }

  /** The child is found dead. */
  function Died(s: Relay, now: nat): Relay {
    if s.count + 1 >= MAX_STREAM_RESTART then s.(running := false, count := 0, delay := 3)
    else
      var d := if s.delay < 3 then 3 else s.delay;
      s.(count := s.count + 1, restartAt := now + d, delay := if d * 2 > 60 then 60 else d * 2)
  }

  /** stream_tick. */
  function Tick(s: Relay, c: Attempt): Relay {
    if !s.running then s
    else
      var alive, t := Alive(s.proc, s.os), s.(proc := Polled(s.proc, s.os));
      if !alive && t.proc.exited && s.restartAt > 0 then
        if c.now >= s.restartAt then Start(t.(restartAt := 0), c) else t
      else if alive then
        if s.count > 0 && c.now - s.startedAt > STREAM_STABLE_SEC then t.(count := 0, delay := 3) else t
      else if !t.proc.exited then t
      else Died(t, c.now)
  }

  // ── The calls, in place ──

  class Context {
    var proc: Handle
    var running: bool
    var startedAt: int
    var restartAt: int
    var count: nat
    var delay: int
    var os: Os

    function State(): Relay
      reads this
    {
      Relay(proc, running, startedAt, restartAt, count, delay, os)
    }

    constructor ()
      ensures State() == ZEROED
    {
      proc, running, startedAt, restartAt, count, delay, os := NO_CHILD, false, 0, 0, 0, 0, BOOT;
    }

    method ProcAlive() returns (alive: bool)
      modifies this`proc
      ensures alive == Alive(old(proc), os) && proc == Polled(old(proc), os)
    {
      if proc.exited || proc.pid == 0 { return false; }
      if proc.pid in os.live { return true; }
      proc := Handle(proc.pid, true);
      return false;
    }

    method Begin(c: Attempt) returns (ok: bool)
      modifies this
      ensures State() == Start(old(State()), c)
      ensures ok == running
    {
      proc, running, startedAt, restartAt := NO_CHILD, false, 0, 0;
      if delay <= 0 { delay := 3; }
      if !c.ready { return false; }
      if !c.spawned { return false; }
      proc := Handle(os.next, false);
      os := os.Spawn(true);
      running := true;
      startedAt := c.now;
      return true;
    }

    method OnStop()
      modifies this
      ensures State() == Stop(old(State()))
    {
      var alive := ProcAlive();
      if alive {
        os := os.Gone(proc.pid);
        proc := Handle(proc.pid, true);
      }
      running := false;
    }

    method OnTick(c: Attempt)
      modifies this
      ensures State() == Tick(old(State()), c)
    {
      if !running { return; }
      var alive := ProcAlive();
      if !alive && proc.exited && restartAt > 0 {
        if c.now >= restartAt {
          restartAt := 0;
          var _ := Begin(c);
        }
        return;
      }
      if alive {
        if count > 0 && c.now - startedAt > STREAM_STABLE_SEC { count, delay := 0, 3; }
        return;
      }
      if !proc.exited { return; }
      count := count + 1;
      if count >= MAX_STREAM_RESTART {
        running, count, delay := false, 0, 3;
        return;
      }
      if delay < 3 { delay := 3; }
      restartAt := c.now + delay;
      delay := delay * 2;
      if delay > 60 { delay := 60; }
    }
  }

  // ── Runs ──

  datatype Step = DoStart(c: Attempt) | DoTick(c: Attempt) | DoStop | Exit(pid: nat)

  /** Both callers of stream_start skip it while the relay runs. */
  function Apply(s: Relay, e: Step): Relay {
    match e
    case DoStart(c) => if s.running then s else Start(s, c)
    case DoTick(c) => Tick(s, c)
    case DoStop => Stop(s)
    case Exit(pid) => s.(os := s.os.Gone(pid))
  }

  function Run(s: Relay, es: seq<Step>): Relay
    decreases |es|
  {
    if es == [] then s else Run(Apply(s, es[0]), es[1..])
  }

  /** The delay before the restart that follows `failures` earlier deaths in a row. */
  function Backoff(failures: nat): nat {
    if failures == 0 then 3 else if Backoff(failures - 1) * 2 > 60 then 60 else Backoff(failures - 1) * 2
  }

  function Pow2(n: nat): nat { if n == 0 then 1 else 2 * Pow2(n - 1) }

  lemma {:induction false} BackoffIsCappedDoubling(n: nat)
    ensures Backoff(n) == if 3 * Pow2(n) > 60 then 60 else 3 * Pow2(n)
  {
    if n == 0 {
    } else {
      BackoffIsCappedDoubling(n - 1);
    }
  }

  /**
   One child at most, none while stopped or waiting to restart, and a delay that is a function of
   the failure count.
   */
  ghost predicate Inv(s: Relay) {
    && s.os.Valid()
    && Tracked(s.proc, s.os)
    && (!s.running || s.restartAt > 0 ==> s.os.live == {})
    && (s.running ==> s.proc.pid > 0)
    && s.count < MAX_STREAM_RESTART
    && (s.delay == Backoff(s.count) || (s.count == 0 && s.delay == 0 && !s.running))
  }

  lemma {:induction false} BackoffAtLeastThree(n: nat)
    ensures 3 <= Backoff(n) <= 60
  {
    if n == 0 {
    } else {
      BackoffAtLeastThree(n - 1);
    }
  }

  lemma {:induction false} NoneAlive(s: Relay)
    requires Inv(s) && !Alive(s.proc, s.os)
    ensures s.os.live == {} && s.os.pushing == {}
  {
    assert s.os.live == {};
  }

  lemma {:induction false} TickKeeps(s: Relay, c: Attempt)
    requires Inv(s)
    ensures Inv(Tick(s, c))
  {
    BackoffAtLeastThree(s.count);
    if !Alive(s.proc, s.os) { NoneAlive(s); }
  }

  lemma {:induction false} StepKeeps(s: Relay, e: Step)
    requires Inv(s)
    ensures Inv(Apply(s, e))
  {
    hide Tick;
    BackoffAtLeastThree(s.count);
    match e {
      case DoStart(c) =>
      case DoTick(c) => TickKeeps(s, c);
      case DoStop => if !Alive(s.proc, s.os) { NoneAlive(s); }
      case Exit(pid) =>
    }
  }

  /** Every run: at most one child, no child outlives the supervision, and the delay follows the failure count. */
  lemma {:induction false} RunKeeps(s: Relay, es: seq<Step>)
    requires Inv(s)
    ensures Inv(Run(s, es))
    decreases |es|
  {
    hide Apply, Inv;
    if es == [] {
    } else {
      StepKeeps(s, es[0]);
      RunKeeps(Apply(s, es[0]), es[1..]);
    }
  }

  /**
   A tick that finds the child dead restarts it min(3*2^k, 60) seconds later after k earlier
   failures, and gives up on the tenth.
   */
  lemma {:induction false} DeathIsScheduled(s: Relay, c: Attempt)
    requires Inv(s) && s.running && s.restartAt <= 0 && s.os.live == {}
    ensures var t := Tick(s, c);
            if s.count == MAX_STREAM_RESTART - 1 then !t.running && t.count == 0
            else t.running && t.count == s.count + 1
                 && t.restartAt == c.now + (if 3 * Pow2(s.count) > 60 then 60 else 3 * Pow2(s.count))
  {
    BackoffIsCappedDoubling(s.count);
    BackoffAtLeastThree(s.count);
  }

  /**
   The tick that reaches a pending restart leaves the relay running exactly when the start works;
   failing, it stays down.
   */
  lemma {:induction false} FailedRestartIsFinal(s: Relay, c: Attempt, later: seq<Attempt>)
    requires Inv(s) && s.running && 0 < s.restartAt <= c.now
    ensures Tick(s, c).running <==> c.ready && c.spawned
    ensures !(c.ready && c.spawned) ==> Ticks(Tick(s, c), later) == Tick(s, c)
  {
    NoneAliveWaiting(s);
    if !(c.ready && c.spawned) { DownStaysDown(Tick(s, c), later); }
  }

  lemma {:induction false} NoneAliveWaiting(s: Relay)
    requires Inv(s) && s.running && s.restartAt > 0
    ensures !Alive(s.proc, s.os) && Polled(s.proc, s.os).exited
  {
  }

  function Ticks(s: Relay, cs: seq<Attempt>): Relay
    decreases |cs|
  {
    if cs == [] then s else Ticks(Tick(s, cs[0]), cs[1..])
  }

  lemma {:induction false} DownStaysDown(s: Relay, cs: seq<Attempt>)
    requires !s.running
    ensures Ticks(s, cs) == s
    decreases |cs|
  {
    if cs == [] {
    } else {
      DownStaysDown(s, cs[1..]);
    }
  }

  // ── The crash loop ──

  /** One round: the child dies, the tick at `seen` notices, the tick at `again` restarts it. */
  datatype Crash = Crash(seen: nat, again: nat)

  function Round(s: Relay, k: Crash): Relay {
    Tick(Tick(s.(os := s.os.Gone(s.proc.pid)), Attempt(k.seen, true, true)), Attempt(k.again, true, true))
  }

  function Rounds(s: Relay, ks: seq<Crash>): Relay
    decreases |ks|
  {
    if ks == [] then s else Rounds(Round(s, ks[0]), ks[1..])
  }

  ghost predicate Up(s: Relay) { Inv(s) && s.running && s.restartAt == 0 && Alive(s.proc, s.os) }

  lemma {:induction false} RoundCounts(s: Relay, k: Crash)
    requires Up(s) && k.again >= k.seen + Backoff(s.count)
    ensures s.count < MAX_STREAM_RESTART - 1 ==> Up(Round(s, k)) && Round(s, k).count == s.count + 1
    ensures s.count == MAX_STREAM_RESTART - 1 ==> !Round(s, k).running && Round(s, k).os.live == {}
  {
    BackoffAtLeastThree(s.count);
    var dead := s.(os := s.os.Gone(s.proc.pid));
    assert dead.os.live == {};
    var waiting := Tick(dead, Attempt(k.seen, true, true));
    if s.count < MAX_STREAM_RESTART - 1 {
      assert waiting.running && k.seen < waiting.restartAt <= k.again;
      TickKeeps(dead, Attempt(k.seen, true, true));
      TickKeeps(waiting, Attempt(k.again, true, true));
    }
  }

  /** A camera that keeps crashing is restarted nine times; the tenth death in a row ends the relay for good. */
  lemma {:induction false} GivesUpAtTheTenthDeath(s: Relay, ks: seq<Crash>)
    requires Up(s) && s.count + |ks| <= MAX_STREAM_RESTART
    requires forall i :: 0 <= i < |ks| ==> ks[i].again >= ks[i].seen + Backoff(s.count + i)
    ensures s.count + |ks| < MAX_STREAM_RESTART ==> Up(Rounds(s, ks)) && Rounds(s, ks).count == s.count + |ks|
    ensures s.count + |ks| == MAX_STREAM_RESTART ==> !Rounds(s, ks).running && Rounds(s, ks).os.live == {}
    decreases |ks|
  {
    hide Round, Up;
    if ks != [] {
      CountBound(s);
      assert ks[0].again >= ks[0].seen + Backoff(s.count + 0);
      RoundCounts(s, ks[0]);
      if |ks| == 1 {
        assert Rounds(s, ks) == Rounds(Round(s, ks[0]), []);
      } else {
        forall i | 0 <= i < |ks| - 1
          ensures ks[1..][i].again >= ks[1..][i].seen + Backoff(s.count + 1 + i)
        {
          assert ks[1..][i] == ks[i + 1] && ks[i + 1].again >= ks[i + 1].seen + Backoff(s.count + (i + 1));
        }
        GivesUpAtTheTenthDeath(Round(s, ks[0]), ks[1..]);
      }
    } else {
      CountBound(s);
    }
  }

  lemma {:induction false} CountBound(s: Relay)
    requires Up(s)
    ensures s.count < MAX_STREAM_RESTART
  {
  }
}
