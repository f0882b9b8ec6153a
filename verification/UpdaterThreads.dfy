/**
 The two threads of src/updater_main.c: the main loop (MQTT, update gate, watchdog) and the update
 worker, interleaved step by step over their shared flags.
 */
module UpdaterThreads {

  const WATCHDOG_MAX_RETRIES := 5

  /** Where the main loop stands; `BackingOff` is the watchdog's sleep before it starts the agent. */
  datatype MainAt = Polling | AtGate | AtWatchdog | BackingOff

  /** Where the worker stands; `Installing` is between its two renames, and from `Leaving` on it touches nothing. */
  datatype WorkerAt = NotWorking | Downloading | BackingUp | Installing | Settling | Leaving

  datatype Sys = Sys(
    main: MainAt,
    worker: WorkerAt,
    inProgress: bool,
    finished: bool,
    pending: bool,
    shouldRun: bool,
    retries: nat)

  const INIT := Sys(Polling, NotWorking, false, true, false, true, 0)

  datatype Message = UpdateTo(version: string) | StartAgent | RestartAgent | StopAgent | OtherMessage

  datatype Move =
    | Receive(m: Message)
    | PollDone
    | Gate(spawned: bool)
    | Watchdog(due: bool, agentUp: bool, stable: bool)
    | BackoffOver
    | Work(ok: bool)

  predicate Enabled(s: Sys, m: Move) {
    match m
    case Receive(_) => s.main == Polling
    case PollDone => s.main == Polling
    case Gate(_) => s.main == AtGate
    case Watchdog(_, _, _) => s.main == AtWatchdog
    case BackoffOver => s.main == BackingOff
    case Work(_) => s.worker != NotWorking
  }

  function OnMessage(s: Sys, m: Message): Sys {
    match m
    case UpdateTo(version) => if version == "" || s.inProgress then s else s.(pending := true)
    case StartAgent => s.(shouldRun := true, retries := 0)
    case RestartAgent => s.(retries := 0)
    case StopAgent => s.(shouldRun := false)
    case OtherMessage => s
  }

  /** The gate: a pending update starts a worker when none is under way. */
  function OnGate(s: Sys, spawned: bool): Sys {
    var t := s.(main := AtWatchdog);
    if s.pending && !s.inProgress && s.finished then
      if spawned then t.(pending := false, inProgress := true, finished := false, worker := Downloading)
      else t.(pending := false)
    else t
  }

  function OnWatchdog(s: Sys, due: bool, agentUp: bool, stable: bool): Sys {
    if !due || !s.shouldRun || s.inProgress then s.(main := Polling)
    else if agentUp then s.(main := Polling, retries := if stable then 0 else s.retries)
    else if s.retries < WATCHDOG_MAX_RETRIES then s.(main := BackingOff, retries := s.retries + 1)
    else s.(main := Polling)
  }

  function OnWork(s: Sys, ok: bool): Sys {
    match s.worker
    case NotWorking => s
    case Downloading =>
      if ok then s.(worker := BackingUp, shouldRun := false) else s.(worker := Leaving, inProgress := false)
    case BackingUp => s.(worker := Installing)
    case Installing =>
      if ok then s.(worker := Settling, shouldRun := true)
      else s.(worker := Leaving, shouldRun := true, inProgress := false)
    case Settling => s.(worker := Leaving, retries := 0, inProgress := false)
    case Leaving => s.(worker := NotWorking, finished := true)
  }

  function Apply(s: Sys, m: Move): Sys {
    match m
    case Receive(msg) => OnMessage(s, msg)
    case PollDone => s.(main := AtGate)
    case Gate(spawned) => OnGate(s, spawned)
    case Watchdog(due, agentUp, stable) => OnWatchdog(s, due, agentUp, stable)
    case BackoffOver => s.(main := Polling)
    case Work(ok) => OnWork(s, ok)
  }

  function Run(s: Sys, ms: seq<Move>): Sys
    decreases |ms|
  {
    if ms == [] then s else Run(Apply(s, ms[0]), ms[1..])
  }

  /** An interleaving: each move is one the thread it belongs to can make. */
  predicate Possible(s: Sys, ms: seq<Move>)
    decreases |ms|
  {
    ms == [] || (Enabled(s, ms[0]) && Possible(Apply(s, ms[0]), ms[1..]))
  }

  /** The worker is anywhere between its start and the clearing of the flag. */
  predicate Updating(s: Sys) { s.worker in {Downloading, BackingUp, Installing, Settling} }

  /**
   The flag is up exactly while the worker updates; a watchdog that has decided to start the agent
   rules a worker out.
   */
  ghost predicate Inv(s: Sys) {
    && (s.inProgress <==> Updating(s))
    && (s.finished <==> s.worker == NotWorking)
    && (s.main == BackingOff ==> !Updating(s))
  }

  lemma {:induction false} MoveKeeps(s: Sys, m: Move)
    requires Inv(s) && Enabled(s, m)
    ensures Inv(Apply(s, m))
  {
  }

  lemma {:induction false} RunKeeps(s: Sys, ms: seq<Move>)
    requires Inv(s) && Possible(s, ms)
    ensures Inv(Run(s, ms))
    decreases |ms|
  {
    hide Inv, Apply, Enabled;
    if ms == [] {
    } else {
      MoveKeeps(s, ms[0]);
      RunKeeps(Apply(s, ms[0]), ms[1..]);
    }
  }

  lemma {:induction false} PossibleSplit(s: Sys, ms: seq<Move>, m: Move)
    requires Possible(s, ms + [m])
    ensures Possible(s, ms) && Enabled(Run(s, ms), m)
    decreases |ms|
  {
    hide Apply, Enabled;
    if ms == [] {
      assert (ms + [m])[0] == m;
    } else {
      assert (ms + [m])[1..] == ms[1..] + [m];
      PossibleSplit(Apply(s, ms[0]), ms[1..], m);
    }
  }

  /** In no interleaving does the watchdog start the agent while an update is under way. */
  lemma {:induction false} WatchdogNeverOverlapsSwap(ms: seq<Move>)
    requires Possible(INIT, ms + [BackoffOver])
    ensures !Updating(Run(INIT, ms))
  {
    hide Run, Possible;
    PossibleSplit(INIT, ms, BackoffOver);
    RunKeeps(INIT, ms);
  }

  /** In no interleaving is a worker started beside another one. */
  lemma {:induction false} OneWorkerAtATime(ms: seq<Move>, spawned: bool)
    requires Possible(INIT, ms + [Gate(spawned)])
    ensures Run(INIT, ms).worker != NotWorking ==> OnGate(Run(INIT, ms), spawned).worker == Run(INIT, ms).worker
  {
    hide Run, Possible;
    PossibleSplit(INIT, ms, Gate(spawned));
    RunKeeps(INIT, ms);
  }

  /**
   A start or restart ordered over MQTT overlaps the update exactly when the flag, which its
   handler does not read, is up.
   */
  lemma {:induction false} OrderedStartOverlapsExactly(ms: seq<Move>, m: Message)
    requires m in {StartAgent, RestartAgent} && Possible(INIT, ms + [Receive(m)])
    ensures Updating(Run(INIT, ms)) <==> Run(INIT, ms).inProgress
  {
    hide Run, Possible;
    PossibleSplit(INIT, ms, Receive(m));
    RunKeeps(INIT, ms);
  }

  /** And it does happen: an interleaving in which the agent is started between the two renames. */
  lemma {:induction false} OrderedStartCanOverlap(version: string) returns (ms: seq<Move>)
    requires version != ""
    ensures Possible(INIT, ms + [Receive(StartAgent)]) && Run(INIT, ms).worker == Installing
  {
    var s1 := Apply(INIT, Receive(UpdateTo(version)));
    var s2 := Apply(s1, PollDone);
    var s3 := Apply(s2, Gate(true));
    var s4 := Apply(s3, Watchdog(false, true, false));
    var s5 := Apply(s4, Work(true));
    var s6 := Apply(s5, Work(true));
    var last := Receive(StartAgent);
    ms := [Receive(UpdateTo(version)), PollDone, Gate(true), Watchdog(false, true, false), Work(true), Work(true)];
    Unroll(s6, [], last);
    Unroll(s5, [Work(true)], last);
    Unroll(s4, [Work(true), Work(true)], last);
    Unroll(s3, [Watchdog(false, true, false), Work(true), Work(true)], last);
    Unroll(s2, [Gate(true), Watchdog(false, true, false), Work(true), Work(true)], last);
    Unroll(s1, [PollDone, Gate(true), Watchdog(false, true, false), Work(true), Work(true)], last);
    Unroll(INIT, ms, last);
  }

  /** One step of the definitions, for a run followed by a last move. */
  lemma {:induction false} Unroll(s: Sys, ms: seq<Move>, last: Move)
    ensures ms == [] ==> Run(s, ms) == s && (Possible(s, ms + [last]) <==> Enabled(s, last))
    ensures ms != [] ==> Run(s, ms) == Run(Apply(s, ms[0]), ms[1..])
    ensures ms != [] ==> (Possible(s, ms + [last]) <==>
      Enabled(s, ms[0]) && Possible(Apply(s, ms[0]), ms[1..] + [last]))
  {
    hide Apply, Enabled;
    if ms != [] { assert (ms + [last])[1..] == ms[1..] + [last]; } else { assert (ms + [last])[1..] == []; }
  }
}
