/**
 The binary swap of src/updater_main.c's update worker. Renames and unlinks may fail; the model
 records every state of the disk, and whether the new agent has been seen running by then.
 */
module Updater {
  import opened Common
  import opened FleetOta

  /** A state on the way; `seen` once the new agent was found running. */
  datatype Moment = Moment(disk: Disk, seen: bool)

  /** What the outside does: the downloaded bytes if any, the calls that work, the polls that find the agent running. */
  datatype Fate = Fate(
    body: Option<Content>,
    opens: bool,
    unlinksBackup: bool,
    backsUp: bool,
    installs: bool,
    restores: bool,
    polls: seq<bool>,
    unlinksBinary: bool,
    cleansUp: bool)

  datatype Verdict = NoDownload | RolledBackSwap | RolledBackStart | Updated

  const WAIT_POLLS := 15

  // ── On values ──

  function Unlinked(d: Disk, f: Fate): Disk { if f.unlinksBackup then d.(backup := None) else d }

  /** rename(agent, bak): it needs a binary to move. */
  function Aside(d: Disk, f: Fate): Disk {
    if f.backsUp && d.binary.Some? then d.(binary := None, backup := d.binary) else d
  }

  /** rename(bak, agent), when there is a backup. */
  function Restored(d: Disk, f: Fate): Disk {
    if d.backup.Some? && f.restores then d.(binary := d.backup, backup := None) else d
  }

  /** Whether one of the first fifteen polls finds the agent running. */
  predicate ComesUp(polls: seq<bool>) {
    exists i :: 0 <= i < WAIT_POLLS && i < |polls| && polls[i]
  }

  /** The wait for the new agent, and what follows from it. */
  function SettleOn(installed: Disk, f: Fate): (seq<Moment>, Verdict) {
    if ComesUp(f.polls) then
      var clean := if f.cleansUp then installed.(backup := None) else installed;
      ([Moment(installed, true), Moment(clean, true)], Updated)
    else
      var unlinked := if f.unlinksBinary then installed.(binary := None) else installed;
      ([Moment(unlinked, false), Moment(Restored(unlinked, f), false)], RolledBackStart)
  }

  /** update_worker_fn from the downloaded file on: the moments passed and the verdict. */
  function SwapIn(d: Disk, f: Fate): (seq<Moment>, Verdict) {
    var cleared := Unlinked(d, f);
    var aside := Aside(cleared, f);
    var start := [Moment(cleared, false), Moment(aside, false)];
    if !f.installs then (start + [Moment(Restored(aside, f), false)], RolledBackSwap)
    else (start + [Moment(Swapped(aside), false)] + SettleOn(Swapped(aside), f).0, SettleOn(Swapped(aside), f).1)
  }

  function Work(d: Disk, f: Fate): (seq<Moment>, Verdict) {
    if f.body.None? || |f.body.value| < 1000 || !f.opens then ([], NoDownload)
    else
      var staged := d.(staged := f.body);
      ([Moment(staged, false)] + SwapIn(staged, f).0, SwapIn(staged, f).1)
  }

  // ── In place ──

  class Worker {
    var disk: Disk
    ghost var moments: seq<Moment>

    constructor (d: Disk)
      ensures disk == d && moments == []
    {
      disk, moments := d, [];
    }

    method Write(d: Disk, ghost seen: bool)
      modifies this
      ensures disk == d && moments == old(moments) + [Moment(d, seen)]
    {
      disk := d;
      moments := moments + [Moment(d, seen)];
    }

    /** The wait for the agent to come up: up to fifteen polls. */
    method AwaitAgent(polls: seq<bool>) returns (started: bool)
      ensures started == ComesUp(polls)
    {
      started := false;
      for i := 0 to WAIT_POLLS
        invariant !started
        invariant forall j :: 0 <= j < i && j < |polls| ==> !polls[j]
      {
        if i < |polls| && polls[i] { return true; }
      }
    }

    method RestoreBackup(f: Fate)
      modifies this
      ensures disk == Restored(old(disk), f) && moments == old(moments) + [Moment(disk, false)]
    {
      if disk.backup.Some? && f.restores {
        Write(disk.(binary := disk.backup, backup := None), false);
      } else {
        Write(disk, false);
      }
    }

    method MoveAside(f: Fate)
      modifies this
      ensures disk == Aside(Unlinked(old(disk), f), f)
      ensures moments == old(moments) + [Moment(Unlinked(old(disk), f), false), Moment(disk, false)]
    {
      if f.unlinksBackup { Write(disk.(backup := None), false); } else { Write(disk, false); }
      if f.backsUp && disk.binary.Some? {
        Write(disk.(binary := None, backup := disk.binary), false);
      } else {
        Write(disk, false);
      }
    }

    method SwapBinaries(f: Fate) returns (verdict: Verdict)
      modifies this
      ensures moments == old(moments) + SwapIn(old(disk), f).0
      ensures verdict == SwapIn(old(disk), f).1
    {
      hide Aside, Unlinked, Restored, SettleOn;
      MoveAside(f);
      if !f.installs {
        RestoreBackup(f);
        return RolledBackSwap;
      }
      Write(Disk(disk.staged, None, disk.backup), false);
      verdict := Settle(f);
    }

    method Settle(f: Fate) returns (verdict: Verdict)
      modifies this
      ensures verdict == SettleOn(old(disk), f).1
      ensures moments == old(moments) + SettleOn(old(disk), f).0
    {
      hide ComesUp, Restored;
      var started := AwaitAgent(f.polls);
      if !started {
        if f.unlinksBinary { Write(disk.(binary := None), false); } else { Write(disk, false); }
        RestoreBackup(f);
        return RolledBackStart;
      }
      Write(disk, true);
      if f.cleansUp { Write(disk.(backup := None), true); } else { Write(disk, true); }
      return Updated;
    }

    method Run(f: Fate) returns (verdict: Verdict)
      modifies this
      ensures moments == old(moments) + Work(old(disk), f).0 && verdict == Work(old(disk), f).1
    {
      hide SwapIn;
      if f.body.None? || |f.body.value| < 1000 || !f.opens { return NoDownload; }
      Write(disk.(staged := f.body), false);
      verdict := SwapBinaries(f);
    }
  }

  // ── The old binary survives until the new one has been seen ──

  ghost predicate KeptUntilSeen(ms: seq<Moment>, bytes: Content) {
    forall i :: 0 <= i < |ms| ==> ms[i].seen || Holds(ms[i].disk, bytes)
  }

  /** The backup rename works; or nothing is installed and no stale backup can be renamed over the binary. */
  predicate OldIsSafe(d: Disk, f: Fate) {
    f.backsUp || (!f.installs && (Unlinked(d, f).backup.None? || !f.restores))
  }

  lemma {:induction false} SwapKeepsOld(d: Disk, f: Fate, bytes: Content)
    requires d.binary == Some(bytes) && OldIsSafe(d, f)
    ensures KeptUntilSeen(SwapIn(d, f).0, bytes)
  {
    hide ComesUp;
  }

  lemma {:induction false} SwapLosesOld(d: Disk, f: Fate, bytes: Content)
    requires d.binary == Some(bytes) && !OldIsSafe(d, f)
    requires d.staged != Some(bytes) && d.backup != Some(bytes)
    ensures !KeptUntilSeen(SwapIn(d, f).0, bytes)
  {
    hide ComesUp;
    var m := SwapIn(d, f).0[2];
    assert !m.seen && !Holds(m.disk, bytes);
  }

  /**
   The old bytes stay in the binary or in `.bak` until the new agent was seen running exactly when
   the backup rename works, or the install fails with no stale `.bak` left to be renamed over them.
   */
  lemma {:induction false} OldSurvivesExactly(d: Disk, f: Fate, bytes: Content)
    requires d.binary == Some(bytes) && d.backup != Some(bytes)
    requires f.body.Some? && |f.body.value| >= 1000 && f.opens && f.body.value != bytes
    ensures KeptUntilSeen(Work(d, f).0, bytes) <==> OldIsSafe(d, f)
  {
    hide SwapIn;
    var staged := d.(staged := f.body);
    var ms := SwapIn(staged, f).0;
    if OldIsSafe(d, f) {
      SwapKeepsOld(staged, f, bytes);
    } else {
      SwapLosesOld(staged, f, bytes);
      var i :| 0 <= i < |ms| && !(ms[i].seen || Holds(ms[i].disk, bytes));
      assert Work(d, f).0[i + 1] == ms[i];
    }
  }

  function LastDisk(d: Disk, ms: seq<Moment>): Disk { if ms == [] then d else ms[|ms| - 1].disk }

  /** With the renames working, a new agent that never comes up leaves exactly the old binary in place. */
  lemma {:induction false} FailedStartRollsBack(d: Disk, f: Fate, bytes: Content)
    requires d.binary == Some(bytes) && f.backsUp && f.restores
    ensures Work(d, f).1 == Updated ==> LastDisk(d, Work(d, f).0).binary == f.body
    ensures Work(d, f).1 != Updated ==> LastDisk(d, Work(d, f).0).binary == Some(bytes)
  {
    hide ComesUp;
  }
}
